/**
  The check-and-reserve pipeline of one settlement. A driver calls its callbacks in any order
  with any objects; provenance is kept in nine WeakMaps keyed by result objects. Each result
  is a fresh object put in one of them, so the maps are one table here, whose values are tagged
  with the map they belong to and carry the frozen links to earlier results.

  Callbacks that await a dependency are taken as one step at the moment they complete: their
  lookups happen before the await, and entries are never removed.
 */
module CheckReservation {
  import opened CurrentAuthority
  import opened Prelude

  // ----- What the dependencies return -----

  datatype Revalidated = Revalidated(
    candidateId: Hex, expectedTxId: Hex, unsignedTx: Hex, prepared: Ref, revalidation: Hex,
    finality: Finality, finalityProof: Hex, amountNanoErg: int, recipientErgoTree: Hex)

  datatype PackageBinding = PackageBinding(prepared: Ref, expectedTxId: Hex, packageDigest: Hex)

  datatype SignedCheck = SignedCheck(signedTransaction: Hex, signerContext: Hex)

  /** opaqueSplit: the acceptance has the provenance a check admission asks for. */
  datatype Acceptance = Acceptance(
    opaqueSplit: bool, candidateId: Hex, expectedTxId: Hex, unsignedPackage: Hex, signedTransaction: Hex,
    checkResponse: Hex, signerContext: Hex, checkerIdentity: Hex, revalidation: Hex,
    finality: Finality, finalityProof: Hex)

  datatype ErgoView = ErgoView(
    candidateId: Hex, unsignedTx: Hex, view: Hex, anchorHeaderId: Hex, anchorHeaderHeight: int,
    trackerBoxId: Hex, duplicatePreventionBoxId: Hex, vaultBoxId: Hex)

  datatype SidechainView = SidechainView(
    candidateId: Hex, view: Hex, burnId: Hex, sidechainId: Hex, sidechainTxHash: Hex, sidechainHeight: int,
    executionBlockHash: Hex, eventIndex: int, amountNanoErg: int, recipientErgoTree: Hex)

  // ----- Admission, authorization, reservation -----

  datatype Admission = Admission(candidateId: Hex, check: CheckDigests, finality: Finality)

  datatype Authorization = Authorization(terms: Terms, digest: Hex)

  datatype ReservationAdmission = ReservationAdmission(terms: Terms, authorization: Hex, digest: Hex)

  /** The lifecycle input (an object the first callback must be given) with the payout it is for. */
  datatype Input = Input(id: Ref, unsignedPackage: Hex, payout: Payout, unsignedTx: Hex)

  predicate RevalidationFits(input: Input, r: Revalidated) {
    && r.candidateId == input.payout.candidateId
    && r.unsignedTx == input.unsignedTx
    && 0 < r.amountNanoErg == input.payout.amountNanoErg <= ERGO_LONG_MAX
    && r.recipientErgoTree == input.payout.recipientErgoTree
  }

  predicate PackageFits(input: Input, r: Revalidated, p: PackageBinding) {
    p.prepared == r.prepared && p.expectedTxId == r.expectedTxId && p.packageDigest == input.unsignedPackage
  }

  predicate SidechainMatches(v: SidechainView, r: Revalidated) {
    v.candidateId == r.candidateId && v.amountNanoErg == r.amountNanoErg && v.recipientErgoTree == r.recipientErgoTree
  }

  /** authorizeAuthenticatedSettlementCheckAdmission accepts. */
  predicate Admissible(a: Acceptance, r: Revalidated, e: ErgoView, v: SidechainView) {
    && a.opaqueSplit
    && a.finality.proofSystemId <= MAX_SAFE_INTEGER
    && SidechainMatches(v, r)
    && a.candidateId == r.candidateId == e.candidateId == v.candidateId
    && a.expectedTxId == r.expectedTxId
    && r.unsignedTx == e.unsignedTx
    && a.revalidation == r.revalidation
    && a.finality == r.finality
    && a.finalityProof == r.finalityProof
  }

  function Admit(d: Digests, a: Acceptance, e: ErgoView, v: SidechainView): Admission {
    var check := CheckDigests(
      a.expectedTxId, a.unsignedPackage, a.signedTransaction, a.checkResponse, a.signerContext, a.checkerIdentity,
      a.revalidation, e.view, v.view, a.finalityProof, "");
    Admission(a.candidateId, check.(checkAdmission := d.admission(a.candidateId, check, a.finality)), a.finality)
  }

  predicate ErgoViewMatches(e: ErgoView, c: CandidateRow) {
    && e.candidateId == c.candidateId
    && e.unsignedTx == c.unsignedTx
    && e.anchorHeaderId == c.anchorHeaderId
    && e.anchorHeaderHeight == c.anchorHeaderHeight
    && e.trackerBoxId == c.trackerBoxId
    && e.duplicatePreventionBoxId == c.dupInputBoxId
    && e.vaultBoxId == c.vaultBoxId
  }

  predicate SidechainViewMatches(v: SidechainView, c: CandidateRow) {
    && v.candidateId == c.candidateId
    && v.burnId == c.burnId
    && v.sidechainId == c.sidechainId
    && v.sidechainTxHash == c.burnTxHash
    && v.sidechainHeight == c.sidechainHeight
    && v.executionBlockHash == c.sidechainBlockHash
    && v.eventIndex == c.sidechainLogIndex
  }

  predicate AcceptanceMatches(a: Acceptance, x: Admission) {
    && a.candidateId == x.candidateId
    && a.expectedTxId == x.check.expectedTxId
    && a.unsignedPackage == x.check.unsignedPackage
    && a.signedTransaction == x.check.signedTransaction
    && a.checkResponse == x.check.checkResponse
    && a.signerContext == x.check.signerContext
    && a.checkerIdentity == x.check.checkerIdentity
    && a.revalidation == x.check.revalidation
    && a.finality == x.finality
    && a.finalityProof == x.check.finalityProof
  }

  predicate RevalidatedMatches(r: Revalidated, x: Admission) {
    && r.candidateId == x.candidateId
    && r.expectedTxId == x.check.expectedTxId
    && r.revalidation == x.check.revalidation
    && r.finality == x.finality
    && r.finalityProof == x.check.finalityProof
  }

  /** authorizeAuthenticatedSettlementExecution accepts, with c the candidate row it reads. */
  predicate Authorizable(
    c: CandidateRow, candidateId: Hex, r: Revalidated, p: PackageBinding, a: Acceptance, x: Admission,
    e: ErgoView, v: SidechainView)
  {
    && SidechainMatches(v, r)
    && Checked(c)
    && c.candidateId == candidateId == x.candidateId
    && c.check == Some(x.check)
    && c.finality == Some(x.finality)
    && RevalidatedMatches(r, x)
    && AcceptanceMatches(a, x)
    && p.expectedTxId == x.check.expectedTxId
    && p.packageDigest == x.check.unsignedPackage
    && c.unsignedTx == r.unsignedTx
    && p.prepared == r.prepared
    && ErgoViewMatches(e, c)
    && SidechainViewMatches(v, c)
    && 0 <= r.amountNanoErg
    && x.check.stableErgoView == e.view
    && x.check.stableSidechainView == v.view
  }

  function Authorize(d: Digests, c: CandidateRow, r: Revalidated, x: Admission): Authorization {
    var terms := Terms(c.candidateId, d.candidateAuthority(c), c.burnId, c.burnTxHash, c.dupInputBoxId, c.vaultBoxId,
                       c.unsignedTx, x.check, r.amountNanoErg, r.recipientErgoTree);
    Authorization(terms, d.authorization(terms))
  }

  /** assertAuthorizationPayoutBinding */
  predicate PayoutBound(d: Digests, input: Input, t: Terms) {
    d.payout(input.payout.(vaultBoxId := t.vaultBoxId, amountNanoErg := t.amountNanoErg,
                           recipientErgoTree := t.recipientErgoTree))
    == d.payout(input.payout)
  }

  /** authorizeAuthenticatedSettlementExecutionReservation accepts. */
  predicate Reservable(d: Digests, journal: Journal, t: Terms) {
    && t.candidateId in journal.candidates
    && Checked(journal.candidates[t.candidateId])
    && TermsMatchCandidate(d, t, journal.candidates[t.candidateId])
    && 0 < t.amountNanoErg
  }

  predicate Claims(a: Terms, b: Terms) {
    || a.candidateId == b.candidateId
    || a.burnId == b.burnId
    || a.burnTxHash == b.burnTxHash
    || a.duplicatePreventionBoxId == b.duplicatePreventionBoxId
    || a.vaultBoxId == b.vaultBoxId
    || a.check.expectedTxId == b.check.expectedTxId
  }

  predicate Unclaimed(journal: Journal, t: Terms) {
    && t.check.expectedTxId !in journal.legacyClaims
    && t.burnTxHash !in journal.legacyClaims
    && forall k :: k in journal.reservations ==>
         journal.reservations[k].active ==> !Claims(journal.reservations[k].terms, t)
  }

  /** reserveAuthenticatedSettlementExecution accepts. */
  predicate Grantable(d: Digests, journal: Journal, x: ReservationAdmission) {
    && Reservable(d, journal, x.terms)
    && x.terms.amountNanoErg <= ERGO_LONG_MAX
    && x.terms.burnId in journal.pegOuts
    && Unsettled(journal.pegOuts[x.terms.burnId])
    && PegOutMatchesTerms(journal.pegOuts[x.terms.burnId], x.terms)
    && if x.digest in journal.reservations
       then journal.reservations[x.digest] == Reservation(true, x.terms, x.authorization)
       else Unclaimed(journal, x.terms)
  }

  function Grant(journal: Journal, x: ReservationAdmission): Journal {
    journal.(reservations := journal.reservations[x.digest := Reservation(true, x.terms, x.authorization)])
  }

  /** Different candidates, burns, boxes and transactions. */
  ghost predicate Apart(a: Terms, b: Terms) {
    && a.candidateId != b.candidateId
    && a.burnId != b.burnId
    && a.burnTxHash != b.burnTxHash
    && a.duplicatePreventionBoxId != b.duplicatePreventionBoxId
    && a.vaultBoxId != b.vaultBoxId
    && a.check.expectedTxId != b.check.expectedTxId
  }

  /** No two live reservations claim a common resource. */
  ghost predicate Exclusive(journal: Journal) {
    forall j, k :: j in journal.reservations && k in journal.reservations && j != k
                   && journal.reservations[j].active && journal.reservations[k].active ==>
      Apart(journal.reservations[j].terms, journal.reservations[k].terms)
  }

  /** A reservation is granted exactly for the terms of a checked candidate and its open peg-out that
      no older attempt and no live reservation has a claim on, or once more for the same row. */
  lemma GrantableIff(d: Digests, journal: Journal, x: ReservationAdmission)
    ensures Grantable(d, journal, x) <==>
            && x.terms.candidateId in journal.candidates
            && var c := journal.candidates[x.terms.candidateId];
            && c.status == CheckPassed && c.invalidationReason == None && c.check.Some?
            && c.candidateId == x.terms.candidateId
            && c.burnId in journal.pegOuts
            && var p := journal.pegOuts[c.burnId];
            && (p.status == "detected" || p.status == "confirmed")
            && p.burnId == c.burnId && p.burnTxHash == c.burnTxHash && 0 < p.amountNanoErg <= ERGO_LONG_MAX
            && x.terms == TermsFor(d, c, c.check.value, p)
            && if x.digest in journal.reservations
               then journal.reservations[x.digest] == Reservation(true, x.terms, x.authorization)
               else && x.terms.check.expectedTxId !in journal.legacyClaims
                    && x.terms.burnTxHash !in journal.legacyClaims
                    && forall k :: k in journal.reservations && journal.reservations[k].active ==>
                         Apart(journal.reservations[k].terms, x.terms)
  {
  }

  lemma GrantKeepsExclusive(d: Digests, journal: Journal, x: ReservationAdmission)
    requires Exclusive(journal) && Grantable(d, journal, x)
    ensures Exclusive(Grant(journal, x))
  {
    hide Reservable;
  }

  /** What the reservation grants is what the submit protocol asks for: right after a grant a
      transport attempt has current authority exactly when it names this candidate and
      transaction and the peg-out still carries the candidate's source coordinates. */
  lemma GrantCarriesAuthority(d: Digests, journal: Journal, x: ReservationAdmission, b: Binding)
    requires Grantable(d, journal, x) && b.reservationDigest == x.digest
    ensures var c := journal.candidates[x.terms.candidateId];
            HasAuthority(d, Grant(journal, x), b) <==>
            PegOutMatchesSource(journal.pegOuts[x.terms.burnId], c) && BindingMatches(d, b, x.terms, c)
  {
  }

  // ----- State -----

  /** Results by the WeakMap they are registered in, with their frozen links. */
  datatype Result =
    | Revalidation(revalidated: Revalidated)
    | Package(revalidation: Ref, package: PackageBinding)
    | Signature(packageResult: Ref, signed: SignedCheck)
    | CheckPass(signature: Ref, acceptance: Acceptance)
    | ErgoSeen(ergoCheck: Ref, ergo: ErgoView)
    | SidechainSeen(sidechainCheck: Ref, sidechain: SidechainView)
    | CheckAdmission(check: Ref, ergoSeen: Ref, sidechainSeen: Ref, admission: Admission)
    | ExecutionAuthorization(checkAdmission: Ref, authorization: Authorization)
    | ReservationAdmitted(executionAuthorization: Ref, reservation: ReservationAdmission)

  /** A grant: the admission object it was for, and the journal it was made in. */
  datatype Granted = Granted(admission: Ref, before: Journal)

  datatype State = State(next: Ref, journal: Journal, results: map<Ref, Result>, granted: seq<Granted>)

  function Initial(journal: Journal): State {
    State(0, journal, map[], [])
  }

  /** A new result object. */
  function Registered(s: State, r: Result): State {
    s.(next := s.next + 1, results := s.results[s.next := r])
  }

  predicate IsCheck(t: map<Ref, Result>, id: Ref) {
    id in t && t[id].CheckPass?
  }

  /** The revalidation a check goes back to: check.signed.packageBinding.revalidation. */
  predicate Traces(t: map<Ref, Result>, id: Ref) {
    && IsCheck(t, id)
    && var s := t[id].signature;
    && s in t && t[s].Signature?
    && var p := t[s].packageResult;
    && p in t && t[p].Package?
    && t[p].revalidation in t && t[t[p].revalidation].Revalidation?
  }

  function PackageOf(t: map<Ref, Result>, id: Ref): Ref
    requires Traces(t, id)
  {
    t[t[id].signature].packageResult
  }

  function RevalidationOf(t: map<Ref, Result>, id: Ref): Ref
    requires Traces(t, id)
  {
    t[PackageOf(t, id)].revalidation
  }

  predicate IsView(t: map<Ref, Result>, ergo: Ref, sidechain: Ref) {
    ergo in t && t[ergo].ErgoSeen? && sidechain in t && t[sidechain].SidechainSeen?
  }

  // ----- Callbacks -----

  datatype Call =
    | Journals(journal: Journal)
    | Revalidates(input: Ref, revalidatedBy: Option<Revalidated>)
    | BindsPackage(revalidation: Ref, boundBy: Option<PackageBinding>)
    | Signs(package: Ref, signedBy: Option<SignedCheck>)
    | Checks(signature: Ref, acceptedBy: Option<Acceptance>)
    | SeesErgo(check: Ref, ergoBy: Option<ErgoView>)
    | SeesSidechain(check: Ref, sidechainBy: Option<SidechainView>)
    | AuthorizesCheck(check: Ref, ergo: Ref, sidechain: Ref)
    | RecordsCheck(admission: Ref)
    | AuthorizesExecution(admission: Ref)
    | AuthorizesReservation(authorization: Ref)
    | Reserves(reservation: Ref)

  /** The new result of a call, or None when the callback throws or makes none. */
  function Outcome(d: Digests, input: Input, s: State, c: Call): Option<Result> {
    var t := s.results;
    match c
    case Journals(_) => None
    case RecordsCheck(_) => None
    case Reserves(_) => None
    case Revalidates(id, r) =>
      if id == input.id && r.Some? && RevalidationFits(input, r.value) then Some(Revalidation(r.value)) else None
    case BindsPackage(id, p) =>
      if id in t && t[id].Revalidation? && p.Some? && PackageFits(input, t[id].revalidated, p.value)
      then Some(Package(id, p.value))
      else None
    case Signs(id, x) =>
      if id in t && t[id].Package? && t[id].revalidation in t && t[t[id].revalidation].Revalidation? && x.Some?
      then Some(Signature(id, x.value))
      else None
    case Checks(id, a) =>
      if && id in t && t[id].Signature? && t[id].packageResult in t && t[t[id].packageResult].Package?
         && t[t[id].packageResult].revalidation in t && t[t[t[id].packageResult].revalidation].Revalidation?
         && a.Some?
      then Some(CheckPass(id, a.value))
      else None
    case SeesErgo(id, e) => if Traces(t, id) && e.Some? then Some(ErgoSeen(id, e.value)) else None
    case SeesSidechain(id, v) => if Traces(t, id) && v.Some? then Some(SidechainSeen(id, v.value)) else None
    case AuthorizesCheck(id, e, v) => AdmissionOutcome(d, t, id, e, v)
    case AuthorizesExecution(x) => AuthorizationOutcome(d, input, s, x)
    case AuthorizesReservation(a) =>
      if a in t && t[a].ExecutionAuthorization? && Reservable(d, s.journal, t[a].authorization.terms) then
        var z := t[a].authorization;
        Some(ReservationAdmitted(a, ReservationAdmission(z.terms, z.digest, d.reservation(z.terms, z.digest))))
      else None
  }

  function AdmissionOutcome(d: Digests, t: map<Ref, Result>, id: Ref, e: Ref, v: Ref): Option<Result> {
    if !Traces(t, id) || !IsView(t, e, v) then None
    else
      var (a, ergo, sidechain) := (t[id].acceptance, t[e].ergo, t[v].sidechain);
      if Admissible(a, t[RevalidationOf(t, id)].revalidated, ergo, sidechain)
      then Some(CheckAdmission(id, e, v, Admit(d, a, ergo, sidechain)))
      else None
  }

  function AuthorizationOutcome(d: Digests, input: Input, s: State, x: Ref): Option<Result> {
    var t := s.results;
    if x !in t || !t[x].CheckAdmission? || !Traces(t, t[x].check) || !IsView(t, t[x].ergoSeen, t[x].sidechainSeen)
       || input.payout.candidateId !in s.journal.candidates
    then None
    else
      var (z, row) := (t[x], s.journal.candidates[input.payout.candidateId]);
      var r := t[RevalidationOf(t, z.check)].revalidated;
      if Authorizable(row, input.payout.candidateId, r, t[PackageOf(t, z.check)].package, t[z.check].acceptance,
                      z.admission, t[z.ergoSeen].ergo, t[z.sidechainSeen].sidechain)
         && PayoutBound(d, input, Authorize(d, row, r, z.admission).terms)
      then Some(ExecutionAuthorization(x, Authorize(d, row, r, z.admission)))
      else None
  }

  /** AGGREGATE_FINALITY_PROOF_SYSTEM_NATIVE_GRANDPA */
  const NATIVE_GRANDPA: nat := 1

  /** The finality evidence the journal takes: native GRANDPA, at a positive signed Long height. */
  predicate FinalityJournalable(f: Finality) {
    f.proofSystemId == NATIVE_GRANDPA && 0 < f.horizonHeight <= ERGO_LONG_MAX
  }

  /** markAuthenticatedSettlementCandidateCheckPassed: the journal after it. */
  function MarkedChecked(journal: Journal, x: Admission): Journal {
    if !FinalityJournalable(x.finality)
       || x.candidateId !in journal.candidates || journal.candidates[x.candidateId].status != Prepared
       || journal.candidates[x.candidateId].burnId !in journal.pegOuts
       || !Unsettled(journal.pegOuts[journal.candidates[x.candidateId].burnId])
    then journal
    else
      var row := journal.candidates[x.candidateId];
      journal.(candidates := journal.candidates[x.candidateId :=
        row.(status := CheckPassed, check := Some(x.check), finality := Some(x.finality))])
  }

  /** Recording a check turns one prepared candidate with an open peg-out into a checked one, on native
      finality at a signed Long height, or does nothing: a checked candidate is never rewritten. */
  lemma RecordedOnce(journal: Journal, x: Admission)
    ensures var t := MarkedChecked(journal, x);
            && t == journal.(candidates := t.candidates) && t.candidates.Keys == journal.candidates.Keys
            && (forall id :: id in journal.candidates && id != x.candidateId ==>
                  t.candidates[id] == journal.candidates[id])
            && (x.candidateId in journal.candidates ==>
                  var row := journal.candidates[x.candidateId];
                  t.candidates[x.candidateId] ==
                  if && row.status == Prepared
                     && x.finality.proofSystemId == 1 && 0 < x.finality.horizonHeight <= 0x7FFF_FFFF_FFFF_FFFF
                     && row.burnId in journal.pegOuts
                     && journal.pegOuts[row.burnId].status in {"detected", "confirmed"}
                  then row.(status := CheckPassed, check := Some(x.check), finality := Some(x.finality))
                  else row)
  {
  }

  function Step(d: Digests, input: Input, s: State, c: Call): State {
    match c
    case Journals(journal) => s.(journal := journal)
    case RecordsCheck(x) =>
      if x in s.results && s.results[x].CheckAdmission?
      then s.(journal := MarkedChecked(s.journal, s.results[x].admission))
      else s
    case Reserves(x) =>
      if x in s.results && s.results[x].ReservationAdmitted? && Grantable(d, s.journal, s.results[x].reservation)
      then s.(journal := Grant(s.journal, s.results[x].reservation), granted := s.granted + [Granted(x, s.journal)])
      else s
    case _ =>
      var r := Outcome(d, input, s, c);
      if r.Some? then Registered(s, r.value) else s
  }

  function Run(d: Digests, input: Input, journal: Journal, calls: seq<Call>): State {
    if calls == [] then Initial(journal)
    else Step(d, input, Run(d, input, journal, calls[..|calls| - 1]), calls[|calls| - 1])
  }

  // ----- Invariant -----

  /** What was revalidated, packaged, checked, seen, admitted and authorised are projections of one
      candidate row, its check digests and finality evidence, and the payout of the input. */
  ghost predicate Projects(
    d: Digests, input: Input, row: CandidateRow, r: Revalidated, p: PackageBinding, a: Acceptance, e: ErgoView,
    v: SidechainView, x: Admission, z: Authorization)
  {
    var (k, f, pay) := (x.check, x.finality, input.payout);
    && row.status == CheckPassed && row.invalidationReason == None
    && row.candidateId == pay.candidateId && row.unsignedTx == input.unsignedTx
    && row.check == Some(k) && row.finality == Some(f)
    && 0 < pay.amountNanoErg <= ERGO_LONG_MAX && f.proofSystemId <= MAX_SAFE_INTEGER
    && k.unsignedPackage == input.unsignedPackage
    && k.checkAdmission == d.admission(row.candidateId, k.(checkAdmission := ""), f)
    && r == Revalidated(row.candidateId, k.expectedTxId, row.unsignedTx, p.prepared, k.revalidation, f, k.finalityProof,
                        pay.amountNanoErg, pay.recipientErgoTree)
    && p == PackageBinding(p.prepared, k.expectedTxId, k.unsignedPackage)
    && a == Acceptance(true, row.candidateId, k.expectedTxId, k.unsignedPackage, k.signedTransaction, k.checkResponse,
                       k.signerContext, k.checkerIdentity, k.revalidation, f, k.finalityProof)
    && e == ErgoView(row.candidateId, row.unsignedTx, k.stableErgoView, row.anchorHeaderId, row.anchorHeaderHeight,
                     row.trackerBoxId, row.dupInputBoxId, row.vaultBoxId)
    && v == SidechainView(row.candidateId, k.stableSidechainView, row.burnId, row.sidechainId, row.burnTxHash,
                          row.sidechainHeight, row.sidechainBlockHash, row.sidechainLogIndex, pay.amountNanoErg,
                          pay.recipientErgoTree)
    && x == Admission(row.candidateId, k, f)
    && z.terms == Terms(row.candidateId, d.candidateAuthority(row), row.burnId, row.burnTxHash, row.dupInputBoxId,
                        row.vaultBoxId, row.unsignedTx, k, pay.amountNanoErg, pay.recipientErgoTree)
    && z.digest == d.authorization(z.terms)
  }

  lemma AuthorizableProjects(
    d: Digests, input: Input, row: CandidateRow, r: Revalidated, p: PackageBinding, a: Acceptance, e: ErgoView,
    v: SidechainView)
    requires RevalidationFits(input, r) && PackageFits(input, r, p) && Admissible(a, r, e, v)
    requires Authorizable(row, input.payout.candidateId, r, p, a, Admit(d, a, e, v), e, v)
    ensures var x := Admit(d, a, e, v);
            Projects(d, input, row, r, p, a, e, v, x, Authorize(d, row, r, x))
  {
  }

  /** An authorization and the candidate row it was given for. */
  ghost predicate AuthorizedFor(d: Digests, input: Input, t: map<Ref, Result>, x: Ref, z: Authorization, row: CandidateRow) {
    && x in t && t[x].CheckAdmission? && Traces(t, t[x].check) && IsView(t, t[x].ergoSeen, t[x].sidechainSeen)
    && var k := t[x].check;
    && Projects(d, input, row, t[RevalidationOf(t, k)].revalidated, t[PackageOf(t, k)].package, t[k].acceptance,
                t[t[x].ergoSeen].ergo, t[t[x].sidechainSeen].sidechain, t[x].admission, z)
  }

  /** A registered result is linked to older results of the right kinds and agrees with them. */
  ghost predicate Linked(d: Digests, input: Input, t: map<Ref, Result>, id: Ref)
    requires id in t
  {
    match t[id]
    case Revalidation(r) => RevalidationFits(input, r)
    case Package(r, p) => r < id && r in t && t[r].Revalidation? && PackageFits(input, t[r].revalidated, p)
    case Signature(p, _) => p < id && p in t && t[p].Package?
    case CheckPass(x, _) => x < id && x in t && t[x].Signature?
    case ErgoSeen(c, _) => c < id && IsCheck(t, c)
    case SidechainSeen(c, _) => c < id && IsCheck(t, c)
    case CheckAdmission(c, e, v, x) =>
      && c < id && e < id && v < id && Traces(t, c) && IsView(t, e, v)
      && Admissible(t[c].acceptance, t[RevalidationOf(t, c)].revalidated, t[e].ergo, t[v].sidechain)
      && x == Admit(d, t[c].acceptance, t[e].ergo, t[v].sidechain)
    case ExecutionAuthorization(x, a) =>
      && x < id
      && (exists row :: AuthorizedFor(d, input, t, x, a, row))
      && PayoutBound(d, input, a.terms)
    case ReservationAdmitted(a, r) =>
      && a < id && a in t && t[a].ExecutionAuthorization?
      && r.terms == t[a].authorization.terms
      && r.authorization == t[a].authorization.digest
      && r.digest == d.reservation(r.terms, r.authorization)
  }

  ghost predicate AllLinked(d: Digests, input: Input, t: map<Ref, Result>, next: Ref) {
    forall id :: id in t ==> id < next && Linked(d, input, t, id)
  }

  /** A grant was made for a registered admission, in a journal that holds its candidate checked. */
  ghost predicate Fair(d: Digests, t: map<Ref, Result>, g: Granted) {
    && g.admission in t && t[g.admission].ReservationAdmitted?
    && Reservable(d, g.before, t[g.admission].reservation.terms)
  }

  ghost predicate Inv(d: Digests, input: Input, s: State) {
    && AllLinked(d, input, s.results, s.next)
    && forall i :: 0 <= i < |s.granted| ==> Fair(d, s.results, s.granted[i])
  }

  /** Links survive new registrations. */
  lemma StaysLinked(d: Digests, input: Input, t: map<Ref, Result>, next: Ref, r: Result, id: Ref)
    requires next !in t && id in t && Linked(d, input, t, id)
    ensures Linked(d, input, t[next := r], id)
  {
    hide RevalidationFits, PackageFits, Admissible, Admit, PayoutBound, Projects;
    if t[id].ExecutionAuthorization? {
      var row :| AuthorizedFor(d, input, t, t[id].checkAdmission, t[id].authorization, row);
      assert AuthorizedFor(d, input, t[next := r], t[id].checkAdmission, t[id].authorization, row);
    }
  }

  lemma AdmissionLinks(d: Digests, input: Input, t: map<Ref, Result>, next: Ref, id: Ref, e: Ref, v: Ref)
    requires (forall k :: k in t ==> k < next) && AdmissionOutcome(d, t, id, e, v).Some?
    ensures Linked(d, input, t[next := AdmissionOutcome(d, t, id, e, v).value], next)
  {
    hide Admissible, Admit;
  }

  lemma AuthorizationLinked(d: Digests, input: Input, s: State, x: Ref)
    requires AllLinked(d, input, s.results, s.next) && AuthorizationOutcome(d, input, s, x).Some?
    ensures Linked(d, input, s.results[s.next := AuthorizationOutcome(d, input, s, x).value], s.next)
  {
    hide RevalidationFits, PackageFits, Admissible, Admit, Authorizable, Authorize, PayoutBound, Projects;
    var (t, k) := (s.results, s.results[x].check);
    var row := s.journal.candidates[input.payout.candidateId];
    assert Linked(d, input, t, RevalidationOf(t, k));
    assert Linked(d, input, t, PackageOf(t, k));
    assert Linked(d, input, t, x);
    AuthorizableProjects(d, input, row, t[RevalidationOf(t, k)].revalidated, t[PackageOf(t, k)].package,
                         t[k].acceptance, t[t[x].ergoSeen].ergo, t[t[x].sidechainSeen].sidechain);
    var longer := t[s.next := AuthorizationOutcome(d, input, s, x).value];
    assert AuthorizedFor(d, input, longer, x, longer[s.next].authorization, row);
  }

  lemma OutcomeLinked(d: Digests, input: Input, s: State, c: Call)
    requires AllLinked(d, input, s.results, s.next) && Outcome(d, input, s, c).Some?
    ensures Linked(d, input, s.results[s.next := Outcome(d, input, s, c).value], s.next)
  {
    hide RevalidationFits, PackageFits, Reservable, AuthorizationOutcome, AdmissionOutcome, Admissible, Admit,
         PayoutBound;
    match c
    case AuthorizesCheck(id, e, v) => AdmissionLinks(d, input, s.results, s.next, id, e, v);
    case AuthorizesExecution(x) => AuthorizationLinked(d, input, s, x);
    case _ =>
  }

  lemma StepKeeps(d: Digests, input: Input, s: State, c: Call)
    requires Inv(d, input, s)
    ensures Inv(d, input, Step(d, input, s, c))
  {
    hide Outcome, Linked, MarkedChecked;
    var t := Step(d, input, s, c);
    if Outcome(d, input, s, c).Some? && !c.Journals? && !c.RecordsCheck? && !c.Reserves? {
      var r := Outcome(d, input, s, c).value;
      OutcomeLinked(d, input, s, c);
      forall id | id in t.results
        ensures id < t.next && Linked(d, input, t.results, id)
      {
        if id != s.next {
          StaysLinked(d, input, s.results, s.next, r, id);
        }
      }
    }
  }

  lemma {:induction false} RunsAreLinked(d: Digests, input: Input, journal: Journal, calls: seq<Call>)
    ensures Inv(d, input, Run(d, input, journal, calls))
  {
    hide Step;
    if calls == [] {
    } else {
      RunsAreLinked(d, input, journal, calls[..|calls| - 1]);
      StepKeeps(d, input, Run(d, input, journal, calls[..|calls| - 1]), calls[|calls| - 1]);
    }
  }

  // ----- The admission chain of every reservation -----

  /** The results a reservation goes back to. */
  datatype Chain = Chain(
    reservation: Ref, authorization: Ref, admission: Ref, ergo: Ref, sidechain: Ref, check: Ref, signature: Ref,
    package: Ref, revalidation: Ref)

  /** Each result exists, is older than what it supports, and is of the right kind. */
  ghost predicate Ordered(t: map<Ref, Result>, c: Chain) {
    && c.revalidation < c.package < c.signature < c.check < c.admission < c.authorization < c.reservation
    && c.ergo < c.admission && c.sidechain < c.admission
    && c.revalidation in t && t[c.revalidation].Revalidation?
    && c.package in t && t[c.package].Package? && t[c.package].revalidation == c.revalidation
    && c.signature in t && t[c.signature].Signature? && t[c.signature].packageResult == c.package
    && c.check in t && t[c.check].CheckPass? && t[c.check].signature == c.signature
    && c.ergo in t && t[c.ergo].ErgoSeen?
    && c.sidechain in t && t[c.sidechain].SidechainSeen?
    && c.admission in t
    && t[c.admission].CheckAdmission? && t[c.admission].check == c.check
    && t[c.admission].ergoSeen == c.ergo && t[c.admission].sidechainSeen == c.sidechain
    && c.authorization in t && t[c.authorization].ExecutionAuthorization?
    && t[c.authorization].checkAdmission == c.admission
    && c.reservation in t && t[c.reservation].ReservationAdmitted?
    && t[c.reservation].executionAuthorization == c.authorization
  }

  /** All of them are for the candidate and payout of the input, and share one prepared
      transaction. */
  ghost predicate OneCandidate(input: Input, t: map<Ref, Result>, c: Chain)
    requires Ordered(t, c)
  {
    var id := input.payout.candidateId;
    && t[c.revalidation].revalidated.candidateId == id
    && t[c.check].acceptance.candidateId == id
    && t[c.ergo].ergo.candidateId == id
    && t[c.sidechain].sidechain.candidateId == id
    && t[c.admission].admission.candidateId == id
    && t[c.authorization].authorization.terms.candidateId == id
    && t[c.reservation].reservation.terms.candidateId == id
    && t[c.reservation].reservation.terms.amountNanoErg == input.payout.amountNanoErg
    && t[c.reservation].reservation.terms.recipientErgoTree == input.payout.recipientErgoTree
    && t[c.package].package.prepared == t[c.revalidation].revalidated.prepared
    && t[c.package].package.expectedTxId == t[c.revalidation].revalidated.expectedTxId
       == t[c.check].acceptance.expectedTxId == t[c.reservation].reservation.terms.check.expectedTxId
  }

  /** Everything the chain holds projects from one row, and the reservation repeats its terms. */
  ghost predicate OneRow(d: Digests, input: Input, t: map<Ref, Result>, c: Chain, row: CandidateRow)
    requires Ordered(t, c)
  {
    var z := t[c.authorization].authorization;
    && Projects(d, input, row, t[c.revalidation].revalidated, t[c.package].package, t[c.check].acceptance,
                t[c.ergo].ergo, t[c.sidechain].sidechain, t[c.admission].admission, z)
    && t[c.reservation].reservation == ReservationAdmission(z.terms, z.digest, d.reservation(z.terms, z.digest))
  }

  /** The journal the reservation is made in holds the candidate as checked, by this admission. */
  ghost predicate JournaledChecked(input: Input, t: map<Ref, Result>, c: Chain, journal: Journal)
    requires Ordered(t, c)
  {
    && input.payout.candidateId in journal.candidates
    && var row := journal.candidates[input.payout.candidateId];
    && Checked(row)
    && row.check == Some(t[c.admission].admission.check)
  }

  /** A payout digest stands for one payout. */
  ghost predicate PayoutsCollisionFree(d: Digests) {
    forall p, q :: d.payout(p) == d.payout(q) ==> p == q
  }

  /** A grant goes back to a complete admission chain for the candidate and payout of the input. */
  ghost predicate ThroughChain(d: Digests, input: Input, t: map<Ref, Result>, g: Granted) {
    exists c: Chain ::
      && c.reservation == g.admission
      && Ordered(t, c)
      && OneCandidate(input, t, c)
      && (exists row :: OneRow(d, input, t, c, row))
      && JournaledChecked(input, t, c, g.before)
      && (PayoutsCollisionFree(d) ==>
            t[c.reservation].reservation.terms.vaultBoxId == input.payout.vaultBoxId)
  }

  /** Main result: whatever the driver does, an execution is reserved only through a complete
      admission chain of this run for this candidate. */
  lemma ReservedThroughChain(d: Digests, input: Input, journal: Journal, calls: seq<Call>, i: nat)
    requires i < |Run(d, input, journal, calls).granted|
    ensures var s := Run(d, input, journal, calls); ThroughChain(d, input, s.results, s.granted[i])
  {
    hide Run, Linked, ThroughChain;
    RunsAreLinked(d, input, journal, calls);
    var s := Run(d, input, journal, calls);
    FairChain(d, input, s.results, s.next, s.granted[i]);
  }

  /** What a reservation made now goes back to. */
  lemma ValidGrant(d: Digests, input: Input, s: State, x: Ref)
    requires Inv(d, input, s) && x in s.results && s.results[x].ReservationAdmitted?
    requires Grantable(d, s.journal, s.results[x].reservation)
    ensures ThroughChain(d, input, s.results, Granted(x, s.journal))
  {
    hide Linked, ThroughChain;
    FairChain(d, input, s.results, s.next, Granted(x, s.journal));
  }

  lemma FairChain(d: Digests, input: Input, t: map<Ref, Result>, next: Ref, g: Granted)
    requires AllLinked(d, input, t, next) && Fair(d, t, g)
    ensures ThroughChain(d, input, t, g)
  {
    hide Linked;
    var c, row := ChainOf(d, input, t, next, g.admission);
    assert OneRow(d, input, t, c, row);
  }

  lemma ChainOf(d: Digests, input: Input, t: map<Ref, Result>, next: Ref, x: Ref) returns (c: Chain, row: CandidateRow)
    requires AllLinked(d, input, t, next) && x in t && t[x].ReservationAdmitted?
    ensures c.reservation == x && Ordered(t, c) && OneCandidate(input, t, c) && OneRow(d, input, t, c, row)
    ensures t[x].reservation.terms.check == t[c.admission].admission.check
    ensures PayoutBound(d, input, t[x].reservation.terms)
    ensures t[x].reservation.digest == d.reservation(t[x].reservation.terms, t[x].reservation.authorization)
  {
    hide PayoutBound, SidechainMatches;
    var a := t[x].executionAuthorization;
    assert Linked(d, input, t, x);
    assert Linked(d, input, t, a);
    var z := t[a].checkAdmission;
    assert Linked(d, input, t, z);
    var k := t[z].check;
    assert Linked(d, input, t, k);
    var g := t[k].signature;
    assert Linked(d, input, t, g);
    var p := t[g].packageResult;
    assert Linked(d, input, t, p);
    assert Linked(d, input, t, t[p].revalidation);
    row :| AuthorizedFor(d, input, t, z, t[a].authorization, row);
    c := Chain(x, a, z, t[z].ergoSeen, t[z].sidechainSeen, k, g, p, t[p].revalidation);
  }

  // ----- The pipeline object -----

  class Pipeline {
    const d: Digests
    const input: Input
    var next: Ref
    var journal: Journal
    var results: map<Ref, Result>
    ghost var granted: seq<Granted>

    ghost function Now(): State
      reads this
    {
      State(next, journal, results, granted)
    }

    /** Every registered result is linked, every grant was fair. */
    ghost predicate Valid()
      reads this
    {
      Inv(d, input, Now())
    }

    constructor (d: Digests, input: Input, journal: Journal)
      ensures this.d == d && this.input == input && Now() == Initial(journal) && Valid()
    {
      this.d, this.input := d, input;
      next, this.journal, results, granted := 0, journal, map[], [];
    }

    /** Freezes a result and registers it in its map. */
    method Register(r: Result) returns (id: Ref)
      modifies this`next, this`results
      ensures id == old(next) && Now() == Registered(old(Now()), r)
    {
      id := next;
      results := results[id := r];
      next := next + 1;
    }

    method Revalidate(exactInput: Ref, revalidated: Option<Revalidated>) returns (id: Option<Ref>)
      requires Valid()
      modifies this`next, this`results
      ensures Valid()
      ensures Now() == Step(d, input, old(Now()), Revalidates(exactInput, revalidated))
      ensures id.Some? <==> Outcome(d, input, old(Now()), Revalidates(exactInput, revalidated)).Some?
      ensures id.Some? ==> id.value == old(next)
    {
      hide Inv;
      StepKeeps(d, input, Now(), Revalidates(exactInput, revalidated));
      if exactInput != input.id || revalidated == None || !RevalidationFits(input, revalidated.value) {
        return None;
      }
      var registered := Register(Revalidation(revalidated.value));
      return Some(registered);
    }

    method BindPackage(revalidation: Ref, binding: Option<PackageBinding>) returns (id: Option<Ref>)
      requires Valid()
      modifies this`next, this`results
      ensures Valid()
      ensures Now() == Step(d, input, old(Now()), BindsPackage(revalidation, binding))
      ensures id.Some? <==> Outcome(d, input, old(Now()), BindsPackage(revalidation, binding)).Some?
      ensures id.Some? ==> id.value == old(next)
    {
      hide Inv;
      StepKeeps(d, input, Now(), BindsPackage(revalidation, binding));
      if revalidation !in results || !results[revalidation].Revalidation? || binding == None {
        return None;
      }
      if !PackageFits(input, results[revalidation].revalidated, binding.value) {
        return None;
      }
      var registered := Register(Package(revalidation, binding.value));
      return Some(registered);
    }

    method Sign(package: Ref, signed: Option<SignedCheck>) returns (id: Option<Ref>)
      requires Valid()
      modifies this`next, this`results
      ensures Valid()
      ensures Now() == Step(d, input, old(Now()), Signs(package, signed))
      ensures id.Some? <==> Outcome(d, input, old(Now()), Signs(package, signed)).Some?
      ensures id.Some? ==> id.value == old(next)
    {
      hide Inv;
      StepKeeps(d, input, Now(), Signs(package, signed));
      if package !in results || !results[package].Package? {
        return None;
      }
      var revalidation := results[package].revalidation;
      if revalidation !in results || !results[revalidation].Revalidation? || signed == None {
        return None;
      }
      var registered := Register(Signature(package, signed.value));
      return Some(registered);
    }

    method Check(signature: Ref, acceptance: Option<Acceptance>) returns (id: Option<Ref>)
      requires Valid()
      modifies this`next, this`results
      ensures Valid()
      ensures Now() == Step(d, input, old(Now()), Checks(signature, acceptance))
      ensures id.Some? <==> Outcome(d, input, old(Now()), Checks(signature, acceptance)).Some?
      ensures id.Some? ==> id.value == old(next)
    {
      hide Inv;
      StepKeeps(d, input, Now(), Checks(signature, acceptance));
      if signature !in results || !results[signature].Signature? {
        return None;
      }
      var package := results[signature].packageResult;
      if package !in results || !results[package].Package? {
        return None;
      }
      var revalidation := results[package].revalidation;
      if revalidation !in results || !results[revalidation].Revalidation? || acceptance == None {
        return None;
      }
      var registered := Register(CheckPass(signature, acceptance.value));
      return Some(registered);
    }

    method ObserveStableErgo(check: Ref, view: Option<ErgoView>) returns (id: Option<Ref>)
      requires Valid()
      modifies this`next, this`results
      ensures Valid()
      ensures Now() == Step(d, input, old(Now()), SeesErgo(check, view))
      ensures id.Some? <==> Outcome(d, input, old(Now()), SeesErgo(check, view)).Some?
      ensures id.Some? ==> id.value == old(next)
    {
      hide Inv;
      StepKeeps(d, input, Now(), SeesErgo(check, view));
      if !Traces(results, check) || view == None {
        return None;
      }
      var registered := Register(ErgoSeen(check, view.value));
      return Some(registered);
    }

    method ObserveStableSidechain(check: Ref, view: Option<SidechainView>) returns (id: Option<Ref>)
      requires Valid()
      modifies this`next, this`results
      ensures Valid()
      ensures Now() == Step(d, input, old(Now()), SeesSidechain(check, view))
      ensures id.Some? <==> Outcome(d, input, old(Now()), SeesSidechain(check, view)).Some?
      ensures id.Some? ==> id.value == old(next)
    {
      hide Inv;
      StepKeeps(d, input, Now(), SeesSidechain(check, view));
      if !Traces(results, check) || view == None {
        return None;
      }
      var registered := Register(SidechainSeen(check, view.value));
      return Some(registered);
    }

    method AuthorizeCheck(check: Ref, ergoSeen: Ref, sidechainSeen: Ref) returns (id: Option<Ref>)
      requires Valid()
      modifies this`next, this`results
      ensures Valid()
      ensures Now() == Step(d, input, old(Now()), AuthorizesCheck(check, ergoSeen, sidechainSeen))
      ensures id.Some? <==> Outcome(d, input, old(Now()), AuthorizesCheck(check, ergoSeen, sidechainSeen)).Some?
      ensures id.Some? ==> id.value == old(next)
    {
      hide Inv;
      StepKeeps(d, input, Now(), AuthorizesCheck(check, ergoSeen, sidechainSeen));
      if !Traces(results, check) || !IsView(results, ergoSeen, sidechainSeen) {
        return None;
      }
      var acceptance, revalidated := results[check].acceptance, results[RevalidationOf(results, check)].revalidated;
      var ergo, sidechain := results[ergoSeen].ergo, results[sidechainSeen].sidechain;
      if !Admissible(acceptance, revalidated, ergo, sidechain) {
        return None;
      }
      var registered := Register(CheckAdmission(check, ergoSeen, sidechainSeen, Admit(d, acceptance, ergo, sidechain)));
      return Some(registered);
    }

    method RecordCheck(admission: Ref)
      requires Valid()
      modifies this`journal
      ensures Valid()
      ensures Now() == Step(d, input, old(Now()), RecordsCheck(admission))
    {
      hide Inv;
      StepKeeps(d, input, Now(), RecordsCheck(admission));
      if admission in results && results[admission].CheckAdmission? {
        journal := MarkedChecked(journal, results[admission].admission);
      }
    }

    method AuthorizeExecution(admission: Ref) returns (id: Option<Ref>)
      requires Valid()
      modifies this`next, this`results
      ensures Valid()
      ensures Now() == Step(d, input, old(Now()), AuthorizesExecution(admission))
      ensures id.Some? <==> Outcome(d, input, old(Now()), AuthorizesExecution(admission)).Some?
      ensures id.Some? ==> id.value == old(next)
    {
      hide Inv;
      StepKeeps(d, input, Now(), AuthorizesExecution(admission));
      if admission !in results || !results[admission].CheckAdmission? {
        return None;
      }
      var z := results[admission];
      if !Traces(results, z.check) || !IsView(results, z.ergoSeen, z.sidechainSeen) {
        return None;
      }
      var candidateId := input.payout.candidateId;
      if candidateId !in journal.candidates {
        return None;
      }
      var row := journal.candidates[candidateId];
      var revalidated := results[RevalidationOf(results, z.check)].revalidated;
      if !Authorizable(row, candidateId, revalidated, results[PackageOf(results, z.check)].package,
                       results[z.check].acceptance, z.admission, results[z.ergoSeen].ergo,
                       results[z.sidechainSeen].sidechain) {
        return None;
      }
      var authorization := Authorize(d, row, revalidated, z.admission);
      if !PayoutBound(d, input, authorization.terms) {
        return None;
      }
      var registered := Register(ExecutionAuthorization(admission, authorization));
      return Some(registered);
    }

    method AuthorizeReservation(authorization: Ref) returns (id: Option<Ref>)
      requires Valid()
      modifies this`next, this`results
      ensures Valid()
      ensures Now() == Step(d, input, old(Now()), AuthorizesReservation(authorization))
      ensures id.Some? <==> Outcome(d, input, old(Now()), AuthorizesReservation(authorization)).Some?
      ensures id.Some? ==> id.value == old(next)
    {
      hide Inv;
      StepKeeps(d, input, Now(), AuthorizesReservation(authorization));
      if authorization !in results || !results[authorization].ExecutionAuthorization? {
        return None;
      }
      var z := results[authorization].authorization;
      if !Reservable(d, journal, z.terms) {
        return None;
      }
      var registered := Register(ReservationAdmitted(
        authorization, ReservationAdmission(z.terms, z.digest, d.reservation(z.terms, z.digest))));
      return Some(registered);
    }

    method ReserveExecution(admission: Ref) returns (granting: bool)
      requires Valid()
      modifies this`journal, this`granted
      ensures Valid()
      ensures Now() == Step(d, input, old(Now()), Reserves(admission))
      ensures granting <==> |granted| == |old(granted)| + 1
      ensures granting ==> ThroughChain(d, input, results, Granted(admission, old(journal)))
    {
      hide Inv, ThroughChain;
      StepKeeps(d, input, Now(), Reserves(admission));
      if admission !in results || !results[admission].ReservationAdmitted? {
        return false;
      }
      var reservation := results[admission].reservation;
      if !Grantable(d, journal, reservation) {
        return false;
      }
      ValidGrant(d, input, Now(), admission);
      granted := granted + [Granted(admission, journal)];
      journal := Grant(journal, reservation);
      return true;
    }
  }

  // ----- A run that reserves -----

  /** The answers of the dependencies to a straight run. */
  datatype Answers = Answers(
    revalidated: Revalidated, package: PackageBinding, signed: SignedCheck, acceptance: Acceptance, ergo: ErgoView,
    sidechain: SidechainView)

  /** The callbacks in pipeline order, each given the results before it. */
  function StraightCall(input: Input, a: Answers, i: nat): Call {
    match i
    case 0 => Revalidates(input.id, Some(a.revalidated))
    case 1 => BindsPackage(0, Some(a.package))
    case 2 => Signs(1, Some(a.signed))
    case 3 => Checks(2, Some(a.acceptance))
    case 4 => SeesErgo(3, Some(a.ergo))
    case 5 => SeesSidechain(3, Some(a.sidechain))
    case 6 => AuthorizesCheck(3, 4, 5)
    case 7 => RecordsCheck(6)
    case 8 => AuthorizesExecution(6)
    case 9 => AuthorizesReservation(7)
    case _ => Reserves(8)
  }

  function StraightRun(input: Input, a: Answers, n: nat): seq<Call> {
    if n == 0 then [] else StraightRun(input, a, n - 1) + [StraightCall(input, a, n - 1)]
  }

  /** The answers agree with the input, with each other and with the candidate row. */
  ghost predicate Consistent(input: Input, row: CandidateRow, a: Answers) {
    && RevalidationFits(input, a.revalidated)
    && PackageFits(input, a.revalidated, a.package)
    && Admissible(a.acceptance, a.revalidated, a.ergo, a.sidechain)
    && a.acceptance.unsignedPackage == a.package.packageDigest
    && FinalityJournalable(a.acceptance.finality)
    && row.candidateId == input.payout.candidateId
    && row.unsignedTx == input.unsignedTx
    && row.vaultBoxId == input.payout.vaultBoxId
    && ErgoViewMatches(a.ergo, row)
    && SidechainViewMatches(a.sidechain, row)
  }

  /** The candidate is prepared, its peg-out is open, and nothing else claims its resources. */
  ghost predicate Open(d: Digests, input: Input, journal: Journal, a: Answers) {
    && input.payout.candidateId in journal.candidates
    && var row := journal.candidates[input.payout.candidateId];
    && row.status == Prepared && row.invalidationReason == None
    && row.burnId in journal.pegOuts
    && Unsettled(journal.pegOuts[row.burnId])
    && var x := FinalAdmission(d, input, journal, a);
    && PegOutMatchesTerms(journal.pegOuts[row.burnId], x.terms)
    && x.digest !in journal.reservations
    && Unclaimed(journal, x.terms)
  }

  /** What a straight run reserves. */
  ghost function FinalAdmission(d: Digests, input: Input, journal: Journal, a: Answers): ReservationAdmission
    requires input.payout.candidateId in journal.candidates
  {
    var z := Authorize(d, CheckedRow(d, input, journal, a), a.revalidated, Admit(d, a.acceptance, a.ergo, a.sidechain));
    ReservationAdmission(z.terms, z.digest, d.reservation(z.terms, z.digest))
  }

  lemma RunAppend(d: Digests, input: Input, journal: Journal, calls: seq<Call>, c: Call)
    ensures Run(d, input, journal, calls + [c]) == Step(d, input, Run(d, input, journal, calls), c)
  {
    hide Step;
    assert (calls + [c])[..|calls|] == calls;
  }

  /** The results of a straight run, in order. */
  ghost function Product(d: Digests, input: Input, journal: Journal, a: Answers, i: nat): Result
    requires input.payout.candidateId in journal.candidates
  {
    var x := FinalAdmission(d, input, journal, a);
    match i
    case 0 => Revalidation(a.revalidated)
    case 1 => Package(0, a.package)
    case 2 => Signature(1, a.signed)
    case 3 => CheckPass(2, a.acceptance)
    case 4 => ErgoSeen(3, a.ergo)
    case 5 => SidechainSeen(3, a.sidechain)
    case 6 => CheckAdmission(3, 4, 5, Admit(d, a.acceptance, a.ergo, a.sidechain))
    case 7 => ExecutionAuthorization(6, Authorization(x.terms, x.authorization))
    case _ => ReservationAdmitted(7, x)
  }

  ghost predicate Holds(t: map<Ref, Result>, id: Ref, r: Result) {
    id in t && t[id] == r
  }

  /** The table holds the first n results of the straight run. */
  ghost predicate HoldsFirst(
    d: Digests, input: Input, journal: Journal, a: Answers, s: State, n: nat)
  {
    && input.payout.candidateId in journal.candidates
    && s.next == n && s.granted == []
    && forall i: nat :: i < n ==> Holds(s.results, i, Product(d, input, journal, a, i))
  }

  /** The chain up to the check, as the table holds it. */
  ghost predicate HoldsCheck(t: map<Ref, Result>, a: Answers) {
    && Holds(t, 0, Revalidation(a.revalidated)) && Holds(t, 1, Package(0, a.package))
    && Holds(t, 2, Signature(1, a.signed)) && Holds(t, 3, CheckPass(2, a.acceptance))
  }

  lemma StraightPackage(d: Digests, input: Input, s: State, a: Answers)
    requires Holds(s.results, 0, Revalidation(a.revalidated)) && PackageFits(input, a.revalidated, a.package)
    ensures Outcome(d, input, s, BindsPackage(0, Some(a.package))) == Some(Package(0, a.package))
  {
    hide PackageFits;
  }

  lemma StraightSignature(d: Digests, input: Input, s: State, a: Answers)
    requires Holds(s.results, 0, Revalidation(a.revalidated)) && Holds(s.results, 1, Package(0, a.package))
    ensures Outcome(d, input, s, Signs(1, Some(a.signed))) == Some(Signature(1, a.signed))
  {
  }

  lemma StraightCheck(d: Digests, input: Input, s: State, a: Answers)
    requires Holds(s.results, 0, Revalidation(a.revalidated)) && Holds(s.results, 1, Package(0, a.package))
    requires Holds(s.results, 2, Signature(1, a.signed))
    ensures Outcome(d, input, s, Checks(2, Some(a.acceptance))) == Some(CheckPass(2, a.acceptance))
  {
  }

  lemma StraightViews(d: Digests, input: Input, s: State, a: Answers)
    requires HoldsCheck(s.results, a)
    ensures Outcome(d, input, s, SeesErgo(3, Some(a.ergo))) == Some(ErgoSeen(3, a.ergo))
    ensures Outcome(d, input, s, SeesSidechain(3, Some(a.sidechain))) == Some(SidechainSeen(3, a.sidechain))
  {
  }

  lemma StraightAdmission(d: Digests, input: Input, s: State, a: Answers)
    requires HoldsCheck(s.results, a) && Holds(s.results, 4, ErgoSeen(3, a.ergo))
    requires Holds(s.results, 5, SidechainSeen(3, a.sidechain))
    requires Admissible(a.acceptance, a.revalidated, a.ergo, a.sidechain)
    ensures Outcome(d, input, s, AuthorizesCheck(3, 4, 5))
            == Some(CheckAdmission(3, 4, 5, Admit(d, a.acceptance, a.ergo, a.sidechain)))
  {
    hide Admissible, Admit;
  }

  /** The candidate row once the check is recorded. */
  ghost function CheckedRow(d: Digests, input: Input, journal: Journal, a: Answers): CandidateRow
    requires input.payout.candidateId in journal.candidates
  {
    var x := Admit(d, a.acceptance, a.ergo, a.sidechain);
    journal.candidates[input.payout.candidateId].(
      status := CheckPassed, check := Some(x.check), finality := Some(x.finality))
  }

  lemma StraightAuthorization(d: Digests, input: Input, journal: Journal, s: State, a: Answers)
    requires HoldsCheck(s.results, a) && Holds(s.results, 4, ErgoSeen(3, a.ergo))
    requires Holds(s.results, 5, SidechainSeen(3, a.sidechain))
    requires Holds(s.results, 6, CheckAdmission(3, 4, 5, Admit(d, a.acceptance, a.ergo, a.sidechain)))
    requires input.payout.candidateId in journal.candidates && input.payout.candidateId in s.journal.candidates
    requires s.journal.candidates[input.payout.candidateId] == CheckedRow(d, input, journal, a)
    requires journal.candidates[input.payout.candidateId].invalidationReason == None
    requires Consistent(input, journal.candidates[input.payout.candidateId], a)
    ensures var x := FinalAdmission(d, input, journal, a);
            Outcome(d, input, s, AuthorizesExecution(6))
            == Some(ExecutionAuthorization(6, Authorization(x.terms, x.authorization)))
  {
    var row := CheckedRow(d, input, journal, a);
    var x := Admit(d, a.acceptance, a.ergo, a.sidechain);
    assert Traces(s.results, 3) && IsView(s.results, 4, 5);
    assert Authorizable(row, input.payout.candidateId, a.revalidated, a.package, a.acceptance, x, a.ergo, a.sidechain);
    assert input.payout.(vaultBoxId := row.vaultBoxId, amountNanoErg := a.revalidated.amountNanoErg,
                         recipientErgoTree := a.revalidated.recipientErgoTree) == input.payout;
  }

  /** A result that comes out next extends the table. */
  lemma HoldsNext(d: Digests, input: Input, journal: Journal, a: Answers, s: State, n: nat)
    requires HoldsFirst(d, input, journal, a, s, n)
    ensures HoldsFirst(d, input, journal, a, Registered(s, Product(d, input, journal, a, n)), n + 1)
  {
    hide Product;
  }

  lemma StraightOutcome(d: Digests, input: Input, journal: Journal, a: Answers, s: State, n: nat)
    requires HoldsFirst(d, input, journal, a, s, n) && n < 7
    requires Consistent(input, journal.candidates[input.payout.candidateId], a)
    ensures Outcome(d, input, s, StraightCall(input, a, n)) == Some(Product(d, input, journal, a, n))
  {
    hide Outcome, RevalidationFits, PackageFits, Admissible, Admit, ErgoViewMatches, SidechainViewMatches,
         FinalAdmission;
    if n == 0 {
      StraightRevalidation(d, input, s, a);
    } else {
      assert Holds(s.results, 0, Product(d, input, journal, a, 0));
      if n == 1 {
        StraightPackage(d, input, s, a);
      } else {
        assert Holds(s.results, 1, Product(d, input, journal, a, 1));
        if n == 2 {
          StraightSignature(d, input, s, a);
        } else {
          assert Holds(s.results, 2, Product(d, input, journal, a, 2));
          if n == 3 {
            StraightCheck(d, input, s, a);
          } else {
            assert Holds(s.results, 3, Product(d, input, journal, a, 3));
            StraightViews(d, input, s, a);
            if n == 6 {
              assert Holds(s.results, 4, Product(d, input, journal, a, 4));
              assert Holds(s.results, 5, Product(d, input, journal, a, 5));
              StraightAdmission(d, input, s, a);
            }
          }
        }
      }
    }
  }

  lemma StraightRevalidation(d: Digests, input: Input, s: State, a: Answers)
    requires RevalidationFits(input, a.revalidated)
    ensures Outcome(d, input, s, Revalidates(input.id, Some(a.revalidated))) == Some(Revalidation(a.revalidated))
  {
    hide RevalidationFits;
  }

  lemma {:induction false} StraightRunAdmits(d: Digests, input: Input, journal: Journal, a: Answers, n: nat)
    requires input.payout.candidateId in journal.candidates && n <= 7
    requires Consistent(input, journal.candidates[input.payout.candidateId], a)
    ensures var s := Run(d, input, journal, StraightRun(input, a, n));
            HoldsFirst(d, input, journal, a, s, n) && s.journal == journal
  {
    hide Outcome, Consistent, HoldsFirst, Product;
    if n == 0 {
      assert StraightRun(input, a, 0) == [];
      HoldsNone(d, input, journal, a);
    } else {
      var calls := StraightRun(input, a, n - 1);
      StraightRunAdmits(d, input, journal, a, n - 1);
      var s := Run(d, input, journal, calls);
      StraightOutcome(d, input, journal, a, s, n - 1);
      HoldsNext(d, input, journal, a, s, n - 1);
      RunAppend(d, input, journal, calls, StraightCall(input, a, n - 1));
    }
  }

  lemma HoldsNone(d: Digests, input: Input, journal: Journal, a: Answers)
    requires input.payout.candidateId in journal.candidates
    ensures HoldsFirst(d, input, journal, a, Initial(journal), 0)
  {
  }

  /** Recording the check fills the candidate's row and nothing else. */
  lemma StraightRecord(d: Digests, input: Input, journal: Journal, a: Answers, s: State)
    requires HoldsFirst(d, input, journal, a, s, 7) && s.journal == journal && Open(d, input, journal, a)
    requires Consistent(input, journal.candidates[input.payout.candidateId], a)
    ensures var t := Step(d, input, s, RecordsCheck(6));
            && t == s.(journal := t.journal)
            && t.journal == journal.(candidates := journal.candidates[input.payout.candidateId :=
                 CheckedRow(d, input, journal, a)])
  {
    hide PackageFits, FinalAdmission, ErgoViewMatches, SidechainViewMatches, Unclaimed;
    assert Holds(s.results, 6, Product(d, input, journal, a, 6));
  }

  lemma StraightExecution(d: Digests, input: Input, journal: Journal, a: Answers, s: State)
    requires HoldsFirst(d, input, journal, a, s, 7)
    requires Consistent(input, journal.candidates[input.payout.candidateId], a)
    requires journal.candidates[input.payout.candidateId].invalidationReason == None
    requires input.payout.candidateId in s.journal.candidates
    requires s.journal.candidates[input.payout.candidateId] == CheckedRow(d, input, journal, a)
    ensures Step(d, input, s, AuthorizesExecution(6)) == Registered(s, Product(d, input, journal, a, 7))
  {
    hide RevalidationFits, PackageFits, FinalAdmission, ErgoViewMatches, SidechainViewMatches, Admissible, Outcome,
         CheckedRow, Admit;
    assert Holds(s.results, 0, Product(d, input, journal, a, 0));
    assert Holds(s.results, 1, Product(d, input, journal, a, 1));
    assert Holds(s.results, 2, Product(d, input, journal, a, 2));
    assert Holds(s.results, 3, Product(d, input, journal, a, 3));
    assert Holds(s.results, 4, Product(d, input, journal, a, 4));
    assert Holds(s.results, 5, Product(d, input, journal, a, 5));
    assert Holds(s.results, 6, Product(d, input, journal, a, 6));
    StraightAuthorization(d, input, journal, s, a);
  }

  lemma StraightTerms(d: Digests, input: Input, journal: Journal, a: Answers)
    requires input.payout.candidateId in journal.candidates
    requires Consistent(input, journal.candidates[input.payout.candidateId], a)
    ensures var t := FinalAdmission(d, input, journal, a).terms;
            && t.candidateId == input.payout.candidateId
            && t.burnId == journal.candidates[input.payout.candidateId].burnId
            && TermsMatchCandidate(d, t, CheckedRow(d, input, journal, a))
            && 0 < t.amountNanoErg <= ERGO_LONG_MAX
  {
    hide PackageFits, ErgoViewMatches, SidechainViewMatches, Admissible;
  }

  /** Right after the check is recorded, the authorization is admitted and the reservation made. */
  lemma StraightReservation(d: Digests, input: Input, journal: Journal, a: Answers, s: State)
    requires HoldsFirst(d, input, journal, a, s, 8) && Open(d, input, journal, a)
    requires Consistent(input, journal.candidates[input.payout.candidateId], a)
    requires s.journal == journal.(candidates := journal.candidates[input.payout.candidateId :=
      CheckedRow(d, input, journal, a)])
    requires journal.candidates[input.payout.candidateId].invalidationReason == None
    ensures var t := Step(d, input, s, AuthorizesReservation(7));
            && t == Registered(s, Product(d, input, journal, a, 8))
            && Grantable(d, t.journal, FinalAdmission(d, input, journal, a))
  {
    hide Consistent, FinalAdmission, Unclaimed, TermsMatchCandidate;
    var x := FinalAdmission(d, input, journal, a);
    StraightTerms(d, input, journal, a);
    assert Holds(s.results, 7, Product(d, input, journal, a, 7));
    assert Checked(CheckedRow(d, input, journal, a));
    assert Reservable(d, s.journal, x.terms);
    FinalDigest(d, input, journal, a);
    SameClaims(journal, s.journal, x.terms);
  }

  lemma FinalDigest(d: Digests, input: Input, journal: Journal, a: Answers)
    requires input.payout.candidateId in journal.candidates
    ensures var x := FinalAdmission(d, input, journal, a); x.digest == d.reservation(x.terms, x.authorization)
  {
  }

  lemma SameClaims(j: Journal, k: Journal, t: Terms)
    requires Unclaimed(j, t) && k.reservations == j.reservations && k.legacyClaims == j.legacyClaims
    ensures Unclaimed(k, t)
  {
  }

  /** Completeness: with consistent answers and an open candidate, the straight run reserves. */
  lemma StraightRunReserves(d: Digests, input: Input, journal: Journal, a: Answers)
    requires Open(d, input, journal, a)
    requires Consistent(input, journal.candidates[input.payout.candidateId], a)
    ensures var s := Run(d, input, journal, StraightRun(input, a, 11));
            var x := FinalAdmission(d, input, journal, a);
            && |s.granted| == 1
            && x.digest in s.journal.reservations
            && s.journal.reservations[x.digest] == Reservation(true, x.terms, x.authorization)
  {
    hide Outcome, Consistent, HoldsFirst, Open, FinalAdmission, Run, Grantable, CheckedRow, MarkedChecked, StraightRun;
    var s := Run(d, input, journal, StraightRun(input, a, 7));
    StraightCandidate(d, input, journal, a);
    StraightRunAdmits(d, input, journal, a, 7);
    StraightRecord(d, input, journal, a, s);
    var s1 := Step(d, input, s, RecordsCheck(6));
    StraightLater(d, input, journal, a, s, s1);
    StraightExecution(d, input, journal, a, s1);
    var s2 := Step(d, input, s1, AuthorizesExecution(6));
    HoldsNext(d, input, journal, a, s1, 7);
    StraightReservation(d, input, journal, a, s2);
    var s3 := Step(d, input, s2, AuthorizesReservation(7));
    HoldsNext(d, input, journal, a, s2, 8);
    StraightHolds(d, input, journal, a, s3);
    StraightRunTail(d, input, journal, a);
  }

  lemma StraightCandidate(d: Digests, input: Input, journal: Journal, a: Answers)
    requires Open(d, input, journal, a)
    ensures input.payout.candidateId in journal.candidates
    ensures journal.candidates[input.payout.candidateId].invalidationReason == None
  {
  }

  lemma StraightLater(d: Digests, input: Input, journal: Journal, a: Answers, s: State, t: State)
    requires HoldsFirst(d, input, journal, a, s, 7) && t == s.(journal := t.journal)
    ensures HoldsFirst(d, input, journal, a, t, 7)
  {
  }

  lemma StraightHolds(d: Digests, input: Input, journal: Journal, a: Answers, s: State)
    requires HoldsFirst(d, input, journal, a, s, 9)
    ensures s.granted == []
    ensures Holds(s.results, 8, ReservationAdmitted(7, FinalAdmission(d, input, journal, a)))
  {
    assert Holds(s.results, 8, Product(d, input, journal, a, 8));
  }

  lemma StraightRunTail(d: Digests, input: Input, journal: Journal, a: Answers)
    ensures Run(d, input, journal, StraightRun(input, a, 11))
            == Step(d, input, Step(d, input, Step(d, input, Step(d, input,
                 Run(d, input, journal, StraightRun(input, a, 7)), RecordsCheck(6)), AuthorizesExecution(6)),
                 AuthorizesReservation(7)), Reserves(8))
  {
    hide Step, Run;
    RunAppend(d, input, journal, StraightRun(input, a, 7), StraightCall(input, a, 7));
    RunAppend(d, input, journal, StraightRun(input, a, 8), StraightCall(input, a, 8));
    RunAppend(d, input, journal, StraightRun(input, a, 9), StraightCall(input, a, 9));
    RunAppend(d, input, journal, StraightRun(input, a, 10), StraightCall(input, a, 10));
  }

  // ----- Completeness from the row alone -----

  /** The answers that project from a row, check digests, finality evidence and the payout. */
  function AnswersFor(
    input: Input, row: CandidateRow, prepared: Ref, k: CheckDigests, f: Finality, signed: SignedCheck): Answers
  {
    var pay := input.payout;
    Answers(
      Revalidated(row.candidateId, k.expectedTxId, row.unsignedTx, prepared, k.revalidation, f, k.finalityProof,
                  pay.amountNanoErg, pay.recipientErgoTree),
      PackageBinding(prepared, k.expectedTxId, k.unsignedPackage),
      signed,
      Acceptance(true, row.candidateId, k.expectedTxId, k.unsignedPackage, k.signedTransaction, k.checkResponse,
                 k.signerContext, k.checkerIdentity, k.revalidation, f, k.finalityProof),
      ErgoView(row.candidateId, row.unsignedTx, k.stableErgoView, row.anchorHeaderId, row.anchorHeaderHeight,
               row.trackerBoxId, row.dupInputBoxId, row.vaultBoxId),
      SidechainView(row.candidateId, k.stableSidechainView, row.burnId, row.sidechainId, row.burnTxHash,
                    row.sidechainHeight, row.sidechainBlockHash, row.sidechainLogIndex, pay.amountNanoErg,
                    pay.recipientErgoTree))
  }

  /** The prepared candidate of the input, with native finality and an open peg-out. */
  ghost predicate Ready(input: Input, journal: Journal, k: CheckDigests, f: Finality) {
    var pay := input.payout;
    && pay.candidateId in journal.candidates
    && var row := journal.candidates[pay.candidateId];
    && row.status == Prepared && row.invalidationReason == None
    && row.candidateId == pay.candidateId && row.unsignedTx == input.unsignedTx && row.vaultBoxId == pay.vaultBoxId
    && 0 < pay.amountNanoErg <= ERGO_LONG_MAX
    && k.unsignedPackage == input.unsignedPackage
    && f.proofSystemId == 1 && 0 < f.horizonHeight <= ERGO_LONG_MAX
    && row.burnId in journal.pegOuts
    && var p := journal.pegOuts[row.burnId];
    && (p.status == "detected" || p.status == "confirmed")
    && p.burnId == row.burnId && p.burnTxHash == row.burnTxHash
    && p.amountNanoErg == pay.amountNanoErg && p.recipientErgoTree == pay.recipientErgoTree
  }

  /** No attempt of the older journal and no live reservation has a claim on the terms. */
  ghost predicate Free(journal: Journal, t: Terms) {
    && t.check.expectedTxId !in journal.legacyClaims
    && t.burnTxHash !in journal.legacyClaims
    && forall k :: k in journal.reservations && journal.reservations[k].active ==> Apart(journal.reservations[k].terms, t)
  }

  /** The check digests as the admission seals them. */
  function Admitted(d: Digests, candidateId: Hex, k: CheckDigests, f: Finality): CheckDigests {
    k.(checkAdmission := d.admission(candidateId, k.(checkAdmission := ""), f))
  }

  /** Main result: for a ready candidate and free terms the callbacks in order reserve exactly the
      terms of the candidate, its digests and the payout. */
  lemma ReadyRunReserves(
    d: Digests, input: Input, journal: Journal, prepared: Ref, k: CheckDigests, f: Finality, signed: SignedCheck)
    requires Ready(input, journal, k, f)
    requires var row := journal.candidates[input.payout.candidateId];
             var sealed := Admitted(d, row.candidateId, k, f);
             var checked := row.(status := CheckPassed, check := Some(sealed), finality := Some(f));
             var terms := TermsFor(d, checked, sealed, journal.pegOuts[row.burnId]);
             Free(journal, terms) && d.reservation(terms, d.authorization(terms)) !in journal.reservations
    ensures var row := journal.candidates[input.payout.candidateId];
            var sealed := Admitted(d, row.candidateId, k, f);
            var checked := row.(status := CheckPassed, check := Some(sealed), finality := Some(f));
            var terms := TermsFor(d, checked, sealed, journal.pegOuts[row.burnId]);
            var z := d.authorization(terms);
            var s := Run(d, input, journal, StraightRun(input, AnswersFor(input, row, prepared, k, f, signed), 11));
            && |s.granted| == 1
            && d.reservation(terms, z) in s.journal.reservations
            && s.journal.reservations[d.reservation(terms, z)] == Reservation(true, terms, z)
  {
    hide Run, StraightRun;
    var row := journal.candidates[input.payout.candidateId];
    StraightRunReserves(d, input, journal, AnswersFor(input, row, prepared, k, f, signed));
  }
}
