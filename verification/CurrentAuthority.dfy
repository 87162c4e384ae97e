/**
  The durable journal of settlement candidates, execution reservations and peg-outs, and the
  predicate that decides whether a transport attempt has authority in it right now.
 */
module CurrentAuthority {
  import opened Prelude

  /** Identity of an object. */
  type Ref = nat

  /** The digests of a passed check, as a reservation repeats them. */
  datatype CheckDigests = CheckDigests(
    expectedTxId: Hex, unsignedPackage: Hex, signedTransaction: Hex, checkResponse: Hex, signerContext: Hex,
    checkerIdentity: Hex, revalidation: Hex, stableErgoView: Hex, stableSidechainView: Hex,
    finalityProof: Hex, checkAdmission: Hex)

  /** The native finality evidence of a check. */
  datatype Finality = Finality(
    nativeRequest: Hex, trustAnchor: Hex, horizonHash: Hex, horizonHeight: nat, statement: Hex, programId: Hex,
    proofSystemId: nat, verifierProfileId: Hex, proofPayload: Hex)

  /** What an execution settles and on which checked evidence. */
  datatype Terms = Terms(
    candidateId: Hex, candidateAuthority: Hex, burnId: Hex, burnTxHash: Hex, duplicatePreventionBoxId: Hex,
    vaultBoxId: Hex, unsignedTx: Hex, check: CheckDigests, amountNanoErg: int, recipientErgoTree: Hex)

  datatype Reservation = Reservation(active: bool, terms: Terms, authorization: Hex)

  datatype CandidateStatus = Prepared | CheckPassed | Invalidated

  /** check and finality are None unless all their columns are filled. */
  datatype CandidateRow = CandidateRow(
    candidateId: Hex, status: CandidateStatus, invalidationReason: Option<string>, burnId: Hex, burnTxHash: Hex,
    dupInputBoxId: Hex, vaultBoxId: Hex, trackerBoxId: Hex, anchorHeaderId: Hex, anchorHeaderHeight: int,
    unsignedTx: Hex, sidechainId: Hex, sidechainHeight: int, sidechainBlockHash: Hex, sidechainLogIndex: int,
    check: Option<CheckDigests>, finality: Option<Finality>)

  datatype PegOut = PegOut(
    status: string, burnId: Hex, burnTxHash: Hex, sidechainId: Hex, sidechainHeight: int,
    sidechainBlockHash: Hex, sidechainLogIndex: int, amountNanoErg: int, recipientErgoTree: Hex)

  /** legacyClaims: transaction ids and burns of live attempts in the older journal. */
  datatype Journal = Journal(
    reservations: map<Hex, Reservation>, candidates: map<Hex, CandidateRow>, pegOuts: map<Hex, PegOut>,
    legacyClaims: set<Hex>)

  /** The terms a transport attempt claims authority for. */
  datatype Binding = Binding(
    reservationDigest: Hex, candidateId: Hex, expectedTxId: Hex, unsignedTx: Hex, unsignedPackage: Hex,
    payoutDigest: Hex, trackerBoxId: Hex, duplicatePreventionBoxId: Hex, signedTransaction: Hex)

  datatype Payout = Payout(
    candidateId: Hex, burnId: Hex, sidechainId: Hex, burnTxHash: Hex, sidechainHeight: int,
    executionBlockHash: Hex, eventIndex: int, amountNanoErg: int, recipientErgoTree: Hex, vaultBoxId: Hex)

  /** SHA-256 over canonical JSON, for each kind of record it is taken of. */
  datatype Digests = Digests(
    words: seq<Hex> -> Hex, candidateAuthority: CandidateRow -> Hex, payout: Payout -> Hex,
    admission: (Hex, CheckDigests, Finality) -> Hex, authorization: Terms -> Hex, reservation: (Terms, Hex) -> Hex)

  predicate TermsMatchCandidate(d: Digests, t: Terms, c: CandidateRow) {
    && t.candidateId == c.candidateId
    && t.candidateAuthority == d.candidateAuthority(c)
    && t.burnId == c.burnId
    && t.burnTxHash == c.burnTxHash
    && t.duplicatePreventionBoxId == c.dupInputBoxId
    && t.vaultBoxId == c.vaultBoxId
    && t.unsignedTx == c.unsignedTx
    && Some(t.check) == c.check
  }

  /** Checked and not invalidated. */
  predicate Checked(c: CandidateRow) {
    c.status == CheckPassed && c.invalidationReason == None
  }

  predicate Unsettled(p: PegOut) {
    p.status == "detected" || p.status == "confirmed"
  }

  predicate PegOutMatchesTerms(p: PegOut, t: Terms) {
    && p.burnId == t.burnId
    && p.burnTxHash == t.burnTxHash
    && p.amountNanoErg == t.amountNanoErg
    && p.recipientErgoTree == t.recipientErgoTree
  }

  predicate PegOutMatchesSource(p: PegOut, c: CandidateRow) {
    && p.sidechainId == c.sidechainId
    && p.sidechainHeight == c.sidechainHeight
    && p.sidechainBlockHash == c.sidechainBlockHash
    && p.sidechainLogIndex == c.sidechainLogIndex
  }

  function PayoutOf(t: Terms, c: CandidateRow): Payout {
    Payout(c.candidateId, c.burnId, c.sidechainId, c.burnTxHash, c.sidechainHeight, c.sidechainBlockHash,
           c.sidechainLogIndex, t.amountNanoErg, t.recipientErgoTree, t.vaultBoxId)
  }

  predicate BindingMatches(d: Digests, b: Binding, t: Terms, c: CandidateRow) {
    && b.candidateId == t.candidateId
    && b.expectedTxId == t.check.expectedTxId
    && b.unsignedTx == t.unsignedTx
    && b.unsignedPackage == t.check.unsignedPackage
    && b.payoutDigest == d.payout(PayoutOf(t, c))
    && b.trackerBoxId == c.trackerBoxId
    && b.duplicatePreventionBoxId == t.duplicatePreventionBoxId
    && b.signedTransaction == t.check.signedTransaction
  }

  /** assertAuthenticatedSettlementTransportAttemptCurrentAuthority does not throw. */
  predicate HasAuthority(d: Digests, journal: Journal, b: Binding) {
    && b.reservationDigest in journal.reservations
    && journal.reservations[b.reservationDigest].active
    && var t := journal.reservations[b.reservationDigest].terms;
    && b.candidateId in journal.candidates
    && var c := journal.candidates[b.candidateId];
    && Checked(c)
    && t.burnId in journal.pegOuts
    && Unsettled(journal.pegOuts[t.burnId])
    && TermsMatchCandidate(d, t, c)
    && PegOutMatchesTerms(journal.pegOuts[t.burnId], t)
    && PegOutMatchesSource(journal.pegOuts[t.burnId], c)
    && BindingMatches(d, b, t, c)
  }

  /** In one journal, one reservation authorises one set of terms. */
  lemma AuthorityPins(d: Digests, journal: Journal, a: Binding, b: Binding)
    requires HasAuthority(d, journal, a) && HasAuthority(d, journal, b)
    requires a.reservationDigest == b.reservationDigest
    ensures a == b
  {
  }

  // ----- What authority comes down to -----

  /** The terms a reservation must have for a candidate and its peg-out. */
  function TermsFor(d: Digests, c: CandidateRow, check: CheckDigests, p: PegOut): Terms {
    Terms(c.candidateId, d.candidateAuthority(c), c.burnId, c.burnTxHash, c.dupInputBoxId, c.vaultBoxId, c.unsignedTx,
          check, p.amountNanoErg, p.recipientErgoTree)
  }

  /** The one binding with authority by a reservation of a candidate and its peg-out. */
  function BindingFor(d: Digests, reservation: Hex, c: CandidateRow, check: CheckDigests, p: PegOut): Binding {
    Binding(reservation, c.candidateId, check.expectedTxId, c.unsignedTx, check.unsignedPackage,
            d.payout(Payout(c.candidateId, c.burnId, c.sidechainId, c.burnTxHash, c.sidechainHeight,
                            c.sidechainBlockHash, c.sidechainLogIndex, p.amountNanoErg, p.recipientErgoTree,
                            c.vaultBoxId)),
            c.trackerBoxId, c.dupInputBoxId, check.signedTransaction)
  }

  /** The peg-out a candidate is for, in some status, with its own amount and recipient. */
  function PegOutFor(c: CandidateRow, p: PegOut): PegOut {
    PegOut(p.status, c.burnId, c.burnTxHash, c.sidechainId, c.sidechainHeight, c.sidechainBlockHash,
           c.sidechainLogIndex, p.amountNanoErg, p.recipientErgoTree)
  }

  /** A live reservation, a checked candidate and an open peg-out that belong together determine
      the terms and the binding; authority is to present exactly that binding. */
  lemma AuthorityExact(d: Digests, journal: Journal, b: Binding)
    ensures HasAuthority(d, journal, b) <==>
            && b.reservationDigest in journal.reservations
            && b.candidateId in journal.candidates
            && var (row, c) := (journal.reservations[b.reservationDigest], journal.candidates[b.candidateId]);
            && row.active
            && c.status == CheckPassed && c.invalidationReason == None && c.check.Some?
            && c.burnId in journal.pegOuts
            && var p := journal.pegOuts[c.burnId];
            && (p.status == "detected" || p.status == "confirmed")
            && p == PegOutFor(c, p)
            && row.terms == TermsFor(d, c, c.check.value, p)
            && b == BindingFor(d, b.reservationDigest, c, c.check.value, p)
  {
  }
}
