/**
  The one-shot submit protocol: a reserved settlement is revalidated, authorised and handed to
  a fixed transport. Callbacks suspend at their awaits; between suspensions the journals may
  change in any way, several runs may interleave, and a driver may call any callback with any
  object. Objects are identities; the WeakSets and WeakMaps of the program are sets and maps
  over identities.
 */
module Submitter {
  import opened CurrentAuthority
  import opened Prelude

  /** Objects and digests other components provide. */
  datatype Env = Env(reservedHandoffs: set<Handoff>, signedArtifacts: set<Ref>, digests: Digests)

  // ----- Objects of the protocol -----

  datatype SignedArtifact = SignedArtifact(
    id: Ref, candidateId: Hex, expectedTxId: Hex, unsignedTx: Hex, unsignedPackage: Hex, signedTransaction: Hex)

  datatype Handoff = Handoff(
    id: Ref, reservation: Ref, signed: SignedArtifact, terms: Binding,
    stableErgoView: Hex, stableSidechainView: Hex)

  datatype Evidence = Evidence(ergoView: Hex, sidechainView: Hex)

  /** Contents of a frozen opaque broadcast authorization. */
  datatype Opaque = Opaque(
    candidateId: Hex, expectedTxId: Hex, signedTransaction: Hex, preSubmit: Hex, approval: Hex, broadcast: Hex)

  /** What actualBroadcastAuthorizations keeps for a core authorization, with that object's
      own frozen fields. */
  datatype Authority = Authority(
    revalidation: Ref, approval: Hex, authorization: Ref,
    candidateId: Hex, expectedTxId: Hex, preSubmit: Hex, broadcast: Hex)

  /** A callback suspended at its await (or inside a dependency). */
  datatype Pending =
    | Revalidating(run: Ref)
    | Authorizing(run: Ref, revalidation: Ref)
    | Submitting(run: Ref, authority: Authority)

  /** Registered dependencies: their fixed submitter and the state object they carry. */
  datatype Deps = Deps(submitter: Ref, state: Ref)

  /** What a run is given: its handoff, and the submitter and state object of its dependencies. */
  datatype Execution = Execution(handoff: Handoff, submitter: Ref, state: Ref)

  /** What happened, in order. */
  datatype Entry =
    | JournalIs(state: Ref, journal: Journal)
    | RunStarted(run: Ref, execution: Execution)
    | Revalidated(run: Ref, revalidation: Ref)
    | Minted(run: Ref, revalidation: Ref, authorization: Ref, submitter: Ref)
    | Started(authorization: Ref, submitter: Ref, signed: Ref)

  datatype State = State(
    next: Ref,                                        // identities below are taken
    journals: map<Ref, Journal>,                      // what each state object holds
    submitters: set<Ref>,                             // FIXED_SUBMITTERS
    deps: map<Ref, Deps>,                             // REGISTERED_RESERVED_EXECUTION_DEPS
    opaques: map<Ref, Opaque>,                        // OPAQUE_BROADCAST_AUTHORIZATIONS
    bound: map<Ref, Ref>,                             // BROADCAST_AUTHORIZATION_SUBMITTERS
    consumed: set<Ref>,                               // CONSUMED_BROADCAST_AUTHORIZATIONS
    runs: map<Ref, Execution>,
    evidence: map<(Ref, Ref), (Evidence, Hex)>,       // actualImmediateEvidence, per run, with the digest field
    authorities: map<(Ref, Ref), Authority>,          // actualBroadcastAuthorizations, per run
    pending: map<Ref, Pending>,
    disclosed: set<Ref>,                              // authorizations a transport has been handed
    log: seq<Entry>)

  const INITIAL := State(0, map[], {}, map[], map[], map[], {}, map[], map[], map[], map[], {}, [])

  // ----- Atomic steps -----

  /** New state, and whether the step went through without throwing. */
  type Outcome = (State, bool)

  /** A journal changes by itself between steps. */
  function JournalChanged(s: State, state: Ref, journal: Journal): State {
    s.(journals := s.journals[state := journal], log := s.log + [JournalIs(state, journal)])
  }

  /** The current-authority check against a state object. */
  predicate AuthorityIn(env: Env, journals: map<Ref, Journal>, x: Execution) {
    x.state in journals && HasAuthority(env.digests, journals[x.state], x.handoff.terms)
  }

  function SubmitterCreated(s: State): State {
    s.(next := s.next + 1, submitters := s.submitters + {s.next})
  }

  function DepsCreated(s: State, deps: Deps): Outcome {
    if deps.submitter !in s.submitters then (s, false)
    else (s.(next := s.next + 1, deps := s.deps[s.next := deps]), true)
  }

  /** assertConcreteReservedHandoff */
  predicate Concrete(env: Env, h: Handoff) {
    && h in env.reservedHandoffs
    && h.signed.id in env.signedArtifacts
    && h.signed.candidateId == h.terms.candidateId
    && h.signed.expectedTxId == h.terms.expectedTxId
    && h.signed.unsignedTx == h.terms.unsignedTx
    && h.signed.unsignedPackage == h.terms.unsignedPackage
    && h.signed.signedTransaction == h.terms.signedTransaction
  }

  function RunBegun(env: Env, s: State, handoff: Handoff, deps: Ref): Outcome {
    if !Concrete(env, handoff) || deps !in s.deps then (s, false)
    else
      var x := Execution(handoff, s.deps[deps].submitter, s.deps[deps].state);
      (s.(next := s.next + 1, runs := s.runs[s.next := x], log := s.log + [RunStarted(s.next, x)]), true)
  }

  /** revalidateImmediately, up to its await. */
  function RevalidationCalled(env: Env, s: State, run: Ref, reservation: Ref, signed: Ref): Outcome {
    if run !in s.runs then (s, false)
    else
      var h := s.runs[run].handoff;
      if reservation != h.reservation || signed != h.signed.id || !AuthorityIn(env, s.journals, s.runs[run]) then
        (s, false)
      else
        (s.(next := s.next + 1, pending := s.pending[s.next := Revalidating(run)]), true)
  }

  function PreSubmitWords(h: Handoff, e: Evidence): seq<Hex> {
    ["E2S_AUTHENTICATED_SETTLEMENT_PRE_SUBMIT_REVALIDATION_V1", h.terms.candidateId, h.terms.expectedTxId,
     h.terms.reservationDigest, h.terms.signedTransaction, h.stableErgoView, h.stableSidechainView, e.ergoView,
     e.sidechainView]
  }

  function PreSubmitDigest(env: Env, h: Handoff, e: Evidence): Hex {
    env.digests.words(PreSubmitWords(h, e))
  }

  /** A revalidation result (identity next) with its evidence. */
  function WithEvidence(s: State, run: Ref, evidence: (Evidence, Hex)): State {
    s.(next := s.next + 1, evidence := s.evidence[(run, s.next) := evidence],
       log := s.log + [Revalidated(run, s.next)])
  }

  /** revalidateImmediately, after its await: evidence is None when the dependency failed. */
  function RevalidationResumed(env: Env, s: State, call: Ref, evidence: Option<Evidence>): Outcome {
    if call !in s.pending || !s.pending[call].Revalidating? || s.pending[call].run !in s.runs then (s, false)
    else
      var run := s.pending[call].run;
      var h := s.runs[run].handoff;
      var t := s.(pending := s.pending - {call});
      if evidence == None || !AuthorityIn(env, s.journals, s.runs[run]) then (t, false)
      else
        (WithEvidence(t, run, (evidence.value, PreSubmitDigest(env, h, evidence.value))), true)
  }

  /** authorizeBroadcast, up to the approval dependency. */
  function AuthorizationCalled(s: State, run: Ref, revalidation: Ref): Outcome {
    if (run, revalidation) !in s.evidence then (s, false)
    else (s.(next := s.next + 1, pending := s.pending[s.next := Authorizing(run, revalidation)]), true)
  }

  function BroadcastWords(h: Handoff, preSubmit: Hex, approval: Hex): seq<Hex> {
    ["E2S_AUTHENTICATED_SETTLEMENT_BROADCAST_AUTHORIZATION_V1", h.terms.candidateId, h.terms.expectedTxId,
     h.terms.reservationDigest, h.terms.signedTransaction, preSubmit, approval]
  }

  function BroadcastDigest(env: Env, h: Handoff, preSubmit: Hex, approval: Hex): Hex {
    env.digests.words(BroadcastWords(h, preSubmit, approval))
  }

  /** Mints the opaque authorization (identity next), binds it to the run's submitter and
      registers the core authorization (identity next + 1). */
  function Mint(s: State, run: Ref, submitter: Ref, revalidation: Ref, terms: Opaque): State {
    s.(next := s.next + 2,
       opaques := s.opaques[s.next := terms],
       bound := s.bound[s.next := submitter],
       authorities := s.authorities[(run, s.next + 1) :=
         Authority(revalidation, terms.approval, s.next, terms.candidateId, terms.expectedTxId,
                   terms.preSubmit, terms.broadcast)],
       log := s.log + [Minted(run, revalidation, s.next, submitter)])
  }

  function OpaqueTerms(env: Env, h: Handoff, preSubmit: Hex, approval: Hex): Opaque {
    Opaque(h.terms.candidateId, h.terms.expectedTxId, h.terms.signedTransaction, preSubmit, approval,
           BroadcastDigest(env, h, preSubmit, approval))
  }

  /** authorizeBroadcast once the approval is there (None: the dependency failed). */
  function AuthorizationResumed(env: Env, s: State, call: Ref, approval: Option<Hex>): Outcome {
    if call !in s.pending || !s.pending[call].Authorizing? || s.pending[call].run !in s.runs
       || (s.pending[call].run, s.pending[call].revalidation) !in s.evidence
    then (s, false)
    else
      var (run, revalidation) := (s.pending[call].run, s.pending[call].revalidation);
      var x := s.runs[run];
      var t := s.(pending := s.pending - {call});
      if approval == None then (t, false)
      else
        var terms := OpaqueTerms(env, x.handoff, s.evidence[(run, revalidation)].1, approval.value);
        (Mint(t, run, x.submitter, revalidation, terms), true)
  }

  /** assertOpaqueBroadcastAuthorization */
  predicate OpaqueFits(s: State, a: Authority, signedTransaction: Hex) {
    && a.authorization in s.opaques
    && var o := s.opaques[a.authorization];
    && o.candidateId == a.candidateId
    && o.expectedTxId == a.expectedTxId
    && o.signedTransaction == signedTransaction
    && o.preSubmit == a.preSubmit
    && o.broadcast == a.broadcast
  }

  /** submit, up to the approval recheck. */
  function SubmissionCalled(s: State, run: Ref, authorization: Ref, signedTransaction: Hex): Outcome {
    if (run, authorization) !in s.authorities then (s, false)
    else
      var a := s.authorities[(run, authorization)];
      if !OpaqueFits(s, a, signedTransaction) then (s, false)
      else (s.(next := s.next + 1, pending := s.pending[s.next := Submitting(run, a)]), true)
  }

  /** The fixed submitter's submit: consumes the authorization, then starts the transport. */
  function FixedSubmit(s: State, submitter: Ref, authorization: Ref, signed: Ref): Outcome {
    if submitter !in s.submitters then (s, false)
    else if authorization !in s.opaques || authorization !in s.bound || s.bound[authorization] != submitter then
      (s, false)
    else if authorization in s.consumed then (s, false)
    else
      (s.(consumed := s.consumed + {authorization},
          disclosed := s.disclosed + {authorization},
          log := s.log + [Started(authorization, submitter, signed)]),
       true)
  }

  /** submit, after the approval recheck: current authority, then the transport, with no await
      between them. */
  function SubmissionResumed(env: Env, s: State, call: Ref, approved: bool): Outcome {
    if call !in s.pending || !s.pending[call].Submitting? || s.pending[call].run !in s.runs then (s, false)
    else
      var x := s.runs[s.pending[call].run];
      var t := s.(pending := s.pending - {call});
      if !approved || !AuthorityIn(env, s.journals, x) then (t, false)
      else FixedSubmit(t, x.submitter, s.pending[call].authority.authorization, x.handoff.signed.id)
  }

  /** Foreign code calls a submitter itself. It can present only an object of its own or an
      authorization some transport was handed: minted ones are private to their run until then. */
  function SubmittedDirectly(s: State, submitter: Ref, authorization: Ref, signed: Ref): Outcome {
    if authorization in s.opaques && authorization !in s.disclosed then (s, false)
    else FixedSubmit(s, submitter, authorization, signed)
  }

  // ----- Runs of the whole system -----

  datatype Event =
    | Journals(state: Ref, journal: Journal)
    | CreatesSubmitter
    | CreatesDeps(dependencies: Deps)
    | Begins(handoff: Handoff, deps: Ref)
    | CallsRevalidate(run: Ref, reservation: Ref, signed: Ref)
    | ResumesRevalidate(call: Ref, evidence: Option<Evidence>)
    | CallsAuthorize(run: Ref, revalidation: Ref)
    | ResumesAuthorize(call: Ref, approval: Option<Hex>)
    | CallsSubmit(run: Ref, authorization: Ref, signedTransaction: Hex)
    | ResumesSubmit(call: Ref, approved: bool)
    | SubmitsDirectly(submitter: Ref, authorization: Ref, signedArtifact: Ref)

  function Step(env: Env, s: State, e: Event): State {
    match e
    case Journals(state, journal) => JournalChanged(s, state, journal)
    case CreatesSubmitter => SubmitterCreated(s)
    case CreatesDeps(deps) => DepsCreated(s, deps).0
    case Begins(handoff, deps) => RunBegun(env, s, handoff, deps).0
    case CallsRevalidate(run, reservation, signed) => RevalidationCalled(env, s, run, reservation, signed).0
    case ResumesRevalidate(call, evidence) => RevalidationResumed(env, s, call, evidence).0
    case CallsAuthorize(run, revalidation) => AuthorizationCalled(s, run, revalidation).0
    case ResumesAuthorize(call, approval) => AuthorizationResumed(env, s, call, approval).0
    case CallsSubmit(run, authorization, signedTransaction) =>
      SubmissionCalled(s, run, authorization, signedTransaction).0
    case ResumesSubmit(call, approved) => SubmissionResumed(env, s, call, approved).0
    case SubmitsDirectly(submitter, authorization, signed) =>
      SubmittedDirectly(s, submitter, authorization, signed).0
  }

  /** Any interleaving, from an empty process. */
  function Run(env: Env, events: seq<Event>): State {
    if events == [] then INITIAL
    else Step(env, Run(env, events[..|events| - 1]), events[|events| - 1])
  }

  // ----- What the log may say -----

  /** The journals in force after the entries so far. */
  function JournalsAfter(log: seq<Entry>): map<Ref, Journal> {
    if log == [] then map[]
    else
      var (before, last) := (JournalsAfter(log[..|log| - 1]), log[|log| - 1]);
      if last.JournalIs? then before[last.state := last.journal] else before
  }

  ghost predicate AuthorityNow(env: Env, log: seq<Entry>, x: Execution) {
    AuthorityIn(env, JournalsAfter(log), x)
  }

  /** An authorization of this run, minted for this submitter after a revalidation of this run. */
  ghost predicate MintedFor(log: seq<Entry>, run: Ref, revalidation: Ref, authorization: Ref, submitter: Ref) {
    Minted(run, revalidation, authorization, submitter) in log
  }

  ghost predicate RunIs(log: seq<Entry>, run: Ref, x: Execution) {
    RunStarted(run, x) in log
  }

  /** What must have happened before for an entry to be written. */
  ghost predicate Justified(env: Env, before: seq<Entry>, e: Entry) {
    match e
    case JournalIs(_, _) => true
    case RunStarted(run, execution) =>
      Concrete(env, execution.handoff) && forall x :: x in before && x.RunStarted? ==> x.run != run
    case Revalidated(run, _) =>
      exists execution :: RunIs(before, run, execution) && AuthorityNow(env, before, execution)
    case Minted(run, revalidation, authorization, submitter) =>
      && (exists execution :: RunIs(before, run, execution) && execution.submitter == submitter)
      && Revalidated(run, revalidation) in before
      && (forall x :: x in before && x.Minted? ==> x.authorization != authorization)
    case Started(authorization, submitter, signed) =>
      && (exists run, revalidation, execution ::
            && MintedFor(before, run, revalidation, authorization, submitter)
            && RunIs(before, run, execution)
            && submitter == execution.submitter
            && signed == execution.handoff.signed.id
            && AuthorityNow(env, before, execution))
      && (forall x :: x in before && x.Started? ==> x.authorization != authorization)
  }

  ghost predicate LogJustified(env: Env, log: seq<Entry>) {
    forall i :: 0 <= i < |log| ==> Justified(env, log[..i], log[i])
  }

  // ----- Invariant -----

  /** Live runs, evidence and authorities are the logged ones. */
  ghost predicate TablesLogged(
    log: seq<Entry>, runs: map<Ref, Execution>, evidence: map<(Ref, Ref), (Evidence, Hex)>,
    authorities: map<(Ref, Ref), Authority>)
  {
    && (forall run :: run in runs ==> RunIs(log, run, runs[run]))
    && (forall k :: k in evidence ==> k.0 in runs && Revalidated(k.0, k.1) in log)
    && (forall k :: k in authorities ==> k.0 in runs && AuthorityLogged(log, runs, k.0, authorities[k]))
  }

  ghost predicate AuthorityLogged(log: seq<Entry>, runs: map<Ref, Execution>, run: Ref, a: Authority)
    requires run in runs
  {
    MintedFor(log, run, a.revalidation, a.authorization, runs[run].submitter)
  }

  ghost predicate PendingLogged(log: seq<Entry>, runs: map<Ref, Execution>, pending: map<Ref, Pending>) {
    forall c :: c in pending && pending[c].Submitting? ==>
      pending[c].run in runs && AuthorityLogged(log, runs, pending[c].run, pending[c].authority)
  }

  /** Logged identities are old ones; a started authorization is consumed. */
  ghost predicate LogBounded(
    log: seq<Entry>, next: Ref, opaques: map<Ref, Opaque>, consumed: set<Ref>, disclosed: set<Ref>)
  {
    && (forall x :: x in log && x.RunStarted? ==> x.run < next)
    && (forall x :: x in log && x.Minted? ==> x.authorization < next && x.authorization in opaques)
    && (forall x :: x in log && x.Started? ==> x.authorization in consumed)
    && disclosed <= consumed
  }

  ghost predicate Inv(env: Env, s: State) {
    && JournalsAfter(s.log) == s.journals
    && TablesLogged(s.log, s.runs, s.evidence, s.authorities)
    && PendingLogged(s.log, s.runs, s.pending)
    && LogBounded(s.log, s.next, s.opaques, s.consumed, s.disclosed)
    && LogJustified(env, s.log)
  }

  lemma JournalAfter(log: seq<Entry>, e: Entry)
    ensures JournalsAfter(log + [e])
            == if e.JournalIs? then JournalsAfter(log)[e.state := e.journal] else JournalsAfter(log)
  {
    assert (log + [e])[..|log|] == log;
  }

  lemma LogExtends(env: Env, log: seq<Entry>, e: Entry)
    requires LogJustified(env, log) && Justified(env, log, e)
    ensures LogJustified(env, log + [e])
  {
    hide Justified;
    var longer := log + [e];
    forall i | 0 <= i < |longer|
      ensures Justified(env, longer[..i], longer[i])
    {
      assert i < |log| ==> longer[..i] == log[..i];
      assert i == |log| ==> longer[..i] == log;
    }
  }

  /** A step that logs nothing and leaves the tables alone. */
  lemma Quiet(env: Env, s: State, t: State)
    requires Inv(env, s)
    requires t.log == s.log && t.journals == s.journals && s.next <= t.next && t.opaques == s.opaques
    requires t.runs == s.runs && t.evidence == s.evidence && t.authorities == s.authorities
    requires t.consumed == s.consumed && t.disclosed == s.disclosed && PendingLogged(t.log, t.runs, t.pending)
    ensures Inv(env, t)
  {
    hide LogJustified, JournalsAfter, TablesLogged, PendingLogged;
  }

  /** A step that writes one justified entry. */
  lemma Logged(env: Env, s: State, t: State, e: Entry)
    requires Inv(env, s) && t.log == s.log + [e] && Justified(env, s.log, e)
    requires t.journals == if e.JournalIs? then s.journals[e.state := e.journal] else s.journals
    requires TablesLogged(t.log, t.runs, t.evidence, t.authorities)
    requires PendingLogged(t.log, t.runs, t.pending)
    requires LogBounded(t.log, t.next, t.opaques, t.consumed, t.disclosed)
    ensures Inv(env, t)
  {
    hide Justified, LogJustified, JournalsAfter, TablesLogged, PendingLogged, LogBounded;
    JournalAfter(s.log, e);
    LogExtends(env, s.log, e);
  }

  /** Tables that are logged stay logged in a longer log. */
  lemma Carried(s: State, t: State)
    requires TablesLogged(s.log, s.runs, s.evidence, s.authorities)
    requires PendingLogged(s.log, s.runs, s.pending)
    requires s.log <= t.log
    requires s.runs.Keys <= t.runs.Keys && forall r :: r in s.runs ==> t.runs[r] == s.runs[r]
    ensures forall run :: run in s.runs ==> RunIs(t.log, run, t.runs[run])
    ensures forall k :: k in s.evidence ==> k.0 in t.runs && Revalidated(k.0, k.1) in t.log
    ensures forall k :: k in s.authorities ==> k.0 in t.runs && AuthorityLogged(t.log, t.runs, k.0, s.authorities[k])
    ensures forall c :: c in s.pending && s.pending[c].Submitting? ==>
      s.pending[c].run in t.runs && AuthorityLogged(t.log, t.runs, s.pending[c].run, s.pending[c].authority)
  {
    LongerLog(s.log, t.log);
  }

  lemma LongerLog(a: seq<Entry>, b: seq<Entry>)
    requires a <= b
    ensures forall e :: e in a ==> e in b
  {
    forall e | e in a
      ensures e in b
    {
      var i :| 0 <= i < |a| && a[i] == e;
      assert b[i] == e;
    }
  }

  lemma JournalChangedKeeps(env: Env, s: State, state: Ref, journal: Journal)
    requires Inv(env, s)
    ensures Inv(env, JournalChanged(s, state, journal))
  {
    hide LogJustified, JournalsAfter;
    var t := JournalChanged(s, state, journal);
    Carried(s, t);
    Logged(env, s, t, JournalIs(state, journal));
  }

  lemma RunBegunKeeps(env: Env, s: State, handoff: Handoff, deps: Ref)
    requires Inv(env, s)
    ensures Inv(env, RunBegun(env, s, handoff, deps).0)
  {
    hide LogJustified, JournalsAfter, Concrete, AuthorityLogged;
    var (t, ok) := RunBegun(env, s, handoff, deps);
    if ok {
      OldRuns(s);
      Carried(s, t);
      BegunLogged(s, t, t.runs[s.next]);
      Logged(env, s, t, RunStarted(s.next, t.runs[s.next]));
    }
  }

  lemma BegunLogged(s: State, t: State, x: Execution)
    requires TablesLogged(s.log, s.runs, s.evidence, s.authorities)
    requires PendingLogged(s.log, s.runs, s.pending)
    requires LogBounded(s.log, s.next, s.opaques, s.consumed, s.disclosed)
    requires s.next !in s.runs
    requires t == s.(next := s.next + 1, runs := s.runs[s.next := x], log := s.log + [RunStarted(s.next, x)])
    ensures TablesLogged(t.log, t.runs, t.evidence, t.authorities)
    ensures PendingLogged(t.log, t.runs, t.pending)
    ensures LogBounded(t.log, t.next, t.opaques, t.consumed, t.disclosed)
  {
    hide AuthorityLogged;
    Carried(s, t);
  }

  lemma OldRuns(s: State)
    requires TablesLogged(s.log, s.runs, s.evidence, s.authorities)
    requires LogBounded(s.log, s.next, s.opaques, s.consumed, s.disclosed)
    ensures forall run :: run in s.runs ==> run < s.next
  {
    forall run | run in s.runs
      ensures run < s.next
    {
      assert RunIs(s.log, run, s.runs[run]);
    }
  }

  lemma RevalidatedKeeps(env: Env, s: State, run: Ref, evidence: (Evidence, Hex))
    requires Inv(env, s) && run in s.runs && AuthorityIn(env, s.journals, s.runs[run])
    ensures Inv(env, WithEvidence(s, run, evidence))
  {
    hide LogJustified, JournalsAfter, AuthorityIn;
    var t := WithEvidence(s, run, evidence);
    assert RunIs(s.log, run, s.runs[run]);
    EvidenceLogged(s, t, run, evidence);
    Logged(env, s, t, Revalidated(run, s.next));
  }

  lemma EvidenceLogged(s: State, t: State, run: Ref, evidence: (Evidence, Hex))
    requires TablesLogged(s.log, s.runs, s.evidence, s.authorities) && PendingLogged(s.log, s.runs, s.pending)
    requires LogBounded(s.log, s.next, s.opaques, s.consumed, s.disclosed) && run in s.runs
    requires t == s.(next := s.next + 1, evidence := s.evidence[(run, s.next) := evidence],
                     log := s.log + [Revalidated(run, s.next)])
    ensures TablesLogged(t.log, t.runs, t.evidence, t.authorities) && PendingLogged(t.log, t.runs, t.pending)
    ensures LogBounded(t.log, t.next, t.opaques, t.consumed, t.disclosed)
  {
    hide AuthorityLogged;
    Carried(s, t);
  }

  lemma RevalidationResumedKeeps(env: Env, s: State, call: Ref, evidence: Option<Evidence>)
    requires Inv(env, s)
    ensures Inv(env, RevalidationResumed(env, s, call, evidence).0)
  {
    hide LogJustified, JournalsAfter, AuthorityIn, PreSubmitDigest, AuthorityLogged;
    var (t, ok) := RevalidationResumed(env, s, call, evidence);
    if call in s.pending {
      var u := s.(pending := s.pending - {call});
      Forgets(env, s, call);
      if ok {
        var run := s.pending[call].run;
        RevalidatedKeeps(env, u, run, (evidence.value, PreSubmitDigest(env, s.runs[run].handoff, evidence.value)));
      }
    }
  }

  /** A callback that has resumed is no longer pending. */
  lemma Forgets(env: Env, s: State, call: Ref)
    requires Inv(env, s)
    ensures Inv(env, s.(pending := s.pending - {call}))
  {
    hide LogJustified, JournalsAfter, TablesLogged, LogBounded;
    Quiet(env, s, s.(pending := s.pending - {call}));
  }

  lemma MintKeeps(env: Env, s: State, run: Ref, revalidation: Ref, terms: Opaque)
    requires Inv(env, s) && run in s.runs && (run, revalidation) in s.evidence
    ensures Inv(env, Mint(s, run, s.runs[run].submitter, revalidation, terms))
  {
    hide LogJustified, JournalsAfter;
    var submitter := s.runs[run].submitter;
    var t := Mint(s, run, submitter, revalidation, terms);
    assert RunIs(s.log, run, s.runs[run]);
    MintLogged(s, run, revalidation, terms);
    Logged(env, s, t, Minted(run, revalidation, s.next, submitter));
  }

  lemma MintLogged(s: State, run: Ref, revalidation: Ref, terms: Opaque)
    requires TablesLogged(s.log, s.runs, s.evidence, s.authorities)
    requires PendingLogged(s.log, s.runs, s.pending)
    requires LogBounded(s.log, s.next, s.opaques, s.consumed, s.disclosed)
    requires run in s.runs
    ensures var t := Mint(s, run, s.runs[run].submitter, revalidation, terms);
            && TablesLogged(t.log, t.runs, t.evidence, t.authorities)
            && PendingLogged(t.log, t.runs, t.pending)
            && LogBounded(t.log, t.next, t.opaques, t.consumed, t.disclosed)
  {
    var t := Mint(s, run, s.runs[run].submitter, revalidation, terms);
    Carried(s, t);
  }

  lemma AuthorizationResumedKeeps(env: Env, s: State, call: Ref, approval: Option<Hex>)
    requires Inv(env, s)
    ensures Inv(env, AuthorizationResumed(env, s, call, approval).0)
  {
    hide LogJustified, JournalsAfter, OpaqueTerms, Mint;
    var (t, ok) := AuthorizationResumed(env, s, call, approval);
    if call in s.pending {
      var u := s.(pending := s.pending - {call});
      Forgets(env, s, call);
      if ok {
        var (run, revalidation) := (s.pending[call].run, s.pending[call].revalidation);
        MintKeeps(env, u, run, revalidation,
                  OpaqueTerms(env, s.runs[run].handoff, s.evidence[(run, revalidation)].1, approval.value));
      }
    }
  }

  lemma FixedSubmitKeeps(env: Env, s: State, run: Ref, authority: Authority)
    requires Inv(env, s) && run in s.runs && AuthorityLogged(s.log, s.runs, run, authority)
    requires AuthorityIn(env, s.journals, s.runs[run])
    ensures Inv(env, FixedSubmit(s, s.runs[run].submitter, authority.authorization, s.runs[run].handoff.signed.id).0)
  {
    hide LogJustified, JournalsAfter, AuthorityIn;
    var x := s.runs[run];
    var (t, ok) := FixedSubmit(s, x.submitter, authority.authorization, x.handoff.signed.id);
    if ok {
      Carried(s, t);
      assert RunIs(s.log, run, x);
      Logged(env, s, t, Started(authority.authorization, x.submitter, x.handoff.signed.id));
    }
  }

  lemma SubmissionResumedKeeps(env: Env, s: State, call: Ref, approved: bool)
    requires Inv(env, s)
    ensures Inv(env, SubmissionResumed(env, s, call, approved).0)
  {
    hide LogJustified, JournalsAfter, AuthorityIn, FixedSubmit;
    if call in s.pending && s.pending[call].Submitting? && s.pending[call].run in s.runs {
      var t := s.(pending := s.pending - {call});
      Forgets(env, s, call);
      if approved && AuthorityIn(env, s.journals, s.runs[s.pending[call].run]) {
        FixedSubmitKeeps(env, t, s.pending[call].run, s.pending[call].authority);
      }
    }
  }

  /** Foreign code never gets a transport going by itself: whatever it can present is forged
      or spent. */
  lemma DirectSubmissionFails(env: Env, s: State, submitter: Ref, authorization: Ref, signed: Ref)
    requires Inv(env, s)
    ensures SubmittedDirectly(s, submitter, authorization, signed) == (s, false)
  {
  }

  lemma StepKeeps(env: Env, s: State, e: Event)
    requires Inv(env, s)
    ensures Inv(env, Step(env, s, e))
  {
    hide RevalidationResumed, AuthorizationResumed, SubmissionResumed, RunBegun, JournalChanged, SubmittedDirectly,
         RevalidationCalled, AuthorizationCalled, SubmissionCalled, Inv;
    match e
    case Journals(state, journal) => JournalChangedKeeps(env, s, state, journal);
    case CreatesSubmitter => NewSubmitterKeeps(env, s);
    case CreatesDeps(deps) => NewDepsKeep(env, s, deps);
    case Begins(handoff, deps) => RunBegunKeeps(env, s, handoff, deps);
    case CallsRevalidate(run, reservation, signed) => RevalidationCalledKeeps(env, s, run, reservation, signed);
    case ResumesRevalidate(call, evidence) => RevalidationResumedKeeps(env, s, call, evidence);
    case CallsAuthorize(run, revalidation) => AuthorizationCalledKeeps(env, s, run, revalidation);
    case ResumesAuthorize(call, approval) => AuthorizationResumedKeeps(env, s, call, approval);
    case CallsSubmit(run, authorization, signedTransaction) =>
      SubmissionCalledKeeps(env, s, run, authorization, signedTransaction);
    case ResumesSubmit(call, approved) => SubmissionResumedKeeps(env, s, call, approved);
    case SubmitsDirectly(submitter, authorization, signed) =>
      DirectSubmissionFails(env, s, submitter, authorization, signed);
  }

  lemma NewSubmitterKeeps(env: Env, s: State)
    requires Inv(env, s)
    ensures Inv(env, SubmitterCreated(s))
  {
    hide LogJustified, JournalsAfter, TablesLogged, PendingLogged, LogBounded;
    Quiet(env, s, SubmitterCreated(s));
  }

  lemma NewDepsKeep(env: Env, s: State, deps: Deps)
    requires Inv(env, s)
    ensures Inv(env, DepsCreated(s, deps).0)
  {
    hide Inv;
    RegisteredDepsKeep(env, s, deps);
  }

  lemma RegisteredDepsKeep(env: Env, s: State, deps: Deps)
    requires Inv(env, s)
    ensures Inv(env, s.(next := s.next + 1, deps := s.deps[s.next := deps]))
  {
    hide LogJustified, JournalsAfter, TablesLogged, PendingLogged, LogBounded;
    Quiet(env, s, s.(next := s.next + 1, deps := s.deps[s.next := deps]));
  }

  /** Suspending a callback keeps the invariant. */
  lemma Suspends(env: Env, s: State, p: Pending)
    requires Inv(env, s) && (p.Submitting? ==> p.run in s.runs && AuthorityLogged(s.log, s.runs, p.run, p.authority))
    ensures Inv(env, s.(next := s.next + 1, pending := s.pending[s.next := p]))
  {
    hide LogJustified, JournalsAfter, TablesLogged, LogBounded;
    Quiet(env, s, s.(next := s.next + 1, pending := s.pending[s.next := p]));
  }

  lemma RevalidationCalledKeeps(env: Env, s: State, run: Ref, reservation: Ref, signed: Ref)
    requires Inv(env, s)
    ensures Inv(env, RevalidationCalled(env, s, run, reservation, signed).0)
  {
    hide Inv, AuthorityIn;
    Suspends(env, s, Revalidating(run));
  }

  lemma AuthorizationCalledKeeps(env: Env, s: State, run: Ref, revalidation: Ref)
    requires Inv(env, s)
    ensures Inv(env, AuthorizationCalled(s, run, revalidation).0)
  {
    hide Inv;
    Suspends(env, s, Authorizing(run, revalidation));
  }

  lemma SubmissionCalledKeeps(env: Env, s: State, run: Ref, authorization: Ref, signedTransaction: Hex)
    requires Inv(env, s)
    ensures Inv(env, SubmissionCalled(s, run, authorization, signedTransaction).0)
  {
    hide LogJustified, JournalsAfter, AuthorityLogged, OpaqueFits;
    if (run, authorization) in s.authorities {
      Suspends(env, s, Submitting(run, s.authorities[(run, authorization)]));
    }
  }

  /** Every entry of every run is justified by the entries before it. */
  lemma {:induction false} RunsAreJustified(env: Env, events: seq<Event>)
    ensures Inv(env, Run(env, events))
  {
    hide Step, Inv;
    if events == [] {
      InitialFits(env);
    } else {
      RunsAreJustified(env, events[..|events| - 1]);
      StepKeeps(env, Run(env, events[..|events| - 1]), events[|events| - 1]);
    }
  }

  lemma InitialFits(env: Env)
    ensures Inv(env, INITIAL)
  {
  }

  // ----- The property of every transport start -----

  /** The transport start at i: current authority at that very moment; the authorization was
      minted earlier (m), after an immediate revalidation (v), itself under current authority,
      of the same run (r); it goes to the run's submitter with the run's signed artifact. */
  ghost predicate AuthorizedStart(env: Env, log: seq<Entry>, i: nat, r: nat, v: nat, m: nat)
    requires r < v < m < i < |log| && log[i].Started? && log[r].RunStarted? && log[m].Minted?
  {
    var x := log[r].execution;
    && Concrete(env, x.handoff)
    && ArtifactOfTerms(x.handoff)
    && AuthorityNow(env, log[..i], x)
    && log[i].signed == x.handoff.signed.id
    && log[m] == Minted(log[r].run, log[m].revalidation, log[i].authorization, x.submitter)
    && log[i].submitter == x.submitter
    && log[v] == Revalidated(log[r].run, log[m].revalidation)
    && AuthorityNow(env, log[..v], x)
  }

  /** The signed artifact is for the candidate, transaction and package of the reserved terms. */
  ghost predicate ArtifactOfTerms(h: Handoff) {
    h.signed == SignedArtifact(h.signed.id, h.terms.candidateId, h.terms.expectedTxId, h.terms.unsignedTx,
                               h.terms.unsignedPackage, h.terms.signedTransaction)
  }

  ghost predicate FirstStart(log: seq<Entry>, i: nat)
    requires i < |log| && log[i].Started?
  {
    forall k :: 0 <= k < i && log[k].Started? ==> log[k].authorization != log[i].authorization
  }

  /** The transport start at i is authorised and unrepeated. */
  ghost predicate Authorised(env: Env, log: seq<Entry>, i: nat)
    requires i < |log| && log[i].Started?
  {
    && FirstStart(log, i)
    && exists r, v, m :: 0 <= r < v < m < i && log[r].RunStarted? && log[m].Minted?
                         && AuthorizedStart(env, log, i, r, v, m)
  }

  /** Main result: in every interleaving, every transport start is authorised and unrepeated. */
  lemma TransportsAreAuthorized(env: Env, events: seq<Event>, i: nat)
    requires i < |Run(env, events).log| && Run(env, events).log[i].Started?
    ensures Authorised(env, Run(env, events).log, i)
  {
    hide Run, Authorised;
    RunsAreJustified(env, events);
    JustifiedStart(env, Run(env, events).log, i);
  }

  lemma LastStart(env: Env, s: State)
    requires Inv(env, s) && s.log != [] && s.log[|s.log| - 1].Started?
    ensures Authorised(env, s.log, |s.log| - 1)
  {
    hide Authorised, LogJustified, JournalsAfter, TablesLogged, PendingLogged, LogBounded;
    JustifiedStart(env, s.log, |s.log| - 1);
  }

  lemma JustifiedStart(env: Env, log: seq<Entry>, i: nat)
    requires LogJustified(env, log) && i < |log| && log[i].Started?
    ensures Authorised(env, log, i)
  {
    hide AuthorityNow, Concrete, LogJustified;
    var r, v, m := Provenance(env, log, i);
  }

  lemma OneStartPerRun(env: Env, log: seq<Entry>, i: nat, j: nat)
    requires LogJustified(env, log) && i < |log| && j < |log| && log[i].RunStarted? && log[j].RunStarted?
    requires log[i].run == log[j].run
    ensures i == j
  {
    hide Concrete;
    if i < j {
      LaterRunDiffers(env, log, i, j);
    } else if j < i {
      LaterRunDiffers(env, log, j, i);
    }
  }

  lemma LaterRunDiffers(env: Env, log: seq<Entry>, i: nat, j: nat)
    requires LogJustified(env, log) && i < j < |log| && log[i].RunStarted? && log[j].RunStarted?
    ensures log[i].run != log[j].run
  {
    hide Concrete;
    assert Justified(env, log[..j], log[j]) && log[..j][i] in log[..j];
  }

  lemma Provenance(env: Env, log: seq<Entry>, i: nat) returns (r: nat, v: nat, m: nat)
    requires LogJustified(env, log) && i < |log| && log[i].Started?
    ensures FirstStart(log, i) && r < v < m < i && log[r].RunStarted? && log[m].Minted?
    ensures AuthorizedStart(env, log, i, r, v, m)
  {
    hide AuthorityNow, Concrete;
    assert Justified(env, log[..i], log[i]);
    var run, revalidation, execution :|
      && MintedFor(log[..i], run, revalidation, log[i].authorization, log[i].submitter)
      && RunIs(log[..i], run, execution)
      && log[i].submitter == execution.submitter
      && log[i].signed == execution.handoff.signed.id
      && AuthorityNow(env, log[..i], execution);
    m :| 0 <= m < i && log[m] == Minted(run, revalidation, log[i].authorization, log[i].submitter);
    r :| 0 <= r < i && log[r] == RunStarted(run, execution);
    v := RevalidatedBefore(env, log, m, r);
    FirstStartOf(env, log, i);
    assert Justified(env, log[..r], log[r]);
    ConcreteArtifact(env, execution.handoff);
  }

  lemma ConcreteArtifact(env: Env, h: Handoff)
    requires Concrete(env, h)
    ensures ArtifactOfTerms(h)
  {
  }

  lemma FirstStartOf(env: Env, log: seq<Entry>, i: nat)
    requires LogJustified(env, log) && i < |log| && log[i].Started?
    ensures FirstStart(log, i)
  {
    hide AuthorityNow, Concrete;
    assert Justified(env, log[..i], log[i]);
    forall k | 0 <= k < i && log[k].Started?
      ensures log[k].authorization != log[i].authorization
    {
      assert log[..i][k] in log[..i];
    }
  }

  lemma RevalidatedBefore(env: Env, log: seq<Entry>, m: nat, r: nat) returns (v: nat)
    requires LogJustified(env, log) && m < |log| && r < |log| && log[m].Minted? && log[r].RunStarted?
    requires log[r].run == log[m].run
    ensures r < v < m && log[v] == Revalidated(log[m].run, log[m].revalidation)
    ensures AuthorityNow(env, log[..v], log[r].execution)
  {
    hide AuthorityNow, Concrete;
    assert Justified(env, log[..m], log[m]);
    v :| 0 <= v < m && log[v] == Revalidated(log[m].run, log[m].revalidation);
    assert Justified(env, log[..v], log[v]);
    var execution :| RunIs(log[..v], log[m].run, execution) && AuthorityNow(env, log[..v], execution);
    var r' :| 0 <= r' < v && log[r'] == RunStarted(log[m].run, execution);
    OneStartPerRun(env, log, r, r');
  }

  // ----- The program -----

  class Process {
    const env: Env
    var next: Ref
    var journals: map<Ref, Journal>
    var submitters: set<Ref>
    var deps: map<Ref, Deps>
    var opaques: map<Ref, Opaque>
    var bound: map<Ref, Ref>
    var consumed: set<Ref>
    var runs: map<Ref, Execution>
    var evidence: map<(Ref, Ref), (Evidence, Hex)>
    var authorities: map<(Ref, Ref), Authority>
    var pending: map<Ref, Pending>
    ghost var disclosed: set<Ref>
    ghost var log: seq<Entry>

    ghost function Now(): State
      reads this
    {
      State(next, journals, submitters, deps, opaques, bound, consumed, runs, evidence, authorities, pending,
            disclosed, log)
    }

    /** What is live is logged, and every entry of the log is justified. */
    ghost predicate Valid()
      reads this
    {
      Inv(env, Now())
    }

    constructor (env: Env)
      ensures this.env == env && Now() == INITIAL && Valid()
    {
      this.env := env;
      next, journals := 0, map[];
      submitters, deps, opaques, bound, consumed := {}, map[], map[], map[], {};
      runs, evidence, authorities, pending := map[], map[], map[], map[];
      disclosed, log := {}, [];
    }

    method Allocate() returns (id: Ref)
      modifies this`next
      ensures id == old(next) && next == old(next) + 1
    {
      id := next;
      next := next + 1;
    }

    /** Some state object's journal is written, by whatever code. */
    method WriteJournal(state: Ref, journal: Journal)
      requires Valid()
      modifies this
      ensures Valid() && Now() == JournalChanged(old(Now()), state, journal)
    {
      hide Inv;
      JournalChangedKeeps(env, Now(), state, journal);
      journals := journals[state := journal];
      log := log + [JournalIs(state, journal)];
    }

    method CreateFixedSubmitter() returns (submitter: Ref)
      requires Valid()
      modifies this
      ensures Valid()
      ensures submitter == old(next) && Now() == SubmitterCreated(old(Now()))
    {
      hide Inv;
      NewSubmitterKeeps(env, Now());
      submitter := Allocate();
      submitters := submitters + {submitter};
    }

    method CreateDeps(dependencies: Deps) returns (ok: bool)
      requires Valid()
      modifies this
      ensures Valid()
      ensures (Now(), ok) == DepsCreated(old(Now()), dependencies)
    {
      hide Inv;
      NewDepsKeep(env, Now(), dependencies);
      if dependencies.submitter !in submitters {
        return false;
      }
      var registered := Allocate();
      deps := deps[registered := dependencies];
      return true;
    }

    method BeginRun(handoff: Handoff, dependencies: Ref) returns (ok: bool)
      requires Valid()
      modifies this
      ensures Valid()
      ensures (Now(), ok) == RunBegun(env, old(Now()), handoff, dependencies)
    {
      hide Inv;
      RunBegunKeeps(env, Now(), handoff, dependencies);
      if !Concrete(env, handoff) || dependencies !in deps {
        return false;
      }
      var run := Allocate();
      var execution := Execution(handoff, deps[dependencies].submitter, deps[dependencies].state);
      runs := runs[run := execution];
      log := log + [RunStarted(run, execution)];
      return true;
    }

    method RevalidateImmediately(run: Ref, reservation: Ref, signed: Ref) returns (ok: bool)
      requires Valid()
      modifies this
      ensures Valid()
      ensures (Now(), ok) == RevalidationCalled(env, old(Now()), run, reservation, signed)
      ensures ok <==> run in runs && reservation == runs[run].handoff.reservation && signed == runs[run].handoff.signed.id
                      && AuthorityIn(env, journals, runs[run])
    {
      hide Inv;
      RevalidationCalledKeeps(env, Now(), run, reservation, signed);
      if run !in runs {
        return false;
      }
      var handoff := runs[run].handoff;
      if reservation != handoff.reservation || signed != handoff.signed.id {
        return false;
      }
      if !AuthorityIn(env, journals, runs[run]) {
        return false;
      }
      var call := Allocate();
      pending := pending[call := Revalidating(run)];
      return true;
    }

    method RevalidateImmediatelyResumes(call: Ref, observed: Option<Evidence>) returns (ok: bool)
      requires Valid()
      modifies this
      ensures Valid()
      ensures (Now(), ok) == RevalidationResumed(env, old(Now()), call, observed)
    {
      hide Inv, AuthorityIn, PreSubmitDigest, WithEvidence;
      RevalidationResumedKeeps(env, Now(), call, observed);
      if call !in pending || !pending[call].Revalidating? || pending[call].run !in runs {
        return false;
      }
      var run := pending[call].run;
      var execution := runs[run];
      pending := pending - {call};
      if observed == None {
        return false;
      }
      if !AuthorityIn(env, journals, execution) {
        return false;
      }
      RegisterEvidence(run, (observed.value, PreSubmitDigest(env, execution.handoff, observed.value)));
      return true;
    }

    method RegisterEvidence(run: Ref, observed: (Evidence, Hex))
      modifies this
      ensures Now() == WithEvidence(old(Now()), run, observed)
    {
      var result := Allocate();
      evidence := evidence[(run, result) := observed];
      log := log + [Revalidated(run, result)];
    }

    method AuthorizeBroadcast(run: Ref, revalidation: Ref) returns (ok: bool)
      requires Valid()
      modifies this
      ensures Valid()
      ensures (Now(), ok) == AuthorizationCalled(old(Now()), run, revalidation)
    {
      hide Inv;
      AuthorizationCalledKeeps(env, Now(), run, revalidation);
      if (run, revalidation) !in evidence {
        return false;
      }
      var call := Allocate();
      pending := pending[call := Authorizing(run, revalidation)];
      return true;
    }

    method AuthorizeBroadcastResumes(call: Ref, approval: Option<Hex>) returns (ok: bool)
      requires Valid()
      modifies this
      ensures Valid()
      ensures (Now(), ok) == AuthorizationResumed(env, old(Now()), call, approval)
    {
      hide Inv;
      AuthorizationResumedKeeps(env, Now(), call, approval);
      hide OpaqueTerms, Mint;
      if call !in pending || !pending[call].Authorizing? || pending[call].run !in runs
         || (pending[call].run, pending[call].revalidation) !in evidence {
        return false;
      }
      var run, revalidation := pending[call].run, pending[call].revalidation;
      var execution, preSubmit := runs[run], evidence[(run, revalidation)].1;
      pending := pending - {call};
      if approval == None {
        return false;
      }
      var terms := OpaqueTerms(env, execution.handoff, preSubmit, approval.value);
      MintAuthorization(run, execution.submitter, revalidation, terms);
      return true;
    }

    method MintAuthorization(run: Ref, submitter: Ref, revalidation: Ref, terms: Opaque)
      modifies this
      ensures Now() == Mint(old(Now()), run, submitter, revalidation, terms)
    {
      var authorization, result := next, next + 1;
      next := next + 2;
      opaques := opaques[authorization := terms];
      bound := bound[authorization := submitter];
      authorities := authorities[(run, result) :=
        Authority(revalidation, terms.approval, authorization, terms.candidateId, terms.expectedTxId,
                  terms.preSubmit, terms.broadcast)];
      log := log + [Minted(run, revalidation, authorization, submitter)];
    }

    method Submit(run: Ref, authorization: Ref, signedTransaction: Hex) returns (ok: bool)
      requires Valid()
      modifies this
      ensures Valid()
      ensures (Now(), ok) == SubmissionCalled(old(Now()), run, authorization, signedTransaction)
    {
      hide Inv;
      SubmissionCalledKeeps(env, Now(), run, authorization, signedTransaction);
      if (run, authorization) !in authorities {
        return false;
      }
      var authority := authorities[(run, authorization)];
      if authority.authorization !in opaques {
        return false;
      }
      var opaqueTerms := opaques[authority.authorization];
      if || opaqueTerms.candidateId != authority.candidateId
         || opaqueTerms.expectedTxId != authority.expectedTxId
         || opaqueTerms.signedTransaction != signedTransaction
         || opaqueTerms.preSubmit != authority.preSubmit
         || opaqueTerms.broadcast != authority.broadcast {
        return false;
      }
      var call := Allocate();
      pending := pending[call := Submitting(run, authority)];
      return true;
    }

    method SubmitResumes(call: Ref, approved: bool) returns (ok: bool)
      requires Valid()
      modifies this
      ensures Valid()
      ensures (Now(), ok) == SubmissionResumed(env, old(Now()), call, approved)
      ensures ok ==> |log| == |old(log)| + 1 && log[|old(log)|].Started? && Authorised(env, log, |old(log)|)
    {
      hide Inv, Authorised;
      SubmissionResumedKeeps(env, Now(), call, approved);
      if call !in pending || !pending[call].Submitting? || pending[call].run !in runs {
        return false;
      }
      var execution, authority := runs[pending[call].run], pending[call].authority;
      pending := pending - {call};
      if !approved {
        return false;
      }
      if !AuthorityIn(env, journals, execution) {
        return false;
      }
      ok := SubmitThrough(execution.submitter, authority.authorization, execution.handoff.signed.id);
      if ok {
        LastStart(env, Now());
      }
    }

    /** Foreign code calls a submitter with what it can present: no transport starts. */
    method SubmitForeign(submitter: Ref, authorization: Ref, signed: Ref) returns (ok: bool)
      requires Valid() && (authorization in opaques ==> authorization in disclosed)
      modifies this
      ensures Valid() && !ok && Now() == old(Now())
    {
      hide Inv;
      DirectSubmissionFails(env, Now(), submitter, authorization, signed);
      ok := SubmitThrough(submitter, authorization, signed);
    }

    /** The frozen submit of createAuthenticatedSettlementFixedSubmitter, up to the transport call. */
    method SubmitThrough(submitter: Ref, authorization: Ref, signed: Ref) returns (ok: bool)
      modifies this
      ensures (Now(), ok) == FixedSubmit(old(Now()), submitter, authorization, signed)
    {
      if submitter !in submitters {
        return false;
      }
      if authorization !in opaques || authorization !in bound || bound[authorization] != submitter {
        return false;
      }
      if authorization in consumed {
        return false;
      }
      consumed := consumed + {authorization};
      disclosed := disclosed + {authorization};
      log := log + [Started(authorization, submitter, signed)];
      return true;
    }
  }

  // ----- Nothing else blocks a submission -----

  /** Minted authorizations stay bound to their submitter, and submitters in use are genuine. */
  ghost predicate Wired(log: seq<Entry>, submitters: set<Ref>, deps: map<Ref, Deps>, opaques: map<Ref, Opaque>,
                        bound: map<Ref, Ref>)
  {
    && (forall x :: x in log && x.Minted? ==>
          x.authorization in opaques && x.authorization in bound && bound[x.authorization] == x.submitter)
    && (forall x :: x in log && x.RunStarted? ==> x.execution.submitter in submitters)
    && (forall d :: d in deps ==> deps[d].submitter in submitters)
  }

  lemma MintWired(s: State, run: Ref, submitter: Ref, revalidation: Ref, terms: Opaque)
    requires LogBounded(s.log, s.next, s.opaques, s.consumed, s.disclosed)
    requires Wired(s.log, s.submitters, s.deps, s.opaques, s.bound)
    ensures var t := Mint(s, run, submitter, revalidation, terms);
            Wired(t.log, t.submitters, t.deps, t.opaques, t.bound)
  {
  }

  /** Entries other than a mint or a new run do not matter for the wiring. */
  lemma LogsWired(s: State, t: State)
    requires Wired(s.log, s.submitters, s.deps, s.opaques, s.bound)
    requires t.submitters == s.submitters && t.deps == s.deps && t.opaques == s.opaques && t.bound == s.bound
    requires forall x :: x in t.log && (x.Minted? || x.RunStarted?) ==> x in s.log
    ensures Wired(t.log, t.submitters, t.deps, t.opaques, t.bound)
  {
  }

  lemma StepKeepsWired(env: Env, s: State, e: Event)
    requires Inv(env, s) && Wired(s.log, s.submitters, s.deps, s.opaques, s.bound)
    ensures var t := Step(env, s, e); Wired(t.log, t.submitters, t.deps, t.opaques, t.bound)
  {
    hide LogJustified, JournalsAfter, AuthorityIn, Concrete, PreSubmitDigest, OpaqueTerms, TablesLogged,
         PendingLogged, OpaqueFits;
    match e
    case ResumesAuthorize(call, approval) => AuthorizationWired(env, s, call, approval);
    case CreatesSubmitter =>
    case CreatesDeps(_) =>
    case Begins(_, _) =>
    case _ => OtherStepWired(env, s, e);
  }

  lemma AuthorizationWired(env: Env, s: State, call: Ref, approval: Option<Hex>)
    requires Inv(env, s) && Wired(s.log, s.submitters, s.deps, s.opaques, s.bound)
    ensures var t := AuthorizationResumed(env, s, call, approval).0;
            Wired(t.log, t.submitters, t.deps, t.opaques, t.bound)
  {
    hide LogJustified, JournalsAfter, OpaqueTerms, TablesLogged, PendingLogged, Mint, LogBounded, Wired;
    if AuthorizationResumed(env, s, call, approval).1 {
      var (run, revalidation) := (s.pending[call].run, s.pending[call].revalidation);
      MintWired(s.(pending := s.pending - {call}), run, s.runs[run].submitter, revalidation,
                OpaqueTerms(env, s.runs[run].handoff, s.evidence[(run, revalidation)].1, approval.value));
    }
  }

  lemma OtherStepWired(env: Env, s: State, e: Event)
    requires Wired(s.log, s.submitters, s.deps, s.opaques, s.bound)
    requires !e.ResumesAuthorize? && !e.CreatesSubmitter? && !e.CreatesDeps? && !e.Begins?
    ensures var t := Step(env, s, e); Wired(t.log, t.submitters, t.deps, t.opaques, t.bound)
  {
    hide AuthorityIn, PreSubmitDigest, OpaqueFits, Wired, SubmissionResumed, SubmittedDirectly;
    match e
    case Journals(state, journal) => LogsWired(s, JournalChanged(s, state, journal));
    case ResumesRevalidate(call, evidence) => LogsWired(s, RevalidationResumed(env, s, call, evidence).0);
    case ResumesSubmit(call, approved) => SubmissionWired(env, s, call, approved);
    case SubmitsDirectly(submitter, authorization, signed) => DirectWired(s, submitter, authorization, signed);
    case _ =>
  }

  lemma SubmissionWired(env: Env, s: State, call: Ref, approved: bool)
    requires Wired(s.log, s.submitters, s.deps, s.opaques, s.bound)
    ensures var t := SubmissionResumed(env, s, call, approved).0;
            Wired(t.log, t.submitters, t.deps, t.opaques, t.bound)
  {
    hide AuthorityIn, Wired;
    LogsWired(s, SubmissionResumed(env, s, call, approved).0);
  }

  lemma DirectWired(s: State, submitter: Ref, authorization: Ref, signed: Ref)
    requires Wired(s.log, s.submitters, s.deps, s.opaques, s.bound)
    ensures var t := SubmittedDirectly(s, submitter, authorization, signed).0;
            Wired(t.log, t.submitters, t.deps, t.opaques, t.bound)
  {
    hide Wired;
    LogsWired(s, SubmittedDirectly(s, submitter, authorization, signed).0);
  }

  lemma {:induction false} RunsAreWired(env: Env, events: seq<Event>)
    ensures var s := Run(env, events); Wired(s.log, s.submitters, s.deps, s.opaques, s.bound)
  {
    hide Step, Wired;
    if events == [] {
      InitialWired();
    } else {
      var earlier := events[..|events| - 1];
      RunsAreJustified(env, earlier);
      RunsAreWired(env, earlier);
      StepKeepsWired(env, Run(env, earlier), events[|events| - 1]);
    }
  }

  lemma InitialWired()
    ensures var s := INITIAL; Wired(s.log, s.submitters, s.deps, s.opaques, s.bound)
  {
  }

  /** In any reachable state a resumed submission starts its transport exactly when the
      approval is still good, the authority is current and the authorization is unused. */
  lemma SubmissionStartsIff(env: Env, events: seq<Event>, call: Ref, approved: bool)
    requires var s := Run(env, events); call in s.pending && s.pending[call].Submitting?
    ensures var s := Run(env, events);
            && s.pending[call].run in s.runs
            && (SubmissionResumed(env, s, call, approved).1 <==>
                && approved
                && AuthorityIn(env, s.journals, s.runs[s.pending[call].run])
                && s.pending[call].authority.authorization !in s.consumed)
  {
    hide Run, AuthorityIn, LogJustified, JournalsAfter;
    RunsAreJustified(env, events);
    RunsAreWired(env, events);
    var s := Run(env, events);
    var run := s.pending[call].run;
    assert AuthorityLogged(s.log, s.runs, run, s.pending[call].authority);
    assert RunIs(s.log, run, s.runs[run]);
  }
}
