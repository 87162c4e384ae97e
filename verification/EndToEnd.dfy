/**
  The whole way from the first revalidation to the transport. Check-and-reserve runs and the
  submitter share state objects; other writers change candidates and peg-outs at will and only
  revoke or remove reservations, since the grant is the one place that inserts them. Reserved
  handoffs are whatever the process accepts as such: a forged one is stopped by the journal.

  A restarted process is one whose driver never uses an object of before the restart again.
 */
module EndToEnd {
  import opened CurrentAuthority
  import opened Prelude
  import P = CheckReservation
  import S = Submitter

  const EMPTY := Journal(map[], map[], map[], {})

  /** A check-and-reserve run on a state object, by its calls; each is preceded by the journal it
      found. */
  datatype Check = Check(input: P.Input, state: Ref, calls: seq<P.Call>)

  function StateOf(d: Digests, c: Check): P.State {
    P.Run(d, c.input, EMPTY, c.calls)
  }

  /** The check-and-reserve runs, and what the submitter has seen so far. */
  datatype System = System(checks: seq<Check>, trace: seq<S.Event>)

  function Now(env: S.Env, sys: System): S.State {
    S.Run(env, sys.trace)
  }

  datatype Event =
    | Writes(state: Ref, journal: Journal)
    | StartsCheck(input: P.Input, state: Ref)
    | Calls(check: nat, call: P.Call)
    | Submits(event: S.Event)

  function Found(journals: map<Ref, Journal>, state: Ref): Journal {
    if state in journals then journals[state] else EMPTY
  }

  predicate OnlyRevokes(before: map<Hex, Reservation>, after: map<Hex, Reservation>) {
    forall k :: k in after && after[k].active ==> k in before && before[k] == after[k]
  }

  function Called(c: Check, journal: Journal, call: P.Call): Check {
    c.(calls := c.calls + [P.Journals(journal), call])
  }

  function Step(env: S.Env, sys: System, e: Event): System {
    var journals := Now(env, sys).journals;
    match e
    case Writes(state, journal) =>
      if OnlyRevokes(Found(journals, state).reservations, journal.reservations)
      then sys.(trace := sys.trace + [S.Journals(state, journal)])
      else sys
    case StartsCheck(input, state) => sys.(checks := sys.checks + [Check(input, state, [])])
    case Calls(k, call) =>
      if k >= |sys.checks| || call.Journals? || sys.checks[k].state !in journals then sys
      else
        var c := Called(sys.checks[k], journals[sys.checks[k].state], call);
        System(sys.checks[k := c], sys.trace + [S.Journals(c.state, StateOf(env.digests, c).journal)])
    case Submits(event) => if event.Journals? then sys else sys.(trace := sys.trace + [event])
  }

  /** Any interleaving, from no state objects. */
  function Run(env: S.Env, events: seq<Event>): System {
    if events == [] then System([], [])
    else Step(env, Run(env, events[..|events| - 1]), events[|events| - 1])
  }

  // ----- Grants -----

  /** A grant of a check-and-reserve run, and the entry of the log that wrote it. */
  datatype Origin = Origin(check: nat, index: nat, at: nat)

  ghost predicate IsOrigin(d: Digests, checks: seq<Check>, o: Origin) {
    && o.check < |checks|
    && var s := StateOf(d, checks[o.check]);
    && o.index < |s.granted|
    && var x := s.granted[o.index].admission;
    && x in s.results && s.results[x].ReservationAdmitted?
  }

  ghost function GrantOf(d: Digests, checks: seq<Check>, o: Origin): P.Granted
    requires IsOrigin(d, checks, o)
  {
    StateOf(d, checks[o.check]).granted[o.index]
  }

  /** What the run reserved. */
  ghost function Reserved(d: Digests, checks: seq<Check>, o: Origin): P.ReservationAdmission
    requires IsOrigin(d, checks, o)
  {
    StateOf(d, checks[o.check]).results[GrantOf(d, checks, o).admission].reservation
  }

  /** The grant was written to the run's state object. */
  ghost predicate Written(d: Digests, checks: seq<Check>, log: seq<S.Entry>, o: Origin) {
    && IsOrigin(d, checks, o)
    && o.at < |log|
    && log[o.at]
       == S.JournalIs(checks[o.check].state, P.Grant(GrantOf(d, checks, o).before, Reserved(d, checks, o)))
  }

  /** A row of a state object is what was granted in it. */
  ghost predicate GrantedRow(
    d: Digests, checks: seq<Check>, log: seq<S.Entry>, state: Ref, k: Hex, row: Reservation, o: Origin)
  {
    && Written(d, checks, log, o)
    && checks[o.check].state == state
    && var r := Reserved(d, checks, o);
    && r.digest == k
    && row == Reservation(true, r.terms, r.authorization)
  }

  ghost predicate RowsGranted(
    d: Digests, checks: seq<Check>, log: seq<S.Entry>, state: Ref, rows: map<Hex, Reservation>)
  {
    forall k :: k in rows && rows[k].active ==> exists o :: GrantedRow(d, checks, log, state, k, rows[k], o)
  }

  /** Live rows of all state objects were granted, and no two of one state object claim a
      common resource. */
  ghost predicate Sound(d: Digests, checks: seq<Check>, log: seq<S.Entry>) {
    var journals := S.JournalsAfter(log);
    forall state :: state in journals ==>
      RowsGranted(d, checks, log, state, journals[state].reservations) && P.Exclusive(journals[state])
  }

  /** At every moment so far. */
  ghost predicate AlwaysSound(d: Digests, checks: seq<Check>, log: seq<S.Entry>) {
    forall i :: 0 <= i <= |log| ==> Sound(d, checks, log[..i])
  }

  // ----- Runs only grow -----

  ghost predicate Extends(s: P.State, t: P.State) {
    && s.granted <= t.granted
    && forall id :: id in s.results ==> id in t.results && t.results[id] == s.results[id]
  }

  ghost predicate Grown(d: Digests, checks: seq<Check>, later: seq<Check>) {
    && |checks| <= |later|
    && forall k :: 0 <= k < |checks| ==>
         && later[k].state == checks[k].state
         && later[k].input == checks[k].input
         && Extends(StateOf(d, checks[k]), StateOf(d, later[k]))
  }

  lemma StepExtends(d: Digests, input: P.Input, s: P.State, c: P.Call)
    requires P.Inv(d, input, s)
    ensures Extends(s, P.Step(d, input, s, c))
  {
    hide P.Outcome, P.MarkedChecked, P.Grantable, P.Linked, P.Fair;
  }

  /** A call is one step from the journal it found. */
  lemma CalledSteps(d: Digests, c: Check, journal: Journal, call: P.Call)
    ensures StateOf(d, Called(c, journal, call)) == P.Step(d, c.input, StateOf(d, c).(journal := journal), call)
    ensures Extends(StateOf(d, c), StateOf(d, Called(c, journal, call)))
  {
    hide P.Run, P.Inv;
    P.RunsAreLinked(d, c.input, EMPTY, c.calls);
    P.RunsAreLinked(d, c.input, EMPTY, c.calls + [P.Journals(journal)]);
    P.RunAppend(d, c.input, EMPTY, c.calls, P.Journals(journal));
    P.RunAppend(d, c.input, EMPTY, c.calls + [P.Journals(journal)], call);
    assert c.calls + [P.Journals(journal)] + [call] == c.calls + [P.Journals(journal), call];
    StepExtends(d, c.input, StateOf(d, c).(journal := journal), call);
  }

  lemma RowStays(
    d: Digests, checks: seq<Check>, later: seq<Check>, log: seq<S.Entry>, longer: seq<S.Entry>, state: Ref, k: Hex,
    row: Reservation, o: Origin)
    requires Grown(d, checks, later) && log <= longer && GrantedRow(d, checks, log, state, k, row, o)
    ensures GrantedRow(d, later, longer, state, k, row, o)
  {
    hide StateOf;
  }

  lemma RowsStay(
    d: Digests, checks: seq<Check>, later: seq<Check>, log: seq<S.Entry>, longer: seq<S.Entry>, state: Ref,
    rows: map<Hex, Reservation>, left: map<Hex, Reservation>)
    requires Grown(d, checks, later) && log <= longer && RowsGranted(d, checks, log, state, rows)
    requires OnlyRevokes(rows, left)
    ensures RowsGranted(d, later, longer, state, left)
  {
    hide Grown, GrantedRow;
    forall k | k in left && left[k].active
      ensures exists o :: GrantedRow(d, later, longer, state, k, left[k], o)
    {
      var o :| GrantedRow(d, checks, log, state, k, rows[k], o);
      RowStays(d, checks, later, log, longer, state, k, rows[k], o);
    }
  }

  /** What was sound stays sound while runs grow. */
  lemma SoundStays(d: Digests, checks: seq<Check>, later: seq<Check>, log: seq<S.Entry>, longer: seq<S.Entry>)
    requires Grown(d, checks, later) && log <= longer && Sound(d, checks, log)
    requires S.JournalsAfter(longer) == S.JournalsAfter(log)
    ensures Sound(d, later, longer)
  {
    hide Grown, RowsGranted, P.Exclusive, S.JournalsAfter;
    var journals := S.JournalsAfter(log);
    forall state | state in journals
      ensures RowsGranted(d, later, longer, state, journals[state].reservations)
    {
      var rows := journals[state].reservations;
      RowsStay(d, checks, later, log, longer, state, rows, rows);
    }
  }

  /** One more entry. */
  lemma SoundAfter(d: Digests, checks: seq<Check>, later: seq<Check>, log: seq<S.Entry>, e: S.Entry)
    requires AlwaysSound(d, checks, log) && Grown(d, checks, later) && Sound(d, later, log + [e])
    ensures AlwaysSound(d, later, log + [e])
  {
    hide Grown, Sound;
    forall i | 0 <= i <= |log + [e]|
      ensures Sound(d, later, (log + [e])[..i])
    {
      if i <= |log| {
        assert (log + [e])[..i] == log[..i];
        SoundStays(d, checks, later, log[..i], log[..i]);
      } else {
        assert (log + [e])[..i] == log + [e];
      }
    }
  }

  lemma SoundNow(d: Digests, checks: seq<Check>, log: seq<S.Entry>)
    requires AlwaysSound(d, checks, log)
    ensures Sound(d, checks, log)
  {
    hide Sound;
    assert log[..|log|] == log;
  }

  /** A state object is written with granted rows. */
  lemma WriteSound(d: Digests, checks: seq<Check>, later: seq<Check>, log: seq<S.Entry>, state: Ref, journal: Journal)
    requires AlwaysSound(d, checks, log) && Grown(d, checks, later) && P.Exclusive(journal)
    requires RowsGranted(d, later, log + [S.JournalIs(state, journal)], state, journal.reservations)
    ensures AlwaysSound(d, later, log + [S.JournalIs(state, journal)])
  {
    hide Grown, RowsGranted, P.Exclusive, S.JournalsAfter;
    var e := S.JournalIs(state, journal);
    SoundNow(d, checks, log);
    S.JournalAfter(log, e);
    var journals := S.JournalsAfter(log);
    forall other | other in journals && other != state
      ensures RowsGranted(d, later, log + [e], other, journals[other].reservations)
    {
      var rows := journals[other].reservations;
      RowsStay(d, checks, later, log, log + [e], other, rows, rows);
    }
    SoundAfter(d, checks, later, log, e);
  }

  // ----- Steps -----

  ghost predicate Inv(env: S.Env, sys: System) {
    AlwaysSound(env.digests, sys.checks, Now(env, sys).log)
  }

  lemma NothingGrown(d: Digests, checks: seq<Check>)
    ensures Grown(d, checks, checks)
  {
    hide StateOf;
  }

  /** The journals of the submitter are those of its log. */
  lemma TraceAppend(env: S.Env, sys: System, e: S.Event)
    ensures S.JournalsAfter(Now(env, sys).log) == Now(env, sys).journals
    ensures S.Run(env, sys.trace + [e]) == S.Step(env, Now(env, sys), e)
  {
    hide S.Step, S.JournalsAfter, S.LogJustified, S.TablesLogged, S.PendingLogged, S.LogBounded;
    S.RunsAreJustified(env, sys.trace);
    assert (sys.trace + [e])[..|sys.trace|] == sys.trace;
  }

  /** Revoking frees resources. */
  lemma RevokedExclusive(before: Journal, after: Journal)
    requires P.Exclusive(before) && OnlyRevokes(before.reservations, after.reservations)
    ensures P.Exclusive(after)
  {
    hide P.Claims;
  }

  lemma WritesKeeps(env: S.Env, sys: System, state: Ref, journal: Journal)
    requires Inv(env, sys) && OnlyRevokes(Found(Now(env, sys).journals, state).reservations, journal.reservations)
    ensures Inv(env, sys.(trace := sys.trace + [S.Journals(state, journal)]))
  {
    hide RowsGranted, AlwaysSound, S.Run, S.JournalsAfter, P.Exclusive;
    var (d, log) := (env.digests, Now(env, sys).log);
    TraceAppend(env, sys, S.Journals(state, journal));
    NothingGrown(d, sys.checks);
    SoundNow(d, sys.checks, log);
    EmptyRowsFit(d, sys.checks, log, state);
    var found := Found(Now(env, sys).journals, state);
    RowsStay(d, sys.checks, sys.checks, log, log + [S.JournalIs(state, journal)], state, found.reservations,
             journal.reservations);
    RevokedExclusive(found, journal);
    WriteSound(d, sys.checks, sys.checks, log, state, journal);
  }

  lemma EmptyRowsFit(d: Digests, checks: seq<Check>, log: seq<S.Entry>, state: Ref)
    ensures RowsGranted(d, checks, log, state, map[]) && P.Exclusive(EMPTY)
  {
  }

  lemma SameRowsExclusive(j: Journal, k: Journal)
    requires P.Exclusive(j) && j.reservations == k.reservations
    ensures P.Exclusive(k)
  {
    hide P.Claims;
  }

  lemma ChecksGrow(d: Digests, checks: seq<Check>, k: nat, c: Check)
    requires k < |checks| && c.state == checks[k].state && c.input == checks[k].input
    requires Extends(StateOf(d, checks[k]), StateOf(d, c))
    ensures Grown(d, checks, checks[k := c])
  {
    hide StateOf;
  }

  /** What a call leaves in the journal: the rows it found, or one more that it granted. */
  lemma CallWrites(d: Digests, input: P.Input, s: P.State, call: P.Call)
    requires !call.Journals? && P.Exclusive(s.journal)
    ensures var t := P.Step(d, input, s, call);
            && P.Exclusive(t.journal)
            && (t.journal.reservations == s.journal.reservations
                || (&& t.granted != [] && t.results == s.results
                    && var g := t.granted[|t.granted| - 1];
                    && g.before == s.journal
                    && g.admission in t.results && t.results[g.admission].ReservationAdmitted?
                    && t.journal == P.Grant(s.journal, t.results[g.admission].reservation)))
  {
    hide P.Outcome, P.Grantable, P.Exclusive, P.MarkedChecked;
    var t := P.Step(d, input, s, call);
    match call
    case RecordsCheck(x) =>
      if x in s.results && s.results[x].CheckAdmission? {
        MarkedKeepsRows(s.journal, s.results[x].admission);
        SameRowsExclusive(s.journal, t.journal);
      }
    case Reserves(x) =>
      if x in s.results && s.results[x].ReservationAdmitted? && P.Grantable(d, s.journal, s.results[x].reservation) {
        P.GrantKeepsExclusive(d, s.journal, s.results[x].reservation);
      }
    case _ =>
  }

  lemma MarkedKeepsRows(journal: Journal, x: P.Admission)
    ensures P.MarkedChecked(journal, x).reservations == journal.reservations
  {
  }

  lemma CallsKeeps(env: S.Env, sys: System, k: nat, call: P.Call)
    requires Inv(env, sys) && k < |sys.checks| && !call.Journals? && sys.checks[k].state in Now(env, sys).journals
    ensures Inv(env, Step(env, sys, Calls(k, call)))
  {
    hide RowsGranted, AlwaysSound, S.Run, S.JournalsAfter, P.Exclusive, P.Run, P.Step, GrantedRow, Grown, Extends;
    var (d, log, before) := (env.digests, Now(env, sys).log, sys.checks[k]);
    var found := Now(env, sys).journals[before.state];
    var c := Called(before, found, call);
    var (t, e) := (StateOf(d, c), S.JournalIs(c.state, StateOf(d, c).journal));
    TraceAppend(env, sys, S.Journals(c.state, t.journal));
    CalledSteps(d, before, found, call);
    ChecksGrow(d, sys.checks, k, c);
    SoundNow(d, sys.checks, log);
    CallWrites(d, before.input, StateOf(d, before).(journal := found), call);
    var later := sys.checks[k := c];
    var rows := found.reservations;
    RowsStay(d, sys.checks, later, log, log + [e], c.state, rows, rows);
    if t.journal.reservations != rows {
      NewRow(d, later, log, k, rows);
    }
    WriteSound(d, sys.checks, later, log, c.state, t.journal);
  }

  /** The last grant of a run accounts for the row it wrote. */
  lemma NewRow(d: Digests, checks: seq<Check>, log: seq<S.Entry>, k: nat, rows: map<Hex, Reservation>)
    requires k < |checks|
    requires var (t, c) := (StateOf(d, checks[k]), checks[k]);
             && t.granted != []
             && var g := t.granted[|t.granted| - 1];
             && g.admission in t.results && t.results[g.admission].ReservationAdmitted?
             && g.before.reservations == rows
             && t.journal == P.Grant(g.before, t.results[g.admission].reservation)
             && RowsGranted(d, checks, log + [S.JournalIs(c.state, t.journal)], c.state, rows)
    ensures var (t, c) := (StateOf(d, checks[k]), checks[k]);
            RowsGranted(d, checks, log + [S.JournalIs(c.state, t.journal)], c.state, t.journal.reservations)
  {
    hide StateOf;
    var (t, c) := (StateOf(d, checks[k]), checks[k]);
    var e := S.JournalIs(c.state, t.journal);
    var o := Origin(k, |t.granted| - 1, |log|);
    var r := Reserved(d, checks, o);
    assert GrantedRow(d, checks, log + [e], c.state, r.digest, Reservation(true, r.terms, r.authorization), o);
  }

  /** Nothing is logged, or one entry that is no journal. */
  ghost predicate NoJournal(log: seq<S.Entry>, longer: seq<S.Entry>) {
    || longer == log
    || (|longer| == |log| + 1 && longer[..|log|] == log && !longer[|log|].JournalIs?)
  }

  /** A step of the submitter writes no journal. */
  lemma SubmitterLogs(env: S.Env, s: S.State, e: S.Event)
    requires !e.Journals?
    ensures NoJournal(s.log, S.Step(env, s, e).log)
  {
    hide S.FixedSubmit, S.SubmissionResumed, S.AuthorizationResumed, S.RevalidationResumed, S.RunBegun,
         S.SubmittedDirectly, S.AuthorityIn, S.OpaqueFits;
    match e
    case Begins(handoff, deps) => RunLogs(env, s, handoff, deps);
    case ResumesRevalidate(call, evidence) => RevalidationLogs(env, s, call, evidence);
    case ResumesAuthorize(call, approval) => AuthorizationLogs(env, s, call, approval);
    case ResumesSubmit(call, approved) => SubmissionLogs(env, s, call, approved);
    case SubmitsDirectly(submitter, authorization, signed) => DirectLogs(s, submitter, authorization, signed);
    case _ =>
  }

  lemma RunLogs(env: S.Env, s: S.State, handoff: S.Handoff, deps: Ref)
    ensures NoJournal(s.log, S.RunBegun(env, s, handoff, deps).0.log)
  {
    hide S.Concrete;
  }

  lemma RevalidationLogs(env: S.Env, s: S.State, call: Ref, evidence: Option<S.Evidence>)
    ensures NoJournal(s.log, S.RevalidationResumed(env, s, call, evidence).0.log)
  {
    hide S.AuthorityIn, S.PreSubmitDigest;
  }

  lemma AuthorizationLogs(env: S.Env, s: S.State, call: Ref, approval: Option<Hex>)
    ensures NoJournal(s.log, S.AuthorizationResumed(env, s, call, approval).0.log)
  {
    hide S.OpaqueTerms;
  }

  lemma SubmissionLogs(env: S.Env, s: S.State, call: Ref, approved: bool)
    ensures NoJournal(s.log, S.SubmissionResumed(env, s, call, approved).0.log)
  {
    hide S.AuthorityIn;
  }

  lemma DirectLogs(s: S.State, submitter: Ref, authorization: Ref, signed: Ref)
    ensures NoJournal(s.log, S.SubmittedDirectly(s, submitter, authorization, signed).0.log)
  {
  }

  lemma SubmitsKeeps(env: S.Env, sys: System, e: S.Event)
    requires Inv(env, sys) && !e.Journals?
    ensures Inv(env, sys.(trace := sys.trace + [e]))
  {
    hide AlwaysSound, Sound, S.Run, S.Step, S.JournalsAfter;
    var (d, s) := (env.digests, Now(env, sys));
    TraceAppend(env, sys, e);
    SubmitterLogs(env, s, e);
    var log := S.Step(env, s, e).log;
    if log != s.log {
      var entry := log[|s.log|];
      assert log == s.log + [entry];
      S.JournalAfter(s.log, entry);
      NothingGrown(d, sys.checks);
      SoundNow(d, sys.checks, s.log);
      SoundStays(d, sys.checks, sys.checks, s.log, log);
      SoundAfter(d, sys.checks, sys.checks, s.log, entry);
    }
  }

  lemma StartsCheckKeeps(env: S.Env, sys: System, c: Check)
    requires Inv(env, sys)
    ensures Inv(env, sys.(checks := sys.checks + [c]))
  {
    hide Sound, S.Run, StateOf;
    var (d, log, later) := (env.digests, Now(env, sys).log, sys.checks + [c]);
    assert Grown(d, sys.checks, later);
    forall i | 0 <= i <= |log|
      ensures Sound(d, later, log[..i])
    {
      SoundStays(d, sys.checks, later, log[..i], log[..i]);
    }
  }

  lemma StepKeeps(env: S.Env, sys: System, e: Event)
    requires Inv(env, sys)
    ensures Inv(env, Step(env, sys, e))
  {
    hide Inv, Now, OnlyRevokes, StateOf;
    match e
    case Writes(state, journal) =>
      if OnlyRevokes(Found(Now(env, sys).journals, state).reservations, journal.reservations) {
        WritesKeeps(env, sys, state, journal);
      }
    case StartsCheck(input, state) => StartsCheckKeeps(env, sys, Check(input, state, []));
    case Calls(k, call) =>
      if k < |sys.checks| && !call.Journals? && sys.checks[k].state in Now(env, sys).journals {
        CallsKeeps(env, sys, k, call);
      }
    case Submits(event) =>
      if !event.Journals? {
        SubmitsKeeps(env, sys, event);
      }
  }

  /** At every moment of every interleaving, live reservations were granted and are exclusive. */
  lemma {:induction false} RunsAreSound(env: S.Env, events: seq<Event>)
    ensures Inv(env, Run(env, events))
  {
    hide Step, Inv;
    if events == [] {
      NothingYet(env);
    } else {
      RunsAreSound(env, events[..|events| - 1]);
      StepKeeps(env, Run(env, events[..|events| - 1]), events[|events| - 1]);
    }
  }

  lemma NothingYet(env: S.Env)
    ensures Inv(env, System([], []))
  {
  }

  // ----- The transport -----

  /** The peg-out is the one the payout is for. */
  predicate PegOutIs(p: PegOut, payout: Payout) {
    && p.burnId == payout.burnId
    && p.burnTxHash == payout.burnTxHash
    && p.sidechainId == payout.sidechainId
    && p.sidechainHeight == payout.sidechainHeight
    && p.sidechainBlockHash == payout.executionBlockHash
    && p.sidechainLogIndex == payout.eventIndex
    && p.amountNanoErg == payout.amountNanoErg
    && p.recipientErgoTree == payout.recipientErgoTree
  }

  /** What a transport with authority settles: the reservation r of the journal, for an open
      peg-out with candidate, amount and recipient of the payout it was granted for; and that
      payout itself exactly if the attempt carries its digest. */
  ghost predicate Settles(d: Digests, journal: Journal, b: Binding, r: P.ReservationAdmission, payout: Payout) {
    && b.reservationDigest == r.digest
    && r.digest in journal.reservations
    && journal.reservations[r.digest] == Reservation(true, r.terms, r.authorization)
    && b.candidateId == payout.candidateId && b.candidateId in journal.candidates
    && r.terms.burnId in journal.pegOuts
    && var (row, p) := (journal.candidates[b.candidateId], journal.pegOuts[r.terms.burnId]);
    && Unsettled(p)
    && p.amountNanoErg == payout.amountNanoErg
    && p.recipientErgoTree == payout.recipientErgoTree
    && (payout == PayoutOf(r.terms, row) ==> PegOutIs(p, payout))
    && (P.PayoutsCollisionFree(d) ==> (b.payoutDigest == d.payout(payout) <==> payout == PayoutOf(r.terms, row)))
  }

  /** What ThroughChain says of the terms. */
  lemma ChainTerms(d: Digests, checks: seq<Check>, o: Origin)
    requires IsOrigin(d, checks, o)
    ensures var c := checks[o.check];
            && P.ThroughChain(d, c.input, StateOf(d, c).results, GrantOf(d, checks, o))
            && Reserved(d, checks, o).terms.candidateId == c.input.payout.candidateId
            && Reserved(d, checks, o).terms.amountNanoErg == c.input.payout.amountNanoErg
            && Reserved(d, checks, o).terms.recipientErgoTree == c.input.payout.recipientErgoTree
  {
    hide P.Run;
    P.ReservedThroughChain(d, checks[o.check].input, EMPTY, checks[o.check].calls, o.index);
  }

  /** Whoever has authority by a granted row settles what was granted, whatever made it a
      handoff. */
  lemma AuthoritySettles(
    d: Digests, checks: seq<Check>, log: seq<S.Entry>, state: Ref, journal: Journal, b: Binding, o: Origin)
    requires HasAuthority(d, journal, b)
    requires GrantedRow(d, checks, log, state, b.reservationDigest, journal.reservations[b.reservationDigest], o)
    ensures Settles(d, journal, b, Reserved(d, checks, o), checks[o.check].input.payout)
  {
    hide StateOf, P.ThroughChain;
    ChainTerms(d, checks, o);
  }

  /** The transport start at i belongs to the run begun at r, and goes back to the grant o, which
      was written before it to the very state object the run uses. */
  ghost predicate GoesBack(env: S.Env, checks: seq<Check>, log: seq<S.Entry>, i: nat, r: nat, o: Origin)
    requires r < i < |log| && log[r].RunStarted? && log[i].Started?
  {
    var (d, x) := (env.digests, log[r].execution);
    && log[i].signed == x.handoff.signed.id
    && S.AuthorityNow(env, log[..i], x)
    && Written(d, checks, log[..i], o)
    && SignedFor(x.handoff.signed, Reserved(d, checks, o).terms)
    && var c := checks[o.check];
    && c.state == x.state
    && P.ThroughChain(d, c.input, StateOf(d, c).results, GrantOf(d, checks, o))
    && Settles(d, S.JournalsAfter(log[..i])[x.state], x.handoff.terms, Reserved(d, checks, o), c.input.payout)
  }

  /** The started artifact is the signed transaction of the reserved terms. */
  ghost predicate SignedFor(a: S.SignedArtifact, t: Terms) {
    a == S.SignedArtifact(a.id, t.candidateId, t.check.expectedTxId, t.unsignedTx, t.check.unsignedPackage,
                          t.check.signedTransaction)
  }

  lemma BindingSigned(d: Digests, journal: Journal, h: S.Handoff)
    requires HasAuthority(d, journal, h.terms) && S.ArtifactOfTerms(h)
    ensures SignedFor(h.signed, journal.reservations[h.terms.reservationDigest].terms)
  {
  }

  ghost predicate BackedByGrant(env: S.Env, checks: seq<Check>, log: seq<S.Entry>, i: nat)
    requires i < |log| && log[i].Started?
  {
    exists r, o :: 0 <= r < i && log[r].RunStarted? && GoesBack(env, checks, log, i, r, o)
  }

  /** Main result: in every interleaving, with any handoffs, every transport start goes back to a
      reservation granted earlier through a complete admission chain, and settles it. */
  lemma TransportsGoBackToGrants(env: S.Env, events: seq<Event>, i: nat)
    requires var log := Now(env, Run(env, events)).log; i < |log| && log[i].Started?
    ensures BackedByGrant(env, Run(env, events).checks, Now(env, Run(env, events)).log, i)
  {
    hide S.Run, Run, Sound, BackedByGrant, S.AuthorityNow, S.Concrete, S.ArtifactOfTerms;
    var sys := Run(env, events);
    var log := Now(env, sys).log;
    RunsAreSound(env, events);
    S.TransportsAreAuthorized(env, sys.trace, i);
    var r, v, m :| 0 <= r < v < m < i && log[r].RunStarted? && log[m].Minted?
                   && S.AuthorizedStart(env, log, i, r, v, m);
    assert Sound(env.digests, sys.checks, log[..i]);
    StartGoesBack(env, sys.checks, log, i, r);
  }

  lemma StartGoesBack(env: S.Env, checks: seq<Check>, log: seq<S.Entry>, i: nat, r: nat)
    requires r < i < |log| && log[r].RunStarted? && log[i].Started? && Sound(env.digests, checks, log[..i])
    requires var x := log[r].execution; log[i].signed == x.handoff.signed.id && S.AuthorityNow(env, log[..i], x)
    requires S.ArtifactOfTerms(log[r].execution.handoff)
    ensures BackedByGrant(env, checks, log, i)
  {
    hide P.ThroughChain, HasAuthority, Settles, S.JournalsAfter, StateOf, P.Exclusive, SignedFor, S.ArtifactOfTerms;
    var (d, x) := (env.digests, log[r].execution);
    var (journal, k) := (S.JournalsAfter(log[..i])[x.state], x.handoff.terms.reservationDigest);
    ActiveRow(d, journal, x.handoff.terms);
    BindingSigned(d, journal, x.handoff);
    var o :| GrantedRow(d, checks, log[..i], x.state, k, journal.reservations[k], o);
    ChainTerms(d, checks, o);
    AuthoritySettles(d, checks, log[..i], x.state, journal, x.handoff.terms, o);
    assert GoesBack(env, checks, log, i, r, o);
  }

  lemma ActiveRow(d: Digests, journal: Journal, b: Binding)
    requires HasAuthority(d, journal, b)
    ensures b.reservationDigest in journal.reservations && journal.reservations[b.reservationDigest].active
  {
  }

  /** Main result: at every moment, no two live reservations of a state object claim a common
      candidate, burn, box or transaction. */
  lemma ReservationsStayExclusive(env: S.Env, events: seq<Event>, i: nat, state: Ref)
    requires var log := Now(env, Run(env, events)).log;
             i <= |log| && state in S.JournalsAfter(log[..i])
    ensures P.Exclusive(S.JournalsAfter(Now(env, Run(env, events)).log[..i])[state])
  {
    hide S.Run, Run, S.JournalsAfter, P.Exclusive, RowsGranted;
    RunsAreSound(env, events);
    var sys := Run(env, events);
    assert Sound(env.digests, sys.checks, Now(env, sys).log[..i]);
  }

  // ----- The grant alone does not pin the burn -----

  /** The payout of the same input for another burn. */
  function OtherBurn(input: P.Input, burnId: Hex): P.Input {
    input.(payout := input.payout.(burnId := burnId))
  }

  /** Whenever a straight run reserves, it reserves the same terms for an input that names any
      other burn: only the payout digest of the transport attempt tells them apart. */
  lemma GrantIgnoresBurn(d: Digests, input: P.Input, journal: Journal, a: P.Answers, burnId: Hex)
    requires P.Open(d, input, journal, a)
    requires P.Consistent(input, journal.candidates[input.payout.candidateId], a)
    ensures var other := OtherBurn(input, burnId);
            var s := P.Run(d, other, journal, P.StraightRun(other, a, 11));
            var x := P.FinalAdmission(d, input, journal, a);
            && |s.granted| == 1
            && x.terms.burnId == journal.candidates[input.payout.candidateId].burnId
            && x.digest in s.journal.reservations
            && s.journal.reservations[x.digest] == Reservation(true, x.terms, x.authorization)
  {
    hide P.Run, P.StraightRun;
    var other := OtherBurn(input, burnId);
    assert P.FinalAdmission(d, other, journal, a) == P.FinalAdmission(d, input, journal, a);
    P.StraightRunReserves(d, other, journal, a);
  }
}
