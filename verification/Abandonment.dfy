/**
  Retiring a settlement attempt whose transaction never appeared. A call observes the absence
  of the transaction, records it, and retires the attempt only when an earlier recorded
  absence lies far enough below, on a block both sources still hold canonical. Calls suspend
  at their awaits; in between, other calls run, the chains reorganise and other writers change
  the attempts.
 */
module Abandonment {
  import opened Prelude

  // ----- Journal -----

  datatype Status = Pending | Submitted | Confirmed | Abandoned

  datatype Reason = SubmittedAbsence | PendingTransportAbsence | OtherReason

  datatype ObservationStatus = Absent | Mempool | ConfirmedPreFinality | ConfirmedFinal

  datatype Observation = Observation(
    tx: Hex, status: ObservationStatus, policyVersion: nat, required: nat, tipHeight: nat, tipHeader: Hex, digest: Hex)

  /** Agreement of the sources on one observation; authoritative: it carries the current source
      authority profile. */
  datatype Consensus = Consensus(sourceCount: nat, digest: Hex, authoritative: bool)

  /** policy: the confirmations of a policy_v1 binding with version 1. */
  datatype Attempt = Attempt(
    expectedTxId: Hex, submittedTxId: Option<Hex>, batch: bool, status: Status, lifecycle: nat, burns: seq<Hex>,
    policy: Option<nat>, reservation: Option<Hex>, started: bool, completed: bool, observation: Option<Observation>,
    consensus: Option<Consensus>, reason: Option<Reason>)

  /** A row of aggregate_settlement_recovery_observations. */
  datatype Evidence = Evidence(tx: Hex, lifecycle: nat, observation: Observation, consensus: Consensus)

  datatype PegOutStatus = Detected | Known | AggregateSubmitted | BatchSubmitted | BurnReverted | Other

  /** claim: the settlement transaction the row names, if any. */
  datatype PegOut = PegOut(status: PegOutStatus, claim: Option<Hex>, pendingKey: Option<Hex>)

  const POLICY_VERSION: nat := 1

  predicate ActiveTransport(a: Attempt) {
    a.submittedTxId == None && a.reservation.Some? && a.started && !a.completed
  }

  predicate ReservedPending(a: Attempt) {
    a.status == Pending && ActiveTransport(a)
  }

  predicate Abandonable(a: Attempt) {
    a.status == Submitted || ReservedPending(a)
  }

  /** The matching absence the journal asks for. */
  predicate AbsenceConsensus(tx: Hex, o: Observation, c: Consensus) {
    o.status == Absent && o.tx == tx && c.sourceCount >= 2 && c.authoritative
  }

  predicate PolicyMatches(a: Attempt, o: Observation) {
    a.policy == Some(o.required) && o.policyVersion == POLICY_VERSION
  }

  // ----- Recording evidence -----

  /** Rows the record step may pair the new observation with. */
  predicate Pairs(e: Evidence, tx: Hex, lifecycle: nat, digest: Hex) {
    && e.tx == tx && e.lifecycle == lifecycle && e.consensus.authoritative
    && e.observation.status == Absent && e.consensus.sourceCount >= 2 && e.observation.digest != digest
  }

  /** An earlier row pairs exactly if it is an authoritative absence, agreed by two sources, of the same
      attempt and lifecycle, under another digest. */
  lemma PairsIff(e: Evidence, tx: Hex, lifecycle: nat, digest: Hex)
    ensures Pairs(e, tx, lifecycle, digest) <==>
            && (e.tx, e.lifecycle) == (tx, lifecycle) && e.observation.digest != digest
            && e.observation.status == Absent && e.consensus.authoritative && 2 <= e.consensus.sourceCount
  {
  }

  /** The pairing row with the highest tip, the youngest among equals. */
  function Previous(rows: seq<Evidence>, tx: Hex, lifecycle: nat, digest: Hex): (r: Option<Evidence>)
    ensures r.Some? ==> r.value in rows && Pairs(r.value, tx, lifecycle, digest)
    ensures forall e :: e in rows && Pairs(e, tx, lifecycle, digest) ==>
      r.Some? && e.observation.tipHeight <= r.value.observation.tipHeight
  {
    if rows == [] then None
    else
      var (last, best) := (rows[|rows| - 1], Previous(rows[..|rows| - 1], tx, lifecycle, digest));
      assert rows == rows[..|rows| - 1] + [last];
      if Pairs(last, tx, lifecycle, digest)
         && (best == None || best.value.observation.tipHeight <= last.observation.tipHeight)
      then Some(last)
      else best
  }

  predicate SameKey(e: Evidence, f: Evidence) {
    e.tx == f.tx && e.lifecycle == f.lifecycle && e.observation.digest == f.observation.digest
    && e.consensus.digest == f.consensus.digest
  }

  /** Insert-or-ignore, then read back the row with the current profile: None if it is not there. */
  function Inserted(rows: seq<Evidence>, e: Evidence): Option<seq<Evidence>> {
    if forall f :: f in rows ==> !SameKey(f, e) then Some(rows + [e])
    else if exists f :: f in rows && SameKey(f, e) && f.consensus.authoritative then Some(rows)
    else None
  }

  /** The unique key of an evidence row. */
  function KeyOf(e: Evidence): (Hex, nat, Hex, Hex) {
    (e.tx, e.lifecycle, e.observation.digest, e.consensus.digest)
  }

  /** A row is added exactly if its key is new; with an old key the rows stay as they are, and the
      record fails unless the row under that key is authoritative. */
  lemma InsertedExact(rows: seq<Evidence>, e: Evidence)
    ensures var r := Inserted(rows, e);
            && ((forall f :: f in rows ==> KeyOf(f) != KeyOf(e)) ==> r == Some(rows + [e]))
            && (r == None || r == Some(rows) || r == Some(rows + [e]))
            && ((exists f :: f in rows && KeyOf(f) == KeyOf(e)) ==>
                  (r == Some(rows) <==> exists f :: f in rows && KeyOf(f) == KeyOf(e) && f.consensus.authoritative))
  {
    SameKeyIs(e);
    hide SameKey;
  }

  lemma SameKeyIs(e: Evidence)
    ensures forall f :: SameKey(f, e) <==> KeyOf(f) == KeyOf(e)
  {
  }

  /** Row j is r, and every pairing row after it has a lower tip. */
  ghost predicate LatestAt(rows: seq<Evidence>, j: nat, r: Evidence, tx: Hex, lifecycle: nat, digest: Hex) {
    && j < |rows| && rows[j] == r
    && forall k :: j < k < |rows| ==>
         Pairs(rows[k], tx, lifecycle, digest) ==> rows[k].observation.tipHeight < r.observation.tipHeight
  }

  /** Of several pairing rows with the highest tip the youngest is taken. */
  lemma {:induction false} PreviousIsYoungest(rows: seq<Evidence>, tx: Hex, lifecycle: nat, digest: Hex) returns (j: nat)
    requires Previous(rows, tx, lifecycle, digest).Some?
    ensures LatestAt(rows, j, Previous(rows, tx, lifecycle, digest).value, tx, lifecycle, digest)
  {
    hide Pairs;
    var n := |rows| - 1;
    var (last, best) := (rows[n], Previous(rows[..n], tx, lifecycle, digest));
    if Pairs(last, tx, lifecycle, digest)
       && (best == None || best.value.observation.tipHeight <= last.observation.tipHeight)
    {
      j := n;
    } else {
      j := PreviousIsYoungest(rows[..n], tx, lifecycle, digest);
      assert rows == rows[..n] + [last];
      assert Pairs(last, tx, lifecycle, digest) ==> last.observation.tipHeight < best.value.observation.tipHeight;
    }
  }

  /** recordAggregateSettlementRecoveryObservation accepts, for the caller's snapshot. */
  predicate Recordable(attempts: map<Hex, Attempt>, snapshot: Attempt, o: Observation, c: Consensus) {
    && (snapshot.status == Pending || snapshot.status == Submitted)
    && AbsenceConsensus(snapshot.expectedTxId, o, c)
    && snapshot.expectedTxId in attempts
    && var a := attempts[snapshot.expectedTxId];
    && a.status == snapshot.status
    && a.lifecycle == snapshot.lifecycle
    && (snapshot.status == Pending ==> ActiveTransport(a))
    && PolicyMatches(a, o)
  }

  // ----- Releasing the burns of a retired attempt -----

  function SubmittedStatus(batch: bool): PegOutStatus {
    if batch then BatchSubmitted else AggregateSubmitted
  }

  /** The burn's row after a submitted attempt is retired; None when the row forbids it. */
  function Released(pegOuts: map<Hex, PegOut>, avl: set<Hex>, burn: Hex, expected: PegOutStatus, tx: Hex): Option<PegOut> {
    if burn !in pegOuts then None
    else
      var row := pegOuts[burn];
      var key := if row.pendingKey.Some? then row.pendingKey.value else burn;
      if key in avl then None
      else if row.status == expected then
        if row.claim == Some(tx) then Some(PegOut(Detected, None, None)) else None
      else if row.status == Detected || row.status == Known then Some(row)
      else None
  }

  /** The first n burns, released in order. */
  function ReleasedAll(
    pegOuts: map<Hex, PegOut>, avl: set<Hex>, burns: seq<Hex>, n: nat, expected: PegOutStatus, tx: Hex)
    : (r: Option<(map<Hex, PegOut>, nat)>)
    requires n <= |burns|
    ensures r.Some? ==> r.value.1 <= n
  {
    if n == 0 then Some((pegOuts, 0))
    else
      var before := ReleasedAll(pegOuts, avl, burns, n - 1, expected, tx);
      if before == None then None
      else
        var (rows, resets) := before.value;
        var row := Released(rows, avl, burns[n - 1], expected, tx);
        if row == None then None
        else Some((rows[burns[n - 1] := row.value],
                   resets + if rows[burns[n - 1]].status == expected then 1 else 0))
  }

  /** A burn of a pending attempt that never left the node. */
  predicate Idle(pegOuts: map<Hex, PegOut>, avl: set<Hex>, burn: Hex) {
    && burn in pegOuts
    && var row := pegOuts[burn];
    && (row.status == Detected || row.status == Known || row.status == BurnReverted)
    && row.claim == None
    && row.pendingKey == None
    && burn !in avl
  }

  predicate Open(pegOuts: map<Hex, PegOut>, burn: Hex) {
    burn in pegOuts && (pegOuts[burn].status == Detected || pegOuts[burn].status == Known)
  }

  /** A burn the retirement of a submitted attempt may release: not in the AVL history, and either
      submitted by this very transaction or not submitted at all. */
  predicate Releasable(pegOuts: map<Hex, PegOut>, avl: set<Hex>, burn: Hex, expected: PegOutStatus, tx: Hex) {
    && burn in pegOuts
    && var row := pegOuts[burn];
    && (row.pendingKey.Some? ==> row.pendingKey.value !in avl)
    && (row.pendingKey == None ==> burn !in avl)
    && (row.status == expected ==> row.claim == Some(tx))
    && (row.status != expected ==> row.status == Detected || row.status == Known)
  }

  /** The peg-outs after a release: rows of these burns that were submitted are as good as new. */
  function Freed(pegOuts: map<Hex, PegOut>, burns: seq<Hex>, expected: PegOutStatus): map<Hex, PegOut> {
    map b | b in pegOuts ::
      if b in burns && pegOuts[b].status == expected then PegOut(Detected, None, None) else pegOuts[b]
  }

  /** The number of burns whose row has the status. */
  function CountWith(pegOuts: map<Hex, PegOut>, burns: seq<Hex>, status: PegOutStatus): nat {
    if burns == [] then 0
    else
      var last := burns[|burns| - 1];
      CountWith(pegOuts, burns[..|burns| - 1], status)
      + if last in pegOuts && pegOuts[last].status == status then 1 else 0
  }

  /** A release goes through exactly if every burn is releasable, frees exactly the submitted ones, and
      counts them. */
  lemma {:induction false} ReleaseExact(
    pegOuts: map<Hex, PegOut>, avl: set<Hex>, burns: seq<Hex>, n: nat, expected: PegOutStatus, tx: Hex)
    requires n <= |burns| && Distinct(burns) && expected != Detected
    ensures var r := ReleasedAll(pegOuts, avl, burns, n, expected, tx);
            && (r.Some? <==> forall i :: 0 <= i < n ==> Releasable(pegOuts, avl, burns[i], expected, tx))
            && (r.Some? ==> r.value == (Freed(pegOuts, burns[..n], expected), CountWith(pegOuts, burns[..n], expected)))
  {
    hide Releasable, Released, Freed, CountWith;
    if n == 0 {
      NothingFreed(pegOuts, expected);
      assert burns[..0] == [];
    } else {
      ReleaseExact(pegOuts, avl, burns, n - 1, expected, tx);
      var (some, burn) := (burns[..n - 1], burns[n - 1]);
      assert burns[..n] == some + [burn] && burn !in some;
      ReleaseOne(pegOuts, avl, some, burn, expected, tx);
      assert (forall i :: 0 <= i < n ==> Releasable(pegOuts, avl, burns[i], expected, tx)) <==>
             (forall i :: 0 <= i < n - 1 ==> Releasable(pegOuts, avl, burns[i], expected, tx))
             && Releasable(pegOuts, avl, burn, expected, tx);
    }
  }

  lemma NothingFreed(pegOuts: map<Hex, PegOut>, expected: PegOutStatus)
    ensures Freed(pegOuts, [], expected) == pegOuts && CountWith(pegOuts, [], expected) == 0
  {
  }

  lemma ReleaseOne(
    pegOuts: map<Hex, PegOut>, avl: set<Hex>, some: seq<Hex>, burn: Hex, expected: PegOutStatus, tx: Hex)
    requires burn !in some
    ensures var (rows, r) := (Freed(pegOuts, some, expected), Released(Freed(pegOuts, some, expected), avl, burn, expected, tx));
            && (r.Some? <==> Releasable(pegOuts, avl, burn, expected, tx))
            && (r.Some? ==>
                  && burn in rows && burn in pegOuts && rows[burn].status == pegOuts[burn].status
                  && rows[burn := r.value] == Freed(pegOuts, some + [burn], expected))
    ensures CountWith(pegOuts, some + [burn], expected)
            == CountWith(pegOuts, some, expected)
               + if burn in pegOuts && pegOuts[burn].status == expected then 1 else 0
  {
    assert (some + [burn])[..|some|] == some;
    if burn in pegOuts {
      FreedMore(pegOuts, some, burn, expected);
    }
  }

  lemma FreedMore(pegOuts: map<Hex, PegOut>, some: seq<Hex>, burn: Hex, expected: PegOutStatus)
    requires burn in pegOuts && burn !in some
    ensures Freed(pegOuts, some + [burn], expected)
            == Freed(pegOuts, some, expected)[burn :=
                 if pegOuts[burn].status == expected then PegOut(Detected, None, None) else pegOuts[burn]]
  {
  }

  /** One more burn. */
  lemma ReleaseNext(
    pegOuts: map<Hex, PegOut>, avl: set<Hex>, burns: seq<Hex>, i: nat, expected: PegOutStatus, tx: Hex,
    rows: map<Hex, PegOut>, resets: nat)
    requires i < |burns| && ReleasedAll(pegOuts, avl, burns, i, expected, tx) == Some((rows, resets))
    ensures var row := Released(rows, avl, burns[i], expected, tx);
            if row == None then ReleasedAll(pegOuts, avl, burns, |burns|, expected, tx) == None
            else && burns[i] in rows
                 && ReleasedAll(pegOuts, avl, burns, i + 1, expected, tx)
                    == Some((rows[burns[i] := row.value], resets + if rows[burns[i]].status == expected then 1 else 0))
  {
    if Released(rows, avl, burns[i], expected, tx) == None {
      NotReleased(pegOuts, avl, burns, i + 1, |burns|, expected, tx);
    }
  }

  method ReleaseSubmittedBurns(pegOuts: map<Hex, PegOut>, avl: set<Hex>, burns: seq<Hex>, expected: PegOutStatus, tx: Hex)
    returns (r: Option<(map<Hex, PegOut>, nat)>, skipped: nat)
    ensures r == ReleasedAll(pegOuts, avl, burns, |burns|, expected, tx)
    ensures r.Some? ==> r.value.1 + skipped == |burns|
    ensures Distinct(burns) && expected != Detected ==>
              && (r.Some? <==> forall i :: 0 <= i < |burns| ==> Releasable(pegOuts, avl, burns[i], expected, tx))
              && (r.Some? ==> r.value == (Freed(pegOuts, burns, expected), CountWith(pegOuts, burns, expected)))
  {
    if Distinct(burns) && expected != Detected {
      ReleaseExact(pegOuts, avl, burns, |burns|, expected, tx);
      assert burns[..|burns|] == burns;
    }
    var rows, resets := pegOuts, 0;
    skipped := 0;
    var i := 0;
    assert ReleasedAll(pegOuts, avl, burns, 0, expected, tx) == Some((rows, resets));
    hide ReleasedAll, Released, Releasable, Freed, CountWith;
    while i < |burns|
      invariant i <= |burns| && resets + skipped == i
      invariant ReleasedAll(pegOuts, avl, burns, i, expected, tx) == Some((rows, resets))
    {
      var row := Released(rows, avl, burns[i], expected, tx);
      ReleaseNext(pegOuts, avl, burns, i, expected, tx, rows, resets);
      if row == None {
        return None, skipped;
      }
      if rows[burns[i]].status == expected {
        resets := resets + 1;
      } else {
        skipped := skipped + 1;
      }
      rows := rows[burns[i] := row.value];
      i := i + 1;
    }
    return Some((rows, resets)), skipped;
  }

  lemma {:induction false} NotReleased(
    pegOuts: map<Hex, PegOut>, avl: set<Hex>, burns: seq<Hex>, n: nat, m: nat, expected: PegOutStatus, tx: Hex)
    requires n <= m <= |burns| && ReleasedAll(pegOuts, avl, burns, n, expected, tx) == None
    ensures ReleasedAll(pegOuts, avl, burns, m, expected, tx) == None
    decreases m
  {
    if n < m {
      NotReleased(pegOuts, avl, burns, n, m - 1, expected, tx);
    }
  }

  // ----- Retirement -----

  predicate Shape(a: Attempt) {
    if a.batch then |a.burns| >= 2 else |a.burns| == 1
  }

  /** The row of a retired attempt. */
  function RetiredRow(a: Attempt, reason: Reason, o: Observation, c: Consensus): Attempt {
    a.(status := Abandoned, reason := Some(reason), submittedTxId := None, lifecycle := a.lifecycle + 1,
       reservation := None, started := false, completed := false, observation := Some(o), consensus := Some(c))
  }

  /** The journal guards shared by both retirements. */
  predicate Retirable(attempts: map<Hex, Attempt>, snapshot: Attempt, o: Observation, c: Consensus) {
    && AbsenceConsensus(snapshot.expectedTxId, o, c)
    && Distinct(snapshot.burns)
    && Shape(snapshot)
    && snapshot.expectedTxId in attempts
    && var a := attempts[snapshot.expectedTxId];
    && a.lifecycle == snapshot.lifecycle
    && a.batch == snapshot.batch
    && a.burns == snapshot.burns
    && PolicyMatches(a, o)
    && !(a.observation.Some? && a.observation.value.status == ConfirmedFinal)
    && if ReservedPending(snapshot) then ReservedPending(a) && snapshot.lifecycle >= 1
       else a.status == Submitted && LookupTx(a) == snapshot.expectedTxId
  }

  function LookupTx(a: Attempt): Hex {
    if a.submittedTxId.Some? then a.submittedTxId.value else a.expectedTxId
  }

  /** Rows and attempts after the retirement, with the number of burns reset; None if refused. */
  function Retired(
    attempts: map<Hex, Attempt>, pegOuts: map<Hex, PegOut>, avl: set<Hex>, snapshot: Attempt, o: Observation, c: Consensus)
    : (r: Option<(map<Hex, Attempt>, map<Hex, PegOut>, nat)>)
    ensures r.Some? ==> r.value.2 <= |snapshot.burns|
  {
    if !Retirable(attempts, snapshot, o, c) then None
    else
      var tx := snapshot.expectedTxId;
      if ReservedPending(snapshot) then
        if forall i :: 0 <= i < |snapshot.burns| ==> Idle(pegOuts, avl, snapshot.burns[i])
        then Some((attempts[tx := RetiredRow(attempts[tx], PendingTransportAbsence, o, c)], pegOuts, 0))
        else None
      else
        var released := ReleasedAll(pegOuts, avl, snapshot.burns, |snapshot.burns|, SubmittedStatus(snapshot.batch), tx);
        if released == None then None
        else Some((attempts[tx := RetiredRow(attempts[tx], SubmittedAbsence, o, c)],
                   released.value.0, released.value.1))
  }

  /** The journal guards of both retirements, spelled out. */
  ghost predicate Retires(
    attempts: map<Hex, Attempt>, pegOuts: map<Hex, PegOut>, avl: set<Hex>, snapshot: Attempt, o: Observation, c: Consensus)
  {
    var tx := snapshot.expectedTxId;
    && o.status == Absent && o.tx == tx && c.sourceCount >= 2 && c.authoritative
    && Distinct(snapshot.burns) && (if snapshot.batch then |snapshot.burns| >= 2 else |snapshot.burns| == 1)
    && tx in attempts
    && var a := attempts[tx];
    && a.lifecycle == snapshot.lifecycle && a.batch == snapshot.batch && a.burns == snapshot.burns
    && a.policy == Some(o.required) && o.policyVersion == 1
    && (a.observation.Some? ==> a.observation.value.status != ConfirmedFinal)
    && if InTransport(snapshot) then
         && InTransport(a) && snapshot.lifecycle > 0
         && forall i :: 0 <= i < |snapshot.burns| ==> Unused(pegOuts, avl, snapshot.burns[i])
       else
         && a.status == Submitted
         && (a.submittedTxId == Some(tx) || (a.submittedTxId == None && a.expectedTxId == tx))
         && forall i :: 0 <= i < |snapshot.burns| ==>
              Releasable(pegOuts, avl, snapshot.burns[i],
                         if snapshot.batch then BatchSubmitted else AggregateSubmitted, tx)
  }

  /** A pending attempt whose transport was reserved and started, and did not complete. */
  ghost predicate InTransport(a: Attempt) {
    a.status == Pending && a.submittedTxId == None && a.reservation.Some? && a.started && !a.completed
  }

  /** Open or reverted, unclaimed, without a pending key and absent from the AVL history. */
  ghost predicate Unused(pegOuts: map<Hex, PegOut>, avl: set<Hex>, burn: Hex) {
    && burn in pegOuts && burn !in avl
    && var p := pegOuts[burn];
    && p == PegOut(p.status, None, None) && (p.status == Detected || p.status == Known || p.status == BurnReverted)
  }

  lemma RetiresIff(
    attempts: map<Hex, Attempt>, pegOuts: map<Hex, PegOut>, avl: set<Hex>, snapshot: Attempt, o: Observation, c: Consensus)
    ensures Retired(attempts, pegOuts, avl, snapshot, o, c).Some? <==> Retires(attempts, pegOuts, avl, snapshot, o, c)
  {
    hide ReleasedAll, Releasable;
    if Distinct(snapshot.burns) {
      ReleaseExact(pegOuts, avl, snapshot.burns, |snapshot.burns|, SubmittedStatus(snapshot.batch), snapshot.expectedTxId);
    }
  }

  /** An absence is recorded exactly for a live attempt unchanged since the call began. */
  lemma RecordableIff(attempts: map<Hex, Attempt>, snapshot: Attempt, o: Observation, c: Consensus)
    ensures Recordable(attempts, snapshot, o, c) <==>
            && o.status == Absent && o.tx == snapshot.expectedTxId && c.sourceCount >= 2 && c.authoritative
            && snapshot.expectedTxId in attempts
            && var a := attempts[snapshot.expectedTxId];
            && a.status == snapshot.status && a.lifecycle == snapshot.lifecycle
            && (a.status == Submitted || InTransport(a))
            && a.policy == Some(o.required) && o.policyVersion == 1
  {
  }

  // ----- The absence window -----

  /** The pure part of hasCanonicalDescendantAbsenceWindow. */
  predicate Window(earlier: Evidence, later: Observation) {
    && earlier.consensus.authoritative
    && earlier.observation.status == Absent
    && later.status == Absent
    && earlier.observation.tx == later.tx
    && earlier.observation.policyVersion == later.policyVersion
    && earlier.observation.required == later.required
    && earlier.observation.tipHeight < later.tipHeight
    && later.tipHeight - earlier.observation.tipHeight >= later.required
  }

  // ----- State -----

  /** The canonical header ids by height, as the two sources hold them. */
  datatype World = World(primary: map<nat, Hex>, witnessed: map<nat, Hex>)

  /** An answered header read and the moment it was answered at: the number of chain changes so far. */
  datatype Read = Read(at: nat, header: Option<Hex>)

  /** A suspended call, with the attempt it read at its start. */
  datatype Call =
    | Observing(snapshot: Attempt)
    | Reading(snapshot: Attempt, observation: Observation, consensus: Consensus, earlier: Evidence, recordedAt: nat,
              primary: Option<Read>, witnessed: Option<Read>)

  /** What a retirement rested on: the journal row it replaced and the finished call. */
  datatype Retirement = Retirement(row: Attempt, call: Call)

  datatype State = State(
    attempts: map<Hex, Attempt>, evidence: seq<Evidence>, pegOuts: map<Hex, PegOut>, avl: set<Hex>,
    past: seq<World>, world: World, calls: map<nat, Call>, next: nat, retirements: seq<Retirement>)

  datatype Outcome =
    | Threw | AlreadyRetired | AlreadyAbandoned | Waits | EvidenceRecorded | RetiredNow(resets: nat, skipped: nat)

  predicate RecognisedRetired(a: Attempt) {
    && (a.reason == Some(SubmittedAbsence) || a.reason == Some(PendingTransportAbsence))
    && a.observation.Some? && a.observation.value.status == Absent
    && a.consensus.Some? && a.consensus.value.sourceCount >= 2
    && a.submittedTxId == None && a.reservation == None && !a.started && !a.completed
  }

  // ----- Steps of a call -----

  /** Up to the observation. Rows are keyed by their expected transaction id. */
  function Begun(s: State, tx: Hex, hasWitness: bool): (State, Outcome) {
    if tx !in s.attempts || s.attempts[tx].expectedTxId != tx then (s, Threw)
    else
      var a := s.attempts[tx];
      if a.status == Confirmed then (s, Threw)
      else if a.status == Abandoned then (s, if RecognisedRetired(a) then AlreadyRetired else AlreadyAbandoned)
      else if !Abandonable(a) || a.policy == None || !hasWitness then (s, Threw)
      else (s.(calls := s.calls[s.next := Observing(a)], next := s.next + 1), Waits)
  }

  /** From the observation to the header reads: None when observing failed or the sources
      disagree. */
  function ObservationArrived(s: State, id: nat, answer: Option<(Observation, Consensus)>): (State, Outcome) {
    if id !in s.calls || !s.calls[id].Observing? then (s, Threw)
    else
      var (a, t) := (s.calls[id].snapshot, s.(calls := s.calls - {id}));
      if answer == None || !Recordable(s.attempts, a, answer.value.0, answer.value.1) then (t, Threw)
      else
        var (o, c) := answer.value;
        var previous := Previous(s.evidence, a.expectedTxId, a.lifecycle, o.digest);
        var rows := Inserted(s.evidence, Evidence(a.expectedTxId, a.lifecycle, o, c));
        if rows == None then (t, Threw)
        else if previous == None || !Window(previous.value, o) then (t.(evidence := rows.value), EvidenceRecorded)
        else
          (t.(evidence := rows.value,
              calls := t.calls[id := Reading(a, o, c, previous.value, |s.past|, None, None)]),
           Waits)
  }

  function HeaderAt(w: World, height: nat, fromWitness: bool): Option<Hex> {
    var headers := if fromWitness then w.witnessed else w.primary;
    if height in headers then Some(headers[height]) else None
  }

  /** One of the two header reads is answered from the chain as it is now. */
  function HeaderArrived(s: State, id: nat, fromWitness: bool): State {
    if id !in s.calls || !s.calls[id].Reading? then s
    else
      var c := s.calls[id];
      var read := Some(Read(|s.past|, HeaderAt(s.world, c.earlier.observation.tipHeight, fromWitness)));
      if fromWitness then
        if c.witnessed == None then s.(calls := s.calls[id := c.(witnessed := read)]) else s
      else if c.primary == None then s.(calls := s.calls[id := c.(primary := read)])
      else s
  }

  predicate AncestorHeld(c: Call)
    requires c.Reading? && c.primary.Some? && c.witnessed.Some?
  {
    && c.primary.value.header == Some(c.earlier.observation.tipHeader)
    && c.witnessed.value.header == Some(c.earlier.observation.tipHeader)
  }

  /** After both reads: the ancestor check and the retirement transaction. */
  function Finished(s: State, id: nat): (State, Outcome) {
    if id !in s.calls || !s.calls[id].Reading? || s.calls[id].primary == None || s.calls[id].witnessed == None
    then (s, Threw)
    else
      var (c, t) := (s.calls[id], s.(calls := s.calls - {id}));
      if !AncestorHeld(c) then (t, Threw)
      else
        var r := Retired(s.attempts, s.pegOuts, s.avl, c.snapshot, c.observation, c.consensus);
        if r == None then (t, Threw)
        else
          (t.(attempts := r.value.0, pegOuts := r.value.1,
              retirements := s.retirements + [Retirement(s.attempts[c.snapshot.expectedTxId], c)]),
           RetiredNow(r.value.2, |c.snapshot.burns| - r.value.2))
  }

  datatype Event =
    | Begins(tx: Hex, hasWitness: bool)
    | Observes(call: nat, answer: Option<(Observation, Consensus)>)
    | ReadsHeader(call: nat, fromWitness: bool)
    | Finishes(call: nat)
    | ChainsChange(world: World)
    | OthersWrite(attempts: map<Hex, Attempt>, pegOuts: map<Hex, PegOut>, avl: set<Hex>)

  function Step(s: State, e: Event): State {
    match e
    case Begins(tx, hasWitness) => Begun(s, tx, hasWitness).0
    case Observes(id, answer) => ObservationArrived(s, id, answer).0
    case ReadsHeader(id, fromWitness) => HeaderArrived(s, id, fromWitness)
    case Finishes(id) => Finished(s, id).0
    case ChainsChange(world) => s.(past := s.past + [s.world], world := world)
    case OthersWrite(attempts, pegOuts, avl) => s.(attempts := attempts, pegOuts := pegOuts, avl := avl)
  }

  /** The chains as they were at a moment. */
  function WorldAt(s: State, moment: nat): World {
    if moment < |s.past| then s.past[moment] else s.world
  }

  function Run(s: State, events: seq<Event>): State {
    if events == [] then s else Step(Run(s, events[..|events| - 1]), events[|events| - 1])
  }

  /** What a call answers at once: it waits exactly for a live attempt with a policy and a witness, and
      tells its own retirements from other abandonments. */
  lemma BeginsAs(s: State, tx: Hex, hasWitness: bool)
    ensures var (t, outcome) := Begun(s, tx, hasWitness);
            && (outcome == Waits <==>
                  && tx in s.attempts && s.attempts[tx].expectedTxId == tx
                  && (s.attempts[tx].status == Submitted || InTransport(s.attempts[tx]))
                  && s.attempts[tx].policy.Some? && hasWitness)
            && (outcome == Waits ==> t == s.(calls := s.calls[s.next := Observing(s.attempts[tx])], next := s.next + 1))
            && (outcome != Waits ==> t == s)
            && (outcome == AlreadyRetired <==>
                  && tx in s.attempts && s.attempts[tx].expectedTxId == tx
                  && var a := s.attempts[tx];
                  && a.status == Abandoned
                  && (a.reason == Some(SubmittedAbsence) || a.reason == Some(PendingTransportAbsence))
                  && a.observation.Some? && a.observation.value.status == Absent
                  && a.consensus.Some? && a.consensus.value.sourceCount >= 2
                  && a == a.(submittedTxId := None, reservation := None, started := false, completed := false))
            && (outcome == AlreadyAbandoned ==>
                  tx in s.attempts && s.attempts[tx].expectedTxId == tx && s.attempts[tx].status == Abandoned)
            && outcome in {Waits, AlreadyRetired, AlreadyAbandoned, Threw}
            && (outcome == Threw && tx in s.attempts && s.attempts[tx].expectedTxId == tx ==>
                  s.attempts[tx].status != Abandoned)
  {
  }

  /** An observation is taken exactly by a call that waits for one, if it can be recorded; the call goes
      on to the ancestor reads exactly if it completes a window with the paired row. */
  lemma ObservesAs(s: State, id: nat, answer: Option<(Observation, Consensus)>)
    ensures var (t, outcome) := ObservationArrived(s, id, answer);
            var waiting := id in s.calls && s.calls[id].Observing?;
            && (!waiting ==> t == s && outcome == Threw)
            && (waiting ==>
                  && t == s.(calls := t.calls, evidence := t.evidence)
                  && t.calls - {id} == s.calls - {id}
                  && var a := s.calls[id].snapshot;
                  && (outcome != Threw <==>
                        && answer.Some? && Recordable(s.attempts, a, answer.value.0, answer.value.1)
                        && Inserted(s.evidence, Evidence(a.expectedTxId, a.lifecycle, answer.value.0, answer.value.1)).Some?)
                  && (outcome == Threw ==> t.evidence == s.evidence && id !in t.calls)
                  && (outcome != Threw ==>
                        var (o, c) := answer.value;
                        var e := Previous(s.evidence, a.expectedTxId, a.lifecycle, o.digest);
                        && Some(t.evidence) == Inserted(s.evidence, Evidence(a.expectedTxId, a.lifecycle, o, c))
                        && (outcome == Waits <==> e.Some? && Window(e.value, o))
                        && (outcome == Waits <==> id in t.calls)
                        && (outcome == Waits ==> t.calls[id] == Reading(a, o, c, e.value, |s.past|, None, None))
                        && (outcome != Waits ==> outcome == EvidenceRecorded)))
  {
    hide Recordable, Inserted, Previous, Window;
  }

  /** An absence pairs into a window exactly with an authoritative absence of the same transaction and
      policy, the required confirmations below. */
  lemma WindowIff(e: Evidence, o: Observation)
    ensures Window(e, o) <==>
            && e.consensus.authoritative && e.observation.status == o.status == Absent
            && e.observation.tx == o.tx && e.observation.policyVersion == o.policyVersion
            && e.observation.required == o.required
            && o.tipHeight > e.observation.tipHeight && o.tipHeight >= e.observation.tipHeight + o.required
  {
  }

  // ----- What every retirement rests on -----

  /** The absence at hand is in the journal (under its digests). */
  ghost predicate Noted(rows: seq<Evidence>, tx: Hex, lifecycle: nat, o: Observation, c: Consensus) {
    exists e :: e in rows && e.consensus.authoritative && SameKey(e, Evidence(tx, lifecycle, o, c))
  }

  /** A header read shows the chain of its moment, not before the absence was recorded. */
  ghost predicate TrueRead(s: State, c: Call, r: Read, fromWitness: bool)
    requires c.Reading?
  {
    c.recordedAt <= r.at <= |s.past|
    && r.header == HeaderAt(WorldAt(s, r.at), c.earlier.observation.tipHeight, fromWitness)
  }

  /** Two recorded absences of the same transaction and policy, far enough apart. */
  ghost predicate Supported(s: State, c: Call)
    requires c.Reading?
  {
    var a := c.snapshot;
    && AbsenceConsensus(a.expectedTxId, c.observation, c.consensus)
    && c.earlier in s.evidence
    && Pairs(c.earlier, a.expectedTxId, a.lifecycle, c.observation.digest)
    && Noted(s.evidence, a.expectedTxId, a.lifecycle, c.observation, c.consensus)
    && Window(c.earlier, c.observation)
    && c.recordedAt <= |s.past|
    && (c.primary.Some? ==> TrueRead(s, c, c.primary.value, false))
    && (c.witnessed.Some? ==> TrueRead(s, c, c.witnessed.value, true))
  }

  /** The replaced row was live, under this policy, and had not been seen final. */
  ghost predicate Replaceable(row: Attempt, c: Call)
    requires c.Reading?
  {
    && row.lifecycle == c.snapshot.lifecycle
    && Abandonable(row)
    && PolicyMatches(row, c.observation)
    && !(row.observation.Some? && row.observation.value.status == ConfirmedFinal)
  }

  ghost predicate Justified(s: State, r: Retirement) {
    && r.call.Reading? && r.call.primary.Some? && r.call.witnessed.Some?
    && Supported(s, r.call)
    && AncestorHeld(r.call)
    && Replaceable(r.row, r.call)
  }

  ghost predicate Inv(s: State) {
    && (forall id :: id in s.calls ==> Abandonable(s.calls[id].snapshot))
    && (forall id :: id in s.calls && s.calls[id].Reading? ==> Supported(s, s.calls[id]))
    && (forall i :: 0 <= i < |s.retirements| ==> Justified(s, s.retirements[i]))
  }

  /** Evidence and the past of the chains only grow. */
  ghost predicate Grows(s: State, t: State) {
    && s.evidence <= t.evidence
    && |s.past| <= |t.past|
    && forall m: nat :: m <= |s.past| ==> WorldAt(t, m) == WorldAt(s, m)
  }

  lemma SupportLasts(s: State, t: State, c: Call)
    requires Grows(s, t) && c.Reading? && Supported(s, c)
    ensures Supported(t, c)
  {
    hide Window, Pairs, AbsenceConsensus, HeaderAt, WorldAt;
    RowsKept(s.evidence, t.evidence);
  }

  lemma RowsKept(a: seq<Evidence>, b: seq<Evidence>)
    requires a <= b
    ensures forall e :: e in a ==> e in b
  {
    forall e | e in a
      ensures e in b
    {
      var i :| 0 <= i < |a| && a[i] == e;
      assert b[i] == e;
    }
  }

  lemma StepGrows(s: State, e: Event)
    ensures Grows(s, Step(s, e))
  {
    hide Recordable, Previous, Window, Retired, AncestorHeld, HeaderAt;
  }

  /** Calls and retirements of t come from s, up to the ones named. */
  lemma Carried(s: State, t: State)
    requires Inv(s) && Grows(s, t)
    ensures forall id :: id in s.calls && s.calls[id].Reading? ==> Supported(t, s.calls[id])
    ensures forall i :: 0 <= i < |s.retirements| ==> Justified(t, s.retirements[i])
  {
    hide Supported, Grows, AncestorHeld, Replaceable;
    forall id | id in s.calls && s.calls[id].Reading?
      ensures Supported(t, s.calls[id])
    {
      SupportLasts(s, t, s.calls[id]);
    }
    forall i | 0 <= i < |s.retirements|
      ensures Justified(t, s.retirements[i])
    {
      SupportLasts(s, t, s.retirements[i].call);
    }
  }

  lemma ObservationKeeps(s: State, id: nat, answer: Option<(Observation, Consensus)>)
    requires Inv(s)
    ensures Inv(ObservationArrived(s, id, answer).0)
  {
    hide Window, Pairs, Justified, Grows;
    var t := ObservationArrived(s, id, answer).0;
    StepGrows(s, Observes(id, answer));
    Carried(s, t);
    if id in t.calls && t.calls[id].Reading? && s.calls[id].Observing? {
      InsertNotes(s.evidence, Evidence(t.calls[id].snapshot.expectedTxId, t.calls[id].snapshot.lifecycle,
                                       t.calls[id].observation, t.calls[id].consensus));
    }
  }

  lemma InsertNotes(rows: seq<Evidence>, e: Evidence)
    requires Inserted(rows, e).Some? && e.consensus.authoritative
    ensures rows <= Inserted(rows, e).value
    ensures Noted(Inserted(rows, e).value, e.tx, e.lifecycle, e.observation, e.consensus)
  {
    if forall f :: f in rows ==> !SameKey(f, e) {
      assert e in rows + [e] && SameKey(e, e);
    }
  }

  lemma FinishKeeps(s: State, id: nat)
    requires Inv(s)
    ensures Inv(Finished(s, id).0)
  {
    hide Supported, Grows, AbsenceConsensus, PolicyMatches, ReleasedAll;
    var t := Finished(s, id).0;
    StepGrows(s, Finishes(id));
    Carried(s, t);
    if t.retirements != s.retirements {
      RetiredRowLive(s, s.calls[id]);
    }
  }

  lemma RetiredRowLive(s: State, c: Call)
    requires c.Reading? && Retired(s.attempts, s.pegOuts, s.avl, c.snapshot, c.observation, c.consensus).Some?
    ensures c.snapshot.expectedTxId in s.attempts
    ensures Replaceable(s.attempts[c.snapshot.expectedTxId], c)
  {
  }

  lemma StepKeeps(s: State, e: Event)
    requires Inv(s)
    ensures Inv(Step(s, e))
  {
    hide ObservationArrived, Finished, Grows, Justified, AncestorHeld, Window, Pairs, AbsenceConsensus, HeaderAt, Noted,
         RecognisedRetired;
    match e
    case Observes(id, answer) => ObservationKeeps(s, id, answer);
    case Finishes(id) => FinishKeeps(s, id);
    case _ =>
      StepGrows(s, e);
      Carried(s, Step(s, e));
  }

  lemma {:induction false} RunKeeps(s: State, events: seq<Event>)
    requires Inv(s)
    ensures Inv(Run(s, events))
  {
    hide Inv, Step;
    if events == [] {
    } else {
      RunKeeps(s, events[..|events| - 1]);
      StepKeeps(Run(s, events[..|events| - 1]), events[|events| - 1]);
    }
  }

  /** Main result, over all runs of calls, chain changes and other writers: an attempt is
      retired only on two recorded absences of its transaction under its policy, at least the
      required confirmations apart, whose earlier tip both sources held canonical when read,
      after the later absence was recorded. */
  lemma RetiredOnlyOnAbsenceWindow(s0: State, events: seq<Event>, i: nat)
    requires s0.calls == map[] && s0.retirements == []
    requires i < |Run(s0, events).retirements|
    ensures var s := Run(s0, events);
            var r := s.retirements[i];
            && Justified(s, r)
            && var (c, tx) := (r.call, r.call.snapshot.expectedTxId);
            && c.earlier in s.evidence
            && c.earlier.tx == c.earlier.observation.tx == c.observation.tx == tx
            && c.earlier.observation.status == c.observation.status == Absent
            && c.earlier.observation.digest != c.observation.digest
            && c.earlier.consensus.authoritative && c.earlier.consensus.sourceCount >= 2
            && c.consensus.authoritative && c.consensus.sourceCount >= 2
            && c.earlier.lifecycle == r.row.lifecycle
            && Some(c.earlier.observation.required) == Some(c.observation.required) == r.row.policy
            && c.earlier.observation.tipHeight + c.observation.required <= c.observation.tipHeight
            && var (primary, witnessed) := (WorldAt(s, c.primary.value.at).primary,
                                            WorldAt(s, c.witnessed.value.at).witnessed);
            && var height := c.earlier.observation.tipHeight;
            && height in primary && height in witnessed
            && primary[height] == witnessed[height] == c.earlier.observation.tipHeader
            && c.recordedAt <= c.primary.value.at && c.recordedAt <= c.witnessed.value.at
            && r.row.status != Confirmed && r.row.status != Abandoned
  {
    hide Run, WorldAt;
    assert Inv(s0);
    RunKeeps(s0, events);
    var s := Run(s0, events);
    assert Justified(s, s.retirements[i]);
  }

  /** Without an earlier absence of another digest on record, a call only records its own. */
  lemma FirstAbsenceOnlyRecords(s: State, id: nat, answer: Option<(Observation, Consensus)>)
    requires id in s.calls && s.calls[id].Observing? && answer.Some?
    requires var a := s.calls[id].snapshot;
             forall e :: e in s.evidence ==> !Pairs(e, a.expectedTxId, a.lifecycle, answer.value.0.digest)
    ensures var (t, outcome) := ObservationArrived(s, id, answer);
            && (outcome == Threw || outcome == EvidenceRecorded)
            && id !in t.calls && t.attempts == s.attempts && t.retirements == s.retirements
  {
    hide Pairs, Recordable, Window;
  }

  /** The other way round: with such a window, an ancestor both sources hold and a journal that
      still allows it, the call does retire the attempt. */
  lemma WindowRetires(s: State, id: nat, o: Observation, c: Consensus)
    requires id in s.calls && s.calls[id].Observing?
    requires var a := s.calls[id].snapshot;
             && Recordable(s.attempts, a, o, c)
             && Inserted(s.evidence, Evidence(a.expectedTxId, a.lifecycle, o, c)).Some?
             && Retired(s.attempts, s.pegOuts, s.avl, a, o, c).Some?
             && var e := Previous(s.evidence, a.expectedTxId, a.lifecycle, o.digest);
             && e.Some? && Window(e.value, o)
             && var (height, header) := (e.value.observation.tipHeight, e.value.observation.tipHeader);
             && height in s.world.primary && s.world.primary[height] == header
             && height in s.world.witnessed && s.world.witnessed[height] == header
    ensures var observed := Step(s, Observes(id, Some((o, c))));
            Finished(Step(Step(observed, ReadsHeader(id, false)), ReadsHeader(id, true)), id).1.RetiredNow?
  {
    hide Recordable, Inserted, Retired, Previous, Window;
    var observed := Step(s, Observes(id, Some((o, c))));
    assert observed.calls[id].Reading? && observed.world == s.world;
    var first := Step(observed, ReadsHeader(id, false));
    assert first.calls[id] == observed.calls[id].(primary := first.calls[id].primary);
  }

  // ----- Confirmed and retired attempts -----

  predicate Terminal(a: Attempt) {
    a.status == Confirmed || a.status == Abandoned
  }

  ghost predicate SameRows(a: seq<Evidence>, b: seq<Evidence>, tx: Hex) {
    a <= b && forall e :: e in b && e.tx == tx ==> e in a
  }

  /** Nothing of the attempt differs between two states. */
  ghost predicate Untouched(s: State, t: State, tx: Hex) {
    && tx in s.attempts && tx in t.attempts && t.attempts[tx] == s.attempts[tx]
    && SameRows(s.evidence, t.evidence, tx)
    && (forall r :: r in t.retirements && r.call.snapshot.expectedTxId == tx ==> r in s.retirements)
  }

  lemma ObservationLeavesTerminal(s: State, id: nat, answer: Option<(Observation, Consensus)>, tx: Hex)
    requires tx in s.attempts && Terminal(s.attempts[tx])
    ensures Untouched(s, ObservationArrived(s, id, answer).0, tx)
  {
    hide Previous, Window, PolicyMatches, AbsenceConsensus, SameKey;
  }

  lemma FinishLeavesTerminal(s: State, id: nat, tx: Hex)
    requires tx in s.attempts && Terminal(s.attempts[tx])
    ensures Untouched(s, Finished(s, id).0, tx)
  {
    hide AncestorHeld, PolicyMatches, AbsenceConsensus, ReleasedAll, Idle;
  }

  /** No step of any call writes anything of a confirmed or abandoned attempt. */
  lemma TerminalUntouched(s: State, e: Event, tx: Hex)
    requires tx in s.attempts && Terminal(s.attempts[tx]) && !e.OthersWrite?
    ensures Untouched(s, Step(s, e), tx)
  {
    hide ObservationArrived, Finished, HeaderAt, RecognisedRetired;
    match e
    case Observes(id, answer) => ObservationLeavesTerminal(s, id, answer, tx);
    case Finishes(id) => FinishLeavesTerminal(s, id, tx);
    case _ =>
  }

  /** Nothing of it changes however many calls follow, as long as no other writer acts. */
  lemma {:induction false} TerminalForever(s: State, events: seq<Event>, tx: Hex)
    requires tx in s.attempts && Terminal(s.attempts[tx])
    requires forall e :: e in events ==> !e.OthersWrite?
    ensures Untouched(s, Run(s, events), tx)
  {
    hide Step;
    if events == [] {
    } else {
      TerminalForever(s, events[..|events| - 1], tx);
      TerminalUntouched(Run(s, events[..|events| - 1]), events[|events| - 1], tx);
    }
  }

  /** A retirement ends the attempt for good: the next call recognises it and writes nothing. */
  lemma RetirementRecognised(s: State, id: nat, hasWitness: bool)
    requires Finished(s, id).1.RetiredNow?
    ensures var (t, tx) := (Finished(s, id).0, s.calls[id].snapshot.expectedTxId);
            && Terminal(t.attempts[tx])
            && (t.attempts[tx].expectedTxId == tx ==> Begun(t, tx, hasWitness) == (t, AlreadyRetired))
  {
    hide ReleasedAll, AncestorHeld;
    var (t, tx) := (Finished(s, id).0, s.calls[id].snapshot.expectedTxId);
    assert t.attempts[tx] == RetiredRow(s.attempts[tx], t.attempts[tx].reason.value, s.calls[id].observation,
                                        s.calls[id].consensus);
    assert RecognisedRetired(t.attempts[tx]);
  }

  /** The status a submitted attempt leaves its peg-outs in. */
  function LeftBy(a: Attempt): PegOutStatus {
    if a.batch then BatchSubmitted else AggregateSubmitted
  }

  /** A retirement of a submitted attempt needs every burn to be absent from the AVL history and
      unclaimed by another transaction; it frees exactly the burns submitted by this one, counts them,
      and leaves every other peg-out alone. */
  lemma RetirementFreesBurns(s: State, id: nat)
    requires Finished(s, id).1.RetiredNow? && s.calls[id].snapshot.status == Submitted
    ensures var (t, outcome) := Finished(s, id);
            var a := s.calls[id].snapshot;
            && (forall i :: 0 <= i < |a.burns| ==>
                  Releasable(s.pegOuts, s.avl, a.burns[i], LeftBy(a), a.expectedTxId))
            && t.pegOuts == Freed(s.pegOuts, a.burns, LeftBy(a))
            && outcome.resets == CountWith(s.pegOuts, a.burns, LeftBy(a))
            && outcome.resets + outcome.skipped == |a.burns|
            && (forall i :: 0 <= i < |a.burns| ==> Open(t.pegOuts, a.burns[i]))
  {
    hide ReleasedAll, AncestorHeld, PolicyMatches, AbsenceConsensus, Freed, CountWith, Releasable;
    var a := s.calls[id].snapshot;
    ReleaseExact(s.pegOuts, s.avl, a.burns, |a.burns|, LeftBy(a), a.expectedTxId);
    assert a.burns[..|a.burns|] == a.burns;
    FreedOpen(s.pegOuts, s.avl, a.burns, LeftBy(a), a.expectedTxId);
  }

  lemma FreedOpen(pegOuts: map<Hex, PegOut>, avl: set<Hex>, burns: seq<Hex>, expected: PegOutStatus, tx: Hex)
    requires forall i :: 0 <= i < |burns| ==> Releasable(pegOuts, avl, burns[i], expected, tx)
    ensures forall i :: 0 <= i < |burns| ==> Open(Freed(pegOuts, burns, expected), burns[i])
  {
  }

  /** A retirement of a pending attempt needs every burn to be untouched: open or reverted, unclaimed,
      without a pending key and absent from the AVL history; and it leaves all peg-outs alone. */
  lemma PendingRetirementTouchesNothing(s: State, id: nat)
    requires Inv(s) && Finished(s, id).1.RetiredNow? && s.calls[id].snapshot.status == Pending
    ensures var (t, outcome) := Finished(s, id);
            var a := s.calls[id].snapshot;
            && t.pegOuts == s.pegOuts && outcome == RetiredNow(0, |a.burns|)
            && (forall i :: 0 <= i < |a.burns| ==>
                  && a.burns[i] in s.pegOuts && a.burns[i] !in s.avl
                  && var p := s.pegOuts[a.burns[i]];
                  && p == PegOut(p.status, None, None)
                  && (p.status == Detected || p.status == Known || p.status == BurnReverted))
  {
    hide ReleasedAll, AncestorHeld, PolicyMatches, AbsenceConsensus, Supported, Justified;
  }

  /** The attempt's row after a retirement: it keeps its identity, burns and policy, and carries the
      absence it was retired on. */
  lemma RetirementWrites(s: State, id: nat)
    requires Inv(s) && Finished(s, id).1.RetiredNow?
    ensures var (t, c) := (Finished(s, id).0, s.calls[id]);
            var tx := c.snapshot.expectedTxId;
            && tx in s.attempts
            && var a := s.attempts[tx];
            && t.attempts == s.attempts[tx := Attempt(
                 a.expectedTxId, None, a.batch, Abandoned, a.lifecycle + 1, a.burns, a.policy, None, false, false,
                 Some(c.observation), Some(c.consensus),
                 Some(if c.snapshot.status == Submitted then SubmittedAbsence else PendingTransportAbsence))]
            && (c.snapshot.status == Submitted || c.snapshot.status == Pending)
            && t.evidence == s.evidence && t.avl == s.avl && t.calls == s.calls - {id}
  {
    hide ReleasedAll, AncestorHeld, PolicyMatches, AbsenceConsensus, Idle, Supported, Justified;
  }

  /** A retirement made now is justified. */
  lemma LastRetirement(s: State, id: nat)
    requires Inv(s)
    ensures Finished(s, id).1.RetiredNow? ==>
      var t := Finished(s, id).0;
      |t.retirements| == |s.retirements| + 1 && Justified(t, t.retirements[|s.retirements|])
  {
    hide Justified, Retired, AncestorHeld;
    FinishKeeps(s, id);
  }

  // ----- The program -----

  class Recovery {
    var attempts: map<Hex, Attempt>
    var evidence: seq<Evidence>
    var pegOuts: map<Hex, PegOut>
    var avl: set<Hex>
    var world: World
    var calls: map<nat, Call>
    var next: nat
    var changes: nat
    ghost var past: seq<World>
    ghost var retirements: seq<Retirement>

    /** Every pending window and every retirement rests on recorded absences. */
    ghost predicate Valid()
      reads this
    {
      changes == |past| && Inv(Now())
    }

    ghost function Now(): State
      reads this
    {
      State(attempts, evidence, pegOuts, avl, past, world, calls, next, retirements)
    }

    constructor (
      attempts: map<Hex, Attempt>, evidence: seq<Evidence>, pegOuts: map<Hex, PegOut>, avl: set<Hex>, world: World)
      ensures Valid() && Now() == State(attempts, evidence, pegOuts, avl, [], world, map[], 0, [])
    {
      this.attempts, this.evidence, this.pegOuts, this.avl, this.world := attempts, evidence, pegOuts, avl, world;
      calls, next, changes := map[], 0, 0;
      past, retirements := [], [];
    }

    /** The chains change under the relayer. */
    method ChainsChange(seen: World)
      requires Valid()
      modifies this`world, this`changes, this`past
      ensures Valid() && Now() == Step(old(Now()), Event.ChainsChange(seen))
    {
      hide Inv;
      StepKeeps(Now(), Event.ChainsChange(seen));
      past := past + [world];
      changes := changes + 1;
      world := seen;
    }

    /** One of the two ancestor reads is answered. */
    method ReadHeader(id: nat, fromWitness: bool)
      requires Valid()
      modifies this`calls
      ensures Valid() && Now() == HeaderArrived(old(Now()), id, fromWitness)
    {
      hide Inv, HeaderAt;
      StepKeeps(Now(), ReadsHeader(id, fromWitness));
      if id !in calls || !calls[id].Reading? {
        return;
      }
      var call := calls[id];
      var header := HeaderAt(world, call.earlier.observation.tipHeight, fromWitness);
      if fromWitness && call.witnessed == None {
        calls := calls[id := call.(witnessed := Some(Read(changes, header)))];
      } else if !fromWitness && call.primary == None {
        calls := calls[id := call.(primary := Some(Read(changes, header)))];
      }
    }

    /** abandonAggregateSettlementAttempt up to the observation. */
    method Begin(tx: Hex, hasWitness: bool) returns (outcome: Outcome)
      requires Valid()
      modifies this`calls, this`next
      ensures Valid() && (Now(), outcome) == Begun(old(Now()), tx, hasWitness)
    {
      hide Inv;
      StepKeeps(Now(), Begins(tx, hasWitness));
      if tx !in attempts || attempts[tx].expectedTxId != tx {
        return Threw;
      }
      var attempt := attempts[tx];
      if attempt.status == Confirmed {
        return Threw;
      }
      if attempt.status == Abandoned {
        return if RecognisedRetired(attempt) then AlreadyRetired else AlreadyAbandoned;
      }
      if attempt.status != Submitted && !ReservedPending(attempt) {
        return Threw;
      }
      if attempt.policy == None || !hasWitness {
        return Threw;
      }
      calls := calls[next := Observing(attempt)];
      next := next + 1;
      return Waits;
    }

    method ObservationArrives(id: nat, answer: Option<(Observation, Consensus)>) returns (outcome: Outcome)
      requires Valid()
      modifies this`calls, this`evidence
      ensures Valid() && (Now(), outcome) == ObservationArrived(old(Now()), id, answer)
    {
      hide Window, Recordable, Previous, Inserted, Inv;
      StepKeeps(Now(), Observes(id, answer));
      if id !in calls || !calls[id].Observing? {
        return Threw;
      }
      var attempt := calls[id].snapshot;
      calls := calls - {id};
      if answer == None || !Recordable(attempts, attempt, answer.value.0, answer.value.1) {
        return Threw;
      }
      var (observation, consensus) := answer.value;
      var previous := Previous(evidence, attempt.expectedTxId, attempt.lifecycle, observation.digest);
      var rows := Inserted(evidence, Evidence(attempt.expectedTxId, attempt.lifecycle, observation, consensus));
      if rows == None {
        return Threw;
      }
      evidence := rows.value;
      if previous == None || !Window(previous.value, observation) {
        return EvidenceRecorded;
      }
      calls := calls[id := Reading(attempt, observation, consensus, previous.value, changes, None, None)];
      return Waits;
    }

    /** The last part: the ancestor check and the retirement. */
    method Finish(id: nat) returns (outcome: Outcome)
      requires Valid()
      modifies this`calls, this`attempts, this`pegOuts, this`retirements
      ensures Valid() && (Now(), outcome) == Finished(old(Now()), id)
      ensures outcome.RetiredNow? ==>
        |retirements| == |old(retirements)| + 1 && Justified(Now(), retirements[|old(retirements)|])
    {
      hide ReleasedAll, AncestorHeld, Retirable, RetiredRow, Idle, Inv, Justified;
      StepKeeps(Now(), Finishes(id));
      LastRetirement(Now(), id);
      if id !in calls || !calls[id].Reading? || calls[id].primary == None || calls[id].witnessed == None {
        return Threw;
      }
      var call := calls[id];
      var snapshot, tx := call.snapshot, call.snapshot.expectedTxId;
      calls := calls - {id};
      if !AncestorHeld(call) || !Retirable(attempts, snapshot, call.observation, call.consensus) {
        return Threw;
      }
      RetirableKnown(attempts, snapshot, call.observation, call.consensus);
      if ReservedPending(snapshot) {
        var idle := AllIdle(pegOuts, avl, snapshot.burns);
        if !idle {
          return Threw;
        }
        retirements := retirements + [Retirement(attempts[tx], call)];
        attempts := attempts[tx := RetiredRow(attempts[tx], PendingTransportAbsence, call.observation, call.consensus)];
        return RetiredNow(0, |snapshot.burns|);
      }
      var released, skipped := ReleaseSubmittedBurns(
        pegOuts, avl, snapshot.burns, SubmittedStatus(snapshot.batch), tx);
      if released == None {
        return Threw;
      }
      retirements := retirements + [Retirement(attempts[tx], call)];
      attempts := attempts[tx := RetiredRow(attempts[tx], SubmittedAbsence, call.observation, call.consensus)];
      pegOuts := released.value.0;
      return RetiredNow(released.value.1, skipped);
    }
  }

  lemma RetirableKnown(attempts: map<Hex, Attempt>, snapshot: Attempt, o: Observation, c: Consensus)
    requires Retirable(attempts, snapshot, o, c)
    ensures snapshot.expectedTxId in attempts
  {
  }

  /** The loop of the pending retirement. */
  method AllIdle(pegOuts: map<Hex, PegOut>, avl: set<Hex>, burns: seq<Hex>) returns (idle: bool)
    ensures idle <==> forall i :: 0 <= i < |burns| ==> Idle(pegOuts, avl, burns[i])
  {
    for n := 0 to |burns|
      invariant forall i :: 0 <= i < n ==> Idle(pegOuts, avl, burns[i])
    {
      if !Idle(pegOuts, avl, burns[n]) {
        return false;
      }
    }
    return true;
  }
}
