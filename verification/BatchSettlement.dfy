/**
  From a batch plan to a confirmed transaction: choosing the liquidity box, assembling the
  transaction, and the positional check that confirms it.
 */
module BatchSettlement {
  import opened Prelude
  import BatchPlan
  import Codec
  import JsNumber
  import opened CausalSettlement
  import opened DupReplay

  // ----- Liquidity selection -----

  predicate Readable(b: BoxLike) {
    0 <= b.value <= MAX_SAFE_INTEGER
  }

  predicate Sufficient(b: BoxLike, minimum: int) {
    b.assets == [] && b.value >= minimum
  }

  /** The filters of selectUnlockBox; reading the value of a box without assets may throw. */
  function Candidates(boxes: seq<BoxLike>, minimum: int): (r: seq<BoxLike>)
    ensures forall b :: b in r <==> b in boxes && Sufficient(b, minimum)
  {
    if boxes == [] then []
    else
      var rest := Candidates(boxes[..|boxes| - 1], minimum);
      var last := boxes[|boxes| - 1];
      assert boxes == boxes[..|boxes| - 1] + [last];
      if Sufficient(last, minimum) then rest + [last] else rest
  }

  predicate Ascending(s: seq<BoxLike>) {
    forall i, j :: 0 <= i < j < |s| ==> s[i].value <= s[j].value
  }

  /** Stable: after the boxes of equal value. */
  function Insert(s: seq<BoxLike>, b: BoxLike): (r: seq<BoxLike>)
    ensures multiset(r) == multiset(s) + multiset{b}
  {
    if s == [] then [b]
    else if b.value < s[0].value then [b] + s
    else
      assert s == [s[0]] + s[1..];
      [s[0]] + Insert(s[1..], b)
  }

  lemma {:induction false} InsertSorts(s: seq<BoxLike>, b: BoxLike)
    requires Ascending(s)
    ensures Ascending(Insert(s, b))
  {
    if s != [] && b.value >= s[0].value {
      InsertSorts(s[1..], b);
      AllAbove(s[1..], b, s[0].value);
    }
  }

  lemma AllAbove(s: seq<BoxLike>, b: BoxLike, least: int)
    requires b.value >= least && forall i :: 0 <= i < |s| ==> s[i].value >= least
    ensures forall i :: 0 <= i < |Insert(s, b)| ==> Insert(s, b)[i].value >= least
  {
    if s != [] && b.value >= s[0].value {
      AllAbove(s[1..], b, least);
    }
  }

  function SortedByValue(s: seq<BoxLike>): (r: seq<BoxLike>)
    ensures multiset(r) == multiset(s)
  {
    if s == [] then []
    else
      assert s == s[..|s| - 1] + [s[|s| - 1]];
      Insert(SortedByValue(s[..|s| - 1]), s[|s| - 1])
  }

  lemma {:induction false} SortSorts(s: seq<BoxLike>)
    ensures Ascending(SortedByValue(s))
  {
    if s != [] {
      SortSorts(s[..|s| - 1]);
      InsertSorts(SortedByValue(s[..|s| - 1]), s[|s| - 1]);
    }
  }

  function Find(s: seq<BoxLike>, id: Bytes): (r: Option<BoxLike>)
    ensures r.Some? ==> r.value in s && r.value.boxId == id
    ensures r == None ==> forall b :: b in s ==> b.boxId != id
  {
    if s == [] then None else if s[0].boxId == id then Some(s[0]) else Find(s[1..], id)
  }

  /** selectUnlockBox */
  function SelectUnlockBox(boxes: seq<BoxLike>, minimum: int, preferred: Option<Bytes>): Option<BoxLike> {
    if exists b :: b in boxes && b.assets == [] && !Readable(b) then None
    else
      var candidates := SortedByValue(Candidates(boxes, minimum));
      if preferred.Some? then Find(candidates, preferred.value)
      else if candidates == [] then None
      else Some(candidates[0])
  }

  /** The chosen box covers the minimum with pure ERG: the preferred box if one is named, else a
      smallest one; and one is chosen whenever there is one. */
  lemma SelectionIsBestFit(boxes: seq<BoxLike>, minimum: int, preferred: Option<Bytes>)
    requires forall b :: b in boxes && b.assets == [] ==> Readable(b)
    ensures var r := SelectUnlockBox(boxes, minimum, preferred);
            && (r.Some? ==>
                  && r.value in boxes && r.value.assets == [] && minimum <= r.value.value <= MAX_SAFE_INTEGER
                  && (preferred.Some? ==> r.value.boxId == preferred.value)
                  && (preferred == None ==>
                        forall b :: b in boxes && b.assets == [] && b.value >= minimum ==> r.value.value <= b.value))
            && (r == None ==> forall b :: b in boxes && b.assets == [] && b.value >= minimum ==>
                                preferred.Some? && b.boxId != preferred.value)
  {
    hide SortedByValue, Candidates, Find;
    var candidates := Candidates(boxes, minimum);
    var sorted := SortedByValue(candidates);
    SameMembers(sorted, candidates);
    SortSorts(candidates);
    forall b | b in boxes && b.assets == [] && b.value >= minimum
      ensures b in sorted && sorted[0].value <= b.value
    {
      assert b in candidates;
      var i :| 0 <= i < |sorted| && sorted[i] == b;
    }
    if sorted != [] {
      assert sorted[0] in candidates;
    }
    if preferred.Some? && Find(sorted, preferred.value).Some? {
      assert Find(sorted, preferred.value).value in candidates;
    }
  }

  /** The first of the smallest sufficient boxes, by one pass over the listing. */
  function Smallest(boxes: seq<BoxLike>, minimum: int): Option<BoxLike> {
    if boxes == [] then None
    else
      var (before, last) := (Smallest(boxes[..|boxes| - 1], minimum), boxes[|boxes| - 1]);
      if last.assets == [] && last.value >= minimum && (before == None || last.value < before.value.value)
      then Some(last)
      else before
  }

  /** Of several smallest boxes the first listed is chosen. */
  lemma {:induction false} SelectionIsFirst(boxes: seq<BoxLike>, minimum: int)
    ensures var sorted := SortedByValue(Candidates(boxes, minimum));
            Smallest(boxes, minimum) == if sorted == [] then None else Some(sorted[0])
  {
    if boxes != [] {
      SelectionIsFirst(boxes[..|boxes| - 1], minimum);
      OneMore(boxes, minimum);
      SameLength(Candidates(boxes[..|boxes| - 1], minimum));
      hide SortedByValue, Candidates, Insert;
    }
  }

  /** The last listed box comes first after sorting only if it is smaller than all others. */
  lemma OneMore(boxes: seq<BoxLike>, minimum: int)
    requires boxes != []
    ensures var (last, rest) := (boxes[|boxes| - 1], Candidates(boxes[..|boxes| - 1], minimum));
            var (before, sorted) := (SortedByValue(rest), SortedByValue(Candidates(boxes, minimum)));
            && (!Sufficient(last, minimum) ==> Candidates(boxes, minimum) == rest)
            && (Sufficient(last, minimum) ==>
                  && sorted != []
                  && (rest == [] ==> sorted[0] == last)
                  && (rest != [] ==>
                        before != [] && sorted[0] == if last.value < before[0].value then last else before[0]))
  {
    var (last, rest) := (boxes[|boxes| - 1], Candidates(boxes[..|boxes| - 1], minimum));
    hide SortedByValue;
    if Sufficient(last, minimum) {
      HeadAfter(rest, last);
    }
  }

  lemma HeadAfter(rest: seq<BoxLike>, last: BoxLike)
    ensures var (before, sorted) := (SortedByValue(rest), SortedByValue(rest + [last]));
            && sorted != [] && (rest == [] <==> before == [])
            && sorted[0] == if before == [] || last.value < before[0].value then last else before[0]
  {
    assert (rest + [last])[..|rest|] == rest;
    SameLength(rest);
  }

  lemma SameLength(s: seq<BoxLike>)
    ensures |SortedByValue(s)| == |s|
  {
    assert |multiset(s)| == |s|;
    assert |multiset(SortedByValue(s))| == |SortedByValue(s)|;
  }

  // ----- Transaction -----

  /** Deployed contracts, and the tracker's AvlTree register encoder with its digest reader. */
  datatype Deployed = Deployed(
    trackerTree: Bytes, trackerNft: Bytes, dupTree: Bytes, dupNft: Bytes, unlockTree: Bytes, minerFeeTree: Bytes,
    encodeTrackerAvl: Bytes -> Bytes, readAvlDigest: Bytes -> Option<Bytes>)

  /** The plan with what the tracker side of it adds. legacy: every claim has the legacy identity. */
  datatype Batch = Batch(
    plan: BatchPlan.Plan, legacy: bool, trackerOutputDigest: Bytes, ingestHeight: Option<int>,
    trackerExtension: Extension)

  datatype Boxes = Boxes(tracker: BoxLike, dup: BoxLike, unlock: BoxLike)

  datatype BatchTx = BatchTx(inputs: seq<Input>, outputs: seq<Output>)

  function Amounts(p: BatchPlan.Plan): (r: seq<int>)
    ensures |r| == |p.claims| && forall i :: 0 <= i < |r| ==> r[i] == p.claims[i].amount
  {
    seq(|p.claims|, i requires 0 <= i < |p.claims| => p.claims[i].amount)
  }

  function PayoutOutput(c: BatchPlan.Claim): Output {
    Output(c.amount, c.recipientTree, [], map[])
  }

  function PayoutOutputs(claims: seq<BatchPlan.Claim>): (r: seq<Output>)
    ensures |r| == |claims| && forall i :: 0 <= i < |r| ==> r[i] == PayoutOutput(claims[i])
  {
    seq(|claims|, i requires 0 <= i < |claims| => PayoutOutput(claims[i]))
  }

  function Register4(b: BoxLike): Option<Bytes> {
    if R4 in b.registers then Some(b.registers[R4]) else None
  }

  function Register7(b: BoxLike): Option<Bytes> {
    if R7 in b.registers then Some(b.registers[R7]) else None
  }

  /** The counter one higher, if both are safe integers. */
  function NextCounter(b: BoxLike): Option<Bytes> {
    var counter := Codec.DecodeLongSpec(Register4(b));
    if counter.Ok? && counter.value < MAX_SAFE_INTEGER then Some(Codec.EncodeLong(counter.value + 1)) else None
  }

  /** R7 is read, and must be readable, even where an ingest gives the height. */
  function TrackerHeight(batch: Batch, b: BoxLike): Option<Bytes> {
    var latest := Codec.DecodeLongSpec(Register7(b));
    var height := if batch.ingestHeight.Some? then SafeNanoErg(batch.ingestHeight.value) else latest;
    if latest.Ok? && height.Ok? then Some(Codec.EncodeLong(height.value)) else None
  }

  /** The DUP register's flags byte, or the default when there is none to read. */
  function DupFlags(b: BoxLike): Byte {
    if R5 in b.registers && |b.registers[R5]| > 34 then b.registers[R5][34] else 0x0b
  }

  function TrackerSuccessor(d: Deployed, batch: Batch, b: BoxLike, heightRegister: Bytes): Option<Output> {
    var (counter, height) := (NextCounter(b), TrackerHeight(batch, b));
    if counter == None || height == None || b.assets == [] || R6 !in b.registers then None
    else Some(Output(b.value, d.trackerTree, [Asset(b.assets[0].tokenId, 1)],
                     map[R4 := counter.value, R5 := d.encodeTrackerAvl(batch.trackerOutputDigest),
                         R6 := b.registers[R6], R7 := height.value, R8 := heightRegister]))
  }

  function DupSuccessor(d: Deployed, batch: Batch, b: BoxLike): Option<Output> {
    var counter := NextCounter(b);
    if counter == None || b.assets == [] || R6 !in b.registers then None
    else Some(Output(b.value, d.dupTree, [Asset(b.assets[0].tokenId, 1)],
                     map[R4 := counter.value, R5 := Codec.EncodeAvl(batch.plan.proofs.newDigest, DupFlags(b)),
                         R6 := b.registers[R6]]))
  }

  /** The value checks: all amounts are safe integers and the unlock box covers payouts and fee. */
  predicate Covered(batch: Batch, boxes: Boxes, minerFee: int) {
    && 0 <= minerFee <= MAX_SAFE_INTEGER
    && 0 <= Sum(Amounts(batch.plan)) <= MAX_SAFE_INTEGER
    && Readable(boxes.tracker) && Readable(boxes.dup) && Readable(boxes.unlock)
    && boxes.unlock.value >= Sum(Amounts(batch.plan)) + minerFee
  }

  predicate PayoutsSafe(p: BatchPlan.Plan) {
    forall i :: 0 <= i < |p.claims| ==> 0 <= p.claims[i].amount <= MAX_SAFE_INTEGER
  }

  function ChangeOutputs(d: Deployed, change: int): seq<Output> {
    if change > 0 then [Output(change, d.unlockTree, [], map[])] else []
  }

  function SplitOf(batch: Batch, boxes: Boxes, minerFee: int): (r: ChangePlan)
    requires Covered(batch, boxes, minerFee)
    ensures r.change + r.fee == boxes.unlock.value - Sum(Amounts(batch.plan))
    ensures r.change == 0 || r.change >= MIN_BOX_VALUE
  {
    PlanChange(boxes.unlock.value - Sum(Amounts(batch.plan)) - minerFee, minerFee, MIN_BOX_VALUE).value
  }

  /** buildBatchAggregateSettlementTx */
  function Built(d: Deployed, batch: Batch, boxes: Boxes, minerFee: int, heightRegister: Bytes): Option<BatchTx> {
    if !batch.legacy || |batch.plan.claims| < 2 || !Covered(batch, boxes, minerFee) || !PayoutsSafe(batch.plan) then None
    else
      var (tracker, dup) := (TrackerSuccessor(d, batch, boxes.tracker, heightRegister), DupSuccessor(d, batch, boxes.dup));
      if tracker == None || dup == None then None
      else
        var split := SplitOf(batch, boxes, minerFee);
        Some(BatchTx(
          [Input(boxes.tracker.boxId, batch.trackerExtension), Input(boxes.dup.boxId, batch.plan.dupExtension),
           Input(boxes.unlock.boxId, batch.plan.unlockExtension)],
          [tracker.value, dup.value] + PayoutOutputs(batch.plan.claims) + ChangeOutputs(d, split.change)
          + [Output(split.fee, d.minerFeeTree, [], map[])]))
  }

  /** The assembly, output by output; payouts are added as bigints, the coverage sum as numbers. */
  method BuildBatchTx(d: Deployed, batch: Batch, boxes: Boxes, minerFee: int, heightRegister: Bytes)
    returns (r: Option<BatchTx>)
    requires forall i :: 0 <= i < |batch.plan.claims| ==> batch.plan.claims[i].amount > 0
    ensures r == Built(d, batch, boxes, minerFee, heightRegister)
  {
    hide TrackerSuccessor, DupSuccessor, JsNumber.Add;
    var claims := batch.plan.claims;
    if !batch.legacy || |claims| < 2 {
      return None;
    }
    if minerFee < 0 || minerFee > MAX_SAFE_INTEGER {
      return None;
    }
    var totalPayout := 0;
    for i := 0 to |claims|
      invariant totalPayout == Sum(Amounts(batch.plan)[..i])
    {
      assert Amounts(batch.plan)[..i + 1][..i] == Amounts(batch.plan)[..i];
      totalPayout := totalPayout + claims[i].amount;
    }
    assert Amounts(batch.plan)[..|claims|] == Amounts(batch.plan);
    EachWithinTotal(Amounts(batch.plan));
    if totalPayout < 0 || totalPayout > MAX_SAFE_INTEGER {
      return None;
    }
    if !Readable(boxes.tracker) || !Readable(boxes.dup) || !Readable(boxes.unlock) {
      return None;
    }
    JsNumber.ComparesExactly(boxes.unlock.value, totalPayout, minerFee);
    if boxes.unlock.value < JsNumber.Add(totalPayout, minerFee) {
      return None;
    }
    var split := PlanChange(boxes.unlock.value - totalPayout - minerFee, minerFee, MIN_BOX_VALUE).value;
    var tracker := TrackerSuccessor(d, batch, boxes.tracker, heightRegister);
    var dup := DupSuccessor(d, batch, boxes.dup);
    if tracker == None || dup == None {
      return None;
    }
    var outputs := [tracker.value, dup.value];
    for i := 0 to |claims|
      invariant outputs == [tracker.value, dup.value] + PayoutOutputs(claims)[..i]
    {
      if claims[i].amount > MAX_SAFE_INTEGER {
        // the payout is outside the safe integer range
        assert false;
      }
      outputs := outputs + [Output(claims[i].amount, claims[i].recipientTree, [], map[])];
    }
    assert PayoutOutputs(claims)[..|claims|] == PayoutOutputs(claims);
    if split.change > 0 {
      outputs := outputs + [Output(split.change, d.unlockTree, [], map[])];
    }
    assert outputs == [tracker.value, dup.value] + PayoutOutputs(claims) + ChangeOutputs(d, split.change);
    outputs := outputs + [Output(split.fee, d.minerFeeTree, [], map[])];
    return Some(BatchTx(
      [Input(boxes.tracker.boxId, batch.trackerExtension), Input(boxes.dup.boxId, batch.plan.dupExtension),
       Input(boxes.unlock.boxId, batch.plan.unlockExtension)], outputs));
  }

  /** Positive parts do not exceed their sum. */
  lemma {:induction false} EachWithinTotal(amounts: seq<int>)
    requires forall i :: 0 <= i < |amounts| ==> amounts[i] > 0
    ensures 0 <= Sum(amounts)
    ensures forall i :: 0 <= i < |amounts| ==> amounts[i] <= Sum(amounts)
  {
    if amounts != [] {
      EachWithinTotal(amounts[..|amounts| - 1]);
    }
  }

  // ----- What is built -----

  function HeightRegister(box: BoxLike): Option<Bytes> {
    if R7 in box.registers then Some(box.registers[R7]) else None
  }

  /** The tracker's successor: one token of its own, the counter one up, the plan's digest, the
      ingest height or else the old one. */
  ghost predicate TrackerFollows(d: Deployed, batch: Batch, b: BoxLike, o: Output, heightRegister: Bytes) {
    && o.value == b.value && o.ergoTree == d.trackerTree
    && b.assets != [] && o.assets == [Asset(b.assets[0].tokenId, 1)]
    && o.registers.Keys == {R4, R5, R6, R7, R8}
    && CountsUp(b, o)
    && o.registers[R5] == d.encodeTrackerAvl(batch.trackerOutputDigest)
    && R6 in b.registers && o.registers[R6] == b.registers[R6]
    && o.registers[R8] == heightRegister
    && Codec.DecodeLongSpec(HeightRegister(b)).Ok?
    && Codec.DecodeLongSpec(Some(o.registers[R7]))
       == (if batch.ingestHeight.Some? then SafeNanoErg(batch.ingestHeight.value) else Codec.DecodeLongSpec(HeightRegister(b)))
  }

  ghost predicate CountsUp(b: BoxLike, o: Output) {
    && R4 in o.registers
    && var (before, after) := (Codec.DecodeLongSpec(CounterRegister(b)), Codec.DecodeLongSpec(Some(o.registers[R4])));
    && before.Ok? && after.Ok? && after.value == before.value + 1
  }

  /** The DUP successor: the digest with all burn ids of the batch, under the old flags. */
  ghost predicate DupFollows(d: Deployed, batch: Batch, b: BoxLike, o: Output) {
    && o.value == b.value && o.ergoTree == d.dupTree
    && b.assets != [] && o.assets == [Asset(b.assets[0].tokenId, 1)]
    && o.registers.Keys == {R4, R5, R6}
    && CountsUp(b, o)
    && R6 in b.registers && o.registers[R6] == b.registers[R6]
    && (R5 in b.registers && Codec.DecodeAvl(b.registers[R5]).Ok? && |batch.plan.proofs.newDigest| == 33 ==>
          Codec.DecodeAvl(o.registers[R5])
          == Ok(Codec.AvlRegister(batch.plan.proofs.newDigest, Codec.DecodeAvl(b.registers[R5]).value.flags)))
  }

  /** Change of the unlock box: absent if it would be dust. */
  function BatchChange(batch: Batch, boxes: Boxes, minerFee: int): int {
    var rest := boxes.unlock.value - Sum(Amounts(batch.plan)) - minerFee;
    if rest >= MIN_BOX_VALUE then rest else 0
  }

  /** Every built batch spends tracker, DUP and unlock box, each with its own extension, and creates
      their successors, one payout per claim in order, the change and the fee. */
  lemma BuiltBatch(d: Deployed, batch: Batch, boxes: Boxes, minerFee: int, heightRegister: Bytes)
    requires Built(d, batch, boxes, minerFee, heightRegister).Some?
    ensures var (tx, n) := (Built(d, batch, boxes, minerFee, heightRegister).value, |batch.plan.claims|);
            var change := BatchChange(batch, boxes, minerFee);
            && tx.inputs == [Input(boxes.tracker.boxId, batch.trackerExtension),
                             Input(boxes.dup.boxId, batch.plan.dupExtension),
                             Input(boxes.unlock.boxId, batch.plan.unlockExtension)]
            && |tx.outputs| == n + (if change > 0 then 4 else 3)
            && TrackerFollows(d, batch, boxes.tracker, tx.outputs[0], heightRegister)
            && DupFollows(d, batch, boxes.dup, tx.outputs[1])
            && (forall i :: 0 <= i < n ==>
                  tx.outputs[2 + i]
                  == Output(batch.plan.claims[i].amount, batch.plan.claims[i].recipientTree, [], map[]))
            && (change > 0 ==> tx.outputs[2 + n] == Output(change, d.unlockTree, [], map[]))
            && tx.outputs[|tx.outputs| - 1]
               == Output(boxes.unlock.value - Sum(Amounts(batch.plan)) - change, d.minerFeeTree, [], map[])
  {
    SplitIs(batch, boxes, minerFee);
    hide TrackerSuccessor, DupSuccessor, TrackerFollows, DupFollows, SplitOf, Covered, PayoutsSafe, BatchChange;
    TrackerSucceedsAs(d, batch, boxes.tracker, heightRegister);
    DupSucceedsAs(d, batch, boxes.dup);
    var outputs := Built(d, batch, boxes, minerFee, heightRegister).value.outputs;
    forall i | 0 <= i < |batch.plan.claims|
      ensures outputs[2 + i] == PayoutOutput(batch.plan.claims[i])
    {
      assert outputs[2 + i] == PayoutOutputs(batch.plan.claims)[i];
    }
  }

  lemma SplitIs(batch: Batch, boxes: Boxes, minerFee: int)
    requires Covered(batch, boxes, minerFee)
    ensures SplitOf(batch, boxes, minerFee).change == BatchChange(batch, boxes, minerFee)
    ensures SplitOf(batch, boxes, minerFee).fee
            == boxes.unlock.value - Sum(Amounts(batch.plan)) - BatchChange(batch, boxes, minerFee)
  {
  }

  lemma LongReads(n: nat)
    requires n <= MAX_SAFE_INTEGER
    ensures Codec.DecodeLongSpec(Some(Codec.EncodeLong(n))) == Ok(n)
  {
    hide Codec.DecodeLongSpec, Codec.EncodeLong;
    Codec.LongRoundTrip(n, []);
    assert Codec.EncodeLong(n) + [] == Codec.EncodeLong(n);
  }

  lemma CounterCounts(b: BoxLike)
    requires NextCounter(b).Some?
    ensures var before := Codec.DecodeLongSpec(CounterRegister(b));
            before.Ok? && Codec.DecodeLongSpec(Some(NextCounter(b).value)) == Ok(before.value + 1)
  {
    hide Codec.DecodeLongSpec, Codec.EncodeLong;
    LongReads(Codec.DecodeLongSpec(CounterRegister(b)).value + 1);
  }

  lemma HeightReads(batch: Batch, b: BoxLike)
    requires TrackerHeight(batch, b).Some?
    ensures Codec.DecodeLongSpec(HeightRegister(b)).Ok?
    ensures Codec.DecodeLongSpec(Some(TrackerHeight(batch, b).value))
            == (if batch.ingestHeight.Some? then SafeNanoErg(batch.ingestHeight.value)
                else Codec.DecodeLongSpec(HeightRegister(b)))
  {
    DecodedSafe(HeightRegister(b));
    hide Codec.DecodeLongSpec, Codec.EncodeLong;
    var height := if batch.ingestHeight.Some? then SafeNanoErg(batch.ingestHeight.value)
                  else Codec.DecodeLongSpec(HeightRegister(b));
    LongReads(height.value);
  }

  lemma DecodedSafe(register: Option<Bytes>)
    requires Codec.DecodeLongSpec(register).Ok?
    ensures Codec.DecodeLongSpec(register).value <= MAX_SAFE_INTEGER
  {
    hide Codec.VlqValue, Codec.UnZigZag;
  }

  lemma TrackerSucceedsAs(d: Deployed, batch: Batch, b: BoxLike, heightRegister: Bytes)
    requires TrackerSuccessor(d, batch, b, heightRegister).Some?
    ensures TrackerFollows(d, batch, b, TrackerSuccessor(d, batch, b, heightRegister).value, heightRegister)
  {
    hide NextCounter, TrackerHeight, Codec.DecodeLongSpec, SafeNanoErg;
    CounterCounts(b);
    HeightReads(batch, b);
  }

  lemma DupSucceedsAs(d: Deployed, batch: Batch, b: BoxLike)
    requires DupSuccessor(d, batch, b).Some?
    ensures DupFollows(d, batch, b, DupSuccessor(d, batch, b).value)
  {
    hide NextCounter, Codec.DecodeLongSpec, Codec.EncodeAvl, Codec.DecodeAvl;
    CounterCounts(b);
    if R5 in b.registers && Codec.DecodeAvl(b.registers[R5]).Ok? && |batch.plan.proofs.newDigest| == 33 {
      FlagsAre(b);
      Codec.AvlRoundTrip(batch.plan.proofs.newDigest, DupFlags(b));
    }
  }

  lemma FlagsAre(b: BoxLike)
    requires R5 in b.registers && Codec.DecodeAvl(b.registers[R5]).Ok?
    ensures DupFlags(b) == Codec.DecodeAvl(b.registers[R5]).value.flags && DupFlags(b) % 2 == 1
  {
  }

  /** A batch is built exactly for legacy claims, covered amounts and readable singletons. */
  lemma BuildsBatchIff(d: Deployed, batch: Batch, boxes: Boxes, minerFee: int, heightRegister: Bytes)
    requires forall i :: 0 <= i < |batch.plan.claims| ==> batch.plan.claims[i].amount > 0
    ensures Built(d, batch, boxes, minerFee, heightRegister).Some? <==>
            && batch.legacy && |batch.plan.claims| >= 2
            && 0 <= minerFee <= MAX_SAFE_INTEGER && Sum(Amounts(batch.plan)) <= MAX_SAFE_INTEGER
            && 0 <= boxes.tracker.value <= MAX_SAFE_INTEGER && 0 <= boxes.dup.value <= MAX_SAFE_INTEGER
            && Sum(Amounts(batch.plan)) + minerFee <= boxes.unlock.value <= MAX_SAFE_INTEGER
            && SingletonReadable(boxes.tracker) && SingletonReadable(boxes.dup)
            && Codec.DecodeLongSpec(HeightRegister(boxes.tracker)).Ok?
            && (batch.ingestHeight.Some? ==> 0 <= batch.ingestHeight.value <= MAX_SAFE_INTEGER)
  {
    hide Codec.DecodeLongSpec, Codec.EncodeLong;
    EachWithinTotal(Amounts(batch.plan));
    forall i | 0 <= i < |batch.plan.claims|
      ensures batch.plan.claims[i].amount <= Sum(Amounts(batch.plan))
    {
      assert Amounts(batch.plan)[i] == batch.plan.claims[i].amount;
    }
  }

  /** A counter below the safe bound, a token and an authority register. */
  ghost predicate SingletonReadable(b: BoxLike) {
    && b.assets != [] && R6 in b.registers
    && Codec.DecodeLongSpec(CounterRegister(b)).Ok? && Codec.DecodeLongSpec(CounterRegister(b)).value < MAX_SAFE_INTEGER
  }

  // ----- Conservation -----

  lemma {:induction false} PayoutsTotal(claims: seq<BatchPlan.Claim>, amounts: seq<int>)
    requires |amounts| == |claims| && forall i :: 0 <= i < |claims| ==> amounts[i] == claims[i].amount
    ensures Sum(Values(PayoutOutputs(claims))) == Sum(amounts)
  {
    assert Values(PayoutOutputs(claims)) == amounts;
  }

  lemma ValuesAppend(a: seq<Output>, b: seq<Output>)
    ensures Sum(Values(a + b)) == Sum(Values(a)) + Sum(Values(b))
  {
    assert Values(a + b) == Values(a) + Values(b);
    SumAppend(Values(a), Values(b));
  }

  lemma OneValue(o: Output)
    ensures Sum(Values([o])) == o.value
  {
    assert Values([o]) == [o.value] && [o.value][..0] == [];
  }

  /** The outputs of any built batch sum exactly to the tracker, DUP and unlock inputs. */
  lemma BatchConserves(d: Deployed, batch: Batch, boxes: Boxes, minerFee: int, heightRegister: Bytes)
    requires Built(d, batch, boxes, minerFee, heightRegister).Some?
    ensures Sum(Values(Built(d, batch, boxes, minerFee, heightRegister).value.outputs))
            == boxes.tracker.value + boxes.dup.value + boxes.unlock.value
  {
    hide Values, Covered, NextCounter, TrackerHeight, DupFlags;
    var tracker := TrackerSuccessor(d, batch, boxes.tracker, heightRegister).value;
    var dup := DupSuccessor(d, batch, boxes.dup).value;
    var split := SplitOf(batch, boxes, minerFee);
    var payouts, change := PayoutOutputs(batch.plan.claims), ChangeOutputs(d, split.change);
    var fee := Output(split.fee, d.minerFeeTree, [], map[]);
    assert [tracker, dup] == [tracker] + [dup];
    ValuesAppend([tracker], [dup]);
    ValuesAppend([tracker, dup], payouts);
    ValuesAppend([tracker, dup] + payouts, change);
    ValuesAppend([tracker, dup] + payouts + change, [fee]);
    OneValue(tracker);
    OneValue(dup);
    OneValue(fee);
    PayoutsTotal(batch.plan.claims, Amounts(batch.plan));
    ChangeTotal(d, split.change);
  }

  lemma ChangeTotal(d: Deployed, change: int)
    requires change >= 0
    ensures Sum(Values(ChangeOutputs(d, change))) == change
  {
    if change > 0 {
      OneValue(Output(change, d.unlockTree, [], map[]));
    }
  }

  // ----- Confirmation -----

  /** A peg-out as it is expected on chain. */
  datatype Expected = Expected(recipientTree: Bytes, amount: int)

  predicate HasToken(o: Output, tokenId: Bytes) {
    exists a :: a in o.assets && a == Asset(tokenId, 1)
  }

  function TokenCount(outputs: seq<Output>, tokenId: Bytes): nat {
    if outputs == [] then 0
    else TokenCount(outputs[..|outputs| - 1], tokenId) + if HasToken(outputs[|outputs| - 1], tokenId) then 1 else 0
  }

  predicate TrackerSucceeds(d: Deployed, outputs: seq<Output>) {
    && |outputs| > 0
    && HasToken(outputs[0], d.trackerNft)
    && TokenCount(outputs, d.trackerNft) == 1
    && R5 in outputs[0].registers && d.readAvlDigest(outputs[0].registers[R5]).Some?
  }

  /** Peg-out i is paid by output 2 + i. */
  predicate PaidAt(outputs: seq<Output>, pegOuts: seq<Expected>, i: nat)
    requires i < |pegOuts|
  {
    && 2 + i < |outputs|
    && outputs[2 + i].ergoTree == pegOuts[i].recipientTree
    && outputs[2 + i].value >= pegOuts[i].amount
  }

  /** The structural part of confirmBatchSettlement. */
  method ConfirmsStructure(d: Deployed, outputs: seq<Output>, pegOuts: seq<Expected>) returns (ok: bool)
    ensures ok <==> Confirms(d, outputs, pegOuts)
  {
    if |pegOuts| == 0 || !TrackerSucceeds(d, outputs) {
      return false;
    }
    if |outputs| < 2 || !HasToken(outputs[1], d.dupNft) {
      return false;
    }
    for i := 0 to |pegOuts|
      invariant forall j: nat :: j < i ==> PaidAt(outputs, pegOuts, j)
    {
      if 2 + i >= |outputs| {
        assert !PaidAt(outputs, pegOuts, i);
        return false;
      }
      if outputs[2 + i].ergoTree != pegOuts[i].recipientTree || outputs[2 + i].value < pegOuts[i].amount {
        assert !PaidAt(outputs, pegOuts, i);
        return false;
      }
    }
    return true;
  }

  predicate Confirms(d: Deployed, outputs: seq<Output>, pegOuts: seq<Expected>) {
    && |pegOuts| > 0
    && TrackerSucceeds(d, outputs)
    && |outputs| >= 2 && HasToken(outputs[1], d.dupNft)
    && forall i: nat :: i < |pegOuts| ==> PaidAt(outputs, pegOuts, i)
  }

  /** The token is in output k alone. */
  ghost predicate OnlyIn(outputs: seq<Output>, token: Asset, k: nat) {
    forall i :: 0 <= i < |outputs| ==> (token in outputs[i].assets <==> i == k)
  }

  lemma {:induction false} CountedOnce(outputs: seq<Output>, tokenId: Bytes)
    requires outputs != [] && HasToken(outputs[0], tokenId)
    ensures TokenCount(outputs, tokenId) >= 1
    ensures TokenCount(outputs, tokenId) == 1 <==> OnlyIn(outputs, Asset(tokenId, 1), 0)
  {
    var k := |outputs| - 1;
    if k == 0 {
      assert outputs[..0] == [];
      assert TokenCount(outputs, tokenId) == TokenCount([], tokenId) + 1;
    } else {
      CountedOnce(outputs[..k], tokenId);
      assert OnlyIn(outputs, Asset(tokenId, 1), 0) <==>
             OnlyIn(outputs[..k], Asset(tokenId, 1), 0) && Asset(tokenId, 1) !in outputs[k].assets
        by {
          assert forall i :: 0 <= i < k ==> outputs[..k][i] == outputs[i];
        }
    }
  }

  /** A transaction confirms exactly if its first output, and no other, carries the tracker NFT and a
      readable digest, the second carries the DUP NFT, and output 2 + i pays peg-out i. */
  lemma ConfirmsIff(d: Deployed, outputs: seq<Output>, pegOuts: seq<Expected>)
    ensures Confirms(d, outputs, pegOuts) <==>
            && pegOuts != [] && 2 + |pegOuts| <= |outputs|
            && OnlyIn(outputs, Asset(d.trackerNft, 1), 0)
            && R5 in outputs[0].registers && d.readAvlDigest(outputs[0].registers[R5]).Some?
            && Asset(d.dupNft, 1) in outputs[1].assets
            && forall i :: 0 <= i < |pegOuts| ==>
                 outputs[2 + i].ergoTree == pegOuts[i].recipientTree && outputs[2 + i].value >= pegOuts[i].amount
  {
    hide TokenCount;
    if outputs != [] && HasToken(outputs[0], d.trackerNft) {
      CountedOnce(outputs, d.trackerNft);
    }
    if Confirms(d, outputs, pegOuts) {
      assert PaidAt(outputs, pegOuts, |pegOuts| - 1);
      forall i | 0 <= i < |pegOuts|
        ensures outputs[2 + i].ergoTree == pegOuts[i].recipientTree && outputs[2 + i].value >= pegOuts[i].amount
      {
        assert PaidAt(outputs, pegOuts, i);
      }
    }
  }

  function ExpectedAmounts(pegOuts: seq<Expected>): (r: seq<int>)
    ensures |r| == |pegOuts| && forall i :: 0 <= i < |r| ==> r[i] == pegOuts[i].amount
  {
    seq(|pegOuts|, i requires 0 <= i < |pegOuts| => pegOuts[i].amount)
  }

  /** Peg-outs with equal recipients and amounts are paid by different outputs: a confirmed
      transaction pays out at least the sum of the claims. */
  lemma ConfirmedPaysEveryClaim(d: Deployed, outputs: seq<Output>, pegOuts: seq<Expected>)
    requires Confirms(d, outputs, pegOuts)
    ensures 2 + |pegOuts| <= |outputs|
    ensures Sum(Values(outputs[2..2 + |pegOuts|])) >= Sum(ExpectedAmounts(pegOuts))
  {
    assert PaidAt(outputs, pegOuts, |pegOuts| - 1);
    var paid := Values(outputs[2..2 + |pegOuts|]);
    forall i | 0 <= i < |pegOuts|
      ensures paid[i] >= ExpectedAmounts(pegOuts)[i]
    {
      assert PaidAt(outputs, pegOuts, i);
    }
    SumDominates(paid, ExpectedAmounts(pegOuts));
  }

  lemma {:induction false} SumDominates(a: seq<int>, b: seq<int>)
    requires |a| == |b| && forall i :: 0 <= i < |a| ==> a[i] >= b[i]
    ensures Sum(a) >= Sum(b)
  {
    if a != [] {
      SumDominates(a[..|a| - 1], b[..|b| - 1]);
    }
  }

  function ExpectedOf(claims: seq<BatchPlan.Claim>): (r: seq<Expected>)
    ensures |r| == |claims|
    ensures forall i :: 0 <= i < |r| ==> r[i] == Expected(claims[i].recipientTree, claims[i].amount)
  {
    seq(|claims|, i requires 0 <= i < |claims| => Expected(claims[i].recipientTree, claims[i].amount))
  }

  /** The singletons carry their NFTs first, the NFTs differ, and the register encoder has its
      reader as inverse. */
  ghost predicate Deployment(d: Deployed, tracker: BoxLike, dup: BoxLike) {
    && tracker.assets != [] && tracker.assets[0].tokenId == d.trackerNft
    && dup.assets != [] && dup.assets[0].tokenId == d.dupNft
    && d.trackerNft != d.dupNft
    && forall digest :: d.readAvlDigest(d.encodeTrackerAvl(digest)) == Some(digest)
  }

  /** Every built batch passes the structural confirmation for the same peg-outs in order. */
  lemma BuiltConfirms(d: Deployed, batch: Batch, boxes: Boxes, minerFee: int, heightRegister: Bytes)
    requires Built(d, batch, boxes, minerFee, heightRegister).Some? && Deployment(d, boxes.tracker, boxes.dup)
    ensures Confirms(d, Built(d, batch, boxes, minerFee, heightRegister).value.outputs,
                     ExpectedOf(batch.plan.claims))
  {
    hide Covered, NextCounter, TrackerHeight, DupFlags, SplitOf;
    var outputs := Built(d, batch, boxes, minerFee, heightRegister).value.outputs;
    var claims := batch.plan.claims;
    forall i: nat | i < |claims|
      ensures PaidAt(outputs, ExpectedOf(claims), i)
    {
      assert outputs[2 + i] == PayoutOutputs(claims)[i];
    }
    assert Asset(d.trackerNft, 1) in outputs[0].assets;
    assert Asset(d.dupNft, 1) in outputs[1].assets;
    OneTracker(d, outputs);
  }

  lemma OneTracker(d: Deployed, outputs: seq<Output>)
    requires |outputs| >= 1 && HasToken(outputs[0], d.trackerNft)
    requires forall i :: 1 <= i < |outputs| ==> !HasToken(outputs[i], d.trackerNft)
    ensures TokenCount(outputs, d.trackerNft) == 1
    decreases |outputs|
  {
    if |outputs| > 1 {
      OneTracker(d, outputs[..|outputs| - 1]);
    } else {
      assert outputs[..0] == [];
    }
  }

  // ----- Selection, assembly, confirmation -----

  /** Everything but the value checks is in order. */
  predicate Assemblable(d: Deployed, batch: Batch, tracker: BoxLike, dup: BoxLike, heightRegister: Bytes) {
    && batch.legacy && |batch.plan.claims| >= 2
    && Readable(tracker) && Readable(dup)
    && TrackerSuccessor(d, batch, tracker, heightRegister).Some?
    && DupSuccessor(d, batch, dup).Some?
  }

  /** Once the payouts have been accumulated and a box selected for them, the range and coverage
      checks of the builder cannot fail, and what it builds confirms. */
  lemma SelectedBuildsAndConfirms(
    d: Deployed, batch: Batch, boxes: Boxes, offered: seq<BoxLike>, preferred: Option<Bytes>, total: nat,
    heightRegister: Bytes)
    requires forall i :: 0 <= i < |batch.plan.claims| ==> 0 < batch.plan.claims[i].amount <= MAX_SAFE_INTEGER
    requires total == Sum(Amounts(batch.plan)) && total + JsNumber.MINER_FEE <= MAX_SAFE_INTEGER
    requires SelectUnlockBox(offered, total + JsNumber.MINER_FEE, preferred) == Some(boxes.unlock)
    requires Assemblable(d, batch, boxes.tracker, boxes.dup, heightRegister) && Deployment(d, boxes.tracker, boxes.dup)
    ensures Covered(batch, boxes, JsNumber.MINER_FEE)
    ensures var tx := Built(d, batch, boxes, JsNumber.MINER_FEE, heightRegister);
            tx.Some? && Confirms(d, tx.value.outputs, ExpectedOf(batch.plan.claims))
  {
    hide SelectUnlockBox, TrackerSuccessor, DupSuccessor, Deployment, Confirms;
    SelectionReadable(offered, total + JsNumber.MINER_FEE, preferred);
    SelectionIsBestFit(offered, total + JsNumber.MINER_FEE, preferred);
    BuiltConfirms(d, batch, boxes, JsNumber.MINER_FEE, heightRegister);
  }

  lemma SelectionReadable(boxes: seq<BoxLike>, minimum: int, preferred: Option<Bytes>)
    requires SelectUnlockBox(boxes, minimum, preferred).Some?
    ensures forall b :: b in boxes && b.assets == [] ==> Readable(b)
  {
  }

  /** The tail of prepareBatchClaims: accumulate, select, build. */
  method PrepareBatch(
    d: Deployed, batch: Batch, tracker: BoxLike, dup: BoxLike, offered: seq<BoxLike>, preferred: Option<Bytes>,
    heightRegister: Bytes) returns (r: Option<BatchTx>)
    requires forall i :: 0 <= i < |batch.plan.claims| ==> batch.plan.claims[i].amount > 0
    ensures r.Some? && Deployment(d, tracker, dup) ==>
      Confirms(d, r.value.outputs, ExpectedOf(batch.plan.claims))
    ensures Assemblable(d, batch, tracker, dup, heightRegister) ==>
      (r.Some? <==>
        && Sum(Amounts(batch.plan)) + JsNumber.MINER_FEE <= MAX_SAFE_INTEGER
        && SelectUnlockBox(offered, Sum(Amounts(batch.plan)) + JsNumber.MINER_FEE, preferred).Some?)
  {
    hide SelectUnlockBox, TrackerSuccessor, DupSuccessor, Confirms, Built, Deployment;
    var amounts: seq<nat> := NaturalAmounts(batch.plan);
    var total := JsNumber.AccumulatePayouts(amounts);
    EachWithinTotal(Amounts(batch.plan));
    if total == None {
      return None;
    }
    var unlock := SelectUnlockBox(offered, total.value + JsNumber.MINER_FEE, preferred);
    if unlock == None {
      return None;
    }
    var boxes := Boxes(tracker, dup, unlock.value);
    r := BuildBatchTx(d, batch, boxes, JsNumber.MINER_FEE, heightRegister);
    AssembledBuilds(d, batch, boxes, offered, preferred, total.value, heightRegister);
    ConfirmsIfBuilt(d, batch, boxes, heightRegister);
  }

  function NaturalAmounts(p: BatchPlan.Plan): (r: seq<nat>)
    requires forall i :: 0 <= i < |p.claims| ==> p.claims[i].amount > 0
    ensures r == Amounts(p)
  {
    seq(|p.claims|, i requires 0 <= i < |p.claims| => p.claims[i].amount)
  }

  lemma AssembledBuilds(
    d: Deployed, batch: Batch, boxes: Boxes, offered: seq<BoxLike>, preferred: Option<Bytes>, total: nat,
    heightRegister: Bytes)
    requires forall i :: 0 <= i < |batch.plan.claims| ==> 0 < batch.plan.claims[i].amount <= MAX_SAFE_INTEGER
    requires total == Sum(Amounts(batch.plan)) && total + JsNumber.MINER_FEE <= MAX_SAFE_INTEGER
    requires SelectUnlockBox(offered, total + JsNumber.MINER_FEE, preferred) == Some(boxes.unlock)
    ensures Assemblable(d, batch, boxes.tracker, boxes.dup, heightRegister) ==>
      Built(d, batch, boxes, JsNumber.MINER_FEE, heightRegister).Some?
  {
    hide SelectUnlockBox, TrackerSuccessor, DupSuccessor;
    SelectionReadable(offered, total + JsNumber.MINER_FEE, preferred);
    SelectionIsBestFit(offered, total + JsNumber.MINER_FEE, preferred);
  }

  lemma ConfirmsIfBuilt(d: Deployed, batch: Batch, boxes: Boxes, heightRegister: Bytes)
    ensures Built(d, batch, boxes, JsNumber.MINER_FEE, heightRegister).Some?
            && Deployment(d, boxes.tracker, boxes.dup) ==>
      Confirms(d, Built(d, batch, boxes, JsNumber.MINER_FEE, heightRegister).value.outputs,
               ExpectedOf(batch.plan.claims))
  {
    hide Confirms, Built;
    if Built(d, batch, boxes, JsNumber.MINER_FEE, heightRegister).Some?
       && Deployment(d, boxes.tracker, boxes.dup) {
      BuiltConfirms(d, batch, boxes, JsNumber.MINER_FEE, heightRegister);
    }
  }
}
