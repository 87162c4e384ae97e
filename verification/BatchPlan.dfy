/**
  Batch settlement plans: claims packed into 109-byte cores, and the context variables of the
  duplicate-prevention and unlock inputs.
 */
module BatchPlan {
  import opened Prelude
  import Codec

  // ----- Claim cores -----

  const CORE_BYTES: nat := 109
  const AMOUNT_OFFSET: nat := 64
  const RECIPIENT_OFFSET: nat := 72
  const SELECTOR_OFFSET: nat := 108

  datatype ClaimCore = ClaimCore(trackerKey: Bytes, burnId: Bytes, amount: int, recipientTree: Bytes, selector: int)

  predicate Packable(c: ClaimCore) {
    && |c.trackerKey| == 32
    && |c.burnId| == 32
    && |c.recipientTree| == 36
    && 0 < c.amount <= ERGO_LONG_MAX
    && (c.selector == 0 || c.selector == 1)
  }

  /** k bytes, most significant first. */
  function BigEndian(n: nat, k: nat): (r: Bytes)
    ensures |r| == k
  {
    if k == 0 then [] else BigEndian(n / 256, k - 1) + [n % 256]
  }

  function BigEndianValue(b: Bytes): nat {
    if b == [] then 0 else BigEndianValue(b[..|b| - 1]) * 256 + b[|b| - 1]
  }

  function Power256(k: nat): nat {
    if k == 0 then 1 else 256 * Power256(k - 1)
  }

  lemma {:induction false} BigEndianReads(n: nat, k: nat)
    requires n < Power256(k)
    ensures BigEndianValue(BigEndian(n, k)) == n
  {
    if k > 0 {
      BigEndianReads(n / 256, k - 1);
      assert BigEndian(n, k)[..k - 1] == BigEndian(n / 256, k - 1);
    }
  }

  lemma LongFits(n: nat)
    requires n <= ERGO_LONG_MAX
    ensures n < Power256(8)
  {
    assert Power256(2) == 65536;
    assert Power256(4) == 4294967296;
    assert Power256(6) == 281474976710656;
  }

  function Packed(c: ClaimCore): (r: Bytes)
    requires Packable(c)
    ensures |r| == CORE_BYTES
  {
    c.trackerKey + c.burnId + BigEndian(c.amount, 8) + c.recipientTree + [c.selector]
  }

  function Unpacked(b: Bytes): ClaimCore
    requires |b| == CORE_BYTES
  {
    ClaimCore(b[..32], b[32..AMOUNT_OFFSET], BigEndianValue(b[AMOUNT_OFFSET..RECIPIENT_OFFSET]),
              b[RECIPIENT_OFFSET..SELECTOR_OFFSET], b[SELECTOR_OFFSET])
  }

  /** packClaimCore: the fields are copied into place in a fixed buffer. */
  method PackClaimCore(c: ClaimCore) returns (r: Option<Bytes>)
    ensures r.Some? <==> Packable(c)
    ensures r.Some? ==> r.value == Packed(c)
  {
    if !Packable(c) {
      return None;
    }
    var buffer := new Byte[CORE_BYTES](_ => 0);
    CopyInto(buffer, 0, c.trackerKey);
    CopyInto(buffer, 32, c.burnId);
    var amount := BigEndian(c.amount, 8);
    CopyInto(buffer, AMOUNT_OFFSET, amount);
    CopyInto(buffer, RECIPIENT_OFFSET, c.recipientTree);
    buffer[SELECTOR_OFFSET] := c.selector;
    assert buffer[..32] == c.trackerKey;
    assert buffer[32..64] == c.burnId;
    assert buffer[64..72] == amount;
    assert buffer[72..108] == c.recipientTree;
    assert buffer[..] == buffer[..32] + buffer[32..64] + buffer[64..72] + buffer[72..108] + [buffer[108]];
    return Some(buffer[..]);
  }

  /** Buffer.copy */
  method CopyInto(buffer: array<Byte>, offset: nat, data: Bytes)
    requires offset + |data| <= buffer.Length
    modifies buffer
    ensures buffer[offset..offset + |data|] == data
    ensures forall i :: 0 <= i < buffer.Length && !(offset <= i < offset + |data|) ==> buffer[i] == old(buffer[i])
  {
    for i := 0 to |data|
      invariant forall j :: 0 <= j < i ==> buffer[offset + j] == data[j]
      invariant forall j :: 0 <= j < buffer.Length && !(offset <= j < offset + i) ==> buffer[j] == old(buffer[j])
    {
      buffer[offset + i] := data[i];
    }
  }

  /** Unpacking gives back the claim. */
  lemma PackRoundTrip(c: ClaimCore)
    requires Packable(c)
    ensures Unpacked(Packed(c)) == c
  {
    var b := Packed(c);
    LongFits(c.amount);
    BigEndianReads(c.amount, 8);
    assert b[..32] == c.trackerKey;
    assert b[32..64] == c.burnId;
    assert b[64..72] == BigEndian(c.amount, 8);
    assert b[72..108] == c.recipientTree;
  }

  lemma PackInjective(c: ClaimCore, d: ClaimCore)
    requires Packable(c) && Packable(d) && Packed(c) == Packed(d)
    ensures c == d
  {
    PackRoundTrip(c);
    PackRoundTrip(d);
  }

  /** The checks buildBatchUnlockExtension repeats on a core. */
  predicate CoreAccepted(b: Bytes) {
    && |b| == CORE_BYTES
    && 0 < BigEndianValue(b[AMOUNT_OFFSET..RECIPIENT_OFFSET]) <= ERGO_LONG_MAX
    && (b[SELECTOR_OFFSET] == 0 || b[SELECTOR_OFFSET] == 1)
  }

  lemma {:induction false} BigEndianWrites(b: Bytes)
    ensures BigEndian(BigEndianValue(b), |b|) == b
  {
    if b != [] {
      BigEndianWrites(b[..|b| - 1]);
      assert b == b[..|b| - 1] + [b[|b| - 1]];
    }
  }

  /** The re-validation accepts exactly the packed claims. */
  lemma AcceptedIsPacked(b: Bytes)
    ensures CoreAccepted(b) <==> exists c :: Packable(c) && Packed(c) == b
  {
    hide BigEndianValue, BigEndian;
    if CoreAccepted(b) {
      var c := Unpacked(b);
      BigEndianWrites(b[AMOUNT_OFFSET..RECIPIENT_OFFSET]);
      assert Packed(c) == b;
    }
    if c :| Packable(c) && Packed(c) == b {
      PackedCoresAccepted(c);
    }
  }

  lemma PackedCoresAccepted(c: ClaimCore)
    requires Packable(c)
    ensures CoreAccepted(Packed(c))
  {
    PackRoundTrip(c);
  }

  // ----- Context extensions -----

  type Extension = map<nat, Bytes>

  /** Sigma Int constant. */
  function IntConstant(n: nat): Bytes {
    [0x04] + Codec.Vlq(Codec.ZigZag(n))
  }

  /** The number an Int constant stands for. */
  function ReadInt(b: Bytes): Option<int> {
    if b == [] || b[0] != 0x04 || Codec.VlqLength(b[1..]) != |b| - 1 then None
    else Some(Codec.UnZigZag(Codec.VlqValue(b[1..])))
  }

  lemma IntReads(n: nat)
    ensures ReadInt(IntConstant(n)) == Some(n)
  {
    Codec.VlqRoundTrip(Codec.ZigZag(n), []);
    assert Codec.Vlq(Codec.ZigZag(n)) + [] == Codec.Vlq(Codec.ZigZag(n)) == IntConstant(n)[1..];
  }

  /** Consecutive variables from base on. */
  predicate InRange(v: nat, base: nat, n: nat) {
    base <= v < base + n
  }

  /** Var layout of the batch DUP input: 0 count, 1 insert proof, 2.. keys, 22.. lookup proofs.
      None: the variable is not set. */
  function DupVar(keys: seq<Bytes>, lookups: seq<Bytes>, insert: Bytes, n: nat, v: nat): Option<Bytes>
    requires n <= |keys| == |lookups|
  {
    if v == 0 then Some(IntConstant(|keys|))
    else if v == 1 then Some(Codec.EncodeColl(insert))
    else if InRange(v, 2, n) then Some(Codec.EncodeColl(keys[v - 2]))
    else if InRange(v, 22, n) then Some(Codec.EncodeColl(lookups[v - 22]))
    else None
  }

  function Var(e: Extension, v: nat): Option<Bytes> {
    if v in e then Some(e[v]) else None
  }

  ghost predicate DupLayout(e: Extension, keys: seq<Bytes>, lookups: seq<Bytes>, insert: Bytes, n: nat)
    requires n <= |keys| == |lookups|
  {
    forall v :: Var(e, v) == DupVar(keys, lookups, insert, n, v)
  }

  /** Up to 20 keys the variables of one claim overwrite none of another. */
  lemma DupLayoutGrows(e: Extension, keys: seq<Bytes>, lookups: seq<Bytes>, insert: Bytes, i: nat)
    requires i < |keys| == |lookups| <= 20 && DupLayout(e, keys, lookups, insert, i)
    ensures DupLayout(e[2 + i := Codec.EncodeColl(keys[i])][22 + i := Codec.EncodeColl(lookups[i])],
                      keys, lookups, insert, i + 1)
  {
    hide Codec.EncodeColl, IntConstant;
    var f := e[2 + i := Codec.EncodeColl(keys[i])][22 + i := Codec.EncodeColl(lookups[i])];
    forall v: nat
      ensures Var(f, v) == DupVar(keys, lookups, insert, i + 1, v)
    {
      assert Var(e, v) == DupVar(keys, lookups, insert, i, v);
    }
  }

  /** buildBatchDupExtension */
  method BuildDupExtension(keys: seq<Bytes>, lookups: seq<Bytes>, insert: Bytes) returns (r: Option<Extension>)
    ensures r.Some? <==> 1 <= |keys| <= 20 && |lookups| == |keys| && Distinct(keys)
    ensures r.Some? ==> DupLayout(r.value, keys, lookups, insert, |keys|)
  {
    hide Codec.EncodeColl, IntConstant;
    var n := |keys|;
    if n < 1 || n > 20 || |lookups| != n {
      return None;
    }
    var seen: set<Bytes> := {};
    for i := 0 to n
      invariant seen == set j | 0 <= j < i :: keys[j]
      invariant forall j, k :: 0 <= j < k < i ==> keys[j] != keys[k]
    {
      if keys[i] in seen {
        return None;
      }
      seen := seen + {keys[i]};
    }
    var e: Extension := map[0 := IntConstant(n), 1 := Codec.EncodeColl(insert)];
    for i := 0 to n
      invariant DupLayout(e, keys, lookups, insert, i)
    {
      DupLayoutGrows(e, keys, lookups, insert, i);
      e := e[2 + i := Codec.EncodeColl(keys[i])];
      e := e[22 + i := Codec.EncodeColl(lookups[i])];
    }
    return Some(e);
  }

  /** Var layout of the batch unlock input: 0 count, 1 insert proof, 2.. claim cores, 12.. tracker
      proofs, 22.. lookup proofs. */
  function UnlockVar(
    cores: seq<Bytes>, trackerProofs: seq<Bytes>, lookups: seq<Bytes>, insert: Bytes, n: nat, v: nat): Option<Bytes>
    requires n <= |cores| == |trackerProofs| == |lookups|
  {
    if v == 0 then Some(IntConstant(|cores|))
    else if v == 1 then Some(Codec.EncodeColl(insert))
    else if InRange(v, 2, n) then Some(Codec.EncodeColl(cores[v - 2]))
    else if InRange(v, 12, n) then Some(Codec.EncodeColl(trackerProofs[v - 12]))
    else if InRange(v, 22, n) then Some(Codec.EncodeColl(lookups[v - 22]))
    else None
  }

  ghost predicate UnlockLayout(
    e: Extension, cores: seq<Bytes>, trackerProofs: seq<Bytes>, lookups: seq<Bytes>, insert: Bytes, n: nat)
    requires n <= |cores| == |trackerProofs| == |lookups|
  {
    forall v :: Var(e, v) == UnlockVar(cores, trackerProofs, lookups, insert, n, v)
  }

  /** Up to 10 claims the variables of one claim overwrite none of another. */
  lemma UnlockLayoutGrows(
    e: Extension, cores: seq<Bytes>, trackerProofs: seq<Bytes>, lookups: seq<Bytes>, insert: Bytes, i: nat)
    requires i < |cores| == |trackerProofs| == |lookups| <= 10
    requires UnlockLayout(e, cores, trackerProofs, lookups, insert, i)
    ensures UnlockLayout(
              e[2 + i := Codec.EncodeColl(cores[i])][12 + i := Codec.EncodeColl(trackerProofs[i])]
               [22 + i := Codec.EncodeColl(lookups[i])],
              cores, trackerProofs, lookups, insert, i + 1)
  {
    hide Codec.EncodeColl, IntConstant;
    var f := e[2 + i := Codec.EncodeColl(cores[i])][12 + i := Codec.EncodeColl(trackerProofs[i])]
              [22 + i := Codec.EncodeColl(lookups[i])];
    forall v: nat
      ensures Var(f, v) == UnlockVar(cores, trackerProofs, lookups, insert, i + 1, v)
    {
      assert Var(e, v) == UnlockVar(cores, trackerProofs, lookups, insert, i, v);
    }
  }

  /** buildBatchUnlockExtension */
  method BuildUnlockExtension(cores: seq<Bytes>, trackerProofs: seq<Bytes>, lookups: seq<Bytes>, insert: Bytes)
    returns (r: Option<Extension>)
    ensures r.Some? <==> 1 <= |cores| <= 10 && |trackerProofs| == |cores| == |lookups|
                         && forall i :: 0 <= i < |cores| ==> CoreAccepted(cores[i])
    ensures r.Some? ==> UnlockLayout(r.value, cores, trackerProofs, lookups, insert, |cores|)
  {
    hide Codec.EncodeColl, IntConstant, CoreAccepted;
    var n := |cores|;
    if n < 1 || n > 10 || |trackerProofs| != n || |lookups| != n {
      return None;
    }
    for i := 0 to n
      invariant forall j :: 0 <= j < i ==> CoreAccepted(cores[j])
    {
      if !CoreAccepted(cores[i]) {
        return None;
      }
    }
    var e: Extension := map[0 := IntConstant(n), 1 := Codec.EncodeColl(insert)];
    for i := 0 to n
      invariant UnlockLayout(e, cores, trackerProofs, lookups, insert, i)
    {
      UnlockLayoutGrows(e, cores, trackerProofs, lookups, insert, i);
      e := e[2 + i := Codec.EncodeColl(cores[i])];
      e := e[12 + i := Codec.EncodeColl(trackerProofs[i])];
      e := e[22 + i := Codec.EncodeColl(lookups[i])];
    }
    return Some(e);
  }

  // ----- The plan -----

  /** A claim with its duplicate-prevention key, amount and recipient. */
  datatype Claim = Claim(trackerKey: Bytes, burnId: Bytes, amount: int, recipientTree: Bytes)

  /** Lookup proof of each key, and one proof of their insertion. */
  datatype BatchProofs = BatchProofs(lookups: seq<Bytes>, insert: Bytes, newDigest: Bytes)

  /** The trees the plan is made against: tracker keys before and after the ingest, membership
      proofs in either tree, and the DUP insertion. */
  datatype Trees = Trees(
    inputTrackerKeys: set<Bytes>, outputTrackerKeys: set<Bytes>, trackerProof: (bool, Bytes) -> Bytes,
    insert: (seq<Bytes>, seq<Bytes>) -> Option<BatchProofs>)

  /** One lookup proof for each inserted key. */
  ghost predicate Lawful(t: Trees) {
    forall history, keys :: t.insert(history, keys).Some? ==> |t.insert(history, keys).value.lookups| == |keys|
  }

  datatype Plan = Plan(
    claims: seq<Claim>, cores: seq<Bytes>, proofs: BatchProofs, dupExtension: Extension, unlockExtension: Extension)

  /** A claim is proved in the tracker tree after the ingest only if it is not in the one before. */
  function Selector(t: Trees, key: Bytes): int {
    if key in t.inputTrackerKeys then 0 else 1
  }

  function CoreOf(t: Trees, c: Claim): ClaimCore {
    ClaimCore(c.trackerKey, c.burnId, c.amount, c.recipientTree, Selector(t, c.trackerKey))
  }

  function Keys(claims: seq<Claim>): (r: seq<Bytes>)
    ensures |r| == |claims| && forall i :: 0 <= i < |r| ==> r[i] == claims[i].burnId
  {
    seq(|claims|, i requires 0 <= i < |claims| => claims[i].burnId)
  }

  function TrackerProofs(t: Trees, claims: seq<Claim>): (r: seq<Bytes>)
    ensures |r| == |claims|
    ensures forall i :: 0 <= i < |r| ==>
      r[i] == t.trackerProof(Selector(t, claims[i].trackerKey) == 1, claims[i].trackerKey)
  {
    seq(|claims|, i requires 0 <= i < |claims| =>
      t.trackerProof(Selector(t, claims[i].trackerKey) == 1, claims[i].trackerKey))
  }

  predicate TrackerKnown(t: Trees, key: Bytes) {
    key in t.inputTrackerKeys || key in t.outputTrackerKeys
  }

  /** What the plan asks of its claims. */
  predicate Plannable(t: Trees, history: seq<Bytes>, claims: seq<Claim>) {
    && 2 <= |claims| <= 10
    && (forall i :: 0 <= i < |claims| ==> ClaimFits(t, claims[i]))
    && (forall i, j :: 0 <= i < j < |claims| ==> claims[i].burnId != claims[j].burnId)
    && t.insert(history, Keys(claims)).Some?
  }

  predicate ClaimFits(t: Trees, c: Claim) {
    && |c.trackerKey| == 32 && |c.burnId| == 32 && |c.recipientTree| == 36
    && 0 < c.amount <= ERGO_LONG_MAX
    && (c.trackerKey in t.inputTrackerKeys || c.trackerKey in t.outputTrackerKeys)
  }

  lemma FitsIff(t: Trees, c: Claim)
    ensures ClaimFits(t, c) <==> Packable(CoreOf(t, c)) && TrackerKnown(t, c.trackerKey)
  {
  }

  /** The cores of a list of claims. */
  method PackCores(t: Trees, claims: seq<Claim>) returns (r: Option<seq<Bytes>>)
    ensures r.Some? <==> forall i :: 0 <= i < |claims| ==> Packable(CoreOf(t, claims[i]))
    ensures r.Some? ==> |r.value| == |claims|
                        && forall i :: 0 <= i < |claims| ==> r.value[i] == Packed(CoreOf(t, claims[i]))
  {
    hide Packed, Packable, CoreOf;
    var cores: seq<Bytes> := [];
    for i := 0 to |claims|
      invariant |cores| == i
      invariant forall j :: 0 <= j < i ==> Packable(CoreOf(t, claims[j])) && cores[j] == Packed(CoreOf(t, claims[j]))
    {
      var core := PackClaimCore(CoreOf(t, claims[i]));
      if core == None {
        return None;
      }
      cores := cores + [core.value];
    }
    return Some(cores);
  }

  /** The plan ties its parts together: for every claim, the burn id packed in the core at Var(2+i)
      of the unlock input is the key at Var(2+i) of the DUP input, both carry the same lookup
      proof at Var(22+i) and the same insertion proof, and the core says whether the proof at
      Var(12+i) is for the tracker tree after the ingest, which it is exactly for keys that are
      not in the one before. */
  ghost predicate Coherent(t: Trees, p: Plan) {
    && |p.cores| == |p.claims| == |p.proofs.lookups|
    && (forall i: nat :: i < |p.claims| ==> CoherentAt(t, p, i))
    && Var(p.dupExtension, 1) == Var(p.unlockExtension, 1) == Some(Codec.EncodeColl(p.proofs.insert))
    && Var(p.dupExtension, 0) == Var(p.unlockExtension, 0)
    && Var(p.dupExtension, 0).Some? && ReadInt(Var(p.dupExtension, 0).value) == Some(|p.claims|)
  }

  ghost predicate CoherentAt(t: Trees, p: Plan, i: nat)
    requires i < |p.claims| == |p.cores| == |p.proofs.lookups|
  {
    var c := p.claims[i];
    && Var(p.unlockExtension, 2 + i) == Some(Codec.EncodeColl(p.cores[i]))
    && |p.cores[i]| == CORE_BYTES
    && Unpacked(p.cores[i])
       == ClaimCore(c.trackerKey, c.burnId, c.amount, c.recipientTree, if c.trackerKey in t.inputTrackerKeys then 0 else 1)
    && Var(p.dupExtension, 2 + i) == Some(Codec.EncodeColl(Unpacked(p.cores[i]).burnId))
    && Var(p.dupExtension, 22 + i) == Var(p.unlockExtension, 22 + i) == Some(Codec.EncodeColl(p.proofs.lookups[i]))
    && Var(p.unlockExtension, 12 + i)
       == Some(Codec.EncodeColl(t.trackerProof(c.trackerKey !in t.inputTrackerKeys, c.trackerKey)))
  }

  /** buildBatchSettlementPlan; the checks of buildAggregateSettlementPlan come first. */
  method BuildPlan(t: Trees, history: seq<Bytes>, claims: seq<Claim>) returns (r: Option<Plan>)
    requires Lawful(t)
    ensures r.Some? <==> Plannable(t, history, claims)
    ensures r.Some? ==> r.value.claims == claims && t.insert(history, Keys(claims)) == Some(r.value.proofs)
    ensures r.Some? ==> Coherent(t, r.value)
  {
    hide Packable, Packed, Unpacked, CoreOf, Coherent, DupLayout, UnlockLayout, CoreAccepted, ClaimFits, TrackerKnown;
    forall i | 0 <= i < |claims|
      ensures ClaimFits(t, claims[i]) <==> Packable(CoreOf(t, claims[i])) && TrackerKnown(t, claims[i].trackerKey)
    {
      FitsIff(t, claims[i]);
    }
    if |claims| < 2 || |claims| > 10 {
      return None;
    }
    if exists i :: 0 <= i < |claims| && !TrackerKnown(t, claims[i].trackerKey) {
      return None;
    }
    var keys := Keys(claims);
    if !Distinct(keys) {
      return None;
    }
    var proofs := t.insert(history, keys);
    if proofs == None {
      return None;
    }
    var cores := PackCores(t, claims);
    if cores == None {
      return None;
    }
    var dup := BuildDupExtension(keys, proofs.value.lookups, proofs.value.insert);
    AllAccepted(t, claims, cores.value);
    var unlock := BuildUnlockExtension(cores.value, TrackerProofs(t, claims), proofs.value.lookups, proofs.value.insert);
    r := Some(Plan(claims, cores.value, proofs.value, dup.value, unlock.value));
    PlanCoherent(t, r.value);
  }

  /** Packed cores always pass re-validation. */
  lemma AllAccepted(t: Trees, claims: seq<Claim>, cores: seq<Bytes>)
    requires |cores| == |claims|
    requires forall i :: 0 <= i < |claims| ==> Packable(CoreOf(t, claims[i])) && cores[i] == Packed(CoreOf(t, claims[i]))
    ensures forall i :: 0 <= i < |cores| ==> CoreAccepted(cores[i])
  {
    hide Packable, Packed, CoreOf, CoreAccepted;
    forall i | 0 <= i < |cores|
      ensures CoreAccepted(cores[i])
    {
      PackedCoresAccepted(CoreOf(t, claims[i]));
    }
  }

  lemma PlanCoherent(t: Trees, p: Plan)
    requires |p.claims| == |p.cores| == |p.proofs.lookups| <= 10
    requires forall i :: 0 <= i < |p.claims| ==>
      Packable(CoreOf(t, p.claims[i])) && p.cores[i] == Packed(CoreOf(t, p.claims[i]))
    requires DupLayout(p.dupExtension, Keys(p.claims), p.proofs.lookups, p.proofs.insert, |p.claims|)
    requires UnlockLayout(p.unlockExtension, p.cores, TrackerProofs(t, p.claims), p.proofs.lookups, p.proofs.insert,
                          |p.claims|)
    ensures Coherent(t, p)
  {
    hide Packable, Packed, Unpacked, Codec.EncodeColl, IntConstant, ReadInt, Var, CoherentAt;
    IntReads(|p.claims|);
    forall i: nat | i < |p.claims|
      ensures CoherentAt(t, p, i)
    {
      PlanCoherentAt(t, p, i);
    }
    assert Var(p.dupExtension, 0) == DupVar(Keys(p.claims), p.proofs.lookups, p.proofs.insert, |p.claims|, 0);
  }

  lemma PlanCoherentAt(t: Trees, p: Plan, i: nat)
    requires i < |p.claims| == |p.cores| == |p.proofs.lookups| <= 10
    requires Packable(CoreOf(t, p.claims[i])) && p.cores[i] == Packed(CoreOf(t, p.claims[i]))
    requires DupLayout(p.dupExtension, Keys(p.claims), p.proofs.lookups, p.proofs.insert, |p.claims|)
    requires UnlockLayout(p.unlockExtension, p.cores, TrackerProofs(t, p.claims), p.proofs.lookups, p.proofs.insert,
                          |p.claims|)
    ensures CoherentAt(t, p, i)
  {
    hide Packable, Packed, Unpacked, Codec.EncodeColl, IntConstant, Var;
    PackRoundTrip(CoreOf(t, p.claims[i]));
    assert Var(p.dupExtension, 2 + i)
           == DupVar(Keys(p.claims), p.proofs.lookups, p.proofs.insert, |p.claims|, 2 + i);
    assert Var(p.dupExtension, 22 + i)
           == DupVar(Keys(p.claims), p.proofs.lookups, p.proofs.insert, |p.claims|, 22 + i);
    var proofs := TrackerProofs(t, p.claims);
    assert Var(p.unlockExtension, 2 + i)
           == UnlockVar(p.cores, proofs, p.proofs.lookups, p.proofs.insert, |p.claims|, 2 + i);
    assert Var(p.unlockExtension, 12 + i)
           == UnlockVar(p.cores, proofs, p.proofs.lookups, p.proofs.insert, |p.claims|, 12 + i);
    assert Var(p.unlockExtension, 22 + i)
           == UnlockVar(p.cores, proofs, p.proofs.lookups, p.proofs.insert, |p.claims|, 22 + i);
  }
}
