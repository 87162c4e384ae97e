/**
  Ordering of a singleton's boxes: an index lists, in any order, the boxes that ever held
  the singleton NFT, and the relayer recovers the one chain from the genesis box to the
  unspent tip. Two reconstructions carry their own copy of the algorithm; the tracker's
  copy has one more check.
 */
module Lineage {
  import opened Prelude

  /** What ordering looks at: identity, creating transaction, spending transaction. */
  datatype Box<P> = Box(boxId: Bytes, txId: Bytes, spentBy: Option<Bytes>, payload: P)

  datatype Error =
    | DuplicateBox
    | MultipleOutputs
    | TipCount(tips: nat)
    | MissingSuccessor
    | RootCount(roots: nat)
    | Disconnected

  datatype Outcome<P> = Ordered(chain: seq<Box<P>>) | Rejected(error: Error)

  // ----- What a lineage is -----

  ghost predicate DistinctIds<P>(s: seq<Box<P>>) {
    forall i, j :: 0 <= i < j < |s| ==> s[i].boxId != s[j].boxId
  }

  ghost predicate DistinctTxs<P>(s: seq<Box<P>>) {
    forall i, j :: 0 <= i < j < |s| ==> s[i].txId != s[j].txId
  }

  ghost predicate Linked<P>(s: seq<Box<P>>) {
    forall i :: 0 <= i < |s| - 1 ==> s[i].spentBy == Some(s[i + 1].txId)
  }

  /** One chain from root to tip: every spend creates the next box, the last is unspent. */
  ghost predicate IsChain<P>(s: seq<Box<P>>) {
    && s != []
    && DistinctIds(s)
    && DistinctTxs(s)
    && Linked(s)
    && s[|s| - 1].spentBy == None
  }

  ghost predicate IsLineageOf<P>(chain: seq<Box<P>>, boxes: seq<Box<P>>) {
    IsChain(chain) && multiset(chain) == multiset(boxes)
  }

  /** A ring of spends inside the listing. */
  ghost predicate IsCycleIn<P>(ring: seq<Box<P>>, boxes: seq<Box<P>>) {
    && ring != []
    && (forall b :: b in ring ==> b in boxes)
    && Linked(ring)
    && ring[|ring| - 1].spentBy == Some(ring[0].txId)
  }

  // ----- The checks, in the order they are made -----

  /** Outcome of the first loop: the kind of the first repetition met. */
  function FirstDuplicate<P(==)>(boxes: seq<Box<P>>, k: nat): Option<Error>
    requires k <= |boxes|
    decreases |boxes| - k
  {
    if k == |boxes| then None
    else if exists j :: 0 <= j < k && boxes[j].boxId == boxes[k].boxId then Some(DuplicateBox)
    else if exists j :: 0 <= j < k && boxes[j].txId == boxes[k].txId then Some(MultipleOutputs)
    else FirstDuplicate(boxes, k + 1)
  }

  function Tips<P>(boxes: seq<Box<P>>): seq<Box<P>> {
    if boxes == [] then []
    else Tips(boxes[..|boxes| - 1]) + (if boxes[|boxes| - 1].spentBy.None? then [boxes[|boxes| - 1]] else [])
  }

  predicate Creates<P>(boxes: seq<Box<P>>, tx: Bytes) {
    exists j :: 0 <= j < |boxes| && boxes[j].txId == tx
  }

  predicate SuccessorsExist<P>(boxes: seq<Box<P>>) {
    forall i :: 0 <= i < |boxes| && boxes[i].spentBy.Some? ==> Creates(boxes, boxes[i].spentBy.value)
  }

  /** How many boxes of the listing were spent by the transaction. */
  function Spenders<P>(boxes: seq<Box<P>>, tx: Bytes): nat {
    if boxes == [] then 0
    else Spenders(boxes[..|boxes| - 1], tx) + (if boxes[|boxes| - 1].spentBy == Some(tx) then 1 else 0)
  }

  /** The boxes of a listing whose creating transaction spent none of `all`. */
  function RootsOf<P>(boxes: seq<Box<P>>, all: seq<Box<P>>): seq<Box<P>> {
    if boxes == [] then []
    else
      var last := boxes[|boxes| - 1];
      RootsOf(boxes[..|boxes| - 1], all) + (if Spenders(all, last.txId) == 0 then [last] else [])
  }

  ghost predicate ChecksPass<P>(boxes: seq<Box<P>>) {
    && FirstDuplicate(boxes, 0).None?
    && |Tips(boxes)| == 1
    && SuccessorsExist(boxes)
    && |RootsOf(boxes, boxes)| == 1
  }

  /** The outcome, stated without the walk: a listing that passes the local checks is
      accepted exactly when it is a permutation of a chain. */
  ghost function LineageOutcome<P(!new)>(boxes: seq<Box<P>>): Outcome<P> {
    if FirstDuplicate(boxes, 0).Some? then Rejected(FirstDuplicate(boxes, 0).value)
    else if |Tips(boxes)| != 1 then Rejected(TipCount(|Tips(boxes)|))
    else if !SuccessorsExist(boxes) then Rejected(MissingSuccessor)
    else if |RootsOf(boxes, boxes)| != 1 then Rejected(RootCount(|RootsOf(boxes, boxes)|))
    else if exists chain :: IsLineageOf(chain, boxes) then
      var chain :| IsLineageOf(chain, boxes);
      Ordered(chain)
    else Rejected(Disconnected)
  }

  // ----- Facts about the checks -----

  lemma {:induction false} FirstDuplicateNone<P>(boxes: seq<Box<P>>, k: nat)
    requires k <= |boxes|
    requires DistinctIds(boxes[..k]) && DistinctTxs(boxes[..k])
    ensures FirstDuplicate(boxes, k).None? <==> DistinctIds(boxes) && DistinctTxs(boxes)
    decreases |boxes| - k
  {
    if k == |boxes| {
      assert boxes[..k] == boxes;
    } else if !(exists j :: 0 <= j < k && boxes[j].boxId == boxes[k].boxId)
              && !(exists j :: 0 <= j < k && boxes[j].txId == boxes[k].txId) {
      var prefix := boxes[..k + 1];
      forall i, j | 0 <= i < j < |prefix|
        ensures prefix[i].boxId != prefix[j].boxId && prefix[i].txId != prefix[j].txId
      {
        if j < k {
          assert boxes[..k][i] == prefix[i] && boxes[..k][j] == prefix[j];
        }
      }
      FirstDuplicateNone(boxes, k + 1);
    }
  }

  lemma {:induction false} TipsAre<P>(boxes: seq<Box<P>>)
    ensures forall b :: b in Tips(boxes) ==> b in boxes && b.spentBy.None?
    ensures forall b :: b in boxes && b.spentBy.None? ==> b in Tips(boxes)
    ensures |Tips(boxes)| <= |boxes|
  {
    if boxes != [] {
      var front, last := boxes[..|boxes| - 1], boxes[|boxes| - 1];
      TipsAre(front);
      assert boxes == front + [last];
    }
  }

  lemma {:induction false} RootsAre<P>(boxes: seq<Box<P>>, all: seq<Box<P>>)
    ensures forall b :: b in RootsOf(boxes, all) ==> b in boxes && Spenders(all, b.txId) == 0
    ensures forall b :: b in boxes && Spenders(all, b.txId) == 0 ==> b in RootsOf(boxes, all)
  {
    if boxes != [] {
      var front, last := boxes[..|boxes| - 1], boxes[|boxes| - 1];
      RootsAre(front, all);
      assert boxes == front + [last];
    }
  }

  lemma {:induction false} SpendersPositive<P>(boxes: seq<Box<P>>, tx: Bytes)
    ensures Spenders(boxes, tx) > 0 <==> exists i :: 0 <= i < |boxes| && boxes[i].spentBy == Some(tx)
  {
    if boxes != [] {
      var front, last := boxes[..|boxes| - 1], |boxes| - 1;
      SpendersPositive(front, tx);
      if boxes[last].spentBy != Some(tx) && Spenders(boxes, tx) > 0 {
        var i :| 0 <= i < |front| && front[i].spentBy == Some(tx);
        assert boxes[i].spentBy == Some(tx);
      }
      if i :| 0 <= i < |boxes| && boxes[i].spentBy == Some(tx) && boxes[last].spentBy != Some(tx) {
        assert front[i].spentBy == Some(tx);
      }
    }
  }

  lemma {:induction false} SpendersAtMostOne<P>(boxes: seq<Box<P>>, tx: Bytes, i: nat, j: nat)
    requires Spenders(boxes, tx) <= 1
    requires i < |boxes| && j < |boxes|
    requires boxes[i].spentBy == Some(tx) && boxes[j].spentBy == Some(tx)
    ensures i == j
  {
    var front, last := boxes[..|boxes| - 1], |boxes| - 1;
    if i < last && j < last {
      assert front[i] == boxes[i] && front[j] == boxes[j];
      SpendersAtMostOne(front, tx, i, j);
    } else if i != j {
      var k := if i < last then i else j;
      assert front[k].spentBy == Some(tx);
      SpendersPositive(front, tx);
    }
  }

  // ----- Counting edges -----

  /** Number of spends of `all` whose successor is one of `boxes`. */
  function Edges<P>(boxes: seq<Box<P>>, all: seq<Box<P>>): nat {
    if boxes == [] then 0
    else Edges(boxes[..|boxes| - 1], all) + Spenders(all, boxes[|boxes| - 1].txId)
  }

  lemma {:induction false} EdgesCountSpends<P>(boxes: seq<Box<P>>, all: seq<Box<P>>)
    requires DistinctTxs(boxes)
    requires forall i :: 0 <= i < |all| && all[i].spentBy.Some? ==> Creates(boxes, all[i].spentBy.value)
    ensures Edges(boxes, all) + |Tips(all)| == |all|
    decreases |all|
  {
    if all == [] {
      NoEdges(boxes);
    } else {
      var front, last := all[..|all| - 1], all[|all| - 1];
      forall i | 0 <= i < |front| && front[i].spentBy.Some?
        ensures Creates(boxes, front[i].spentBy.value)
      {
        assert all[i] == front[i];
      }
      EdgesCountSpends(boxes, front);
      AddSpend(boxes, all);
    }
  }

  lemma {:induction false} NoEdges<P>(boxes: seq<Box<P>>)
    ensures Edges(boxes, []) == 0
  {
    if boxes != [] {
      NoEdges(boxes[..|boxes| - 1]);
    }
  }

  /** One more spend adds one edge if its successor is among `boxes`, else none. */
  lemma {:induction false} AddSpend<P>(boxes: seq<Box<P>>, all: seq<Box<P>>)
    requires all != [] && DistinctTxs(boxes)
    ensures var last := all[|all| - 1];
            Edges(boxes, all) == Edges(boxes, all[..|all| - 1]) +
            (if last.spentBy.Some? && Creates(boxes, last.spentBy.value) then 1 else 0)
  {
    if boxes != [] {
      var front, box := boxes[..|boxes| - 1], boxes[|boxes| - 1];
      assert DistinctTxs(front);
      AddSpend(front, all);
      var last := all[|all| - 1];
      if last.spentBy.Some? {
        var tx := last.spentBy.value;
        if tx == box.txId {
          forall j | 0 <= j < |front|
            ensures front[j].txId != tx
          {
            assert front[j] == boxes[j];
          }
          assert boxes[|boxes| - 1].txId == tx;
        } else {
          assert Creates(boxes, tx) <==> Creates(front, tx) by {
            if j :| 0 <= j < |front| && front[j].txId == tx {
              assert boxes[j].txId == tx;
            }
            if j :| 0 <= j < |boxes| && boxes[j].txId == tx {
              assert front[j].txId == tx;
            }
          }
        }
      }
    }
  }

  /** Every box that is not a root absorbs at least one edge; if that uses up all the
      edges, none absorbs two. */
  lemma {:induction false} EdgesFloor<P>(boxes: seq<Box<P>>, all: seq<Box<P>>)
    ensures Edges(boxes, all) >= |boxes| - |RootsOf(boxes, all)|
    ensures Edges(boxes, all) == |boxes| - |RootsOf(boxes, all)| ==>
              forall b :: b in boxes ==> Spenders(all, b.txId) <= 1
  {
    if boxes != [] {
      var front, last := boxes[..|boxes| - 1], boxes[|boxes| - 1];
      EdgesFloor(front, all);
      assert boxes == front + [last];
    }
  }

  /** After the tip, successor and root checks the counts leave no slack: no box has two
      predecessors, so the tracker's extra check and the walk's cycle check cannot fire. */
  lemma AtMostOnePredecessor<P>(boxes: seq<Box<P>>)
    requires ChecksPass(boxes)
    ensures DistinctIds(boxes) && DistinctTxs(boxes)
    ensures forall b :: b in boxes ==> Spenders(boxes, b.txId) <= 1
  {
    FirstDuplicateNone(boxes, 0);
    EdgesCountSpends(boxes, boxes);
    EdgesFloor(boxes, boxes);
  }

  /** Predecessors are unique as boxes. */
  lemma OnePredecessor<P>(boxes: seq<Box<P>>, a: Box<P>, b: Box<P>, tx: Bytes)
    requires Spenders(boxes, tx) <= 1
    requires a in boxes && b in boxes && a.spentBy == Some(tx) && b.spentBy == Some(tx)
    ensures a == b
  {
    var i :| 0 <= i < |boxes| && boxes[i] == a;
    var j :| 0 <= j < |boxes| && boxes[j] == b;
    SpendersAtMostOne(boxes, tx, i, j);
  }

  // ----- Walks -----

  ghost predicate IsWalk<P>(walk: seq<Box<P>>, boxes: seq<Box<P>>) {
    && walk != []
    && (forall b :: b in walk ==> b in boxes)
    && Linked(walk)
    && Distinct(walk)
  }

  lemma DistinctBound<T>(s: seq<T>, all: seq<T>)
    requires Distinct(s) && forall x :: x in s ==> x in all
    ensures |s| <= |all|
    ensures |s| == |all| && Distinct(all) ==> multiset(s) == multiset(all)
  {
    var a, b := set x | x in s, set x | x in all;
    SetOfDistinct(s);
    SetAtMost(all);
    SubsetCardinality(a, b);
    if |s| == |all| && Distinct(all) {
      SetOfDistinct(all);
      EqualCardinality(a, b);
      forall x
        ensures multiset(s)[x] == multiset(all)[x]
      {
        OccursOnce(s, x);
        OccursOnce(all, x);
        assert x in a <==> x in b;
      }
    }
  }

  lemma {:induction false} SetOfDistinct<T>(s: seq<T>)
    requires Distinct(s)
    ensures |set x | x in s| == |s|
  {
    if s != [] {
      var front, last := s[..|s| - 1], s[|s| - 1];
      SetOfDistinct(front);
      assert (set x | x in s) == (set x | x in front) + {last};
      assert last !in front;
    }
  }

  lemma {:induction false} SetAtMost<T>(s: seq<T>)
    ensures |set x | x in s| <= |s|
  {
    if s != [] {
      var front, last := s[..|s| - 1], s[|s| - 1];
      SetAtMost(front);
      assert (set x | x in s) == (set x | x in front) + {last};
    }
  }

  lemma {:induction false} SubsetCardinality<T>(a: set<T>, b: set<T>)
    requires a <= b
    ensures |a| <= |b|
  {
    assert b == a + (b - a);
  }

  lemma EqualCardinality<T>(a: set<T>, b: set<T>)
    requires a <= b && |a| == |b|
    ensures a == b
  {
    assert b == a + (b - a);
    assert |b - a| == 0;
  }

  lemma {:induction false} OccursOnce<T>(s: seq<T>, x: T)
    requires Distinct(s)
    ensures multiset(s)[x] == if x in s then 1 else 0
  {
    if s != [] {
      var front, last := s[..|s| - 1], s[|s| - 1];
      OccursOnce(front, x);
      assert s == front + [last];
    }
  }

  lemma DistinctIdsDistinct<P>(s: seq<Box<P>>)
    requires DistinctIds(s)
    ensures Distinct(s)
  {
  }

  lemma SameId<P>(boxes: seq<Box<P>>, a: Box<P>, b: Box<P>)
    requires DistinctIds(boxes) && a in boxes && b in boxes && a.boxId == b.boxId
    ensures a == b
  {
  }

  lemma SameTx<P>(boxes: seq<Box<P>>, a: Box<P>, b: Box<P>)
    requires DistinctTxs(boxes) && a in boxes && b in boxes && a.txId == b.txId
    ensures a == b
  {
  }

  /** Following the last spend of a walk that started at a box without predecessor never
      comes back to the walk. */
  lemma WalkNeverReturns<P>(walk: seq<Box<P>>, boxes: seq<Box<P>>, next: Box<P>)
    requires ChecksPass(boxes) && IsWalk(walk, boxes) && next in boxes
    requires walk[|walk| - 1].spentBy == Some(next.txId)
    requires next in walk
    ensures next == walk[0] && Spenders(boxes, next.txId) > 0
  {
    AtMostOnePredecessor(boxes);
    var last := walk[|walk| - 1];
    var k :| 0 <= k < |walk| && walk[k] == next;
    if k > 0 {
      assert walk[k - 1].spentBy == Some(next.txId);
      OnePredecessor(boxes, walk[k - 1], last, next.txId);
    }
    var i :| 0 <= i < |boxes| && boxes[i] == last;
    SpendersPositive(boxes, next.txId);
  }

  // ----- Soundness and completeness of the specification -----

  lemma ChainPassesChecks<P>(chain: seq<Box<P>>, boxes: seq<Box<P>>)
    requires IsLineageOf(chain, boxes)
    ensures ChecksPass(boxes)
    ensures chain[0] in RootsOf(boxes, boxes)
  {
    PermutedDistinct(chain, boxes);
    FirstDuplicateNone(boxes, 0);
    ChainTip(chain, boxes);
    ChainSuccessors(chain, boxes);
    ChainRoot(chain, boxes);
  }

  lemma ChainTip<P>(chain: seq<Box<P>>, boxes: seq<Box<P>>)
    requires IsLineageOf(chain, boxes)
    ensures Tips(boxes) == [chain[|chain| - 1]]
  {
    var last := chain[|chain| - 1];
    assert last in chain;
    forall b | b in Tips(boxes)
      ensures b == last
    {
      TipsAre(boxes);
      SameMembers(chain, boxes);
      assert b in boxes;
      UnspentIsLast(chain, b);
    }
    assert last in Tips(boxes) by {
      TipsAre(boxes);
      SameMembers(chain, boxes);
    }
    assert Distinct(Tips(boxes)) by {
      PermutedDistinct(chain, boxes);
      DistinctTips(boxes);
    }
    OnlyMember(Tips(boxes), last);
  }

  lemma UnspentIsLast<P>(chain: seq<Box<P>>, b: Box<P>)
    requires IsChain(chain) && b in chain && b.spentBy.None?
    ensures b == chain[|chain| - 1]
  {
    var k :| 0 <= k < |chain| && chain[k] == b;
    if k < |chain| - 1 {
      SpentInside(chain, k);
    }
  }

  lemma SpentInside<P>(chain: seq<Box<P>>, k: nat)
    requires IsChain(chain) && k < |chain| - 1
    ensures chain[k].spentBy.Some?
  {
    assert chain[k].spentBy == Some(chain[k + 1].txId);
  }

  lemma ChainSuccessors<P>(chain: seq<Box<P>>, boxes: seq<Box<P>>)
    requires IsLineageOf(chain, boxes)
    ensures SuccessorsExist(boxes)
  {
    SameMembers(chain, boxes);
    forall i | 0 <= i < |boxes| && boxes[i].spentBy.Some?
      ensures Creates(boxes, boxes[i].spentBy.value)
    {
      assert boxes[i] in chain;
      var k :| 0 <= k < |chain| && chain[k] == boxes[i];
      assert chain[k + 1] in boxes;
      var j :| 0 <= j < |boxes| && boxes[j] == chain[k + 1];
    }
  }

  lemma ChainRoot<P>(chain: seq<Box<P>>, boxes: seq<Box<P>>)
    requires IsLineageOf(chain, boxes)
    ensures RootsOf(boxes, boxes) == [chain[0]]
  {
    SameMembers(chain, boxes);
    RootsAre(boxes, boxes);
    PermutedDistinct(chain, boxes);
    DistinctRoots(boxes, boxes);
    assert chain[0] in chain;
    forall b | b in boxes
      ensures Spenders(boxes, b.txId) == 0 <==> b == chain[0]
    {
      ChainPredecessor(chain, boxes, b);
    }
    assert chain[0] in boxes;
    forall b | b in RootsOf(boxes, boxes)
      ensures b == chain[0]
    {
      assert b in boxes;
    }
    OnlyMember(RootsOf(boxes, boxes), chain[0]);
  }

  lemma ChainPredecessor<P>(chain: seq<Box<P>>, boxes: seq<Box<P>>, b: Box<P>)
    requires IsLineageOf(chain, boxes) && b in boxes
    ensures Spenders(boxes, b.txId) == 0 <==> b == chain[0]
  {
    SameMembers(chain, boxes);
    SpendersPositive(boxes, b.txId);
    var k :| 0 <= k < |chain| && chain[k] == b;
    if k > 0 {
      assert chain[k - 1] in boxes && chain[k - 1].spentBy == Some(b.txId);
      var i :| 0 <= i < |boxes| && boxes[i] == chain[k - 1];
    } else {
      forall i | 0 <= i < |boxes|
        ensures boxes[i].spentBy != Some(b.txId)
      {
        assert boxes[i] in chain;
        var m :| 0 <= m < |chain| && chain[m] == boxes[i];
        if m < |chain| - 1 {
          assert chain[m].spentBy == Some(chain[m + 1].txId);
        }
      }
    }
  }

  lemma PermutedDistinct<P>(chain: seq<Box<P>>, boxes: seq<Box<P>>)
    requires multiset(chain) == multiset(boxes) && DistinctIds(chain) && DistinctTxs(chain)
    ensures DistinctIds(boxes) && DistinctTxs(boxes) && Distinct(boxes)
  {
    SameMembers(chain, boxes);
    DistinctIdsDistinct(chain);
    forall i, j | 0 <= i < j < |boxes|
      ensures boxes[i].boxId != boxes[j].boxId && boxes[i].txId != boxes[j].txId
    {
      if boxes[i] == boxes[j] {
        OccursOnce(chain, boxes[i]);
        TwiceInMultiset(boxes, i, j);
      }
      assert boxes[i] in chain && boxes[j] in chain;
    }
  }

  lemma TwiceInMultiset<T>(s: seq<T>, i: nat, j: nat)
    requires i < j < |s| && s[i] == s[j]
    ensures multiset(s)[s[i]] >= 2
  {
    assert s == s[..j] + [s[j]] + s[j + 1..];
    assert s[..j][i] == s[i];
    assert s[i] in multiset(s[..j]);
  }

  lemma {:induction false} DistinctTips<P>(boxes: seq<Box<P>>)
    requires Distinct(boxes)
    ensures Distinct(Tips(boxes))
  {
    if boxes != [] {
      DistinctTips(boxes[..|boxes| - 1]);
      TipsAre(boxes[..|boxes| - 1]);
    }
  }

  lemma {:induction false} DistinctRoots<P>(boxes: seq<Box<P>>, all: seq<Box<P>>)
    requires Distinct(boxes)
    ensures Distinct(RootsOf(boxes, all))
  {
    if boxes != [] {
      DistinctRoots(boxes[..|boxes| - 1], all);
      RootsAre(boxes[..|boxes| - 1], all);
    }
  }

  lemma OnlyMember<T>(s: seq<T>, x: T)
    requires Distinct(s) && x in s && forall y :: y in s ==> y == x
    ensures s == [x]
  {
    SetOfDistinct(s);
    assert (set y | y in s) == {x};
    assert s[0] in s;
  }

  /** A listing has at most one lineage. */
  lemma LineageUnique<P>(a: seq<Box<P>>, b: seq<Box<P>>, boxes: seq<Box<P>>)
    requires IsLineageOf(a, boxes) && IsLineageOf(b, boxes)
    ensures a == b
  {
    SameMembers(a, boxes);
    SameMembers(b, boxes);
    ChainPredecessor(a, boxes, a[0]);
    ChainPredecessor(b, boxes, a[0]);
    assert a[0] in boxes && a[0] == b[0];
    PermutedDistinct(a, boxes);
    SamePrefix(a, b, boxes, |a|);
  }

  lemma {:induction false} SamePrefix<P>(a: seq<Box<P>>, b: seq<Box<P>>, boxes: seq<Box<P>>, k: nat)
    requires IsLineageOf(a, boxes) && IsLineageOf(b, boxes)
    requires a[0] == b[0] && 0 < k <= |a| == |b|
    ensures a[..k] == b[..k]
  {
    if k > 1 {
      SamePrefix(a, b, boxes, k - 1);
      assert a[..k - 1][k - 2] == b[..k - 1][k - 2];
      assert a[k - 2] == b[k - 2];
      SameMembers(a, boxes);
      SameMembers(b, boxes);
      PermutedDistinct(a, boxes);
      assert a[k - 1] in boxes && b[k - 1] in boxes;
      SameTx(boxes, a[k - 1], b[k - 1]);
      assert a[..k] == a[..k - 1] + [a[k - 1]];
      assert b[..k] == b[..k - 1] + [b[k - 1]];
    }
  }

  /** A listing is accepted exactly when it is a permutation of one chain, and the result
      is that chain. */
  lemma OutcomeExact<P(!new)>(boxes: seq<Box<P>>, chain: seq<Box<P>>)
    ensures LineageOutcome(boxes) == Ordered(chain) <==> IsLineageOf(chain, boxes)
  {
    if IsLineageOf(chain, boxes) {
      ChainPassesChecks(chain, boxes);
      var outcome := LineageOutcome(boxes);
      assert outcome.Ordered? && IsLineageOf(outcome.chain, boxes);
      LineageUnique(chain, outcome.chain, boxes);
    }
  }

  /** The order in which the index lists the boxes does not change what is accepted. */
  lemma ListingOrderIrrelevant<P(!new)>(boxes: seq<Box<P>>, listing: seq<Box<P>>)
    requires multiset(boxes) == multiset(listing)
    ensures LineageOutcome(boxes).Ordered? <==> LineageOutcome(listing).Ordered?
    ensures LineageOutcome(boxes).Ordered? ==> LineageOutcome(boxes) == LineageOutcome(listing)
  {
    if LineageOutcome(boxes).Ordered? {
      OutcomeExact(boxes, LineageOutcome(boxes).chain);
      OutcomeExact(listing, LineageOutcome(boxes).chain);
    }
    if LineageOutcome(listing).Ordered? {
      OutcomeExact(listing, LineageOutcome(listing).chain);
      OutcomeExact(boxes, LineageOutcome(listing).chain);
    }
  }

  // ----- Only a detached cycle survives the local checks -----

  lemma Successor<P>(boxes: seq<Box<P>>, box: Box<P>) returns (next: Box<P>)
    requires SuccessorsExist(boxes) && box in boxes && box.spentBy.Some?
    ensures next in boxes && box.spentBy == Some(next.txId)
  {
    var i :| 0 <= i < |boxes| && boxes[i] == box;
    assert Creates(boxes, boxes[i].spentBy.value);
    var j :| 0 <= j < |boxes| && boxes[j].txId == box.spentBy.value;
    next := boxes[j];
  }

  lemma ExtendWalk<P>(walk: seq<Box<P>>, boxes: seq<Box<P>>, next: Box<P>)
    requires IsWalk(walk, boxes) && next in boxes && next !in walk
    requires walk[|walk| - 1].spentBy == Some(next.txId)
    ensures IsWalk(walk + [next], boxes) && |walk| < |boxes|
  {
    DistinctBound(walk + [next], boxes);
  }

  /** A complete walk from the root that misses a box leaves a cycle behind. */
  lemma MissedBoxOnCycle<P>(walk: seq<Box<P>>, boxes: seq<Box<P>>, missed: Box<P>) returns (ring: seq<Box<P>>)
    requires ChecksPass(boxes) && IsWalk(walk, boxes)
    requires walk[0] in RootsOf(boxes, boxes) && walk[|walk| - 1].spentBy.None?
    requires missed in boxes && missed !in walk
    ensures IsCycleIn(ring, boxes) && missed in ring && forall b :: b in ring ==> b !in walk
  {
    ring := [missed];
    var next := NextOutside(walk, boxes, missed);
    while next !in ring
      invariant IsWalk(ring, boxes) && ring[0] == missed
      invariant forall b :: b in ring ==> b !in walk
      invariant next in boxes && next !in walk && ring[|ring| - 1].spentBy == Some(next.txId)
      invariant |ring| <= |boxes|
      decreases |boxes| - |ring|
    {
      ExtendWalk(ring, boxes, next);
      ring := ring + [next];
      next := NextOutside(walk, boxes, next);
    }
    WalkNeverReturns(ring, boxes, next);
  }

  /** Off the walk from the root, spends lead to boxes off the walk. */
  lemma NextOutside<P>(walk: seq<Box<P>>, boxes: seq<Box<P>>, box: Box<P>) returns (next: Box<P>)
    requires ChecksPass(boxes) && IsWalk(walk, boxes)
    requires walk[0] in RootsOf(boxes, boxes) && walk[|walk| - 1].spentBy.None?
    requires box in boxes && box !in walk
    ensures next in boxes && next !in walk && box.spentBy == Some(next.txId)
  {
    OneTip(boxes, walk[|walk| - 1], box);
    next := Successor(boxes, box);
    OutsideWalk(walk, boxes, box, next);
  }

  lemma OneTip<P>(boxes: seq<Box<P>>, tip: Box<P>, box: Box<P>)
    requires |Tips(boxes)| == 1 && tip in boxes && box in boxes && tip.spentBy.None? && tip != box
    ensures box.spentBy.Some?
  {
    TipsAre(boxes);
    assert tip in Tips(boxes);
    assert box.spentBy.None? ==> box in Tips(boxes);
  }

  lemma OutsideWalk<P>(walk: seq<Box<P>>, boxes: seq<Box<P>>, last: Box<P>, next: Box<P>)
    requires ChecksPass(boxes) && IsWalk(walk, boxes)
    requires walk[0] in RootsOf(boxes, boxes)
    requires last in boxes && last !in walk && next in boxes && last.spentBy == Some(next.txId)
    ensures next !in walk
  {
    AtMostOnePredecessor(boxes);
    RootsAre(boxes, boxes);
    if next in walk {
      var k :| 0 <= k < |walk| && walk[k] == next;
      var i :| 0 <= i < |boxes| && boxes[i] == last;
      SpendersPositive(boxes, next.txId);
      assert k > 0;
      assert walk[k - 1].spentBy == Some(next.txId);
      OnePredecessor(boxes, walk[k - 1], last, next.txId);
    }
  }

  /** A chain has no cycle: indices along a ring only grow. */
  lemma ChainHasNoCycle<P>(chain: seq<Box<P>>, ring: seq<Box<P>>)
    requires IsChain(chain)
    ensures !IsCycleIn(ring, chain)
  {
    if IsCycleIn(ring, chain) {
      assert ring[0] in chain;
      var k :| 0 <= k < |chain| && chain[k] == ring[0];
      RingIndex(chain, ring, k, |ring| - 1);
      SpendsForward(chain, k + |ring| - 1, k);
    }
  }

  lemma SpendsForward<P>(chain: seq<Box<P>>, i: nat, j: nat)
    requires IsChain(chain) && i < |chain| && j < |chain|
    requires chain[i].spentBy == Some(chain[j].txId)
    ensures j == i + 1
  {
    assert i < |chain| - 1;
    assert chain[i].spentBy == Some(chain[i + 1].txId);
  }

  lemma {:induction false} RingIndex<P>(chain: seq<Box<P>>, ring: seq<Box<P>>, k: nat, m: nat)
    requires IsChain(chain) && IsCycleIn(ring, chain)
    requires k < |chain| && chain[k] == ring[0] && m < |ring|
    ensures k + m < |chain| && chain[k + m] == ring[m]
  {
    if m > 0 {
      RingIndex(chain, ring, k, m - 1);
      assert ring[m - 1].spentBy == Some(ring[m].txId);
      assert ring[m] in chain;
      SameTx(chain, ring[m], chain[k + m]);
    }
  }

  /** The walk of the algorithm, followed to its end, settles the outcome. */
  lemma WalkSettles<P(!new)>(walk: seq<Box<P>>, boxes: seq<Box<P>>)
    requires ChecksPass(boxes) && IsWalk(walk, boxes)
    requires walk[0] in RootsOf(boxes, boxes) && walk[|walk| - 1].spentBy.None?
    ensures |walk| <= |boxes|
    ensures walk[|walk| - 1] == Tips(boxes)[0]
    ensures LineageOutcome(boxes) == if |walk| == |boxes| then Ordered(walk) else Rejected(Disconnected)
  {
    TheTip(boxes, walk[|walk| - 1]);
    WalkBound(walk, boxes);
    if |walk| == |boxes| {
      OutcomeExact(boxes, walk);
    } else {
      ShortWalk(walk, boxes);
    }
  }

  lemma TheTip<P>(boxes: seq<Box<P>>, tip: Box<P>)
    requires |Tips(boxes)| == 1 && tip in boxes && tip.spentBy.None?
    ensures Tips(boxes)[0] == tip
  {
    TipsAre(boxes);
    assert tip in Tips(boxes);
  }

  lemma ShortWalk<P(!new)>(walk: seq<Box<P>>, boxes: seq<Box<P>>)
    requires ChecksPass(boxes) && IsWalk(walk, boxes) && Distinct(boxes)
    requires walk[0] in RootsOf(boxes, boxes) && walk[|walk| - 1].spentBy.None?
    requires |walk| < |boxes|
    ensures LineageOutcome(boxes) == Rejected(Disconnected)
  {
    var missed := MissedBox(walk, boxes);
    var ring := MissedBoxOnCycle(walk, boxes, missed);
    CycleRefutesLineage(ring, boxes);
  }

  lemma WalkBound<P>(walk: seq<Box<P>>, boxes: seq<Box<P>>)
    requires ChecksPass(boxes) && IsWalk(walk, boxes) && walk[|walk| - 1].spentBy.None?
    ensures |walk| <= |boxes| && Distinct(boxes)
    ensures |walk| == |boxes| ==> IsLineageOf(walk, boxes)
  {
    AtMostOnePredecessor(boxes);
    DistinctIdsDistinct(boxes);
    DistinctBound(walk, boxes);
    SubsequenceDistinct(walk, boxes);
  }

  lemma CycleRefutesLineage<P(!new)>(ring: seq<Box<P>>, boxes: seq<Box<P>>)
    requires IsCycleIn(ring, boxes)
    ensures forall chain :: !IsLineageOf(chain, boxes)
  {
    forall chain
      ensures !IsLineageOf(chain, boxes)
    {
      if IsChain(chain) && multiset(chain) == multiset(boxes) {
        SameMembers(chain, boxes);
        ChainHasNoCycle(chain, ring);
      }
    }
  }

  lemma SubsequenceDistinct<P>(walk: seq<Box<P>>, boxes: seq<Box<P>>)
    requires Distinct(walk) && DistinctIds(boxes) && DistinctTxs(boxes)
    requires forall b :: b in walk ==> b in boxes
    ensures DistinctIds(walk) && DistinctTxs(walk)
  {
    forall i, j | 0 <= i < j < |walk|
      ensures walk[i].boxId != walk[j].boxId && walk[i].txId != walk[j].txId
    {
      assert walk[i] in boxes && walk[j] in boxes;
      if walk[i].boxId == walk[j].boxId {
        SameId(boxes, walk[i], walk[j]);
      }
      if walk[i].txId == walk[j].txId {
        SameTx(boxes, walk[i], walk[j]);
      }
    }
  }

  lemma MissedBox<P>(walk: seq<Box<P>>, boxes: seq<Box<P>>) returns (missed: Box<P>)
    requires Distinct(walk) && Distinct(boxes) && |walk| < |boxes|
    ensures missed in boxes && missed !in walk
  {
    if forall b :: b in boxes ==> b in walk {
      DistinctBound(boxes, walk);
    }
    missed :| missed in boxes && missed !in walk;
  }

  /** Once the local checks pass, the listing is refused exactly when it contains a ring of
      spends (necessarily detached from the chain that starts at the root). */
  lemma DisconnectedExact<P(!new)>(boxes: seq<Box<P>>)
    requires ChecksPass(boxes)
    ensures LineageOutcome(boxes) == Rejected(Disconnected) <==> exists ring :: IsCycleIn(ring, boxes)
  {
    var outcome := LineageOutcome(boxes);
    if ring :| IsCycleIn(ring, boxes) {
      CycleRefutesLineage(ring, boxes);
    }
    if outcome.Rejected? {
      var walk := RootWalk(boxes);
      WalkSettles(walk, boxes);
      AtMostOnePredecessor(boxes);
      DistinctIdsDistinct(boxes);
      var missed := MissedBox(walk, boxes);
      var ring := MissedBoxOnCycle(walk, boxes, missed);
    }
  }

  /** The walk from the root reaches the tip. */
  lemma RootWalk<P>(boxes: seq<Box<P>>) returns (walk: seq<Box<P>>)
    requires ChecksPass(boxes)
    ensures IsWalk(walk, boxes) && walk[0] in RootsOf(boxes, boxes) && walk[|walk| - 1].spentBy.None?
  {
    RootsAre(boxes, boxes);
    var root := RootsOf(boxes, boxes)[0];
    assert root in RootsOf(boxes, boxes) && root in boxes;
    walk := [root];
    while walk[|walk| - 1].spentBy.Some?
      invariant IsWalk(walk, boxes) && walk[0] == root && |walk| <= |boxes|
      decreases |boxes| - |walk|
    {
      var next := Successor(boxes, walk[|walk| - 1]);
      RootNotRevisited(walk, boxes, next);
      ExtendWalk(walk, boxes, next);
      walk := walk + [next];
    }
  }

  lemma RootNotRevisited<P>(walk: seq<Box<P>>, boxes: seq<Box<P>>, next: Box<P>)
    requires ChecksPass(boxes) && IsWalk(walk, boxes) && next in boxes
    requires walk[0] in RootsOf(boxes, boxes)
    requires walk[|walk| - 1].spentBy == Some(next.txId)
    ensures next !in walk
  {
    RootsAre(boxes, boxes);
    if next in walk {
      WalkNeverReturns(walk, boxes, next);
    }
  }

  // ----- The algorithm -----

  ghost predicate CreationIndex<P>(byTx: map<Bytes, Box<P>>, boxes: seq<Box<P>>) {
    && (forall tx :: tx in byTx ==> byTx[tx] in boxes && byTx[tx].txId == tx)
    && (forall b :: b in boxes ==> b.txId in byTx)
  }

  /** First loop: index the boxes by identity and by creating transaction. */
  method IndexBoxes<P(==)>(boxes: seq<Box<P>>) returns (duplicate: Option<Error>, byTx: map<Bytes, Box<P>>)
    ensures duplicate == FirstDuplicate(boxes, 0)
    ensures duplicate.None? ==> CreationIndex(byTx, boxes)
  {
    var byId: map<Bytes, Box<P>> := map[];
    byTx := map[];
    for i := 0 to |boxes|
      invariant FirstDuplicate(boxes, 0) == FirstDuplicate(boxes, i)
      invariant forall id :: id in byId <==> exists j :: 0 <= j < i && boxes[j].boxId == id
      invariant forall tx :: tx in byTx <==> exists j :: 0 <= j < i && boxes[j].txId == tx
      invariant forall tx :: tx in byTx ==> byTx[tx] in boxes && byTx[tx].txId == tx
    {
      var box := boxes[i];
      if box.boxId in byId {
        return Some(DuplicateBox), byTx;
      }
      if box.txId in byTx {
        return Some(MultipleOutputs), byTx;
      }
      byId := byId[box.boxId := box];
      byTx := byTx[box.txId := box];
    }
    duplicate := None;
  }

  /** The counts hold, by box identity, the number of spends of `prefix`. */
  ghost predicate Counted<P>(counts: map<Bytes, nat>, boxes: seq<Box<P>>, prefix: seq<Box<P>>) {
    && (forall id :: id in counts ==> counts[id] > 0 && exists b :: b in boxes && b.boxId == id)
    && (forall b :: b in boxes ==> Spenders(prefix, b.txId) == CountOf(counts, b.boxId))
  }

  /** `predecessorCount.get(id) ?? 0` */
  function CountOf(counts: map<Bytes, nat>, id: Bytes): nat {
    if id in counts then counts[id] else 0
  }

  lemma CountStep<P>(counts: map<Bytes, nat>, boxes: seq<Box<P>>, prefix: seq<Box<P>>, box: Box<P>, successor: Box<P>)
    requires Counted(counts, boxes, prefix) && DistinctIds(boxes) && DistinctTxs(boxes)
    requires successor in boxes && box.spentBy == Some(successor.txId)
    ensures Counted(counts[successor.boxId := CountOf(counts, successor.boxId) + 1], boxes, prefix + [box])
  {
    var counts' := counts[successor.boxId := CountOf(counts, successor.boxId) + 1];
    assert (prefix + [box])[..|prefix|] == prefix;
    forall b | b in boxes
      ensures Spenders(prefix + [box], b.txId) == CountOf(counts', b.boxId)
    {
      assert Spenders(prefix, b.txId) == CountOf(counts, b.boxId);
      if b.txId == successor.txId {
        SameTx(boxes, b, successor);
      } else if b.boxId == successor.boxId {
        SameId(boxes, b, successor);
      }
    }
  }

  /** Second loop: count predecessors by box identity. */
  method CountPredecessors<P>(boxes: seq<Box<P>>, byTx: map<Bytes, Box<P>>)
    returns (missing: bool, counts: map<Bytes, nat>)
    requires CreationIndex(byTx, boxes) && DistinctIds(boxes) && DistinctTxs(boxes)
    ensures missing == !SuccessorsExist(boxes)
    ensures !missing ==> Counted(counts, boxes, boxes)
  {
    counts := map[];
    for i := 0 to |boxes|
      invariant forall j :: 0 <= j < i && boxes[j].spentBy.Some? ==> boxes[j].spentBy.value in byTx
      invariant Counted(counts, boxes, boxes[..i])
    {
      var box := boxes[i];
      assert boxes[..i + 1] == boxes[..i] + [box];
      if box.spentBy.Some? {
        if box.spentBy.value !in byTx {
          NotIndexed(boxes, byTx, i);
          return true, counts;
        }
        var successor := byTx[box.spentBy.value];
        CountStep(counts, boxes, boxes[..i], box, successor);
        counts := counts[successor.boxId := CountOf(counts, successor.boxId) + 1];
      } else {
        CountUnspent(counts, boxes, boxes[..i], box);
      }
    }
    assert boxes[..|boxes|] == boxes;
    AllIndexed(boxes, byTx);
    missing := false;
  }

  lemma AllIndexed<P>(boxes: seq<Box<P>>, byTx: map<Bytes, Box<P>>)
    requires CreationIndex(byTx, boxes)
    requires forall j :: 0 <= j < |boxes| && boxes[j].spentBy.Some? ==> boxes[j].spentBy.value in byTx
    ensures SuccessorsExist(boxes)
  {
    forall i | 0 <= i < |boxes| && boxes[i].spentBy.Some?
      ensures Creates(boxes, boxes[i].spentBy.value)
    {
      var successor := byTx[boxes[i].spentBy.value];
      var j :| 0 <= j < |boxes| && boxes[j] == successor;
    }
  }

  lemma NotIndexed<P>(boxes: seq<Box<P>>, byTx: map<Bytes, Box<P>>, i: nat)
    requires CreationIndex(byTx, boxes) && i < |boxes|
    requires boxes[i].spentBy.Some? && boxes[i].spentBy.value !in byTx
    ensures !SuccessorsExist(boxes)
  {
    var tx := boxes[i].spentBy.value;
    forall j | 0 <= j < |boxes|
      ensures boxes[j].txId != tx
    {
      assert boxes[j] in boxes;
    }
    assert !Creates(boxes, tx);
  }

  lemma CountUnspent<P>(counts: map<Bytes, nat>, boxes: seq<Box<P>>, prefix: seq<Box<P>>, box: Box<P>)
    requires Counted(counts, boxes, prefix) && box.spentBy.None?
    ensures Counted(counts, boxes, prefix + [box])
  {
    assert (prefix + [box])[..|prefix|] == prefix;
  }

  /** The tracker copy's extra loop: every counted box has exactly one predecessor. */
  method CheckPredecessorCounts<P>(boxes: seq<Box<P>>, counts: map<Bytes, nat>)
    requires ChecksPass(boxes) && Counted(counts, boxes, boxes)
    ensures forall id :: id in counts ==> counts[id] == 1
  {
    var ids := counts.Keys;
    while ids != {}
      invariant ids <= counts.Keys
      invariant forall id :: id in counts && id !in ids ==> counts[id] == 1
      decreases ids
    {
      var id :| id in ids;
      CountIsOne(boxes, counts, id);
      if counts[id] != 1 {
        // throws "has N predecessors"
        assert false;
      }
      ids := ids - {id};
    }
  }

  lemma CountIsOne<P>(boxes: seq<Box<P>>, counts: map<Bytes, nat>, id: Bytes)
    requires ChecksPass(boxes) && Counted(counts, boxes, boxes) && id in counts
    ensures counts[id] == 1
  {
    AtMostOnePredecessor(boxes);
    var b :| b in boxes && b.boxId == id;
    assert Spenders(boxes, b.txId) == CountOf(counts, b.boxId);
  }

  ghost predicate Visits<P>(visited: set<Bytes>, ordered: seq<Box<P>>) {
    && (forall b :: b in ordered ==> b.boxId in visited)
    && (forall id :: id in visited ==> exists b :: b in ordered && b.boxId == id)
  }

  /** State of the walk: what was visited is a walk from the root, the cursor is the box
      created by the last spend. */
  ghost predicate AtCursor<P>(
    boxes: seq<Box<P>>, root: Box<P>, ordered: seq<Box<P>>, visited: set<Bytes>, cursor: Option<Box<P>>)
  {
    && Visits(visited, ordered)
    && (cursor.Some? ==> cursor.value in boxes)
    && (ordered == [] ==> cursor == Some(root))
    && (ordered != [] ==>
          && IsWalk(ordered, boxes) && ordered[0] == root
          && ordered[|ordered| - 1].spentBy == (if cursor.Some? then Some(cursor.value.txId) else None))
  }

  lemma Advance<P>(
    boxes: seq<Box<P>>, root: Box<P>, ordered: seq<Box<P>>, visited: set<Bytes>, box: Box<P>, next: Option<Box<P>>)
    requires ChecksPass(boxes) && root in RootsOf(boxes, boxes)
    requires AtCursor(boxes, root, ordered, visited, Some(box))
    requires next.Some? ==> next.value in boxes
    requires box.spentBy == if next.Some? then Some(next.value.txId) else None
    ensures box.boxId !in visited
    ensures AtCursor(boxes, root, ordered + [box], visited + {box.boxId}, next)
    ensures |ordered| < |boxes|
  {
    if ordered != [] {
      RootNotRevisited(ordered, boxes, box);
      ExtendWalk(ordered, boxes, box);
      NotVisited(boxes, ordered, visited, box);
    }
  }

  lemma NotVisited<P>(boxes: seq<Box<P>>, ordered: seq<Box<P>>, visited: set<Bytes>, box: Box<P>)
    requires ChecksPass(boxes) && IsWalk(ordered, boxes) && Visits(visited, ordered)
    requires box in boxes && box !in ordered
    ensures box.boxId !in visited
  {
    if box.boxId in visited {
      var b :| b in ordered && b.boxId == box.boxId;
      AtMostOnePredecessor(boxes);
      SameId(boxes, b, box);
    }
  }

  /** The walk from the root, with its visited set. */
  method Walk<P(==)>(boxes: seq<Box<P>>, byTx: map<Bytes, Box<P>>, root: Box<P>) returns (ordered: seq<Box<P>>)
    requires ChecksPass(boxes) && CreationIndex(byTx, boxes)
    requires root in RootsOf(boxes, boxes)
    ensures IsWalk(ordered, boxes) && ordered[0] == root && ordered[|ordered| - 1].spentBy.None?
  {
    assert root in boxes by { RootsAre(boxes, boxes); }
    ordered := [];
    var visited: set<Bytes> := {};
    var cursor := Some(root);
    while cursor.Some?
      invariant AtCursor(boxes, root, ordered, visited, cursor)
      invariant |ordered| <= |boxes|
      decreases |boxes| - |ordered|
    {
      var box := cursor.value;
      var next := None;
      if box.spentBy.Some? {
        ghost var successor := Successor(boxes, box);
        next := Some(byTx[box.spentBy.value]);
      }
      Advance(boxes, root, ordered, visited, box, next);
      if box.boxId in visited {
        // throws "contains a cycle"
        assert false;
      }
      visited := visited + {box.boxId};
      ordered := ordered + [box];
      cursor := next;
    }
  }

  method FilterTips<P>(boxes: seq<Box<P>>) returns (tips: seq<Box<P>>)
    ensures tips == Tips(boxes)
  {
    tips := [];
    for i := 0 to |boxes|
      invariant tips == Tips(boxes[..i])
    {
      assert boxes[..i + 1][..i] == boxes[..i];
      if boxes[i].spentBy.None? {
        tips := tips + [boxes[i]];
      }
    }
    assert boxes[..|boxes|] == boxes;
  }

  method FilterRoots<P>(boxes: seq<Box<P>>, counts: map<Bytes, nat>) returns (roots: seq<Box<P>>)
    requires Counted(counts, boxes, boxes)
    ensures roots == RootsOf(boxes, boxes)
  {
    roots := [];
    for i := 0 to |boxes|
      invariant roots == RootsOf(boxes[..i], boxes)
    {
      assert boxes[..i + 1][..i] == boxes[..i];
      if CountOf(counts, boxes[i].boxId) == 0 {
        roots := roots + [boxes[i]];
      }
    }
    assert boxes[..|boxes|] == boxes;
  }

  /** `orderSingletonLineage` of both reconstructions; `tracker` selects the copy with the
      extra predecessor-count loop. Both copies have the same outcome on every listing. */
  method OrderSingletonLineage<P(==, !new)>(boxes: seq<Box<P>>, tracker: bool) returns (r: Outcome<P>)
    ensures r == LineageOutcome(boxes)
  {
    var duplicate, byTx := IndexBoxes(boxes);
    if duplicate.Some? {
      return Rejected(duplicate.value);
    }
    FirstDuplicateNone(boxes, 0);
    var tips := FilterTips(boxes);
    if |tips| != 1 {
      return Rejected(TipCount(|tips|));
    }
    var missing, counts := CountPredecessors(boxes, byTx);
    if missing {
      return Rejected(MissingSuccessor);
    }
    var roots := FilterRoots(boxes, counts);
    if |roots| != 1 {
      return Rejected(RootCount(|roots|));
    }
    if tracker {
      CheckPredecessorCounts(boxes, counts);
    }
    var ordered := Walk(boxes, byTx, roots[0]);
    WalkSettles(ordered, boxes);
    if |ordered| != |boxes| || ordered[|ordered| - 1].boxId != tips[0].boxId {
      return Rejected(Disconnected);
    }
    r := Ordered(ordered);
  }
}
