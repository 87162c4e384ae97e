/**
  The before/after double collect of a live node: the tip is read, then the anchor header and
  three boxes in any order, then the tip again. The node changes between any two reads; a
  history lists the states it goes through and a schedule says in which state each read is
  answered.
 */
module StableView {
  import opened Prelude

  /** A box as it is compared: registers sorted by name, absent fields null. */
  datatype Box = Box(
    boxId: Hex, value: nat, ergoTree: Hex, assets: seq<(Hex, nat)>, registers: seq<(string, Hex)>,
    creationHeight: nat, transactionId: Option<Hex>, index: Option<nat>)

  /** Canonical header ids from height 0 to the tip, and the unspent boxes. */
  datatype Node = Node(headers: seq<Hex>, boxes: map<Hex, Box>)

  predicate Live(n: Node) {
    n.headers != []
  }

  function Height(n: Node): nat
    requires Live(n)
  {
    |n.headers| - 1
  }

  function HeaderAt(n: Node, height: nat): Option<Hex> {
    if height < |n.headers| then Some(n.headers[height]) else None
  }

  function BoxById(n: Node, id: Hex): Option<Box> {
    if id in n.boxes then Some(n.boxes[id]) else None
  }

  /** Height and header id of the tip. */
  function Tip(n: Node): (nat, Hex)
    requires Live(n)
  {
    (Height(n), n.headers[Height(n)])
  }

  type History = h: seq<Node> | forall i :: 0 <= i < |h| ==> Live(h[i]) witness []

  /** The states in which the eight reads are answered. */
  datatype Schedule = Schedule(
    heightBefore: nat, tipBefore: nat, anchor: nat, tracker: nat, dup: nat, vault: nat, heightAfter: nat, tipAfter: nat)

  /** Reads follow each other as the awaits say; the four in the middle run together. */
  predicate Follows(at: Schedule, h: History) {
    && at.heightBefore <= at.tipBefore
    && at.tipBefore <= at.anchor <= at.heightAfter
    && at.tipBefore <= at.tracker <= at.heightAfter
    && at.tipBefore <= at.dup <= at.heightAfter
    && at.tipBefore <= at.vault <= at.heightAfter
    && at.heightAfter <= at.tipAfter < |h|
  }

  datatype Candidate = Candidate(
    candidateId: Hex, trackerBoxId: Hex, dupInputBoxId: Hex, vaultBoxId: Hex, unsignedTx: Hex,
    anchorHeaderId: Hex, anchorHeaderHeight: nat, creationHeight: nat)

  /** transactionDigest: the digest of the prepared transaction. */
  datatype Prepared = Prepared(tracker: Box, dup: Box, vault: Box, transactionDigest: Hex)

  datatype View = View(
    candidateId: Hex, tipHeight: nat, tipHeader: Hex, anchorHeaderHeight: nat, anchorHeaderId: Hex,
    tracker: Box, dup: Box, vault: Box, unsignedTx: Hex)

  predicate PreparedFits(c: Candidate, p: Prepared) {
    && p.tracker.boxId == c.trackerBoxId
    && p.dup.boxId == c.dupInputBoxId
    && p.vault.boxId == c.vaultBoxId
    && p.transactionDigest == c.unsignedTx
  }

  /** assertAnchorAtHeight */
  predicate AnchorHolds(currentHeight: nat, anchor: Option<Hex>, c: Candidate, minimumConfirmations: int) {
    && 0 < minimumConfirmations
    && anchor == Some(c.anchorHeaderId)
    && c.creationHeight <= currentHeight
    && minimumConfirmations <= currentHeight - c.anchorHeaderHeight
  }

  /** observeAuthenticatedSettlementStableErgoView: the reads and checks in their order;
      None is the error of the comment. */
  method Observe(h: History, at: Schedule, c: Candidate, p: Prepared, minimumConfirmations: int) returns (r: Option<View>)
    requires Follows(at, h)
    ensures r.Some? <==> Accepts(h, at, c, p, minimumConfirmations)
    ensures r.Some? ==>
      && HeaderAt(h[at.tipAfter], r.value.tipHeight) == Some(r.value.tipHeader)
      && r.value == View(c.candidateId, Height(h[at.heightAfter]), r.value.tipHeader, c.anchorHeaderHeight,
                         c.anchorHeaderId, p.tracker, p.dup, p.vault, c.unsignedTx)
  {
    hide PreparedFits, AnchorHolds, HeaderAt, BoxById, Height;
    if !PreparedFits(c, p) {
      return None; // prepared authenticated settlement inputs do not match the journaled candidate
    }
    var heightBefore := Height(h[at.heightBefore]);
    var tipBefore := HeaderAt(h[at.tipBefore], heightBefore);
    if tipBefore == None {
      return None; // live Ergo tip header ID
    }
    var anchor := HeaderAt(h[at.anchor], c.anchorHeaderHeight);
    var tracker := BoxById(h[at.tracker], c.trackerBoxId);
    var dup := BoxById(h[at.dup], c.dupInputBoxId);
    var vault := BoxById(h[at.vault], c.vaultBoxId);
    var heightAfter := Height(h[at.heightAfter]);
    var tipAfter := HeaderAt(h[at.tipAfter], heightAfter);
    if tipAfter == None {
      return None; // rechecked Ergo tip header ID
    }
    if heightBefore != heightAfter || tipBefore != tipAfter {
      return None; // Ergo canonical view changed while settlement inputs were observed
    }
    if !AnchorHolds(heightAfter, anchor, c, minimumConfirmations) {
      return None; // candidate Ergo anchor is no longer valid
    }
    if tracker == None || dup == None || vault == None {
      return None; // authenticated settlement input is spent or unavailable in the stable Ergo view
    }
    if tracker != Some(p.tracker) || dup != Some(p.dup) || vault != Some(p.vault) {
      return None; // live authenticated settlement input content does not match the checked transaction
    }
    return Some(View(c.candidateId, heightAfter, tipAfter.value, c.anchorHeaderHeight, c.anchorHeaderId,
                   p.tracker, p.dup, p.vault, c.unsignedTx));
  }

  /** The answers for which the observation is accepted. */
  predicate Accepts(h: History, at: Schedule, c: Candidate, p: Prepared, minimumConfirmations: int)
    requires Follows(at, h)
  {
    var height := Height(h[at.heightBefore]);
    && PreparedFits(c, p)
    && Height(h[at.heightAfter]) == height
    && HeaderAt(h[at.tipBefore], height).Some?
    && HeaderAt(h[at.tipAfter], height) == HeaderAt(h[at.tipBefore], height)
    && AnchorHolds(height, HeaderAt(h[at.anchor], c.anchorHeaderHeight), c, minimumConfirmations)
    && BoxById(h[at.tracker], c.trackerBoxId) == Some(p.tracker)
    && BoxById(h[at.dup], c.dupInputBoxId) == Some(p.dup)
    && BoxById(h[at.vault], c.vaultBoxId) == Some(p.vault)
  }

  // ----- Assumptions on the node -----

  /** The height never decreases. */
  ghost predicate Rising(h: History) {
    forall i, j :: 0 <= i <= j < |h| ==> Height(h[i]) <= Height(h[j])
  }

  /** A header that has been replaced at its height never comes back there. */
  ghost predicate NeverReturns(h: History) {
    forall i, j, k, height: nat :: 0 <= i <= j <= k < |h| && HeaderAt(h[i], height).Some?
                                   && HeaderAt(h[i], height) == HeaderAt(h[k], height) ==>
      HeaderAt(h[j], height) == HeaderAt(h[i], height)
  }

  /** Header ids commit to the chain below them and to the boxes it leaves. */
  ghost predicate TipsCommit(h: History) {
    forall i, j :: 0 <= i < |h| && 0 <= j < |h| && Tip(h[i]) == Tip(h[j]) ==> h[i] == h[j]
  }

  // ----- Results -----

  /** Between the first height read and the second, an accepted observation saw one tip only. */
  lemma OneTip(h: History, at: Schedule, c: Candidate, p: Prepared, minimumConfirmations: int, i: nat)
    requires Follows(at, h) && Rising(h) && NeverReturns(h) && Accepts(h, at, c, p, minimumConfirmations)
    requires at.tipBefore <= i <= at.heightAfter
    ensures Tip(h[i]) == Tip(h[at.heightAfter])
    ensures HeaderAt(h[at.tipAfter], Tip(h[i]).0) == Some(Tip(h[i]).1)
  {
    hide PreparedFits, AnchorHolds;
    var height := Height(h[at.heightBefore]);
    assert Height(h[at.heightBefore]) <= Height(h[i]) <= Height(h[at.heightAfter]);
    assert HeaderAt(h[i], height) == HeaderAt(h[at.tipBefore], height);
    assert HeaderAt(h[at.heightAfter], height) == HeaderAt(h[at.tipBefore], height);
  }

  /** The anchor header and all three boxes were read from states with one and the same tip,
      the one the view reports. */
  lemma StableReads(h: History, at: Schedule, c: Candidate, p: Prepared, minimumConfirmations: int)
    requires Follows(at, h) && Rising(h) && NeverReturns(h) && Accepts(h, at, c, p, minimumConfirmations)
    ensures Tip(h[at.anchor]) == Tip(h[at.tracker]) == Tip(h[at.dup]) == Tip(h[at.vault]) == Tip(h[at.heightAfter])
    ensures HeaderAt(h[at.tipAfter], Height(h[at.heightAfter])) == Some(Tip(h[at.anchor]).1)
  {
    OneTip(h, at, c, p, minimumConfirmations, at.anchor);
    OneTip(h, at, c, p, minimumConfirmations, at.tracker);
    OneTip(h, at, c, p, minimumConfirmations, at.dup);
    OneTip(h, at, c, p, minimumConfirmations, at.vault);
  }

  /** All four reads in one state: what the observation is meant to be. The chain holds the anchor,
      deep enough, and is as high as the transaction; the three boxes of the candidate are unspent as
      prepared; and the prepared transaction is the candidate's. */
  predicate AcceptsAtOnce(n: Node, c: Candidate, p: Prepared, minimumConfirmations: int)
    requires Live(n)
  {
    && c.anchorHeaderHeight < |n.headers| && n.headers[c.anchorHeaderHeight] == c.anchorHeaderId
    && 0 < minimumConfirmations && c.anchorHeaderHeight + minimumConfirmations < |n.headers|
    && c.creationHeight < |n.headers|
    && HoldsBox(n, c.trackerBoxId, p.tracker) && HoldsBox(n, c.dupInputBoxId, p.dup) && HoldsBox(n, c.vaultBoxId, p.vault)
    && p.transactionDigest == c.unsignedTx
  }

  predicate HoldsBox(n: Node, id: Hex, box: Box) {
    id in n.boxes && n.boxes[id] == box && box.boxId == id
  }

  /** Linearizability: an accepted double collect is an atomic read of one state the node was
      in while it ran. */
  lemma ActsAtOnce(h: History, at: Schedule, c: Candidate, p: Prepared, minimumConfirmations: int)
    requires Follows(at, h) && Rising(h) && NeverReturns(h) && TipsCommit(h)
    requires Accepts(h, at, c, p, minimumConfirmations)
    ensures AcceptsAtOnce(h[at.anchor], c, p, minimumConfirmations)
  {
    StableReads(h, at, c, p, minimumConfirmations);
  }

  /** Completeness: on a node that does not move, the observation accepts exactly what the
      atomic read accepts. */
  lemma QuietNode(h: History, at: Schedule, c: Candidate, p: Prepared, minimumConfirmations: int)
    requires Follows(at, h)
    requires forall i :: at.heightBefore <= i <= at.tipAfter ==> h[i] == h[at.heightBefore]
    ensures Accepts(h, at, c, p, minimumConfirmations)
            <==> AcceptsAtOnce(h[at.heightBefore], c, p, minimumConfirmations)
  {
  }

  function PlainBox(id: Hex): Box {
    Box(id, 1, "", [], [], 0, None, None)
  }

  /** Without NeverReturns the property fails: a reorganisation to b and back to a between the
      tip reads goes unseen, and boxes that never existed together are accepted. */
  lemma ReorganisationAndBackIsMissed()
    ensures exists h: History, at: Schedule, c: Candidate, p: Prepared ::
      && Follows(at, h) && Rising(h) && TipsCommit(h)
      && Accepts(h, at, c, p, 1)
      && Tip(h[at.tracker]) != Tip(h[at.vault])
      && forall i :: 0 <= i < |h| ==> !AcceptsAtOnce(h[i], c, p, 1)
  {
    var (t, d, v) := (PlainBox("t"), PlainBox("d"), PlainBox("v"));
    var a := Node(["g", "a"], map["t" := t, "d" := d]);
    var b := Node(["g", "b"], map["v" := v]);
    var h: History := [a, b, a];
    var at := Schedule(0, 0, 0, 0, 0, 1, 2, 2);
    var c := Candidate("c", "t", "d", "v", "x", "g", 0, 0);
    var p := Prepared(t, d, v, "x");
    assert Tip(a) == (1, "a") && Tip(b) == (1, "b");
    assert BoxById(a, "v") == None && BoxById(b, "t") == None;
    assert Accepts(h, at, c, p, 1);
    assert forall i :: 0 <= i < |h| ==> !AcceptsAtOnce(h[i], c, p, 1);
  }
}
