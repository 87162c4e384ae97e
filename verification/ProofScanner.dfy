/**
  The scanner of packaged AVL insert proofs: a post-order list of tree nodes, a terminator, and
  the directions. A leaf that follows a leaf (internal nodes aside) leaves its key out, since it
  is the next key of the one before.
 */
module ProofScanner {
  import opened Prelude

  const LABEL_BYTES: nat := 32
  const KEY_BYTES: nat := 32
  /** Next key and value of a leaf. */
  const LEAF_BODY_BYTES: nat := 32 + 264
  const END: Byte := 4

  datatype Node =
    | Label(digest: Bytes)
    | Leaf(key: Option<Bytes>, body: Bytes)
    | Internal(balance: Byte)

  /** The state the scanner carries: whether the next leaf leaves its key out. */
  function After(node: Node, elides: bool): bool {
    match node
    case Label(_) => false
    case Leaf(_, _) => true
    case Internal(_) => elides
  }

  predicate NodeOk(node: Node, elides: bool) {
    match node
    case Label(digest) => |digest| == LABEL_BYTES
    case Leaf(key, body) =>
      |body| == LEAF_BODY_BYTES && (if elides then key == None else key.Some? && |key.value| == KEY_BYTES)
    case Internal(balance) => balance == 0 || balance == 1 || balance == 255
  }

  predicate Legal(nodes: seq<Node>, elides: bool) {
    nodes == [] || (NodeOk(nodes[0], elides) && Legal(nodes[1..], After(nodes[0], elides)))
  }

  function NodeBytes(node: Node): (r: Bytes)
    ensures r != []
  {
    match node
    case Label(digest) => [3] + digest
    case Leaf(key, body) => [2] + (if key.Some? then key.value else []) + body
    case Internal(balance) => [balance]
  }

  function Serialized(nodes: seq<Node>): Bytes {
    if nodes == [] then [] else NodeBytes(nodes[0]) + Serialized(nodes[1..])
  }

  /** A whole proof. */
  function Proof(nodes: seq<Node>, directions: Bytes): Bytes {
    Serialized(nodes) + [END] + directions
  }

  /** Where the internal nodes start, the first node being at base. */
  function BalanceOffsets(nodes: seq<Node>, base: nat): seq<nat> {
    if nodes == [] then []
    else
      (if nodes[0].Internal? then [base] else []) + BalanceOffsets(nodes[1..], base + |NodeBytes(nodes[0])|)
  }

  datatype Scan = Scan(balanceOffsets: seq<nat>, directionOffset: nat)

  /** Length of the node with a given tag, if it is one. */
  function Span(tag: Byte, elides: bool): Option<nat> {
    if tag == 3 then Some(1 + LABEL_BYTES)
    else if tag == 2 then Some(1 + (if elides then 0 else KEY_BYTES) + LEAF_BODY_BYTES)
    else if tag == 0 || tag == 1 || tag == 255 then Some(1)
    else None
  }

  function Elides(tag: Byte, elides: bool): bool {
    if tag == 3 then false else if tag == 2 then true else elides
  }

  /** What the loop finds from the cursor on; None: it throws. */
  function ScanFrom(proof: Bytes, cursor: nat, elides: bool): Option<Scan>
    decreases |proof| - cursor
  {
    if cursor >= |proof| then None
    else if proof[cursor] == END then Some(Scan([], cursor + 1))
    else
      var (tag, span) := (proof[cursor], Span(proof[cursor], elides));
      if span == None || cursor + span.value > |proof| then None
      else
        Prefixed(if tag == 2 || tag == 3 then [] else [cursor],
                 ScanFrom(proof, cursor + span.value, Elides(tag, elides)))
  }

  /** A scan with offsets found before it. */
  function Prefixed(offsets: seq<nat>, rest: Option<Scan>): Option<Scan> {
    if rest == None then None
    else Some(Scan(offsets + rest.value.balanceOffsets, rest.value.directionOffset))
  }

  lemma PrefixedTwice(a: seq<nat>, b: seq<nat>, rest: Option<Scan>)
    ensures Prefixed(a, Prefixed(b, rest)) == Prefixed(a + b, rest)
    ensures Prefixed([], rest) == rest
  {
    if rest.Some? {
      assert a + (b + rest.value.balanceOffsets) == a + b + rest.value.balanceOffsets;
      assert [] + rest.value.balanceOffsets == rest.value.balanceOffsets;
    }
  }

  /** inspectPackagedProof */
  method InspectPackagedProof(proof: Bytes) returns (r: Option<Scan>)
    ensures r == ScanFrom(proof, 0, false)
  {
    var offsets: seq<nat> := [];
    var cursor: nat := 0;
    var previousLeafNextKey := false;
    PrefixedTwice([], [], ScanFrom(proof, 0, false));
    while cursor < |proof|
      invariant cursor <= |proof|
      invariant ScanFrom(proof, 0, false) == Prefixed(offsets, ScanFrom(proof, cursor, previousLeafNextKey))
    {
      ghost var found := if proof[cursor] == 2 || proof[cursor] == 3 then [] else [cursor];
      ghost var span := Span(proof[cursor], previousLeafNextKey);
      if span.Some? {
        PrefixedTwice(offsets, found,
                      ScanFrom(proof, cursor + span.value, Elides(proof[cursor], previousLeafNextKey)));
      }
      var tagOffset := cursor;
      var tag := proof[cursor];
      cursor := cursor + 1;
      if tag == END {
        assert offsets + [] == offsets;
        return Some(Scan(offsets, cursor));
      }
      if tag == 3 {
        cursor := cursor + LABEL_BYTES;
        previousLeafNextKey := false;
      } else if tag == 2 {
        if !previousLeafNextKey {
          cursor := cursor + KEY_BYTES;
        }
        cursor := cursor + LEAF_BODY_BYTES;
        previousLeafNextKey := true;
      } else if tag == 0 || tag == 1 || tag == 255 {
        offsets := offsets + [tagOffset];
      } else {
        return None;
      }
      if cursor > |proof| {
        return None;
      }
      assert offsets + [] == offsets;
    }
    return None;
  }

  lemma NodeSpan(node: Node, elides: bool)
    requires NodeOk(node, elides)
    ensures NodeBytes(node)[0] != END
    ensures Span(NodeBytes(node)[0], elides) == Some(|NodeBytes(node)|)
    ensures Elides(NodeBytes(node)[0], elides) == After(node, elides)
    ensures node.Internal? <==> NodeBytes(node)[0] != 2 && NodeBytes(node)[0] != 3
  {
  }

  /** From any position the scanner reads back the offsets of the nodes that follow. */
  lemma {:induction false} ScansNodes(head: Bytes, nodes: seq<Node>, directions: Bytes, elides: bool)
    requires Legal(nodes, elides)
    ensures ScanFrom(head + Proof(nodes, directions), |head|, elides)
            == Some(Scan(BalanceOffsets(nodes, |head|), |head| + |Serialized(nodes)| + 1))
    decreases nodes
  {
    hide NodeBytes, NodeOk, Span, Elides, After;
    var proof := head + Proof(nodes, directions);
    if nodes == [] {
      assert proof[|head|] == END;
    } else {
      var node := nodes[0];
      NodeSpan(node, elides);
      assert proof[|head|] == NodeBytes(node)[0];
      assert proof == head + NodeBytes(node) + Proof(nodes[1..], directions);
      ScansNodes(head + NodeBytes(node), nodes[1..], directions, After(node, elides));
    }
  }

  /** The scanner returns exactly the offsets of the internal nodes and of the directions. */
  lemma ScanExact(nodes: seq<Node>, directions: Bytes)
    requires Legal(nodes, false)
    ensures ScanFrom(Proof(nodes, directions), 0, false)
            == Some(Scan(BalanceOffsets(nodes, 0), |Serialized(nodes)| + 1))
  {
    ScansNodes([], nodes, directions, false);
    assert [] + Proof(nodes, directions) == Proof(nodes, directions);
  }

  /** The node at the cursor. */
  ghost function NodeAt(proof: Bytes, cursor: nat, elides: bool): (node: Node)
    requires cursor < |proof| && proof[cursor] != END
    requires var span := Span(proof[cursor], elides); span.Some? && cursor + span.value <= |proof|
    ensures NodeOk(node, elides)
    ensures NodeBytes(node) == proof[cursor..cursor + Span(proof[cursor], elides).value]
  {
    var (tag, end) := (proof[cursor], cursor + Span(proof[cursor], elides).value);
    if tag == 3 then
      assert proof[cursor..end] == [3] + proof[cursor + 1..end];
      Label(proof[cursor + 1..end])
    else if tag == 2 then
      if elides then
        assert proof[cursor..end] == [2] + [] + proof[cursor + 1..end];
        Leaf(None, proof[cursor + 1..end])
      else
        var body := cursor + 1 + KEY_BYTES;
        assert proof[cursor..end] == [2] + proof[cursor + 1..body] + proof[body..end];
        Leaf(Some(proof[cursor + 1..body]), proof[body..end])
    else
      Internal(tag)
  }

  /** Conversely, whatever the scanner accepts is the serialization of some legal node list. */
  lemma {:induction false} AcceptedIsSerialized(proof: Bytes, cursor: nat, elides: bool)
    returns (nodes: seq<Node>, directions: Bytes)
    requires cursor <= |proof| && ScanFrom(proof, cursor, elides).Some?
    ensures Legal(nodes, elides) && proof[cursor..] == Proof(nodes, directions)
    decreases |proof| - cursor
  {
    hide NodeOk, NodeBytes, Span, Elides, After;
    if proof[cursor] == END {
      nodes, directions := [], proof[cursor + 1..];
      assert proof[cursor..] == [END] + directions;
    } else {
      var span := Span(proof[cursor], elides).value;
      SpanPositive(proof[cursor], elides);
      var node := NodeAt(proof, cursor, elides);
      NodeSpan(node, elides);
      var rest;
      rest, directions := AcceptedIsSerialized(proof, cursor + span, Elides(proof[cursor], elides));
      nodes := [node] + rest;
      assert nodes[1..] == rest;
      assert proof[cursor..] == proof[cursor..cursor + span] + proof[cursor + span..];
    }
  }

  lemma SpanPositive(tag: Byte, elides: bool)
    requires Span(tag, elides).Some?
    ensures Span(tag, elides).value > 0
  {
  }
}
