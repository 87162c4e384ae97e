/**
  Reconstruction of the duplicate-prevention (DUP) history: order the singleton's boxes,
  replay every insertion against the authenticated tree, and check the tip.
 */
module DupReplay {
  import opened Prelude
  import Codec
  import L = Lineage

  const MAX_DUP_PROOF_BYTES := 1024 * 1024
  const MIN_MINER_FEE := 1_000_000
  const MAX_MINER_FEE := 2_100_000

  /** Non-mandatory registers of an Ergo box. */
  datatype Register = R4 | R5 | R6 | R7 | R8 | R9

  type Registers = map<Register, Bytes>
  /** Context extension: variable index to serialized constant. */
  type Extension = map<nat, Bytes>

  datatype Asset = Asset(tokenId: Bytes, amount: int)

  /** A box as the extra index or the UTXO endpoint reports it. */
  datatype RawBox = RawBox(
    boxId: Bytes, txId: Bytes, index: nat, inclusionHeight: nat,
    value: int, ergoTree: Bytes, assets: seq<Asset>, registers: Registers,
    spentBy: Option<Bytes>, extension: Option<Extension>)

  datatype TxInput = TxInput(boxId: Option<Bytes>, extension: Option<Extension>)

  datatype TxOutput = TxOutput(
    boxId: Bytes, txId: Bytes, index: nat,
    value: int, ergoTree: Bytes, assets: seq<Asset>, registers: Registers)

  datatype IndexedTx = IndexedTx(
    id: Bytes, blockId: Bytes, inclusionHeight: nat,
    inputs: seq<TxInput>, dataInputs: nat, outputs: seq<TxOutput>)

  datatype Header = Header(id: Bytes, height: nat)

  datatype InsertProof = InsertProof(lookup: Bytes, insert: Bytes, newDigest: Bytes)

  /** The authenticated tree library, as functions of the whole history. */
  datatype Avl = Avl(digest: seq<Bytes> -> Bytes, insert: (seq<Bytes>, Bytes) -> InsertProof)

  /** What the node answers; one consistent snapshot (the relayer compares the synced
      snapshot before and after). */
  datatype Source = Source(
    transactions: Bytes -> Option<IndexedTx>,
    headers: Bytes -> Option<Header>,
    utxo: Bytes -> Option<RawBox>)

  datatype Env = Env(
    nftId: Bytes, dupTree: Bytes, minerFeeTree: Bytes, emptyDigest: Bytes, maxBoxes: nat,
    isDlogRegister: Bytes -> bool, avl: Avl, source: Source)

  /** Laws of the tree library: 33-byte digests, the pinned empty digest, and an insertion
      proof that promises the digest of the extended history. */
  ghost predicate LawfulTree(env: Env) {
    && env.avl.digest([]) == env.emptyDigest
    && (forall h :: |env.avl.digest(h)| == 33)
    && (forall h, k :: k !in h ==> env.avl.insert(h, k).newDigest == env.avl.digest(h + [k]))
  }

  // ----- Normalization -----

  datatype DupRegisters = DupRegisters(r4: Bytes, r5: Bytes, r6: Bytes)

  datatype Payload = Payload(value: int, registers: DupRegisters)

  datatype Indexed = Indexed(payload: Payload, inclusionHeight: nat, context: Option<Extension>)

  type DupBox = L.Box<Indexed>

  /** `normalizeDupPayload` */
  function NormalizePayload(
    env: Env, value: int, ergoTree: Bytes, assets: seq<Asset>, registers: Registers): (r: Result<Payload>)
    ensures r.Ok? ==> Codec.DecodeAvl(r.value.registers.r5).Ok? && r.value.value == value > 0
  {
    if ergoTree != env.dupTree then Err("unexpected ErgoTree") else
    :- Need(assets == [Asset(env.nftId, 1)], "must preserve exactly one configured DUP NFT");
    :- Need(registers.Keys == {R4, R5, R6}, "registers do not match the canonical schema");
    var _ :- Codec.DecodeCanonicalLongSpec(registers[R4]);
    var _ :- Codec.DecodeAvl(registers[R5]);
    :- Need(env.isDlogRegister(registers[R6]), "R6 must be a proveDlog SigmaProp");
    :- Need(value > 0, "value must be a positive integer");
    Ok(Payload(value, DupRegisters(registers[R4], registers[R5], registers[R6])))
  }

  /** `normalizeContextExtension` */
  function NormalizeExtension(extension: Extension): Result<Extension> {
    if |extension.Keys| > 3 then Err("exceeds the three-variable DUP schema")
    else if exists k :: k in extension && !(0 < |extension[k]| <= MAX_DUP_PROOF_BYTES + 16) then
      Err("context variable length")
    else Ok(extension)
  }

  /** `normalizeDupBox` */
  function NormalizeBox(env: Env, raw: RawBox): Result<DupBox> {
    if raw.index != 0 then Err("must be output 0") else
    var payload :- NormalizePayload(env, raw.value, raw.ergoTree, raw.assets, raw.registers);
    match raw.spentBy
    case None =>
      if raw.extension.Some? then Err("unspent DUP box must not contain a spending proof")
      else Ok(L.Box(raw.boxId, raw.txId, None, Indexed(payload, raw.inclusionHeight, None)))
    case Some(tx) =>
      if raw.extension.None? then Err("spending proof must be an object")
      else
        var extension :- NormalizeExtension(raw.extension.value);
        Ok(L.Box(raw.boxId, raw.txId, Some(tx), Indexed(payload, raw.inclusionHeight, Some(extension))))
  }

  /** All boxes normalize, each to its counterpart. */
  ghost predicate Normalizes(env: Env, raw: seq<RawBox>, boxes: seq<DupBox>) {
    && |raw| == |boxes|
    && forall i :: 0 <= i < |raw| ==> NormalizeBox(env, raw[i]) == Ok(boxes[i])
  }

  method NormalizeAll(env: Env, raw: seq<RawBox>) returns (r: Result<seq<DupBox>>)
    ensures r.Ok? ==> Normalizes(env, raw, r.value)
    ensures r.Err? ==> forall boxes :: !Normalizes(env, raw, boxes)
  {
    hide NormalizeBox;
    var boxes: seq<DupBox> := [];
    for i := 0 to |raw|
      invariant Normalizes(env, raw[..i], boxes)
    {
      var box := NormalizeBox(env, raw[i]);
      if box.Err? {
        return Err(box.reason);
      }
      boxes := boxes + [box.value];
    }
    assert raw[..|raw|] == raw;
    r := Ok(boxes);
  }

  // ----- One replayed insertion -----

  datatype Transition = Transition(
    burnId: Bytes, txId: Bytes, blockId: Bytes, inclusionHeight: nat,
    inputBoxId: Bytes, successorBoxId: Bytes,
    vaultInputBoxId: Bytes, vaultSuccessorBoxId: Option<Bytes>,
    payoutBoxId: Bytes, payoutValue: int, minerFee: int, successorDigest: Bytes)

  /** `assertTransactionOutputMatches` at index 0 */
  predicate OutputMatches(env: Env, output: TxOutput, expected: DupBox) {
    && output.boxId == expected.boxId
    && output.txId == expected.txId
    && output.index == 0
    && NormalizePayload(env, output.value, output.ergoTree, output.assets, output.registers)
       == Ok(expected.payload.payload)
  }

  function FixedBytes(value: Bytes, length: nat): Result<Bytes> {
    if |value| == length then Ok(value) else Err("wrong byte length")
  }

  predicate SettlementShape(tx: IndexedTx) {
    && |tx.inputs| == 2
    && tx.dataInputs == 1
    && (|tx.outputs| == 3 || |tx.outputs| == 4)
  }

  /** The settlement transaction that spends `current`, in its observed block. */
  function FetchSettlement(env: Env, current: DupBox, successor: DupBox): (r: Result<IndexedTx>)
    requires current.spentBy.Some?
    ensures r.Ok? ==> SettlementShape(r.value) && r.value.id == current.spentBy.value == successor.txId
  {
    if current.spentBy.value != successor.txId then Err("successor transaction mismatch") else
    :- Need(env.source.transactions(current.spentBy.value).Some?, "settlement transaction must be an object");
    var tx := env.source.transactions(current.spentBy.value).value;
    :- Need(tx.id == current.spentBy.value, "settlement transaction id mismatch");
    :- Need(tx.inclusionHeight == successor.payload.inclusionHeight, "successor inclusion height");
    :- Need(env.source.headers(tx.blockId).Some?, "block header is unavailable");
    :- Need(env.source.headers(tx.blockId).value == Header(tx.blockId, tx.inclusionHeight), "block header mismatch");
    :- Need(SettlementShape(tx), "unsupported shape");
    Ok(tx)
  }

  /** It spends the singleton first, recreates it first, and carries the indexed context. */
  function CheckSpend(env: Env, tx: IndexedTx, current: DupBox, successor: DupBox): (r: Result<()>)
    requires SettlementShape(tx) && current.payload.context.Some?
    ensures r.Ok? ==> tx.inputs[1].boxId.Some?
  {
    hide OutputMatches, NormalizeExtension;
    :- Need(tx.inputs[0].boxId == Some(current.boxId), "DUP singleton must be settlement input 0");
    :- Need(tx.inputs[1].boxId.Some?, "vault input is missing a canonical box id");
    :- Need(OutputMatches(env, tx.outputs[0], successor), "DUP successor output");
    :- Need(tx.inputs[0].extension.Some?, "input context extension must be an object");
    var context :- NormalizeExtension(tx.inputs[0].extension.value);
    :- Need(current.payload.context.value == context, "indexed and transaction contexts do not match");
    Ok(())
  }

  /** The inserted key: Var(1) of the spending context. */
  function BurnKey(context: Extension): (r: Result<Bytes>)
    ensures r.Ok? ==> context.Keys == {0, 1, 2} && |r.value| == 32
  {
    hide Codec.DecodeCollSpec;
    :- Need(context.Keys == {0, 1, 2}, "spending context fields");
    var key :- Codec.DecodeCollSpec(context[1], None);
    FixedBytes(key, 32)
  }

  /** The proofs carried by Var(0) and Var(2) are the deterministic proofs for the history. */
  function CheckProofs(env: Env, history: seq<Bytes>, context: Extension, key: Bytes): (r: Result<Bytes>)
    requires context.Keys == {0, 1, 2}
    ensures r.Ok? ==> r.value == env.avl.digest(history + [key]) && key !in history
  {
    hide Codec.DecodeCollSpec;
    var lookup :- Codec.DecodeCollSpec(context[0], Some(MAX_DUP_PROOF_BYTES));
    var insert :- Codec.DecodeCollSpec(context[2], Some(MAX_DUP_PROOF_BYTES));
    :- Need(key !in history, "duplicate burn id");
    var expected := env.avl.insert(history, key);
    :- Need(expected.lookup == lookup && expected.insert == insert, "proofs do not replay");
    var digest := env.avl.digest(history + [key]);
    :- Need(expected.newDigest == digest, "successor digest");
    Ok(digest)
  }

  /** Registers and value move as one insertion allows. */
  function CheckSuccessor(
    env: Env, digest: Bytes, current: Payload, successor: Payload, authority: Bytes): Result<()>
  {
    hide Codec.DecodeAvl, Codec.DecodeCanonicalLongSpec;
    var avl :- Codec.DecodeAvl(successor.registers.r5);
    :- Need(avl.digest == digest, "successor digest does not match the reconstructed insertion");
    var before :- Codec.DecodeCanonicalLongSpec(current.registers.r4);
    var after :- Codec.DecodeCanonicalLongSpec(successor.registers.r4);
    :- Need(after == before + 1, "counter does not advance exactly once");
    :- Need(successor.registers.r6 == authority, "changes the authorization metadata");
    :- Need(successor.value >= current.value, "reduces singleton value");
    Ok(())
  }

  /** Payout is output 1, the miner fee is the last output. */
  function CheckPayoutAndFee(env: Env, tx: IndexedTx): (r: Result<()>)
    requires SettlementShape(tx)
    ensures r.Ok? ==> tx.outputs[1].value > 0
    ensures r.Ok? ==> MIN_MINER_FEE <= tx.outputs[|tx.outputs| - 1].value <= MAX_MINER_FEE
  {
    var payout := tx.outputs[1];
    :- Need(payout.assets == [] && payout.value > 0, "payout must contain positive pure ERG");
    var fee := tx.outputs[|tx.outputs| - 1];
    :- Need(fee.assets == [] && fee.ergoTree == env.minerFeeTree && MIN_MINER_FEE <= fee.value <= MAX_MINER_FEE,
         "miner-fee output is outside the contract bounds");
    Ok(())
  }

  /** One iteration of the replay loop. */
  function Step(env: Env, history: seq<Bytes>, current: DupBox, successor: DupBox, authority: Bytes): Result<Transition>
  {
    hide Codec.DecodeAvl, FetchSettlement, CheckSpend, BurnKey, CheckProofs, CheckSuccessor, CheckPayoutAndFee;
    :- Need(current.spentBy.Some? && current.payload.context.Some?, "missing its spending proof");
    var before :- Codec.DecodeAvl(current.payload.payload.registers.r5);
    :- Need(before.digest == env.avl.digest(history), "input digest does not match the reconstructed history");
    var tx :- FetchSettlement(env, current, successor);
    var _ :- CheckSpend(env, tx, current, successor);
    var context := current.payload.context.value;
    var key :- BurnKey(context);
    var digest :- CheckProofs(env, history, context, key);
    var _ :- CheckSuccessor(env, digest, current.payload.payload, successor.payload.payload, authority);
    var _ :- CheckPayoutAndFee(env, tx);
    Ok(Transition(
      key, tx.id, tx.blockId, tx.inclusionHeight, current.boxId, successor.boxId,
      tx.inputs[1].boxId.value,
      if |tx.outputs| == 4 then Some(tx.outputs[2].boxId) else None,
      tx.outputs[1].boxId, tx.outputs[1].value, tx.outputs[|tx.outputs| - 1].value, digest))
  }

  function Keys(transitions: seq<Transition>): (keys: seq<Bytes>)
    ensures |keys| == |transitions|
    ensures forall i :: 0 <= i < |keys| ==> keys[i] == transitions[i].burnId
  {
    seq(|transitions|, i requires 0 <= i < |transitions| => transitions[i].burnId)
  }

  /** The transitions are what the lineage replays to, each against the keys before it. */
  ghost predicate Replays(env: Env, lineage: seq<DupBox>, transitions: seq<Transition>) {
    && |lineage| == |transitions| + 1
    && forall i :: 0 <= i < |transitions| ==>
         Step(env, Keys(transitions)[..i], lineage[i], lineage[i + 1], lineage[0].payload.payload.registers.r6)
         == Ok(transitions[i])
  }

  // ----- Genesis and tip -----

  function CheckGenesis(env: Env, genesis: DupBox): Result<()> {
    if env.source.transactions(genesis.txId).None? then Err("setup transaction must be an object") else
    var setup := env.source.transactions(genesis.txId).value;
    :- Need(setup.id == genesis.txId, "setup transaction id mismatch");
    :- Need(setup.inclusionHeight == genesis.payload.inclusionHeight, "genesis inclusion height");
    :- Need(|setup.inputs| == 1 && setup.dataInputs == 0 && |setup.outputs| >= 2, "setup transaction shape");
    :- Need(setup.inputs[0].boxId == Some(env.nftId), "NFT id must equal the first input box id");
    :- Need(OutputMatches(env, setup.outputs[0], genesis), "setup output");
    var counter :- Codec.DecodeCanonicalLongSpec(genesis.payload.payload.registers.r4);
    :- Need(counter == 0, "genesis counter must be zero");
    var avl :- Codec.DecodeAvl(genesis.payload.payload.registers.r5);
    :- Need(avl.digest == env.emptyDigest, "genesis must use the canonical empty digest");
    Ok(())
  }

  /** The indexed tip is the box the UTXO set holds. */
  function CheckTip(env: Env, tip: DupBox): Result<()> {
    if env.source.utxo(tip.boxId).None? then Err("tip is not present in the canonical UTXO set") else
    var raw := env.source.utxo(tip.boxId).value;
    :- Need(raw.spentBy.None? && raw.extension.None?, "canonical DUP tip must be unspent");
    var payload :- NormalizePayload(env, raw.value, raw.ergoTree, raw.assets, raw.registers);
    :- Need(raw.boxId == tip.boxId && raw.txId == tip.txId && raw.index == 0 && payload == tip.payload.payload,
         "indexed and canonical DUP tip does not match");
    Ok(())
  }

  datatype Observation = Observation(
    genesisBoxId: Bytes, tipBoxId: Bytes, tipDigest: Bytes, tipCounter: nat, authority: Bytes,
    historyKeys: seq<Bytes>, transitions: seq<Transition>)

  ghost function Observe(env: Env, lineage: seq<DupBox>, transitions: seq<Transition>): Observation
    requires lineage != []
  {
    Observation(
      lineage[0].boxId, lineage[|lineage| - 1].boxId, env.avl.digest(Keys(transitions)), |transitions|,
      lineage[0].payload.payload.registers.r6, Keys(transitions), transitions)
  }

  /** A listing is accepted with this lineage and these transitions. */
  ghost predicate Accepted(env: Env, raw: seq<RawBox>, lineage: seq<DupBox>, transitions: seq<Transition>) {
    && 0 < |raw| <= env.maxBoxes
    && (exists boxes :: Normalizes(env, raw, boxes) && L.IsLineageOf(lineage, boxes))
    && CheckGenesis(env, lineage[0]).Ok?
    && Replays(env, lineage, transitions)
    && CheckTip(env, lineage[|lineage| - 1]).Ok?
  }

  // ----- What every accepted replay keeps -----

  /** State of box i of an accepted lineage: counter i, digest of the first i keys, the
      genesis authority. */
  ghost predicate BoxState(env: Env, box: DupBox, keys: seq<Bytes>, authority: Bytes) {
    && box.payload.payload.registers.r4 == Codec.EncodeLong(|keys|)
    && Codec.DecodeAvl(box.payload.payload.registers.r5).Ok?
    && Codec.DecodeAvl(box.payload.payload.registers.r5).value.digest == env.avl.digest(keys)
    && box.payload.payload.registers.r6 == authority
  }

  lemma StepKeeps(
    env: Env, history: seq<Bytes>, current: DupBox, successor: DupBox, authority: Bytes, transition: Transition)
    requires BoxState(env, current, history, authority)
    requires Step(env, history, current, successor, authority) == Ok(transition)
    ensures BoxState(env, successor, history + [transition.burnId], authority)
    ensures transition.burnId !in history && |transition.burnId| == 32
    ensures current.payload.payload.value <= successor.payload.payload.value
    ensures current.spentBy == Some(successor.txId) == Some(transition.txId)
    ensures transition.inputBoxId == current.boxId && transition.successorBoxId == successor.boxId
    ensures transition.payoutValue > 0 && MIN_MINER_FEE <= transition.minerFee <= MAX_MINER_FEE
    ensures transition.successorDigest == env.avl.digest(history + [transition.burnId])
    ensures Codec.DecodeCanonicalLongSpec(successor.payload.payload.registers.r4).Ok?
  {
    hide Codec.DecodeAvl, FetchSettlement, CheckSpend, BurnKey, CheckProofs, CheckSuccessor, CheckPayoutAndFee;
    hide Codec.DecodeCanonicalLongSpec, Codec.EncodeLong;
    var key := transition.burnId;
    SuccessorState(env, env.avl.digest(history + [key]), current.payload.payload, successor.payload.payload,
                   authority, |history|);
  }

  lemma SuccessorState(
    env: Env, digest: Bytes, current: Payload, successor: Payload, authority: Bytes, counter: int)
    requires CheckSuccessor(env, digest, current, successor, authority).Ok?
    requires current.registers.r4 == Codec.EncodeLong(counter)
    ensures successor.registers.r4 == Codec.EncodeLong(counter + 1)
    ensures Codec.DecodeAvl(successor.registers.r5).Ok? && Codec.DecodeAvl(successor.registers.r5).value.digest == digest
    ensures successor.registers.r6 == authority && current.value <= successor.value
    ensures Codec.DecodeCanonicalLongSpec(successor.registers.r4).Ok?
  {
    hide Codec.DecodeAvl, Codec.DecodeCanonicalLongSpec, Codec.EncodeLong;
    var before := Codec.DecodeCanonicalLongSpec(current.registers.r4).value;
    Codec.CanonicalLongExact(current.registers.r4, before);
    EncodeInjective(before, counter);
    Codec.CanonicalLongExact(successor.registers.r4, before + 1);
  }

  lemma EncodeInjective(a: int, b: int)
    requires Codec.EncodeLong(a) == Codec.EncodeLong(b)
    ensures a == b
  {
    Codec.VlqRoundTrip(Codec.ZigZag(a), []);
    Codec.VlqRoundTrip(Codec.ZigZag(b), []);
    assert Codec.EncodeLong(a)[1..] == Codec.EncodeLong(b)[1..];
    assert Codec.Vlq(Codec.ZigZag(a)) == Codec.EncodeLong(a)[1..];
    assert Codec.Vlq(Codec.ZigZag(b)) == Codec.EncodeLong(b)[1..];
  }

  lemma {:induction false} ReplayedPrefix(env: Env, lineage: seq<DupBox>, transitions: seq<Transition>, i: nat)
    requires Replays(env, lineage, transitions) && i <= |transitions|
    requires LawfulTree(env) && CheckGenesis(env, lineage[0]).Ok?
    ensures BoxState(env, lineage[i], Keys(transitions)[..i], lineage[0].payload.payload.registers.r6)
    ensures Distinct(Keys(transitions)[..i])
  {
    hide Step, BoxState, CheckGenesis;
    var keys := Keys(transitions);
    if i == 0 {
      GenesisState(env, lineage[0]);
      assert keys[..0] == [];
    } else {
      ReplayedPrefix(env, lineage, transitions, i - 1);
      assert Step(env, keys[..i - 1], lineage[i - 1], lineage[i - 1 + 1], lineage[0].payload.payload.registers.r6)
          == Ok(transitions[i - 1]);
      StepKeeps(env, keys[..i - 1], lineage[i - 1], lineage[i], lineage[0].payload.payload.registers.r6, transitions[i - 1]);
      assert keys[..i] == keys[..i - 1] + [transitions[i - 1].burnId];
    }
  }

  lemma GenesisState(env: Env, genesis: DupBox)
    requires LawfulTree(env) && CheckGenesis(env, genesis).Ok?
    ensures BoxState(env, genesis, [], genesis.payload.payload.registers.r6)
  {
    hide Codec.DecodeAvl, Codec.DecodeCanonicalLongSpec, OutputMatches;
    Codec.CanonicalLongExact(genesis.payload.payload.registers.r4, 0);
  }

  /** Every accepted reconstruction: no burn id twice; box i has counter i and the digest of
      the first i keys; the authority register never changes; the singleton's value never
      falls; transition i carries key i and links box i to box i + 1. */
  lemma AcceptedHistory(env: Env, raw: seq<RawBox>, lineage: seq<DupBox>, transitions: seq<Transition>)
    requires LawfulTree(env) && Accepted(env, raw, lineage, transitions)
    ensures Distinct(Keys(transitions))
    ensures forall i :: 0 <= i < |lineage| ==>
              BoxState(env, lineage[i], Keys(transitions)[..i], lineage[0].payload.payload.registers.r6)
    ensures forall i :: 0 <= i < |transitions| ==>
              && lineage[i].payload.payload.value <= lineage[i + 1].payload.payload.value
              && transitions[i].inputBoxId == lineage[i].boxId
              && transitions[i].successorBoxId == lineage[i + 1].boxId
              && transitions[i].txId == lineage[i + 1].txId
              && transitions[i].successorDigest == env.avl.digest(Keys(transitions)[..i + 1])
              && transitions[i].payoutValue > 0
              && MIN_MINER_FEE <= transitions[i].minerFee <= MAX_MINER_FEE
  {
    hide Step, BoxState, CheckGenesis, CheckTip, L.IsLineageOf, Normalizes;
    var keys := Keys(transitions);
    var authority := lineage[0].payload.payload.registers.r6;
    forall i | 0 <= i < |lineage|
      ensures BoxState(env, lineage[i], keys[..i], authority)
    {
      ReplayedPrefix(env, lineage, transitions, i);
    }
    ReplayedPrefix(env, lineage, transitions, |transitions|);
    assert keys[..|transitions|] == keys;
    forall i | 0 <= i < |transitions|
      ensures lineage[i].payload.payload.value <= lineage[i + 1].payload.payload.value
      ensures transitions[i].inputBoxId == lineage[i].boxId && transitions[i].successorBoxId == lineage[i + 1].boxId
      ensures transitions[i].txId == lineage[i + 1].txId
      ensures transitions[i].successorDigest == env.avl.digest(keys[..i + 1])
      ensures transitions[i].payoutValue > 0 && MIN_MINER_FEE <= transitions[i].minerFee <= MAX_MINER_FEE
    {
      StepKeeps(env, keys[..i], lineage[i], lineage[i + 1], authority, transitions[i]);
      assert keys[..i + 1] == keys[..i] + [transitions[i].burnId];
    }
  }

  /** A lineage replays to at most one history. */
  lemma {:induction false} ReplayUnique(env: Env, lineage: seq<DupBox>, a: seq<Transition>, b: seq<Transition>, i: nat)
    requires Replays(env, lineage, a) && Replays(env, lineage, b) && i <= |a|
    ensures a[..i] == b[..i]
  {
    hide Step;
    if i > 0 {
      ReplayUnique(env, lineage, a, b, i - 1);
      var authority := lineage[0].payload.payload.registers.r6;
      assert Keys(a)[..i - 1] == Keys(b)[..i - 1] by {
        forall k | 0 <= k < i - 1
          ensures Keys(a)[k] == Keys(b)[k]
        {
          assert a[..i - 1][k] == b[..i - 1][k];
        }
      }
      assert Step(env, Keys(a)[..i - 1], lineage[i - 1], lineage[i - 1 + 1], authority) == Ok(a[i - 1]);
      assert Step(env, Keys(b)[..i - 1], lineage[i - 1], lineage[i - 1 + 1], authority) == Ok(b[i - 1]);
      assert a[..i] == a[..i - 1] + [a[i - 1]] && b[..i] == b[..i - 1] + [b[i - 1]];
    }
  }

  // ----- The reconstruction -----

  /** The replay loop, from an ordered lineage whose genesis was checked. */
  method Replay(env: Env, lineage: seq<DupBox>) returns (r: Result<seq<Transition>>)
    requires lineage != []
    ensures r.Ok? ==> Replays(env, lineage, r.value)
    ensures r.Err? ==> forall ts :: !Replays(env, lineage, ts)
  {
    hide Step;
    var historyKeys: seq<Bytes> := [];
    var transitions: seq<Transition> := [];
    var authority := lineage[0].payload.payload.registers.r6;
    for index := 0 to |lineage| - 1
      invariant |transitions| == index && historyKeys == Keys(transitions)
      invariant forall i :: 0 <= i < index ==>
                  Step(env, Keys(transitions)[..i], lineage[i], lineage[i + 1], authority) == Ok(transitions[i])
    {
      var step := Step(env, historyKeys, lineage[index], lineage[index + 1], authority);
      if step.Err? {
        StuckReplay(env, lineage, transitions, index);
        return Err(step.reason);
      }
      ghost var before := transitions;
      assert Keys(before)[..index] == Keys(before);
      historyKeys := historyKeys + [step.value.burnId];
      transitions := transitions + [step.value];
      forall i | 0 <= i < index + 1
        ensures Step(env, Keys(transitions)[..i], lineage[i], lineage[i + 1], authority) == Ok(transitions[i])
      {
        assert Keys(transitions)[..i] == Keys(before)[..i];
      }
    }
    r := Ok(transitions);
  }

  lemma StuckReplay(env: Env, lineage: seq<DupBox>, done: seq<Transition>, index: nat)
    requires |done| == index < |lineage| - 1
    requires forall i :: 0 <= i < index ==>
               Step(env, Keys(done)[..i], lineage[i], lineage[i + 1], lineage[0].payload.payload.registers.r6)
               == Ok(done[i])
    requires Step(env, Keys(done), lineage[index], lineage[index + 1], lineage[0].payload.payload.registers.r6).Err?
    ensures forall ts :: !Replays(env, lineage, ts)
  {
    hide Step;
    forall ts
      ensures !Replays(env, lineage, ts)
    {
      if Replays(env, lineage, ts) {
        PrefixForced(env, lineage, done, ts, index);
        assert Keys(done)[..index] == Keys(done);
        StepOfReplay(env, lineage, ts, index);
      }
    }
  }

  lemma StepOfReplay(env: Env, lineage: seq<DupBox>, ts: seq<Transition>, i: nat)
    requires Replays(env, lineage, ts) && i < |ts|
    ensures Step(env, Keys(ts)[..i], lineage[i], lineage[i + 1], lineage[0].payload.payload.registers.r6) == Ok(ts[i])
  {
    hide Step;
  }

  lemma {:induction false} PrefixForced(
    env: Env, lineage: seq<DupBox>, done: seq<Transition>, ts: seq<Transition>, i: nat)
    requires Replays(env, lineage, ts) && i <= |done| < |lineage|
    requires forall k :: 0 <= k < |done| ==>
               Step(env, Keys(done)[..k], lineage[k], lineage[k + 1], lineage[0].payload.payload.registers.r6)
               == Ok(done[k])
    ensures ts[..i] == done[..i]
    ensures Keys(ts)[..i] == Keys(done)[..i]
  {
    hide Step;
    if i > 0 {
      PrefixForced(env, lineage, done, ts, i - 1);
      var authority := lineage[0].payload.payload.registers.r6;
      assert Step(env, Keys(ts)[..i - 1], lineage[i - 1], lineage[i - 1 + 1], authority) == Ok(ts[i - 1]);
      assert Step(env, Keys(done)[..i - 1], lineage[i - 1], lineage[i - 1 + 1], authority) == Ok(done[i - 1]);
      assert ts[..i] == ts[..i - 1] + [ts[i - 1]] && done[..i] == done[..i - 1] + [done[i - 1]];
      assert Keys(ts)[..i] == Keys(ts)[..i - 1] + [Keys(ts)[i - 1]];
      assert Keys(done)[..i] == Keys(done)[..i - 1] + [Keys(done)[i - 1]];
    }
  }

  lemma NormalizesUnique(env: Env, raw: seq<RawBox>, a: seq<DupBox>, b: seq<DupBox>)
    requires Normalizes(env, raw, a) && Normalizes(env, raw, b)
    ensures a == b
  {
    forall i | 0 <= i < |a|
      ensures a[i] == b[i]
    {
      assert NormalizeBox(env, raw[i]) == Ok(a[i]);
      assert NormalizeBox(env, raw[i]) == Ok(b[i]);
    }
  }

  /** What a listing is accepted with is unique. */
  lemma AcceptedUnique(
    env: Env, raw: seq<RawBox>, la: seq<DupBox>, ta: seq<Transition>, lb: seq<DupBox>, tb: seq<Transition>)
    requires Accepted(env, raw, la, ta) && Accepted(env, raw, lb, tb)
    ensures la == lb && ta == tb
  {
    hide Step, CheckGenesis, CheckTip;
    var a :| Normalizes(env, raw, a) && L.IsLineageOf(la, a);
    var b :| Normalizes(env, raw, b) && L.IsLineageOf(lb, b);
    NormalizesUnique(env, raw, a, b);
    L.LineageUnique(la, lb, a);
    ReplayUnique(env, la, ta, tb, |ta|);
    assert ta[..|ta|] == ta && tb[..|ta|] == tb;
  }

  /** The closing checks of the reconstruction restate what the replay established. */
  lemma ClosingChecksPass(env: Env, lineage: seq<DupBox>, transitions: seq<Transition>)
    requires LawfulTree(env) && Replays(env, lineage, transitions) && CheckGenesis(env, lineage[0]).Ok?
    ensures var tip := lineage[|lineage| - 1].payload.payload.registers;
            && Codec.DecodeAvl(tip.r5).Ok?
            && Codec.DecodeAvl(tip.r5).value.digest == env.avl.digest(Keys(transitions))
            && Codec.DecodeCanonicalLongSpec(tip.r4) == Ok(|transitions|)
            && tip.r6 == lineage[0].payload.payload.registers.r6
  {
    hide Step, CheckGenesis, Codec.DecodeAvl, Codec.DecodeCanonicalLongSpec;
    var n := |transitions|;
    assert Keys(transitions)[..n] == Keys(transitions);
    ReplayedPrefix(env, lineage, transitions, n);
    TipCounterDecodes(env, lineage, transitions);
    Codec.CanonicalLongExact(lineage[n].payload.payload.registers.r4, n);
  }

  /** The tip's counter is the encoding of a Long that was decoded on the way. */
  lemma TipCounterDecodes(env: Env, lineage: seq<DupBox>, transitions: seq<Transition>)
    requires LawfulTree(env) && Replays(env, lineage, transitions) && CheckGenesis(env, lineage[0]).Ok?
    ensures Codec.InInt64(|transitions|)
  {
    hide Step, CheckGenesis, Codec.DecodeCanonicalLongSpec, BoxState;
    var n := |transitions|;
    if n > 0 {
      ReplayedPrefix(env, lineage, transitions, n - 1);
      ReplayedPrefix(env, lineage, transitions, n);
      StepOfReplay(env, lineage, transitions, n - 1);
      StepKeeps(env, Keys(transitions)[..n - 1], lineage[n - 1], lineage[n],
                lineage[0].payload.payload.registers.r6, transitions[n - 1]);
      DecodedState(env, lineage[n], Keys(transitions)[..n], lineage[0].payload.payload.registers.r6);
    }
  }

  lemma DecodedState(env: Env, box: DupBox, keys: seq<Bytes>, authority: Bytes)
    requires BoxState(env, box, keys, authority)
    requires Codec.DecodeCanonicalLongSpec(box.payload.payload.registers.r4).Ok?
    ensures Codec.InInt64(|keys|)
  {
    hide Codec.DecodeAvl, Codec.DecodeCanonicalLongSpec, Codec.EncodeLong;
    var counter := Codec.DecodeCanonicalLongSpec(box.payload.payload.registers.r4).value;
    Codec.CanonicalLongExact(box.payload.payload.registers.r4, counter);
    EncodeInjective(counter, |keys|);
  }

  lemma NotAccepted(env: Env, raw: seq<RawBox>, boxes: seq<DupBox>, lineage: seq<DupBox>)
    requires Normalizes(env, raw, boxes) && L.IsLineageOf(lineage, boxes)
    requires CheckGenesis(env, lineage[0]).Err? || CheckTip(env, lineage[|lineage| - 1]).Err?
             || (forall ts :: !Replays(env, lineage, ts))
    ensures forall l, ts :: !Accepted(env, raw, l, ts)
  {
    hide Replays, CheckGenesis, CheckTip;
    forall l, ts
      ensures !Accepted(env, raw, l, ts)
    {
      if Accepted(env, raw, l, ts) {
        var b :| Normalizes(env, raw, b) && L.IsLineageOf(l, b);
        NormalizesUnique(env, raw, boxes, b);
        L.LineageUnique(l, lineage, boxes);
      }
    }
  }

  /** `reconstructAuthenticatedV2DupHistoryWithinBudget`, without the binary check of the tip. */
  method Reconstruct(env: Env, raw: seq<RawBox>) returns (r: Result<Observation>)
    requires LawfulTree(env)
    ensures forall lineage, ts :: Accepted(env, raw, lineage, ts) ==> r == Ok(Observe(env, lineage, ts))
    ensures r.Ok? ==> exists lineage, ts :: Accepted(env, raw, lineage, ts)
  {
    hide Replays, CheckGenesis, CheckTip, Codec.DecodeAvl, Codec.DecodeCanonicalLongSpec;
    if raw == [] {
      return Err("singleton lineage is empty");
    }
    if |raw| > env.maxBoxes {
      return Err("singleton lineage exceeds the operational bound");
    }
    var normalized := NormalizeAll(env, raw);
    if normalized.Err? {
      return Err(normalized.reason);
    }
    var boxes := normalized.value;
    var outcome := L.OrderSingletonLineage(boxes, false);
    if outcome.Rejected? {
      NoLineage(env, raw, boxes);
      return Err("lineage");
    }
    var lineage := outcome.chain;
    L.OutcomeExact(boxes, lineage);
    var genesis := CheckGenesis(env, lineage[0]);
    if genesis.Err? {
      NotAccepted(env, raw, boxes, lineage);
      return Err(genesis.reason);
    }
    var replay := Replay(env, lineage);
    if replay.Err? {
      NotAccepted(env, raw, boxes, lineage);
      return Err(replay.reason);
    }
    var transitions := replay.value;
    var historyKeys := Keys(transitions);
    var tip := lineage[|lineage| - 1];
    var tipDigest := env.avl.digest(historyKeys);
    ClosingChecksPass(env, lineage, transitions);
    var tipAvl := Codec.DecodeAvl(tip.payload.payload.registers.r5);
    if tipAvl.value.digest != tipDigest {
      // throws "tip digest does not match the reconstructed history"
      assert false;
    }
    var tipCounter := Codec.DecodeCanonicalLong(tip.payload.payload.registers.r4);
    if tipCounter.value != |historyKeys| {
      // throws "tip counter does not equal reconstructed insertion count"
      assert false;
    }
    if tip.payload.payload.registers.r6 != lineage[0].payload.payload.registers.r6 {
      // throws "tip changes the authorization metadata"
      assert false;
    }
    var checked := CheckTip(env, tip);
    if checked.Err? {
      NotAccepted(env, raw, boxes, lineage);
      return Err(checked.reason);
    }
    TheObservation(env, raw, lineage, transitions);
    r := Ok(Observation(
      lineage[0].boxId, tip.boxId, tipDigest, tipCounter.value, lineage[0].payload.payload.registers.r6,
      historyKeys, transitions));
  }

  lemma NoLineage(env: Env, raw: seq<RawBox>, boxes: seq<DupBox>)
    requires Normalizes(env, raw, boxes) && L.LineageOutcome(boxes).Rejected?
    ensures forall l, ts :: !Accepted(env, raw, l, ts)
  {
    hide Replays, CheckGenesis, CheckTip;
    forall l, ts
      ensures !Accepted(env, raw, l, ts)
    {
      if Accepted(env, raw, l, ts) {
        var b :| Normalizes(env, raw, b) && L.IsLineageOf(l, b);
        NormalizesUnique(env, raw, boxes, b);
        L.OutcomeExact(boxes, l);
      }
    }
  }

  lemma TheObservation(env: Env, raw: seq<RawBox>, lineage: seq<DupBox>, transitions: seq<Transition>)
    requires Accepted(env, raw, lineage, transitions)
    ensures forall l, ts :: Accepted(env, raw, l, ts) ==> Observe(env, l, ts) == Observe(env, lineage, transitions)
  {
    hide Replays, CheckGenesis, CheckTip;
    forall l, ts | Accepted(env, raw, l, ts)
      ensures Observe(env, l, ts) == Observe(env, lineage, transitions)
    {
      AcceptedUnique(env, raw, l, ts, lineage, transitions);
    }
  }

  // ----- Historical payouts -----

  /** The indexes of `keys` that hold `key`. */
  function Matches(keys: seq<Bytes>, key: Bytes): seq<nat> {
    if keys == [] then []
    else
      var last := |keys| - 1;
      Matches(keys[..last], key) + (if keys[last] == key then [last] else [])
  }

  /** `selectHistoricalPayout` */
  function SelectPayout(observation: Observation, key: Bytes): Result<(nat, Transition)> {
    var matches := Matches(observation.historyKeys, key);
    :- Need(|matches| == 1, "requires exactly one history key");
    :- Need(|observation.transitions| == |observation.historyKeys|, "transition history is incomplete");
    :- Need(matches[0] < |observation.transitions|, "transition is missing");
    var transition := observation.transitions[matches[0]];
    :- Need(transition.burnId == key, "transition does not match its history key");
    Ok((matches[0], transition))
  }

  lemma {:induction false} NoMatches(keys: seq<Bytes>, key: Bytes)
    requires key !in keys
    ensures Matches(keys, key) == []
  {
    if keys != [] {
      NoMatches(keys[..|keys| - 1], key);
    }
  }

  lemma {:induction false} OneMatch(keys: seq<Bytes>, key: Bytes, i: nat)
    requires Distinct(keys) && i < |keys| && keys[i] == key
    ensures Matches(keys, key) == [i]
  {
    var last := |keys| - 1;
    if i == last {
      NoMatches(keys[..last], key);
    } else {
      OneMatch(keys[..last], key, i);
    }
  }

  /** The key is at index i and nowhere else. */
  ghost predicate OnlyAt(keys: seq<Bytes>, key: Bytes, i: nat) {
    i < |keys| && forall k :: 0 <= k < |keys| ==> (keys[k] == key <==> k == i)
  }

  lemma {:induction false} MatchesAre(keys: seq<Bytes>, key: Bytes)
    ensures forall k: nat :: k in Matches(keys, key) <==> k < |keys| && keys[k] == key
  {
    if keys != [] {
      MatchesAre(keys[..|keys| - 1], key);
    }
  }

  lemma {:induction false} OnlyMatch(keys: seq<Bytes>, key: Bytes, i: nat)
    requires OnlyAt(keys, key, i)
    ensures Matches(keys, key) == [i]
  {
    var last := |keys| - 1;
    if i == last {
      NoMatches(keys[..last], key);
    } else {
      OnlyMatch(keys[..last], key, i);
    }
  }

  /** From any observation a payout is selected exactly for a key that occurs once, in a history as long
      as its transitions, whose transition carries the key. */
  lemma SelectExact(o: Observation, key: Bytes, i: nat, t: Transition)
    ensures SelectPayout(o, key) == Ok((i, t)) <==>
            && OnlyAt(o.historyKeys, key, i)
            && |o.transitions| == |o.historyKeys| && t == o.transitions[i] && t.burnId == key
  {
    MatchesAre(o.historyKeys, key);
    if OnlyAt(o.historyKeys, key, i) {
      OnlyMatch(o.historyKeys, key, i);
    }
    if SelectPayout(o, key) == Ok((i, t)) {
      var matches := Matches(o.historyKeys, key);
      assert matches == [i] && i in matches;
      forall k | 0 <= k < |o.historyKeys|
        ensures o.historyKeys[k] == key <==> k == i
      {
        assert k in matches <==> o.historyKeys[k] == key;
      }
    }
  }

  lemma SelectSettled(observation: Observation, key: Bytes, i: nat)
    requires Distinct(observation.historyKeys) && observation.historyKeys == Keys(observation.transitions)
    requires i < |observation.transitions| && observation.transitions[i].burnId == key
    ensures SelectPayout(observation, key) == Ok((i, observation.transitions[i]))
  {
    OneMatch(observation.historyKeys, key, i);
  }

  /** From an accepted reconstruction a payout is selected for exactly the settled keys, and
      it is the transition that inserted the key. */
  lemma PayoutExact(env: Env, raw: seq<RawBox>, lineage: seq<DupBox>, transitions: seq<Transition>, key: Bytes)
    requires LawfulTree(env) && Accepted(env, raw, lineage, transitions)
    ensures var selected := SelectPayout(Observe(env, lineage, transitions), key);
            && (selected.Ok? <==> exists i :: 0 <= i < |transitions| && transitions[i].burnId == key)
            && (forall i :: 0 <= i < |transitions| && transitions[i].burnId == key ==>
                  selected == Ok((i, transitions[i])))
  {
    assert lineage != [];
    hide Accepted, Matches;
    var keys := Keys(transitions);
    assert Distinct(keys) by { AcceptedHistory(env, raw, lineage, transitions); }
    if i :| 0 <= i < |transitions| && transitions[i].burnId == key {
      forall j | 0 <= j < |transitions| && transitions[j].burnId == key
        ensures SelectPayout(Observe(env, lineage, transitions), key) == Ok((j, transitions[j]))
      {
        SelectSettled(Observe(env, lineage, transitions), key, j);
      }
    } else {
      NoMatches(keys, key);
    }
  }
}
