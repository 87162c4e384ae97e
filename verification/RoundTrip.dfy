/**
  Writer and reader together: a run of settlements built one after the other from a valid
  genesis, mined and indexed, is accepted by the reconstruction, which returns exactly the
  settled burn ids in order, whatever order the index lists the boxes in.
 */
module RoundTrip {
  import opened Prelude
  import Codec
  import L = Lineage
  import opened DupReplay
  import opened CausalSettlement

  /** Where the chain put a transaction: its id, its block, the ids of its outputs. */
  datatype Mined = Mined(txId: Bytes, blockId: Bytes, height: nat, outputIds: seq<Bytes>)

  /** A run: boxes[i] is the singleton before settlement i, txs[i] what was built from it. */
  datatype Run = Run(
    genesisTx: Bytes, genesisHeight: nat,
    boxes: seq<BoxLike>, requests: seq<Request>, txs: seq<UnsignedTx>, mined: seq<Mined>)

  function RunKeys(run: Run): (keys: seq<Bytes>)
    ensures |keys| == |run.requests|
    ensures forall i :: 0 <= i < |keys| ==> keys[i] == run.requests[i].key
  {
    seq(|run.requests|, i requires 0 <= i < |run.requests| => run.requests[i].key)
  }

  ghost predicate Shaped(run: Run) {
    && |run.boxes| == |run.requests| + 1
    && |run.txs| == |run.mined| == |run.requests|
  }

  /** The genesis singleton: counter 0, empty tree that permits inserts, a proveDlog authority. */
  ghost predicate ValidGenesis(env: Env, box: BoxLike, flags: Byte, authority: Bytes) {
    && PositiveLong(box.value)
    && box.ergoTree == env.dupTree
    && box.assets == [Asset(env.nftId, 1)]
    && flags % 2 == 1
    && env.isDlogRegister(authority)
    && box.registers ==
       map[R4 := Codec.EncodeLong(0), R5 := Codec.EncodeAvl(env.emptyDigest, flags), R6 := authority]
  }

  /** Settlement i was planned against the first i keys, built from box i, and mined. */
  ghost predicate Settled(env: Env, run: Run, i: nat)
    requires Shaped(run) && i < |run.requests|
  {
    var plan := BuildPlan(env, RunKeys(run)[..i], run.requests[i].key);
    var tx, mined := run.txs[i], run.mined[i];
    && plan.Ok?
    && BuildTx(env, plan.value, run.boxes[i], run.requests[i]) == Ok(tx)
    && tx.outputs != []
    && run.boxes[i + 1] ==
       BoxLike(IdAt(mined, 0), tx.outputs[0].value, tx.outputs[0].ergoTree, tx.outputs[0].assets, tx.outputs[0].registers)
  }

  ghost predicate ValidRun(env: Env, run: Run, flags: Byte, authority: Bytes) {
    && Shaped(run)
    && ValidGenesis(env, run.boxes[0], flags, authority)
    && (forall i :: 0 <= i < |run.requests| ==> Settled(env, run, i))
  }

  /** Creating transaction and height of box i. */
  function CreatedBy(run: Run, i: nat): Bytes
    requires i <= |run.mined|
  {
    if i == 0 then run.genesisTx else run.mined[i - 1].txId
  }

  function CreatedAt(run: Run, i: nat): nat
    requires i <= |run.mined|
  {
    if i == 0 then run.genesisHeight else run.mined[i - 1].height
  }

  ghost predicate Apart(run: Run, i: nat, j: nat)
    requires Shaped(run) && i < |run.boxes| && j < |run.boxes|
  {
    run.boxes[i].boxId != run.boxes[j].boxId && CreatedBy(run, i) != CreatedBy(run, j)
  }

  /** Hash identities do not collide. */
  ghost predicate FreshIds(run: Run)
    requires Shaped(run)
  {
    forall i, j :: 0 <= i < j < |run.boxes| ==> Apart(run, i, j)
  }

  // ----- What the node reports -----

  /** Box i as the extra index lists it. */
  function IndexedBox(run: Run, i: nat): RawBox
    requires i <= |run.mined| == |run.txs| && |run.boxes| == |run.mined| + 1
  {
    var box := run.boxes[i];
    var spent := i < |run.mined|;
    RawBox(
      box.boxId, CreatedBy(run, i), 0, CreatedAt(run, i), box.value, box.ergoTree, box.assets, box.registers,
      if spent then Some(run.mined[i].txId) else None,
      if spent then Some(run.txs[i].dupInput.extension) else None)
  }

  function IdAt(mined: Mined, k: nat): Bytes {
    if k < |mined.outputIds| then mined.outputIds[k] else []
  }

  function MinedOutputs(tx: UnsignedTx, mined: Mined): (r: seq<TxOutput>) {
    seq(|tx.outputs|, k requires 0 <= k < |tx.outputs| =>
      TxOutput(IdAt(mined, k), mined.txId, k,
               tx.outputs[k].value, tx.outputs[k].ergoTree, tx.outputs[k].assets, tx.outputs[k].registers))
  }

  function MinedTx(tx: UnsignedTx, mined: Mined, vaultExtension: Extension): IndexedTx {
    IndexedTx(
      mined.txId, mined.blockId, mined.height,
      [TxInput(Some(tx.dupInput.boxId), Some(tx.dupInput.extension)), TxInput(Some(tx.vaultInput), Some(vaultExtension))],
      1, MinedOutputs(tx, mined))
  }

  /** The setup transaction mints the NFT from its only input and creates the genesis first. */
  ghost predicate SetupReported(env: Env, run: Run)
    requires Shaped(run)
  {
    var genesis := run.boxes[0];
    env.source.transactions(run.genesisTx).Some?
    && var setup := env.source.transactions(run.genesisTx).value;
       && setup.id == run.genesisTx
       && setup.inclusionHeight == run.genesisHeight
       && |setup.inputs| == 1 && setup.dataInputs == 0 && |setup.outputs| >= 2
       && setup.inputs[0].boxId == Some(env.nftId)
       && setup.outputs[0] ==
          TxOutput(genesis.boxId, run.genesisTx, 0, genesis.value, genesis.ergoTree, genesis.assets, genesis.registers)
  }

  ghost predicate SettlementReported(env: Env, run: Run, i: nat)
    requires Shaped(run) && i < |run.mined|
  {
    && (exists ext :: env.source.transactions(run.mined[i].txId) == Some(MinedTx(run.txs[i], run.mined[i], ext)))
    && env.source.headers(run.mined[i].blockId) == Some(Header(run.mined[i].blockId, run.mined[i].height))
  }

  /** The node reports the run: transactions, block headers, and the tip in the UTXO set. */
  ghost predicate Reported(env: Env, run: Run)
    requires Shaped(run)
  {
    && SetupReported(env, run)
    && (forall i :: 0 <= i < |run.mined| ==> SettlementReported(env, run, i))
    && (exists creationHeight ::
          env.source.utxo(run.boxes[|run.mined|].boxId)
          == Some(IndexedBox(run, |run.mined|).(inclusionHeight := creationHeight)))
  }

  ghost predicate ProofFits(env: Env, run: Run, i: nat)
    requires i < |run.requests|
  {
    var proof := env.avl.insert(RunKeys(run)[..i], run.requests[i].key);
    |proof.lookup| <= MAX_DUP_PROOF_BYTES && |proof.insert| <= MAX_DUP_PROOF_BYTES
  }

  /** The tree library's proofs fit the reconstruction's byte bound. */
  ghost predicate ProofsFit(env: Env, run: Run) {
    forall i :: 0 <= i < |run.requests| ==> ProofFits(env, run, i)
  }

  // ----- The written boxes -----

  /** Box i of a valid run: counter i, digest of the first i keys, everything else as in genesis. */
  ghost predicate WrittenBox(env: Env, box: BoxLike, keys: seq<Bytes>, value: int, flags: Byte, authority: Bytes) {
    && |keys| <= MAX_SAFE_INTEGER
    && box.value == value
    && box.ergoTree == env.dupTree
    && box.assets == [Asset(env.nftId, 1)]
    && box.registers ==
       map[R4 := Codec.EncodeLong(|keys|), R5 := Codec.EncodeAvl(env.avl.digest(keys), flags), R6 := authority]
  }

  lemma SuccessorWritten(
    env: Env, box: BoxLike, keys: seq<Bytes>, key: Bytes, value: int, flags: Byte, authority: Bytes, plan: Plan,
    output: Output)
    requires LawfulTree(env) && flags % 2 == 1
    requires WrittenBox(env, box, keys, value, flags, authority)
    requires BuildPlan(env, keys, key) == Ok(plan)
    requires SuccessorOutput(env, plan, box) == Ok(output)
    ensures forall id :: WrittenBox(env, BoxLike(id, output.value, output.ergoTree, output.assets, output.registers),
                                    keys + [key], value, flags, authority)
  {
    hide Codec.DecodeAvl, Codec.EncodeAvl, Codec.DecodeLongSpec, Codec.EncodeLong;
    Codec.AvlRoundTrip(env.avl.digest(keys), flags);
    CounterReads(|keys|);
    assert output == Output(value, env.dupTree, [Asset(env.nftId, 1)],
                            SuccessorRegisters(|keys|, env.avl.digest(keys + [key]), flags, authority));
  }

  lemma CounterReads(n: nat)
    requires n <= MAX_SAFE_INTEGER
    ensures Codec.DecodeLongSpec(Some(Codec.EncodeLong(n))) == Ok(n)
  {
    hide Codec.DecodeLongSpec, Codec.EncodeLong;
    Codec.LongRoundTrip(n, []);
    assert Codec.EncodeLong(n) + [] == Codec.EncodeLong(n);
  }

  lemma {:induction false} RunWrites(env: Env, run: Run, flags: Byte, authority: Bytes, i: nat)
    requires LawfulTree(env) && ValidRun(env, run, flags, authority) && i <= |run.requests|
    ensures WrittenBox(env, run.boxes[i], RunKeys(run)[..i], run.boxes[0].value, flags, authority)
  {
    hide BuildPlan, SuccessorOutput, PlanAmounts, Codec.EncodeAvl, Codec.EncodeLong;
    var keys := RunKeys(run);
    if i == 0 {
      assert keys[..0] == [];
    } else {
      RunWrites(env, run, flags, authority, i - 1);
      assert Settled(env, run, i - 1);
      var key := run.requests[i - 1].key;
      var plan := BuildPlan(env, keys[..i - 1], key).value;
      SuccessorWritten(env, run.boxes[i - 1], keys[..i - 1], key, run.boxes[0].value, flags, authority, plan,
                       run.txs[i - 1].outputs[0]);
      assert keys[..i] == keys[..i - 1] + [key];
    }
  }

  function RegisterOr(registers: Registers, register: Register): Bytes {
    if register in registers then registers[register] else []
  }

  function ReadPayload(box: BoxLike): Payload {
    Payload(box.value,
            DupRegisters(RegisterOr(box.registers, R4), RegisterOr(box.registers, R5), RegisterOr(box.registers, R6)))
  }

  lemma WrittenNormalizes(env: Env, box: BoxLike, keys: seq<Bytes>, flags: Byte, authority: Bytes)
    requires LawfulTree(env) && flags % 2 == 1 && env.isDlogRegister(authority)
    requires box.value > 0 && WrittenBox(env, box, keys, box.value, flags, authority)
    ensures NormalizePayload(env, box.value, box.ergoTree, box.assets, box.registers) == Ok(ReadPayload(box))
    ensures Codec.DecodeCanonicalLongSpec(box.registers[R4]) == Ok(|keys|)
    ensures Codec.DecodeAvl(box.registers[R5]) == Ok(Codec.AvlRegister(env.avl.digest(keys), flags))
  {
    hide Codec.DecodeAvl, Codec.EncodeAvl, Codec.DecodeCanonicalLongSpec, Codec.EncodeLong;
    Codec.AvlRoundTrip(env.avl.digest(keys), flags);
    Codec.CanonicalLongExact(box.registers[R4], |keys|);
  }

  lemma ExtensionReads(key: Bytes, lookup: Bytes, insert: Bytes)
    requires |key| == 32 && |lookup| <= MAX_DUP_PROOF_BYTES && |insert| <= MAX_DUP_PROOF_BYTES
    ensures var ext := DupExtension(key, lookup, insert);
            && NormalizeExtension(ext) == Ok(ext)
            && BurnKey(ext) == Ok(key)
            && Codec.DecodeCollSpec(ext[0], Some(MAX_DUP_PROOF_BYTES)) == Ok(lookup)
            && Codec.DecodeCollSpec(ext[2], Some(MAX_DUP_PROOF_BYTES)) == Ok(insert)
  {
    hide Codec.DecodeCollSpec, Codec.EncodeColl;
    var ext := DupExtension(key, lookup, insert);
    Codec.CollRoundTrip(key, None);
    Codec.CollRoundTrip(lookup, Some(MAX_DUP_PROOF_BYTES));
    Codec.CollRoundTrip(insert, Some(MAX_DUP_PROOF_BYTES));
    CollSize(key);
    CollSize(lookup);
    CollSize(insert);
    assert ext.Keys == {0, 1, 2};
    assert |{0, 1, 2}| == 3;
  }

  lemma CollSize(data: Bytes)
    requires |data| <= MAX_DUP_PROOF_BYTES
    ensures 0 < |Codec.EncodeColl(data)| <= MAX_DUP_PROOF_BYTES + 16
  {
    Codec.VlqDigits(|data|, 2) by {
      assert Codec.Base128(2) == 128 * 128 * 128;
    }
  }

  // ----- The reader on the written run -----

  /** Box i as the reconstruction normalizes it. */
  function LineageBox(run: Run, i: nat): DupBox
    requires i <= |run.mined| == |run.txs| && |run.boxes| == |run.mined| + 1
  {
    var raw := IndexedBox(run, i);
    L.Box(raw.boxId, raw.txId, raw.spentBy, Indexed(ReadPayload(run.boxes[i]), raw.inclusionHeight, raw.extension))
  }

  /** The transition the reconstruction derives from settlement i. */
  function ExpectedTransition(env: Env, run: Run, i: nat): Transition
    requires Shaped(run) && i < |run.requests|
    requires |run.txs[i].outputs| >= 3
  {
    var tx, mined := run.txs[i], run.mined[i];
    Transition(
      run.requests[i].key, mined.txId, mined.blockId, mined.height,
      run.boxes[i].boxId, run.boxes[i + 1].boxId, tx.vaultInput,
      if |tx.outputs| == 4 then Some(IdAt(mined, 2)) else None,
      IdAt(mined, 1), tx.outputs[1].value, tx.outputs[|tx.outputs| - 1].value,
      env.avl.digest(RunKeys(run)[..i] + [run.requests[i].key]))
  }

  /** The assumptions of the round trip. */
  ghost predicate World(env: Env, run: Run, flags: Byte, authority: Bytes) {
    && Shaped(run)
    && LawfulTree(env)
    && ValidRun(env, run, flags, authority)
    && FreshIds(run)
    && Reported(env, run)
    && ProofsFit(env, run)
  }

  lemma RunBox(env: Env, run: Run, flags: Byte, authority: Bytes, i: nat)
    requires World(env, run, flags, authority) && i <= |run.requests|
    ensures WrittenBox(env, run.boxes[i], RunKeys(run)[..i], run.boxes[0].value, flags, authority)
    ensures run.boxes[i].value == run.boxes[0].value > 0
    ensures var box := run.boxes[i];
            && NormalizePayload(env, box.value, box.ergoTree, box.assets, box.registers) == Ok(ReadPayload(box))
            && Codec.DecodeCanonicalLongSpec(ReadPayload(box).registers.r4) == Ok(i)
            && Codec.DecodeAvl(ReadPayload(box).registers.r5)
               == Ok(Codec.AvlRegister(env.avl.digest(RunKeys(run)[..i]), flags))
            && ReadPayload(box).registers.r6 == authority
  {
    hide Settled, NormalizePayload, Codec.DecodeCanonicalLongSpec, Codec.DecodeAvl, Codec.EncodeAvl, Codec.EncodeLong;
    RunWrites(env, run, flags, authority, i);
    WrittenNormalizes(env, run.boxes[i], RunKeys(run)[..i], flags, authority);
  }

  /** What settlement i put on chain, in the reader's terms. */
  lemma BuiltSettlement(env: Env, run: Run, flags: Byte, authority: Bytes, i: nat)
    requires World(env, run, flags, authority) && i < |run.requests|
    ensures var history, key := RunKeys(run)[..i], run.requests[i].key;
            var proof := env.avl.insert(history, key);
            && key !in history && |key| == 32
            && run.txs[i].dupInput == Input(run.boxes[i].boxId, DupExtension(key, proof.lookup, proof.insert))
            && |proof.lookup| <= MAX_DUP_PROOF_BYTES && |proof.insert| <= MAX_DUP_PROOF_BYTES
    ensures (|run.txs[i].outputs| == 3 || |run.txs[i].outputs| == 4)
    ensures run.boxes[i + 1].boxId == IdAt(run.mined[i], 0)
    ensures var successor, out := run.boxes[i + 1], run.txs[i].outputs[0];
            out == Output(successor.value, successor.ergoTree, successor.assets, successor.registers)
    ensures run.txs[i].outputs[1].value > 0 && run.txs[i].outputs[1].assets == []
    ensures var fee := run.txs[i].outputs[|run.txs[i].outputs| - 1];
            && fee.assets == [] && fee.ergoTree == env.minerFeeTree
            && MIN_MINER_FEE <= fee.value <= MAX_MINER_FEE
  {
    hide SuccessorOutput, PlanAmounts, DupExtension;
    assert Settled(env, run, i) && ProofFits(env, run, i);
    var plan := BuildPlan(env, RunKeys(run)[..i], run.requests[i].key).value;
    BuiltTxConserves(env, plan, run.boxes[i], run.requests[i], run.txs[i]);
  }

  /** The replay step from the results of its parts. */
  lemma StepFrom(
    env: Env, history: seq<Bytes>, current: DupBox, successor: DupBox, authority: Bytes, tx: IndexedTx, key: Bytes)
    requires current.spentBy.Some? && current.payload.context.Some?
    requires Codec.DecodeAvl(current.payload.payload.registers.r5).Ok?
    requires Codec.DecodeAvl(current.payload.payload.registers.r5).value.digest == env.avl.digest(history)
    requires FetchSettlement(env, current, successor) == Ok(tx) && SettlementShape(tx)
    requires CheckSpend(env, tx, current, successor).Ok?
    requires BurnKey(current.payload.context.value) == Ok(key)
    requires CheckProofs(env, history, current.payload.context.value, key) == Ok(env.avl.digest(history + [key]))
    requires CheckSuccessor(env, env.avl.digest(history + [key]), current.payload.payload, successor.payload.payload,
                            authority).Ok?
    requires CheckPayoutAndFee(env, tx).Ok?
    ensures Step(env, history, current, successor, authority) ==
            Ok(Transition(
                 key, tx.id, tx.blockId, tx.inclusionHeight, current.boxId, successor.boxId,
                 tx.inputs[1].boxId.value,
                 if |tx.outputs| == 4 then Some(tx.outputs[2].boxId) else None,
                 tx.outputs[1].boxId, tx.outputs[1].value, tx.outputs[|tx.outputs| - 1].value,
                 env.avl.digest(history + [key])))
  {
    hide Codec.DecodeAvl, FetchSettlement, CheckSpend, BurnKey, CheckProofs, CheckSuccessor, CheckPayoutAndFee;
  }

  lemma StepReads(env: Env, run: Run, flags: Byte, authority: Bytes, i: nat)
    requires World(env, run, flags, authority) && i < |run.requests|
    requires |run.txs[i].outputs| >= 3
    ensures Step(env, RunKeys(run)[..i], LineageBox(run, i), LineageBox(run, i + 1), authority)
         == Ok(ExpectedTransition(env, run, i))
  {
    hide Step, Codec.DecodeAvl, FetchSettlement, CheckSpend, BurnKey, CheckProofs, CheckSuccessor, CheckPayoutAndFee,
      LineageBox, MinedTx, ExpectedTransition, ReadPayload, SettlementShape;
    var history, key := RunKeys(run)[..i], run.requests[i].key;
    var ext := FetchReads(env, run, flags, authority, i);
    var tx := MinedTx(run.txs[i], run.mined[i], ext);
    SpentBox(run, i);
    ProofsRead(env, run, flags, authority, i);
    SuccessorReads(env, run, flags, authority, i);
    PayoutReads(env, run, flags, authority, i, ext);
    InputDigestReads(env, run, flags, authority, i);
    StepFrom(env, history, LineageBox(run, i), LineageBox(run, i + 1), authority, tx, key);
    TransitionMatches(env, run, i, ext);
  }

  lemma SpentBox(run: Run, i: nat)
    requires Shaped(run) && i < |run.requests|
    ensures LineageBox(run, i).spentBy == Some(run.mined[i].txId)
    ensures LineageBox(run, i).payload.context == Some(run.txs[i].dupInput.extension)
    ensures LineageBox(run, i).payload.payload == ReadPayload(run.boxes[i])
    ensures LineageBox(run, i + 1).payload.payload == ReadPayload(run.boxes[i + 1])
  {
    hide ReadPayload;
  }

  lemma TransitionMatches(env: Env, run: Run, i: nat, ext: Extension)
    requires Shaped(run) && i < |run.requests|
    requires |run.txs[i].outputs| >= 3
    ensures var tx, current, successor := MinedTx(run.txs[i], run.mined[i], ext), LineageBox(run, i), LineageBox(run, i + 1);
            && |tx.inputs| == 2 && tx.inputs[1].boxId.Some? && |tx.outputs| == |run.txs[i].outputs|
            && ExpectedTransition(env, run, i) ==
               Transition(
                 run.requests[i].key, tx.id, tx.blockId, tx.inclusionHeight, current.boxId, successor.boxId,
                 tx.inputs[1].boxId.value,
                 if |tx.outputs| == 4 then Some(tx.outputs[2].boxId) else None,
                 tx.outputs[1].boxId, tx.outputs[1].value, tx.outputs[|tx.outputs| - 1].value,
                 env.avl.digest(RunKeys(run)[..i] + [run.requests[i].key]))
  {
    hide ReadPayload;
  }

  lemma InputDigestReads(env: Env, run: Run, flags: Byte, authority: Bytes, i: nat)
    requires World(env, run, flags, authority) && i < |run.requests|
    ensures var r5 := LineageBox(run, i).payload.payload.registers.r5;
            Codec.DecodeAvl(r5).Ok? && Codec.DecodeAvl(r5).value.digest == env.avl.digest(RunKeys(run)[..i])
  {
    hide Codec.DecodeAvl, Codec.DecodeCanonicalLongSpec, NormalizePayload, WrittenBox;
    RunBox(env, run, flags, authority, i);
  }

  lemma ReportedTx(env: Env, run: Run, flags: Byte, authority: Bytes, i: nat) returns (ext: Extension)
    requires World(env, run, flags, authority) && i < |run.requests|
    ensures env.source.transactions(run.mined[i].txId) == Some(MinedTx(run.txs[i], run.mined[i], ext))
    ensures env.source.headers(run.mined[i].blockId) == Some(Header(run.mined[i].blockId, run.mined[i].height))
  {
    assert Shaped(run);
    assert SettlementReported(env, run, i);
    ext :| env.source.transactions(run.mined[i].txId) == Some(MinedTx(run.txs[i], run.mined[i], ext));
  }

  lemma FetchReads(env: Env, run: Run, flags: Byte, authority: Bytes, i: nat) returns (ext: Extension)
    requires World(env, run, flags, authority) && i < |run.requests|
    ensures var tx := MinedTx(run.txs[i], run.mined[i], ext);
            && FetchSettlement(env, LineageBox(run, i), LineageBox(run, i + 1)) == Ok(tx)
            && SettlementShape(tx)
            && CheckSpend(env, tx, LineageBox(run, i), LineageBox(run, i + 1)).Ok?
  {
    hide NormalizePayload, NormalizeExtension, DupExtension, BurnKey, ReadPayload, WrittenBox,
      Codec.DecodeCanonicalLongSpec, Codec.DecodeAvl, Codec.DecodeCollSpec;
    ext := ReportedTx(env, run, flags, authority, i);
    BuiltSettlement(env, run, flags, authority, i);
    var tx := MinedTx(run.txs[i], run.mined[i], ext);
    assert FetchSettlement(env, LineageBox(run, i), LineageBox(run, i + 1)) == Ok(tx);
    SpendReads(env, run, flags, authority, i, ext);
  }

  lemma SpendReads(env: Env, run: Run, flags: Byte, authority: Bytes, i: nat, ext: Extension)
    requires World(env, run, flags, authority) && i < |run.requests| && run.txs[i].outputs != []
    requires SettlementShape(MinedTx(run.txs[i], run.mined[i], ext))
    ensures CheckSpend(env, MinedTx(run.txs[i], run.mined[i], ext), LineageBox(run, i), LineageBox(run, i + 1)).Ok?
  {
    hide NormalizeExtension, OutputMatches, ReadPayload, MinedOutputs, CheckSpend, SettlementShape;
    ContextReads(env, run, flags, authority, i);
    SuccessorMatches(env, run, flags, authority, i, ext);
    SpendFrom(env, MinedTx(run.txs[i], run.mined[i], ext), LineageBox(run, i), LineageBox(run, i + 1));
  }

  lemma SpendFrom(env: Env, tx: IndexedTx, current: DupBox, successor: DupBox)
    requires SettlementShape(tx) && current.payload.context.Some?
    requires tx.inputs[0] == TxInput(Some(current.boxId), current.payload.context) && tx.inputs[1].boxId.Some?
    requires NormalizeExtension(current.payload.context.value) == Ok(current.payload.context.value)
    requires OutputMatches(env, tx.outputs[0], successor)
    ensures CheckSpend(env, tx, current, successor).Ok?
  {
    hide NormalizeExtension, OutputMatches;
  }

  /** The writer's extension passes the reader's schema, and spends box i. */
  lemma ContextReads(env: Env, run: Run, flags: Byte, authority: Bytes, i: nat)
    requires World(env, run, flags, authority) && i < |run.requests|
    ensures NormalizeExtension(run.txs[i].dupInput.extension) == Ok(run.txs[i].dupInput.extension)
    ensures run.txs[i].dupInput.boxId == run.boxes[i].boxId
  {
    hide NormalizeExtension, DupExtension, BurnKey, Codec.DecodeCollSpec;
    BuiltSettlement(env, run, flags, authority, i);
    var proof := env.avl.insert(RunKeys(run)[..i], run.requests[i].key);
    ExtensionReads(run.requests[i].key, proof.lookup, proof.insert);
  }

  lemma SuccessorMatches(env: Env, run: Run, flags: Byte, authority: Bytes, i: nat, ext: Extension)
    requires World(env, run, flags, authority) && i < |run.requests|
    requires |run.txs[i].outputs| > 0
    ensures OutputMatches(env, MinedTx(run.txs[i], run.mined[i], ext).outputs[0], LineageBox(run, i + 1))
  {
    hide NormalizePayload, DupExtension, ReadPayload, WrittenBox, Codec.DecodeCanonicalLongSpec, Codec.DecodeAvl;
    BuiltSettlement(env, run, flags, authority, i);
    RunBox(env, run, flags, authority, i + 1);
  }

  lemma ProofsRead(env: Env, run: Run, flags: Byte, authority: Bytes, i: nat)
    requires World(env, run, flags, authority) && i < |run.requests|
    ensures var context, history, key := run.txs[i].dupInput.extension, RunKeys(run)[..i], run.requests[i].key;
            && BurnKey(context) == Ok(key)
            && context.Keys == {0, 1, 2}
            && CheckProofs(env, history, context, key) == Ok(env.avl.digest(history + [key]))
  {
    hide Codec.DecodeCollSpec, DupExtension, BurnKey;
    BuiltSettlement(env, run, flags, authority, i);
    var proof := env.avl.insert(RunKeys(run)[..i], run.requests[i].key);
    ExtensionReads(run.requests[i].key, proof.lookup, proof.insert);
  }

  lemma SuccessorReads(env: Env, run: Run, flags: Byte, authority: Bytes, i: nat)
    requires World(env, run, flags, authority) && i < |run.requests|
    ensures CheckSuccessor(env, env.avl.digest(RunKeys(run)[..i] + [run.requests[i].key]),
                           ReadPayload(run.boxes[i]), ReadPayload(run.boxes[i + 1]), authority).Ok?
  {
    hide Codec.DecodeAvl, Codec.DecodeCanonicalLongSpec, NormalizePayload, WrittenBox;
    RunBox(env, run, flags, authority, i);
    RunBox(env, run, flags, authority, i + 1);
    assert RunKeys(run)[..i + 1] == RunKeys(run)[..i] + [run.requests[i].key];
  }

  lemma PayoutReads(env: Env, run: Run, flags: Byte, authority: Bytes, i: nat, ext: Extension)
    requires World(env, run, flags, authority) && i < |run.requests|
    ensures SettlementShape(MinedTx(run.txs[i], run.mined[i], ext))
    ensures CheckPayoutAndFee(env, MinedTx(run.txs[i], run.mined[i], ext)).Ok?
  {
    hide DupExtension;
    BuiltSettlement(env, run, flags, authority, i);
  }

  // ----- The theorem -----

  function RunLineage(run: Run): (lineage: seq<DupBox>)
    requires Shaped(run)
    ensures |lineage| == |run.boxes|
    ensures forall i :: 0 <= i < |lineage| ==> lineage[i] == LineageBox(run, i)
  {
    seq(|run.boxes|, i requires 0 <= i < |run.boxes| => LineageBox(run, i))
  }

  function RunIndex(run: Run): (boxes: seq<RawBox>)
    requires Shaped(run)
    ensures |boxes| == |run.boxes|
    ensures forall i :: 0 <= i < |boxes| ==> boxes[i] == IndexedBox(run, i)
  {
    seq(|run.boxes|, i requires 0 <= i < |run.boxes| => IndexedBox(run, i))
  }

  function RunTransitions(env: Env, run: Run): (transitions: seq<Transition>)
    requires Shaped(run)
    requires forall i :: 0 <= i < |run.requests| ==> |run.txs[i].outputs| >= 3
    ensures |transitions| == |run.requests|
    ensures forall i :: 0 <= i < |transitions| ==> transitions[i] == ExpectedTransition(env, run, i)
  {
    seq(|run.requests|, i requires 0 <= i < |run.requests| => ExpectedTransition(env, run, i))
  }

  lemma RunReads(env: Env, run: Run, flags: Byte, authority: Bytes)
    requires World(env, run, flags, authority)
    ensures forall i :: 0 <= i < |run.requests| ==> |run.txs[i].outputs| >= 3
    ensures Replays(env, RunLineage(run), RunTransitions(env, run))
    ensures Keys(RunTransitions(env, run)) == RunKeys(run)
  {
    hide Step, NormalizePayload, Codec.DecodeAvl, Codec.DecodeCanonicalLongSpec, WrittenBox;
    forall i | 0 <= i < |run.boxes|
      {
      RunBox(env, run, flags, authority, i);
    }
    forall i | 0 <= i < |run.requests|
      ensures |run.txs[i].outputs| >= 3
    {
      BuiltSettlement(env, run, flags, authority, i);
    }
    var lineage, transitions := RunLineage(run), RunTransitions(env, run);
    assert Keys(transitions) == RunKeys(run);
    RunBox(env, run, flags, authority, 0);
    assert lineage[0].payload.payload.registers.r6 == authority;
    forall i | 0 <= i < |transitions|
      ensures Step(env, Keys(transitions)[..i], lineage[i], lineage[i + 1], lineage[0].payload.payload.registers.r6)
           == Ok(transitions[i])
    {
      StepReads(env, run, flags, authority, i);
    }
  }

  lemma RunIsChain(env: Env, run: Run, flags: Byte, authority: Bytes)
    requires World(env, run, flags, authority)
    ensures L.IsChain(RunLineage(run))
  {
    hide ReadPayload;
    var lineage := RunLineage(run);
    forall i, j | 0 <= i < j < |lineage|
      ensures lineage[i].boxId != lineage[j].boxId && lineage[i].txId != lineage[j].txId
    {
      assert Apart(run, i, j);
      assert lineage[i] == LineageBox(run, i) && lineage[j] == LineageBox(run, j);
    }
    forall i | 0 <= i < |lineage| - 1
      ensures lineage[i].spentBy == Some(lineage[i + 1].txId)
    {
      assert lineage[i] == LineageBox(run, i) && lineage[i + 1] == LineageBox(run, i + 1);
    }
  }

  lemma BoxNormalizes(env: Env, run: Run, flags: Byte, authority: Bytes, i: nat)
    requires World(env, run, flags, authority) && i < |run.boxes|
    ensures NormalizeBox(env, IndexedBox(run, i)) == Ok(LineageBox(run, i))
  {
    hide NormalizePayload, NormalizeExtension, ReadPayload, WrittenBox,
      Codec.DecodeCanonicalLongSpec, Codec.DecodeAvl;
    RunBox(env, run, flags, authority, i);
    if i < |run.requests| {
      ContextReads(env, run, flags, authority, i);
    }
  }

  lemma GenesisReads(env: Env, run: Run, flags: Byte, authority: Bytes)
    requires World(env, run, flags, authority)
    ensures CheckGenesis(env, LineageBox(run, 0)).Ok?
  {
    hide NormalizePayload, Codec.DecodeAvl, Codec.DecodeCanonicalLongSpec, WrittenBox, ReadPayload, CheckGenesis;
    RunBox(env, run, flags, authority, 0);
    assert RunKeys(run)[..0] == [];
    GenesisPasses(env, LineageBox(run, 0), env.source.transactions(run.genesisTx).value, flags);
  }

  lemma GenesisPasses(env: Env, genesis: DupBox, setup: IndexedTx, flags: Byte)
    requires env.source.transactions(genesis.txId) == Some(setup)
    requires setup.id == genesis.txId && setup.inclusionHeight == genesis.payload.inclusionHeight
    requires |setup.inputs| == 1 && setup.dataInputs == 0 && |setup.outputs| >= 2
    requires setup.inputs[0].boxId == Some(env.nftId) && OutputMatches(env, setup.outputs[0], genesis)
    requires Codec.DecodeCanonicalLongSpec(genesis.payload.payload.registers.r4) == Ok(0)
    requires Codec.DecodeAvl(genesis.payload.payload.registers.r5) == Ok(Codec.AvlRegister(env.emptyDigest, flags))
    ensures CheckGenesis(env, genesis).Ok?
  {
    hide Codec.DecodeAvl, Codec.DecodeCanonicalLongSpec, OutputMatches;
  }

  lemma TipReads(env: Env, run: Run, flags: Byte, authority: Bytes)
    requires World(env, run, flags, authority)
    ensures CheckTip(env, LineageBox(run, |run.mined|)).Ok?
  {
    hide SetupReported, NormalizePayload, Codec.DecodeAvl, Codec.DecodeCanonicalLongSpec, WrittenBox, ReadPayload,
         CheckTip, SettlementReported;
    RunBox(env, run, flags, authority, |run.mined|);
    TipPasses(env, LineageBox(run, |run.mined|), env.source.utxo(run.boxes[|run.mined|].boxId).value);
  }

  lemma TipPasses(env: Env, tip: DupBox, raw: RawBox)
    requires env.source.utxo(tip.boxId) == Some(raw) && raw.spentBy == None && raw.extension == None
    requires NormalizePayload(env, raw.value, raw.ergoTree, raw.assets, raw.registers) == Ok(tip.payload.payload)
    requires raw.boxId == tip.boxId && raw.txId == tip.txId && raw.index == 0
    ensures CheckTip(env, tip).Ok?
  {
    hide NormalizePayload;
  }

  function MapSeq<T, U>(f: T -> U, s: seq<T>): (r: seq<U>)
    ensures |r| == |s| && forall i :: 0 <= i < |s| ==> r[i] == f(s[i])
  {
    seq(|s|, i requires 0 <= i < |s| => f(s[i]))
  }

  lemma MapSplit<T, U>(f: T -> U, s: seq<T>, k: nat)
    requires k < |s|
    ensures multiset(MapSeq(f, s)) == multiset(MapSeq(f, s[..k] + s[k + 1..])) + multiset{f(s[k])}
    ensures multiset(s) == multiset(s[..k] + s[k + 1..]) + multiset{s[k]}
  {
    assert s == s[..k] + [s[k]] + s[k + 1..];
    var m, rest := MapSeq(f, s), MapSeq(f, s[..k] + s[k + 1..]);
    assert rest == rest[..k] + rest[k..];
    assert m == rest[..k] + [f(s[k])] + rest[k..];
  }

  lemma CancelOne<T>(a: multiset<T>, b: multiset<T>, x: T)
    requires a + multiset{x} == b + multiset{x}
    ensures a == b
  {
    assert a == a + multiset{x} - multiset{x};
    assert b == b + multiset{x} - multiset{x};
  }

  /** Mapping a permutation gives a permutation. */
  lemma {:induction false} MapPermutes<T, U>(f: T -> U, a: seq<T>, b: seq<T>)
    requires multiset(a) == multiset(b)
    ensures multiset(MapSeq(f, a)) == multiset(MapSeq(f, b))
    decreases |a|
  {
    SameMembers(a, b);
    if a != [] {
      assert a[0] in b;
      var k :| 0 <= k < |b| && b[k] == a[0];
      var a', b' := a[..0] + a[1..], b[..k] + b[k + 1..];
      MapSplit(f, a, 0);
      MapSplit(f, b, k);
      CancelOne(multiset(a'), multiset(b'), a[0]);
      MapPermutes(f, a', b');
    }
  }

  /** Permuting a listing permutes its normalization. */
  lemma NormalizationPermutes(
    env: Env, raw: seq<RawBox>, boxes: seq<DupBox>, listing: seq<RawBox>) returns (read: seq<DupBox>)
    requires Normalizes(env, raw, boxes) && multiset(listing) == multiset(raw) && raw != []
    ensures Normalizes(env, listing, read) && multiset(read) == multiset(boxes)
  {
    hide NormalizeBox;
    var f := (r: RawBox) => if NormalizeBox(env, r).Ok? then NormalizeBox(env, r).value else boxes[0];
    assert MapSeq(f, raw) == boxes;
    read := MapSeq(f, listing);
    MapPermutes(f, listing, raw);
    SameMembers(listing, raw);
    forall i | 0 <= i < |listing|
      ensures NormalizeBox(env, listing[i]) == Ok(read[i])
    {
      assert listing[i] in raw;
      var j :| 0 <= j < |raw| && raw[j] == listing[i];
      assert NormalizeBox(env, raw[j]) == Ok(boxes[j]);
    }
  }

  /** Whatever order the index lists the boxes in, the run is accepted with its own lineage
      and its own transitions. */
  lemma ListingAccepted(env: Env, run: Run, flags: Byte, authority: Bytes, listing: seq<RawBox>)
    requires World(env, run, flags, authority)
    requires |run.boxes| <= env.maxBoxes
    requires multiset(listing) == multiset(RunIndex(run))
    ensures forall i :: 0 <= i < |run.requests| ==> |run.txs[i].outputs| >= 3
    ensures Accepted(env, listing, RunLineage(run), RunTransitions(env, run))
    ensures Keys(RunTransitions(env, run)) == RunKeys(run)
  {
    hide Replays, CheckGenesis, CheckTip, NormalizeBox, L.IsChain;
    RunReads(env, run, flags, authority);
    var lineage := RunLineage(run);
    RunIsChain(env, run, flags, authority);
    GenesisReads(env, run, flags, authority);
    TipReads(env, run, flags, authority);
    forall i | 0 <= i < |run.boxes|
      ensures NormalizeBox(env, RunIndex(run)[i]) == Ok(lineage[i])
    {
      BoxNormalizes(env, run, flags, authority, i);
    }
    var read := NormalizationPermutes(env, RunIndex(run), lineage, listing);
    SameMembers(listing, RunIndex(run));
    assert L.IsLineageOf(lineage, read);
  }

  lemma LineageEnds(env: Env, run: Run, flags: Byte, authority: Bytes)
    requires World(env, run, flags, authority)
    ensures RunLineage(run)[0].payload.payload.registers.r6 == authority
    ensures RunLineage(run)[|run.requests|].boxId == run.boxes[|run.requests|].boxId
  {
    hide NormalizePayload, Codec.DecodeCanonicalLongSpec, Codec.DecodeAvl, WrittenBox;
    RunBox(env, run, flags, authority, 0);
  }

  /** Writer then reader is the identity on burn ids. */
  method ReadBack(env: Env, ghost run: Run, ghost flags: Byte, ghost authority: Bytes, listing: seq<RawBox>)
    returns (r: Result<Observation>)
    requires World(env, run, flags, authority)
    requires |run.boxes| <= env.maxBoxes
    requires multiset(listing) == multiset(RunIndex(run))
    ensures r.Ok?
    ensures r.value.historyKeys == RunKeys(run)
    ensures r.value.tipCounter == |run.requests| && r.value.tipBoxId == run.boxes[|run.requests|].boxId
    ensures r.value.tipDigest == env.avl.digest(RunKeys(run)) && r.value.authority == authority
  {
    hide Accepted, LawfulTree, NormalizePayload, Codec.DecodeCanonicalLongSpec, Codec.DecodeAvl, WrittenBox;
    ListingAccepted(env, run, flags, authority, listing);
    LineageEnds(env, run, flags, authority);
    r := Reconstruct(env, listing);
  }
}
