/**
  What the checks of the DUP reconstruction amount to: the rules a singleton box, its genesis, each
  settlement and the tip must meet, field by field, and that exactly they are accepted.
 */
module DupRules {
  import opened Prelude
  import Codec
  import L = Lineage
  import opened DupReplay

  // ----- Boxes -----

  /** A singleton box: the contract, one NFT, a counter, an insert-enabled tree and an authority. */
  ghost predicate Singleton(env: Env, value: int, tree: Bytes, assets: seq<Asset>, registers: Registers) {
    && tree == env.dupTree && value > 0
    && assets == [Asset(env.nftId, 1)]
    && registers.Keys == {R4, R5, R6}
    && (exists counter :: Codec.InInt64(counter) && registers[R4] == Codec.EncodeLong(counter))
    && (exists digest: Bytes, flags: Byte ::
          |digest| == 33 && flags % 2 == 1 && registers[R5] == Codec.EncodeAvl(digest, flags))
    && env.isDlogRegister(registers[R6])
  }

  /** Exactly singleton boxes normalize, to their value and registers. */
  lemma PayloadExact(env: Env, value: int, tree: Bytes, assets: seq<Asset>, registers: Registers)
    ensures var r := NormalizePayload(env, value, tree, assets, registers);
            && (r.Ok? <==> Singleton(env, value, tree, assets, registers))
            && (r.Ok? ==> registers.Keys == {R4, R5, R6}
                          && r.value == Payload(value, DupRegisters(registers[R4], registers[R5], registers[R6])))
  {
    hide Codec.DecodeAvl, Codec.EncodeAvl, Codec.DecodeCanonicalLongSpec, Codec.EncodeLong;
    if registers.Keys == {R4, R5, R6} {
      CounterReadable(registers[R4]);
      TreeReadable(registers[R5]);
    }
  }

  lemma CounterReadable(register: Bytes)
    ensures Codec.DecodeCanonicalLongSpec(register).Ok? <==>
            exists counter :: Codec.InInt64(counter) && register == Codec.EncodeLong(counter)
  {
    hide Codec.DecodeCanonicalLongSpec, Codec.EncodeLong;
    if Codec.DecodeCanonicalLongSpec(register).Ok? {
      Codec.CanonicalLongExact(register, Codec.DecodeCanonicalLongSpec(register).value);
    }
    if counter :| Codec.InInt64(counter) && register == Codec.EncodeLong(counter) {
      Codec.CanonicalLongExact(register, counter);
    }
  }

  lemma TreeReadable(register: Bytes)
    ensures Codec.DecodeAvl(register).Ok? <==>
            exists digest: Bytes, flags: Byte ::
              |digest| == 33 && flags % 2 == 1 && register == Codec.EncodeAvl(digest, flags)
  {
    if Codec.DecodeAvl(register).Ok? {
      var avl := Codec.DecodeAvl(register).value;
      assert |avl.digest| == 33 && avl.flags % 2 == 1 && register == Codec.EncodeAvl(avl.digest, avl.flags);
    }
    if digest: Bytes, flags: Byte :|
      |digest| == 33 && flags % 2 == 1 && register == Codec.EncodeAvl(digest, flags)
    {
      Codec.AvlRoundTrip(digest, flags);
    }
  }

  /** A context of at most three variables, none empty or over the proof bound. */
  ghost predicate SmallContext(e: Extension) {
    |e.Keys| <= 3 && forall k :: k in e ==> 0 < |e[k]| <= 1_048_592
  }

  lemma ContextExact(e: Extension)
    ensures NormalizeExtension(e).Ok? <==> SmallContext(e)
    ensures NormalizeExtension(e).Ok? ==> NormalizeExtension(e).value == e
  {
  }

  /** An indexed box is taken exactly if it is a singleton at output 0, spent with a small context or
      unspent without one. */
  lemma BoxExact(env: Env, raw: RawBox, box: DupBox)
    ensures NormalizeBox(env, raw) == Ok(box) <==>
            && raw.index == 0
            && Singleton(env, raw.value, raw.ergoTree, raw.assets, raw.registers)
            && (raw.spentBy.Some? <==> raw.extension.Some?)
            && (raw.extension.Some? ==> SmallContext(raw.extension.value))
            && box == L.Box(raw.boxId, raw.txId, raw.spentBy, Indexed(
                 Payload(raw.value, DupRegisters(raw.registers[R4], raw.registers[R5], raw.registers[R6])),
                 raw.inclusionHeight, raw.extension))
  {
    hide NormalizePayload, NormalizeExtension, SmallContext;
    PayloadExact(env, raw.value, raw.ergoTree, raw.assets, raw.registers);
    if raw.extension.Some? {
      ContextExact(raw.extension.value);
    }
  }

  // ----- Outputs -----

  /** The output is the box, as its transaction created it. */
  ghost predicate Creates(env: Env, o: TxOutput, box: DupBox) {
    && o.boxId == box.boxId && o.txId == box.txId && o.index == 0
    && Singleton(env, o.value, o.ergoTree, o.assets, o.registers)
    && box.payload.payload == Payload(o.value, DupRegisters(o.registers[R4], o.registers[R5], o.registers[R6]))
  }

  lemma OutputExact(env: Env, o: TxOutput, box: DupBox)
    ensures OutputMatches(env, o, box) <==> Creates(env, o, box)
  {
    hide NormalizePayload;
    PayloadExact(env, o.value, o.ergoTree, o.assets, o.registers);
  }

  // ----- One settlement -----

  /** The transaction that spends the singleton, in its block, of the shape of a settlement. */
  ghost predicate Spends(env: Env, tx: IndexedTx, current: DupBox, successor: DupBox) {
    && current.spentBy == Some(successor.txId)
    && tx.id == successor.txId && tx.inclusionHeight == successor.payload.inclusionHeight
    && env.source.headers(tx.blockId) == Some(Header(tx.blockId, tx.inclusionHeight))
    && |tx.inputs| == 2 && tx.dataInputs == 1 && 3 <= |tx.outputs| <= 4
  }

  /** It spends the singleton with the indexed context and a vault, and recreates the singleton first. */
  ghost predicate Recreates(env: Env, tx: IndexedTx, current: DupBox, successor: DupBox)
    requires |tx.inputs| == 2 && |tx.outputs| >= 3
  {
    && current.payload.context.Some? && SmallContext(current.payload.context.value)
    && tx.inputs[0] == TxInput(Some(current.boxId), current.payload.context)
    && tx.inputs[1].boxId.Some?
    && Creates(env, tx.outputs[0], successor)
  }

  /** It pays pure ERG second and a bounded miner fee last. */
  ghost predicate PaysOut(env: Env, tx: IndexedTx)
    requires |tx.outputs| >= 3
  {
    && tx.outputs[1].assets == [] && tx.outputs[1].value > 0
    && var fee := tx.outputs[|tx.outputs| - 1];
    && fee.assets == [] && fee.ergoTree == env.minerFeeTree && 1_000_000 <= fee.value <= 2_100_000
  }

  ghost predicate SettlementTx(env: Env, tx: IndexedTx, current: DupBox, successor: DupBox) {
    Spends(env, tx, current, successor) && Recreates(env, tx, current, successor) && PaysOut(env, tx)
  }

  /** The context inserts a new 32-byte key with the proofs of the tree library. */
  ghost predicate Inserts(env: Env, history: seq<Bytes>, context: Extension, key: Bytes) {
    && context.Keys == {0, 1, 2}
    && |key| == 32 && key !in history
    && var proof := env.avl.insert(history, key);
    && Codec.DecodeCollSpec(context[0], Some(1_048_576)) == Ok(proof.lookup)
    && Codec.DecodeCollSpec(context[1], None) == Ok(key)
    && Codec.DecodeCollSpec(context[2], Some(1_048_576)) == Ok(proof.insert)
    && proof.newDigest == env.avl.digest(history + [key])
  }

  /** Digest and counter advance by one key, the authority stays, the value does not fall. */
  ghost predicate Advances(env: Env, history: seq<Bytes>, key: Bytes, before: Payload, after: Payload, authority: Bytes) {
    && DigestIs(before, env.avl.digest(history))
    && DigestIs(after, env.avl.digest(history + [key]))
    && (exists counter :: CounterIs(before, counter) && CounterIs(after, counter + 1))
    && after.registers.r6 == authority
    && before.value <= after.value
  }

  ghost predicate DigestIs(p: Payload, digest: Bytes) {
    exists flags: Byte :: flags % 2 == 1 && |digest| == 33 && p.registers.r5 == Codec.EncodeAvl(digest, flags)
  }

  ghost predicate CounterIs(p: Payload, counter: int) {
    Codec.InInt64(counter) && p.registers.r4 == Codec.EncodeLong(counter)
  }

  ghost predicate Settles(
    env: Env, history: seq<Bytes>, current: DupBox, successor: DupBox, authority: Bytes, t: Transition, tx: IndexedTx)
  {
    && env.source.transactions(successor.txId) == Some(tx)
    && SettlementTx(env, tx, current, successor)
    && Inserts(env, history, current.payload.context.value, t.burnId)
    && Advances(env, history, t.burnId, current.payload.payload, successor.payload.payload, authority)
    && t == Transition(
         t.burnId, tx.id, tx.blockId, tx.inclusionHeight, current.boxId, successor.boxId, tx.inputs[1].boxId.value,
         if |tx.outputs| == 4 then Some(tx.outputs[2].boxId) else None,
         tx.outputs[1].boxId, tx.outputs[1].value, tx.outputs[|tx.outputs| - 1].value,
         env.avl.digest(history + [t.burnId]))
  }

  lemma DigestRead(p: Payload, digest: Bytes)
    ensures DigestIs(p, digest) <==>
            Codec.DecodeAvl(p.registers.r5).Ok? && Codec.DecodeAvl(p.registers.r5).value.digest == digest
  {
    if Codec.DecodeAvl(p.registers.r5).Ok? {
      var avl := Codec.DecodeAvl(p.registers.r5).value;
      assert avl.flags % 2 == 1 && p.registers.r5 == Codec.EncodeAvl(avl.digest, avl.flags);
    }
    if flags: Byte :| flags % 2 == 1 && |digest| == 33 && p.registers.r5 == Codec.EncodeAvl(digest, flags) {
      Codec.AvlRoundTrip(digest, flags);
    }
  }

  lemma CounterRead(p: Payload, counter: int)
    ensures CounterIs(p, counter) <==> Codec.DecodeCanonicalLongSpec(p.registers.r4) == Ok(counter)
  {
    hide Codec.DecodeCanonicalLongSpec, Codec.EncodeLong;
    Codec.CanonicalLongExact(p.registers.r4, counter);
  }

  lemma SuccessorExact(env: Env, digest: Bytes, current: Payload, successor: Payload, authority: Bytes)
    ensures CheckSuccessor(env, digest, current, successor, authority).Ok? <==>
            && DigestIs(successor, digest)
            && (exists counter :: CounterIs(current, counter) && CounterIs(successor, counter + 1))
            && successor.registers.r6 == authority && current.value <= successor.value
  {
    hide Codec.DecodeAvl, Codec.DecodeCanonicalLongSpec, DigestIs, CounterIs;
    DigestRead(successor, digest);
    var before := Codec.DecodeCanonicalLongSpec(current.registers.r4);
    if before.Ok? {
      CounterRead(current, before.value);
      CounterRead(successor, before.value + 1);
    }
    if counter :| CounterIs(current, counter) && CounterIs(successor, counter + 1) {
      CounterRead(current, counter);
      CounterRead(successor, counter + 1);
    }
  }

  lemma InsertsExact(env: Env, history: seq<Bytes>, context: Extension, key: Bytes)
    ensures Inserts(env, history, context, key) <==>
            && BurnKey(context) == Ok(key)
            && CheckProofs(env, history, context, key) == Ok(env.avl.digest(history + [key]))
  {
    hide Codec.DecodeCollSpec;
  }

  lemma FetchExact(env: Env, tx: IndexedTx, current: DupBox, successor: DupBox)
    requires current.spentBy.Some? && env.source.transactions(current.spentBy.value) == Some(tx)
    ensures FetchSettlement(env, current, successor) == Ok(tx) <==> Spends(env, tx, current, successor)
  {
  }

  lemma SpendExact(env: Env, tx: IndexedTx, current: DupBox, successor: DupBox)
    requires SettlementShape(tx) && current.payload.context.Some?
    ensures CheckSpend(env, tx, current, successor).Ok? <==> Recreates(env, tx, current, successor)
  {
    hide OutputMatches, Creates, NormalizeExtension, SmallContext;
    OutputExact(env, tx.outputs[0], successor);
    ContextExact(current.payload.context.value);
    if tx.inputs[0].extension.Some? {
      ContextExact(tx.inputs[0].extension.value);
      assert tx.inputs[0] == TxInput(tx.inputs[0].boxId, tx.inputs[0].extension);
    }
  }

  lemma PayoutExactly(env: Env, tx: IndexedTx)
    requires SettlementShape(tx)
    ensures CheckPayoutAndFee(env, tx).Ok? <==> PaysOut(env, tx)
  {
  }

  /** The three checks on the transaction together. */
  lemma TxExact(env: Env, tx: IndexedTx, current: DupBox, successor: DupBox)
    requires current.spentBy.Some? && current.payload.context.Some?
    requires env.source.transactions(current.spentBy.value) == Some(tx)
    ensures SettlementTx(env, tx, current, successor) <==>
            && FetchSettlement(env, current, successor) == Ok(tx)
            && CheckSpend(env, tx, current, successor).Ok?
            && CheckPayoutAndFee(env, tx).Ok?
  {
    FetchExact(env, tx, current, successor);
    hide FetchSettlement, CheckSpend, CheckPayoutAndFee, Recreates, PaysOut;
    if SettlementShape(tx) {
      SpendExact(env, tx, current, successor);
      PayoutExactly(env, tx);
    }
  }

  /** Main result: one replay step accepts exactly the settlements. */
  lemma StepExact(
    env: Env, history: seq<Bytes>, current: DupBox, successor: DupBox, authority: Bytes, t: Transition)
    ensures Step(env, history, current, successor, authority) == Ok(t) <==>
            exists tx :: Settles(env, history, current, successor, authority, t, tx)
  {
    if current.spentBy.Some? && current.payload.context.Some?
       && env.source.transactions(current.spentBy.value).Some?
    {
      StepParts(env, history, current, successor, authority, t, env.source.transactions(current.spentBy.value).value);
    } else {
      NoStep(env, history, current, successor, authority, t);
    }
  }

  lemma NoStep(env: Env, history: seq<Bytes>, current: DupBox, successor: DupBox, authority: Bytes, t: Transition)
    requires current.spentBy == None || current.payload.context == None
             || env.source.transactions(current.spentBy.value) == None
    ensures Step(env, history, current, successor, authority).Err?
    ensures !exists tx :: Settles(env, history, current, successor, authority, t, tx)
  {
    hide Codec.DecodeAvl, CheckSpend, BurnKey, CheckProofs, CheckSuccessor, CheckPayoutAndFee, Inserts, Advances,
         Creates, SmallContext;
  }

  lemma StepParts(
    env: Env, history: seq<Bytes>, current: DupBox, successor: DupBox, authority: Bytes, t: Transition, tx: IndexedTx)
    requires current.spentBy.Some? && current.payload.context.Some?
    requires env.source.transactions(current.spentBy.value) == Some(tx)
    ensures Step(env, history, current, successor, authority) == Ok(t) <==>
            exists x :: Settles(env, history, current, successor, authority, t, x)
  {
    hide Step, Codec.DecodeAvl, FetchSettlement, CheckSpend, BurnKey, CheckProofs, CheckSuccessor, CheckPayoutAndFee,
         Inserts, SettlementTx, DigestIs, CounterIs;
    TxExact(env, tx, current, successor);
    DigestRead(current.payload.payload, env.avl.digest(history));
    InsertsExact(env, history, current.payload.context.value, t.burnId);
    SuccessorExact(env, env.avl.digest(history + [t.burnId]), current.payload.payload, successor.payload.payload,
                   authority);
    StepUnfold(env, history, current, successor, authority, t, tx);
    SettledSpends(env, tx, current, successor);
    if x :| Settles(env, history, current, successor, authority, t, x) {
      SettledSpends(env, x, current, successor);
      assert x == tx;
    }
    if Step(env, history, current, successor, authority) == Ok(t) {
      assert Settles(env, history, current, successor, authority, t, tx);
    }
  }

  lemma SettledSpends(env: Env, tx: IndexedTx, current: DupBox, successor: DupBox)
    ensures SettlementTx(env, tx, current, successor) ==>
            current.spentBy == Some(successor.txId) && current.payload.context.Some?
            && |tx.inputs| == 2 && tx.inputs[1].boxId.Some? && |tx.outputs| >= 3
  {
  }

  /** The parts of a step, and what it reports. */
  lemma StepUnfold(
    env: Env, history: seq<Bytes>, current: DupBox, successor: DupBox, authority: Bytes, t: Transition, tx: IndexedTx)
    requires current.spentBy.Some? && current.payload.context.Some?
    requires env.source.transactions(current.spentBy.value) == Some(tx)
    ensures var (p, context) := (current.payload.payload, current.payload.context.value);
            Step(env, history, current, successor, authority) == Ok(t) <==>
            && Codec.DecodeAvl(p.registers.r5).Ok? && Codec.DecodeAvl(p.registers.r5).value.digest == env.avl.digest(history)
            && FetchSettlement(env, current, successor) == Ok(tx)
            && CheckSpend(env, tx, current, successor).Ok?
            && BurnKey(context) == Ok(t.burnId)
            && CheckProofs(env, history, context, t.burnId) == Ok(env.avl.digest(history + [t.burnId]))
            && CheckSuccessor(env, env.avl.digest(history + [t.burnId]), p, successor.payload.payload, authority).Ok?
            && CheckPayoutAndFee(env, tx).Ok?
            && t == Transition(
                 t.burnId, tx.id, tx.blockId, tx.inclusionHeight, current.boxId, successor.boxId,
                 tx.inputs[1].boxId.value, if |tx.outputs| == 4 then Some(tx.outputs[2].boxId) else None,
                 tx.outputs[1].boxId, tx.outputs[1].value, tx.outputs[|tx.outputs| - 1].value,
                 env.avl.digest(history + [t.burnId]))
  {
    hide Codec.DecodeAvl, CheckSpend, BurnKey, CheckProofs, CheckSuccessor, CheckPayoutAndFee;
    FetchedIs(env, current, successor, tx);
    hide FetchSettlement;
  }

  lemma FetchedIs(env: Env, current: DupBox, successor: DupBox, tx: IndexedTx)
    requires current.spentBy.Some? && env.source.transactions(current.spentBy.value) == Some(tx)
    ensures FetchSettlement(env, current, successor).Ok? ==> FetchSettlement(env, current, successor) == Ok(tx)
  {
  }

  // ----- Genesis and tip -----

  /** The setup transaction mints the NFT as the singleton with an empty tree and counter 0. */
  ghost predicate MintsGenesis(env: Env, setup: IndexedTx, genesis: DupBox) {
    && setup.id == genesis.txId && setup.inclusionHeight == genesis.payload.inclusionHeight
    && |setup.inputs| == 1 && setup.inputs[0].boxId == Some(env.nftId)
    && setup.dataInputs == 0 && |setup.outputs| >= 2
    && Creates(env, setup.outputs[0], genesis)
    && CounterIs(genesis.payload.payload, 0)
    && DigestIs(genesis.payload.payload, env.emptyDigest)
  }

  lemma GenesisExact(env: Env, genesis: DupBox)
    ensures CheckGenesis(env, genesis).Ok? <==>
            && env.source.transactions(genesis.txId).Some?
            && MintsGenesis(env, env.source.transactions(genesis.txId).value, genesis)
  {
    hide Codec.DecodeAvl, Codec.DecodeCanonicalLongSpec, DigestIs, CounterIs, OutputMatches, Creates;
    DigestRead(genesis.payload.payload, env.emptyDigest);
    CounterRead(genesis.payload.payload, 0);
    var setup := env.source.transactions(genesis.txId);
    if setup.Some? && |setup.value.outputs| > 0 {
      OutputExact(env, setup.value.outputs[0], genesis);
    }
  }

  /** The tip is the same unspent singleton in the UTXO set. */
  ghost predicate IsUnspent(env: Env, raw: RawBox, tip: DupBox) {
    && raw.boxId == tip.boxId && raw.txId == tip.txId && raw.index == 0
    && raw.spentBy == None && raw.extension == None
    && Singleton(env, raw.value, raw.ergoTree, raw.assets, raw.registers)
    && tip.payload.payload
       == Payload(raw.value, DupRegisters(raw.registers[R4], raw.registers[R5], raw.registers[R6]))
  }

  lemma TipExact(env: Env, tip: DupBox)
    ensures CheckTip(env, tip).Ok? <==>
            env.source.utxo(tip.boxId).Some? && IsUnspent(env, env.source.utxo(tip.boxId).value, tip)
  {
    hide NormalizePayload, Singleton;
    var found := env.source.utxo(tip.boxId);
    if found.Some? {
      var raw := found.value;
      PayloadExact(env, raw.value, raw.ergoTree, raw.assets, raw.registers);
      SingletonRegisters(env, raw);
    }
  }

  lemma SingletonRegisters(env: Env, raw: RawBox)
    ensures Singleton(env, raw.value, raw.ergoTree, raw.assets, raw.registers) ==> raw.registers.Keys == {R4, R5, R6}
  {
  }
}
