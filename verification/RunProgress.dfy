/**
  The runs of the round trip exist: the writer is never stuck on a box it has written, every
  settlement it builds extends the run, and for every run there is a node that reports it.
 */
module RunProgress {
  import opened Prelude
  import Codec
  import opened DupReplay
  import opened CausalSettlement
  import opened RoundTrip

  /** What a caller can see before asking for the next settlement. */
  predicate Acceptable(env: Env, run: Run, authority: Bytes, request: Request) {
    && |request.key| == 32
    && request.key !in RunKeys(run)
    && |run.requests| < MAX_SAFE_INTEGER
    && Payable(request.amount, request.minerFee, request.vaultValue)
    && |request.recipientTree| == 36
    && request.boxesFit && env.isDlogRegister(request.attestor) && request.attestor != authority
  }

  /** The vault covers payout and fee, and what is left makes a change box or fits the fee cap. */
  predicate Payable(amount: int, minerFee: int, vaultValue: int) {
    && 0 < amount && vaultValue <= ERGO_LONG_MAX
    && MIN_BOX_VALUE <= minerFee <= MAX_MINER_FEE
    && amount + minerFee <= vaultValue
    && (vaultValue - amount - minerFee >= MIN_BOX_VALUE || vaultValue - amount <= MAX_MINER_FEE)
  }

  lemma AmountsPlanned(request: Request)
    ensures PlanAmounts(request).Ok? <==> Payable(request.amount, request.minerFee, request.vaultValue)
  {
  }

  /** The transaction for the next settlement of a run, if the writer makes one. */
  function Next(env: Env, run: Run, request: Request): Result<UnsignedTx>
    requires run.boxes != []
  {
    hide BuildPlan, BuildTx;
    var plan :- BuildPlan(env, RunKeys(run), request.key);
    BuildTx(env, plan, run.boxes[|run.boxes| - 1], request)
  }

  lemma SettledKeySize(env: Env, run: Run, flags: Byte, authority: Bytes, i: nat)
    requires ValidRun(env, run, flags, authority) && i < |run.requests|
    ensures |RunKeys(run)[i]| == 32
  {
    hide BuildTx;
    assert Settled(env, run, i);
  }

  /** The singleton side of the writer: it continues from every box it has written, until the
      counter leaves the safe range. */
  lemma SuccessorContinues(
    env: Env, box: BoxLike, keys: seq<Bytes>, value: int, flags: Byte, authority: Bytes, plan: Plan)
    requires LawfulTree(env) && flags % 2 == 1 && env.isDlogRegister(authority) && PositiveLong(value)
    requires WrittenBox(env, box, keys, value, flags, authority) && plan.inputDigest == env.avl.digest(keys)
    ensures SuccessorOutput(env, plan, box).Ok? <==> |keys| < MAX_SAFE_INTEGER
    ensures R6 in box.registers && box.registers[R6] == authority
  {
    hide Codec.DecodeAvl, Codec.EncodeAvl, Codec.DecodeLongSpec, Codec.EncodeLong, Codec.EncodeLongChecked;
    Codec.AvlRoundTrip(env.avl.digest(keys), flags);
    CounterReads(|keys|);
    assert Codec.EncodeLongChecked(|keys| + 1, true).Ok? <==> |keys| < MAX_SAFE_INTEGER;
  }

  lemma PlanStartsAtDigest(env: Env, keys: seq<Bytes>, key: Bytes)
    requires BuildPlan(env, keys, key).Ok?
    ensures BuildPlan(env, keys, key).value.inputDigest == env.avl.digest(keys)
  {
  }

  /** The transaction can be built exactly when its parts can. */
  lemma PartsBuild(env: Env, plan: Plan, box: BoxLike, request: Request)
    requires R6 in box.registers
    ensures BuildTx(env, plan, box, request).Ok? <==>
            && request.boxesFit
            && SuccessorOutput(env, plan, box).Ok?
            && env.isDlogRegister(request.attestor) && request.attestor != box.registers[R6]
            && Payable(request.amount, request.minerFee, request.vaultValue)
            && |request.recipientTree| == 36
  {
    hide SuccessorOutput, PlanAmounts, Payable;
    AmountsPlanned(request);
  }

  /** From any box: the builder takes exactly the singleton of the plan, a fitting tracker and vault,
      an attestor other than the committee, payable amounts and a recipient tree. */
  lemma BuildsIff(env: Env, plan: Plan, box: BoxLike, request: Request)
    ensures BuildTx(env, plan, box, request).Ok? <==>
            && request.boxesFit
            && (exists flags: Byte, counter: nat :: Continues(env, plan, box, flags, counter))
            && env.isDlogRegister(request.attestor) && request.attestor != box.registers[R6]
            && Payable(request.amount, request.minerFee, request.vaultValue)
            && |request.recipientTree| == 36
  {
    hide BuildTx, Payable, Continues;
    SuccessorIff(env, plan, box);
    if R6 in box.registers {
      PartsBuild(env, plan, box, request);
    } else {
      NoAuthorityNoTx(env, plan, box, request);
    }
  }

  lemma NoAuthorityNoTx(env: Env, plan: Plan, box: BoxLike, request: Request)
    requires R6 !in box.registers
    ensures BuildTx(env, plan, box, request).Err? && SuccessorOutput(env, plan, box).Err?
  {
    hide PlanAmounts;
  }

  lemma SuccessorIff(env: Env, plan: Plan, box: BoxLike)
    ensures SuccessorOutput(env, plan, box).Ok? <==>
            exists flags: Byte, counter: nat :: Continues(env, plan, box, flags, counter)
    ensures (exists flags: Byte, counter: nat :: Continues(env, plan, box, flags, counter)) ==> R6 in box.registers
  {
    hide SuccessorOutput, Codec.EncodeAvl, Codec.EncodeLong, Codec.DecodeLongSpec;
    if SuccessorOutput(env, plan, box).Ok? {
      SuccessorExact(env, plan, box, SuccessorOutput(env, plan, box).value);
    }
    if flags: Byte, counter: nat :| Continues(env, plan, box, flags, counter) {
      SuccessorExact(env, plan, box,
                     Output(box.value, env.dupTree, [Asset(env.nftId, 1)],
                            map[R4 := Codec.EncodeLong(counter + 1),
                                R5 := Codec.EncodeAvl(plan.outputDigest, flags), R6 := box.registers[R6]]));
    }
  }

  /** The next settlement can be built exactly for the acceptable requests. */
  lemma WriterProgress(env: Env, run: Run, flags: Byte, authority: Bytes, request: Request)
    requires LawfulTree(env) && ValidRun(env, run, flags, authority)
    ensures Next(env, run, request).Ok? <==> Acceptable(env, run, authority, request)
  {
    hide BuildTx, Payable, WrittenBox, Settled;
    var n := |run.requests|;
    RunWrites(env, run, flags, authority, n);
    assert RunKeys(run)[..n] == RunKeys(run);
    forall i | 0 <= i < n
      ensures |RunKeys(run)[i]| == 32
    {
      SettledKeySize(env, run, flags, authority, i);
    }
    var plan := BuildPlan(env, RunKeys(run), request.key);
    if plan.Ok? {
      PlanStartsAtDigest(env, RunKeys(run), request.key);
      SuccessorContinues(env, run.boxes[n], RunKeys(run), run.boxes[0].value, flags, authority, plan.value);
      PartsBuild(env, plan.value, run.boxes[n], request);
    }
  }

  /** A run with one more settlement, mined as stated. */
  function Extended(run: Run, request: Request, tx: UnsignedTx, mined: Mined): Run
    requires tx.outputs != []
  {
    var out := tx.outputs[0];
    run.(boxes := run.boxes + [BoxLike(IdAt(mined, 0), out.value, out.ergoTree, out.assets, out.registers)],
         requests := run.requests + [request], txs := run.txs + [tx], mined := run.mined + [mined])
  }

  lemma BuiltHasOutputs(env: Env, plan: Plan, box: BoxLike, request: Request)
    requires BuildTx(env, plan, box, request).Ok?
    ensures BuildTx(env, plan, box, request).value.outputs != []
  {
    hide SuccessorOutput, PlanAmounts;
  }

  lemma NextHasOutputs(env: Env, run: Run, request: Request)
    requires run.boxes != [] && Next(env, run, request).Ok?
    ensures Next(env, run, request).value.outputs != []
  {
    hide BuildTx, BuildPlan;
    BuiltHasOutputs(env, BuildPlan(env, RunKeys(run), request.key).value, run.boxes[|run.boxes| - 1], request);
  }

  /** What the writer builds next, once mined, makes a longer run. */
  lemma RunExtends(
    env: Env, run: Run, flags: Byte, authority: Bytes, request: Request, tx: UnsignedTx, mined: Mined)
    requires ValidRun(env, run, flags, authority) && Next(env, run, request) == Ok(tx)
    ensures tx.outputs != []
    ensures ValidRun(env, Extended(run, request, tx, mined), flags, authority)
  {
    hide BuildTx, BuildPlan, Settled, ValidGenesis, Next;
    NextHasOutputs(env, run, request);
    var longer := Extended(run, request, tx, mined);
    forall i | 0 <= i < |run.requests|
      ensures Settled(env, longer, i)
    {
      EarlierSettled(env, run, flags, authority, longer, i);
    }
    LastSettled(env, run, request, tx, mined);
  }

  lemma LastSettled(env: Env, run: Run, request: Request, tx: UnsignedTx, mined: Mined)
    requires Shaped(run) && Next(env, run, request) == Ok(tx) && tx.outputs != []
    ensures Settled(env, Extended(run, request, tx, mined), |run.requests|)
  {
    hide BuildTx, BuildPlan;
    var longer := Extended(run, request, tx, mined);
    assert RunKeys(longer)[..|run.requests|] == RunKeys(run);
  }

  lemma EarlierSettled(env: Env, run: Run, flags: Byte, authority: Bytes, longer: Run, i: nat)
    requires ValidRun(env, run, flags, authority) && Shaped(longer) && i < |run.requests| <= |longer.requests|
    requires run.boxes <= longer.boxes && run.requests <= longer.requests && run.txs <= longer.txs
    requires run.mined <= longer.mined
    ensures Settled(env, longer, i)
  {
    hide BuildTx, BuildPlan;
    assert Settled(env, run, i);
    assert RunKeys(longer)[..i] == RunKeys(run)[..i];
  }

  // ----- A node that reports a run -----

  function SetupTx(env: Env, run: Run): IndexedTx
    requires run.boxes != []
  {
    var g := run.boxes[0];
    var created := TxOutput(g.boxId, run.genesisTx, 0, g.value, g.ergoTree, g.assets, g.registers);
    IndexedTx(run.genesisTx, [], run.genesisHeight, [TxInput(Some(env.nftId), None)], 0, [created, created])
  }

  /** Lookup among the first k settlements. */
  function TxOf(env: Env, run: Run, k: nat, id: Bytes): Option<IndexedTx>
    requires run.boxes != [] && k <= |run.mined| == |run.txs|
  {
    if k == 0 then if id == run.genesisTx then Some(SetupTx(env, run)) else None
    else if run.mined[k - 1].txId == id then Some(MinedTx(run.txs[k - 1], run.mined[k - 1], map[]))
    else TxOf(env, run, k - 1, id)
  }

  function HeaderOf(run: Run, k: nat, id: Bytes): Option<Header>
    requires k <= |run.mined|
  {
    if k == 0 then None
    else if run.mined[k - 1].blockId == id then Some(Header(id, run.mined[k - 1].height))
    else HeaderOf(run, k - 1, id)
  }

  function NodeOf(env: Env, run: Run): Source
    requires |run.boxes| == |run.mined| + 1 && |run.txs| == |run.mined|
  {
    Source(id => TxOf(env, run, |run.mined|, id), id => HeaderOf(run, |run.mined|, id),
           id => Some(IndexedBox(run, |run.mined|)))
  }

  /** A block id stands for one height. */
  ghost predicate BlocksAgree(run: Run) {
    forall i, j :: 0 <= i < |run.mined| && 0 <= j < |run.mined| && run.mined[i].blockId == run.mined[j].blockId ==>
      run.mined[i].height == run.mined[j].height
  }

  lemma {:induction false} TxFound(env: Env, run: Run, k: nat, i: nat)
    requires Shaped(run) && FreshIds(run) && i <= k <= |run.mined|
    ensures TxOf(env, run, k, CreatedBy(run, i))
            == Some(if i == 0 then SetupTx(env, run) else MinedTx(run.txs[i - 1], run.mined[i - 1], map[]))
  {
    hide MinedTx, SetupTx;
    if i < k {
      assert Apart(run, i, k);
      TxFound(env, run, k - 1, i);
    }
  }

  lemma {:induction false} HeaderFound(run: Run, k: nat, i: nat)
    requires BlocksAgree(run) && i < k <= |run.mined|
    ensures HeaderOf(run, k, run.mined[i].blockId) == Some(Header(run.mined[i].blockId, run.mined[i].height))
  {
    if i < k - 1 {
      HeaderFound(run, k - 1, i);
    }
  }

  /** The writer does not look at the node. */
  lemma RunIgnoresNode(env: Env, source: Source, run: Run, flags: Byte, authority: Bytes)
    requires ValidRun(env, run, flags, authority)
    ensures ValidRun(env.(source := source), run, flags, authority)
  {
    hide Settled;
    forall i | 0 <= i < |run.requests|
      ensures Settled(env.(source := source), run, i)
    {
      SettledIgnoresNode(env, source, run, i);
    }
  }

  lemma SettledIgnoresNode(env: Env, source: Source, run: Run, i: nat)
    requires Shaped(run) && i < |run.requests| && Settled(env, run, i)
    ensures Settled(env.(source := source), run, i)
  {
    hide BuildTx;
    var (history, key) := (RunKeys(run)[..i], run.requests[i].key);
    BuildIgnoresNode(env, source, BuildPlan(env, history, key).value, run.boxes[i], run.requests[i]);
  }

  lemma BuildIgnoresNode(env: Env, source: Source, plan: Plan, box: BoxLike, request: Request)
    ensures BuildTx(env.(source := source), plan, box, request) == BuildTx(env, plan, box, request)
  {
    hide PlanAmounts, SuccessorOutput;
    SuccessorIgnoresNode(env, source, plan, box);
  }

  lemma SuccessorIgnoresNode(env: Env, source: Source, plan: Plan, box: BoxLike)
    ensures SuccessorOutput(env.(source := source), plan, box) == SuccessorOutput(env, plan, box)
  {
    hide Codec.DecodeAvl, Codec.DecodeLongSpec, Codec.EncodeAvl, Codec.EncodeLongChecked;
  }

  lemma NodeReportsRun(env: Env, run: Run)
    requires Shaped(run) && FreshIds(run) && BlocksAgree(run)
    ensures Reported(env.(source := NodeOf(env, run)), run)
  {
    hide MinedTx, FreshIds, BlocksAgree;
    var e := env.(source := NodeOf(env, run));
    var n := |run.mined|;
    TxFound(env, run, n, 0);
    forall i | 0 <= i < n
      ensures SettlementReported(e, run, i)
    {
      TxFound(env, run, n, i + 1);
      HeaderFound(run, n, i);
      assert e.source.transactions(run.mined[i].txId) == Some(MinedTx(run.txs[i], run.mined[i], map[]));
    }
    assert e.source.utxo(run.boxes[n].boxId)
           == Some(IndexedBox(run, n).(inclusionHeight := IndexedBox(run, n).inclusionHeight));
  }

  /** The assumptions of the round trip can be met for every run whose ids are fresh. */
  lemma WorldExists(env: Env, run: Run, flags: Byte, authority: Bytes)
    requires LawfulTree(env) && ValidRun(env, run, flags, authority)
    requires FreshIds(run) && BlocksAgree(run) && ProofsFit(env, run)
    ensures World(env.(source := NodeOf(env, run)), run, flags, authority)
  {
    hide ValidRun, Reported, FreshIds, BlocksAgree;
    RunShaped(env, run, flags, authority);
    var e := env.(source := NodeOf(env, run));
    NodeReportsRun(env, run);
    RunIgnoresNode(env, NodeOf(env, run), run, flags, authority);
    forall i | 0 <= i < |run.requests|
      ensures ProofFits(e, run, i)
    {
      assert ProofFits(env, run, i);
    }
  }

  lemma RunShaped(env: Env, run: Run, flags: Byte, authority: Bytes)
    requires ValidRun(env, run, flags, authority)
    ensures Shaped(run)
  {
  }
}
