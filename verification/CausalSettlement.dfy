/**
  Assembly of the causal authenticated settlement transaction: the plan for one burn id
  against the DUP history, and the transaction that recreates the singleton, pays the
  recipient and splits the vault's remainder between change and miner fee.
 */
module CausalSettlement {
  import opened Prelude
  import Codec
  import opened DupReplay

  const MIN_BOX_VALUE := 1_000_000

  datatype BoxLike = BoxLike(
    boxId: Bytes, value: int, ergoTree: Bytes, assets: seq<Asset>, registers: Registers)

  datatype Output = Output(value: int, ergoTree: Bytes, assets: seq<Asset>, registers: Registers)

  datatype Input = Input(boxId: Bytes, extension: Extension)

  datatype UnsignedTx = UnsignedTx(dupInput: Input, vaultInput: Bytes, trackerDataInput: Bytes, outputs: seq<Output>)

  /** What the caller asks for: the burn to settle and the boxes and amounts to use. attestor: R9
      of the tracker box; boxesFit: the tracker box and the vault pass the checks of their own
      trees, token, digest, sidechain id and intent registers. */
  datatype Request = Request(
    key: Bytes, trackerId: Bytes, vaultId: Bytes, vaultTree: Bytes, vaultRegisters: Registers, vaultValue: int,
    amount: int, recipientTree: Bytes, minerFee: int, attestor: Bytes, boxesFit: bool)

  // ----- Change or fee -----

  datatype ChangePlan = ChangePlan(change: int, fee: int, absorbedDust: int)

  /** `planChangeOrFeeBigInt`: nothing is lost, and change is either absent or a legal box. */
  function PlanChange(change: int, fee: int, minBoxValue: int): (r: Result<ChangePlan>)
    ensures r.Ok? <==> change >= 0
    ensures r.Ok? ==>
              && r.value.change + r.value.fee == change + fee
              && (r.value.change == 0 || r.value.change >= minBoxValue)
              && fee <= r.value.fee && r.value.absorbedDust == r.value.fee - fee
  {
    if change < 0 then Err("negative change")
    else if change >= minBoxValue then Ok(ChangePlan(change, fee, 0))
    else Ok(ChangePlan(0, fee + change, change))
  }

  // ----- Plan -----

  datatype Plan = Plan(inputDigest: Bytes, outputDigest: Bytes, extension: Extension)

  /** `toDupV1Extension` */
  function DupExtension(key: Bytes, lookup: Bytes, insert: Bytes): Extension {
    map[0 := Codec.EncodeColl(lookup), 1 := Codec.EncodeColl(key), 2 := Codec.EncodeColl(insert)]
  }

  /** The duplicate-prevention part of `buildAuthenticatedSettlementPlan`. */
  function BuildPlan(env: Env, history: seq<Bytes>, key: Bytes): Result<Plan> {
    if |key| != 32 || exists i :: 0 <= i < |history| && |history[i]| != 32 then Err("keys must be 32 bytes") else
    :- Need(key !in history, "burnId is already present in DUP history");
    var proof := env.avl.insert(history, key);
    Ok(Plan(env.avl.digest(history), proof.newDigest, DupExtension(key, proof.lookup, proof.insert)))
  }

  /** A plan is made exactly for a new 32-byte key and a history of such keys; it goes from the digest of
      the history to the digest the insertion promises, with key and proofs in their variables. */
  lemma PlanExact(env: Env, history: seq<Bytes>, key: Bytes, plan: Plan)
    ensures BuildPlan(env, history, key) == Ok(plan) <==>
            && |key| == 32 && (forall k :: k in history ==> |k| == 32) && key !in history
            && var proof := env.avl.insert(history, key);
            && plan == Plan(env.avl.digest(history), proof.newDigest,
                            map[0 := Codec.EncodeColl(proof.lookup), 1 := Codec.EncodeColl(key),
                                2 := Codec.EncodeColl(proof.insert)])
  {
    hide Codec.EncodeColl;
  }

  // ----- Transaction -----

  predicate PositiveLong(n: int) {
    0 < n <= ERGO_LONG_MAX
  }

  function SuccessorRegisters(counter: nat, digest: Bytes, flags: Byte, authority: Bytes): Registers {
    map[R4 := Codec.EncodeLong(counter + 1), R5 := Codec.EncodeAvl(digest, flags), R6 := authority]
  }

  /** The singleton checks and the successor's registers. */
  function SuccessorOutput(env: Env, plan: Plan, dupBox: BoxLike): (r: Result<Output>)
    ensures r.Ok? ==> r.value.value == dupBox.value > 0 && r.value.ergoTree == env.dupTree && R6 in dupBox.registers
  {
    hide Codec.DecodeAvl, Codec.DecodeLongSpec, Codec.EncodeAvl;
    :- Need(dupBox.ergoTree == env.dupTree, "DUP box ErgoTree does not match deployed contract");
    :- Need(dupBox.assets == [Asset(env.nftId, 1)], "singleton token");
    :- Need(R5 in dupBox.registers && R6 in dupBox.registers, "missing register");
    :- Need(env.isDlogRegister(dupBox.registers[R6]), "R6 must be a proveDlog SigmaProp");
    var avl :- Codec.DecodeAvl(dupBox.registers[R5]);
    :- Need(avl.digest == plan.inputDigest, "R5 does not match the plan input digest");
    :- Need(PositiveLong(dupBox.value), "DUP box value");
    var counter :- Codec.DecodeLongSpec(if R4 in dupBox.registers then Some(dupBox.registers[R4]) else None);
    var _ :- Codec.EncodeLongChecked(counter + 1, true);
    Ok(Output(dupBox.value, env.dupTree, [Asset(env.nftId, 1)],
              SuccessorRegisters(counter, plan.outputDigest, avl.flags, dupBox.registers[R6])))
  }

  /** Payout, fee and change amounts. */
  function PlanAmounts(request: Request): (r: Result<ChangePlan>)
    ensures r.Ok? ==>
              && PositiveLong(request.amount)
              && r.value.change + r.value.fee + request.amount == request.vaultValue
              && (r.value.change == 0 || r.value.change >= MIN_BOX_VALUE)
              && MIN_MINER_FEE <= r.value.fee <= MAX_MINER_FEE
  {
    if !PositiveLong(request.amount) then Err("payout must fit a positive signed Long") else
    :- Need(MIN_BOX_VALUE <= request.minerFee <= MAX_MINER_FEE, "miner fee bounds");
    :- Need(PositiveLong(request.vaultValue), "vault value");
    :- Need(request.vaultValue >= request.amount + request.minerFee, "vault does not cover payout and fee");
    // the change is not negative here, so the plan cannot throw
    var plan := PlanChange(request.vaultValue - request.amount - request.minerFee, request.minerFee, MIN_BOX_VALUE).value;
    :- Need(plan.fee <= MAX_MINER_FEE, "effective miner fee exceeds the on-chain cap");
    Ok(plan)
  }

  /** `buildCausalAuthenticatedSettlementTx` */
  function BuildTx(env: Env, plan: Plan, dupBox: BoxLike, request: Request): Result<UnsignedTx> {
    hide SuccessorOutput, PlanAmounts;
    :- Need(request.boxesFit, "tracker box or vault does not fit");
    var successor :- SuccessorOutput(env, plan, dupBox);
    :- Need(env.isDlogRegister(request.attestor) && dupBox.registers[R6] != request.attestor,
            "finality attestor and bridge committee must differ");
    var amounts :- PlanAmounts(request);
    :- Need(|request.recipientTree| == 36, "recipientErgoTree must be 36 bytes");
    var change :=
      if amounts.change > 0 then [Output(amounts.change, request.vaultTree, [], request.vaultRegisters)] else [];
    Ok(UnsignedTx(
      Input(dupBox.boxId, plan.extension), request.vaultId, request.trackerId,
      [successor, Output(request.amount, request.recipientTree, [], map[])]
      + change
      + [Output(amounts.fee, env.minerFeeTree, [], map[])]))
  }

  function Values(outputs: seq<Output>): seq<int> {
    seq(|outputs|, i requires 0 <= i < |outputs| => outputs[i].value)
  }

  /** Every built transaction keeps the singleton's value, pays the payout, and returns
      exactly the rest of the vault as change and fee. */
  lemma BuiltTxConserves(env: Env, plan: Plan, dupBox: BoxLike, request: Request, tx: UnsignedTx)
    requires BuildTx(env, plan, dupBox, request) == Ok(tx)
    ensures Sum(Values(tx.outputs)) == dupBox.value + request.vaultValue
    ensures |tx.outputs| == 3 || |tx.outputs| == 4
    ensures tx.outputs[0].value == dupBox.value && tx.outputs[1].value == request.amount > 0
    ensures MIN_MINER_FEE <= tx.outputs[|tx.outputs| - 1].value <= MAX_MINER_FEE
  {
    hide SuccessorOutput, PlanAmounts;
    var amounts := PlanAmounts(request).value;
    if amounts.change > 0 {
      assert Values(tx.outputs) == [dupBox.value, request.amount] + [amounts.change] + [amounts.fee];
    } else {
      assert Values(tx.outputs) == [dupBox.value, request.amount] + [amounts.fee];
    }
    SumFour(dupBox.value, request.amount, amounts.change, amounts.fee);
  }

  lemma SumFour(a: int, b: int, c: int, d: int)
    ensures Sum([a, b] + [c] + [d]) == a + b + c + d
    ensures Sum([a, b] + [d]) == a + b + d
  {
    assert [a, b][..1] == [a] && [a][..0] == [];
    assert ([a, b] + [c] + [d])[..3] == [a, b] + [c];
    assert ([a, b] + [c])[..2] == [a, b] == ([a, b] + [d])[..2];
    assert Sum([a]) == a;
    assert Sum([a, b]) == a + b;
    assert Sum([a, b] + [c]) == a + b + c;
  }

  // ----- The successor -----

  /** The counter a box carries; a box without one counts from 0. */
  function CounterRegister(box: BoxLike): Option<Bytes> {
    if R4 in box.registers then Some(box.registers[R4]) else None
  }

  /** The singleton the plan starts from, with a counter that can go on. */
  ghost predicate Continues(env: Env, plan: Plan, box: BoxLike, flags: Byte, counter: nat) {
    && box.ergoTree == env.dupTree && box.assets == [Asset(env.nftId, 1)]
    && 0 < box.value <= ERGO_LONG_MAX
    && R5 in box.registers && box.registers[R5] == Codec.EncodeAvl(plan.inputDigest, flags)
    && |plan.inputDigest| == 33 && flags % 2 == 1
    && R6 in box.registers && env.isDlogRegister(box.registers[R6])
    && Codec.DecodeLongSpec(CounterRegister(box)) == Ok(counter) && counter < MAX_SAFE_INTEGER
  }

  /** A successor is made exactly for such a box: it keeps value, token, flags and authority, counts
      one up and carries the plan's new digest. */
  lemma SuccessorExact(env: Env, plan: Plan, box: BoxLike, output: Output)
    ensures SuccessorOutput(env, plan, box) == Ok(output) <==>
            exists flags: Byte, counter: nat ::
              && Continues(env, plan, box, flags, counter)
              && output == Output(box.value, env.dupTree, [Asset(env.nftId, 1)],
                                  map[R4 := Codec.EncodeLong(counter + 1),
                                      R5 := Codec.EncodeAvl(plan.outputDigest, flags), R6 := box.registers[R6]])
  {
    hide Codec.DecodeAvl, Codec.DecodeLongSpec, Codec.EncodeLong, Codec.EncodeLongChecked;
    if SuccessorOutput(env, plan, box) == Ok(output) {
      var flags := Codec.DecodeAvl(box.registers[R5]).value.flags;
      var counter := Codec.DecodeLongSpec(CounterRegister(box)).value;
      assert Codec.EncodeLongChecked(counter + 1, true).Ok?;
      DecodedFlags(box.registers[R5]);
      hide Codec.EncodeAvl;
      assert Continues(env, plan, box, flags, counter);
    }
    if flags: Byte, counter: nat :|
      && Continues(env, plan, box, flags, counter)
      && output == Output(box.value, env.dupTree, [Asset(env.nftId, 1)],
                          map[R4 := Codec.EncodeLong(counter + 1),
                              R5 := Codec.EncodeAvl(plan.outputDigest, flags), R6 := box.registers[R6]])
    {
      Codec.AvlRoundTrip(plan.inputDigest, flags);
      hide Codec.EncodeAvl;
      assert Codec.EncodeLongChecked(counter + 1, true).Ok?;
    }
  }

  lemma DecodedFlags(register: Bytes)
    requires Codec.DecodeAvl(register).Ok?
    ensures var avl := Codec.DecodeAvl(register).value;
            avl.flags % 2 == 1 && |avl.digest| == 33 && register == Codec.EncodeAvl(avl.digest, avl.flags)
  {
  }

  // ----- Who gets what -----

  /** The value of the outputs locked to a tree. */
  function LockedTo(outputs: seq<Output>, tree: Bytes): int {
    if outputs == [] then 0
    else LockedTo(outputs[..|outputs| - 1], tree) + LockedIn(outputs[|outputs| - 1], tree)
  }

  function LockedIn(o: Output, tree: Bytes): int {
    if o.ergoTree == tree then o.value else 0
  }

  lemma LockedAppend(outputs: seq<Output>, o: Output, tree: Bytes)
    ensures LockedTo(outputs + [o], tree) == LockedTo(outputs, tree) + LockedIn(o, tree)
  {
    assert (outputs + [o])[..|outputs|] == outputs;
  }

  /** What is left of the vault after payout and fee, as change if it makes a box. */
  function ChangeOf(request: Request): int {
    var rest := request.vaultValue - request.amount - request.minerFee;
    if rest >= MIN_BOX_VALUE then rest else 0
  }

  /** No tree has two of the four roles. */
  predicate TreesDiffer(env: Env, request: Request) {
    && env.dupTree != request.recipientTree && env.dupTree != request.vaultTree && env.dupTree != env.minerFeeTree
    && request.recipientTree != request.vaultTree && request.recipientTree != env.minerFeeTree
    && request.vaultTree != env.minerFeeTree
  }

  /** Every built transaction spends the singleton with its extension and the vault, reads the
      tracker, and pays by tree: the recipient exactly the amount, the vault exactly what is left
      under its own registers, the miner the rest, the singleton its own value. */
  lemma BuiltTxPays(env: Env, plan: Plan, dupBox: BoxLike, request: Request, tx: UnsignedTx)
    requires BuildTx(env, plan, dupBox, request) == Ok(tx)
    ensures tx.dupInput == Input(dupBox.boxId, plan.extension)
    ensures tx.vaultInput == request.vaultId && tx.trackerDataInput == request.trackerId
    ensures TreesDiffer(env, request) ==>
              && LockedTo(tx.outputs, request.recipientTree) == request.amount
              && LockedTo(tx.outputs, request.vaultTree) == ChangeOf(request)
              && LockedTo(tx.outputs, env.dupTree) == dupBox.value
              && LockedTo(tx.outputs, env.minerFeeTree) == request.vaultValue - request.amount - ChangeOf(request)
              && (forall o :: o in tx.outputs ==>
                    && (o.ergoTree != env.dupTree ==> o.assets == [])
                    && (o.ergoTree == request.vaultTree ==> o.registers == request.vaultRegisters)
                    && (o.ergoTree == request.recipientTree ==> o.registers == map[]))
  {
    hide SuccessorOutput, PlanAmounts, LockedTo;
    AmountsAre(request);
    var amounts := PlanAmounts(request).value;
    var successor := SuccessorOutput(env, plan, dupBox).value;
    var payout := Output(request.amount, request.recipientTree, [], map[]);
    var change := Output(amounts.change, request.vaultTree, [], request.vaultRegisters);
    var fee := Output(amounts.fee, env.minerFeeTree, [], map[]);
    if TreesDiffer(env, request) {
      forall tree
        ensures LockedTo(tx.outputs, tree)
                == LockedIn(successor, tree) + LockedIn(payout, tree)
                   + (if amounts.change > 0 then LockedIn(change, tree) else 0) + LockedIn(fee, tree)
      {
        LockedBoth(successor, payout, tree);
        if amounts.change > 0 {
          LockedAppend([successor, payout], change, tree);
          LockedAppend([successor, payout] + [change], fee, tree);
        } else {
          assert [successor, payout] + [] == [successor, payout];
          LockedAppend([successor, payout], fee, tree);
        }
      }
    }
  }

  lemma LockedBoth(a: Output, b: Output, tree: Bytes)
    ensures LockedTo([a, b], tree) == LockedIn(a, tree) + LockedIn(b, tree)
  {
    assert [a, b][..1] == [a] && [a][..0] == [];
    assert LockedTo([a], tree) == LockedTo([], tree) + LockedIn(a, tree);
  }

  lemma AmountsAre(request: Request)
    requires PlanAmounts(request).Ok?
    ensures PlanAmounts(request).value.change == ChangeOf(request)
    ensures PlanAmounts(request).value.fee == request.vaultValue - request.amount - ChangeOf(request)
  {
  }
}
