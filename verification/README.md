# Verified model of the bridge relayer

The relayer settles burns of a sidechain on Ergo. This project models its offline logic in
Dafny and proves what that logic is relied on for.

| file | component |
|---|---|
| `Lineage.dfy` | ordering an unordered index of singleton boxes into the one chain they form |
| `DupReplay.dfy`, `DupRules.dfy` | replaying every insertion of the duplicate-prevention (DUP) singleton, and the rules its checks amount to |
| `CausalSettlement.dfy`, `RoundTrip.dfy`, `RunProgress.dfy` | the writer of those insertions, the writer/reader round trip over whole runs, and the existence of those runs |
| `JsNumber.dfy`, `BatchPlan.dfy`, `BatchSettlement.dfy` | batch settlements: JavaScript sums, claim cores and context variables, liquidity, assembly, confirmation |
| `CurrentAuthority.dfy`, `CheckReservation.dfy`, `Submitter.dfy`, `Submission.dfy`, `EndToEnd.dfy` | the check/reserve pipeline, the one-shot submitter under any interleaving, and both on shared state objects: every transport goes back to a grant |
| `Abandonment.dfy` | two-observation retirement of an attempt |
| `StableView.dfy`, `NodeClient.dfy` | double collect of a live node; pagination, budgets and caches |
| `Codec.dfy`, `CanonicalJson.dfy`, `Utf8.dfy`, `Candidate.dfy`, `ProofScanner.dfy` | register codecs, canonical JSON, its UTF-8 form and identity digests, the AVL proof scanner |
| `ContractSources.dfy`, `InitialBinding.dfy` | template resolution and the three-pass contract fixed point |
| `Prelude.dfy` | shared types |

Imperative code is kept imperative: loops are methods proved against specification functions;
objects that update their fields are classes whose methods are proved equal to step functions and
keep, as `Valid()`, the invariant of all runs; the main results are about every run of those steps. A callback is split at its awaits, so
that anything may happen in between. Throws the proofs show unreachable appear as `assert false`
under the condition that guards them.

`dafny verify dfyconfig.toml` checks the whole project.

## Assumptions

They are explicit parameters or predicates, never axioms.

- SHA-256 and Blake2b are function parameters; `Candidate.CollisionFree` (of byte strings) is
  assumed where ids must pin fields, collision-free payout digests where a payout is pinned, and
  hash values are lower-case hex where template resolution needs it.
- `DupReplay.LawfulTree`: an AVL insertion gives the digest of the longer key list, and digests
  are 33 bytes. `BatchPlan.Lawful`: one lookup proof for each key.
- `RoundTrip.World`: the run was built by the writer, ids on chain are fresh, the node reports
  what was mined, and proofs fit the reader's byte bound.
- `StableView`: heights never fall, a replaced header never returns, and (for atomicity only) a
  tip commits to the state. A lemma shows that the second is needed.
- `Submitter`: a minted authorization is known to foreign code only once a transport was handed
  it. Every journal may change in any way between steps.
- `EndToEnd`: state objects begin without reservations; rows are inserted only by the grant
  (`state-tracker.ts:11384`), whose one caller is the check-and-reserve run, and other writers only
  revoke or remove them. Candidates and peg-outs are free, and nothing is assumed of handoffs.
- `BatchSettlement.Deployment`: singletons list their NFT first, the NFTs differ, and the tracker
  register's digest reader inverts its encoder.

## Where the code does less than its description suggests

- `decodeLongRegister` inverts the signed varint form only on the non-negative safe integers: it
  ends in `safeNanoErgNumber`, which refuses negative numbers (`Codec.LongRoundTrip`,
  `Codec.NegativeLongRefused`).
- Whether the initial binding can be derived depends on the seed trees in one way: the DUP tree of
  the first pass, which embeds the hash of the seed unlock tree, must differ from the other two
  (`InitialBinding.DerivesUnlessTreesCoincide` is the exact condition). `InitialBinding.SeedsDecide`
  has, for any hashes that tell the trees apart, a compiler, request and templates for which the
  relayer's own seeds fail and others succeed. The report itself does not depend on the seeds.
- The byte-collection decoder accepts more than the encoder writes: longer length prefixes, and
  prefixes that wrap around at 2^32 (`Codec.CollExact`, `Codec.OtherPrefixesAccepted`).

- A granted reservation does not pin the burn of the payout it was asked for
  (`EndToEnd.GrantIgnoresBurn`); the payout digest of the transport attempt does, exactly
  (`EndToEnd.AuthoritySettles`).
- A reconstruction of the node client is charged for responses to requests sent before it began,
  exactly if some are in flight then (`NodeClient.PaysOwnIff`).

## Model

| member | source | states |
|---|---|---|
| Lineage.OrderSingletonLineage | relayer/src/authenticated-spv-tracker-reconstruction.ts:738-784 | both copies of the ordering, with or without the tracker's extra predecessor-count loop, end in the same outcome on every listing; the "contains a cycle" and "has N predecessors" throws are unreachable |
| Lineage.OutcomeExact | relayer/src/authenticated-v2-dup-reconstruction.ts:539-582 | a listing is ordered into a chain if and only if it is a permutation of that chain (distinct ids and creating transactions, each spend creates the next box, one unspent tip) |
| Lineage.LineageUnique | relayer/src/authenticated-v2-dup-reconstruction.ts:567-581 | a listing is a permutation of at most one chain |
| Lineage.ListingOrderIrrelevant | relayer/src/authenticated-v2-dup-reconstruction.ts:539-582 | the order in which the index lists the boxes changes neither acceptance nor the chain |
| Lineage.AtMostOnePredecessor | relayer/src/authenticated-spv-tracker-reconstruction.ts:753-783 | after the one-tip, successor-exists and one-root checks, counting edges leaves no box with two predecessors |
| Lineage.DisconnectedExact | relayer/src/authenticated-v2-dup-reconstruction.ts:578-580 | once those checks pass the listing is refused exactly when it contains a detached ring of spends |
| Lineage.WalkNeverReturns | relayer/src/authenticated-v2-dup-reconstruction.ts:569-577 | a walk along spends can come back only to its first box, and then some box spends into that one |
| Lineage.RootNotRevisited | relayer/src/authenticated-v2-dup-reconstruction.ts:567-577 | so a walk from the root never comes back to a box it has visited |
| Lineage.IndexBoxes | relayer/src/authenticated-v2-dup-reconstruction.ts:540-549 | the first duplicate box id or creating transaction is reported; otherwise boxes are indexed by creating transaction |
| Lineage.CountPredecessors | relayer/src/authenticated-v2-dup-reconstruction.ts:554-562 | a missing successor is reported, or the number of predecessors of every box is counted |
| Lineage.CheckPredecessorCounts | relayer/src/authenticated-spv-tracker-reconstruction.ts:766-768 | every counted box has exactly one predecessor; the throw cannot be reached |
| Lineage.Walk | relayer/src/authenticated-v2-dup-reconstruction.ts:568-577 | the walk terminates and visits the maximal chain from the root; the cycle throw cannot be reached |
| DupReplay.Reconstruct | relayer/src/authenticated-v2-dup-reconstruction.ts:164-397 | the reconstruction succeeds exactly on the accepted listings and reports their unique history; the closing digest, counter and authority checks are unreachable |
| DupReplay.Replay | relayer/src/authenticated-v2-dup-reconstruction.ts:213-342 | the loop returns the one sequence of transitions the lineage replays to, or none exists |
| DupReplay.NormalizeAll | relayer/src/authenticated-v2-dup-reconstruction.ts:436-537 | every listed box is normalized, or the listing is refused |
| DupReplay.AcceptedHistory | relayer/src/authenticated-v2-dup-reconstruction.ts:203-342 | no burn id twice; box i has counter i and the digest of the first i keys; constant authority; nondecreasing singleton value; transition i links box i to box i+1 |
| DupReplay.StepKeeps | relayer/src/authenticated-v2-dup-reconstruction.ts:215-330 | one replay step adds one new 32-byte key to the digest and counter and keeps authority and value |
| DupRules.StepExact | relayer/src/authenticated-v2-dup-reconstruction.ts:213-342 | a replay step accepts exactly the settlements: the transaction, block, inputs, outputs, payout and fee, the inserted key with its proofs, and digest, counter, authority and value, field by field, with the transition it reports |
| DupRules.BoxExact | relayer/src/authenticated-v2-dup-reconstruction.ts:436-537 | a listed box is taken exactly if it is a singleton at output 0, spent with a small context or unspent without one |
| DupRules.PayloadExact | relayer/src/authenticated-v2-dup-reconstruction.ts:505-537 | exactly the boxes with the contract, one NFT, canonical counter and insert-enabled tree, and a dlog authority normalize |
| DupRules.GenesisExact | relayer/src/authenticated-v2-dup-reconstruction.ts:186-212 | the genesis is accepted exactly if its setup transaction mints the NFT as the singleton with counter 0 and the empty digest |
| DupRules.TipExact | relayer/src/authenticated-v2-dup-reconstruction.ts:343-397 | the tip is accepted exactly if the UTXO set holds the same unspent singleton |
| DupReplay.AcceptedUnique | relayer/src/authenticated-v2-dup-reconstruction.ts:164-397 | a listing is accepted with at most one lineage and one history |
| DupReplay.ClosingChecksPass | relayer/src/authenticated-v2-dup-reconstruction.ts:343-356 | tip digest, counter and authority always agree with the replayed history |
| DupReplay.PayoutExact | relayer/src/authenticated-v2-historical-payout-evidence.ts:463-512 | from an accepted reconstruction a payout is selected for exactly the settled keys, and it is the transition that inserted the key |
| DupReplay.SelectExact | relayer/src/authenticated-v2-historical-payout-evidence.ts:463-512 | from any observation a payout is selected exactly for a key that occurs once, in a history as long as its transitions, whose transition carries the key |
| CausalSettlement.PlanExact | relayer/src/profiles/substrate-grandpa-v1/authenticated-settlement-plan.ts:300-345 | the duplicate-prevention part of a plan is made exactly for a new 32-byte key and a history of such keys, from the digest of the history to the one the insertion promises, with key and proofs in their variables |
| CausalSettlement.PlanChange | relayer/src/ergo-settlement-core/tx-balance.ts:57-79 | change and fee together keep the input value; change is absent or at least the minimum box value; dust goes to the fee |
| CausalSettlement.PlanAmounts | relayer/src/aggregate-settlement-tx.ts:712-749 | payout, change and fee add up to the vault and the fee stays within the contract bounds |
| CausalSettlement.BuiltTxConserves | relayer/src/aggregate-settlement-tx.ts:633-820 | every built transaction keeps the singleton value, pays the payout and returns the rest of the vault as change and fee |
| CausalSettlement.BuiltTxPays | relayer/src/aggregate-settlement-tx.ts:760-819 | every built transaction spends the singleton with its extension and the vault, reads the tracker, and by tree pays the recipient exactly the amount, returns to the vault under its own registers exactly what is left if that makes a box, and gives the miner the rest |
| CausalSettlement.SuccessorExact | relayer/src/aggregate-settlement-tx.ts:658-775 | a successor is made exactly from the deployed singleton with the plan's digest, an authority and a counter that can go on; it keeps value, token, flags and authority, counts one up and carries the new digest |
| RoundTrip.ListingAccepted | relayer/src/authenticated-v2-dup-reconstruction.ts:186-342 | for any run of settlements built from a valid genesis, within the box bound, the reconstruction accepts its boxes in any listing order with the run's own lineage and transitions |
| RoundTrip.ReadBack | relayer/src/authenticated-v2-dup-reconstruction.ts:164-397 | writer then reader is the identity: exactly the settled burn ids come back in order, with the tip, counter and digest of the run |
| RoundTrip.RunWrites | relayer/src/aggregate-settlement-tx.ts:712-819 | box i of a built run carries counter i and the digest of its first i burn ids |
| RoundTrip.StepReads | relayer/src/authenticated-v2-dup-reconstruction.ts:215-330 | the reader accepts each built settlement, with the burn id and proofs it was built with |
| RunProgress.WriterProgress | relayer/src/aggregate-settlement-tx.ts:633-820 | from every run the next settlement can be built exactly for a new 32-byte key, a vault that covers payout and fee with a change box or a fee within the cap, a 36-byte recipient tree, an attestor other than the bridge committee, a fitting tracker box and vault, and a counter below the safe bound |
| RunProgress.BuildsIff | relayer/src/aggregate-settlement-tx.ts:633-820 | from any box, the builder succeeds exactly for such a singleton, a fitting tracker and vault, an attestor other than the committee, payable amounts and a recipient tree |
| RunProgress.RunExtends | relayer/src/aggregate-settlement-tx.ts:712-819 | what the writer builds next, once mined, makes a longer valid run |
| RunProgress.WorldExists | relayer/src/authenticated-v2-dup-reconstruction.ts:164-397 | for every run with fresh ids some node reports it, so the assumptions of the round trip can be met |
| RoundTrip.ExtensionReads | relayer/src/aggregate-settlement-builder.ts:271-277 | the three context variables of the singleton input decode to the key and proofs put in |
| Codec.EncodeVlq | relayer/src/ergo-settlement-core/ergo-encoding.ts:8-26 | the loop writes the base-128 digits, continuation bit on all but the last |
| Codec.VlqRoundTrip | relayer/src/ergo-settlement-core/ergo-encoding.ts:8-26 | reading a VLQ gives the number back and ignores what follows the terminator |
| Codec.DecodeLong | relayer/src/aggregate-settlement-tx.ts:143-155 | the digit loop computes the zigzag value of the digits up to the terminator; a missing or foreign register reads as 0 |
| Codec.TolerantReads | relayer/src/aggregate-settlement-tx.ts:143-155 | a missing, empty or foreign register reads as 0; any other as the zigzag value of its digits if that is a non-negative safe integer |
| Codec.LongRoundTrip | relayer/src/aggregate-settlement-tx.ts:143-155 | decodeLongRegister inverts the encoder, whatever follows the terminator, exactly on 0..MAX_SAFE_INTEGER; every other Long is refused |
| Codec.NegativeLongRefused | relayer/src/aggregate-settlement-tx.ts:143-155 | the register of -1 is refused although -1 is a safe integer |
| Codec.EncodeLongChecked | relayer/src/ergo-settlement-core/ergo-encoding.ts:96-106 | a number is encoded exactly when it is a safe integer and fits 64 bits |
| Codec.DecodeCanonicalLong | relayer/src/ergo-settlement-core/ergo-encoding.ts:196-230 | the canonical decoder loop computes DecodeCanonicalLongSpec |
| Codec.CanonicalLongExact | relayer/src/ergo-settlement-core/ergo-encoding.ts:108-117 | a register decodes to n if and only if it is the encoding of the signed 64-bit n |
| Codec.DecodeColl | relayer/src/ergo-settlement-core/ergo-encoding.ts:48-94 | the length-prefix loop with its 32-bit arithmetic computes DecodeCollSpec |
| Codec.CollExact | relayer/src/ergo-settlement-core/ergo-encoding.ts:48-94 | a register decodes to a payload if and only if it is the type byte, one to five length digits whose value modulo 2^32 is the payload length, and the payload, within the bound |
| Codec.OtherPrefixesAccepted | relayer/src/ergo-settlement-core/ergo-encoding.ts:70-86 | two registers the encoder never writes, a longer prefix and a wrapped one, that decode to the empty payload |
| Codec.CollRoundTrip | relayer/src/ergo-settlement-core/ergo-encoding.ts:29-94 | byte collections round-trip for every payload under 2^31 within the bound |
| Codec.DecodeAvl | relayer/src/authenticated-v2-dup-reconstruction.ts:657-668 | exactly the canonical insert-enabled AvlTree registers are accepted |
| Codec.AvlRoundTrip | relayer/src/ergo-settlement-core/ergo-encoding.ts:152-165 | AvlTree registers round-trip |
| CanonicalJson.ParseInvertsPrint | relayer/src/authenticated-settlement-candidate.ts:52-77 | parsing the canonical text gives the value back up to property order, bigint as decimal string and undefined as null |
| CanonicalJson.TextsCoincide | relayer/src/authenticated-settlement-candidate.ts:52-77 | two values have one canonical text if and only if they agree up to what printing forgets |
| CanonicalJson.PropertyOrderIrrelevant | relayer/src/authenticated-settlement-candidate.ts:65-71 | the order in which an object lists its properties does not reach the text |
| CanonicalJson.SameObjectText | relayer/src/authenticated-settlement-candidate.ts:65-71 | objects with the same property names have the same text only if every property agrees |
| CanonicalJson.SortSorts | relayer/src/authenticated-settlement-candidate.ts:67-70 | properties are sorted by UTF-16 code units, and none is lost |
| CanonicalJson.CharsRead | relayer/src/authenticated-settlement-candidate.ts:55-57 | a quoted string reads back: RFC 8259 section 7 escapes, lone surrogates as \u escapes |
| Utf8.EncodedTextsCoincide | relayer/src/authenticated-settlement-candidate.ts:52-77 | two values are digested from the same bytes if and only if they agree up to what printing forgets |
| Utf8.PrintPairs | relayer/src/authenticated-settlement-candidate.ts:52-71 | surrogates of a canonical text always come in pairs |
| Utf8.EncodeInjective | relayer/src/authenticated-settlement-candidate.ts:75-77 | UTF-8 is injective on texts without lone surrogates |
| Utf8.LoneSurrogatesCollide | relayer/src/authenticated-settlement-candidate.ts:75-77 | and not on others: lone surrogates are encoded as U+FFFD |
| Candidate.CandidateIdPins | relayer/src/authenticated-settlement-candidate.ts:121-146 | with a collision-free SHA-256 of byte strings two candidate ids are equal if and only if all 19 bound fields are |
| Candidate.NativeIdPins | relayer/src/authenticated-settlement-candidate.ts:209-250 | native-verified ids are equal if and only if schema version, candidate id and all 30 checkpoint fields are |
| CurrentAuthority.AuthorityPins | relayer/src/authenticated-settlement-transport-attempt.ts:175-298 | in one journal a reservation gives authority to one set of terms only |
| CurrentAuthority.AuthorityExact | relayer/src/authenticated-settlement-transport-attempt.ts:175-298 | a live reservation, a checked candidate and an open peg-out that belong together determine terms and binding; authority is to present exactly that binding |
| Submitter.TransportsAreAuthorized | relayer/src/authenticated-settlement-reserved-execution-compatibility.ts:316-481 | in every interleaving of runs, callbacks, awaits and changes of any journal, each transport start has current authority, at that very moment, in the journal its own dependencies carry; an authorization minted earlier in its run after an immediate revalidation under current authority; the run's own submitter and signed artifact, which is for the candidate, transaction and package of the reserved terms; and an authorization never used before |
| Submitter.RunsAreJustified | relayer/src/authenticated-settlement-reserved-execution-compatibility.ts:300-481 | every entry of every run is justified by the entries before it |
| Submitter.SubmissionStartsIff | relayer/src/authenticated-settlement-reserved-execution-compatibility.ts:442-466 | in any reachable state a resumed submission starts its transport exactly when the approval is good, the authority current and the authorization unused |
| Submission.OrdinarySubmissionStarts | relayer/src/authenticated-settlement-reserved-execution-compatibility.ts:300-481 | from any reachable state, for a concrete handoff and registered dependencies, with authority at each check, evidence, approval and recheck, the callbacks in order log exactly one transport start, for the run's own artifact and submitter |
| Submission.BeginsIff | relayer/src/authenticated-settlement-reserved-execution-compatibility.ts:300-307 | a run begins exactly for a reserved handoff whose genuine signed artifact is for the candidate, transaction and package of its terms, with registered dependencies |
| Submission.RevalidatesIff | relayer/src/authenticated-settlement-reserved-execution-compatibility.ts:317-327 | a revalidation is let through exactly for the run's own reservation and artifact under current authority |
| Submission.RevalidationEndsIff | relayer/src/authenticated-settlement-reserved-execution-compatibility.ts:323-353 | it ends with evidence exactly if the observation succeeded and the authority is still there |
| Submission.SubmitsIff | relayer/src/authenticated-settlement-reserved-execution-compatibility.ts:442-457 | in reachable states a submission is let through exactly for an authorization of the same run and the signed transaction of its terms |
| Submission.FixedSubmitsIff | relayer/src/authenticated-settlement-reserved-execution-compatibility.ts:250-273 | a fixed submitter starts its transport exactly for an unused authorization bound to itself, which it spends |
| Submission.RunsAreKept | relayer/src/authenticated-settlement-reserved-execution-compatibility.ts:323-409 | in reachable states every authorization stands for the terms of its run, its revalidation's evidence and its approval |
| Submission.PreSubmitPins | relayer/src/authenticated-settlement-reserved-execution-compatibility.ts:328-343 | with collision-free digests a pre-submit digest pins the reserved terms, the stable views and the views seen now |
| Submission.BroadcastPins | relayer/src/authenticated-settlement-reserved-execution-compatibility.ts:368-378 | and a broadcast digest the reserved terms, the revalidation and the approval |
| Submission.Preimages | relayer/src/authenticated-settlement-reserved-execution-compatibility.ts:328-378 | what the two digests are taken of, in order |
| Submitter.DirectSubmissionFails | relayer/src/authenticated-settlement-reserved-execution-compatibility.ts:250-273 | foreign code calling a submitter itself never starts a transport: what it can present is forged or spent |
| EndToEnd.TransportsGoBackToGrants | relayer/src/authenticated-settlement-reserved-execution-compatibility.ts:300-481 | in every interleaving of check-and-reserve runs, submitter runs and other writers, and whatever passes for a reserved handoff, each transport start goes back to a reservation granted earlier, to the very state object the run uses, through a complete admission chain; it settles an open peg-out with candidate, amount and recipient of the payout that was granted, and the whole of that payout exactly if the attempt carries its digest |
| EndToEnd.RunsAreSound | relayer/src/state-tracker.ts:11163-11452 | at every moment of every interleaving each live reservation row of each state object is what a check-and-reserve run granted in it, and live rows claim no common resource |
| EndToEnd.ReservationsStayExclusive | relayer/src/state-tracker.ts:11355-11382 | so at every moment any two live reservations of a state object differ in candidate, burn, burn transaction, DUP box, vault box and expected transaction |
| EndToEnd.AuthoritySettles | relayer/src/authenticated-settlement-transport-attempt.ts:175-298 | current authority by a granted row is authority for what was granted, for any handoff; with collision-free payout digests it is for the granted payout, burn and source coordinates included, if and only if the attempt carries that payout's digest |
| EndToEnd.CallWrites | relayer/src/state-tracker.ts:11163-11452 | a callback leaves the reservation rows alone or adds the one row it grants |
| EndToEnd.RevokedExclusive | relayer/src/state-tracker.ts:5208-5291 | revoking reservations, as the drift triggers do, keeps the live ones exclusive |
| EndToEnd.GrantIgnoresBurn | relayer/src/authenticated-settlement-check-reservation-compatibility.ts:742-763 | whenever a straight run reserves, the same terms are reserved for an input naming any other burn: the grant alone does not pin the burn |
| Submitter.Process.constructor | relayer/src/authenticated-settlement-reserved-execution-compatibility.ts:229-235 | no submitter, dependencies, run or authorization yet |
| Submitter.Process.CreateFixedSubmitter | relayer/src/authenticated-settlement-reserved-execution-compatibility.ts:237-274 | a new genuine submitter |
| Submitter.Process.CreateDeps | relayer/src/authenticated-settlement-reserved-execution-compatibility.ts:276-283 | dependencies are registered only with a genuine submitter |
| Submitter.Process.BeginRun | relayer/src/authenticated-settlement-reserved-execution-compatibility.ts:300-307 | a run starts only from a concrete reserved handoff and registered dependencies |
| Submitter.Process.RevalidateImmediately | relayer/src/authenticated-settlement-reserved-execution-compatibility.ts:317-327 | up to the await: lets through exactly the run's own reservation and artifact under current authority |
| Submitter.Process.RevalidateImmediatelyResumes | relayer/src/authenticated-settlement-reserved-execution-compatibility.ts:323-353 | after the await: authority again, then evidence registered under a fresh object |
| Submitter.Process.RegisterEvidence | relayer/src/authenticated-settlement-reserved-execution-compatibility.ts:335-353 | the evidence is filed under a fresh object for its run |
| Submitter.Process.AuthorizeBroadcast | relayer/src/authenticated-settlement-reserved-execution-compatibility.ts:354-367 | only a revalidation of this run can be authorised |
| Submitter.Process.AuthorizeBroadcastResumes | relayer/src/authenticated-settlement-reserved-execution-compatibility.ts:360-409 | mints one opaque authorization with its terms |
| Submitter.Process.MintAuthorization | relayer/src/authenticated-settlement-reserved-execution-compatibility.ts:379-408 | the authorization is fresh, bound to the run's submitter and registered |
| Submitter.Process.Submit | relayer/src/authenticated-settlement-reserved-execution-compatibility.ts:442-457 | only an authorization of this run with matching terms gets to the approval recheck |
| Submitter.Process.SubmitResumes | relayer/src/authenticated-settlement-reserved-execution-compatibility.ts:452-466 | authority check and transport start in one step; a start is authorised through the whole chain of its run, and the run invariant is kept |
| Submitter.Process.SubmitThrough | relayer/src/authenticated-settlement-reserved-execution-compatibility.ts:250-273 | the authorization is consumed before the transport starts, once, by its bound submitter |
| Submitter.Process.SubmitForeign | relayer/src/authenticated-settlement-reserved-execution-compatibility.ts:250-273 | foreign code that calls a submitter gets nothing and changes nothing |
| CheckReservation.ReservedThroughChain | relayer/src/authenticated-settlement-check-reservation-compatibility.ts:177-518 | whatever the driver calls in whatever order, an execution is reserved only through revalidation, package, signature, check, both stable views, admission, authorization and reservation admission of this run, each older than what it supports, all projections of one candidate row and its check digests, for one prepared transaction and the amount and recipient of the input payout (with a collision-free payout digest also its vault), in a journal holding the candidate checked by this admission |
| CheckReservation.ValidGrant | relayer/src/authenticated-settlement-check-reservation-compatibility.ts:491-516 | in any state the invariant allows, a reservation the journal would grant has that chain |
| CheckReservation.RunsAreLinked | relayer/src/authenticated-settlement-check-reservation-compatibility.ts:177-518 | every registered result is linked to older results of the right kinds and agrees with them |
| CheckReservation.StraightRunReserves | relayer/src/authenticated-settlement-check-reservation-compatibility.ts:199-518 | with consistent answers (native finality proof, horizon height and amount in the signed Long range) and an open candidate the callbacks in order do reserve |
| CheckReservation.ReadyRunReserves | relayer/src/authenticated-settlement-check-reservation-compatibility.ts:199-518 | for every prepared candidate with an open peg-out, native finality and free terms, the answers that project from it make the callbacks in order reserve exactly its terms |
| CheckReservation.AuthorizableProjects | relayer/src/authenticated-settlement-check-reservation-compatibility.ts:401-460 | what is authorised was revalidated, packaged, checked, seen and admitted as projections of one candidate row, its check digests and finality evidence, and the input payout |
| CheckReservation.RecordedOnce | relayer/src/state-tracker.ts:12100-12303 | recording turns one prepared candidate with an open peg-out into a checked one or does nothing; a checked candidate is never rewritten |
| CheckReservation.GrantKeepsExclusive | relayer/src/state-tracker.ts:11315-11382 | a grant leaves any two live reservations different in candidate, burn, burn transaction, DUP box, vault box and expected transaction |
| CheckReservation.GrantableIff | relayer/src/state-tracker.ts:11163-11382 | a reservation is granted exactly for the terms of a checked candidate and its open peg-out that no older attempt and no live reservation has a claim on, or once more for the same row |
| CheckReservation.GrantCarriesAuthority | relayer/src/state-tracker.ts:11163-11382 | right after a grant a transport attempt has current authority exactly when it names this candidate's terms and the peg-out keeps the candidate's source coordinates |
| CheckReservation.Pipeline.Revalidate | relayer/src/authenticated-settlement-check-reservation-compatibility.ts:203-216 | registers a revalidation only for the exact input, a matching candidate and an amount in the positive signed Long range |
| CheckReservation.Pipeline.BindPackage | relayer/src/authenticated-settlement-check-reservation-compatibility.ts:217-245 | registers a package only on a revalidation of this run with the same prepared transaction |
| CheckReservation.Pipeline.Sign | relayer/src/authenticated-settlement-check-reservation-compatibility.ts:246-270 | registers a signature only on a package of this run |
| CheckReservation.Pipeline.Check | relayer/src/authenticated-settlement-check-reservation-compatibility.ts:271-301 | registers an acceptance only on a signature of this run |
| CheckReservation.Pipeline.ObserveStableErgo | relayer/src/authenticated-settlement-check-reservation-compatibility.ts:302-323 | registers an Ergo view only on a check of this run |
| CheckReservation.Pipeline.ObserveStableSidechain | relayer/src/authenticated-settlement-check-reservation-compatibility.ts:324-345 | registers a sidechain view only on a check of this run |
| CheckReservation.Pipeline.AuthorizeCheck | relayer/src/authenticated-settlement-check-reservation-compatibility.ts:346-382 | admits a check with two views when candidate id, transaction and finality evidence agree |
| CheckReservation.Pipeline.RecordCheck | relayer/src/state-tracker.ts:12100-12303 | a prepared candidate with an open peg-out becomes checked with the admission's digests, if its finality proof is native and its horizon height a positive signed Long |
| CheckReservation.Pipeline.AuthorizeExecution | relayer/src/authenticated-settlement-check-reservation-compatibility.ts:401-460 | authorises when the journaled candidate is checked by this admission and everything agrees |
| CheckReservation.Pipeline.AuthorizeReservation | relayer/src/authenticated-settlement-check-reservation-compatibility.ts:461-490 | admits a reservation of an authorization whose terms the journal still confirms |
| CheckReservation.Pipeline.ReserveExecution | relayer/src/authenticated-settlement-check-reservation-compatibility.ts:491-516 | grants the reservation or leaves the journal alone; what is granted goes back through a complete admission chain |
| Abandonment.RetiredOnlyOnAbsenceWindow | relayer/src/aggregate-settlement-recovery.ts:241-360 | over all runs of calls, chain changes and other writers: a retirement rests on two recorded absences of the same transaction and policy, at least the required confirmations apart, whose earlier tip both sources held canonical when read after the later absence was recorded |
| Abandonment.FirstAbsenceOnlyRecords | relayer/src/aggregate-settlement-recovery.ts:310-333 | without earlier evidence a call records and never retires |
| Abandonment.WindowRetires | relayer/src/aggregate-settlement-recovery.ts:310-360 | with such a window, held ancestor and an unchanged journal, the call does retire |
| Abandonment.TerminalUntouched | relayer/src/aggregate-settlement-recovery.ts:243-270 | no step of any call writes anything of a confirmed or abandoned attempt |
| Abandonment.TerminalForever | relayer/src/aggregate-settlement-recovery.ts:243-270 | and no sequence of calls and chain changes does |
| Abandonment.RetirementRecognised | relayer/src/aggregate-settlement-recovery.ts:251-270 | after a retirement the next call answers already_retired and writes nothing |
| Abandonment.RetirementFreesBurns | relayer/src/state-tracker.ts:10200-10268 | a retirement of a submitted attempt needs every burn absent from the AVL history and unclaimed by another transaction; it resets exactly the burns this transaction had submitted to unclaimed detected rows, counts them, and leaves every other peg-out alone |
| Abandonment.Previous | relayer/src/state-tracker.ts:10672-10690 | the pairing row with the highest tip |
| Abandonment.PreviousIsYoungest | relayer/src/state-tracker.ts:10672-10690 | of several pairing rows with the highest tip the youngest is taken |
| Abandonment.InsertedExact | relayer/src/state-tracker.ts:10692-10750 | a row is added exactly if its key is new; an old key needs an authoritative row |
| Abandonment.BeginsAs | relayer/src/aggregate-settlement-recovery.ts:231-289 | a call waits exactly for a live attempt with a policy and a witness, and tells its own retirements from other abandonments |
| Abandonment.ObservesAs | relayer/src/aggregate-settlement-recovery.ts:290-333 | an observation is taken exactly by a call that waits for one, if it can be recorded, and leads on exactly if it completes a window with the paired row |
| Abandonment.WindowIff | relayer/src/aggregate-settlement-recovery.ts:129-146 | two absences form a window exactly if of one transaction and policy and the required confirmations apart |
| Abandonment.ReleaseSubmittedBurns | relayer/src/state-tracker.ts:10200-10268 | the loop goes through exactly if every burn is releasable, frees exactly the submitted ones and counts them; resets plus skips is the number of burns |
| Abandonment.ReleaseExact | relayer/src/state-tracker.ts:10200-10268 | the same of every prefix of the burns |
| Abandonment.PendingRetirementTouchesNothing | relayer/src/state-tracker.ts:10391-10428 | a retirement of a pending attempt needs every burn open or reverted, unclaimed, without a pending key and absent from the AVL history, and changes no peg-out |
| Abandonment.RetirementWrites | relayer/src/state-tracker.ts:10265-10300 | the attempt's row after a retirement, field by field |
| Abandonment.RetiresIff | relayer/src/state-tracker.ts:10132-10428 | a retirement goes through exactly under the journal's guards, spelled out for both kinds of attempt |
| Abandonment.RecordableIff | relayer/src/state-tracker.ts:10605-10671 | an absence is recorded exactly for a live attempt unchanged since the call began, under its policy |
| Abandonment.AllIdle | relayer/src/state-tracker.ts:10391-10428 | the pending retirement goes through only if every burn is idle |
| Abandonment.Recovery.Begin | relayer/src/aggregate-settlement-recovery.ts:231-289 | status, transport and policy checks up to the observation |
| Abandonment.Recovery.ObservationArrives | relayer/src/aggregate-settlement-recovery.ts:290-333 | record, pair and test the window |
| Abandonment.Recovery.ReadHeader | relayer/src/aggregate-settlement-recovery.ts:145-160 | one ancestor read is answered by the chain of that moment |
| Abandonment.Recovery.Finish | relayer/src/aggregate-settlement-recovery.ts:335-361 | the ancestor check and the retirement transaction; a retirement made here is justified by two recorded absences |
| StableView.Observe | relayer/src/authenticated-settlement-ergo-anchor.ts:71-160 | the view is returned exactly for the answers of Accepts and reports the tip read last |
| StableView.StableReads | relayer/src/authenticated-settlement-ergo-anchor.ts:100-131 | if heights never fall and a replaced header never returns, the anchor header and all three boxes of an accepted view were read under one tip, the reported one |
| StableView.ActsAtOnce | relayer/src/authenticated-settlement-ergo-anchor.ts:100-131 | with tips committing to the state, an accepted double collect is an atomic read of one state the node was in |
| StableView.QuietNode | relayer/src/authenticated-settlement-ergo-anchor.ts:100-148 | on a node that does not move, exactly what an atomic read accepts is accepted |
| StableView.ReorganisationAndBackIsMissed | relayer/src/authenticated-settlement-ergo-anchor.ts:100-131 | without the no-return assumption the property fails: a reorganisation and back is missed |
| NodeClient.GetIndexedBoxes | relayer/src/authenticated-spv-tracker-read-only-node-client.ts:194-267 | a list comes back if and only if the server serves exactly it within the bounds; the page-count and more-than-total guards are unreachable against any server |
| NodeClient.RunKeeps | relayer/src/authenticated-spv-tracker-read-only-node-client.ts:308-335 | after any call sequence bytes and requests spent plus remaining equal the bounds and are never negative, each key is loaded at most once, and the cache holds this session's loads only |
| NodeClient.LookupsAgree | relayer/src/authenticated-spv-tracker-read-only-node-client.ts:425-436 | two lookups of a key in one reconstruction get one promise |
| NodeClient.FreshStart | relayer/src/authenticated-spv-tracker-read-only-node-client.ts:308-335 | a new reconstruction has empty caches and its full allowance; all it takes over are the requests still in flight |
| NodeClient.SessionPays | relayer/src/authenticated-spv-tracker-read-only-node-client.ts:411-423 | every response charged to a session answers a request of that session or one that was in flight when it began, and none is charged twice |
| NodeClient.PaysOwnIff | relayer/src/authenticated-spv-tracker-read-only-node-client.ts:308-423 | a session is sure to pay only for its own requests if and only if none is in flight when it begins |
| NodeClient.InFlightIsCharged | relayer/src/authenticated-spv-tracker-read-only-node-client.ts:411-423 | a response in flight at the begin is charged to the new session |
| NodeClient.GrantedInTime | relayer/src/authenticated-spv-tracker-read-only-node-client.ts:397-409 | in a session a request is granted exactly before the deadline and within the bound, with a positive timeout that never passes the deadline |
| NodeClient.ReceivedInTime | relayer/src/authenticated-spv-tracker-read-only-node-client.ts:411-423 | a response is taken exactly up to the deadline and within both byte bounds |
| NodeClient.BeginsIff | relayer/src/authenticated-spv-tracker-read-only-node-client.ts:308-328 | a reconstruction begins exactly when none is open and the clock leaves room for its deadline |
| NodeClient.StaysInFlight | relayer/src/authenticated-spv-tracker-read-only-node-client.ts:337-385 | a request stays in flight until it is answered or fails, whatever begins or ends meanwhile |
| NodeClient.Client.constructor | relayer/src/authenticated-spv-tracker-read-only-node-client.ts:73-111 | an idle client |
| NodeClient.Client.BeginReconstruction | relayer/src/authenticated-spv-tracker-read-only-node-client.ts:308-328 | a full budget and empty caches, unless one is active or the clock is out of range |
| NodeClient.Client.EndReconstruction | relayer/src/authenticated-spv-tracker-read-only-node-client.ts:330-335 | budget and caches are dropped |
| NodeClient.Client.ConsumeRequest | relayer/src/authenticated-spv-tracker-read-only-node-client.ts:397-409 | one request is spent, within deadline and bound; what is left is never negative |
| NodeClient.Client.ConsumeBytes | relayer/src/authenticated-spv-tracker-read-only-node-client.ts:411-423 | the response bytes are spent, within deadline and bound; what is left is never negative |
| NodeClient.Client.CachedLookup | relayer/src/authenticated-spv-tracker-read-only-node-client.ts:425-436 | a cached promise is returned, or the key is loaded and its promise kept; in a session the promise is the one loaded for the key in that session |
| ContractSources.ResolveTemplate | relayer/src/authenticated-v2-contract-sources.ts:129-151 | the loop replaces the placeholders in order, or reports a missing or left one |
| ContractSources.ResolvesIff | relayer/src/authenticated-v2-contract-sources.ts:129-151 | a template resolves exactly if every placeholder is found in its turn and none is left behind |
| ContractSources.SourcesExact | relayer/src/authenticated-v2-contract-sources.ts:39-105 | sources resolve exactly if all pins hold, the trees differ pairwise, both templates resolve and the tracker's has no placeholder; each is filed under its own hash |
| ContractSources.EmbedsLast | relayer/src/authenticated-v2-contract-sources.ts:129-151 | a resolved source contains the last value put in |
| ContractSources.DupEmbedsUnlockHash | relayer/src/authenticated-v2-contract-sources.ts:66-74 | the resolved DUP source embeds the hash of the unlock tree |
| ContractSources.DupResolvesForAnyHash | relayer/src/authenticated-v2-contract-sources.ts:66-74 | a DUP template resolves with one unlock hash if and only if with any other |
| ContractSources.DupPair | relayer/src/authenticated-v2-contract-sources.ts:129-151 | a DUP template of the two placeholders resolves to NFT id and unlock hash |
| InitialBinding.RunPass | relayer/src/authenticated-v2-initial-binding.ts:583-619 | the role loop of a pass computes CompilePass |
| InitialBinding.PassExact | relayer/src/authenticated-v2-initial-binding.ts:583-619 | a pass succeeds exactly if the sources resolve and a known compiler reports, for each role and its very source, a tree of whole bytes with its hash |
| InitialBinding.SettlesIff | relayer/src/authenticated-v2-initial-binding.ts:382-456 | for any compiler, a binding is derived exactly if the request is taken and three passes settle |
| InitialBinding.RequestIff | relayer/src/authenticated-v2-initial-binding.ts:390-401 | a request is taken exactly for a sandboxed environment, two different canonical ids, a valid funding observation if there is one, and filed templates |
| InitialBinding.DerivesUnlessTreesCoincide | relayer/src/authenticated-v2-initial-binding.ts:402-517 | for a compiler that is a function of each role's source, the derivation succeeds exactly unless two trees coincide among the seeds, after the first pass, or at the end |
| InitialBinding.DerivesIff | relayer/src/authenticated-v2-initial-binding.ts:382-518 | the same with every condition on request (environment, canonical 32-byte ids) and templates spelled out |
| InitialBinding.SeedsDecide | relayer/src/authenticated-v2-initial-binding.ts:402-456 | for all hex hashes that tell the seed unlock tree apart: a compiler that is a function of each role's source, a request and templates in order, for which the derivation fails from the relayer's seed trees and succeeds from distinct seeds with another unlock hash, although the final trees are distinct |
| InitialBinding.OnlySandboxed | relayer/src/authenticated-v2-initial-binding.ts:789-794 | a report is derived or accepted for the five non-mainnet environments only |
| InitialBinding.ValidatesExact | relayer/src/authenticated-v2-initial-binding.ts:169-380 | the validator accepts exactly the one report that belongs to a request, a funding observation, a known compiler and three distinct trees whose sources resolve |
| InitialBinding.SeedsLeaveNoTrace | relayer/src/authenticated-v2-initial-binding.ts:32-37 | two successful derivations from different seed trees give the same report |
| InitialBinding.DerivedIsFixedPoint | relayer/src/authenticated-v2-initial-binding.ts:402-456 | for any compiler, the reported trees are what the compiler makes of sources resolved with those trees |
| InitialBinding.AcceptedEmbedsUnlock | relayer/src/authenticated-v2-initial-binding.ts:169-380 | a report the validator accepts has a DUP source embedding the hash of its unlock tree, and three distinct trees |
| InitialBinding.DerivedValidates | relayer/src/authenticated-v2-initial-binding.ts:169-380 | every report derived from a valid funding observation is accepted by the validator |
| JsNumber.AccumulatePayouts | relayer/src/aggregate-settlement-service.ts:954-961 | the sum of doubles with its guard gives the exact total, and throws exactly when an amount is unsafe or total plus fee is |
| JsNumber.RoundIsNearest | relayer/src/aggregate-settlement-service.ts:954-961 | what justifies Round as the addition of doubles: the nearest multiple of the neighbour distance, the even one on a tie |
| JsNumber.NoPartialSumRounded | relayer/src/aggregate-settlement-service.ts:954-961 | if the final guard passes no partial sum was rounded |
| JsNumber.ComparesExactly | relayer/src/aggregate-settlement-tx.ts:882-886 | comparing a safe integer with a sum of two numbers is exact even where the sum is rounded |
| BatchPlan.PackClaimCore | relayer/src/aggregate-settlement-builder.ts:506-534 | the buffer holds the five fields at their offsets, for exactly the valid claims |
| BatchPlan.PackRoundTrip | relayer/src/aggregate-settlement-builder.ts:506-534 | unpacking gives the claim back |
| BatchPlan.PackInjective | relayer/src/aggregate-settlement-builder.ts:506-534 | different claims have different cores |
| BatchPlan.PackedCoresAccepted | relayer/src/aggregate-settlement-builder.ts:587-599 | a packed core always passes the re-validation |
| BatchPlan.AcceptedIsPacked | relayer/src/aggregate-settlement-builder.ts:587-599 | the re-validation accepts exactly the packed claims |
| BatchPlan.BuildDupExtension | relayer/src/aggregate-settlement-builder.ts:540-567 | each variable of the layout holds its own value, for 1 to 20 distinct keys |
| BatchPlan.BuildUnlockExtension | relayer/src/aggregate-settlement-builder.ts:574-611 | each variable of the layout holds its own value, for 1 to 10 valid cores |
| BatchPlan.BuildPlan | relayer/src/aggregate-settlement-builder.ts:434-498 | a plan is made exactly for 2 to 10 fitting claims with distinct burns; for every i the burn id in core i is the DUP key at Var(2+i), with the same lookup proof at Var(22+i) in both extensions; the core says, and the tracker proof at Var(12+i) is for, the tree after the ingest exactly if the key is not in the one before |
| BatchSettlement.SelectionIsBestFit | relayer/src/aggregate-settlement-service.ts:1118-1142 | the chosen box is the sufficient preferred one, or a smallest sufficient pure-ERG box; one is chosen whenever there is one |
| BatchSettlement.SelectionIsFirst | relayer/src/aggregate-settlement-service.ts:1118-1142 | of several smallest sufficient boxes the first listed is chosen |
| BatchSettlement.BuildBatchTx | relayer/src/aggregate-settlement-tx.ts:850-984 | the assembly computes Built, which BuiltBatch and BuildsBatchIff describe; the per-payout range throw is unreachable |
| BatchSettlement.BuiltBatch | relayer/src/aggregate-settlement-tx.ts:884-984 | every built batch spends tracker, DUP and unlock box with their own extensions; both successors count one up and keep token, value and authority; the DUP tree is the one with all burn ids under the old flags; the tracker has the plan's digest and the ingest height or the old one; then one payout per claim, change to the unlock contract and the fee |
| BatchSettlement.BuildsBatchIff | relayer/src/aggregate-settlement-tx.ts:850-910 | a batch is built exactly for legacy claims, covered safe amounts and readable singletons |
| BatchSettlement.BatchConserves | relayer/src/aggregate-settlement-tx.ts:868-964 | the outputs of any built batch sum exactly to the tracker, DUP and unlock inputs |
| BatchSettlement.ConfirmsStructure | relayer/src/aggregate-settlement-service.ts:1045-1067 | the positional loop decides Confirms |
| BatchSettlement.ConfirmsIff | relayer/src/aggregate-settlement-service.ts:1045-1067 | a transaction confirms exactly if output 0 alone carries the tracker NFT with a readable digest, output 1 the DUP NFT, and output 2+i pays peg-out i |
| BatchSettlement.BuiltConfirms | relayer/src/aggregate-settlement-service.ts:1045-1067 | every built batch passes the structural confirmation for the same peg-outs in order |
| BatchSettlement.ConfirmedPaysEveryClaim | relayer/src/aggregate-settlement-service.ts:1055-1067 | a confirmed transaction pays each peg-out from its own output, so payouts total at least the claims |
| BatchSettlement.SelectedBuildsAndConfirms | relayer/src/aggregate-settlement-service.ts:954-984 | after accumulation and selection the builder's range and coverage checks cannot fail and the result confirms |
| BatchSettlement.PrepareBatch | relayer/src/aggregate-settlement-service.ts:954-984 | accumulate, select, build: succeeds exactly when the total fits and a box is selected |
| ProofScanner.InspectPackagedProof | relayer/src/authenticated-spv-tracker-jvm-avl-differential.ts:339-366 | the loop computes ScanFrom |
| ProofScanner.ScanExact | relayer/src/authenticated-spv-tracker-jvm-avl-differential.ts:339-366 | on every serialized node list with elided leaf keys exactly the internal-node offsets and the direction offset come back |
| ProofScanner.AcceptedIsSerialized | relayer/src/authenticated-spv-tracker-jvm-avl-differential.ts:339-366 | whatever the scanner accepts is such a serialization |

## Left out

- Lineage: the tracker's index-snapshot comparison, anchor-header resolution and value decoding around the ordering.
- DupReplay.Reconstruct: the binary re-serialization of the tip, the before/after index snapshot, the header parent links and the two-source agreement are not modelled; they only reject more.
- CausalSettlement: the tracker box's tree, token, digest and sidechain id and the vault's tree and intent registers are one given answer, `boxesFit`; the plan's tracker and burn inclusion proofs; the vault input's extension; the single-claim legacy builder.
- CanonicalJson: numbers with a fraction or exponent; every number the digests bind is an integer.
- Submitter: `reserveTransport`, `finalizeSubmission`, confirmation and restart reconciliation; they write only the journal, which the model lets change arbitrarily between steps. Digest and profile format checks are typed.
- CheckReservation: the final check that all three stages completed, the format checks of the lifecycle input, and the digests copied into intermediate results.
- EndToEnd: how the lifecycle brands a handoff; any handoff is allowed, and what its terms must be to start a transport is proved.
- Abandonment: how one consensus observation is made from two sources (its answer is arbitrary here); liveness, which depends on which earlier observation the journal returns.
- StableView.Observe: the input-set and view digests, which are functions of the returned fields.
- NodeClient: HTTP, timers, UTF-8 and content-encoding checks; a failed or late request is the answer `Refused`. The three caches are one map keyed by kind and id.
- InitialBinding: field-by-field format checks of reports (they are typed), the compiler identity's fields and the funding observation's own validation.
- BatchPlan.BuildPlan: building the tracker ingest and tracker proofs, and the settlement identity checks on bridge event roots.
- BatchSettlement.BuildBatchTx: a DUP register under 35 bytes reads as the default flags; the service compares that register with the rebuilt history before it builds.
- BatchSettlement.ConfirmsStructure: the attempt lookup, burn rechecks, finality observation and journal write around the structural part.
- JsNumber: the largest exponent of a double; a sum that would be infinite exceeds the guard in the model too.
- Evidence and approval validators, hex normalization, URL checks, CLI and preflight: long lists of independent checks that would only add easy members.
