# Batch life cycle of hermez-node

This Dafny project models the life cycle of a batch in the hermez-node rollup node and proves properties of it: a
selector chooses transactions, an engine applies them to a ledger, the batch is published as bytes, and a synchronizer
rebuilds the ledger from those bytes and stays consistent with the chain. `dafny verify dfyconfig.toml` checks everything.

## How it is built

Every component comes in two layers. The specification is a set of total functions on values (`Effects`, `Batch`,
`Selection`, `HistoryDB`, `Codecs` and others); a failing step returns its error together with the state it leaves behind.
The code that works in place is modelled by classes and methods with loops (`StateDB`, `TxProcessor`, `TxSelector`,
`Synchronizer`, the codecs and the sorting); each is proved to compute its specification. The theorems are proved about
the specification and so hold of the methods.

| part | modules |
|---|---|
| ledger engine | `Arithmetic`, `Ledger`, `Fees`, `Float40`, `Effects`, `Batch`, `StateDB`, `TxProcessor`, `Funds`, `Conservation`, `Exits` |
| selector | `Selection`, `Replay`, `Selected`, `Executed`, `Choices`, `Decisions`, `Groups`, `Iteration`, `Passes`, `AtomicGroups`, `Sorting`, `Agreement`, `Selections`, `TxSelector` |
| published data | `Codecs`, `TxBytes`, `Calldata`, `Rebuild` |
| atomic group admission | `AtomicPool` |
| synchronizer | `Auction`, `HistoryDB`, `Slots`, `BlockSteps`, `Synchronizer`, `SyncRuns`, `SyncInputs` |

Main results: `Selections.SelectionIsBuildable`, `Rebuild.RebuildsLedger`, `Conservation.BatchConserves`,
`Conservation.FeesLand`, `Funds.LacksFundsIff`, `Exits.ReportedExits`, `TxProcessor.TxProcessor.ProcessTxs`,
`TxSelector.TxSelector.GetL1L2TxSelection`, `Selections.GroupsStayLinked`, `Synchronizer.Synchronizer.Sync`,
`Synchronizer.ReorgKeepsCanonicalIff`, `Auction.CommitmentAgreesIff` with `SyncRuns.SteadySlot` and
`SyncInputs.LateBatchMisleads`, `Float40.FloorIsGreatestIff`, `AtomicPool.IsSingleAtomicGroup`.

## Conventions

- Amounts, nonces and indexes are unbounded; the limits of a leaf (40-bit nonce, 192-bit balance, 48-bit index) are
  explicit checks, and the agreement of selector and builder assumes that all tokens together stay below 2^192.
- State roots are represented by the accounts they commit to, transaction ids by numbers, average and absolute fees by
  reals. The recovery of a signer is a parameter.
- A run-time panic for an index out of range (a batch with as many L1 txs as slots) is an error of its own.
- Orders that the program leaves open (maps that are iterated, ties of a sort) are arbitrary choices in the methods.
- In the synchronizer everything outside can fail: each call is given the set of operations that fail in it, and the
  chain as the node shows it.
- A pool tx that the agreement speaks of has the type that its fields give, an encodable amount and request, a nonce
  below the greatest one and no receiver looked up before; the coordinator's key is not empty.
- The type of an L1 tx compares its deposit with zero; the program compares its low 64 bits (common/l1tx.go:96).

## Where the code differs from its documentation

- txselector/txselector.go:18-19 promises that a transfer to an index matches the token of the receiver. No code checks
  this; `Conservation.TransferConservesIff` states what that means, `Conservation.CrossTokenTransferPasses` gives an input.
- A forced exit that carries a deposit counts the deposit when its amount is checked but does not pay it in
  (txprocessor/txprocessor.go:1460-1515); `Funds.LacksFundsIff` is the exact consequence,
  `Funds.UncoveredExitIsRefused` an input.
- common/float40.go:106-110 speaks of "rounding down in case of loss". The result is below the amount, but not always the
  greatest representable value below it: `Float40.FloorIsGreatestIff` says when it is.
- The comment on resets in db/statedb/statedb.go says that later checkpoints stay in the storage; db/kvdb/kvdb.go:208-225
  deletes them, and so does the model.
- synchronizer/synchronizer.go:485-492 does not note a failed reset when the last block cannot be read, so the state can
  be out of step without a trace. `Synchronizer.Synchronizer.Sync` gives the exact condition for one
  call, `SyncRuns.SyncLoop` for a run, and `SyncInputs.FailedRevertLosesStep` an input.
- synchronizer/synchronizer.go:688-706 keeps a start block that is no longer on the chain:
  `Synchronizer.ReorgKeepsCanonicalIff`, `SyncRuns.StuckAtStart`, and `SyncInputs.ReplacedStartStays` as an input.
- `SlotDeadline` may be as long as a slot; then the commitment is tracked wrongly: `Auction.CommitmentAgreesIff`,
  and `SyncInputs.LateBatchMisleads` for the synchronizer itself. It is also tracked differently when `SlotDeadline` moves
  across the first batch of a slot: `Slots.NextSlotAgreesIff`, and `SyncInputs.MovedDeadlineMisleads` as an input.

## Model

| member | source | states |
|---|---|---|
| `TxProcessor.TxProcessor.ComputeEffectiveAmounts` | txprocessor/txprocessor.go:1407-1515 | the deposit and amount an L1 tx is executed with, branch by branch, equal those of `Effective` |
| `TxProcessor.TxProcessor.CreateAccount` | txprocessor/txprocessor.go:905-914 | creates the account and, when synchronizing, notes its object in `updatedAccounts`, which stays the exact difference |
| `TxProcessor.TxProcessor.UpdateAccount` | txprocessor/txprocessor.go:917-926 | stores the account and notes its object in `updatedAccounts`, which stays the exact difference |
| `TxProcessor.TxProcessor.ApplyCreateAccount` | txprocessor/txprocessor.go:858-900 | the next index gets an account with the effective deposit; `updatedAccounts` stays exact |
| `TxProcessor.TxProcessor.ApplyDeposit` | txprocessor/txprocessor.go:929-1010 | deposit and, if asked for, transfer, with sender and receiver sharing one object when they are the same account |
| `TxProcessor.TxProcessor.ApplyTransfer` | txprocessor/txprocessor.go:1012-1132 | debit, fee, and credit of the looked-up receiver, self transfers on one shared object included; the whole new state and error |
| `TxProcessor.TxProcessor.ApplyCreateAccountDepositTransfer` | txprocessor/txprocessor.go:1134-1222 | creation with what remains of the deposit, then the transfer; the index only moves when all succeeds |
| `TxProcessor.TxProcessor.ApplyExit` | txprocessor/txprocessor.go:1224-1405 | debit and exit leaf, added to an earlier leaf of the batch; no leaf for a requested amount of zero or in the selector |
| `TxProcessor.TxProcessor.ProcessL1Tx` | txprocessor/txprocessor.go:602-732 | the state, error and exit of every type of L1 tx, with the encodability checks of the batch builder |
| `TxProcessor.TxProcessor.ProcessL2Tx` | txprocessor/txprocessor.go:734-856 | the state, error and exit of a pool tx, and the tx with its receiver, nonce and token filled in |
| `TxProcessor.TxProcessor.CheckEnoughBalance` | txprocessor/txprocessor.go:1521-1533 | true exactly when account, fee and balance allow amount plus fee |
| `TxProcessor.TxProcessor.FilterCoordIdxs` | txprocessor/txprocessor.go:354-368 | one coordinator index per token, the first, or the error of a missing account |
| `TxProcessor.TxProcessor.FormatAccumulatedFees` | txprocessor/utils.go:39-52 | the fees collected per coordinator token, zeros after them |
| `TxProcessor.TxProcessor.ListFeePlanTokens` | txprocessor/txprocessor.go:392-400 | the circuit inputs list the token of every coordinator account |
| `TxProcessor.TxProcessor.ProcessL1UserTxs` | txprocessor/txprocessor.go:266-314 | after any prefix of the L1 user txs: ledger, created accounts, exits and filled intermediate states |
| `TxProcessor.TxProcessor.ProcessL1CoordinatorTxs` | txprocessor/txprocessor.go:316-352 | the same for the L1 coordinator txs |
| `TxProcessor.TxProcessor.ProcessL2Txs` | txprocessor/txprocessor.go:402-437 | after the L2 txs: ledger, fees, exits, and an intermediate state in every slot before the last tx |
| `TxProcessor.TxProcessor.PadWitness` | txprocessor/txprocessor.go:439-458 | every intermediate state of the circuit is that of the batch after min(slot + 1, number of txs) txs, before fees are distributed |
| `TxProcessor.TxProcessor.DistributeFees` | txprocessor/txprocessor.go:465-504 | each coordinator account is paid what was accumulated for it, zero included |
| `TxProcessor.CollectExitInfos` | txprocessor/txprocessor.go:519-563 | one entry per account in order of first exits, with its last leaf |
| `TxProcessor.TxProcessor.ProcessTxs` | txprocessor/txprocessor.go:193-577 | the whole batch: new ledger and error, exact `updatedAccounts`, reported exits, accounts and fees, the padded trace in the circuit inputs, a checkpoint exactly on success |
| `Batch.ProcessTxsIsRun` | txprocessor/txprocessor.go:193-504 | the batch is its trace of working states; no error of the token map can occur after the indexes were filtered |
| `Batch.Coordinators` | txprocessor/txprocessor.go:354-382 | the coordinator accounts exist, hold the tokens they are listed for, and are no more than were given |
| `Effects.FirstPerTokenFilters` | txprocessor/txprocessor.go:354-368 | filtering keeps a part of the list with the same tokens |
| `Effects.FirstPerTokenDistinct` | txprocessor/txprocessor.go:354-368 | after filtering no two coordinator accounts hold the same token |
| `Effects.L2StepKeepsOwners` | txprocessor/txprocessor.go:734-856 | an L2 tx changes nonces and balances only: no account, owner, index or lookup |
| `Exits.ReportedExits` | txprocessor/txprocessor.go:519-563 | an account is reported if and only if it asked for a nonzero exit, once, in order of first exits, with the sum of its effective amounts |
| `Exits.ExitsSoFar` | txprocessor/txprocessor.go:1299-1403 | after every tx the exit tree holds the sums taken out so far, and the leaves written are those of the exits |
| `Exits.CreatedAreConsecutive` | txprocessor/txprocessor.go:266-352 | one reported account per creating tx, with consecutive indexes and the owner the tx names |
| `Batch.L1KeepsFees` | txprocessor/txprocessor.go:266-352 | L1 txs pay no fees |
| `StateDB.StateDB.GetAccount` | db/statedb/statedb.go:282-284 | a new object with the stored account and its index, or the error |
| `StateDB.StateDB.UpdateAccount` | db/statedb/statedb.go:423-470 | stores a leaf that fits 40 and 192 bits, otherwise nothing |
| `StateDB.StateDB.CreateAccount` | db/statedb/statedb.go:358-419 | a new leaf and its lookup entries, refused for an index in use |
| `StateDB.StateDB.Reset` | db/statedb/statedb.go:265-278 | back to a checkpoint, later ones dropped |
| `Ledger.LookupIsStable` | db/statedb/statedb.go:358-371 | an index found for an address and a key stays found whatever is created |
| `Ledger.CreateKeepsValid` | db/statedb/statedb.go:358-419 | creations keep indexes, leaves and lookup tables consistent |
| `Funds.LacksFundsIff` | txprocessor/txprocessor.go:648-712 | an L1 tx of its type fails for lack of funds if and only if it is a forced exit with a deposit that the amount needs |
| `Funds.UncoveredExitIsRefused` | txprocessor/txprocessor.go:1460-1515 | a forced exit with a deposit, at a concrete ledger, is refused although balance and deposit cover it |
| `Funds.WellFormedL1Succeeds` | txprocessor/txprocessor.go:602-732 | a well-formed L1 tx is refused for nothing but a value that no leaf can hold |
| `Funds.EffectiveIsCovered` | txprocessor/txprocessor.go:1407-1515 | the effective amount is covered by balance and effective deposit |
| `Funds.MovesOwnToken` | txprocessor/txprocessor.go:1407-1515 | a nonzero effective amount moves between accounts of the token of the tx, signed for by the right address |
| `Funds.BatchKeepsValid` | txprocessor/txprocessor.go:193-577 | no batch that succeeds leaves a negative balance or an oversized leaf, in accounts or exits |
| `Funds.DepositKeepsValid` | txprocessor/txprocessor.go:929-1010 | deposits and their transfers keep the ledger valid |
| `Funds.CreateDepositTransferIs` | txprocessor/txprocessor.go:1134-1222 | creation with deposit and transfer is a creation followed by a credit |
| `Conservation.TransferConservesIff` | txprocessor/txprocessor.go:1012-1132 | a transfer conserves every token up to its fee if and only if it moves nothing or both accounts hold the same token |
| `Conservation.CrossTokenTransferPasses` | txprocessor/txprocessor.go:1012-1132 | a transfer between accounts of two tokens, at a concrete ledger, succeeds and turns one token into the other |
| `Conservation.TransferHeld` | txprocessor/txprocessor.go:1012-1132 | what a transfer does to the total of any token |
| `Conservation.ExitHeld` | txprocessor/txprocessor.go:1224-1405 | an exit moves its amount to its leaf; only the fee leaves |
| `Conservation.L1StepHeld` | txprocessor/txprocessor.go:929-1215 | every L1 tx adds its effective deposit to accounts and exits, and nothing else |
| `Conservation.L2StepHeld` | txprocessor/txprocessor.go:1012-1132 | every L2 tx takes out its fee and nothing else |
| `Conservation.FeesCollected` | txprocessor/txprocessor.go:1051-1066 | running totals per coordinator and per token are exactly the fees of the L2 txs of the token |
| `Conservation.FeesLand` | txprocessor/txprocessor.go:465-504 | each collected fee lands in exactly one coordinator account; no other account changes |
| `Conservation.BatchConserves` | txprocessor/txprocessor.go:193-577 | per token: accounts and exits after equal accounts before plus effective deposits, minus only fees of tokens without coordinator |
| `Float40.NewFloat40` | common/float40.go:86-104 | the loop computes the encoding with the least exponent, or the error |
| `Float40.NewFloat40Floor` | common/float40.go:111-128 | the loop computes the truncating encoding, or the error |
| `Float40.EncodeSucceedsIff` | common/float40.go:86-104 | encodable if and only if m times ten to the e with 35 and 5 bits |
| `Float40.DecodeEncode` | common/float40.go:68-104 | decoding undoes encoding, with the least exponent of all representations |
| `Float40.FloorBounds` | common/float40.go:111-128 | the floor encoding is below the amount by less than its last digit |
| `Float40.FloorAgrees` | common/float40.go:86-128 | both encodings agree on representable amounts |
| `Float40.FloorIsGreatestIff` | common/float40.go:106-128 | the floor encoding is the greatest representable value below the amount if and only if the amount is not within two units above 2^35 times a power of ten |
| `Float40.FloorIsNotGreatest` | common/float40.go:106-128 | an instance: the amount 2^35 |
| `Fees.RateRises` | common/fee.go:63-320 | the factors of the table are strictly increasing in the selector |
| `Fees.FeeIsShare` | common/fee.go:48-57 | the fee is the share of the amount rounded down, refused beyond 128 bits |
| `Fees.HigherSelectorTakesMore` | common/fee.go:48-57 | a higher selector never takes less |
| `Fees.FeeWithinAmountIff` | common/fee.go:48-57 | the fee is at most the amount if and only if the selector is at most 192 |
| `Replay.CreationCommutes` | txselector/txselector.go:605-659 | an account created after a list of pool txs may as well be created before them |
| `Replay.StepIsEffect` | txprocessor/txprocessor.go:734-856 | the ledger of a pool tx depends on its resolved receiver alone |
| `Selected.CreationSound` | txselector/txselector.go:649-659 | creating an account keeps the selection replayable, funded and its fees known |
| `Executed.StepPasses` | txselector/txselector.go:785-834 | after the checks a pool tx only fails for a receiver without account, and then changes nothing |
| `Executed.FullReceiverLosesAmount` | txselector/txselector.go:785-834 | with more than a leaf can hold in one token the selector loses what it could not credit: a concrete ledger |
| `Executed.LastNonceKeepsFee` | txprocessor/txprocessor.go:1012-1066 | at the greatest nonce a tx is refused after its fee was noted for the coordinator |
| `Decisions.SelectedSound` | txselector/txselector.go:785-837 | a selected tx keeps the selection replayable, funded, its fees and nonces known |
| `Decisions.SelectOneDecides` | txselector/txselector.go:453-837 | whatever the candidate, a selection that goes on stays sound |
| `Choices.SelectOnePlaces` | txselector/txselector.go:453-837 | every candidate goes to exactly one list, ends the selection, or fails its group; capacity and positions are kept |
| `Choices.ReceiverTxAuthorized` | txselector/txselector.go:845-969 | a receiver is only created with its authorization or for its key, at the next position, within capacity |
| `Iteration.PassIsBounded` | txselector/txselector.go:422-840 | an iteration keeps capacity and positions; a failing group is one of the candidates |
| `Iteration.PassSplits` | txselector/txselector.go:422-840 | an iteration splits its candidates, atomic ones before the cut all selected, those after it all kept |
| `Iteration.PassIsSound` | txselector/txselector.go:422-840 | an iteration keeps the selection sound |
| `Passes.PassKeepsUndivided` | txselector/txselector.go:297-357 | across iterations every group is wholly selected or wholly left, in one piece |
| `Passes.PassKeepsIds` | txselector/txselector.go:297-357 | across iterations the ids of all lists add up to those of the candidates |
| `Passes.PassShrinks` | txselector/txselector.go:297-357 | an iteration that selects something leaves fewer candidates |
| `Groups.GroupIsSegment` | txselector/txselector.go:992-1084 | a group in a list without gaps is a segment of it |
| `Groups.CutBetweenGroups` | txselector/txselector.go:453-482 | a cut at a tx outside of groups divides no group |
| `AtomicGroups.RequestOffset2RelativePosition` | api/atomicpool.go:108-144 | offsets 1 to 7 are relative positions from -4 to 3 modulo 8; all others are errors |
| `AtomicGroups.IsAtomicGroupValid` | txselector/txselector.go:1180-1215 | true exactly when every tx finds what it requests at its offset |
| `AtomicGroups.FilterFailedAtomicGroups` | txselector/txselector.go:1101-1134 | no tx lost, failed groups gone, other groups untouched |
| `AtomicGroups.FilterInvalidAtomicGroups` | txselector/txselector.go:1139-1178 | no tx lost, exactly the valid groups kept, whole and in order |
| `Sorting.CalculateAtomicGroupsAverageFee` | txselector/txselector.go:1219-1243 | the average fee of every group |
| `Sorting.SortNonAtomic` | txselector/txselector.go:1036-1046 | a permutation sorted by fee, sender and nonce |
| `Sorting.SortGroups` | txselector/txselector.go:1012-1022 | the same groups by descending average fee |
| `Sorting.SortL2Txs` | txselector/txselector.go:992-1084 | a permutation in the order of fees, every group in one piece and in its own order |
| `Agreement.L1RunAgrees` | txprocessor/txprocessor.go:266-314 | builder and selector agree on the L1 user txs, and nothing is held but what was there and came in |
| `Agreement.CreationsAgree` | txprocessor/txprocessor.go:316-352 | the builder creates all accounts at once |
| `Agreement.RunFollows` | txprocessor/txprocessor.go:402-437 | the builder can follow every settled pool tx |
| `Agreement.SameFees` | txselector/txselector.go:359-416 | the selector owes each coordinator account what the builder owes it |
| `Agreement.BuilderAgrees` | txselector/txselector.go:222-420 | the builder, creating all accounts first, succeeds and ends in the selector's ledger |
| `Selections.SelectionIsBuildable` | txselector/txselector.go:222-420 | ProcessTxs on the returned lists succeeds and leaves exactly the selector's accounts, nonces and last index |
| `Selections.NoncesAreConsecutive` | txselector/txselector.go:576-604 | the selected txs of each sender carry consecutive nonces from the one after the L1 user txs on |
| `Selections.WithinBounds` | txselector/txselector.go:1086-1096 | MaxL1Tx and MaxTx hold over all iterations; k-th coordinator tx at position number of user txs + k, one authorization each |
| `Selections.GroupsStayLinked` | txselector/txselector.go:992-1084 | a selected atomic tx finds the tx it requests at its offset in the selection |
| `Selections.LinkedData` | common/pooll2tx.go:206-315 | its requested compressed data equals the compressed data found there |
| `Selections.SupplyStaysBounded` | txprocessor/txprocessor.go:266-314 | the L1 user txs bring in no more than their deposits |
| `TxSelector.TxSelector.CoordAccountForTokenID` | txselector/txselector.go:146-169 | the tx that creates a missing coordinator account, or none, or the error |
| `TxSelector.TxSelector.CheckPendingToCreateFutureTxs` | txselector/txselector.go:971-986 | true exactly when the frozen queue creates the receiver |
| `TxSelector.TxSelector.ProcessTxToEthAddrBJJ` | txselector/txselector.go:845-969 | what a receiver named by address or key needs, every branch and error |
| `TxSelector.TxSelector.CreateAccounts` | txselector/txselector.go:605-783 | creation of coordinator and receiver accounts, or why the candidate is put aside |
| `TxSelector.TxSelector.ExecuteTx` | txselector/txselector.go:785-837 | execution of the candidate, or why it is put aside |
| `TxSelector.TxSelector.SelectTx` | txselector/txselector.go:453-837 | one candidate: all checks, creations and execution |
| `TxSelector.TxSelector.ProcessL2Txs` | txselector/txselector.go:422-840 | one iteration over the candidates: all returned lists, or the failed group |
| `TxSelector.TxSelector.FilterPool` | txselector/txselector.go:268-277 | no pool tx lost; of the groups exactly those valid and not failed so far |
| `TxSelector.TxSelector.SelectInPasses` | txselector/txselector.go:297-357 | the iterations end, with everything that holds between two of them |
| `TxSelector.TxSelector.ChooseCoordIdxs` | txselector/txselector.go:359-386 | the coordinator accounts of the selected tokens, each once, increasing |
| `TxSelector.TxSelector.DistributeFees` | txselector/txselector.go:388-409 | in any order the fees are paid to the accounts they were accumulated for |
| `TxSelector.TxSelector.Attempt` | txselector/txselector.go:253-420 | a selection without the failed groups is finished or finds a new failing group of the pool |
| `TxSelector.TxSelector.GetL1L2TxSelection` | txselector/txselector.go:222-420 | the restart loop ends; on success every pool tx is selected or discarded once, groups whole, within capacity, and the ledger is checkpointed |
| `Codecs.IdxRoundTrip` | common/account.go:55-81 | an index in k bytes is read back modulo 256 to the k |
| `Codecs.AmountRoundTrip` | common/float40.go:44-82 | an amount has bytes exactly when it is encodable, and is read back |
| `Codecs.TokenRoundTrip` | common/token.go:38-57 | a token is read back from its four bytes |
| `Codecs.L2BytesDataAvailability` | common/l2tx.go:180-209 | the buffer is filled with sender, receiver, amount and fee |
| `Codecs.L2RoundTripIff` | common/l2tx.go:180-236 | a published L2 tx is read back if and only if its indexes fit in the levels |
| `Codecs.L1BytesDataAvailability` | common/l1tx.go:211-240 | the buffer is filled with sender, receiver and effective amount |
| `Codecs.L1RoundTripIff` | common/l1tx.go:211-263 | the published part of an L1 tx is read back if and only if its indexes fit |
| `TxBytes.L1UserRoundTrip` | common/l1tx.go:269-376 | a queued L1 tx can be written exactly when its parts can, and is read back completely |
| `TxBytes.L1CoordinatorRoundTripIff` | common/l1tx.go:321-437 | a coordinator tx is read back for its address if and only if its signature stands for it |
| `TxBytes.CompressedDeterminesFields` | common/pooll2tx.go:206-249 | equal compressed data means equal fee, nonce, token, amount, receiver and sender |
| `TxBytes.RequestedData` | common/pooll2tx.go:265-315 | a requested tx has the requested compressed data |
| `TxBytes.AccountRoundTripIff` | common/account.go:120-232 | a leaf is read back as the same account if and only if its key is a field element |
| `Calldata.EncodeL1Txs` | eth/rollup.go:342-358 | the data of all L1 txs, or the first error |
| `Calldata.EncodeL2Txs` | eth/rollup.go:359-366 | the data of all L2 txs, or the first error |
| `Calldata.EncodeCoordinatorTxs` | eth/rollup.go:331-340 | the bytes of all coordinator txs with their signatures |
| `Calldata.EncodeFeeIdxs` | eth/rollup.go:367-383 | the fee indexes padded to 64 |
| `Calldata.RollupForgeBatch` | eth/rollup.go:319-392 | the data of the forge call, or the first error |
| `Calldata.DecodeAll` | eth/rollup.go:994-1017 | the items of all complete pieces |
| `Calldata.RollupForgeBatchArgs` | eth/rollup.go:985-1057 | everything read back from the data of the call |
| `Rebuild.PackRoundTrip` | eth/rollup.go:331-1056 | reading the data of a forge call gives back all that was laid out in it |
| `Rebuild.L1StepRepeats` | txprocessor/txprocessor.go:602-732 | an L1 tx from the queue or the data has the effect it had for the builder |
| `Rebuild.L2StepRepeats` | synchronizer/synchronizer.go:944-985 | a retyped L2 tx has the effect of the pool tx |
| `Rebuild.SeenRunRepeats` | synchronizer/synchronizer.go:944-985 | the synchronizer repeats the run of the builder |
| `Rebuild.RebuildsLedger` | synchronizer/synchronizer.go:944-985 | from the data alone ProcessTxs ends in the same ledger, exits and fees as the builder's |
| `AtomicPool.StrongComponents` | api/atomicpool.go:148-171 | the sets of txs that reach each other by requests |
| `AtomicPool.OneComponentIff` | api/atomicpool.go:163-171 | one component if and only if every tx reaches every tx |
| `AtomicPool.CycleIff` | api/atomicpool.go:148-171 | every tx reaches every tx if and only if the requests form one cycle |
| `AtomicPool.IndivisibleIff` | api/atomicpool.go:148-171 | and if and only if no proper part is closed under requests |
| `AtomicPool.IsSingleAtomicGroup` | api/atomicpool.go:148-171 | true if and only if offsets are valid and form one cycle through all txs, equivalently if no proper part is closed under requests |
| `Auction.SlotHoldsBlock` | common/ethauction.go:32-52 | from genesis on a block lies in its slot at its relative position |
| `Auction.FromScratchIsCommitted` | synchronizer/synchronizer.go:355-380 | a reset finds the commitment kept exactly when some batch of the slot was in time |
| `Auction.IncrementalIsCommitted` | synchronizer/synchronizer.go:355-380 | tracking block by block gives the same with a deadline inside the slot |
| `Auction.LateBatchCounts` | synchronizer/synchronizer.go:365-380 | otherwise a batch in the last block of a slot counts for the next one |
| `Auction.CommitmentAgreesIff` | synchronizer/synchronizer.go:355-380 | both agree after every run if and only if SlotDeadline is less than BlocksPerSlot |
| `HistoryDB.Answers` | db/historydb/historydb.go:241-268 | the last batch, L1 batch and queue number of numbered batches |
| `HistoryDB.NextViewIsReset` | synchronizer/synchronizer.go:634-654 | updating the stats and variables block by block gives what a reset computes |
| `Slots.FirstOfSlotIsFirst` | db/historydb/historydb.go:223-232 | the first batch of a slot in the database is the first one of the run of blocks since genesis |
| `Slots.ResetSlotIsFromScratch` | synchronizer/synchronizer.go:355-380 | the slot that a reset reads from the database is the one computed from that run |
| `Slots.TracksRun` | synchronizer/synchronizer.go:639-661 | tracking the slot with each stored block is the incremental slot of the run, for any deadline |
| `Slots.NextSlotInStep` | synchronizer/synchronizer.go:639-661 | a slot in step with the database stays in step with the next block |
| `Slots.NextSlotAgreesIff` | synchronizer/synchronizer.go:355-380 | for any deadlines, tracking agrees with a reset after one more block if and only if the deadline does not pass over the first batch of the slot, unless the block has a batch in time, and does not reach beyond a slot whose last block has a batch |
| `Slots.StaleSlot` | synchronizer/synchronizer.go:655-661 | a slot that is not updated is out of step with one more block if and only if the next block lies in another slot or the block has the first batch in time |
| `BlockSteps.ForgeMovesIff` | synchronizer/synchronizer.go:858-1062 | the batches of a block change ledger or batch number if and only if the first one does, failing or not |
| `BlockSteps.CancelledTransfers` | synchronizer/synchronizer.go:944-976 | a batch of two forced transfers that cancel out and a tx that fails leaves the ledger as it was: no condition on single txs decides whether a failing batch changes it |
| `BlockSteps.MovesIff` | synchronizer/synchronizer.go:1123-1164 | the updates of a block, as far as they are reached, change the variables if and only if the last update of some name sets another value, or all are reached and the block is noted |
| `BlockSteps.ReadingMovesIff` | synchronizer/synchronizer.go:590-632 | reading a block, failing or not, changes ledger, batch number or variables if and only if its first batch or some update that is reached does |
| `HistoryDB.TxHashIsLost` | db/historydb/historydb.go:241-251 | the transaction hash of the last batch is the one thing a reset does not restore |
| `Synchronizer.Synchronizer.UpdateCurrentSlot` | synchronizer/synchronizer.go:355-397 | the current slot and its commitment, incrementally or from the database, unless the check with the contract fails |
| `Synchronizer.Synchronizer.UpdateSlots` | synchronizer/synchronizer.go:430-441 | the tracked slot is replaced exactly when nothing fails |
| `Synchronizer.Synchronizer.ResetVars` | synchronizer/synchronizer.go:754-781 | the stored variables, or the initial ones stored first; succeeds exactly when they can be read or stored |
| `Synchronizer.Synchronizer.ResetLedger` | synchronizer/synchronizer.go:782-793 | the ledger of the last stored batch; succeeds exactly when its checkpoint is there and nothing fails |
| `Synchronizer.Synchronizer.ResetState` | synchronizer/synchronizer.go:753-818 | succeeds exactly when no part of it fails; then the state, the slot included, is what the database determines; whatever fails, the database stays well formed |
| `Synchronizer.Synchronizer.ResetIntermediateState` | synchronizer/synchronizer.go:485-498 | resets and notes failure, except when the last block cannot be read: then nothing changes, the flag included; the exact condition of success, and the new history in each case |
| `Synchronizer.Synchronizer.ReadBatch` | synchronizer/synchronizer.go:858-957 | the batch holds the txs of the queue that it forges, stored or of the same block, and those of its event with their types and positions; the exact condition of failure |
| `Synchronizer.Synchronizer.ProcessTxs` | synchronizer/synchronizer.go:944-976 | ledger and error of executing exactly these txs, with a checkpoint on success |
| `Synchronizer.Synchronizer.ForgeBatch` | synchronizer/synchronizer.go:858-1062 | ledger, number and batch are those of one step, failing or not; on success the batch can be stored behind those before |
| `Synchronizer.Synchronizer.ForgeBatches` | synchronizer/synchronizer.go:840-1062 | ledger, number and batches are those of all steps of the block, failing or not; on success numbered on, with their block, slot and checkpoints |
| `Synchronizer.Synchronizer.UpdateRollupVars` | synchronizer/synchronizer.go:1123-1164 | the rollup variables after all updates of a block, or after those before the first that fails |
| `Synchronizer.Synchronizer.UpdateAuctionVars` | synchronizer/synchronizer.go:1216-1272 | the auction variables after all updates of a block, or after those before the first that fails |
| `Synchronizer.Synchronizer.UpdateWDelayerVars` | synchronizer/synchronizer.go:1325-1349 | the withdrawal delayer variables after all updates of a block, or after those before the first that fails |
| `Synchronizer.Synchronizer.ReadBlock` | synchronizer/synchronizer.go:590-632 | ledger, number, variables and data of the block as far as it can be read, failing or not |
| `Synchronizer.Synchronizer.UpdateSync` | synchronizer/synchronizer.go:123-137 | last block, batch, L1 batch and queue after a block |
| `Synchronizer.Synchronizer.SyncBlock` | synchronizer/synchronizer.go:577-681 | exactly when the block is stored and when all succeeds; the new history and slot; the state ends out of step if and only if something fails after a batch was executed, a variable changed, or the slot of the next block became another |
| `Synchronizer.Synchronizer.FindValidBlock` | synchronizer/synchronizer.go:688-706 | the highest stored block on the chain, or the first one; succeeds exactly when every block down to it can be read |
| `Synchronizer.Synchronizer.Reorg` | synchronizer/synchronizer.go:688-723 | exactly the blocks up to that one are kept, and the state is in step with them or the failed reset is noted; the exact condition of success |
| `Synchronizer.Synchronizer.Sync` | synchronizer/synchronizer.go:505-681 | after every call blocks are contiguous and linked, and the state, the slot included, equals what a reset computes or a failed reset is noted, except exactly when the next block fails after a change that matters and the last block cannot be read to undo it; the exact conditions of storing a block, of undoing blocks and of finding no block; history, flag and checkpoints in every case |
| `Synchronizer.Synchronizer.Init` | synchronizer/synchronizer.go:443-483 | the first state, the slot included, is computed from the database; succeeds exactly when the chain and the last block can be read and no part of the reset fails |
| `Synchronizer.ReorgKeepsCanonicalIff` | synchronizer/synchronizer.go:688-706 | a reorganization keeps exactly the stored blocks on the chain if and only if the start block is still on it |
| `SyncRuns.SteadySlot` | synchronizer/synchronizer.go:355-380 | in step and with a deadline inside the slot that never changed, after any calls, the tracked slot is that of the run of stored blocks, both incrementally and from scratch |
| `SyncRuns.TrackingStarts` | synchronizer/synchronizer.go:443-483 | the slot computed at the start begins the run |
| `SyncRuns.SyncLoop` | node/node.go:726-756 | over a run of calls with any failures the state stays in step, or a failed reset is noted, if and only if no call meets the condition of `Sync`; as long as each call stores a block and the deadline stays, the tracked slot is the incremental slot of the run |
| `SyncRuns.TrackedSlotAgreesIff` | synchronizer/synchronizer.go:355-380 | such a slot is what a reset computes if and only if the run agrees with a reset |
| `SyncRuns.StuckAtStart` | synchronizer/synchronizer.go:560-574 | when the chain has left the only stored block, no call of a run ever changes the stored blocks, and exactly those that do not fail report that nothing was discarded |
| `SyncRuns.StuckForEver` | synchronizer/synchronizer.go:560-574 | when nothing fails, every one of them succeeds |
| `SyncInputs.ReplacedStartStays` | synchronizer/synchronizer.go:688-706 | a start, a chain with another start block, and any number of calls that all succeed and keep the old one |
| `SyncInputs.LateBatchMisleads` | synchronizer/synchronizer.go:365-380 | for every slot length and every deadline outside the slot, a run without failures that ends with a commitment no reset finds |
| `SyncInputs.MovedDeadlineMisleads` | synchronizer/synchronizer.go:355-380 | a run of two blocks, the second of which moves the deadline, that ends with a commitment no reset finds |
| `SyncInputs.FailedRevertLosesStep` | synchronizer/synchronizer.go:485-498 | a start, a chain and failures that leave the synchronizer out of step without noting it |

## Left out

- HTTP API handlers, configuration, metrics, logging and the command line.
- `coordinator/*`: goroutines, timers and retries around the functions modelled here.
- SQL text and schema: the history is a sequence of blocks, the pool a sequence of txs; storing a block and deleting blocks are atomic.
- Hashes, Merkle proofs, signatures, the circuit inputs other than the intermediate index, root and fees, and `BJJCompressedTo256BigInts`.
- The intermediate exit roots, which the program skips for exits of zero.
- Keys that are no field elements are only looked at in `TxBytes.AccountRoundTripIff`; the StateDB of the model stores and reads any key.
- Pruning of old checkpoints; a reset to a missing checkpoint fails in the model as well.
- The limit that NLevels sets on the number of accounts in the Merkle tree.
- Info texts and error codes of discarded txs, timestamps, times to live.
- The effective amounts that processing writes into the L1 user txs the selector returns; whoever executes them computes them again.
- The coordinator that may forge in a slot, bids, tokens, withdrawals and buckets: they are stored but nothing modelled reads them.
- AccountCreationAuths collected by the synchronizer, and the coordinators added to the history on the first run.
- The next slot in the auction stats, which is computed like the current one without the commitment.
- The one default slot bid event with an index out of range, which is one of the updates that may fail in `AuctionUpdateFails`.
- Synchronizer.Synchronizer.Sync: a chain that changes during one call is a failing read of its events, not a second chain.
- Synchronizer.Synchronizer.Sync: being in step includes the commitment of the slot as long as the deadline has not changed and lies inside the slot, otherwise its number and blocks only; `Slots.NextSlotAgreesIff` is exact for the rest.
- Synchronizer.Synchronizer.UpdateCurrentSlot: does not set the coordinator of the slot; the check that it may forge is one of the things that may fail.
- Synchronizer.Synchronizer.ForgeBatch: leaves out the authorizations and the collected account updates and exits, which nothing modelled reads again.
- Synchronizer.Synchronizer.ReadBlock: leaves out bids, coordinators, tokens, withdrawals and buckets; matching withdrawals is one of the things that may fail.
- Synchronizer.Synchronizer.SyncBlock: treats the check of the slot and the update of the next slot as one thing that may fail.
- SyncRuns.SyncLoop: a run ends with the first call that loses the step; what later calls do with such a state is not described.
- Selections.SelectionIsBuildable: takes the limit MaxFeeTx on coordinator accounts and fewer L1 user txs than MaxTx as given, because the selector checks neither; tokens that together reach 2^192 and nonces at the greatest one are excluded. `Executed.FailsHalfwayIff`, `Executed.FullReceiverLosesAmount` and `Executed.LastNonceKeepsFee` say what happens there; a bound per token would not do, since a transfer may cross tokens.
- Float rounding of average fees.
