/**
 Inputs at which the synchronizer and its database part: a start, chains and failures for each.
 */
module SyncInputs {
  import opened Wrappers
  import opened Common
  import Ledger
  import opened StateDB
  import opened HistoryDB
  import opened Auction
  import opened Slots
  import opened BlockSteps
  import opened S = Synchronizer
  import opened SyncRuns

  const NO_VARS := ContractVars(0, map[])

  lemma NothingStored(history: History)
    requires history == History([], None)
    ensures LinkedBlocks(history.blocks, 1) && Batches(history.blocks) == [] && Numbered([]) && GetSCVars(history).None?
  {
  }

  /** A synchronizer with nothing stored, after its start. */
  method Fresh(start: int, initVars: SCVars, consts: AuctionConstants) returns (s: Synchronizer)
    requires start > 0 && consts.Valid()
    ensures fresh(s) && fresh(s.stateDB) && s.startBlockNum == start && s.initVars == initVars && s.consts == consts
    ensures s.Valid() && !s.resetStateFailed && s.history == History([], Some(initVars))
    ensures s.currentSlot == ResetSlot(consts, s.history, initVars)
  {
    hide ResetSlot, GetSCVars;
    var stateDB := new StateDB();
    var history := History([], None);
    NothingStored(history);
    s := new Synchronizer(start, initVars, consts, stateDB, history);
    var ok := s.Init(f => false);
  }

  // Block 1 changes a variable of the rollup.
  const CHANGING_BLOCK := ChainBlock(Block(1, 1, 0), [], [], [("FeeAddToken", 1)], [], [])

  predicate AuctionUnreadable(f: Fault) {
    f == AuctionEventsFail || f == GetLastBlockFails(AFTER_ERROR)
  }

  lemma NothingForged(c: AuctionConstants, blocks: seq<BlockData>, cb: ChainBlock, st: Ledger.State, current: nat,
                      fails: Faults)
    requires c.Valid() && cb.forgeBatch == [] && !fails(NextL1NumFails)
    ensures ForgeAll(c, blocks, cb, st, current, fails) == Progress(st, current, [], true)
  {
  }

  lemma ChangingBlockMoves(vars: SCVars)
    requires vars.rollup == NO_VARS
    ensures VarsMove(CHANGING_BLOCK, vars, AuctionUnreadable)
  {
    var fault := RollupFault(AuctionUnreadable);
    assert Completes(CHANGING_BLOCK.rollupUpdates, fault);
    assert Moves(NO_VARS, CHANGING_BLOCK.rollupUpdates, 1, fault);
  }

  lemma ChangingBlockFails(s: Synchronizer)
    requires s.consts.Valid() && s.history == History([], Some(SCVars(NO_VARS, NO_VARS, NO_VARS)))
    ensures s.FailsAfterChange(s.history, CHANGING_BLOCK, AuctionUnreadable)
  {
    hide FirstBatchMoves, SlotChanges, ForgeAll, VarsMove, Reached, Completes, LedgerAfter, Batches, Updated;
    var all := Batches(s.history.blocks);
    NothingForged(s.consts, s.history.blocks, CHANGING_BLOCK, LedgerAfter(all), |all|, AuctionUnreadable);
    ChangingBlockMoves(VarsOf(s.history, s.initVars));
  }

  /**
   A block fails after its rollup variables were updated, and the last block cannot be read to undo
   that. The synchronizer then believes in variables that no reset would compute.
   */
  method FailedRevertLosesStep() returns (s: Synchronizer)
    ensures s.Stored() && !s.resetStateFailed && !s.InStep()
  {
    hide Synchronizer.FailsAfterChange, Synchronizer.InStep, ResetSlot;
    s := Fresh(1, SCVars(NO_VARS, NO_VARS, NO_VARS), AuctionConstants(1, 1));
    ChangingBlockFails(s);
    var ok, blockData, discarded := s.Sync(None, map[1 := CHANGING_BLOCK], AuctionUnreadable);
  }

  // A batch without any tx, the first one.
  const EMPTY_BATCH := ForgeEvent(1, 1, false, Config(0, 0, 0, 0), map[], [], [], [])

  function NoFaults(f: Fault): bool {
    false
  }

  /** A block without events, except for the empty batch in the last block of the first slot. */
  function QuietBlock(c: AuctionConstants, num: int): ChainBlock {
    ChainBlock(Block(num, if num >= 0 then num else 0, if num >= 1 then num - 1 else 0), [],
               if num == c.genesisBlockNum + c.blocksPerSlot - 1 then [EMPTY_BATCH] else [], [], [], [])
  }

  /** The blocks of the first slot. */
  function FirstSlotChain(c: AuctionConstants): Chain {
    map n | c.genesisBlockNum <= n < c.genesisBlockNum + c.blocksPerSlot :: QuietBlock(c, n)
  }

  lemma EmptyBatchPasses(c: AuctionConstants, blocks: seq<BlockData>, cb: ChainBlock, next: int)
    requires c.Valid()
    ensures var s := ExecutedStep(Ledger.EMPTY_STATE, BatchOf(c, blocks, cb, EMPTY_BATCH, next));
            s.err == None && s.p.st == Ledger.EMPTY_STATE
  {
  }

  lemma EmptyBatchForged(c: AuctionConstants, blocks: seq<BlockData>, cb: ChainBlock)
    requires c.Valid() && cb.forgeBatch == [EMPTY_BATCH]
    ensures var p := ForgeAll(c, blocks, cb, Ledger.EMPTY_STATE, 0, NoFaults);
            p.ok && p.batches != []
  {
    hide ExecutedStep, BatchOf;
    var p0 := Progress(Ledger.EMPTY_STATE, 0, [], true);
    EmptyBatchPasses(c, blocks, cb, NextNum(blocks, []));
    assert ForgeSteps(c, blocks, cb, p0, 1, NoFaults)
           == ForgeStep(c, blocks, cb, ForgeSteps(c, blocks, cb, p0, 0, NoFaults), 0, NoFaults);
  }

  /** A block without updates is read to the end once its batches are. */
  lemma QuietBlockRead(c: AuctionConstants, blocks: seq<BlockData>, cb: ChainBlock, st: Ledger.State, current: nat,
                       vars: SCVars)
    requires c.Valid() && cb.rollupUpdates == [] && cb.auctionUpdates == [] && cb.wDelayerUpdates == []
    requires ForgeAll(c, blocks, cb, st, current, NoFaults).ok
    ensures var data := ReadBlock(c, blocks, cb, st, current, vars, NoFaults).data;
            data.Some? && data.value.block == cb.block
            && data.value.batches == ForgeAll(c, blocks, cb, st, current, NoFaults).batches
            && data.value.auctionVars == None
  {
    hide ForgeAll, Reached;
  }

  lemma {:induction false} NoBatchesIn(blocks: seq<BlockData>)
    requires forall k :: 0 <= k < |blocks| ==> blocks[k].batches == []
    ensures Batches(blocks) == []
  {
    if blocks != [] {
      NoBatchesIn(blocks[..|blocks| - 1]);
    }
  }

  /** The first `n` blocks of the first slot are stored. */
  ghost predicate FirstBlocks(c: AuctionConstants, blocks: seq<BlockData>, n: nat) {
    && |blocks| == n <= c.blocksPerSlot
    && forall k :: 0 <= k < n ==> blocks[k].block == QuietBlock(c, c.genesisBlockNum + k).block
                                  && (blocks[k].batches == [] <==> k != c.blocksPerSlot - 1)
  }

  /** The next block of the first slot can be stored. */
  lemma NextQuietBlock(s: Synchronizer, n: nat)
    requires s.consts.Valid() && 0 < s.startBlockNum == s.consts.genesisBlockNum && n < s.consts.blocksPerSlot
    requires FirstBlocks(s.consts, s.history.blocks, n)
    ensures var cb := QuietBlock(s.consts, s.startBlockNum + n);
            && Follows(s.history.blocks, s.startBlockNum, cb.block) && s.AddsBlock(s.history, cb, NoFaults)
            && FirstBlocks(s.consts, s.history.blocks + [s.Reads(s.history, cb, NoFaults).data.value], n + 1)
  {
    hide ReadBlock, ForgeAll, LedgerAfter;
    var c, blocks := s.consts, s.history.blocks;
    var cb := QuietBlock(c, s.startBlockNum + n);
    NoBatchesIn(blocks);
    assert Batches(blocks) == [];
    EmptyLedger();
    if n == c.blocksPerSlot - 1 {
      EmptyBatchForged(c, blocks, cb);
    } else {
      NothingForged(c, blocks, cb, Ledger.EMPTY_STATE, 0, NoFaults);
    }
    QuietBlockRead(c, blocks, cb, Ledger.EMPTY_STATE, 0, VarsOf(s.history, s.initVars));
  }

  lemma EmptyLedger()
    ensures LedgerAfter([]) == Ledger.EMPTY_STATE
  {
  }

  lemma FirstSlotQuiet(c: AuctionConstants)
    requires c.Valid() && c.genesisBlockNum > 0
    ensures IsChain(FirstSlotChain(c)) && QuietChain(c, FirstSlotChain(c))
  {
  }

  /** A run of the whole first slot. */
  lemma FirstSlotRun(c: AuctionConstants, blocks: seq<BlockData>)
    requires c.Valid() && FirstBlocks(c, blocks, c.blocksPerSlot)
    ensures BlockRunOf(c, c.genesisBlockNum, blocks) == seq(c.blocksPerSlot, i => i == c.blocksPerSlot - 1)
  {
  }

  /** The first `n` blocks of the first slot are synced, and their slot is tracked. */
  ghost predicate InFirstSlot(s: Synchronizer, n: nat, deadline: nat)
    reads s, s.stateDB
  {
    && s.Valid() && !s.resetStateFailed && 0 < s.startBlockNum == s.consts.genesisBlockNum
    && FirstBlocks(s.consts, s.history.blocks, n)
    && Tracks(s.consts, s.startBlockNum, deadline, s.history, s.initVars, s.currentSlot)
  }

  method SyncQuietBlock(s: Synchronizer, n: nat, ghost deadline: nat)
    requires s.consts.Valid() && n < s.consts.blocksPerSlot && InFirstSlot(s, n, deadline)
    modifies s, s.stateDB
    ensures InFirstSlot(s, n + 1, deadline)
  {
    hide Tracks, ResetSlot, FirstBlocks, QuietChain, QuietBlock, NextSlotOf, Deadline, IsChain, GetSCVars, Numbered;
    hide AllPlaced, LedgerAfter, Batches, LinkedBlocks, Restorable, Synchronizer.InStep, Synchronizer.AddsBlock;
    hide Synchronizer.Reads, Synchronizer.AfterCall, Synchronizer.LosesStep, Synchronizer.Reverts;
    ghost var h, slot := s.history, s.currentSlot;
    s.VarsOfInStep();
    NextQuietBlock(s, n);
    StoredSoFar(s.consts, h.blocks, n);
    FirstSlotQuiet(s.consts);
    var chain := FirstSlotChain(s.consts);
    var ok, blockData, discarded := s.Sync(None, chain, NoFaults);
    QuietNext(s, h, slot, deadline, Call(chain, NoFaults), blockData.value);
  }

  /**
   For every slot length and every deadline that is not inside the slot, syncing the first slot
   with one batch in its last block, without any failure, ends with a commitment that no reset finds.
   */
  method LateBatchMisleads(consts: AuctionConstants, deadline: nat) returns (s: Synchronizer)
    requires consts.Valid() && consts.genesisBlockNum > 0 && deadline >= consts.blocksPerSlot
    ensures s.Valid() && !s.resetStateFailed
    ensures s.currentSlot.forgerCommitment && !ResetSlot(s.consts, s.history, s.initVars).forgerCommitment
  {
    hide Tracks, ResetSlot, FirstBlocks, Deadline, Incremental, FromScratch;
    hide Synchronizer.InStep, Numbered, AllPlaced, LedgerAfter, Batches, LinkedBlocks;
    var initVars := SCVars(NO_VARS, ContractVars(0, map["SlotDeadline" := deadline]), NO_VARS);
    s := Fresh(consts.genesisBlockNum, initVars, consts);
    StartOfFirstSlot(consts, s.history, initVars, deadline);
    for n := 0 to consts.blocksPerSlot
      invariant fresh(s) && fresh(s.stateDB) && s.consts == consts && InFirstSlot(s, n, deadline)
    {
      SyncQuietBlock(s, n, deadline);
    }
    FirstSlotRun(consts, s.history.blocks);
    LateBatchCounts(consts, deadline);
    TrackedRun(consts, consts.genesisBlockNum, deadline, s.history, s.initVars, s.currentSlot);
    ResetSlotIsFromScratch(consts, consts.genesisBlockNum, s.history, s.initVars);
  }

  lemma StoredSoFar(c: AuctionConstants, blocks: seq<BlockData>, n: nat)
    requires FirstBlocks(c, blocks, n)
    ensures |blocks| == n
  {
  }

  lemma StartOfFirstSlot(c: AuctionConstants, h: History, initVars: SCVars, deadline: nat)
    requires c.Valid() && c.genesisBlockNum > 0 && h == History([], Some(initVars))
    requires initVars.auction.values == map["SlotDeadline" := deadline]
    ensures FirstBlocks(c, h.blocks, 0)
    ensures Tracks(c, c.genesisBlockNum, deadline, h, initVars, ResetSlot(c, h, initVars))
  {
    hide ResetSlot, Tracks;
    FirstVars(h, initVars);
    TrackingStarts(c, c.genesisBlockNum, h, initVars);
  }

  // ---- A start block that is replaced ----

  const START_BLOCK := ChainBlock(Block(1, 1, 0), [], [], [], [], [])

  // Another start block, and the one after it.
  const OTHER_CHAIN: Chain :=
    map[1 := ChainBlock(Block(1, 5, 0), [], [], [], [], []), 2 := ChainBlock(Block(2, 6, 5), [], [], [], [], [])]

  lemma StartBlockAdds(s: Synchronizer)
    requires s.consts.Valid() && s.history.blocks == []
    ensures s.AddsBlock(s.history, START_BLOCK, NoFaults)
    ensures var data := s.Reads(s.history, START_BLOCK, NoFaults).data.value;
            data.block == START_BLOCK.block && data.batches == []
  {
    hide ReadBlock, ForgeAll, LedgerAfter, Batches;
    var all := Batches(s.history.blocks);
    NothingForged(s.consts, s.history.blocks, START_BLOCK, LedgerAfter(all), |all|, NoFaults);
    QuietBlockRead(s.consts, s.history.blocks, START_BLOCK, LedgerAfter(all), |all|, VarsOf(s.history, s.initVars));
  }

  /** After the start block was replaced on the chain, any number of calls succeeds, and the old one stays. */
  method ReplacedStartStays(n: nat) returns (s: Synchronizer, discarded: seq<Option<int>>)
    ensures s.Valid() && !OnChain(START_BLOCK.block, OTHER_CHAIN)
    ensures |s.history.blocks| == 1 && s.history.blocks[0].block == START_BLOCK.block
    ensures |discarded| == n && forall k :: 0 <= k < n ==> discarded[k] == Some(0)
  {
    hide Synchronizer.AddsBlock, Synchronizer.Reads, Synchronizer.InStep, NextSlotOf, ResetSlot, Numbered, AllPlaced;
    hide LedgerAfter, Batches, RevertsAt, Deadline, Synchronizer.AfterCall, Synchronizer.LosesStep;
    s := Fresh(1, SCVars(NO_VARS, NO_VARS, NO_VARS), AuctionConstants(1, 1));
    StartBlockAdds(s);
    FreshStores(s, START_BLOCK);
    var ok, blockData, none := s.Sync(None, map[1 := START_BLOCK], NoFaults);
    NoBatchesIn(s.history.blocks);
    var calls := seq(n, _ => Call(OTHER_CHAIN, NoFaults));
    ghost var t := s.CurrentStage();
    forall k | 0 <= k < n ensures RevertsAt(s, Point(t, true), calls, k) {
      StuckForEver(s, t, calls, k);
    }
    discarded := StuckAtStart(s, calls);
  }

  lemma FreshStores(s: Synchronizer, cb: ChainBlock)
    requires s.consts.Valid() && s.startBlockNum == 1 && !s.resetStateFailed && s.history.blocks == []
    requires cb.block.num == 1 && s.AddsBlock(s.history, cb, NoFaults)
    ensures s.Stores(s.CurrentStage(), true, map[1 := cb], NoFaults)
  {
    hide Synchronizer.AddsBlock;
  }

  // ---- A deadline that moves ----

  // Slots of ten blocks from block 1 on.
  const TEN_BLOCKS := AuctionConstants(10, 1)

  const BATCH_BLOCK := ChainBlock(Block(1, 1, 0), [], [EMPTY_BATCH], [], [], [])

  const DEADLINE_BLOCK := ChainBlock(Block(2, 2, 1), [], [], [], [("SlotDeadline", 0)], [])

  const DEADLINE_OF_FIVE := SCVars(NO_VARS, ContractVars(0, map["SlotDeadline" := 5]), NO_VARS)

  lemma BatchBlockAdds(s: Synchronizer)
    requires s.consts.Valid() && s.history.blocks == []
    ensures s.AddsBlock(s.history, BATCH_BLOCK, NoFaults)
    ensures var data := s.Reads(s.history, BATCH_BLOCK, NoFaults).data.value;
            data.block == BATCH_BLOCK.block && data.batches != [] && data.auctionVars == None
  {
    hide ReadBlock, ForgeAll, LedgerAfter;
    NoBatchesIn([]);
    EmptyLedger();
    EmptyBatchForged(s.consts, s.history.blocks, BATCH_BLOCK);
    QuietBlockRead(s.consts, s.history.blocks, BATCH_BLOCK, Ledger.EMPTY_STATE, 0, VarsOf(s.history, s.initVars));
  }

  lemma DeadlineBlockAdds(s: Synchronizer, h: History)
    requires s.consts.Valid()
    ensures s.AddsBlock(h, DEADLINE_BLOCK, NoFaults)
    ensures var data := s.Reads(h, DEADLINE_BLOCK, NoFaults).data.value;
            && data.block == DEADLINE_BLOCK.block && data.batches == []
            && data.auctionVars.Some? && Deadline(data.auctionVars.value) == 0
  {
    hide ForgeAll, LedgerAfter, Batches, Reached, FirstFailure;
    var all := Batches(h.blocks);
    NothingForged(s.consts, h.blocks, DEADLINE_BLOCK, LedgerAfter(all), |all|, NoFaults);
    NothingFails(DEADLINE_BLOCK.rollupUpdates, RollupFault(NoFaults));
    NothingFails(DEADLINE_BLOCK.auctionUpdates, AuctionFault(NoFaults));
    NothingFails(DEADLINE_BLOCK.wDelayerUpdates, WDelayerFault(NoFaults));
    NothingApplied(VarsOf(h, s.initVars).auction.values);
    var updates := DEADLINE_BLOCK.auctionUpdates;
    assert updates[..0] == [];
  }

  lemma NothingFails(updates: seq<(string, int)>, failsAt: nat -> bool)
    requires forall i: nat :: !failsAt(i)
    ensures Completes(updates, failsAt)
  {
  }

  /** The batch of block 1 is in time for the deadline of five, and not for the deadline of zero. */
  lemma DeadlineMoves(h: History, first: BlockData, data: BlockData, initVars: SCVars)
    requires h.blocks == [first] && h.initial.Some?
    requires first.block == BATCH_BLOCK.block && first.batches != [] && data.batches == []
    requires data.block == DEADLINE_BLOCK.block && AllPlaced(TEN_BLOCKS, AddBlock(h, data).blocks)
    requires Deadline(VarsOf(h, initVars).auction) == 5 && Deadline(VarsOf(AddBlock(h, data), initVars).auction) == 0
    ensures NextSlotOf(TEN_BLOCKS, 0, ResetSlot(TEN_BLOCKS, h, initVars), data)
            != ResetSlot(TEN_BLOCKS, AddBlock(h, data), initVars)
    ensures !ResetSlot(TEN_BLOCKS, AddBlock(h, data), initVars).forgerCommitment
  {
    hide Deadline, VarsOf, ResetSlot, NextSlotOf, FirstOfSlot, Batches, AllPlaced;
    assert LinkedBlocks(AddBlock(h, data).blocks, 1);
    PrefixPlaced(TEN_BLOCKS, 1, h.blocks, data);
    assert h.blocks == [] + [first];
    FirstNext(TEN_BLOCKS, 1, [], first, 0);
    NothingFirst(TEN_BLOCKS, 0);
    NextSlotAgreesIff(TEN_BLOCKS, 1, h, initVars, data);
    FirstNext(TEN_BLOCKS, 1, h.blocks, data, 0);
    NeverInTime(AddBlock(h, data), initVars);
  }

  /** No batch is in time for a deadline of zero. */
  lemma NeverInTime(h: History, initVars: SCVars)
    requires LastBlock(h).num == 2 && FirstOfSlot(Batches(h.blocks), 0) == Some(1)
    requires Deadline(VarsOf(h, initVars).auction) == 0
    ensures !ResetSlot(TEN_BLOCKS, h, initVars).forgerCommitment
  {
    hide Deadline, VarsOf, FirstOfSlot, Batches;
  }

  lemma SamePlace(s: Synchronizer)
    requires s.consts.Valid() && s.InStep()
    ensures Place(s.currentSlot) == Place(ResetSlot(s.consts, s.history, s.initVars))
  {
    hide ResetSlot, LedgerAfter, Batches, GetLastBatch, GetLastL1BatchBlockNum, GetLastL1TxsNum, VarsOf;
  }

  /** The history after block 1. */
  ghost predicate BatchStored(h: History) {
    && |h.blocks| == 1 && h.initial == Some(DEADLINE_OF_FIVE)
    && h.blocks[0].block == BATCH_BLOCK.block && h.blocks[0].batches != [] && h.blocks[0].auctionVars == None
  }

  lemma SlotOfFive(s: Synchronizer)
    requires s.consts == TEN_BLOCKS && s.startBlockNum == 1 && s.InStep() && BatchStored(s.history)
    ensures s.currentSlot == ResetSlot(TEN_BLOCKS, s.history, s.initVars)
  {
    hide ResetSlot, LedgerAfter, Batches, GetLastBatch, GetLastL1BatchBlockNum, GetLastL1TxsNum, VarsOf;
    assert Steady(TEN_BLOCKS, 1, s.history);
  }

  lemma DeadlineOfFive(h: History, initVars: SCVars)
    requires BatchStored(h)
    ensures h.initial.Some? && Deadline(VarsOf(h, initVars).auction) == 5
  {
    hide Deadline, VarsOf;
    assert Deadline(DEADLINE_OF_FIVE.auction) == 5 by {
      DeadlineIsFive();
    }
    SteadyDeadline(h, initVars);
  }

  lemma DeadlineIsFive()
    ensures Deadline(DEADLINE_OF_FIVE.auction) == 5
  {
  }

  /** A synchronizer that has stored block 1. */
  method AfterBatch() returns (s: Synchronizer)
    ensures fresh(s) && fresh(s.stateDB) && s.consts == TEN_BLOCKS && s.startBlockNum == 1
    ensures s.Valid() && !s.resetStateFailed && BatchStored(s.history)
  {
    hide Synchronizer.AddsBlock, Synchronizer.Reads, Synchronizer.InStep, NextSlotOf, ResetSlot, Numbered, AllPlaced;
    hide LedgerAfter, Batches, Deadline, Synchronizer.AfterCall, Synchronizer.LosesStep, Synchronizer.Reverts;
    s := Fresh(1, DEADLINE_OF_FIVE, TEN_BLOCKS);
    BatchBlockAdds(s);
    FreshStores(s, BATCH_BLOCK);
    var ok, blockData, none := s.Sync(None, map[1 := BATCH_BLOCK], NoFaults);
  }

  lemma DeadlineBlockStores(s: Synchronizer)
    requires s.consts == TEN_BLOCKS && s.startBlockNum == 1 && !s.resetStateFailed && BatchStored(s.history)
    ensures s.Stores(s.CurrentStage(), true, map[2 := DEADLINE_BLOCK], NoFaults)
  {
    hide Synchronizer.AddsBlock;
    DeadlineBlockAdds(s, s.history);
  }

  lemma DeadlineIsZero(h: History, data: BlockData, initVars: SCVars)
    requires h.initial.Some? && data.auctionVars.Some? && Deadline(data.auctionVars.value) == 0
    ensures Deadline(VarsOf(AddBlock(h, data), initVars).auction) == 0
  {
    hide Deadline, GetSCVars;
    VarsNext(h, data);
  }

  /**
   With a batch in block 1 that was in time, and a block 2 that sets the deadline to zero, the
   commitment is tracked as kept, while a reset finds it not kept.
   */
  method MovedDeadlineMisleads() returns (s: Synchronizer)
    ensures s.Valid() && !s.resetStateFailed
    ensures s.currentSlot.forgerCommitment && !ResetSlot(s.consts, s.history, s.initVars).forgerCommitment
  {
    hide Synchronizer.AddsBlock, Synchronizer.Reads, Synchronizer.InStep, NextSlotOf, ResetSlot, Numbered, AllPlaced;
    hide LedgerAfter, Batches, Deadline, GetSCVars, Synchronizer.AfterCall, Synchronizer.LosesStep, Synchronizer.Reverts;
    s := AfterBatch();
    SlotOfFive(s);
    s.VarsOfInStep();
    DeadlineOfFive(s.history, s.initVars);
    DeadlineBlockAdds(s, s.history);
    DeadlineBlockStores(s);
    ghost var h := s.history;
    var ok, blockData, none := s.Sync(None, map[2 := DEADLINE_BLOCK], NoFaults);
    s.VarsOfInStep();
    DeadlineIsZero(h, blockData.value, s.initVars);
    DeadlineMoves(h, h.blocks[0], blockData.value, s.initVars);
    SamePlace(s);
  }
}
