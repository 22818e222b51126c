/**
 Runs of the synchronizer, as the loop of the node makes them (node/node.go): the slot that it
 tracks over a run, and inputs at which it does not agree with its database.
 */
module SyncRuns {
  import opened Wrappers
  import opened Common
  import Ledger
  import Effects
  import opened StateDB
  import opened HistoryDB
  import opened Auction
  import opened Slots
  import opened BlockSteps
  import opened S = Synchronizer

  /** The chain during one call, and what fails in it. */
  datatype Call = Call(chain: Chain, fails: Faults)

  // ---- The slot over a run ----

  /** The deadline of the slot stays the same, and no batch is forged before the genesis block. */
  ghost predicate Quiet(c: AuctionConstants, cb: ChainBlock) {
    && (forall i :: 0 <= i < |cb.auctionUpdates| ==> cb.auctionUpdates[i].0 != "SlotDeadline")
    && (cb.forgeBatch != [] ==> c.genesisBlockNum <= cb.block.num)
  }

  ghost predicate QuietChain(c: AuctionConstants, chain: Chain) {
    forall n :: n in chain ==> Quiet(c, chain[n])
  }

  /** The slot is the one that the run of stored blocks gives block by block; nothing is committed before. */
  ghost predicate Tracks(c: AuctionConstants, start: int, deadline: nat, h: History, initVars: SCVars, slot: Slot)
    requires c.Valid()
  {
    && 0 < start <= c.genesisBlockNum && NoneBefore(c, h.blocks) && Deadline(VarsOf(h, initVars).auction) == deadline
    && var run := BlockRunOf(c, start, h.blocks);
       if run == [] then !slot.forgerCommitment else slot == Incremental(c, deadline, run)
  }

  lemma {:induction false} DeadlineStays(v: ContractVars, updates: seq<(string, int)>, blockNum: int)
    requires forall i :: 0 <= i < |updates| ==> updates[i].0 != "SlotDeadline"
    ensures Deadline(Updated(v, updates, blockNum).0) == Deadline(v)
  {
    hide Applied;
    if !SameAt(Applied(v.values, updates), v.values, "SlotDeadline") {
      var i := Untouched(v.values, updates, "SlotDeadline");
    }
  }

  /** What is read of a quiet block. */
  lemma QuietData(c: AuctionConstants, blocks: seq<BlockData>, cb: ChainBlock, st: Ledger.State, current: nat,
                  vars: SCVars, fails: Faults)
    requires c.Valid() && Quiet(c, cb) && ReadBlock(c, blocks, cb, st, current, vars, fails).data.Some?
    ensures var data := ReadBlock(c, blocks, cb, st, current, vars, fails).data.value;
            && data.block == cb.block && (data.batches != [] ==> c.genesisBlockNum <= cb.block.num)
            && Deadline(VarsAfter(vars, data).auction) == Deadline(vars.auction)
  {
    hide Updated, Deadline, Reached, Completes;
    DeadlineStays(vars.auction, cb.auctionUpdates, cb.block.num);
    UpdatedIs(vars.auction, cb.auctionUpdates, cb.block.num);
  }

  lemma UpdatedIs(v: ContractVars, updates: seq<(string, int)>, blockNum: int)
    ensures var (u, stored) := Updated(v, updates, blockNum); u == if stored.Some? then stored.value else v
  {
  }

  /** Tracking goes on with each quiet block. */
  lemma TracksNext(c: AuctionConstants, start: int, deadline: nat, h: History, initVars: SCVars, slot: Slot,
                   data: BlockData)
    requires c.Valid() && Tracks(c, start, deadline, h, initVars, slot) && h.initial.Some?
    requires data.block.num == start + |h.blocks| && (data.batches != [] ==> c.genesisBlockNum <= data.block.num)
    requires Deadline(VarsAfter(VarsOf(h, initVars), data).auction) == deadline
    ensures Tracks(c, start, deadline, AddBlock(h, data), initVars, NextSlotOf(c, deadline, slot, data))
  {
    hide Deadline, GetSCVars, NextSlotOf, Incremental;
    VarsNext(h, data);
    TracksRun(c, start, deadline, h.blocks, data, slot);
    if BlockRunOf(c, start, h.blocks + [data]) == [] {
      RunNext(c, start, h.blocks, data);
    }
  }

  /** A reset before the genesis block starts the tracking. */
  lemma TrackingStarts(c: AuctionConstants, start: int, h: History, initVars: SCVars)
    requires c.Valid() && 0 < start <= c.genesisBlockNum && LinkedBlocks(h.blocks, start) && AllPlaced(c, h.blocks)
    requires NoneBefore(c, h.blocks) && BlockRunOf(c, start, h.blocks) == []
    ensures Tracks(c, start, Deadline(VarsOf(h, initVars).auction), h, initVars, ResetSlot(c, h, initVars))
  {
    hide ResetSlot, Deadline, VarsOf, LinkedBlocks, AllPlaced;
    ResetSlotIsFromScratch(c, start, h, initVars);
  }

  /** A tracked slot is what a reset computes if and only if the run agrees with a reset. */
  lemma TrackedSlotAgreesIff(s: Synchronizer, deadline: nat)
    requires s.Stored() && Tracks(s.consts, s.startBlockNum, deadline, s.history, s.initVars, s.currentSlot)
    requires BlockRunOf(s.consts, s.startBlockNum, s.history.blocks) != []
    ensures s.currentSlot == ResetSlot(s.consts, s.history, s.initVars)
            <==> Agrees(s.consts, deadline, BlockRunOf(s.consts, s.startBlockNum, s.history.blocks))
  {
    hide Deadline, VarsOf, ResetSlot, Incremental, FromScratch;
    ResetSlotIsFromScratch(s.consts, s.startBlockNum, s.history, s.initVars);
  }

  /** Whatever was synced, undone or failed: in step, with a steady deadline, the slot is the one of the run. */
  lemma SteadySlot(s: Synchronizer)
    requires s.Stored() && s.InStep() && Steady(s.consts, s.startBlockNum, s.history)
    ensures var run := BlockRunOf(s.consts, s.startBlockNum, s.history.blocks);
            var deadline := Deadline(s.history.initial.value.auction);
            if run == [] then !s.currentSlot.forgerCommitment
            else s.currentSlot == Incremental(s.consts, deadline, run) == FromScratch(s.consts, deadline, run)
  {
    hide Deadline, VarsOf, ResetSlot, Incremental, FromScratch;
    hide GetLastBatch, GetLastL1BatchBlockNum, GetLastL1TxsNum, LedgerAfter, Batches;
    ResetSlotIsFromScratch(s.consts, s.startBlockNum, s.history, s.initVars);
    SteadyDeadline(s.history, s.initVars);
    CommitmentAgreesIff(s.consts, Deadline(s.history.initial.value.auction));
    assert Agrees(s.consts, Deadline(s.history.initial.value.auction), BlockRunOf(s.consts, s.startBlockNum, s.history.blocks));
  }

  /** One call that stores a block of a quiet chain. */
  lemma QuietNext(s: Synchronizer, h: History, slot: Slot, deadline: nat, call: Call, data: BlockData)
    requires s.consts.Valid() && s.InStep() && Tracks(s.consts, s.startBlockNum, deadline, h, s.initVars, slot)
    requires h.initial.Some? && s.history == AddBlock(h, data) && IsChain(call.chain) && QuietChain(s.consts, call.chain)
    requires var next := Next(h.blocks, s.startBlockNum);
             next in call.chain && s.Reads(h, call.chain[next], call.fails).data == Some(data)
    requires s.currentSlot == NextSlotOf(s.consts, Deadline(s.vars.auction), slot, data)
    ensures Tracks(s.consts, s.startBlockNum, deadline, s.history, s.initVars, s.currentSlot)
  {
    hide Tracks, NextSlotOf, Deadline, ReadBlock, SlotInStep, Batches, LedgerAfter, GetSCVars;
    hide GetLastBatch, GetLastL1BatchBlockNum, GetLastL1TxsNum;
    var cb := call.chain[Next(h.blocks, s.startBlockNum)];
    assert Quiet(s.consts, cb);
    var all := Batches(h.blocks);
    QuietData(s.consts, h.blocks, cb, LedgerAfter(all), |all|, VarsOf(h, s.initVars), call.fails);
    VarsNext(h, data);
    TrackedRun(s.consts, s.startBlockNum, deadline, h, s.initVars, slot);
    TracksNext(s.consts, s.startBlockNum, deadline, h, s.initVars, slot, data);
  }

  lemma TrackedRun(c: AuctionConstants, start: int, deadline: nat, h: History, initVars: SCVars, slot: Slot)
    requires c.Valid() && Tracks(c, start, deadline, h, initVars, slot)
    ensures NoneBefore(c, h.blocks) && Deadline(VarsOf(h, initVars).auction) == deadline
    ensures BlockRunOf(c, start, h.blocks) != [] ==> slot == Incremental(c, deadline, BlockRunOf(c, start, h.blocks))
  {
  }

  // ---- The loop of the node ----

  /** Where a run of calls has come to: the stage, and whether the next call reads the last block from the database. */
  datatype Point = Point(stage: Stage, fromDB: bool)

  /** The loop passes on a block that was stored, and what it passed before if there was no next one. */
  ghost function NextPoint(s: Synchronizer, p: Point, call: Call): Point
    requires s.consts.Valid()
  {
    Point(s.AfterCall(p.stage, p.fromDB, call.chain, call.fails),
          if s.Stores(p.stage, p.fromDB, call.chain, call.fails) then false
          else if s.FindsNone(p.stage, p.fromDB, call.chain, call.fails) then p.fromDB else true)
  }

  ghost function PointAfter(s: Synchronizer, p: Point, calls: seq<Call>): Point
    requires s.consts.Valid()
  {
    if calls == [] then p
    else NextPoint(s, PointAfter(s, p, calls[..|calls| - 1]), calls[|calls| - 1])
  }

  /** The k-th call of a run loses the step. */
  ghost predicate LosesAt(s: Synchronizer, p: Point, calls: seq<Call>, k: nat)
    requires s.consts.Valid() && k < |calls|
  {
    var q := PointAfter(s, p, calls[..k]);
    s.LosesStep(q.stage, q.fromDB, calls[k].chain, calls[k].fails)
  }

  /** The k-th call of a run undoes blocks. */
  ghost predicate RevertsAt(s: Synchronizer, p: Point, calls: seq<Call>, k: nat)
    requires s.consts.Valid() && k < |calls|
  {
    var q := PointAfter(s, p, calls[..k]);
    s.Reverts(q.stage, q.fromDB, calls[k].chain, calls[k].fails)
  }

  lemma PointNext(s: Synchronizer, p: Point, calls: seq<Call>, i: nat)
    requires s.consts.Valid() && i < |calls|
    ensures PointAfter(s, p, calls[..i + 1]) == NextPoint(s, PointAfter(s, p, calls[..i]), calls[i])
  {
    assert calls[..i + 1][..i] == calls[..i];
  }

  /**
   Calls the synchronizer again and again, with the last block if the call before stored or found
   none, up to the first call that loses the step. Whatever fails, the state stays in step or a
   failed reset is noted exactly as long as no call loses the step. As long as every call stores a
   block and the deadline stays, the slot is the one of the run.
   */
  method SyncLoop(s: Synchronizer, calls: seq<Call>, ghost deadline: nat) returns (stored: bool)
    requires s.Valid() && forall k :: 0 <= k < |calls| ==> IsChain(calls[k].chain)
    requires forall k :: 0 <= k < |calls| - 1 ==> !LosesAt(s, Point(s.CurrentStage(), true), calls, k)
    modifies s, s.stateDB
    ensures s.Stored() && s.CurrentStage() == PointAfter(s, Point(old(s.CurrentStage()), true), calls).stage
    ensures s.Valid() <==> forall k :: 0 <= k < |calls| ==> !LosesAt(s, Point(old(s.CurrentStage()), true), calls, k)
    ensures stored ==> s.Valid() && !(|calls| > 0 && s.resetStateFailed)
    ensures stored ==> |s.history.blocks| == old(|s.history.blocks|) + |calls|
    ensures stored && !old(s.resetStateFailed) && (forall k :: 0 <= k < |calls| ==> QuietChain(s.consts, calls[k].chain))
            && old(Tracks(s.consts, s.startBlockNum, deadline, s.history, s.initVars, s.currentSlot)) ==>
              Tracks(s.consts, s.startBlockNum, deadline, s.history, s.initVars, s.currentSlot)
  {
    hide Tracks, NextSlotOf, QuietChain, PointAfter, Deadline, ResetSlot;
    hide Numbered, AllPlaced, LedgerAfter, Batches, GetSCVars, Synchronizer.CheckpointsKept, Restorable;
    hide Synchronizer.InStep, Synchronizer.AfterCall, Synchronizer.LosesStep, Synchronizer.Asks, Synchronizer.AddsBlock;
    hide Synchronizer.Reads, Synchronizer.Reverts, LinkedBlocks, Follows, Kept, VarsOf;
    var lastBlock: Option<Block> := None;
    stored := true;
    ghost var p := Point(s.CurrentStage(), true);
    ghost var quiet := !s.resetStateFailed && (forall k :: 0 <= k < |calls| ==> QuietChain(s.consts, calls[k].chain))
                       && Tracks(s.consts, s.startBlockNum, deadline, s.history, s.initVars, s.currentSlot);
    PointStarts(s, p, calls);
    for i := 0 to |calls|
      invariant s.Stored() && (s.Valid() <==> forall k :: 0 <= k < i ==> !LosesAt(s, p, calls, k))
      invariant PointAfter(s, p, calls[..i]) == Point(s.CurrentStage(), lastBlock.None?)
      invariant lastBlock.Some? ==> s.history.blocks != [] && lastBlock.value == LastBlock(s.history)
      invariant stored ==> s.Valid() && !(i > 0 && s.resetStateFailed)
      invariant stored ==> |s.history.blocks| == old(|s.history.blocks|) + i
      invariant stored && quiet ==>
                  !s.resetStateFailed && Tracks(s.consts, s.startBlockNum, deadline, s.history, s.initVars, s.currentSlot)
    {
      ghost var h, slot := s.history, s.currentSlot;
      if !s.resetStateFailed {
        s.VarsOfInStep();
      }
      PointNext(s, p, calls, i);
      ghost var t, fromDB := s.CurrentStage(), lastBlock.None?;
      assert LosesAt(s, p, calls, i) <==> s.LosesStep(t, fromDB, calls[i].chain, calls[i].fails);
      var ok, blockData, discarded := s.Sync(lastBlock, calls[i].chain, calls[i].fails);
      if stored && quiet && ok && blockData.Some? {
        QuietNext(s, h, slot, deadline, calls[i], blockData.value);
      }
      stored := stored && ok && blockData.Some?;
      lastBlock := if ok && blockData.Some? then Some(blockData.value.block)
                   else if ok && discarded.None? then lastBlock else None;
    }
    assert calls[..|calls|] == calls;
  }

  lemma PointStarts(s: Synchronizer, p: Point, calls: seq<Call>)
    requires s.consts.Valid()
    ensures PointAfter(s, p, calls[..0]) == p
  {
  }

  // ---- A start block that is off the chain ----

  /** The block after the start block follows another one. */
  ghost predicate LeavesStart(s: Synchronizer, blocks: seq<BlockData>, chain: Chain) {
    var next := s.startBlockNum + 1;
    |blocks| == 1 && next in chain && chain[next].block.parentHash != blocks[0].block.hash
  }

  lemma StartStays(s: Synchronizer, t: Stage, fromDB: bool, call: Call)
    requires s.consts.Valid() && LeavesStart(s, t.h.blocks, call.chain)
    ensures !s.Continues(t, fromDB, call.chain, call.fails) && !s.FindsNone(t, fromDB, call.chain, call.fails)
    ensures s.AfterCall(t, fromDB, call.chain, call.fails).h.blocks == t.h.blocks
  {
    hide Batches, GetSCVars;
    var b := t.h.blocks;
    assert b[..1] == b;
  }

  /**
   When the start block is the only one stored and the chain has left it, no call changes the stored
   blocks, however often it is made: it succeeds when nothing fails in undoing blocks, and undoes none.
   */
  method StuckAtStart(s: Synchronizer, calls: seq<Call>) returns (discarded: seq<Option<int>>)
    requires s.Valid()
    requires forall k :: 0 <= k < |calls| ==> IsChain(calls[k].chain) && LeavesStart(s, s.history.blocks, calls[k].chain)
    modifies s, s.stateDB
    ensures s.Valid() && s.history.blocks == old(s.history.blocks) && |discarded| == |calls|
    ensures forall k :: 0 <= k < |calls| ==>
              discarded[k] == if RevertsAt(s, Point(old(s.CurrentStage()), true), calls, k) then Some(0) else None
  {
    hide LeavesStart, PointAfter, IsChain, Batches, GetSCVars, LedgerAfter, Numbered, AllPlaced, LinkedBlocks, Restorable;
    hide Synchronizer.InStep, Synchronizer.AfterCall, Synchronizer.Asks, Synchronizer.AddsBlock, Synchronizer.Reads;
    hide Synchronizer.CheckpointsKept, Synchronizer.Reverts, Synchronizer.Finds, NextSlotOf, Deadline, ResetSlot;
    discarded := [];
    ghost var p, blocks := Point(s.CurrentStage(), true), s.history.blocks;
    PointStarts(s, p, calls);
    for i := 0 to |calls|
      invariant s.Valid() && s.history.blocks == blocks && |discarded| == i
      invariant PointAfter(s, p, calls[..i]) == Point(s.CurrentStage(), true)
      invariant forall k :: 0 <= k < i ==> discarded[k] == if RevertsAt(s, p, calls, k) then Some(0) else None
    {
      PointNext(s, p, calls, i);
      ghost var t := s.CurrentStage();
      assert RevertsAt(s, p, calls, i) <==> s.Reverts(t, true, calls[i].chain, calls[i].fails);
      StartStays(s, t, true, calls[i]);
      OneIsKept(s, blocks, calls[i].chain);
      var ok, blockData, n := s.Sync(None, calls[i].chain, calls[i].fails);
      discarded := discarded + [if ok then n else None];
    }
  }

  lemma OneIsKept(s: Synchronizer, blocks: seq<BlockData>, chain: Chain)
    requires LeavesStart(s, blocks, chain)
    ensures |blocks| == 1 && Kept(blocks, chain) == 0
  {
  }

  /** Nothing fails, and the node shows a block with the number of the start block. */
  ghost predicate Undisturbed(s: Synchronizer, call: Call) {
    (forall f :: !call.fails(f)) && s.startBlockNum in call.chain
  }

  /** When nothing fails, a call with the start block off the chain succeeds and changes nothing. */
  lemma StuckOnce(s: Synchronizer, t: Stage, call: Call)
    requires s.consts.Valid() && LeavesStart(s, t.h.blocks, call.chain) && Undisturbed(s, call)
    requires LinkedBlocks(t.h.blocks, s.startBlockNum) && t.h.initial.Some? && !t.failed
    requires |t.restorable| == |Batches(t.h.blocks)| && (t.restorable != [] ==> t.restorable[|t.restorable| - 1])
    ensures NextPoint(s, Point(t, true), call) == Point(t, true)
    ensures s.Reverts(t, true, call.chain, call.fails)
  {
    hide Batches, Kept, Synchronizer.AddsBlock, LastVars;
    OneIsKept(s, t.h.blocks, call.chain);
    assert t.h.blocks[..1] == t.h.blocks && t.restorable[..|t.restorable|] == t.restorable;
    assert s.Truncated(t, call.chain) == t;
    assert WalkPasses(t.h.blocks, call.chain, call.fails);
  }

  /** And so does every later one: it is stuck for ever. */
  lemma {:induction false} StuckForEver(s: Synchronizer, t: Stage, calls: seq<Call>, k: nat)
    requires s.consts.Valid() && k < |calls|
    requires forall i :: 0 <= i < |calls| ==> LeavesStart(s, t.h.blocks, calls[i].chain) && Undisturbed(s, calls[i])
    requires LinkedBlocks(t.h.blocks, s.startBlockNum) && t.h.initial.Some? && !t.failed
    requires |t.restorable| == |Batches(t.h.blocks)| && (t.restorable != [] ==> t.restorable[|t.restorable| - 1])
    ensures PointAfter(s, Point(t, true), calls[..k]) == Point(t, true) && RevertsAt(s, Point(t, true), calls, k)
  {
    hide LeavesStart, Undisturbed, NextPoint, LinkedBlocks, Batches, Synchronizer.Reverts;
    StuckOnce(s, t, calls[k]);
    if k > 0 {
      StuckForEver(s, t, calls, k - 1);
      PointNext(s, Point(t, true), calls, k - 1);
      StuckOnce(s, t, calls[k - 1]);
    }
  }
}
