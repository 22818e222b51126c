/**
 The synchronizer (synchronizer/synchronizer.go): it follows the blocks of the chain, stores what
 happened in them and keeps its own state in step, whatever fails on the way.
 */
module Synchronizer {
  import opened Wrappers
  import opened Common
  import Ledger
  import Effects
  import opened StateDB
  import TxProcessor
  import opened HistoryDB
  import opened Auction
  import opened Slots
  import opened BlockSteps

  type Checkpoints = map<nat, Ledger.State>

  /** Which of the first `n` batches have a checkpoint. */
  ghost function Restorable(checkpoints: Checkpoints, n: nat): (r: seq<bool>)
    ensures |r| == n
  {
    seq(n, k requires 0 <= k < n => k + 1 in checkpoints)
  }

  /** What a call goes on from: the database, whether a reset failed, and which stored batches have a checkpoint. */
  datatype Stage = Stage(h: History, failed: bool, restorable: seq<bool>)

  /** The same batches have checkpoints. */
  lemma SameRestorable(a: Checkpoints, b: Checkpoints, n: nat)
    requires forall k :: 1 <= k <= n ==> (k in a <==> k in b)
    ensures Restorable(a, n) == Restorable(b, n)
  {
    assert forall k :: 0 <= k < n ==> Restorable(a, n)[k] == (k + 1 in a);
  }

  /** Of the first `n + m` batches those after the `n`-th have got checkpoints. */
  lemma MoreRestorable(a: Checkpoints, b: Checkpoints, n: nat, m: nat)
    requires forall k :: 1 <= k <= n ==> (k in a <==> k in b)
    requires forall k :: n < k <= n + m ==> k in b
    ensures Restorable(b, n + m) == Restorable(a, n) + seq(m, _ => true)
  {
  }

  lemma FewerRestorable(a: Checkpoints, n: nat, m: nat)
    requires m <= n
    ensures Restorable(a, m) == Restorable(a, n)[..m]
  {
  }

  class Synchronizer {
    const startBlockNum: int
    const initVars: SCVars
    const consts: AuctionConstants
    const stateDB: StateDB
    var history: History
    var vars: SCVars
    var lastBlock: Block
    var lastBatch: Batch
    var lastL1BatchBlock: int
    var lastForgeL1TxsNum: int
    var currentSlot: Slot
    var resetStateFailed: bool

    constructor (startBlockNum: int, initVars: SCVars, consts: AuctionConstants, stateDB: StateDB, history: History)
      ensures this.startBlockNum == startBlockNum && this.initVars == initVars && this.consts == consts
      ensures this.stateDB == stateDB && this.history == history && !resetStateFailed
    {
      this.startBlockNum := startBlockNum;
      this.initVars := initVars;
      this.consts := consts;
      this.stateDB := stateDB;
      this.history := history;
      vars := initVars;
      lastBlock := BLOCK_ZERO;
      lastBatch := NO_BATCH;
      lastL1BatchBlock := 0;
      lastForgeL1TxsNum := -1;
      currentSlot := NO_SLOT;
      resetStateFailed := false;
    }

    // ---- Invariants ----

    function SyncView(): View
      reads `vars, `lastBlock, `lastBatch, `lastL1BatchBlock, `lastForgeL1TxsNum
    {
      View(vars, lastBlock, lastBatch, lastL1BatchBlock, lastForgeL1TxsNum)
    }

    ghost function AllBatches(): seq<Batch>
      reads `history
    {
      Batches(history.blocks)
    }

    /** The checkpoints of stored batches are the ledgers after them. */
    ghost predicate CheckpointsKept(batches: seq<Batch>)
      reads stateDB`checkpoints
    {
      forall b :: b in stateDB.checkpoints && 1 <= b <= |batches| ==> stateDB.checkpoints[b] == LedgerAfter(batches[..b])
    }

    /** What the database holds, whatever failed before. */
    ghost predicate Stored()
      reads `history, stateDB`checkpoints
    {
      && startBlockNum > 0 && consts.Valid()
      && LinkedBlocks(history.blocks, startBlockNum)
      && Numbered(AllBatches())
      && AllPlaced(consts, history.blocks)
      && (history.blocks != [] ==> history.initial.Some?)
      && CheckpointsKept(AllBatches())
    }

    ghost function CurrentStage(): Stage
      reads `history, `resetStateFailed, stateDB`checkpoints
    {
      Stage(history, resetStateFailed, Restorable(stateDB.checkpoints, |AllBatches()|))
    }

    /** The ledger is the one after the last stored batch. */
    ghost predicate LedgerInStep(batches: seq<Batch>)
      reads stateDB
    {
      stateDB.currentBatch == |batches| && stateDB.content == LedgerAfter(batches)
    }

    /** The state is what a reset would compute from the database. */
    ghost predicate InStep()
      requires consts.Valid()
      reads `history, `vars, `lastBlock, `lastBatch, `lastL1BatchBlock, `lastForgeL1TxsNum, `currentSlot, stateDB
    {
      && history.initial.Some?
      && SameView(SyncView(), ResetView(history, initVars, LastBlock(history)))
      && LedgerInStep(AllBatches())
      && SlotInStep(consts, startBlockNum, history, initVars, currentSlot)
    }

    /** Holds before and after every call, whatever fails in it. */
    ghost predicate Valid()
      reads this, stateDB
    {
      Stored() && (!resetStateFailed ==> InStep())
    }

    // ---- Slots ----

    method UpdateCurrentSlot(reset: bool, hasBatch: bool, n: nat, fails: Faults) returns (ok: bool, slot: Slot)
      requires consts.Valid()
      ensures ok == !fails(SlotFails(n))
      ensures ok ==> slot == SlotToTrack(reset, hasBatch)
    {
      hide SlotNum, RelativeBlock;
      slot := currentSlot;
      var blockNum := lastBlock.num + 1;
      var slotNum := SlotNum(consts, blockNum);
      var syncLastBlockNum := lastBlock.num;
      var hasBatch' := hasBatch;
      if reset {
        if fails(SlotFails(n)) {
          return false, slot;
        }
        var first := FirstOfSlot(Batches(history.blocks), slotNum);
        hasBatch' := first.Some?;
        if first.Some? {
          syncLastBlockNum := first.value;
        }
        slot := slot.(forgerCommitment := false);
      } else if slotNum > slot.slotNum {
        slot := slot.(forgerCommitment := false);
      }
      var (startBlock, endBlock) := SlotBlocks(consts, slotNum);
      slot := slot.(slotNum := slotNum, startBlock := startBlock, endBlock := endBlock);
      if hasBatch' && RelativeBlock(consts, syncLastBlockNum) < Deadline(vars.auction) {
        slot := slot.(forgerCommitment := true);
      }
      // The check with the contract that the forger of the slot may forge.
      ok := !fails(SlotFails(n));
    }

    /** The slot after the last block, from the database or from the slot before. */
    ghost function SlotToTrack(reset: bool, hasBatch: bool): Slot
      requires consts.Valid()
      reads `currentSlot, `lastBlock, `vars, `history
    {
      var first := if reset then FirstOfSlot(Batches(history.blocks), SlotNum(consts, lastBlock.num + 1))
                   else if hasBatch then Some(lastBlock.num) else None;
      UpdatedSlot(consts, Deadline(vars.auction), currentSlot, lastBlock.num, reset, first)
    }

    /** The slot is replaced if nothing fails. */
    method UpdateSlots(reset: bool, hasBatch: bool, n: nat, fails: Faults) returns (ok: bool)
      requires consts.Valid()
      modifies `currentSlot
      ensures ok == !fails(SlotFails(n))
      ensures currentSlot == if ok then old(SlotToTrack(reset, hasBatch)) else old(currentSlot)
    {
      var slot;
      ok, slot := UpdateCurrentSlot(reset, hasBatch, n, fails);
      if ok {
        currentSlot := slot;
      }
    }

    // ---- Resetting ----

    /** The variables can be read, or the initial ones stored. */
    ghost predicate VarsPass(h: History, n: nat, fails: Faults) {
      !fails(GetSCVarsFails(n)) && !(GetSCVars(h).None? && fails(SetInitialFails(n)))
    }

    /** The checkpoint of the last stored batch is there and can be restored. */
    ghost predicate LedgerPasses(t: Stage, n: nat, fails: Faults) {
      !fails(GetLastBatchFails(n)) && !fails(ResetFails(n)) && (t.restorable == [] || t.restorable[|t.restorable| - 1])
    }

    ghost predicate ResetPasses(t: Stage, n: nat, fails: Faults) {
      && VarsPass(t.h, n, fails) && LedgerPasses(t, n, fails)
      && !fails(GetL1BlockFails(n)) && !fails(GetL1NumFails(n)) && !fails(SlotFails(n))
    }

    /** A reset stores the initial variables if there are none, and notes whether it failed. */
    ghost function AfterReset(t: Stage, n: nat, fails: Faults): Stage {
      t.(h := if VarsPass(t.h, n, fails) then WithVars(t.h, initVars) else t.h, failed := !ResetPasses(t, n, fails))
    }

    /** A repair is a reset, but if the last block cannot be read it is nothing. */
    ghost function AfterRepair(t: Stage, n: nat, fails: Faults): Stage {
      if fails(GetLastBlockFails(n)) then t else AfterReset(t, n, fails)
    }

    /** Reads the variables, or stores the initial ones. */
    method ResetVars(n: nat, fails: Faults) returns (ok: bool)
      requires Stored()
      modifies `history, `vars
      ensures ok == old(VarsPass(history, n, fails))
      ensures history == if ok then WithVars(old(history), initVars) else old(history)
      ensures vars == if ok then VarsOf(old(history), initVars) else old(vars)
      ensures Stored() && consts.Valid() && history.blocks == old(history.blocks)
      ensures ok ==> history.initial.Some? && GetSCVars(history) == Some(vars)
    {
      hide Numbered, LinkedBlocks, AllPlaced, Batches, CheckpointsKept, GetSCVars;
      if fails(GetSCVarsFails(n)) {
        return false;
      }
      var stored := GetSCVars(history);
      if stored.None? {
        if fails(SetInitialFails(n)) {
          return false;
        }
        NoVarsNoBlocks(history);
        history := history.(initial := Some(initVars));
        vars := initVars;
        FirstVars(history, initVars);
      } else {
        vars := stored.value;
        VarsAreThere(history);
      }
      ok := true;
    }

    /** Goes back to the checkpoint of the last stored batch. */
    method ResetLedger(n: nat, fails: Faults) returns (ok: bool, last: Batch)
      requires Stored()
      modifies stateDB
      ensures Stored()
      ensures ok == LedgerPasses(old(CurrentStage()), n, fails) && CurrentStage() == old(CurrentStage())
      ensures ok ==> LedgerInStep(AllBatches())
      ensures ok ==> last == var b := GetLastBatch(history); if b.Some? then b.value else NO_BATCH
    {
      hide Numbered, LinkedBlocks, AllPlaced, Batches, LedgerAfter, GetLastBatch;
      last := NO_BATCH;
      if fails(GetLastBatchFails(n)) {
        return false, last;
      }
      LastBatchIs(history);
      var batch := GetLastBatch(history);
      last := if batch.Some? then batch.value else NO_BATCH;
      LastNumber(AllBatches());
      if fails(ResetFails(n)) {
        return false, last;
      }
      ok := stateDB.Reset(last.batchNum);
      RestoredLedger(AllBatches());
    }

    /** Computes the state from the database, as far as nothing fails. */
    method ResetState(block: Block, n: nat, fails: Faults) returns (ok: bool)
      requires Stored() && block == LastBlock(history)
      modifies this, stateDB
      ensures Stored() && history.blocks == old(history.blocks) && resetStateFailed == old(resetStateFailed)
      ensures ok == ResetPasses(old(CurrentStage()), n, fails)
      ensures CurrentStage() == AfterReset(old(CurrentStage()), n, fails).(failed := resetStateFailed)
      ensures ok ==> InStep() && history == WithVars(old(history), initVars)
                     && currentSlot == ResetSlot(consts, history, initVars)
      ensures !ok ==> currentSlot == old(currentSlot)
    {
      hide Numbered, LinkedBlocks, AllPlaced, Batches, LedgerAfter;
      hide GetLastBatch, GetLastL1BatchBlockNum, GetLastL1TxsNum, GetSCVars, FirstOfSlot, SlotNum;
      hide RelativeBlock, UpdatedSlot, InStep, ResetSlot, Restorable, WithVars, Stored;
      ok := ResetVars(n, fails);
      if !ok {
        return;
      }
      var last;
      ok, last := ResetLedger(n, fails);
      if !ok {
        return;
      }
      if fails(GetL1BlockFails(n)) {
        return false;
      }
      var l1Block := GetLastL1BatchBlockNum(history);
      if fails(GetL1NumFails(n)) {
        return false;
      }
      var l1Num := GetLastL1TxsNum(history);
      lastBlock := block;
      lastBatch := last;
      lastL1BatchBlock := if l1Block.Some? then l1Block.value else 0;
      lastForgeL1TxsNum := if l1Num.Some? then l1Num.value else -1;
      ResetSlotFromAny(consts, history, initVars, currentSlot);
      ok := UpdateSlots(true, false, n, fails);
      if ok {
        ResetIsInStep();
      }
    }

    /** What is read from the database is in step with it. */
    lemma ResetIsInStep()
      requires consts.Valid() && history.initial.Some? && LedgerInStep(AllBatches())
      requires SyncView() == ResetView(history, initVars, LastBlock(history))
      requires currentSlot == ResetSlot(consts, history, initVars)
      ensures InStep()
    {
      hide ResetSlot, ResetView, LedgerAfter, Batches;
      ResetSlotInStep(consts, startBlockNum, history, initVars);
    }

    /**
     Repairs the state from the database. When the last block cannot be read nothing happens, and
     `resetStateFailed` is not set either.
     */
    method ResetIntermediateState(n: nat, fails: Faults) returns (ok: bool)
      requires Stored()
      modifies this, stateDB
      ensures Stored() && history.blocks == old(history.blocks)
      ensures ok == (!fails(GetLastBlockFails(n)) && ResetPasses(old(CurrentStage()), n, fails))
      ensures CurrentStage() == AfterRepair(old(CurrentStage()), n, fails)
      ensures fails(GetLastBlockFails(n)) ==>
        resetStateFailed == old(resetStateFailed) && history == old(history) && InStep() == old(InStep())
      ensures !fails(GetLastBlockFails(n)) ==> Valid() && resetStateFailed == !ok
      ensures ok ==> history == WithVars(old(history), initVars) && currentSlot == ResetSlot(consts, history, initVars)
    {
      hide Stored, InStep, ResetPasses;
      if fails(GetLastBlockFails(n)) {
        return false;
      }
      var last := LastBlock(history);
      ok := ResetState(last, n, fails);
      resetStateFailed := !ok;
    }

    // ---- Synchronizing the contracts ----

    /** The batches after the `n`-th up to the current one have got checkpoints. */
    ghost predicate AddsCheckpoints(before: Checkpoints, n: nat)
      reads stateDB
    {
      && n <= stateDB.currentBatch
      && forall b: nat :: b in stateDB.checkpoints <==> b in before || n < b <= stateDB.currentBatch
    }

    /** Executes the txs of a batch on the ledger. */
    method ProcessTxs(batch: Batch, ghost before: seq<Batch>) returns (err: Option<Error>)
      requires LedgerInStep(before) && CheckpointsKept(before)
      modifies stateDB
      ensures CheckpointsKept(before)
      ensures var s := ExecutedStep(old(stateDB.content), batch); stateDB.content == s.p.st && err == s.err
      ensures stateDB.currentBatch == if err.None? then |before| + 1 else |before|
      ensures stateDB.checkpoints == if err.Some? then old(stateDB.checkpoints)
                                     else old(stateDB.checkpoints)[|before| + 1 := stateDB.content]
    {
      hide LedgerAfter, Effects.ProcessTxs;
      var tp := new TxProcessor.TxProcessor(Effects.Synchronizer, stateDB, batch.cfg);
      var out, inputs;
      err, out, inputs := tp.ProcessTxs(batch.feeIdxs, batch.l1UserTxs, batch.l1CoordinatorTxs, batch.l2Txs);
    }

    /** What a forge event says of its batch, with the txs that it executes; fails for txs without a type. */
    method ReadBatch(cb: ChainBlock, i: nat, next: int, fails: Faults) returns (ok: bool, batch: Batch)
      requires consts.Valid() && i < |cb.forgeBatch|
      ensures ok == Readable(cb.forgeBatch[i], i, fails)
      ensures ok ==> batch == BatchOf(consts, history.blocks, cb, cb.forgeBatch[i], next)
    {
      hide SlotNum;
      batch := NO_BATCH;
      var evt, blockNum := cb.forgeBatch[i], cb.block.num;
      if fails(ForgeArgsFail(i)) || (evt.l1Batch && fails(UnforgedFails(i))) {
        return false, batch;
      }
      var l1UserTxs: seq<L1Tx> := [];
      if evt.l1Batch {
        l1UserTxs := ToForge(history.blocks, next, cb.l1UserTxs);
      }
      if fails(CoordinatorTxsFail(i)) || exists tx :: tx in evt.l1CoordinatorTxs && L1Type(tx).Err? {
        return false, batch;
      }
      var l1CoordinatorTxs := CoordinatorTxs(evt.l1CoordinatorTxs, |l1UserTxs|);
      if fails(L2TypesFail(i)) || exists tx :: tx in evt.l2TxsData && L2Type(tx.toIdx).Err? {
        return false, batch;
      }
      var l2Txs := seq(|evt.l2TxsData|, k requires 0 <= k < |evt.l2TxsData| => Rebuild.Rebuilt(evt.l2TxsData[k]));
      batch := Batch(evt.batchNum, evt.ethTxHash, blockNum, if evt.l1Batch then Some(next) else None,
                     SlotOf(consts, blockNum), evt.cfg, evt.feeIdxCoordinator, l1UserTxs, l1CoordinatorTxs, l2Txs);
      ok := true;
    }

    /** The ledger is where some progress has brought it. */
    ghost predicate StandsAt(p: Progress)
      reads stateDB
    {
      stateDB.content == p.st && stateDB.currentBatch == p.current
    }

    /** Executes one batch of a block behind those before; what it leaves is the step of the block. */
    method ForgeBatch(cb: ChainBlock, i: nat, next: int, ghost p: Progress, fails: Faults)
      returns (ok: bool, batch: Batch)
      requires consts.Valid() && i < |cb.forgeBatch| && p.ok && StandsAt(p)
      requires var before := AllBatches() + p.batches;
               Numbered(before) && LedgerInStep(before) && CheckpointsKept(before) && next == |L1Batches(before)|
      requires next == NextNum(history.blocks, p.batches)
      modifies stateDB
      ensures var after := ForgeStep(consts, history.blocks, cb, p, i, fails);
              StandsAt(after) && ok == after.ok && (ok ==> after.batches == p.batches + [batch])
      ensures CheckpointsKept(AllBatches() + p.batches) && AddsCheckpoints(old(stateDB.checkpoints), p.current)
      ensures var after := AllBatches() + p.batches + [batch];
              ok ==> LedgerInStep(after) && CheckpointsKept(after) && Numbered(after)
      ensures ok ==> batch == BatchOf(consts, history.blocks, cb, cb.forgeBatch[i], next)
    {
      hide Numbered, L1Batches, Batches, LedgerAfter, ExecutedStep, BatchOf, Readable;
      ghost var before := AllBatches() + p.batches;
      ok, batch := ReadBatch(cb, i, next, fails);
      if !ok {
        return;
      }
      var evt := cb.forgeBatch[i];
      BatchFields(consts, history.blocks, cb, evt, next);
      var err := ProcessTxs(batch, before);
      if err.Some? || stateDB.currentBatch != evt.batchNum || stateDB.content.accounts != evt.newStRoot ||
         fails(BatchFails(i)) {
        return false, batch;
      }
      AppendBatch(before, batch);
      forall b | 1 <= b <= |before| ensures (before + [batch])[..b] == before[..b] {
      }
      assert (before + [batch])[..|before| + 1] == before + [batch];
    }

    /** The batches of a block, one after the other. */
    method ForgeBatches(cb: ChainBlock, fails: Faults) returns (ok: bool, batches: seq<Batch>)
      requires Stored() && LedgerInStep(AllBatches())
      modifies stateDB
      ensures CheckpointsKept(AllBatches()) && AddsCheckpoints(old(stateDB.checkpoints), |AllBatches()|)
      ensures var p := ForgeAll(consts, history.blocks, cb, old(stateDB.content), old(stateDB.currentBatch), fails);
              StandsAt(p) && ok == p.ok && (ok ==> batches == p.batches)
      ensures ok ==> Numbered(AllBatches() + batches) && LedgerInStep(AllBatches() + batches)
                     && CheckpointsKept(AllBatches() + batches)
      ensures ok ==> PlacedIn(consts, cb.block, batches)
    {
      hide Numbered, LedgerAfter, LinkedBlocks, Batches, L1Batches, GreatestL1TxsNum, ForgeStep, BatchOf;
      batches := [];
      if fails(NextL1NumFails) {
        return false, batches;
      }
      ghost var all, blocks := AllBatches(), history.blocks;
      ghost var p0 := Progress(stateDB.content, stateDB.currentBatch, [], true);
      var last := GetLastL1TxsNum(history);
      var next := if last.Some? then last.value + 1 else 0;
      NextNumIs(blocks, []);
      assert all + batches == all;
      for i := 0 to |cb.forgeBatch|
        invariant Numbered(all + batches) && LedgerInStep(all + batches) && CheckpointsKept(all + batches)
                  && CheckpointsKept(all)
        invariant next == |L1Batches(all + batches)| == NextNum(blocks, batches)
        invariant ForgeSteps(consts, blocks, cb, p0, i, fails)
                  == Progress(stateDB.content, stateDB.currentBatch, batches, true)
        invariant PlacedIn(consts, cb.block, batches)
        invariant AddsCheckpoints(old(stateDB.checkpoints), |all|)
      {
        ghost var p := Progress(stateDB.content, stateDB.currentBatch, batches, true);
        var batch;
        ok, batch := ForgeBatch(cb, i, next, p, fails);
        assert ForgeSteps(consts, blocks, cb, p0, i + 1, fails) == ForgeStep(consts, blocks, cb, p, i, fails);
        KeptOfLonger(all, batches);
        if !ok {
          ForgeStops(consts, blocks, cb, p0, i + 1, |cb.forgeBatch|, fails);
          return;
        }
        BatchFields(consts, blocks, cb, cb.forgeBatch[i], next);
        L1BatchesNext(all + batches, batch);
        assert all + batches + [batch] == all + (batches + [batch]);
        batches := batches + [batch];
        NextNumIs(blocks, batches);
        KeptOfLonger(all, batches);
        if cb.forgeBatch[i].l1Batch {
          next := next + 1;
        }
      }
      ok := true;
    }

    /** Checkpoints that are right for a longer list are right for a shorter one. */
    lemma KeptOfLonger(before: seq<Batch>, more: seq<Batch>)
      requires CheckpointsKept(before + more)
      ensures CheckpointsKept(before)
    {
      hide LedgerAfter;
      forall b | 1 <= b <= |before| ensures (before + more)[..b] == before[..b] {
      }
    }

    method UpdateRollupVars(updates: seq<(string, int)>, blockNum: int, fails: Faults)
      returns (ok: bool, stored: Option<ContractVars>)
      modifies `vars
      ensures vars == old(vars).(rollup := Reached(old(vars.rollup), updates, blockNum, RollupFault(fails)))
      ensures ok == Completes(updates, RollupFault(fails))
      ensures ok ==> stored == Updated(old(vars.rollup), updates, blockNum).1
    {
      stored := None;
      for i := 0 to |updates|
        invariant vars == old(vars).(rollup := old(vars.rollup).(values := Applied(old(vars.rollup.values), updates[..i])))
        invariant forall j: nat :: j < i ==> !RollupFault(fails)(j)
      {
        assert updates[..i + 1][..i] == updates[..i];
        if fails(RollupUpdateFails(i)) {
          FirstFailureIs(|updates|, RollupFault(fails), i);
          return false, stored;
        }
        vars := vars.(rollup := vars.rollup.(values := vars.rollup.values[updates[i].0 := updates[i].1]));
      }
      assert updates[..|updates|] == updates;
      if |updates| > 0 {
        vars := vars.(rollup := vars.rollup.(ethBlockNum := blockNum));
        stored := Some(vars.rollup);
      }
      ok := true;
    }

    method UpdateAuctionVars(updates: seq<(string, int)>, blockNum: int, fails: Faults)
      returns (ok: bool, stored: Option<ContractVars>)
      modifies `vars
      ensures vars == old(vars).(auction := Reached(old(vars.auction), updates, blockNum, AuctionFault(fails)))
      ensures ok == Completes(updates, AuctionFault(fails))
      ensures ok ==> stored == Updated(old(vars.auction), updates, blockNum).1
    {
      stored := None;
      for i := 0 to |updates|
        invariant vars == old(vars).(auction := old(vars.auction).(values :=
                               Applied(old(vars.auction.values), updates[..i])))
        invariant forall j: nat :: j < i ==> !AuctionFault(fails)(j)
      {
        assert updates[..i + 1][..i] == updates[..i];
        if fails(AuctionUpdateFails(i)) {
          FirstFailureIs(|updates|, AuctionFault(fails), i);
          return false, stored;
        }
        vars := vars.(auction := vars.auction.(values := vars.auction.values[updates[i].0 := updates[i].1]));
      }
      assert updates[..|updates|] == updates;
      if |updates| > 0 {
        vars := vars.(auction := vars.auction.(ethBlockNum := blockNum));
        stored := Some(vars.auction);
      }
      ok := true;
    }

    method UpdateWDelayerVars(updates: seq<(string, int)>, blockNum: int, fails: Faults)
      returns (ok: bool, stored: Option<ContractVars>)
      modifies `vars
      ensures vars == old(vars).(wDelayer := Reached(old(vars.wDelayer), updates, blockNum, WDelayerFault(fails)))
      ensures ok == Completes(updates, WDelayerFault(fails))
      ensures ok ==> stored == Updated(old(vars.wDelayer), updates, blockNum).1
    {
      stored := None;
      for i := 0 to |updates|
        invariant vars == old(vars).(wDelayer := old(vars.wDelayer).(values :=
                               Applied(old(vars.wDelayer.values), updates[..i])))
        invariant forall j: nat :: j < i ==> !WDelayerFault(fails)(j)
      {
        assert updates[..i + 1][..i] == updates[..i];
        if fails(WDelayerUpdateFails(i)) {
          FirstFailureIs(|updates|, WDelayerFault(fails), i);
          return false, stored;
        }
        vars := vars.(wDelayer := vars.wDelayer.(values := vars.wDelayer.values[updates[i].0 := updates[i].1]));
      }
      assert updates[..|updates|] == updates;
      if |updates| > 0 {
        vars := vars.(wDelayer := vars.wDelayer.(ethBlockNum := blockNum));
        stored := Some(vars.wDelayer);
      }
      ok := true;
    }

    /** What reading the next block leaves, from the stored blocks. */
    ghost function Reads(h: History, cb: ChainBlock, fails: Faults): Reading
      requires consts.Valid()
    {
      var all := Batches(h.blocks);
      BlockSteps.ReadBlock(consts, h.blocks, cb, LedgerAfter(all), |all|, VarsOf(h, initVars), fails)
    }

    lemma VarsOfInStep()
      requires consts.Valid() && InStep()
      ensures history.initial.Some? && VarsOf(history, initVars) == vars && WithVars(history, initVars) == history
    {
      hide GetLastBatch, GetLastL1BatchBlockNum, GetLastL1TxsNum, LedgerAfter, SlotInStep, Batches;
    }

    /** Reads everything that happened in a block, while the state moves on with it. */
    method ReadBlock(cb: ChainBlock, fails: Faults) returns (ok: bool, data: BlockData)
      requires Stored() && InStep()
      modifies `vars, stateDB
      ensures Stored() && AddsCheckpoints(old(stateDB.checkpoints), |AllBatches()|)
      ensures var r := Reads(history, cb, fails);
              && stateDB.content == r.st && stateDB.currentBatch == r.current && vars == r.vars
              && ok == r.data.Some? && (ok ==> r.data == Some(data))
      ensures ok ==>
        && data.block == cb.block && PlacedIn(consts, data.block, data.batches)
        && Numbered(AllBatches() + data.batches) && LedgerInStep(AllBatches() + data.batches)
        && CheckpointsKept(AllBatches() + data.batches)
        && vars == VarsAfter(old(vars), data)
    {
      hide Numbered, LedgerAfter, LinkedBlocks, AllPlaced, PlacedIn, Batches, GetSCVars, CheckpointsKept;
      hide GetLastBatch, GetLastL1BatchBlockNum, GetLastL1TxsNum, SlotInStep, ForgeAll, FirstFailure, Applied;
      data := BlockData(cb.block, [], cb.l1UserTxs, None, None, None);
      if fails(RollupEventsFail) || fails(L1UserTxsFail) {
        return false, data;
      }
      var batches, rollupVars, auctionVars, wDelayerVars;
      ok, batches := ForgeBatches(cb, fails);
      if !ok {
        return;
      }
      ok, rollupVars := UpdateRollupVars(cb.rollupUpdates, cb.block.num, fails);
      if !ok || fails(AuctionEventsFail) {
        return false, data;
      }
      ok, auctionVars := UpdateAuctionVars(cb.auctionUpdates, cb.block.num, fails);
      if !ok || fails(WDelayerEventsFail) {
        return false, data;
      }
      ok, wDelayerVars := UpdateWDelayerVars(cb.wDelayerUpdates, cb.block.num, fails);
      if !ok || fails(WithdrawalsFail) {
        return false, data;
      }
      data := BlockData(cb.block, batches, cb.l1UserTxs, rollupVars, auctionVars, wDelayerVars);
    }

    /** Notes the last block and, if it has batches, the last one and the last one that forged a queue. */
    method UpdateSync(data: BlockData)
      modifies `lastBlock, `lastBatch, `lastL1BatchBlock, `lastForgeL1TxsNum
      ensures SyncView() == NextView(old(SyncView()), vars, data)
    {
      lastBlock := data.block;
      if data.batches != [] {
        var l1: Option<Batch> := None;
        for i := 0 to |data.batches|
          invariant var found := L1Batches(data.batches[..i]);
                    && l1 == (if found == [] then None else Some(found[|found| - 1]))
                    && (l1.Some? ==> l1.value.forgeL1TxsNum.Some?)
        {
          assert data.batches[..i + 1][..i] == data.batches[..i];
          if data.batches[i].forgeL1TxsNum.Some? {
            l1 := Some(data.batches[i]);
          }
        }
        assert data.batches[..|data.batches|] == data.batches;
        lastBatch := data.batches[|data.batches| - 1];
        if l1.Some? {
          lastL1BatchBlock := l1.value.ethBlockNum;
          lastForgeL1TxsNum := l1.value.forgeL1TxsNum.value;
        }
      }
    }

    /** Nothing fails until the block is stored. */
    ghost predicate AddsBlock(h: History, cb: ChainBlock, fails: Faults)
      requires consts.Valid()
    {
      Reads(h, cb, fails).data.Some? && !fails(AddBlockFails)
    }

    /**
     Something fails in a block after a change that matters: before the block is stored that is a
     batch that was executed or a variable that was updated, and afterwards the slot that the next
     block lies in.
     */
    ghost predicate FailsAfterChange(h: History, cb: ChainBlock, fails: Faults)
      requires consts.Valid()
    {
      var all := Batches(h.blocks);
      if AddsBlock(h, cb, fails) then
        fails(SlotFails(AFTER_STORING))
        && SlotChanges(consts, startBlockNum, WithVars(h, initVars), initVars, Reads(h, cb, fails).data.value)
      else
        ReadingMoves(consts, h.blocks, cb, LedgerAfter(all), |all|, VarsOf(h, initVars), fails)
    }

    ghost function AfterStoring(t: Stage, data: BlockData): Stage {
      Stage(AddBlock(t.h, data), t.failed, t.restorable + seq(|data.batches|, _ => true))
    }

    ghost function AfterBlock(t: Stage, cb: ChainBlock, fails: Faults): Stage
      requires consts.Valid()
    {
      if AddsBlock(t.h, cb, fails) then AfterStoring(t, Reads(t.h, cb, fails).data.value) else t
    }

    /** Synchronizes one block that follows the last stored one. */
    method SyncBlock(cb: ChainBlock, fails: Faults) returns (ok: bool, data: BlockData)
      requires Stored() && InStep() && Follows(history.blocks, startBlockNum, cb.block)
      modifies this, stateDB
      ensures Stored() && CurrentStage() == AfterBlock(old(CurrentStage()), cb, fails)
      ensures ok == (AddsBlock(old(history), cb, fails) && !fails(SlotFails(AFTER_STORING)))
      ensures ok ==> Some(data) == Reads(old(history), cb, fails).data && data.block == cb.block
      ensures currentSlot == if ok then NextSlotOf(consts, Deadline(vars.auction), old(currentSlot), data)
                             else old(currentSlot)
      ensures InStep() <==> !FailsAfterChange(old(history), cb, fails)
      ensures ok ==> InStep()
    {
      hide Numbered, LedgerAfter, LinkedBlocks, AllPlaced, PlacedIn, Batches, GetSCVars, CheckpointsKept;
      hide GetLastBatch, GetLastL1BatchBlockNum, GetLastL1TxsNum, SlotInStep, BlockSteps.ReadBlock;
      hide ReadingMoves, SlotChanges, UpdatedSlot;
      VarsOfInStep();
      ReadingMovesIff(consts, history.blocks, cb, LedgerAfter(AllBatches()), |AllBatches()|, vars, fails);
      ok, data := ReadBlock(cb, fails);
      if !ok || fails(AddBlockFails) {
        return false, data;
      }
      ghost var h, v, slot := history, old(SyncView()), currentSlot;
      BatchesNext(h.blocks, data);
      LinkNext(h.blocks, startBlockNum, data);
      PlacedNext(consts, h.blocks, data);
      NextViewIsReset(h, initVars, v, data);
      LastOfAdded(h, data);
      StaleSlot(consts, startBlockNum, h, initVars, data, slot);
      NextSlotInStep(consts, startBlockNum, h, initVars, data, slot);
      history := AddBlock(history, data);
      UpdateSync(data);
      SameNext(v, SyncView(), vars, data);
      VarsNext(h, data);
      ok := UpdateSlots(false, data.batches != [], AFTER_STORING, fails);
    }

    // ---- Reorganizations ----

    /** Walks back to the highest stored block that is on the chain, or to the first one. */
    method FindValidBlock(uncleBlock: Block, chain: Chain, fails: Faults) returns (ok: bool, block: Block)
      requires startBlockNum > 0 && LinkedBlocks(history.blocks, startBlockNum)
      requires history.blocks != [] && uncleBlock == LastBlock(history)
      ensures ok == WalkPasses(history.blocks, chain, fails)
      ensures ok ==> block == history.blocks[Kept(history.blocks, chain)].block
    {
      hide LinkedBlocks, Kept, WalkPasses, FindBlock;
      var blockNum := uncleBlock.num;
      block := uncleBlock;
      ghost var blocks := history.blocks;
      FindsAll(blocks, startBlockNum);
      LastNum(history, startBlockNum);
      assert blocks[..|blocks|] == blocks;
      while blockNum >= startBlockNum
        invariant startBlockNum - 1 <= blockNum < startBlockNum + |blocks|
        invariant SeesFrom(blocks, blockNum - startBlockNum + 1, chain, fails)
        invariant blockNum < startBlockNum ==> Kept(blocks, chain) == 0 && block == blocks[0].block
        invariant blockNum >= startBlockNum ==> Kept(blocks, chain) == Kept(blocks[..blockNum - startBlockNum + 1], chain)
        decreases blockNum
      {
        ghost var k := blockNum - startBlockNum;
        FoundAt(blocks, startBlockNum, k);
        KeptStep(blocks, chain, k);
        if fails(FetchFails(blockNum)) || blockNum !in chain {
          WalkStops(blocks, chain, fails, k);
          return false, block;
        }
        var found := GetBlock(history, blockNum);
        if fails(GetBlockFails(blockNum)) || found.None? {
          WalkStops(blocks, chain, fails, k);
          return false, block;
        }
        block := found.value;
        SeesOne(blocks, k, chain, fails);
        if block.hash == chain[blockNum].block.hash {
          WalkEnds(blocks, chain, fails, k);
          return true, block;
        }
        blockNum := blockNum - 1;
      }
      WalkEnds(blocks, chain, fails, 0);
      ok := true;
    }

    /** The blocks after the one that is kept are dropped, with their batches. */
    ghost function Truncated(t: Stage, chain: Chain): Stage
      requires t.h.blocks != []
    {
      var h := t.h.(blocks := t.h.blocks[..Kept(t.h.blocks, chain) + 1]);
      var n := |Batches(h.blocks)|;
      t.(h := h, restorable := if n <= |t.restorable| then t.restorable[..n] else t.restorable)
    }

    ghost predicate ReorgPasses(t: Stage, chain: Chain, fails: Faults) {
      && WalkPasses(t.h.blocks, chain, fails) && !fails(ReorgFails) && t.h.blocks != []
      && ResetPasses(Truncated(t, chain), IN_REORG, fails)
    }

    ghost function AfterReorg(t: Stage, chain: Chain, fails: Faults): Stage {
      if WalkPasses(t.h.blocks, chain, fails) && !fails(ReorgFails) && t.h.blocks != [] then
        AfterReset(Truncated(t, chain), IN_REORG, fails)
      else t
    }

    /** Drops every block after the highest stored one that is on the chain. */
    method Reorg(uncleBlock: Block, chain: Chain, fails: Faults) returns (ok: bool, num: int)
      requires Stored() && InStep() && !resetStateFailed && history.blocks != [] && uncleBlock == LastBlock(history)
      modifies this, stateDB
      ensures Valid() && ok == ReorgPasses(old(CurrentStage()), chain, fails)
      ensures CurrentStage() == AfterReorg(old(CurrentStage()), chain, fails)
      ensures ok ==> !resetStateFailed && num == startBlockNum + Kept(old(history.blocks), chain)
                     && history.blocks == old(history.blocks)[..Kept(old(history.blocks), chain) + 1]
    {
      hide Numbered, LedgerAfter, AllPlaced, Batches, GetSCVars, ResetPasses, InStep, CheckpointsKept;
      hide ResetSlot, WalkPasses, Kept, UpTo, VarsPass, WithVars, Restorable;
      var block;
      ok, block := FindValidBlock(uncleBlock, chain, fails);
      num := block.num;
      if !ok || fails(ReorgFails) {
        return false, num;
      }
      ghost var t, blocks, kept := CurrentStage(), history.blocks, Kept(history.blocks, chain);
      PrefixStored(consts, blocks, startBlockNum, kept + 1);
      UpToIsPrefix(blocks, startBlockNum, block.num);
      BatchesPrefix(blocks, kept + 1);
      history := HistoryDB.Reorg(history, block.num);
      ShorterKept(Batches(blocks), Batches(history.blocks));
      FewerRestorable(stateDB.checkpoints, |Batches(blocks)|, |Batches(history.blocks)|);
      assert CurrentStage() == Truncated(t, chain);
      ok := ResetState(block, IN_REORG, fails);
      resetStateFailed := !ok;
    }

    lemma ShorterKept(batches: seq<Batch>, prefix: seq<Batch>)
      requires CheckpointsKept(batches) && prefix <= batches
      ensures CheckpointsKept(prefix)
    {
      assert batches == prefix + batches[|prefix|..];
      KeptOfLonger(prefix, batches[|prefix|..]);
    }

    // ---- The whole call ----

    /** A call first repairs what an earlier one has noted. */
    ghost function Repaired(t: Stage, fails: Faults): Stage {
      if t.failed then AfterRepair(t, AT_START, fails) else t
    }

    /** A call comes to asking the chain for the next block; `fromDB` is set if it reads the last one first. */
    ghost predicate Asks(t: Stage, fromDB: bool, fails: Faults) {
      && !Repaired(t, fails).failed && !(fromDB && fails(GetLastBlockFails(FOR_LAST_SAVED)))
      && !fails(FetchFails(Next(t.h.blocks, startBlockNum)))
    }

    /** A call finds the next block of the chain. */
    ghost predicate Finds(t: Stage, fromDB: bool, chain: Chain, fails: Faults) {
      Asks(t, fromDB, fails) && Next(t.h.blocks, startBlockNum) in chain && !fails(UpdateEthFails)
    }

    /** A call finds no next block. */
    ghost predicate FindsNone(t: Stage, fromDB: bool, chain: Chain, fails: Faults) {
      Asks(t, fromDB, fails) && Next(t.h.blocks, startBlockNum) !in chain
    }

    /** The next block follows the last one. */
    ghost predicate Continues(t: Stage, fromDB: bool, chain: Chain, fails: Faults) {
      && Finds(t, fromDB, chain, fails)
      && Follows(t.h.blocks, startBlockNum, chain[Next(t.h.blocks, startBlockNum)].block)
    }

    /** The next block does not follow the last one. */
    ghost predicate Diverges(t: Stage, fromDB: bool, chain: Chain, fails: Faults) {
      && Finds(t, fromDB, chain, fails)
      && !Follows(t.h.blocks, startBlockNum, chain[Next(t.h.blocks, startBlockNum)].block)
    }

    /** A call stores the next block of the chain, and nothing fails afterwards. */
    ghost predicate Stores(t: Stage, fromDB: bool, chain: Chain, fails: Faults)
      requires consts.Valid()
    {
      && Continues(t, fromDB, chain, fails) && !fails(SlotFails(AFTER_STORING))
      && AddsBlock(t.h, chain[Next(t.h.blocks, startBlockNum)], fails)
    }

    /** A call undoes blocks, and nothing fails in it. */
    ghost predicate Reverts(t: Stage, fromDB: bool, chain: Chain, fails: Faults) {
      Diverges(t, fromDB, chain, fails) && ReorgPasses(Repaired(t, fails), chain, fails)
    }

    /** A block fails after a change, and the last block cannot be read to undo that. */
    ghost predicate LosesStep(t: Stage, fromDB: bool, chain: Chain, fails: Faults)
      requires consts.Valid()
    {
      && Continues(t, fromDB, chain, fails) && fails(GetLastBlockFails(AFTER_ERROR))
      && FailsAfterChange(t.h, chain[Next(t.h.blocks, startBlockNum)], fails)
    }

    /** What a call leaves, whatever fails in it. */
    ghost function AfterCall(t: Stage, fromDB: bool, chain: Chain, fails: Faults): Stage
      requires consts.Valid()
    {
      var r := Repaired(t, fails);
      if Continues(t, fromDB, chain, fails) then
        var after := AfterBlock(r, chain[Next(t.h.blocks, startBlockNum)], fails);
        if Stores(t, fromDB, chain, fails) then after else AfterRepair(after, AFTER_ERROR, fails)
      else if Diverges(t, fromDB, chain, fails) then AfterReorg(r, chain, fails)
      else r
    }

    /** The slot from which a call goes on: it is computed again after a failed reset. */
    ghost function SlotBefore(): Slot
      requires consts.Valid()
      reads `history, `resetStateFailed, `currentSlot
    {
      if resetStateFailed then ResetSlot(consts, history, initVars) else currentSlot
    }

    /**
     Synchronizes the block after the last stored one, or undoes blocks that are no longer on the
     chain. If something fails, the state is reset to the stored blocks. It ends out of step with them
     and does not know it exactly when it loses its step.
     */
    method Sync(lastSavedBlock: Option<Block>, chain: Chain, fails: Faults)
      returns (ok: bool, blockData: Option<BlockData>, discarded: Option<int>)
      requires Valid() && IsChain(chain)
      requires lastSavedBlock.Some? ==> history.blocks != [] && lastSavedBlock.value == LastBlock(history)
      modifies this, stateDB
      ensures Stored()
      ensures var t, fromDB := old(CurrentStage()), lastSavedBlock.None?;
              && CurrentStage() == AfterCall(t, fromDB, chain, fails)
              && (!resetStateFailed && !InStep() <==> LosesStep(t, fromDB, chain, fails))
              && (ok && blockData.Some? <==> Stores(t, fromDB, chain, fails))
              && (ok && discarded.Some? <==> Reverts(t, fromDB, chain, fails))
              && (ok && blockData.None? && discarded.None? <==> FindsNone(t, fromDB, chain, fails))
      ensures ok ==> Valid() && !resetStateFailed
      ensures ok && blockData.Some? ==>
        && blockData == Reads(old(history), chain[Next(old(history.blocks), startBlockNum)], fails).data
        && currentSlot == NextSlotOf(consts, Deadline(vars.auction), old(SlotBefore()), blockData.value)
      ensures blockData.None? || discarded.None?
      ensures ok && blockData.Some? ==> history == AddBlock(WithVars(old(history), initVars), blockData.value)
                                        && blockData.value.block == chain[Next(old(history.blocks), startBlockNum)].block
      ensures ok && discarded.Some? ==> (
        && old(history.blocks) != []
        && history.blocks == old(history.blocks)[..Kept(old(history.blocks), chain) + 1]
        && discarded.value == |old(history.blocks)| - |history.blocks|)
      ensures ok && blockData.None? && discarded.None? ==> history.blocks == old(history.blocks)
    {
      hide Numbered, LedgerAfter, AllPlaced, Batches, GetSCVars, LedgerInStep, CheckpointsKept, ResetPasses;
      hide AddsBlock, FailsAfterChange;
      hide Reads, InStep, ResetSlot, NextSlotOf, Deadline, ReorgPasses, WalkPasses, Kept, AfterReorg, Restorable;
      blockData, discarded := None, None;
      ghost var h := history;
      if resetStateFailed {
        ok := ResetIntermediateState(AT_START, fails);
        if !ok {
          return;
        }
      } else {
        VarsOfInStep();
      }
      var last := lastSavedBlock;
      LastNum(history, startBlockNum);
      if last.None? {
        if fails(GetLastBlockFails(FOR_LAST_SAVED)) {
          return false, blockData, discarded;
        }
        var stored := LastBlock(history);
        if stored.num != 0 {
          last := Some(stored);
        }
      }
      var nextBlockNum := if last.None? then startBlockNum else last.value.num + 1;
      if last.Some? && last.value.num < startBlockNum {
        return false, blockData, discarded;
      }
      if fails(FetchFails(nextBlockNum)) {
        return false, blockData, discarded;
      }
      if nextBlockNum !in chain {
        return true, blockData, discarded;
      }
      var cb := chain[nextBlockNum];
      if fails(UpdateEthFails) {
        return false, blockData, discarded;
      }
      if last.Some? && last.value.hash != cb.block.parentHash {
        var num;
        ok, num := Reorg(last.value, chain, fails);
        if ok {
          discarded := Some(last.value.num - num);
        }
        return ok, None, discarded;
      }
      SameAfterReset(h, cb, fails);
      var data;
      ok, data := SyncBlock(cb, fails);
      if !ok {
        var done := ResetIntermediateState(AFTER_ERROR, fails);
        return;
      }
      blockData := Some(data);
    }

    /** Reading a block gives the same before and after a reset. */
    lemma SameAfterReset(h: History, cb: ChainBlock, fails: Faults)
      requires consts.Valid() && (h.blocks != [] ==> h.initial.Some?)
      ensures var after := WithVars(h, initVars);
              && Reads(after, cb, fails) == Reads(h, cb, fails) && AddsBlock(after, cb, fails) == AddsBlock(h, cb, fails)
              && FailsAfterChange(after, cb, fails) == FailsAfterChange(h, cb, fails)
              && ResetSlot(consts, after, initVars) == ResetSlot(consts, h, initVars)
    {
      hide BlockSteps.ReadBlock, ReadingMoves, SlotChanges, LedgerAfter, Batches;
      if GetSCVars(h).None? {
        FirstVars(WithVars(h, initVars), initVars);
      }
    }

    /** Computes the first state from the database. */
    method Init(fails: Faults) returns (ok: bool)
      requires Stored()
      modifies this, stateDB
      ensures Stored() && history.blocks == old(history.blocks)
      ensures ok == (!fails(UpdateEthFails) && !fails(GetLastBlockFails(AT_START))
                     && ResetPasses(old(CurrentStage()), AT_START, fails))
      ensures CurrentStage() == if fails(UpdateEthFails) then old(CurrentStage())
                                else AfterRepair(old(CurrentStage()), AT_START, fails)
      ensures ok ==> Valid() && !resetStateFailed && history == WithVars(old(history), initVars)
                     && currentSlot == ResetSlot(consts, history, initVars)
    {
      hide Numbered, LedgerAfter, LinkedBlocks, AllPlaced, Batches, GetSCVars, InStep, ResetSlot;
      if fails(UpdateEthFails) || fails(GetLastBlockFails(AT_START)) {
        return false;
      }
      var lastSavedBlock := LastBlock(history);
      if lastSavedBlock.num == 0 {
        NoBatchesYet(history, startBlockNum);
        var done := stateDB.Reset(0);
      }
      ok := ResetState(lastSavedBlock, AT_START, fails);
      resetStateFailed := !ok;
    }
  }

  /** The number of the next block to store. */
  function Next(blocks: seq<BlockData>, start: int): int {
    start + |blocks|
  }

  lemma LastNum(h: History, start: int)
    requires start > 0 && LinkedBlocks(h.blocks, start)
    ensures h.blocks != [] ==> LastBlock(h).num == start + |h.blocks| - 1 && LastBlock(h).num != 0
    ensures h.blocks == [] ==> LastBlock(h).num == 0
  {
  }

  lemma FoundAt(blocks: seq<BlockData>, start: int, k: nat)
    requires k < |blocks| && LinkedBlocks(blocks, start)
    ensures FindBlock(blocks, start + k) == Some(blocks[k].block) && blocks[k].block.num == start + k
  {
    FindsBlock(blocks, start, start + k);
  }

  predicate OnChain(b: Block, chain: Chain) {
    b.num in chain && chain[b.num].block.hash == b.hash
  }

  /** The highest stored block that is on the chain; the first one if none is. */
  function Kept(blocks: seq<BlockData>, chain: Chain): (k: nat)
    ensures blocks != [] ==> k < |blocks|
  {
    if |blocks| <= 1 then 0
    else
      var n := |blocks| - 1;
      if OnChain(blocks[n].block, chain) then n else Kept(blocks[..n], chain)
  }

  predicate Visible(num: int, chain: Chain, fails: Faults) {
    num in chain && !fails(FetchFails(num)) && !fails(GetBlockFails(num))
  }

  /** Every block down to the one that is kept can be compared with the chain. */
  predicate WalkPasses(blocks: seq<BlockData>, chain: Chain, fails: Faults) {
    forall j :: Kept(blocks, chain) <= j < |blocks| ==> Visible(blocks[j].block.num, chain, fails)
  }

  ghost predicate SeesFrom(blocks: seq<BlockData>, k: int, chain: Chain, fails: Faults) {
    forall j :: 0 <= k <= j < |blocks| ==> Visible(blocks[j].block.num, chain, fails)
  }

  lemma SeesOne(blocks: seq<BlockData>, k: nat, chain: Chain, fails: Faults)
    requires k < |blocks| && Visible(blocks[k].block.num, chain, fails) && SeesFrom(blocks, k + 1, chain, fails)
    ensures SeesFrom(blocks, k, chain, fails)
  {
  }

  lemma WalkStops(blocks: seq<BlockData>, chain: Chain, fails: Faults, k: nat)
    requires Kept(blocks, chain) <= k < |blocks| && !Visible(blocks[k].block.num, chain, fails)
    ensures !WalkPasses(blocks, chain, fails)
  {
    hide Kept, Visible;
  }

  lemma WalkEnds(blocks: seq<BlockData>, chain: Chain, fails: Faults, k: nat)
    requires k <= Kept(blocks, chain) && SeesFrom(blocks, k, chain, fails)
    ensures WalkPasses(blocks, chain, fails)
  {
    hide Kept, Visible;
  }

  lemma FindsAll(blocks: seq<BlockData>, start: int)
    requires LinkedBlocks(blocks, start)
    ensures forall k :: 0 <= k < |blocks| ==> FindBlock(blocks, start + k) == Some(blocks[k].block)
  {
    forall k | 0 <= k < |blocks| ensures FindBlock(blocks, start + k) == Some(blocks[k].block) {
      FindsBlock(blocks, start, start + k);
    }
  }

  lemma KeptStep(blocks: seq<BlockData>, chain: Chain, k: nat)
    requires k < |blocks|
    ensures var upTo := blocks[..k + 1];
            if OnChain(blocks[k].block, chain) then Kept(upTo, chain) == k
            else k > 0 ==> Kept(upTo, chain) == Kept(blocks[..k], chain)
    ensures Kept(blocks[..k + 1], chain) <= k
    ensures k == 0 ==> Kept(blocks[..k + 1], chain) == 0
  {
    assert blocks[..k + 1][..k] == blocks[..k];
  }

  lemma {:induction false} KeptBound(blocks: seq<BlockData>, chain: Chain)
    requires blocks != []
    ensures Kept(blocks, chain) > 0 ==> OnChain(blocks[Kept(blocks, chain)].block, chain)
    ensures forall k :: Kept(blocks, chain) < k < |blocks| ==> !OnChain(blocks[k].block, chain)
  {
    if |blocks| > 1 {
      KeptBound(blocks[..|blocks| - 1], chain);
    }
  }

  lemma PrefixStored(c: AuctionConstants, blocks: seq<BlockData>, start: int, n: nat)
    requires c.Valid() && LinkedBlocks(blocks, start) && Numbered(Batches(blocks)) && AllPlaced(c, blocks) && n <= |blocks|
    ensures LinkedBlocks(blocks[..n], start) && Numbered(Batches(blocks[..n])) && AllPlaced(c, blocks[..n])
  {
    hide Numbered, PlacedIn;
    BatchesPrefix(blocks, n);
    var all, some := Batches(blocks), Batches(blocks[..n]);
    assert all[..|some|] == some;
    NumberedPrefix(all, |some|);
  }

  lemma NoBatchesYet(h: History, start: int)
    requires start > 0 && LinkedBlocks(h.blocks, start) && LastBlock(h).num == 0
    ensures h.blocks == [] && Batches(h.blocks) == []
  {
    LastNum(h, start);
  }

  /** The block is the next one to store. */
  ghost predicate Follows(blocks: seq<BlockData>, start: int, block: Block) {
    && block.num == start + |blocks|
    && (blocks != [] ==> block.parentHash == blocks[|blocks| - 1].block.hash)
  }

  lemma LinkNext(blocks: seq<BlockData>, start: int, data: BlockData)
    requires LinkedBlocks(blocks, start) && Follows(blocks, start, data.block)
    ensures LinkedBlocks(blocks + [data], start)
  {
  }

  lemma LastOfAdded(h: History, data: BlockData)
    ensures LastBlock(AddBlock(h, data)) == data.block
  {
  }

  /** The next view only depends on the new variables and the data. */
  lemma SameNext(v: View, w: View, vars: SCVars, data: BlockData)
    requires w == NextView(v.(vars := w.vars), vars, data)
    ensures w == NextView(v, vars, data)
  {
  }

  lemma L1BatchesNext(batches: seq<Batch>, batch: Batch)
    ensures |L1Batches(batches + [batch])| == |L1Batches(batches)| + (if batch.forgeL1TxsNum.Some? then 1 else 0)
  {
    assert (batches + [batch])[..|batches|] == batches;
  }

  /** A batch with the next number. */
  lemma AppendBatch(before: seq<Batch>, batch: Batch)
    requires Numbered(before) && batch.batchNum == |before| + 1
    requires batch.forgeL1TxsNum.Some? ==> batch.forgeL1TxsNum.value == |L1Batches(before)|
    ensures Numbered(before + [batch])
    ensures (before + [batch])[..|before|] == before
    ensures LedgerAfter(before + [batch]) == ExecutedStep(LedgerAfter(before), batch).p.st
  {
    hide Effects.ProcessTxs;
    var all := before + [batch];
    assert all[..|before|] == before;
    forall k | 0 <= k < |all|
      ensures all[k].batchNum == k + 1
      ensures all[k].forgeL1TxsNum.Some? ==> all[k].forgeL1TxsNum.value == |L1Batches(all[..k])|
    {
      assert k < |before| ==> all[..k] == before[..k];
    }
  }

  lemma NoVarsNoBlocks(h: History)
    requires GetSCVars(h).None? && (h.blocks != [] ==> h.initial.Some?)
    ensures h.blocks == []
  {
  }

  lemma VarsAreThere(h: History)
    requires GetSCVars(h).Some?
    ensures h.initial.Some?
  {
  }

  lemma FirstVars(h: History, initVars: SCVars)
    requires h.blocks == [] && h.initial == Some(initVars)
    ensures GetSCVars(h) == Some(initVars)
  {
  }

  lemma LastBatchIs(h: History)
    requires Numbered(Batches(h.blocks))
    ensures var all := Batches(h.blocks);
            GetLastBatch(h) == if all == [] then None else Some(all[|all| - 1].(ethTxHash := 0))
  {
    Answers(h);
  }

  lemma LastNumber(batches: seq<Batch>)
    requires Numbered(batches)
    ensures batches != [] ==> batches[|batches| - 1].batchNum == |batches|
  {
  }

  lemma RestoredLedger(batches: seq<Batch>)
    ensures batches[..|batches|] == batches
    ensures LedgerAfter([]) == Ledger.EMPTY_STATE
  {
  }

  // ---- What a reorganization keeps ----

  /** The blocks of the chain are linked, and there are no gaps between the start block and any other. */
  ghost predicate IsLinked(chain: Chain, start: int) {
    forall n :: n in chain && n > start ==> n - 1 in chain && chain[n].block.parentHash == chain[n - 1].block.hash
  }

  /** Blocks with the same hash have the same parent. */
  ghost predicate NoCollisions(blocks: seq<BlockData>, chain: Chain) {
    forall k, n :: 0 <= k < |blocks| && n in chain && blocks[k].block.hash == chain[n].block.hash ==>
      blocks[k].block.parentHash == chain[n].block.parentHash
  }

  lemma {:induction false} BelowCanonical(blocks: seq<BlockData>, chain: Chain, start: int, k: nat, n: nat)
    requires LinkedBlocks(blocks, start) && IsLinked(chain, start) && NoCollisions(blocks, chain)
    requires k <= n < |blocks| && OnChain(blocks[n].block, chain)
    ensures OnChain(blocks[k].block, chain)
    decreases n - k
  {
    if k < n {
      assert blocks[n].block.num == start + n && blocks[n - 1].block.num == start + n - 1;
      BelowCanonical(blocks, chain, start, k, n - 1);
    }
  }

  /**
   A reorganization keeps exactly the stored blocks that are on the chain if and only if the start
   block is still on it; otherwise it keeps the start block although it is not.
   */
  lemma {:induction false} ReorgKeepsCanonicalIff(blocks: seq<BlockData>, chain: Chain, start: int)
    requires blocks != [] && LinkedBlocks(blocks, start) && IsLinked(chain, start) && NoCollisions(blocks, chain)
    ensures (forall k :: 0 <= k < |blocks| ==> (k <= Kept(blocks, chain) <==> OnChain(blocks[k].block, chain)))
            <==> OnChain(blocks[0].block, chain)
    ensures !OnChain(blocks[0].block, chain) ==> Kept(blocks, chain) == 0
  {
    hide OnChain, LinkedBlocks, IsLinked, NoCollisions;
    var kept := Kept(blocks, chain);
    KeptBound(blocks, chain);
    if OnChain(blocks[0].block, chain) {
      forall k | 0 <= k <= kept ensures OnChain(blocks[k].block, chain) {
        if kept > 0 {
          BelowCanonical(blocks, chain, start, k, kept);
        }
      }
    } else if kept > 0 {
      BelowCanonical(blocks, chain, start, 0, kept);
    }
  }
}
