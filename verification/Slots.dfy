/**
 The current slot that the synchronizer tracks, as the stored blocks determine it: the stored
 batches are a run of blocks since the genesis block, and a reset reads the slot off that run.
 */
module Slots {
  import opened Wrappers
  import opened HistoryDB
  import opened Auction

  /** The slot deadline among the variables of the auction. */
  function Deadline(auction: ContractVars): nat {
    var v := auction.values;
    if "SlotDeadline" in v && v["SlotDeadline"] >= 0 then v["SlotDeadline"] else 0
  }

  /** The slot that a batch is stored with. */
  function SlotOf(c: AuctionConstants, blockNum: int): int
    requires c.Valid()
  {
    if blockNum >= c.genesisBlockNum then SlotNum(c, blockNum) else 0
  }

  ghost predicate PlacedIn(c: AuctionConstants, block: Block, batches: seq<Batch>)
    requires c.Valid()
  {
    forall b :: b in batches ==> b.ethBlockNum == block.num && b.slotNum == SlotOf(c, block.num)
  }

  /** Every batch is stored with its block and the slot of that. */
  ghost predicate AllPlaced(c: AuctionConstants, blocks: seq<BlockData>)
    requires c.Valid()
  {
    forall k :: 0 <= k < |blocks| ==> PlacedIn(c, blocks[k].block, blocks[k].batches)
  }

  /** The block of the batch of a slot with the least number. */
  function FirstOfSlot(batches: seq<Batch>, slotNum: int): Option<int> {
    if batches == [] then None
    else
      var n := |batches| - 1;
      var before := FirstOfSlot(batches[..n], slotNum);
      if before.Some? then before
      else if batches[n].slotNum == slotNum then Some(batches[n].ethBlockNum) else None
  }

  // ---- Stored blocks as a run ----

  /** Whether each stored block since the genesis block has a batch. */
  function BlockRunOf(c: AuctionConstants, start: int, blocks: seq<BlockData>): BlockRun
    requires start <= c.genesisBlockNum
  {
    var g := c.genesisBlockNum - start;
    if |blocks| <= g then [] else seq(|blocks| - g, i requires 0 <= i < |blocks| - g => blocks[g + i].batches != [])
  }

  /** No batch came before the genesis block. */
  ghost predicate NoneBefore(c: AuctionConstants, blocks: seq<BlockData>) {
    forall k :: 0 <= k < |blocks| && blocks[k].batches != [] ==> c.genesisBlockNum <= blocks[k].block.num
  }

  lemma {:induction false} FirstOfSlotConcat(a: seq<Batch>, b: seq<Batch>, slotNum: int)
    ensures FirstOfSlot(a + b, slotNum)
            == if FirstOfSlot(a, slotNum).Some? then FirstOfSlot(a, slotNum) else FirstOfSlot(b, slotNum)
  {
    if b == [] {
      assert a + b == a;
    } else {
      var n := |b| - 1;
      FirstOfSlotConcat(a, b[..n], slotNum);
      assert (a + b)[..|a| + n] == a + b[..n];
    }
  }

  lemma {:induction false} FirstOfBlock(c: AuctionConstants, block: Block, batches: seq<Batch>, slotNum: int)
    requires c.Valid() && PlacedIn(c, block, batches)
    ensures FirstOfSlot(batches, slotNum)
            == if batches != [] && SlotOf(c, block.num) == slotNum then Some(block.num) else None
  {
    hide SlotOf;
    if batches != [] {
      FirstOfBlock(c, block, batches[..|batches| - 1], slotNum);
      assert batches[|batches| - 1] in batches;
    }
  }

  lemma RunNext(c: AuctionConstants, start: int, blocks: seq<BlockData>, data: BlockData)
    requires start <= c.genesisBlockNum
    ensures BlockRunOf(c, start, blocks + [data])
            == if |blocks| < c.genesisBlockNum - start then [] else BlockRunOf(c, start, blocks) + [data.batches != []]
  {
  }

  lemma PrefixPlaced(c: AuctionConstants, start: int, blocks: seq<BlockData>, data: BlockData)
    requires c.Valid() && LinkedBlocks(blocks + [data], start) && AllPlaced(c, blocks + [data])
    ensures LinkedBlocks(blocks, start) && AllPlaced(c, blocks) && data.block.num == start + |blocks|
    ensures PlacedIn(c, data.block, data.batches)
    ensures NoneBefore(c, blocks + [data]) ==>
              NoneBefore(c, blocks) && (data.batches != [] ==> c.genesisBlockNum <= data.block.num)
  {
    hide PlacedIn;
    var more := blocks + [data];
    assert blocks == more[..|blocks|] && more[|blocks|] == data;
    assert PlacedIn(c, more[|blocks|].block, more[|blocks|].batches);
  }

  lemma PlacedNext(c: AuctionConstants, blocks: seq<BlockData>, data: BlockData)
    requires c.Valid() && AllPlaced(c, blocks) && PlacedIn(c, data.block, data.batches)
    ensures AllPlaced(c, blocks + [data])
  {
  }

  lemma FirstBatchNext(c: AuctionConstants, run: BlockRun, hasBatch: bool, slotNum: int)
    requires c.Valid()
    ensures var before := FirstBatchOfSlot(c, run, slotNum);
            FirstBatchOfSlot(c, run + [hasBatch], slotNum)
            == if before.Some? then before
               else if hasBatch && SlotNum(c, BlockAt(c, |run|)) == slotNum then Some(BlockAt(c, |run|)) else None
  {
    hide SlotNum;
    assert (run + [hasBatch])[..|run|] == run;
  }

  /** The first batch of a slot in the database is the first one of the run. */
  lemma {:induction false} FirstOfSlotIsFirst(c: AuctionConstants, start: int, blocks: seq<BlockData>, slotNum: int)
    requires c.Valid() && start <= c.genesisBlockNum && LinkedBlocks(blocks, start) && AllPlaced(c, blocks)
             && NoneBefore(c, blocks)
    ensures FirstOfSlot(Batches(blocks), slotNum) == FirstBatchOfSlot(c, BlockRunOf(c, start, blocks), slotNum)
  {
    hide SlotNum, FirstOfSlot, FirstBatchOfSlot, Batches, PlacedIn, AllPlaced, LinkedBlocks, NoneBefore;
    if blocks == [] {
      NothingFirst(c, slotNum);
    } else {
      var n := |blocks| - 1;
      var data := blocks[n];
      assert blocks == blocks[..n] + [data];
      PrefixPlaced(c, start, blocks[..n], data);
      FirstOfSlotIsFirst(c, start, blocks[..n], slotNum);
      BatchesNext(blocks[..n], data);
      FirstOfSlotConcat(Batches(blocks[..n]), data.batches, slotNum);
      FirstOfBlock(c, data.block, data.batches, slotNum);
      RunNext(c, start, blocks[..n], data);
      FirstBatchNext(c, BlockRunOf(c, start, blocks[..n]), data.batches != [], slotNum);
      if n < c.genesisBlockNum - start {
        NothingFirst(c, slotNum);
      }
    }
  }

  lemma NothingFirst(c: AuctionConstants, slotNum: int)
    requires c.Valid()
    ensures FirstOfSlot(Batches([]), slotNum) == None && FirstBatchOfSlot(c, [], slotNum) == None
  {
  }

  // ---- The slot that a reset computes ----

  function ResetSlot(c: AuctionConstants, h: History, initVars: SCVars): Slot
    requires c.Valid()
  {
    var last := LastBlock(h).num;
    UpdatedSlot(c, Deadline(VarsOf(h, initVars).auction), NO_SLOT, last, true,
                FirstOfSlot(Batches(h.blocks), SlotNum(c, last + 1)))
  }

  /** A reset does not depend on the slot before it. */
  lemma ResetSlotFromAny(c: AuctionConstants, h: History, initVars: SCVars, slot: Slot)
    requires c.Valid()
    ensures var last := LastBlock(h).num;
            ResetSlot(c, h, initVars) == UpdatedSlot(c, Deadline(VarsOf(h, initVars).auction), slot, last, true,
                                                     FirstOfSlot(Batches(h.blocks), SlotNum(c, last + 1)))
  {
  }

  /** A reset reads the slot off the run. */
  lemma ResetSlotIsFromScratch(c: AuctionConstants, start: int, h: History, initVars: SCVars)
    requires c.Valid() && 0 < start <= c.genesisBlockNum
    requires LinkedBlocks(h.blocks, start) && AllPlaced(c, h.blocks) && NoneBefore(c, h.blocks)
    ensures var run := BlockRunOf(c, start, h.blocks);
            if run == [] then !ResetSlot(c, h, initVars).forgerCommitment
            else ResetSlot(c, h, initVars) == FromScratch(c, Deadline(VarsOf(h, initVars).auction), run)
  {
    hide SlotNum, VarsOf, RelativeBlock;
    FirstOfSlotIsFirst(c, start, h.blocks, SlotNum(c, LastBlock(h).num + 1));
    if BlockRunOf(c, start, h.blocks) != [] {
      assert LastBlock(h).num == BlockAt(c, |BlockRunOf(c, start, h.blocks)| - 1);
    }
  }

  // ---- Tracking the slot ----

  /** The slot without what is known of its forger. */
  function Place(slot: Slot): Slot {
    slot.(forgerCommitment := false)
  }

  /** The deadline never changed and lies inside the slot, and no batch came too early. */
  ghost predicate Steady(c: AuctionConstants, start: int, h: History) {
    && 0 < start <= c.genesisBlockNum && h.initial.Some?
    && Deadline(h.initial.value.auction) < c.blocksPerSlot
    && SameDeadline(h)
    && NoneBefore(c, h.blocks)
  }

  ghost predicate SameDeadline(h: History) {
    h.initial.Some? && forall k :: 0 <= k < |h.blocks| && h.blocks[k].auctionVars.Some? ==>
      Deadline(h.blocks[k].auctionVars.value) == Deadline(h.initial.value.auction)
  }

  lemma {:induction false} LastDeadline(vars: seq<Option<ContractVars>>, initial: ContractVars)
    requires forall k :: 0 <= k < |vars| && vars[k].Some? ==> Deadline(vars[k].value) == Deadline(initial)
    ensures Deadline(LastVars(vars, initial)) == Deadline(initial)
  {
    hide Deadline;
    if vars != [] {
      LastDeadline(vars[..|vars| - 1], initial);
    }
  }

  lemma SteadyDeadline(h: History, initVars: SCVars)
    requires SameDeadline(h)
    ensures Deadline(VarsOf(h, initVars).auction) == Deadline(h.initial.value.auction)
  {
    hide Deadline;
    var n := |h.blocks|;
    LastDeadline(seq(n, k requires 0 <= k < n => h.blocks[k].auctionVars), h.initial.value.auction);
  }

  /** The tracked slot is the one after the last block; with a steady deadline it is what a reset computes. */
  ghost predicate SlotInStep(c: AuctionConstants, start: int, h: History, initVars: SCVars, slot: Slot)
    requires c.Valid()
  {
    && Place(slot) == Place(ResetSlot(c, h, initVars))
    && (Steady(c, start, h) ==> slot == ResetSlot(c, h, initVars))
  }

  /** The slot after one more block. */
  function NextSlotOf(c: AuctionConstants, deadline: nat, slot: Slot, data: BlockData): Slot
    requires c.Valid()
  {
    UpdatedSlot(c, deadline, slot, data.block.num, false, if data.batches != [] then Some(data.block.num) else None)
  }

  lemma SteadyBefore(c: AuctionConstants, start: int, h: History, data: BlockData)
    requires SameDeadline(AddBlock(h, data)) || Steady(c, start, AddBlock(h, data))
    ensures SameDeadline(h)
    ensures Steady(c, start, AddBlock(h, data)) ==> Steady(c, start, h)
  {
    hide Deadline;
    assert h.blocks == AddBlock(h, data).blocks[..|h.blocks|];
  }

  /** From any slot that is not committed, the first block of the run gives the run's slot. */
  lemma FirstBlockOfRun(c: AuctionConstants, deadline: nat, slot: Slot, hasBatch: bool)
    requires c.Valid() && !slot.forgerCommitment
    ensures UpdatedSlot(c, deadline, slot, BlockAt(c, 0), false, if hasBatch then Some(BlockAt(c, 0)) else None)
            == Incremental(c, deadline, [hasBatch])
  {
    hide SlotNum, RelativeBlock;
    assert [hasBatch][..0] == [];
  }

  /** Tracking block by block is the run's incremental slot, whatever the deadline. */
  lemma TracksRun(c: AuctionConstants, start: int, deadline: nat, blocks: seq<BlockData>, data: BlockData, slot: Slot)
    requires c.Valid() && start <= c.genesisBlockNum && data.block.num == start + |blocks|
    requires var run := BlockRunOf(c, start, blocks);
             if run == [] then !slot.forgerCommitment else slot == Incremental(c, deadline, run)
    ensures var run := BlockRunOf(c, start, blocks + [data]);
            if run == [] then data.batches == [] ==> !NextSlotOf(c, deadline, slot, data).forgerCommitment
            else NextSlotOf(c, deadline, slot, data) == Incremental(c, deadline, run)
  {
    hide SlotNum, RelativeBlock;
    RunNext(c, start, blocks, data);
    var run := BlockRunOf(c, start, blocks);
    var hasBatch := data.batches != [];
    if |blocks| == c.genesisBlockNum - start {
      FirstBlockOfRun(c, deadline, slot, hasBatch);
      assert [] + [hasBatch] == [hasBatch];
    } else if |blocks| > c.genesisBlockNum - start {
      assert (run + [hasBatch])[..|run|] == run;
      assert data.block.num == BlockAt(c, |run|);
    }
  }

  /** A slot in step stays in step with the next block. */
  lemma NextSlotInStep(c: AuctionConstants, start: int, h: History, initVars: SCVars, data: BlockData, slot: Slot)
    requires c.Valid() && SlotInStep(c, start, h, initVars, slot) && h.initial.Some?
    requires LinkedBlocks(AddBlock(h, data).blocks, start) && AllPlaced(c, AddBlock(h, data).blocks)
    ensures SlotInStep(c, start, AddBlock(h, data), initVars,
                       NextSlotOf(c, Deadline(VarsOf(AddBlock(h, data), initVars).auction), slot, data))
  {
    hide SlotNum, RelativeBlock, VarsOf, Deadline, Batches;
    var more := AddBlock(h, data);
    var deadline := Deadline(VarsOf(more, initVars).auction);
    assert LastBlock(more) == data.block;
    if Steady(c, start, more) {
      SteadyBefore(c, start, h, data);
      SteadyDeadline(h, initVars);
      SteadyDeadline(more, initVars);
      PrefixPlaced(c, start, h.blocks, data);
      var run, run' := BlockRunOf(c, start, h.blocks), BlockRunOf(c, start, more.blocks);
      ResetSlotIsFromScratch(c, start, h, initVars);
      ResetSlotIsFromScratch(c, start, more, initVars);
      CommitmentAgreesIff(c, deadline);
      assert Agrees(c, deadline, run) && Agrees(c, deadline, run');
      TracksRun(c, start, deadline, h.blocks, data, slot);
      if run' == [] {
        NoBatchBefore(c, start, h.blocks, data);
      }
    }
  }

  /** The first batch of a slot after one more block. */
  lemma FirstNext(c: AuctionConstants, start: int, blocks: seq<BlockData>, data: BlockData, slotNum: int)
    requires c.Valid() && LinkedBlocks(blocks + [data], start) && AllPlaced(c, blocks + [data])
    ensures var before := FirstOfSlot(Batches(blocks), slotNum);
            FirstOfSlot(Batches(blocks + [data]), slotNum)
            == if before.Some? then before
               else if data.batches != [] && SlotOf(c, data.block.num) == slotNum then Some(data.block.num) else None
  {
    hide PlacedIn, SlotOf, Batches, FirstOfSlot;
    PrefixPlaced(c, start, blocks, data);
    BatchesNext(blocks, data);
    FirstOfSlotConcat(Batches(blocks), data.batches, slotNum);
    FirstOfBlock(c, data.block, data.batches, slotNum);
  }

  /** The first batch of a slot lies in it, before the next block. */
  lemma FirstIsBefore(c: AuctionConstants, start: int, blocks: seq<BlockData>, next: int, slotNum: int)
    requires c.Valid() && start <= c.genesisBlockNum <= next == start + |blocks|
    requires LinkedBlocks(blocks, start) && AllPlaced(c, blocks) && NoneBefore(c, blocks)
    ensures var first := FirstOfSlot(Batches(blocks), slotNum);
            first.Some? ==> SlotNum(c, first.value) == slotNum && c.genesisBlockNum <= first.value < next
                            && slotNum <= SlotNum(c, next)
  {
    hide SlotNum, AllPlaced, LinkedBlocks, NoneBefore, FirstOfSlot, Batches, FirstBatchOfSlot;
    FirstOfSlotIsFirst(c, start, blocks, slotNum);
    FirstBatchIs(c, BlockRunOf(c, start, blocks), slotNum);
    var first := FirstOfSlot(Batches(blocks), slotNum);
    if first.Some? {
      SlotsIncrease(c, first.value, next);
    }
  }

  /** With a new deadline, the commitment of the slot stays right with one more block. */
  predicate DeadlineFits(c: AuctionConstants, deadline: nat, newDeadline: nat, first: Option<int>, data: BlockData)
    requires c.Valid()
  {
    var num := data.block.num;
    if SlotNum(c, num) == SlotNum(c, num + 1) then
      first.Some? ==>
        || (RelativeBlock(c, first.value) < deadline <==> RelativeBlock(c, first.value) < newDeadline)
        || (RelativeBlock(c, first.value) < newDeadline && data.batches != [] && RelativeBlock(c, num) < newDeadline)
    else
      data.batches != [] ==> newDeadline < c.blocksPerSlot
  }

  /**
   Whatever happens to the deadline: a slot that is what a reset computes is so after one more block
   if and only if the deadline does not pass over the first batch of the slot, unless the block has
   a batch in time, and does not reach beyond the slot when its last block has a batch.
   */
  lemma NextSlotAgreesIff(c: AuctionConstants, start: int, h: History, initVars: SCVars, data: BlockData)
    requires c.Valid() && 0 < start <= c.genesisBlockNum <= data.block.num
    requires LinkedBlocks(AddBlock(h, data).blocks, start) && AllPlaced(c, AddBlock(h, data).blocks)
             && NoneBefore(c, AddBlock(h, data).blocks)
    ensures var newDeadline := Deadline(VarsOf(AddBlock(h, data), initVars).auction);
            NextSlotOf(c, newDeadline, ResetSlot(c, h, initVars), data) == ResetSlot(c, AddBlock(h, data), initVars)
            <==> DeadlineFits(c, Deadline(VarsOf(h, initVars).auction), newDeadline,
                              FirstOfSlot(Batches(h.blocks), SlotNum(c, data.block.num)), data)
  {
    hide SlotNum, AllPlaced, NoneBefore, FirstOfSlot, Batches, Deadline, VarsOf, RelativeBlock;
    var num := data.block.num;
    var more := AddBlock(h, data);
    assert LastBlock(more) == data.block;
    PrefixPlaced(c, start, h.blocks, data);
    FirstNext(c, start, h.blocks, data, SlotNum(c, num + 1));
    FirstIsBefore(c, start, h.blocks, num, SlotNum(c, num));
    FirstIsBefore(c, start, h.blocks, num, SlotNum(c, num + 1));
    NextSlot(c, num);
    SlotsIncrease(c, num, num + 1);
    SlotHoldsBlock(c, num);
    if h.blocks == [] {
      NothingFirst(c, SlotNum(c, 1));
      NothingFirst(c, SlotNum(c, num));
      FirstSlot(c);
      SlotsBefore(c, 1);
    } else {
      assert LastBlock(h).num + 1 == num;
      var first := FirstOfSlot(Batches(h.blocks), SlotNum(c, num));
      if first.Some? {
        RelativeRises(c, first.value, num);
      }
    }
  }

  lemma SlotsBefore(c: AuctionConstants, num: int)
    requires c.Valid() && num <= c.genesisBlockNum
    ensures SlotNum(c, num) <= 0
  {
  }

  lemma RelativeRises(c: AuctionConstants, a: int, b: int)
    requires c.Valid() && a <= b && SlotNum(c, a) == SlotNum(c, b)
    ensures RelativeBlock(c, a) <= RelativeBlock(c, b)
  {
    hide SlotNum;
  }

  lemma NoBatchBefore(c: AuctionConstants, start: int, blocks: seq<BlockData>, data: BlockData)
    requires start <= c.genesisBlockNum && NoneBefore(c, blocks + [data]) && data.block.num == start + |blocks|
    requires BlockRunOf(c, start, blocks + [data]) == []
    ensures data.batches == []
  {
    assert (blocks + [data])[|blocks|] == data;
  }

  /** A reset slot is in step. */
  lemma ResetSlotInStep(c: AuctionConstants, start: int, h: History, initVars: SCVars)
    requires c.Valid()
    ensures SlotInStep(c, start, h, initVars, ResetSlot(c, h, initVars))
  {
  }

  /**
   One more block changes the slot: the block after it lies in another one, or, with a steady
   deadline, it has the first batch in time of its slot.
   */
  ghost predicate SlotChanges(c: AuctionConstants, start: int, h: History, initVars: SCVars, data: BlockData)
    requires c.Valid()
  {
    var num := data.block.num;
    || SlotNum(c, LastBlock(h).num + 1) != SlotNum(c, num + 1)
    || (&& Steady(c, start, AddBlock(h, data)) && data.batches != []
        && RelativeBlock(c, num) < Deadline(h.initial.value.auction) && !ResetSlot(c, h, initVars).forgerCommitment)
  }

  /** A slot that was in step, and was not updated, is out of step with a longer history if and only if that changes it. */
  lemma StaleSlot(c: AuctionConstants, start: int, h: History, initVars: SCVars, data: BlockData, slot: Slot)
    requires c.Valid() && SlotInStep(c, start, h, initVars, slot) && h.initial.Some?
    requires LinkedBlocks(AddBlock(h, data).blocks, start) && AllPlaced(c, AddBlock(h, data).blocks)
    ensures SlotInStep(c, start, AddBlock(h, data), initVars, slot) <==> !SlotChanges(c, start, h, initVars, data)
  {
    hide Steady, SlotNum, RelativeBlock, Deadline, LinkedBlocks, AllPlaced, VarsOf, FirstOfSlot;
    var more := AddBlock(h, data);
    assert LastBlock(more) == data.block;
    if Steady(c, start, more) {
      SteadyBefore(c, start, h, data);
      DeadlineOf(c, start, h, data, initVars);
      NextSlotInStep(c, start, h, initVars, data, slot);
    }
  }

  lemma DeadlineOf(c: AuctionConstants, start: int, h: History, data: BlockData, initVars: SCVars)
    requires Steady(c, start, AddBlock(h, data))
    ensures h.initial.Some? && Deadline(VarsOf(AddBlock(h, data), initVars).auction) == Deadline(h.initial.value.auction)
  {
    hide Deadline, VarsOf;
    SteadyDeadline(AddBlock(h, data), initVars);
  }
}
