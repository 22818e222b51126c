/**
 Slots of the auction (common/ethauction.go), and whether the forger of the current slot has kept its
 commitment to forge before the deadline (synchronizer/synchronizer.go, updateCurrentSlot).
 */
module Auction {
  import opened Wrappers
  import opened Arithmetic

  /** Blocks per slot, and the first block of the first slot. */
  datatype AuctionConstants = AuctionConstants(blocksPerSlot: nat, genesisBlockNum: int) {
    predicate Valid() {
      blocksPerSlot > 0
    }
  }

  /** Integer division as the machine does it: toward zero. */
  function Quotient(a: int, b: nat): int
    requires b > 0
  {
    if a >= 0 then a / b else -((-a) / b)
  }

  function SlotNum(c: AuctionConstants, blockNum: int): int
    requires c.Valid()
  {
    Quotient(blockNum - c.genesisBlockNum, c.blocksPerSlot)
  }

  function SlotBlocks(c: AuctionConstants, slotNum: int): (int, int) {
    var startBlock := c.genesisBlockNum + slotNum * c.blocksPerSlot;
    (startBlock, startBlock + c.blocksPerSlot - 1)
  }

  function RelativeBlock(c: AuctionConstants, blockNum: int): int
    requires c.Valid()
  {
    blockNum - (c.genesisBlockNum + SlotNum(c, blockNum) * c.blocksPerSlot)
  }

  /** From the genesis block on every block lies in its slot, at its relative position. */
  lemma SlotHoldsBlock(c: AuctionConstants, blockNum: int)
    requires c.Valid() && c.genesisBlockNum <= blockNum
    ensures var (first, last) := SlotBlocks(c, SlotNum(c, blockNum));
            first <= blockNum <= last && RelativeBlock(c, blockNum) == blockNum - first
    ensures 0 <= RelativeBlock(c, blockNum) < c.blocksPerSlot
  {
    var n, b := blockNum - c.genesisBlockNum, c.blocksPerSlot;
    assert n == n / b * b + n % b;
  }

  /** Blocks of the same slot are apart by less than a slot, and slots go up with blocks. */
  lemma SlotsIncrease(c: AuctionConstants, a: int, b: int)
    requires c.Valid() && c.genesisBlockNum <= a <= b
    ensures SlotNum(c, a) <= SlotNum(c, b)
    ensures SlotNum(c, b) <= SlotNum(c, a) + (b - a)
  {
    var x, y, k := a - c.genesisBlockNum, b - c.genesisBlockNum, c.blocksPerSlot;
    QuotientRises(x, y, k);
    QuotientGap(x, y, k);
  }

  lemma QuotientGap(x: nat, y: nat, k: nat)
    requires k > 0 && x <= y
    ensures y / k <= x / k + (y - x)
    decreases y - x
  {
    if x < y {
      QuotientGap(x, y - 1, k);
      QuotientBounds(y - 1, k);
      QuotientBounds(y, k);
      var q := (y - 1) / k;
      assert (q + 2) * k == (q + 1) * k + k;
      if y / k > q + 1 {
        MulMonotone(q + 2, y / k, k);
      }
    }
  }

  /** The block after the last one of a slot starts the next slot. */
  lemma NextSlot(c: AuctionConstants, b: int)
    requires c.Valid() && c.genesisBlockNum <= b
    ensures SlotNum(c, b + 1) != SlotNum(c, b) <==> RelativeBlock(c, b) == c.blocksPerSlot - 1
  {
    SlotHoldsBlock(c, b);
    SlotHoldsBlock(c, b + 1);
    SlotsIncrease(c, b, b + 1);
    if SlotNum(c, b + 1) == SlotNum(c, b) + 1 {
      assert SlotNum(c, b + 1) * c.blocksPerSlot == SlotNum(c, b) * c.blocksPerSlot + c.blocksPerSlot;
    }
  }

  // ---- The commitment of the forger ----

  /** The current slot as the synchronizer tracks it. */
  datatype Slot = Slot(slotNum: int, startBlock: int, endBlock: int, forgerCommitment: bool)

  /**
   The current slot after block `lastBlock`, whose successor is the next to be forged in.
   `batchBlock` is the block of a batch to take into account, if there is one: when resetting the
   first one of the slot, otherwise the last block itself if it has a batch.
   */
  function UpdatedSlot(c: AuctionConstants, deadline: nat, slot: Slot, lastBlock: int, reset: bool,
                       batchBlock: Option<int>): Slot
    requires c.Valid()
  {
    var slotNum := SlotNum(c, lastBlock + 1);
    var kept := if reset || slotNum > slot.slotNum then false else slot.forgerCommitment;
    var (startBlock, endBlock) := SlotBlocks(c, slotNum);
    Slot(slotNum, startBlock, endBlock, kept || (batchBlock.Some? && RelativeBlock(c, batchBlock.value) < deadline))
  }

  /** The blocks since the genesis block: whether each has a batch. */
  type BlockRun = seq<bool>

  /** The number of the i-th block of a run. */
  function BlockAt(c: AuctionConstants, i: nat): int {
    c.genesisBlockNum + i
  }

  /** The slot before the first block is synced. */
  const NO_SLOT := Slot(0, 0, 0, false)

  /** The current slot after syncing all blocks of a run one by one. */
  function Incremental(c: AuctionConstants, deadline: nat, run: BlockRun): Slot
    requires c.Valid()
  {
    if run == [] then NO_SLOT
    else
      var n := |run| - 1;
      UpdatedSlot(c, deadline, Incremental(c, deadline, run[..n]), BlockAt(c, n), false,
                  if run[n] then Some(BlockAt(c, n)) else None)
  }

  /** The block of the first batch of a slot. */
  function FirstBatchOfSlot(c: AuctionConstants, run: BlockRun, slotNum: int): Option<int>
    requires c.Valid()
  {
    if run == [] then None
    else
      var n := |run| - 1;
      var before := FirstBatchOfSlot(c, run[..n], slotNum);
      if before.Some? then before
      else if run[n] && SlotNum(c, BlockAt(c, n)) == slotNum then Some(BlockAt(c, n))
      else None
  }

  /** The current slot as a reset after the run computes it. */
  function FromScratch(c: AuctionConstants, deadline: nat, run: BlockRun): Slot
    requires c.Valid() && run != []
  {
    var n := |run| - 1;
    UpdatedSlot(c, deadline, NO_SLOT, BlockAt(c, n), true, FirstBatchOfSlot(c, run, SlotNum(c, BlockAt(c, n) + 1)))
  }

  /** Some batch of the slot came before the deadline. */
  ghost predicate Committed(c: AuctionConstants, deadline: nat, run: BlockRun, slotNum: int)
    requires c.Valid()
  {
    exists i: nat :: i < |run| && run[i] && InTime(c, deadline, i, slotNum)
  }

  predicate InTime(c: AuctionConstants, deadline: nat, i: nat, slotNum: int)
    requires c.Valid()
  {
    SlotNum(c, BlockAt(c, i)) == slotNum && RelativeBlock(c, BlockAt(c, i)) < deadline
  }

  lemma {:induction false} FirstBatchIs(c: AuctionConstants, run: BlockRun, slotNum: int)
    requires c.Valid()
    ensures match FirstBatchOfSlot(c, run, slotNum)
            case None => forall i: nat :: i < |run| && run[i] ==> SlotNum(c, BlockAt(c, i)) != slotNum
            case Some(b) => SlotNum(c, b) == slotNum && c.genesisBlockNum <= b < BlockAt(c, |run|)
                            && run[b - c.genesisBlockNum]
                            && forall i: nat :: i < |run| && run[i] && SlotNum(c, BlockAt(c, i)) == slotNum ==>
                                      b <= BlockAt(c, i)
  {
    hide SlotNum;
    if run != [] {
      FirstBatchIs(c, run[..|run| - 1], slotNum);
    }
  }

  /** A reset finds the commitment kept exactly when some batch of the slot was in time. */
  lemma FromScratchIsCommitted(c: AuctionConstants, deadline: nat, run: BlockRun)
    requires c.Valid() && run != []
    ensures FromScratch(c, deadline, run).forgerCommitment
            <==> Committed(c, deadline, run, SlotNum(c, BlockAt(c, |run|)))
  {
    hide SlotNum;
    var slotNum := SlotNum(c, BlockAt(c, |run|));
    assert BlockAt(c, |run| - 1) + 1 == BlockAt(c, |run|);
    FirstBatchIs(c, run, slotNum);
    var first := FirstBatchOfSlot(c, run, slotNum);
    if Committed(c, deadline, run, slotNum) {
      var i: nat :| i < |run| && run[i] && InTime(c, deadline, i, slotNum);
      assert first.value <= BlockAt(c, i);
    }
    if first.Some? && RelativeBlock(c, first.value) < deadline {
      var i: nat := first.value - c.genesisBlockNum;
      assert BlockAt(c, i) == first.value;
      assert InTime(c, deadline, i, slotNum);
    }
  }

  /** Every run so far agreed with a reset. */
  ghost predicate Agrees(c: AuctionConstants, deadline: nat, run: BlockRun)
    requires c.Valid()
  {
    run != [] ==> Incremental(c, deadline, run) == FromScratch(c, deadline, run)
  }

  lemma {:induction false} IncrementalSlotNum(c: AuctionConstants, deadline: nat, run: BlockRun)
    requires c.Valid() && run != []
    ensures Incremental(c, deadline, run).slotNum == SlotNum(c, BlockAt(c, |run|))
  {
    assert BlockAt(c, |run| - 1) + 1 == BlockAt(c, |run|);
  }

  /** With a deadline inside the slot, tracking block by block gives the reset's answer. */
  lemma {:induction false} IncrementalIsCommitted(c: AuctionConstants, deadline: nat, run: BlockRun)
    requires c.Valid() && deadline < c.blocksPerSlot && run != []
    ensures Incremental(c, deadline, run).forgerCommitment
            <==> Committed(c, deadline, run, SlotNum(c, BlockAt(c, |run|)))
  {
    hide SlotNum, RelativeBlock;
    var n := |run| - 1;
    var last, next := SlotNum(c, BlockAt(c, n)), SlotNum(c, BlockAt(c, n + 1));
    assert BlockAt(c, n) + 1 == BlockAt(c, n + 1);
    NextSlot(c, BlockAt(c, n));
    SlotsIncrease(c, BlockAt(c, n), BlockAt(c, n + 1));
    if n == 0 {
      FirstSlot(c);
    } else {
      IncrementalIsCommitted(c, deadline, run[..n]);
      IncrementalSlotNum(c, deadline, run[..n]);
      CommittedSoFar(c, deadline, run, next);
    }
    CommittedLast(c, deadline, run, next);
  }

  lemma FirstSlot(c: AuctionConstants)
    requires c.Valid()
    ensures SlotNum(c, BlockAt(c, 0)) == 0
  {
  }

  /** Only the last block can change whether a slot is committed, or nothing has been seen of the slot. */
  lemma CommittedSoFar(c: AuctionConstants, deadline: nat, run: BlockRun, slotNum: int)
    requires c.Valid() && run != []
    ensures Committed(c, deadline, run, slotNum)
            <==> Committed(c, deadline, run[..|run| - 1], slotNum)
                 || (run[|run| - 1] && InTime(c, deadline, |run| - 1, slotNum))
    ensures SlotNum(c, BlockAt(c, |run| - 1)) != slotNum && slotNum == SlotNum(c, BlockAt(c, |run|)) ==>
              !Committed(c, deadline, run, slotNum)
  {
    hide SlotNum, RelativeBlock;
    var n := |run| - 1;
    if Committed(c, deadline, run[..n], slotNum) {
      var i: nat :| i < n && run[..n][i] && InTime(c, deadline, i, slotNum);
      assert run[i] && InTime(c, deadline, i, slotNum);
    }
    if Committed(c, deadline, run, slotNum) {
      var i: nat :| i < |run| && run[i] && InTime(c, deadline, i, slotNum);
      assert i < n ==> run[..n][i];
      SlotsIncrease(c, BlockAt(c, i), BlockAt(c, n));
      SlotsIncrease(c, BlockAt(c, n), BlockAt(c, n + 1));
    }
  }

  lemma CommittedLast(c: AuctionConstants, deadline: nat, run: BlockRun, slotNum: int)
    requires c.Valid() && run != []
    ensures |run| == 1 ==> (Committed(c, deadline, run, slotNum) <==> run[0] && InTime(c, deadline, 0, slotNum))
  {
    hide SlotNum, RelativeBlock;
    if Committed(c, deadline, run, slotNum) && |run| == 1 {
      var i: nat :| i < |run| && run[i] && InTime(c, deadline, i, slotNum);
      assert i == 0;
    }
  }

  /** A batch in the last block of a slot counts for the next slot when the deadline is as long as a slot. */
  lemma LateBatchCounts(c: AuctionConstants, deadline: nat)
    requires c.Valid() && deadline >= c.blocksPerSlot
    ensures var run := seq(c.blocksPerSlot, i => i == c.blocksPerSlot - 1);
            Incremental(c, deadline, run).forgerCommitment && !FromScratch(c, deadline, run).forgerCommitment
  {
    var run := seq(c.blocksPerSlot, i => i == c.blocksPerSlot - 1);
    var n := |run| - 1;
    SlotHoldsBlock(c, BlockAt(c, n));
    LastOfFirstSlot(c);
    FromScratchIsCommitted(c, deadline, run);
    CommittedSoFar(c, deadline, run, SlotNum(c, BlockAt(c, |run|)));
  }

  lemma LastOfFirstSlot(c: AuctionConstants)
    requires c.Valid()
    ensures SlotNum(c, BlockAt(c, c.blocksPerSlot - 1)) == 0 && SlotNum(c, BlockAt(c, c.blocksPerSlot)) == 1
  {
  }

  /**
   For a fixed deadline, tracking the commitment block by block agrees with a reset after every
   run of blocks since the genesis block if and only if the deadline lies inside the slot.
   */
  lemma CommitmentAgreesIff(c: AuctionConstants, deadline: nat)
    requires c.Valid()
    ensures (forall run: BlockRun :: Agrees(c, deadline, run)) <==> deadline < c.blocksPerSlot
  {
    if deadline < c.blocksPerSlot {
      forall run: BlockRun ensures Agrees(c, deadline, run) {
        if run != [] {
          IncrementalIsCommitted(c, deadline, run);
          FromScratchIsCommitted(c, deadline, run);
        }
      }
    } else {
      LateBatchCounts(c, deadline);
      var run := seq(c.blocksPerSlot, i => i == c.blocksPerSlot - 1);
      assert !Agrees(c, deadline, run);
    }
  }
}
