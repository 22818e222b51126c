/**
 The history database as a value (db/historydb): the blocks that were synchronized with what
 happened in them, and the queries that the synchronizer resets its state from.
 */
module HistoryDB {
  import opened Wrappers
  import opened Common
  import Ledger
  import Effects

  type Hash = nat

  datatype Block = Block(num: int, hash: Hash, parentHash: Hash)

  /** The block that is always stored. */
  const BLOCK_ZERO := Block(0, 0, 0)

  /** The variables of one contract and the block of their last change. */
  datatype ContractVars = ContractVars(ethBlockNum: int, values: map<string, int>)

  datatype SCVars = SCVars(rollup: ContractVars, auction: ContractVars, wDelayer: ContractVars)

  /** A forged batch, with the txs that it executes. */
  datatype Batch = Batch(
    batchNum: nat,
    ethTxHash: Hash,
    ethBlockNum: int,
    forgeL1TxsNum: Option<int>,
    slotNum: int,
    cfg: Config,
    feeIdxs: seq<Idx>,
    l1UserTxs: seq<L1Tx>,
    l1CoordinatorTxs: seq<L1Tx>,
    l2Txs: seq<PoolL2Tx>
  )

  const NO_BATCH := Batch(0, 0, 0, None, 0, Config(0, 0, 0, 0), [], [], [], [])

  /** A queued L1 user tx and the queue that it is in. */
  datatype QueuedTx = QueuedTx(toForgeL1TxsNum: int, tx: L1Tx)

  datatype BlockData = BlockData(
    block: Block,
    batches: seq<Batch>,
    l1UserTxs: seq<QueuedTx>,
    rollupVars: Option<ContractVars>,
    auctionVars: Option<ContractVars>,
    wDelayerVars: Option<ContractVars>
  )

  datatype History = History(blocks: seq<BlockData>, initial: Option<SCVars>)

  // ---- Queries ----

  function LastBlock(h: History): Block {
    if h.blocks == [] then BLOCK_ZERO else h.blocks[|h.blocks| - 1].block
  }

  function GetBlock(h: History, num: int): Option<Block> {
    FindBlock(h.blocks, num)
  }

  function FindBlock(blocks: seq<BlockData>, num: int): Option<Block> {
    if blocks == [] then None
    else
      var n := |blocks| - 1;
      if blocks[n].block.num == num then Some(blocks[n].block) else FindBlock(blocks[..n], num)
  }

  function Batches(blocks: seq<BlockData>): seq<Batch> {
    if blocks == [] then [] else Batches(blocks[..|blocks| - 1]) + blocks[|blocks| - 1].batches
  }

  /** The batch with the greatest number. */
  function GreatestBatch(batches: seq<Batch>): Option<Batch> {
    if batches == [] then None
    else
      var n := |batches| - 1;
      var before := GreatestBatch(batches[..n]);
      if before.Some? && before.value.batchNum > batches[n].batchNum then before else Some(batches[n])
  }

  /** The transaction of a batch is not read back. */
  function GetLastBatch(h: History): Option<Batch> {
    var b := GreatestBatch(Batches(h.blocks));
    if b.Some? then Some(b.value.(ethTxHash := 0)) else None
  }

  function L1Batches(batches: seq<Batch>): seq<Batch> {
    if batches == [] then []
    else
      var n := |batches| - 1;
      L1Batches(batches[..n]) + (if batches[n].forgeL1TxsNum.Some? then [batches[n]] else [])
  }

  function GetLastL1BatchBlockNum(h: History): Option<int> {
    var b := GreatestBatch(L1Batches(Batches(h.blocks)));
    if b.Some? then Some(b.value.ethBlockNum) else None
  }

  /** The greatest number of a forged queue. */
  function GreatestL1TxsNum(batches: seq<Batch>): Option<int> {
    if batches == [] then None
    else
      var n := |batches| - 1;
      var before := GreatestL1TxsNum(batches[..n]);
      match batches[n].forgeL1TxsNum
      case None => before
      case Some(k) => if before.Some? && before.value > k then before else Some(k)
  }

  function GetLastL1TxsNum(h: History): Option<int> {
    GreatestL1TxsNum(Batches(h.blocks))
  }

  function QueuedTxs(blocks: seq<BlockData>): seq<QueuedTx> {
    if blocks == [] then [] else QueuedTxs(blocks[..|blocks| - 1]) + blocks[|blocks| - 1].l1UserTxs
  }

  /** The txs of one queue. */
  function OfQueue(txs: seq<QueuedTx>, num: int): seq<L1Tx> {
    if txs == [] then []
    else
      var n := |txs| - 1;
      OfQueue(txs[..n], num) + (if txs[n].toForgeL1TxsNum == num then [txs[n].tx] else [])
  }

  /** The txs of a queue that no stored batch has forged. */
  function GetUnforgedL1UserTxs(blocks: seq<BlockData>, num: int): seq<L1Tx> {
    if exists b :: b in Batches(blocks) && b.forgeL1TxsNum == Some(num) then []
    else OfQueue(QueuedTxs(blocks), num)
  }

  /** The number of the next queue to forge. */
  function NextL1TxsNum(blocks: seq<BlockData>): int {
    match GreatestL1TxsNum(Batches(blocks))
    case Some(k) => k + 1
    case None => 0
  }

  /** The last variables stored, or the initial ones. */
  function LastVars(vars: seq<Option<ContractVars>>, initial: ContractVars): ContractVars {
    if vars == [] then initial
    else if vars[|vars| - 1].Some? then vars[|vars| - 1].value
    else LastVars(vars[..|vars| - 1], initial)
  }

  function GetSCVars(h: History): Option<SCVars> {
    if h.initial.None? then None
    else
      var i := h.initial.value;
      var n := |h.blocks|;
      Some(SCVars(LastVars(seq(n, k requires 0 <= k < n => h.blocks[k].rollupVars), i.rollup),
                  LastVars(seq(n, k requires 0 <= k < n => h.blocks[k].auctionVars), i.auction),
                  LastVars(seq(n, k requires 0 <= k < n => h.blocks[k].wDelayerVars), i.wDelayer)))
  }

  /** Stores a block with everything in it. */
  function AddBlock(h: History, data: BlockData): History {
    h.(blocks := h.blocks + [data])
  }

  /** Deletes the blocks after a number, and everything in them. */
  function Reorg(h: History, lastValidBlock: int): History {
    h.(blocks := UpTo(h.blocks, lastValidBlock))
  }

  function UpTo(blocks: seq<BlockData>, num: int): seq<BlockData> {
    if blocks == [] then []
    else
      var n := |blocks| - 1;
      UpTo(blocks[..n], num) + (if blocks[n].block.num > num then [] else [blocks[n]])
  }

  // ---- What is stored ----

  /** Blocks follow each other from the start block on, linked by their hashes. */
  ghost predicate LinkedBlocks(blocks: seq<BlockData>, start: int) {
    && (forall k :: 0 <= k < |blocks| ==> blocks[k].block.num == start + k)
    && (forall k :: 0 < k < |blocks| ==> blocks[k].block.parentHash == blocks[k - 1].block.hash)
  }

  /** Batches are numbered from 1 on, and those that forge a queue from 0 on. */
  ghost predicate Numbered(batches: seq<Batch>) {
    forall k :: 0 <= k < |batches| ==>
      && batches[k].batchNum == k + 1
      && (batches[k].forgeL1TxsNum.Some? ==> batches[k].forgeL1TxsNum.value == |L1Batches(batches[..k])|)
  }

  /** The ledger after a list of batches. */
  function LedgerAfter(batches: seq<Batch>): Ledger.State {
    if batches == [] then Ledger.EMPTY_STATE
    else
      var b := batches[|batches| - 1];
      Effects.ProcessTxs(Effects.Synchronizer, b.cfg, LedgerAfter(batches[..|batches| - 1]),
                         b.feeIdxs, b.l1UserTxs, b.l1CoordinatorTxs, b.l2Txs).p.st
  }

  // ---- Queries on what is stored ----

  lemma {:induction false} GreatestIsLast(batches: seq<Batch>)
    requires Numbered(batches)
    ensures GreatestBatch(batches) == if batches == [] then None else Some(batches[|batches| - 1])
  {
    if batches != [] {
      var n := |batches| - 1;
      NumberedPrefix(batches, n);
      GreatestIsLast(batches[..n]);
    }
  }

  lemma NumberedPrefix(batches: seq<Batch>, n: nat)
    requires Numbered(batches) && n <= |batches|
    ensures Numbered(batches[..n])
  {
    forall k | 0 <= k < n ensures batches[..n][..k] == batches[..k] {
    }
  }

  lemma {:induction false} L1BatchesNumbered(batches: seq<Batch>)
    requires Numbered(batches)
    ensures var l1 := L1Batches(batches);
            && (forall k :: 0 <= k < |l1| ==> l1[k].forgeL1TxsNum == Some(k) && l1[k].batchNum <= |batches|)
            && (forall j, k :: 0 <= j < k < |l1| ==> l1[j].batchNum < l1[k].batchNum)
  {
    if batches != [] {
      var n := |batches| - 1;
      NumberedPrefix(batches, n);
      L1BatchesNumbered(batches[..n]);
    }
  }

  lemma {:induction false} GreatestOfIncreasing(batches: seq<Batch>)
    requires forall j, k :: 0 <= j < k < |batches| ==> batches[j].batchNum < batches[k].batchNum
    ensures GreatestBatch(batches) == if batches == [] then None else Some(batches[|batches| - 1])
  {
    if batches != [] {
      GreatestOfIncreasing(batches[..|batches| - 1]);
    }
  }

  lemma {:induction false} GreatestL1Num(batches: seq<Batch>)
    requires Numbered(batches)
    ensures GreatestL1TxsNum(batches) == if L1Batches(batches) == [] then None else Some(|L1Batches(batches)| - 1)
  {
    if batches != [] {
      var n := |batches| - 1;
      NumberedPrefix(batches, n);
      GreatestL1Num(batches[..n]);
    }
  }

  lemma {:induction false} L1BatchesConcat(a: seq<Batch>, b: seq<Batch>)
    ensures L1Batches(a + b) == L1Batches(a) + L1Batches(b)
  {
    if b == [] {
      assert a + b == a;
    } else {
      var n := |b| - 1;
      L1BatchesConcat(a, b[..n]);
      assert (a + b)[..|a| + n] == a + b[..n];
    }
  }

  lemma BatchesNext(blocks: seq<BlockData>, data: BlockData)
    ensures Batches(blocks + [data]) == Batches(blocks) + data.batches
  {
    assert (blocks + [data])[..|blocks|] == blocks;
  }

  lemma {:induction false} BatchesPrefix(blocks: seq<BlockData>, n: nat)
    requires n <= |blocks|
    ensures Batches(blocks[..n]) <= Batches(blocks)
  {
    if n < |blocks| {
      assert blocks[..|blocks| - 1][..n] == blocks[..n];
      BatchesPrefix(blocks[..|blocks| - 1], n);
    } else {
      assert blocks[..n] == blocks;
    }
  }

  lemma {:induction false} FindsBlock(blocks: seq<BlockData>, start: int, num: int)
    requires forall k :: 0 <= k < |blocks| ==> blocks[k].block.num == start + k
    ensures FindBlock(blocks, num) ==
              if start <= num < start + |blocks| then Some(blocks[num - start].block) else None
  {
    if blocks != [] {
      FindsBlock(blocks[..|blocks| - 1], start, num);
    }
  }

  lemma {:induction false} UpToIsPrefix(blocks: seq<BlockData>, start: int, num: int)
    requires forall k :: 0 <= k < |blocks| ==> blocks[k].block.num == start + k
    requires start <= num < start + |blocks|
    ensures UpTo(blocks, num) == blocks[..num - start + 1]
  {
    if num == start + |blocks| - 1 {
      UpToAll(blocks, num);
      assert blocks[..|blocks|] == blocks;
    } else {
      var n := |blocks| - 1;
      UpToIsPrefix(blocks[..n], start, num);
      assert blocks[..n][..num - start + 1] == blocks[..num - start + 1];
    }
  }

  lemma {:induction false} UpToAll(blocks: seq<BlockData>, num: int)
    requires forall k :: 0 <= k < |blocks| ==> blocks[k].block.num <= num
    ensures UpTo(blocks, num) == blocks
  {
    if blocks != [] {
      UpToAll(blocks[..|blocks| - 1], num);
      assert blocks == blocks[..|blocks| - 1] + [blocks[|blocks| - 1]];
    }
  }

  // ---- What a reset computes ----

  /** The variables in force: the last ones stored, or those to store first. */
  function VarsOf(h: History, initVars: SCVars): SCVars {
    var vars := GetSCVars(h);
    if vars.Some? then vars.value else initVars
  }

  /** The history with the initial variables stored. */
  function WithVars(h: History, initVars: SCVars): History {
    if GetSCVars(h).Some? then h else h.(initial := Some(initVars))
  }

  /** The part of the synchronizer's state that a reset computes from the history. */
  datatype View = View(vars: SCVars, lastBlock: Block, lastBatch: Batch, lastL1BatchBlock: int, lastForgeL1TxsNum: int)

  /** The answer of a reset; `initVars` are stored first if there are no variables yet. */
  function ResetView(h: History, initVars: SCVars, block: Block): View {
    var l1Block := GetLastL1BatchBlockNum(h);
    var l1Num := GetLastL1TxsNum(h);
    var batch := GetLastBatch(h);
    View(VarsOf(h, initVars), block,
         if batch.Some? then batch.value else NO_BATCH,
         if l1Block.Some? then l1Block.value else 0,
         if l1Num.Some? then l1Num.value else -1)
  }

  /** What syncing one more block makes of a view. */
  function NextView(v: View, vars: SCVars, data: BlockData): View {
    var l1 := L1Batches(data.batches);
    View(vars, data.block,
         if data.batches == [] then v.lastBatch else data.batches[|data.batches| - 1],
         if l1 == [] then v.lastL1BatchBlock else l1[|l1| - 1].ethBlockNum,
         if l1 == [] || l1[|l1| - 1].forgeL1TxsNum.None? then v.lastForgeL1TxsNum else l1[|l1| - 1].forgeL1TxsNum.value)
  }

  /** Two views agree on everything that the database keeps of a batch. */
  predicate SameView(v: View, w: View) {
    v.(lastBatch := v.lastBatch.(ethTxHash := 0)) == w.(lastBatch := w.lastBatch.(ethTxHash := 0))
  }

  /** The variables after a block are those it stored, or else the ones before. */
  function VarsAfter(vars: SCVars, data: BlockData): SCVars {
    SCVars(if data.rollupVars.Some? then data.rollupVars.value else vars.rollup,
           if data.auctionVars.Some? then data.auctionVars.value else vars.auction,
           if data.wDelayerVars.Some? then data.wDelayerVars.value else vars.wDelayer)
  }

  lemma VarsNext(h: History, data: BlockData)
    requires h.initial.Some?
    ensures GetSCVars(h).Some? && GetSCVars(AddBlock(h, data)) == Some(VarsAfter(GetSCVars(h).value, data))
  {
    var n := |h.blocks|;
    var blocks := AddBlock(h, data).blocks;
    assert seq(n + 1, k requires 0 <= k < n + 1 => blocks[k].rollupVars)[..n]
           == seq(n, k requires 0 <= k < n => h.blocks[k].rollupVars);
    assert seq(n + 1, k requires 0 <= k < n + 1 => blocks[k].auctionVars)[..n]
           == seq(n, k requires 0 <= k < n => h.blocks[k].auctionVars);
    assert seq(n + 1, k requires 0 <= k < n + 1 => blocks[k].wDelayerVars)[..n]
           == seq(n, k requires 0 <= k < n => h.blocks[k].wDelayerVars);
  }

  /** The answers to the queries about batches, when these are numbered. */
  lemma Answers(h: History)
    requires Numbered(Batches(h.blocks))
    ensures var all := Batches(h.blocks);
            var l1 := L1Batches(all);
            && GetLastBatch(h) == (if all == [] then None else Some(all[|all| - 1].(ethTxHash := 0)))
            && GetLastL1BatchBlockNum(h) == (if l1 == [] then None else Some(l1[|l1| - 1].ethBlockNum))
            && GetLastL1TxsNum(h) == (if l1 == [] then None else l1[|l1| - 1].forgeL1TxsNum)
            && (l1 != [] ==> l1[|l1| - 1].forgeL1TxsNum.Some?)
  {
    hide GreatestBatch, L1Batches, GreatestL1TxsNum;
    var all := Batches(h.blocks);
    GreatestIsLast(all);
    L1BatchesNumbered(all);
    GreatestOfIncreasing(L1Batches(all));
    GreatestL1Num(all);
  }

  /** Updating the view block by block gives what a reset computes from the longer history. */
  lemma NextViewIsReset(h: History, initVars: SCVars, v: View, data: BlockData)
    requires h.initial.Some? && SameView(v, ResetView(h, initVars, LastBlock(h)))
    requires Numbered(Batches(h.blocks) + data.batches)
    ensures SameView(NextView(v, VarsAfter(v.vars, data), data), ResetView(AddBlock(h, data), initVars, data.block))
  {
    hide GetSCVars, GetLastBatch, GetLastL1BatchBlockNum, GetLastL1TxsNum, L1Batches, Batches, Numbered;
    var before := Batches(h.blocks);
    BatchesNext(h.blocks, data);
    VarsNext(h, data);
    assert (before + data.batches)[..|before|] == before;
    NumberedPrefix(before + data.batches, |before|);
    L1BatchesConcat(before, data.batches);
    assert before + [] == before && L1Batches(before) + [] == L1Batches(before);
    Answers(h);
    Answers(AddBlock(h, data));
  }

  /** The hash of the forging transaction is the one thing that a reset loses. */
  lemma TxHashIsLost(h: History, initVars: SCVars)
    requires Batches(h.blocks) != [] && Numbered(Batches(h.blocks))
    ensures var all := Batches(h.blocks);
            ResetView(h, initVars, LastBlock(h)).lastBatch == all[|all| - 1] <==> all[|all| - 1].ethTxHash == 0
  {
    GreatestIsLast(Batches(h.blocks));
  }
}
