/**
 What reading a block does to the synchronizer's state, as total functions of the stored blocks, the
 events of the block and everything that fails: the ledger, the variables, and the data to store.
 */
module BlockSteps {
  import opened Wrappers
  import opened Common
  import Ledger
  import Effects
  import opened HistoryDB
  import opened Auction
  import opened Slots
  import Rebuild

  /** A batch that the contract reports as forged, with the arguments of its call. */
  datatype ForgeEvent = ForgeEvent(
    batchNum: nat,
    ethTxHash: Hash,
    l1Batch: bool,
    cfg: Config,
    newStRoot: map<Idx, Account>,
    feeIdxCoordinator: seq<Idx>,
    l1CoordinatorTxs: seq<L1Tx>,
    l2TxsData: seq<L2Tx>
  )

  /** A block of the chain and the events of the three contracts in it. */
  datatype ChainBlock = ChainBlock(
    block: Block,
    l1UserTxs: seq<QueuedTx>,
    forgeBatch: seq<ForgeEvent>,
    rollupUpdates: seq<(string, int)>,
    auctionUpdates: seq<(string, int)>,
    wDelayerUpdates: seq<(string, int)>
  )

  /** The chain as the ethereum node shows it during one call. */
  type Chain = map<int, ChainBlock>

  ghost predicate IsChain(chain: Chain) {
    forall n :: n in chain ==> chain[n].block.num == n
  }

  /** Everything that can fail, when it is done for the n-th time in a call or for the n-th item. */
  datatype Fault =
    | GetLastBlockFails(n: nat)
    | GetSCVarsFails(n: nat)
    | SetInitialFails(n: nat)
    | GetLastBatchFails(n: nat)
    | ResetFails(n: nat)
    | GetL1BlockFails(n: nat)
    | GetL1NumFails(n: nat)
    | SlotFails(n: nat)
    | FetchFails(num: int)
    | UpdateEthFails
    | GetBlockFails(num: int)
    | ReorgFails
    | RollupEventsFail
    | NextL1NumFails
    | L1UserTxsFail
    | ForgeArgsFail(n: nat)
    | UnforgedFails(n: nat)
    | CoordinatorTxsFail(n: nat)
    | L2TypesFail(n: nat)
    | BatchFails(n: nat)
    | RollupUpdateFails(n: nat)
    | AuctionEventsFail
    | AuctionUpdateFails(n: nat)
    | WDelayerEventsFail
    | WDelayerUpdateFails(n: nat)
    | WithdrawalsFail
    | AddBlockFails

  type Faults = Fault -> bool

  // Where in a call the state is reset.
  const AT_START: nat := 0
  const IN_REORG: nat := 1
  const AFTER_ERROR: nat := 2
  const AFTER_STORING: nat := 3
  // Where the last saved block is asked for.
  const FOR_LAST_SAVED: nat := 4

  /** A coordinator tx of a batch at its position, with its type. */
  function CoordinatorTx(tx: L1Tx, position: nat): L1Tx {
    tx.(position := position, userOrigin := false, txType := if L1Type(tx).Ok? then L1Type(tx).value else TxTypeNone)
  }

  function CoordinatorTxs(txs: seq<L1Tx>, position: nat): seq<L1Tx> {
    seq(|txs|, i requires 0 <= i < |txs| => CoordinatorTx(txs[i], position + i))
  }

  // ---- Batches ----

  /** The txs that a batch forges from the queue of its number, stored or of the same block. */
  function ToForge(blocks: seq<BlockData>, num: int, inBlock: seq<QueuedTx>): seq<L1Tx> {
    GetUnforgedL1UserTxs(blocks, num) + OfQueue(inBlock, num)
  }

  /** The event can be read, and its txs have types. */
  predicate Readable(evt: ForgeEvent, i: nat, fails: Faults) {
    && !fails(ForgeArgsFail(i)) && !(evt.l1Batch && fails(UnforgedFails(i)))
    && !fails(CoordinatorTxsFail(i)) && (forall tx :: tx in evt.l1CoordinatorTxs ==> L1Type(tx).Ok?)
    && !fails(L2TypesFail(i)) && (forall tx :: tx in evt.l2TxsData ==> L2Type(tx.toIdx).Ok?)
  }

  /** The batch of an event in a block: `next` is the queue that it forges if it forges one. */
  function BatchOf(c: AuctionConstants, blocks: seq<BlockData>, cb: ChainBlock, evt: ForgeEvent, next: int): Batch
    requires c.Valid()
  {
    var l1UserTxs := if evt.l1Batch then ToForge(blocks, next, cb.l1UserTxs) else [];
    Batch(evt.batchNum, evt.ethTxHash, cb.block.num, if evt.l1Batch then Some(next) else None, SlotOf(c, cb.block.num),
          evt.cfg, evt.feeIdxCoordinator, l1UserTxs, CoordinatorTxs(evt.l1CoordinatorTxs, |l1UserTxs|),
          seq(|evt.l2TxsData|, k requires 0 <= k < |evt.l2TxsData| => Rebuild.Rebuilt(evt.l2TxsData[k])))
  }

  /** What executing a batch makes of a ledger, also when it fails. */
  function ExecutedStep(st: Ledger.State, b: Batch): Effects.Step {
    Effects.ProcessTxs(Effects.Synchronizer, b.cfg, st, b.feeIdxs, b.l1UserTxs, b.l1CoordinatorTxs, b.l2Txs)
  }

  /** The ledger and its batch number, the batches read so far, and whether nothing failed. */
  datatype Progress = Progress(st: Ledger.State, current: nat, batches: seq<Batch>, ok: bool)

  /** The queue that the next batch forges if it forges one. */
  function NextNum(blocks: seq<BlockData>, batches: seq<Batch>): int {
    NextL1TxsNum(blocks) + |L1Batches(batches)|
  }

  lemma NextNumIs(blocks: seq<BlockData>, batches: seq<Batch>)
    requires Numbered(Batches(blocks))
    ensures NextNum(blocks, batches) == |L1Batches(Batches(blocks) + batches)|
    ensures NextNum(blocks, []) == NextL1TxsNum(blocks)
  {
    GreatestL1Num(Batches(blocks));
    L1BatchesConcat(Batches(blocks), batches);
  }

  lemma BatchFields(c: AuctionConstants, blocks: seq<BlockData>, cb: ChainBlock, evt: ForgeEvent, next: int)
    requires c.Valid()
    ensures var b := BatchOf(c, blocks, cb, evt, next);
            && b.batchNum == evt.batchNum && b.forgeL1TxsNum == (if evt.l1Batch then Some(next) else None)
            && b.ethBlockNum == cb.block.num && b.slotNum == SlotOf(c, cb.block.num)
  {
  }

  /** The i-th batch of a block. */
  function ForgeStep(c: AuctionConstants, blocks: seq<BlockData>, cb: ChainBlock, p: Progress, i: nat,
                     fails: Faults): Progress
    requires c.Valid() && i < |cb.forgeBatch|
  {
    var evt := cb.forgeBatch[i];
    if !p.ok then p
    else if !Readable(evt, i, fails) then p.(ok := false)
    else
      var b := BatchOf(c, blocks, cb, evt, NextNum(blocks, p.batches));
      var s := ExecutedStep(p.st, b);
      if s.err.Some? then p.(st := s.p.st, ok := false)
      else if p.current + 1 != evt.batchNum || s.p.st.accounts != evt.newStRoot || fails(BatchFails(i)) then
        p.(st := s.p.st, current := p.current + 1, ok := false)
      else Progress(s.p.st, p.current + 1, p.batches + [b], true)
  }

  function ForgeSteps(c: AuctionConstants, blocks: seq<BlockData>, cb: ChainBlock, p: Progress, n: nat,
                      fails: Faults): Progress
    requires c.Valid() && n <= |cb.forgeBatch|
  {
    if n == 0 then p else ForgeStep(c, blocks, cb, ForgeSteps(c, blocks, cb, p, n - 1, fails), n - 1, fails)
  }

  /** All batches of a block. */
  function ForgeAll(c: AuctionConstants, blocks: seq<BlockData>, cb: ChainBlock, st: Ledger.State, current: nat,
                    fails: Faults): Progress
    requires c.Valid()
  {
    if fails(NextL1NumFails) then Progress(st, current, [], false)
    else ForgeSteps(c, blocks, cb, Progress(st, current, [], true), |cb.forgeBatch|, fails)
  }

  lemma {:induction false} ForgeStops(c: AuctionConstants, blocks: seq<BlockData>, cb: ChainBlock, p: Progress,
                                      k: nat, n: nat, fails: Faults)
    requires c.Valid() && k <= n <= |cb.forgeBatch| && !ForgeSteps(c, blocks, cb, p, k, fails).ok
    ensures ForgeSteps(c, blocks, cb, p, n, fails) == ForgeSteps(c, blocks, cb, p, k, fails)
  {
    if k < n {
      ForgeStops(c, blocks, cb, p, k, n - 1, fails);
    }
  }

  /** The first batch is executed and accepted, or leaves something behind. */
  predicate FirstBatchMoves(c: AuctionConstants, blocks: seq<BlockData>, cb: ChainBlock, st: Ledger.State,
                            fails: Faults)
    requires c.Valid()
  {
    && !fails(NextL1NumFails) && cb.forgeBatch != [] && Readable(cb.forgeBatch[0], 0, fails)
    && var s := ExecutedStep(st, BatchOf(c, blocks, cb, cb.forgeBatch[0], NextNum(blocks, [])));
       s.err.None? || s.p.st != st
  }

  /** The number of the batch never goes back. */
  lemma {:induction false} NumberRises(c: AuctionConstants, blocks: seq<BlockData>, cb: ChainBlock, p: Progress,
                                       k: nat, n: nat, fails: Faults)
    requires c.Valid() && k <= n <= |cb.forgeBatch|
    ensures ForgeSteps(c, blocks, cb, p, k, fails).current <= ForgeSteps(c, blocks, cb, p, n, fails).current
  {
    hide Readable, BatchOf, ExecutedStep;
    if k < n {
      NumberRises(c, blocks, cb, p, k, n - 1, fails);
    }
  }

  /** The batches of a block move the ledger or its number if and only if the first one does. */
  lemma ForgeMovesIff(c: AuctionConstants, blocks: seq<BlockData>, cb: ChainBlock, st: Ledger.State, current: nat,
                      fails: Faults)
    requires c.Valid()
    ensures var p := ForgeAll(c, blocks, cb, st, current, fails);
            (p.st != st || p.current != current) <==> FirstBatchMoves(c, blocks, cb, st, fails)
  {
    hide Readable, BatchOf, ExecutedStep;
    var p0 := Progress(st, current, [], true);
    if !fails(NextL1NumFails) && cb.forgeBatch != [] {
      var first := ForgeSteps(c, blocks, cb, p0, 1, fails);
      assert first == ForgeStep(c, blocks, cb, ForgeSteps(c, blocks, cb, p0, 0, fails), 0, fails);
      if !first.ok {
        ForgeStops(c, blocks, cb, p0, 1, |cb.forgeBatch|, fails);
      } else {
        NumberRises(c, blocks, cb, p0, 1, |cb.forgeBatch|, fails);
      }
    }
  }

  // ---- A failing batch that leaves nothing behind ----

  /** Two accounts of the same token. */
  function Pair(x: nat, y: nat): Ledger.State {
    Ledger.State(map[256 := Account(0, 0, x, EMPTY_BJJ, FF_ADDR), 257 := Account(0, 0, y, EMPTY_BJJ, FF_ADDR)],
                     257, map[], map[])
  }

  /** A forced transfer of five. */
  function ForcedFive(from: Idx, to: Idx): L1Tx {
    L1Tx(0, true, from, FF_ADDR, EMPTY_BJJ, to, 0, 5, 0, None, None, TxTypeForceTransfer)
  }

  /** A transfer from an account that does not exist. */
  const FROM_NOBODY := Rebuild.Rebuilt(L2Tx(300, 256, 1, 0, TxTypeTransfer))

  lemma FiveForth(p: Effects.Proc)
    requires p.st == Pair(10, 10)
    ensures Effects.L1Step(Effects.Synchronizer, p, ForcedFive(256, 257)) == Effects.Step(p.(st := Pair(5, 15)), None, None)
  {
    assert p.st.accounts[256].balance == 10 && p.st.accounts[257].balance == 10;
    assert Effects.Effective(p.st, ForcedFive(256, 257)) == (0, 5);
    var t := Effects.L1View(Effects.WithEffective(p.st, ForcedFive(256, 257)));
    assert Effects.Debit(Effects.Synchronizer, map[], p, t) == Effects.Step(p.(st := Pair(5, 10)), None, None);
    assert Pair(5, 10).accounts[257].balance == 10;
    assert Effects.Credit(Pair(5, 10), 257, 5).st == Pair(5, 15);
  }

  lemma FiveBack(p: Effects.Proc)
    requires p.st == Pair(5, 15)
    ensures Effects.L1Step(Effects.Synchronizer, p, ForcedFive(257, 256)) == Effects.Step(p.(st := Pair(10, 10)), None, None)
  {
    assert p.st.accounts[256].balance == 5 && p.st.accounts[257].balance == 15;
    assert Effects.Effective(p.st, ForcedFive(257, 256)) == (0, 5);
    var t := Effects.L1View(Effects.WithEffective(p.st, ForcedFive(257, 256)));
    assert Effects.Debit(Effects.Synchronizer, map[], p, t) == Effects.Step(p.(st := Pair(5, 10)), None, None);
    assert Pair(5, 10).accounts[256].balance == 5;
    assert Effects.Credit(Pair(5, 10), 256, 5).st == Pair(10, 10);
  }

  /**
   Two forced transfers that cancel out and a tx that fails: the batch fails after it moved the
   ledger, and leaves it as it was. What its txs are does not tell whether it moves the ledger.
   */
  lemma CancelledTransfers(cfg: Config)
    requires cfg.maxTx >= 3 && cfg.maxL1Tx >= 2
    ensures var l1 := [ForcedFive(256, 257), ForcedFive(257, 256)];
            var s := Effects.ProcessTxs(Effects.Synchronizer, cfg, Pair(10, 10), [], l1, [], [FROM_NOBODY]);
            var half := Effects.RunL1(Effects.Synchronizer, cfg, Effects.Proc(Pair(10, 10), map[], map[], map[]), l1[..1]);
            s.err.Some? && s.p.st == Pair(10, 10) && half.err.None? && half.p.st != Pair(10, 10)
  {
    hide Effects.L1Step, Effects.L2Step;
    var l1 := [ForcedFive(256, 257), ForcedFive(257, 256)];
    var p := Effects.Proc(Pair(10, 10), map[], map[], map[]);
    var q := Effects.Proc(Pair(5, 15), map[], map[], map[]);
    FiveForth(p);
    FiveBack(q);
    assert l1[..1] == [l1[0]] && l1[..1][..0] == [];
    assert Effects.RunL1(Effects.Synchronizer, cfg, p, l1[..1][..0]) == Effects.Step(p, None, None);
    assert Effects.RunL1(Effects.Synchronizer, cfg, p, l1[..1]) == Effects.Step(q, None, None);
    assert Effects.RunL1(Effects.Synchronizer, cfg, p, l1) == Effects.Step(p, None, None);
    assert l1 + [] == l1;
    assert Pair(5, 15).accounts[256].balance != Pair(10, 10).accounts[256].balance;
    NobodyFails(p);
    var start := Effects.StartL2(Effects.Synchronizer, p, [], map[]);
    assert Effects.FirstPerToken(p.st, []) == Ok([]) && Effects.CoordMap(p.st, []) == Ok(map[]);
    assert [FROM_NOBODY][..0] == [];
    assert Effects.RunL2(Effects.Synchronizer, map[], start, [FROM_NOBODY][..0]) == Effects.Step(start, None, None);
    assert Effects.RunL2(Effects.Synchronizer, map[], start, [FROM_NOBODY])
           == Effects.Step(start, Some(AccountNotFound), None);
  }

  lemma NobodyFails(p: Effects.Proc)
    requires p.st == Pair(10, 10)
    ensures var q := Effects.StartL2(Effects.Synchronizer, p, [], map[]);
            Effects.L2Step(Effects.Synchronizer, map[], q, FROM_NOBODY) == Effects.Step(q, Some(AccountNotFound), None)
  {
  }

  // ---- Variables ----

  function Applied(values: map<string, int>, updates: seq<(string, int)>): map<string, int> {
    if updates == [] then values
    else
      var n := |updates| - 1;
      Applied(values, updates[..n])[updates[n].0 := updates[n].1]
  }

  /** The variables of a contract after the updates of a block, and what is stored of them. */
  function Updated(v: ContractVars, updates: seq<(string, int)>, blockNum: int): (ContractVars, Option<ContractVars>) {
    if updates == [] then (v, None)
    else
      var u := ContractVars(blockNum, Applied(v.values, updates));
      (u, Some(u))
  }

  /** The first of `n` updates that fails; `n` if none does. */
  function FirstFailure(n: nat, failsAt: nat -> bool): (k: nat)
    ensures k <= n && (k < n ==> failsAt(k)) && forall i: nat :: i < k ==> !failsAt(i)
  {
    if n == 0 then 0
    else
      var k := FirstFailure(n - 1, failsAt);
      if k < n - 1 || failsAt(n - 1) then k else n
  }

  lemma FirstFailureIs(n: nat, failsAt: nat -> bool, k: nat)
    requires k < n && failsAt(k) && forall i: nat :: i < k ==> !failsAt(i)
    ensures FirstFailure(n, failsAt) == k
  {
    var first := FirstFailure(n, failsAt);
    assert !(first < k) && !(k < first);
  }

  predicate Completes(updates: seq<(string, int)>, failsAt: nat -> bool) {
    FirstFailure(|updates|, failsAt) == |updates|
  }

  /** The variables that are reached: all updates and the block noted, or the updates before the failing one. */
  function Reached(v: ContractVars, updates: seq<(string, int)>, blockNum: int, failsAt: nat -> bool): ContractVars {
    if Completes(updates, failsAt) then Updated(v, updates, blockNum).0
    else v.(values := Applied(v.values, updates[..FirstFailure(|updates|, failsAt)]))
  }

  function RollupFault(fails: Faults): nat -> bool {
    (i: nat) => fails(RollupUpdateFails(i))
  }

  function AuctionFault(fails: Faults): nat -> bool {
    (i: nat) => fails(AuctionUpdateFails(i))
  }

  function WDelayerFault(fails: Faults): nat -> bool {
    (i: nat) => fails(WDelayerUpdateFails(i))
  }

  // ---- A whole block ----

  /** What reading a block leaves: ledger, batch number, variables, and the data if nothing failed. */
  datatype Reading = Reading(st: Ledger.State, current: nat, vars: SCVars, data: Option<BlockData>)

  function ReadBlock(c: AuctionConstants, blocks: seq<BlockData>, cb: ChainBlock, st: Ledger.State, current: nat,
                     vars: SCVars,
                     fails: Faults): Reading
    requires c.Valid()
  {
    if fails(RollupEventsFail) || fails(L1UserTxsFail) then Reading(st, current, vars, None)
    else
      var p := ForgeAll(c, blocks, cb, st, current, fails);
      if !p.ok then Reading(p.st, p.current, vars, None)
      else ReadVars(cb, p, vars, fails)
  }

  /** The part of the variables, after the batches. */
  function ReadVars(cb: ChainBlock, p: Progress, vars: SCVars, fails: Faults): Reading {
    var num := cb.block.num;
    var v1 := vars.(rollup := Reached(vars.rollup, cb.rollupUpdates, num, RollupFault(fails)));
    var v2 := v1.(auction := Reached(vars.auction, cb.auctionUpdates, num, AuctionFault(fails)));
    var v3 := v2.(wDelayer := Reached(vars.wDelayer, cb.wDelayerUpdates, num, WDelayerFault(fails)));
    if !Completes(cb.rollupUpdates, RollupFault(fails)) || fails(AuctionEventsFail) then Reading(p.st, p.current, v1, None)
    else if !Completes(cb.auctionUpdates, AuctionFault(fails)) || fails(WDelayerEventsFail) then
      Reading(p.st, p.current, v2, None)
    else if !Completes(cb.wDelayerUpdates, WDelayerFault(fails)) || fails(WithdrawalsFail) then
      Reading(p.st, p.current, v3, None)
    else
      Reading(p.st, p.current, v3,
              Some(BlockData(cb.block, p.batches, cb.l1UserTxs, Updated(vars.rollup, cb.rollupUpdates, num).1,
                             Updated(vars.auction, cb.auctionUpdates, num).1,
                             Updated(vars.wDelayer, cb.wDelayerUpdates, num).1)))
  }

  // ---- What reading a block changes ----

  /** No later update has the same name. */
  predicate LastOfName(updates: seq<(string, int)>, i: nat)
    requires i < |updates|
  {
    forall j :: i < j < |updates| ==> updates[j].0 != updates[i].0
  }

  /** Some name ends with another value than it has, or with its first one. */
  predicate Overwrites(values: map<string, int>, updates: seq<(string, int)>) {
    exists i: nat :: i < |updates| && LastOfName(updates, i)
                     && !(updates[i].0 in values && values[updates[i].0] == updates[i].1)
  }

  /** Each name has the value of its last update. */
  lemma {:induction false} AppliedAt(values: map<string, int>, updates: seq<(string, int)>, i: nat)
    requires i < |updates| && LastOfName(updates, i)
    ensures updates[i].0 in Applied(values, updates) && Applied(values, updates)[updates[i].0] == updates[i].1
  {
    var n := |updates| - 1;
    if i < n {
      assert LastOfName(updates[..n], i);
      AppliedAt(values, updates[..n], i);
    }
  }

  predicate SameAt(m: map<string, int>, values: map<string, int>, name: string) {
    (name in m <==> name in values) && (name in m && name in values ==> m[name] == values[name])
  }

  /** A name without an update keeps its value. */
  lemma {:induction false} Untouched(values: map<string, int>, updates: seq<(string, int)>,
                                     name: string) returns (i: nat)
    requires !SameAt(Applied(values, updates), values, name)
    ensures i < |updates| && LastOfName(updates, i) && updates[i].0 == name
  {
    var n := |updates| - 1;
    if name == updates[n].0 {
      i := n;
    } else {
      i := Untouched(values, updates[..n], name);
    }
  }

  lemma OverwritesIff(values: map<string, int>, updates: seq<(string, int)>)
    ensures Applied(values, updates) != values <==> Overwrites(values, updates)
  {
    hide Applied, LastOfName;
    var m := Applied(values, updates);
    if Overwrites(values, updates) {
      var i: nat :| i < |updates| && LastOfName(updates, i) &&
                      !(updates[i].0 in values && values[updates[i].0] == updates[i].1);
      AppliedAt(values, updates, i);
    } else {
      forall name: string ensures SameAt(m, values, name) {
        if !SameAt(m, values, name) {
          var i := Untouched(values, updates, name);
          AppliedAt(values, updates, i);
        }
      }
      assert forall name: string :: SameAt(m, values, name);
      assert m.Keys == values.Keys by {
        forall name: string ensures name in m <==> name in values {
          assert SameAt(m, values, name);
        }
      }
      forall name | name in m ensures m[name] == values[name] {
        assert SameAt(m, values, name);
      }
    }
  }

  /** The updates of a contract change its variables, as far as they are reached. */
  predicate Moves(v: ContractVars, updates: seq<(string, int)>, blockNum: int, failsAt: nat -> bool) {
    || Overwrites(v.values, updates[..FirstFailure(|updates|, failsAt)])
    || (Completes(updates, failsAt) && updates != [] && v.ethBlockNum != blockNum)
  }

  lemma MovesIff(v: ContractVars, updates: seq<(string, int)>, blockNum: int, failsAt: nat -> bool)
    ensures Reached(v, updates, blockNum, failsAt) != v <==> Moves(v, updates, blockNum, failsAt)
  {
    hide Overwrites, Applied, FirstFailure;
    OverwritesIff(v.values, updates[..FirstFailure(|updates|, failsAt)]);
    assert updates[..|updates|] == updates;
    if updates == [] {
      OverwritesIff(v.values, []);
      NothingApplied(v.values);
    }
  }

  lemma NothingApplied(values: map<string, int>)
    ensures Applied(values, []) == values
  {
  }

  /** After the batches, the updates of some contract are reached and change its variables. */
  predicate VarsMove(cb: ChainBlock, vars: SCVars, fails: Faults) {
    var num := cb.block.num;
    || Moves(vars.rollup, cb.rollupUpdates, num, RollupFault(fails))
    || (&& Completes(cb.rollupUpdates, RollupFault(fails)) && !fails(AuctionEventsFail)
        && (|| Moves(vars.auction, cb.auctionUpdates, num, AuctionFault(fails))
            || (&& Completes(cb.auctionUpdates, AuctionFault(fails)) && !fails(WDelayerEventsFail)
                && Moves(vars.wDelayer, cb.wDelayerUpdates, num, WDelayerFault(fails)))))
  }

  /** Reading the block executes a batch or changes a variable, whether it succeeds or not. */
  predicate ReadingMoves(c: AuctionConstants, blocks: seq<BlockData>, cb: ChainBlock, st: Ledger.State, current: nat,
                         vars: SCVars,
                         fails: Faults)
    requires c.Valid()
  {
    && !fails(RollupEventsFail) && !fails(L1UserTxsFail)
    && (|| FirstBatchMoves(c, blocks, cb, st, fails)
        || (ForgeAll(c, blocks, cb, st, current, fails).ok && VarsMove(cb, vars, fails)))
  }

  lemma ReadingMovesIff(c: AuctionConstants, blocks: seq<BlockData>, cb: ChainBlock, st: Ledger.State, current: nat,
                        vars: SCVars,
                        fails: Faults)
    requires c.Valid()
    ensures var r := ReadBlock(c, blocks, cb, st, current, vars, fails);
            (r.st != st || r.current != current || r.vars != vars)
            <==> ReadingMoves(c, blocks, cb, st, current, vars, fails)
  {
    hide ForgeAll, FirstBatchMoves, Reached, Completes, Moves, Updated;
    ForgeMovesIff(c, blocks, cb, st, current, fails);
    MovesIff(vars.rollup, cb.rollupUpdates, cb.block.num, RollupFault(fails));
    MovesIff(vars.auction, cb.auctionUpdates, cb.block.num, AuctionFault(fails));
    MovesIff(vars.wDelayer, cb.wDelayerUpdates, cb.block.num, WDelayerFault(fails));
  }
}
