/** Whole batches: the trace of working states that ProcessTxs goes through. */
module Batch {
  import opened Wrappers
  import opened Common
  import opened Ledger
  import opened Effects

  // A state root is represented by the accounts that it commits to.
  type Root = map<Idx, Account>

  function Start(st: State): Proc {
    Proc(st, map[], map[], map[])
  }

  /** A batch as it is processed: where it starts, its L1 txs, its coordinator accounts, its L2 txs. */
  datatype Run = Run(mode: Mode, cfg: Config, st: State, l1: seq<L1Tx>, coordIdxs: seq<Idx>, l2: seq<PoolL2Tx>) {

    function AfterL1(): Step {
      RunL1(mode, cfg, Start(st), l1)
    }

    function Idxs(): seq<Idx> {
      var r := FirstPerToken(AfterL1().p.st, coordIdxs);
      if r.Ok? then r.value else []
    }

    function Coords(): map<TokenID, Idx> {
      var r := CoordMap(AfterL1().p.st, Idxs());
      if r.Ok? then r.value else map[]
    }

    /** The working state after the L1 txs and the first `i` L2 txs; fees are counted from here. */
    function AfterL2(i: nat): Step
      requires i <= |l2|
    {
      RunL2(mode, Coords(), StartL2(mode, AfterL1().p, Idxs(), Coords()), l2[..i])
    }

    /** The working state after the first `k` txs of the batch, before any fee is distributed. */
    function After(k: nat): Step
      requires k <= Size()
    {
      if k <= |l1| then RunL1(mode, cfg, Start(st), l1[..k]) else AfterL2(k - |l1|)
    }

    /** An intermediate state: the last index, the root, and the fees so far. */
    function WitnessSlot(p: Proc): Intermediate {
      (p.st.currentIdx, p.st.accounts, FeeRow(p.collected, FeeTokens(), cfg.maxFeeTx))
    }

    function SlotAfter(k: nat): Intermediate
      requires k <= Size()
    {
      WitnessSlot(After(k).p)
    }

    function Size(): nat {
      |l1| + |l2|
    }

    /** What the txs from the `from`-th to the `to`-th wrote to the exit tree, one entry per tx. */
    function Exits(from: nat, to: nat): seq<Option<(Idx, Account)>>
      requires from <= to <= Size()
    {
      seq(to - from, j requires 0 <= j < to - from => After(from + j + 1).exit)
    }

    /** The accounts that the first `n` L1 txs create, as they are right after their creation. */
    function CreatedAccounts(n: nat): seq<(Idx, Account)>
      requires n <= |l1|
    {
      if n == 0 then [] else CreatedAccounts(n - 1) + CreatedBy(l1[n - 1], After(n).p.st)
    }

    /** The token of each coordinator account, in the order fees are listed in. */
    function FeeTokens(): seq<TokenID> {
      seq(|Idxs()|, j requires 0 <= j < |Idxs()| => TokenOf(AfterL1().p.st, Idxs()[j]))
    }
  }

  /** What one slot of the intermediate states holds. */
  type Intermediate = (Idx, Root, seq<nat>)

  /** The fees collected per coordinator, padded with zeros to the number of fee slots. */
  function FeeRow(collected: map<TokenID, nat>, tokens: seq<TokenID>, slots: nat): seq<nat> {
    seq(slots, j requires 0 <= j < slots => if j < |tokens| then At(collected, tokens[j]) else 0)
  }

  /** The account that an L1 tx created, given the state after it. */
  function CreatedBy(tx: L1Tx, st: State): seq<(Idx, Account)> {
    if Creates(tx.txType) && GetAccount(st, st.currentIdx).Ok? then
      [(st.currentIdx, GetAccount(st, st.currentIdx).value)]
    else []
  }

  predicate Creates(t: TxType) {
    t == TxTypeCreateAccountDeposit || t == TxTypeCreateAccountDepositTransfer
  }

  /** The indexes of a list of exit leaves, each once, in the order they first appear. */
  function ExitOrder(exits: seq<Option<(Idx, Account)>>): seq<Idx> {
    if exits == [] then []
    else
      var n := |exits| - 1;
      var before := ExitOrder(exits[..n]);
      if exits[n].Some? && exits[n].value.0 !in before then before + [exits[n].value.0] else before
  }

  /** For every index, the leaf its last exit wrote. */
  function LastLeaf(exits: seq<Option<(Idx, Account)>>): map<Idx, Account> {
    if exits == [] then map[]
    else
      var n := |exits| - 1;
      var before := LastLeaf(exits[..n]);
      if exits[n].Some? then before[exits[n].value.0 := exits[n].value.1] else before
  }

  lemma {:induction false} ExitOrderKeys(exits: seq<Option<(Idx, Account)>>)
    ensures forall i :: i in ExitOrder(exits) <==> i in LastLeaf(exits)
  {
    if exits != [] {
      ExitOrderKeys(exits[..|exits| - 1]);
    }
  }

  lemma L1DebitKeepsFees(mode: Mode, coords: map<TokenID, Idx>, p: Proc, tx: Tx)
    requires tx.isL1
    ensures Debit(mode, coords, p, tx).p == p.(st := Debit(mode, coords, p, tx).p.st)
  {
    hide Charge, UpdateAccount;
  }

  lemma L1StepKeepsFees(mode: Mode, p: Proc, tx: L1Tx)
    ensures L1Step(mode, p, tx).p.fees == p.fees && L1Step(mode, p, tx).p.collected == p.collected
  {
    hide Effective, L1Create, Credit, Debit, EncodableL1, ExitLeaf;
    L1DebitKeepsFees(mode, map[], p, L1View(WithEffective(p.st, tx)));
  }

  /** L1 txs pay no fees. */
  lemma {:induction false} L1KeepsFees(mode: Mode, cfg: Config, p: Proc, txs: seq<L1Tx>)
    ensures RunL1(mode, cfg, p, txs).p.fees == p.fees
    ensures RunL1(mode, cfg, p, txs).p.collected == p.collected
  {
    hide L1Step, PublishableL1;
    if txs != [] {
      var n := |txs| - 1;
      L1KeepsFees(mode, cfg, p, txs[..n]);
      L1StepKeepsFees(mode, RunL1(mode, cfg, p, txs[..n]).p, txs[n]);
    }
  }

  /** A run that fails stays where it failed. */
  lemma {:induction false} L1FailsEarly(mode: Mode, cfg: Config, p: Proc, txs: seq<L1Tx>, k: nat)
    requires k <= |txs| && RunL1(mode, cfg, p, txs[..k]).err.Some?
    ensures RunL1(mode, cfg, p, txs) == RunL1(mode, cfg, p, txs[..k])
  {
    hide L1BatchStep;
    if k < |txs| {
      var n := |txs| - 1;
      assert txs[..n][..k] == txs[..k];
      L1FailsEarly(mode, cfg, p, txs[..n], k);
    } else {
      assert txs[..k] == txs;
    }
  }

  lemma {:induction false} L2FailsEarly(mode: Mode, coords: map<TokenID, Idx>, p: Proc, txs: seq<PoolL2Tx>, k: nat)
    requires k <= |txs| && RunL2(mode, coords, p, txs[..k]).err.Some?
    ensures RunL2(mode, coords, p, txs) == RunL2(mode, coords, p, txs[..k])
  {
    hide L2Step;
    if k < |txs| {
      var n := |txs| - 1;
      assert txs[..n][..k] == txs[..k];
      L2FailsEarly(mode, coords, p, txs[..n], k);
    } else {
      assert txs[..k] == txs;
    }
  }

  /** Before any L2 tx the collected fees are all zero. */
  lemma L1SlotHasNoFees(run: Run, k: nat)
    requires k <= |run.l1|
    ensures run.SlotAfter(k).2 == seq(run.cfg.maxFeeTx, _ => 0)
  {
    L1KeepsFees(run.mode, run.cfg, Start(run.st), run.l1[..k]);
  }

  lemma AfterNothing(run: Run)
    ensures run.After(0) == Step(Start(run.st), None, None)
  {
  }

  /** One more L1 tx. */
  lemma AfterL1Tx(run: Run, k: nat)
    requires k < |run.l1| && run.After(k).err == None
    ensures run.After(k + 1) == L1BatchStep(run.mode, run.cfg, run.After(k).p, k, run.l1[k])
  {
    assert run.l1[..k + 1][..k] == run.l1[..k];
  }

  /** A batch whose L1 txs fail stays where they failed. */
  lemma AfterFails(run: Run, k: nat, n: nat)
    requires k <= n <= |run.l1| && run.After(k).err.Some?
    ensures run.After(n) == run.After(k)
  {
    assert run.l1[..n][..k] == run.l1[..k];
    L1FailsEarly(run.mode, run.cfg, Start(run.st), run.l1[..n], k);
  }

  /** The first `n` slots are filled, the j-th one with the intermediate state after `j + 1` txs. */
  ghost predicate Witness(slots: seq<Intermediate>, run: Run, n: nat)
    requires n <= run.Size()
  {
    forall j: nat :: j < n && j < |slots| ==> slots[j] == run.SlotAfter(j + 1)
  }

  /** No fee row has been written from slot `n` on. */
  ghost predicate NoFeeRows(slots: seq<Intermediate>, width: nat, n: nat) {
    forall j: nat :: n <= j < |slots| ==> slots[j].2 == seq(width, _ => 0)
  }

  /** An L2 tx fills in the whole slot. */
  lemma L2TxFillsSlot(slots: seq<Intermediate>, run: Run, i: nat)
    requires i < |run.l2| && |run.l1| + i < |slots|
    requires Witness(slots, run, |run.l1| + i)
    ensures Witness(slots[|run.l1| + i := run.WitnessSlot(run.AfterL2(i + 1).p)], run, |run.l1| + i + 1)
  {
  }

  /** Every slot shows the ledger after its tx, and those past the last tx the final one. */
  ghost predicate FullWitness(slots: seq<Intermediate>, run: Run) {
    forall j: nat :: j < |slots| ==> slots[j] == run.SlotAfter(if j < run.Size() then j + 1 else run.Size())
  }

  /** The slots before the last tx are the witness of it. */
  lemma FinalSlot(run: Run)
    ensures run.WitnessSlot(run.AfterL2(|run.l2|).p) == run.SlotAfter(run.Size())
  {
    if run.l2 == [] {
      StartL2SameSlot(run);
    }
  }

  lemma WitnessNothing(slots: seq<Intermediate>, run: Run)
    ensures Witness(slots, run, 0)
  {
  }

  /** An L1 tx fills in its index and its root and leaves the fee row at zero. */
  lemma L1TxFillsSlot(slots: seq<Intermediate>, run: Run, j: nat, st: State)
    requires j < |run.l1| && j < |slots|
    requires Witness(slots, run, j) && NoFeeRows(slots, run.cfg.maxFeeTx, j)
    requires st == run.After(j + 1).p.st
    ensures var s := slots[j := (st.currentIdx, st.accounts, slots[j].2)];
            Witness(s, run, j + 1) && NoFeeRows(s, run.cfg.maxFeeTx, j + 1)
  {
    L1SlotHasNoFees(run, j + 1);
  }

  lemma BeforeL2(run: Run)
    ensures run.AfterL2(0) == Step(StartL2(run.mode, run.AfterL1().p, run.Idxs(), run.Coords()), None, None)
  {
  }

  /** The coordinator accounts of a run exist, hold the tokens listed for, and are no more than were given. */
  lemma Coordinators(run: Run)
    requires FirstPerToken(run.AfterL1().p.st, run.coordIdxs).Ok?
    ensures FirstPerToken(run.AfterL1().p.st, run.coordIdxs) == Ok(run.Idxs())
    ensures CoordMap(run.AfterL1().p.st, run.Idxs()) == Ok(run.Coords())
    ensures |run.Idxs()| <= |run.coordIdxs|
    ensures forall i :: i in run.Idxs() ==> GetAccount(run.AfterL1().p.st, i).Ok?
    ensures forall t :: t in run.Coords() ==>
              run.Coords()[t] in run.Idxs() && TokenOf(run.AfterL1().p.st, run.Coords()[t]) == t
  {
    hide RunL1, FirstPerToken, CoordMap;
    FirstPerTokenFilters(run.AfterL1().p.st, run.coordIdxs);
    CoordMapTokens(run.AfterL1().p.st, run.Idxs());
  }

  /** One more L2 tx. */
  lemma AfterL2Tx(run: Run, i: nat)
    requires i < |run.l2| && run.AfterL2(i).err == None
    ensures run.AfterL2(i + 1) == L2Step(run.mode, run.Coords(), run.AfterL2(i).p, run.l2[i])
    ensures run.After(|run.l1| + i + 1) == run.AfterL2(i + 1)
  {
    assert run.l2[..i + 1][..i] == run.l2[..i];
  }

  lemma AfterL2Fails(run: Run, k: nat)
    requires k <= |run.l2| && run.AfterL2(k).err.Some?
    ensures run.AfterL2(|run.l2|) == run.AfterL2(k)
  {
    assert run.l2[..|run.l2|] == run.l2;
    L2FailsEarly(run.mode, run.Coords(), StartL2(run.mode, run.AfterL1().p, run.Idxs(), run.Coords()), run.l2, k);
  }

  lemma NoFeesYet(collected: map<TokenID, nat>, tokens: seq<TokenID>, slots: nat)
    requires forall t :: t in collected ==> collected[t] == 0
    ensures FeeRow(collected, tokens, slots) == seq(slots, _ => 0)
  {
  }

  /** Starting to count fees does not show in the intermediate states: there are none yet. */
  lemma StartL2SameSlot(run: Run)
    ensures run.WitnessSlot(run.AfterL2(0).p) == run.SlotAfter(|run.l1|)
  {
    assert run.l1[..|run.l1|] == run.l1;
    L1KeepsFees(run.mode, run.cfg, Start(run.st), run.l1);
    NoFeesYet(run.AfterL2(0).p.collected, run.FeeTokens(), run.cfg.maxFeeTx);
    NoFeesYet(map[], run.FeeTokens(), run.cfg.maxFeeTx);
  }

  lemma {:induction false} LastLeafOfFirst(exits: seq<Option<(Idx, Account)>>, k: nat)
    requires k < |exits|
    ensures exits[k].Some? ==> exits[k].value.0 in LastLeaf(exits)
  {
    if k < |exits| - 1 {
      LastLeafOfFirst(exits[..|exits| - 1], k);
    }
  }

  /** The exits reported for a list of exit leaves. */
  function ExitInfos(exits: seq<Option<(Idx, Account)>>): seq<(Idx, int)> {
    var order := ExitOrder(exits);
    var last := LastLeaf(exits);
    seq(|order|, k requires 0 <= k < |order| => (order[k], if order[k] in last then last[order[k]].balance else 0))
  }

  function RunOf(mode: Mode, cfg: Config, st: State, coordIdxs: seq<Idx>,
                 l1User: seq<L1Tx>, l1Coord: seq<L1Tx>, l2: seq<PoolL2Tx>): Run
  {
    Run(mode, cfg, st, l1User + l1Coord, coordIdxs, l2)
  }

  /** What the synchronizer reports besides the new state. */
  datatype Output = Output(
    exitInfos: seq<(Idx, int)>,
    createdAccounts: seq<(Idx, Account)>,
    coordinatorIdxsMap: map<TokenID, Idx>,
    collectedFees: map<TokenID, nat>
  )

  /** Exits of L1 coordinator txs would not be reported; they have none. */
  function OutputOf(run: Run, nUser: nat): Output
    requires nUser <= |run.l1|
  {
    Output(ExitInfos(run.Exits(0, nUser) + run.Exits(|run.l1|, run.Size())), run.CreatedAccounts(|run.l1|),
           run.Coords(), run.AfterL2(|run.l2|).p.collected)
  }

  /** The working state after the fees of a run are distributed, or where it fails. */
  function BatchStep(run: Run): Step {
    var s1 := run.AfterL1();
    if s1.err.Some? then s1
    else
      match FirstPerToken(s1.p.st, run.coordIdxs)
      case Err(e) => Step(s1.p, Some(e), None)
      case Ok(_) =>
        var s2 := run.AfterL2(|run.l2|);
        if s2.err.Some? then s2
        else
          var o := Distribute(s2.p.st, run.Idxs(), s2.p.fees);
          Step(s2.p.(st := o.st), o.err, None)
  }

  /** The whole batch is its run: the error that CoordMap could give cannot occur. */
  lemma ProcessTxsIsRun(mode: Mode, cfg: Config, st: State, coordIdxs: seq<Idx>,
                        l1User: seq<L1Tx>, l1Coord: seq<L1Tx>, l2: seq<PoolL2Tx>)
    requires !TooMany(cfg, |coordIdxs|, |l1User| + |l1Coord|, |l2|)
    ensures ProcessTxs(mode, cfg, st, coordIdxs, l1User, l1Coord, l2)
            == BatchStep(RunOf(mode, cfg, st, coordIdxs, l1User, l1Coord, l2))
  {
    hide RunL1, FirstPerToken, CoordMap, Distribute, L2Step;
    var run := RunOf(mode, cfg, st, coordIdxs, l1User, l1Coord, l2);
    assert l2[..|l2|] == l2;
    if FirstPerToken(run.AfterL1().p.st, coordIdxs).Ok? {
      Coordinators(run);
    }
  }

  lemma TooManyFails(mode: Mode, cfg: Config, st: State, coordIdxs: seq<Idx>,
                     l1User: seq<L1Tx>, l1Coord: seq<L1Tx>, l2: seq<PoolL2Tx>)
    requires TooMany(cfg, |coordIdxs|, |l1User| + |l1Coord|, |l2|)
    ensures var s := ProcessTxs(mode, cfg, st, coordIdxs, l1User, l1Coord, l2); s.p.st == st && s.err == Some(TooManyTxs)
  {
  }

  lemma AfterAllL1(run: Run)
    ensures run.After(|run.l1|) == run.AfterL1()
  {
    assert run.l1[..|run.l1|] == run.l1;
  }
}
