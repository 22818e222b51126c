/** What a batch reports: exits, one per account with everything that it took out, and created accounts. */
module Exits {
  import opened Wrappers
  import opened Common
  import opened Ledger
  import opened Effects
  import opened Batch
  import opened Funds
  import opened Conservation

  /** An account that asks for an exit of a nonzero amount, and the amount that it is executed with. */
  type Event = Option<(Idx, nat)>

  function L1Event(st: State, tx: L1Tx): Event {
    if tx.txType == TxTypeForceExit && tx.amount != 0 then Some((tx.fromIdx, Effective(st, tx).1)) else None
  }

  function L2Event(tx: PoolL2Tx): Event {
    if tx.txType == TxTypeExit && tx.amount != 0 then Some((tx.fromIdx, tx.amount)) else None
  }

  /** The exit, if any, of the k-th tx of a batch. */
  function EventAt(run: Run, k: nat): Event
    requires k < run.Size()
  {
    if k < |run.l1| then L1Event(run.After(k).p.st, run.l1[k]) else L2Event(run.l2[k - |run.l1|])
  }

  function Events(run: Run): seq<Event> {
    seq(run.Size(), k requires 0 <= k < run.Size() => EventAt(run, k))
  }

  /** Everything an account takes out. */
  function TakenOut(events: seq<Event>, i: Idx): nat {
    if events == [] then 0
    else
      var n := |events| - 1;
      TakenOut(events[..n], i) + (if events[n].Some? && events[n].value.0 == i then events[n].value.1 else 0)
  }

  predicate Is(e: Event, i: Idx) {
    e.Some? && e.value.0 == i
  }

  /** The first exit of an account among the events. */
  ghost predicate FirstAt(events: seq<Event>, i: Idx, k: nat) {
    k < |events| && Is(events[k], i) && forall j :: 0 <= j < k ==> !Is(events[j], i)
  }

  ghost predicate Occurs(events: seq<Event>, i: Idx) {
    exists k: nat :: k < |events| && Is(events[k], i)
  }

  /** The accounts are listed in the order of their first exits. */
  ghost predicate InOrder(keys: seq<Idx>, events: seq<Event>) {
    forall a, b, j: nat, k: nat ::
      0 <= a < b < |keys| && FirstAt(events, keys[a], j) && FirstAt(events, keys[b], k) ==> j < k
  }

  /** The leaves that were written are those of the events. */
  ghost predicate Match(exits: seq<Option<(Idx, Account)>>, events: seq<Event>) {
    && |exits| == |events|
    && forall j :: 0 <= j < |exits| ==>
           match exits[j] case None => events[j] == None case Some(leaf) => Is(events[j], leaf.0)
  }

  function Keys(infos: seq<(Idx, int)>): seq<Idx> {
    seq(|infos|, a requires 0 <= a < |infos| => infos[a].0)
  }

  // ---- One tx ----

  /** The step writes the leaf of its event, and only that. */
  ghost predicate Writes(p: Proc, s: Step, e: Event) {
    match e
    case None => s.exit == None && s.p.exits == p.exits
    case Some((i, amount)) =>
      && s.exit.Some? && s.exit.value.0 == i
      && s.exit.value.1.balance == (if i in p.exits then p.exits[i].balance else 0) + amount
      && s.p.exits == p.exits[i := s.exit.value.1]
  }

  lemma TransferWrites(mode: Mode, coords: map<TokenID, Idx>, p: Proc, tx: Tx, auxToIdx: Idx)
    ensures Writes(p, Transfer(mode, coords, p, tx, auxToIdx), None)
  {
    hide Debit;
    DebitKeepsExits(mode, coords, p, tx);
    DebitWritesNoExit(mode, coords, p, tx);
  }

  lemma DebitWritesNoExit(mode: Mode, coords: map<TokenID, Idx>, p: Proc, tx: Tx)
    ensures Debit(mode, coords, p, tx).exit == None
  {
  }

  lemma ExitWrites(mode: Mode, coords: map<TokenID, Idx>, p: Proc, tx: Tx, requested: nat)
    requires mode != TxSelector && Exit(mode, coords, p, tx, requested).err == None
    ensures Writes(p, Exit(mode, coords, p, tx, requested), if requested == 0 then None else Some((tx.fromIdx, tx.amount)))
  {
    hide Debit;
    DebitKeepsExits(mode, coords, p, tx);
    DebitWritesNoExit(mode, coords, p, tx);
  }

  lemma L1StepWrites(mode: Mode, cfg: Config, p: Proc, n: nat, tx: L1Tx)
    requires mode != TxSelector && L1BatchStep(mode, cfg, p, n, tx).err == None
    ensures Writes(p, L1BatchStep(mode, cfg, p, n, tx), L1Event(p.st, tx))
  {
    hide Effective, Transfer, Exit, L1Create, EncodableL1, PublishableL1;
    var t := WithEffective(p.st, tx);
    match tx.txType
    case TxTypeForceTransfer => TransferWrites(mode, map[], p, L1View(t), 0);
    case TxTypeForceExit => ExitWrites(mode, map[], p, L1View(t), tx.amount);
    case _ =>
  }

  lemma L2StepWrites(mode: Mode, coords: map<TokenID, Idx>, p: Proc, tx: PoolL2Tx)
    requires mode != TxSelector && L2Step(mode, coords, p, tx).err == None
    ensures Writes(p, L2Step(mode, coords, p, tx), L2Event(tx))
  {
    hide Transfer, Exit, BuilderCheck, GetIdxByEthAddrBJJ, Writes;
    var t := Resolve(mode, p.st, tx).value;
    match tx.txType
    case TxTypeExit => ExitWrites(mode, coords, p, L2View(t), t.amount);
    case _ =>
      TransferWrites(mode, coords, p, L2View(t), t.auxToIdx);
      WritesNothing(p);
  }

  lemma WritesNothing(p: Proc)
    ensures Writes(p, Step(p, None, None), None)
  {
  }

  // ---- The whole batch ----

  /** A batch that succeeds has succeeded after each of its txs. */
  lemma SucceedsSoFar(run: Run, k: nat)
    requires BatchStep(run).err == None && k <= run.Size()
    ensures run.After(k).err == None
    ensures k >= |run.l1| ==> run.AfterL2(k - |run.l1|).err == None
  {
    hide RunL1, RunL2, Run.Idxs, Run.Coords, Run.After, FirstPerToken, Distribute;
    AfterAllL1(run);
    if k <= |run.l1| && run.After(k).err.Some? {
      AfterFails(run, k, |run.l1|);
    }
    if k >= |run.l1| {
      if run.AfterL2(k - |run.l1|).err.Some? {
        AfterL2Fails(run, k - |run.l1|);
      }
      LaterIsAfterL2(run, k);
    }
  }

  lemma LaterIsAfterL2(run: Run, k: nat)
    requires |run.l1| <= k <= run.Size()
    ensures k > |run.l1| ==> run.After(k) == run.AfterL2(k - |run.l1|)
  {
  }

  lemma StepWrites(run: Run, k: nat)
    requires run.mode != TxSelector && BatchStep(run).err == None && k < run.Size()
    ensures Writes(run.After(k).p, run.After(k + 1), EventAt(run, k))
  {
    hide RunL1, RunL2, L1BatchStep, L2Step, Run.Idxs, Run.Coords, BatchStep, Run.AfterL1, Run.AfterL2;
    SucceedsSoFar(run, k);
    SucceedsSoFar(run, k + 1);
    if k < |run.l1| {
      AfterL1Tx(run, k);
      L1StepWrites(run.mode, run.cfg, run.After(k).p, k, run.l1[k]);
    } else {
      var i := k - |run.l1|;
      AfterL2Tx(run, i);
      L2StepWrites(run.mode, run.Coords(), run.AfterL2(i).p, run.l2[i]);
      BeforeL2(run);
      AfterAllL1(run);
      StartL2KeepsLedger(run.mode, run.AfterL1().p, run.Idxs(), run.Coords());
    }
  }

  /** The exit tree after `k` txs is what the exits wrote so far, with the sums that were taken out. */
  lemma {:induction false} ExitsSoFar(run: Run, k: nat)
    requires run.mode != TxSelector && BatchStep(run).err == None && k <= run.Size()
    ensures Match(run.Exits(0, k), Events(run)[..k])
    ensures LastLeaf(run.Exits(0, k)) == run.After(k).p.exits
    ensures forall i :: TakenOut(Events(run)[..k], i) == LeafBalance(run.After(k).p.exits, i)
    decreases k
  {
    hide Run.After, EventAt, BatchStep;
    if k == 0 {
      AfterNothing(run);
    } else {
      var n := k - 1;
      ExitsSoFar(run, n);
      StepWrites(run, n);
      assert run.Exits(0, k) == run.Exits(0, n) + [run.After(k).exit];
      assert Events(run)[..k] == Events(run)[..n] + [EventAt(run, n)];
      MatchNext(run.Exits(0, n), Events(run)[..n], run.After(n).p, run.After(k), EventAt(run, n));
    }
  }

  function LeafBalance(exits: map<Idx, Account>, i: Idx): int {
    if i in exits then exits[i].balance else 0
  }

  lemma MatchNext(exits: seq<Option<(Idx, Account)>>, events: seq<Event>, p: Proc, s: Step, e: Event)
    requires Match(exits, events) && LastLeaf(exits) == p.exits && Writes(p, s, e)
    requires forall i :: TakenOut(events, i) == LeafBalance(p.exits, i)
    ensures Match(exits + [s.exit], events + [e]) && LastLeaf(exits + [s.exit]) == s.p.exits
    ensures forall i :: TakenOut(events + [e], i) == LeafBalance(s.p.exits, i)
  {
    assert (exits + [s.exit])[..|exits|] == exits;
    assert (events + [e])[..|events|] == events;
  }

  /** Whoever exits among the first events has its first exit there. */
  lemma FirstsStay(events: seq<Event>, n: nat, i: Idx, j: nat)
    requires n <= |events| && Occurs(events[..n], i) && FirstAt(events, i, j)
    ensures j < n && FirstAt(events[..n], i, j)
  {
    var k: nat :| k < n && Is(events[..n][k], i);
    assert Is(events[k], i);
  }

  lemma OccursBefore(events: seq<Event>, n: nat, i: Idx, k: nat)
    requires k < n <= |events| && FirstAt(events, i, k)
    ensures Occurs(events[..n], i)
  {
    assert Is(events[..n][k], i);
  }

  /** The order lists the accounts that exited, each once, by their first exits. */
  lemma {:induction false} OrderOfFirsts(exits: seq<Option<(Idx, Account)>>, events: seq<Event>)
    requires Match(exits, events)
    ensures forall i :: i in ExitOrder(exits) <==> Occurs(events, i)
    ensures InOrder(ExitOrder(exits), events)
  {
    if exits != [] {
      var n := |exits| - 1;
      var before := ExitOrder(exits[..n]);
      OrderOfFirsts(exits[..n], events[..n]);
      forall i ensures Occurs(events, i) <==> Occurs(events[..n], i) || Is(events[n], i) {
        if Occurs(events[..n], i) {
          var k: nat :| k < n && Is(events[..n][k], i);
          assert Is(events[k], i);
        }
        if Occurs(events, i) {
          var k: nat :| k < |events| && Is(events[k], i);
          if k < n {
            assert Is(events[..n][k], i);
          }
        }
      }
      var keys := ExitOrder(exits);
      forall a, b, j: nat, k: nat | 0 <= a < b < |keys| && FirstAt(events, keys[a], j) && FirstAt(events, keys[b], k)
        ensures j < k
      {
        assert keys[a] in before;
        FirstsStay(events, n, keys[a], j);
        if b < |before| {
          assert keys[b] in before;
          FirstsStay(events, n, keys[b], k);
        } else if k < n {
          OccursBefore(events, n, keys[b], k);
        }
      }
    }
  }

  // ---- Txs that write no exit do not matter ----

  function Nones(n: nat): seq<Option<(Idx, Account)>> {
    seq(n, _ => None)
  }

  lemma {:induction false} SkipNothing(a: seq<Option<(Idx, Account)>>, n: nat, b: seq<Option<(Idx, Account)>>)
    ensures ExitOrder(a + Nones(n) + b) == ExitOrder(a + b) && LastLeaf(a + Nones(n) + b) == LastLeaf(a + b)
    decreases |b|, n
  {
    if b != [] {
      var m := |b| - 1;
      SkipNothing(a, n, b[..m]);
      assert (a + Nones(n) + b)[..|a| + n + m] == a + Nones(n) + b[..m];
      assert (a + b)[..|a| + m] == a + b[..m];
    } else if n > 0 {
      SkipNothing(a, n - 1, b);
      assert (a + Nones(n) + b)[..|a| + n - 1] == a + Nones(n - 1) + b;
    } else {
      assert a + Nones(n) + b == a + b;
    }
  }

  /** Coordinator txs only create accounts. */
  lemma NoCoordinatorExits(run: Run, nUser: nat)
    requires run.mode != TxSelector && BatchStep(run).err == None && nUser <= |run.l1|
    requires forall k :: nUser <= k < |run.l1| ==> run.l1[k].txType != TxTypeForceExit
    ensures run.Exits(0, run.Size()) == run.Exits(0, nUser) + Nones(|run.l1| - nUser) + run.Exits(|run.l1|, run.Size())
  {
    hide Run.After, BatchStep, Effective;
    forall m | nUser < m <= |run.l1| ensures run.After(m).exit == None {
      StepWrites(run, m - 1);
    }
    var parts := run.Exits(0, nUser) + Nones(|run.l1| - nUser) + run.Exits(|run.l1|, run.Size());
    assert |parts| == run.Size();
    forall k | 0 <= k < run.Size() ensures parts[k] == run.After(k + 1).exit {
      if k >= |run.l1| {
        assert parts[k] == run.Exits(|run.l1|, run.Size())[k - |run.l1|];
      }
    }
  }

  lemma {:induction false} OrderIsDistinct(exits: seq<Option<(Idx, Account)>>)
    ensures forall a, b :: 0 <= a < b < |ExitOrder(exits)| ==> ExitOrder(exits)[a] != ExitOrder(exits)[b]
  {
    if exits != [] {
      OrderIsDistinct(exits[..|exits| - 1]);
    }
  }

  /**
   The reported exits of a batch: an account is listed if and only if it asked for an exit of a
   nonzero amount, once, in the order of first exits, with the sum of its effective exit amounts.
   */
  lemma ReportedExits(run: Run, nUser: nat)
    requires run.mode != TxSelector && BatchStep(run).err == None && nUser <= |run.l1|
    requires forall k :: nUser <= k < |run.l1| ==> run.l1[k].txType != TxTypeForceExit
    ensures var infos := OutputOf(run, nUser).exitInfos;
            && (forall i :: i in Keys(infos) <==> Occurs(Events(run), i))
            && (forall a, b :: 0 <= a < b < |infos| ==> infos[a].0 != infos[b].0)
            && InOrder(Keys(infos), Events(run))
            && (forall a :: 0 <= a < |infos| ==> infos[a].1 == TakenOut(Events(run), infos[a].0))
  {
    hide Run.After, EventAt, BatchStep, TakenOut, FirstAt, Events, Run.Exits, Occurs, Match, InOrder;
    hide ExitOrder, LastLeaf;
    var size := run.Size();
    var exits := run.Exits(0, size);
    NoCoordinatorExits(run, nUser);
    SkipNothing(run.Exits(0, nUser), |run.l1| - nUser, run.Exits(|run.l1|, size));
    ExitsSoFar(run, size);
    EventsLength(run);
    assert Events(run)[..size] == Events(run);
    OrderOfFirsts(exits, Events(run));
    ExitOrderKeys(exits);
    OrderIsDistinct(exits);
    assert Keys(OutputOf(run, nUser).exitInfos) == ExitOrder(exits);
    forall a | 0 <= a < |ExitOrder(exits)| ensures ExitOrder(exits)[a] in LastLeaf(exits) {
      assert ExitOrder(exits)[a] in ExitOrder(exits);
    }
  }

  lemma EventsLength(run: Run)
    ensures |Events(run)| == run.Size()
  {
  }

  // ---- Created accounts ----

  lemma CreateMovesIdx(st: State, tx: L1Tx, deposit: nat, amount: nat)
    requires L1Create(st, tx, deposit, amount).err == None
    ensures var o := L1Create(st, tx, deposit, amount).st;
            if Creates(tx.txType) then
              o.currentIdx == st.currentIdx + 1 && GetAccount(o, o.currentIdx).Ok?
              && o.accounts[o.currentIdx].ethAddr == tx.fromEthAddr && o.accounts[o.currentIdx].bjj == tx.fromBJJ
              && o.accounts[o.currentIdx].tokenID == tx.tokenID
            else o.currentIdx == st.currentIdx
  {
    hide SetIdxByEthAddrBJJ;
    SetIdxKeepsIdx(st, tx, deposit);
    SetIdxKeepsIdx(st, tx, deposit - amount);
  }

  lemma SetIdxKeepsIdx(st: State, tx: L1Tx, balance: int)
    ensures var acc := NewAccount(tx, balance);
            var s := st.(accounts := st.accounts[st.currentIdx + 1 := acc]);
            && SetIdxByEthAddrBJJ(s, st.currentIdx + 1, acc).accounts == s.accounts
            && SetIdxByEthAddrBJJ(s, st.currentIdx + 1, acc).currentIdx == st.currentIdx
  {
  }

  lemma L1MovesIdx(mode: Mode, cfg: Config, p: Proc, n: nat, tx: L1Tx)
    requires L1BatchStep(mode, cfg, p, n, tx).err == None
    ensures var q := L1BatchStep(mode, cfg, p, n, tx).p.st;
            if Creates(tx.txType) then
              q.currentIdx == p.st.currentIdx + 1 && GetAccount(q, q.currentIdx).Ok?
              && SameOwner(q.accounts[q.currentIdx], NewAccount(tx, 0))
            else q.currentIdx == p.st.currentIdx
  {
    hide Effective, L1Create, EncodableL1, PublishableL1, Transfer, Exit, SameOwners;
    var t := WithEffective(p.st, tx);
    match tx.txType
    case TxTypeForceTransfer =>
      TransferKeepsOwners(mode, map[], p, L1View(t), 0);
      OwnersKeepIdx(p.st, Transfer(mode, map[], p, L1View(t), 0).p.st);
    case TxTypeForceExit =>
      ExitKeepsOwners(mode, map[], p, L1View(t), tx.amount);
      OwnersKeepIdx(p.st, Exit(mode, map[], p, L1View(t), tx.amount).p.st);
    case _ =>
      CreateMovesIdx(p.st, t, t.effectiveDepositAmount.value, t.effectiveAmount.value);
  }

  lemma OwnersKeepIdx(s: State, t: State)
    requires SameOwners(s, t)
    ensures s.currentIdx == t.currentIdx
  {
  }

  /** The txs among the first `n` that create an account. */
  function Creators(txs: seq<L1Tx>): seq<L1Tx> {
    if txs == [] then []
    else
      var n := |txs| - 1;
      Creators(txs[..n]) + (if Creates(txs[n].txType) then [txs[n]] else [])
  }

  /** One account per creating tx, in order, with consecutive indexes and the owner that the tx names. */
  lemma {:induction false} CreatedAreConsecutive(run: Run, n: nat)
    requires BatchStep(run).err == None && n <= |run.l1|
    ensures var created := run.CreatedAccounts(n);
            var creators := Creators(run.l1[..n]);
            && |created| == |creators| && run.After(n).p.st.currentIdx == run.st.currentIdx + |created|
            && forall k :: 0 <= k < |created| ==>
                 created[k].0 == run.st.currentIdx + 1 + k && SameOwner(created[k].1, NewAccount(creators[k], 0))
  {
    hide Run.After, BatchStep, L1BatchStep;
    if n == 0 {
      AfterNothing(run);
    } else {
      CreatedAreConsecutive(run, n - 1);
      SucceedsSoFar(run, n - 1);
      SucceedsSoFar(run, n);
      AfterL1Tx(run, n - 1);
      L1MovesIdx(run.mode, run.cfg, run.After(n - 1).p, n - 1, run.l1[n - 1]);
      assert run.l1[..n][..n - 1] == run.l1[..n - 1];
    }
  }
}
