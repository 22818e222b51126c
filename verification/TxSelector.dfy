/**
 The selector of the coordinator (txselector/txselector.go): it chooses the txs of the next batch
 from the pool, on its own copy of the accounts.
 */
module TxSelector {
  import opened Wrappers
  import opened Common
  import Ledger
  import opened Effects
  import Funds
  import opened StateDB
  import opened TxProcessor
  import opened Selection
  import opened Selected
  import opened Executed
  import opened Choices
  import opened Decisions
  import opened Groups
  import opened Iteration
  import opened AtomicGroups
  import opened Sorting
  import opened Agreement
  import opened Selections
  import Batch
  import Exits

  /** What becomes of one candidate. */
  datatype Pick =
    | Pick(tx: PoolL2Tx)
    | NonSelected(tx: PoolL2Tx)
    | Unforjable(tx: PoolL2Tx)
    | NoSlots
    | FailedAG(id: AtomicGroupID)
    | Abort(error: Error)

  /** The work after a candidate that ends neither its group nor the selection. */
  function After(w: Work, p: Proc, l1: seq<L1Tx>, auths: seq<Signature>, pick: Pick, tx: PoolL2Tx): Work {
    var v := w.(p := p, l1 := w.l1 + l1, auths := w.auths + auths);
    match pick
    case Pick(t) => v.(selected := v.selected + [t])
    case NonSelected(t) => v.(later := v.later + [t])
    case Unforjable(t) => v.(never := v.never + [t])
    case NoSlots => v.(later := v.later + [tx], stop := Full)
    case _ => v
  }

  /** The pick, the new txs and the state of the processor make up the work `s`. */
  ghost predicate Yields(s: Work, w: Work, p: Proc, l1: seq<L1Tx>, auths: seq<Signature>, pick: Pick, tx: PoolL2Tx) {
    match pick
    case Abort(e) => s.stop == Aborted(e)
    case FailedAG(id) => s.stop == GroupFailed(id)
    case _ => s == After(w, p, l1, auths, pick, tx)
  }

  /** A tx that cannot be selected fails its group, or is kept for later or never. */
  function Rejected(tx: PoolL2Tx, forever: bool): Pick {
    if tx.atomicGroupID != NO_GROUP then FailedAG(tx.atomicGroupID)
    else if forever then Unforjable(tx) else NonSelected(tx)
  }

  /** `v` is `w` with more coordinator txs. */
  ghost predicate Extended(w: Work, v: Work, l1: seq<L1Tx>, auths: seq<Signature>) {
    v == w.(p := v.p, l1 := w.l1 + l1, auths := w.auths + auths)
  }

  lemma YieldsAfterCreations(s: Work, w: Work, v: Work, p: Proc, l1: seq<L1Tx>, auths: seq<Signature>, pick: Pick,
                             tx: PoolL2Tx)
    requires Extended(w, v, l1, auths) && Yields(s, v, p, [], [], pick, tx)
    ensures Yields(s, w, p, l1, auths, pick, tx)
  {
    assert v.l1 + [] == w.l1 + l1 && v.auths + [] == w.auths + auths;
  }

  lemma RejectedYields(w: Work, v: Work, l1: seq<L1Tx>, auths: seq<Signature>, t: PoolL2Tx, tx: PoolL2Tx)
    requires Extended(w, v, l1, auths)
    ensures Yields(Postpone(v, t), w, v.p, l1, auths, Rejected(t, false), tx)
  {
  }

  lemma DiscardedYields(w: Work, tx: PoolL2Tx)
    ensures Yields(Discard(w, tx), w, w.p, [], [], Rejected(tx, true), tx)
  {
    assert w.l1 + [] == w.l1 && w.auths + [] == w.auths;
  }

  lemma NotExtended(w: Work)
    ensures Extended(w, w, [], [])
  {
    assert w.l1 + [] == w.l1 && w.auths + [] == w.auths;
  }

  lemma ExtendedNext(w: Work, v: Work, l1: seq<L1Tx>, auths: seq<Signature>, p: Proc, c: L1Tx, auth: Signature)
    requires Extended(w, v, l1, auths)
    ensures Extended(w, v.(p := p, l1 := v.l1 + [c], auths := v.auths + [auth]), l1 + [c], auths + [auth])
  {
    assert w.l1 + (l1 + [c]) == w.l1 + l1 + [c] && w.auths + (auths + [auth]) == w.auths + auths + [auth];
  }

  /** What the methods below keep of the ledger, whatever happens. */
  ghost predicate Healthy(p: Proc) {
    Ledger.Valid(p.st) && p.exits == map[]
  }

  lemma SelectorHasNoExits(coords: map<TokenID, Idx>, p: Proc, tx: PoolL2Tx)
    ensures L2Step(Mode.TxSelector, coords, p, tx).p.exits == p.exits
  {
    hide Debit, Ledger.Fits, BuilderCheck, Ledger.GetIdxByEthAddrBJJ;
    if Resolve(Mode.TxSelector, p.st, tx).Ok? {
      Funds.DebitKeepsExits(Mode.TxSelector, coords, p, L2View(Resolve(Mode.TxSelector, p.st, tx).value));
    }
  }

  lemma HealthyAfterL2(coords: map<TokenID, Idx>, p: Proc, tx: PoolL2Tx)
    requires Healthy(p)
    ensures Healthy(L2Step(Mode.TxSelector, coords, p, tx).p)
  {
    hide Ledger.Valid, L2Step;
    SelectorHasNoExits(coords, p, tx);
    StepKeepsLedgerValid(coords, p, tx);
  }

  lemma HealthyAfterCreation(p: Proc, c: L1Tx)
    requires Healthy(p) && c == CreationTx(c.position, c.fromEthAddr, c.fromBJJ, c.tokenID)
    ensures L1Step(Mode.TxSelector, p, c).err == None ==> Healthy(L1Step(Mode.TxSelector, p, c).p)
  {
    hide Ledger.Valid, L1Step, CreateDeposit;
    CreationStep(p, c.position, c.fromEthAddr, c.fromBJJ, c.tokenID);
    if CreateDeposit(p.st, c, 0).err == None {
      Funds.CreateDepositKeepsValid(p.st, c, 0);
    }
  }

  class TxSelector {
    const coordAccount: CoordAccount
    const localAccountsDB: StateDB
    // The pending txs and the authorizations of the L2 database.
    var poolTxs: seq<PoolL2Tx>
    var accountCreationAuths: map<EthAddr, AccountCreationAuth>

    constructor (coordAccount: CoordAccount, localAccountsDB: StateDB)
      ensures this.coordAccount == coordAccount && this.localAccountsDB == localAccountsDB
    {
      this.coordAccount := coordAccount;
      this.localAccountsDB := localAccountsDB;
      poolTxs := [];
      accountCreationAuths := map[];
    }

    /** The values that a selection depends on. */
    function EnvOf(cfg: Config, future: seq<L1Tx>, nUser: nat): Env
      reads this`accountCreationAuths, localAccountsDB`currentBatch
    {
      Env(cfg, coordAccount, accountCreationAuths, future, localAccountsDB.currentBatch + 1, nUser)
    }

    method GetCoordIdx(tokenID: TokenID) returns (r: Result<Idx, Error>)
      ensures r == CoordIdx(coordAccount, localAccountsDB.content, tokenID)
    {
      return Ledger.GetIdxByEthAddrBJJ(localAccountsDB.content, coordAccount.addr, coordAccount.bjj, tokenID);
    }

    method CoordAccountForTokenID(tokenID: TokenID, positionL1: nat) returns (r: Result<Option<L1Tx>, Error>)
      ensures r == Selection.CoordAccountForTokenID(coordAccount, localAccountsDB.content, tokenID, positionL1)
    {
      var coordIdx := GetCoordIdx(tokenID);
      if coordIdx == Err(IdxNotFound) {
        return Ok(Some(CreationTx(positionL1, coordAccount.addr, coordAccount.bjj, tokenID)));
      }
      if coordIdx.Err? {
        return Err(coordIdx.error);
      }
      return Ok(None);
    }

    method CheckPendingToCreateFutureTxs(future: seq<L1Tx>, tokenID: TokenID, addr: EthAddr, bjj: BJJ) returns (b: bool)
      ensures b == PendingToCreate(future, tokenID, addr, bjj)
    {
      for i := 0 to |future|
        invariant forall j :: 0 <= j < i ==>
          !(future[j].fromEthAddr == addr && future[j].tokenID == tokenID && (future[j].fromBJJ == bjj || bjj == EMPTY_BJJ))
      {
        if future[i].fromEthAddr == addr && future[i].tokenID == tokenID && future[i].fromBJJ == bjj {
          return true;
        }
        if future[i].fromEthAddr == addr && future[i].tokenID == tokenID && EMPTY_BJJ == bjj {
          return true;
        }
      }
      return false;
    }

    /** What the receiver of a tx to an address or a key needs. */
    method ProcessTxToEthAddrBJJ(ghost env: Env, cfg: Config, future: seq<L1Tx>, nL1: nat, nL2: nat, positionL1: nat,
                                 tx: PoolL2Tx)
      returns (r: Result<Option<(L1Tx, Signature)>, Error>)
      requires env == EnvOf(cfg, future, env.nUser) && positionL1 == nL1
      ensures r == ReceiverTx(env, localAccountsDB.content, nL1, nL2, tx)
    {
      hide Ledger.GetIdxByEthAddrBJJ, Ledger.GetIdxByEthAddr, PendingToCreate;
      var pending := CheckPendingToCreateFutureTxs(future, tx.tokenID, tx.toEthAddr, tx.toBJJ);
      if pending {
        return Err(IdxNotFound);
      }
      var creation: Option<(L1Tx, Signature)> := None;
      if tx.toEthAddr != EMPTY_ADDR && tx.toEthAddr != FF_ADDR {
        if tx.toBJJ != EMPTY_BJJ {
          var idx := Ledger.GetIdxByEthAddrBJJ(localAccountsDB.content, tx.toEthAddr, tx.toBJJ, tx.tokenID);
          if idx.Ok? {
            return Ok(None);
          }
          if tx.toEthAddr !in accountCreationAuths {
            return Err(EthAddrNotFound);
          }
          if accountCreationAuths[tx.toEthAddr].bjj != tx.toBJJ {
            return Err(IdxNotFound);
          }
        } else {
          var idx := Ledger.GetIdxByEthAddr(localAccountsDB.content, tx.toEthAddr, tx.tokenID);
          if idx.Ok? {
            return Ok(None);
          }
          if tx.toEthAddr !in accountCreationAuths {
            return Err(EthAddrNotFound);
          }
        }
        var accAuth := accountCreationAuths[tx.toEthAddr];
        creation := Some((CreationTx(positionL1, tx.toEthAddr, accAuth.bjj, tx.tokenID), accAuth.signature));
      } else if tx.toEthAddr == FF_ADDR && tx.toBJJ != EMPTY_BJJ {
        var idx := Ledger.GetIdxByEthAddrBJJ(localAccountsDB.content, tx.toEthAddr, tx.toBJJ, tx.tokenID);
        if idx.Ok? {
          return Ok(None);
        }
        creation := Some((CreationTx(positionL1, tx.toEthAddr, tx.toBJJ, tx.tokenID), EMPTY_SIGNATURE));
      }
      if !CanAddL2TxThatNeedsNewCoordL1Tx(nL1, nL2, cfg) {
        return Err(TooManyTxs);
      }
      return Ok(creation);
    }

    /** A processor that works on the selector's accounts. */
    ghost predicate Works(tp: TxProcessor)
      reads {}
    {
      tp.mode == Mode.TxSelector && tp.state == localAccountsDB
    }

    /** Executes the creation of an account. */
    method Create(tp: TxProcessor, ghost w: Work, c: L1Tx, ghost auth: Signature) returns (err: Option<Error>)
      requires Works(tp) && tp.View() == w.p && Healthy(w.p) && w.stop == Going
      requires c == CreationTx(c.position, c.fromEthAddr, c.fromBJJ, c.tokenID)
      modifies tp, localAccountsDB`content
      ensures var s := AddCreation(w, c, auth);
              if err.Some? then s.stop == Aborted(err.value)
              else s == w.(p := tp.View(), l1 := w.l1 + [c], auths := w.auths + [auth])
      ensures err.None? ==> Healthy(tp.View())
    {
      hide L1Step, Healthy;
      HealthyAfterCreation(w.p, c);
      var exit, t;
      err, exit, t := tp.ProcessL1Tx(c);
    }

    /** Executes the candidate itself. */
    method ExecuteTx(tp: TxProcessor, ghost env: Env, ghost w: Work, tx: PoolL2Tx) returns (pick: Pick)
      requires Works(tp) && tp.View() == w.p && Healthy(w.p) && w.stop == Going && env.coord == coordAccount
      modifies tp, localAccountsDB`content
      ensures Yields(Execute(env, w, tx), w, tp.View(), [], [], pick, tx)
      ensures pick.Pick? || pick.NonSelected? ==> Healthy(tp.View())
      ensures !pick.NoSlots? && !pick.Unforjable?
    {
      hide L2Step, L2Filled, Healthy, Ledger.GetIdxByEthAddrBJJ;
      var coordIdx := GetCoordIdx(tx.tokenID);
      if coordIdx.Err? {
        return Abort(coordIdx.error);
      }
      var coordIdxsMap := map[tx.tokenID := coordIdx.value];
      if coordIdx.value !in tp.accumulatedFees {
        tp.accumulatedFees := tp.accumulatedFees[coordIdx.value := 0];
      }
      ghost var p := tp.View();
      assert p == w.p.(fees := w.p.fees[coordIdx.value := At(w.p.fees, coordIdx.value)]);
      assert Healthy(p) by {
        HealthyFees(w.p, p);
      }
      HealthyAfterL2(coordIdxsMap, p, tx);
      assert tp.CoordsMatch(coordIdxsMap) by {
        HealthyLookup(p, coordAccount, tx.tokenID);
      }
      var err, exit, t := tp.ProcessL2Tx(coordIdxsMap, tx);
      if err.Some? {
        if t.atomicGroupID != NO_GROUP {
          return FailedAG(t.atomicGroupID);
        }
        return NonSelected(t);
      }
      return Pick(t);
    }

    /** Creates the accounts that a candidate needs, the coordinator's and the receiver's, if it may. */
    method CreateAccounts(tp: TxProcessor, ghost env: Env, ghost w: Work, cfg: Config, future: seq<L1Tx>,
                          nL1: nat, nL2: nat, tx: PoolL2Tx, coordTx: Option<L1Tx>)
      returns (stop: Option<Pick>, l1: seq<L1Tx>, auths: seq<Signature>, ghost v: Work)
      requires Works(tp) && tp.View() == w.p && Healthy(w.p) && w.stop == Going
      requires env == EnvOf(cfg, future, env.nUser) && nL1 == NL1(env, w) && nL2 == |w.selected|
      requires Selection.CoordAccountForTokenID(env.coord, w.p.st, tx.tokenID, nL1) == Ok(coordTx)
      modifies tp, localAccountsDB`content
      ensures stop.Some? ==> Yields(Process(env, w, tx), w, tp.View(), l1, auths, stop.value, tx)
                             && (stop.value.NonSelected? ==> Healthy(tp.View()))
                             && !stop.value.NoSlots? && !stop.value.Unforjable? && !stop.value.Pick?
      ensures stop.None? ==> Extended(w, v, l1, auths) && v.p == tp.View() && Healthy(v.p)
                             && Process(env, w, tx) == Execute(env, v, tx)
    {
      hide L1Step, Healthy, Execute, Yields, ReceiverTx, AddCreation, Ledger.GetIdxByEthAddrBJJ;
      l1, auths, v := [], [], w;
      NotExtended(w);
      if coordTx.Some? {
        var err := Create(tp, v, coordTx.value, coordAccount.accountCreationAuth);
        AddCreationStops(v, coordTx.value, coordAccount.accountCreationAuth);
        if err.Some? {
          AbortYields(Process(env, w, tx), w, tp.View(), l1, auths, err.value, tx);
          return Some(Abort(err.value)), l1, auths, v;
        }
        ExtendedNext(w, v, l1, auths, tp.View(), coordTx.value, coordAccount.accountCreationAuth);
        v := v.(p := tp.View(), l1 := v.l1 + [coordTx.value], auths := v.auths + [coordAccount.accountCreationAuth]);
        l1, auths := [coordTx.value], [coordAccount.accountCreationAuth];
      }
      ghost var w1 := v;
      assert NeedCoordinator(env, w, tx) == w1 && Passed(w, w1);
      if tx.toIdx == 0 {
        var r := ProcessTxToEthAddrBJJ(env, cfg, future, nL1 + |l1|, nL2, nL1 + |l1|, tx);
        if r.Err? {
          RejectedYields(w, v, l1, auths, tx, tx);
          PostponeDoesNotPass(v, tx);
          return Some(Rejected(tx, false)), l1, auths, v;
        }
        if r.value.Some? {
          var (c, auth) := r.value.value;
          ReceiverTxAuthorized(env, v.p.st, nL1 + |l1|, nL2, tx);
          var err := Create(tp, v, c, auth);
          AddCreationStops(v, c, auth);
          if err.Some? {
            AbortYields(Process(env, w, tx), w, tp.View(), l1, auths, err.value, tx);
            return Some(Abort(err.value)), l1, auths, v;
          }
          ExtendedNext(w, v, l1, auths, tp.View(), c, auth);
          v := v.(p := tp.View(), l1 := v.l1 + [c], auths := v.auths + [auth]);
          l1, auths := l1 + [c], auths + [auth];
        }
      } else if tx.toIdx >= USER_THRESHOLD {
        var receiver := localAccountsDB.GetAccount(tx.toIdx);
        if receiver.Err? {
          RejectedYields(w, v, l1, auths, tx, tx);
          PostponeDoesNotPass(v, tx);
          return Some(Rejected(tx, false)), l1, auths, v;
        }
      }
      assert NeedReceiver(env, w1, tx) == v && Passed(w1, v);
      return None, l1, auths, v;
    }

    /** One candidate of an iteration. */
    method SelectTx(tp: TxProcessor, ghost env: Env, ghost w: Work, cfg: Config, future: seq<L1Tx>,
                    nL1: nat, nL2: nat, tx: PoolL2Tx)
      returns (pick: Pick, l1: seq<L1Tx>, auths: seq<Signature>)
      requires Works(tp) && tp.View() == w.p && Healthy(w.p) && w.stop == Going
      requires env == EnvOf(cfg, future, env.nUser) && nL1 == NL1(env, w) && nL2 == |w.selected|
      modifies tp, localAccountsDB`content
      ensures Yields(SelectOne(env, w, tx), w, tp.View(), l1, auths, pick, tx)
      ensures !pick.Abort? && !pick.FailedAG? ==> Healthy(tp.View())
    {
      hide L1Step, Healthy, Execute, Process, Yields, EnoughBalance, Selection.CoordAccountForTokenID;
      hide Postpone, Discard;
      l1, auths := [], [];
      NotExtended(w);
      if !CanAddL2Tx(nL1, nL2, cfg) {
        pick := if tx.atomicGroupID != NO_GROUP then FailedAG(tx.atomicGroupID) else NoSlots;
        FullYields(env, w, tx);
        return;
      }
      var nextBatchNum := localAccountsDB.currentBatch + 1;
      if (tx.maxNumBatch != 0 && nextBatchNum > tx.maxNumBatch) || (tx.txType == TxTypeExit && tx.amount == 0) {
        DiscardedYields(w, tx);
        return Rejected(tx, true), l1, auths;
      }
      var accSender := localAccountsDB.GetAccount(tx.fromIdx);
      if accSender.Err? {
        AbortYields(SelectOne(env, w, tx), w, tp.View(), l1, auths, accSender.error, tx);
        return Abort(accSender.error), l1, auths;
      }
      var t := tx.(tokenID := accSender.value.tokenID);
      RejectedYields(w, w, [], [], t, tx);
      var enoughBalance := tp.CheckEnoughBalance(t);
      if !enoughBalance || t.nonce != accSender.value.nonce {
        return Rejected(t, false), l1, auths;
      }
      var coordTx := CoordAccountForTokenID(t.tokenID, nL1);
      if coordTx.Err? {
        CoordinatorAborts(env, w, t);
        AbortYields(SelectOne(env, w, tx), w, tp.View(), l1, auths, coordTx.error, tx);
        return Abort(coordTx.error), l1, auths;
      }
      if coordTx.value.Some? && !CanAddL2TxThatNeedsNewCoordL1Tx(nL1, nL2, cfg) {
        return Rejected(t, false), l1, auths;
      }
      pick, l1, auths := Proceed(tp, env, w, cfg, future, nL1, nL2, t, coordTx.value);
      YieldsSame(Process(env, w, t), w, tp.View(), l1, auths, pick, t, tx);
    }

    /** A candidate that passed the first checks. */
    method Proceed(tp: TxProcessor, ghost env: Env, ghost w: Work, cfg: Config, future: seq<L1Tx>,
                   nL1: nat, nL2: nat, tx: PoolL2Tx, coordTx: Option<L1Tx>)
      returns (pick: Pick, l1: seq<L1Tx>, auths: seq<Signature>)
      requires Works(tp) && tp.View() == w.p && Healthy(w.p) && w.stop == Going
      requires env == EnvOf(cfg, future, env.nUser) && nL1 == NL1(env, w) && nL2 == |w.selected|
      requires Selection.CoordAccountForTokenID(env.coord, w.p.st, tx.tokenID, nL1) == Ok(coordTx)
      modifies tp, localAccountsDB`content
      ensures Yields(Process(env, w, tx), w, tp.View(), l1, auths, pick, tx)
      ensures !pick.Abort? && !pick.FailedAG? ==> Healthy(tp.View())
      ensures !pick.NoSlots?
    {
      hide Healthy, Execute, Process, Yields, Selection.CoordAccountForTokenID;
      var stop;
      ghost var v;
      stop, l1, auths, v := CreateAccounts(tp, env, w, cfg, future, nL1, nL2, tx, coordTx);
      if stop.Some? {
        return stop.value, l1, auths;
      }
      pick := ExecuteTx(tp, env, v, tx);
      YieldsAfterCreations(Process(env, w, tx), w, v, tp.View(), l1, auths, pick, tx);
    }

    /**
     One iteration over the candidates: the new coordinator txs with their authorizations, the
     selected txs, those for later and those never to be forged, or the group that failed.
     */
    method ProcessL2Txs(tp: TxProcessor, ghost env: Env, ghost w: Work, cfg: Config, nL1: nat, nL2: nat,
                        future: seq<L1Tx>, l2Txs: seq<PoolL2Tx>)
      returns (accAuths: seq<Signature>, l1CoordinatorTxs: seq<L1Tx>, selectedL2Txs: seq<PoolL2Tx>,
               nonSelectedL2Txs: seq<PoolL2Tx>, unforjableL2Txs: seq<PoolL2Tx>,
               failedAG: AtomicGroupID, err: Option<Error>)
      requires Works(tp) && tp.View() == w.p && Healthy(w.p) && w.stop == Going && w.later == [] && w.never == []
      requires env == EnvOf(cfg, future, env.nUser) && nL1 == NL1(env, w) && nL2 == |w.selected|
      modifies tp, localAccountsDB`content
      ensures var v := SelectAll(env, w, l2Txs);
              if err.Some? then v.stop == Aborted(err.value) && failedAG == NO_GROUP
              else if failedAG != NO_GROUP then v.stop == GroupFailed(failedAG)
              else GoesOn(v) && Healthy(v.p)
                   && v == Work(tp.View(), w.l1 + l1CoordinatorTxs, w.auths + accAuths,
                                w.selected + selectedL2Txs, nonSelectedL2Txs, unforjableL2Txs, v.stop)
    {
      hide Healthy, SelectOne;
      accAuths, l1CoordinatorTxs, selectedL2Txs, nonSelectedL2Txs, unforjableL2Txs := [], [], [], [], [];
      failedAG, err := NO_GROUP, None;
      ghost var v := w;
      var nAlreadyProcessedL1Txs, nAlreadyProcessedL2Txs := nL1, nL2;
      Nothing(w);
      for i := 0 to |l2Txs|
        invariant failedAG == NO_GROUP && err == None
        invariant v == SelectAll(env, w, l2Txs[..i]) && v.stop == Going && Healthy(v.p)
        invariant v == Work(tp.View(), w.l1 + l1CoordinatorTxs, w.auths + accAuths,
                            w.selected + selectedL2Txs, nonSelectedL2Txs, unforjableL2Txs, Going)
        invariant nAlreadyProcessedL1Txs == NL1(env, v) && nAlreadyProcessedL2Txs == |v.selected|
      {
        assert l2Txs[..i + 1][..i] == l2Txs[..i];
        var pick, l1, auths := SelectTx(tp, env, v, cfg, future, nAlreadyProcessedL1Txs, nAlreadyProcessedL2Txs, l2Txs[i]);
        Lists(w, v, tp.View(), l1CoordinatorTxs, accAuths, selectedL2Txs, l1, auths, pick, l2Txs[i]);
        accAuths, l1CoordinatorTxs := accAuths + auths, l1CoordinatorTxs + l1;
        nAlreadyProcessedL1Txs := nAlreadyProcessedL1Txs + |l1|;
        match pick {
          case Abort(e) =>
            err := Some(e);
            StoppedStays(env, w, l2Txs, i + 1);
            return;
          case FailedAG(id) =>
            failedAG := id;
            FailedIsGroup(env, v, l2Txs[i], id);
            StoppedStays(env, w, l2Txs, i + 1);
            return;
          case NoSlots =>
            nonSelectedL2Txs := nonSelectedL2Txs + l2Txs[i..];
            FullStays(env, w, l2Txs, i + 1);
            assert [l2Txs[i]] + l2Txs[i + 1..] == l2Txs[i..];
            return;
          case NonSelected(t) =>
            nonSelectedL2Txs := nonSelectedL2Txs + [t];
          case Unforjable(t) =>
            unforjableL2Txs := unforjableL2Txs + [t];
          case Pick(t) =>
            nAlreadyProcessedL2Txs := nAlreadyProcessedL2Txs + 1;
            selectedL2Txs := selectedL2Txs + [t];
        }
        v := SelectOne(env, v, l2Txs[i]);
      }
      assert l2Txs[..|l2Txs|] == l2Txs;
    }

    // ---- The selection ----

    method ProcessL1UserTxs(tp: TxProcessor, cfg: Config, l1UserTxs: seq<L1Tx>) returns (err: Option<Error>)
      requires Works(tp) && tp.View() == Batch.Start(localAccountsDB.content) && Ledger.Valid(localAccountsDB.content)
      modifies tp, localAccountsDB`content
      ensures err == AfterUser(cfg, old(localAccountsDB.content), l1UserTxs).err
      ensures err.None? ==> tp.View() == AfterUser(cfg, old(localAccountsDB.content), l1UserTxs).p
                            && Healthy(tp.View()) && tp.View().collected == map[]
    {
      hide Ledger.Valid, L1Step, Healthy;
      ghost var st := localAccountsDB.content;
      HealthyStart(st);
      err := None;
      for i := 0 to |l1UserTxs|
        invariant err == None && RunL1(Mode.TxSelector, cfg, Batch.Start(st), l1UserTxs[..i]).p == tp.View()
        invariant RunL1(Mode.TxSelector, cfg, Batch.Start(st), l1UserTxs[..i]).err == None
        invariant Healthy(tp.View()) && tp.View().collected == map[]
      {
        assert l1UserTxs[..i + 1][..i] == l1UserTxs[..i];
        HealthyAfterL1(tp.View(), l1UserTxs[i]);
        var exit, t;
        err, exit, t := tp.ProcessL1Tx(l1UserTxs[i]);
        if err.Some? {
          Batch.L1FailsEarly(Mode.TxSelector, cfg, Batch.Start(st), l1UserTxs, i + 1);
          return;
        }
      }
      assert l1UserTxs[..|l1UserTxs|] == l1UserTxs;
    }

    /** Leaves out failed and invalid groups. */
    method FilterPool(failedAtomicGroups: seq<AtomicGroupID>)
      returns (selectableTxs: seq<PoolL2Tx>, discardedTxs: seq<PoolL2Tx>)
      ensures FromPool(poolTxs, failedAtomicGroups, selectableTxs, discardedTxs)
    {
      hide Members, ValidGroup;
      var tmp, invalid;
      tmp, discardedTxs := FilterFailedAtomicGroups(poolTxs, failedAtomicGroups);
      selectableTxs, invalid := FilterInvalidAtomicGroups(tmp);
      discardedTxs := discardedTxs + invalid;
    }

    /** Iterates over the candidates until an iteration selects nothing. */
    method SelectInPasses(tp: TxProcessor, ghost env: Env, ghost st1: Ledger.State, ghost fair: bool, cfg: Config,
                          nUser: nat,
                          future: seq<L1Tx>, candidates: seq<PoolL2Tx>)
      returns (l1CoordinatorTxs: seq<L1Tx>, accAuths: seq<Signature>, selectedTxs: seq<PoolL2Tx>,
               discardedTxs: seq<PoolL2Tx>, failedAG: AtomicGroupID, err: Option<Error>,
               ghost w: Work, ghost rest: seq<PoolL2Tx>, ghost gone: multiset<TxID>)
      requires Works(tp) && Healthy(tp.View()) && tp.View().collected == map[] && tp.View().fees == map[]
               && st1 == tp.View().st
      requires env == EnvOf(cfg, future, env.nUser) && env.nUser == nUser && Contiguous(candidates)
      requires fair ==> Workable(env, st1) && Candidates(candidates)
      modifies tp, localAccountsDB`content
      ensures failedAG != NO_GROUP ==> exists tx :: tx in candidates && tx.atomicGroupID == failedAG
      ensures err.None? && failedAG == NO_GROUP ==>
        && Between(env, st1, fair, candidates, w, rest, gone) && Healthy(w.p)
        && w == Work(tp.View(), l1CoordinatorTxs, accAuths, selectedTxs, [], [], Going)
        && Ids(discardedTxs) == gone + Ids(rest)
    {
      hide Ids, Between, SelectAll, Healthy, Workable, Candidates, Contiguous;
      l1CoordinatorTxs, accAuths, selectedTxs, discardedTxs := [], [], [], [];
      w, rest, gone := Start1(tp.View()), candidates, multiset{};
      IdsEmpty();
      BetweenStartsHealthy(env, st1, fair, candidates, tp.View());
      var selectableTxs := candidates;
      var shouldKeepSelectionProcess := true;
      while true
        invariant rest == selectableTxs && w == Work(tp.View(), l1CoordinatorTxs, accAuths, selectedTxs, [], [], Going)
        invariant Between(env, st1, fair, candidates, w, rest, gone) && Healthy(w.p)
        invariant Ids(discardedTxs) == gone
        invariant forall tx :: tx in selectableTxs ==> exists t :: t in candidates && t.atomicGroupID == tx.atomicGroupID
        decreases |selectableTxs|
      {
        var iteAccAuths, iteL1, iteSelected, nonSelected, invalid;
        iteAccAuths, iteL1, iteSelected, nonSelected, invalid, failedAG, err :=
          ProcessL2Txs(tp, env, w, cfg, nUser + |l1CoordinatorTxs|, |selectedTxs|, future, selectableTxs);
        if err.Some? {
          return;
        }
        if failedAG != NO_GROUP {
          FailedIsCandidate(env, w, selectableTxs);
          return;
        }
        ghost var v := SelectAll(env, w, rest);
        PassBetween(env, st1, fair, candidates, w, rest, gone);
        LaterAreCandidates(env, w, rest);
        accAuths := accAuths + iteAccAuths;
        l1CoordinatorTxs := l1CoordinatorTxs + iteL1;
        selectedTxs := selectedTxs + iteSelected;
        IdsConcat(discardedTxs, invalid);
        discardedTxs := discardedTxs + invalid;
        w, rest, gone := v.(later := [], never := [], stop := Going), v.later, gone + Ids(v.never);
        if |iteSelected| == 0 {
          IdsConcat(discardedTxs, nonSelected);
          discardedTxs := discardedTxs + nonSelected;
          return;
        }
        selectableTxs := nonSelected;
      }
    }

    /** The coordinator accounts of the selected txs' tokens, sorted. */
    method ChooseCoordIdxs(selectedTxs: seq<PoolL2Tx>, ghost w: Work) returns (r: Result<seq<Idx>, Error>)
      requires selectedTxs == w.selected && localAccountsDB.content == w.p.st && Healthy(w.p)
      ensures r.Ok? ==> CoordsOf(coordAccount, w, r.value)
    {
      hide Ledger.Valid, Ledger.GetIdxByEthAddrBJJ, CoordsOf;
      var coordIdxsMap: map<TokenID, Idx> := map[];
      for i := 0 to |selectedTxs|
        invariant forall t :: t in coordIdxsMap ==> CoordIdx(coordAccount, w.p.st, t) == Ok(coordIdxsMap[t])
        invariant forall t :: t in coordIdxsMap ==> exists tx :: tx in selectedTxs && TokenOf(w.p.st, tx.fromIdx) == t
        invariant forall tx :: tx in selectedTxs[..i] ==> TokenOf(w.p.st, tx.fromIdx) in coordIdxsMap
      {
        assert selectedTxs[..i + 1] == selectedTxs[..i] + [selectedTxs[i]];
        var accSender := localAccountsDB.GetAccount(selectedTxs[i].fromIdx);
        if accSender.Err? {
          return Err(accSender.error);
        }
        var tokenID := accSender.value.tokenID;
        var coordIdx := GetCoordIdx(tokenID);
        if coordIdx.Err? {
          return Err(coordIdx.error);
        }
        assert selectedTxs[i] in selectedTxs && TokenOf(w.p.st, selectedTxs[i].fromIdx) == tokenID;
        coordIdxsMap := coordIdxsMap[tokenID := coordIdx.value];
      }
      assert selectedTxs[..|selectedTxs|] == selectedTxs;
      CoordIdxsDiffer(coordAccount, w, coordIdxsMap);
      var values := Values(coordIdxsMap);
      var coordIdxs := SortIdxs(values);
      SortedAreCoords(coordAccount, w, coordIdxsMap, coordIdxs);
      return Ok(coordIdxs);
    }

    /** Pays out the accumulated fees that are not zero, in any order. */
    method DistributeFees(fees: map<Idx, nat>) returns (err: Option<Error>)
      requires Ledger.Valid(localAccountsDB.content)
      modifies localAccountsDB`content
      ensures err.None? ==> localAccountsDB.content == PayFees(old(localAccountsDB.content), fees)
      ensures err.None? ==> forall i :: i in localAccountsDB.content.accounts ==>
                Ledger.Fits(localAccountsDB.content.accounts[i])
    {
      hide Ledger.Valid, Ledger.Fits;
      ghost var st := localAccountsDB.content;
      ghost var paid: map<Idx, nat> := map[];
      var remaining := fees.Keys;
      AllFit(st);
      PayNothing(st);
      while remaining != {}
        invariant remaining <= fees.Keys && paid.Keys == fees.Keys - remaining
        invariant forall i :: i in paid ==> paid[i] == fees[i]
        invariant localAccountsDB.content == PayFees(st, paid)
        invariant forall i :: i in localAccountsDB.content.accounts ==> Ledger.Fits(localAccountsDB.content.accounts[i])
      {
        var idx :| idx in remaining;
        assert idx in fees;
        var accumulatedFee := fees[idx];
        if accumulatedFee > 0 {
          var accCoord := localAccountsDB.GetAccount(idx);
          if accCoord.Err? {
            return Some(accCoord.error);
          }
          accCoord.value.balance := accCoord.value.balance + accumulatedFee;
          err := localAccountsDB.UpdateAccount(idx, accCoord.value);
          if err.Some? {
            return;
          }
          UpdateFits(PayFees(st, paid), idx, accCoord.value.Value());
        }
        PayNext(st, paid, idx, accumulatedFee);
        PayZero(PayFees(st, paid), idx);
        paid := paid[idx := accumulatedFee];
        remaining := remaining - {idx};
      }
      assert paid == fees;
      return None;
    }

    /** The store is as its last checkpoint left it. */
    ghost predicate Clean()
      reads this, localAccountsDB
    {
      localAccountsDB.Restored(localAccountsDB.currentBatch) == Some(localAccountsDB.content)
      && Ledger.Valid(localAccountsDB.content)
    }

    /** The selection with the groups that have failed so far left out; it may find another one that fails. */
    method Attempt(cfg: Config, l1UserTxs: seq<L1Tx>, l1UserFutureTxs: seq<L1Tx>,
                   failedAtomicGroups: seq<AtomicGroupID>)
      returns (failedAG: AtomicGroupID, err: Option<Error>, choice: Choice, ghost w: Work)
      requires Clean()
      modifies localAccountsDB
      ensures failedAG != NO_GROUP ==>
        failedAG !in failedAtomicGroups && exists tx :: tx in poolTxs && tx.atomicGroupID == failedAG
      ensures err.None? && failedAG == NO_GROUP ==>
        && Finished(old(EnvOf(cfg, l1UserFutureTxs, |l1UserTxs|)), old(localAccountsDB.content), l1UserTxs, poolTxs, w,
                    choice, localAccountsDB.content)
        && localAccountsDB.currentBatch == old(localAccountsDB.currentBatch) + 1
        && localAccountsDB.checkpoints
           == old(localAccountsDB.checkpoints)[localAccountsDB.currentBatch := localAccountsDB.content]
      ensures err.Some? || failedAG != NO_GROUP ==>
        localAccountsDB.currentBatch == old(localAccountsDB.currentBatch)
        && localAccountsDB.checkpoints == old(localAccountsDB.checkpoints)
    {
      hide Ledger.Valid, RunL1, Healthy, FromPool, Between, Contiguous, Ordered, CoordsOf, Ids, Workable;
      hide Candidates, Ledger.Fits, Finished, PayFees;
      ghost var st := localAccountsDB.content;
      ghost var env := EnvOf(cfg, l1UserFutureTxs, |l1UserTxs|);
      failedAG, choice, w := NO_GROUP, Choice([], [], l1UserTxs, [], [], []), NoWork();
      var tp := new TxProcessor(Mode.TxSelector, localAccountsDB, cfg);
      err := ProcessL1UserTxs(tp, cfg, l1UserTxs);
      if err.Some? {
        return;
      }
      tp.accumulatedFees := map[];
      ghost var st1 := tp.View().st;
      ghost var fair := Fair(env, st1, poolTxs);
      HealthyStart1(AfterUser(cfg, st, l1UserTxs).p, tp.View());
      var selectableTxs, discardedTxs := FilterPool(failedAtomicGroups);
      if |selectableTxs| == 0 {
        w := Start1(tp.View());
        NothingSelected(env, st, l1UserTxs, poolTxs, failedAtomicGroups, discardedTxs, tp.View());
        choice := Choice([], [], l1UserTxs, [], [], discardedTxs);
        localAccountsDB.MakeCheckpoint();
        return;
      }
      var atomicFees := CalculateAtomicGroupsAverageFee(selectableTxs);
      var sorted := SortL2Txs(selectableTxs, atomicFees);
      SortedFromPool(poolTxs, failedAtomicGroups, selectableTxs, discardedTxs, sorted);
      var l1CoordinatorTxs, accAuths, selectedTxs, moreDiscarded;
      ghost var rest, gone;
      l1CoordinatorTxs, accAuths, selectedTxs, moreDiscarded, failedAG, err, w, rest, gone :=
        SelectInPasses(tp, env, st1, fair, cfg, |l1UserTxs|, l1UserFutureTxs, sorted);
      if err.Some? {
        failedAG := NO_GROUP;
        return;
      }
      if failedAG != NO_GROUP {
        FreshGroup(poolTxs, failedAtomicGroups, sorted, discardedTxs, failedAG);
        return;
      }
      PassesEnd(env, st1, fair, poolTxs, failedAtomicGroups, sorted, w, rest, gone, discardedTxs);
      IdsConcat(discardedTxs, moreDiscarded);
      var coordIdxs := ChooseCoordIdxs(selectedTxs, w);
      if coordIdxs.Err? {
        return NO_GROUP, Some(coordIdxs.error), choice, w;
      }
      HealthyIsValid(w.p);
      err := DistributeFees(tp.accumulatedFees);
      if err.Some? {
        return;
      }
      choice := Choice(coordIdxs.value, accAuths, l1UserTxs, l1CoordinatorTxs, selectedTxs, discardedTxs + moreDiscarded);
      Finishes(env, st, l1UserTxs, poolTxs, w, choice, localAccountsDB.content);
      localAccountsDB.MakeCheckpoint();
    }

    /**
     The selection. Whenever an atomic group fails, everything is undone and the selection starts
     again without that group.
     */
    method GetL1L2TxSelection(cfg: Config, l1UserTxs: seq<L1Tx>, l1UserFutureTxs: seq<L1Tx>)
      returns (err: Option<Error>, choice: Choice, ghost w: Work)
      requires Clean()
      modifies localAccountsDB
      ensures err.None? ==>
        && Finished(old(EnvOf(cfg, l1UserFutureTxs, |l1UserTxs|)), old(localAccountsDB.content), l1UserTxs, poolTxs, w,
                    choice, localAccountsDB.content)
        && localAccountsDB.currentBatch == old(localAccountsDB.currentBatch) + 1
        && localAccountsDB.Restored(localAccountsDB.currentBatch) == Some(localAccountsDB.content)
    {
      hide Finished, Ledger.Valid;
      var failedAtomicGroups: seq<AtomicGroupID> := [];
      ghost var groups := PoolGroups(poolTxs);
      ghost var st := localAccountsDB.content;
      ghost var checkpoints := localAccountsDB.checkpoints;
      ghost var batch := localAccountsDB.currentBatch;
      while true
        invariant Failed(failedAtomicGroups) <= groups
        invariant localAccountsDB.content == st && localAccountsDB.currentBatch == batch
        invariant Clean()
        decreases |groups - Failed(failedAtomicGroups)|
      {
        var failedAG;
        failedAG, err, choice, w := Attempt(cfg, l1UserTxs, l1UserFutureTxs, failedAtomicGroups);
        if err.Some? || failedAG == NO_GROUP {
          return;
        }
        MoreFailed(failedAtomicGroups, failedAG, groups);
        failedAtomicGroups := failedAtomicGroups + [failedAG];
        var ok := localAccountsDB.Reset(localAccountsDB.currentBatch);
      }
    }
  }

  ghost function PoolGroups(pool: seq<PoolL2Tx>): set<AtomicGroupID> {
    set tx | tx in pool :: tx.atomicGroupID
  }

  lemma MoreFailed(failed: seq<AtomicGroupID>, g: AtomicGroupID, groups: set<AtomicGroupID>)
    requires g in groups && g !in failed && Failed(failed) <= groups
    ensures Failed(failed + [g]) <= groups
    ensures |groups - Failed(failed + [g])| < |groups - Failed(failed)|
  {
    assert Failed(failed + [g]) == Failed(failed) + {g};
    assert groups - Failed(failed + [g]) == groups - Failed(failed) - {g};
  }

  ghost function NoWork(): Work {
    Work(Proc(Ledger.EMPTY_STATE, map[], map[], map[]), [], [], [], [], [], Going)
  }

  lemma HealthyIsValid(p: Proc)
    requires Healthy(p)
    ensures Ledger.Valid(p.st)
  {
  }

  lemma HealthyStart1(p: Proc, q: Proc)
    requires Healthy(p) && q == p.(fees := map[])
    ensures Healthy(q) && q == Start1(p).p
  {
  }

  lemma SortedFromPool(pool: seq<PoolL2Tx>, failed: seq<AtomicGroupID>, txs: seq<PoolL2Tx>, discarded: seq<PoolL2Tx>,
                       sorted: seq<PoolL2Tx>)
    requires FromPool(pool, failed, txs, discarded) && multiset(sorted) == multiset(txs) && SameGroups(sorted, txs)
    ensures FromPool(pool, failed, sorted, discarded)
    ensures Candidates(pool) ==> Candidates(sorted)
  {
    hide Members, ValidGroup, Poolable;
    forall tx | tx in sorted ensures tx in pool {
      assert tx in multiset(sorted);
      assert tx in multiset(pool);
    }
  }

  /** A group that fails is one of the pool's and has not failed before. */
  lemma FreshGroup(pool: seq<PoolL2Tx>, failed: seq<AtomicGroupID>, txs: seq<PoolL2Tx>, discarded: seq<PoolL2Tx>,
                   g: AtomicGroupID)
    requires FromPool(pool, failed, txs, discarded) && g != NO_GROUP && exists tx :: tx in txs && tx.atomicGroupID == g
    ensures g !in failed && exists tx :: tx in pool && tx.atomicGroupID == g
  {
    hide Members, ValidGroup;
    var tx :| tx in txs && tx.atomicGroupID == g;
    MembersOf(txs, g);
    MembersOf(pool, g);
    assert tx in Members(txs, g);
  }

  lemma Finishes(env: Env, st: Ledger.State, l1User: seq<L1Tx>, pool: seq<PoolL2Tx>, w: Work, choice: Choice,
                 left: Ledger.State)
    requires AfterUser(env.cfg, st, l1User).err == None
    requires choice.l1UserTxs == l1User && choice.l1CoordinatorTxs == w.l1 && choice.accAuths == w.auths
             && choice.l2Txs == w.selected
    requires Partitioned(pool, choice) && WholeGroups(pool, choice.l2Txs)
    requires Bounded(env, w) && CoordsOf(env.coord, w, choice.coordIdxs)
    requires Fair(env, AfterUser(env.cfg, st, l1User).p.st, pool) ==> Sound(env, AfterUser(env.cfg, st, l1User).p.st, w)
    requires left == PayFees(w.p.st, w.p.fees) && forall i :: i in left.accounts ==> Ledger.Fits(left.accounts[i])
    ensures Finished(env, st, l1User, pool, w, choice, left)
  {
    hide AfterUser, Sound, Bounded, CoordsOf, Partitioned, WholeGroups, Fair, Ledger.Fits;
  }

  /** Without candidates the batch consists of the L1 user txs. */
  lemma NothingSelected(env: Env, st: Ledger.State, l1User: seq<L1Tx>, pool: seq<PoolL2Tx>, failed: seq<AtomicGroupID>,
                        discarded: seq<PoolL2Tx>, p: Proc)
    requires AfterUser(env.cfg, st, l1User).err == None && p.st == AfterUser(env.cfg, st, l1User).p.st
    requires Healthy(p) && p.fees == map[] && p.collected == map[] && FromPool(pool, failed, [], discarded)
    ensures Finished(env, st, l1User, pool, Start1(p), Choice([], [], l1User, [], [], discarded), p.st)
  {
    hide AfterUser, Ids, Ledger.Valid, Ledger.Fits, Sound, Members, ValidGroup, Workable;
    var fair := Fair(env, p.st, pool);
    BetweenStartsHealthy(env, p.st, fair, [], p);
    PassesEnd(env, p.st, fair, pool, failed, [], Start1(p), [], multiset{}, discarded);
    IdsEmpty();
    PayNothing(p.st);
    HealthyIsValid(p);
    AllFit(p.st);
    Finishes(env, st, l1User, pool, Start1(p), Choice([], [], l1User, [], [], discarded), p.st);
  }

  ghost predicate Increasing(idxs: seq<Idx>) {
    forall j, k :: 0 <= j < k < |idxs| ==> idxs[j] < idxs[k]
  }

  lemma InsertIdx(sorted: seq<Idx>, k: nat, i: Idx)
    requires Increasing(sorted) && k <= |sorted| && i !in sorted
    requires k > 0 ==> sorted[k - 1] <= i
    requires forall j :: k <= j < |sorted| ==> i < sorted[j]
    ensures Increasing(sorted[..k] + [i] + sorted[k..])
    ensures forall h :: h in sorted[..k] + [i] + sorted[k..] <==> h in sorted || h == i
  {
    assert sorted == sorted[..k] + sorted[k..];
    forall j | 0 <= j < k ensures sorted[j] < i {
      assert sorted[j] in sorted;
      assert j < k - 1 ==> sorted[j] < sorted[k - 1];
    }
  }

  method SortIdxs(idxs: seq<Idx>) returns (sorted: seq<Idx>)
    requires forall j, k :: 0 <= j < k < |idxs| ==> idxs[j] != idxs[k]
    ensures Increasing(sorted)
    ensures forall i :: i in sorted <==> i in idxs
  {
    hide Increasing;
    sorted := [];
    assert Increasing(sorted) by {
      NoneIncreasing();
    }
    for n := 0 to |idxs|
      invariant Increasing(sorted)
      invariant forall i :: i in sorted <==> i in idxs[..n]
    {
      var k := |sorted|;
      while k > 0 && idxs[n] < sorted[k - 1]
        invariant 0 <= k <= |sorted|
        invariant forall j :: k <= j < |sorted| ==> idxs[n] < sorted[j]
      {
        k := k - 1;
      }
      assert idxs[..n + 1] == idxs[..n] + [idxs[n]];
      forall j | 0 <= j < |sorted| ensures sorted[j] != idxs[n] {
        assert sorted[j] in idxs[..n];
      }
      InsertIdx(sorted, k, idxs[n]);
      sorted := sorted[..k] + [idxs[n]] + sorted[k..];
    }
    assert idxs[..|idxs|] == idxs;
  }

  lemma NoneIncreasing()
    ensures Increasing([])
  {
  }

  /** The accounts of a map from tokens, in any order. */
  method Values(m: map<TokenID, Idx>) returns (values: seq<Idx>)
    requires forall s, t :: s in m && t in m && s != t ==> m[s] != m[t]
    ensures forall j, k :: 0 <= j < k < |values| ==> values[j] != values[k]
    ensures forall i :: i in values <==> exists t :: t in m && m[t] == i
  {
    values := [];
    var remaining := m.Keys;
    while remaining != {}
      invariant remaining <= m.Keys
      invariant forall j, k :: 0 <= j < k < |values| ==> values[j] != values[k]
      invariant forall i :: i in values <==> exists t :: t in m && t !in remaining && m[t] == i
    {
      var t :| t in remaining;
      assert t in m;
      assert m[t] !in values;
      values := values + [m[t]];
      remaining := remaining - {t};
    }
  }

  /** Different tokens have different coordinator accounts. */
  lemma CoordIdxsDiffer(coord: CoordAccount, w: Work, m: map<TokenID, Idx>)
    requires Healthy(w.p) && forall t :: t in m ==> CoordIdx(coord, w.p.st, t) == Ok(m[t])
    ensures forall s, t :: s in m && t in m && s != t ==> m[s] != m[t]
  {
    hide Ledger.Valid, Ledger.GetIdxByEthAddrBJJ, Healthy;
    forall t | t in m ensures m[t] in w.p.st.accounts && w.p.st.accounts[m[t]].tokenID == t {
      HealthyLookup(w.p, coord, t);
    }
  }

  lemma SortedAreCoords(coord: CoordAccount, w: Work, m: map<TokenID, Idx>, idxs: seq<Idx>)
    requires forall t :: t in m ==> CoordIdx(coord, w.p.st, t) == Ok(m[t])
    requires forall t :: t in m ==> exists tx :: tx in w.selected && TokenOf(w.p.st, tx.fromIdx) == t
    requires forall tx :: tx in w.selected ==> TokenOf(w.p.st, tx.fromIdx) in m
    requires forall j, k :: 0 <= j < k < |idxs| ==> idxs[j] < idxs[k]
    requires forall i :: i in idxs <==> exists t :: t in m && m[t] == i
    ensures CoordsOf(coord, w, idxs)
  {
    hide Ledger.GetIdxByEthAddrBJJ, TokenOf;
    forall i | i in idxs
      ensures exists tx :: tx in w.selected && CoordIdx(coord, w.p.st, TokenOf(w.p.st, tx.fromIdx)) == Ok(i)
    {
      var t :| t in m && m[t] == i;
      var tx :| tx in w.selected && TokenOf(w.p.st, tx.fromIdx) == t;
      assert CoordIdx(coord, w.p.st, TokenOf(w.p.st, tx.fromIdx)) == Ok(i);
    }
  }

  lemma AllFit(st: Ledger.State)
    requires Ledger.Valid(st)
    ensures forall i :: i in st.accounts ==> Ledger.Fits(st.accounts[i])
  {
  }

  lemma PayNothing(st: Ledger.State)
    ensures PayFees(st, map[]) == st
  {
    assert PayFees(st, map[]).accounts == st.accounts;
  }

  /** Paying one more account. */
  lemma PayNext(st: Ledger.State, paid: map<Idx, nat>, i: Idx, fee: nat)
    requires i !in paid
    ensures PayFees(st, paid[i := fee]) ==
              if i in st.accounts then
                var s := PayFees(st, paid);
                s.(accounts := s.accounts[i := s.accounts[i].(balance := s.accounts[i].balance + fee)])
              else PayFees(st, paid)
  {
    var s := PayFees(st, paid);
    assert PayFees(st, paid[i := fee]).accounts ==
           if i in st.accounts then s.accounts[i := s.accounts[i].(balance := s.accounts[i].balance + fee)] else s.accounts;
  }

  lemma PayZero(st: Ledger.State, i: Idx)
    ensures i in st.accounts ==> st.accounts[i := st.accounts[i].(balance := st.accounts[i].balance + 0)] == st.accounts
  {
  }

  lemma UpdateFits(st: Ledger.State, i: Idx, acc: Account)
    requires Ledger.UpdateAccount(st, i, acc).err == None
    ensures Ledger.Fits(acc) && Ledger.UpdateAccount(st, i, acc).st == st.(accounts := st.accounts[i := acc])
  {
  }

  lemma HealthyStart(st: Ledger.State)
    requires Ledger.Valid(st)
    ensures Healthy(Batch.Start(st))
  {
  }

  lemma HealthyAfterL1(p: Proc, tx: L1Tx)
    requires Healthy(p)
    ensures L1Step(Mode.TxSelector, p, tx).err == None ==> Healthy(L1Step(Mode.TxSelector, p, tx).p)
    ensures L1Step(Mode.TxSelector, p, tx).p.collected == p.collected
  {
    hide Ledger.Valid, Effective, L1Create, Transfer;
    if L1Step(Mode.TxSelector, p, tx).err == None {
      Funds.L1StepKeepsValid(Mode.TxSelector, p, tx);
    }
    Batch.L1StepKeepsFees(Mode.TxSelector, p, tx);
    var t := WithEffective(p.st, tx);
    Exits.TransferWrites(Mode.TxSelector, map[], p, L1View(t), 0);
    Funds.DebitKeepsExits(Mode.TxSelector, map[], p, L1View(t));
  }

  lemma BetweenStartsHealthy(env: Env, st1: Ledger.State, fair: bool, all: seq<PoolL2Tx>, p: Proc)
    requires Contiguous(all) && Healthy(p) && p.collected == map[] && p.fees == map[] && p.st == st1
    requires fair ==> Workable(env, st1) && Candidates(all)
    ensures Between(env, st1, fair, all, Start1(p), all, multiset{})
    ensures Start1(p) == Work(p, [], [], [], [], [], Going)
  {
    hide Ledger.Valid, Contiguous, Workable, Between;
    BetweenStarts(env, st1, fair, all, p);
  }

  lemma FailedIsCandidate(env: Env, w: Work, txs: seq<PoolL2Tx>)
    requires w.stop.Going? && SelectAll(env, w, txs).stop.GroupFailed?
    ensures exists tx :: tx in txs && tx.atomicGroupID == SelectAll(env, w, txs).stop.id
  {
    hide SelectAll;
    PassIsBounded(env, w, txs);
  }

  lemma LaterAreCandidates(env: Env, w: Work, txs: seq<PoolL2Tx>)
    requires w.stop.Going? && w.later == [] && w.never == [] && GoesOn(SelectAll(env, w, txs))
    ensures forall t :: t in SelectAll(env, w, txs).later ==> exists tx :: tx in txs && tx.atomicGroupID == t.atomicGroupID
  {
    hide SelectAll, Ids, Group, Sublist, Bare;
    var m, picked := PassSplits(env, w, txs);
    var v := SelectAll(env, w, txs);
    forall t | t in v.later ensures exists tx :: tx in txs && tx.atomicGroupID == t.atomicGroupID {
      SublistMembers(v.later, txs, t);
      var tx :| tx in txs && Bare(tx) == Bare(t);
      SameGroup(tx, t);
    }
  }

  lemma Nothing(w: Work)
    ensures w.l1 + [] == w.l1 && w.auths + [] == w.auths && w.selected + [] == w.selected
  {
  }

  lemma Lists(w: Work, v: Work, p: Proc, l1: seq<L1Tx>, auths: seq<Signature>, selected: seq<PoolL2Tx>,
              moreL1: seq<L1Tx>, moreAuths: seq<Signature>, pick: Pick, tx: PoolL2Tx)
    requires v.l1 == w.l1 + l1 && v.auths == w.auths + auths && v.selected == w.selected + selected
    ensures var s := After(v, p, moreL1, moreAuths, pick, tx);
            && s.l1 == w.l1 + (l1 + moreL1) && s.auths == w.auths + (auths + moreAuths)
            && s.selected == w.selected + (if pick.Pick? then selected + [pick.tx] else selected)
  {
  }

  lemma FailedIsGroup(env: Env, w: Work, tx: PoolL2Tx, id: AtomicGroupID)
    requires w.stop == Going && SelectOne(env, w, tx).stop == GroupFailed(id)
    ensures id != NO_GROUP
  {
    hide SelectOne;
    SelectOnePlaces(env, w, tx);
    if Moved(w, SelectOne(env, w, tx), tx) {
      MovedGoesOn(w, SelectOne(env, w, tx), tx);
    }
  }

  /** When the batch is full the rest of the candidates is kept for later. */
  lemma {:induction false} FullStays(env: Env, w: Work, txs: seq<PoolL2Tx>, k: nat)
    requires k <= |txs| && SelectAll(env, w, txs[..k]).stop.Full?
    ensures var v := SelectAll(env, w, txs[..k]); SelectAll(env, w, txs) == v.(later := v.later + txs[k..])
  {
    hide Admit;
    if k < |txs| {
      var n := |txs| - 1;
      assert txs[..n][..k] == txs[..k];
      FullStays(env, w, txs[..n], k);
      assert txs[..n][k..] + [txs[n]] == txs[k..];
    } else {
      assert txs[..k] == txs;
    }
  }

  lemma AbortYields(s: Work, w: Work, p: Proc, l1: seq<L1Tx>, auths: seq<Signature>, e: Error, tx: PoolL2Tx)
    requires s.stop == Aborted(e)
    ensures Yields(s, w, p, l1, auths, Abort(e), tx)
  {
  }

  lemma YieldsSame(s: Work, w: Work, p: Proc, l1: seq<L1Tx>, auths: seq<Signature>, pick: Pick, t: PoolL2Tx,
                   tx: PoolL2Tx)
    requires Yields(s, w, p, l1, auths, pick, t) && !pick.NoSlots?
    ensures Yields(s, w, p, l1, auths, pick, tx)
  {
  }

  lemma FullYields(env: Env, w: Work, tx: PoolL2Tx)
    requires w.stop == Going && !CanAddL2Tx(NL1(env, w), |w.selected|, env.cfg)
    ensures Yields(SelectOne(env, w, tx), w, w.p, [], [],
                   if tx.atomicGroupID != NO_GROUP then FailedAG(tx.atomicGroupID) else NoSlots, tx)
  {
    NotExtended(w);
  }

  lemma CoordinatorAborts(env: Env, w: Work, tx: PoolL2Tx)
    requires w.stop == Going && Selection.CoordAccountForTokenID(env.coord, w.p.st, tx.tokenID, NL1(env, w)).Err?
    ensures Process(env, w, tx).stop
            == Aborted(Selection.CoordAccountForTokenID(env.coord, w.p.st, tx.tokenID, NL1(env, w)).error)
  {
    hide Execute, NeedReceiver;
  }

  lemma AddCreationStops(w: Work, c: L1Tx, auth: Signature)
    ensures AddCreation(w, c, auth).later == w.later
  {
  }

  lemma HealthyFees(p: Proc, q: Proc)
    requires Healthy(p) && q.st == p.st && q.exits == p.exits
    ensures Healthy(q)
  {
  }

  lemma HealthyLookup(p: Proc, coord: CoordAccount, token: TokenID)
    requires Healthy(p) && CoordIdx(coord, p.st, token).Ok?
    ensures var i := CoordIdx(coord, p.st, token).value; i in p.st.accounts && p.st.accounts[i].tokenID == token
  {
    LookupFinds(p.st, coord.addr, coord.bjj, token);
  }
}
