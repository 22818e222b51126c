/**
 What the selector does with one pool tx, and with a list of them (txselector/txselector.go), as
 total functions. The TxSelector class computes exactly these.
 */
module Selection {
  import opened Wrappers
  import opened Common
  import opened Ledger
  import opened Effects

  type Signature = seq<byte>

  const EMPTY_SIGNATURE: Signature :=
    [0, 0, 0, 0, 0, 0, 0, 0, 0, 0, 0, 0, 0, 0, 0, 0, 0, 0, 0, 0, 0, 0, 0, 0, 0, 0, 0, 0, 0, 0, 0, 0,
     0, 0, 0, 0, 0, 0, 0, 0, 0, 0, 0, 0, 0, 0, 0, 0, 0, 0, 0, 0, 0, 0, 0, 0, 0, 0, 0, 0, 0, 0, 0, 0, 0]

  /** A user's permission to create an account for an address, with the key it must have. */
  datatype AccountCreationAuth = AccountCreationAuth(bjj: BJJ, signature: Signature)

  datatype CoordAccount = CoordAccount(addr: EthAddr, bjj: BJJ, accountCreationAuth: Signature)

  /** What stays the same during a selection. */
  datatype Env = Env(
    cfg: Config,
    coord: CoordAccount,
    auths: map<EthAddr, AccountCreationAuth>,
    future: seq<L1Tx>,
    nextBatch: nat,
    nUser: nat
  )

  /** Why an iteration over the candidates ends early, if it does. */
  datatype Stop = Going | Full | GroupFailed(id: AtomicGroupID) | Aborted(error: Error)

  /** The selection so far: coordinator txs with their authorizations, and where the pool txs went. */
  datatype Work = Work(
    p: Proc,
    l1: seq<L1Tx>,
    auths: seq<Signature>,
    selected: seq<PoolL2Tx>,
    later: seq<PoolL2Tx>,
    never: seq<PoolL2Tx>,
    stop: Stop
  )

  function CanAddL2Tx(nL1: nat, nL2: nat, cfg: Config): bool {
    nL1 + nL2 < cfg.maxTx
  }

  function CanAddL2TxThatNeedsNewCoordL1Tx(nL1: nat, nL2: nat, cfg: Config): bool {
    nL1 < cfg.maxL1Tx && nL1 + nL2 + 1 < cfg.maxTx
  }

  /** The tx by which the coordinator creates an account. */
  function CreationTx(position: int, addr: EthAddr, bjj: BJJ, token: TokenID): L1Tx {
    L1Tx(position, false, 0, addr, bjj, 0, token, 0, 0, None, None, TxTypeCreateAccountDeposit)
  }

  function CoordIdx(coord: CoordAccount, st: State, token: TokenID): Result<Idx, Error> {
    GetIdxByEthAddrBJJ(st, coord.addr, coord.bjj, token)
  }

  /** The tx that creates the coordinator's account for a token, when it is missing. */
  function CoordAccountForTokenID(coord: CoordAccount, st: State, token: TokenID,
                                  position: nat): Result<Option<L1Tx>, Error> {
    match CoordIdx(coord, st, token)
    case Ok(_) => Ok(None)
    case Err(IdxNotFound) => Ok(Some(CreationTx(position, coord.addr, coord.bjj, token)))
    case Err(e) => Err(e)
  }

  /** Some tx of the frozen queue creates the receiver's account in the next batch. */
  function PendingToCreate(future: seq<L1Tx>, token: TokenID, addr: EthAddr, bjj: BJJ): bool {
    exists i :: 0 <= i < |future| && future[i].fromEthAddr == addr && future[i].tokenID == token
                && (future[i].fromBJJ == bjj || bjj == EMPTY_BJJ)
  }

  /**
   What a receiver named by address or key needs: nothing, or a tx that creates its account and
   the authorization for it; an error keeps the transfer out.
   */
  function ReceiverTx(env: Env, st: State, nL1: nat, nL2: nat, tx: PoolL2Tx): Result<Option<(L1Tx, Signature)>, Error> {
    var full := !CanAddL2TxThatNeedsNewCoordL1Tx(nL1, nL2, env.cfg);
    if PendingToCreate(env.future, tx.tokenID, tx.toEthAddr, tx.toBJJ) then Err(IdxNotFound)
    else if tx.toEthAddr != EMPTY_ADDR && tx.toEthAddr != FF_ADDR then
      var found := if tx.toBJJ != EMPTY_BJJ then GetIdxByEthAddrBJJ(st, tx.toEthAddr, tx.toBJJ, tx.tokenID)
                   else GetIdxByEthAddr(st, tx.toEthAddr, tx.tokenID);
      if found.Ok? then Ok(None)
      else if tx.toEthAddr !in env.auths then Err(EthAddrNotFound)
      else
        var auth := env.auths[tx.toEthAddr];
        if tx.toBJJ != EMPTY_BJJ && auth.bjj != tx.toBJJ then Err(IdxNotFound)
        else if full then Err(TooManyTxs)
        else Ok(Some((CreationTx(nL1, tx.toEthAddr, auth.bjj, tx.tokenID), auth.signature)))
    else if tx.toEthAddr == FF_ADDR && tx.toBJJ != EMPTY_BJJ then
      if GetIdxByEthAddrBJJ(st, tx.toEthAddr, tx.toBJJ, tx.tokenID).Ok? then Ok(None)
      else if full then Err(TooManyTxs)
      else Ok(Some((CreationTx(nL1, tx.toEthAddr, tx.toBJJ, tx.tokenID), EMPTY_SIGNATURE)))
    else if full then Err(TooManyTxs)
    else Ok(None)
  }

  /** A tx of an atomic group that cannot be selected fails its whole group. */
  function Postpone(w: Work, tx: PoolL2Tx): Work {
    if tx.atomicGroupID != NO_GROUP then w.(stop := GroupFailed(tx.atomicGroupID)) else w.(later := w.later + [tx])
  }

  function Discard(w: Work, tx: PoolL2Tx): Work {
    if tx.atomicGroupID != NO_GROUP then w.(stop := GroupFailed(tx.atomicGroupID)) else w.(never := w.never + [tx])
  }

  /** Executes a tx that creates an account and adds it to the selection. */
  function AddCreation(w: Work, tx: L1Tx, auth: Signature): Work {
    var s := L1Step(TxSelector, w.p, tx);
    w.(p := s.p, l1 := w.l1 + [tx], auths := w.auths + [auth], stop := if s.err.Some? then Aborted(s.err.value) else w.stop)
  }

  function NL1(env: Env, w: Work): nat {
    env.nUser + |w.l1|
  }

  /** Creates the coordinator's account for the token of the sender, if there is none yet. */
  function NeedCoordinator(env: Env, w: Work, tx: PoolL2Tx): Work {
    match CoordAccountForTokenID(env.coord, w.p.st, tx.tokenID, NL1(env, w))
    case Err(e) => w.(stop := Aborted(e))
    case Ok(None) => w
    case Ok(Some(l1)) => AddCreation(w, l1, env.coord.accountCreationAuth)
  }

  /** Creates the account of the receiver, if it is named by its owner and there is none yet. */
  function NeedReceiver(env: Env, w: Work, tx: PoolL2Tx): Work {
    if tx.toIdx == 0 then
      match ReceiverTx(env, w.p.st, NL1(env, w), |w.selected|, tx)
      case Err(_) => Postpone(w, tx)
      case Ok(None) => w
      case Ok(Some((l1, auth))) => AddCreation(w, l1, auth)
    else if tx.toIdx >= USER_THRESHOLD && GetAccount(w.p.st, tx.toIdx).Err? then Postpone(w, tx)
    else w
  }

  /** Neither the coordinator account nor the receiver kept the tx out. */
  predicate Passed(before: Work, after: Work) {
    after.stop == before.stop && after.later == before.later
  }

  /** Executes the tx itself; one that fails is postponed, with whatever it changed. */
  function Execute(env: Env, w: Work, tx: PoolL2Tx): Work {
    match CoordIdx(env.coord, w.p.st, tx.tokenID)
    case Err(e) => w.(stop := Aborted(e))
    case Ok(c) =>
      var p := w.p.(fees := w.p.fees[c := At(w.p.fees, c)]);
      var s := L2Step(TxSelector, map[tx.tokenID := c], p, tx);
      var t := L2Filled(TxSelector, p.st, tx);
      if s.err.Some? then Postpone(w.(p := s.p), t) else w.(p := s.p, selected := w.selected + [t])
  }

  /** The checks that come before any account is created. */
  function Admit(env: Env, w: Work, tx: PoolL2Tx): Work
    requires w.stop == Going
  {
    if !CanAddL2Tx(NL1(env, w), |w.selected|, env.cfg) then
      if tx.atomicGroupID != NO_GROUP then w.(stop := GroupFailed(tx.atomicGroupID))
      else w.(later := w.later + [tx], stop := Full)
    else if tx.maxNumBatch != 0 && env.nextBatch > tx.maxNumBatch then Discard(w, tx)
    else if tx.txType == TxTypeExit && tx.amount == 0 then Discard(w, tx)
    else
      match GetAccount(w.p.st, tx.fromIdx)
      case Err(e) => w.(stop := Aborted(e))
      case Ok(acc) =>
        var t := tx.(tokenID := acc.tokenID);
        if !EnoughBalance(w.p.st, t) || t.nonce != acc.nonce then Postpone(w, t)
        else
          var coordTx := CoordAccountForTokenID(env.coord, w.p.st, t.tokenID, NL1(env, w));
          if coordTx.Ok? && coordTx.value.Some? && !CanAddL2TxThatNeedsNewCoordL1Tx(NL1(env, w), |w.selected|, env.cfg)
          then Postpone(w, t)
          else Process(env, w, t)
  }

  /** The steps of a tx that passed the checks. */
  function Process(env: Env, w: Work, tx: PoolL2Tx): Work {
    var w1 := NeedCoordinator(env, w, tx);
    if !Passed(w, w1) then w1
    else
      var w2 := NeedReceiver(env, w1, tx);
      if !Passed(w1, w2) then w2 else Execute(env, w2, tx)
  }

  /** One candidate; after the batch is full the rest is postponed untouched. */
  function SelectOne(env: Env, w: Work, tx: PoolL2Tx): Work {
    match w.stop
    case Going => Admit(env, w, tx)
    case Full => w.(later := w.later + [tx])
    case _ => w
  }

  function SelectAll(env: Env, w: Work, txs: seq<PoolL2Tx>): Work {
    if txs == [] then w
    else
      var n := |txs| - 1;
      SelectOne(env, SelectAll(env, w, txs[..n]), txs[n])
  }

  /** An iteration that was aborted stays as it is. */
  lemma {:induction false} StoppedStays(env: Env, w: Work, txs: seq<PoolL2Tx>, k: nat)
    requires k <= |txs| && !SelectAll(env, w, txs[..k]).stop.Going? && !SelectAll(env, w, txs[..k]).stop.Full?
    ensures SelectAll(env, w, txs) == SelectAll(env, w, txs[..k])
  {
    hide Admit;
    if k < |txs| {
      var n := |txs| - 1;
      assert txs[..n][..k] == txs[..k];
      StoppedStays(env, w, txs[..n], k);
    } else {
      assert txs[..k] == txs;
    }
  }
}
