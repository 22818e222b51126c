/** What holds of a selection after every candidate: it can be replayed, it is funded, its fees are known. */
module Selected {
  import opened Wrappers
  import opened Common
  import opened Ledger
  import opened Effects
  import opened Funds
  import opened Conservation
  import opened Replay
  import opened Selection
  import Fees

  /** What admission to the pool and the fetch from it guarantee of a candidate. */
  predicate Poolable(tx: PoolL2Tx) {
    PoolL2Type(tx) == Ok(tx.txType) && tx.auxToIdx == 0 && tx.nonce < MAX_NONCE && BuilderCheck(tx) == None
  }

  /** The fees of a list of pool txs, whatever their tokens. */
  function AllFees(txs: seq<PoolL2Tx>): nat {
    if txs == [] then 0 else AllFees(txs[..|txs| - 1]) + FeeOf(txs[|txs| - 1])
  }

  function WithCreations(st1: State, w: Work): State {
    Creations(st1, w.l1).st
  }

  /** From the ledger `st1` after the L1 user txs: all creations first and the pool txs then give the current ledger. */
  ghost predicate Replayed(st1: State, w: Work) {
    && Creations(st1, w.l1).err == None
    && L2Effects(WithCreations(st1, w), w.selected) == Outcome(w.p.st, None)
  }

  /** Nothing is held but what was held before, and the fees are still due. */
  ghost predicate Funded(st1: State, w: Work) {
    Total(w.p.st.accounts, None) + AllFees(w.selected) <= Total(st1.accounts, None)
  }

  /** The accumulated fees are those of the selected txs, for the coordinator account of each token. */
  ghost predicate FeesKept(coord: CoordAccount, w: Work) {
    && (forall i :: i in w.p.fees ==>
          && i in w.p.st.accounts && CoordIdx(coord, w.p.st, TokenOf(w.p.st, i)) == Ok(i)
          && w.p.fees[i] == FeesPaid(w.p.st, w.selected, Some(TokenOf(w.p.st, i))))
    && (forall tx :: tx in w.selected ==>
          && tx.fromIdx in w.p.st.accounts && tx.tokenID == TokenOf(w.p.st, tx.fromIdx)
          && CoordIdx(coord, w.p.st, TokenOf(w.p.st, tx.fromIdx)).Ok?
          && CoordIdx(coord, w.p.st, TokenOf(w.p.st, tx.fromIdx)).value in w.p.fees)
  }

  /** A selected tx can be published, and no longer depends on the lookup of its receiver. */
  predicate Settled(tx: PoolL2Tx) {
    (tx.toIdx != 0 || tx.auxToIdx != 0) && BuilderCheck(tx) == None && (IsL2Transfer(tx.txType) || tx.txType == TxTypeExit)
  }

  /** The coordinator tx creates the coordinator's own account, a keyed one, or an authorized one. */
  predicate Authorized(env: Env, tx: L1Tx, auth: Signature) {
    || (tx.fromEthAddr == env.coord.addr && tx.fromBJJ == env.coord.bjj && auth == env.coord.accountCreationAuth)
    || (tx.fromEthAddr == FF_ADDR && auth == EMPTY_SIGNATURE)
    || (tx.fromEthAddr in env.auths && env.auths[tx.fromEthAddr] == AccountCreationAuth(tx.fromBJJ, auth))
  }

  /** One authorization per coordinator tx, each tx at its position after the L1 user txs. */
  ghost predicate InPlace(env: Env, w: Work) {
    && |w.auths| == |w.l1|
    && forall k :: 0 <= k < |w.l1| ==>
         var tx := w.l1[k];
         && tx == CreationTx(env.nUser + k, tx.fromEthAddr, tx.fromBJJ, tx.tokenID)
         && Authorized(env, tx, w.auths[k])
  }

  predicate WithinCapacity(env: Env, w: Work) {
    && (w.l1 != [] ==> NL1(env, w) <= env.cfg.maxL1Tx && NL1(env, w) < env.cfg.maxTx)
    && (w.selected != [] ==> NL1(env, w) + |w.selected| <= env.cfg.maxTx)
  }

  function NonceOf(st: State, i: Idx): nat {
    if i in st.accounts then st.accounts[i].nonce else 0
  }

  function CountFrom(txs: seq<PoolL2Tx>, i: Idx): nat {
    if txs == [] then 0
    else CountFrom(txs[..|txs| - 1], i) + (if txs[|txs| - 1].fromIdx == i then 1 else 0)
  }

  /** The selected txs of each sender carry consecutive nonces from the sender's nonce on. */
  ghost predicate Consecutive(st1: State, w: Work) {
    && (forall i :: NonceOf(w.p.st, i) == NonceOf(st1, i) + CountFrom(w.selected, i))
    && (forall k :: 0 <= k < |w.selected| ==>
          w.selected[k].nonce == NonceOf(st1, w.selected[k].fromIdx) + CountFrom(w.selected[..k], w.selected[k].fromIdx))
  }

  /** Coordinator txs in their places, and no more txs than fit. */
  ghost predicate Bounded(env: Env, w: Work) {
    InPlace(env, w) && WithinCapacity(env, w)
  }

  /** The state of the selection is what the builder will find, and what its fees say. */
  ghost predicate Sound(env: Env, st1: State, w: Work) {
    && Valid(w.p.st) && w.p.exits == map[] && w.p.collected == map[]
    && Replayed(st1, w) && Funded(st1, w) && FeesKept(env.coord, w) && Consecutive(st1, w)
    && (forall tx :: tx in w.selected ==> Settled(tx))
  }

  /** The environment of a selection that the builder can follow. */
  ghost predicate Workable(env: Env, st1: State) {
    && env.coord.bjj != EMPTY_BJJ
    && Total(st1.accounts, None) < BALANCE_LIMIT
  }

  // ---- Creating an account ----

  lemma CreationStep(p: Proc, position: int, addr: EthAddr, bjj: BJJ, token: TokenID)
    ensures var c := CreationTx(position, addr, bjj, token);
            L1Step(TxSelector, p, c) == Step(p.(st := CreateDeposit(p.st, c, 0).st), CreateDeposit(p.st, c, 0).err, None)
  {
    hide CreateAccount;
    var c := CreationTx(position, addr, bjj, token);
    assert Effective(p.st, c) == (0, 0);
  }

  lemma CreationReplays(env: Env, st1: State, w: Work, c: L1Tx, auth: Signature)
    requires Replayed(st1, w)
    requires c == CreationTx(c.position, c.fromEthAddr, c.fromBJJ, c.tokenID)
    requires AddCreation(w, c, auth).stop == w.stop && w.stop == Going
    ensures Replayed(st1, AddCreation(w, c, auth))
  {
    hide CreateDeposit, L1Step, L2Effects;
    CreationStep(w.p, c.position, c.fromEthAddr, c.fromBJJ, c.tokenID);
    assert (w.l1 + [c])[..|w.l1|] == w.l1;
    CreationCommutes(WithCreations(st1, w), w.selected, c);
  }

  lemma {:induction false} FeesPaidExtends(s: State, t: State, txs: seq<PoolL2Tx>, scope: Scope)
    requires Extends(s, t) && forall tx :: tx in txs ==> tx.fromIdx in s.accounts
    ensures FeesPaid(s, txs, scope) == FeesPaid(t, txs, scope)
  {
    hide FeeOf;
    if txs != [] {
      FeesPaidExtends(s, t, txs[..|txs| - 1], scope);
      assert txs[|txs| - 1] in txs;
    }
  }

  lemma CreationKeepsFees(coord: CoordAccount, w: Work, c: L1Tx, t: State)
    requires Valid(w.p.st) && coord.bjj != EMPTY_BJJ && FeesKept(coord, w)
    requires CreateDeposit(w.p.st, c, 0) == Outcome(t, None)
    ensures FeesKept(coord, w.(p := w.p.(st := t), l1 := w.l1 + [c]))
  {
    hide Valid, CreateDeposit, GetIdxByEthAddrBJJ;
    CreateDepositKeepsValid(w.p.st, c, 0);
    forall token | CoordIdx(coord, w.p.st, token).Ok? ensures CoordIdx(coord, t, token) == CoordIdx(coord, w.p.st, token) {
      CreationKeepsLookups(w.p.st, c, coord.addr, coord.bjj, token);
    }
    forall i | i in w.p.st.accounts ensures i in t.accounts && TokenOf(t, i) == TokenOf(w.p.st, i) {
    }
    forall i | i in w.p.fees
      ensures w.p.fees[i] == FeesPaid(t, w.selected, Some(TokenOf(t, i)))
    {
      FeesPaidExtends(w.p.st, t, w.selected, Some(TokenOf(w.p.st, i)));
    }
  }

  lemma CreationKeepsLookups(st: State, c: L1Tx, a: EthAddr, k: BJJ, token: TokenID)
    requires Valid(st) && k != EMPTY_BJJ && GetIdxByEthAddrBJJ(st, a, k, token).Ok?
    requires CreateDeposit(st, c, 0).err == None
    ensures GetIdxByEthAddrBJJ(CreateDeposit(st, c, 0).st, a, k, token) == GetIdxByEthAddrBJJ(st, a, k, token)
  {
    hide Valid, SetIdxByEthAddrBJJ;
    LookupIsStable(st, NewAccount(c, 0), a, k, token);
  }

  lemma CreationKeepsNonces(st1: State, w: Work, c: L1Tx, t: State)
    requires Valid(w.p.st) && Consecutive(st1, w) && CreateDeposit(w.p.st, c, 0) == Outcome(t, None)
    ensures Consecutive(st1, w.(p := w.p.(st := t), l1 := w.l1 + [c]))
  {
    hide Valid, CountFrom, CreateDeposit;
    CreateSucceedsIff(w.p.st, c);
    forall i ensures NonceOf(t, i) == NonceOf(w.p.st, i) {
    }
  }

  lemma CreationKeepsFunds(st1: State, w: Work, c: L1Tx, t: State)
    requires Valid(w.p.st) && Funded(st1, w) && CreateDeposit(w.p.st, c, 0) == Outcome(t, None)
    ensures Funded(st1, w.(p := w.p.(st := t), l1 := w.l1 + [c]))
  {
    hide Valid, CreateDeposit;
    CreateDepositTotal(w.p.st, c, 0, None);
  }

  lemma CreationSound(env: Env, st1: State, w: Work, c: L1Tx, auth: Signature)
    requires Workable(env, st1) && Sound(env, st1, w) && w.stop == Going
    requires c == CreationTx(c.position, c.fromEthAddr, c.fromBJJ, c.tokenID)
    requires AddCreation(w, c, auth).stop == Going
    ensures Sound(env, st1, AddCreation(w, c, auth))
    ensures AddCreation(w, c, auth)
            == w.(p := w.p.(st := CreateDeposit(w.p.st, c, 0).st), l1 := w.l1 + [c], auths := w.auths + [auth])
    ensures CreateDeposit(w.p.st, c, 0).err == None
  {
    hide L1Step, CreateDeposit, Valid, Replayed, Funded, FeesKept, Consecutive;
    var w' := AddCreation(w, c, auth);
    CreationStep(w.p, c.position, c.fromEthAddr, c.fromBJJ, c.tokenID);
    var t := CreateDeposit(w.p.st, c, 0).st;
    CreateDepositKeepsValid(w.p.st, c, 0);
    CreationReplays(env, st1, w, c, auth);
    CreationKeepsFunds(st1, w, c, t);
    CreationKeepsFees(env.coord, w, c, t);
    CreationKeepsNonces(st1, w, c, t);
    OnLedger(env, st1, w.(p := w.p.(st := t), l1 := w.l1 + [c]), w');
  }

  /** These invariants speak of the ledger, the fees and the two lists of txs only. */
  lemma OnLedger(env: Env, st1: State, v: Work, w: Work)
    requires v.p.st == w.p.st && v.p.fees == w.p.fees && v.selected == w.selected && v.l1 == w.l1
    ensures Funded(st1, v) == Funded(st1, w) && FeesKept(env.coord, v) == FeesKept(env.coord, w)
    ensures Consecutive(st1, v) == Consecutive(st1, w) && Replayed(st1, v) == Replayed(st1, w)
  {
  }
}
