/** Under what the pool and the ledger guarantee, the selection stays sound with every candidate. */
module Decisions {
  import opened Wrappers
  import opened Common
  import opened Ledger
  import opened Effects
  import opened Funds
  import opened Conservation
  import opened Replay
  import opened Selection
  import opened Selected
  import opened Executed
  import opened Choices
  import Fees

  // ---- What a candidate may do to a sound selection ----

  ghost predicate Decided(env: Env, st1: State, v: Work, w: Work) {
    GoesOn(w) ==> Sound(env, st1, w) && forall t :: t in w.later ==> t in v.later || Poolable(t)
  }

  lemma SoundOfLists(env: Env, st1: State, v: Work, w: Work)
    requires Sound(env, st1, v)
    requires w == v.(later := w.later, never := w.never, stop := w.stop)
    ensures Sound(env, st1, w)
  {
    hide Valid, Replayed, Funded, FeesKept, Consecutive, Settled;
    OnLedger(env, st1, v, w);
  }

  lemma PostponeDecides(env: Env, st1: State, v: Work, w: Work, t: PoolL2Tx)
    requires Sound(env, st1, w) && Poolable(t) && w.later == v.later
    ensures Decided(env, st1, v, Postpone(w, t))
  {
    hide Sound, Poolable;
    SoundOfLists(env, st1, w, Postpone(w, t));
  }

  // ---- Creating accounts ----

  /** The ledger only gained an account; everything checked of the tx still holds. */
  ghost predicate Prepared(v: Work, w: Work, tx: PoolL2Tx) {
    && w.stop == Going && w.selected == v.selected && w.later == v.later && w.never == v.never
    && GetAccount(w.p.st, tx.fromIdx).Ok? && EnoughBalance(w.p.st, tx)
    && tx.tokenID == w.p.st.accounts[tx.fromIdx].tokenID && tx.nonce == w.p.st.accounts[tx.fromIdx].nonce
  }

  lemma CreationPrepares(env: Env, st1: State, v: Work, w: Work, tx: PoolL2Tx, c: L1Tx, auth: Signature)
    requires Workable(env, st1) && Sound(env, st1, w) && Prepared(v, w, tx)
    requires c == CreationTx(c.position, c.fromEthAddr, c.fromBJJ, c.tokenID)
    requires AddCreation(w, c, auth).stop == Going
    ensures Sound(env, st1, AddCreation(w, c, auth)) && Prepared(v, AddCreation(w, c, auth), tx)
    ensures forall i :: GetAccount(w.p.st, i).Ok? ==> GetAccount(AddCreation(w, c, auth).p.st, i).Ok?
  {
    hide Sound, Workable, AddCreation, CreateDeposit, Authorized, Fees.CalcFeeAmount;
    CreationSound(env, st1, w, c, auth);
    CreateSucceedsIff(w.p.st, c);
  }

  lemma NeedCoordinatorPrepares(env: Env, st1: State, v: Work, w: Work, tx: PoolL2Tx)
    requires Workable(env, st1) && Sound(env, st1, w) && Prepared(v, w, tx)
    ensures var w1 := NeedCoordinator(env, w, tx);
            || w1.stop.Aborted?
            || (Passed(w, w1) && Sound(env, st1, w1) && Prepared(v, w1, tx)
                && forall i :: GetAccount(w.p.st, i).Ok? ==> GetAccount(w1.p.st, i).Ok?)
  {
    hide Sound, Workable, Prepared, L1Step, GetIdxByEthAddrBJJ, CanAddL2TxThatNeedsNewCoordL1Tx;
    var c := CoordAccountForTokenID(env.coord, w.p.st, tx.tokenID, NL1(env, w));
    if c.Ok? && c.value.Some? && AddCreation(w, c.value.value, env.coord.accountCreationAuth).stop == Going {
      CreationPrepares(env, st1, v, w, tx, c.value.value, env.coord.accountCreationAuth);
      PreparedGoes(v, AddCreation(w, c.value.value, env.coord.accountCreationAuth), tx);
    }
    PreparedGoes(v, w, tx);
  }

  lemma PreparedGoes(v: Work, w: Work, tx: PoolL2Tx)
    requires Prepared(v, w, tx)
    ensures w.stop == Going && w.selected == v.selected && w.later == v.later && w.never == v.never
  {
  }

  lemma NeedReceiverPrepares(env: Env, st1: State, v: Work, w: Work, tx: PoolL2Tx)
    requires Workable(env, st1) && Sound(env, st1, w) && Prepared(v, w, tx)
    ensures var w2 := NeedReceiver(env, w, tx);
            || w2.stop.Aborted?
            || w2 == Postpone(w, tx)
            || (Passed(w, w2) && Sound(env, st1, w2) && Prepared(v, w2, tx)
                && (tx.toIdx >= USER_THRESHOLD ==> GetAccount(w2.p.st, tx.toIdx).Ok?))
  {
    hide Sound, Workable, Prepared, L1Step, ReceiverTx, Postpone, CanAddL2TxThatNeedsNewCoordL1Tx, Authorized;
    PreparedGoes(v, w, tx);
    if tx.toIdx == 0 {
      var r := ReceiverTx(env, w.p.st, NL1(env, w), |w.selected|, tx);
      if r.Ok? && r.value.Some? {
        var (c, auth) := r.value.value;
        ReceiverTxAuthorized(env, w.p.st, NL1(env, w), |w.selected|, tx);
        if AddCreation(w, c, auth).stop == Going {
          CreationPrepares(env, st1, v, w, tx, c, auth);
        }
      }
    }
  }

  // ---- Executing ----

  lemma ListingKeeps(env: Env, st1: State, w: Work, c: Idx, token: TokenID)
    requires Sound(env, st1, w) && CoordIdx(env.coord, w.p.st, token) == Ok(c)
    ensures Valid(w.p.st) && GetAccount(w.p.st, c).Ok? && TokenOf(w.p.st, c) == token
    ensures Listed(w.p, c).st == w.p.st && Listed(w.p, c).exits == map[] && Listed(w.p, c).collected == map[]
    ensures Total(w.p.st.accounts, None) <= Total(st1.accounts, None)
  {
    hide Valid, GetIdxByEthAddrBJJ;
    LookupFinds(w.p.st, env.coord.addr, env.coord.bjj, token);
  }

  lemma SelectedSound(env: Env, st1: State, w: Work, tx: PoolL2Tx, c: Idx)
    requires Workable(env, st1) && Sound(env, st1, w) && Ready(w, tx) && Poolable(tx)
    requires CoordIdx(env.coord, w.p.st, tx.tokenID) == Ok(c)
    requires L2Step(TxSelector, map[tx.tokenID := c], Listed(w.p, c), tx).err == None
    ensures var q := L2Step(TxSelector, map[tx.tokenID := c], Listed(w.p, c), tx).p;
            var t := L2Filled(TxSelector, w.p.st, tx);
            Sound(env, st1, w.(p := q, selected := w.selected + [t]))
  {
    hide Valid, GetIdxByEthAddrBJJ, Replayed, Funded, FeesKept, Consecutive, L2Step, L2Filled, FeeOf, SameOwners;
    hide EnoughBalance, BuilderCheck, PoolL2Type;
    var coords := map[tx.tokenID := c];
    var p := Listed(w.p, c);
    var q := L2Step(TxSelector, coords, p, tx).p;
    var t := L2Filled(TxSelector, w.p.st, tx);
    ListingKeeps(env, st1, w, c, tx.tokenID);
    StepIsEffect(TxSelector, coords, p, tx);
    FilledIs(w.p.st, tx, coords, p);
    StepFees(TxSelector, coords, p, tx);
    L2StepKeepsOwners(TxSelector, coords, p, tx);
    assert Valid(q.st) by {
      StepKeepsLedgerValid(coords, p, tx);
    }
    ExecutionReplays(st1, w, t, q);
    ExecutionKeepsFunds(st1, w, t, q);
    ExecutionKeepsNonces(st1, w, t, q);
    ExecutionKeepsFees(env.coord, w, t, q, c);
  }

  lemma StepKeepsLedgerValid(coords: map<TokenID, Idx>, p: Proc, tx: PoolL2Tx)
    requires Valid(p.st) && p.exits == map[]
    ensures Valid(L2Step(TxSelector, coords, p, tx).p.st)
  {
    hide Valid, L2Step;
    L2StepKeepsValid(TxSelector, coords, p, tx);
  }

  /** The filled tx is the candidate with a receiver that no longer needs a lookup. */
  lemma FilledIs(st: State, tx: PoolL2Tx, coords: map<TokenID, Idx>, p: Proc)
    requires Valid(st) && Poolable(tx) && p.st == st && L2Step(TxSelector, coords, p, tx).err == None
    requires tx.toIdx >= USER_THRESHOLD ==> GetAccount(st, tx.toIdx).Ok?
    ensures var t := L2Filled(TxSelector, st, tx);
            && t.fromIdx == tx.fromIdx && t.nonce == tx.nonce && t.tokenID == tx.tokenID
            && FeeOf(t) == FeeOf(tx) && Settled(t)
    ensures IsL2Transfer(tx.txType) || tx.txType == TxTypeExit
  {
    hide Valid, GetIdxByEthAddrBJJ, Transfer, Exit, Fees.CalcFeeAmount;
    if IsL2Transfer(tx.txType) {
      ReceiverExists(st, tx);
    }
  }

  lemma ExecuteDecides(env: Env, st1: State, v: Work, w: Work, tx: PoolL2Tx)
    requires Workable(env, st1) && Sound(env, st1, w) && Prepared(v, w, tx) && Poolable(tx)
    requires tx.toIdx >= USER_THRESHOLD ==> GetAccount(w.p.st, tx.toIdx).Ok?
    ensures Decided(env, st1, v, Execute(env, w, tx))
  {
    hide Sound, Valid, GetIdxByEthAddrBJJ, L2Step, L2Filled, EnoughBalance, Poolable, Resolve, Postpone;
    var coordIdx := CoordIdx(env.coord, w.p.st, tx.tokenID);
    if coordIdx.Ok? {
      var c := coordIdx.value;
      var p := Listed(w.p, c);
      var coords := map[tx.tokenID := c];
      var s := L2Step(TxSelector, coords, p, tx);
      ListingKeeps(env, st1, w, c, tx.tokenID);
      StepPasses(w, tx, coords, p);
      if s.err.None? {
        SelectedSound(env, st1, w, tx, c);
      } else {
        ListedSound(env, st1, w, c, tx.tokenID);
        PostponeDecides(env, st1, v, w.(p := p), tx);
      }
    }
  }

  /** Listing a coordinator account with no fees is harmless. */
  lemma ListedSound(env: Env, st1: State, w: Work, c: Idx, token: TokenID)
    requires Sound(env, st1, w) && CoordIdx(env.coord, w.p.st, token) == Ok(c)
    ensures Sound(env, st1, w.(p := Listed(w.p, c)))
  {
    hide Valid, GetIdxByEthAddrBJJ, Replayed, Funded, Consecutive;
    var w' := w.(p := Listed(w.p, c));
    LookupFinds(w.p.st, env.coord.addr, env.coord.bjj, token);
    if c !in w.p.fees {
      NoFeesOfToken(env.coord, w, token, w.selected);
    }
    assert FeesKept(env.coord, w');
    assert Replayed(st1, w') && Funded(st1, w') && Consecutive(st1, w') by {
      SameElsewhere(st1, w, w');
    }
  }

  lemma SameElsewhere(st1: State, v: Work, w: Work)
    requires Replayed(st1, v) && Funded(st1, v) && Consecutive(st1, v)
    requires v.p.st == w.p.st && v.selected == w.selected && v.l1 == w.l1
    ensures Replayed(st1, w) && Funded(st1, w) && Consecutive(st1, w)
  {
  }

  lemma ProcessDecides(env: Env, st1: State, w: Work, tx: PoolL2Tx)
    requires Workable(env, st1) && Sound(env, st1, w) && Prepared(w, w, tx) && Poolable(tx)
    ensures Decided(env, st1, w, Process(env, w, tx))
  {
    hide Sound, Workable, NeedCoordinator, NeedReceiver, Execute, Poolable, Prepared, Postpone;
    PreparedGoes(w, w, tx);
    var w1 := NeedCoordinator(env, w, tx);
    NeedCoordinatorPrepares(env, st1, w, w, tx);
    if Passed(w, w1) {
      PreparedGoes(w, w1, tx);
      var w2 := NeedReceiver(env, w1, tx);
      NeedReceiverPrepares(env, st1, w, w1, tx);
      PostponeDecides(env, st1, w, w1, tx);
      PostponeDoesNotPass(w1, tx);
      if Passed(w1, w2) {
        ExecuteDecides(env, st1, w, w2, tx);
      }
    }
  }

  lemma AdmitDecides(env: Env, st1: State, w: Work, tx: PoolL2Tx)
    requires Workable(env, st1) && Sound(env, st1, w) && Poolable(tx) && w.stop == Going
    ensures Decided(env, st1, w, Admit(env, w, tx))
  {
    hide Sound, Workable, Process, EnoughBalance, CoordAccountForTokenID, CanAddL2TxThatNeedsNewCoordL1Tx, Poolable;
    if !CanAddL2Tx(NL1(env, w), |w.selected|, env.cfg) {
      SoundOfLists(env, st1, w, Admit(env, w, tx));
    } else {
      SoundOfLists(env, st1, w, Discard(w, tx));
      if GetAccount(w.p.st, tx.fromIdx).Ok? {
        var t := tx.(tokenID := w.p.st.accounts[tx.fromIdx].tokenID);
        TokenDoesNotMatter(w.p.st, tx, t.tokenID);
        PostponeDecides(env, st1, w, w, t);
        if EnoughBalance(w.p.st, t) && t.nonce == w.p.st.accounts[tx.fromIdx].nonce {
          ProcessDecides(env, st1, w, t);
        }
      }
    }
  }

  lemma TokenDoesNotMatter(st: State, tx: PoolL2Tx, token: TokenID)
    ensures Poolable(tx.(tokenID := token)) == Poolable(tx)
    ensures EnoughBalance(st, tx.(tokenID := token)) == EnoughBalance(st, tx)
  {
    hide Fees.CalcFeeAmount;
  }

  /** A selection that goes on stays sound. */
  lemma SelectOneDecides(env: Env, st1: State, w: Work, tx: PoolL2Tx)
    requires Workable(env, st1) && Sound(env, st1, w) && Poolable(tx) && GoesOn(w)
    ensures Decided(env, st1, w, SelectOne(env, w, tx))
  {
    hide Sound, Workable, Admit, Poolable;
    if w.stop.Going? {
      AdmitDecides(env, st1, w, tx);
    } else {
      SoundOfLists(env, st1, w, w.(later := w.later + [tx]));
    }
  }
}
