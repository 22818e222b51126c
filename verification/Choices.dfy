/** Every candidate goes to exactly one list, in its place and within the capacity of the batch. */
module Choices {
  import opened Wrappers
  import opened Common
  import opened Ledger
  import opened Effects
  import opened Funds
  import opened Conservation
  import opened Replay
  import opened Selection
  import opened Selected
  import opened Executed
  import Fees

  /** A tx without the fields that the selector fills in. */
  function Bare(tx: PoolL2Tx): PoolL2Tx {
    tx.(auxToIdx := 0, tokenID := 0)
  }

  /** The selection went on: the tx went to exactly one list, an atomic one only to the selected ones. */
  ghost predicate Moved(v: Work, w: Work, tx: PoolL2Tx) {
    || (v.stop.Going? && w.stop.Going? && w.later == v.later && w.never == v.never
        && exists t: PoolL2Tx :: Bare(t) == Bare(tx) && w.selected == v.selected + [t])
    || (w.selected == v.selected && w.never == v.never
        && (v.stop.Full? || tx.atomicGroupID == NO_GROUP)
        && (if v.stop.Full? then w.stop.Full? else w.stop.Going? || w.stop.Full?)
        && exists t: PoolL2Tx :: Bare(t) == Bare(tx) && w.later == v.later + [t])
    || (v.stop.Going? && w.stop.Going? && w.selected == v.selected && w.later == v.later && tx.atomicGroupID == NO_GROUP
        && w.never == v.never + [tx])
  }

  /** The tx failed its group. */
  predicate FailedGroup(w: Work, tx: PoolL2Tx) {
    w.stop == GroupFailed(tx.atomicGroupID) && tx.atomicGroupID != NO_GROUP
  }

  predicate GoesOn(w: Work) {
    w.stop.Going? || w.stop.Full?
  }

  // ---- Lists and places, whatever the ledger ----

  lemma SameGroup(t: PoolL2Tx, tx: PoolL2Tx)
    requires Bare(t) == Bare(tx)
    ensures t.atomicGroupID == tx.atomicGroupID && t.txID == tx.txID && t.fromIdx == tx.fromIdx
  {
    assert Bare(t).atomicGroupID == t.atomicGroupID && Bare(tx).atomicGroupID == tx.atomicGroupID;
    assert Bare(t).txID == t.txID && Bare(tx).txID == tx.txID;
    assert Bare(t).fromIdx == t.fromIdx && Bare(tx).fromIdx == tx.fromIdx;
  }

  /** The work has gained account creations only, and each in its place. */
  ghost predicate Gained(env: Env, v: Work, w: Work) {
    && w.stop == v.stop && w.selected == v.selected && w.later == v.later && w.never == v.never
    && (Bounded(env, v) ==> Bounded(env, w))
    && (CanAddL2Tx(NL1(env, v), |v.selected|, env.cfg) ==> CanAddL2Tx(NL1(env, w), |w.selected|, env.cfg))
  }

  lemma CreationGains(env: Env, w: Work, c: L1Tx, auth: Signature)
    requires c == CreationTx(NL1(env, w), c.fromEthAddr, c.fromBJJ, c.tokenID) && Authorized(env, c, auth)
    requires CanAddL2TxThatNeedsNewCoordL1Tx(NL1(env, w), |w.selected|, env.cfg)
    ensures AddCreation(w, c, auth).stop.Aborted? || Gained(env, w, AddCreation(w, c, auth))
  {
    hide L1Step, Authorized;
  }

  /** A receiver's creation tx is authorized, and there is room for it. */
  lemma ReceiverTxAuthorized(env: Env, st: State, nL1: nat, nL2: nat, tx: PoolL2Tx)
    requires var r := ReceiverTx(env, st, nL1, nL2, tx); r.Ok? && r.value.Some?
    ensures var (c, auth) := ReceiverTx(env, st, nL1, nL2, tx).value.value;
            && c == CreationTx(nL1, c.fromEthAddr, c.fromBJJ, c.tokenID) && Authorized(env, c, auth)
            && CanAddL2TxThatNeedsNewCoordL1Tx(nL1, nL2, env.cfg)
  {
    hide GetIdxByEthAddrBJJ, GetIdxByEthAddr, PendingToCreate;
  }

  lemma NeedsGain(env: Env, w: Work, tx: PoolL2Tx)
    requires w.stop == Going
    requires var c := CoordAccountForTokenID(env.coord, w.p.st, tx.tokenID, NL1(env, w));
             c.Ok? && c.value.Some? ==> CanAddL2TxThatNeedsNewCoordL1Tx(NL1(env, w), |w.selected|, env.cfg)
    ensures NeedCoordinator(env, w, tx).stop.Aborted? || Gained(env, w, NeedCoordinator(env, w, tx))
  {
    hide AddCreation, GetIdxByEthAddrBJJ, CanAddL2TxThatNeedsNewCoordL1Tx, Bounded;
    var c := CoordAccountForTokenID(env.coord, w.p.st, tx.tokenID, NL1(env, w));
    if c.Ok? && c.value.Some? {
      CreationGains(env, w, c.value.value, env.coord.accountCreationAuth);
    }
  }

  lemma ReceiverGains(env: Env, w: Work, tx: PoolL2Tx)
    requires w.stop == Going
    ensures var w2 := NeedReceiver(env, w, tx); w2.stop.Aborted? || w2 == Postpone(w, tx) || Gained(env, w, w2)
  {
    hide AddCreation, ReceiverTx, CanAddL2TxThatNeedsNewCoordL1Tx, Bounded, Postpone, Authorized;
    if tx.toIdx == 0 {
      var r := ReceiverTx(env, w.p.st, NL1(env, w), |w.selected|, tx);
      if r.Ok? && r.value.Some? {
        ReceiverTxAuthorized(env, w.p.st, NL1(env, w), |w.selected|, tx);
        CreationGains(env, w, r.value.value.0, r.value.value.1);
      }
    }
  }

  /** The selection ends, or the tx fails its group, or it goes to one list and the bounds are kept. */
  ghost predicate Placed(env: Env, v: Work, w: Work, tx: PoolL2Tx) {
    w.stop.Aborted? || FailedGroup(w, tx) || (Moved(v, w, tx) && (Bounded(env, v) ==> Bounded(env, w)))
  }

  lemma PostponePlaces(env: Env, v: Work, w: Work, tx: PoolL2Tx, t: PoolL2Tx)
    requires v.stop.Going? && Gained(env, v, w) && Bare(t) == Bare(tx)
    ensures Placed(env, v, Postpone(w, t), tx)
  {
    hide Bare;
    SameGroup(t, tx);
    SameBounds(env, w, Postpone(w, t));
  }

  lemma SameBounds(env: Env, v: Work, w: Work)
    requires w.l1 == v.l1 && w.auths == v.auths && w.selected == v.selected
    ensures Bounded(env, v) == Bounded(env, w)
  {
  }

  lemma FilledIsBare(st: State, tx: PoolL2Tx)
    ensures Bare(L2Filled(TxSelector, st, tx)) == Bare(tx)
  {
    hide GetIdxByEthAddrBJJ;
  }

  lemma ExecutePlaces(env: Env, v: Work, w: Work, orig: PoolL2Tx, tx: PoolL2Tx)
    requires v.stop.Going? && Gained(env, v, w) && Bare(tx) == Bare(orig)
    requires CanAddL2Tx(NL1(env, w), |w.selected|, env.cfg)
    ensures Placed(env, v, Execute(env, w, tx), orig)
  {
    hide GetIdxByEthAddrBJJ, L2Step, L2Filled, Bare, Postpone;
    var coordIdx := CoordIdx(env.coord, w.p.st, tx.tokenID);
    if coordIdx.Ok? {
      var p := w.p.(fees := w.p.fees[coordIdx.value := At(w.p.fees, coordIdx.value)]);
      var s := L2Step(TxSelector, map[tx.tokenID := coordIdx.value], p, tx);
      var t := L2Filled(TxSelector, p.st, tx);
      FilledIsBare(p.st, tx);
      SameBounds(env, w, w.(p := s.p));
      PostponePlaces(env, v, w.(p := s.p), orig, t);
    }
  }

  lemma ProcessPlaces(env: Env, w: Work, orig: PoolL2Tx, tx: PoolL2Tx)
    requires w.stop == Going && Bare(tx) == Bare(orig) && CanAddL2Tx(NL1(env, w), |w.selected|, env.cfg)
    requires var c := CoordAccountForTokenID(env.coord, w.p.st, tx.tokenID, NL1(env, w));
             c.Ok? && c.value.Some? ==> CanAddL2TxThatNeedsNewCoordL1Tx(NL1(env, w), |w.selected|, env.cfg)
    ensures Placed(env, w, Process(env, w, tx), orig)
  {
    hide NeedCoordinator, NeedReceiver, Execute, CoordAccountForTokenID, Postpone, Moved, Bounded, Bare;
    hide CanAddL2Tx, CanAddL2TxThatNeedsNewCoordL1Tx;
    var w1 := NeedCoordinator(env, w, tx);
    NeedsGain(env, w, tx);
    if Passed(w, w1) {
      var w2 := NeedReceiver(env, w1, tx);
      ReceiverGains(env, w1, tx);
      PostponePlaces(env, w, w1, orig, tx);
      PostponeDoesNotPass(w1, tx);
      if Passed(w1, w2) {
        ExecutePlaces(env, w, w2, orig, tx);
      }
    }
  }

  lemma PostponeDoesNotPass(w: Work, tx: PoolL2Tx)
    requires w.stop == Going
    ensures !Passed(w, Postpone(w, tx))
  {
  }

  /** Whatever the ledger and the candidate: it goes to one list, or the selection ends, or its group fails. */
  lemma SelectOnePlaces(env: Env, w: Work, tx: PoolL2Tx)
    requires GoesOn(w)
    ensures Placed(env, w, SelectOne(env, w, tx), tx)
  {
    hide Process, EnoughBalance, CoordAccountForTokenID, CanAddL2TxThatNeedsNewCoordL1Tx, Bounded;
    SameBounds(env, w, w.(later := SelectOne(env, w, tx).later,
                         never := SelectOne(env, w, tx).never, stop := SelectOne(env, w, tx).stop));
    if w.stop.Going? && CanAddL2Tx(NL1(env, w), |w.selected|, env.cfg) {
      if GetAccount(w.p.st, tx.fromIdx).Ok? {
        var t := tx.(tokenID := w.p.st.accounts[tx.fromIdx].tokenID);
        PostponePlaces(env, w, w, tx, t);
        var c := CoordAccountForTokenID(env.coord, w.p.st, t.tokenID, NL1(env, w));
        if !(c.Ok? && c.value.Some? && !CanAddL2TxThatNeedsNewCoordL1Tx(NL1(env, w), |w.selected|, env.cfg)) {
          ProcessPlaces(env, w, tx, t);
        }
      }
    }
  }
}
