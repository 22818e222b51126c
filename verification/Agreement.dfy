/**
 The batch builder executes a selection in another order than the selector did, all account
 creations before all pool txs, and ends with the same ledger.
 */
module Agreement {
  import opened Wrappers
  import opened Common
  import opened Ledger
  import opened Effects
  import opened Batch
  import opened Funds
  import opened Conservation
  import opened Replay
  import opened Selection
  import opened Selected
  import opened Executed
  import Fees
  import Float40

  /** The builder can publish an L1 tx. */
  predicate RepresentableL1(tx: L1Tx) {
    tx.fromIdx <= MAX_IDX && tx.toIdx <= MAX_IDX && Float40.Encodable(tx.depositAmount) && Float40.Encodable(tx.amount)
  }

  lemma EffectiveIsRepresentable(st: State, tx: L1Tx)
    requires RepresentableL1(tx)
    ensures EncodableL1(tx) && PublishableL1(WithEffective(st, tx))
    ensures Effective(st, tx).0 <= tx.depositAmount && Effective(st, tx).1 <= tx.amount
  {
    assert Float40.Encodable(0);
    hide Float40.Encodable;
  }

  // ---- The L1 txs ----

  lemma DepositAtMost(st: State, tx: L1Tx, deposit: nat, amount: nat, transfer: bool)
    requires Deposit(st, tx, deposit, amount, transfer).err == None
    ensures Total(Deposit(st, tx, deposit, amount, transfer).st.accounts, None) <= Total(st.accounts, None) + deposit
  {
    hide Credit;
    var acc := st.accounts[tx.fromIdx];
    var after := acc.(balance := acc.balance + deposit - amount);
    TotalUpdate(st.accounts, None, tx.fromIdx, after);
    if transfer {
      CreditTotal(UpdateAccount(st, tx.fromIdx, after).st, tx.toIdx, amount, None);
    }
  }

  lemma CreateAtMost(st: State, tx: L1Tx, deposit: nat, amount: nat)
    requires Valid(st) && CreateDepositTransfer(st, tx, deposit, amount).err == None
    ensures Total(CreateDepositTransfer(st, tx, deposit, amount).st.accounts, None) <= Total(st.accounts, None) + deposit
  {
    hide Valid, CreateDeposit, CreateDepositTransfer, Credit;
    CreateDepositTransferIs(st, tx, deposit, amount);
    CreateDepositTotal(st, tx, deposit - amount, None);
    CreditTotal(CreateDeposit(st, tx, deposit - amount).st, tx.toIdx, amount, None);
  }

  lemma L1CreateAtMost(st: State, tx: L1Tx, deposit: nat, amount: nat)
    requires Valid(st) && L1Create(st, tx, deposit, amount).err == None
    ensures Total(L1Create(st, tx, deposit, amount).st.accounts, None) <= Total(st.accounts, None) + deposit
  {
    hide Valid, Deposit, CreateDeposit, CreateDepositTransfer;
    match tx.txType
    case TxTypeCreateAccountDeposit => CreateDepositTotal(st, tx, deposit, None);
    case TxTypeDeposit => DepositAtMost(st, tx, deposit, amount, false);
    case TxTypeDepositTransfer => DepositAtMost(st, tx, deposit, amount, true);
    case TxTypeCreateAccountDepositTransfer => CreateAtMost(st, tx, deposit, amount);
    case _ =>
  }

  /** The debit of an L1 tx does not depend on who executes it. */
  lemma L1DebitAgrees(p: Proc, q: Proc, tx: Tx)
    requires p.st == q.st && tx.isL1
    ensures Debit(BatchBuilder, map[], p, tx).err == Debit(TxSelector, map[], q, tx).err
    ensures Debit(BatchBuilder, map[], p, tx).p.st == Debit(TxSelector, map[], q, tx).p.st
  {
    hide Charge, UpdateAccount;
  }

  /** An exit leaf holds no more than everything that is held. */
  lemma ExitLeafFits(p: Proc, q: Proc, i: Idx, acc: Account, amount: nat)
    requires ValidProc(p) && Valid(q.st) && q.exits == p.exits
    requires Total(q.st.accounts, None) + amount <= Total(p.st.accounts, None)
    requires Held(p, None) < BALANCE_LIMIT
    ensures Fits(ExitLeaf(p.exits, i, acc, amount))
  {
    hide Valid;
    var leaf := ExitLeaf(p.exits, i, acc, amount);
    var exits := p.exits[i := leaf];
    TotalUpdate(p.exits, None, i, leaf);
    ValidHasNoDebts(q.st);
    TotalNotNegative(q.st.accounts, None);
    assert NoDebts(exits);
    BalanceAtMostTotal(exits, i);
  }

  lemma L1ExitAgrees(p: Proc, q: Proc, tx: Tx, requested: nat)
    requires p.st == q.st && tx.isL1 && ValidProc(p) && Held(p, None) < BALANCE_LIMIT
    requires Exit(TxSelector, map[], q, tx, requested).err == None
    ensures Exit(BatchBuilder, map[], p, tx, requested).err == None
    ensures Exit(BatchBuilder, map[], p, tx, requested).p.st == Exit(TxSelector, map[], q, tx, requested).p.st
  {
    hide Debit, Valid, Fits, SameOwners;
    L1DebitAgrees(p, q, tx);
    var d := Debit(BatchBuilder, map[], p, tx);
    DebitTotal(BatchBuilder, map[], p, tx, None);
    DebitKeepsValid(BatchBuilder, map[], p, tx);
    DebitExists(BatchBuilder, map[], p, tx);
    ExitLeafFits(p, d.p, tx.fromIdx, d.p.st.accounts[tx.fromIdx], tx.amount);
  }

  lemma DebitExists(mode: Mode, coords: map<TokenID, Idx>, p: Proc, tx: Tx)
    requires Debit(mode, coords, p, tx).err == None
    ensures GetAccount(Debit(mode, coords, p, tx).p.st, tx.fromIdx).Ok?
  {
    hide Charge;
  }

  lemma L1StepAgrees(p: Proc, q: Proc, tx: L1Tx)
    requires p.st == q.st && ValidProc(p) && Held(p, None) + tx.depositAmount < BALANCE_LIMIT
    requires RepresentableL1(tx) && L1Step(TxSelector, q, tx).err == None
    ensures L1Step(BatchBuilder, p, tx).err == None
    ensures L1Step(BatchBuilder, p, tx).p.st == L1Step(TxSelector, q, tx).p.st
  {
    hide Effective, Transfer, Exit, L1Create, RepresentableL1, EncodableL1, PublishableL1;
    EffectiveIsRepresentable(p.st, tx);
    var t := WithEffective(p.st, tx);
    match tx.txType
    case TxTypeForceTransfer => TransferAgrees(p, q, L1View(t));
    case TxTypeForceExit => L1ExitAgrees(p, q, L1View(t), tx.amount);
    case _ =>
  }

  lemma TransferAgrees(p: Proc, q: Proc, tx: Tx)
    requires p.st == q.st && tx.isL1
    ensures Transfer(BatchBuilder, map[], p, tx, 0).err == Transfer(TxSelector, map[], q, tx, 0).err
    ensures Transfer(BatchBuilder, map[], p, tx, 0).p.st == Transfer(TxSelector, map[], q, tx, 0).p.st
  {
    hide Debit, Credit;
    L1DebitAgrees(p, q, tx);
  }

  lemma L1HeldAtMost(p: Proc, tx: L1Tx)
    requires ValidProc(p) && RepresentableL1(tx) && L1Step(BatchBuilder, p, tx).err == None
    ensures Held(L1Step(BatchBuilder, p, tx).p, None) <= Held(p, None) + tx.depositAmount
  {
    hide Effective, Transfer, Exit, L1Create, RepresentableL1, EncodableL1, PublishableL1, Valid;
    EffectiveIsRepresentable(p.st, tx);
    var t := WithEffective(p.st, tx);
    match tx.txType
    case TxTypeForceTransfer => TransferHeld(BatchBuilder, map[], p, L1View(t), 0, None);
    case TxTypeForceExit => ExitHeld(BatchBuilder, map[], p, L1View(t), tx.amount, None);
    case _ => L1CreateAtMost(p.st, t, t.effectiveDepositAmount.value, t.effectiveAmount.value);
  }

  function DepositSum(txs: seq<L1Tx>): nat {
    if txs == [] then 0 else DepositSum(txs[..|txs| - 1]) + txs[|txs| - 1].depositAmount
  }

  lemma {:induction false} DepositSumGrows(txs: seq<L1Tx>, k: nat)
    requires k <= |txs|
    ensures DepositSum(txs[..k]) <= DepositSum(txs)
  {
    if k < |txs| {
      DepositSumGrows(txs[..|txs| - 1], k);
      assert txs[..|txs| - 1][..k] == txs[..k];
    } else {
      assert txs[..k] == txs;
    }
  }

  /** What the L1 user txs leave: the same ledger for both, and no more than was there and came in. */
  lemma {:induction false} L1RunAgrees(cfg: Config, st: State, txs: seq<L1Tx>)
    requires Valid(st) && Total(st.accounts, None) + DepositSum(txs) < BALANCE_LIMIT
    requires |txs| < cfg.maxTx && forall tx :: tx in txs ==> RepresentableL1(tx)
    requires RunL1(TxSelector, cfg, Start(st), txs).err == None
    ensures var s := RunL1(BatchBuilder, cfg, Start(st), txs);
            && s.err == None && s.p.st == RunL1(TxSelector, cfg, Start(st), txs).p.st
            && ValidProc(s.p) && Held(s.p, None) <= Total(st.accounts, None) + DepositSum(txs)
  {
    hide L1Step, Valid, ValidProc, RepresentableL1, EncodableL1, PublishableL1;
    if txs == [] {
      StartIsValid(st);
    } else {
      var n := |txs| - 1;
      L1RunAgrees(cfg, st, txs[..n]);
      var p := RunL1(BatchBuilder, cfg, Start(st), txs[..n]).p;
      assert txs[n] in txs;
      EffectiveIsRepresentable(p.st, txs[n]);
      L1StepAgrees(p, RunL1(TxSelector, cfg, Start(st), txs[..n]).p, txs[n]);
      L1StepKeepsValid(BatchBuilder, p, txs[n]);
      L1HeldAtMost(p, txs[n]);
    }
  }

  /** Then the builder creates all accounts at once. */
  lemma {:induction false} CreationsAgree(cfg: Config, p0: Proc, user: seq<L1Tx>, txs: seq<L1Tx>)
    requires RunL1(BatchBuilder, cfg, p0, user).err == None
    requires |user| + |txs| < cfg.maxTx || txs == []
    requires forall k :: 0 <= k < |txs| ==>
               txs[k] == CreationTx(txs[k].position, txs[k].fromEthAddr, txs[k].fromBJJ, txs[k].tokenID)
    requires Creations(RunL1(BatchBuilder, cfg, p0, user).p.st, txs).err == None
    ensures var s := RunL1(BatchBuilder, cfg, p0, user + txs);
            var p1 := RunL1(BatchBuilder, cfg, p0, user).p;
            s.err == None && s.p == p1.(st := Creations(p1.st, txs).st)
  {
    hide CreateDeposit, L1Step, PublishableL1, EncodableL1;
    if txs == [] {
      assert user + txs == user;
    } else {
      var n := |txs| - 1;
      var c := txs[n];
      CreationsAgree(cfg, p0, user, txs[..n]);
      assert (user + txs)[..|user| + n] == user + txs[..n];
      var p := RunL1(BatchBuilder, cfg, p0, user + txs[..n]).p;
      BuilderCreates(p, c);
    }
  }

  lemma BuilderCreates(p: Proc, c: L1Tx)
    requires c == CreationTx(c.position, c.fromEthAddr, c.fromBJJ, c.tokenID)
    ensures L1Step(BatchBuilder, p, c) == Step(p.(st := CreateDeposit(p.st, c, 0).st), CreateDeposit(p.st, c, 0).err, None)
    ensures PublishableL1(WithEffective(p.st, c))
  {
    hide CreateAccount;
    assert Float40.Encodable(0);
    hide Float40.Encodable;
    assert Effective(p.st, c) == (0, 0);
  }

  // ---- The pool txs ----

  /** The builder can follow the effect of a settled tx. */
  lemma StepFollows(coords: map<TokenID, Idx>, p: Proc, tx: PoolL2Tx)
    requires ValidProc(p) && Held(p, None) < BALANCE_LIMIT && Settled(tx) && L2Effect(p.st, tx).err == None
    requires forall t :: t in coords ==> GetAccount(p.st, coords[t]).Ok?
    ensures L2Step(BatchBuilder, coords, p, tx).err == None
    ensures L2Step(BatchBuilder, coords, p, tx).p.st == L2Effect(p.st, tx).st
    ensures Held(L2Step(BatchBuilder, coords, p, tx).p, None) <= Held(p, None)
  {
    hide Valid, BuilderCheck, Debit, Credit, Fits, Fee, Pay, ExitLeaf, SameOwners;
    var v := L2View(tx);
    DebitFollows(coords, p, v, ReceiverOf(tx));
    var d := Debit(BatchBuilder, coords, p, v);
    if IsL2Transfer(tx.txType) {
      TransferHeld(BatchBuilder, coords, p, v, tx.auxToIdx, None);
    } else {
      DebitTotal(BatchBuilder, coords, p, v, None);
      DebitKeepsValid(BatchBuilder, coords, p, v);
      DebitExists(BatchBuilder, coords, p, v);
      ExitLeafFits(p, d.p, tx.fromIdx, d.p.st.accounts[tx.fromIdx], tx.amount);
      ExitHeld(BatchBuilder, coords, p, v, tx.amount, None);
    }
  }

  lemma DebitFollows(coords: map<TokenID, Idx>, p: Proc, tx: Tx, to: Option<Idx>)
    requires Pay(p.st, tx, to).err == None && !tx.isL1
    requires forall t :: t in coords ==> GetAccount(p.st, coords[t]).Ok?
    ensures Debit(BatchBuilder, coords, p, tx).err == None
    ensures Pay(p.st, tx, to) == if to.None? then Outcome(Debit(BatchBuilder, coords, p, tx).p.st, None)
                                 else Credit(Debit(BatchBuilder, coords, p, tx).p.st, to.value, tx.amount)
  {
    hide Charge, UpdateAccount, Credit, Accrue;
    var acc := p.st.accounts[tx.fromIdx];
    AccrueKeepsLedger(BatchBuilder, coords, p, acc.tokenID, Charge(acc, tx).value.1);
  }

  lemma {:induction false} RunFollows(coords: map<TokenID, Idx>, p: Proc, txs: seq<PoolL2Tx>)
    requires ValidProc(p) && Held(p, None) < BALANCE_LIMIT && L2Effects(p.st, txs).err == None
    requires forall tx :: tx in txs ==> Settled(tx)
    requires forall t :: t in coords ==> GetAccount(p.st, coords[t]).Ok?
    ensures var s := RunL2(BatchBuilder, coords, p, txs);
            s.err == None && s.p.st == L2Effects(p.st, txs).st && Held(s.p, None) <= Held(p, None)
  {
    hide L2Step, L2Effect, ValidProc, Held, Settled;
    if txs != [] {
      var n := |txs| - 1;
      RunFollows(coords, p, txs[..n]);
      RunL2KeepsValid(BatchBuilder, coords, p, txs[..n]);
      var q := RunL2(BatchBuilder, coords, p, txs[..n]).p;
      forall t | t in coords ensures GetAccount(q.st, coords[t]).Ok? {
        SameOwnersSameAccounts(p.st, q.st, coords[t]);
      }
      assert txs[n] in txs;
      StepFollows(coords, q, txs[n]);
    }
  }

  lemma SameOwnersSameAccounts(s: State, t: State, i: Idx)
    requires SameOwners(s, t)
    ensures GetAccount(s, i).Ok? == GetAccount(t, i).Ok? && TokenOf(s, i) == TokenOf(t, i)
  {
  }

  // ---- The coordinator accounts and their fees ----

  /** The coordinator accounts of the tokens that fees are paid in, in increasing order. */
  ghost predicate CoordsOf(coord: CoordAccount, w: Work, idxs: seq<Idx>) {
    && (forall j, k :: 0 <= j < k < |idxs| ==> idxs[j] < idxs[k])
    && (forall i :: i in idxs ==>
               exists tx :: tx in w.selected && CoordIdx(coord, w.p.st, TokenOf(w.p.st, tx.fromIdx)) == Ok(i))
    && (forall tx :: tx in w.selected ==>
          var c := CoordIdx(coord, w.p.st, TokenOf(w.p.st, tx.fromIdx)); c.Ok? ==> c.value in idxs)
  }

  /** The ledger with every account paid what it is owed. */
  function PayFees(st: State, fees: map<Idx, nat>): State {
    st.(accounts := map i | i in st.accounts :: st.accounts[i].(balance := st.accounts[i].balance + At(fees, i)))
  }

  lemma NotListed(st: State, idxs: seq<Idx>, t: TokenID)
    requires CoordMap(st, idxs).Ok? && forall i :: i in idxs ==> TokenOf(st, i) != t
    ensures t !in CoordMap(st, idxs).value
  {
    CoordMapTokens(st, idxs);
  }

  lemma {:induction false} AlreadyOnePerToken(st: State, idxs: seq<Idx>)
    requires OnePerToken(st, idxs) && forall i :: i in idxs ==> GetAccount(st, i).Ok?
    ensures FirstPerToken(st, idxs) == Ok(idxs) && CoordMap(st, idxs).Ok?
  {
    hide CoordMap, GetAccount;
    if idxs == [] {
      NoCoords(st);
    } else {
      var n := |idxs| - 1;
      assert idxs == idxs[..n] + [idxs[n]];
      AlreadyOnePerToken(st, idxs[..n]);
      CoordMapSnoc(st, idxs[..n], idxs[n]);
      forall i | i in idxs[..n] ensures TokenOf(st, i) != TokenOf(st, idxs[n]) {
        var j :| 0 <= j < n && idxs[j] == i;
      }
      NotListed(st, idxs[..n], TokenOf(st, idxs[n]));
      Exists(st, idxs[n]);
      TokenOfFound(st, idxs[n]);
    }
  }

  lemma NoCoords(st: State)
    ensures CoordMap(st, []) == Ok(map[])
  {
  }

  lemma Exists(st: State, i: Idx)
    requires GetAccount(st, i).Ok?
    ensures i in st.accounts && GetAccount(st, i).value == st.accounts[i]
  {
  }

  lemma CoordsExist(coord: CoordAccount, w: Work, idxs: seq<Idx>, x: State)
    requires Valid(w.p.st) && CoordsOf(coord, w, idxs) && SameOwners(x, w.p.st)
    ensures forall i :: i in idxs ==> GetAccount(x, i).Ok? && CoordIdx(coord, w.p.st, TokenOf(w.p.st, i)) == Ok(i)
    ensures OnePerToken(x, idxs) && OnePerToken(w.p.st, idxs)
  {
    hide Valid, GetIdxByEthAddrBJJ, SameOwners;
    forall i | i in idxs
      ensures GetAccount(x, i).Ok? && CoordIdx(coord, w.p.st, TokenOf(w.p.st, i)) == Ok(i)
              && TokenOf(x, i) == TokenOf(w.p.st, i)
    {
      var tx :| tx in w.selected && CoordIdx(coord, w.p.st, TokenOf(w.p.st, tx.fromIdx)) == Ok(i);
      LookupFinds(w.p.st, coord.addr, coord.bjj, TokenOf(w.p.st, tx.fromIdx));
      SameOwnersSameAccounts(x, w.p.st, i);
    }
    forall j, k | 0 <= j < k < |idxs|
      ensures TokenOf(x, idxs[j]) != TokenOf(x, idxs[k]) && TokenOf(w.p.st, idxs[j]) != TokenOf(w.p.st, idxs[k])
    {
      assert idxs[j] in idxs && idxs[k] in idxs;
    }
  }

  /** No fees are paid in a token that no selected tx is in. */
  lemma {:induction false} NoFeesPaid(st: State, txs: seq<PoolL2Tx>, t: TokenID)
    requires forall tx :: tx in txs ==> TokenOf(st, tx.fromIdx) != t
    ensures FeesPaid(st, txs, Some(t)) == 0
  {
    hide FeeOf, TokenOf;
    if txs != [] {
      NoFeesPaid(st, txs[..|txs| - 1], t);
      assert txs[|txs| - 1] in txs;
    }
  }

  /** The selector owes nothing but what the builder owes, too. */
  lemma SameFees(coord: CoordAccount, w: Work, idxs: seq<Idx>, i: Idx)
    requires Valid(w.p.st) && CoordsOf(coord, w, idxs) && FeesKept(coord, w)
    ensures At(w.p.fees, i) == if i in idxs then FeesPaid(w.p.st, w.selected, Some(TokenOf(w.p.st, i))) else 0
  {
    hide Valid, GetIdxByEthAddrBJJ, TokenOf, FeesPaid;
    if i in idxs {
      var tx :| tx in w.selected && CoordIdx(coord, w.p.st, TokenOf(w.p.st, tx.fromIdx)) == Ok(i);
      assert i in w.p.fees;
    } else if i in w.p.fees {
      NoFeesPaid(w.p.st, w.selected, TokenOf(w.p.st, i));
    }
  }

  /** The builder's distribution succeeds where every account can hold what it is paid. */
  lemma {:induction false} DistributePasses(st: State, idxs: seq<Idx>, fees: map<Idx, nat>)
    requires OnePerToken(st, idxs)
    requires forall i :: i in idxs ==>
               GetAccount(st, i).Ok? && Fits(st.accounts[i].(balance := st.accounts[i].balance + At(fees, i)))
    ensures Distribute(st, idxs, fees).err == None
  {
    hide Fits;
    if idxs != [] {
      var n := |idxs| - 1;
      DistributePasses(st, idxs[..n], fees);
      DistributePays(st, idxs[..n], fees);
      assert idxs[n] in idxs;
      forall i | i in idxs[..n] ensures i != idxs[n] {
        var j :| 0 <= j < n && idxs[j] == i;
        assert TokenOf(st, idxs[j]) != TokenOf(st, idxs[n]);
      }
    }
  }

  // ---- The whole batch ----

  /** What the L1 user txs must satisfy for the builder to execute them. */
  ghost predicate Buildable(cfg: Config, st: State, l1User: seq<L1Tx>) {
    && Valid(st) && Total(st.accounts, None) + DepositSum(l1User) < BALANCE_LIMIT
    && |l1User| <= cfg.maxL1Tx && |l1User| < cfg.maxTx
    && (forall tx :: tx in l1User ==> RepresentableL1(tx))
  }

  /** The ledger after the L1 user txs, as the selector sees it. */
  function AfterUser(cfg: Config, st: State, l1User: seq<L1Tx>): Step {
    RunL1(TxSelector, cfg, Start(st), l1User)
  }

  /** The L1 part of the builder's run, and the coordinator accounts that it finds. */
  lemma BuilderStarts(env: Env, st: State, l1User: seq<L1Tx>, w: Work, coordIdxs: seq<Idx>, run: Run)
    requires Buildable(env.cfg, st, l1User) && env.nUser == |l1User| && AfterUser(env.cfg, st, l1User).err == None
    requires Sound(env, AfterUser(env.cfg, st, l1User).p.st, w) && Bounded(env, w) && CoordsOf(env.coord, w, coordIdxs)
    requires run == RunOf(BatchBuilder, env.cfg, st, coordIdxs, l1User, w.l1, w.selected)
    ensures var x := WithCreations(AfterUser(env.cfg, st, l1User).p.st, w);
            && run.AfterL1().err == None && run.AfterL1().p.st == x && ValidProc(run.AfterL1().p)
            && Held(run.AfterL1().p, None) < BALANCE_LIMIT
            && SameOwners(x, w.p.st)
            && FirstPerToken(x, coordIdxs) == Ok(coordIdxs) && run.Idxs() == coordIdxs
            && CoordMap(x, coordIdxs) == Ok(run.Coords())
  {
    hide Valid, ValidProc, Sound, RunL1, FirstPerToken, CoordMap, InPlace, CreateDeposit, SameOwners, RepresentableL1;
    var st1 := AfterUser(env.cfg, st, l1User).p.st;
    var x := WithCreations(st1, w);
    SoundParts(env, st1, w);
    L1RunAgrees(env.cfg, st, l1User);
    var p1 := RunL1(BatchBuilder, env.cfg, Start(st), l1User).p;
    InPlaceForm(env, w);
    CreationsAgree(env.cfg, Start(st), l1User, w.l1);
    RunL1KeepsValid(BatchBuilder, env.cfg, Start(st), l1User + w.l1) by {
      StartIsValid(st);
    }
    CreationsHeld(p1, w.l1);
    EffectsKeepOwners(x, w.selected);
    CoordsExist(env.coord, w, coordIdxs, x);
    AlreadyOnePerToken(x, coordIdxs);
  }

  lemma SoundParts(env: Env, st1: State, w: Work)
    requires Sound(env, st1, w)
    ensures Valid(w.p.st) && FeesKept(env.coord, w)
    ensures Creations(st1, w.l1).err == None && L2Effects(WithCreations(st1, w), w.selected) == Outcome(w.p.st, None)
    ensures forall tx :: tx in w.selected ==> Settled(tx)
  {
    hide Valid, FeesKept, Creations, L2Effects, Settled;
  }

  lemma InPlaceForm(env: Env, w: Work)
    requires InPlace(env, w)
    ensures forall k :: 0 <= k < |w.l1| ==>
              w.l1[k] == CreationTx(w.l1[k].position, w.l1[k].fromEthAddr, w.l1[k].fromBJJ, w.l1[k].tokenID)
  {
  }

  /** Empty accounts hold nothing. */
  lemma {:induction false} CreationsHeld(p: Proc, txs: seq<L1Tx>)
    requires ValidProc(p) && Creations(p.st, txs).err == None
    ensures Valid(Creations(p.st, txs).st)
    ensures Held(p.(st := Creations(p.st, txs).st), None) == Held(p, None)
  {
    hide Valid, CreateDeposit;
    if txs != [] {
      var n := |txs| - 1;
      CreationsHeld(p, txs[..n]);
      CreateDepositTotal(Creations(p.st, txs[..n]).st, txs[n], 0, None);
      CreateDepositKeepsValid(Creations(p.st, txs[..n]).st, txs[n], 0);
    }
  }

  /** After the pool txs the builder has the selector's ledger and owes the same fees. */
  lemma BuilderContinues(env: Env, st: State, l1User: seq<L1Tx>, w: Work, coordIdxs: seq<Idx>, run: Run)
    requires Buildable(env.cfg, st, l1User) && env.nUser == |l1User| && AfterUser(env.cfg, st, l1User).err == None
    requires Sound(env, AfterUser(env.cfg, st, l1User).p.st, w) && Bounded(env, w) && CoordsOf(env.coord, w, coordIdxs)
    requires run == RunOf(BatchBuilder, env.cfg, st, coordIdxs, l1User, w.l1, w.selected)
    ensures var s := run.AfterL2(|w.selected|);
            && s.err == None && s.p.st == w.p.st
            && forall i :: At(w.p.fees, i) == if i in coordIdxs then At(s.p.fees, i) else 0
  {
    hide Valid, ValidProc, Sound, RunL1, RunL2, FirstPerToken, CoordMap, CreateDeposit, SameOwners, Bounded;
    hide Held, Buildable;
    hide FeesPaid, FeesKept, CoordsOf, FeesTracked, StartL2, OnePerToken;
    var st1 := AfterUser(env.cfg, st, l1User).p.st;
    var x := WithCreations(st1, w);
    var p1 := run.AfterL1().p;
    var coords := run.Coords();
    BuilderStarts(env, st, l1User, w, coordIdxs, run);
    SoundParts(env, st1, w);
    Coordinators(run);
    BeforeL2(run);
    StartL2KeepsLedger(BatchBuilder, p1, coordIdxs, coords);
    var p2 := run.AfterL2(0).p;
    LedgerOnly(p1, p2);
    SameHeld(p1, p2);
    assert w.selected[..|w.selected|] == w.selected;
    RunFollows(coords, p2, w.selected);
    CoordsExist(env.coord, w, coordIdxs, x);
    CoordMapFinds(x, coordIdxs);
    NothingTracked(BatchBuilder, x, p1, coordIdxs, coords);
    ExistAll(x, coords);
    RunL2Tracks(BatchBuilder, coords, p2, w.selected);
    var s := run.AfterL2(|w.selected|);
    forall i ensures At(w.p.fees, i) == if i in coordIdxs then At(s.p.fees, i) else 0 {
      SameFees(env.coord, w, coordIdxs, i);
      SameOwnersSameAccounts(x, w.p.st, i);
      FeesPaidSameOwners(x, w.p.st, w.selected, Some(TokenOf(x, i)));
      if i in coordIdxs {
        TrackedFee(x, coords, s.p, w.selected, TokenOf(x, i));
      }
    }
  }

  lemma SameHeld(p: Proc, q: Proc)
    requires p.st == q.st && p.exits == q.exits
    ensures Held(p, None) == Held(q, None)
  {
  }

  lemma ExistAll(x: State, coords: map<TokenID, Idx>)
    requires forall t :: t in coords ==> GetAccount(x, coords[t]).Ok? && TokenOf(x, coords[t]) == t
    ensures CoordTokens(x, coords)
  {
  }

  lemma TrackedFee(st: State, coords: map<TokenID, Idx>, p: Proc, txs: seq<PoolL2Tx>, t: TokenID)
    requires FeesTracked(st, coords, p, txs) && t in coords
    ensures At(p.fees, coords[t]) == FeesPaid(st, txs, Some(t))
  {
  }

  lemma Pays(st: State, idxs: seq<Idx>, fees: map<Idx, nat>, owed: map<Idx, nat>)
    requires OnePerToken(st, idxs) && Distribute(st, idxs, fees).err == None
    requires forall i :: At(owed, i) == if i in idxs then At(fees, i) else 0
    ensures Distribute(st, idxs, fees).st == PayFees(st, owed)
  {
    DistributePays(st, idxs, fees);
    var t := Distribute(st, idxs, fees).st;
    assert t.accounts == PayFees(st, owed).accounts;
  }

  /**
   Agreement. ProcessTxs of the batch builder on a selection succeeds and ends in the ledger that
   the selector ended in, accounts, nonces, last index and lookup tables alike.
   */
  lemma BuilderAgrees(env: Env, st: State, l1User: seq<L1Tx>, w: Work, coordIdxs: seq<Idx>)
    requires Buildable(env.cfg, st, l1User) && env.nUser == |l1User| && AfterUser(env.cfg, st, l1User).err == None
    requires Sound(env, AfterUser(env.cfg, st, l1User).p.st, w) && Bounded(env, w)
    requires CoordsOf(env.coord, w, coordIdxs) && |coordIdxs| <= env.cfg.maxFeeTx
    requires forall i :: i in w.p.st.accounts ==> Fits(PayFees(w.p.st, w.p.fees).accounts[i])
    ensures var s := ProcessTxs(BatchBuilder, env.cfg, st, coordIdxs, l1User, w.l1, w.selected);
            s.err == None && s.p.st == PayFees(w.p.st, w.p.fees)
  {
    hide Valid, Sound, AfterUser, Buildable, CoordsOf, ProcessTxs, Fits, InPlace, PayFees, WithCreations;
    hide FirstPerToken, CoordMap;
    hide Run.AfterL1, Run.AfterL2, Run.Idxs, Run.Coords, SameOwners, Held, ValidProc, Distribute;
    var run := RunOf(BatchBuilder, env.cfg, st, coordIdxs, l1User, w.l1, w.selected);
    FitsInBatch(env, st, l1User, w);
    ProcessTxsIsRun(BatchBuilder, env.cfg, st, coordIdxs, l1User, w.l1, w.selected);
    BuilderStarts(env, st, l1User, w, coordIdxs, run);
    BuilderContinues(env, st, l1User, w, coordIdxs, run);
    SoundParts(env, AfterUser(env.cfg, st, l1User).p.st, w);
    BuilderPays(env, w, coordIdxs, run.AfterL2(|w.selected|).p.fees);
  }

  lemma FitsInBatch(env: Env, st: State, l1User: seq<L1Tx>, w: Work)
    requires Buildable(env.cfg, st, l1User) && env.nUser == |l1User| && Bounded(env, w)
    ensures !TooMany(env.cfg, 0, |l1User| + |w.l1|, |w.selected|)
  {
    hide Valid, InPlace;
  }

  lemma BuilderPays(env: Env, w: Work, coordIdxs: seq<Idx>, fees: map<Idx, nat>)
    requires Valid(w.p.st) && CoordsOf(env.coord, w, coordIdxs)
    requires forall i :: i in w.p.st.accounts ==> Fits(PayFees(w.p.st, w.p.fees).accounts[i])
    requires forall i :: At(w.p.fees, i) == if i in coordIdxs then At(fees, i) else 0
    ensures Distribute(w.p.st, coordIdxs, fees) == Outcome(PayFees(w.p.st, w.p.fees), None)
  {
    hide Valid, CoordsOf, Distribute, Fits, SameOwners, OnePerToken;
    UpdateKeepsNothing(w.p.st);
    CoordsExist(env.coord, w, coordIdxs, w.p.st);
    DistributePasses(w.p.st, coordIdxs, fees);
    Pays(w.p.st, coordIdxs, fees, w.p.fees);
  }
}
