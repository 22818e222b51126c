/** A candidate that passed the selector's checks is executed, and the selection stays sound. */
module Executed {
  import opened Wrappers
  import opened Common
  import opened Ledger
  import opened Effects
  import opened Funds
  import opened Conservation
  import opened Replay
  import opened Selection
  import opened Selected
  import Fees

  // ---- Balances and totals ----

  ghost predicate NoDebts(m: map<Idx, Account>) {
    forall i :: i in m ==> 0 <= m[i].balance
  }

  lemma {:induction false} TotalNotNegative(m: map<Idx, Account>, s: Scope)
    requires NoDebts(m)
    ensures 0 <= Total(m, s)
    decreases |m|
  {
    if m != map[] {
      var i :| i in m;
      TotalRemove(m, s, i);
      TotalNotNegative(m - {i}, s);
    }
  }

  lemma BalanceAtMostTotal(m: map<Idx, Account>, i: Idx)
    requires NoDebts(m) && i in m
    ensures m[i].balance <= Total(m, None)
  {
    TotalRemove(m, None, i);
    TotalNotNegative(m - {i}, None);
  }

  lemma ValidHasNoDebts(st: State)
    requires Valid(st)
    ensures NoDebts(st.accounts)
  {
  }

  /** A pool tx leaves its fee out of the total, and an exit its amount, too. */
  lemma PayTotal(st: State, tx: Tx, to: Option<Idx>)
    requires !tx.isL1 && Pay(st, tx, to).err == None
    ensures Total(Pay(st, tx, to).st.accounts, None) + Fee(tx) <= Total(st.accounts, None)
  {
    hide Credit, Fees.CalcFeeAmount;
    var acc := st.accounts[tx.fromIdx];
    var charged := Charge(acc, tx).value.0;
    TotalUpdate(st.accounts, None, tx.fromIdx, charged);
    if to.Some? {
      CreditTotal(UpdateAccount(st, tx.fromIdx, charged).st, to.value, tx.amount, None);
    }
  }

  lemma EffectTotal(st: State, tx: PoolL2Tx)
    requires L2Effect(st, tx).err == None
    ensures Total(L2Effect(st, tx).st.accounts, None) + FeeOf(tx) <= Total(st.accounts, None)
  {
    hide Pay, Fee;
    if IsL2Transfer(tx.txType) || tx.txType == TxTypeExit {
      PayTotal(st, L2View(tx), ReceiverOf(tx));
    }
  }

  // ---- Nonces ----

  lemma CreditKeepsNonces(st: State, idx: Idx, amount: nat)
    ensures forall i :: NonceOf(Credit(st, idx, amount).st, i) == NonceOf(st, i)
  {
  }

  lemma ChargeNonce(acc: Account, tx: Tx)
    requires !tx.isL1 && Charge(acc, tx).Ok?
    ensures Charge(acc, tx).value.0.nonce == acc.nonce + 1
  {
  }

  lemma EffectNonces(st: State, tx: PoolL2Tx)
    requires L2Effect(st, tx).err == None && (IsL2Transfer(tx.txType) || tx.txType == TxTypeExit)
    ensures forall i :: NonceOf(L2Effect(st, tx).st, i) == NonceOf(st, i) + (if i == tx.fromIdx then 1 else 0)
  {
    hide Credit, Charge;
    var acc := st.accounts[tx.fromIdx];
    ChargeNonce(acc, L2View(tx));
    var paid := UpdateAccount(st, tx.fromIdx, Charge(acc, L2View(tx)).value.0).st;
    if IsL2Transfer(tx.txType) {
      CreditKeepsNonces(paid, ReceiverOf(tx).value, tx.amount);
    }
  }

  // ---- Fees ----

  lemma StepFees(mode: Mode, coords: map<TokenID, Idx>, p: Proc, tx: PoolL2Tx)
    requires L2Step(mode, coords, p, tx).err == None && (IsL2Transfer(tx.txType) || tx.txType == TxTypeExit)
    ensures var q := L2Step(mode, coords, p, tx).p;
            var a := Accrue(mode, coords, p, TokenOf(p.st, tx.fromIdx), FeeOf(tx));
            q.fees == a.fees && q.collected == a.collected && (mode == TxSelector ==> q.exits == p.exits)
  {
    hide Debit, Credit, BuilderCheck, GetIdxByEthAddrBJJ, Fee, ExitLeaf, Accrue, SameOwners, TokenOf;
    var t := Resolve(mode, p.st, tx).value;
    DebitTotal(mode, coords, p, L2View(t), None);
    assert L2View(t) == L2View(tx);
  }

  // ---- The step itself ----

  /** What the selector has checked when it executes a tx. */
  ghost predicate Ready(w: Work, tx: PoolL2Tx) {
    && w.stop == Going
    && GetAccount(w.p.st, tx.fromIdx).Ok? && EnoughBalance(w.p.st, tx)
    && tx.tokenID == w.p.st.accounts[tx.fromIdx].tokenID && tx.nonce == w.p.st.accounts[tx.fromIdx].nonce
    && (tx.toIdx >= USER_THRESHOLD ==> GetAccount(w.p.st, tx.toIdx).Ok?)
  }

  lemma LookupFinds(st: State, a: EthAddr, k: BJJ, token: TokenID)
    requires Valid(st) && GetIdxByEthAddrBJJ(st, a, k, token).Ok?
    ensures var i := GetIdxByEthAddrBJJ(st, a, k, token).value;
            i in st.accounts && GetAccount(st, i).Ok? && USER_THRESHOLD <= i && st.accounts[i].tokenID == token
  {
  }

  /** The receiver exists and holds the sender's token when it was looked up. */
  lemma ReceiverExists(st: State, tx: PoolL2Tx)
    requires Valid(st) && Poolable(tx) && Resolve(TxSelector, st, tx).Ok? && IsL2Transfer(tx.txType)
    requires tx.toIdx >= USER_THRESHOLD ==> GetAccount(st, tx.toIdx).Ok?
    ensures var t := Resolve(TxSelector, st, tx).value;
            Receiver(L2View(t), t.auxToIdx) in st.accounts && (t.toIdx != 0 || t.auxToIdx != 0)
            && t == tx.(auxToIdx := t.auxToIdx)
  {
    hide Valid, GetIdxByEthAddrBJJ, BuilderCheck;
    if tx.toIdx == 0 {
      LookupFinds(st, tx.toEthAddr, tx.toBJJ, st.accounts[tx.fromIdx].tokenID);
    }
  }

  lemma DebitPasses(coords: map<TokenID, Idx>, p: Proc, tx: Tx)
    requires Valid(p.st) && Total(p.st.accounts, None) < BALANCE_LIMIT && !tx.isL1
    requires GetAccount(p.st, tx.fromIdx).Ok? && p.st.accounts[tx.fromIdx].nonce < MAX_NONCE
    requires Fees.CalcFeeAmount(tx.amount, tx.fee).Ok?
    requires tx.amount + Fees.CalcFeeAmount(tx.amount, tx.fee).value <= p.st.accounts[tx.fromIdx].balance
    requires forall t :: t in coords ==> GetAccount(p.st, coords[t]).Ok?
    ensures Debit(TxSelector, coords, p, tx).err == None
  {
    hide Valid, Fees.CalcFeeAmount, Accrue;
    ValidHasNoDebts(p.st);
    BalanceAtMostTotal(p.st.accounts, tx.fromIdx);
    AccrueKeepsLedger(TxSelector, coords, p, p.st.accounts[tx.fromIdx].tokenID, Fees.CalcFeeAmount(tx.amount, tx.fee).value);
  }

  lemma AccrueKeepsLedger(mode: Mode, coords: map<TokenID, Idx>, p: Proc, token: TokenID, fee: nat)
    ensures Accrue(mode, coords, p, token, fee).st == p.st && Accrue(mode, coords, p, token, fee).exits == p.exits
  {
  }

  lemma CreditPasses(st: State, idx: Idx, amount: nat)
    requires Valid(st) && idx in st.accounts && Total(st.accounts, None) + amount < BALANCE_LIMIT
    ensures Credit(st, idx, amount).err == None
  {
    hide Valid;
    BalancesNotNegative(st, idx);
    ValidHasNoDebts(st);
    BalanceAtMostTotal(st.accounts, idx);
  }

  /** Under the checks a step only fails when the receiver's owner has no account, and then changes nothing. */
  lemma StepPasses(w: Work, tx: PoolL2Tx, coords: map<TokenID, Idx>, p: Proc)
    requires Ready(w, tx) && Poolable(tx) && p.st == w.p.st
    requires Valid(p.st) && Total(p.st.accounts, None) < BALANCE_LIMIT
    requires forall t :: t in coords ==> GetAccount(p.st, coords[t]).Ok?
    ensures var s := L2Step(TxSelector, coords, p, tx);
            if Resolve(TxSelector, p.st, tx).Ok? then s.err == None
            else s.err.Some? && s.p == p && L2Filled(TxSelector, p.st, tx) == tx
  {
    hide Valid, GetIdxByEthAddrBJJ, BuilderCheck, Fees.CalcFeeAmount, Debit, Credit, SameOwners, Fee, TokenOf;
    if Resolve(TxSelector, p.st, tx).Ok? {
      var t := Resolve(TxSelector, p.st, tx).value;
      assert L2View(t) == L2View(tx);
      DebitPasses(coords, p, L2View(tx));
      if IsL2Transfer(tx.txType) {
        ReceiverExists(p.st, tx);
        var d := Debit(TxSelector, coords, p, L2View(tx));
        DebitTotal(TxSelector, coords, p, L2View(tx), None);
        DebitKeepsValid(TxSelector, coords, p, L2View(tx));
        SameOwnersSameKeys(p.st, d.p.st);
        CreditPasses(d.p.st, Receiver(L2View(t), t.auxToIdx), tx.amount);
      }
    }
  }

  lemma SameOwnersSameKeys(s: State, t: State)
    requires SameOwners(s, t)
    ensures s.accounts.Keys == t.accounts.Keys
  {
  }

  // ---- Outside of the bounds ----

  /** A transfer fails with its sender debited exactly when the receiver is missing or cannot hold the amount. */
  lemma FailsHalfwayIff(mode: Mode, coords: map<TokenID, Idx>, p: Proc, tx: Tx, auxToIdx: Idx)
    ensures var d := Debit(mode, coords, p, tx);
            var to := Receiver(tx, auxToIdx);
            (Transfer(mode, coords, p, tx, auxToIdx).err.Some? && d.err.None?)
            <==> d.err.None? && (GetAccount(d.p.st, to).Err?
                                 || !Fits(d.p.st.accounts[to].(balance := d.p.st.accounts[to].balance + tx.amount)))
    ensures Debit(mode, coords, p, tx).err.None? && Transfer(mode, coords, p, tx, auxToIdx).err.Some? ==>
              Transfer(mode, coords, p, tx, auxToIdx).p == Debit(mode, coords, p, tx).p
  {
    hide Debit;
  }

  /** With more than a leaf can hold in one token, the selector's ledger loses what it could not credit. */
  lemma FullReceiverLosesAmount()
    ensures var full := BALANCE_LIMIT - 1;
            var st := State(map[256 := Account(0, 0, 10, EMPTY_BJJ, FF_ADDR),
                                   257 := Account(0, 0, full, EMPTY_BJJ, FF_ADDR)],
                            257, map[], map[]);
            var s := Transfer(TxSelector, map[], Proc(st, map[], map[], map[]), Tx(false, 256, 257, 5, 0), 0);
            Valid(st) && s.err == Some(NumOverflow) && s.p.st.accounts[256].balance == 5
  {
    var full := BALANCE_LIMIT - 1;
    var st := State(map[256 := Account(0, 0, 10, EMPTY_BJJ, FF_ADDR), 257 := Account(0, 0, full, EMPTY_BJJ, FF_ADDR)],
                    257, map[], map[]);
    assert st.accounts[256] == Account(0, 0, 10, EMPTY_BJJ, FF_ADDR)
           && st.accounts[257] == Account(0, 0, full, EMPTY_BJJ, FF_ADDR);
    assert Fees.CalcFeeAmount(5, 0) == Ok(0);
    var d := Debit(TxSelector, map[], Proc(st, map[], map[], map[]), Tx(false, 256, 257, 5, 0));
    assert d.err == None && d.p.st.accounts[257] == st.accounts[257] && d.p.st.accounts[256].balance == 5;
  }

  /** At the greatest nonce a tx is refused after its fee was added to what the coordinator is owed. */
  lemma LastNonceKeepsFee(coords: map<TokenID, Idx>, p: Proc, tx: Tx)
    requires !tx.isL1 && GetAccount(p.st, tx.fromIdx).Ok? && Charge(p.st.accounts[tx.fromIdx], tx).Ok?
    requires p.st.accounts[tx.fromIdx].nonce == MAX_NONCE
    requires forall t :: t in coords ==> GetAccount(p.st, coords[t]).Ok?
    ensures var s := Debit(TxSelector, coords, p, tx);
            s.err == Some(NumOverflow)
            && s.p == Accrue(TxSelector, coords, p, p.st.accounts[tx.fromIdx].tokenID,
                              Charge(p.st.accounts[tx.fromIdx], tx).value.1)
  {
    hide Fees.CalcFeeAmount;
    ChargeNonce(p.st.accounts[tx.fromIdx], tx);
    AccrueKeepsLedger(TxSelector, coords, p, p.st.accounts[tx.fromIdx].tokenID,
                      Charge(p.st.accounts[tx.fromIdx], tx).value.1);
  }

  // ---- Each part of the invariant ----

  lemma ExecutionReplays(st1: State, w: Work, t: PoolL2Tx, p: Proc)
    requires Replayed(st1, w) && L2Effect(w.p.st, t) == Outcome(p.st, None)
    ensures Replayed(st1, w.(p := p, selected := w.selected + [t]))
  {
    hide L2Effect, Creations;
    assert (w.selected + [t])[..|w.selected|] == w.selected;
  }

  lemma ExecutionKeepsFunds(st1: State, w: Work, t: PoolL2Tx, p: Proc)
    requires Funded(st1, w) && L2Effect(w.p.st, t) == Outcome(p.st, None)
    ensures Funded(st1, w.(p := p, selected := w.selected + [t]))
  {
    hide L2Effect, FeeOf;
    assert (w.selected + [t])[..|w.selected|] == w.selected;
    EffectTotal(w.p.st, t);
  }

  lemma CountFromSnoc(txs: seq<PoolL2Tx>, t: PoolL2Tx, i: Idx)
    ensures CountFrom(txs + [t], i) == CountFrom(txs, i) + (if t.fromIdx == i then 1 else 0)
  {
    assert (txs + [t])[..|txs|] == txs;
  }

  lemma ExecutionKeepsNonces(st1: State, w: Work, t: PoolL2Tx, p: Proc)
    requires Consecutive(st1, w) && L2Effect(w.p.st, t) == Outcome(p.st, None)
    requires IsL2Transfer(t.txType) || t.txType == TxTypeExit
    requires t.nonce == NonceOf(w.p.st, t.fromIdx)
    ensures Consecutive(st1, w.(p := p, selected := w.selected + [t]))
  {
    hide L2Effect, NonceOf, CountFrom;
    EffectNonces(w.p.st, t);
    var s := w.selected + [t];
    forall i ensures CountFrom(s, i) == CountFrom(w.selected, i) + (if t.fromIdx == i then 1 else 0) {
      CountFromSnoc(w.selected, t, i);
    }
    forall k | 0 <= k < |s|
      ensures s[k].nonce == NonceOf(st1, s[k].fromIdx) + CountFrom(s[..k], s[k].fromIdx)
    {
      assert s[..k] == w.selected[..k];
      assert k == |w.selected| ==> w.selected[..k] == w.selected;
    }
  }

  lemma {:induction false} FeesPaidSameOwners(s: State, t: State, txs: seq<PoolL2Tx>, scope: Scope)
    requires SameOwners(s, t)
    ensures FeesPaid(s, txs, scope) == FeesPaid(t, txs, scope)
  {
    hide FeeOf;
    if txs != [] {
      FeesPaidSameOwners(s, t, txs[..|txs| - 1], scope);
    }
  }

  lemma LookupSameOwners(s: State, t: State, a: EthAddr, k: BJJ, token: TokenID)
    requires SameOwners(s, t)
    ensures GetIdxByEthAddrBJJ(s, a, k, token) == GetIdxByEthAddrBJJ(t, a, k, token)
  {
  }

  /** Listing the coordinator account with what it has so far. */
  function Listed(p: Proc, c: Idx): Proc {
    p.(fees := p.fees[c := At(p.fees, c)])
  }

  /** The fees of the tokens whose coordinator account is not listed yet are zero. */
  lemma {:induction false} NoFeesOfToken(coord: CoordAccount, w: Work, token: TokenID, txs: seq<PoolL2Tx>)
    requires FeesKept(coord, w) && CoordIdx(coord, w.p.st, token).Ok?
    requires CoordIdx(coord, w.p.st, token).value !in w.p.fees
    requires forall tx :: tx in txs ==> tx in w.selected
    ensures FeesPaid(w.p.st, txs, Some(token)) == 0
  {
    hide FeeOf, TokenOf;
    if txs != [] {
      NoFeesOfToken(coord, w, token, txs[..|txs| - 1]);
      assert txs[|txs| - 1] in w.selected;
    }
  }

  lemma ExecutionKeepsFees(coord: CoordAccount, w: Work, t: PoolL2Tx, q: Proc, c: Idx)
    requires Valid(w.p.st) && FeesKept(coord, w) && SameOwners(w.p.st, q.st)
    requires t.fromIdx in w.p.st.accounts && t.tokenID == TokenOf(w.p.st, t.fromIdx)
    requires CoordIdx(coord, w.p.st, t.tokenID) == Ok(c)
    requires q.fees == w.p.fees[c := At(w.p.fees, c) + FeeOf(t)]
    ensures FeesKept(coord, w.(p := q, selected := w.selected + [t]))
  {
    hide Valid, FeeOf, GetIdxByEthAddrBJJ, SameOwners, TokenOf;
    var st := w.p.st;
    var token := TokenOf(st, t.fromIdx);
    LookupFinds(st, coord.addr, coord.bjj, token);
    SameOwnersSameKeys(st, q.st);
    TokenOfFound(st, c);
    if c !in w.p.fees {
      NoFeesOfToken(coord, w, token, w.selected);
    }
    forall i ensures TokenOf(st, i) == TokenOf(q.st, i) {
      SameOwnersSameToken(st, q.st, i);
    }
    forall tok ensures CoordIdx(coord, q.st, tok) == CoordIdx(coord, st, tok) {
      LookupSameOwners(st, q.st, coord.addr, coord.bjj, tok);
    }
    forall i | i in q.fees
      ensures CoordIdx(coord, st, TokenOf(st, i)) == Ok(i)
      ensures q.fees[i] == FeesPaid(q.st, w.selected + [t], Some(TokenOf(st, i)))
    {
      FeesPaidNext(st, w.selected, t, Some(TokenOf(st, i)));
      FeesPaidSameOwners(st, q.st, w.selected + [t], Some(TokenOf(st, i)));
    }
  }

  lemma TokenOfFound(st: State, i: Idx)
    requires i in st.accounts
    ensures TokenOf(st, i) == st.accounts[i].tokenID
  {
  }

  lemma FeesPaidNext(st: State, txs: seq<PoolL2Tx>, t: PoolL2Tx, s: Scope)
    ensures FeesPaid(st, txs + [t], s) == FeesPaid(st, txs, s) + Of(s, TokenOf(st, t.fromIdx), FeeOf(t))
  {
    hide FeeOf, TokenOf;
    assert (txs + [t])[..|txs|] == txs;
  }
}
