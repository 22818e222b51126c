/** Where the money goes: per-token totals over accounts and exit tree, tx by tx and for whole batches. */
module Conservation {
  import opened Wrappers
  import opened Common
  import opened Ledger
  import opened Effects
  import opened Batch
  import opened Funds
  import Fees
  import Float40

  // ---- Totals ----

  /** What is counted: one token, or with None all tokens together. */
  type Scope = Option<TokenID>

  function Of(s: Scope, token: TokenID, x: int): int {
    if s.None? || s.value == token then x else 0
  }

  function Worth(acc: Account, s: Scope): int {
    Of(s, acc.tokenID, acc.balance)
  }

  ghost function Total(m: map<Idx, Account>, s: Scope): int {
    if m == map[] then 0
    else
      var i :| i in m;
      Worth(m[i], s) + Total(m - {i}, s)
  }

  /** The total does not depend on the order in which accounts are taken. */
  lemma {:induction false} TotalRemove(m: map<Idx, Account>, s: Scope, i: Idx)
    requires i in m
    ensures Total(m, s) == Worth(m[i], s) + Total(m - {i}, s)
    decreases |m|
  {
    var j :| j in m && Total(m, s) == Worth(m[j], s) + Total(m - {j}, s);
    if i != j {
      TotalRemove(m - {j}, s, i);
      TotalRemove(m - {i}, s, j);
      assert m - {i} - {j} == m - {j} - {i};
    }
  }

  lemma TotalUpdate(m: map<Idx, Account>, s: Scope, i: Idx, acc: Account)
    ensures Total(m[i := acc], s) == Total(m, s) - (if i in m then Worth(m[i], s) else 0) + Worth(acc, s)
  {
    TotalRemove(m[i := acc], s, i);
    if i in m {
      TotalRemove(m, s, i);
      assert m[i := acc] - {i} == m - {i};
    } else {
      assert m[i := acc] - {i} == m;
    }
  }

  /** What accounts and exit tree hold together. */
  ghost function Held(p: Proc, s: Scope): int {
    Total(p.st.accounts, s) + Total(p.exits, s)
  }

  // ---- Single operations ----

  lemma CreditTotal(st: State, idx: Idx, amount: nat, s: Scope)
    requires Credit(st, idx, amount).err == None
    ensures Total(Credit(st, idx, amount).st.accounts, s)
            == Total(st.accounts, s) + Of(s, TokenOf(st, idx), amount)
  {
    var acc := st.accounts[idx];
    TotalUpdate(st.accounts, s, idx, acc.(balance := acc.balance + amount));
  }

  /** The fee of an L2 tx, zero for an L1 tx. */
  function Fee(tx: Tx): nat {
    if tx.isL1 then 0
    else match Fees.CalcFeeAmount(tx.amount, tx.fee) case Ok(fee) => fee case Err(_) => 0
  }

  lemma DebitTotal(mode: Mode, coords: map<TokenID, Idx>, p: Proc, tx: Tx, s: Scope)
    requires Debit(mode, coords, p, tx).err == None
    ensures var q := Debit(mode, coords, p, tx).p;
            && tx.fromIdx in p.st.accounts
            && q.exits == p.exits && SameOwners(p.st, q.st)
            && Total(q.st.accounts, s) == Total(p.st.accounts, s) - Of(s, TokenOf(p.st, tx.fromIdx), tx.amount + Fee(tx))
            && (q.fees, q.collected) ==
                 if tx.isL1 then (p.fees, p.collected)
                 else var a := Accrue(mode, coords, p, TokenOf(p.st, tx.fromIdx), Fee(tx)); (a.fees, a.collected)
  {
    hide Fees.CalcFeeAmount, SameOwners;
    DebitKeepsOwners(mode, coords, p, tx);
    var acc := p.st.accounts[tx.fromIdx];
    ChargeKeepsOwner(acc, tx);
    TotalUpdate(p.st.accounts, s, tx.fromIdx, Charge(acc, tx).value.0);
  }

  lemma TransferHeld(mode: Mode, coords: map<TokenID, Idx>, p: Proc, tx: Tx, auxToIdx: Idx, s: Scope)
    requires Transfer(mode, coords, p, tx, auxToIdx).err == None
    ensures Held(Transfer(mode, coords, p, tx, auxToIdx).p, s) ==
              Held(p, s) - Of(s, TokenOf(p.st, tx.fromIdx), tx.amount + Fee(tx))
                         + Of(s, TokenOf(p.st, Receiver(tx, auxToIdx)), tx.amount)
    ensures Receiver(tx, auxToIdx) in p.st.accounts
  {
    hide Debit, Credit, Of, Fee;
    var d := Debit(mode, coords, p, tx);
    DebitTotal(mode, coords, p, tx, s);
    CreditTotal(d.p.st, Receiver(tx, auxToIdx), tx.amount, s);
    CreditExists(d.p.st, Receiver(tx, auxToIdx), tx.amount);
  }

  lemma CreditExists(st: State, idx: Idx, amount: nat)
    requires Credit(st, idx, amount).err == None
    ensures idx in st.accounts
  {
  }

  /** An exit moves its amount from the account to its leaf; only the fee leaves both. */
  lemma ExitHeld(mode: Mode, coords: map<TokenID, Idx>, p: Proc, tx: Tx, requested: nat, s: Scope)
    requires Exit(mode, coords, p, tx, requested).err == None
    requires mode != TxSelector && ValidProc(p) && (requested == 0 ==> tx.amount == 0)
    ensures Held(Exit(mode, coords, p, tx, requested).p, s) ==
              Held(p, s) - Of(s, TokenOf(p.st, tx.fromIdx), Fee(tx))
  {
    hide Debit, Fee;
    var d := Debit(mode, coords, p, tx);
    DebitTotal(mode, coords, p, tx, s);
    if requested != 0 {
      TotalUpdate(d.p.exits, s, tx.fromIdx, ExitLeaf(d.p.exits, tx.fromIdx, d.p.st.accounts[tx.fromIdx], tx.amount));
    }
  }

  /**
   A transfer conserves every token up to its fee if and only if it moves nothing or its two
   accounts hold the same token: the engine itself does not compare the tokens.
   */
  lemma TransferConservesIff(mode: Mode, coords: map<TokenID, Idx>, p: Proc, tx: Tx, auxToIdx: Idx)
    requires Transfer(mode, coords, p, tx, auxToIdx).err == None
    ensures (forall t: TokenID ::
               Held(Transfer(mode, coords, p, tx, auxToIdx).p, Some(t))
               == Held(p, Some(t)) - Of(Some(t), TokenOf(p.st, tx.fromIdx), Fee(tx)))
            <==> (tx.amount == 0 || TokenOf(p.st, tx.fromIdx) == TokenOf(p.st, Receiver(tx, auxToIdx)))
  {
    hide Transfer, Held, TokenOf, Fee;
    forall t: TokenID
      ensures Held(Transfer(mode, coords, p, tx, auxToIdx).p, Some(t)) ==
              Held(p, Some(t)) - Of(Some(t), TokenOf(p.st, tx.fromIdx), tx.amount + Fee(tx))
                               + Of(Some(t), TokenOf(p.st, Receiver(tx, auxToIdx)), tx.amount)
    {
      TransferHeld(mode, coords, p, tx, auxToIdx, Some(t));
    }
    var t := TokenOf(p.st, tx.fromIdx);
    assert Of(Some(t), t, Fee(tx)) == Fee(tx);
  }

  /** Such a transfer: five units leave an account of token 0 and arrive in one of token 1. */
  lemma CrossTokenTransferPasses()
    ensures var st := State(map[256 := Account(0, 0, 10, EMPTY_BJJ, FF_ADDR), 257 := Account(1, 0, 0, EMPTY_BJJ, FF_ADDR)],
                            257, map[], map[]);
            var p := Proc(st, map[], map[], map[]);
            var tx := Tx(false, 256, 257, 5, 0);
            && Valid(st) && Transfer(Synchronizer, map[], p, tx, 0).err == None
            && exists t: TokenID ::
                 Held(Transfer(Synchronizer, map[], p, tx, 0).p, Some(t))
                 != Held(p, Some(t)) - Of(Some(t), TokenOf(p.st, tx.fromIdx), Fee(tx))
  {
    var st := State(map[256 := Account(0, 0, 10, EMPTY_BJJ, FF_ADDR), 257 := Account(1, 0, 0, EMPTY_BJJ, FF_ADDR)],
                    257, map[], map[]);
    var p := Proc(st, map[], map[], map[]);
    var tx := Tx(false, 256, 257, 5, 0);
    assert st.accounts[256] == Account(0, 0, 10, EMPTY_BJJ, FF_ADDR)
           && st.accounts[257] == Account(1, 0, 0, EMPTY_BJJ, FF_ADDR);
    assert Fees.CalcFeeAmount(5, 0) == Ok(0);
    assert Transfer(Synchronizer, map[], p, tx, 0).err == None by {
      var d := Debit(Synchronizer, map[], p, tx);
      assert d.err == None && d.p.st.accounts[257] == st.accounts[257];
    }
    TransferConservesIff(Synchronizer, map[], p, tx, 0);
  }

  // ---- L1 txs ----

  lemma CreateDepositTotal(st: State, tx: L1Tx, deposit: nat, s: Scope)
    requires Valid(st) && CreateDeposit(st, tx, deposit).err == None
    ensures Total(CreateDeposit(st, tx, deposit).st.accounts, s) == Total(st.accounts, s) + Of(s, tx.tokenID, deposit)
    ensures CreateDeposit(st, tx, deposit).st.accounts == st.accounts[st.currentIdx + 1 := NewAccount(tx, deposit)]
  {
    hide Valid, SetIdxByEthAddrBJJ;
    NextIdxIsFree(st);
    SetIdxKeepsAll(st);
    TotalUpdate(st.accounts, s, st.currentIdx + 1, NewAccount(tx, deposit));
  }

  lemma DepositTotal(st: State, tx: L1Tx, deposit: nat, amount: nat, transfer: bool, s: Scope)
    requires Deposit(st, tx, deposit, amount, transfer).err == None
    requires !transfer ==> amount == 0
    requires transfer && amount > 0 ==> TokenOf(st, tx.toIdx) == tx.tokenID
    requires (amount > 0 || deposit > 0) ==> TokenOf(st, tx.fromIdx) == tx.tokenID
    ensures Total(Deposit(st, tx, deposit, amount, transfer).st.accounts, s)
            == Total(st.accounts, s) + Of(s, tx.tokenID, deposit)
  {
    hide Credit;
    var acc := st.accounts[tx.fromIdx];
    var after := acc.(balance := acc.balance + deposit - amount);
    TotalUpdate(st.accounts, s, tx.fromIdx, after);
    UpdateKeepsOwners(st, tx.fromIdx, after);
    var st1 := UpdateAccount(st, tx.fromIdx, after).st;
    if transfer {
      CreditTotal(st1, tx.toIdx, amount, s);
      CreditExists(st1, tx.toIdx, amount);
    }
  }

  lemma CreateDepositTransferTotal(st: State, tx: L1Tx, deposit: nat, amount: nat, s: Scope)
    requires Valid(st) && CreateDepositTransfer(st, tx, deposit, amount).err == None
    requires amount > 0 ==> tx.toIdx in st.accounts && TokenOf(st, tx.toIdx) == tx.tokenID
    ensures Total(CreateDepositTransfer(st, tx, deposit, amount).st.accounts, s)
            == Total(st.accounts, s) + Of(s, tx.tokenID, deposit)
  {
    hide Valid, CreateDeposit, CreateDepositTransfer, Credit;
    CreateDepositTransferIs(st, tx, deposit, amount);
    CreateDepositTotal(st, tx, deposit - amount, s);
    CreditTotal(CreateDeposit(st, tx, deposit - amount).st, tx.toIdx, amount, s);
    NextIdxIsFree(st);
  }

  /** An L1 tx says what its fields say, and names no amount that its type ignores. */
  predicate FieldsAgree(tx: L1Tx) {
    && L1Type(tx) == Ok(tx.txType)
    && (tx.txType == TxTypeDeposit ==> tx.amount == 0)
    && (tx.txType == TxTypeForceExit ==> tx.depositAmount == 0)
  }

  /** What an L1 tx brings into the rollup. */
  function Deposited(st: State, tx: L1Tx, s: Scope): int {
    Of(s, tx.tokenID, Effective(st, tx).0)
  }

  /** Which accounts the effective amounts of an L1 tx are good for. */
  lemma EffectiveTokens(st: State, tx: L1Tx)
    requires FieldsAgree(tx)
    ensures var (deposit, amount) := Effective(st, tx);
            && (tx.fromIdx != 0 && (deposit > 0 || amount > 0) ==> TokenOf(st, tx.fromIdx) == tx.tokenID)
            && (tx.txType == TxTypeDeposit ==> amount == 0)
            && (tx.txType in {TxTypeForceTransfer, TxTypeForceExit} ==> deposit == 0)
            && (UsesAmount(tx.txType) && amount > 0 && tx.txType != TxTypeForceExit ==>
                  tx.toIdx in st.accounts && TokenOf(st, tx.toIdx) == tx.tokenID)
            && (tx.amount == 0 ==> amount == 0)
  {
  }

  /** Every L1 tx adds its effective deposit to what is held, and nothing else. */
  lemma L1StepHeld(mode: Mode, p: Proc, tx: L1Tx, s: Scope)
    requires mode != TxSelector && ValidProc(p) && FieldsAgree(tx) && L1Step(mode, p, tx).err == None
    ensures Held(L1Step(mode, p, tx).p, s) == Held(p, s) + Deposited(p.st, tx, s)
  {
    hide Effective, Transfer, Exit, Deposit, CreateDeposit, CreateDepositTransfer, EncodableL1, ValidProc, Valid;
    EffectiveTokens(p.st, tx);
    var t := WithEffective(p.st, tx);
    var (deposit, amount) := Effective(p.st, tx);
    assert Valid(p.st) by {
      LedgerOf(p);
    }
    match tx.txType
    case TxTypeForceTransfer => TransferHeld(mode, map[], p, L1View(t), 0, s);
    case TxTypeForceExit => ExitHeld(mode, map[], p, L1View(t), tx.amount, s);
    case TxTypeCreateAccountDeposit => CreateDepositTotal(p.st, t, deposit, s);
    case TxTypeDeposit => DepositTotal(p.st, t, deposit, amount, false, s);
    case TxTypeDepositTransfer => DepositTotal(p.st, t, deposit, amount, true, s);
    case TxTypeCreateAccountDepositTransfer => CreateDepositTransferTotal(p.st, t, deposit, amount, s);
    case _ =>
  }

  lemma LedgerOf(p: Proc)
    requires ValidProc(p)
    ensures Valid(p.st)
  {
  }

  /** The effective deposits of a list of L1 txs. */
  function Deposits(mode: Mode, cfg: Config, p: Proc, txs: seq<L1Tx>, s: Scope): int {
    if txs == [] then 0
    else
      var n := |txs| - 1;
      Deposits(mode, cfg, p, txs[..n], s) + Deposited(RunL1(mode, cfg, p, txs[..n]).p.st, txs[n], s)
  }

  lemma {:induction false} RunL1Held(mode: Mode, cfg: Config, p: Proc, txs: seq<L1Tx>, s: Scope)
    requires mode != TxSelector && ValidProc(p) && RunL1(mode, cfg, p, txs).err == None
    requires forall tx :: tx in txs ==> FieldsAgree(tx)
    ensures Held(RunL1(mode, cfg, p, txs).p, s) == Held(p, s) + Deposits(mode, cfg, p, txs, s)
  {
    hide L1Step, ValidProc, Held, Deposited, PublishableL1, FieldsAgree;
    if txs != [] {
      var n := |txs| - 1;
      RunL1Held(mode, cfg, p, txs[..n], s);
      RunL1KeepsValid(mode, cfg, p, txs[..n]);
      assert FieldsAgree(txs[n]);
      L1StepHeld(mode, RunL1(mode, cfg, p, txs[..n]).p, txs[n], s);
    }
  }

  // ---- L2 txs ----

  /** The fee of a pool tx; a tx that is neither a transfer nor an exit has no effect and pays none. */
  function FeeOf(tx: PoolL2Tx): nat {
    if IsL2Transfer(tx.txType) || tx.txType == TxTypeExit then Fee(L2View(tx)) else 0
  }

  /** The receiver, once looked up, holds the token of the sender. */
  predicate SameToken(mode: Mode, st: State, tx: PoolL2Tx) {
    IsL2Transfer(tx.txType) && Resolve(mode, st, tx).Ok? ==>
      var t := Resolve(mode, st, tx).value;
      TokenOf(st, Receiver(L2View(t), t.auxToIdx)) == TokenOf(st, tx.fromIdx)
  }

  /** An L2 tx takes its fee, and only that, out of what is held. */
  lemma L2StepHeld(mode: Mode, coords: map<TokenID, Idx>, p: Proc, tx: PoolL2Tx, s: Scope)
    requires mode != TxSelector && ValidProc(p) && SameToken(mode, p.st, tx) && L2Step(mode, coords, p, tx).err == None
    ensures Held(L2Step(mode, coords, p, tx).p, s) == Held(p, s) - Of(s, TokenOf(p.st, tx.fromIdx), FeeOf(tx))
  {
    hide Transfer, Exit, BuilderCheck, ValidProc, Fee, GetIdxByEthAddrBJJ;
    var t := Resolve(mode, p.st, tx).value;
    if IsL2Transfer(tx.txType) {
      TransferHeld(mode, coords, p, L2View(t), t.auxToIdx, s);
      assert L2View(t) == L2View(tx);
    } else if tx.txType == TxTypeExit {
      ExitHeld(mode, coords, p, L2View(t), t.amount, s);
    }
  }

  /** The fees of a list of L2 txs. */
  function FeesPaid(st: State, txs: seq<PoolL2Tx>, s: Scope): int {
    if txs == [] then 0
    else
      var n := |txs| - 1;
      FeesPaid(st, txs[..n], s) + Of(s, TokenOf(st, txs[n].fromIdx), FeeOf(txs[n]))
  }

  lemma SameTokenStays(mode: Mode, s: State, t: State, tx: PoolL2Tx)
    requires SameOwners(s, t) && SameToken(mode, s, tx)
    ensures SameToken(mode, t, tx) && TokenOf(s, tx.fromIdx) == TokenOf(t, tx.fromIdx)
  {
  }

  lemma {:induction false} RunL2Held(mode: Mode, coords: map<TokenID, Idx>, p: Proc, txs: seq<PoolL2Tx>, s: Scope)
    requires mode != TxSelector && ValidProc(p) && RunL2(mode, coords, p, txs).err == None
    requires forall tx :: tx in txs ==> SameToken(mode, p.st, tx)
    ensures Held(RunL2(mode, coords, p, txs).p, s) == Held(p, s) - FeesPaid(p.st, txs, s)
  {
    hide L2Step, ValidProc, Held, SameToken, FeeOf;
    if txs != [] {
      var n := |txs| - 1;
      var q := RunL2(mode, coords, p, txs[..n]).p;
      RunL2Held(mode, coords, p, txs[..n], s);
      RunL2KeepsValid(mode, coords, p, txs[..n]);
      SameTokenStays(mode, p.st, q.st, txs[n]);
      L2StepHeld(mode, coords, q, txs[n], s);
    }
  }

  // ---- The fees that are collected ----

  /** Each coordinator account exists and holds the token it is listed for. */
  ghost predicate CoordTokens(st: State, coords: map<TokenID, Idx>) {
    forall t :: t in coords ==> coords[t] in st.accounts && TokenOf(st, coords[t]) == t
  }

  /** The running totals of each coordinator account are the fees of its token since `st`. */
  ghost predicate FeesTracked(st: State, coords: map<TokenID, Idx>, p: Proc, txs: seq<PoolL2Tx>) {
    forall t :: t in coords ==>
      && t in p.collected && coords[t] in p.fees
      && p.collected[t] == p.fees[coords[t]] == FeesPaid(st, txs, Some(t))
  }

  lemma AccrueTracks(mode: Mode, st: State, coords: map<TokenID, Idx>, p: Proc, q: Proc, txs: seq<PoolL2Tx>,
                     tx: PoolL2Tx)
    requires mode != TxSelector && CoordTokens(st, coords) && FeesTracked(st, coords, p, txs)
    requires var a := Accrue(mode, coords, p, TokenOf(st, tx.fromIdx), FeeOf(tx));
             q.fees == a.fees && q.collected == a.collected
    ensures FeesTracked(st, coords, q, txs + [tx])
  {
    hide FeeOf, TokenOf;
    assert (txs + [tx])[..|txs|] == txs;
    forall t | t in coords
      ensures t in q.collected && coords[t] in q.fees
      ensures q.collected[t] == q.fees[coords[t]] == FeesPaid(st, txs + [tx], Some(t))
    {
      var token := TokenOf(st, tx.fromIdx);
      assert TokenOf(st, coords[t]) == t;
      if token in coords {
        assert TokenOf(st, coords[token]) == token;
      }
    }
  }

  lemma NoFeeTracks(st: State, coords: map<TokenID, Idx>, p: Proc, txs: seq<PoolL2Tx>, tx: PoolL2Tx)
    requires FeesTracked(st, coords, p, txs) && FeeOf(tx) == 0
    ensures FeesTracked(st, coords, p, txs + [tx])
  {
    hide FeeOf, TokenOf;
    assert (txs + [tx])[..|txs|] == txs;
  }

  lemma L2StepTracks(mode: Mode, st: State, coords: map<TokenID, Idx>, p: Proc, txs: seq<PoolL2Tx>, tx: PoolL2Tx)
    requires mode != TxSelector && CoordTokens(st, coords) && FeesTracked(st, coords, p, txs)
    requires SameOwners(st, p.st) && L2Step(mode, coords, p, tx).err == None
    ensures FeesTracked(st, coords, L2Step(mode, coords, p, tx).p, txs + [tx])
  {
    hide Debit, Credit, BuilderCheck, GetIdxByEthAddrBJJ, FeesTracked, CoordTokens, Fee, ExitLeaf, Accrue;
    hide SameOwners, TokenOf;
    var t := Resolve(mode, p.st, tx).value;
    SameOwnersSameToken(st, p.st, tx.fromIdx);
    if IsL2Transfer(tx.txType) || tx.txType == TxTypeExit {
      DebitTotal(mode, coords, p, L2View(t), None);
      assert L2View(t) == L2View(tx);
      AccrueTracks(mode, st, coords, p, L2Step(mode, coords, p, tx).p, txs, tx);
    } else {
      NoFeeTracks(st, coords, p, txs, tx);
    }
  }

  lemma SameOwnersSameToken(s: State, t: State, i: Idx)
    requires SameOwners(s, t)
    ensures TokenOf(s, i) == TokenOf(t, i)
  {
  }

  lemma {:induction false} RunL2Tracks(mode: Mode, coords: map<TokenID, Idx>, p: Proc, txs: seq<PoolL2Tx>)
    requires mode != TxSelector && CoordTokens(p.st, coords) && FeesTracked(p.st, coords, p, [])
    requires ValidProc(p) && RunL2(mode, coords, p, txs).err == None
    ensures FeesTracked(p.st, coords, RunL2(mode, coords, p, txs).p, txs)
  {
    hide L2Step, ValidProc, FeesTracked, CoordTokens;
    if txs != [] {
      var n := |txs| - 1;
      RunL2Tracks(mode, coords, p, txs[..n]);
      RunL2KeepsValid(mode, coords, p, txs[..n]);
      L2StepTracks(mode, p.st, coords, RunL2(mode, coords, p, txs[..n]).p, txs[..n], txs[n]);
      assert txs[..n] + [txs[n]] == txs;
    }
  }

  // ---- The distribution of fees ----

  /** No two of the accounts hold the same token. */
  ghost predicate OnePerToken(st: State, idxs: seq<Idx>) {
    forall j, k :: 0 <= j < k < |idxs| ==> TokenOf(st, idxs[j]) != TokenOf(st, idxs[k])
  }

  /** Each listed account receives exactly its fee; no other account changes, nor does any nonce. */
  lemma {:induction false} DistributePays(st: State, idxs: seq<Idx>, fees: map<Idx, nat>)
    requires OnePerToken(st, idxs) && Distribute(st, idxs, fees).err == None
    ensures var t := Distribute(st, idxs, fees).st;
            && t.accounts.Keys == st.accounts.Keys && t == st.(accounts := t.accounts)
            && forall i :: i in st.accounts ==>
                 var a := st.accounts[i];
                 t.accounts[i] == if i in idxs then a.(balance := a.balance + At(fees, i)) else a
  {
    if idxs != [] {
      var n := |idxs| - 1;
      DistributePays(st, idxs[..n], fees);
      forall i | i in idxs[..n] ensures i != idxs[n] {
        var j :| 0 <= j < n && idxs[j] == i;
        assert TokenOf(st, idxs[j]) != TokenOf(st, idxs[n]);
      }
      assert forall i :: i in idxs <==> i in idxs[..n] || i == idxs[n];
    }
  }

  /** Among accounts of different tokens the map of tokens finds each account. */
  lemma {:induction false} CoordMapFinds(st: State, idxs: seq<Idx>)
    requires OnePerToken(st, idxs) && CoordMap(st, idxs).Ok?
    ensures forall i :: i in idxs <==>
              TokenOf(st, i) in CoordMap(st, idxs).value && CoordMap(st, idxs).value[TokenOf(st, i)] == i
  {
    if idxs != [] {
      var n := |idxs| - 1;
      CoordMapFinds(st, idxs[..n]);
      forall i | i in idxs[..n] ensures TokenOf(st, i) != TokenOf(st, idxs[n]) {
        var j :| 0 <= j < n && idxs[j] == i;
      }
      assert forall i :: i in idxs <==> i in idxs[..n] || i == idxs[n];
    }
  }

  /** What the distribution adds to the total of a token: the fee of the one account listed for it. */
  lemma {:induction false} DistributeTotal(st: State, idxs: seq<Idx>, fees: map<Idx, nat>, t: TokenID)
    requires OnePerToken(st, idxs) && CoordMap(st, idxs).Ok? && Distribute(st, idxs, fees).err == None
    ensures Total(Distribute(st, idxs, fees).st.accounts, Some(t))
            == Total(st.accounts, Some(t))
               + (if t in CoordMap(st, idxs).value then At(fees, CoordMap(st, idxs).value[t]) else 0)
  {
    hide Credit;
    if idxs != [] {
      var n := |idxs| - 1;
      var o := Distribute(st, idxs[..n], fees);
      DistributeTotal(st, idxs[..n], fees, t);
      DistributePays(st, idxs[..n], fees);
      CreditTotal(o.st, idxs[n], At(fees, idxs[n]), Some(t));
      CreditExists(o.st, idxs[n], At(fees, idxs[n]));
      assert TokenOf(o.st, idxs[n]) == TokenOf(st, idxs[n]);
      CoordMapTokens(st, idxs[..n]);
      forall i | i in idxs[..n] ensures TokenOf(st, i) != TokenOf(st, idxs[n]) {
        var j :| 0 <= j < n && idxs[j] == i;
      }
    }
  }

  // ---- Whole batches ----

  /** The txs of a batch are what the contract and the pool let through. */
  ghost predicate RegularBatch(run: Run) {
    && (forall tx :: tx in run.l1 ==> FieldsAgree(tx))
    && (forall tx :: tx in run.l2 ==> SameToken(run.mode, run.AfterL1().p.st, tx))
  }

  /** The stages of a batch that succeeds: before its L2 txs, and before its fees are distributed. */
  lemma Stages(run: Run)
    requires Valid(run.st) && BatchStep(run).err == None
    ensures run.AfterL1().err == None && run.AfterL2(|run.l2|).err == None
    ensures ValidProc(run.AfterL1().p) && ValidProc(run.AfterL2(|run.l2|).p)
    ensures SameOwners(run.AfterL1().p.st, run.AfterL2(|run.l2|).p.st)
    ensures CoordMap(run.AfterL1().p.st, run.Idxs()) == Ok(run.Coords())
    ensures OnePerToken(run.AfterL1().p.st, run.Idxs())
    ensures CoordTokens(run.AfterL1().p.st, run.Coords())
    ensures run.AfterL2(0) == Step(StartL2(run.mode, run.AfterL1().p, run.Idxs(), run.Coords()), None, None)
  {
    hide Valid, RunL1, RunL2, FirstPerToken, CoordMap, Distribute, SameOwners, StartL2;
    var p0 := Start(run.st);
    assert ValidProc(p0);
    RunL1KeepsValid(run.mode, run.cfg, p0, run.l1);
    Coordinators(run);
    FirstPerTokenDistinct(run.AfterL1().p.st, run.coordIdxs);
    BeforeL2(run);
    var p2 := run.AfterL2(0).p;
    assert p2.st == run.AfterL1().p.st && p2.exits == run.AfterL1().p.exits by {
      StartL2KeepsLedger(run.mode, run.AfterL1().p, run.Idxs(), run.Coords());
    }
    assert run.l2[..|run.l2|] == run.l2;
    RunL2KeepsValid(run.mode, run.Coords(), p2, run.l2);
  }

  lemma StartL2KeepsLedger(mode: Mode, p: Proc, idxs: seq<Idx>, coords: map<TokenID, Idx>)
    ensures StartL2(mode, p, idxs, coords).st == p.st && StartL2(mode, p, idxs, coords).exits == p.exits
  {
  }

  lemma NothingTracked(mode: Mode, st: State, p: Proc, idxs: seq<Idx>, coords: map<TokenID, Idx>)
    requires mode != TxSelector && forall t :: t in coords ==> coords[t] in idxs
    ensures FeesTracked(st, coords, StartL2(mode, p, idxs, coords), [])
  {
  }

  /** At the end of the L2 txs the coordinator accounts are owed exactly the fees of their tokens. */
  lemma FeesCollected(run: Run)
    requires Valid(run.st) && run.mode != TxSelector && BatchStep(run).err == None
    ensures FeesTracked(run.AfterL1().p.st, run.Coords(), run.AfterL2(|run.l2|).p, run.l2)
  {
    hide Valid, ValidProc, RunL1, RunL2, FirstPerToken, CoordMap, Distribute, SameOwners;
    hide FeesTracked, CoordTokens, OnePerToken, StartL2, Run.Idxs, Run.Coords, Run.AfterL1;
    Stages(run);
    Coordinators(run);
    NothingTracked(run.mode, run.AfterL1().p.st, run.AfterL1().p, run.Idxs(), run.Coords());
    StartL2KeepsLedger(run.mode, run.AfterL1().p, run.Idxs(), run.Coords());
    var p2 := run.AfterL2(0).p;
    assert run.l2[..|run.l2|] == run.l2;
    assert ValidProc(p2) by {
      LedgerOnly(run.AfterL1().p, p2);
    }
    RunL2Tracks(run.mode, run.Coords(), p2, run.l2);
  }

  lemma LedgerOnly(p: Proc, q: Proc)
    requires ValidProc(p) && q.st == p.st && q.exits == p.exits
    ensures ValidProc(q)
  {
  }

  /** Each collected fee lands in exactly one coordinator account, and no other account changes at the end. */
  lemma FeesLand(run: Run, i: Idx)
    requires Valid(run.st) && run.mode != TxSelector && BatchStep(run).err == None
    requires i in run.AfterL2(|run.l2|).p.st.accounts
    ensures i in BatchStep(run).p.st.accounts
    ensures var before := run.AfterL2(|run.l2|).p.st.accounts[i];
            var token := before.tokenID;
            BatchStep(run).p.st.accounts[i]
            == if token in run.Coords() && run.Coords()[token] == i
               then before.(balance := before.balance + FeesPaid(run.AfterL1().p.st, run.l2, Some(token)))
               else before
  {
    hide Valid, ValidProc, RunL1, RunL2, FirstPerToken, CoordMap, Distribute, StartL2, Run.Idxs, Run.Coords;
    hide Run.AfterL1;
    hide FeesPaid;
    Stages(run);
    FeesCollected(run);
    var st1 := run.AfterL1().p.st;
    var p3 := run.AfterL2(|run.l2|).p;
    assert OnePerToken(p3.st, run.Idxs()) by {
      forall j | 0 <= j < |run.Idxs()| ensures TokenOf(p3.st, run.Idxs()[j]) == TokenOf(st1, run.Idxs()[j]) {
        SameOwnersSameToken(st1, p3.st, run.Idxs()[j]);
      }
    }
    DistributePays(p3.st, run.Idxs(), p3.fees);
    CoordMapFinds(st1, run.Idxs());
    SameOwnersSameToken(st1, p3.st, i);
  }

  /**
   Conservation. After a batch the accounts and the exit tree hold, of every token, what the
   accounts held before plus the effective deposits, minus nothing but the fees of a token for
   which no coordinator account was listed.
   */
  lemma BatchConserves(run: Run, t: TokenID)
    requires Valid(run.st) && run.mode != TxSelector && BatchStep(run).err == None
    requires RegularBatch(run)
    ensures Held(BatchStep(run).p, Some(t))
            == Total(run.st.accounts, Some(t))
               + Deposits(run.mode, run.cfg, Start(run.st), run.l1, Some(t))
               - (if t in run.Coords() then 0 else FeesPaid(run.AfterL1().p.st, run.l2, Some(t)))
  {
    hide Valid, ValidProc, RunL1, RunL2, FirstPerToken, CoordMap, Distribute, StartL2, Run.Idxs, Run.Coords;
    hide FeesPaid, Deposits, SameOwners, FieldsAgree, SameToken;
    Stages(run);
    FeesCollected(run);
    var st1 := run.AfterL1().p.st;
    var p3 := run.AfterL2(|run.l2|).p;
    StartIsValid(run.st);
    RunL1Held(run.mode, run.cfg, Start(run.st), run.l1, Some(t));
    var p2 := run.AfterL2(0).p;
    StartL2KeepsLedger(run.mode, run.AfterL1().p, run.Idxs(), run.Coords());
    LedgerOnly(run.AfterL1().p, p2);
    assert run.l2[..|run.l2|] == run.l2;
    RunL2Held(run.mode, run.Coords(), p2, run.l2, Some(t));
    DistributesTotal(run, t);
  }

  lemma StartIsValid(st: State)
    requires Valid(st)
    ensures ValidProc(Start(st))
  {
  }

  lemma DistributesTotal(run: Run, t: TokenID)
    requires Valid(run.st) && run.mode != TxSelector && BatchStep(run).err == None
    ensures Held(BatchStep(run).p, Some(t))
            == Held(run.AfterL2(|run.l2|).p, Some(t))
               + (if t in run.Coords() then FeesPaid(run.AfterL1().p.st, run.l2, Some(t)) else 0)
  {
    hide Valid, ValidProc, RunL1, RunL2, FirstPerToken, CoordMap, Distribute, StartL2, Run.Idxs, Run.Coords;
    hide Run.AfterL1;
    hide FeesPaid;
    Stages(run);
    FeesCollected(run);
    var st1 := run.AfterL1().p.st;
    var p3 := run.AfterL2(|run.l2|).p;
    assert OnePerToken(p3.st, run.Idxs()) by {
      forall j | 0 <= j < |run.Idxs()| ensures TokenOf(p3.st, run.Idxs()[j]) == TokenOf(st1, run.Idxs()[j]) {
        SameOwnersSameToken(st1, p3.st, run.Idxs()[j]);
      }
    }
    CoordMapSameOwners(st1, p3.st, run.Idxs());
    DistributeTotal(p3.st, run.Idxs(), p3.fees, t);
  }

  lemma {:induction false} CoordMapSameOwners(s: State, t: State, idxs: seq<Idx>)
    requires SameOwners(s, t)
    ensures CoordMap(s, idxs) == CoordMap(t, idxs)
  {
    if idxs != [] {
      CoordMapSameOwners(s, t, idxs[..|idxs| - 1]);
    }
  }
}
