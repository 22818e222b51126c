/** Balances: they stay non-negative, and an L1 tx that is executed never lacks the funds for it. */
module Funds {
  import opened Wrappers
  import opened Common
  import opened Ledger
  import opened Effects
  import Fees
  import Float40

  /** The ledger is valid, and so is every leaf of the exit tree, which belongs to the account's owner. */
  ghost predicate ValidProc(p: Proc) {
    && Valid(p.st)
    && forall i :: i in p.exits ==>
         && i in p.st.accounts && SameOwner(p.exits[i], p.st.accounts[i])
         && Fits(p.exits[i]) && 0 <= p.exits[i].balance
  }

  // ---- Every successful step keeps the ledger valid ----

  lemma CreditKeepsValid(st: State, idx: Idx, amount: nat)
    requires Valid(st)
    ensures Valid(Credit(st, idx, amount).st) && SameOwners(st, Credit(st, idx, amount).st)
  {
    hide Valid, SameOwners, UpdateAccount;
    if GetAccount(st, idx).Ok? {
      BalancesNotNegative(st, idx);
      var acc := st.accounts[idx];
      UpdateKeepsValid(st, idx, acc.(balance := acc.balance + amount));
    } else {
      UpdateKeepsNothing(st);
    }
  }

  lemma UpdateKeepsNothing(st: State)
    ensures SameOwners(st, st)
  {
  }

  lemma BalancesNotNegative(st: State, idx: Idx)
    requires Valid(st) && idx in st.accounts
    ensures 0 <= st.accounts[idx].balance && Fits(st.accounts[idx]) && idx <= MAX_IDX
  {
  }

  lemma DebitKeepsValid(mode: Mode, coords: map<TokenID, Idx>, p: Proc, tx: Tx)
    requires Valid(p.st)
    ensures Valid(Debit(mode, coords, p, tx).p.st)
  {
    hide Valid, SameOwners, UpdateAccount, Charge;
    if GetAccount(p.st, tx.fromIdx).Ok? {
      ChargeKeepsOwner(p.st.accounts[tx.fromIdx], tx);
      if Charge(p.st.accounts[tx.fromIdx], tx).Ok? {
        UpdateKeepsValid(p.st, tx.fromIdx, Charge(p.st.accounts[tx.fromIdx], tx).value.0);
      }
    }
  }

  /** A change of nonces and balances leaves the exit tree in step with the accounts. */
  lemma SameOwnersKeepExits(p: Proc, q: Proc)
    requires ValidProc(p) && Valid(q.st) && SameOwners(p.st, q.st) && q.exits == p.exits
    ensures ValidProc(q)
  {
  }

  lemma TransferKeepsValid(mode: Mode, coords: map<TokenID, Idx>, p: Proc, tx: Tx, auxToIdx: Idx)
    requires ValidProc(p)
    ensures ValidProc(Transfer(mode, coords, p, tx, auxToIdx).p)
  {
    hide SameOwners, Debit, Credit, Valid;
    var d := Debit(mode, coords, p, tx);
    DebitKeepsValid(mode, coords, p, tx);
    DebitKeepsExits(mode, coords, p, tx);
    TransferKeepsOwners(mode, coords, p, tx, auxToIdx);
    if d.err.None? {
      CreditKeepsValid(d.p.st, Receiver(tx, auxToIdx), tx.amount);
    }
    SameOwnersKeepExits(p, Transfer(mode, coords, p, tx, auxToIdx).p);
  }

  lemma DebitKeepsExits(mode: Mode, coords: map<TokenID, Idx>, p: Proc, tx: Tx)
    ensures Debit(mode, coords, p, tx).p.exits == p.exits
  {
    hide UpdateAccount, Charge;
  }

  lemma ExitKeepsValid(mode: Mode, coords: map<TokenID, Idx>, p: Proc, tx: Tx, requested: nat)
    requires ValidProc(p)
    ensures ValidProc(Exit(mode, coords, p, tx, requested).p)
  {
    hide SameOwners, Debit, Valid;
    var d := Debit(mode, coords, p, tx);
    DebitKeepsValid(mode, coords, p, tx);
    DebitKeepsExits(mode, coords, p, tx);
    DebitKeepsOwners(mode, coords, p, tx);
    SameOwnersKeepExits(p, d.p);
  }

  lemma DepositKeepsValid(st: State, tx: L1Tx, deposit: nat, amount: nat, transfer: bool)
    requires Valid(st)
    ensures var o := Deposit(st, tx, deposit, amount, transfer); Valid(o.st) && SameOwners(st, o.st)
  {
    hide Valid, UpdateAccount, Credit;
    if GetAccount(st, tx.fromIdx).Ok? {
      var acc := st.accounts[tx.fromIdx];
      if 0 <= acc.balance + deposit - amount {
        UpdateKeepsValid(st, tx.fromIdx, acc.(balance := acc.balance + deposit - amount));
        CreditKeepsValid(UpdateAccount(st, tx.fromIdx, acc.(balance := acc.balance + deposit - amount)).st,
                         tx.toIdx, amount);
      }
    }
  }

  /** Accounts that exist are left alone when one is created. */
  ghost predicate Extends(s: State, t: State) {
    forall i :: i in s.accounts ==> i in t.accounts && SameOwner(s.accounts[i], t.accounts[i])
  }

  lemma CreateDepositKeepsValid(st: State, tx: L1Tx, deposit: nat)
    requires Valid(st) && CreateDeposit(st, tx, deposit).err == None
    ensures var o := CreateDeposit(st, tx, deposit); Valid(o.st) && Extends(st, o.st)
  {
    hide Valid, SetIdxByEthAddrBJJ;
    CreateKeepsValid(st, NewAccount(tx, deposit));
    SetIdxKeepsAccounts(st.(accounts := st.accounts[st.currentIdx + 1 := NewAccount(tx, deposit)]),
                        st.currentIdx + 1, NewAccount(tx, deposit));
  }

  lemma SetIdxKeepsAccounts(st: State, idx: Idx, acc: Account)
    ensures SetIdxByEthAddrBJJ(st, idx, acc).accounts == st.accounts
    ensures SetIdxByEthAddrBJJ(st, idx, acc).currentIdx == st.currentIdx
  {
  }

  /** Counting up the last index commutes with crediting an account. */
  lemma CreditNextIdx(st: State, idx: Idx, amount: nat)
    ensures var o := Credit(st, idx, amount);
            Credit(st.(currentIdx := st.currentIdx + 1), idx, amount)
            == Outcome(o.st.(currentIdx := o.st.currentIdx + 1), o.err)
  {
  }

  /** A creation with deposit and transfer is a creation followed by a credit. */
  lemma CreateDepositTransferIs(st: State, tx: L1Tx, deposit: nat, amount: nat)
    requires CreateDepositTransfer(st, tx, deposit, amount).err == None
    ensures 0 <= deposit - amount
    ensures CreateDeposit(st, tx, deposit - amount).err == None
    ensures CreateDepositTransfer(st, tx, deposit, amount)
            == Credit(CreateDeposit(st, tx, deposit - amount).st, tx.toIdx, amount)
  {
    hide Credit, CreateAccount;
    var o := CreateAccount(st, st.currentIdx + 1, NewAccount(tx, deposit - amount));
    CreditNextIdx(o.st, tx.toIdx, amount);
    CreateKeepsIdx(st, NewAccount(tx, deposit - amount));
    CreditKeepsOwners(o.st, tx.toIdx, amount);
  }

  lemma CreateKeepsIdx(st: State, acc: Account)
    ensures CreateAccount(st, st.currentIdx + 1, acc).st.currentIdx == st.currentIdx
  {
  }

  lemma CreateDepositTransferKeepsValid(st: State, tx: L1Tx, deposit: nat, amount: nat)
    requires Valid(st) && CreateDepositTransfer(st, tx, deposit, amount).err == None
    ensures var o := CreateDepositTransfer(st, tx, deposit, amount); Valid(o.st) && Extends(st, o.st)
  {
    hide Valid, CreateDeposit, CreateDepositTransfer, Credit;
    CreateDepositTransferIs(st, tx, deposit, amount);
    CreateDepositKeepsValid(st, tx, deposit - amount);
    CreditKeepsValid(CreateDeposit(st, tx, deposit - amount).st, tx.toIdx, amount);
  }

  lemma L1CreateKeepsValid(st: State, tx: L1Tx, deposit: nat, amount: nat)
    requires Valid(st) && L1Create(st, tx, deposit, amount).err == None
    ensures var o := L1Create(st, tx, deposit, amount); Valid(o.st) && Extends(st, o.st)
  {
    hide Valid, Deposit, CreateDeposit, CreateDepositTransfer;
    match tx.txType
    case TxTypeCreateAccountDeposit => CreateDepositKeepsValid(st, tx, deposit);
    case TxTypeDeposit => DepositKeepsValid(st, tx, deposit, amount, false);
    case TxTypeDepositTransfer => DepositKeepsValid(st, tx, deposit, amount, true);
    case TxTypeCreateAccountDepositTransfer => CreateDepositTransferKeepsValid(st, tx, deposit, amount);
    case _ =>
  }

  lemma L1StepKeepsValid(mode: Mode, p: Proc, tx: L1Tx)
    requires ValidProc(p) && L1Step(mode, p, tx).err == None
    ensures ValidProc(L1Step(mode, p, tx).p)
  {
    hide Valid, Effective, Transfer, Exit, L1Create, EncodableL1;
    var t := WithEffective(p.st, tx);
    match tx.txType
    case TxTypeForceTransfer => TransferKeepsValid(mode, map[], p, L1View(t), 0);
    case TxTypeForceExit => ExitKeepsValid(mode, map[], p, L1View(t), tx.amount);
    case _ => L1CreateKeepsValid(p.st, t, t.effectiveDepositAmount.value, t.effectiveAmount.value);
  }

  lemma L2StepKeepsValid(mode: Mode, coords: map<TokenID, Idx>, p: Proc, tx: PoolL2Tx)
    requires ValidProc(p)
    ensures ValidProc(L2Step(mode, coords, p, tx).p)
  {
    hide Resolve, BuilderCheck, Transfer, Exit, ValidProc;
    if Resolve(mode, p.st, tx).Ok? {
      var t := Resolve(mode, p.st, tx).value;
      TransferKeepsValid(mode, coords, p, L2View(t), t.auxToIdx);
      ExitKeepsValid(mode, coords, p, L2View(t), t.amount);
    }
  }

  lemma {:induction false} RunL1KeepsValid(mode: Mode, cfg: Config, p: Proc, txs: seq<L1Tx>)
    requires ValidProc(p) && RunL1(mode, cfg, p, txs).err == None
    ensures ValidProc(RunL1(mode, cfg, p, txs).p)
  {
    hide L1Step, ValidProc, PublishableL1;
    if txs != [] {
      var n := |txs| - 1;
      RunL1KeepsValid(mode, cfg, p, txs[..n]);
      L1StepKeepsValid(mode, RunL1(mode, cfg, p, txs[..n]).p, txs[n]);
    }
  }

  lemma {:induction false} RunL2KeepsValid(mode: Mode, coords: map<TokenID, Idx>, p: Proc, txs: seq<PoolL2Tx>)
    requires ValidProc(p)
    ensures ValidProc(RunL2(mode, coords, p, txs).p) && SameOwners(p.st, RunL2(mode, coords, p, txs).p.st)
  {
    hide L2Step, ValidProc;
    if txs != [] {
      var n := |txs| - 1;
      RunL2KeepsValid(mode, coords, p, txs[..n]);
      L2StepKeepsValid(mode, coords, RunL2(mode, coords, p, txs[..n]).p, txs[n]);
      L2StepKeepsOwners(mode, coords, RunL2(mode, coords, p, txs[..n]).p, txs[n]);
    }
  }

  lemma {:induction false} DistributeKeepsValid(st: State, idxs: seq<Idx>, fees: map<Idx, nat>)
    requires Valid(st)
    ensures Valid(Distribute(st, idxs, fees).st) && SameOwners(st, Distribute(st, idxs, fees).st)
  {
    hide Valid, Credit;
    if idxs != [] {
      var n := |idxs| - 1;
      DistributeKeepsValid(st, idxs[..n], fees);
      CreditKeepsValid(Distribute(st, idxs[..n], fees).st, idxs[n], At(fees, idxs[n]));
    }
  }

  /** No batch that succeeds leaves a negative balance, in the accounts or in the exit tree. */
  lemma BatchKeepsValid(mode: Mode, cfg: Config, st: State, coordIdxs: seq<Idx>,
                        l1User: seq<L1Tx>, l1Coord: seq<L1Tx>, l2: seq<PoolL2Tx>)
    requires Valid(st) && ProcessTxs(mode, cfg, st, coordIdxs, l1User, l1Coord, l2).err == None
    ensures ValidProc(ProcessTxs(mode, cfg, st, coordIdxs, l1User, l1Coord, l2).p)
  {
    hide Valid, RunL1, RunL2, FirstPerToken, CoordMap, Distribute, SameOwners;
    var p0 := Proc(st, map[], map[], map[]);
    RunL1KeepsValid(mode, cfg, p0, l1User + l1Coord);
    var p1 := RunL1(mode, cfg, p0, l1User + l1Coord).p;
    var idxs := FirstPerToken(p1.st, coordIdxs).value;
    var coords := CoordMap(p1.st, idxs).value;
    var p2 := StartL2(mode, p1, idxs, coords);
    RunL2KeepsValid(mode, coords, p2, l2);
    var p3 := RunL2(mode, coords, p2, l2).p;
    DistributeKeepsValid(p3.st, idxs, p3.fees);
    SameOwnersKeepExits(p3, p3.(st := Distribute(p3.st, idxs, p3.fees).st));
  }

  // ---- An L1 tx never lacks funds ----

  /** A forced exit whose deposit makes the amount look covered: the exit itself does not pay the deposit in. */
  predicate UncoveredExit(st: State, tx: L1Tx) {
    && tx.txType == TxTypeForceExit && tx.userOrigin
    && GetAccount(st, tx.fromIdx).Ok?
    && var acc := st.accounts[tx.fromIdx];
       && tx.tokenID == acc.tokenID && tx.fromEthAddr == acc.ethAddr
       && acc.balance < tx.amount <= acc.balance + tx.depositAmount
  }

  lemma DebitLacksFunds(mode: Mode, p: Proc, tx: Tx)
    requires tx.isL1
    ensures Debit(mode, map[], p, tx).err == Some(NotEnoughBalance) <==>
              GetAccount(p.st, tx.fromIdx).Ok? && p.st.accounts[tx.fromIdx].balance < tx.amount
  {
  }

  lemma CreditNeverLacksFunds(st: State, idx: Idx, amount: nat)
    ensures Credit(st, idx, amount).err != Some(NotEnoughBalance)
  {
  }

  lemma CreateNeverLacksFunds(st: State, idx: Idx, acc: Account)
    ensures CreateAccount(st, idx, acc).err != Some(NotEnoughBalance)
  {
  }

  /** The effective amount is covered by the sender's balance and the effective deposit. */
  lemma EffectiveIsCovered(st: State, tx: L1Tx)
    requires L1Type(tx) == Ok(tx.txType) && Valid(st)
    ensures var (deposit, amount) := Effective(st, tx);
            && (tx.fromIdx == 0 && tx.txType != TxTypeCreateAccountDeposit ==> amount <= deposit)
            && (tx.fromIdx != 0 && tx.fromIdx in st.accounts ==> amount <= st.accounts[tx.fromIdx].balance + deposit)
            && (tx.txType == TxTypeForceTransfer ==> deposit == 0)
            && (tx.txType == TxTypeForceExit && tx.fromIdx in st.accounts ==>
                  (st.accounts[tx.fromIdx].balance < amount <==> UncoveredExit(st, tx)))
  {
  }

  /**
   An L1 tx of the type its fields give fails for lack of funds if and only if it is a forced
   exit that carries a deposit which the exit needs.
   */
  lemma LacksFundsIff(mode: Mode, p: Proc, tx: L1Tx)
    requires L1Type(tx) == Ok(tx.txType) && Valid(p.st)
    requires mode == BatchBuilder ==> EncodableL1(tx)
    ensures L1Step(mode, p, tx).err == Some(NotEnoughBalance) <==> UncoveredExit(p.st, tx)
  {
    hide Effective, EncodableL1, Debit, Credit, CreateAccount, UncoveredExit, Valid;
    EffectiveIsCovered(p.st, tx);
    var t := WithEffective(p.st, tx);
    DebitLacksFunds(mode, p, L1View(t));
    FromIdxExists(p.st, tx);
    if tx.fromIdx in p.st.accounts {
      BalancesNotNegative(p.st, tx.fromIdx);
    }
    match tx.txType
    case TxTypeForceTransfer =>
      CreditNeverLacksFunds(Debit(mode, map[], p, L1View(t)).p.st, tx.toIdx, t.effectiveAmount.value);
    case TxTypeForceExit =>
    case TxTypeCreateAccountDeposit =>
      CreateNeverLacksFunds(p.st, p.st.currentIdx + 1, NewAccount(tx, t.effectiveDepositAmount.value));
    case TxTypeCreateAccountDepositTransfer =>
      var acc := NewAccount(tx, t.effectiveDepositAmount.value - t.effectiveAmount.value);
      CreateNeverLacksFunds(p.st, p.st.currentIdx + 1, acc);
      CreditNeverLacksFunds(CreateAccount(p.st, p.st.currentIdx + 1, acc).st, tx.toIdx, t.effectiveAmount.value);
    case _ =>
      if tx.fromIdx in p.st.accounts {
        var acc := p.st.accounts[tx.fromIdx];
        var after := acc.(balance := acc.balance + t.effectiveDepositAmount.value - t.effectiveAmount.value);
        CreditNeverLacksFunds(UpdateAccount(p.st, tx.fromIdx, after).st, tx.toIdx, t.effectiveAmount.value);
      }
  }

  /** Such an exit: a balance of 3, a deposit of 5, and 5 to take out. */
  lemma UncoveredExitIsRefused()
    ensures var acc := Account(0, 0, 3, EMPTY_BJJ, FF_ADDR);
            var st := State(map[256 := acc], 256, map[], map[]);
            var tx := L1Tx(0, true, 256, FF_ADDR, EMPTY_BJJ, EXIT_IDX, 0, 5, 5, None, None, TxTypeForceExit);
            && Valid(st) && L1Type(tx) == Ok(tx.txType)
            && UncoveredExit(st, tx)
            && L1Step(Synchronizer, Proc(st, map[], map[], map[]), tx).err == Some(NotEnoughBalance)
  {
    var acc := Account(0, 0, 3, EMPTY_BJJ, FF_ADDR);
    var st := State(map[256 := acc], 256, map[], map[]);
    var tx := L1Tx(0, true, 256, FF_ADDR, EMPTY_BJJ, EXIT_IDX, 0, 5, 5, None, None, TxTypeForceExit);
    assert st.accounts[256] == acc;
    LacksFundsIff(Synchronizer, Proc(st, map[], map[], map[]), tx);
  }

  lemma FromIdxExists(st: State, tx: L1Tx)
    ensures UncoveredExit(st, tx) ==> tx.fromIdx in st.accounts && tx.txType == TxTypeForceExit
  {
  }

  /** What the contract guarantees of an L1 tx: its type, accounts that exist, no stray amounts. */
  predicate WellFormedL1(st: State, tx: L1Tx) {
    && L1Type(tx) == Ok(tx.txType)
    && (tx.fromIdx != 0 ==> GetAccount(st, tx.fromIdx).Ok?)
    && (tx.toIdx >= USER_THRESHOLD ==> GetAccount(st, tx.toIdx).Ok?)
    && (tx.txType == TxTypeDeposit ==> tx.amount == 0)
    && (tx.txType == TxTypeForceExit ==> tx.depositAmount == 0)
  }

  /**
   A well-formed L1 tx that the batch can encode is only ever refused for a value that no leaf
   can hold: never for lack of funds, never for a missing account.
   */
  lemma WellFormedL1Succeeds(mode: Mode, p: Proc, tx: L1Tx)
    requires ValidProc(p) && WellFormedL1(p.st, tx)
    requires mode == BatchBuilder ==> EncodableL1(tx)
    ensures L1Step(mode, p, tx).err in {None, Some(NumOverflow)}
  {
    hide Effective, EncodableL1, Valid, SetIdxByEthAddrBJJ;
    EffectiveIsCovered(p.st, tx);
    NextIdxIsFree(p.st);
    var t := WithEffective(p.st, tx);
    SetIdxKeepsAll(p.st);
    match tx.txType
    case TxTypeForceTransfer =>
      DebitSucceeds(mode, p, L1View(t));
    case TxTypeForceExit =>
      assert !UncoveredExit(p.st, tx);
      DebitSucceeds(mode, p, L1View(t));
    case _ =>
  }

  lemma SetIdxKeepsAll(st: State)
    ensures forall s: State, i, acc :: SetIdxByEthAddrBJJ(s, i, acc).accounts == s.accounts
  {
  }

  lemma NextIdxIsFree(st: State)
    requires Valid(st)
    ensures st.currentIdx + 1 !in st.accounts
  {
  }

  lemma DebitSucceeds(mode: Mode, p: Proc, tx: Tx)
    requires tx.isL1 && GetAccount(p.st, tx.fromIdx).Ok? && tx.amount <= p.st.accounts[tx.fromIdx].balance
    ensures Debit(mode, map[], p, tx).err in {None, Some(NumOverflow)}
    ensures Debit(mode, map[], p, tx).p.st.accounts.Keys == p.st.accounts.Keys
  {
  }

  /** A nonzero amount only moves between accounts of the token that the tx names. */
  lemma MovesOwnToken(st: State, tx: L1Tx)
    requires WellFormedL1(st, tx) && UsesAmount(tx.txType) && Effective(st, tx).1 > 0
    ensures tx.fromIdx != 0 ==>
              st.accounts[tx.fromIdx].tokenID == tx.tokenID && st.accounts[tx.fromIdx].ethAddr == tx.fromEthAddr
    ensures tx.toIdx >= USER_THRESHOLD ==> st.accounts[tx.toIdx].tokenID == tx.tokenID
    ensures tx.userOrigin && Effective(st, tx) == (tx.depositAmount, tx.amount)
  {
  }
}
