/**
 The engine that applies a batch to a StateDB (txprocessor/txprocessor.go, txprocessor/utils.go).
 Its methods work in place on shared account objects; each is proved to compute what module
 Effects says, and to keep `updatedAccounts` the exact difference to the batch's first state.
 */
module TxProcessor {
  import opened Wrappers
  import opened Common
  import opened Effects
  import Ledger
  import Fees
  import Float40
  import opened StateDB
  import opened Batch

  /** The intermediate states of the circuit inputs (common/zk.go), one slot per tx but the last. */
  class ZKInputs {
    const isOutIdx: array<Idx>
    const isStateRoot: array<Root>
    const isAccFeeOut: array<seq<nat>>
    var feePlanTokens: seq<TokenID>
    ghost const Repr: set<object>

    ghost predicate Valid()
      reads this
    {
      && Repr == {this, isOutIdx, isStateRoot, isAccFeeOut}
      && isOutIdx.Length == isStateRoot.Length == isAccFeeOut.Length
    }

    ghost function Slots(): (s: seq<Intermediate>)
      requires Valid()
      reads Repr
      ensures |s| == isOutIdx.Length
    {
      seq(isOutIdx.Length, j requires 0 <= j < isOutIdx.Length reads Repr =>
        (isOutIdx[j], isStateRoot[j], isAccFeeOut[j]))
    }

    constructor (maxTx: nat, maxFeeTx: nat)
      requires maxTx > 0
      ensures Valid() && fresh(Repr)
      ensures |Slots()| == maxTx - 1 && NoFeeRows(Slots(), maxFeeTx, 0)
      ensures feePlanTokens == seq(maxFeeTx, _ => 0)
    {
      var outIdx := new Idx[maxTx - 1](_ => 0);
      var stateRoot := new Root[maxTx - 1](_ => map[]);
      var accFeeOut := new seq<nat>[maxTx - 1](_ => seq(maxFeeTx, _ => 0));
      isOutIdx, isStateRoot, isAccFeeOut := outIdx, stateRoot, accFeeOut;
      feePlanTokens := seq(maxFeeTx, _ => 0);
      Repr := {this, outIdx, stateRoot, accFeeOut};
    }

    method SetState(j: nat, idx: Idx, root: Root)
      requires Valid() && j < isOutIdx.Length
      modifies isOutIdx, isStateRoot
      ensures Slots() == old(Slots())[j := (idx, root, old(Slots())[j].2)]
    {
      isOutIdx[j] := idx;
      isStateRoot[j] := root;
    }

    method SetFees(j: nat, row: seq<nat>)
      requires Valid() && j < isOutIdx.Length
      modifies isAccFeeOut
      ensures Slots() == old(Slots())[j := (old(Slots())[j].0, old(Slots())[j].1, row)]
    {
      isAccFeeOut[j] := row;
    }
  }

  class TxProcessor {
    const mode: Mode
    const config: Config
    const state: StateDB
    // The exit tree of the batch; stays empty in the selector, which has none.
    var exitTree: map<Idx, Account>
    var accumulatedFees: map<Idx, nat>
    var collectedFees: map<TokenID, nat>
    var updatedAccounts: map<Idx, AccountCell>
    var txIndex: nat
    var zki: ZKInputs?
    // The accounts before the first tx of the batch.
    ghost var base: map<Idx, Account>

    constructor (mode: Mode, state: StateDB, config: Config)
      ensures this.mode == mode && this.state == state && this.config == config
      ensures exitTree == map[] && accumulatedFees == map[] && collectedFees == map[]
      ensures updatedAccounts == map[] && txIndex == 0 && zki == null
      ensures base == state.content.accounts
    {
      this.mode := mode;
      this.state := state;
      this.config := config;
      exitTree := map[];
      accumulatedFees := map[];
      collectedFees := map[];
      updatedAccounts := map[];
      txIndex := 0;
      zki := null;
      base := state.content.accounts;
    }

    function View(): Proc
      reads this, state
    {
      Proc(state.content, exitTree, accumulatedFees, collectedFees)
    }

    /** Account `i` is in `updatedAccounts` as it is stored now, or is what it was in `base`. */
    ghost predicate Entry(i: Idx)
      reads `updatedAccounts, `base, state`content, if i in updatedAccounts then {updatedAccounts[i]} else {}
    {
      if i in updatedAccounts then
        && i in state.content.accounts
        && updatedAccounts[i].idx == i
        && updatedAccounts[i].Value() == state.content.accounts[i]
      else
        && (i in base <==> i in state.content.accounts)
        && (i in base ==> base[i] == state.content.accounts[i])
    }

    /** `updatedAccounts` is the exact difference to `base`; only the synchronizer tracks it. */
    ghost predicate Tracked()
      reads `updatedAccounts, `base, state`content, updatedAccounts.Values
    {
      mode == Synchronizer ==> forall i: Idx :: Entry(i)
    }

    /** The same for every account but `idx`, whose object `account` may be ahead of the store. */
    ghost predicate TrackedBut(idx: Idx, account: AccountCell)
      reads `updatedAccounts, `base, state`content, updatedAccounts.Values
    {
      mode == Synchronizer ==> forall i: Idx :: i != idx ==>
        Entry(i) && (i in updatedAccounts ==> updatedAccounts[i] != account)
    }

    /** An object that is fresh, or already stands for `idx`, stands for no other index. */
    lemma OnlyFor(idx: Idx, account: AccountCell)
      requires Tracked() && (mode == Synchronizer ==> account.idx == idx)
      ensures TrackedBut(idx, account)
    {
      if mode == Synchronizer {
        forall i: Idx | i != idx
          ensures Entry(i) && (i in updatedAccounts ==> updatedAccounts[i] != account)
        {
          assert Entry(i);
        }
      }
    }

    /** Moves the balance of the object that stands for `idx`; the store is not updated yet. */
    method AddBalance(idx: Idx, account: AccountCell, amount: int)
      requires Tracked() && (mode == Synchronizer ==> account.idx == idx)
      modifies account`balance
      ensures account.Value() == old(account.Value()).(balance := old(account.balance) + amount)
      ensures TrackedBut(idx, account)
    {
      OnlyFor(idx, account);
      account.balance := account.balance + amount;
    }

    method CreateAccount(idx: Idx, account: AccountCell) returns (err: Option<Error>)
      requires TrackedBut(idx, account)
      modifies `updatedAccounts, state`content, account`idx
      ensures Ledger.Outcome(state.content, err) == Ledger.CreateAccount(old(state.content), idx, account.Value())
      ensures err.None? ==> idx <= MAX_IDX && state.content.currentIdx == old(state.content.currentIdx)
      ensures err.None? ==> idx in state.content.accounts && state.content.accounts[idx] == account.Value()
      ensures updatedAccounts == if mode == Synchronizer then old(updatedAccounts)[idx := account] else old(updatedAccounts)
      ensures account.idx == if mode == Synchronizer then idx else old(account.idx)
      ensures err.None? ==> Tracked()
    {
      if mode == Synchronizer {
        account.idx := idx;
        updatedAccounts := updatedAccounts[idx := account];
      }
      err := state.CreateAccount(idx, account);
      assert err.None? && mode == Synchronizer ==> forall i: Idx :: i != idx ==> old(Entry(i)) ==> Entry(i);
    }

    method UpdateAccount(idx: Idx, account: AccountCell) returns (err: Option<Error>)
      requires TrackedBut(idx, account)
      modifies `updatedAccounts, state`content, account`idx
      ensures Ledger.Outcome(state.content, err) == Ledger.UpdateAccount(old(state.content), idx, account.Value())
      ensures updatedAccounts == if mode == Synchronizer then old(updatedAccounts)[idx := account] else old(updatedAccounts)
      ensures account.idx == if mode == Synchronizer then idx else old(account.idx)
      ensures err.None? ==> Tracked()
    {
      if mode == Synchronizer {
        account.idx := idx;
        updatedAccounts := updatedAccounts[idx := account];
      }
      err := state.UpdateAccount(idx, account);
      assert err.None? && mode == Synchronizer ==> forall i: Idx :: i != idx ==> old(Entry(i)) ==> Entry(i);
    }

    method NextIdx()
      requires Tracked()
      modifies state`content
      ensures state.content == old(state.content).(currentIdx := old(state.content.currentIdx) + 1)
      ensures Tracked()
    {
      state.SetCurrentIdx(state.content.currentIdx + 1);
      assert mode == Synchronizer ==> forall i: Idx :: old(Entry(i)) ==> Entry(i);
    }

    method ComputeEffectiveAmounts(tx: L1Tx) returns (t: L1Tx)
      ensures t == WithEffective(state.content, tx)
    {
      t := tx.(effectiveAmount := Some(tx.amount), effectiveDepositAmount := Some(tx.depositAmount));
      if !tx.userOrigin {
        return t.(effectiveAmount := Some(0), effectiveDepositAmount := Some(0));
      }
      if tx.txType == TxTypeCreateAccountDeposit {
        return;
      }
      if tx.toIdx >= USER_THRESHOLD && tx.fromIdx == 0 {
        if tx.depositAmount < tx.amount {
          return t.(effectiveAmount := Some(0));
        }
        var receiver := state.GetAccount(tx.toIdx);
        if receiver.Err? {
          return t.(effectiveDepositAmount := Some(0), effectiveAmount := Some(0));
        }
        if tx.tokenID != receiver.value.tokenID {
          return t.(effectiveAmount := Some(0));
        }
        return;
      }
      var sender := state.GetAccount(tx.fromIdx);
      if sender.Err? {
        return t.(effectiveDepositAmount := Some(0), effectiveAmount := Some(0));
      }
      if tx.tokenID != sender.value.tokenID {
        return t.(effectiveDepositAmount := Some(0), effectiveAmount := Some(0));
      }
      var bal := sender.value.balance + tx.depositAmount;
      if bal < tx.amount {
        return t.(effectiveAmount := Some(0));
      }
      if tx.fromEthAddr != sender.value.ethAddr {
        t := t.(effectiveAmount := Some(0));
      }
      if tx.toIdx == EXIT_IDX || tx.toIdx == 0 {
        return;
      }
      var receiver := state.GetAccount(tx.toIdx);
      if receiver.Err? {
        return t.(effectiveDepositAmount := Some(0), effectiveAmount := Some(0));
      }
      if sender.value.tokenID != receiver.value.tokenID {
        return t.(effectiveAmount := Some(0));
      }
      // The sender's token is the tx's, so comparing the receiver's with it once more cannot fail.
    }

    method ApplyCreateAccount(tx: L1Tx) returns (err: Option<Error>)
      requires Tracked() && tx.effectiveDepositAmount.Some?
      modifies `updatedAccounts, state`content
      ensures Ledger.Outcome(state.content, err)
              == CreateDeposit(old(state.content), tx, tx.effectiveDepositAmount.value)
      ensures err.None? ==> Tracked()
      ensures fresh(updatedAccounts.Values - old(updatedAccounts.Values))
    {
      hide Entry, Tracked, TrackedBut;
      hide Ledger.CreateAccount;
      var account := new AccountCell(state.content.currentIdx + 1, NewAccount(tx, tx.effectiveDepositAmount.value));
      OnlyFor(state.content.currentIdx + 1, account);
      err := CreateAccount(state.content.currentIdx + 1, account);
      if err.Some? {
        return;
      }
      NextIdx();
    }

    method ApplyDeposit(tx: L1Tx, transfer: bool) returns (err: Option<Error>)
      requires Tracked() && tx.effectiveDepositAmount.Some? && tx.effectiveAmount.Some?
      modifies `updatedAccounts, state`content
      ensures Ledger.Outcome(state.content, err)
              == Deposit(old(state.content), tx, tx.effectiveDepositAmount.value, tx.effectiveAmount.value, transfer)
      ensures err.None? ==> Tracked()
      ensures fresh(updatedAccounts.Values - old(updatedAccounts.Values))
    {
      hide Entry, Tracked, TrackedBut;
      var r := state.GetAccount(tx.fromIdx);
      if r.Err? {
        return Some(r.error);
      }
      var accSender := r.value;
      accSender.balance := accSender.balance + tx.effectiveDepositAmount.value;
      accSender.balance := accSender.balance - tx.effectiveAmount.value;
      if accSender.balance < 0 {
        return Some(NotEnoughBalance);
      }
      OnlyFor(tx.fromIdx, accSender);
      err := UpdateAccount(tx.fromIdx, accSender);
      if err.Some? || !transfer {
        return;
      }
      var accReceiver := accSender;
      if tx.toIdx != tx.fromIdx {
        r := state.GetAccount(tx.toIdx);
        if r.Err? {
          return Some(r.error);
        }
        accReceiver := r.value;
      }
      AddBalance(tx.toIdx, accReceiver, tx.effectiveAmount.value);
      err := UpdateAccount(tx.toIdx, accReceiver);
    }

    method ApplyCreateAccountDepositTransfer(tx: L1Tx) returns (err: Option<Error>)
      requires Tracked() && tx.effectiveDepositAmount.Some? && tx.effectiveAmount.Some?
      modifies `updatedAccounts, state`content
      ensures Ledger.Outcome(state.content, err)
              == CreateDepositTransfer(old(state.content), tx, tx.effectiveDepositAmount.value, tx.effectiveAmount.value)
      ensures err.None? ==> Tracked()
      ensures fresh(updatedAccounts.Values - old(updatedAccounts.Values))
    {
      hide Entry, Tracked, TrackedBut;
      hide Ledger.CreateAccount;
      var auxFromIdx := state.content.currentIdx + 1;
      var accSender := new AccountCell(auxFromIdx, NewAccount(tx, tx.effectiveDepositAmount.value));
      accSender.balance := accSender.balance - tx.effectiveAmount.value;
      if accSender.balance < 0 {
        return Some(NotEnoughBalance);
      }
      OnlyFor(auxFromIdx, accSender);
      err := CreateAccount(state.content.currentIdx + 1, accSender);
      if err.Some? {
        return;
      }
      ghost var created := state.content;
      var accReceiver := accSender;
      if tx.toIdx != auxFromIdx {
        var r := state.GetAccount(tx.toIdx);
        if r.Err? {
          return Some(r.error);
        }
        accReceiver := r.value;
      }
      AddBalance(tx.toIdx, accReceiver, tx.effectiveAmount.value);
      err := UpdateAccount(tx.toIdx, accReceiver);
      assert Ledger.Outcome(state.content, err) == Credit(created, tx.toIdx, tx.effectiveAmount.value);
      if err.Some? {
        return;
      }
      NextIdx();
    }

    /** Takes amount and fee from the sender object, and counts up its nonce for an L2 tx. */
    method ChargeSender(accSender: AccountCell, tx: Tx) returns (err: Option<Error>, fee: nat)
      modifies accSender`nonce, accSender`balance
      ensures match Charge(old(accSender.Value()), tx)
              case Ok((acc, f)) => err == None && accSender.Value() == acc && fee == f
              case Err(e) => err == Some(e)
    {
      fee := 0;
      if !tx.isL1 {
        accSender.nonce := accSender.nonce + 1;
        var r := Fees.CalcFeeAmount(tx.amount, tx.fee);
        if r.Err? {
          return Some(r.error), 0;
        }
        fee := r.value;
        var feeAndAmount := tx.amount + fee;
        accSender.balance := accSender.balance - feeAndAmount;
      } else {
        accSender.balance := accSender.balance - tx.amount;
      }
      err := if accSender.balance < 0 then Some(NotEnoughBalance) else None;
    }

    /** Credits a fee to the running totals of the coordinator account of the token, if there is one. */
    method AccumulateFee(coordIdxsMap: map<TokenID, Idx>, token: TokenID, fee: nat) returns (err: Option<Error>)
      requires CoordsMatch(coordIdxsMap)
      modifies `accumulatedFees, `collectedFees
      ensures err == if token in coordIdxsMap && Ledger.GetAccount(state.content, coordIdxsMap[token]).Err?
                     then Some(NoCoordAccount) else None
      ensures View() == if err.Some? then old(View()) else Accrue(mode, coordIdxsMap, old(View()), token, fee)
    {
      if token in coordIdxsMap {
        var r := state.GetAccount(coordIdxsMap[token]);
        if r.Err? {
          return Some(NoCoordAccount);
        }
        var accCoord := r.value;
        accumulatedFees := accumulatedFees[accCoord.idx := At(accumulatedFees, accCoord.idx) + fee];
        if mode != TxSelector {
          collectedFees := collectedFees[accCoord.tokenID := At(collectedFees, accCoord.tokenID) + fee];
        }
      }
      return None;
    }

    /** The part that transfers and exits share: charge the sender, account for the fee, store. */
    method DebitSender(coordIdxsMap: map<TokenID, Idx>, tx: Tx) returns (err: Option<Error>, accSender: AccountCell)
      requires Tracked() && CoordsMatch(coordIdxsMap)
      modifies `updatedAccounts, `accumulatedFees, `collectedFees, state`content
      ensures Step(View(), err, None) == Debit(mode, coordIdxsMap, old(View()), tx)
      ensures err.None? ==> Tracked() && fresh(accSender) && accSender.idx == tx.fromIdx
      ensures err.None? ==> tx.fromIdx in state.content.accounts
                            && accSender.Value() == state.content.accounts[tx.fromIdx]
      ensures fresh(updatedAccounts.Values - old(updatedAccounts.Values))
    {
      hide Charge, Accrue;
      hide Entry, Tracked, TrackedBut;
      accSender := new AccountCell(0, Account(0, 0, 0, EMPTY_BJJ, EMPTY_ADDR));
      var r := state.GetAccount(tx.fromIdx);
      if r.Err? {
        return Some(r.error), accSender;
      }
      accSender := r.value;
      var token := accSender.tokenID;
      var fee;
      err, fee := ChargeSender(accSender, tx);
      if err.Some? {
        return;
      }
      if !tx.isL1 {
        err := AccumulateFee(coordIdxsMap, token, fee);
        if err.Some? {
          return;
        }
      }
      OnlyFor(tx.fromIdx, accSender);
      err := UpdateAccount(tx.fromIdx, accSender);
    }

    /** Each coordinator account of the map holds the token it is listed for. */
    ghost predicate CoordsMatch(coords: map<TokenID, Idx>)
      reads state
    {
      forall t :: t in coords && coords[t] in state.content.accounts ==>
        state.content.accounts[coords[t]].tokenID == t
    }

    method ApplyTransfer(coordIdxsMap: map<TokenID, Idx>, tx: Tx, toIdx: Idx) returns (err: Option<Error>)
      requires Tracked() && CoordsMatch(coordIdxsMap)
      modifies `updatedAccounts, `accumulatedFees, `collectedFees, state`content
      ensures Step(View(), err, None) == Transfer(mode, coordIdxsMap, old(View()), tx, toIdx)
      ensures err.None? ==> Tracked()
      ensures fresh(updatedAccounts.Values - old(updatedAccounts.Values))
    {
      hide Debit;
      hide Entry, Tracked, TrackedBut;
      ghost var d := Debit(mode, coordIdxsMap, View(), tx);
      var auxToIdx := toIdx;
      if auxToIdx == 0 {
        auxToIdx := tx.toIdx;
      }
      var accSender;
      err, accSender := DebitSender(coordIdxsMap, tx);
      if err.Some? {
        return;
      }
      var accReceiver := accSender;
      if auxToIdx != tx.fromIdx {
        var r := state.GetAccount(auxToIdx);
        if r.Err? {
          return Some(r.error);
        }
        accReceiver := r.value;
      }
      AddBalance(auxToIdx, accReceiver, tx.amount);
      err := UpdateAccount(auxToIdx, accReceiver);
      assert Ledger.Outcome(state.content, err) == Credit(d.p.st, auxToIdx, tx.amount);
    }

    method ApplyExit(coordIdxsMap: map<TokenID, Idx>, tx: Tx, originalAmount: nat)
      returns (err: Option<Error>, exit: Option<(Idx, Account)>)
      requires Tracked() && CoordsMatch(coordIdxsMap)
      modifies `updatedAccounts, `accumulatedFees, `collectedFees, `exitTree, state`content
      ensures Step(View(), err, exit) == Exit(mode, coordIdxsMap, old(View()), tx, originalAmount)
      ensures err.None? ==> Tracked()
      ensures fresh(updatedAccounts.Values - old(updatedAccounts.Values))
    {
      var acc;
      err, acc := DebitSender(coordIdxsMap, tx);
      exit := None;
      if err.Some? || mode == TxSelector || originalAmount == 0 {
        return;
      }
      var leaf: Account;
      if tx.fromIdx !in exitTree {
        leaf := Account(acc.tokenID, 0, tx.amount, acc.bjj, acc.ethAddr);
      } else {
        leaf := exitTree[tx.fromIdx];
        leaf := leaf.(balance := leaf.balance + tx.amount);
      }
      if leaf.nonce > MAX_NONCE || leaf.balance >= BALANCE_LIMIT {
        return Some(NumOverflow), None;
      }
      exitTree := exitTree[tx.fromIdx := leaf];
      exit := Some((tx.fromIdx, leaf));
    }

    method ProcessL1Tx(tx: L1Tx) returns (err: Option<Error>, exit: Option<(Idx, Account)>, t: L1Tx)
      requires Tracked()
      modifies `updatedAccounts, `accumulatedFees, `collectedFees, `exitTree, state`content
      ensures Step(View(), err, exit) == L1Step(mode, old(View()), tx)
      ensures err.None? ==> t == WithEffective(old(state.content), tx)
      ensures err.None? ==> Tracked()
      ensures fresh(updatedAccounts.Values - old(updatedAccounts.Values))
    {
      hide Entry, Tracked, TrackedBut;
      hide Transfer, Exit, Deposit, CreateDeposit, CreateDepositTransfer, Effective, Float40.Encode;
      exit := None;
      t := tx;
      if mode == BatchBuilder {
        if tx.fromIdx > MAX_IDX || tx.toIdx > MAX_IDX {
          return Some(NotEncodable), None, t;
        }
        var deposit := Float40.NewFloat40(tx.depositAmount);
        if deposit.Err? {
          return Some(NotEncodable), None, t;
        }
        if UsesAmount(tx.txType) {
          var amount := Float40.NewFloat40(tx.amount);
          if amount.Err? {
            return Some(NotEncodable), None, t;
          }
        }
      }
      t := ComputeEffectiveAmounts(tx);
      match tx.txType {
        case TxTypeForceTransfer =>
          err := ApplyTransfer(map[], L1View(t), 0);
        case TxTypeCreateAccountDeposit =>
          err := ApplyCreateAccount(t);
        case TxTypeDeposit =>
          err := ApplyDeposit(t, false);
        case TxTypeDepositTransfer =>
          err := ApplyDeposit(t, true);
        case TxTypeCreateAccountDepositTransfer =>
          err := ApplyCreateAccountDepositTransfer(t);
        case TxTypeForceExit =>
          err, exit := ApplyExit(map[], L1View(t), tx.amount);
        case _ =>
          err := None;
      }
    }

    method ProcessL2Tx(coordIdxsMap: map<TokenID, Idx>, tx: PoolL2Tx)
      returns (err: Option<Error>, exit: Option<(Idx, Account)>, t: PoolL2Tx)
      requires Tracked() && CoordsMatch(coordIdxsMap)
      modifies `updatedAccounts, `accumulatedFees, `collectedFees, `exitTree, state`content
      ensures Step(View(), err, exit) == L2Step(mode, coordIdxsMap, old(View()), tx)
      ensures t == L2Filled(mode, old(state.content), tx) || (mode == BatchBuilder && err.Some?)
      ensures err.None? ==> Tracked()
      ensures fresh(updatedAccounts.Values - old(updatedAccounts.Values))
    {
      hide Entry, Tracked, TrackedBut;
      hide Transfer, Exit, BuilderCheck, Ledger.GetIdxByEthAddrBJJ;
      exit := None;
      t := tx;
      if tx.toIdx == 0 && tx.auxToIdx == 0 {
        if mode == Synchronizer {
          return Some(SynchronizerToIdxZero), None, t;
        }
        var sender := state.GetAccount(tx.fromIdx);
        if sender.Err? {
          return Some(sender.error), None, t;
        }
        var idx := Ledger.GetIdxByEthAddrBJJ(state.content, tx.toEthAddr, tx.toBJJ, sender.value.tokenID);
        if idx.Err? {
          return Some(idx.error), None, t;
        }
        t := t.(auxToIdx := idx.value);
      }
      if mode == BatchBuilder {
        var check := BuilderCheck(t);
        if check.Some? {
          return check, None, t;
        }
      }
      if mode == Synchronizer {
        var acc := state.GetAccount(t.fromIdx);
        if acc.Err? {
          return Some(acc.error), None, t;
        }
        t := t.(nonce := acc.value.nonce, tokenID := acc.value.tokenID);
      }
      match t.txType {
        case TxTypeTransfer | TxTypeTransferToEthAddr | TxTypeTransferToBJJ =>
          err := ApplyTransfer(coordIdxsMap, L2View(t), t.auxToIdx);
        case TxTypeExit =>
          err, exit := ApplyExit(coordIdxsMap, L2View(t), t.amount);
        case _ =>
          err := None;
      }
    }

    method CheckEnoughBalance(tx: PoolL2Tx) returns (ok: bool)
      ensures ok == EnoughBalance(state.content, tx)
    {
      var acc := state.GetAccount(tx.fromIdx);
      if acc.Err? {
        return false;
      }
      var fee := Fees.CalcFeeAmount(tx.amount, tx.fee);
      if fee.Err? {
        return false;
      }
      var feeAndAmount := tx.amount + fee.value;
      return acc.value.balance >= feeAndAmount;
    }

    // ---- Whole batches ----

    /** The batch builder has circuit inputs, with a slot for every tx but the last; the others have none. */
    ghost predicate ZkiReady()
      reads `zki, zki
    {
      if mode == BatchBuilder then
        config.maxTx > 0 && zki != null && zki.Valid() && zki.isOutIdx.Length == config.maxTx - 1
      else zki == null
    }

    ghost function ZkiRepr(): set<object>
      reads `zki, zki
    {
      if zki == null then {} else zki.Repr
    }

    ghost function Slots(): seq<Intermediate>
      requires ZkiReady()
      reads `zki, zki, ZkiRepr()
    {
      if zki == null then [] else zki.Slots()
    }

    /** An L1 tx as the n-th one of a batch. */
    method ProcessBatchL1(n: nat, tx: L1Tx) returns (err: Option<Error>, exit: Option<(Idx, Account)>)
      requires Tracked() && ZkiReady() && (mode == BatchBuilder ==> txIndex == n)
      modifies `updatedAccounts, `accumulatedFees, `collectedFees, `exitTree, state`content, ZkiRepr() - {zki}
      ensures var s := L1BatchStep(mode, config, old(View()), n, tx);
              View() == s.p && err == s.err && (err.None? ==> exit == s.exit)
      ensures err.None? ==> Tracked()
      ensures ZkiReady()
      ensures mode != BatchBuilder ==> Slots() == old(Slots())
      ensures mode == BatchBuilder && err.None? ==> n < |Slots()|
      ensures mode == BatchBuilder && err.None? ==>
        Slots() == old(Slots())[n := (state.content.currentIdx, state.content.accounts, old(Slots())[n].2)]
      ensures fresh(updatedAccounts.Values - old(updatedAccounts.Values))
    {
      hide Entry, Tracked, TrackedBut;
      hide L1Step, Effective, PublishableL1;
      var t;
      err, exit, t := ProcessL1Tx(tx);
      if err.Some? || mode != BatchBuilder {
        return;
      }
      if !PublishableL1(t) {
        return Some(NotEncodable), None;
      }
      if txIndex >= zki.isOutIdx.Length {
        return Some(IndexOutOfRange), None;
      }
      zki.SetState(txIndex, state.content.currentIdx, state.content.accounts);
    }

    /** The same, as a step of the run: the witness grows with the ledger. */
    method StepL1(ghost run: Run, n: nat, tx: L1Tx) returns (err: Option<Error>, exit: Option<(Idx, Account)>)
      requires run.mode == mode && run.cfg == config && n < |run.l1| && tx == run.l1[n]
      requires View() == run.After(n).p && run.After(n).err == None && Tracked()
      requires ZkiReady() && (mode == BatchBuilder ==> txIndex == n)
      requires Witness(Slots(), run, n) && NoFeeRows(Slots(), config.maxFeeTx, n)
      modifies `updatedAccounts, `accumulatedFees, `collectedFees, `exitTree, state`content, ZkiRepr() - {zki}
      ensures View() == run.After(n + 1).p && err == run.After(n + 1).err && ZkiReady()
      ensures err.None? ==> Tracked() && exit == run.After(n + 1).exit
      ensures err.None? ==> Witness(Slots(), run, n + 1) && NoFeeRows(Slots(), config.maxFeeTx, n + 1)
      ensures fresh(updatedAccounts.Values - old(updatedAccounts.Values))
    {
      hide Entry, Tracked, TrackedBut;
      hide L1BatchStep, Run.After, Run.SlotAfter;
      ghost var slots := Slots();
      AfterL1Tx(run, n);
      err, exit := ProcessBatchL1(n, tx);
      if mode == BatchBuilder && err.None? {
        L1TxFillsSlot(slots, run, n, state.content);
      }
    }

    /** Only the synchronizer reports the accounts that are created. */
    method RecordCreated(before: seq<(Idx, Account)>, tx: L1Tx) returns (created: seq<(Idx, Account)>)
      ensures mode == Synchronizer ==> created == before + CreatedBy(tx, state.content)
    {
      created := before;
      if mode == Synchronizer && Creates(tx.txType) {
        var acc := state.GetAccount(state.content.currentIdx);
        if acc.Ok? {
          created := created + [(acc.value.idx, acc.value.Value())];
        }
      }
    }

    method ProcessL1UserTxs(ghost run: Run, l1User: seq<L1Tx>)
      returns (err: Option<Error>, created: seq<(Idx, Account)>, exits: seq<Option<(Idx, Account)>>)
      requires run.mode == mode && run.cfg == config && l1User <= run.l1
      requires View() == Start(run.st) && Tracked() && txIndex == 0
      requires ZkiReady() && NoFeeRows(Slots(), config.maxFeeTx, 0)
      modifies `updatedAccounts, `accumulatedFees, `collectedFees, `exitTree, `txIndex
      modifies state`content, ZkiRepr() - {zki}
      ensures View() == run.After(|l1User|).p && err == run.After(|l1User|).err
      ensures err.None? ==> Tracked()
      ensures ZkiReady()
      ensures err.None? ==> Witness(Slots(), run, |l1User|) && NoFeeRows(Slots(), config.maxFeeTx, |l1User|)
      ensures err.None? && mode == Synchronizer ==> created == run.CreatedAccounts(|l1User|)
      ensures err.None? ==> exits == run.Exits(0, |l1User|)
      ensures err.None? && mode != TxSelector ==> txIndex == |l1User|
      ensures fresh(updatedAccounts.Values - old(updatedAccounts.Values))
    {
      hide Entry, Tracked, TrackedBut;
      hide Run.After, Run.SlotAfter, CreatedBy;
      hide Witness, NoFeeRows;
      err := None;
      created := [];
      exits := [];
      AfterNothing(run);
      assert Witness(Slots(), run, 0) by { WitnessNothing(Slots(), run); }
      assert |l1User| <= |run.l1|;
      for i := 0 to |l1User|
        invariant View() == run.After(i).p && err == None == run.After(i).err
        invariant Tracked() && ZkiReady()
        invariant Witness(Slots(), run, i) && NoFeeRows(Slots(), config.maxFeeTx, i)
        invariant mode == Synchronizer ==> created == run.CreatedAccounts(i)
        invariant exits == run.Exits(0, i)
        invariant mode != TxSelector ==> txIndex == i
        invariant fresh(updatedAccounts.Values - old(updatedAccounts.Values))
      {
        var exit;
        err, exit := StepL1(run, i, l1User[i]);
        if err.Some? {
          AfterFails(run, i + 1, |l1User|);
          return;
        }
        created := RecordCreated(created, l1User[i]);
        exits := exits + [exit];
        if mode != TxSelector {
          txIndex := txIndex + 1;
        }
      }
    }

    method ProcessL1CoordinatorTxs(ghost run: Run, nUser: nat, l1Coord: seq<L1Tx>, before: seq<(Idx, Account)>)
      returns (err: Option<Error>, created: seq<(Idx, Account)>)
      requires run.mode == mode && run.cfg == config
      requires nUser + |l1Coord| == |run.l1| && l1Coord == run.l1[nUser..]
      requires View() == run.After(nUser).p && run.After(nUser).err == None && Tracked()
      requires mode == BatchBuilder ==> txIndex == nUser
      requires mode == Synchronizer ==> before == run.CreatedAccounts(nUser)
      requires ZkiReady() && Witness(Slots(), run, nUser) && NoFeeRows(Slots(), config.maxFeeTx, nUser)
      modifies `updatedAccounts, `accumulatedFees, `collectedFees, `exitTree, `txIndex
      modifies state`content, ZkiRepr() - {zki}
      ensures View() == run.After(|run.l1|).p && err == run.After(|run.l1|).err
      ensures err.None? ==> Tracked()
      ensures ZkiReady()
      ensures err.None? ==> Witness(Slots(), run, |run.l1|)
      ensures err.None? && mode == Synchronizer ==> created == run.CreatedAccounts(|run.l1|)
      ensures mode != BatchBuilder ==> txIndex == old(txIndex)
      ensures err.None? && mode == BatchBuilder ==> txIndex == |run.l1|
      ensures fresh(updatedAccounts.Values - old(updatedAccounts.Values))
    {
      hide Entry, Tracked, TrackedBut;
      hide Run.After, Run.SlotAfter, CreatedBy;
      hide Witness, NoFeeRows;
      err := None;
      created := before;
      for i := 0 to |l1Coord|
        invariant View() == run.After(nUser + i).p && err == None == run.After(nUser + i).err
        invariant Tracked() && ZkiReady()
        invariant Witness(Slots(), run, nUser + i) && NoFeeRows(Slots(), config.maxFeeTx, nUser + i)
        invariant mode == Synchronizer ==> created == run.CreatedAccounts(nUser + i)
        invariant mode != BatchBuilder ==> txIndex == old(txIndex)
        invariant mode == BatchBuilder ==> txIndex == nUser + i
        invariant fresh(updatedAccounts.Values - old(updatedAccounts.Values))
      {
        var exit;
        err, exit := StepL1(run, nUser + i, l1Coord[i]);
        if err.Some? {
          AfterFails(run, nUser + i + 1, |run.l1|);
          return;
        }
        created := RecordCreated(created, l1Coord[i]);
        if mode == BatchBuilder {
          txIndex := txIndex + 1;
        }
      }
    }

    /** Removes the indexes whose token already had one. */
    method FilterCoordIdxs(coordIdxs: seq<Idx>) returns (r: Result<seq<Idx>, Error>)
      ensures r == FirstPerToken(state.content, coordIdxs)
    {
      var usedCoordTokenIDs := {};
      var filtered := [];
      for i := 0 to |coordIdxs|
        invariant FirstPerToken(state.content, coordIdxs[..i]) == Ok(filtered)
        invariant CoordMap(state.content, coordIdxs[..i]).Ok?
        invariant usedCoordTokenIDs == CoordMap(state.content, coordIdxs[..i]).value.Keys
      {
        assert coordIdxs[..i + 1][..i] == coordIdxs[..i];
        var acc := state.GetAccount(coordIdxs[i]);
        if acc.Err? {
          FirstPerTokenFails(state.content, coordIdxs, i + 1);
          return Err(acc.error);
        }
        if acc.value.tokenID !in usedCoordTokenIDs {
          filtered := filtered + [coordIdxs[i]];
        }
        usedCoordTokenIDs := usedCoordTokenIDs + {acc.value.tokenID};
      }
      assert coordIdxs[..|coordIdxs|] == coordIdxs;
      return Ok(filtered);
    }

    /** The fees collected for the tokens of the coordinator accounts, padded to the number of fee slots. */
    method FormatAccumulatedFees(nCoords: nat) returns (accFeeOut: seq<nat>)
      requires zki != null && nCoords <= |zki.feePlanTokens|
      ensures accFeeOut == FeeRow(collectedFees, zki.feePlanTokens[..nCoords], |zki.feePlanTokens|)
    {
      var row := new nat[|zki.feePlanTokens|](_ => 0);
      for i := 0 to nCoords
        invariant forall j :: 0 <= j < row.Length ==>
          row[j] == if j < i then At(collectedFees, zki.feePlanTokens[j]) else 0
      {
        var tokenID := zki.feePlanTokens[i];
        if tokenID in collectedFees {
          row[i] := collectedFees[tokenID];
        }
      }
      return row[..];
    }

    /** The circuit inputs list the token of every coordinator account, zeros after them. */
    ghost predicate FeePlanReady(run: Run)
      requires ZkiReady()
      reads `zki, zki
    {
      mode == BatchBuilder ==>
        && |run.Idxs()| <= |zki.feePlanTokens| == config.maxFeeTx
        && zki.feePlanTokens[..|run.Idxs()|] == run.FeeTokens()
    }

    /** Writes the current state and the fees so far into slot `j`. */
    method Record(ghost run: Run, j: nat, nCoords: nat)
      requires ZkiReady() && mode == BatchBuilder && j < zki.isOutIdx.Length
      requires run.cfg == config && nCoords == |run.Idxs()| && FeePlanReady(run)
      modifies ZkiRepr() - {zki}
      ensures ZkiReady() && FeePlanReady(run)
      ensures Slots() == old(Slots())[j := run.WitnessSlot(View())]
    {
      hide Run.Idxs, Run.FeeTokens;
      zki.SetState(j, state.content.currentIdx, state.content.accounts);
      var row := FormatAccumulatedFees(nCoords);
      zki.SetFees(j, row);
    }

    /** An L2 tx as a step of the run. */
    method StepL2(ghost run: Run, i: nat, tx: PoolL2Tx, coordIdxsMap: map<TokenID, Idx>)
      returns (err: Option<Error>, exit: Option<(Idx, Account)>, t: PoolL2Tx)
      requires run.mode == mode && run.cfg == config && i < |run.l2| && tx == run.l2[i]
      requires coordIdxsMap == run.Coords() && CoordsMatch(coordIdxsMap)
      requires View() == run.AfterL2(i).p && run.AfterL2(i).err == None && Tracked()
      modifies `updatedAccounts, `accumulatedFees, `collectedFees, `exitTree, state`content
      ensures View() == run.AfterL2(i + 1).p && err == run.AfterL2(i + 1).err && CoordsMatch(coordIdxsMap)
      ensures err.None? ==> Tracked() && exit == run.After(|run.l1| + i + 1).exit
      ensures err.None? ==> t == L2Filled(mode, run.AfterL2(i).p.st, tx)
      ensures fresh(updatedAccounts.Values - old(updatedAccounts.Values))
    {
      hide Entry, Tracked, TrackedBut;
      hide L2Step, L2Filled, Run.AfterL2, Run.After, Run.Coords;
      AfterL2Tx(run, i);
      L2StepKeepsOwners(mode, coordIdxsMap, View(), tx);
      err, exit, t := ProcessL2Tx(coordIdxsMap, tx);
    }

    /** After `i` L2 txs every slot up to the last tx processed is filled, except the last one's of all. */
    ghost predicate L2Witness(run: Run, i: nat)
      requires ZkiReady() && i <= |run.l2|
      reads `zki, zki, ZkiRepr()
    {
      Witness(Slots(), run, if i < |run.l2| || i == 0 then |run.l1| + i else run.Size() - 1)
    }

    /** Fills the slot of the i-th L2 tx, unless it is the last tx of the batch. */
    method RecordL2(ghost run: Run, i: nat, nTx: nat, nCoords: nat)
      requires run.mode == mode && run.cfg == config && i < |run.l2| && nTx == run.Size()
      requires ZkiReady() && nCoords == |run.Idxs()| && FeePlanReady(run)
      requires mode == BatchBuilder ==> txIndex == |run.l1| + i && nTx <= config.maxTx
      requires View() == run.AfterL2(i + 1).p && L2Witness(run, i)
      modifies ZkiRepr() - {zki}
      ensures ZkiReady() && FeePlanReady(run)
      ensures L2Witness(run, i + 1)
    {
      hide Run.AfterL2, Run.After, Run.Idxs, Run.WitnessSlot;
      if mode == BatchBuilder && txIndex < nTx - 1 {
        L2TxFillsSlot(Slots(), run, i);
        Record(run, txIndex, nCoords);
      }
    }

    /** Everything that holds between two L2 txs. */
    ghost predicate AtL2(run: Run, i: nat)
      requires i <= |run.l2|
      reads this, state, zki, ZkiRepr(), updatedAccounts.Values
    {
      && run.mode == mode && run.cfg == config
      && View() == run.AfterL2(i).p && run.AfterL2(i).err == None
      && CoordsMatch(run.Coords()) && Tracked()
      && ZkiReady() && FeePlanReady(run) && L2Witness(run, i)
      && (mode == BatchBuilder ==> txIndex == |run.l1| + i && run.Size() <= config.maxTx)
    }

    method NextL2(ghost run: Run, i: nat, tx: PoolL2Tx, coordIdxsMap: map<TokenID, Idx>, nTx: nat, nCoords: nat)
      returns (err: Option<Error>, exit: Option<(Idx, Account)>)
      requires i < |run.l2| && tx == run.l2[i] && nTx == run.Size()
      requires coordIdxsMap == run.Coords() && nCoords == |run.Idxs()|
      requires AtL2(run, i)
      modifies `updatedAccounts, `accumulatedFees, `collectedFees, `exitTree, `txIndex
      modifies state`content, ZkiRepr() - {zki}
      ensures err == run.AfterL2(i + 1).err && View() == run.AfterL2(i + 1).p
      ensures err.None? ==> AtL2(run, i + 1) && exit == run.After(|run.l1| + i + 1).exit
      ensures ZkiReady()
      ensures fresh(updatedAccounts.Values - old(updatedAccounts.Values))
    {
      hide Entry, Tracked, TrackedBut;
      hide L2Step, L2Filled, Run.AfterL2, Run.After, Run.Coords, Run.Idxs, Run.WitnessSlot, FeePlanReady, L2Witness;
      var t;
      err, exit, t := StepL2(run, i, tx, coordIdxsMap);
      if err.Some? {
        return;
      }
      RecordL2(run, i, nTx, nCoords);
      if mode != TxSelector {
        txIndex := txIndex + 1;
      }
    }

    method ProcessL2Txs(ghost run: Run, l2: seq<PoolL2Tx>, coordIdxsMap: map<TokenID, Idx>, nTx: nat, nCoords: nat)
      returns (err: Option<Error>, exits: seq<Option<(Idx, Account)>>)
      requires l2 == run.l2 && nTx == run.Size()
      requires coordIdxsMap == run.Coords() && nCoords == |run.Idxs()|
      requires AtL2(run, 0)
      modifies `updatedAccounts, `accumulatedFees, `collectedFees, `exitTree, `txIndex
      modifies state`content, ZkiRepr() - {zki}
      ensures err == run.AfterL2(|l2|).err && View() == run.AfterL2(|l2|).p
      ensures err.None? ==> AtL2(run, |l2|) && exits == run.Exits(|run.l1|, nTx)
      ensures ZkiReady()
      ensures fresh(updatedAccounts.Values - old(updatedAccounts.Values))
    {
      hide Run.AfterL2, Run.After, Run.Coords, Run.Idxs;
      err := None;
      exits := [];
      for i := 0 to |l2|
        invariant err.None? && AtL2(run, i)
        invariant exits == run.Exits(|run.l1|, |run.l1| + i)
        invariant fresh(updatedAccounts.Values - old(updatedAccounts.Values))
      {
        var exit;
        err, exit := NextL2(run, i, l2[i], coordIdxsMap, nTx, nCoords);
        if err.Some? {
          AfterL2Fails(run, i + 1);
          return;
        }
        exits := exits + [exit];
      }
    }

    /** Fills the slots from the last tx's on with the final state. */
    method PadWitness(ghost run: Run, nTx: nat, nCoords: nat)
      requires mode == BatchBuilder && nTx == run.Size() && nCoords == |run.Idxs()|
      requires AtL2(run, |run.l2|)
      modifies ZkiRepr() - {zki}
      ensures ZkiReady() && FullWitness(Slots(), run)
    {
      hide Entry, Tracked, TrackedBut;
      hide Run.AfterL2, Run.After, Run.Coords, Run.Idxs, Run.WitnessSlot, Run.FeeTokens;
      FinalSlot(run);
      var last: nat := if txIndex == 0 then 0 else txIndex - 1;
      for i := last to config.maxTx
        invariant ZkiReady() && FeePlanReady(run)
        invariant forall j: nat :: j < i && j < |Slots()| ==>
          Slots()[j] == run.SlotAfter(if j < run.Size() then j + 1 else run.Size())
      {
        if i < config.maxTx - 1 {
          Record(run, i, nCoords);
        }
      }
    }

    method PayFee(idx: Idx, fee: nat) returns (err: Option<Error>)
      requires Tracked()
      modifies `updatedAccounts, state`content
      ensures Ledger.Outcome(state.content, err) == Credit(old(state.content), idx, fee)
      ensures err.None? ==> Tracked()
      ensures fresh(updatedAccounts.Values - old(updatedAccounts.Values))
    {
      hide Entry, Tracked, TrackedBut;
      var r := state.GetAccount(idx);
      if r.Err? {
        return Some(r.error);
      }
      var accCoord := r.value;
      AddBalance(idx, accCoord, fee);
      err := UpdateAccount(idx, accCoord);
    }

    /** Pays each coordinator account what was accumulated for it, even when that is nothing. */
    method DistributeFees(coordIdxs: seq<Idx>) returns (err: Option<Error>)
      requires Tracked()
      modifies `updatedAccounts, state`content
      ensures Ledger.Outcome(state.content, err) == Distribute(old(state.content), coordIdxs, accumulatedFees)
      ensures err.None? ==> Tracked()
      ensures fresh(updatedAccounts.Values - old(updatedAccounts.Values))
    {
      hide Entry, Tracked, TrackedBut, Credit;
      err := None;
      for i := 0 to |coordIdxs|
        invariant err == None && Tracked()
        invariant Ledger.Outcome(state.content, None) == Distribute(old(state.content), coordIdxs[..i], accumulatedFees)
        invariant fresh(updatedAccounts.Values - old(updatedAccounts.Values))
      {
        assert coordIdxs[..i + 1][..i] == coordIdxs[..i];
        err := PayFee(coordIdxs[i], At(accumulatedFees, coordIdxs[i]));
        if err.Some? {
          DistributeFails(old(state.content), coordIdxs, accumulatedFees, i + 1);
          return;
        }
      }
      assert coordIdxs[..|coordIdxs|] == coordIdxs;
    }

    /** Starts counting fees for the coordinator accounts, one per token. */
    method StartFees(coordIdxs: seq<Idx>, coordIdxsMap: map<TokenID, Idx>)
      requires Tracked()
      modifies `accumulatedFees, `collectedFees
      ensures View() == StartL2(mode, old(View()), coordIdxs, coordIdxsMap)
    {
      accumulatedFees := map i | i in coordIdxs :: 0;
      collectedFees := map[];
      if mode != TxSelector {
        collectedFees := map t | t in coordIdxsMap :: 0;
      }
    }

    /** Lists the token of each coordinator account in the circuit inputs. */
    method ListFeePlanTokens(ghost run: Run, coordIdxs: seq<Idx>) returns (err: Option<Error>)
      requires run.mode == mode && run.cfg == config && ZkiReady() && mode == BatchBuilder
      requires coordIdxs == run.Idxs() && |coordIdxs| <= config.maxFeeTx == |zki.feePlanTokens|
      requires state.content == run.AfterL1().p.st
      modifies zki`feePlanTokens
      ensures ZkiReady() && Slots() == old(Slots())
      ensures err.None? ==> FeePlanReady(run)
      ensures err.Some? <==> exists i :: i in coordIdxs && Ledger.GetAccount(state.content, i).Err?
    {
      hide Run.Idxs, Run.AfterL1;
      var tokens: seq<TokenID> := [];
      for i := 0 to |coordIdxs|
        invariant |tokens| == i && zki.feePlanTokens == old(zki.feePlanTokens)
        invariant forall j :: 0 <= j < i ==> Ledger.GetAccount(state.content, coordIdxs[j]).Ok?
        invariant forall j :: 0 <= j < i ==> tokens[j] == state.content.accounts[coordIdxs[j]].tokenID
      {
        var acc := state.GetAccount(coordIdxs[i]);
        if acc.Err? {
          return Some(acc.error);
        }
        tokens := tokens + [acc.value.tokenID];
      }
      zki.feePlanTokens := tokens + zki.feePlanTokens[|tokens|..];
      assert tokens == run.FeeTokens();
      return None;
    }

    /** Empty exit tree, no fees, nothing updated; fresh circuit inputs for the batch builder. */
    method BeginBatch()
      requires zki == null && txIndex == 0
      requires mode == BatchBuilder ==> config.maxTx > 0
      modifies this
      ensures View() == Start(old(state.content)) && Tracked() && txIndex == 0
      ensures base == old(state.content.accounts) && updatedAccounts == map[]
      ensures ZkiReady() && NoFeeRows(Slots(), config.maxFeeTx, 0) && fresh(ZkiRepr())
      ensures zki != null ==> |zki.feePlanTokens| == config.maxFeeTx
    {
      exitTree := map[];
      accumulatedFees := map[];
      collectedFees := map[];
      updatedAccounts := map[];
      base := state.content.accounts;
      if mode == BatchBuilder {
        zki := new ZKInputs(config.maxTx, config.maxFeeTx);
      }
      assert mode == Synchronizer ==> forall i: Idx :: Entry(i);
    }

    /** Between the L1 and the L2 txs: picks the coordinator accounts and starts counting fees. */
    method ChooseCoordinators(ghost run: Run, coordIdxs: seq<Idx>)
      returns (err: Option<Error>, idxs: seq<Idx>, coordIdxsMap: map<TokenID, Idx>)
      requires run.mode == mode && run.cfg == config && coordIdxs == run.coordIdxs
      requires View() == run.AfterL1().p && run.AfterL1().err == None && Tracked()
      requires ZkiReady() && Witness(Slots(), run, |run.l1|)
      requires |coordIdxs| <= config.maxFeeTx && (zki != null ==> |zki.feePlanTokens| == config.maxFeeTx)
      requires mode == BatchBuilder ==> txIndex == |run.l1| && run.Size() <= config.maxTx
      modifies `accumulatedFees, `collectedFees, ZkiRepr()
      ensures err == match FirstPerToken(run.AfterL1().p.st, coordIdxs)
                     case Err(e) => Some(e)
                     case Ok(_) => None
      ensures err.Some? ==> View() == run.AfterL1().p
      ensures err.None? ==> idxs == run.Idxs() && coordIdxsMap == run.Coords() && AtL2(run, 0)
      ensures ZkiReady() && ZkiRepr() == old(ZkiRepr())
    {
      hide Entry, Tracked, TrackedBut, RunL1, RunL2, FirstPerToken, CoordMap;
      hide Run.AfterL1, Run.AfterL2, Run.Idxs, Run.Coords, StartL2, Run.FeeTokens;
      idxs, coordIdxsMap := [], map[];
      var r := FilterCoordIdxs(coordIdxs);
      if r.Err? {
        return Some(r.error), idxs, coordIdxsMap;
      }
      idxs := r.value;
      Coordinators(run);
      var m := state.GetTokenIDsFromIdxs(idxs);
      coordIdxsMap := m.value;
      BeforeL2(run);
      StartFees(idxs, coordIdxsMap);
      assert CoordsMatch(coordIdxsMap);
      assert View() == run.AfterL2(0).p;
      err := None;
      if mode == BatchBuilder {
        err := ListFeePlanTokens(run, idxs);
      }
    }

    /** The L1 txs and the choice of the coordinator accounts. */
    method ApplyL1(ghost run: Run, l1User: seq<L1Tx>, l1Coord: seq<L1Tx>, coordIdxs: seq<Idx>)
      returns (err: Option<Error>, created: seq<(Idx, Account)>, exits: seq<Option<(Idx, Account)>>,
               idxs: seq<Idx>, coordIdxsMap: map<TokenID, Idx>)
      requires run.mode == mode && run.cfg == config && run.l1 == l1User + l1Coord && coordIdxs == run.coordIdxs
      requires |coordIdxs| <= config.maxFeeTx && run.Size() <= config.maxTx
      requires View() == Start(run.st) && Tracked() && txIndex == 0
      requires ZkiReady() && NoFeeRows(Slots(), config.maxFeeTx, 0)
      requires zki != null ==> |zki.feePlanTokens| == config.maxFeeTx
      modifies `updatedAccounts, `accumulatedFees, `collectedFees, `exitTree, `txIndex
      modifies state`content, ZkiRepr()
      ensures err.Some? ==> View() == BatchStep(run).p && err == BatchStep(run).err
      ensures err.None? ==> AtL2(run, 0) && idxs == run.Idxs() && coordIdxsMap == run.Coords()
      ensures err.None? ==> run.AfterL1().err == None && FirstPerToken(run.AfterL1().p.st, run.coordIdxs).Ok?
      ensures err.None? && mode == Synchronizer ==> created == run.CreatedAccounts(|run.l1|)
      ensures err.None? ==> exits == run.Exits(0, |l1User|)
      ensures ZkiReady() && ZkiRepr() == old(ZkiRepr())
      ensures fresh(updatedAccounts.Values - old(updatedAccounts.Values))
    {
      hide Entry, Tracked, TrackedBut, RunL1, RunL2, FirstPerToken, CoordMap, Distribute, AtL2;
      hide Run.AfterL1, Run.AfterL2, Run.Idxs, Run.Coords, StartL2, Run.After;
      hide Witness, NoFeeRows, Run.Exits, Run.CreatedAccounts;
      exits, idxs, coordIdxsMap := [], [], map[];
      AfterAllL1(run);
      err, created, exits := ProcessL1UserTxs(run, l1User);
      if err.Some? {
        AfterFails(run, |l1User|, |run.l1|);
        return;
      }
      err, created := ProcessL1CoordinatorTxs(run, |l1User|, l1Coord, created);
      if err.Some? {
        return;
      }
      err, idxs, coordIdxsMap := ChooseCoordinators(run, coordIdxs);
    }

    /** The L2 txs and the distribution of their fees. */
    method ApplyL2(ghost run: Run, l2: seq<PoolL2Tx>, idxs: seq<Idx>, coordIdxsMap: map<TokenID, Idx>, nTx: nat)
      returns (err: Option<Error>, exits: seq<Option<(Idx, Account)>>, collected: map<TokenID, nat>)
      requires l2 == run.l2 && idxs == run.Idxs() && coordIdxsMap == run.Coords() && nTx == run.Size()
      requires run.AfterL1().err == None && FirstPerToken(run.AfterL1().p.st, run.coordIdxs).Ok?
      requires AtL2(run, 0)
      modifies `updatedAccounts, `accumulatedFees, `collectedFees, `exitTree, `txIndex
      modifies state`content, ZkiRepr() - {zki}
      ensures state.content == BatchStep(run).p.st && err == BatchStep(run).err
      ensures err.None? ==> Tracked()
      ensures err.None? ==> exits == run.Exits(|run.l1|, run.Size()) && collected == run.AfterL2(|run.l2|).p.collected
      ensures ZkiReady()
      ensures err.None? && mode == BatchBuilder ==> FullWitness(Slots(), run)
      ensures fresh(updatedAccounts.Values - old(updatedAccounts.Values))
    {
      hide Entry, Tracked, TrackedBut, RunL1, RunL2, FirstPerToken, CoordMap, Distribute;
      hide Run.AfterL1, Run.AfterL2, Run.Idxs, Run.Coords, Run.After, Run.Exits;
      hide FullWitness, FeePlanReady, L2Witness, CoordsMatch;
      err, exits := ProcessL2Txs(run, l2, coordIdxsMap, nTx, |idxs|);
      collected := collectedFees;
      if err.Some? {
        return;
      }
      if mode == BatchBuilder {
        PadWitness(run, nTx, |idxs|);
      }
      err := DistributeFees(idxs);
    }

    /** Everything between the check of sizes and the checkpoint. */
    method ApplyBatch(ghost run: Run, l1User: seq<L1Tx>, l1Coord: seq<L1Tx>, coordIdxs: seq<Idx>, l2: seq<PoolL2Tx>)
      returns (err: Option<Error>, out: Output)
      requires run == RunOf(mode, config, state.content, coordIdxs, l1User, l1Coord, l2)
      requires |coordIdxs| <= config.maxFeeTx && run.Size() <= config.maxTx
      requires View() == Start(run.st) && Tracked() && txIndex == 0
      requires ZkiReady() && NoFeeRows(Slots(), config.maxFeeTx, 0)
      requires zki != null ==> |zki.feePlanTokens| == config.maxFeeTx
      modifies `updatedAccounts, `accumulatedFees, `collectedFees, `exitTree, `txIndex
      modifies state`content, ZkiRepr()
      ensures state.content == BatchStep(run).p.st && err == BatchStep(run).err
      ensures err.None? ==> Tracked()
      ensures err.None? && mode == Synchronizer ==> out == OutputOf(run, |l1User|)
      ensures ZkiReady() && ZkiRepr() == old(ZkiRepr())
      ensures err.None? && mode == BatchBuilder ==> FullWitness(Slots(), run)
      ensures fresh(updatedAccounts.Values - old(updatedAccounts.Values))
    {
      hide Entry, Tracked, FullWitness, BatchStep, AtL2, NoFeeRows, Start, ExitInfos, Run.Exits, Run.CreatedAccounts;
      hide Run.AfterL1, Run.AfterL2, Run.Idxs, Run.Coords, FirstPerToken;
      out := Output([], [], map[], map[]);
      var created, exits, idxs, coordIdxsMap;
      err, created, exits, idxs, coordIdxsMap := ApplyL1(run, l1User, l1Coord, coordIdxs);
      if err.None? {
        var l2Exits, collected;
        err, l2Exits, collected := ApplyL2(run, l2, idxs, coordIdxsMap, |l1User| + |l1Coord| + |l2|);
        var exitInfos := CollectExitInfos(exits + l2Exits);
        out := Output(exitInfos, created, coordIdxsMap, collected);
      }
    }

    /**
     Applies a batch. The synchronizer reports exits, created accounts, fees and updated accounts;
     the batch builder fills the circuit inputs. On success the StateDB makes a checkpoint.
     */
    method ProcessTxs(coordIdxs: seq<Idx>, l1User: seq<L1Tx>, l1Coord: seq<L1Tx>, l2: seq<PoolL2Tx>)
      returns (err: Option<Error>, out: Output, inputs: ZKInputs?)
      requires zki == null && txIndex == 0
      requires mode == BatchBuilder ==> config.maxTx > 0
      modifies this, state
      ensures zki == null && txIndex == 0
      ensures var s := Effects.ProcessTxs(mode, config, old(state.content), coordIdxs, l1User, l1Coord, l2);
              state.content == s.p.st && err == s.err
      ensures err.None? ==> base == old(state.content.accounts) && Tracked()
      ensures err.None? && mode == Synchronizer ==>
        out == OutputOf(RunOf(mode, config, old(state.content), coordIdxs, l1User, l1Coord, l2), |l1User|)
      ensures err.None? && mode == BatchBuilder ==>
        && inputs != null && fresh(inputs) && inputs.Valid() && |inputs.Slots()| == config.maxTx - 1
        && FullWitness(inputs.Slots(), RunOf(mode, config, old(state.content), coordIdxs, l1User, l1Coord, l2))
      ensures fresh(updatedAccounts.Values - old(updatedAccounts.Values))
      ensures state.currentBatch == if err.None? then old(state.currentBatch) + 1 else old(state.currentBatch)
      ensures state.checkpoints ==
        if err.None? then old(state.checkpoints)[state.currentBatch := state.content] else old(state.checkpoints)
    {
      hide Entry, Tracked, FullWitness, BatchStep, AtL2, NoFeeRows, Start, OutputOf;
      hide Effects.ProcessTxs;
      inputs, out := null, Output([], [], map[], map[]);
      if TooMany(config, |coordIdxs|, |l1User| + |l1Coord|, |l2|) {
        TooManyFails(mode, config, state.content, coordIdxs, l1User, l1Coord, l2);
        return Some(TooManyTxs), out, null;
      }
      ghost var run := RunOf(mode, config, state.content, coordIdxs, l1User, l1Coord, l2);
      ProcessTxsIsRun(mode, config, state.content, coordIdxs, l1User, l1Coord, l2);
      BeginBatch();
      err, out := ApplyBatch(run, l1User, l1Coord, coordIdxs, l2);
      if err.None? {
        inputs := zki;
        state.MakeCheckpoint();
      }
      zki, txIndex := null, 0;
    }
  }

  /** One entry per account that exited, in the order of first exits, with its final exit balance. */
  method CollectExitInfos(exits: seq<Option<(Idx, Account)>>) returns (infos: seq<(Idx, int)>)
    ensures infos == ExitInfos(exits)
  {
    var exitIdxs := [];
    var exitInfosByIdx := map[];
    for i := 0 to |exits|
      invariant exitIdxs == ExitOrder(exits[..i])
      invariant exitInfosByIdx == LastLeaf(exits[..i])
    {
      assert exits[..i + 1][..i] == exits[..i];
      ExitOrderKeys(exits[..i]);
      if exits[i].Some? {
        var (exitIdx, exitAccount) := exits[i].value;
        if exitIdx !in exitInfosByIdx {
          exitIdxs := exitIdxs + [exitIdx];
        }
        exitInfosByIdx := exitInfosByIdx[exitIdx := exitAccount];
      }
    }
    assert exits[..|exits|] == exits;
    ExitOrderKeys(exits);
    infos := [];
    for i := 0 to |exitIdxs|
      invariant infos == ExitInfos(exits)[..i]
    {
      assert exitIdxs[i] in ExitOrder(exits);
      infos := infos + [(exitIdxs[i], exitInfosByIdx[exitIdxs[i]].balance)];
    }
  }
}
