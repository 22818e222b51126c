/**
 The effect of pool txs and account creations on the ledger alone. Creations commute with the
 pool txs that were executed before them, so creating all accounts first gives the same ledger.
 */
module Replay {
  import opened Wrappers
  import opened Common
  import opened Ledger
  import opened Effects
  import opened Funds
  import opened Conservation
  import Fees

  function Pay(st: State, tx: Tx, to: Option<Idx>): Outcome {
    match GetAccount(st, tx.fromIdx)
    case Err(e) => Outcome(st, Some(e))
    case Ok(acc) =>
      match Charge(acc, tx)
      case Err(e) => Outcome(st, Some(e))
      case Ok((charged, _)) =>
        var o := UpdateAccount(st, tx.fromIdx, charged);
        if o.err.Some? || to.None? then o else Credit(o.st, to.value, tx.amount)
  }

  function ReceiverOf(tx: PoolL2Tx): Option<Idx> {
    if IsL2Transfer(tx.txType) then Some(Receiver(L2View(tx), tx.auxToIdx)) else None
  }

  /** The ledger after a pool tx whose receiver has been looked up. */
  function L2Effect(st: State, tx: PoolL2Tx): Outcome {
    if IsL2Transfer(tx.txType) || tx.txType == TxTypeExit then Pay(st, L2View(tx), ReceiverOf(tx)) else Outcome(st, None)
  }

  function L2Effects(st: State, txs: seq<PoolL2Tx>): Outcome {
    if txs == [] then Outcome(st, None)
    else
      var n := |txs| - 1;
      var o := L2Effects(st, txs[..n]);
      if o.err.Some? then o else L2Effect(o.st, txs[n])
  }

  /** The ledger after a list of account creations. */
  function Creations(st: State, txs: seq<L1Tx>): Outcome {
    if txs == [] then Outcome(st, None)
    else
      var n := |txs| - 1;
      var o := Creations(st, txs[..n]);
      if o.err.Some? then o else CreateDeposit(o.st, txs[n], 0)
  }

  // ---- The ledger of a step is its effect ----

  lemma TransferIsPay(mode: Mode, coords: map<TokenID, Idx>, p: Proc, tx: Tx, auxToIdx: Idx)
    requires Transfer(mode, coords, p, tx, auxToIdx).err == None
    ensures Pay(p.st, tx, Some(Receiver(tx, auxToIdx))) == Outcome(Transfer(mode, coords, p, tx, auxToIdx).p.st, None)
  {
    hide Charge, UpdateAccount, Credit;
  }

  lemma ExitIsPay(mode: Mode, coords: map<TokenID, Idx>, p: Proc, tx: Tx, requested: nat)
    requires Exit(mode, coords, p, tx, requested).err == None
    ensures Pay(p.st, tx, None) == Outcome(Exit(mode, coords, p, tx, requested).p.st, None)
  {
    hide Charge, UpdateAccount, Fits, ExitLeaf;
  }

  lemma StepIsEffect(mode: Mode, coords: map<TokenID, Idx>, p: Proc, tx: PoolL2Tx)
    requires L2Step(mode, coords, p, tx).err == None
    ensures L2Effect(p.st, L2Filled(mode, p.st, tx)) == Outcome(L2Step(mode, coords, p, tx).p.st, None)
  {
    hide Transfer, Exit, Pay, BuilderCheck, GetIdxByEthAddrBJJ;
    var t := Resolve(mode, p.st, tx).value;
    if IsL2Transfer(tx.txType) {
      TransferIsPay(mode, coords, p, L2View(t), t.auxToIdx);
    } else if tx.txType == TxTypeExit {
      ExitIsPay(mode, coords, p, L2View(t), t.amount);
    }
  }

  lemma PayKeepsOwners(st: State, tx: Tx, to: Option<Idx>)
    ensures SameOwners(st, Pay(st, tx, to).st)
  {
    hide Charge, UpdateAccount, Credit;
    if GetAccount(st, tx.fromIdx).Ok? {
      var acc := st.accounts[tx.fromIdx];
      ChargeKeepsOwner(acc, tx);
      if Charge(acc, tx).Ok? {
        UpdateKeepsOwners(st, tx.fromIdx, Charge(acc, tx).value.0);
        if to.Some? {
          CreditKeepsOwners(UpdateAccount(st, tx.fromIdx, Charge(acc, tx).value.0).st, to.value, tx.amount);
        }
      }
    }
  }

  lemma EffectKeepsOwners(st: State, tx: PoolL2Tx)
    ensures SameOwners(st, L2Effect(st, tx).st)
  {
    hide Pay;
    PayKeepsOwners(st, L2View(tx), ReceiverOf(tx));
  }

  lemma {:induction false} EffectsKeepOwners(st: State, txs: seq<PoolL2Tx>)
    ensures SameOwners(st, L2Effects(st, txs).st)
  {
    hide L2Effect;
    if txs != [] {
      var n := |txs| - 1;
      EffectsKeepOwners(st, txs[..n]);
      EffectKeepsOwners(L2Effects(st, txs[..n]).st, txs[n]);
    }
  }

  // ---- Creations come first ----

  /** The next account can be created. */
  predicate Room(st: State) {
    st.currentIdx + 1 !in st.accounts && st.currentIdx + 1 <= MAX_IDX
  }

  lemma CreateSucceedsIff(st: State, c: L1Tx)
    ensures CreateDeposit(st, c, 0).err == None <==> Room(st)
    ensures CreateDeposit(st, c, 0).st.accounts ==
            if Room(st) then st.accounts[st.currentIdx + 1 := NewAccount(c, 0)] else st.accounts
  {
  }

  lemma UpdateCommutes(st: State, c: L1Tx, i: Idx, acc: Account)
    requires Room(st) && i in st.accounts && UpdateAccount(st, i, acc).err == None
    ensures UpdateAccount(CreateDeposit(st, c, 0).st, i, acc)
            == Outcome(CreateDeposit(UpdateAccount(st, i, acc).st, c, 0).st, None)
    ensures Room(UpdateAccount(st, i, acc).st)
  {
    var next := st.currentIdx + 1;
    assert st.accounts[next := NewAccount(c, 0)][i := acc] == st.accounts[i := acc][next := NewAccount(c, 0)];
  }

  lemma CreditCommutes(st: State, c: L1Tx, i: Idx, amount: nat)
    requires Room(st) && Credit(st, i, amount).err == None
    ensures Credit(CreateDeposit(st, c, 0).st, i, amount) == Outcome(CreateDeposit(Credit(st, i, amount).st, c, 0).st, None)
    ensures Room(Credit(st, i, amount).st)
  {
    hide UpdateAccount, CreateDeposit;
    CreateSucceedsIff(st, c);
    var acc := st.accounts[i];
    UpdateCommutes(st, c, i, acc.(balance := acc.balance + amount));
  }

  lemma PayCommutes(st: State, c: L1Tx, tx: Tx, to: Option<Idx>)
    requires Room(st) && Pay(st, tx, to).err == None
    ensures Pay(CreateDeposit(st, c, 0).st, tx, to) == Outcome(CreateDeposit(Pay(st, tx, to).st, c, 0).st, None)
  {
    hide UpdateAccount, CreateDeposit, Charge, Credit, Room;
    CreateSucceedsIff(st, c);
    var acc := st.accounts[tx.fromIdx];
    var charged := Charge(acc, tx).value.0;
    assert GetAccount(CreateDeposit(st, c, 0).st, tx.fromIdx) == Ok(acc) by {
      NotNew(st, tx.fromIdx);
    }
    UpdateCommutes(st, c, tx.fromIdx, charged);
    if to.Some? {
      CreditCommutes(UpdateAccount(st, tx.fromIdx, charged).st, c, to.value, tx.amount);
    }
  }

  lemma NotNew(st: State, i: Idx)
    requires Room(st) && i in st.accounts
    ensures i != st.currentIdx + 1
  {
  }

  lemma SameOwnersSameRoom(s: State, t: State)
    requires SameOwners(s, t)
    ensures Room(s) == Room(t)
  {
  }

  /** An account created after a list of pool txs may as well be created before them. */
  lemma {:induction false} CreationCommutes(st: State, txs: seq<PoolL2Tx>, c: L1Tx)
    requires L2Effects(st, txs).err == None && CreateDeposit(L2Effects(st, txs).st, c, 0).err == None
    ensures CreateDeposit(st, c, 0).err == None
    ensures L2Effects(CreateDeposit(st, c, 0).st, txs) == CreateDeposit(L2Effects(st, txs).st, c, 0)
  {
    hide CreateDeposit, Pay, Room, SameOwners;
    EffectsKeepOwners(st, txs);
    SameOwnersSameRoom(st, L2Effects(st, txs).st);
    CreateSucceedsIff(st, c);
    CreateSucceedsIff(L2Effects(st, txs).st, c);
    if txs != [] {
      var n := |txs| - 1;
      var m := L2Effects(st, txs[..n]).st;
      EffectsKeepOwners(st, txs[..n]);
      SameOwnersSameRoom(st, m);
      CreateSucceedsIff(m, c);
      CreationCommutes(st, txs[..n], c);
      if IsL2Transfer(txs[n].txType) || txs[n].txType == TxTypeExit {
        PayCommutes(m, c, L2View(txs[n]), ReceiverOf(txs[n]));
      }
    }
  }
}
