/**
 What each transaction does to a ledger (txprocessor/txprocessor.go), as total functions. The
 TxProcessor class computes exactly these, and the properties of the engine are proved about them.
 */
module Effects {
  import opened Wrappers
  import opened Common
  import opened Ledger
  import Fees
  import Float40

  datatype Mode = Synchronizer | TxSelector | BatchBuilder

  /** The working state of one batch; `fees` is keyed by coordinator account, `collected` by token. */
  datatype Proc = Proc(st: State, exits: map<Idx, Account>, fees: map<Idx, nat>, collected: map<TokenID, nat>)

  /** The working state after a tx, its error, and the exit leaf it wrote. */
  datatype Step = Step(p: Proc, err: Option<Error>, exit: Option<(Idx, Account)>)

  function At<K>(m: map<K, nat>, k: K): nat {
    if k in m then m[k] else 0
  }

  // ---- Effective amounts of L1 txs ----

  /** The deposit and the amount that an L1 tx is executed with. */
  function Effective(st: State, tx: L1Tx): (nat, nat) {
    if !tx.userOrigin then (0, 0)
    else if tx.txType == TxTypeCreateAccountDeposit then (tx.depositAmount, tx.amount)
    else if tx.toIdx >= USER_THRESHOLD && tx.fromIdx == 0 then
      if tx.depositAmount < tx.amount then (tx.depositAmount, 0)
      else
        match GetAccount(st, tx.toIdx)
        case Err(_) => (0, 0)
        case Ok(receiver) =>
          if tx.tokenID != receiver.tokenID then (tx.depositAmount, 0) else (tx.depositAmount, tx.amount)
    else
      match GetAccount(st, tx.fromIdx)
      case Err(_) => (0, 0)
      case Ok(sender) =>
        if tx.tokenID != sender.tokenID then (0, 0)
        else if sender.balance + tx.depositAmount < tx.amount then (tx.depositAmount, 0)
        else
          var amount := if tx.fromEthAddr != sender.ethAddr then 0 else tx.amount;
          if tx.toIdx == EXIT_IDX || tx.toIdx == 0 then (tx.depositAmount, amount)
          else
            match GetAccount(st, tx.toIdx)
            case Err(_) => (0, 0)
            case Ok(receiver) =>
              if sender.tokenID != receiver.tokenID then (tx.depositAmount, 0) else (tx.depositAmount, amount)
  }

  function WithEffective(st: State, tx: L1Tx): L1Tx {
    var (deposit, amount) := Effective(st, tx);
    tx.(effectiveDepositAmount := Some(deposit), effectiveAmount := Some(amount))
  }

  // ---- Transfers and exits ----

  /** The sender after paying amount and fee, and that fee; L1 txs pay none. */
  function Charge(acc: Account, tx: Tx): Result<(Account, nat), Error> {
    if tx.isL1 then
      if acc.balance - tx.amount < 0 then Err(NotEnoughBalance)
      else Ok((acc.(balance := acc.balance - tx.amount), 0))
    else
      var fee :- Fees.CalcFeeAmount(tx.amount, tx.fee);
      if acc.balance - (tx.amount + fee) < 0 then Err(NotEnoughBalance)
      else Ok((acc.(nonce := acc.nonce + 1, balance := acc.balance - (tx.amount + fee)), fee))
  }

  /** Accounts a fee to the coordinator account that `coords` has for the token, if any. */
  function Accrue(mode: Mode, coords: map<TokenID, Idx>, p: Proc, token: TokenID, fee: nat): Proc {
    if token !in coords then p
    else
      var c := coords[token];
      p.(fees := p.fees[c := At(p.fees, c) + fee],
         collected := if mode == TxSelector then p.collected
                      else p.collected[token := At(p.collected, token) + fee])
  }

  function Debit(mode: Mode, coords: map<TokenID, Idx>, p: Proc, tx: Tx): Step {
    match GetAccount(p.st, tx.fromIdx)
    case Err(e) => Step(p, Some(e), None)
    case Ok(acc) =>
      match Charge(acc, tx)
      case Err(e) => Step(p, Some(e), None)
      case Ok((charged, fee)) =>
        if !tx.isL1 && acc.tokenID in coords && GetAccount(p.st, coords[acc.tokenID]).Err? then
          Step(p, Some(NoCoordAccount), None)
        else
          var p1 := if tx.isL1 then p else Accrue(mode, coords, p, acc.tokenID, fee);
          var o := UpdateAccount(p1.st, tx.fromIdx, charged);
          Step(p1.(st := o.st), o.err, None)
  }

  function Credit(st: State, idx: Idx, amount: nat): Outcome {
    match GetAccount(st, idx)
    case Err(e) => Outcome(st, Some(e))
    case Ok(acc) => UpdateAccount(st, idx, acc.(balance := acc.balance + amount))
  }

  function Receiver(tx: Tx, auxToIdx: Idx): Idx {
    if auxToIdx == 0 then tx.toIdx else auxToIdx
  }

  function Transfer(mode: Mode, coords: map<TokenID, Idx>, p: Proc, tx: Tx, auxToIdx: Idx): Step {
    var d := Debit(mode, coords, p, tx);
    if d.err.Some? then d
    else
      var o := Credit(d.p.st, Receiver(tx, auxToIdx), tx.amount);
      Step(d.p.(st := o.st), o.err, None)
  }

  function ExitLeaf(exits: map<Idx, Account>, idx: Idx, acc: Account, amount: nat): Account {
    if idx in exits then exits[idx].(balance := exits[idx].balance + amount)
    else Account(acc.tokenID, 0, amount, acc.bjj, acc.ethAddr)
  }

  /**
   `requested` is the amount the tx asked for: an exit whose requested amount is not zero writes
   a leaf even when its effective amount is zero. The selector has no exit tree.
   */
  function Exit(mode: Mode, coords: map<TokenID, Idx>, p: Proc, tx: Tx, requested: nat): Step {
    var d := Debit(mode, coords, p, tx);
    if d.err.Some? || mode == TxSelector || requested == 0 then d
    else
      match GetAccount(d.p.st, tx.fromIdx)
      case Err(e) => Step(d.p, Some(e), None)
      case Ok(acc) =>
        var leaf := ExitLeaf(d.p.exits, tx.fromIdx, acc, tx.amount);
        if !Fits(leaf) then Step(d.p, Some(NumOverflow), None)
        else Step(d.p.(exits := d.p.exits[tx.fromIdx := leaf]), None, Some((tx.fromIdx, leaf)))
  }

  // ---- L1 txs ----

  function L1View(tx: L1Tx): Tx
    requires tx.effectiveAmount.Some?
  {
    Tx(true, tx.fromIdx, tx.toIdx, tx.effectiveAmount.value, 0)
  }

  function NewAccount(tx: L1Tx, balance: int): Account {
    Account(tx.tokenID, 0, balance, tx.fromBJJ, tx.fromEthAddr)
  }

  /** A failed creation leaves `currentIdx` alone; so does a failure after the creation. */
  function CreateDeposit(st: State, tx: L1Tx, deposit: nat): Outcome {
    var o := CreateAccount(st, st.currentIdx + 1, NewAccount(tx, deposit));
    if o.err.Some? then o else Outcome(o.st.(currentIdx := st.currentIdx + 1), None)
  }

  function Deposit(st: State, tx: L1Tx, deposit: nat, amount: nat, transfer: bool): Outcome {
    match GetAccount(st, tx.fromIdx)
    case Err(e) => Outcome(st, Some(e))
    case Ok(acc) =>
      var balance := acc.balance + deposit - amount;
      if balance < 0 then Outcome(st, Some(NotEnoughBalance))
      else
        var o := UpdateAccount(st, tx.fromIdx, acc.(balance := balance));
        if o.err.Some? || !transfer then o else Credit(o.st, tx.toIdx, amount)
  }

  function CreateDepositTransfer(st: State, tx: L1Tx, deposit: nat, amount: nat): Outcome {
    if deposit - amount < 0 then Outcome(st, Some(NotEnoughBalance))
    else
      var o := CreateAccount(st, st.currentIdx + 1, NewAccount(tx, deposit - amount));
      if o.err.Some? then o
      else
        var c := Credit(o.st, tx.toIdx, amount);
        if c.err.Some? then c else Outcome(c.st.(currentIdx := st.currentIdx + 1), None)
  }

  predicate UsesAmount(t: TxType) {
    t == TxTypeForceTransfer || t == TxTypeDepositTransfer
    || t == TxTypeCreateAccountDepositTransfer || t == TxTypeForceExit
  }

  /** What the batch builder must be able to encode before an L1 tx is executed ... */
  predicate EncodableL1(tx: L1Tx) {
    && tx.fromIdx <= MAX_IDX && tx.toIdx <= MAX_IDX
    && Float40.Encodable(tx.depositAmount)
    && (UsesAmount(tx.txType) ==> Float40.Encodable(tx.amount))
  }

  /** ... and afterwards, to publish it. */
  predicate PublishableL1(tx: L1Tx) {
    && tx.fromIdx <= MAX_IDX && tx.toIdx <= MAX_IDX
    && Float40.Encodable(tx.depositAmount)
    && Float40.Encodable(tx.amount)
    && (tx.effectiveAmount.Some? ==> Float40.Encodable(tx.effectiveAmount.value))
  }

  /** The state part of an L1 tx other than a forced transfer or exit. */
  function L1Create(st: State, tx: L1Tx, deposit: nat, amount: nat): Outcome {
    match tx.txType
    case TxTypeCreateAccountDeposit => CreateDeposit(st, tx, deposit)
    case TxTypeDeposit => Deposit(st, tx, deposit, amount, false)
    case TxTypeDepositTransfer => Deposit(st, tx, deposit, amount, true)
    case TxTypeCreateAccountDepositTransfer => CreateDepositTransfer(st, tx, deposit, amount)
    case _ => Outcome(st, None)
  }

  function L1Step(mode: Mode, p: Proc, tx: L1Tx): Step {
    if mode == BatchBuilder && !EncodableL1(tx) then Step(p, Some(NotEncodable), None)
    else
      var t := WithEffective(p.st, tx);
      match tx.txType
      case TxTypeForceTransfer => Transfer(mode, map[], p, L1View(t), 0)
      case TxTypeForceExit => Exit(mode, map[], p, L1View(t), tx.amount)
      case _ =>
        var o := L1Create(p.st, t, t.effectiveDepositAmount.value, t.effectiveAmount.value);
        Step(p.(st := o.st), o.err, None)
  }

  // ---- L2 txs ----

  function L2View(tx: PoolL2Tx): Tx {
    Tx(false, tx.fromIdx, tx.toIdx, tx.amount, tx.fee)
  }

  /** The tx with its receiver looked up, when it names an owner instead of an index. */
  function Resolve(mode: Mode, st: State, tx: PoolL2Tx): Result<PoolL2Tx, Error> {
    if tx.toIdx != 0 || tx.auxToIdx != 0 then Ok(tx)
    else if mode == Synchronizer then Err(SynchronizerToIdxZero)
    else
      var sender :- GetAccount(st, tx.fromIdx);
      var idx :- GetIdxByEthAddrBJJ(st, tx.toEthAddr, tx.toBJJ, sender.tokenID);
      Ok(tx.(auxToIdx := idx))
  }

  /** The sender can pay amount and fee. */
  function EnoughBalance(st: State, tx: PoolL2Tx): bool {
    match GetAccount(st, tx.fromIdx)
    case Err(_) => false
    case Ok(acc) =>
      match Fees.CalcFeeAmount(tx.amount, tx.fee)
      case Err(_) => false
      case Ok(fee) => acc.balance >= tx.amount + fee
  }

  /** What the batch builder must encode of an L2 tx; no error means it can. */
  function BuilderCheck(tx: PoolL2Tx): Option<Error> {
    if tx.nonce > MAX_NONCE || tx.toIdx > MAX_IDX || tx.fromIdx > MAX_IDX then Some(NumOverflow)
    else if !Float40.Encodable(tx.amount) then Some(NotEncodable)
    else if tx.rqOffset == 0 then None
    else if tx.rqOffset > 7 then Some(InvalidRqOffset)
    else if tx.rqAmount.Some? && !Float40.Encodable(tx.rqAmount.value) then Some(NotEncodable)
    else if tx.rqNonce > MAX_NONCE || tx.rqToIdx > MAX_IDX || tx.rqFromIdx > MAX_IDX then Some(NumOverflow)
    else None
  }

  /** The tx as ProcessL2Tx leaves it: receiver looked up, nonce and token read back when synchronizing. */
  function L2Filled(mode: Mode, st: State, tx: PoolL2Tx): PoolL2Tx {
    match Resolve(mode, st, tx)
    case Err(_) => tx
    case Ok(t) =>
      if mode == Synchronizer && GetAccount(st, t.fromIdx).Ok? then
        var acc := GetAccount(st, t.fromIdx).value;
        t.(nonce := acc.nonce, tokenID := acc.tokenID)
      else t
  }

  function L2Step(mode: Mode, coords: map<TokenID, Idx>, p: Proc, tx: PoolL2Tx): Step {
    match Resolve(mode, p.st, tx)
    case Err(e) => Step(p, Some(e), None)
    case Ok(t) =>
      if mode == BatchBuilder && BuilderCheck(t).Some? then Step(p, BuilderCheck(t), None)
      else if mode == Synchronizer && GetAccount(p.st, t.fromIdx).Err? then
        Step(p, Some(GetAccount(p.st, t.fromIdx).error), None)
      else if IsL2Transfer(t.txType) then Transfer(mode, coords, p, L2View(t), t.auxToIdx)
      else if t.txType == TxTypeExit then Exit(mode, coords, p, L2View(t), t.amount)
      else Step(p, None, None)
  }

  /** A sender that pays stays the same owner, and does not go below zero. */
  lemma ChargeKeepsOwner(acc: Account, tx: Tx)
    ensures Charge(acc, tx).Ok? ==>
              SameOwner(acc, Charge(acc, tx).value.0) && 0 <= Charge(acc, tx).value.0.balance
  {
    hide Fees.CalcFeeAmount;
  }

  lemma UpdateKeepsOwners(st: State, idx: Idx, acc: Account)
    requires idx in st.accounts && SameOwner(st.accounts[idx], acc)
    ensures SameOwners(st, UpdateAccount(st, idx, acc).st)
  {
  }

  lemma DebitKeepsOwners(mode: Mode, coords: map<TokenID, Idx>, p: Proc, tx: Tx)
    ensures SameOwners(p.st, Debit(mode, coords, p, tx).p.st)
  {
    hide Charge, UpdateAccount, Fits;
    if GetAccount(p.st, tx.fromIdx).Ok? {
      var acc := p.st.accounts[tx.fromIdx];
      ChargeKeepsOwner(acc, tx);
      if Charge(acc, tx).Ok? {
        UpdateKeepsOwners(p.st, tx.fromIdx, Charge(acc, tx).value.0);
      }
    }
  }

  lemma CreditKeepsOwners(st: State, idx: Idx, amount: nat)
    ensures SameOwners(st, Credit(st, idx, amount).st)
  {
  }

  lemma TransferKeepsOwners(mode: Mode, coords: map<TokenID, Idx>, p: Proc, tx: Tx, auxToIdx: Idx)
    ensures SameOwners(p.st, Transfer(mode, coords, p, tx, auxToIdx).p.st)
  {
    hide Debit, Credit;
    DebitKeepsOwners(mode, coords, p, tx);
    CreditKeepsOwners(Debit(mode, coords, p, tx).p.st, Receiver(tx, auxToIdx), tx.amount);
  }

  lemma ExitKeepsOwners(mode: Mode, coords: map<TokenID, Idx>, p: Proc, tx: Tx, requested: nat)
    ensures SameOwners(p.st, Exit(mode, coords, p, tx, requested).p.st)
  {
    hide Debit, ExitLeaf, SameOwners, Fits;
    DebitKeepsOwners(mode, coords, p, tx);
  }

  /** L2 txs create no accounts and change no owners. */
  lemma L2StepKeepsOwners(mode: Mode, coords: map<TokenID, Idx>, p: Proc, tx: PoolL2Tx)
    ensures SameOwners(p.st, L2Step(mode, coords, p, tx).p.st)
  {
    hide Transfer, Exit, Resolve, BuilderCheck;
    if Resolve(mode, p.st, tx).Ok? {
      var t := Resolve(mode, p.st, tx).value;
      TransferKeepsOwners(mode, coords, p, L2View(t), t.auxToIdx);
      ExitKeepsOwners(mode, coords, p, L2View(t), t.amount);
    }
  }

  // ---- A whole batch ----

  /** An L1 tx as the n-th one of a batch; the builder publishes it and fills the n-th slot but the last. */
  function L1BatchStep(mode: Mode, cfg: Config, p: Proc, n: nat, tx: L1Tx): Step {
    var s := L1Step(mode, p, tx);
    if s.err.Some? || mode != BatchBuilder then s
    else if !PublishableL1(WithEffective(p.st, tx)) then Step(s.p, Some(NotEncodable), None)
    else if n + 1 >= cfg.maxTx then Step(s.p, Some(IndexOutOfRange), None)
    else s
  }

  function RunL1(mode: Mode, cfg: Config, p: Proc, txs: seq<L1Tx>): Step {
    if txs == [] then Step(p, None, None)
    else
      var n := |txs| - 1;
      var s := RunL1(mode, cfg, p, txs[..n]);
      if s.err.Some? then s else L1BatchStep(mode, cfg, s.p, n, txs[n])
  }

  function RunL2(mode: Mode, coords: map<TokenID, Idx>, p: Proc, txs: seq<PoolL2Tx>): Step {
    if txs == [] then Step(p, None, None)
    else
      var n := |txs| - 1;
      var s := RunL2(mode, coords, p, txs[..n]);
      if s.err.Some? then s else L2Step(mode, coords, s.p, txs[n])
  }

  /** The tokens of a list of accounts, provided they all exist. */
  function CoordMap(st: State, idxs: seq<Idx>): Result<map<TokenID, Idx>, Error> {
    if idxs == [] then Ok(map[])
    else
      var n := |idxs| - 1;
      var m :- CoordMap(st, idxs[..n]);
      var acc :- GetAccount(st, idxs[n]);
      Ok(m[acc.tokenID := idxs[n]])
  }

  lemma {:induction false} CoordMapFails(st: State, idxs: seq<Idx>, k: nat)
    requires k <= |idxs| && CoordMap(st, idxs[..k]).Err?
    ensures CoordMap(st, idxs) == CoordMap(st, idxs[..k])
  {
    if k < |idxs| {
      var n := |idxs| - 1;
      assert idxs[..n][..k] == idxs[..k];
      CoordMapFails(st, idxs[..n], k);
    } else {
      assert idxs[..k] == idxs;
    }
  }

  /** One index per token, the first of each. */
  function FirstPerToken(st: State, idxs: seq<Idx>): Result<seq<Idx>, Error> {
    if idxs == [] then Ok([])
    else
      var n := |idxs| - 1;
      var r :- FirstPerToken(st, idxs[..n]);
      var m :- CoordMap(st, idxs[..n]);
      var acc :- GetAccount(st, idxs[n]);
      Ok(if acc.tokenID in m then r else r + [idxs[n]])
  }

  function TokenOf(st: State, idx: Idx): TokenID {
    if idx in st.accounts then st.accounts[idx].tokenID else 0
  }

  /** The accounts of the map exist and hold the tokens they are listed for. */
  lemma {:induction false} CoordMapTokens(st: State, idxs: seq<Idx>)
    requires CoordMap(st, idxs).Ok?
    ensures forall t :: t in CoordMap(st, idxs).value ==>
              var c := CoordMap(st, idxs).value[t];
              c in idxs && GetAccount(st, c).Ok? && st.accounts[c].tokenID == t
    ensures forall i :: i in idxs ==> GetAccount(st, i).Ok? && st.accounts[i].tokenID in CoordMap(st, idxs).value
  {
    if idxs != [] {
      CoordMapTokens(st, idxs[..|idxs| - 1]);
    }
  }

  lemma CoordMapSnoc(st: State, idxs: seq<Idx>, i: Idx)
    requires CoordMap(st, idxs).Ok? && GetAccount(st, i).Ok?
    ensures CoordMap(st, idxs + [i]) == Ok(CoordMap(st, idxs).value[st.accounts[i].tokenID := i])
  {
    assert (idxs + [i])[..|idxs|] == idxs;
  }

  /** Filtering keeps a part of the list, with the same tokens ... */
  lemma {:induction false} FirstPerTokenFilters(st: State, idxs: seq<Idx>)
    requires FirstPerToken(st, idxs).Ok?
    ensures var r := FirstPerToken(st, idxs).value;
            && |r| <= |idxs| && CoordMap(st, idxs).Ok?
            && (forall i :: i in r ==> i in idxs && GetAccount(st, i).Ok?)
            && CoordMap(st, r).Ok? && CoordMap(st, r).value.Keys == CoordMap(st, idxs).value.Keys
  {
    if idxs != [] {
      var n := |idxs| - 1;
      FirstPerTokenFilters(st, idxs[..n]);
      CoordMapSnoc(st, FirstPerToken(st, idxs[..n]).value, idxs[n]);
    }
  }

  /** ... each once. */
  lemma {:induction false} FirstPerTokenDistinct(st: State, idxs: seq<Idx>)
    requires FirstPerToken(st, idxs).Ok?
    ensures var r := FirstPerToken(st, idxs).value;
            forall j, k :: 0 <= j < k < |r| ==> TokenOf(st, r[j]) != TokenOf(st, r[k])
  {
    hide CoordMap;
    if idxs != [] {
      var n := |idxs| - 1;
      FirstPerTokenDistinct(st, idxs[..n]);
      FirstPerTokenFilters(st, idxs[..n]);
      var r := FirstPerToken(st, idxs[..n]).value;
      CoordMapTokens(st, r);
      forall j | 0 <= j < |r| ensures TokenOf(st, r[j]) in CoordMap(st, idxs[..n]).value {
        assert r[j] in r;
      }
    }
  }

  lemma {:induction false} FirstPerTokenFails(st: State, idxs: seq<Idx>, k: nat)
    requires k <= |idxs| && FirstPerToken(st, idxs[..k]).Err?
    ensures FirstPerToken(st, idxs) == FirstPerToken(st, idxs[..k])
  {
    if k < |idxs| {
      var n := |idxs| - 1;
      assert idxs[..n][..k] == idxs[..k];
      FirstPerTokenFails(st, idxs[..n], k);
    } else {
      assert idxs[..k] == idxs;
    }
  }

  function Distribute(st: State, idxs: seq<Idx>, fees: map<Idx, nat>): Outcome {
    if idxs == [] then Outcome(st, None)
    else
      var n := |idxs| - 1;
      var o := Distribute(st, idxs[..n], fees);
      if o.err.Some? then o else Credit(o.st, idxs[n], At(fees, idxs[n]))
  }

  lemma {:induction false} DistributeFails(st: State, idxs: seq<Idx>, fees: map<Idx, nat>, k: nat)
    requires k <= |idxs| && Distribute(st, idxs[..k], fees).err.Some?
    ensures Distribute(st, idxs, fees) == Distribute(st, idxs[..k], fees)
  {
    if k < |idxs| {
      var n := |idxs| - 1;
      assert idxs[..n][..k] == idxs[..k];
      DistributeFails(st, idxs[..n], fees, k);
    } else {
      assert idxs[..k] == idxs;
    }
  }

  function TooMany(cfg: Config, nCoord: nat, nL1: nat, nL2: nat): bool {
    nCoord > cfg.maxFeeTx || nL1 + nL2 > cfg.maxTx || nL1 > cfg.maxL1Tx
  }

  /** The working state right before the L2 txs: L1 txs executed, coordinators chosen, no fees yet. */
  function StartL2(mode: Mode, p: Proc, idxs: seq<Idx>, coords: map<TokenID, Idx>): Proc {
    p.(fees := map i | i in idxs :: 0,
       collected := if mode == TxSelector then map[] else map t | t in coords :: 0)
  }

  function ProcessTxs(mode: Mode, cfg: Config, st: State, coordIdxs: seq<Idx>,
                      l1User: seq<L1Tx>, l1Coord: seq<L1Tx>, l2: seq<PoolL2Tx>): Step
  {
    var p0 := Proc(st, map[], map[], map[]);
    if TooMany(cfg, |coordIdxs|, |l1User| + |l1Coord|, |l2|) then Step(p0, Some(TooManyTxs), None)
    else
      var s1 := RunL1(mode, cfg, p0, l1User + l1Coord);
      if s1.err.Some? then s1
      else
        match FirstPerToken(s1.p.st, coordIdxs)
        case Err(e) => Step(s1.p, Some(e), None)
        case Ok(idxs) =>
          match CoordMap(s1.p.st, idxs)
          case Err(e) => Step(s1.p, Some(e), None)
          case Ok(coords) =>
            var s2 := RunL2(mode, coords, StartL2(mode, s1.p, idxs, coords), l2);
            if s2.err.Some? then s2
            else
              var o := Distribute(s2.p.st, idxs, s2.p.fees);
              Step(s2.p.(st := o.st), o.err, None)
  }
}
