/** From the data of the forge call a synchronizer rebuilds exactly the ledger of the batch builder. */
module Rebuild {
  import opened Wrappers
  import opened Common
  import opened Ledger
  import opened Effects
  import opened Batch
  import opened Funds
  import opened Codecs
  import opened TxBytes
  import opened Calldata
  import Conservation
  import Executed
  import Exits
  import Fees

  // ---- The data is read back ----

  /** All indexes of the batch fit in the levels of the tree, and the fee indexes are not zero. */
  ghost predicate Fitting(args: ForgeArgs, nLevels: nat) {
    && (forall tx :: tx in args.l1UserTxs ==> FitsLevels(tx.fromIdx, nLevels) && FitsLevels(tx.toIdx, nLevels))
    && (forall tx :: tx in args.l2TxsData ==> FitsLevels(tx.fromIdx, nLevels) && FitsLevels(tx.toIdx, nLevels))
    && (forall i :: i in args.feeIdxCoordinator ==> FitsLevels(i, nLevels) && i != 0)
  }

  /** The authorizations stand for the addresses of the coordinator txs. */
  ghost predicate Signed(args: ForgeArgs, recover: Recover)
    requires Authorizations(args)
  {
    forall i :: 0 <= i < |args.l1CoordinatorTxs| ==> Signs(recover, args.l1CoordinatorTxsAuths[i], args.l1CoordinatorTxs[i])
  }

  function Untyped(tx: L2Tx): L2Tx {
    tx.(txType := TxTypeNone)
  }

  lemma CoordinatorsReadBack(args: ForgeArgs, nLevels: nat, recover: Recover)
    requires nLevels <= 48 && Authorizations(args) && Signed(args, recover) && Pack(args, nLevels).Ok?
    ensures var b := Pack(args, nLevels).value.encodedL1CoordinatorTx;
            var pairs := Pairs(args.l1CoordinatorTxs, args.l1CoordinatorTxsAuths);
            && |b| == |args.l1CoordinatorTxs| * L1_COORDINATOR_BYTES
            && Split(CoordinatorDecoder(recover), L1_COORDINATOR_BYTES, b)
               == Ok(Map((c: (L1Tx, Bytes)) => (ReadBack(c.0), c.1), pairs))
  {
    hide BytesCoordinatorTx, L1CoordinatorTxFromBytes, SignatureFromBytes, Signs, ReadBack;
    var pairs := Pairs(args.l1CoordinatorTxs, args.l1CoordinatorTxsAuths);
    forall c | c in pairs && CoordinatorEncoder()(c).Ok?
      ensures |CoordinatorEncoder()(c).value| == L1_COORDINATOR_BYTES
      ensures CoordinatorDecoder(recover)(CoordinatorEncoder()(c).value) == Ok((ReadBack(c.0), c.1))
    {
      var i :| 0 <= i < |pairs| && pairs[i] == c;
      assert Signs(recover, c.1, c.0);
      NotUserOrigin(c.0, c.1);
      L1CoordinatorRoundTripIff(c.0, c.1, recover);
    }
    SplitJoin(CoordinatorEncoder(), CoordinatorDecoder(recover), (c: (L1Tx, Bytes)) => (ReadBack(c.0), c.1),
                  L1_COORDINATOR_BYTES, pairs);
  }

  lemma NotUserOrigin(tx: L1Tx, signature: Bytes)
    requires |signature| == SIGNATURE_BYTES && BytesCoordinatorTx(tx, signature).Ok?
    ensures !tx.userOrigin
  {
  }

  lemma L1sReadBack(txs: seq<L1Tx>, nLevels: nat)
    requires nLevels <= 48 && Join(L1Encoder(nLevels), txs).Ok?
    ensures |Join(L1Encoder(nLevels), txs).value| == |txs| * DataLen(nLevels)
    ensures (forall tx :: tx in txs ==> FitsLevels(tx.fromIdx, nLevels) && FitsLevels(tx.toIdx, nLevels)) ==>
              Split(L1Decoder(nLevels), DataLen(nLevels), Join(L1Encoder(nLevels), txs).value) == Ok(Map(L1Published, txs))
  {
    hide L1Data, L1FromData, L1Published;
    forall tx | tx in txs && L1Encoder(nLevels)(tx).Ok?
      ensures |L1Encoder(nLevels)(tx).value| == DataLen(nLevels)
      ensures FitsLevels(tx.fromIdx, nLevels) && FitsLevels(tx.toIdx, nLevels) ==>
                L1Decoder(nLevels)(L1Encoder(nLevels)(tx).value) == Ok(L1Published(tx))
    {
      L1RoundTripIff(tx, nLevels);
    }
    if forall tx :: tx in txs ==> FitsLevels(tx.fromIdx, nLevels) && FitsLevels(tx.toIdx, nLevels) {
      SplitJoin(L1Encoder(nLevels), L1Decoder(nLevels), L1Published, DataLen(nLevels), txs);
    } else {
      JoinLength(L1Encoder(nLevels), DataLen(nLevels), txs);
    }
  }

  lemma {:induction false} JoinLength<T>(enc: Encoder<T>, len: nat, items: seq<T>)
    requires len > 0 && Join(enc, items).Ok?
    requires forall x :: x in items && enc(x).Ok? ==> |enc(x).value| == len
    ensures |Join(enc, items).value| == |items| * len
  {
    if items != [] {
      assert items[0] in items;
      JoinLength(enc, len, items[1..]);
      OnePieceMore(|items|, len);
    }
  }

  lemma L2sReadBack(txs: seq<L2Tx>, nLevels: nat)
    requires nLevels <= 48 && Join(L2Encoder(nLevels), txs).Ok?
    requires forall tx :: tx in txs ==> FitsLevels(tx.fromIdx, nLevels) && FitsLevels(tx.toIdx, nLevels)
    ensures |Join(L2Encoder(nLevels), txs).value| == |txs| * DataLen(nLevels)
    ensures Split(L2Decoder(nLevels), DataLen(nLevels), Join(L2Encoder(nLevels), txs).value) == Ok(Map(Untyped, txs))
  {
    hide L2Data, L2FromData;
    forall tx | tx in txs && L2Encoder(nLevels)(tx).Ok?
      ensures |L2Encoder(nLevels)(tx).value| == DataLen(nLevels)
      ensures L2Decoder(nLevels)(L2Encoder(nLevels)(tx).value) == Ok(Untyped(tx))
    {
      L2RoundTripIff(tx, nLevels);
    }
    SplitJoin(L2Encoder(nLevels), L2Decoder(nLevels), Untyped, DataLen(nLevels), txs);
  }

  lemma FeeIdxReadBack(idx: Idx, nLevels: nat)
    requires nLevels <= 48 && FeeIdxEncoder(nLevels)(idx).Ok? && FitsLevels(idx, nLevels)
    ensures |FeeIdxEncoder(nLevels)(idx).value| == nLevels / 8
    ensures FeeIdxDecoder(nLevels)(FeeIdxEncoder(nLevels)(idx).value) == Ok(idx)
  {
    hide IdxBytes, IdxFromBytes, Pow256;
    IdxKnown(idx);
    IdxRoundTrip(idx, nLevels / 8);
    ModFits(idx, Pow256(nLevels / 8));
  }

  lemma {:induction false} AllNonZero(idxs: seq<Idx>, n: nat)
    requires forall i :: i in idxs ==> i != 0
    ensures NonZero(idxs + seq(n, _ => 0)) == idxs
    decreases |idxs|, n
  {
    var zeros: seq<Idx> := seq(n, _ => 0);
    if idxs != [] {
      assert idxs[0] in idxs;
      assert (idxs + zeros)[1..] == idxs[1..] + zeros;
      assert forall i :: i in idxs[1..] ==> i in idxs;
      AllNonZero(idxs[1..], n);
    } else if n > 0 {
      assert (idxs + zeros)[1..] == [] + seq(n - 1, _ => 0);
      AllNonZero([], n - 1);
    }
  }

  lemma FeesReadBack(idxs: seq<Idx>, nLevels: nat)
    requires 8 <= nLevels <= 48 && |idxs| <= MAX_FEE_IDX_COORDINATOR && Join(FeeIdxEncoder(nLevels), Padded(idxs)).Ok?
    requires forall i :: i in idxs ==> FitsLevels(i, nLevels) && i != 0
    ensures var r := Split(FeeIdxDecoder(nLevels), nLevels / 8, Join(FeeIdxEncoder(nLevels), Padded(idxs)).value);
            r.Ok? && NonZero(r.value) == idxs
  {
    hide FeeIdxEncoder, FeeIdxDecoder;
    var padded := Padded(idxs);
    forall i | i in padded && FeeIdxEncoder(nLevels)(i).Ok?
      ensures |FeeIdxEncoder(nLevels)(i).value| == nLevels / 8
      ensures FeeIdxDecoder(nLevels)(FeeIdxEncoder(nLevels)(i).value) == Ok(i)
    {
      var j :| 0 <= j < |padded| && padded[j] == i;
      assert j < |idxs| ==> idxs[j] in idxs;
      FeeIdxReadBack(i, nLevels);
    }
    SplitJoin(FeeIdxEncoder(nLevels), FeeIdxDecoder(nLevels), (i: Idx) => i, nLevels / 8, padded);
    assert Map((i: Idx) => i, padded) == padded;
    AllNonZero(idxs, MAX_FEE_IDX_COORDINATOR - |idxs|);
    assert padded == idxs + seq(MAX_FEE_IDX_COORDINATOR - |idxs|, _ => 0);
  }

  /** What a synchronizer knows of a batch from the data of the forge call. */
  function Seen(args: ForgeArgs): ForgeArgs {
    ForgeArgs(Map(L1Published, args.l1UserTxs), Map(ReadBack, args.l1CoordinatorTxs), args.l1CoordinatorTxsAuths,
              Map(Untyped, args.l2TxsData), args.feeIdxCoordinator)
  }

  lemma Layout(args: ForgeArgs, nLevels: nat)
    requires 8 <= nLevels <= 48 && Authorizations(args) && Pack(args, nLevels).Ok?
    requires forall tx :: tx in args.l2TxsData ==> FitsLevels(tx.fromIdx, nLevels) && FitsLevels(tx.toIdx, nLevels)
    ensures var b := Pack(args, nLevels).value.l1L2TxsData;
            var len := DataLen(nLevels);
            var nUser, nCoord := |args.l1UserTxs|, |args.l1CoordinatorTxs|;
            var start := nCoord * len + nUser * len;
            && 0 <= nUser * len <= start <= |b|
            && b[..nUser * len] == Join(L1Encoder(nLevels), args.l1UserTxs).value
            && b[start..] == Join(L2Encoder(nLevels), args.l2TxsData).value
  {
    hide L1Encoder, L2Encoder, CoordinatorEncoder, FeeIdxEncoder, Join;
    var b := Pack(args, nLevels).value.l1L2TxsData;
    var user := Join(L1Encoder(nLevels), args.l1UserTxs).value;
    var coord := Join(L1Encoder(nLevels), args.l1CoordinatorTxs).value;
    var l2 := Join(L2Encoder(nLevels), args.l2TxsData).value;
    L1sReadBack(args.l1UserTxs, nLevels);
    L1sReadBack(args.l1CoordinatorTxs, nLevels);
    assert b == user + coord + l2;
  }

  /** Reading the data of a forge call gives back everything that was laid out in it. */
  lemma PackRoundTrip(args: ForgeArgs, nLevels: nat, recover: Recover)
    requires 8 <= nLevels <= 48 && Authorizations(args) && Pack(args, nLevels).Ok?
    requires Fitting(args, nLevels) && Signed(args, recover)
    ensures |args.l1UserTxs| * DataLen(nLevels) <= |Pack(args, nLevels).value.l1L2TxsData|
    ensures Unpack(Pack(args, nLevels).value, |args.l1UserTxs|, nLevels, recover) == Ok(Seen(args))
  {
    hide L1Encoder, L2Encoder, CoordinatorEncoder, FeeIdxEncoder, L1Decoder, L2Decoder, CoordinatorDecoder;
    hide FeeIdxDecoder;
    hide Join, Split, Signed, NonZero, ReadBack, L1Published;
    var data := Pack(args, nLevels).value;
    var len := DataLen(nLevels);
    Layout(args, nLevels);
    CoordinatorsReadBack(args, nLevels, recover);
    assert |data.encodedL1CoordinatorTx| / L1_COORDINATOR_BYTES == |args.l1CoordinatorTxs|;
    L1sReadBack(args.l1UserTxs, nLevels);
    L2sReadBack(args.l2TxsData, nLevels);
    FeesReadBack(args.feeIdxCoordinator, nLevels);
    var coord := Split(CoordinatorDecoder(recover), L1_COORDINATOR_BYTES, data.encodedL1CoordinatorTx).value;
    assert Map((c: (L1Tx, Bytes)) => c.0, coord) == Map(ReadBack, args.l1CoordinatorTxs);
    assert Map((c: (L1Tx, Bytes)) => c.1, coord) == args.l1CoordinatorTxsAuths;
    var start := |args.l1CoordinatorTxs| * len + |args.l1UserTxs| * len;
    assert start == |data.l1L2TxsData| ==> data.l1L2TxsData[start..] == [];
  }

  // ---- The ledger is rebuilt ----

  /** The published form of a pool tx whose receiver has been looked up. */
  function Publish(tx: PoolL2Tx): L2Tx {
    L2Tx(tx.fromIdx, if tx.toIdx == 0 then tx.auxToIdx else tx.toIdx, tx.amount, tx.fee, tx.txType)
  }

  /** The pool txs as the builder leaves them, receivers looked up. */
  function FilledTxs(run: Run): (r: seq<PoolL2Tx>)
    ensures |r| == |run.l2|
  {
    seq(|run.l2|, i requires 0 <= i < |run.l2| => L2Filled(run.mode, run.AfterL2(i).p.st, run.l2[i]))
  }

  /** A published tx with the type that its receiver gives. */
  function SetType(tx: L2Tx): L2Tx {
    tx.(txType := if L2Type(tx.toIdx).Ok? then L2Type(tx.toIdx).value else TxTypeNone)
  }

  function ToPoolL2Tx(tx: L2Tx): PoolL2Tx {
    PoolL2Tx(0, tx.fromIdx, tx.toIdx, 0, EMPTY_ADDR, EMPTY_BJJ, 0, tx.amount, tx.fee, 0, 0, NO_GROUP,
             0, 0, EMPTY_ADDR, EMPTY_BJJ, 0, None, 0, 0, 0, 0.0, tx.txType)
  }

  function Rebuilt(tx: L2Tx): PoolL2Tx {
    ToPoolL2Tx(SetType(tx))
  }

  /** A pool tx of the type that its fields give, with at most one way to find its receiver. */
  predicate WellTyped(tx: PoolL2Tx) {
    PoolL2Type(tx) == Ok(tx.txType) && (tx.toIdx != 0 ==> tx.auxToIdx == 0)
  }

  lemma DebitOfBoth(coords: map<TokenID, Idx>, p: Proc, tx: Tx)
    ensures Debit(BatchBuilder, coords, p, tx) == Debit(Synchronizer, coords, p, tx)
  {
    hide Charge, UpdateAccount;
  }

  /** Transfers and exits are the same for builder and synchronizer. */
  lemma TransferOfBoth(coords: map<TokenID, Idx>, p: Proc, tx: Tx, auxToIdx: Idx, requested: nat)
    ensures Transfer(BatchBuilder, coords, p, tx, auxToIdx) == Transfer(Synchronizer, coords, p, tx, auxToIdx)
    ensures Exit(BatchBuilder, coords, p, tx, requested) == Exit(Synchronizer, coords, p, tx, requested)
  {
    hide Debit, Credit, Fits, ExitLeaf;
    DebitOfBoth(coords, p, tx);
  }

  /** The receiver of a transfer that succeeded is a user account. */
  lemma ReceiverIsUser(coords: map<TokenID, Idx>, p: Proc, tx: Tx, auxToIdx: Idx)
    requires Valid(p.st) && Transfer(BatchBuilder, coords, p, tx, auxToIdx).err == None
    ensures Receiver(tx, auxToIdx) >= USER_THRESHOLD
  {
    hide Debit, UpdateAccount, SameOwners;
    var d := Debit(BatchBuilder, coords, p, tx);
    DebitKeepsOwners(BatchBuilder, coords, p, tx);
    Executed.SameOwnersSameKeys(p.st, d.p.st);
  }

  /** A transfer only looks at the receiver that it ends up with. */
  lemma SameReceiver(coords: map<TokenID, Idx>, p: Proc, tx: Tx, auxToIdx: Idx, u: Tx)
    requires u == tx.(toIdx := Receiver(tx, auxToIdx))
    ensures Transfer(Synchronizer, coords, p, u, 0) == Transfer(Synchronizer, coords, p, tx, auxToIdx)
  {
    hide UpdateAccount, Accrue, Credit, Fees.CalcFeeAmount;
  }

  lemma ExitIgnoresReceiver(coords: map<TokenID, Idx>, p: Proc, tx: Tx, u: Tx, requested: nat)
    requires u == tx.(toIdx := u.toIdx)
    ensures Exit(Synchronizer, coords, p, u, requested) == Exit(Synchronizer, coords, p, tx, requested)
  {
    hide UpdateAccount, Accrue, Fits, Fees.CalcFeeAmount;
  }

  lemma FromExists(coords: map<TokenID, Idx>, p: Proc, tx: Tx)
    requires Debit(BatchBuilder, coords, p, tx).err == None
    ensures GetAccount(p.st, tx.fromIdx).Ok?
  {
  }

  /** One pool tx: what the synchronizer reads back has the effect that the builder's tx had. */
  lemma L2StepRepeats(coords: map<TokenID, Idx>, p: Proc, tx: PoolL2Tx)
    requires Valid(p.st) && WellTyped(tx) && L2Step(BatchBuilder, coords, p, tx).err == None
    ensures L2Step(Synchronizer, coords, p, Rebuilt(Publish(L2Filled(BatchBuilder, p.st, tx))))
            == L2Step(BatchBuilder, coords, p, tx)
  {
    hide Valid, Transfer, Exit, BuilderCheck, GetIdxByEthAddrBJJ, GetAccount, Debit;
    var t := Resolve(BatchBuilder, p.st, tx).value;
    var u := Rebuilt(Publish(t));
    TransferOfBoth(coords, p, L2View(t), t.auxToIdx, t.amount);
    DebitFirst(coords, p, L2View(t), t.auxToIdx, t.amount);
    if IsL2Transfer(t.txType) {
      FromExists(coords, p, L2View(t));
      ReceiverIsUser(coords, p, L2View(t), t.auxToIdx);
      SameReceiver(coords, p, L2View(t), t.auxToIdx, L2View(u));
    } else {
      FromExists(coords, p, L2View(t));
      ExitIgnoresReceiver(coords, p, L2View(t), L2View(u), t.amount);
    }
  }

  lemma DebitFirst(coords: map<TokenID, Idx>, p: Proc, tx: Tx, auxToIdx: Idx, requested: nat)
    ensures Transfer(BatchBuilder, coords, p, tx, auxToIdx).err == None ==> Debit(BatchBuilder, coords, p, tx).err == None
    ensures Exit(BatchBuilder, coords, p, tx, requested).err == None ==> Debit(BatchBuilder, coords, p, tx).err == None
  {
    hide Debit;
  }

  /** Two L1 txs that the queue or the data of the call do not tell apart. */
  predicate SameL1(a: L1Tx, b: L1Tx) {
    a == b.(position := a.position, effectiveAmount := a.effectiveAmount, effectiveDepositAmount := a.effectiveDepositAmount)
  }

  lemma L1StepRepeats(cfg: Config, other: Config, p: Proc, n: nat, tx: L1Tx, seen: L1Tx)
    requires SameL1(tx, seen) && L1BatchStep(BatchBuilder, cfg, p, n, tx).err == None
    ensures L1BatchStep(Synchronizer, other, p, n, seen) == L1BatchStep(BatchBuilder, cfg, p, n, tx)
  {
    hide Transfer, Exit, EncodableL1, PublishableL1, Deposit, CreateAccount, Credit;
    assert Effective(p.st, tx) == Effective(p.st, seen);
    hide Effective;
    TransferOfBoth(map[], p, L1View(WithEffective(p.st, tx)), 0, tx.amount);
    CreateIgnores(p.st, WithEffective(p.st, tx), WithEffective(p.st, seen));
  }

  lemma CreateIgnores(st: State, a: L1Tx, b: L1Tx)
    requires SameL1(a, b)
    ensures forall deposit: nat, amount: nat :: L1Create(st, a, deposit, amount) == L1Create(st, b, deposit, amount)
  {
    hide CreateAccount, Credit, UpdateAccount;
  }

  lemma {:induction false} L1RunRepeats(cfg: Config, other: Config, p: Proc, txs: seq<L1Tx>, seen: seq<L1Tx>)
    requires |seen| == |txs| && forall i :: 0 <= i < |txs| ==> SameL1(txs[i], seen[i])
    requires RunL1(BatchBuilder, cfg, p, txs).err == None
    ensures RunL1(Synchronizer, other, p, seen) == RunL1(BatchBuilder, cfg, p, txs)
  {
    hide L1BatchStep, SameL1;
    if txs != [] {
      var n := |txs| - 1;
      L1RunRepeats(cfg, other, p, txs[..n], seen[..n]);
      L1StepRepeats(cfg, other, RunL1(BatchBuilder, cfg, p, txs[..n]).p, n, txs[n], seen[n]);
    }
  }

  lemma {:induction false} L2RunRepeats(coords: map<TokenID, Idx>, p: Proc, txs: seq<PoolL2Tx>, seen: seq<PoolL2Tx>)
    requires ValidProc(p) && RunL2(BatchBuilder, coords, p, txs).err == None && |seen| == |txs|
    requires forall i :: 0 <= i < |txs| ==>
               WellTyped(txs[i])
               && seen[i] == Rebuilt(Publish(L2Filled(BatchBuilder, RunL2(BatchBuilder, coords, p, txs[..i]).p.st, txs[i])))
    ensures RunL2(Synchronizer, coords, p, seen) == RunL2(BatchBuilder, coords, p, txs)
  {
    hide L2Step, Rebuilt, Publish, L2Filled, WellTyped, ValidProc;
    if txs != [] {
      var n := |txs| - 1;
      forall i | 0 <= i < n ensures txs[..n][..i] == txs[..i] {
      }
      L2RunRepeats(coords, p, txs[..n], seen[..n]);
      RunL2KeepsValid(BatchBuilder, coords, p, txs[..n]);
      Conservation.LedgerOf(RunL2(BatchBuilder, coords, p, txs[..n]).p);
      L2StepRepeats(coords, RunL2(BatchBuilder, coords, p, txs[..n]).p, txs[n]);
    }
  }

  /** The first L1 txs as the builder leaves them, with their effective amounts. */
  function FilledL1Txs(run: Run, n: nat): (r: seq<L1Tx>)
    requires n <= |run.l1|
    ensures |r| == n
  {
    seq(n, i requires 0 <= i < n => WithEffective(run.After(i).p.st, run.l1[i]))
  }

  /** What the builder publishes of a batch. */
  function Published(run: Run, l1User: seq<L1Tx>, l1Coord: seq<L1Tx>, auths: seq<Bytes>): ForgeArgs
    requires |l1User| <= |run.l1|
  {
    ForgeArgs(FilledL1Txs(run, |l1User|), l1Coord, auths, Map(Publish, FilledTxs(run)), run.coordIdxs)
  }

  /** The queued form of an L1 user tx, with its type set again. */
  function FromQueue(tx: L1Tx): L1Tx {
    Queued(tx).(txType := if L1Type(tx).Ok? then L1Type(tx).value else TxTypeNone)
  }

  /** A coordinator tx read from the data, with its type set again. */
  function AsCreation(tx: L1Tx): L1Tx {
    tx.(txType := if L1Type(tx).Ok? then L1Type(tx).value else TxTypeNone)
  }

  /** An L1 user tx comes from the queue of the contract, a coordinator tx creates an empty account. */
  predicate FromUser(tx: L1Tx) {
    tx.userOrigin && L1Type(tx) == Ok(tx.txType)
  }

  predicate FromCoordinator(tx: L1Tx) {
    !tx.userOrigin && tx.fromIdx == 0 && tx.toIdx == 0 && tx.amount == 0 && tx.depositAmount == 0
    && tx.txType == TxTypeCreateAccountDeposit
  }

  lemma L1sSeen(tx: L1Tx)
    ensures FromUser(tx) ==> SameL1(tx, FromQueue(tx))
    ensures FromCoordinator(tx) ==> SameL1(tx, AsCreation(ReadBack(tx)))
  {
  }

  /** The txs that a synchronizer processes: L1 user txs from the queue, the others from the data. */
  function SeenRun(run: Run, cfg: Config, l1User: seq<L1Tx>, seen: ForgeArgs): Run {
    Run(Synchronizer, cfg, run.st, Map(FromQueue, l1User) + Map(AsCreation, seen.l1CoordinatorTxs),
        seen.feeIdxCoordinator, Map(Rebuilt, seen.l2TxsData))
  }

  /** A synchronizer that processes what it sees of a batch repeats the builder's run. */
  lemma SeenRunRepeats(run: Run, cfg: Config, l1User: seq<L1Tx>, l1Coord: seq<L1Tx>, auths: seq<Bytes>)
    requires run.mode == BatchBuilder && run.l1 == l1User + l1Coord && Valid(run.st) && BatchStep(run).err == None
    requires forall tx :: tx in l1User ==> FromUser(tx)
    requires forall tx :: tx in l1Coord ==> FromCoordinator(tx)
    requires forall tx :: tx in run.l2 ==> WellTyped(tx)
    ensures BatchStep(SeenRun(run, cfg, l1User, Seen(Published(run, l1User, l1Coord, auths)))) == BatchStep(run)
  {
    hide RunL1, RunL2, FirstPerToken, CoordMap, Distribute, Valid, ValidProc, L2Filled, WellTyped, FromUser;
    hide FromCoordinator;
    hide SameL1, FromQueue, AsCreation, ReadBack, Rebuilt, Publish;
    var seen := SeenRun(run, cfg, l1User, Seen(Published(run, l1User, l1Coord, auths)));
    forall i | 0 <= i < |run.l1| ensures SameL1(run.l1[i], seen.l1[i]) {
      L1sSeen(run.l1[i]);
      assert i < |l1User| ==> run.l1[i] in l1User;
      assert i >= |l1User| ==> run.l1[i] in l1Coord;
    }
    L1RunRepeats(run.cfg, cfg, Start(run.st), run.l1, seen.l1);
    assert seen.AfterL1() == run.AfterL1() && seen.Idxs() == run.Idxs() && seen.Coords() == run.Coords();
    Conservation.Stages(run);
    StartL2OfBoth(run.AfterL1().p, run.Idxs(), run.Coords());
    var p := StartL2(run.mode, run.AfterL1().p, run.Idxs(), run.Coords());
    Conservation.StartL2KeepsLedger(run.mode, run.AfterL1().p, run.Idxs(), run.Coords());
    Conservation.LedgerOnly(run.AfterL1().p, p);
    forall i | 0 <= i < |run.l2|
      ensures WellTyped(run.l2[i])
      ensures seen.l2[i]
              == Rebuilt(Publish(L2Filled(BatchBuilder, RunL2(BatchBuilder, run.Coords(), p, run.l2[..i]).p.st, run.l2[i])))
    {
      assert run.l2[i] in run.l2;
      TypesAreSetAgain(Publish(L2Filled(BatchBuilder, run.AfterL2(i).p.st, run.l2[i])));
    }
    assert run.l2[..|run.l2|] == run.l2 && seen.l2[..|seen.l2|] == seen.l2;
    L2RunRepeats(run.Coords(), p, run.l2, seen.l2);
  }

  lemma TypesAreSetAgain(tx: L2Tx)
    ensures Rebuilt(Untyped(tx)) == Rebuilt(tx)
  {
  }

  lemma StartL2OfBoth(p: Proc, idxs: seq<Idx>, coords: map<TokenID, Idx>)
    ensures StartL2(Synchronizer, p, idxs, coords) == StartL2(BatchBuilder, p, idxs, coords)
  {
  }

  /**
   Replay. Whatever batch the builder processed and laid out in the data of a forge call, a
   synchronizer in the same state that reads the data back and processes it ends in the same
   ledger, with the same exits and fees.
   */
  lemma RebuildsLedger(cfg: Config, other: Config, st: State, coordIdxs: seq<Idx>, l1User: seq<L1Tx>,
                       l1Coord: seq<L1Tx>,
                       l2: seq<PoolL2Tx>, auths: seq<Bytes>, nLevels: nat, recover: Recover)
    requires Valid(st) && ProcessTxs(BatchBuilder, cfg, st, coordIdxs, l1User, l1Coord, l2).err == None
    requires !TooMany(other, |coordIdxs|, |l1User| + |l1Coord|, |l2|)
    requires forall tx :: tx in l1User ==> FromUser(tx)
    requires forall tx :: tx in l1Coord ==> FromCoordinator(tx)
    requires forall tx :: tx in l2 ==> WellTyped(tx)
    requires var args := Published(RunOf(BatchBuilder, cfg, st, coordIdxs, l1User, l1Coord, l2), l1User, l1Coord, auths);
             && 8 <= nLevels <= 48 && Authorizations(args) && Pack(args, nLevels).Ok?
             && Fitting(args, nLevels) && Signed(args, recover)
    ensures var args := Published(RunOf(BatchBuilder, cfg, st, coordIdxs, l1User, l1Coord, l2), l1User, l1Coord, auths);
            && |l1User| * DataLen(nLevels) <= |Pack(args, nLevels).value.l1L2TxsData|
            && var seen := Unpack(Pack(args, nLevels).value, |l1User|, nLevels, recover);
               && seen.Ok?
               && ProcessTxs(Synchronizer, other, st, seen.value.feeIdxCoordinator, Map(FromQueue, l1User),
                             Map(AsCreation, seen.value.l1CoordinatorTxs), Map(Rebuilt, seen.value.l2TxsData))
                  == ProcessTxs(BatchBuilder, cfg, st, coordIdxs, l1User, l1Coord, l2)
  {
    hide Valid, ProcessTxs, BatchStep, Pack, Unpack, Fitting, Signed, Authorizations, FilledTxs, FilledL1Txs;
    hide Publish, FromUser, FromCoordinator, WellTyped;
    hide FromQueue, AsCreation, Rebuilt, ReadBack, L1Published, Untyped;
    var run := RunOf(BatchBuilder, cfg, st, coordIdxs, l1User, l1Coord, l2);
    var args := Published(run, l1User, l1Coord, auths);
    PackRoundTrip(args, nLevels, recover);
    NotTooMany(cfg, st, coordIdxs, l1User, l1Coord, l2);
    ProcessTxsIsRun(BatchBuilder, cfg, st, coordIdxs, l1User, l1Coord, l2);
    SeenRunRepeats(run, other, l1User, l1Coord, auths);
    var seen := Seen(args);
    ProcessTxsIsRun(Synchronizer, other, st, seen.feeIdxCoordinator, Map(FromQueue, l1User),
                    Map(AsCreation, seen.l1CoordinatorTxs), Map(Rebuilt, seen.l2TxsData));
  }

  lemma NotTooMany(cfg: Config, st: State, coordIdxs: seq<Idx>, l1User: seq<L1Tx>, l1Coord: seq<L1Tx>,
                   l2: seq<PoolL2Tx>)
    requires ProcessTxs(BatchBuilder, cfg, st, coordIdxs, l1User, l1Coord, l2).err == None
    ensures !TooMany(cfg, |coordIdxs|, |l1User| + |l1Coord|, |l2|)
  {
    hide RunL1, RunL2, FirstPerToken, CoordMap, Distribute;
  }
}
