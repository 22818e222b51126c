/** The byte formats of whole L1 txs, of the compressed data of pool txs, and of account leaves. */
module TxBytes {
  import opened Wrappers
  import opened Common
  import opened Codecs
  import Ledger
  import AtomicGroups
  import Arithmetic
  import Float40

  function SwapEndianness(b: Bytes): (r: Bytes)
    ensures |r| == |b|
    ensures forall i :: 0 <= i < |b| ==> r[|b| - 1 - i] == b[i]
  {
    seq(|b|, i requires 0 <= i < |b| => b[|b| - 1 - i])
  }

  lemma SwapTwice(b: Bytes)
    ensures SwapEndianness(SwapEndianness(b)) == b
  {
  }

  // ---- L1 user txs ----

  /** The 78 bytes of an L1 tx in the queue of the contract. */
  function BytesGeneric(tx: L1Tx): Result<Bytes, Error> {
    var from :- IdxBytes(tx.fromIdx);
    var deposit :- AmountBytes(tx.depositAmount);
    var amount :- AmountBytes(tx.amount);
    var to :- IdxBytes(tx.toIdx);
    Ok(tx.fromEthAddr + SwapEndianness(tx.fromBJJ) + from + deposit + amount + TokenIDBytes(tx.tokenID) + to)
  }

  function L1UserTxFromBytes(b: Bytes): Result<L1Tx, Error> {
    if |b| != L1_USER_BYTES then Err(MalformedTx)
    else
      var from :- IdxFromBytes(b[52..58]);
      var deposit :- AmountFromBytes(b[58..63]);
      var amount :- AmountFromBytes(b[63..68]);
      var to :- IdxFromBytes(b[72..78]);
      FromBEBound4(b[68..72]);
      Ok(L1Tx(0, true, from, b[0..20], SwapEndianness(b[20..52]), to, FromBE(b[68..72]),
              amount, deposit, None, None, TxTypeNone))
  }

  lemma FromBEBound4(b: Bytes)
    requires |b| == 4
    ensures FromBE(b) < 0x1_0000_0000
  {
    FromBEBound(b);
    assert Pow256(4) == 0x1_0000_0000;
  }

  /** What a queued L1 tx is known by. */
  function Queued(tx: L1Tx): L1Tx {
    tx.(position := 0, userOrigin := true, effectiveAmount := None, effectiveDepositAmount := None, txType := TxTypeNone)
  }

  lemma UserFields(addr: Bytes, key: Bytes, from: Bytes, deposit: Bytes, amount: Bytes, token: Bytes, to: Bytes)
    requires |addr| == 20 && |key| == 32 && |from| == 6 && |deposit| == 5 && |amount| == 5 && |token| == 4 && |to| == 6
    ensures var b := addr + key + from + deposit + amount + token + to;
            && |b| == L1_USER_BYTES && b[0..20] == addr && b[20..52] == key && b[52..58] == from && b[58..63] == deposit
            && b[63..68] == amount && b[68..72] == token && b[72..78] == to
  {
  }

  /** A queued tx is read back completely; it can be written exactly when its indexes and amounts can. */
  lemma L1UserRoundTrip(tx: L1Tx)
    ensures BytesGeneric(tx).Ok? <==>
              tx.fromIdx <= MAX_IDX && tx.toIdx <= MAX_IDX
              && Float40.Encodable(tx.depositAmount) && Float40.Encodable(tx.amount)
    ensures BytesGeneric(tx).Ok? ==> L1UserTxFromBytes(BytesGeneric(tx).value) == Ok(Queued(tx))
  {
    hide AmountBytes, AmountFromBytes, IdxBytes, IdxFromBytes, TokenIDBytes, FromBE;
    IdxKnown(tx.fromIdx);
    IdxKnown(tx.toIdx);
    AmountRoundTrip(tx.depositAmount);
    AmountRoundTrip(tx.amount);
    TokenRoundTrip(tx.tokenID);
    SwapTwice(tx.fromBJJ);
    if BytesGeneric(tx).Ok? {
      WholeIdx(tx.fromIdx);
      WholeIdx(tx.toIdx);
      var b := BytesGeneric(tx).value;
      var from, to := IdxBytes(tx.fromIdx).value, IdxBytes(tx.toIdx).value;
      var deposit, amount := AmountBytes(tx.depositAmount).value, AmountBytes(tx.amount).value;
      TokenLength(tx.tokenID);
      UserFields(tx.fromEthAddr, SwapEndianness(tx.fromBJJ), from, deposit, amount, TokenIDBytes(tx.tokenID), to);
    }
  }

  lemma TokenLength(token: TokenID)
    ensures |TokenIDBytes(token)| == 4
  {
  }

  lemma WholeIdx(idx: Idx)
    requires idx <= MAX_IDX
    ensures IdxFromBytes(IdxBytes(idx).value) == Ok(idx)
  {
    IdxRoundTrip(idx, 6);
    assert IdxBytes(idx).value[0..] == IdxBytes(idx).value;
    assert Zeros(0) + IdxBytes(idx).value == IdxBytes(idx).value;
    Pow256Six();
  }

  lemma Pow256Six()
    ensures Pow256(6) == 0x1_0000_0000_0000
  {
    assert Pow256(2) == 0x1_0000;
    assert Pow256(4) == 0x1_0000_0000;
  }

  // ---- L1 coordinator txs ----

  // The signer of an account creation authorization: recovered from a signature and the key it is for.
  type Recover = (Bytes, BJJ) -> Option<EthAddr>

  const SIGNATURE_BYTES: nat := 65

  /** Ethereum adds 27 to the last byte of a signature; bytes wrap around. */
  function MinusTwentySeven(v: byte): byte {
    (v + 229) % 256
  }

  function BytesCoordinatorTx(tx: L1Tx, signature: Bytes): Result<Bytes, Error>
    requires |signature| == SIGNATURE_BYTES
  {
    if tx.userOrigin then Err(MalformedTx)
    else Ok([signature[64]] + signature[32..64] + signature[..32] + SwapEndianness(tx.fromBJJ) + TokenIDBytes(tx.tokenID))
  }

  /** The tx and the signature as the contract data has them; without a signature the address is all ones. */
  function L1CoordinatorTxFromBytes(b: Bytes, recover: Recover): Result<L1Tx, Error> {
    if |b| != L1_COORDINATOR_BYTES then Err(MalformedTx)
    else
      var bjj := SwapEndianness(b[65..97]);
      FromBEBound4(b[97..101]);
      var tx := BLANK_L1.(fromBJJ := bjj, tokenID := FromBE(b[97..101]));
      if b[0] == 0 then Ok(tx.(fromEthAddr := FF_ADDR))
      else
        match recover(b[33..65] + b[1..33] + [MinusTwentySeven(b[0])], bjj)
        case Some(addr) => Ok(tx.(fromEthAddr := addr))
        case None => Err(MalformedTx)
  }

  function SignatureFromBytes(b: Bytes): Bytes
    requires |b| == L1_COORDINATOR_BYTES
  {
    b[33..65] + b[1..33] + [b[0]]
  }

  /** The signature stands for the address that the account is created for. */
  predicate Signs(recover: Recover, signature: Bytes, tx: L1Tx)
    requires |signature| == SIGNATURE_BYTES
  {
    if signature[64] == 0 then tx.fromEthAddr == FF_ADDR
    else recover(signature[..64] + [MinusTwentySeven(signature[64])], tx.fromBJJ) == Some(tx.fromEthAddr)
  }

  /** What a coordinator tx is known by from the contract data. */
  function ReadBack(tx: L1Tx): L1Tx {
    BLANK_L1.(fromEthAddr := tx.fromEthAddr, fromBJJ := tx.fromBJJ, tokenID := tx.tokenID)
  }

  /** A coordinator tx is read back for the right address if and only if its signature stands for it. */
  lemma L1CoordinatorRoundTripIff(tx: L1Tx, signature: Bytes, recover: Recover)
    requires |signature| == SIGNATURE_BYTES && !tx.userOrigin
    ensures var b := BytesCoordinatorTx(tx, signature).value;
            && |b| == L1_COORDINATOR_BYTES && SignatureFromBytes(b) == signature
            && (L1CoordinatorTxFromBytes(b, recover) == Ok(ReadBack(tx)) <==> Signs(recover, signature, tx))
  {
    hide FromBE, TokenIDBytes;
    TokenRoundTrip(tx.tokenID);
    TokenLength(tx.tokenID);
    SwapTwice(tx.fromBJJ);
    var b := BytesCoordinatorTx(tx, signature).value;
    assert b[65..97] == SwapEndianness(tx.fromBJJ) && b[97..101] == TokenIDBytes(tx.tokenID);
    assert b[33..65] == signature[..32] && b[1..33] == signature[32..64];
    assert signature[..32] + signature[32..64] == signature[..64];
    assert signature == signature[..64] + [signature[64]];
  }

  // ---- Compressed data of pool txs ----

  function BJJSign(bjj: BJJ): byte {
    if bjj != EMPTY_BJJ && bjj[31] >= 128 then 1 else 0
  }

  /** Sign of the receiver's key, fee, nonce, token, amount, receiver and sender in 28 bytes. */
  function Compressed(toBJJ: BJJ, fee: FeeSelector, nonce: nat, token: TokenID, amount: nat, toIdx: Idx,
                      fromIdx: Idx): Result<Bytes, Error> {
    var amountBytes :- AmountBytes(amount);
    var nonceBytes :- NonceBytes(nonce);
    var to :- IdxBytes(toIdx);
    var from :- IdxBytes(fromIdx);
    Ok([BJJSign(toBJJ), fee] + nonceBytes + TokenIDBytes(token) + amountBytes + to + from)
  }

  function TxCompressedDataV2(tx: PoolL2Tx): Result<Bytes, Error> {
    Compressed(tx.toBJJ, tx.fee, tx.nonce, tx.tokenID, tx.amount, tx.toIdx, tx.fromIdx)
  }

  function RqTxCompressedDataV2(tx: PoolL2Tx): Result<Bytes, Error> {
    Compressed(tx.rqToBJJ, tx.rqFee, tx.rqNonce, tx.rqTokenID,
               if tx.rqAmount.Some? then tx.rqAmount.value else 0, tx.rqToIdx, tx.rqFromIdx)
  }

  /** The compressed data tells apart everything it is made of. */
  lemma CompressedDeterminesFields(a: PoolL2Tx, b: PoolL2Tx)
    requires TxCompressedDataV2(a).Ok? && TxCompressedDataV2(a) == TxCompressedDataV2(b)
    ensures a.fee == b.fee && a.nonce == b.nonce && a.tokenID == b.tokenID && a.amount == b.amount
    ensures a.toIdx == b.toIdx && a.fromIdx == b.fromIdx && BJJSign(a.toBJJ) == BJJSign(b.toBJJ)
  {
    hide AmountBytes, AmountFromBytes, IdxBytes, IdxFromBytes, TokenIDBytes, FromBE, NonceBytes;
    var x, y := TxCompressedDataV2(a).value, TxCompressedDataV2(b).value;
    CompressedParts(a);
    CompressedParts(b);
    assert x[2..7] == y[2..7] && x[7..11] == y[7..11] && x[11..16] == y[11..16]
           && x[16..22] == y[16..22] && x[22..28] == y[22..28];
    NonceRoundTrip(a.nonce);
    NonceRoundTrip(b.nonce);
    TokenRoundTrip(a.tokenID);
    TokenRoundTrip(b.tokenID);
    AmountRoundTrip(a.amount);
    AmountRoundTrip(b.amount);
    WholeIdx(a.toIdx);
    WholeIdx(b.toIdx);
    WholeIdx(a.fromIdx);
    WholeIdx(b.fromIdx);
  }

  lemma NonceRoundTrip(nonce: nat)
    requires NonceBytes(nonce).Ok?
    ensures |NonceBytes(nonce).value| == 5 && FromBE(NonceBytes(nonce).value) == nonce
  {
    BESuffix(nonce, 8, 5);
    FromBEofBE(nonce, 5);
    Pow256Five();
  }

  /** Six fields in a row, and where they are. */
  lemma Fields(s: byte, fee: byte, nonce: Bytes, token: Bytes, amount: Bytes, to: Bytes, from: Bytes)
    requires |nonce| == 5 && |token| == 4 && |amount| == 5 && |to| == 6 && |from| == 6
    ensures var x := [s, fee] + nonce + token + amount + to + from;
            && |x| == 28 && x[0] == s && x[1] == fee && x[2..7] == nonce && x[7..11] == token
            && x[11..16] == amount && x[16..22] == to && x[22..28] == from
  {
  }

  lemma CompressedParts(a: PoolL2Tx)
    requires TxCompressedDataV2(a).Ok?
    ensures var x := TxCompressedDataV2(a).value;
            && |x| == 28 && x[0] == BJJSign(a.toBJJ) && x[1] == a.fee
            && NonceBytes(a.nonce) == Ok(x[2..7]) && TokenIDBytes(a.tokenID) == x[7..11]
            && AmountBytes(a.amount) == Ok(x[11..16])
            && IdxBytes(a.toIdx) == Ok(x[16..22]) && IdxBytes(a.fromIdx) == Ok(x[22..28])
            && a.toIdx <= MAX_IDX && a.fromIdx <= MAX_IDX
  {
    hide AmountBytes, IdxBytes, TokenIDBytes, NonceBytes, BJJSign;
    IdxKnown(a.toIdx);
    IdxKnown(a.fromIdx);
    AmountRoundTrip(a.amount);
    NonceRoundTrip(a.nonce);
    TokenLength(a.tokenID);
    Fields(BJJSign(a.toBJJ), a.fee, NonceBytes(a.nonce).value, TokenIDBytes(a.tokenID), AmountBytes(a.amount).value,
           IdxBytes(a.toIdx).value, IdxBytes(a.fromIdx).value);
  }

  /** A tx that asks for another one carries that one's compressed data. */
  lemma RequestedData(tx: PoolL2Tx, rq: PoolL2Tx)
    requires AtomicGroups.Requests(tx, rq)
    ensures RqTxCompressedDataV2(tx) == TxCompressedDataV2(rq)
  {
    hide Compressed;
  }

  // ---- Account leaves ----

  // The order of the scalar field of the BN254 curve.
  const FIELD: nat := 21888242871839275222246405745257275088548364400416034343698204186575808495617

  const LEAF_BYTES: nat := 128

  /** The y coordinate of a packed key: its low 255 bits, little endian. */
  function UnpackY(bjj: BJJ): Bytes {
    SwapEndianness(bjj[..31] + [bjj[31] % 128])
  }

  function PackSignY(sign: bool, y: Bytes): BJJ
    requires |y| == 32
  {
    var le := SwapEndianness(y);
    le[..31] + [le[31] % 128 + (if sign then 128 else 0)]
  }

  function BalanceBytes(balance: nat): Bytes
    requires balance < BALANCE_LIMIT
  {
    BE(balance, 32)
  }

  /** Four field elements: token, nonce and sign; balance; key; address. */
  function AccountBytes(acc: Account): Result<Bytes, Error>
    requires 0 <= acc.balance
  {
    if !Ledger.Fits(acc) then Err(NumOverflow)
    else
      var nonce :- NonceBytes(acc.nonce);
      Ok(Zeros(22) + [if acc.bjj[31] >= 128 then 1 else 0] + nonce + TokenIDBytes(acc.tokenID)
         + BalanceBytes(acc.balance) + UnpackY(acc.bjj) + Zeros(12) + acc.ethAddr)
  }

  function AccountFromBytes(b: Bytes): Result<Account, Error>
    requires |b| == LEAF_BYTES
  {
    var balance := FromBE(b[40..64]);
    var ay := b[64..96];
    FromBEBound4(b[28..32]);
    if b[32..40] != Zeros(8) then Err(NumOverflow)
    else if balance >= FIELD || FromBE(ay) >= FIELD then Err(MalformedTx)
    else Ok(Account(FromBE(b[28..32]), FromBE(b[23..28]), balance, PackSignY(b[22] == 1, ay), b[108..128]))
  }

  lemma PackUnpack(bjj: BJJ)
    ensures PackSignY(bjj[31] >= 128, UnpackY(bjj)) == bjj
  {
    SwapTwice(bjj[..31] + [bjj[31] % 128]);
    assert bjj == bjj[..31] + [bjj[31]];
  }

  lemma BalanceRoundTrip(balance: nat)
    requires balance < BALANCE_LIMIT
    ensures BalanceBytes(balance)[..8] == Zeros(8) && FromBE(BalanceBytes(balance)[8..]) == balance
  {
    BESuffix(balance, 32, 24);
    FromBEofBE(balance, 24);
    Pow256TwentyFour();
    HighBytesAreZero(balance, 24, 8);
  }

  lemma Pow256TwentyFour()
    ensures Pow256(24) == BALANCE_LIMIT
  {
    Pow256Add(6, 6);
    Pow256Add(12, 12);
    Pow256Six();
    assert Pow256(12) == 0x1_0000_0000_0000_0000_0000_0000;
  }

  lemma {:induction false} Pow256Add(a: nat, b: nat)
    ensures Pow256(a + b) == Pow256(a) * Pow256(b)
  {
    if a > 0 {
      Pow256Add(a - 1, b);
      assert Pow256(a + b) == 256 * (Pow256(a - 1) * Pow256(b));
      Arithmetic.MulAssociates(256, Pow256(a - 1), Pow256(b));
    }
  }

  lemma {:induction false} HighBytesAreZero(n: nat, k: nat, z: nat)
    requires n < Pow256(k)
    ensures BE(n, k + z)[..z] == Zeros(z)
  {
    if k == 0 {
      ZeroBytes(z);
    } else {
      HighBytesAreZero(n / 256, k - 1, z);
      assert BE(n, k + z)[..z] == BE(n / 256, k - 1 + z)[..z];
    }
  }

  lemma {:induction false} ZeroBytes(z: nat)
    ensures BE(0, z) == Zeros(z)
  {
    if z > 0 {
      ZeroBytes(z - 1);
    }
  }

  /**
   A leaf that can be written is read back as the same account if and only if the coordinate of
   its key is a field element; otherwise reading it fails.
   */
  lemma AccountRoundTripIff(acc: Account)
    requires 0 <= acc.balance && AccountBytes(acc).Ok?
    ensures |AccountBytes(acc).value| == LEAF_BYTES
    ensures FromBE(UnpackY(acc.bjj)) < FIELD ==> AccountFromBytes(AccountBytes(acc).value) == Ok(acc)
    ensures FromBE(UnpackY(acc.bjj)) >= FIELD ==> AccountFromBytes(AccountBytes(acc).value).Err?
  {
    hide FromBE, TokenIDBytes, NonceBytes, UnpackY, PackSignY, BalanceBytes;
    var b := AccountBytes(acc).value;
    var nonce := NonceBytes(acc.nonce).value;
    NonceRoundTrip(acc.nonce);
    TokenRoundTrip(acc.tokenID);
    TokenLength(acc.tokenID);
    BalanceRoundTrip(acc.balance);
    LeafLengths(acc.balance, acc.bjj);
    PackUnpack(acc.bjj);
    var balance := BalanceBytes(acc.balance);
    assert b[22] == if acc.bjj[31] >= 128 then 1 else 0;
    assert b[23..28] == nonce && b[28..32] == TokenIDBytes(acc.tokenID);
    assert b[32..64] == balance && b[32..40] == balance[..8] && b[40..64] == balance[8..];
    assert b[64..96] == UnpackY(acc.bjj) && b[108..128] == acc.ethAddr;
  }

  lemma LeafLengths(balance: nat, bjj: BJJ)
    requires balance < BALANCE_LIMIT
    ensures |BalanceBytes(balance)| == 32 && |UnpackY(bjj)| == 32
  {
  }
}
