/**
 The byte formats of indexes, amounts and txs (common/account.go, token.go, float40.go, l1tx.go,
 l2tx.go, pooll2tx.go).
 */
module Codecs {
  import opened Wrappers
  import opened Common
  import Arithmetic
  import Float40

  type Bytes = seq<byte>

  const IDX_BYTES: nat := 6
  const FLOAT40_BYTES: nat := 5
  const L1_USER_BYTES: nat := 78
  const L1_COORDINATOR_BYTES: nat := 101

  // ---- Big-endian numbers ----

  function Pow256(k: nat): (r: nat)
    ensures r > 0
  {
    if k == 0 then 1 else 256 * Pow256(k - 1)
  }

  /** The last `k` bytes of a number. */
  function BE(n: nat, k: nat): (b: Bytes)
    ensures |b| == k
  {
    if k == 0 then [] else BE(n / 256, k - 1) + [n % 256]
  }

  function FromBE(b: Bytes): nat {
    if b == [] then 0 else 256 * FromBE(b[..|b| - 1]) + b[|b| - 1]
  }

  lemma {:induction false} FromBEofBE(n: nat, k: nat)
    ensures FromBE(BE(n, k)) == n % Pow256(k)
  {
    if k > 0 {
      var b := BE(n, k);
      assert b[..|b| - 1] == BE(n / 256, k - 1);
      FromBEofBE(n / 256, k - 1);
      ModStep(n, Pow256(k - 1));
    }
  }

  lemma ModStep(n: nat, p: nat)
    requires p > 0
    ensures 256 * (n / 256 % p) + n % 256 == n % (256 * p)
  {
    var q, r := n / 256 / p, n / 256 % p;
    assert n / 256 == q * p + r;
    assert n == 256 * (q * p + r) + n % 256;
    Regroup(q, p);
    var low := 256 * r + n % 256;
    assert n == q * (256 * p) + low;
    assert r + 1 <= p;
    assert low < 256 * p;
    ModUnique(n, 256 * p, q, low);
  }

  lemma Regroup(q: nat, p: nat)
    ensures 256 * (q * p) == q * (256 * p)
  {
  }

  lemma ModUnique(n: nat, m: nat, q: nat, r: nat)
    requires m > 0 && r < m && n == q * m + r
    ensures n % m == r
  {
    if n / m < q {
      assert (n / m + 1) * m <= q * m by { Arithmetic.MulMonotone(n / m + 1, q, m); }
    } else if n / m > q {
      assert (q + 1) * m <= n / m * m by { Arithmetic.MulMonotone(q + 1, n / m, m); }
    }
  }

  lemma {:induction false} FromBEBound(b: Bytes)
    ensures FromBE(b) < Pow256(|b|)
  {
    if b != [] {
      FromBEBound(b[..|b| - 1]);
    }
  }

  /** Leading bytes can be cut off a longer encoding. */
  lemma {:induction false} BESuffix(n: nat, m: nat, k: nat)
    requires k <= m
    ensures BE(n, m)[m - k..] == BE(n, k)
  {
    if k > 0 {
      BESuffix(n / 256, m - 1, k - 1);
      assert BE(n, m)[m - k..] == BE(n / 256, m - 1)[m - 1 - (k - 1)..] + [n % 256];
    }
  }

  function Zeros(n: nat): (z: Bytes)
    ensures |z| == n
  {
    seq(n, _ => 0)
  }

  lemma {:induction false} FromBEPadded(n: nat, b: Bytes)
    ensures FromBE(Zeros(n) + b) == FromBE(b)
  {
    if b != [] {
      var k := |b| - 1;
      assert (Zeros(n) + b)[..n + k] == Zeros(n) + b[..k];
      FromBEPadded(n, b[..k]);
    } else if n > 0 {
      assert (Zeros(n) + b)[..n - 1] == Zeros(n - 1) + b;
      FromBEPadded(n - 1, b);
    }
  }

  // ---- Indexes, nonces, tokens, amounts ----

  function IdxBytes(idx: Idx): Result<Bytes, Error> {
    if idx > MAX_IDX then Err(NumOverflow) else Ok(BE(idx, 8)[2..])
  }

  function IdxFromBytes(b: Bytes): Result<Idx, Error> {
    if |b| != IDX_BYTES then Err(MalformedTx) else Ok(FromBE(Zeros(2) + b))
  }

  function NonceBytes(nonce: nat): Result<Bytes, Error> {
    if nonce > MAX_NONCE then Err(NumOverflow) else Ok(BE(nonce, 8)[3..])
  }

  function TokenIDBytes(token: TokenID): Bytes {
    BE(token, 4)
  }

  function AmountBytes(amount: nat): Result<Bytes, Error> {
    var f :- Float40.Encode(amount);
    if f > Float40.MAX_FLOAT40 then Err(NumOverflow) else Ok(BE(f, 8)[3..])
  }

  /** The number that five bytes of a Float40 stand for. */
  function AmountFromBytes(b: Bytes): Result<nat, Error> {
    Float40.Decode(FromBE(Zeros(3) + b))
  }

  /** An index in `k` bytes; what does not fit is cut off. */
  lemma IdxRoundTrip(idx: Idx, k: nat)
    requires k <= IDX_BYTES && idx <= MAX_IDX
    ensures IdxBytes(idx).Ok? && |IdxBytes(idx).value| == IDX_BYTES
    ensures var b := IdxBytes(idx).value[IDX_BYTES - k..];
            |b| == k && IdxFromBytes(Zeros(IDX_BYTES - k) + b) == Ok(idx % Pow256(k))
  {
    BESuffix(idx, 8, 6);
    BESuffix(idx, 6, k);
    FromBEofBE(idx, k);
    FromBEPadded(IDX_BYTES - k, BE(idx, k));
    FromBEPadded(2, Zeros(IDX_BYTES - k) + BE(idx, k));
  }

  lemma Pow256Five()
    ensures Pow256(5) == 0x100_0000_0000
  {
    assert Pow256(2) == 0x1_0000;
    assert Pow256(4) == 0x1_0000_0000;
  }

  lemma AmountRoundTrip(amount: nat)
    ensures AmountBytes(amount).Ok? <==> Float40.Encodable(amount)
    ensures AmountBytes(amount).Ok? ==>
              |AmountBytes(amount).value| == FLOAT40_BYTES && AmountFromBytes(AmountBytes(amount).value) == Ok(amount)
  {
    hide Float40.Encode, Float40.Decode, BE, FromBE, Pow256;
    if Float40.Encodable(amount) {
      Float40.DecodeEncode(amount);
      var f := Float40.Encode(amount).value;
      BESuffix(f, 8, 5);
      FromBEofBE(f, 5);
      FromBEPadded(3, BE(f, 5));
      Pow256Five();
    }
  }

  lemma TokenRoundTrip(token: TokenID)
    ensures FromBE(TokenIDBytes(token)) == token
  {
    FromBEofBE(token, 4);
    assert Pow256(4) == 0x1_0000_0000;
  }

  // ---- Data availability of one tx ----

  /** The buffer is filled up to the end of `front`. */
  ghost predicate Filled(b: array<byte>, front: Bytes)
    reads b
  {
    |front| <= b.Length && b[..] == front + Zeros(b.Length - |front|)
  }

  /** Copies bytes into a buffer, right behind what it is filled with. */
  method Put(b: array<byte>, at: nat, src: Bytes, ghost front: Bytes)
    requires Filled(b, front) && at == |front| && at + |src| <= b.Length
    modifies b
    ensures Filled(b, front + src)
  {
    for i := 0 to |src|
      invariant b[..] == front + src[..i] + Zeros(b.Length - at - i)
    {
      b[at + i] := src[i];
    }
    assert src[..|src|] == src;
  }

  lemma Empty(b: array<byte>)
    requires forall i :: 0 <= i < b.Length ==> b[i] == 0
    ensures Filled(b, [])
  {
  }

  /** Bytes that are not filled in are zero. */
  lemma FilledUpToZeros(b: array<byte>, front: Bytes)
    requires Filled(b, front)
    ensures b[..] == front + Zeros(b.Length - |front|)
    ensures b.Length == |front| + 1 ==> b[..] == front + [0]
    ensures b.Length == |front| + 6 ==> b[..] == front + Zeros(5) + [0]
  {
  }

  lemma FilledAll(b: array<byte>, front: Bytes)
    requires Filled(b, front)
    ensures |front| == b.Length ==> b[..] == front
  {
  }

  /** Sender, receiver, amount and fee, the indexes in `nLevels / 8` bytes each. */
  function L2Data(tx: L2Tx, nLevels: nat): Result<Bytes, Error>
    requires nLevels <= 48
  {
    var k := nLevels / 8;
    var from :- IdxBytes(tx.fromIdx);
    var to :- IdxBytes(tx.toIdx);
    var amount :- AmountBytes(tx.amount);
    Ok(from[|from| - k..] + to[|to| - k..] + amount + [tx.fee])
  }

  method L2BytesDataAvailability(tx: L2Tx, nLevels: nat) returns (r: Result<Bytes, Error>)
    requires nLevels % 8 == 0 && nLevels <= 48
    ensures r == L2Data(tx, nLevels)
  {
    hide AmountBytes, IdxBytes, Filled;
    IdxKnown(tx.fromIdx);
    IdxKnown(tx.toIdx);
    var idxLen := nLevels / 8;
    var b := new byte[(nLevels * 2 + 40 + 8) / 8](_ => 0);
    ghost var front: Bytes := [];
    var fromIdxBytes := IdxBytes(tx.fromIdx);
    if fromIdxBytes.Err? {
      return Err(fromIdxBytes.error);
    }
    var from := fromIdxBytes.value[6 - idxLen..];
    assert Filled(b, front) by { Empty(b); }
    Put(b, 0, from, front);
    assert front + from == from;
    front := from;
    var toIdxBytes := IdxBytes(tx.toIdx);
    if toIdxBytes.Err? {
      return Err(toIdxBytes.error);
    }
    var to := toIdxBytes.value[6 - idxLen..];
    Put(b, idxLen, to, front);
    front := front + to;
    var amountBytes := AmountBytes(tx.amount);
    if amountBytes.Err? {
      return Err(amountBytes.error);
    }
    AmountRoundTrip(tx.amount);
    Put(b, idxLen * 2, amountBytes.value, front);
    front := front + amountBytes.value;
    Put(b, idxLen * 2 + FLOAT40_BYTES, [tx.fee], front);
    FilledAll(b, front + [tx.fee]);
    return Ok(b[..]);
  }

  function DataLen(nLevels: nat): nat {
    nLevels / 8 * 2 + FLOAT40_BYTES + 1
  }

  function L2FromData(b: Bytes, nLevels: nat): Result<L2Tx, Error>
    requires nLevels <= 48 && |b| == DataLen(nLevels)
  {
    var k := nLevels / 8;
    var from :- IdxFromBytes(Zeros(6 - k) + b[..k]);
    var to :- IdxFromBytes(Zeros(6 - k) + b[k..k * 2]);
    var amount :- AmountFromBytes(b[k * 2..k * 2 + FLOAT40_BYTES]);
    Ok(L2Tx(from, to, amount, b[k * 2 + FLOAT40_BYTES], TxTypeNone))
  }

  /** An index fits in the tree. */
  predicate FitsLevels(idx: Idx, nLevels: nat) {
    idx < Pow256(nLevels / 8)
  }

  /**
   A published L2 tx is read back as it was written, but for its type, if and only if both its
   indexes fit in the levels of the tree.
   */
  lemma L2RoundTripIff(tx: L2Tx, nLevels: nat)
    requires nLevels <= 48 && L2Data(tx, nLevels).Ok?
    ensures |L2Data(tx, nLevels).value| == DataLen(nLevels)
    ensures L2FromData(L2Data(tx, nLevels).value, nLevels).Ok?
    ensures L2FromData(L2Data(tx, nLevels).value, nLevels) == Ok(tx.(txType := TxTypeNone))
            <==> FitsLevels(tx.fromIdx, nLevels) && FitsLevels(tx.toIdx, nLevels)
  {
    hide AmountBytes, AmountFromBytes, IdxBytes, IdxFromBytes, Pow256;
    var k := nLevels / 8;
    IdxKnown(tx.fromIdx);
    IdxKnown(tx.toIdx);
    IdxRoundTrip(tx.fromIdx, k);
    IdxRoundTrip(tx.toIdx, k);
    AmountRoundTrip(tx.amount);
    var b := L2Data(tx, nLevels).value;
    assert b[..k] == IdxBytes(tx.fromIdx).value[6 - k..];
    assert b[k..k * 2] == IdxBytes(tx.toIdx).value[6 - k..];
    assert b[k * 2..k * 2 + FLOAT40_BYTES] == AmountBytes(tx.amount).value;
    ModFits(tx.fromIdx, Pow256(k));
    ModFits(tx.toIdx, Pow256(k));
  }

  lemma IdxKnown(idx: Idx)
    ensures IdxBytes(idx).Ok? <==> idx <= MAX_IDX
    ensures IdxBytes(idx).Ok? ==> |IdxBytes(idx).value| == 6
  {
  }

  lemma ModFits(n: nat, m: nat)
    requires m > 0
    ensures n % m == n <==> n < m
  {
  }

  /** Sender, receiver and effective amount of an L1 tx; its fee is always zero. */
  function L1Data(tx: L1Tx, nLevels: nat): Result<Bytes, Error>
    requires nLevels <= 48
  {
    var k := nLevels / 8;
    var from :- IdxBytes(tx.fromIdx);
    var to :- IdxBytes(tx.toIdx);
    var amount :- if tx.effectiveAmount.None? then Ok(Zeros(FLOAT40_BYTES)) else AmountBytes(tx.effectiveAmount.value);
    Ok(from[|from| - k..] + to[|to| - k..] + amount + [0])
  }

  method L1BytesDataAvailability(tx: L1Tx, nLevels: nat) returns (r: Result<Bytes, Error>)
    requires nLevels % 8 == 0 && nLevels <= 48
    ensures r == L1Data(tx, nLevels)
  {
    hide AmountBytes, IdxBytes, Filled;
    IdxKnown(tx.fromIdx);
    IdxKnown(tx.toIdx);
    var idxLen := nLevels / 8;
    var b := new byte[(nLevels * 2 + 40 + 8) / 8](_ => 0);
    ghost var front: Bytes := [];
    var fromIdxBytes := IdxBytes(tx.fromIdx);
    if fromIdxBytes.Err? {
      return Err(fromIdxBytes.error);
    }
    var from := fromIdxBytes.value[6 - idxLen..];
    assert Filled(b, front) by { Empty(b); }
    Put(b, 0, from, front);
    assert front + from == from;
    front := from;
    var toIdxBytes := IdxBytes(tx.toIdx);
    if toIdxBytes.Err? {
      return Err(toIdxBytes.error);
    }
    var to := toIdxBytes.value[6 - idxLen..];
    Put(b, idxLen, to, front);
    front := front + to;
    if tx.effectiveAmount.Some? {
      var amountBytes := AmountBytes(tx.effectiveAmount.value);
      if amountBytes.Err? {
        return Err(amountBytes.error);
      }
      AmountRoundTrip(tx.effectiveAmount.value);
      Put(b, idxLen * 2, amountBytes.value, front);
      front := front + amountBytes.value;
    }
    FilledUpToZeros(b, front);
    return Ok(b[..]);
  }

  const BLANK_L1 := L1Tx(0, false, 0, EMPTY_ADDR, EMPTY_BJJ, 0, 0, 0, 0, None, None, TxTypeNone)

  /** What an L1 tx is known by from its data: its indexes and its effective amount. */
  function L1Published(tx: L1Tx): L1Tx {
    BLANK_L1.(fromIdx := tx.fromIdx, toIdx := tx.toIdx,
              effectiveAmount := Some(if tx.effectiveAmount.Some? then tx.effectiveAmount.value else 0))
  }

  function L1FromData(b: Bytes, nLevels: nat): Result<L1Tx, Error>
    requires nLevels <= 48 && |b| == DataLen(nLevels)
  {
    var k := nLevels / 8;
    var from :- IdxFromBytes(Zeros(6 - k) + b[..k]);
    var to :- IdxFromBytes(Zeros(6 - k) + b[k..k * 2]);
    var amount :- AmountFromBytes(b[k * 2..k * 2 + FLOAT40_BYTES]);
    Ok(BLANK_L1.(fromIdx := from, toIdx := to, effectiveAmount := Some(amount)))
  }

  lemma L1RoundTripIff(tx: L1Tx, nLevels: nat)
    requires nLevels <= 48 && L1Data(tx, nLevels).Ok?
    ensures |L1Data(tx, nLevels).value| == DataLen(nLevels)
    ensures L1FromData(L1Data(tx, nLevels).value, nLevels).Ok?
    ensures L1FromData(L1Data(tx, nLevels).value, nLevels) == Ok(L1Published(tx))
            <==> FitsLevels(tx.fromIdx, nLevels) && FitsLevels(tx.toIdx, nLevels)
  {
    hide AmountBytes, AmountFromBytes, IdxBytes, IdxFromBytes, Pow256;
    var k := nLevels / 8;
    IdxKnown(tx.fromIdx);
    IdxKnown(tx.toIdx);
    IdxRoundTrip(tx.fromIdx, k);
    IdxRoundTrip(tx.toIdx, k);
    ZeroAmount();
    if tx.effectiveAmount.Some? {
      AmountRoundTrip(tx.effectiveAmount.value);
    }
    var b := L1Data(tx, nLevels).value;
    assert b[..k] == IdxBytes(tx.fromIdx).value[6 - k..];
    assert b[k..k * 2] == IdxBytes(tx.toIdx).value[6 - k..];
    assert b[k * 2..k * 2 + FLOAT40_BYTES]
           == if tx.effectiveAmount.None? then Zeros(FLOAT40_BYTES) else AmountBytes(tx.effectiveAmount.value).value;
    ModFits(tx.fromIdx, Pow256(k));
    ModFits(tx.toIdx, Pow256(k));
  }

  lemma ZeroAmount()
    ensures AmountFromBytes(Zeros(FLOAT40_BYTES)) == Ok(0)
  {
    FromBEPadded(3, Zeros(FLOAT40_BYTES));
    FromBEPadded(5, []);
    assert Zeros(5) + [] == Zeros(5);
  }
}
