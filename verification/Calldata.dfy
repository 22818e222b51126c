/** How a batch is laid out in the data of the forge call, and read back from it (eth/rollup.go). */
module Calldata {
  import opened Wrappers
  import opened Common
  import opened Arithmetic
  import opened Codecs
  import opened TxBytes

  datatype ForgeArgs = ForgeArgs(
    l1UserTxs: seq<L1Tx>,
    l1CoordinatorTxs: seq<L1Tx>,
    l1CoordinatorTxsAuths: seq<Bytes>,
    l2TxsData: seq<L2Tx>,
    feeIdxCoordinator: seq<Idx>
  )

  datatype Calldata = Calldata(encodedL1CoordinatorTx: Bytes, l1L2TxsData: Bytes, feeIdxCoordinator: Bytes)

  // ---- Lists of encoded items ----

  type Encoder<!T> = T -> Result<Bytes, Error>
  type Decoder<!T> = Bytes -> Result<T, Error>

  /** The encodings of all items, one after the other. */
  function Join<T>(enc: Encoder<T>, items: seq<T>): Result<Bytes, Error> {
    if items == [] then Ok([])
    else
      var head :- enc(items[0]);
      var tail :- Join(enc, items[1..]);
      Ok(head + tail)
  }

  /** The items of all complete pieces of length `len`. */
  function Split<T>(dec: Decoder<T>, len: nat, b: Bytes): Result<seq<T>, Error>
    requires len > 0
  {
    if |b| < len then Ok([])
    else
      var head :- dec(b[..len]);
      var tail :- Split(dec, len, b[len..]);
      Ok([head] + tail)
  }

  function Prepend<T>(front: seq<T>, r: Result<seq<T>, Error>): Result<seq<T>, Error> {
    if r.Ok? then Ok(front + r.value) else r
  }

  lemma PrependNothing<T>(r: Result<seq<T>, Error>)
    ensures Prepend([], r) == r
  {
    if r.Ok? {
      assert [] + r.value == r.value;
    }
  }

  lemma PrependTwice<T>(a: seq<T>, b: seq<T>, r: Result<seq<T>, Error>)
    ensures Prepend(a, Prepend(b, r)) == Prepend(a + b, r)
  {
    if r.Ok? {
      assert a + (b + r.value) == a + b + r.value;
    }
  }

  /** What has been joined of a list when the items from the i-th on are left. */
  ghost predicate Joined<T>(enc: Encoder<T>, items: seq<T>, i: nat, data: Bytes)
    requires i <= |items|
  {
    Join(enc, items) == Prepend(data, Join(enc, items[i..]))
  }

  lemma JoinStarts<T>(enc: Encoder<T>, items: seq<T>)
    ensures Joined(enc, items, 0, [])
  {
    assert items[0..] == items;
    PrependNothing(Join(enc, items));
  }

  lemma JoinNext<T>(enc: Encoder<T>, items: seq<T>, i: nat, data: Bytes)
    requires i < |items| && Joined(enc, items, i, data)
    ensures match enc(items[i])
            case Err(e) => Join(enc, items) == Err(e)
            case Ok(b) => Joined(enc, items, i + 1, data + b)
  {
    assert items[i..][1..] == items[i + 1..];
    if enc(items[i]).Ok? {
      PrependTwice(data, enc(items[i]).value, Join(enc, items[i + 1..]));
    }
  }

  lemma JoinEnds<T>(enc: Encoder<T>, items: seq<T>, data: Bytes)
    requires Joined(enc, items, |items|, data)
    ensures Join(enc, items) == Ok(data)
  {
    assert data + [] == data;
  }

  function Map<S, T>(f: S -> T, items: seq<S>): (r: seq<T>)
    ensures |r| == |items| && forall i :: 0 <= i < |items| ==> r[i] == f(items[i])
  {
    seq(|items|, i requires 0 <= i < |items| => f(items[i]))
  }

  /** Items that are read back one by one are read back from their joined encodings. */
  lemma {:induction false} SplitJoin<S, T>(enc: Encoder<S>, dec: Decoder<T>, view: S -> T, len: nat, items: seq<S>)
    requires len > 0 && Join(enc, items).Ok?
    requires forall x :: x in items && enc(x).Ok? ==> |enc(x).value| == len && dec(enc(x).value) == Ok(view(x))
    ensures |Join(enc, items).value| == |items| * len
    ensures Split(dec, len, Join(enc, items).value) == Ok(Map(view, items))
  {
    if items != [] {
      assert items[0] in items;
      var head := enc(items[0]).value;
      var tail := Join(enc, items[1..]).value;
      SplitJoin(enc, dec, view, len, items[1..]);
      assert (head + tail)[..len] == head && (head + tail)[len..] == tail;
      assert Map(view, items) == [view(items[0])] + Map(view, items[1..]);
      OnePieceMore(|items|, len);
    }
  }

  lemma OnePieceMore(n: nat, len: nat)
    requires n > 0
    ensures n * len == len + (n - 1) * len
  {
  }

  // ---- Encoders and decoders of one item ----

  function L1Encoder(nLevels: nat): Encoder<L1Tx>
    requires nLevels <= 48
  {
    (tx: L1Tx) => L1Data(tx, nLevels)
  }

  function L2Encoder(nLevels: nat): Encoder<L2Tx>
    requires nLevels <= 48
  {
    (tx: L2Tx) => L2Data(tx, nLevels)
  }

  /** A coordinator tx with its authorization. */
  function CoordinatorEncoder(): Encoder<(L1Tx, Bytes)> {
    (c: (L1Tx, Bytes)) => if |c.1| == SIGNATURE_BYTES then BytesCoordinatorTx(c.0, c.1) else Err(MalformedTx)
  }

  function FeeIdxEncoder(nLevels: nat): Encoder<Idx>
    requires nLevels <= 48
  {
    (idx: Idx) => if IdxBytes(idx).Ok? && |IdxBytes(idx).value| == 6
          then Ok(IdxBytes(idx).value[6 - nLevels / 8..]) else Err(NumOverflow)
  }

  function L1Decoder(nLevels: nat): Decoder<L1Tx>
    requires nLevels <= 48
  {
    (b: Bytes) => if |b| == DataLen(nLevels) then L1FromData(b, nLevels) else Err(MalformedTx)
  }

  function L2Decoder(nLevels: nat): Decoder<L2Tx>
    requires nLevels <= 48
  {
    (b: Bytes) => if |b| == DataLen(nLevels) then L2FromData(b, nLevels) else Err(MalformedTx)
  }

  function CoordinatorDecoder(recover: Recover): Decoder<(L1Tx, Bytes)> {
    (b: Bytes) =>
      if |b| != L1_COORDINATOR_BYTES then Err(MalformedTx)
      else match L1CoordinatorTxFromBytes(b, recover)
           case Ok(tx) => Ok((tx, SignatureFromBytes(b)))
           case Err(e) => Err(e)
  }

  function FeeIdxDecoder(nLevels: nat): Decoder<Idx>
    requires nLevels <= 48
  {
    (b: Bytes) => IdxFromBytes(Zeros(6 - nLevels / 8) + b)
  }

  // ---- The whole call ----

  function Pairs(txs: seq<L1Tx>, auths: seq<Bytes>): (r: seq<(L1Tx, Bytes)>)
    requires |txs| == |auths|
    ensures |r| == |txs|
  {
    seq(|txs|, i requires 0 <= i < |txs| => (txs[i], auths[i]))
  }

  /** The fee indexes, filled up with zeros to the number that the contract has room for. */
  function Padded(idxs: seq<Idx>): (r: seq<Idx>)
    ensures |r| == MAX_FEE_IDX_COORDINATOR
  {
    seq(MAX_FEE_IDX_COORDINATOR, i requires 0 <= i < MAX_FEE_IDX_COORDINATOR => if i < |idxs| then idxs[i] else 0)
  }

  function NonZero(idxs: seq<Idx>): seq<Idx> {
    if idxs == [] then [] else (if idxs[0] != 0 then [idxs[0]] else []) + NonZero(idxs[1..])
  }

  predicate Authorizations(args: ForgeArgs) {
    && |args.l1CoordinatorTxs| == |args.l1CoordinatorTxsAuths|
    && forall i :: 0 <= i < |args.l1CoordinatorTxsAuths| ==> |args.l1CoordinatorTxsAuths[i]| == SIGNATURE_BYTES
  }

  function Pack(args: ForgeArgs, nLevels: nat): Result<Calldata, Error>
    requires nLevels <= 48 && Authorizations(args)
  {
    var coord :- Join(CoordinatorEncoder(), Pairs(args.l1CoordinatorTxs, args.l1CoordinatorTxsAuths));
    var userData :- Join(L1Encoder(nLevels), args.l1UserTxs);
    var coordData :- Join(L1Encoder(nLevels), args.l1CoordinatorTxs);
    var l2Data :- Join(L2Encoder(nLevels), args.l2TxsData);
    if |args.feeIdxCoordinator| > MAX_FEE_IDX_COORDINATOR then Err(TooManyTxs)
    else
      var fees :- Join(FeeIdxEncoder(nLevels), Padded(args.feeIdxCoordinator));
      Ok(Calldata(coord, userData + coordData + l2Data, fees))
  }

  /** What the L1 queue and the data of the call determine. */
  function Unpack(data: Calldata, nUser: nat, nLevels: nat, recover: Recover): Result<ForgeArgs, Error>
    requires 8 <= nLevels <= 48 && nUser * DataLen(nLevels) <= |data.l1L2TxsData|
  {
    var len := DataLen(nLevels);
    var nCoord := |data.encodedL1CoordinatorTx| / L1_COORDINATOR_BYTES;
    var start := nCoord * len + nUser * len;
    var user :- Split(L1Decoder(nLevels), len, data.l1L2TxsData[..nUser * len]);
    var l2 :- Split(L2Decoder(nLevels), len, if start < |data.l1L2TxsData| then data.l1L2TxsData[start..] else []);
    var coord :- Split(CoordinatorDecoder(recover), L1_COORDINATOR_BYTES, data.encodedL1CoordinatorTx);
    var fees :- Split(FeeIdxDecoder(nLevels), nLevels / 8, data.feeIdxCoordinator);
    Ok(ForgeArgs(user, Map((c: (L1Tx, Bytes)) => c.0, coord), Map((c: (L1Tx, Bytes)) => c.1, coord), l2, NonZero(fees)))
  }

  method EncodeL1Txs(txs: seq<L1Tx>, nLevels: nat) returns (r: Result<Bytes, Error>)
    requires nLevels % 8 == 0 && nLevels <= 48
    ensures r == Join(L1Encoder(nLevels), txs)
  {
    hide L1Data, Joined, Join;
    var data: Bytes := [];
    JoinStarts(L1Encoder(nLevels), txs);
    for i := 0 to |txs|
      invariant Joined(L1Encoder(nLevels), txs, i, data)
    {
      JoinNext(L1Encoder(nLevels), txs, i, data);
      var b := L1BytesDataAvailability(txs[i], nLevels);
      if b.Err? {
        return b;
      }
      data := data + b.value;
    }
    JoinEnds(L1Encoder(nLevels), txs, data);
    return Ok(data);
  }

  method EncodeL2Txs(txs: seq<L2Tx>, nLevels: nat) returns (r: Result<Bytes, Error>)
    requires nLevels % 8 == 0 && nLevels <= 48
    ensures r == Join(L2Encoder(nLevels), txs)
  {
    hide L2Data, Joined, Join;
    var data: Bytes := [];
    JoinStarts(L2Encoder(nLevels), txs);
    for i := 0 to |txs|
      invariant Joined(L2Encoder(nLevels), txs, i, data)
    {
      JoinNext(L2Encoder(nLevels), txs, i, data);
      var b := L2BytesDataAvailability(txs[i], nLevels);
      if b.Err? {
        return b;
      }
      data := data + b.value;
    }
    JoinEnds(L2Encoder(nLevels), txs, data);
    return Ok(data);
  }

  method EncodeCoordinatorTxs(txs: seq<L1Tx>, auths: seq<Bytes>) returns (r: Result<Bytes, Error>)
    requires |txs| == |auths| && forall i :: 0 <= i < |auths| ==> |auths[i]| == SIGNATURE_BYTES
    ensures r == Join(CoordinatorEncoder(), Pairs(txs, auths))
  {
    hide BytesCoordinatorTx, Joined, Join;
    var data: Bytes := [];
    ghost var pairs := Pairs(txs, auths);
    JoinStarts(CoordinatorEncoder(), pairs);
    for i := 0 to |txs|
      invariant Joined(CoordinatorEncoder(), pairs, i, data)
    {
      JoinNext(CoordinatorEncoder(), pairs, i, data);
      var b := BytesCoordinatorTx(txs[i], auths[i]);
      if b.Err? {
        return b;
      }
      data := data + b.value;
    }
    JoinEnds(CoordinatorEncoder(), pairs, data);
    return Ok(data);
  }

  method EncodeFeeIdxs(idxs: seq<Idx>, nLevels: nat) returns (r: Result<Bytes, Error>)
    requires nLevels <= 48
    ensures r == Join(FeeIdxEncoder(nLevels), Padded(idxs))
  {
    hide IdxBytes, Joined, Join;
    var data: Bytes := [];
    ghost var padded := Padded(idxs);
    JoinStarts(FeeIdxEncoder(nLevels), padded);
    for i := 0 to MAX_FEE_IDX_COORDINATOR
      invariant Joined(FeeIdxEncoder(nLevels), padded, i, data)
    {
      JoinNext(FeeIdxEncoder(nLevels), padded, i, data);
      var feeIdx: Idx := 0;
      if i < |idxs| {
        feeIdx := idxs[i];
      }
      IdxKnown(feeIdx);
      OverflowError(feeIdx);
      var b := IdxBytes(feeIdx);
      if b.Err? {
        return b;
      }
      data := data + b.value[|b.value| - nLevels / 8..];
    }
    JoinEnds(FeeIdxEncoder(nLevels), padded, data);
    return Ok(data);
  }

  lemma OverflowError(idx: Idx)
    ensures IdxBytes(idx).Err? ==> IdxBytes(idx) == Err(NumOverflow)
  {
  }

  /** Lays a batch out as the data of the forge call. */
  method RollupForgeBatch(args: ForgeArgs, nLevels: nat) returns (r: Result<Calldata, Error>)
    requires nLevels % 8 == 0 && nLevels <= 48 && Authorizations(args)
    ensures r == Pack(args, nLevels)
  {
    hide Join, CoordinatorEncoder, L1Encoder, L2Encoder, FeeIdxEncoder;
    var coord := EncodeCoordinatorTxs(args.l1CoordinatorTxs, args.l1CoordinatorTxsAuths);
    if coord.Err? {
      return Err(coord.error);
    }
    var l1l2TxData := EncodeL1Txs(args.l1UserTxs, nLevels);
    if l1l2TxData.Err? {
      return Err(l1l2TxData.error);
    }
    var coordData := EncodeL1Txs(args.l1CoordinatorTxs, nLevels);
    if coordData.Err? {
      return Err(coordData.error);
    }
    var l2Data := EncodeL2Txs(args.l2TxsData, nLevels);
    if l2Data.Err? {
      return Err(l2Data.error);
    }
    if |args.feeIdxCoordinator| > MAX_FEE_IDX_COORDINATOR {
      return Err(TooManyTxs);
    }
    var fees := EncodeFeeIdxs(args.feeIdxCoordinator, nLevels);
    if fees.Err? {
      return Err(fees.error);
    }
    return Ok(Calldata(coord.value, l1l2TxData.value + coordData.value + l2Data.value, fees.value));
  }

  /** What has been split off when the bytes from `pos` on are left. */
  ghost predicate Splitting<T>(dec: Decoder<T>, len: nat, b: Bytes, pos: nat, items: seq<T>)
    requires len > 0
  {
    pos <= |b| && Split(dec, len, b) == Prepend(items, Split(dec, len, b[pos..]))
  }

  lemma SplitStarts<T>(dec: Decoder<T>, len: nat, b: Bytes)
    requires len > 0
    ensures Splitting(dec, len, b, 0, [])
  {
    assert b[0..] == b;
    PrependNothing(Split(dec, len, b));
  }

  lemma SplitNext<T>(dec: Decoder<T>, len: nat, b: Bytes, pos: nat, items: seq<T>)
    requires len > 0 && pos + len <= |b| && Splitting(dec, len, b, pos, items)
    ensures match dec(b[pos..pos + len])
            case Err(e) => Split(dec, len, b) == Err(e)
            case Ok(x) => Splitting(dec, len, b, pos + len, items + [x])
  {
    assert b[pos..][..len] == b[pos..pos + len] && b[pos..][len..] == b[pos + len..];
    if dec(b[pos..pos + len]).Ok? {
      PrependTwice(items, [dec(b[pos..pos + len]).value], Split(dec, len, b[pos + len..]));
    }
  }

  lemma SplitEnds<T>(dec: Decoder<T>, len: nat, b: Bytes, pos: nat, items: seq<T>)
    requires len > 0 && Splitting(dec, len, b, pos, items) && |b| < pos + len
    ensures Split(dec, len, b) == Ok(items)
  {
    assert items + [] == items;
  }

  /** Decodes the first `n` pieces of a list of them. */
  method DecodeAll<T>(dec: Decoder<T>, len: nat, n: nat, b: Bytes) returns (r: Result<seq<T>, Error>)
    requires len > 0 && n * len <= |b| < (n + 1) * len
    ensures r == Split(dec, len, b)
  {
    hide Splitting, Split;
    var items := [];
    SplitStarts(dec, len, b);
    for i := 0 to n
      invariant i * len <= |b|
      invariant Splitting(dec, len, b, i * len, items)
    {
      Piece(i, n, len);
      SplitNext(dec, len, b, i * len, items);
      var item := dec(b[i * len..(i + 1) * len]);
      if item.Err? {
        return Err(item.error);
      }
      items := items + [item.value];
    }
    Piece(n, n + 1, len);
    SplitEnds(dec, len, b, n * len, items);
    return Ok(items);
  }

  lemma Piece(i: nat, n: nat, len: nat)
    requires i < n
    ensures (i + 1) * len == i * len + len && (i + 1) * len <= n * len
  {
    assert n * len == (i + 1) * len + (n - (i + 1)) * len;
  }

  /** Reads a batch back from the data of the forge call. */
  method RollupForgeBatchArgs(data: Calldata, l1UserTxsLen: nat, nLevels: nat, recover: Recover)
    returns (r: Result<ForgeArgs, Error>)
    requires 8 <= nLevels <= 48 && l1UserTxsLen * DataLen(nLevels) <= |data.l1L2TxsData|
    ensures r == Unpack(data, l1UserTxsLen, nLevels, recover)
  {
    hide Split, L1Decoder, L2Decoder, CoordinatorDecoder, FeeIdxDecoder;
    var len := DataLen(nLevels);
    var numBytesL1TxUser := l1UserTxsLen * len;
    var numTxsL1Coord := |data.encodedL1CoordinatorTx| / L1_COORDINATOR_BYTES;
    var numBeginL2Tx := numTxsL1Coord * len + numBytesL1TxUser;
    Piece(l1UserTxsLen, l1UserTxsLen + 1, len);
    var l1UserTxs := DecodeAll(L1Decoder(nLevels), len, l1UserTxsLen, data.l1L2TxsData[..numBytesL1TxUser]);
    if l1UserTxs.Err? {
      return Err(l1UserTxs.error);
    }
    var l2TxsData := [];
    if numBeginL2Tx < |data.l1L2TxsData| {
      l2TxsData := data.l1L2TxsData[numBeginL2Tx..];
    }
    QuotientBounds(|l2TxsData|, len);
    var l2Txs := DecodeAll(L2Decoder(nLevels), len, |l2TxsData| / len, l2TxsData);
    if l2Txs.Err? {
      return Err(l2Txs.error);
    }
    QuotientBounds(|data.encodedL1CoordinatorTx|, L1_COORDINATOR_BYTES);
    var coord := DecodeAll(CoordinatorDecoder(recover), L1_COORDINATOR_BYTES, numTxsL1Coord, data.encodedL1CoordinatorTx);
    if coord.Err? {
      return Err(coord.error);
    }
    var lenFeeIdx := nLevels / 8;
    QuotientBounds(|data.feeIdxCoordinator|, lenFeeIdx);
    var feeIdxs := DecodeAll(FeeIdxDecoder(nLevels), lenFeeIdx, |data.feeIdxCoordinator| / lenFeeIdx,
                         data.feeIdxCoordinator);
    if feeIdxs.Err? {
      return Err(feeIdxs.error);
    }
    var nonZero := DropZeros(feeIdxs.value);
    return Ok(ForgeArgs(l1UserTxs.value, Map((c: (L1Tx, Bytes)) => c.0, coord.value),
                        Map((c: (L1Tx, Bytes)) => c.1, coord.value), l2Txs.value, nonZero));
  }

  method DropZeros(idxs: seq<Idx>) returns (r: seq<Idx>)
    ensures r == NonZero(idxs)
  {
    r := [];
    for i := 0 to |idxs|
      invariant NonZero(idxs) == r + NonZero(idxs[i..])
    {
      assert idxs[i..][1..] == idxs[i + 1..];
      if idxs[i] != 0 {
        r := r + [idxs[i]];
      }
    }
  }
}
