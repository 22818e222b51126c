/** The 40-bit decimal floats that amounts are published as (common/float40.go). */
module Float40 {
  import opened Wrappers
  import opened Common
  import opened Arithmetic

  const THRES: nat := 0x08_0000_0000 // 2^35: mantissas lie below it
  const MAX_FLOAT40: nat := 0xff_ffff_ffff
  const MAX_EXP: nat := 31

  function Pow10(e: nat): (r: nat)
    ensures r > 0
  {
    if e == 0 then 1 else 10 * Pow10(e - 1)
  }

  /** `f` is `m` times ten to the `e`, with a mantissa of 35 bits. */
  predicate Denotes(f: nat, m: nat, e: nat) {
    m < THRES && f == m * Pow10(e)
  }

  /** `f` is the decimal float with mantissa `m` and exponent `e`. */
  predicate Represents(f: nat, m: nat, e: nat) {
    Denotes(f, m, e) && e <= MAX_EXP
  }

  ghost predicate Representable(f: nat) {
    exists m, e :: Represents(f, m, e)
  }

  function Decode(x: nat): Result<nat, Error> {
    if x > MAX_FLOAT40 then Err(NumOverflow)
    else Ok(x % THRES * Pow10(x / THRES))
  }

  /** What is left of (m, e) after moving every trailing zero that the mantissa cannot hold. */
  function Strip(m: nat, e: nat): (nat, nat)
    decreases m
  {
    if m % 10 == 0 && m >= THRES then Strip(m / 10, e + 1) else (m, e)
  }

  function Encode(f: nat): Result<nat, Error> {
    var (m, e) := Strip(f, 0);
    if e > MAX_EXP then Err(NumOverflow)
    else if m >= THRES then Err(NotEncodable)
    else Ok(m + e * THRES)
  }

  predicate Encodable(f: nat) {
    Encode(f).Ok?
  }

  function Truncate(m: nat, e: nat): (nat, nat)
    decreases m
  {
    if m >= THRES then Truncate(m / 10, e + 1) else (m, e)
  }

  function EncodeFloor(f: nat): Result<nat, Error> {
    var (m, e) := Truncate(f, 0);
    if e > MAX_EXP then Err(NumOverflow) else Ok(m + e * THRES)
  }

  method NewFloat40(f: nat) returns (r: Result<nat, Error>)
    ensures r == Encode(f)
  {
    var m: nat, e: nat := f, 0;
    while m % 10 == 0 && m >= THRES
      invariant Strip(m, e) == Strip(f, 0)
      decreases m
    {
      m := m / 10;
      e := e + 1;
    }
    if e > MAX_EXP {
      return Err(NumOverflow);
    }
    if m >= THRES {
      return Err(NotEncodable);
    }
    return Ok(m + e * THRES);
  }

  method NewFloat40Floor(f: nat) returns (r: Result<nat, Error>)
    ensures r == EncodeFloor(f)
  {
    var m: nat, e: nat := f, 0;
    while m >= THRES
      invariant Truncate(m, e) == Truncate(f, 0)
      decreases m
    {
      m := m / 10;
      e := e + 1;
    }
    if e > MAX_EXP {
      return Err(NumOverflow);
    }
    return Ok(m + e * THRES);
  }

  // ---- The exponent found is the least one, so the search is complete ----

  /** Scaling both sides: f == m * 10^e makes m the quotient of f by 10^e. */
  lemma {:induction false} ScaleUp(m: nat, e: nat)
    requires m % 10 == 0
    ensures m * Pow10(e) == m / 10 * Pow10(e + 1)
  {
    assert m == 10 * (m / 10);
    assert m * Pow10(e) == m / 10 * (10 * Pow10(e));
  }

  lemma {:induction false} Pow10Add(a: nat, b: nat)
    ensures Pow10(a + b) == Pow10(a) * Pow10(b)
  {
    if a > 0 {
      Pow10Add(a - 1, b);
      assert Pow10(a + b) == 10 * Pow10(a - 1 + b);
    }
  }

  /** Two decimal floats of one value: the larger exponent goes with the smaller mantissa. */
  lemma {:induction false} SameValue(m: nat, e: nat, m': nat, e': nat)
    requires m * Pow10(e) == m' * Pow10(e') && e <= e'
    ensures m == m' * Pow10(e' - e)
  {
    Pow10Add(e' - e, e);
    var p, q := Pow10(e), Pow10(e' - e);
    assert m' * (q * p) == (m' * q) * p;
    MulCancel(m, m' * q, p);
  }

  /** Strip keeps the value, and no decimal float of that value has a smaller exponent. */
  lemma {:induction false} StripLeast(f: nat, m: nat, e: nat)
    requires f == m * Pow10(e)
    requires forall m', e' :: Denotes(f, m', e') ==> e <= e'
    ensures f == Strip(m, e).0 * Pow10(Strip(m, e).1)
    ensures Strip(m, e).0 >= THRES ==> Strip(m, e).0 % 10 != 0
    ensures forall m', e' :: Denotes(f, m', e') ==> Strip(m, e).1 <= e'
    decreases m
  {
    if m % 10 == 0 && m >= THRES {
      ScaleUp(m, e);
      forall m', e' | Denotes(f, m', e')
        ensures e + 1 <= e'
      {
        if e' == e {
          SameValue(m, e, m', e');
          assert false;
        }
      }
      StripLeast(f, m / 10, e + 1);
    }
  }

  lemma TenDivides(m: nat, e: nat)
    requires e > 0
    ensures m * Pow10(e) % 10 == 0
  {
    MulAssociates(m, 10, Pow10(e - 1));
    MulAssociates(10, m, Pow10(e - 1));
  }

  lemma RepresentableEncodes(f: nat, m': nat, e': nat)
    requires Represents(f, m', e')
    ensures Encodable(f)
  {
    assert f == f * Pow10(0);
    StripLeast(f, f, 0);
    var (m, e) := Strip(f, 0);
    assert e <= e';
    SameValue(m, e, m', e');
    if e < e' {
      TenDivides(m', e' - e);
    } else {
      assert m == m' * Pow10(0) == m';
    }
  }

  /** NewFloat40 succeeds exactly on the representable values. */
  lemma EncodeSucceedsIff(f: nat)
    ensures Encodable(f) <==> Representable(f)
  {
    if Encodable(f) {
      assert f == f * Pow10(0);
      StripLeast(f, f, 0);
      assert Represents(f, Strip(f, 0).0, Strip(f, 0).1);
    }
    if Representable(f) {
      var m', e' :| Represents(f, m', e');
      RepresentableEncodes(f, m', e');
    }
  }

  /** The code read back is the value encoded, and its exponent is the least possible one. */
  lemma DecodeEncode(f: nat)
    requires Encodable(f)
    ensures Encode(f).value <= MAX_FLOAT40
    ensures Decode(Encode(f).value) == Ok(f)
    ensures forall m', e' :: Represents(f, m', e') ==> Encode(f).value / THRES <= e'
  {
    assert f == f * Pow10(0);
    StripLeast(f, f, 0);
    var (m, e) := Strip(f, 0);
    var x := Encode(f).value;
    assert x == m + e * THRES && x / THRES == e && x % THRES == m;
  }

  lemma LastDigitBounds(m: nat, p: nat)
    ensures m / 10 * (10 * p) <= m * p
    ensures (m + 1) * p <= (m / 10 + 1) * (10 * p)
  {
    var q := m / 10;
    MulAssociates(q, 10, p);
    MulAssociates(q + 1, 10, p);
    MulMonotone(q * 10, m, p);
    MulMonotone(m + 1, (q + 1) * 10, p);
  }

  /** Truncation loses less than one unit of the final exponent. */
  lemma {:induction false} TruncateBounds(f: nat, m: nat, e: nat)
    requires m * Pow10(e) <= f < (m + 1) * Pow10(e)
    ensures Truncate(m, e).0 < THRES
    ensures Truncate(m, e).0 * Pow10(Truncate(m, e).1) <= f < (Truncate(m, e).0 + 1) * Pow10(Truncate(m, e).1)
    decreases m
  {
    if m >= THRES {
      LastDigitBounds(m, Pow10(e));
      TruncateBounds(f, m / 10, e + 1);
    }
  }

  /** NewFloat40Floor rounds down by less than 10^e, e being the exponent it chose. */
  lemma FloorBounds(f: nat)
    requires EncodeFloor(f).Ok?
    ensures var x := EncodeFloor(f).value;
            && x <= MAX_FLOAT40
            && Decode(x).Ok?
            && Decode(x).value <= f < Decode(x).value + Pow10(x / THRES)
  {
    assert f * Pow10(0) <= f < (f + 1) * Pow10(0);
    TruncateBounds(f, f, 0);
    var (m, e) := Truncate(f, 0);
    var x := EncodeFloor(f).value;
    assert x == m + e * THRES && x / THRES == e && x % THRES == m;
    assert (m + 1) * Pow10(e) == m * Pow10(e) + Pow10(e);
  }

  lemma {:induction false} StripIsTruncate(m: nat, e: nat)
    requires Strip(m, e).0 < THRES
    ensures Truncate(m, e) == Strip(m, e)
    decreases m
  {
    if m >= THRES {
      StripIsTruncate(m / 10, e + 1);
    }
  }

  /** Wherever the exact encoding succeeds the rounding one agrees with it. */
  lemma FloorAgrees(f: nat)
    requires Encodable(f)
    ensures EncodeFloor(f) == Encode(f)
  {
    StripIsTruncate(f, 0);
  }

  // ---- When rounding down gives the greatest value below ----

  /** The amount that the rounding encoding stands for. */
  function Rounded(f: nat): nat
    requires EncodeFloor(f).Ok?
  {
    var r := Decode(EncodeFloor(f).value);
    if r.Ok? then r.value else 0
  }

  /** No float lies between the rounded amount and the amount. */
  ghost predicate FloorIsGreatest(f: nat)
    requires EncodeFloor(f).Ok?
  {
    forall v: nat, m: nat, e: nat :: Represents(v, m, e) && v <= f ==> v <= Rounded(f)
  }

  /** The amount is 2^35 or 2^35 + 1 units of some power of ten, and a fraction of one. */
  ghost predicate JustAboveMantissa(f: nat) {
    exists k: nat :: JustAbove(f, k)
  }

  predicate JustAbove(f: nat, k: nat) {
    THRES * Pow10(k) <= f < (THRES + 2) * Pow10(k)
  }

  /** Truncation only drops a digit of a mantissa that was too long. */
  lemma {:induction false} TruncateWasLong(f: nat, m: nat, e: nat)
    requires m * Pow10(e) <= f && (e > 0 ==> THRES * Pow10(e - 1) <= f)
    ensures Truncate(m, e).1 >= e
    ensures var t := Truncate(m, e).1; t > 0 ==> THRES * Pow10(t - 1) <= f
    decreases m
  {
    if m >= THRES {
      LastDigitBounds(m, Pow10(e));
      MulMonotone(THRES, m, Pow10(e));
      TruncateWasLong(f, m / 10, e + 1);
    }
  }

  /** The parts of a rounded amount: its last digit and the one below it. */
  lemma FloorParts(f: nat)
    requires EncodeFloor(f).Ok?
    ensures var (m, e) := Truncate(f, 0);
            && m < THRES && e <= MAX_EXP && Decode(EncodeFloor(f).value) == Ok(m * Pow10(e))
            && m * Pow10(e) <= f < (m + 1) * Pow10(e)
            && (e > 0 ==> THRES * Pow10(e - 1) <= f)
  {
    var x := EncodeFloor(f).value;
    assert f * Pow10(0) == f;
    TruncateBounds(f, f, 0);
    TruncateWasLong(f, f, 0);
    var (m, e) := Truncate(f, 0);
    assert x == m + e * THRES && x / THRES == e && x % THRES == m;
  }

  /** A float with the exponent of the rounded amount or a greater one is not above it. */
  lemma CoarseIsBelow(f: nat, m: nat, e: nat, n: nat, d: nat)
    requires f < (m + 1) * Pow10(e) && n * Pow10(d) <= f && e <= d
    ensures n * Pow10(d) <= m * Pow10(e)
  {
    hide Pow10;
    Pow10Add(d - e, e);
    MulAssociates(n, Pow10(d - e), Pow10(e));
    MultipleIsBelow(f, m, n * Pow10(d - e), Pow10(e));
  }

  lemma MultipleIsBelow(f: nat, m: nat, k: nat, p: nat)
    requires k * p <= f < (m + 1) * p
    ensures k * p <= m * p
  {
    if k > m {
      MulMonotone(m + 1, k, p);
    } else {
      MulMonotone(k, m, p);
    }
  }

  /** A float with a smaller exponent is at most the longest mantissa one digit below. */
  lemma FineIsShort(n: nat, d: nat, e: nat)
    requires n < THRES && d < e
    ensures n * Pow10(d) <= (THRES - 1) * Pow10(e - 1)
  {
    MulMonotone(n, THRES - 1, Pow10(d));
    Pow10Add(e - 1 - d, d);
    MulMonotone(1, Pow10(e - 1 - d), Pow10(d));
    MulMonotone(Pow10(d), Pow10(e - 1), THRES - 1);
  }

  /** If some float lies in between, the amount is just above a mantissa. */
  lemma BetweenMeansJustAbove(f: nat, n: nat, d: nat)
    requires EncodeFloor(f).Ok? && n < THRES && n * Pow10(d) <= f
    requires Rounded(f) < n * Pow10(d)
    ensures JustAboveMantissa(f)
  {
    FloorParts(f);
    var (m, e) := Truncate(f, 0);
    if e <= d {
      CoarseIsBelow(f, m, e, n, d);
    } else {
      FineIsShort(n, d, e);
      var p := Pow10(e - 1);
      MulAssociates(m, 10, p);
      MulAssociates(m + 1, 10, p);
      if m * 10 >= THRES - 1 {
        MulMonotone(THRES - 1, m * 10, p);
      }
      if (m + 1) * 10 <= THRES {
        MulMonotone((m + 1) * 10, THRES, p);
      }
      assert (m + 1) * 10 == THRES + 2;
      assert JustAbove(f, e - 1);
    }
  }

  /** An amount just above a mantissa loses the last digit of it although the longest mantissa lies below. */
  lemma JustAboveLoses(f: nat, k: nat)
    requires EncodeFloor(f).Ok? && JustAbove(f, k)
    ensures !FloorIsGreatest(f)
  {
    hide Pow10, Truncate;
    FloorParts(f);
    var (m, e) := Truncate(f, 0);
    if e <= k {
      LongMantissa(m, e, k);
    } else {
      if e > k + 1 {
        NextExponentIsFar(k, e);
      }
      NextDigit(k);
      LastDigitLost(f, m, Pow10(k));
      assert Represents((THRES - 1) * Pow10(k), THRES - 1, k);
    }
  }

  lemma NextDigit(k: nat)
    ensures Pow10(k + 1) == 10 * Pow10(k)
  {
  }

  /** A mantissa that fits is below the least one that does not. */
  lemma LongMantissa(m: nat, e: nat, k: nat)
    requires m < THRES && e <= k
    ensures (m + 1) * Pow10(e) <= THRES * Pow10(k)
  {
    hide Pow10;
    Pow10Add(k - e, e);
    MulMonotone(1, Pow10(k - e), Pow10(e));
    MulMonotone(Pow10(e), Pow10(k), THRES);
    MulMonotone(m + 1, THRES, Pow10(e));
  }

  lemma LastDigitLost(f: nat, m: nat, p: nat)
    requires p > 0 && m * (10 * p) <= f < (THRES + 2) * p
    ensures m * (10 * p) < (THRES - 1) * p
  {
    MulAssociates(m, 10, p);
    if m * 10 >= THRES + 2 {
      MulMonotone(THRES + 2, m * 10, p);
    }
    MulStrict(m * 10, THRES - 1, p);
  }

  /** Two digits more are out of reach. */
  lemma NextExponentIsFar(k: nat, e: nat)
    requires k + 1 < e
    ensures (THRES + 2) * Pow10(k) <= THRES * Pow10(e - 1)
  {
    hide Pow10;
    Pow10Add(e - 1 - k, k);
    Pow10Grows(e - 1 - k);
    MulMonotone(10, Pow10(e - 1 - k), Pow10(k));
    MulMonotone(10 * Pow10(k), Pow10(e - 1), THRES);
    MulAssociates(THRES, 10, Pow10(k));
    MulMonotone(THRES + 2, THRES * 10, Pow10(k));
  }

  lemma {:induction false} Pow10Grows(e: nat)
    requires e > 0
    ensures Pow10(e) >= 10
  {
    if e > 1 {
      Pow10Grows(e - 1);
    }
  }

  /**
   Rounding down gives the greatest float that is not above the amount if and only if the amount
   is not 2^35 or 2^35 + 1 units of a power of ten and a fraction.
   */
  lemma FloorIsGreatestIff(f: nat)
    requires EncodeFloor(f).Ok?
    ensures FloorIsGreatest(f) <==> !JustAboveMantissa(f)
  {
    if JustAboveMantissa(f) {
      var k: nat :| JustAbove(f, k);
      JustAboveLoses(f, k);
    }
    if !FloorIsGreatest(f) {
      var v: nat, n: nat, d: nat :| Represents(v, n, d) && v <= f && v > Rounded(f);
      BetweenMeansJustAbove(f, n, d);
    }
  }

  /** The least such amount: 2^35 loses 8 although 2^35 - 1 is representable. */
  lemma FloorIsNotGreatest()
    ensures EncodeFloor(THRES) == Ok(3435973836 + THRES) && Decode(3435973836 + THRES) == Ok(THRES - 8)
    ensures Encodable(THRES - 1) && THRES - 8 < THRES - 1 <= THRES
    ensures !FloorIsGreatest(THRES)
  {
    assert Truncate(THRES, 0) == Truncate(3435973836, 1) == (3435973836, 1);
    assert Pow10(1) == 10 * Pow10(0) == 10;
    assert JustAbove(THRES, 0);
    FloorIsGreatestIff(THRES);
  }
}
