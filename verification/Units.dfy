/**
 Naira and stroops.  A JavaScript number is a real number or one of the non-finite values, and
 `fl` is the machine's rounding of a real result: any function with the error bound of IEEE 754
 round-to-nearest on the values in use that leaves exact integers alone.  Beyond those values it
 may give anything, infinity included.
 */
module Units {
  import opened Decimal

  const STROOPS_PER_UNIT: int := 1000000
  const MAX_TRADE_UNITS: int := 1000000
  const MAX_TRADE_STROOPS: int := MAX_TRADE_UNITS * STROOPS_PER_UNIT

  /** 2 to the 53rd and 50th powers: exact integers end at the first; the round trip is proved up to the second. */
  const TWO53: int := 9007199254740992
  const TWO50: int := 1125899906842624

  datatype Number = NotANumber | Infinite | Finite(value: real)

  datatype Value = BigInteger(n: int) | Numeric(number: Number) | Text(text: string) | Other

  datatype Result<T> = Ok(value: T) | TypeError | RangeError

  function Abs(x: real): real {
    if x < 0.0 then -x else x
  }

  /** Within one part in 2 to the 53rd of x. */
  predicate Near(r: real, x: real) {
    Abs(r - x) * TWO53 as real <= Abs(x)
  }

  predicate Exact(fl: real -> Number, n: int) {
    fl(n as real) == Finite(n as real)
  }

  /** Zero, or large enough not to be subnormal and small enough not to overflow, by far. */
  predicate Normal(x: real) {
    x == 0.0 || 0.000000001 <= Abs(x) <= TWO53 as real
  }

  predicate RoundsNear(fl: real -> Number, x: real) {
    fl(x).Finite? && Near(fl(x).value, x)
  }

  ghost predicate Rounding(fl: real -> Number) {
    (forall x: real :: Normal(x) ==> RoundsNear(fl, x)) && (forall n: int :: -TWO53 <= n <= TWO53 ==> Exact(fl, n))
  }

  /** Math.round: the nearest integer, halves upwards. */
  function MathRound(x: real): int {
    (x + 0.5).Floor
  }

  // ----- the conversions -----

  /** The product of a finite amount may overflow, and infinity is no integer. */
  function ToStroops(fl: real -> Number, amount: Number): Result<int> {
    if !amount.Finite? then TypeError
    else match fl(Scaled(amount.value))
      case Finite(product) => Ok(MathRound(product))
      case _ => RangeError
  }

  /** An amount in stroops, before any rounding. */
  function Scaled(x: real): real {
    x * STROOPS_PER_UNIT as real
  }

  predicate AllZeros(s: string) {
    forall i :: 0 <= i < |s| ==> s[i] == '0'
  }

  /** The pattern of one or more digits, then perhaps a point and one or more zeros. */
  predicate IsIntegerText(t: string) {
    var digits := DigitPrefix(t);
    |digits| > 0 && (|digits| == |t| || (t[|digits|] == '.' && |digits| + 1 < |t| && AllZeros(t[|digits| + 1..])))
  }

  /** The text before the first point. */
  function BeforePoint(t: string): string {
    if |t| == 0 || t[0] == '.' then "" else [t[0]] + BeforePoint(t[1..])
  }

  function AsStroops(v: Value): Result<int> {
    match v
    case BigInteger(n) => if n < 0 then RangeError else Ok(n)
    case Numeric(number) =>
      if !number.Finite? || number.value.Floor as real != number.value then TypeError
      else if number.value.Floor < 0 then RangeError
      else Ok(number.value.Floor)
    case Text(text) => if IsIntegerText(Trim(text)) then Ok(DigitsValue(BeforePoint(Trim(text)))) else TypeError
    case Other => TypeError
  }

  function FromStroops(fl: real -> Number, v: Value): Result<Number> {
    match AsStroops(v)
    case Ok(n) =>
      // a number that is not finite stays so when divided
      var number := fl(n as real);
      Ok(if number.Finite? then fl(number.value / STROOPS_PER_UNIT as real) else number)
    case TypeError => TypeError
    case RangeError => RangeError
  }

  // ----- the round trip -----

  /** Dividing and multiplying back, rounding both times, stays within a half of where it began. */
  lemma ScaledBack(n: int, m: real, y: real, z: real)
    requires 0 <= n <= TWO50 && m > 0.0
    requires Near(y, n as real / m) && Near(z, y * m)
    ensures Abs(z - n as real) < 0.5
  {
    var x, u := n as real / m, TWO53 as real;
    var d := (y - x) * m;
    assert x * m == n as real;
    assert y * m == n as real + d;
    ScaledError(x, y, m);
    assert Abs(d) * u <= n as real;
    assert Abs(z - y * m) * u <= n as real + Abs(d);
    assert Abs(d) <= n as real / u;
    assert Abs(z - n as real) <= Abs(z - y * m) + Abs(d);
  }

  lemma ScaledError(x: real, y: real, m: real)
    requires x >= 0.0 && m > 0.0 && Near(y, x)
    ensures Abs((y - x) * m) * TWO53 as real <= x * m
  {
    AbsTimes(y - x, m);
    var e, u := Abs(y - x), TWO53 as real;
    assert e * u <= x;
    TimesKeepsOrder(e * u, x, m);
    assert (e * u) * m == (e * m) * u;
  }

  lemma AbsTimes(a: real, m: real)
    requires m > 0.0
    ensures Abs(a * m) == Abs(a) * m
  {
    if a < 0.0 {
      assert a * m < 0.0;
    } else {
      assert a * m >= 0.0;
    }
  }

  lemma TimesKeepsOrder(a: real, b: real, m: real)
    requires a <= b && m > 0.0
    ensures a * m <= b * m
  {
    assert (b - a) * m >= 0.0;
  }

  lemma RoundsTo(z: real, n: int)
    requires Abs(z - n as real) < 0.5
    ensures MathRound(z) == n
  {
  }

  lemma QuotientIsNormal(n: int, x: real)
    requires 0 <= n <= TWO50 && x == n as real / STROOPS_PER_UNIT as real
    ensures Normal(x)
  {
  }

  lemma ProductIsNormal(n: int, x: real, y: real)
    requires 0 <= n <= TWO50 && x == n as real / STROOPS_PER_UNIT as real && Near(y, x)
    ensures Normal(Scaled(y))
  {
    var m, u := STROOPS_PER_UNIT as real, TWO53 as real;
    ScaledError(x, y, m);
    var d := (y - x) * m;
    assert y * m == n as real + d && Abs(d) * u <= n as real;
  }

  lemma RoundsNormal(fl: real -> Number, x: real)
    requires Rounding(fl) && Normal(x)
    ensures RoundsNear(fl, x)
  {
    hide Normal, RoundsNear;
  }

  lemma RoundsBack(n: int, x: real, y: real, z: real)
    requires 0 <= n <= TWO50 && x == n as real / STROOPS_PER_UNIT as real && Near(y, x) && Near(z, Scaled(y))
    ensures MathRound(z) == n
  {
    ScaledBack(n, STROOPS_PER_UNIT as real, y, z);
    hide Near, Abs;
    RoundsTo(z, n);
  }

  lemma UnitsRoundTrip(fl: real -> Number, n: int, x: real)
    requires Rounding(fl) && 0 <= n <= TWO50 && x == n as real / STROOPS_PER_UNIT as real
    ensures ToStroops(fl, fl(x)) == Ok(n)
  {
    hide Near, Rounding, Normal, Scaled, MathRound;
    QuotientIsNormal(n, x);
    RoundsNormal(fl, x);
    var y := fl(x).value;
    ProductIsNormal(n, x, y);
    RoundsNormal(fl, Scaled(y));
    RoundsBack(n, x, y, fl(Scaled(y)).value);
  }

  /** Converting stroops to whole units and back gives the same stroops, for every amount the platform
      can produce and far beyond, however it is written. */
  lemma StroopsRoundTrip(fl: real -> Number, v: Value, s: int)
    requires Rounding(fl) && AsStroops(v) == Ok(s) && s <= TWO50
    ensures MAX_TRADE_STROOPS < TWO50
    ensures FromStroops(fl, v).Ok? && ToStroops(fl, FromStroops(fl, v).value) == Ok(s)
  {
    hide AsStroops, ToStroops;
    StroopsAreNatural(v);
    assert Exact(fl, s);
    UnitsRoundTrip(fl, s, s as real / STROOPS_PER_UNIT as real);
  }

  lemma StroopsAreNatural(v: Value)
    ensures AsStroops(v).Ok? ==> AsStroops(v).value >= 0
  {
    if v.Text? && IsIntegerText(Trim(v.text)) {
      IntegerTextParts(Trim(v.text));
      DigitsAreNatural(DigitPrefix(Trim(v.text)));
    }
  }

  /** An amount of naira and kobo, as near as a number can hold it, becomes exactly 10,000 stroops a kobo. */
  lemma KoboAreExact(fl: real -> Number, k: int)
    requires Rounding(fl) && 0 <= 10000 * k <= TWO50
    ensures ToStroops(fl, fl(k as real / 100.0)) == Ok(10000 * k)
  {
    UnitsRoundTrip(fl, 10000 * k, k as real / 100.0);
  }

  /** Rounding goes to the nearest integer, and up from halfway. */
  lemma MathRoundIs(x: real, n: int)
    ensures MathRound(x) == n <==> n as real - 0.5 <= x < n as real + 0.5
  {
  }

  /** A conversion fails exactly on an amount that is not finite, or whose product is not; else it is the product,
      as the machine gives it, rounded. */
  lemma ToStroopsIs(fl: real -> Number, amount: Number)
    ensures ToStroops(fl, amount) == TypeError <==> !amount.Finite?
    ensures amount.Finite? ==>
              var product := fl(amount.value * 1000000.0);
              && (ToStroops(fl, amount) == RangeError <==> !product.Finite?)
              && (product.Finite? ==> forall n :: ToStroops(fl, amount) == Ok(n) <==> n as real - 0.5 <= product.value < n as real + 0.5)
  {
  }

  predicate IsWhole(x: real) {
    x == x.Floor as real
  }

  /** Stroops are read from an integer as that integer, from a number if it is one, and from text as TextAcceptedIff
      says; a negative integer is out of range, and anything else is of the wrong type. */
  lemma ValueAcceptedIff(v: Value, n: int)
    ensures !v.Text? ==> (AsStroops(v) == Ok(n) <==>
              n >= 0 && (v == BigInteger(n) || (v.Numeric? && v.number.Finite? && v.number.value == n as real)))
    ensures AsStroops(v) == RangeError <==>
              (v.BigInteger? && v.n < 0) ||
              (v.Numeric? && v.number.Finite? && v.number.value < 0.0 && IsWhole(v.number.value))
  {
  }

  // ----- text amounts -----

  lemma {:induction false} PointSplits(digits: string, rest: string)
    requires AllDigits(digits) && (|rest| > 0 ==> rest[0] == '.')
    ensures DigitPrefix(digits + rest) == digits && BeforePoint(digits + rest) == digits
  {
    if |digits| == 0 {
      assert digits + rest == rest;
    } else {
      assert (digits + rest)[1..] == digits[1..] + rest;
      PointSplits(digits[1..], rest);
    }
  }

  lemma IntegerTextParts(t: string)
    requires IsIntegerText(t)
    ensures BeforePoint(t) == DigitPrefix(t)
  {
    var d := DigitPrefix(t);
    assert t == d + t[|d|..];
    PointSplits(d, t[|d|..]);
  }

  /** A whole number, perhaps with a zero scale. */
  predicate ZeroScaled(t: string, digits: string, zeros: string) {
    |digits| > 0 && AllDigits(digits) && AllZeros(zeros) && (t == digits || (|zeros| > 0 && t == digits + "." + zeros))
  }

  lemma AcceptedIsZeroScaled(t: string)
    requires IsIntegerText(t)
    ensures exists zeros :: ZeroScaled(t, BeforePoint(t), zeros)
  {
    IntegerTextParts(t);
    hide DigitPrefix, BeforePoint;
    var d := DigitPrefix(t);
    if |d| == |t| {
      assert ZeroScaled(t, d, "");
    } else {
      assert t == d + "." + t[|d| + 1..];
      assert ZeroScaled(t, d, t[|d| + 1..]);
    }
  }

  /** Text stands for n stroops exactly when, trimmed, it is digits worth n with nothing but a zero scale after them. */
  lemma TextAcceptedIff(text: string, n: int)
    ensures AsStroops(Text(text)) == Ok(n) <==>
              exists digits, zeros :: ZeroScaled(Trim(text), digits, zeros) && DigitsValue(digits) == n
  {
    hide DigitsValue, Trim, IsIntegerText, BeforePoint, ZeroScaled;
    var t := Trim(text);
    if AsStroops(Text(text)) == Ok(n) {
      AcceptedIsZeroScaled(t);
    }
    if exists digits, zeros :: ZeroScaled(t, digits, zeros) && DigitsValue(digits) == n {
      var digits, zeros :| ZeroScaled(t, digits, zeros) && DigitsValue(digits) == n;
      ZeroScaledIsAccepted(t, digits, zeros);
    }
  }

  lemma ZeroScaledIsAccepted(t: string, digits: string, zeros: string)
    requires ZeroScaled(t, digits, zeros)
    ensures IsIntegerText(t) && BeforePoint(t) == digits
  {
    if t == digits {
      assert t == digits + "";
      PointSplits(digits, "");
    } else {
      assert t == digits + ("." + zeros);
      PointSplits(digits, "." + zeros);
      assert t[|digits| + 1..] == zeros;
    }
  }

  /** Reading back what was printed, as a plain integer or as the database writes it with a zero scale. */
  lemma PrintedAmountReadsBack(n: nat, zeros: string)
    requires AllZeros(zeros)
    ensures AsStroops(Text(Print(n))) == Ok(n)
    ensures |zeros| > 0 ==> AsStroops(Text(Print(n) + "." + zeros)) == Ok(n)
  {
    hide Print, Trim, DigitsValue, IsIntegerText, BeforePoint;
    PrintReads(n);
    TrimsToItself(Print(n));
    assert ZeroScaled(Print(n), Print(n), zeros);
    TextAcceptedIff(Print(n), n);
    if |zeros| > 0 {
      var t := Print(n) + "." + zeros;
      assert t[|t| - 1] == '0' && t[0] == Print(n)[0];
      TrimsToItself(t);
      assert ZeroScaled(t, Print(n), zeros);
      TextAcceptedIff(t, n);
    }
  }

  lemma TrimsToItself(t: string)
    requires |t| > 0 && IsDigit(t[0]) && IsDigit(t[|t| - 1])
    ensures Trim(t) == t
  {
    assert !IsSpace(t[0]) && !IsSpace(t[|t| - 1]);
    assert TrimStart(t) == t;
  }
}
