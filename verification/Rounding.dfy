/**
  Rounding decimal numbers.  A value is an exact fraction; the digits are clamped
  to 400 either way before anything is computed.
*/
module Rounding {
  import CellAddress

  const MAX_PLACES := 400

  datatype Mode = HalfAway | AwayFromZero | TowardZero

  // -------- whole numbers out of fractions --------

  // Division as the fraction library does it: the remainder has the sign of the
  // numerator.
  function Quo(num: int, den: int): int
    requires den > 0
  {
    if num >= 0 then num / den else -((-num) / den)
  }

  function Rem(num: int, den: int): int
    requires den > 0
  {
    num - Quo(num, den) * den
  }

  function Abs(n: int): int { if n < 0 then -n else n }

  function RoundRat(num: int, den: int, mode: Mode): int
    requires den > 0
  {
    var quotient, remainder := Quo(num, den), Rem(num, den);
    if remainder == 0 then quotient
    else
      var step := if num < 0 then -1 else 1;
      match mode
      case AwayFromZero => quotient + step
      case TowardZero => quotient
      case HalfAway => if 2 * Abs(remainder) >= den then quotient + step else quotient
  }

  function Ceil(x: real): int { -((-x).Floor) }

  // What the three modes mean.
  function Rounded(x: real, mode: Mode): int {
    if x < 0.0 then -RoundedUp(-x, mode) else RoundedUp(x, mode)
  }

  function RoundedUp(x: real, mode: Mode): int
    requires x >= 0.0
  {
    match mode
    case HalfAway => (x + 0.5).Floor
    case AwayFromZero => Ceil(x)
    case TowardZero => x.Floor
  }

  lemma FloorIs(x: real, k: int)
    requires k as real <= x < (k + 1) as real
    ensures x.Floor == k
  {
  }

  // Quotient and remainder find the rounded fraction, whichever way the fraction
  // is written down.
  lemma RoundRatIsRounded(num: int, den: int, mode: Mode)
    requires den > 0
    ensures RoundRat(num, den, mode) == Rounded(num as real / den as real, mode)
  {
    hide RoundedUp;
    if num >= 0 {
      RoundRatUp(num, den, mode);
    } else {
      RoundRatUp(-num, den, mode);
      RoundRatOdd(num, den, mode);
      Opposite(num as real, den as real);
    }
  }

  lemma Opposite(a: real, d: real)
    requires a < 0.0 < d
    ensures a / d < 0.0 && (-a) / d == -(a / d)
  {
    assert a / d * d == a;
    Compare(0.0, a / d, d);
    assert (-(a / d)) * d == -a;
    Equal((-a) / d, -(a / d), d);
  }

  lemma RoundRatOdd(num: int, den: int, mode: Mode)
    requires num < 0 < den
    ensures RoundRat(num, den, mode) == -RoundRat(-num, den, mode)
  {
    var q := (-num) / den;
    assert num - (-q) * den == -((-num) - q * den);
  }

  lemma RoundRatUp(num: int, den: int, mode: Mode)
    requires num >= 0 && den > 0
    ensures num as real / den as real >= 0.0
    ensures RoundRat(num, den, mode) == RoundedUp(num as real / den as real, mode)
  {
    var q, r := num / den, num % den;
    var x := num as real / den as real;
    assert q * den + r == num;
    assert Quo(num, den) == q && Rem(num, den) == r;
    var f := r as real / den as real;
    Quotient(r as real, den as real);
    Quotient(num as real, den as real);
    assert (q * den) as real == q as real * den as real;
    Fraction(q as real, r as real, den as real, f, x);
    assert 2 * r >= den <==> 2.0 * r as real >= den as real;
    match mode {
      case TowardZero => FloorIs(x, q);
      case AwayFromZero =>
        if r == 0 { FloorIs(-x, -q); } else { FloorIs(-x, -q - 1); }
      case HalfAway =>
        if 2 * r >= den {
          FloorIs(x + 0.5, q + 1);
        } else {
          FloorIs(x + 0.5, q);
        }
    }
  }

  // f is the fraction r over d, and x the whole number q more.
  lemma Fraction(q: real, r: real, d: real, f: real, x: real)
    requires 0.0 <= r < d && f * d == r && x * d == q * d + r
    ensures x == q + f && 0.0 <= f < 1.0
    ensures 2.0 * r >= d <==> f >= 0.5
    ensures r == 0.0 <==> f == 0.0
  {
    assert (q + f) * d == q * d + f * d;
    Equal(x, q + f, d);
    Halves(r, d, f);
    assert 1.0 * d == d && 0.0 * d == 0.0;
    Compare(0.0, f, d);
    Compare(f, 0.0, d);
    Compare(1.0, f, d);
  }

  lemma Halves(r: real, d: real, f: real)
    requires d > 0.0 && f * d == r
    ensures 2.0 * r >= d <==> f >= 0.5
  {
    var t := f - 0.5;
    assert t * d == r - 0.5 * d;
    Compare(0.0, t, d);
    assert 0.0 * d == 0.0;
    assert 0.0 <= t <==> 0.0 <= t * d;
  }

  lemma Quotient(a: real, d: real)
    requires d != 0.0
    ensures a / d * d == a
  {
  }

  lemma Compare(a: real, b: real, d: real)
    requires d > 0.0
    ensures a <= b <==> a * d <= b * d
  {
    assert b * d - a * d == (b - a) * d;
  }

  // -------- laws of rounding to whole numbers --------

  lemma RoundedOdd(x: real, mode: Mode)
    ensures Rounded(-x, mode) == -Rounded(x, mode)
  {
    if x == 0.0 { FloorIs(0.5, 0); }
  }

  lemma RoundedWhole(k: int, mode: Mode)
    ensures Rounded(k as real, mode) == k
  {
    var n := Abs(k);
    FloorIs(n as real, n);
    FloorIs(n as real + 0.5, n);
    FloorIs(-(n as real), -n);
  }

  lemma RoundedNear(x: real, mode: Mode)
    ensures mode.HalfAway? ==> -0.5 <= Rounded(x, mode) as real - x <= 0.5
    ensures -1.0 < Rounded(x, mode) as real - x < 1.0
  {
  }

  lemma RoundedMonotone(x: real, y: real, mode: Mode)
    requires x <= y
    ensures Rounded(x, mode) <= Rounded(y, mode)
  {
  }

  lemma RoundedSmall(x: real, mode: Mode)
    requires -0.5 < x < 0.5 && x != 0.0
    ensures Rounded(x, mode) == if mode.AwayFromZero? then (if x < 0.0 then -1 else 1) else 0
  {
    var y := if x < 0.0 then -x else x;
    FloorIs(y + 0.5, 0);
    FloorIs(y, 0);
    FloorIs(-y, -1);
  }

  // -------- rounding to a decimal place --------

  function Pow10(n: nat): (p: real)
    ensures p >= 1.0
  {
    if n == 0 then 1.0 else 10.0 * Pow10(n - 1)
  }

  function Times(a: real, b: real): real { a * b }

  function Over(a: real, b: real): real
    requires b > 0.0
  {
    a / b
  }

  lemma TimesLaws(a: real, b: real, p: real)
    requires p > 0.0
    ensures Times(a - b, p) == Times(a, p) - Times(b, p) && Times(-a, p) == -Times(a, p)
    ensures a <= b <==> Times(a, p) <= Times(b, p)
    ensures Times(Over(a, p), p) == a && Over(Times(a, p), p) == a
  {
    Compare(a, b, p);
    assert a / p * p == a;
    Equal(Over(Times(a, p), p), a, p);
  }

  lemma OverLaws(a: real, b: real, p: real)
    requires p > 0.0
    ensures Over(a - b, p) == Over(a, p) - Over(b, p) && Over(-a, p) == -Over(a, p)
    ensures a <= b <==> Over(a, p) <= Over(b, p)
  {
    hide Over, Times;
    TimesLaws(Over(a, p), Over(b, p), p);
    TimesLaws(Over(b, p), Over(a, p), p);
    TimesLaws(a, b, p);
    TimesLaws(b, a, p);
    TimesLaws(Over(a, p) - Over(b, p), 0.0, p);
    TimesLaws(-Over(a, p), 0.0, p);
  }

  lemma Equal(a: real, b: real, d: real)
    requires d > 0.0 && a * d == b * d
    ensures a == b
  {
    assert (a - b) * d == 0.0;
  }

  // How many units of the place a number is, and back.
  function Count(number: real, digits: int): real {
    if digits >= 0 then Times(number, Pow10(digits)) else Over(number, Pow10(-digits))
  }

  function Uncount(count: real, digits: int): real {
    if digits >= 0 then Over(count, Pow10(digits)) else Times(count, Pow10(-digits))
  }

  lemma CountLaws(a: real, b: real, digits: int)
    ensures Count(a - b, digits) == Count(a, digits) - Count(b, digits)
    ensures Count(-a, digits) == -Count(a, digits)
    ensures a <= b <==> Count(a, digits) <= Count(b, digits)
    ensures a == b <==> Count(a, digits) == Count(b, digits)
    ensures Count(Uncount(a, digits), digits) == a && Uncount(Count(a, digits), digits) == a
  {
    hide Times, Over, Pow10;
    var p := Pow10(if digits >= 0 then digits else -digits);
    TimesLaws(a, b, p);
    TimesLaws(b, a, p);
    OverLaws(a, b, p);
    OverLaws(b, a, p);
  }

  function Bounded(digits: int): int {
    if digits > MAX_PLACES then MAX_PLACES else if digits < -MAX_PLACES then -MAX_PLACES else digits
  }

  function Trunc(x: real): int { Rounded(x, TowardZero) }

  // The digits argument as written, made whole and brought into range.
  function Places(digits: real): int {
    if digits > 400.0 then MAX_PLACES else if digits < -400.0 then -MAX_PLACES else Trunc(digits)
  }

  function RoundAt(number: real, digits: int, mode: Mode): real {
    if number == 0.0 then number
    else Uncount(Rounded(Count(number, digits), mode) as real, digits)
  }

  function DecimalRound(number: real, digits: int, mode: Mode): real {
    RoundAt(number, Bounded(digits), mode)
  }

  // The result is the rounded count of units.
  lemma RoundAtUnits(number: real, digits: int, mode: Mode)
    ensures Count(RoundAt(number, digits, mode), digits) == Rounded(Count(number, digits), mode) as real
  {
    hide Rounded, Count, Uncount;
    CountLaws(Rounded(Count(number, digits), mode) as real, 0.0, digits);
    CountLaws(number, number, digits);
    RoundedWhole(0, mode);
  }

  // ROUND moves a number by at most half a unit; no mode moves it by a whole one.
  lemma RoundIsNear(number: real, digits: int, mode: Mode)
    ensures var moved := Count(DecimalRound(number, digits, mode) - number, Bounded(digits));
            (mode.HalfAway? ==> -0.5 <= moved <= 0.5) && -1.0 < moved < 1.0
  {
    hide Rounded, RoundAt, Count, Uncount, Bounded;
    var d := Bounded(digits);
    RoundAtUnits(number, d, mode);
    RoundedNear(Count(number, d), mode);
    CountLaws(RoundAt(number, d, mode), number, d);
  }

  // One unit of a decimal place: 10 to the minus digits.
  function Unit(digits: int): (u: real)
    ensures u > 0.0
  {
    if digits >= 0 then 1.0 / Pow10(digits) else Pow10(-digits)
  }

  // Ten to the n is written as a one and n zeros.
  lemma {:induction false} PowerInWriting(n: nat)
    ensures CellAddress.AllDigits("1" + seq(n, _ => '0')) && Pow10(n) == CellAddress.RowNumber("1" + seq(n, _ => '0')) as real
  {
    var s := "1" + seq(n, _ => '0');
    if n == 0 {
      assert s == "1" && s[..0] == "";
    } else {
      PowerInWriting(n - 1);
      assert s[..n] == "1" + seq(n - 1, _ => '0') && s[n] == '0';
    }
  }

  lemma UncountIs(count: real, digits: int)
    ensures Uncount(count, digits) == Times(count, Unit(digits))
  {
    hide Pow10;
    if digits >= 0 {
      var p := Pow10(digits);
      assert 1.0 / p * p == 1.0 && count / p * p == count;
      assert (count * (1.0 / p)) * p == count * (1.0 / p * p);
      Equal(count / p, count * (1.0 / p), p);
    }
  }

  function Size(x: real): real { if x < 0.0 then -x else x }

  // The result is a whole number of units of the place.  ROUND gives the nearest,
  // and of two as near the one away from zero; ROUNDUP the next away from zero and
  // ROUNDDOWN the next towards it; the sign is kept.
  lemma RoundIsUnits(number: real, digits: int, mode: Mode) returns (k: int)
    requires -400 <= digits <= 400
    ensures var r, u := DecimalRound(number, digits, mode), Unit(digits);
            && r == k as real * u && (number >= 0.0 ==> r >= 0.0) && (number <= 0.0 ==> r <= 0.0)
            && (mode.HalfAway? ==> 2.0 * Size(r - number) <= u && (2.0 * Size(r - number) == u ==> Size(r) > Size(number)))
            && (mode.AwayFromZero? ==> Size(number) <= Size(r) < Size(number) + u)
            && (mode.TowardZero? ==> Size(r) <= Size(number) < Size(r) + u)
  {
    hide RoundAt, Count, Uncount, Unit, Rounded, Times;
    var c, u, r := Count(number, digits), Unit(digits), RoundAt(number, digits, mode);
    k := Rounded(c, mode);
    RoundAtUnits(number, digits, mode);
    CountLaws(number, 0.0, digits);
    CountLaws(r, 0.0, digits);
    UncountIs(k as real, digits);
    UncountIs(c, digits);
    RoundedBetween(c, mode);
    InUnits(c, k as real, u, mode);
    WholeUnit(u);
    TimesIs(k as real, u);
    assert DecimalRound(number, digits, mode) == r == Times(k as real, u) && number == Times(c, u);
  }

  // What the modes say of a count and the whole number it is rounded to.
  predicate Fits(c: real, k: real, half: real, one: real, mode: Mode) {
    && (c >= 0.0 ==> k >= 0.0) && (c <= 0.0 ==> k <= 0.0)
    && (mode.HalfAway? ==> Size(k - c) <= half && (Size(k - c) == half ==> Size(k) > Size(c)))
    && (mode.AwayFromZero? ==> Size(c) <= Size(k) < Size(c) + one)
    && (mode.TowardZero? ==> Size(k) <= Size(c) < Size(k) + one)
  }

  lemma RoundedBetween(c: real, mode: Mode)
    ensures Fits(c, Rounded(c, mode) as real, 0.5, 1.0, mode)
  {
    if c < 0.0 { RoundedUpBetween(-c, mode); } else { RoundedUpBetween(c, mode); }
    if c == 0.0 { RoundedWhole(0, mode); }
  }

  lemma RoundedUpBetween(x: real, mode: Mode)
    requires x >= 0.0
    ensures var k := RoundedUp(x, mode) as real;
            && k >= 0.0
            && (mode.HalfAway? ==> x - 0.5 < k <= x + 0.5)
            && (mode.AwayFromZero? ==> x <= k < x + 1.0)
            && (mode.TowardZero? ==> k <= x < k + 1.0)
  {
    FloorIs(0.5, 0);
  }

  lemma InUnits(c: real, k: real, u: real, mode: Mode)
    requires u > 0.0 && Fits(c, k, 0.5, 1.0, mode)
    ensures Fits(Times(c, u), Times(k, u), Times(0.5, u), Times(1.0, u), mode)
  {
    hide Times;
    NoUnits(u);
    TimesLaws(0.0, c, u);
    TimesLaws(c, 0.0, u);
    TimesLaws(0.0, k, u);
    TimesLaws(k, 0.0, u);
    SizeTimes(c, u);
    SizeTimes(k, u);
    SizeTimes(k - c, u);
    TimesLaws(k, c, u);
    Ordered(Size(k - c), 0.5, u);
    Ordered(Size(k), Size(c), u);
    TimesLaws(Size(k) - Size(c), 1.0, u);
    TimesLaws(1.0, Size(k) - Size(c), u);
    TimesLaws(Size(c) - Size(k), 1.0, u);
    TimesLaws(1.0, Size(c) - Size(k), u);
  }

  lemma Ordered(a: real, b: real, u: real)
    requires u > 0.0
    ensures (a <= b <==> Times(a, u) <= Times(b, u)) && (b <= a <==> Times(b, u) <= Times(a, u))
    ensures Times(a - b, u) == Times(a, u) - Times(b, u) && Times(b - a, u) == Times(b, u) - Times(a, u)
  {
    TimesLaws(a, b, u);
    TimesLaws(b, a, u);
  }

  lemma NoUnits(u: real)
    ensures Times(0.0, u) == 0.0
  {
  }

  lemma SizeTimes(x: real, u: real)
    requires u > 0.0
    ensures Size(Times(x, u)) == Times(Size(x), u)
  {
    hide Times;
    NoUnits(u);
    TimesLaws(0.0, x, u);
    TimesLaws(x, 0.0, u);
  }

  lemma TimesIs(a: real, u: real)
    ensures Times(a, u) == a * u
  {
  }

  lemma WholeUnit(u: real)
    ensures Times(1.0, u) == u && 2.0 * Times(0.5, u) == u
  {
  }

  lemma RoundIsOdd(number: real, digits: int, mode: Mode)
    ensures DecimalRound(-number, digits, mode) == -DecimalRound(number, digits, mode)
  {
    hide Rounded, RoundAt, Count, Uncount, Bounded;
    var d := Bounded(digits);
    RoundAtUnits(number, d, mode);
    RoundAtUnits(-number, d, mode);
    RoundedOdd(Count(number, d), mode);
    CountLaws(number, number, d);
    CountLaws(RoundAt(number, d, mode), number, d);
    CountLaws(-RoundAt(number, d, mode), RoundAt(-number, d, mode), d);
  }

  // A result is a whole number of units, and rounding it again, in whatever
  // mode, changes nothing.
  lemma RoundIsIdempotent(number: real, digits: int, mode: Mode, again: Mode)
    ensures var r := DecimalRound(number, digits, mode);
            Count(r, Bounded(digits)) == Rounded(Count(number, Bounded(digits)), mode) as real && DecimalRound(r, digits, again) == r
  {
    hide Rounded, RoundAt, Count, Uncount, Bounded;
    var d := Bounded(digits);
    RoundAtUnits(number, d, mode);
    var r := RoundAt(number, d, mode);
    RoundAtUnits(r, d, again);
    RoundedWhole(Rounded(Count(number, d), mode), again);
    CountLaws(r, RoundAt(r, d, again), d);
  }

  lemma RoundIsMonotone(x: real, y: real, digits: int, mode: Mode)
    requires x <= y
    ensures DecimalRound(x, digits, mode) <= DecimalRound(y, digits, mode)
  {
    hide Rounded, RoundAt, Count, Uncount, Bounded;
    var d := Bounded(digits);
    RoundAtUnits(x, d, mode);
    RoundAtUnits(y, d, mode);
    CountLaws(x, y, d);
    RoundedMonotone(Count(x, d), Count(y, d), mode);
    CountLaws(RoundAt(x, d, mode), RoundAt(y, d, mode), d);
  }

  // -------- clamping the digits --------

  function Pow10Int(n: nat): (p: int)
    ensures p as real == Pow10(n)
  {
    if n == 0 then 1 else 10 * Pow10Int(n - 1)
  }

  lemma {:induction false} PowAdd(a: nat, b: nat)
    ensures Pow10(a + b) == Pow10(a) * Pow10(b)
    decreases b
  {
    if b > 0 { PowAdd(a, b - 1); }
  }

  // A number that has `units` units of the last clamped place.
  lemma PastTheLastPlace(number: real, units: int, digits: int, mode: Mode)
    requires digits >= MAX_PLACES && number * Pow10(MAX_PLACES) == units as real
    ensures RoundAt(number, digits, mode) == number
  {
    hide Pow10, Pow10Int, Rounded, Over;
    var extra := digits - MAX_PLACES;
    PowAdd(MAX_PLACES, extra);
    var p, e := Pow10(MAX_PLACES), Pow10(extra);
    var k := units * Pow10Int(extra);
    assert number * (p * e) == (number * p) * e;
    assert k as real == units as real * e;
    assert Count(number, digits) == k as real;
    RoundedWhole(k, mode);
    CountLaws(number, 0.0, digits);
  }

  lemma BeforeTheFirstPlace(number: real, digits: int, mode: Mode)
    requires digits <= -MAX_PLACES && number != 0.0
    requires -0.5 * Pow10(MAX_PLACES) < number < 0.5 * Pow10(MAX_PLACES)
    ensures RoundAt(number, digits, mode)
         == if mode.AwayFromZero? then (if number < 0.0 then -Pow10(-digits) else Pow10(-digits)) else 0.0
  {
    hide Pow10, Rounded;
    PowAdd(MAX_PLACES, -digits - MAX_PLACES);
    var s := Pow10(-digits);
    assert s >= Pow10(MAX_PLACES) by {
      assert Pow10(MAX_PLACES) * (Pow10(-digits - MAX_PLACES) - 1.0) >= 0.0;
    }
    var x := number / s;
    assert x * s == number;
    Compare(0.5, x, s);
    Compare(x, -0.5, s);
    Compare(0.0, x, s);
    Compare(x, 0.0, s);
    assert Count(number, digits) == x;
    RoundedSmall(x, mode);
    assert 1.0 * s == s && -1.0 * s == -s && 0.0 * s == 0.0;
  }

  lemma {:induction false} PowGrows(a: nat, b: nat)
    requires a < b
    ensures Pow10(a) < Pow10(b)
  {
    if a + 1 < b { PowGrows(a, b - 1); }
  }

  // The result as a binary floating point number.  From 10^309 on every magnitude
  // is infinite; below, `near` stands for whatever the conversion gives.
  datatype Float = Infinite(negative: bool) | Finite(value: real)

  function Converted(near: real -> Float, x: real): Float {
    if x >= Pow10(309) then Infinite(false) else if x <= -Pow10(309) then Infinite(true) else near(x)
  }

  // Clamping the digits changes no result in any mode.  Rounding away from zero
  // left of the clamp gives another power of ten, but one just as infinite.
  lemma ClampingChangesNothing(number: real, units: int, digits: int, mode: Mode, near: real -> Float)
    requires number * Pow10(MAX_PLACES) == units as real
    requires -0.5 * Pow10(MAX_PLACES) < number < 0.5 * Pow10(MAX_PLACES)
    ensures Converted(near, DecimalRound(number, digits, mode)) == Converted(near, RoundAt(number, digits, mode))
    ensures !mode.AwayFromZero? || digits >= -MAX_PLACES ==> DecimalRound(number, digits, mode) == RoundAt(number, digits, mode)
  {
    hide Pow10;
    if digits > MAX_PLACES {
      PastTheLastPlace(number, units, digits, mode);
      PastTheLastPlace(number, units, MAX_PLACES, mode);
    } else if digits < -MAX_PLACES && number != 0.0 {
      BeforeTheFirstPlace(number, digits, mode);
      BeforeTheFirstPlace(number, -MAX_PLACES, mode);
      PowGrows(309, MAX_PLACES);
      PowGrows(309, -digits);
    }
  }

  // So ROUND and TRUNC with any digits argument compute at the place it names.
  lemma WrittenDigits(number: real, units: int, digits: real, mode: Mode)
    requires number * Pow10(MAX_PLACES) == units as real && !mode.AwayFromZero?
    requires -0.5 * Pow10(MAX_PLACES) < number < 0.5 * Pow10(MAX_PLACES)
    ensures DecimalRound(number, Places(digits), mode) == RoundAt(number, Trunc(digits), mode)
  {
    hide Pow10, RoundAt;
    ClampingChangesNothing(number, units, Trunc(digits), mode, x => Finite(x));
    if digits > 400.0 {
      RoundedMonotone(400.0, digits, TowardZero);
      RoundedWhole(400, TowardZero);
    } else if digits < -400.0 {
      RoundedMonotone(digits, -400.0, TowardZero);
      RoundedWhole(-400, TowardZero);
    } else {
      RoundedMonotone(-400.0, digits, TowardZero);
      RoundedMonotone(digits, 400.0, TowardZero);
      RoundedWhole(400, TowardZero);
      RoundedWhole(-400, TowardZero);
    }
  }

  // -------- multiples --------

  datatype Name = CEILING | FLOOR | MROUND

  datatype Outcome = Number(value: real) | NumError

  function DecimalMultiple(number: real, factor: real, mode: Mode): real
    requires factor != 0.0
  {
    Rounded(number / factor, mode) as real * factor
  }

  function Multiple(name: Name, number: real, factor: real): Outcome {
    if factor == 0.0 then Number(0.0)
    else if name.MROUND? && number * factor < 0.0 then NumError
    else if number > 0.0 && factor < 0.0 then NumError
    else
      var negativeQuotient := (number < 0.0) != (factor < 0.0);
      var mode :=
        match name
        case CEILING => if negativeQuotient then TowardZero else AwayFromZero
        case FLOOR => if negativeQuotient then AwayFromZero else TowardZero
        case MROUND => HalfAway;
      Number(DecimalMultiple(number, factor, mode))
  }

  lemma QuotientSign(number: real, factor: real)
    requires factor != 0.0
    ensures number / factor < 0.0 <==> number * factor < 0.0
    ensures number / factor < 0.0 ==> (number < 0.0) != (factor < 0.0)
    ensures (number < 0.0) != (factor < 0.0) ==> number / factor <= 0.0
  {
    var q := number / factor;
    assert q * factor == number;
    assert number * factor == q * (factor * factor);
    assert factor * factor > 0.0;
    if q < 0.0 { assert q * (factor * factor) < 0.0; } else { assert q * (factor * factor) >= 0.0; }
    if q > 0.0 {
      if factor < 0.0 { assert q * factor < 0.0; } else { assert q * factor > 0.0; }
    }
  }

  // CEILING takes the quotient up and FLOOR takes it down, for every pair of
  // signs they accept; they refuse only a positive number with a negative factor.
  lemma CeilingAndFloor(number: real, factor: real)
    requires factor != 0.0
    ensures Multiple(CEILING, number, factor)
         == if number > 0.0 && factor < 0.0 then NumError else Number(Ceil(number / factor) as real * factor)
    ensures Multiple(FLOOR, number, factor)
         == if number > 0.0 && factor < 0.0 then NumError else Number((number / factor).Floor as real * factor)
  {
    QuotientSign(number, factor);
    var q := number / factor;
    FloorIs(0.0, 0);
    assert q < 0.0 ==> Ceil(q) == -((-q).Floor) && -Ceil(-q) == q.Floor;
  }

  // MROUND gives the nearest multiple, a tie going away from zero; it refuses
  // exactly when the signs differ.
  lemma NearestMultiple(number: real, factor: real, other: int)
    requires factor != 0.0
    ensures Multiple(MROUND, number, factor).NumError? <==> number * factor < 0.0
    ensures var m := Multiple(MROUND, number, factor);
            m.Number? ==> var k := Rounded(number / factor, HalfAway); m.value == k as real * factor && Nearer(number / factor, k, other)
  {
    QuotientSign(number, factor);
    if number * factor >= 0.0 {
      assert !(number > 0.0 && factor < 0.0);
      var q := number / factor;
      var k := Rounded(q, HalfAway);
      assert Multiple(MROUND, number, factor).value == k as real * factor;
      RoundedNearest(q, other);
    }
  }

  function Distance(x: real, k: int): real {
    if x <= k as real then k as real - x else x - k as real
  }

  predicate Nearer(x: real, k: int, other: int) {
    Distance(x, k) < Distance(x, other) || (Distance(x, k) == Distance(x, other) && Abs(other) <= Abs(k))
  }

  lemma RoundedNearest(x: real, other: int)
    requires x >= 0.0
    ensures Nearer(x, Rounded(x, HalfAway), other)
  {
    var k := Rounded(x, HalfAway);
    assert k as real - 0.5 <= x < k as real + 0.5;
    if other > k {
      assert other >= k + 1;
    } else if other < k {
      assert other <= k - 1;
    }
  }
}
