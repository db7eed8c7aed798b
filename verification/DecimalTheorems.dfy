/** Decimal strings are exact. */
module DecimalTheorems {
  import opened Common
  import opened RiskDecimal
  import opened DecimalStrings

  // ------------------------------------------------------------------- digits

  lemma {:induction false} NaturalAppends(a: string, b: string)
    ensures Natural(a + b) == Natural(a) * Pow10(|b|) + Natural(b)
  {
    if b == "" {
      assert a + b == a;
    } else {
      var front := b[..|b| - 1];
      NaturalAppends(a, front);
      assert (a + b)[..|a + b| - 1] == a + front;
      Times10(Natural(a), Pow10(|front|));
    }
  }

  lemma {:induction false} Times10(x: int, p: int)
    ensures x * (10 * p) == 10 * (x * p)
  {
  }

  lemma {:induction false} NaturalBelow(s: string)
    ensures Natural(s) < Pow10(|s|)
  {
    if s != "" {
      NaturalBelow(s[..|s| - 1]);
    }
  }

  lemma {:induction false} NaturalLeads(s: string)
    requires s != "" && AllDigits(s) && s[0] != '0'
    ensures Natural(s) >= Pow10(|s| - 1)
  {
    if |s| > 1 {
      NaturalLeads(s[..|s| - 1]);
    }
  }

  /** Digit strings of one length differ in what they denote. */
  lemma {:induction false} NaturalInjective(a: string, b: string)
    requires AllDigits(a) && AllDigits(b) && |a| == |b| && Natural(a) == Natural(b)
    ensures a == b
  {
    if a != "" {
      var x, y := a[..|a| - 1], b[..|b| - 1];
      SameLastDigit(Natural(x), Natural(y), DigitOf(a[|a| - 1]), DigitOf(b[|b| - 1]));
      DigitInjective(a[|a| - 1], b[|b| - 1]);
      NaturalInjective(x, y);
      assert a == x + [a[|a| - 1]] && b == y + [b[|b| - 1]];
    }
  }

  lemma {:induction false} SameLastDigit(m: nat, n: nat, d: nat, e: nat)
    requires 10 * m + d == 10 * n + e && d <= 9 && e <= 9
    ensures m == n && d == e
  {
  }

  lemma {:induction false} DigitInjective(c: char, d: char)
    requires IsDigit(c) && IsDigit(d) && DigitOf(c) == DigitOf(d)
    ensures c == d
  {
    assert c as int == d as int;
    assert c == (c as int) as char && d == (d as int) as char;
  }

  lemma {:induction false} ZerosAre(n: nat)
    ensures |Zeros(n)| == n && AllDigits(Zeros(n)) && Natural(Zeros(n)) == 0 && forall c <- Zeros(n) :: c == '0'
  {
    if n > 0 {
      ZerosAre(n - 1);
      NaturalAppends("0", Zeros(n - 1));
      assert Natural("0") == 0 by {
        assert "0"[..0] == "";
      }
    }
  }

  lemma {:induction false} NumeralDenotes(n: nat)
    ensures Numeral(n) != "" && AllDigits(Numeral(n)) && Natural(Numeral(n)) == n
  {
    if n <= 9 {
      assert Numeral(n)[..0] == "";
    } else {
      NumeralDenotes(n / 10);
      assert Numeral(n)[..|Numeral(n)| - 1] == Numeral(n / 10);
    }
  }

  lemma {:induction false} PaddingKeeps(s: string, n: nat)
    requires AllDigits(s)
    ensures |PadStart(s, n)| >= n && |PadStart(s, n)| >= |s| && AllDigits(PadStart(s, n)) && Natural(PadStart(s, n)) == Natural(s)
  {
    if |s| < n {
      ZerosAre(n - |s|);
      NaturalAppends(Zeros(n - |s|), s);
    }
  }

  lemma {:induction false} StripLeadingKeeps(s: string)
    requires s != "" && AllDigits(s)
    ensures var r := StripLeading(s);
            r != "" && AllDigits(r) && Natural(r) == Natural(s) && (|r| > 1 ==> r[0] != '0')
  {
    if |s| > 1 && s[0] == '0' {
      StripLeadingKeeps(s[1..]);
      NaturalAppends("0", s[1..]);
      assert s == "0" + s[1..];
      assert "0"[..0] == "";
    }
  }

  lemma {:induction false} StripTrailingKeeps(s: string)
    requires AllDigits(s)
    ensures var r := StripTrailing(s);
            |r| <= |s| && AllDigits(r) && (r != "" ==> r[|r| - 1] != '0')
  {
    if s != "" && s[|s| - 1] == '0' {
      StripTrailingKeeps(s[..|s| - 1]);
    }
  }

  /** `n` followed by `k` zeros. */
  function Shifted(n: int, k: nat): int {
    n * Pow10(k)
  }

  lemma {:induction false} StripTrailingBehind(a: string, s: string)
    requires AllDigits(s)
    ensures var r := StripTrailing(s);
            |r| <= |s| && Natural(a + s) == Shifted(Natural(a + r), |s| - |r|)
  {
    if s != "" && s[|s| - 1] == '0' {
      var front := s[..|s| - 1];
      StripTrailingBehind(a, front);
      var r := StripTrailing(front);
      assert (a + s)[..|a + s| - 1] == a + front;
      Times10(Natural(a + r), Pow10(|front| - |r|));
    }
  }

  // ------------------------------------------------------------ join and split

  lemma {:induction false} PointAfter(integer: string, rest: string)
    requires AllDigits(integer) && (rest == "" || rest[0] == '.')
    ensures Point(integer + rest) == |integer|
  {
    var u := integer + rest;
    forall k | 0 <= k < |integer| ensures u[k] != '.' {
      assert u[k] == integer[k] && integer[k] in integer;
    }
    assert rest != "" ==> u[|integer|] == rest[0];
  }

  lemma {:induction false} NoMinus(integer: string)
    requires integer != "" && AllDigits(integer)
    ensures integer[0] != '-'
  {
    assert integer[0] in integer;
  }

  lemma {:induction false} JoinSplits(negative: bool, integer: string, fraction: string)
    requires integer != "" && AllDigits(integer) && AllDigits(fraction)
    ensures var s := Join(negative, integer, fraction);
            && FixedPoint(s) && Negative(s) == negative && Integer(Unsigned(s)) == integer && Fraction(Unsigned(s)) == fraction
  {
    var s := Join(negative, integer, fraction);
    var rest := if fraction == "" then "" else "." + fraction;
    hide Point, AllDigits;
    NoMinus(integer);
    assert Unsigned(s) == integer + rest;
    PointAfter(integer, rest);
    assert (integer + rest)[..|integer|] == integer;
    assert fraction != "" ==> (integer + rest)[|integer| + 1..] == fraction;
  }

  lemma {:induction false} SplitJoins(s: string)
    requires FixedPoint(s)
    ensures s == Join(Negative(s), Integer(Unsigned(s)), Fraction(Unsigned(s)))
  {
    var u := Unsigned(s);
    UnsignedJoins(u);
    assert Negative(s) ==> s == "-" + u;
    hide Integer, Fraction;
  }

  lemma {:induction false} UnsignedJoins(u: string)
    requires Point(u) < |u| ==> Fraction(u) != ""
    ensures u == Integer(u) + (if Fraction(u) == "" then "" else "." + Fraction(u))
  {
    var p := Point(u);
    if p < |u| {
      assert u == u[..p] + [u[p]] + u[p + 1..];
    } else {
      assert u == u[..p];
    }
  }

  // ----------------------------------------------------------- equal numbers

  lemma {:induction false} CrossProduct(a: real, p: real, b: real, q: real)
    requires p > 0.0 && q > 0.0
    ensures a / p == b / q <==> a * q == b * p
  {
    var x, y := a / p, b / q;
    assert a == x * p && b == y * q;
    Swap(x, p, q);
    Swap(y, q, p);
    if a * q == b * p {
      assert x * (p * q) == y * (p * q);
      CancelReal(x, y, p * q);
    }
  }

  lemma {:induction false} Swap(x: real, p: real, q: real)
    ensures x * p * q == x * (p * q)
  {
  }

  lemma {:induction false} CancelReal(x: real, y: real, c: real)
    requires c != 0.0 && x * c == y * c
    ensures x == y
  {
  }

  lemma {:induction false} EqualNumbers(x: Fixed, y: Fixed)
    ensures ValueOf(x) == ValueOf(y) <==> x.coefficient * Pow10(y.scale) == y.coefficient * Pow10(x.scale)
  {
    var p, q := Pow10(x.scale), Pow10(y.scale);
    CrossProduct(x.coefficient as real, p as real, y.coefficient as real, q as real);
    assert (x.coefficient * q) as real == x.coefficient as real * q as real;
    assert (y.coefficient * p) as real == y.coefficient as real * p as real;
    hide Pow10;
  }

  lemma {:induction false} RescalingKeeps(x: Fixed, scale: nat)
    requires scale >= x.scale
    ensures ValueOf(Fixed(Rescaled(x, scale), scale)) == ValueOf(x)
  {
    Pow10Adds(scale - x.scale, x.scale);
    EqualNumbers(Fixed(Rescaled(x, scale), scale), x);
    hide Pow10, ValueOf;
    Associate3(x.coefficient, Pow10(scale - x.scale), Pow10(x.scale));
  }

  lemma {:induction false} Associate3(x: int, y: int, z: int)
    ensures x * y * z == x * (y * z)
  {
  }

  // ----------------------------------------------------------- canonical forms

  predicate InCanonicalForm(s: string) {
    var u := Unsigned(s);
    && FixedPoint(s) && (|Integer(u)| > 1 ==> Integer(u)[0] != '0')
    && (Fraction(u) != "" ==> Fraction(u)[|Fraction(u)| - 1] != '0')
    && !(Negative(s) && Integer(u) == "0" && Fraction(u) == "")
  }

  /** Canonicalizing keeps the number and gives a canonical form. */
  lemma {:induction false} CanonicalKeepsNumber(s: string)
    requires FixedPoint(s)
    ensures InCanonicalForm(Canonical(s)) && Number(Canonical(s)) == Number(s)
  {
    FixedPointParts(s);
    CanonicalNumber(Negative(s), Integer(Unsigned(s)), Fraction(Unsigned(s)));
    hide FixedPoint, Natural, StripLeading, StripTrailing, Integer, Fraction, Join, InCanonicalForm, ValueOf, Negative, Unsigned;
  }

  lemma {:induction false} CanonicalNumber(negative: bool, integer0: string, fraction0: string)
    requires integer0 != "" && AllDigits(integer0) && AllDigits(fraction0)
    ensures var integer, fraction := StripLeading(integer0), StripTrailing(fraction0);
            var s := Join(negative && !(integer == "0" && fraction == ""), integer, fraction);
            InCanonicalForm(s) && Number(s) == ValueOf(Fixed(Signed(negative, Natural(integer0 + fraction0)), |fraction0|))
  {
    hide Natural, StripLeading, StripTrailing, Join, InCanonicalForm, ValueOf, Parse, Shifted, Signed, AllDigits;
    var integer, fraction := StripLeading(integer0), StripTrailing(fraction0);
    StripLeadingKeeps(integer0);
    StripTrailingKeeps(fraction0);
    StrippingScales(integer0, fraction0);
    CanonicalParts(negative, integer, fraction);
    var zero := integer == "0" && fraction == "";
    var x := Fixed(Signed(negative, Natural(integer0 + fraction0)), |fraction0|);
    SameNumber(x, Parse(Join(negative && !zero, integer, fraction)), negative, zero, Natural(integer + fraction), |fraction0| - |fraction|);
  }

  lemma {:induction false} FixedPointParts(s: string)
    requires FixedPoint(s)
    ensures var u := Unsigned(s);
            Integer(u) != "" && AllDigits(Integer(u)) && AllDigits(Fraction(u))
  {
  }

  lemma {:induction false} StrippingScales(integer: string, fraction: string)
    requires integer != "" && AllDigits(integer) && AllDigits(fraction)
    ensures var r := StripTrailing(fraction);
            |r| <= |fraction| && Natural(integer + fraction) == Shifted(Natural(StripLeading(integer) + r), |fraction| - |r|)
  {
    StripLeadingKeeps(integer);
    NaturalAppends(StripLeading(integer), fraction);
    NaturalAppends(integer, fraction);
    hide StripLeading;
    StripTrailingBehind(StripLeading(integer), fraction);
  }

  lemma {:induction false} CanonicalParts(negative: bool, integer: string, fraction: string)
    requires integer != "" && AllDigits(integer) && AllDigits(fraction)
    requires (|integer| > 1 ==> integer[0] != '0') && (fraction != "" ==> fraction[|fraction| - 1] != '0')
    ensures var zero := integer == "0" && fraction == "";
            var s := Join(negative && !zero, integer, fraction);
            && InCanonicalForm(s) && Parse(s) == Fixed(Signed(negative && !zero, Natural(integer + fraction)), |fraction|)
            && (zero ==> Natural(integer + fraction) == 0)
  {
    hide Join, FixedPoint, Unsigned, Integer, Fraction, Negative, Natural;
    JoinSplits(negative && !(integer == "0" && fraction == ""), integer, fraction);
    if integer == "0" && fraction == "" {
      assert integer + fraction == "0";
      ZeroIsNothing();
    }
  }

  lemma {:induction false} ZeroIsNothing()
    ensures Natural("0") == 0
  {
    assert "0"[..0] == "";
  }

  /** More digits after the point, or a sign in front of a zero, make no difference. */
  lemma {:induction false} SameNumber(x: Fixed, y: Fixed, negative: bool, zero: bool, n: nat, k: nat)
    requires x == Fixed(Signed(negative, Shifted(n, k)), y.scale + k)
    requires y.coefficient == Signed(negative && !zero, n) && (zero ==> n == 0)
    ensures ValueOf(x) == ValueOf(y)
  {
    hide Pow10, ValueOf;
    Negated(n, Pow10(k));
    RescalingKeeps(y, x.scale);
  }

  lemma {:induction false} Negated(x: int, y: int)
    ensures -x * y == -(x * y)
  {
  }

  // ------------------------------------------------- canonical forms are unique

  lemma {:induction false} LastDigitShows(a: string, b: string)
    requires AllDigits(b) && b != "" && b[|b| - 1] != '0'
    ensures Natural(a + b) % 10 != 0
  {
    var s := a + b;
    assert s[|s| - 1] == b[|b| - 1] && IsDigit(b[|b| - 1]);
    DigitInjectiveZero(b[|b| - 1]);
    Ends(Natural(s[..|s| - 1]), DigitOf(b[|b| - 1]));
  }

  lemma {:induction false} DigitInjectiveZero(c: char)
    requires IsDigit(c) && c != '0'
    ensures DigitOf(c) != 0
  {
    if DigitOf(c) == DigitOf('0') {
      DigitInjective(c, '0');
    }
  }

  lemma {:induction false} Ends(n: nat, d: nat)
    requires d <= 9
    ensures (10 * n + d) % 10 == d
  {
  }

  lemma {:induction false} OnlyZeroIsZero(integer: string, fraction: string)
    requires integer != "" && AllDigits(integer) && AllDigits(fraction)
    requires (|integer| > 1 ==> integer[0] != '0') && (fraction != "" ==> fraction[|fraction| - 1] != '0')
    ensures !(integer == "0" && fraction == "") ==> Natural(integer + fraction) > 0
  {
    if fraction != "" {
      LastDigitShows(integer, fraction);
    } else {
      assert integer + fraction == integer;
      if |integer| > 1 {
        NaturalLeads(integer);
      } else {
        assert integer == [integer[0]] && integer[..0] == "";
        if integer[0] != '0' {
          DigitInjectiveZero(integer[0]);
        }
      }
    }
  }

  /** A coefficient that does not end in 0 has the smallest scale. */
  lemma {:induction false} SmallestScale(x: Fixed, y: Fixed)
    requires ValueOf(x) == ValueOf(y) && (y.scale > 0 ==> y.coefficient % 10 != 0)
    ensures y.scale <= x.scale
  {
    if y.scale > x.scale {
      LongerEndsInZero(x, y);
    }
  }

  lemma {:induction false} LongerEndsInZero(x: Fixed, y: Fixed)
    requires ValueOf(x) == ValueOf(y) && y.scale > x.scale
    ensures y.coefficient % 10 == 0
  {
    var d := y.scale - x.scale;
    EqualNumbers(x, y);
    Pow10Adds(d, x.scale);
    var p, q := Pow10(x.scale), Pow10(d - 1);
    assert Pow10(d) == 10 * q;
    assert x.coefficient * (10 * q * p) == y.coefficient * p;
    hide Pow10;
    CancelFactor(x.coefficient, q, y.coefficient, p);
  }

  lemma {:induction false} CancelFactor(x: int, q: int, y: int, p: int)
    requires p > 0 && x * (10 * q * p) == y * p
    ensures y % 10 == 0
  {
    assert x * (10 * q * p) == (10 * (x * q)) * p;
    assert y == 10 * (x * q);
  }

  lemma {:induction false} NotLonger(a: string, b: string)
    requires AllDigits(a) && Natural(a) == Natural(b) && (|a| > |b| ==> a[0] != '0')
    ensures |a| <= |b|
  {
    if |a| > |b| {
      NaturalLeads(a);
      NaturalBelow(b);
      Pow10Grows(|b|, |a| - 1);
    }
  }

  lemma {:induction false} Pow10Grows(m: nat, n: nat)
    requires m <= n
    ensures Pow10(m) <= Pow10(n)
  {
    if m < n {
      Pow10Grows(m, n - 1);
    }
  }

  /** What a canonical form says about the number read from it. */
  lemma {:induction false} CanonicalReads(s: string)
    requires InCanonicalForm(s)
    ensures var x := Parse(s);
            && (x.scale > 0 ==> x.coefficient % 10 != 0)
            && (Negative(s) <==> x.coefficient < 0) && Natural(Integer(Unsigned(s)) + Fraction(Unsigned(s))) == Abs(x.coefficient)
  {
    var integer, fraction := Integer(Unsigned(s)), Fraction(Unsigned(s));
    OnlyZeroIsZero(integer, fraction);
    if fraction != "" {
      LastDigitShows(integer, fraction);
    }
    hide Unsigned, Integer, Fraction, Natural;
    NegatedEnds(Natural(integer + fraction));
  }

  lemma {:induction false} NegatedEnds(n: int)
    ensures -n % 10 == 0 <==> n % 10 == 0
  {
    assert n == 10 * (n / 10) + n % 10;
    assert -n == 10 * (-n / 10) + -n % 10;
  }

  lemma {:induction false} SameDigits(i: string, f: string, j: string, g: string)
    requires i != "" && AllDigits(i) && AllDigits(f) && j != "" && AllDigits(j) && AllDigits(g)
    requires |f| == |g| && Natural(i + f) == Natural(j + g)
    requires (|i| > 1 ==> i[0] != '0') && (|j| > 1 ==> j[0] != '0')
    ensures i == j && f == g
  {
    NotLonger(i + f, j + g);
    NotLonger(j + g, i + f);
    NaturalInjective(i + f, j + g);
    assert i == (i + f)[..|i|] && j == (j + g)[..|j|] && f == (i + f)[|i|..] && g == (j + g)[|j|..];
  }

  /** A number has only one canonical form. */
  lemma {:induction false} CanonicalIsUnique(s: string, t: string)
    requires InCanonicalForm(s) && InCanonicalForm(t) && Number(s) == Number(t)
    ensures s == t
  {
    var x, y := Parse(s), Parse(t);
    CanonicalReads(s);
    CanonicalReads(t);
    SmallestScale(x, y);
    SmallestScale(y, x);
    EqualNumbers(x, y);
    SplitJoins(s);
    SplitJoins(t);
    hide Integer, Fraction, Unsigned, Natural, Pow10, ValueOf, Join, Negative;
    CancelFactors(x.coefficient, y.coefficient, Pow10(x.scale));
    SameDigits(Integer(Unsigned(s)), Fraction(Unsigned(s)), Integer(Unsigned(t)), Fraction(Unsigned(t)));
  }

  lemma {:induction false} CancelFactors(x: int, y: int, p: int)
    requires p > 0 && x * p == y * p
    ensures x == y
  {
  }

  /** Canonical strings are equal exactly when the numbers are. */
  lemma {:induction false} CanonicalExactly(s: string, t: string)
    requires FixedPoint(s) && FixedPoint(t)
    ensures CanonicalDecimalString(s) == CanonicalDecimalString(t) <==> Number(s) == Number(t)
  {
    CanonicalKeepsNumber(s);
    CanonicalKeepsNumber(t);
    hide Number, InCanonicalForm, Canonical, FixedPoint;
    if Number(s) == Number(t) {
      CanonicalIsUnique(Canonical(s), Canonical(t));
    }
  }

  lemma {:induction false} CanonicalIdempotent(s: string)
    requires FixedPoint(s)
    ensures FixedPoint(Canonical(s)) && CanonicalDecimalString(Canonical(s)) == CanonicalDecimalString(s)
  {
    CanonicalKeepsNumber(s);
    CanonicalExactly(Canonical(s), s);
  }

  // ---------------------------------------------------------- print and read

  /** Printing a scaled integer and reading it back gives the same integer and the same scale. */
  lemma {:induction false} FormatRoundTrips(coefficient: int, scale: nat)
    ensures var s := FormatScaled(coefficient, scale);
            FixedPoint(s) && Parse(s) == Fixed(coefficient, scale) && Decompose(s) == Fixed(coefficient, scale)
  {
    hide Numeral, PadStart, Natural, AllDigits, Integer, Fraction, Unsigned, Negative, FixedPoint, FormatScaled, Decompose;
    var digits := PadStart(Numeral(Abs(coefficient)), scale + 1);
    NumeralDenotes(Abs(coefficient));
    PaddingKeeps(Numeral(Abs(coefficient)), scale + 1);
    FormatJoins(coefficient, scale);
    SplitDigits(coefficient < 0, digits, scale);
    DecomposingIsReading(FormatScaled(coefficient, scale));
  }

  lemma {:induction false} FormatJoins(coefficient: int, scale: nat)
    ensures var digits := PadStart(Numeral(Abs(coefficient)), scale + 1);
            FormatScaled(coefficient, scale) == Join(coefficient < 0, digits[..|digits| - scale], digits[|digits| - scale..])
  {
    hide Numeral, PadStart;
    var digits := PadStart(Numeral(Abs(coefficient)), scale + 1);
    assert scale == 0 ==> digits[..|digits| - scale] == digits && digits[|digits| - scale..] == "";
  }

  lemma {:induction false} SplitDigits(negative: bool, digits: string, scale: nat)
    requires AllDigits(digits) && |digits| > scale
    ensures var s := Join(negative, digits[..|digits| - scale], digits[|digits| - scale..]);
            FixedPoint(s) && Parse(s) == Fixed(Signed(negative, Natural(digits)), scale)
  {
    var integer, fraction := digits[..|digits| - scale], digits[|digits| - scale..];
    assert integer + fraction == digits;
    JoinSplits(negative, integer, fraction);
    hide Natural, Integer, Fraction, Unsigned, Negative, Join, FixedPoint;
  }

  lemma {:induction false} DecomposingIsReading(s: string)
    requires FixedPoint(s)
    ensures Decompose(s) == Parse(s)
  {
    FixedPointParts(s);
    var u := Unsigned(s);
    hide Natural, Unsigned, Integer, Fraction, Negative, FixedPoint, StripLeading;
    StripLeadingKeeps(Integer(u) + Fraction(u));
  }

  // -------------------------------------------------------------- exact sums

  lemma {:induction false} SameScaleSum(a: int, b: int, scale: nat)
    ensures ValueOf(Fixed(a + b, scale)) == ValueOf(Fixed(a, scale)) + ValueOf(Fixed(b, scale))
  {
    DivideSum(a as real, b as real, Pow10(scale) as real);
  }

  lemma {:induction false} DivideSum(a: real, b: real, p: real)
    requires p > 0.0
    ensures (a + b) / p == a / p + b / p
  {
  }

  /** Addition loses nothing. */
  lemma {:induction false} ExactSumIsExact(left: string, right: string)
    requires FixedPoint(left) && FixedPoint(right)
    ensures FixedPoint(ExactSum(left, right)) && Number(ExactSum(left, right)) == Number(left) + Number(right)
  {
    var a, b := Parse(left), Parse(right);
    var scale := Max(a.scale, b.scale);
    hide Parse, ValueOf, FormatScaled, FixedPoint, Rescaled;
    FormatRoundTrips(Rescaled(a, scale) + Rescaled(b, scale), scale);
    RescalingKeeps(a, scale);
    RescalingKeeps(b, scale);
    SameScaleSum(Rescaled(a, scale), Rescaled(b, scale), scale);
  }

  // ------------------------------------------------------------------- ticks

  lemma {:induction false} SameScaleOrder(a: int, b: int, scale: nat)
    ensures a <= b <==> ValueOf(Fixed(a, scale)) <= ValueOf(Fixed(b, scale))
  {
    var p := Pow10(scale) as real;
    var x, y := a as real / p, b as real / p;
    assert a as real == x * p && b as real == y * p;
    if x > y {
      StrictlyMultiplyBoth(y, x, p);
    } else {
      MultiplyBoth(x, y, p);
    }
  }

  lemma {:induction false} SameScaleTimes(k: int, t: int, scale: nat)
    ensures ValueOf(Fixed(k * t, scale)) == k as real * ValueOf(Fixed(t, scale))
  {
    var p := Pow10(scale) as real;
    assert (k * t) as real == k as real * t as real;
    DivideProduct(k as real, t as real, p);
  }

  lemma {:induction false} DivideProduct(k: real, t: real, p: real)
    requires p > 0.0
    ensures k * t / p == k * (t / p)
  {
    var y := t / p;
    assert t == y * p;
    assert k * (y * p) == (k * y) * p;
  }

  lemma {:induction false} CommonScaleKeeps(value: string, tick: string)
    requires FixedPoint(value) && FixedPoint(tick)
    ensures var c := ToCommonScale(value, tick);
            && ValueOf(Fixed(c.v, c.scale)) == Number(value) && ValueOf(Fixed(c.t, c.scale)) == Number(tick)
            && (c.t > 0 <==> Number(tick) > 0.0)
  {
    DecomposingIsReading(value);
    DecomposingIsReading(tick);
    var c := ToCommonScale(value, tick);
    hide Parse, Decompose, ValueOf, Rescaled, FixedPoint;
    RescalingKeeps(Parse(value), c.scale);
    RescalingKeeps(Parse(tick), c.scale);
    SameScaleOrder(c.t, 0, c.scale);
    ZeroIsZero(c.scale);
  }

  lemma {:induction false} ZeroIsZero(scale: nat)
    ensures ValueOf(Fixed(0, scale)) == 0.0
  {
  }

  /** `r` is `q` ticks, and no number of ticks lies between it and the value above it. */
  ghost predicate NearestBelow(r: real, value: real, tick: real) {
    && Aligned(r, tick) && r <= value < r + tick
    && (forall k: int :: Steps(k, tick) <= value ==> Steps(k, tick) <= r)
  }

  ghost predicate NearestAbove(r: real, value: real, tick: real) {
    && Aligned(r, tick) && r - tick < value <= r
    && (forall k: int :: value <= Steps(k, tick) ==> r <= Steps(k, tick))
  }

  lemma {:induction false} ScaledFloor(v: int, t: int, scale: nat)
    requires t > 0
    ensures NearestBelow(ValueOf(Fixed(FloorDiv(v, t) * t, scale)), ValueOf(Fixed(v, scale)), ValueOf(Fixed(t, scale)))
  {
    hide ValueOf, FloorDiv;
    var q := FloorDiv(v, t);
    var r, value, tick := ValueOf(Fixed(q * t, scale)), ValueOf(Fixed(v, scale)), ValueOf(Fixed(t, scale));
    FloorDivIs(v, t, q);
    SameScaleTimes(q, t, scale);
    assert r == Steps(q, tick);
    SameScaleSum(q * t, t, scale);
    SameScaleOrder(q * t, v, scale);
    SameScaleOrder(q * t + t, v, scale);
    forall k: int | Steps(k, tick) <= value ensures Steps(k, tick) <= r {
      FloorDivIs(v, t, k);
      SameScaleTimes(k, t, scale);
      SameScaleOrder(k * t, v, scale);
      SameScaleOrder(k * t, q * t, scale);
    }
  }

  /** The ceiling of a value is the floor of its negative, negated. */
  lemma {:induction false} ScaledCeil(v: int, t: int, scale: nat)
    requires t > 0
    ensures NearestAbove(ValueOf(Fixed(CeilDiv(v, t) * t, scale)), ValueOf(Fixed(v, scale)), ValueOf(Fixed(t, scale)))
  {
    ScaledFloor(-v, t, scale);
    var q := FloorDiv(-v, t);
    hide FloorDiv, NearestBelow, NearestAbove;
    NegatedValue(q * t, scale);
    NegatedValue(v, scale);
    NegatedTimes(q, t);
    Mirrored(ValueOf(Fixed(q * t, scale)), ValueOf(Fixed(-v, scale)), ValueOf(Fixed(t, scale)));
  }

  lemma {:induction false} NegatedTimes(q: int, t: int)
    ensures -q * t == -(q * t)
  {
  }

  lemma {:induction false} NegatedValue(a: int, scale: nat)
    ensures ValueOf(Fixed(-a, scale)) == -ValueOf(Fixed(a, scale))
  {
    SameScaleSum(a, -a, scale);
    ZeroIsZero(scale);
  }

  lemma {:induction false} Mirrored(r: real, value: real, tick: real)
    requires NearestBelow(r, value, tick)
    ensures NearestAbove(-r, -value, tick)
  {
    var q: int :| r == Steps(q, tick);
    TimesNegated(q, tick);
    assert -r == Steps(-q, tick);
    forall k: int | -value <= Steps(k, tick) ensures -r <= Steps(k, tick) {
      TimesNegated(k, tick);
      assert Steps(-k, tick) <= value;
    }
  }

  lemma {:induction false} TimesNegated(k: int, tick: real)
    ensures Steps(-k, tick) == -Steps(k, tick)
  {
  }

  /** The floor fails exactly for a tick that is not positive; otherwise it is the greatest multiple of the tick that does not
      exceed the value, whatever the value's sign. */
  lemma {:induction false} FloorIsNearestBelow(value: string, tick: string)
    requires FixedPoint(value) && FixedPoint(tick)
    ensures FloorToTick(value, tick).Some? <==> Number(tick) > 0.0
    ensures Number(tick) > 0.0 ==>
              var r := FloorToTick(value, tick).value;
              FixedPoint(r) && NearestBelow(Number(r), Number(value), Number(tick))
  {
    var c := ToCommonScale(value, tick);
    CommonScaleKeeps(value, tick);
    hide Parse, ToCommonScale, ValueOf, FixedPoint, FormatScaled, FloorDiv, NearestBelow;
    if c.t > 0 {
      FormatRoundTrips(FloorDiv(c.v, c.t) * c.t, c.scale);
      ScaledFloor(c.v, c.t, c.scale);
    }
  }

  /** The ceiling likewise: the least multiple that is not below the value. */
  lemma {:induction false} CeilIsNearestAbove(value: string, tick: string)
    requires FixedPoint(value) && FixedPoint(tick)
    ensures CeilToTick(value, tick).Some? <==> Number(tick) > 0.0
    ensures Number(tick) > 0.0 ==>
              var r := CeilToTick(value, tick).value;
              FixedPoint(r) && NearestAbove(Number(r), Number(value), Number(tick))
  {
    var c := ToCommonScale(value, tick);
    CommonScaleKeeps(value, tick);
    hide Parse, ToCommonScale, ValueOf, FixedPoint, FormatScaled, CeilDiv, NearestAbove;
    if c.t > 0 {
      FormatRoundTrips(CeilDiv(c.v, c.t) * c.t, c.scale);
      ScaledCeil(c.v, c.t, c.scale);
    }
  }

  /** A quantity passes exactly when it is a multiple of a positive increment. */
  lemma {:induction false} AlignedExactly(quantity: string, increment: string)
    requires FixedPoint(quantity) && FixedPoint(increment)
    ensures QuantityAligned(quantity, increment) <==>
            Number(increment) > 0.0 && Aligned(Number(quantity), Number(increment))
  {
    var c := ToCommonScale(quantity, increment);
    CommonScaleKeeps(quantity, increment);
    hide Parse, ToCommonScale, ValueOf, FixedPoint;
    if c.t > 0 {
      ScaledAligned(c.v, c.t, c.scale);
    }
  }

  lemma {:induction false} ScaledAligned(v: int, t: int, scale: nat)
    requires t > 0
    ensures v - Truncated(v, t) * t == 0 <==> Aligned(ValueOf(Fixed(v, scale)), ValueOf(Fixed(t, scale)))
  {
    hide ValueOf;
    var tick := ValueOf(Fixed(t, scale));
    if v - Truncated(v, t) * t == 0 {
      SameScaleTimes(Truncated(v, t), t, scale);
      assert ValueOf(Fixed(v, scale)) == Steps(Truncated(v, t), tick);
    }
    if Aligned(ValueOf(Fixed(v, scale)), tick) {
      var q: int :| ValueOf(Fixed(v, scale)) == Steps(q, tick);
      SameScaleTimes(q, t, scale);
      SameScaleOrder(v, q * t, scale);
      SameScaleOrder(q * t, v, scale);
      MultipleTruncates(q, t);
    }
  }

  lemma {:induction false} MultipleTruncates(q: int, t: int)
    requires t > 0
    ensures Truncated(q * t, t) == q
  {
    NegatedTimes(q, t);
    if q * t >= 0 {
      QuotientIs(q * t, t, q);
    } else {
      QuotientIs(-(q * t), t, -q);
    }
  }

  lemma {:induction false} FloorDivIs(v: int, t: int, k: int)
    requires t > 0
    ensures var q := FloorDiv(v, t);
            q * t <= v < q * t + t && (k * t <= v ==> k * t <= q * t)
  {
    TruncationCorrected(v, t);
    var q := v / t;
    assert v == t * q + v % t;
    if k > q {
      MultiplyInts(q + 1, k, t);
    } else {
      MultiplyInts(k, q, t);
    }
  }
}
