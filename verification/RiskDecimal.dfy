/** Model of src/risk/decimal.ts: exact products with a limit on significant digits, and
    the exact floor of a ratio to an exchange increment. Decimals are exact, so reals; how
    many significant digits a value needs is any function of the value. */
module RiskDecimal {
  import opened Common

  const CONTEXT_DIGITS: nat := 128

  /** A result, or the source's `ValuationNumericContextError`. */
  datatype Checked<+T> = Exact(value: T) | ContextExceeded
  {
    predicate IsFailure() {
      ContextExceeded?
    }

    function PropagateFailure<U>(): Checked<U>
      requires ContextExceeded?
    {
      ContextExceeded
    }

    function Extract(): T
      requires Exact?
    {
      value
    }
  }

  type Digits = real -> nat

  function Product(values: seq<real>): real {
    if values == [] then 1.0 else Product(values[..|values| - 1]) * values[|values| - 1]
  }

  predicate WithinContext(values: seq<real>, sd: Digits) {
    forall v <- values :: sd(v) <= CONTEXT_DIGITS
  }

  /** The running products stay within the digit limit. */
  predicate ProductFits(values: seq<real>, sd: Digits) {
    values != [] ==>
      ProductFits(values[..|values| - 1], sd) && sd(Product(values[..|values| - 1])) + sd(values[|values| - 1]) <= CONTEXT_DIGITS
  }

  function CheckedProduct(values: seq<real>, sd: Digits): Checked<real> {
    if WithinContext(values, sd) && ProductFits(values, sd) then Exact(Product(values)) else ContextExceeded
  }

  /** The source's loop: it either multiplies exactly or fails, and never rounds. */
  method ComputeCheckedProduct(values: seq<real>, sd: Digits) returns (r: Checked<real>)
    ensures r == CheckedProduct(values, sd)
    ensures r.Exact? ==> r.value == Product(values)
  {
    if !WithinContext(values, sd) {
      return ContextExceeded;
    }
    var result, i := 1.0, 0;
    while i < |values|
      invariant 0 <= i <= |values| && result == Product(values[..i]) && ProductFits(values[..i], sd)
    {
      assert values[..i + 1][..i] == values[..i];
      if sd(result) + sd(values[i]) > CONTEXT_DIGITS {
        if ProductFits(values, sd) {
          PrefixFits(values, i + 1, sd);
        }
        return ContextExceeded;
      }
      result := result * values[i];
      i := i + 1;
    }
    assert values[..i] == values;
    r := Exact(result);
  }

  lemma {:induction false} PrefixFits(values: seq<real>, i: nat, sd: Digits)
    requires i <= |values| && ProductFits(values, sd)
    ensures ProductFits(values[..i], sd)
  {
    if i < |values| {
      PrefixFits(values[..|values| - 1], i, sd);
      assert values[..|values| - 1][..i] == values[..i];
    } else {
      assert values[..i] == values;
    }
  }

  function Product2(x: real, y: real, sd: Digits): (r: Checked<real>)
    ensures r.Exact? ==> r.value == x * y
  {
    var r := CheckedProduct([x, y], sd);
    ProductOfTwo(x, y);
    r
  }

  function Product3(x: real, y: real, z: real, sd: Digits): (r: Checked<real>)
    ensures r.Exact? ==> r.value == x * y * z
  {
    var r := CheckedProduct([x, y, z], sd);
    ProductOfThree(x, y, z);
    r
  }

  lemma {:induction false} ProductOfTwo(x: real, y: real)
    ensures Product([x, y]) == x * y
  {
    assert [x, y][..1] == [x] && [x][..0] == [];
    assert Product([x]) == 1.0 * x;
  }

  lemma {:induction false} ProductOfThree(x: real, y: real, z: real)
    ensures Product([x, y, z]) == x * y * z
  {
    assert [x, y, z][..2] == [x, y];
    ProductOfTwo(x, y);
  }

  // ------------------------------------------------------------- flooring

  /** `floorRatioToIncrement`. */
  function FloorRatio(numerator: real, denominator: real, increment: real, sd: Digits): Checked<real> {
    if denominator <= 0.0 || increment <= 0.0 then ContextExceeded
    else Product2(Quotient(numerator, denominator, increment) as real, increment, sd)
  }

  function Quotient(numerator: real, denominator: real, increment: real): int
    requires denominator > 0.0 && increment > 0.0
  {
    PositiveProduct(denominator, increment);
    (numerator / (denominator * increment)).Floor
  }

  lemma {:induction false} PositiveProduct(x: real, y: real)
    requires x > 0.0 && y > 0.0
    ensures x * y > 0.0
  {
    StrictlyMultiplyBoth(0.0, x, y);
    assert 0.0 * y == 0.0;
  }

  ghost predicate Aligned(x: real, increment: real) {
    exists k: int :: x == Steps(k, increment)
  }

  function Steps(k: int, increment: real): real {
    k as real * increment
  }

  /** The quotient is the greatest number of increments whose cost does not exceed the numerator. */
  lemma {:induction false} FloorIsGreatest(numerator: real, denominator: real, increment: real, k: int)
    requires denominator > 0.0 && increment > 0.0
    ensures Steps(k, increment) * denominator <= numerator <==> k <= Quotient(numerator, denominator, increment)
  {
    var c := denominator * increment;
    PositiveProduct(denominator, increment);
    assert Steps(k, increment) * denominator == k as real * c by {
      Associate(k as real, increment, denominator);
    }
    DivisionBound(numerator, c, k as real);
    var q := numerator / c;
    assert k as real <= q <==> k <= q.Floor;
  }

  lemma {:induction false} Associate(x: real, y: real, z: real)
    ensures x * y * z == x * (z * y)
  {
  }

  lemma {:induction false} DivisionBound(n: real, c: real, x: real)
    requires c > 0.0
    ensures x * c <= n <==> x <= n / c
  {
    assert n / c * c == n;
    if x <= n / c {
      MultiplyBoth(x, n / c, c);
    } else {
      StrictlyMultiplyBoth(n / c, x, c);
    }
  }

  lemma {:induction false} MultiplyBoth(x: real, y: real, c: real)
    requires x <= y && c >= 0.0
    ensures x * c <= y * c
  {
  }

  lemma {:induction false} StrictlyMultiplyBoth(x: real, y: real, c: real)
    requires x < y && c > 0.0
    ensures x * c < y * c
  {
  }

  /** What a successful floor means, without mentioning quotients: the result is aligned, it fits, and
      no larger aligned quantity fits. */
  lemma {:induction false} FloorRatioIsOptimal(numerator: real, denominator: real, increment: real, sd: Digits)
    requires FloorRatio(numerator, denominator, increment, sd).Exact?
    ensures denominator > 0.0 && increment > 0.0
    ensures var r := FloorRatio(numerator, denominator, increment, sd).value;
            && Aligned(r, increment) && r * denominator <= numerator
            && (forall x :: Aligned(x, increment) ==> (x * denominator <= numerator <==> x <= r))
  {
    var q := Quotient(numerator, denominator, increment);
    var r := FloorRatio(numerator, denominator, increment, sd).value;
    assert r == Steps(q, increment);
    FloorIsGreatest(numerator, denominator, increment, q);
    forall x | Aligned(x, increment) ensures x * denominator <= numerator <==> x <= r {
      var k: int :| x == Steps(k, increment);
      FloorIsGreatest(numerator, denominator, increment, k);
      StepsOrdered(k, q, increment);
    }
  }

  lemma {:induction false} StepsOrdered(k: int, q: int, increment: real)
    requires increment > 0.0
    ensures k <= q <==> Steps(k, increment) <= Steps(q, increment)
  {
    if k <= q {
      MultiplyBoth(k as real, q as real, increment);
    } else {
      StrictlyMultiplyBoth(q as real, k as real, increment);
    }
  }

  // ---------------------------------------- the floor on scaled integers

  function Pow10(n: nat): (p: int)
    ensures p >= 1
  {
    if n == 0 then 1 else 10 * Pow10(n - 1)
  }

  lemma {:induction false} Pow10Adds(a: nat, b: nat)
    ensures Pow10(a + b) == Pow10(a) * Pow10(b)
  {
    if a > 0 {
      Pow10Adds(a - 1, b);
      assert Pow10(a + b) == 10 * (Pow10(a - 1) * Pow10(b));
    }
  }

  /** A fixed-point decimal: coefficient and number of fraction digits. */
  datatype Fixed = Fixed(coefficient: int, scale: nat)

  function ValueOf(x: Fixed): real {
    x.coefficient as real / Pow10(x.scale) as real
  }

  /** Integer division that truncates toward zero, as `BigInt` divides. */
  function Truncated(top: int, bottom: int): int
    requires bottom > 0
  {
    if top >= 0 then top / bottom else -(-top / bottom)
  }

  function ScaledTop(n: Fixed, d: Fixed, i: Fixed): int {
    n.coefficient * Pow10(d.scale + i.scale)
  }

  function ScaledBottom(n: Fixed, d: Fixed, i: Fixed): (bottom: int)
    requires d.coefficient > 0 && i.coefficient > 0
    ensures bottom > 0
  {
    PositiveFactors(d.coefficient, i.coefficient, Pow10(n.scale));
    d.coefficient * i.coefficient * Pow10(n.scale)
  }

  /** The source's integer arithmetic for the quotient. */
  function ScaledQuotient(n: Fixed, d: Fixed, i: Fixed): int
    requires d.coefficient > 0 && i.coefficient > 0
  {
    Corrected(ScaledTop(n, d, i), ScaledBottom(n, d, i))
  }

  /** Truncated division, lowered by one where that rounded up. */
  function Corrected(top: int, bottom: int): int
    requires bottom > 0
  {
    Truncated(top, bottom) - (if top < 0 && top != Truncated(top, bottom) * bottom then 1 else 0)
  }

  lemma {:induction false} PositiveFactors(x: int, y: int, z: int)
    requires x > 0 && y > 0 && z > 0
    ensures x * y > 0 && x * y * z > 0
  {
  }

  lemma {:induction false} TruncationCorrected(top: int, bottom: int)
    requires bottom > 0
    ensures Corrected(top, bottom) == top / bottom
  {
    if top < 0 {
      var q := -top / bottom;
      assert -top == q * bottom + -top % bottom;
      if -top % bottom == 0 {
        assert top == -q * bottom;
        QuotientIs(top, bottom, -q);
      } else {
        assert top == (-q - 1) * bottom + (bottom - -top % bottom);
        QuotientIs(top, bottom, -q - 1);
      }
    }
  }

  lemma {:induction false} QuotientIs(top: int, bottom: int, q: int)
    requires bottom > 0 && 0 <= top - q * bottom < bottom
    ensures top / bottom == q
  {
    var p := top / bottom;
    assert p * bottom <= top < p * bottom + bottom;
    if p < q {
      MultiplyInts(p + 1, q, bottom);
    } else if p > q {
      MultiplyInts(q + 1, p, bottom);
    }
  }

  lemma {:induction false} MultiplyInts(x: int, y: int, c: int)
    requires x <= y && c > 0
    ensures x * c <= y * c
  {
  }

  lemma {:induction false} FloorOfRatio(top: int, bottom: int)
    requires bottom > 0
    ensures (top as real / bottom as real).Floor == top / bottom
  {
    var q := top / bottom;
    var x := top as real / bottom as real;
    assert q * bottom <= top < q * bottom + bottom;
    DivisionBound(top as real, bottom as real, q as real);
    assert q as real * bottom as real == (q * bottom) as real;
    DivisionBound(top as real, bottom as real, (q + 1) as real);
    assert (q + 1) as real * bottom as real == ((q + 1) * bottom) as real;
    assert (q + 1) * bottom == q * bottom + bottom;
  }

  /** The integers compute exactly the floor of the real ratio: no rounding is involved. */
  lemma {:induction false} ScaledQuotientIsExact(n: Fixed, d: Fixed, i: Fixed)
    requires d.coefficient > 0 && i.coefficient > 0
    ensures ValueOf(d) > 0.0 && ValueOf(i) > 0.0
    ensures ScaledQuotient(n, d, i) == Quotient(ValueOf(n), ValueOf(d), ValueOf(i))
  {
    hide ScaledTop, ScaledBottom, ValueOf, Corrected, Pow10;
    PositiveValue(d);
    PositiveValue(i);
    QuotientInIntegers(n, d, i);
    CorrectedIsFloor(ScaledTop(n, d, i), ScaledBottom(n, d, i));
  }

  lemma {:induction false} PositiveValue(x: Fixed)
    requires x.coefficient > 0
    ensures ValueOf(x) > 0.0
  {
    PositiveRatio(x.coefficient as real, Pow10(x.scale) as real);
  }

  lemma {:induction false} QuotientInIntegers(n: Fixed, d: Fixed, i: Fixed)
    requires d.coefficient > 0 && i.coefficient > 0 && ValueOf(d) > 0.0 && ValueOf(i) > 0.0
    ensures Quotient(ValueOf(n), ValueOf(d), ValueOf(i)) == (ScaledTop(n, d, i) as real / ScaledBottom(n, d, i) as real).Floor
  {
    hide ScaledTop, ScaledBottom, ValueOf, Pow10;
    QuotientIsFloor(ValueOf(n), ValueOf(d), ValueOf(i));
    CrossMultiplied(n, d, i);
  }

  lemma {:induction false} QuotientIsFloor(numerator: real, denominator: real, increment: real)
    requires denominator > 0.0 && increment > 0.0
    ensures denominator * increment > 0.0
    ensures Quotient(numerator, denominator, increment) == (numerator / (denominator * increment)).Floor
  {
    PositiveProduct(denominator, increment);
  }

  lemma {:induction false} CorrectedIsFloor(top: int, bottom: int)
    requires bottom > 0
    ensures Corrected(top, bottom) == (top as real / bottom as real).Floor
  {
    TruncationCorrected(top, bottom);
    FloorOfRatio(top, bottom);
    hide Corrected;
  }

  lemma {:induction false} PositiveRatio(x: real, y: real)
    requires x > 0.0 && y > 0.0
    ensures x / y > 0.0
  {
    assert x / y * y == x;
    if x / y <= 0.0 {
      MultiplyBoth(x / y, 0.0, y);
    }
  }

  lemma {:induction false} CrossMultiplied(n: Fixed, d: Fixed, i: Fixed)
    requires d.coefficient > 0 && i.coefficient > 0 && ValueOf(d) * ValueOf(i) > 0.0
    ensures ValueOf(n) / (ValueOf(d) * ValueOf(i)) == ScaledTop(n, d, i) as real / ScaledBottom(n, d, i) as real
  {
    var a, b, c := n.coefficient as real, d.coefficient as real, i.coefficient as real;
    var pa, pb, pc := Pow10(n.scale) as real, Pow10(d.scale) as real, Pow10(i.scale) as real;
    Pow10Adds(d.scale, i.scale);
    ToReal(n.coefficient, Pow10(d.scale), Pow10(i.scale));
    ToReal2(d.coefficient, i.coefficient, Pow10(n.scale));
    hide Pow10;
    RatioOfProducts(a, pa, b, pb, c, pc);
  }

  lemma {:induction false} ToReal(x: int, y: int, z: int)
    ensures (x * (y * z)) as real == x as real * (y as real * z as real)
  {
  }

  lemma {:induction false} ToReal2(x: int, y: int, z: int)
    ensures (x * y * z) as real == x as real * y as real * z as real
  {
  }

  lemma {:induction false} RatioOfProducts(a: real, pa: real, b: real, pb: real, c: real, pc: real)
    requires pa > 0.0 && pb > 0.0 && pc > 0.0 && b > 0.0 && c > 0.0
    requires b * c * pa != 0.0 && (b / pb) * (c / pc) != 0.0
    ensures (a / pa) / ((b / pb) * (c / pc)) == a * (pb * pc) / (b * c * pa)
  {
    var x, y, z := a / pa, b / pb, c / pc;
    assert a == x * pa && b == y * pb && c == z * pc;
    var r := x / (y * z);
    assert x == r * (y * z);
    var bottom := b * c * pa;
    assert bottom == (y * z) * (pb * pc * pa) by {
      Rearrange(y, pb, z, pc, pa);
    }
    assert a * (pb * pc) == r * bottom by {
      Rearrange2(r, y * z, pa, pb * pc);
    }
    UniqueQuotient(a * (pb * pc), bottom, r);
  }

  lemma {:induction false} Rearrange(y: real, pb: real, z: real, pc: real, pa: real)
    ensures (y * pb) * (z * pc) * pa == (y * z) * (pb * pc * pa)
  {
  }

  lemma {:induction false} Rearrange2(r: real, yz: real, pa: real, pbc: real)
    ensures (r * yz) * pa * pbc == r * (yz * (pbc * pa))
  {
  }

  lemma {:induction false} UniqueQuotient(top: real, bottom: real, r: real)
    requires bottom != 0.0 && top == r * bottom
    ensures top / bottom == r
  {
  }
}
