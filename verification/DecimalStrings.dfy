/** Model of the decimal strings of src/execution/decimal.ts and src/risk/decimal.ts: canonical forms, printing and reading of
    scaled integers, exact addition and tick rounding. */
module DecimalStrings {
  import opened Common
  import opened RiskDecimal

  // ------------------------------------------------------------------- digits

  predicate IsDigit(c: char) {
    '0' <= c <= '9'
  }

  predicate AllDigits(s: string) {
    forall c <- s :: IsDigit(c)
  }

  function DigitOf(c: char): (d: nat)
    ensures d <= 9
  {
    if IsDigit(c) then c as int - '0' as int else 0
  }

  function CharOf(d: nat): (c: char)
    requires d <= 9
    ensures IsDigit(c) && DigitOf(c) == d
  {
    ('0' as int + d) as char
  }

  /** The number a string of digits denotes, as `BigInt` reads it. */
  function Natural(s: string): nat {
    if s == "" then 0 else 10 * Natural(s[..|s| - 1]) + DigitOf(s[|s| - 1])
  }

  /** As `BigInt.prototype.toString` prints it. */
  function Numeral(n: nat): string {
    if n <= 9 then [CharOf(n)] else Numeral(n / 10) + [CharOf(n % 10)]
  }

  function Zeros(n: nat): (zeros: string)
    ensures |zeros| == n
  {
    if n == 0 then "" else "0" + Zeros(n - 1)
  }

  function PadStart(s: string, n: nat): (padded: string)
    ensures |padded| == if |s| >= n then |s| else n
  {
    if |s| >= n then s else Zeros(n - |s|) + s
  }

  // ------------------------------------------------------- fixed-point syntax

  predicate Negative(s: string) {
    s != "" && s[0] == '-'
  }

  function Unsigned(s: string): string {
    if Negative(s) then s[1..] else s
  }

  /** The position of the decimal point, or the length. */
  function Point(u: string): (p: nat)
    ensures p <= |u|
    ensures p < |u| ==> u[p] == '.'
    ensures forall k :: 0 <= k < p ==> u[k] != '.'
  {
    if u == "" || u[0] == '.' then 0 else 1 + Point(u[1..])
  }

  function Integer(u: string): string {
    u[..Point(u)]
  }

  function Fraction(u: string): string {
    if Point(u) == |u| then "" else u[Point(u) + 1..]
  }

  /** An optional minus, digits, and possibly a point with digits after it. */
  predicate FixedPoint(s: string) {
    var u := Unsigned(s);
    && Integer(u) != "" && AllDigits(Integer(u)) && AllDigits(Fraction(u)) && (Point(u) < |u| ==> Fraction(u) != "")
  }

  function Signed(negative: bool, magnitude: int): int {
    if negative then -magnitude else magnitude
  }

  /** The number a fixed-point string denotes. */
  function Parse(s: string): Fixed {
    var u := Unsigned(s);
    Fixed(Signed(Negative(s), Natural(Integer(u) + Fraction(u))), |Fraction(u)|)
  }

  function Number(s: string): real {
    ValueOf(Parse(s))
  }

  function Join(negative: bool, integer: string, fraction: string): string {
    (if negative then "-" else "") + integer + (if fraction == "" then "" else "." + fraction)
  }

  // ----------------------------------------------------------- canonical form

  /** `replace(/^0+(?!$)/, '')`. */
  function StripLeading(s: string): string {
    if |s| > 1 && s[0] == '0' then StripLeading(s[1..]) else s
  }

  /** `replace(/0+$/, '')`. */
  function StripTrailing(s: string): string {
    if s != "" && s[|s| - 1] == '0' then StripTrailing(s[..|s| - 1]) else s
  }

  function Canonical(s: string): string {
    var u := Unsigned(s);
    var integer, fraction := StripLeading(Integer(u)), StripTrailing(Fraction(u));
    Join(Negative(s) && !(integer == "0" && fraction == ""), integer, fraction)
  }

  /** `None` where the source throws. */
  function CanonicalDecimalString(s: string): Option<string> {
    if FixedPoint(s) then Some(Canonical(s)) else None
  }

  // --------------------------------------------------- scaled integers as text

  function Decompose(s: string): Fixed {
    var u := Unsigned(s);
    var magnitude := Natural(StripLeading(Integer(u) + Fraction(u)));
    Fixed(Signed(Negative(s) && magnitude != 0, magnitude), |Fraction(u)|)
  }

  function Abs(n: int): nat {
    if n < 0 then -n else n
  }

  function FormatScaled(coefficient: int, scale: nat): string {
    var digits := PadStart(Numeral(Abs(coefficient)), scale + 1);
    if scale == 0 then Join(coefficient < 0, digits, "")
    else Join(coefficient < 0, digits[..|digits| - scale], digits[|digits| - scale..])
  }

  function Max(a: nat, b: nat): nat {
    if a > b then a else b
  }

  /** The coefficient of a number at a scale no smaller than its own. */
  function Rescaled(x: Fixed, scale: nat): int
    requires scale >= x.scale
  {
    x.coefficient * Pow10(scale - x.scale)
  }

  function ExactSum(left: string, right: string): string {
    var (a, b) := (Parse(left), Parse(right));
    var scale := Max(a.scale, b.scale);
    FormatScaled(Rescaled(a, scale) + Rescaled(b, scale), scale)
  }

  // -------------------------------------------------------------------- ticks

  function FloorDiv(a: int, b: int): int
    requires b > 0
  {
    Corrected(a, b)
  }

  function CeilDiv(a: int, b: int): int
    requires b > 0
  {
    -FloorDiv(-a, b)
  }

  datatype CommonScale = CommonScale(v: int, t: int, scale: nat)

  function ToCommonScale(value: string, tick: string): CommonScale {
    var (v, t) := (Decompose(value), Decompose(tick));
    var scale := Max(v.scale, t.scale);
    CommonScale(Rescaled(v, scale), Rescaled(t, scale), scale)
  }

  /** `None` where the source throws: for a tick that is not positive. */
  function FloorToTick(value: string, tick: string): Option<string> {
    var c := ToCommonScale(value, tick);
    if c.t <= 0 then None else Some(FormatScaled(FloorDiv(c.v, c.t) * c.t, c.scale))
  }

  function CeilToTick(value: string, tick: string): Option<string> {
    var c := ToCommonScale(value, tick);
    if c.t <= 0 then None else Some(FormatScaled(CeilDiv(c.v, c.t) * c.t, c.scale))
  }

  /** Reject, never resize. */
  predicate QuantityAligned(quantity: string, increment: string) {
    var c := ToCommonScale(quantity, increment);
    c.t > 0 && c.v - Truncated(c.v, c.t) * c.t == 0
  }
}
