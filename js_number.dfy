/**
 * The parts of JavaScript number handling the PPV parser depends on:
 * `parseFloat` and `parseInt` on a string, the `> 0` test on their result,
 * and `String(n)` of a price.
 *
 * A parsed number is kept exactly, as a sign and a decimal magnitude whose
 * fraction digits carry no trailing zero; `NaN` is a value of its own.
 */
module JsNumber {
  import opened Wrappers
  import opened Text

  /** A non-negative decimal `whole.frac`, with `frac` a digit string without a trailing '0'. */
  datatype Decimal = Decimal(whole: nat, frac: string)

  ghost predicate Normal(d: Decimal) {
    AllDigits(d.frac) && (d.frac == [] || d.frac[|d.frac| - 1] != '0')
  }

  /** For a normal decimal, the value is greater than zero. */
  predicate IsPositive(d: Decimal) {
    d.whole > 0 || d.frac != []
  }

  /** The value `parseFloat` produced: `NaN`, or a signed decimal. */
  datatype JsNumber = NaN | Num(negative: bool, magnitude: Decimal)

  /** The JavaScript test `x > 0` (false for `NaN` and for `-0`). */
  predicate GreaterThanZero(n: JsNumber) {
    n.Num? && !n.negative && IsPositive(n.magnitude)
  }

  /** The value `parseInt` produced: `NaN`, or an integer. */
  datatype JsInt = IntNaN | Int(value: int)

  /** Truthiness of a number: `NaN` and zero are falsy. */
  predicate IntTruthy(n: JsInt) {
    n.Int? && n.value != 0
  }

  /** Drops the trailing '0' digits of a fraction. */
  function StripTrailingZeros(s: string): (r: string)
    ensures |r| <= |s| && r == s[..|r|]
    ensures r == [] || r[|r| - 1] != '0'
    ensures AllDigits(s) ==> AllDigits(r)
  {
    if s == [] || s[|s| - 1] != '0' then s else StripTrailingZeros(s[..|s| - 1])
  }

  /** Whether a numeric literal starts with a minus sign. */
  predicate Negative(t: string) {
    t != [] && t[0] == '-'
  }

  /** A numeric literal without its optional sign. */
  function Unsigned(t: string): string {
    if t != [] && (t[0] == '-' || t[0] == '+') then t[1..] else t
  }

  /** The digits after a leading '.', if any. */
  function FractionDigits(rest: string): (r: string)
    ensures AllDigits(r)
  {
    if rest != [] && rest[0] == '.' then LeadingDigits(rest[1..]) else ""
  }

  /**
   * `parseFloat(s)`: leading whitespace is skipped, then the longest prefix of
   * the form `[+-] digits [. digits]` (with at least one digit) is read and
   * anything after it is ignored; with no digit at all the result is `NaN`.
   */
  function ParseFloat(s: string): (r: JsNumber)
    ensures r.Num? ==> Normal(r.magnitude)
  {
    var t := TrimStart(s);
    var body := Unsigned(t);
    var whole := LeadingDigits(body);
    var frac := FractionDigits(body[|whole|..]);
    if whole == [] && frac == [] then NaN
    else Num(Negative(t), Decimal(DigitsValue(whole), StripTrailingZeros(frac)))
  }

  predicate IsHexDigit(c: char) {
    IsDigit(c) || 'a' <= c <= 'f' || 'A' <= c <= 'F'
  }

  function HexDigitValue(c: char): nat
    requires IsHexDigit(c)
  {
    if IsDigit(c) then DigitValue(c)
    else if 'a' <= c <= 'f' then (c as int) - ('a' as int) + 10
    else (c as int) - ('A' as int) + 10
  }

  function LeadingHexDigits(s: string): (r: string)
    ensures |r| <= |s| && r == s[..|r|]
    ensures forall i :: 0 <= i < |r| ==> IsHexDigit(r[i])
  {
    if s == [] || !IsHexDigit(s[0]) then "" else [s[0]] + LeadingHexDigits(s[1..])
  }

  function HexValue(s: string): nat
    requires forall i :: 0 <= i < |s| ==> IsHexDigit(s[i])
  {
    if s == [] then 0 else 16 * HexValue(s[..|s| - 1]) + HexDigitValue(s[|s| - 1])
  }

  /**
   * `parseInt(s)` without a radix: leading whitespace, an optional sign, then
   * hexadecimal digits after a `0x`/`0X` prefix or decimal digits otherwise;
   * `NaN` when there is no digit.
   */
  function ParseInt(s: string): (r: JsInt)
    ensures r.Int? && r.value < 0 ==> Negative(TrimStart(s))
  {
    var t := TrimStart(s);
    var negative := Negative(t);
    var body := Unsigned(t);
    var isHex := |body| >= 2 && body[0] == '0' && (body[1] == 'x' || body[1] == 'X');
    var magnitude: Option<nat> :=
      if isHex then
        var ds := LeadingHexDigits(body[2..]);
        if ds == [] then None else Some(HexValue(ds))
      else
        var ds := LeadingDigits(body);
        if ds == [] then None else Some(DigitsValue(ds));
    match magnitude
    case None => IntNaN
    case Some(m) => Int(if negative then -(m as int) else m)
  }

  /** `String(x)` of a positive decimal in the ordinary range: `whole[.frac]`. */
  function RenderDecimal(d: Decimal): string
  {
    NatToString(d.whole) + (if d.frac == [] then "" else "." + d.frac)
  }

  /** A literal that starts with a digit is read with no sign and no skipped prefix. */
  lemma ParseFloatDigitLed(s: string)
    requires s != [] && IsDigit(s[0])
    ensures var whole := LeadingDigits(s);
            ParseFloat(s) == Num(false, Decimal(DigitsValue(whole), StripTrailingZeros(FractionDigits(s[|whole|..]))))
  {
    assert TrimStart(s) == s;
    assert Unsigned(s) == s;
  }

  /** The fraction part of a rendered price reads back as its digits. */
  lemma FractionOfRendered(frac: string)
    requires AllDigits(frac) && (frac == [] || frac[|frac| - 1] != '0')
    ensures StripTrailingZeros(FractionDigits(if frac == [] then "" else "." + frac)) == frac
  {
    if frac != [] {
      var tail := "." + frac;
      assert tail[1..] == frac + "";
      LeadingDigitsOfDigits(frac, "");
    }
  }

  /** A rendered price reads back as the same number: the text shows the exact value. */
  lemma RenderDecimalParses(d: Decimal)
    requires Normal(d)
    ensures ParseFloat(RenderDecimal(d)) == Num(false, d)
  {
    var w := NatToString(d.whole);
    var tail := if d.frac == [] then "" else "." + d.frac;
    var s := w + tail;
    assert s == RenderDecimal(d);
    assert s[0] == w[0];
    ParseFloatDigitLed(s);
    LeadingDigitsOfDigits(w, tail);
    assert s[|w|..] == tail;
    NatToStringValue(d.whole);
    FractionOfRendered(d.frac);
  }
}
