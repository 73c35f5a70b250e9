/**
 * The number conversions the modelled code relies on: rendering an integer
 * in decimal (`n.toString()`, template literals), `parseInt(s)` without a
 * radix, ToNumber (used by `x >= 50`), and the array index a value names
 * when it is used as a property key (`names[v]`).
 *
 * Finite numbers are exact reals: the rounding of long digit strings to the
 * nearest double and the exponent notation JavaScript uses for magnitudes of
 * 10^21 and more are not modelled.
 */
module JsNumbers {
  import opened JsValues
  import opened JsStrings

  predicate IsDecimalDigit(c: char)
  {
    '0' <= c <= '9'
  }

  function DigitChar(d: nat): (c: char)
    requires d < 10
    ensures IsDecimalDigit(c) && c as int - '0' as int == d
  {
    (d + '0' as int) as char
  }

  /** The decimal rendering of a natural number: no sign, no leading zeros. */
  function NatToDecimal(n: nat): (s: string)
    ensures |s| >= 1
    ensures forall i :: 0 <= i < |s| ==> IsDecimalDigit(s[i])
    ensures s[0] == '0' ==> n == 0 && |s| == 1
    decreases n
  {
    if n < 10 then [DigitChar(n)] else NatToDecimal(n / 10) + [DigitChar(n % 10)]
  }

  /** `String(i)` for an integer-valued number. */
  function IntToDecimal(i: int): string
  {
    if i < 0 then "-" + NatToDecimal(-i) else NatToDecimal(i)
  }

  /** The value of `c` as a digit in base `radix` (2..36), if it is one. */
  function DigitValue(c: char, radix: nat): (d: Option<nat>)
    ensures d.Some? ==> d.value < radix
  {
    var v: int :=
      if '0' <= c <= '9' then c as int - '0' as int
      else if 'a' <= c <= 'z' then c as int - 'a' as int + 10
      else if 'A' <= c <= 'Z' then c as int - 'A' as int + 10
      else -1;
    if 0 <= v < radix then Some(v) else None
  }

  predicate AllDigits(s: string, radix: nat)
  {
    forall i :: 0 <= i < |s| ==> DigitValue(s[i], radix).Some?
  }

  /** The length of the longest prefix of `s` made of base-`radix` digits. */
  function DigitRun(s: string, radix: nat): (k: nat)
    ensures k <= |s|
    ensures AllDigits(s[..k], radix)
    ensures k < |s| ==> DigitValue(s[k], radix).None?
    decreases |s|
  {
    if |s| > 0 && DigitValue(s[0], radix).Some? then 1 + DigitRun(s[1..], radix) else 0
  }

  /** The value of a digit string in base `radix`, most significant digit first. */
  function DigitsValue(s: string, radix: nat): nat
    requires AllDigits(s, radix)
    decreases |s|
  {
    if |s| == 0 then 0
    else DigitsValue(s[..|s| - 1], radix) * radix + DigitValue(s[|s| - 1], radix).value
  }

  function Pow10(n: nat): (p: nat)
    ensures p >= 1
  {
    if n == 0 then 1 else 10 * Pow10(n - 1)
  }

  /** A whole number as a JavaScript number with the given sign. */
  function Signed(negative: bool, n: nat): Number
  {
    Finite(if negative then -(n as real) else n as real)
  }

  /** A leading `-` or `+`: whether it negates, and the text after it. */
  function SplitSign(t: string): (bool, string)
  {
    if |t| > 0 && (t[0] == '-' || t[0] == '+') then (t[0] == '-', t[1..]) else (false, t)
  }

  /** The digits `parseInt` reads after the sign: base 16 after `0x`/`0X`, otherwise base 10. */
  function LeadingInteger(u: string): Option<nat>
  {
    var hex := |u| >= 2 && u[0] == '0' && (u[1] == 'x' || u[1] == 'X');
    var radix := if hex then 16 else 10;
    var w := if hex then u[2..] else u;
    var k := DigitRun(w, radix);
    if k == 0 then None else Some(DigitsValue(w[..k], radix))
  }

  /**
   * `parseInt(s)` with no radix: skip leading whitespace, take an optional
   * sign, switch to base 16 after a `0x`/`0X` prefix, and read the longest
   * digit prefix; NaN when that prefix is empty.
   */
  function ParseInt(s: string): Number
  {
    var split := SplitSign(TrimStart(s));
    match LeadingInteger(split.1)
    case None => NaN
    case Some(n) => Signed(split.0, n)
  }

  /** `m * 10^e` */
  function Scale(m: real, e: int): real
  {
    if e >= 0 then m * Pow10(e) as real else m / Pow10(-e) as real
  }

  /** The optional `e`/`E` exponent part ending a decimal literal. */
  function ExponentPart(x: string): Option<int>
  {
    if x == "" then Some(0)
    else if x[0] != 'e' && x[0] != 'E' then None
    else
      var y := x[1..];
      var negative := |y| > 0 && y[0] == '-';
      var z := if |y| > 0 && (y[0] == '-' || y[0] == '+') then y[1..] else y;
      if |z| > 0 && DigitRun(z, 10) == |z| then
        var e: int := DigitsValue(z, 10);
        Some(if negative then -e else e)
      else None
  }

  /** An unsigned StrUnsignedDecimalLiteral other than `Infinity`: `12`, `1.5`, `.5`, `5.`, `2e3`. */
  function UnsignedDecimal(u: string): Option<real>
  {
    var i := DigitRun(u, 10);
    var rest := u[i..];
    var hasDot := |rest| > 0 && rest[0] == '.';
    var afterDot := if hasDot then rest[1..] else rest;
    var f := if hasDot then DigitRun(afterDot, 10) else 0;
    if i == 0 && f == 0 then None
    else match ExponentPart(afterDot[f..])
      case None => None
      case Some(e) =>
        var whole := DigitsValue(u[..i], 10) as real;
        var fraction := DigitsValue(afterDot[..f], 10) as real / Pow10(f) as real;
        Some(Scale(whole + fraction, e))
  }

  /** The radix a `0x`, `0o` or `0b` prefix letter selects. */
  function PrefixRadix(c: char): Option<nat>
  {
    if c == 'x' || c == 'X' then Some(16)
    else if c == 'o' || c == 'O' then Some(8)
    else if c == 'b' || c == 'B' then Some(2)
    else None
  }

  /** A `0x`, `0o` or `0b` literal filling the whole trimmed text. */
  function NonDecimalLiteral(t: string): Option<nat>
  {
    if |t| >= 3 && t[0] == '0' && PrefixRadix(t[1]).Some?
       && DigitRun(t[2..], PrefixRadix(t[1]).value) == |t| - 2
    then Some(DigitsValue(t[2..], PrefixRadix(t[1]).value))
    else None
  }

  /** A StrDecimalLiteral: optional sign, then `Infinity` or an unsigned decimal. */
  function SignedDecimal(t: string): Number
  {
    var split := SplitSign(t);
    var negative := split.0;
    var u := split.1;
    if u == "Infinity" then (if negative then NegInf else PosInf)
    else match UnsignedDecimal(u)
      case None => NaN
      case Some(m) => Finite(if negative then -m else m)
  }

  /** ToNumber applied to a string (StringToNumber): NaN unless the whole trimmed text is a numeric literal. */
  function StringToNumber(s: string): Number
  {
    var t := Trim(s);
    if t == "" then Finite(0.0)
    else match NonDecimalLiteral(t)
      case Some(n) => Finite(n as real)
      case None => SignedDecimal(t)
  }

  /** ToNumber on a primitive. */
  function ToNumber(v: JsValue): Number
  {
    match v
    case Undefined => NaN
    case Null => Finite(0.0)
    case Bool(b) => Finite(if b then 1.0 else 0.0)
    case Num(n) => n
    case Str(s) => StringToNumber(s)
  }

  /** `v >= k` for a primitive `v` and a number literal `k`. */
  predicate AtLeast(v: JsValue, k: int)
  {
    match ToNumber(v)
    case Finite(r) => r >= k as real
    case PosInf => true
    case NegInf => false
    case NaN => false
  }

  /**
   * A value other than a string. Used as a property key it becomes the text
   * of a number, `undefined`, `null`, `true` or `false`, and none of these
   * names an inherited property of an array (unlike `"length"`).
   */
  type NonStringValue = v: JsValue | !v.Str? witness Undefined

  /**
   * The index in `0..len-1` that `v` selects when used as a property key
   * `o[v]` of an array: the key is ToString(v), which names an entry exactly
   * when `v` is a whole number in range.
   */
  function IndexKey(v: NonStringValue, len: nat): (r: Option<nat>)
    ensures r.Some? ==> r.value < len && v == Int(r.value)
    ensures r.None? ==> forall k: nat :: k < len ==> v != Int(k)
  {
    match v
    case Num(Finite(x)) =>
      if IsIntegral(x) && 0.0 <= x < len as real then Some(x.Floor as nat) else None
    case _ => None
  }

  // ----- lemmas -----

  /** Reading back the decimal rendering gives the number. */
  lemma {:induction false} DigitsValueOfDecimal(n: nat)
    ensures AllDigits(NatToDecimal(n), 10)
    ensures DigitsValue(NatToDecimal(n), 10) == n
    decreases n
  {
    var s := NatToDecimal(n);
    if n >= 10 {
      DigitsValueOfDecimal(n / 10);
      assert s[..|s| - 1] == NatToDecimal(n / 10);
    }
  }

  /** The whole decimal rendering is one digit run. */
  lemma DigitRunOfDigits(s: string, radix: nat)
    requires AllDigits(s, radix)
    ensures DigitRun(s, radix) == |s|
  {
  }

  /** Decimal renderings of distinct numbers differ. */
  lemma NatToDecimalInjective(m: nat, n: nat)
    requires NatToDecimal(m) == NatToDecimal(n)
    ensures m == n
  {
    DigitsValueOfDecimal(m);
    DigitsValueOfDecimal(n);
  }

  /** The sign of a rendered integer splits off its magnitude. */
  lemma SplitSignOfDecimal(i: int)
    ensures SplitSign(IntToDecimal(i)) == (i < 0, NatToDecimal(if i < 0 then -i else i))
  {
  }

  /** A sign or a digit is not whitespace. */
  lemma SignOrDigitNotSpace(c: char)
    requires c == '-' || IsDecimalDigit(c)
    ensures !IsJsSpace(c)
  {
  }

  /** A rendered integer starts with a sign or a digit and ends with a digit. */
  lemma DecimalEnds(i: int)
    ensures var s := IntToDecimal(i);
            |s| >= 1 && (s[0] == '-' || IsDecimalDigit(s[0])) && IsDecimalDigit(s[|s| - 1])
  {
  }

  /** A rendered integer has no whitespace at either end. */
  lemma {:induction false} TrimOfDecimal(i: int)
    ensures TrimStart(IntToDecimal(i)) == IntToDecimal(i)
    ensures Trim(IntToDecimal(i)) == IntToDecimal(i)
  {
    var s := IntToDecimal(i);
    DecimalEnds(i);
    SignOrDigitNotSpace(s[0]);
    SignOrDigitNotSpace(s[|s| - 1]);
    TrimStartKeeps(s);
    TrimEndKeeps(s);
  }

  /** A digit string followed by a non-digit is read up to the non-digit. */
  lemma {:induction false} DigitRunOfPrefix(d: string, rest: string, radix: nat)
    requires AllDigits(d, radix)
    requires rest == "" || DigitValue(rest[0], radix).None?
    ensures DigitRun(d + rest, radix) == |d|
    decreases |d|
  {
    if |d| > 0 {
      assert (d + rest)[1..] == d[1..] + rest;
      DigitRunOfPrefix(d[1..], rest, radix);
    } else {
      assert d + rest == rest;
    }
  }

  /** What may follow a rendered number without changing what `parseInt` reads. */
  predicate EndsNumber(rest: string)
  {
    rest == "" || (DigitValue(rest[0], 10).None? && rest[0] != 'x' && rest[0] != 'X')
  }

  lemma {:induction false} LeadingIntegerOfDecimal(n: nat, rest: string)
    requires EndsNumber(rest)
    ensures LeadingInteger(NatToDecimal(n) + rest) == Some(n)
  {
    var d := NatToDecimal(n);
    var w := d + rest;
    DigitsValueOfDecimal(n);
    DigitRunOfPrefix(d, rest, 10);
    assert !(|w| >= 2 && w[0] == '0' && (w[1] == 'x' || w[1] == 'X')) by {
      if |d| >= 2 {
        assert w[1] == d[1];
      } else if |w| >= 2 {
        assert w[1] == rest[0];
      }
    }
    assert w[..|d|] == d;
  }

  /** The sign of a rendered integer splits off, whatever follows the digits. */
  lemma SplitSignOfDecimalThen(i: int, rest: string)
    ensures SplitSign(IntToDecimal(i) + rest) == (i < 0, NatToDecimal(if i < 0 then -i else i) + rest)
  {
    var n: nat := if i < 0 then -i else i;
    var d := NatToDecimal(n);
    if i < 0 {
      assert IntToDecimal(i) + rest == "-" + (d + rest);
    } else {
      assert IntToDecimal(i) + rest == d + rest;
    }
  }

  /** `parseInt(String(i) + rest)` reads back `i` when `rest` cannot extend the number. */
  lemma {:induction false} ParseIntOfDecimalThen(i: int, rest: string)
    requires EndsNumber(rest)
    ensures ParseInt(IntToDecimal(i) + rest) == Finite(i as real)
  {
    var n: nat := if i < 0 then -i else i;
    var s := IntToDecimal(i) + rest;
    DecimalEnds(i);
    assert s[0] == IntToDecimal(i)[0];
    SignOrDigitNotSpace(s[0]);
    TrimStartKeeps(s);
    SplitSignOfDecimalThen(i, rest);
    LeadingIntegerOfDecimal(n, rest);
    assert ParseInt(s) == Signed(i < 0, n);
  }

  /** Text that starts with neither whitespace, a sign nor a digit parses to NaN. */
  lemma ParseIntWithoutDigits(s: string)
    requires |s| > 0 && !IsJsSpace(s[0]) && s[0] != '-' && s[0] != '+' && DigitValue(s[0], 10).None?
    ensures ParseInt(s) == NaN
  {
    TrimStartKeeps(s);
    assert SplitSign(s) == (false, s);
    assert DigitRun(s, 10) == 0;
  }

  /** `parseInt(String(i)) === i` for every integer `i`. */
  lemma ParseIntOfDecimal(i: int)
    ensures ParseInt(IntToDecimal(i)) == Finite(i as real)
  {
    ParseIntOfDecimalThen(i, "");
    assert IntToDecimal(i) + "" == IntToDecimal(i);
  }

  lemma {:induction false} UnsignedDecimalOfDecimal(n: nat)
    ensures UnsignedDecimal(NatToDecimal(n)) == Some(n as real)
  {
    var u := NatToDecimal(n);
    DigitsValueOfDecimal(n);
    DigitRunOfDigits(u, 10);
    assert u[..|u|] == u;
    assert u[|u|..] == "";
  }

  /** ToNumber(String(i)) is `i`: a quantity written in decimal reads back exactly. */
  lemma {:induction false} StringToNumberOfDecimal(i: int)
    ensures StringToNumber(IntToDecimal(i)) == Finite(i as real)
  {
    var n: nat := if i < 0 then -i else i;
    var t := IntToDecimal(i);
    TrimOfDecimal(i);
    SplitSignOfDecimal(i);
    UnsignedDecimalOfDecimal(n);
    assert NonDecimalLiteral(t) == None by {
      assert !(|t| >= 3 && t[0] == '0');
    }
    assert NatToDecimal(n) != "Infinity" by {
      assert IsDecimalDigit(NatToDecimal(n)[0]);
    }
  }

  /** A whole number used as a key selects its own index. */
  lemma IndexKeyOfInt(k: nat, len: nat)
    requires k < len
    ensures IndexKey(Int(k), len) == Some(k)
  {
  }
}
