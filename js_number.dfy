/** JavaScript's `Number(s)` on a string, the coercion `z.coerce.number()` applies: the
    StringNumericLiteral grammar of ECMAScript (whitespace around, empty for 0, a signed
    decimal literal with optional fraction and exponent, `Infinity`, or an unsigned
    `0x`/`0o`/`0b` integer), NaN for anything else. Values are exact fractions. */
module JsNumber {
  import opened Wrappers
  import opened Decimal
  import opened JsText

  /** A Number value: NaN, an infinity, or the finite value `num / den`. */
  datatype Number = NaN | Infinite(negative: bool) | Finite(num: int, den: nat)

  predicate IsInteger(n: Number) {
    n.Finite? && n.den > 0 && n.num % n.den == 0
  }

  function Pow10(e: nat): (p: nat)
    ensures p >= 1
  {
    if e == 0 then 1 else 10 * Pow10(e - 1)
  }

  /** The value of one digit in base 2, 8 or 16, or -1 when `c` is not a digit of `base`. */
  function DigitIn(c: char, base: nat): (d: int)
    ensures -1 <= d < base
  {
    var v :=
      if '0' <= c <= '9' then c as int - '0' as int
      else if 'a' <= c <= 'f' then c as int - 'a' as int + 10
      else if 'A' <= c <= 'F' then c as int - 'A' as int + 10
      else -1;
    if v < base then v else -1
  }

  /** The value of a non-empty string of digits of `base`, or -1 when it is not one. */
  function RadixValue(s: string, base: nat): (v: int)
    ensures s == [] ==> v == -1
    ensures v >= -1
  {
    if s == [] then -1
    else
      var d := DigitIn(s[|s| - 1], base);
      if d < 0 then -1
      else if |s| == 1 then d
      else
        var high := RadixValue(s[..|s| - 1], base);
        if high < 0 then -1 else high * base + d
  }

  /** An unsigned decimal literal: digits with an optional '.' and fraction (at least one
      digit in all), then an optional exponent 'e' or 'E' with an optional sign. */
  function UnsignedDecimal(s: string, negative: bool): (r: Number)
    ensures r.Finite? ==> r.den >= 1
    ensures r == NaN || r.Finite?
  {
    var e := MinIndex(IndexOf(s, 'e'), IndexOf(s, 'E'));
    var mantissa := s[..e];
    var dot := IndexOf(mantissa, '.');
    var whole := mantissa[..dot];
    var fraction := if dot < |mantissa| then mantissa[dot + 1..] else [];
    var exponent := if e < |s| then SignedDigits(s[e + 1..]) else Some(0);
    if !AllDigits(whole) || !AllDigits(fraction) || |whole| + |fraction| == 0 || exponent.None? then NaN
    else
      var magnitude := DigitsValue(whole + fraction);
      var m: int := if negative then -(magnitude as int) else magnitude;
      var scale := exponent.value - |fraction|;
      if scale >= 0 then Finite(m * Pow10(scale), 1) else Finite(m, Pow10(-scale))
  }

  function MinIndex(a: nat, b: nat): nat {
    if a <= b then a else b
  }

  /** An exponent: an optional sign and at least one digit. */
  function SignedDigits(s: string): (r: Option<int>)
  {
    if s != [] && (s[0] == '+' || s[0] == '-') then
      var digits := s[1..];
      if digits != [] && AllDigits(digits) then
        var v: int := if s[0] == '-' then -(DigitsValue(digits) as int) else DigitsValue(digits);
        Some(v)
      else None
    else if s != [] && AllDigits(s) then Some(DigitsValue(s))
    else None
  }

  /** `Number(s)` for a string `s`. */
  function StringToNumber(s: string): (r: Number)
    ensures r.Finite? ==> r.den >= 1
  {
    var t := Trim(s);
    if t == [] then Finite(0, 1)
    else if |t| > 2 && t[0] == '0' && (t[1] == 'x' || t[1] == 'X') then Radix(t[2..], 16)
    else if |t| > 2 && t[0] == '0' && (t[1] == 'o' || t[1] == 'O') then Radix(t[2..], 8)
    else if |t| > 2 && t[0] == '0' && (t[1] == 'b' || t[1] == 'B') then Radix(t[2..], 2)
    else
      var negative := t[0] == '-';
      var unsigned := if t[0] == '+' || t[0] == '-' then t[1..] else t;
      if unsigned == "Infinity" then Infinite(negative) else UnsignedDecimal(unsigned, negative)
  }

  function Radix(s: string, base: nat): (r: Number)
    ensures r.Finite? ==> r.den == 1 && r.num >= 0
  {
    var v := RadixValue(s, base);
    if v < 0 then NaN else Finite(v, 1)
  }

  /** A string of digits contains no non-digit. */
  lemma DigitsHaveNo(s: string, c: char)
    requires AllDigits(s) && !IsDigit(c)
    ensures IndexOf(s, c) == |s|
  {
  }

  /** Digits without point or exponent are the whole number they spell. */
  lemma UnsignedDigits(s: string, negative: bool)
    requires s != [] && AllDigits(s)
    ensures UnsignedDecimal(s, negative) == Finite(if negative then -(DigitsValue(s) as int) else DigitsValue(s), 1)
  {
    DigitsHaveNo(s, 'e');
    DigitsHaveNo(s, 'E');
    DigitsHaveNo(s, '.');
    assert s[..|s|] == s && s[..|s|][..|s|] == s;
    assert s + [] == s;
  }

  /** Trimmed text that starts with neither a sign nor `0x`, `0o`, `0b` is read as an
      unsigned decimal literal. */
  lemma PlainDecimal(s: string)
    requires s != [] && IsTrimmed(s) && s[0] != '+' && s[0] != '-'
    requires |s| > 2 && s[0] == '0' ==> IsDigit(s[1])
    requires s != "Infinity"
    ensures StringToNumber(s) == UnsignedDecimal(s, false)
  {
    TrimTrimmed(s);
  }

  /** Trimmed text that starts with '-' is read as the negated literal after it. */
  lemma MinusDecimal(s: string)
    requires |s| >= 2 && IsTrimmed(s) && s[0] == '-' && s[1..] != "Infinity"
    ensures StringToNumber(s) == UnsignedDecimal(s[1..], true)
  {
    TrimTrimmed(s);
  }

  /** The decimal text of a whole number reads back as that number. */
  lemma DigitsToNumber(s: string)
    requires s != [] && AllDigits(s)
    ensures StringToNumber(s) == Finite(DigitsValue(s), 1)
  {
    assert !IsJsWhitespace(s[0]) && !IsJsWhitespace(s[|s| - 1]);
    assert s != "Infinity" by { assert IsDigit(s[0]); }
    PlainDecimal(s);
    UnsignedDigits(s, false);
  }

  /** A minus sign and digits read back as the negated whole number. */
  lemma MinusDigitsToNumber(digits: string)
    requires digits != [] && AllDigits(digits)
    ensures StringToNumber("-" + digits) == Finite(-(DigitsValue(digits) as int), 1)
  {
    var s := "-" + digits;
    assert s[1..] == digits;
    assert !IsJsWhitespace(s[|s| - 1]) by { assert s[|s| - 1] == digits[|digits| - 1]; }
    assert digits != "Infinity" by { assert IsDigit(digits[0]); }
    MinusDecimal(s);
    UnsignedDigits(digits, true);
  }

  /** `String(n)` for a whole number reads back as `n`. */
  lemma IntToNumber(n: int)
    ensures StringToNumber(IntToString(n)) == Finite(n, 1)
  {
    if n >= 0 {
      DigitsToNumber(NatToString(n));
      DigitsValueOfNatToString(n);
    } else {
      MinusDigitsToNumber(NatToString(-n));
      DigitsValueOfNatToString(-n);
    }
  }

  /** Empty or whitespace-only text is 0. */
  lemma BlankIsZero(s: string)
    requires AllWhitespace(s)
    ensures StringToNumber(s) == Finite(0, 1)
  {
    TrimEmpty(s);
  }

  /** Text that starts with a character no numeric literal starts with is NaN: "abc". */
  lemma NotANumber(s: string)
    requires s != [] && IsTrimmed(s) && s != "Infinity"
    requires !IsDigit(s[0]) && s[0] !in ".+-"
    ensures StringToNumber(s) == NaN
  {
    PlainDecimal(s);
    var e := MinIndex(IndexOf(s, 'e'), IndexOf(s, 'E'));
    if e > 0 {
      var mantissa := s[..e];
      var dot := IndexOf(mantissa, '.');
      assert dot > 0 && mantissa[..dot][0] == s[0];
    }
  }
}
