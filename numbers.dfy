/**
 * JavaScript's conversions from strings to numbers as the storefront uses them: `parseInt(s)`
 * (the request forms' quantity) and `Number(s)` (the coercion in `api.updateProduct`).
 * Only decimal integer numerals are modelled; every other numeral form is treated as NaN.
 */
module Numbers {
  import opened Strings

  /** A JavaScript number as far as this model needs one: an integer, or NaN. */
  datatype JsNumber = Finite(value: int) | NaN

  predicate IsDigit(c: char) {
    '0' <= c <= '9'
  }

  /** The value of a string of decimal digits, read most significant digit first. */
  function DigitsValue(ds: string): (n: nat)
    requires AllDigits(ds)
  {
    if ds == [] then 0 else DigitsValue(ds[..|ds| - 1]) * 10 + (ds[|ds| - 1] as int - '0' as int)
  }

  /** The longest prefix of `s` made of decimal digits. */
  function LeadingDigits(s: string): (r: string)
    ensures r <= s && AllDigits(r)
    ensures |r| < |s| ==> !IsDigit(s[|r|])
  {
    if s != [] && IsDigit(s[0]) then [s[0]] + LeadingDigits(s[1..]) else []
  }

  /** The sign a numeral starts with, and what follows it. */
  function SplitSign(t: string): (int, string) {
    if t != [] && t[0] == '-' then (-1, t[1..])
    else if t != [] && t[0] == '+' then (1, t[1..])
    else (1, t)
  }

  /**
   * `parseInt(s)` with no radix: leading whitespace is skipped, an optional sign is read, then
   * the longest run of decimal digits; anything after it is ignored, and no digits at all is NaN.
   */
  function ParseInt(s: string): JsNumber {
    var (sign, rest) := SplitSign(TrimStart(s));
    var ds := LeadingDigits(rest);
    if ds == [] then NaN else Finite(sign * DigitsValue(ds))
  }

  /**
   * `Number(s)` for a string: surrounding whitespace is ignored, the blank string is 0, an optionally
   * signed run of decimal digits is its value, and anything else is NaN.
   */
  function StringToNumber(s: string): JsNumber {
    var t := Trim(s);
    var (sign, rest) := SplitSign(t);
    if t == [] then Finite(0)
    else if rest != [] && AllDigits(rest) then Finite(sign * DigitsValue(rest))
    else NaN
  }

  /** Reading back the decimal numeral of `n` gives `n`. */
  lemma {:induction false} DigitsOfDecimal(n: nat)
    ensures DigitsValue(DecimalString(n)) == n
  {
    if n >= 10 {
      DigitsOfDecimal(n / 10);
      var d := DecimalString(n);
      assert d[..|d| - 1] == DecimalString(n / 10);
    }
  }

  /** The digits of a numeral are all of it: nothing of `DecimalString(n)` is left over. */
  lemma {:induction false} LeadingDigitsOfDigits(s: string)
    requires AllDigits(s)
    ensures LeadingDigits(s) == s
  {
    if s != [] {
      LeadingDigitsOfDigits(s[1..]);
    }
  }

  /**
   * `parseInt` reads back what `String(n)` wrote, whatever non-numeric text follows it
   * (`parseInt("3 pcs")` is 3) and whatever whitespace precedes it.
   */
  lemma {:induction false} ParseIntReadsNumeral(i: int, before: string, after: string)
    requires IsBlank(before)
    requires after == [] || !IsDigit(after[0])
    ensures ParseInt(before + IntString(i) + after) == Finite(i)
  {
    var n: nat := if i < 0 then -i else i;
    var s := before + IntString(i) + after;
    var tail := IntString(i) + after;
    assert s == before + tail;
    SplitSignOfNumeral(i, after);
    TrimStartSkipsBlank(before, tail);
    assert TrimStart(s) == tail;
    var sp := SplitSign(tail);
    assert sp.1 == DecimalString(n) + after;
    LeadingDigitsOfNumeral(DecimalString(n), after);
    assert LeadingDigits(sp.1) == DecimalString(n);
    DigitsOfDecimal(n);
    assert sp.0 * DigitsValue(DecimalString(n)) == i;
  }

  /** The sign of `String(i)` is the sign of `i`, and the digits of `|i|` follow it. */
  lemma SplitSignOfNumeral(i: int, after: string)
    ensures var n: nat := if i < 0 then -i else i;
      SplitSign(IntString(i) + after) == (if i < 0 then -1 else 1, DecimalString(n) + after)
  {
    if i < 0 {
      SplitSignOfNegative(i, after);
    } else {
      SplitSignOfNonNegative(i, after);
    }
  }

  lemma SplitSignOfNegative(i: int, after: string)
    requires i < 0
    ensures SplitSign(IntString(i) + after) == (-1, DecimalString(-i) + after)
  {
    var d := DecimalString(-i) + after;
    assert IntString(i) + after == "-" + d;
    assert ("-" + d)[1..] == d;
  }

  lemma SplitSignOfNonNegative(i: int, after: string)
    requires i >= 0
    ensures SplitSign(IntString(i) + after) == (1, DecimalString(i) + after)
  {
    var d := DecimalString(i) + after;
    assert IntString(i) + after == d;
    assert IsDigit(d[0]);
  }

  /** Skipping leading whitespace skips exactly a blank prefix when what follows starts with a non-blank. */
  lemma {:induction false} TrimStartSkipsBlank(before: string, s: string)
    requires IsBlank(before)
    requires s != [] && !IsWhitespace(s[0])
    ensures TrimStart(before + s) == s
  {
    if before != [] {
      assert (before + s)[1..] == before[1..] + s;
      TrimStartSkipsBlank(before[1..], s);
    }
  }

  /** The longest digit prefix of a numeral followed by a non-digit is that numeral. */
  lemma {:induction false} LeadingDigitsOfNumeral(d: string, after: string)
    requires AllDigits(d)
    requires after == [] || !IsDigit(after[0])
    ensures LeadingDigits(d + after) == d
  {
    if d != [] {
      assert (d + after)[1..] == d[1..] + after;
      LeadingDigitsOfNumeral(d[1..], after);
    }
  }

  /** `parseInt` is NaN exactly when no digit follows the whitespace and the optional sign. */
  lemma ParseIntNaNIff(s: string)
    ensures ParseInt(s).NaN? <==> var rest := SplitSign(TrimStart(s)).1; rest == [] || !IsDigit(rest[0])
  {
  }

  /** `Number` reads back what `String(i)` wrote, with or without surrounding whitespace. */
  lemma {:induction false} StringToNumberReadsNumeral(i: int, before: string, after: string)
    requires IsBlank(before) && IsBlank(after)
    ensures StringToNumber(before + IntString(i) + after) == Finite(i)
  {
    TrimOfPadded(before, IntString(i), after);
    StringToNumberOfTrimmed(before + IntString(i) + after, i);
  }

  /** Trimming removes exactly the blank padding around a string without whitespace at its ends. */
  lemma {:induction false} TrimOfPadded(before: string, s: string, after: string)
    requires IsBlank(before) && IsBlank(after)
    requires s != [] && !IsWhitespace(s[0]) && !IsWhitespace(s[|s| - 1])
    ensures Trim(before + s + after) == s
  {
    assert before + s + after == before + (s + after);
    TrimStartSkipsBlank(before, s + after);
    TrimEndSkipsBlank(s, after);
  }

  /** A string that trims to the numeral of `i` converts to `i`. */
  lemma {:induction false} StringToNumberOfTrimmed(s: string, i: int)
    requires Trim(s) == IntString(i)
    ensures StringToNumber(s) == Finite(i)
  {
    var n: nat := if i < 0 then -i else i;
    SplitSignOfNumeral(i, []);
    assert IntString(i) + [] == IntString(i);
    DigitsOfDecimal(n);
  }

  /** Dropping trailing whitespace drops exactly a blank suffix after a string that ends in a non-blank. */
  lemma {:induction false} TrimEndSkipsBlank(s: string, after: string)
    requires IsBlank(after)
    requires s != [] && !IsWhitespace(s[|s| - 1])
    ensures TrimEnd(s + after) == s
  {
    if after != [] {
      assert (s + after)[..|s + after| - 1] == s + after[..|after| - 1];
      TrimEndSkipsBlank(s, after[..|after| - 1]);
    } else {
      assert s + after == s;
    }
  }

  /** `Number` of a blank string is 0, not NaN. */
  lemma StringToNumberBlank(s: string)
    requires IsBlank(s)
    ensures StringToNumber(s) == Finite(0)
  {
    TrimEmptyIffBlank(s);
  }
}
