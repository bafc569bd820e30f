/**
 * The few JavaScript built-ins the console's filter logic leans on,
 * restricted to what that logic feeds them:
 *  - `String(n)` and `Number(text)` on integral numbers and NaN;
 *  - `String.prototype.trim` with the ECMAScript white-space set.
 */
module JsBuiltins {

  /** A JavaScript number as the filters use it: an integer or NaN. */
  datatype Num = Int(value: int) | NaN {

    /** JavaScript truthiness of a number: false for 0 and NaN. */
    predicate Truthy() {
      Int? && value != 0
    }
  }

  predicate IsDigit(c: char) {
    '0' <= c <= '9'
  }

  /** A non-empty run of decimal digits. */
  predicate IsDigits(s: string) {
    |s| > 0 && forall i :: 0 <= i < |s| ==> IsDigit(s[i])
  }

  function DigitChar(d: nat): (c: char)
    requires d < 10
    ensures IsDigit(c) && (c as int) - ('0' as int) == d
  {
    ('0' as int + d) as char
  }

  function DigitValue(c: char): nat
    requires IsDigit(c)
  {
    (c as int) - ('0' as int)
  }

  /** The value of a run of decimal digits, most significant first. */
  function DigitsValue(s: string): nat
    requires forall i :: 0 <= i < |s| ==> IsDigit(s[i])
  {
    if |s| == 0 then 0 else DigitsValue(s[..|s| - 1]) * 10 + DigitValue(s[|s| - 1])
  }

  /** The shortest decimal numeral of `n`. */
  function Digits(n: nat): (s: string)
    ensures IsDigits(s)
    ensures n > 0 ==> s[0] != '0'
  {
    if n < 10 then [DigitChar(n)] else Digits(n / 10) + [DigitChar(n % 10)]
  }

  lemma {:induction false} DigitsValueOfDigits(n: nat)
    ensures DigitsValue(Digits(n)) == n
  {
    if n >= 10 {
      var s := Digits(n);
      assert s[..|s| - 1] == Digits(n / 10);
      DigitsValueOfDigits(n / 10);
    }
  }

  /** `String(n)` for an integral number or NaN. */
  function NumberToString(n: Num): (s: string)
    ensures s != ""
    ensures n.Int? && n.value >= 0 ==> IsDigits(s)
    ensures n.Int? && n.value < 0 ==> s[0] == '-' && IsDigits(s[1..])
    ensures n.NaN? ==> s == "NaN"
  {
    match n
    case NaN => "NaN"
    case Int(i) => if i < 0 then "-" + Digits(-i) else Digits(i)
  }

  /**
   * `Number(text)`: the empty text is 0, an optionally signed run of decimal
   * digits is that integer, and every other text is NaN.
   */
  function StringToNumber(s: string): (n: Num)
    ensures s == "" ==> n == Int(0)
    ensures IsDigits(s) ==> n == Int(DigitsValue(s))
    ensures |s| > 1 && s[0] == '-' && IsDigits(s[1..]) ==> n == Int(-(DigitsValue(s[1..]) as int))
    ensures |s| > 1 && s[0] == '+' && IsDigits(s[1..]) ==> n == Int(DigitsValue(s[1..]))
    ensures n.NaN? <==> s != "" && !IsDigits(s) && !(|s| > 1 && (s[0] == '-' || s[0] == '+') && IsDigits(s[1..]))
  {
    if s == "" then Int(0)
    else if IsDigits(s) then Int(DigitsValue(s))
    else if s[0] == '-' && IsDigits(s[1..]) then Int(-(DigitsValue(s[1..]) as int))
    else if s[0] == '+' && IsDigits(s[1..]) then Int(DigitsValue(s[1..]))
    else NaN
  }

  /** `Number(String(n)) == n` for every integral number and for NaN. */
  lemma NumberRoundTrip(n: Num)
    ensures StringToNumber(NumberToString(n)) == n
  {
    match n
    case NaN =>
      assert !IsDigit("NaN"[0]);
    case Int(i) =>
      if i < 0 {
        var s := NumberToString(n);
        assert s[1..] == Digits(-i);
        assert !IsDigit(s[0]);
        DigitsValueOfDigits(-i);
      } else {
        DigitsValueOfDigits(i);
      }
  }

  /** The ECMAScript WhiteSpace and LineTerminator code points, which `trim` removes. */
  predicate IsWhitespace(c: char) {
    || c == '\t' || c == '\n' || c == '\U{000B}' || c == '\U{000C}' || c == '\r' || c == ' '
    || c == '\U{00A0}' || c == '\U{1680}' || ('\U{2000}' <= c <= '\U{200A}')
    || c == '\U{2028}' || c == '\U{2029}' || c == '\U{202F}' || c == '\U{205F}'
    || c == '\U{3000}' || c == '\U{FEFF}'
  }

  /** How many white-space characters `trim` drops from the front of `s`. */
  function LeadingWhitespace(s: string): (k: nat)
    ensures k <= |s|
    ensures forall i :: 0 <= i < k ==> IsWhitespace(s[i])
    ensures k < |s| ==> !IsWhitespace(s[k])
  {
    if s != [] && IsWhitespace(s[0]) then 1 + LeadingWhitespace(s[1..]) else 0
  }

  /** How many white-space characters `trim` drops from the back of `s`. */
  function TrailingWhitespace(s: string): (k: nat)
    ensures k <= |s|
    ensures forall i :: |s| - k <= i < |s| ==> IsWhitespace(s[i])
    ensures k < |s| ==> !IsWhitespace(s[|s| - k - 1])
  {
    if s != [] && IsWhitespace(s[|s| - 1]) then 1 + TrailingWhitespace(s[..|s| - 1]) else 0
  }

  /** `s.trim()`: the text between the leading and the trailing white space. */
  function Trim(s: string): (r: string)
    ensures LeadingWhitespace(s) + |r| <= |s|
    ensures r == s[LeadingWhitespace(s)..LeadingWhitespace(s) + |r|]
    ensures forall i :: LeadingWhitespace(s) + |r| <= i < |s| ==> IsWhitespace(s[i])
    ensures r != "" ==> !IsWhitespace(r[0]) && !IsWhitespace(r[|r| - 1])
    ensures r == "" <==> forall i :: 0 <= i < |s| ==> IsWhitespace(s[i])
  {
    var t := s[LeadingWhitespace(s)..];
    t[..|t| - TrailingWhitespace(t)]
  }

  /** Trimming twice is trimming once. */
  lemma TrimIdempotent(s: string)
    ensures Trim(Trim(s)) == Trim(s)
  {
  }
}
