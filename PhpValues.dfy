/** The pieces of PHP's value semantics the application relies on: string
    conversion, `empty()`, `is_numeric`, `intval`, `ucfirst`, `addslashes` and
    `stripslashes`, and the numbers `$n / 2` produces. */
module PhpValues {
  import opened Common

  /** A PHP scalar as it arrives from JSON or a request. */
  datatype Scalar = Str(s: string) | Int(i: int) | Bool(b: bool)

  /** PHP's conversion of a scalar to a string: true is "1", false is "". */
  function ScalarText(v: Scalar): string {
    match v
    case Str(s) => s
    case Int(i) => IntText(i)
    case Bool(b) => if b then "1" else ""
  }

  /** PHP's `empty()` on a string: "" and "0" are empty. */
  predicate EmptyString(s: string) {
    s == "" || s == "0"
  }

  /** PHP's `empty()` on a scalar, the negation of its truthiness. */
  predicate ScalarEmpty(v: Scalar) {
    match v
    case Str(s) => EmptyString(s)
    case Int(i) => i == 0
    case Bool(b) => !b
  }

  /** PHP's `ucfirst` (ASCII only, as in PHP 8). */
  function Ucfirst(s: string): (r: string)
    ensures |r| == |s|
    ensures |s| > 0 ==> r[1..] == s[1..]
    ensures |s| > 0 && !('a' <= s[0] <= 'z') ==> r == s
    ensures |s| > 0 && 'a' <= s[0] <= 'z' ==>
      'A' <= r[0] <= 'Z' && r[0] as int - 'A' as int == s[0] as int - 'a' as int
  {
    if |s| > 0 && 'a' <= s[0] <= 'z' then [(s[0] as int - 32) as char] + s[1..] else s
  }

  // ---------------------------------------------------------------- numbers in strings

  /** The characters C's isspace accepts, which PHP skips before a number. */
  predicate IsSpace(c: char) {
    c == ' ' || c == '\t' || c == '\n' || c == '\r' || c == '\U{0B}' || c == '\U{0C}'
  }

  predicate IsSign(c: char) {
    c == '+' || c == '-'
  }

  function SkipSpaces(s: string): (r: string)
    ensures |r| <= |s|
  {
    if |s| > 0 && IsSpace(s[0]) then SkipSpaces(s[1..]) else s
  }

  /** PHP's `intval` on a string: leading whitespace, an optional sign, then the
      longest run of decimal digits; 0 when there are no digits. */
  function IntVal(s: string): int {
    var t := SkipSpaces(s);
    if |t| > 0 && t[0] == '-' then -(DigitsValue(LeadingDigits(t[1..])) as int)
    else if |t| > 0 && t[0] == '+' then DigitsValue(LeadingDigits(t[1..]))
    else DigitsValue(LeadingDigits(t))
  }

  /** `intval` reads back what PHP writes for a non-negative integer. */
  lemma IntValOfNatText(n: nat)
    ensures IntVal(NatText(n)) == n
  {
    var s := NatText(n);
    assert IsDigit(s[0]);
    assert SkipSpaces(s) == s;
    LeadingDigitsOfDigits(s);
    DigitsValueOfNatText(n);
  }

  /** A string that does not start with whitespace, a sign or a digit is read as 0. */
  lemma IntValOfNonNumeric(s: string)
    requires |s| > 0 && !IsSpace(s[0]) && !IsSign(s[0]) && !IsDigit(s[0])
    ensures IntVal(s) == 0
  {
  }

  /** The index of the first position at or after `i` that is not a digit. */
  function SpanDigits(s: string, i: nat): (j: nat)
    requires i <= |s|
    ensures i <= j <= |s|
    decreases |s| - i
  {
    if i < |s| && IsDigit(s[i]) then SpanDigits(s, i + 1) else i
  }

  /** The index of the first position at or after `i` that is not whitespace. */
  function SpanSpaces(s: string, i: nat): (j: nat)
    requires i <= |s|
    ensures i <= j <= |s|
    decreases |s| - i
  {
    if i < |s| && IsSpace(s[i]) then SpanSpaces(s, i + 1) else i
  }

  /** Where an exponent part starting at `d` ends (`d` itself when there is none). */
  function ExponentEnd(s: string, d: nat): (j: nat)
    requires d <= |s|
    ensures d <= j <= |s|
  {
    if d < |s| && (s[d] == 'e' || s[d] == 'E') then
      var f := if d + 1 < |s| && IsSign(s[d + 1]) then d + 2 else d + 1;
      var g := SpanDigits(s, f);
      if g > f then g else d
    else d
  }

  /** PHP 8's `is_numeric` on a string: a decimal number with optional sign,
      fraction and exponent, optionally surrounded by whitespace. */
  predicate IsNumeric(s: string) {
    var a := SpanSpaces(s, 0);
    var b := if a < |s| && IsSign(s[a]) then a + 1 else a;
    var c := SpanDigits(s, b);
    var d := if c < |s| && s[c] == '.' then SpanDigits(s, c + 1) else c;
    var digits := (c - b) + (if d > c then d - c - 1 else 0);
    digits > 0 && SpanSpaces(s, ExponentEnd(s, d)) == |s|
  }

  lemma {:induction false} SpanDigitsOfDigits(s: string, i: nat)
    requires i <= |s| && AllDigits(s)
    ensures SpanDigits(s, i) == |s|
    decreases |s| - i
  {
    if i < |s| {
      SpanDigitsOfDigits(s, i + 1);
    }
  }

  /** A run of digits, such as PHP's text of a non-negative integer, is numeric. */
  lemma DigitsAreNumeric(s: string)
    requires |s| > 0 && AllDigits(s)
    ensures IsNumeric(s)
  {
    assert IsDigit(s[0]);
    SpanDigitsOfDigits(s, 0);
  }

  /** A string whose first character cannot begin a number is not numeric. */
  lemma NotNumeric(s: string)
    requires |s| > 0 && !IsSpace(s[0]) && !IsSign(s[0]) && !IsDigit(s[0]) && s[0] != '.'
    ensures !IsNumeric(s)
  {
  }

  // ---------------------------------------------------------------- backslash escapes

  /** PHP's `addslashes`: a backslash before each `'`, `"` and `\`, and NUL written as `\0`. */
  function AddSlashes(s: string): string {
    if |s| == 0 then ""
    else
      (if s[0] == '\'' || s[0] == '"' || s[0] == '\\' then ['\\', s[0]]
       else if s[0] == '\0' then ['\\', '0']
       else [s[0]])
      + AddSlashes(s[1..])
  }

  /** PHP's `stripslashes`: `\0` becomes NUL, a backslash before any other
      character is dropped, and a trailing lone backslash disappears. On the
      sequences `addslashes` produces it agrees with MySQL's decoding of a
      quoted string literal. */
  function StripSlashes(s: string): string {
    if |s| == 0 then ""
    else if s[0] == '\\' then
      if |s| == 1 then ""
      else (if s[1] == '0' then ['\0'] else [s[1]]) + StripSlashes(s[2..])
    else [s[0]] + StripSlashes(s[1..])
  }

  /** Unescaping returns exactly the bytes that were escaped. */
  lemma {:induction false} StripAddSlashes(s: string)
    ensures StripSlashes(AddSlashes(s)) == s
  {
    if |s| > 0 {
      var head := if s[0] == '\'' || s[0] == '"' || s[0] == '\\' then ['\\', s[0]]
                  else if s[0] == '\0' then ['\\', '0']
                  else [s[0]];
      var t := AddSlashes(s[1..]);
      assert AddSlashes(s) == head + t;
      StripAddSlashes(s[1..]);
      if |head| == 2 {
        assert (head + t)[2..] == t;
      } else {
        assert (head + t)[1..] == t;
      }
      assert [s[0]] + s[1..] == s;
    }
  }

  /** A string without backslashes is its own `stripslashes`. */
  lemma {:induction false} StripSlashesPlain(s: string)
    requires '\\' !in s
    ensures StripSlashes(s) == s
  {
    if |s| > 0 {
      StripSlashesPlain(s[1..]);
      assert [s[0]] + s[1..] == s;
    }
  }

  // ---------------------------------------------------------------- numbers

  /** A PHP number that is an integer or an integer and a half: what `$n / 2` yields. */
  datatype Number = Whole(n: int) | AndAHalf(whole: nat)

  /** PHP's conversion of such a number to a string (`3.5`, `6`). */
  function NumberText(x: Number): string {
    match x
    case Whole(n) => IntText(n)
    case AndAHalf(w) => NatText(w) + ".5"
  }

  function NumberValue(x: Number): real {
    match x
    case Whole(n) => n as real
    case AndAHalf(w) => w as real + 0.5
  }

  /** PHP's `$n / 2`: an integer when `n` is even, a float ending in .5 otherwise. */
  function Half(n: nat): (r: Number)
    ensures NumberValue(r) * 2.0 == n as real
    ensures r.Whole? <==> n % 2 == 0
  {
    if n % 2 == 0 then Whole(n / 2) else AndAHalf(n / 2)
  }
}
