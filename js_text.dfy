/** The few facts about JavaScript strings that the form's checks rely on:
    the `\s` class of regular expressions, `String.prototype.length`
    (which counts UTF-16 code units) and all-digit text. */
module JsText {

  /** True when `c` belongs to the `\s` class of a JavaScript regular
      expression (white space and line terminators). */
  predicate IsJsSpace(c: char): (b: bool)
    ensures b ==> c as int <= 0xFFFF
    ensures b ==> !('0' <= c <= '9') && c != '@' && c != '.'
  {
    var n := c as int;
    n == 0x09 || n == 0x0A || n == 0x0B || n == 0x0C || n == 0x0D || n == 0x20
    || n == 0xA0 || n == 0x1680 || (0x2000 <= n <= 0x200A)
    || n == 0x2028 || n == 0x2029 || n == 0x202F || n == 0x205F
    || n == 0x3000 || n == 0xFEFF
  }

  /** Every character of `t` matches `\S`. */
  predicate NoSpace(t: string) {
    forall i | 0 <= i < |t| :: !IsJsSpace(t[i])
  }

  /** A character outside the Basic Multilingual Plane takes two UTF-16 code units. */
  function CodeUnits(c: char): nat {
    if c as int <= 0xFFFF then 1 else 2
  }

  /** The value of `s.length` in JavaScript: the number of UTF-16 code units. */
  function JsLength(s: string): (n: nat)
    ensures |s| <= n <= 2 * |s|
    ensures n == 0 <==> s == []
  {
    if s == [] then 0 else CodeUnits(s[0]) + JsLength(s[1..])
  }

  /** Every character of `s` lies in the Basic Multilingual Plane. */
  predicate InBmp(s: string) {
    forall i | 0 <= i < |s| :: s[i] as int <= 0xFFFF
  }

  /** Text without astral characters has as many code units as characters. */
  lemma {:induction false} JsLengthOfBmp(s: string)
    requires InBmp(s)
    ensures JsLength(s) == |s|
  {
    if s != [] {
      assert InBmp(s[1..]) by {
        forall i | 0 <= i < |s[1..]| ensures s[1..][i] as int <= 0xFFFF {
          assert s[1..][i] == s[i + 1];
        }
      }
      JsLengthOfBmp(s[1..]);
    }
  }

  /** A non-empty string of ASCII decimal digits. */
  predicate IsDigits(s: string) {
    |s| > 0 && forall i | 0 <= i < |s| :: '0' <= s[i] <= '9'
  }

  /** `!isNaN(Number(s))` is not modelled; a numeric test is any predicate
      that accepts every non-empty string of decimal digits. */
  ghost predicate DigitsAreNumeric(numeric: string -> bool) {
    forall s :: IsDigits(s) ==> numeric(s)
  }

  /** Digit strings are `\S` text of the Basic Multilingual Plane. */
  lemma DigitsAreBmpText(s: string)
    requires IsDigits(s)
    ensures InBmp(s) && NoSpace(s) && JsLength(s) == |s|
  {
    JsLengthOfBmp(s);
  }
}
