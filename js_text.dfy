/** The JavaScript string built-ins the note names go through: formatting a
    number with a template literal, and finding the first digit as the regular
    expression `/\d/` does. */
module JsText {

  predicate IsDigit(c: char)
  {
    '0' <= c <= '9'
  }

  predicate NoDigits(s: string)
  {
    forall k :: 0 <= k < |s| ==> !IsDigit(s[k])
  }

  function Digit(d: nat): (c: char)
    requires d < 10
    ensures IsDigit(c)
  {
    ('0' as int + d) as char
  }

  /** `${n}` for a non-negative integer: its decimal digits. */
  function NumberString(n: nat): (s: string)
    ensures |s| >= 1 && forall k :: 0 <= k < |s| ==> IsDigit(s[k])
    ensures (|s| == 1) == (n < 10)
  {
    if n < 10 then [Digit(n)] else NumberString(n / 10) + [Digit(n % 10)]
  }

  /** Different numbers print differently. */
  lemma {:induction false} NumberStringInjective(a: nat, b: nat)
    requires NumberString(a) == NumberString(b)
    ensures a == b
    decreases a
  {
    var sa, sb := NumberString(a), NumberString(b);
    if a < 10 {
      assert sa[0] == Digit(a) && sb[0] == Digit(b);
    } else {
      assert sa[|sa| - 1] == Digit(a % 10) && sb[|sb| - 1] == Digit(b % 10);
      assert sa[..|sa| - 1] == NumberString(a / 10);
      assert sb[..|sb| - 1] == NumberString(b / 10);
      NumberStringInjective(a / 10, b / 10);
    }
  }

  /** Where `/\d/` first matches in `s`: the index of the first digit, `|s|` when there is none. */
  function FirstDigitIndex(s: string): (i: nat)
    ensures i <= |s|
    ensures i < |s| ==> IsDigit(s[i])
    ensures forall q :: 0 <= q < i ==> !IsDigit(s[q])
  {
    if |s| == 0 then 0
    else if IsDigit(s[0]) then 0
    else 1 + FirstDigitIndex(s[1..])
  }

  /** A digit-free prefix followed by a digit: the first digit is the one right after the prefix. */
  lemma FirstDigitAfterPrefix(prefix: string, rest: string)
    requires NoDigits(prefix) && |rest| >= 1 && IsDigit(rest[0])
    ensures FirstDigitIndex(prefix + rest) == |prefix|
  {
    var s := prefix + rest;
    assert s[|prefix|] == rest[0];
    assert forall q :: 0 <= q < |prefix| ==> s[q] == prefix[q];
  }
}
