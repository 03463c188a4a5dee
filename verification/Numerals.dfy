/** Decimal numerals in text. */
module Numerals {
  predicate IsDigit(c: char) {
    '0' <= c <= '9'
  }

  predicate AllDigits(s: string) {
    forall i :: 0 <= i < |s| ==> IsDigit(s[i])
  }

  function Digits(n: nat): (d: string)
    ensures d != "" && AllDigits(d)
  {
    if n < 10 then [('0' as int + n) as char] else Digits(n / 10) + [('0' as int + n % 10) as char]
  }

  function ToNumber(d: string): nat
    requires AllDigits(d)
  {
    if d == "" then 0 else
    var last := d[|d| - 1];
    ToNumber(d[..|d| - 1]) * 10 + (last as int - '0' as int)
  }

  /** The end of the run of digits that starts at `i`. */
  function EndOfDigits(s: string, i: nat): (j: nat)
    requires i <= |s|
    ensures i <= j <= |s| && forall k :: i <= k < j ==> IsDigit(s[k])
    ensures j < |s| ==> !IsDigit(s[j])
    decreases |s| - i
  {
    if i < |s| && IsDigit(s[i]) then EndOfDigits(s, i + 1) else i
  }

  lemma {:induction false} DigitsRead(n: nat)
    ensures ToNumber(Digits(n)) == n && (Digits(n)[0] == '0' ==> |Digits(n)| == 1)
  {
    if n >= 10 {
      DigitsRead(n / 10);
      assert Digits(n)[..|Digits(n)| - 1] == Digits(n / 10);
    } else {
      assert Digits(n)[..0] == "";
    }
  }

  lemma DigitsFound(d: string, rest: string, i: nat)
    requires AllDigits(d) && rest != "" && !IsDigit(rest[0]) && i <= |d|
    ensures EndOfDigits(d + rest, i) == |d|
    decreases |d| - i
  {
    if i < |d| { DigitsFound(d, rest, i + 1); } else { assert (d + rest)[i] == rest[0]; }
  }

  function Power10(k: nat): nat {
    if k == 0 then 1 else 10 * Power10(k - 1)
  }

  lemma {:induction false} DigitsLength(n: nat, k: nat)
    requires 1 <= k && n < Power10(k)
    ensures |Digits(n)| <= k
    decreases k
  {
    if n >= 10 { DigitsLength(n / 10, k - 1); }
  }
}
