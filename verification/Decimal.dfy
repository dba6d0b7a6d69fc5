/** Decimal text of naturals, as f-strings print them. */
module Decimal {
  function Digit(d: nat): char
    requires d < 10
  {
    ('0' as int + d) as char
  }

  function Text(n: nat): (s: string)
    ensures s != "" && forall i :: 0 <= i < |s| ==> '0' <= s[i] <= '9'
  {
    if n < 10 then [Digit(n)] else Text(n / 10) + [Digit(n % 10)]
  }

  lemma {:induction false} TextInjective(m: nat, n: nat)
    requires Text(m) == Text(n)
    ensures m == n
  {
    var s, t := Text(m), Text(n);
    assert s[|s| - 1] == Digit(m % 10) && t[|t| - 1] == Digit(n % 10);
    if m >= 10 && n >= 10 {
      assert s[..|s| - 1] == Text(m / 10) && t[..|t| - 1] == Text(n / 10);
      TextInjective(m / 10, n / 10);
    }
  }

  /** `{c:.2f}` of a non-negative real, rounding halves up. */
  function Fixed2(c: real): string {
    var hundredths := (c * 100.0 + 0.5).Floor;
    var n: nat := if hundredths < 0 then 0 else hundredths;
    Text(n / 100) + "." + [Digit(n / 10 % 10)] + [Digit(n % 10)]
  }

  /** The number a string of digits stands for. */
  function Value(s: string): int {
    if s == "" then 0 else 10 * Value(s[..|s| - 1]) + (s[|s| - 1] as int - '0' as int)
  }

  lemma {:induction false} TextHasItsValue(n: nat)
    ensures Value(Text(n)) == n
  {
    var s := Text(n);
    if n >= 10 {
      TextHasItsValue(n / 10);
      assert s[..|s| - 1] == Text(n / 10);
    } else {
      assert s[..|s| - 1] == "";
    }
  }

  /** Two decimals, off by at most half a hundredth, and upwards at exactly half. */
  lemma Fixed2IsNearest(c: real)
    requires c >= 0.0
    ensures var s := Fixed2(c);
            && |s| >= 4 && s[|s| - 3] == '.'
            && var hundredths := Value(s[..|s| - 3] + s[|s| - 2..]);
               c - 0.005 < hundredths as real / 100.0 <= c + 0.005
  {
    var h: nat := (c * 100.0 + 0.5).Floor;
    var s, whole := Fixed2(c), Text(h / 100);
    var a, b := Digit(h / 10 % 10), Digit(h % 10);
    assert s == whole + "." + [a] + [b];
    hide Fixed2;
    assert s[..|s| - 3] == whole && s[|s| - 2..] == [a, b];
    TwoMoreDigits(whole, a, b);
    hide Text, Value;
    TextHasItsValue(h / 100);
    TwoDigits(h);
    assert whole + [a, b] == s[..|s| - 3] + s[|s| - 2..];
  }

  lemma TwoDigits(h: nat)
    ensures 10 * (10 * (h / 100) + h / 10 % 10) + h % 10 == h
  {
    assert h / 100 == (h / 10) / 10;
  }

  lemma TwoMoreDigits(s: string, a: char, b: char)
    ensures Value(s + [a, b]) == 10 * (10 * Value(s) + (a as int - '0' as int)) + (b as int - '0' as int)
  {
    var t := s + [a, b];
    assert t[..|t| - 1] == s + [a];
    assert t[..|t| - 1][..|t| - 2] == s;
  }
}
