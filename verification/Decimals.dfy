/** Decimal numbers without leading zeros. */
module Decimals {

  function Decimal(n: nat): (s: string)
    ensures s != ""
  {
    if n < 10 then [('0' as int + n) as char] else Decimal(n / 10) + [('0' as int + n % 10) as char]
  }

  predicate IsDigit(c: char) {
    '0' <= c <= '9'
  }

  predicate Digits(s: string) {
    s != "" && forall i | 0 <= i < |s| :: IsDigit(s[i])
  }

  function DecimalValue(s: string): nat {
    if s == "" then 0
    else
      var d := s[|s| - 1] as int - '0' as int;
      10 * DecimalValue(s[..|s| - 1]) + if d < 0 then 0 else d
  }

  predicate Canonical(s: string) {
    Digits(s) && (s[0] == '0' ==> |s| == 1)
  }

  lemma {:induction false} DecimalCanonical(n: nat)
    ensures Canonical(Decimal(n)) && DecimalValue(Decimal(n)) == n
    ensures n > 0 ==> Decimal(n)[0] != '0'
  {
    if n >= 10 {
      DecimalCanonical(n / 10);
      assert Decimal(n)[..|Decimal(n)| - 1] == Decimal(n / 10);
      assert Decimal(n)[0] == Decimal(n / 10)[0];
    }
  }

  lemma {:induction false} Positive(s: string)
    requires Digits(s) && s[0] != '0'
    ensures DecimalValue(s) > 0
  {
    if |s| > 1 { Positive(s[..|s| - 1]); }
  }

  lemma {:induction false} CanonicalDecimal(s: string)
    requires Canonical(s)
    ensures Decimal(DecimalValue(s)) == s
  {
    var front, last := s[..|s| - 1], s[|s| - 1];
    assert IsDigit(last) && s == front + [last];
    if |s| > 1 {
      Positive(front);
      CanonicalDecimal(front);
      var n, d := DecimalValue(front), last as int - '0' as int;
      assert DecimalValue(s) == 10 * n + d && (10 * n + d) / 10 == n && (10 * n + d) % 10 == d;
    } else {
      assert front == "" && DecimalValue(s) == last as int - '0' as int;
    }
  }
}
