/** Decimal numerals: how request ids are minted, and that they never collide. */
module Decimals {

  function Digit(n: nat): char
    requires n < 10
  {
    "0123456789"[n]
  }

  /** str(n). */
  function Decimal(n: nat): string {
    if n < 10 then [Digit(n)] else Decimal(n / 10) + [Digit(n % 10)]
  }

  /** What a numeral stands for. */
  function ValueOf(s: string): nat
    decreases |s|
  {
    if s == "" then 0
    else
      var last := s[|s| - 1];
      10 * ValueOf(s[..|s| - 1]) + if '0' <= last <= '9' then last as int - '0' as int else 0
  }

  /** The numeral of `n` stands for `n`, has nothing but digits, and no leading zero. */
  lemma {:induction false} DecimalReadsBack(n: nat)
    ensures var s := Decimal(n);
            && ValueOf(s) == n && s != "" && (n > 0 ==> s[0] != '0')
            && forall i :: 0 <= i < |s| ==> '0' <= s[i] <= '9'
  {
    var s, last := Decimal(n), Digit(n % 10);
    assert '0' <= last <= '9' && last as int - '0' as int == n % 10;
    if n < 10 {
      assert s[..0] == "";
    } else {
      DecimalReadsBack(n / 10);
      assert s[..|s| - 1] == Decimal(n / 10);
    }
  }

  lemma DecimalIsInjective(m: nat, n: nat)
    requires Decimal(m) == Decimal(n)
    ensures m == n
  {
    DecimalReadsBack(m);
    DecimalReadsBack(n);
  }
}
