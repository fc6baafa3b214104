/** Decimal rendering, as strconv.FormatInt and fmt's %d give it for a count. */
module Numbers {
  const DIGITS := "0123456789"

  function Decimal(n: nat): (s: string)
    ensures s != "" && forall c :: c in s ==> c in DIGITS
  {
    if n < 10 then [DIGITS[n]] else Decimal(n / 10) + [DIGITS[n % 10]]
  }

  function DigitValue(c: char): int {
    c as int - '0' as int
  }

  function Parse(s: string): int {
    if s == "" then 0 else Parse(s[..|s| - 1]) * 10 + DigitValue(s[|s| - 1])
  }

  lemma {:induction false} ParseDecimal(n: nat)
    ensures Parse(Decimal(n)) == n
  {
    assert DigitValue(DIGITS[n % 10]) == n % 10;
    if n < 10 {
      assert Decimal(n)[..0] == "";
    } else {
      ParseDecimal(n / 10);
      assert Decimal(n)[..|Decimal(n)| - 1] == Decimal(n / 10);
    }
  }

  lemma DecimalInjective(m: nat, n: nat)
    requires Decimal(m) == Decimal(n)
    ensures m == n
  {
    ParseDecimal(m);
    ParseDecimal(n);
  }
}
