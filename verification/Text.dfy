/** Decimal rendering of numbers, used to name plan steps and archive events. */
module Text {

  function Digit(n: nat): (c: char)
    requires n < 10
    ensures '0' <= c <= '9'
  {
    "0123456789"[n]
  }

  function Dec(n: nat): (s: string)
    ensures s != []
    ensures forall c <- s :: '0' <= c <= '9'
  {
    if n < 10 then [Digit(n)] else Dec(n / 10) + [Digit(n % 10)]
  }

  lemma DigitInjective(m: nat, n: nat)
    requires m < 10 && n < 10 && Digit(m) == Digit(n)
    ensures m == n
  {}

  lemma {:induction false} DecInjective(m: nat, n: nat)
    requires Dec(m) == Dec(n)
    ensures m == n
    decreases m
  {
    var s := Dec(m);
    if m < 10 || n < 10 {
      assert |s| == 1 ==> m < 10 && n < 10;
      DigitInjective(m % 10, n % 10);
    } else {
      assert s[|s|-1] == Digit(m % 10) == Digit(n % 10);
      assert s[..|s|-1] == Dec(m / 10) == Dec(n / 10);
      DecInjective(m / 10, n / 10);
      DigitInjective(m % 10, n % 10);
    }
  }

  function Pow10(k: nat): nat {
    if k == 0 then 1 else 10 * Pow10(k - 1)
  }

  /** A number below the k-th power of ten has at most k digits. */
  lemma {:induction false} DecLength(n: nat, k: nat)
    requires 0 < k && n < Pow10(k)
    ensures |Dec(n)| <= k
    decreases n
  {
    assert k == 1 ==> Pow10(k) == 10 * Pow10(0) == 10;
    if n >= 10 {
      assert n / 10 < Pow10(k - 1);
      DecLength(n / 10, k - 1);
    }
  }
}
