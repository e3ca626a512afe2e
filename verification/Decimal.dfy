/** Decimal rendering of naturals, as `str` does it. */
module Decimal {

  const DIGITS := "0123456789"

  function Dec(n: nat): (s: string)
    ensures s != []
    ensures forall c <- s :: c in DIGITS
  {
    if n < 10 then [DIGITS[n]] else Dec(n / 10) + [DIGITS[n % 10]]
  }

  /** Rendering is injective. */
  lemma {:induction false} DecInjective(m: nat, n: nat)
    requires Dec(m) == Dec(n)
    ensures m == n
  {
    if m >= 10 && n >= 10 {
      var a, b := Dec(m / 10), Dec(n / 10);
      assert Dec(m)[..|a|] == a && Dec(n)[..|b|] == b;
      assert Dec(m)[|a|] == DIGITS[m % 10] && Dec(n)[|b|] == DIGITS[n % 10];
      DecInjective(m / 10, n / 10);
    }
  }

  /** Larger numbers never render shorter, and a positive number has at most as many digits as its value. */
  lemma {:induction false} DecLengthMonotone(m: nat, n: nat)
    requires m <= n
    ensures |Dec(m)| <= |Dec(n)|
    ensures n >= 1 ==> |Dec(n)| <= n
  {
    if n >= 10 {
      DecLengthMonotone(m / 10, n / 10);
    }
  }

  predicate Digit(c: char) {
    '0' <= c <= '9'
  }

  /** What a digit string says when it is read. */
  function NumberOf(s: string): nat
    requires forall c <- s :: Digit(c)
  {
    if s == [] then 0
    else
      assert Digit(s[|s| - 1]);
      10 * NumberOf(s[..|s| - 1]) + (s[|s| - 1] as int - '0' as int)
  }

  /** Reading a rendered number gives it back, and there is no leading zero. */
  lemma {:induction false} DecReadsBack(n: nat)
    ensures forall c <- Dec(n) :: Digit(c)
    ensures NumberOf(Dec(n)) == n
    ensures n > 0 ==> Dec(n)[0] != '0'
  {
    assert forall d :: 0 <= d < 10 ==> DIGITS[d] == '0' + d as char;
    if n >= 10 {
      var d := Dec(n);
      DecReadsBack(n / 10);
      assert d[..|d| - 1] == Dec(n / 10) && d[|d| - 1] == DIGITS[n % 10];
    } else {
      assert Dec(n)[..0] == [];
    }
  }
}
