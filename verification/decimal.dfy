/** Decimal text, as strconv and fmt's %d write it. */
module Decimal {
  predicate IsDigit(c: char) {
    '0' <= c <= '9'
  }

  function Digit(d: nat): (c: char)
    requires d < 10
    ensures IsDigit(c)
  {
    '0' + d as char
  }

  /** n in decimal, without leading zeros. */
  function Digits(n: nat): (s: string)
    ensures s != [] && forall c | c in s :: IsDigit(c)
  {
    if n < 10 then [Digit(n)] else Digits(n / 10) + [Digit(n % 10)]
  }

  function Format(i: int): string {
    if i < 0 then "-" + Digits(-i) else Digits(i)
  }

  /** The number a string of digits writes, leading zeros allowed. */
  function Value(s: string): nat
    requires forall c | c in s :: IsDigit(c)
  {
    if s == [] then 0
    else
      var c := s[|s| - 1];
      assert c in s && IsDigit(c);
      10 * Value(s[..|s| - 1]) + (c as int - '0' as int)
  }

  lemma {:induction false} ValueOfDigits(n: nat)
    ensures Value(Digits(n)) == n
  {
    if n >= 10 {
      ValueOfDigits(n / 10);
      assert Digits(n)[..|Digits(n)| - 1] == Digits(n / 10);
    } else {
      assert Digits(n)[..0] == [];
    }
  }

  lemma SignOf(i: int)
    ensures Format(i) != [] && (Format(i)[0] == '-' <==> i < 0)
  {
    if i >= 0 { assert Digits(i)[0] in Digits(i); }
  }

  lemma FormatInjective(i: int, j: int)
    requires Format(i) == Format(j)
    ensures i == j
  {
    SignOf(i);
    SignOf(j);
    hide Digits;
    if i < 0 {
      assert Format(i)[1..] == Digits(-i) && Format(j)[1..] == Digits(-j);
      ValueOfDigits(-i);
      ValueOfDigits(-j);
    } else {
      ValueOfDigits(i);
      ValueOfDigits(j);
    }
  }

  /** How many digits a number has, for numbers an int64 holds. */
  lemma {:induction false} DigitsAtMost(n: nat, k: nat)
    requires 0 < k && n < Pow10(k)
    ensures |Digits(n)| <= k
  {
    if n >= 10 {
      assert k > 1;
      DigitsAtMost(n / 10, k - 1);
    }
  }

  function Pow10(k: nat): (p: nat)
    ensures p >= 1
  {
    if k == 0 then 1 else 10 * Pow10(k - 1)
  }
}
