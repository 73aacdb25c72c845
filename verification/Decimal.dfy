/** Decimal text, the way format_u64 writes it: no sign, no leading zero. */
module Decimal {
  import opened Bytes

  const ZERO: byte := 48  // '0'

  predicate IsDigit(b: byte) {
    ZERO <= b < ZERO + 10
  }

  /** The digits of `n`, most significant first. */
  function Dec(n: nat): (s: seq<byte>)
    ensures |s| > 0 && forall i :: 0 <= i < |s| ==> IsDigit(s[i])
  {
    if n < 10 then [ZERO + n] else Dec(n / 10) + [ZERO + n % 10]
  }

  /** The number a digit string denotes. */
  function Value(s: seq<byte>): int
  {
    if s == [] then 0 else Value(s[..|s| - 1]) * 10 + (s[|s| - 1] - ZERO)
  }

  lemma {:induction false} ValueOfDec(n: nat)
    ensures Value(Dec(n)) == n
  {
    if n >= 10 {
      ValueOfDec(n / 10);
      assert Dec(n)[..|Dec(n)| - 1] == Dec(n / 10);
    } else {
      assert Dec(n)[..0] == [];
    }
  }

  /** Digits are read most significant first, and "0" is zero. */
  lemma DigitsInOrder(a: nat, b: nat, c: nat)
    requires a < 10 && b < 10 && c < 10
    ensures Value([48 + a]) == a && Value([48 + a, 48 + b, 48 + c]) == 100 * a + 10 * b + c
  {
    var s := [48 + a, 48 + b, 48 + c];
    assert s[..2] == [48 + a, 48 + b] && s[..2][..1] == [48 + a] && s[..2][..1][..0] == [];
    assert [48 + a][..0] == [];
  }

  lemma DecInjective(m: nat, n: nat)
    requires Dec(m) == Dec(n)
    ensures m == n
  {
    ValueOfDec(m);
    ValueOfDec(n);
  }

  function Pow10(k: nat): (p: nat)
    ensures p > 0
  {
    if k == 0 then 1 else 10 * Pow10(k - 1)
  }

  /** `n` has at most `k` digits exactly when it is below ten to the `k`. */
  lemma {:induction false} DecLength(n: nat, k: nat)
    requires k > 0
    ensures |Dec(n)| <= k <==> n < Pow10(k)
  {
    if k == 1 {
      assert Pow10(1) == 10 * Pow10(0);
    } else if n >= 10 {
      DecLength(n / 10, k - 1);
    } else {
      assert Pow10(k) == 10 * Pow10(k - 1);
    }
  }

  lemma Pow10Values()
    ensures Pow10(1) == 10 && Pow10(2) == 100 && Pow10(3) == 1000 && Pow10(4) == 10_000
    ensures Pow10(5) == 100_000 && Pow10(10) == 10_000_000_000
    ensures Pow10(19) == 10_000_000_000_000_000_000 && Pow10(20) == 100_000_000_000_000_000_000
  {
    assert Pow10(3) == 1000;
    assert Pow10(6) == 1_000_000;
    assert Pow10(8) == 100_000_000;
    assert Pow10(10) == 10_000_000_000;
    assert Pow10(12) == 1_000_000_000_000;
    assert Pow10(14) == 100_000_000_000_000;
    assert Pow10(16) == 10_000_000_000_000_000;
    assert Pow10(18) == 1_000_000_000_000_000_000;
  }

  /** Exactly `k` digits, zero-padded. */
  function Pad(n: nat, k: nat): (s: seq<byte>)
    ensures |s| == k && forall i :: 0 <= i < |s| ==> IsDigit(s[i])
  {
    if k == 0 then [] else Pad(n / 10, k - 1) + [ZERO + n % 10]
  }

  lemma {:induction false} ValueOfPad(n: nat, k: nat)
    requires n < Pow10(k)
    ensures Value(Pad(n, k)) == n
  {
    if k > 0 {
      ValueOfPad(n / 10, k - 1);
      assert Pad(n, k)[..k - 1] == Pad(n / 10, k - 1);
    }
  }
}
