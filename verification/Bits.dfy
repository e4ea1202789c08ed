/** Bytes, and the bitwise "and" of non-negative integers that the C sources use for
    table-id masks and for the power-of-two index arithmetic of the packet buffer. */
module Bits {

  type byte = b: int | 0 <= b < 256

  /** Bitwise "and" of two non-negative integers. */
  function BitAnd(a: nat, m: nat): (r: nat)
    ensures r <= a && r <= m
  {
    if a == 0 || m == 0 then 0
    else (if a % 2 == 1 && m % 2 == 1 then 1 else 0) + 2 * BitAnd(a / 2, m / 2)
  }

  function Pow2(k: nat): (r: nat)
    ensures r >= 1
  {
    if k == 0 then 1 else 2 * Pow2(k - 1)
  }

  /** The k-th bit, from the least significant one on. */
  predicate BitAt(x: nat, k: nat) {
    x / Pow2(k) % 2 == 1
  }

  lemma BitAbove(x: nat, k: nat)
    requires k > 0
    ensures BitAt(x, k) <==> BitAt(x / 2, k - 1)
  {
    var p := Pow2(k - 1);
    var q, r := x / 2 / p, x / 2 % p;
    assert x / 2 == q * p + r;
    assert x == q * (2 * p) + (2 * r + x % 2);
    ModUnique(x, 2 * p, q, 2 * r + x % 2);
  }

  /** Bit by bit it is "and". */
  lemma {:induction false} BitAndBits(a: nat, m: nat, k: nat)
    ensures BitAt(BitAnd(a, m), k) <==> BitAt(a, k) && BitAt(m, k)
    decreases k
  {
    if a == 0 || m == 0 {
      NoBits(k);
    } else if k > 0 {
      BitAbove(a, k);
      BitAbove(m, k);
      BitAbove(BitAnd(a, m), k);
      assert BitAnd(a, m) / 2 == BitAnd(a / 2, m / 2);
      BitAndBits(a / 2, m / 2, k - 1);
    }
  }

  lemma NoBits(k: nat)
    ensures !BitAt(0, k)
  {
    ModUnique(0, Pow2(k), 0, 0);
  }

  /** A number below 2^n is known by its n lowest bits. */
  lemma {:induction false} EqualByBits(a: nat, b: nat, n: nat)
    requires a < Pow2(n) && b < Pow2(n)
    requires forall k :: 0 <= k < n ==> (BitAt(a, k) <==> BitAt(b, k))
    ensures a == b
    decreases n
  {
    if n > 0 {
      assert BitAt(a, 0) <==> BitAt(b, 0);
      assert Pow2(0) == 1;
      forall k | 0 <= k < n - 1
        ensures BitAt(a / 2, k) <==> BitAt(b / 2, k)
      {
        BitAbove(a, k + 1);
        BitAbove(b, k + 1);
      }
      EqualByBits(a / 2, b / 2, n - 1);
    }
  }

  /** `x & (2^k - 1)` is `x mod 2^k`: this is what lets the models write `%` where the
      sources mask with a power of two minus one. */
  lemma {:induction false} MaskIsMod(x: nat, k: nat)
    ensures BitAnd(x, Pow2(k) - 1) == x % Pow2(k)
  {
    if k > 0 {
      hide BitAnd;
      var p := Pow2(k - 1);
      MaskIsMod(x / 2, k - 1);
      MaskStep(x, p);
      HalvesMod(x, p);
    }
  }

  lemma MaskStep(x: nat, p: nat)
    requires p >= 1
    ensures BitAnd(x, 2 * p - 1) == x % 2 + 2 * BitAnd(x / 2, p - 1)
  {
    assert (2 * p - 1) / 2 == p - 1 && (2 * p - 1) % 2 == 1;
  }

  lemma HalvesMod(x: nat, p: nat)
    requires p >= 1
    ensures x % (2 * p) == x % 2 + 2 * ((x / 2) % p)
  {
    var h := x / 2;
    var q, r := h / p, h % p;
    assert x == 2 * h + x % 2;
    assert h == q * p + r;
    assert x == q * (2 * p) + (2 * r + x % 2);
    ModUnique(x, 2 * p, q, 2 * r + x % 2);
  }

  /** Division with remainder is unique. */
  lemma ModUnique(x: int, d: int, q: int, r: int)
    requires d > 0 && 0 <= r < d && x == q * d + r
    ensures x / d == q && x % d == r
  {
    var q' := x / d;
    assert x == q' * d + x % d;
    MulGap(q - q', d);
    assert (q - q') * d == q * d - q' * d;
  }

  lemma MulGap(n: int, d: int)
    requires d > 0
    ensures n >= 1 ==> n * d >= d
    ensures n <= -1 ==> n * d <= -d
  {
  }
}
