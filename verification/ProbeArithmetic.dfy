/** The arithmetic of triangular probing: modulo a power of two, the offsets
    0, 1, 3, 6, ... do not repeat before the table is exhausted. */
module ProbeArithmetic {

  import opened Masks

  /** The offset of a probe, as the search loop computes it from its counter. */
  function Offset(i: nat): nat {
    (i + i * i) / 2
  }

  lemma OffsetTwice(i: nat)
    ensures 2 * Offset(i) == i + i * i
  {
    if i % 2 == 0 {
      assert i == 2 * (i / 2);
      assert i * i == 2 * (i / 2 * i);
    } else {
      assert i + 1 == 2 * ((i + 1) / 2);
      assert i + i * i == (i + 1) * i == 2 * ((i + 1) / 2 * i);
    }
  }

  lemma EvenFactor(a: nat, b: nat, c: nat)
    requires a * b == 2 * c && b % 2 == 1
    ensures a % 2 == 0
  {
    var x := a / 2;
    assert a * b == 2 * (x * b) + (a % 2) * b by { assert a == 2 * x + a % 2; }
  }

  /** A power of two that divides a product with an odd factor divides the
      other factor. */
  lemma {:induction false} OddFactor(k: nat, a: nat, b: nat, q: nat) returns (c: nat)
    requires a * b == Pow2(k) * q && b % 2 == 1
    ensures a == Pow2(k) * c
  {
    if k == 0 {
      c := a;
    } else {
      var p := Pow2(k - 1);
      assert a * b == 2 * (p * q) by { assert Pow2(k) * q == 2 * p * q; }
      EvenFactor(a, b, p * q);
      var h := a / 2;
      assert 2 * (h * b) == 2 * (p * q) by { assert a * b == 2 * h * b; }
      c := OddFactor(k - 1, h, b, q);
      assert a == 2 * (p * c) == 2 * p * c;
    }
  }

  lemma SmallMultiple(p: nat, c: nat)
    requires p * c > 0
    ensures p * c >= p
  {
    assert c >= 1;
    assert p * c == p + p * (c - 1);
  }

  /** Positive factors of opposite parity below 2^k have no product divisible
      by 2^k. */
  lemma NoMultiple(k: nat, a: nat, b: nat, q: nat)
    requires 0 < a && 0 < b && a % 2 != b % 2 && a * b == Pow2(k) * q
    ensures a >= Pow2(k) || b >= Pow2(k)
  {
    if b % 2 == 1 {
      var c := OddFactor(k, a, b, q);
      SmallMultiple(Pow2(k), c);
    } else {
      var c := OddFactor(k, b, a, q);
      SmallMultiple(Pow2(k), c);
    }
  }

  lemma NonNegativeFactor(n: nat, d: int)
    requires n > 0 && n * d >= 0
    ensures d >= 0
  {
  }

  /** Equal remainders differ by a multiple. */
  lemma SameRemainder(x: nat, y: nat, n: nat) returns (q: nat)
    requires n > 0 && x <= y && x % n == y % n
    ensures y - x == n * q
  {
    var d := y / n - x / n;
    assert y - x == n * d by {
      assert x == n * (x / n) + x % n && y == n * (y / n) + y % n;
    }
    NonNegativeFactor(n, d);
    q := d;
  }

  lemma Square(i: nat, d: nat)
    ensures (i + d) * (i + d) == i * i + 2 * (d * i) + d * d
    ensures d * (2 * i + d + 1) == 2 * (d * i) + d * d + d
  {
  }

  lemma OffsetDifference(i: nat, j: nat)
    requires i < j
    ensures 2 * (Offset(j) - Offset(i)) == (j - i) * (j + i + 1) && Offset(i) <= Offset(j)
  {
    var d := j - i;
    var square := d * i;
    OffsetTwice(i);
    OffsetTwice(i + d);
    Square(i, d);
    assert 2 * (Offset(i + d) - Offset(i)) == 2 * square + d * d + d;
  }

  lemma Twice(n: nat, q: nat, d: nat, a: nat, b: nat)
    requires d == n * q && 2 * d == a * b
    ensures a * b == (2 * n) * q
  {
  }

  lemma NoClash(k: nat, x: nat, y: nat, a: nat, b: nat)
    requires x <= y && 2 * (y - x) == a * b && a % 2 != b % 2 && 0 < a < Pow2(k + 1) && 0 < b < Pow2(k + 1)
    ensures x % Pow2(k) != y % Pow2(k)
  {
    if x % Pow2(k) == y % Pow2(k) {
      var q := SameRemainder(x, y, Pow2(k));
      Twice(Pow2(k), q, y - x, a, b);
      NoMultiple(k + 1, a, b, q);
    }
  }

  /** The first n probes of a table with n = 2^k slots hit different slots. */
  lemma DistinctProbes(k: nat, h: nat, i: nat, j: nat)
    requires i < j < Pow2(k)
    ensures (h + Offset(i)) % Pow2(k) != (h + Offset(j)) % Pow2(k)
  {
    OffsetDifference(i, j);
    NoClash(k, h + Offset(i), h + Offset(j), j - i, j + i + 1);
  }

  lemma Pow2Eight(n: nat)
    requires IsPow2(n)
    ensures IsPow2(8 * n)
  {
    var k: nat :| n == Pow2(k);
    assert Pow2(k + 1) == 2 * n && Pow2(k + 2) == 4 * n && Pow2(k + 3) == 8 * n;
  }
}
