/** The few facts about division and remainder the circular structures need. */
module Modular {

  lemma TimesMonotone(x: nat, y: nat, d: nat)
    requires x < y
    ensures x * d + d <= y * d
    decreases y
  {
    if x + 1 < y {
      TimesMonotone(x, y - 1, d);
    }
    assert y * d == (y - 1) * d + d;
  }

  lemma DivUnique(a: nat, d: nat, q: nat, r: nat)
    requires d > 0 && a == q * d + r && r < d
    ensures a / d == q && a % d == r
  {
    var q', r' := a / d, a % d;
    assert a == q' * d + r' && r' < d;
    if q' < q {
      TimesMonotone(q', q, d);
    } else if q < q' {
      TimesMonotone(q, q', d);
    }
  }

  lemma DivStep(a: nat, d: nat)
    requires d > 0
    ensures (a + d) / d == a / d + 1 && (a + d) % d == a % d
  {
    var q, r := a / d, a % d;
    assert a == q * d + r;
    assert (q + 1) * d == q * d + d;
    DivUnique(a + d, d, q + 1, r);
  }

  /** Going one further round the circle. */
  lemma ModNext(a: nat, n: nat)
    requires n > 0
    ensures (a % n + 1) % n == (a + 1) % n
    ensures (a + 1) % n == if a % n == n - 1 then 0 else a % n + 1
  {
    var q, r := a / n, a % n;
    assert a == q * n + r;
    if r == n - 1 {
      assert (q + 1) * n == q * n + n;
      DivUnique(a + 1, n, q + 1, 0);
      DivUnique(n, n, 1, 0);
    } else {
      DivUnique(a + 1, n, q, r + 1);
      DivUnique(r + 1, n, 0, r + 1);
    }
  }

  /** Positions less than a full turn apart are different places. */
  lemma ModDistinct(a: nat, b: nat, n: nat)
    requires n > 0 && a < b < a + n
    ensures a % n != b % n
  {
    var q, r := a / n, a % n;
    var q', r' := b / n, b % n;
    assert a == q * n + r && b == q' * n + r';
    if r == r' {
      if q < q' {
        TimesMonotone(q, q', n);
      }
    }
  }

  lemma ModSmall(a: nat, n: nat)
    requires a < n
    ensures a % n == a
  {
    DivUnique(a, n, 0, a);
  }

  /** `d` places on from `a`. */
  lemma ModPlus(a: nat, d: nat, n: nat)
    requires n > 0
    ensures (a % n + d) % n == (a + d) % n
    decreases d
  {
    if d == 0 {
      ModSmall(a % n, n);
    } else {
      ModPlus(a, d - 1, n);
      ModNext(a % n + d - 1, n);
      ModNext(a + d - 1, n);
    }
  }

  /** Every place of the circle is less than a full turn from any other. */
  lemma ModReach(a: nat, i: nat, n: nat) returns (j: nat)
    requires i < n
    ensures a <= j < a + n && j % n == i
  {
    ModSmall(i, n);
    if a % n <= i {
      j := a + (i - a % n);
      ModPlus(a, i - a % n, n);
    } else {
      j := a + (i + n - a % n);
      ModPlus(a, i + n - a % n, n);
      DivStep(i, n);
    }
  }

  /** `d` places on from `next`, going round a circle of `n`. */
  function Along(next: nat, d: nat, n: nat): (i: nat)
    requires n > 0
    ensures i < n
  {
    (next + d) % n
  }
}
