/** Division facts that the solver does not find by itself. */
module Arithmetic {

  lemma {:induction false} Strictly(a: nat, b: nat, d: nat)
    requires a < b
    ensures a * d + d <= b * d
  {
    assert (a + 1) * d <= b * d;
  }

  lemma {:induction false} QuotientUnique(n: nat, d: nat, q: nat, r: nat)
    requires d > 0 && n == q * d + r && r < d
    ensures n / d == q && n % d == r
  {
    var q' := n / d;
    if q' < q {
      Strictly(q', q, d);
    } else if q < q' {
      Strictly(q, q', d);
    }
  }

  lemma {:induction false} DivisionStep(n: nat, d: nat)
    requires 0 < d <= n
    ensures n / d == (n - d) / d + 1 && n % d == (n - d) % d
  {
    var q, r := (n - d) / d, (n - d) % d;
    assert n == (q + 1) * d + r;
    QuotientUnique(n, d, q + 1, r);
  }

  /** Counting up by one moves the remainder, and the quotient when it wraps. */
  lemma {:induction false} DivisionNext(n: nat, d: nat)
    requires d > 0
    ensures if n % d + 1 < d then (n + 1) / d == n / d && (n + 1) % d == n % d + 1
            else (n + 1) / d == n / d + 1 && (n + 1) % d == 0
  {
    var q, r := n / d, n % d;
    assert n == q * d + r;
    if r + 1 < d {
      QuotientUnique(n + 1, d, q, r + 1);
    } else {
      assert n + 1 == (q + 1) * d;
      QuotientUnique(n + 1, d, q + 1, 0);
    }
  }
}
