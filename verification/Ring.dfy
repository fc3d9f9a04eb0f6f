/** Ring indices: a position at most one lap away, without division, and how that relates to `%`. */
module Ring {

  /** Ring index `i` places after position `r`, at most one lap away. */
  function At(r: nat, i: nat, cap: nat): nat {
    if r + i < cap then r + i else r + i - cap
  }

  lemma MulGap(a: int, b: int, d: int)
    requires a < b && 0 < d
    ensures a * d + d <= b * d
  {
    var k := b - a - 1;
    assert 0 <= k * d;
    calc {
      b * d;
      (a + (k + 1)) * d;
      a * d + (k + 1) * d;
      a * d + k * d + d;
    }
  }

  lemma QuotientUnique(q: int, r: int, q': int, r': int, d: int)
    requires 0 <= r < d && 0 <= r' < d
    requires q * d + r == q' * d + r'
    ensures q == q' && r == r'
  {
    if q < q' {
      MulGap(q, q', d);
    } else if q' < q {
      MulGap(q', q, d);
    }
  }

  lemma DivModDef(n: nat, d: nat)
    requires 0 < d
    ensures n == (n / d) * d + n % d && n % d < d
  {
  }

  lemma DivModIs(n: nat, d: nat, q: nat, r: nat)
    requires n == q * d + r && r < d
    ensures n / d == q && n % d == r
  {
    DivModDef(n, d);
    QuotientUnique(q, r, n / d, n % d, d);
  }

  lemma ModOnce(r: nat, i: nat, cap: nat)
    requires r < cap && i <= cap
    ensures (r + i) % cap == At(r, i, cap)
  {
    DivModIs(r + i, cap, if r + i < cap then 0 else 1, At(r, i, cap));
  }
}
