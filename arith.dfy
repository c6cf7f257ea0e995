/** Facts about Euclidean division that the cyclic cursors need. */
module Arith {

  lemma {:induction false} MulAtLeast(a: nat, n: nat)
    requires a >= 1
    ensures a * n >= n
  {
    if a > 1 {
      MulAtLeast(a - 1, n);
      assert a * n == (a - 1) * n + n;
    }
  }

  lemma MulSub(a: int, b: int, n: int)
    ensures a * n - b * n == (a - b) * n
  {
  }

  /** Euclidean remainder is unique: x = q * n + r with 0 <= r < n fixes x % n. */
  lemma ModUnique(x: int, n: int, q: int, r: int)
    requires n > 0 && 0 <= r < n && x == q * n + r
    ensures x % n == r
  {
    var q', r' := x / n, x % n;
    assert x == q' * n + r';
    MulSub(q, q', n);
    if q > q' {
      MulAtLeast(q - q', n);
    } else if q < q' {
      MulSub(q', q, n);
      MulAtLeast(q' - q, n);
    }
  }

  /** How a position in the cycle moves on by one. */
  lemma ModSucc(t: nat, n: nat)
    requires n > 0
    ensures (t + 1) % n == if t % n + 1 == n then 0 else t % n + 1
  {
    var q := t / n;
    assert t == q * n + t % n;
    if t % n + 1 == n {
      MulSub(q + 1, q, n);
      ModUnique(t + 1, n, q + 1, 0);
    } else {
      ModUnique(t + 1, n, q, t % n + 1);
    }
  }
}
