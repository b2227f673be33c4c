/** Division facts the limiter, breaker and metrics proofs share. */
module Arithmetic {

  lemma {:induction false} MulAtLeast(k: int, d: int)
    requires k >= 1 && d > 0
    ensures k * d >= d
    decreases k
  {
    if k > 1 {
      MulAtLeast(k - 1, d);
      assert k * d == (k - 1) * d + d;
    }
  }

  lemma {:induction false} MulNonNeg(k: int, d: int)
    requires k >= 0 && d >= 0
    ensures k * d >= 0
  {
  }

  /** Quotient and remainder are unique. */
  lemma {:induction false} DivUnique(x: int, d: int, q: int, r: int)
    requires d > 0 && x == q * d + r && 0 <= r < d
    ensures x / d == q && x % d == r
  {
    var q', r' := x / d, x % d;
    assert x == q' * d + r';
    var k := q - q';
    assert k * d == q * d - q' * d && (-k) * d == -(k * d);
    if k >= 1 {
      MulAtLeast(k, d);
    } else if k <= -1 {
      MulAtLeast(-k, d);
    }
  }

  /** Dividing after `k` more periods. */
  lemma {:induction false} DivShift(x: int, d: int, k: int)
    requires d > 0
    ensures (x + k * d) / d == x / d + k && (x + k * d) % d == x % d
  {
    assert x + k * d == (x / d + k) * d + x % d by {
      assert (x / d + k) * d == (x / d) * d + k * d;
      assert x == (x / d) * d + x % d;
    }
    DivUnique(x + k * d, d, x / d + k, x % d);
  }

  lemma {:induction false} DivMono(x: int, y: int, d: int)
    requires d > 0 && x <= y
    ensures x / d <= y / d
  {
    var k := x / d - y / d;
    assert k * d == (x / d) * d - (y / d) * d;
    assert x == (x / d) * d + x % d && y == (y / d) * d + y % d;
    if k >= 1 {
      MulAtLeast(k, d);
    }
  }

  lemma {:induction false} Distribute(a: int, b: int, d: int)
    ensures (a + b) * d == a * d + b * d
  {
  }

  /** The k-th point of a grid that starts at zero. */
  function Grid(rate: int, k: nat): int { if k == 0 then 0 else Grid(rate, k - 1) + rate }

  lemma {:induction false} GridIs(rate: int, k: nat)
    ensures Grid(rate, k) == k * rate
  {
    if k > 0 {
      GridIs(rate, k - 1);
      Distribute(k - 1, 1, rate);
    }
  }

  lemma {:induction false} GridMono(rate: int, j: nat, k: nat)
    requires rate > 0 && j <= k
    ensures Grid(rate, j) <= Grid(rate, k) && (j < k ==> Grid(rate, j) + rate <= Grid(rate, k))
  {
    if j < k {
      GridMono(rate, j, k - 1);
    }
  }

  /** `k` whole periods fit only if `k` is at most the quotient. */
  lemma {:induction false} PeriodsFit(d: int, k: int, x: int)
    requires d > 0 && k * d <= x
    ensures k <= x / d
  {
    DivShift(0, d, k);
    DivMono(k * d, x, d);
  }

  /** `k` points of the grid fit only if `k` is at most the quotient. */
  lemma {:induction false} GridFits(rate: int, k: nat, x: int)
    requires rate > 0 && Grid(rate, k) <= x
    ensures k <= x / rate
  {
    GridIs(rate, k);
    PeriodsFit(rate, k, x);
  }

  function Sum(xs: seq<int>): int { if xs == [] then 0 else xs[0] + Sum(xs[1..]) }

  lemma {:induction false} SumAppend(xs: seq<int>, ys: seq<int>)
    ensures Sum(xs + ys) == Sum(xs) + Sum(ys)
    decreases |xs|
  {
    if xs == [] {
      assert xs + ys == ys;
    } else {
      assert (xs + ys)[0] == xs[0] && (xs + ys)[1..] == xs[1..] + ys;
      SumAppend(xs[1..], ys);
    }
  }

  /** Rounding up. */
  function CeilDiv(x: int, d: int): int
    requires d > 0
  {
    (x + d - 1) / d
  }

  /** Rounding up is rounding down, plus one unless it divides. */
  lemma {:induction false} CeilIsFloorPlus(x: int, d: int)
    requires d > 0
    ensures CeilDiv(x, d) == x / d + if x % d == 0 then 0 else 1
  {
    var q, r := x / d, x % d;
    assert x == q * d + r;
    if r == 0 {
      DivUnique(x + d - 1, d, q, d - 1);
    } else {
      assert (q + 1) * d == q * d + d;
      DivUnique(x + d - 1, d, q + 1, r - 1);
    }
  }
}
