/** Small shared vocabulary: an optional value, sums of prices and the
    `Math.floor(budget / price)` share count used by every "buy as many as
    the cash allows" rule of the simulator. */
module Prelude {

  /** JavaScript's `null`/`undefined` next to a present value. */
  datatype Option<+T> = None | Some(value: T)

  /** Sum of a sequence of prices, folded from the front as `reduce((a, b) => a + b, 0)` does. */
  function Sum(s: seq<real>): real
  {
    if s == [] then 0.0 else Sum(s[..|s| - 1]) + s[|s| - 1]
  }

  /** Every element of `s` lies in the closed interval [lo, hi]. */
  predicate AllWithin(s: seq<real>, lo: real, hi: real)
  {
    forall i :: 0 <= i < |s| ==> lo <= s[i] <= hi
  }

  /** Number of CSV rows whose close parsed as a number. */
  function CountParsed(rows: seq<Option<real>>): nat
  {
    if rows == [] then 0 else (if rows[0].Some? then 1 else 0) + CountParsed(rows[1..])
  }

  /** A sum of |s| values, each in [lo, hi], lies in [|s|*lo, |s|*hi]. */
  lemma {:induction false} SumBounds(s: seq<real>, lo: real, hi: real)
    requires AllWithin(s, lo, hi)
    ensures |s| as real * lo <= Sum(s) <= |s| as real * hi
  {
    if s != [] {
      var init := s[..|s| - 1];
      assert AllWithin(init, lo, hi) by {
        forall i | 0 <= i < |init| ensures lo <= init[i] <= hi {
          assert init[i] == s[i];
        }
      }
      SumBounds(init, lo, hi);
    }
  }

  /** Summing a sequence with one more value appended adds exactly that value. */
  lemma SumAppend(s: seq<real>, x: real)
    ensures Sum(s + [x]) == Sum(s) + x
  {
    assert (s + [x])[..|s|] == s;
  }

  /** `Math.floor(budget / price)`: the most whole shares `budget` pays for. */
  function Affordable(budget: real, price: real): int
    requires price > 0.0
  {
    (budget / price).Floor
  }

  /** The affordable count never overspends, and what is left over would not
      buy one more share; with a non-negative budget it is non-negative. */
  lemma AffordableBounds(budget: real, price: real)
    requires price > 0.0
    ensures Affordable(budget, price) as real * price <= budget
    ensures budget - Affordable(budget, price) as real * price < price
    ensures budget >= 0.0 ==> Affordable(budget, price) >= 0
  {
    var q := Affordable(budget, price) as real;
    BelowQuotient(budget, price, q);
    AboveQuotient(budget, price, q + 1.0);
    MulAddOne(q, price);
    if budget >= 0.0 {
      DivNonNeg(budget, price);
    }
  }

  /** A total between n*lo and n*hi gives a mean total/n between lo and hi. */
  lemma MeanBounds(total: real, n: real, lo: real, hi: real)
    requires n > 0.0 && n * lo <= total <= n * hi
    ensures lo <= total / n <= hi
  {
    if total / n < lo {
      AboveQuotient(total, n, lo);
      MulComm(lo, n);
    }
    if hi < total / n {
      BelowQuotient(total, n, hi);
      MulComm(hi, n);
    }
  }

  // Z3 does not combine several non-linear facts about real products on its
  // own; the helpers below each take one such step.

  /** y <= b/p implies y*p <= b for a positive p. */
  lemma BelowQuotient(b: real, p: real, y: real)
    requires p > 0.0 && y <= b / p
    ensures y * p <= b
  {
    MulNonNeg(b / p - y, p);
    SubTimes(b / p, y, p);
    DivTimes(b, p);
  }

  /** b/p < y implies b < y*p for a positive p. */
  lemma AboveQuotient(b: real, p: real, y: real)
    requires p > 0.0 && b / p < y
    ensures b < y * p
  {
    MulPos(y - b / p, p);
    SubTimes(y, b / p, p);
    DivTimes(b, p);
  }

  lemma MulPos(a: real, c: real)
    requires a > 0.0 && c > 0.0
    ensures a * c > 0.0
  {
  }

  lemma MulNonNeg(a: real, c: real)
    requires a >= 0.0 && c >= 0.0
    ensures a * c >= 0.0
  {
  }

  lemma SubTimes(y: real, x: real, p: real)
    ensures (y - x) * p == y * p - x * p
  {
  }

  lemma AddTimes(x: real, y: real, p: real)
    ensures (x + y) * p == x * p + y * p
  {
  }

  lemma MulComm(a: real, b: real)
    ensures a * b == b * a
  {
  }

  lemma MulLeMono(a: real, b: real, c: real)
    requires a <= b && c >= 0.0
    ensures a * c <= b * c
  {
    MulNonNeg(b - a, c);
    SubTimes(b, a, c);
  }

  lemma MulAddOne(q: real, p: real)
    ensures (q + 1.0) * p == q * p + p
  {
  }

  lemma DivTimes(b: real, p: real)
    requires p > 0.0
    ensures (b / p) * p == b
  {
  }

  lemma DivNonNeg(a: real, b: real)
    requires a >= 0.0 && b > 0.0
    ensures a / b >= 0.0
  {
  }
}
