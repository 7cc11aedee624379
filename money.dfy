/**
 * Money amounts and the one rounding primitive the backend uses,
 * Python's `round(x, 2)`, taken on the exact value of its argument.
 *
 * Unrounded amounts (a unit price, a line total before rounding) are reals.
 * A rounded amount is a whole number of hundredths, so it is kept as the
 * integer count of hundredths: 19.20 is 1920. `AsReal` turns it back into
 * the amount the backend goes on computing with.
 */
module Money {

  /** The amount a count of hundredths stands for. */
  function AsReal(hundredths: int): real {
    hundredths as real / 100.0
  }

  /**
   * Rounds x to two decimals and returns the count of hundredths; a value
   * exactly half-way between two hundredths goes to the even one, as
   * Python's `round` does.
   */
  function Round2(x: real): (r: int)
    ensures -0.5 <= r as real - x * 100.0 <= 0.5
    ensures (r as real - x * 100.0 == 0.5 || x * 100.0 - r as real == 0.5) ==> r % 2 == 0
  {
    var y := x * 100.0;
    var n := y.Floor;
    var frac := y - n as real;
    if frac < 0.5 then n
    else if frac > 0.5 then n + 1
    else if n % 2 == 0 then n else n + 1
  }

  /** Rounding an amount that already is a whole number of hundredths gives it back. */
  lemma Round2OfHundredths(k: int)
    ensures Round2(AsReal(k)) == k
  {
    assert AsReal(k) * 100.0 == k as real;
  }

  /** Ties go to the even neighbour: 0.125 rounds down to 0.12 and 0.135 up to 0.14. */
  lemma Round2HalfEven()
    ensures Round2(0.125) == 12 && Round2(0.135) == 14
    ensures Round2(-0.125) == -12
  {
    assert 0.125 * 100.0 == 12.5;
    assert 0.135 * 100.0 == 13.5;
    assert -0.125 * 100.0 == -12.5;
  }

  /** Sums and differences of rounded amounts are rounded amounts and survive re-rounding. */
  lemma Round2OfSum(a: int, b: int, c: int)
    ensures Round2(AsReal(a) + AsReal(b) + AsReal(c)) == a + b + c
    ensures Round2(AsReal(a) - AsReal(b)) == a - b
  {
    assert AsReal(a) + AsReal(b) + AsReal(c) == AsReal(a + b + c);
    Round2OfHundredths(a + b + c);
    assert AsReal(a) - AsReal(b) == AsReal(a - b);
    Round2OfHundredths(a - b);
  }

  /** A ratio of two rounded amounts is the ratio of their hundredths. */
  lemma RatioOfHundredths(a: int, b: int)
    requires b != 0
    ensures AsReal(a) / AsReal(b) == a as real / b as real
  {
    var x := AsReal(a) / AsReal(b);
    assert x * AsReal(b) == AsReal(a);
    assert x * b as real == a as real;
  }

  /** An amount per unit times an integer count. */
  function Scaled(amount: real, count: int): real {
    amount * count as real
  }

  /** Scaling by a count distributes over a difference. */
  lemma ScaledDistributes(a: real, b: real, n: int)
    ensures Scaled(a, n) - Scaled(b, n) == Scaled(a - b, n)
  {
    assert a * n as real - b * n as real == (a - b) * n as real;
  }

  /** A rounded amount times a count needs no further rounding. */
  lemma Round2OfScaledHundredths(k: int, n: int)
    ensures Round2(Scaled(AsReal(k), n)) == k * n
  {
    assert (k * n) as real == k as real * n as real;
    assert Scaled(AsReal(k), n) == AsReal(k * n);
    Round2OfHundredths(k * n);
  }

  /** Rounding never reverses the order of two amounts. */
  lemma Round2Monotone(x: real, y: real)
    requires x <= y
    ensures Round2(x) <= Round2(y)
  {
    var nx, ny := (x * 100.0).Floor, (y * 100.0).Floor;
    assert nx <= ny;
  }

  /** Rounding a non-negative amount gives a non-negative amount. */
  lemma Round2NonNegative(x: real)
    requires 0.0 <= x
    ensures 0 <= Round2(x)
  {
    Round2Monotone(0.0, x);
  }

  /** The sum of f over xs, accumulated left to right as a running total. */
  function SumOf<T>(xs: seq<T>, f: T -> real): real {
    if |xs| == 0 then 0.0 else SumOf(xs[..|xs| - 1], f) + f(xs[|xs| - 1])
  }

  /** The same running total over rounded amounts. */
  function Total<T>(xs: seq<T>, f: T -> int): int {
    if |xs| == 0 then 0 else Total(xs[..|xs| - 1], f) + f(xs[|xs| - 1])
  }

  /** Appending one term adds it to the running total. */
  lemma SumOfAppend<T>(xs: seq<T>, x: T, f: T -> real)
    ensures SumOf(xs + [x], f) == SumOf(xs, f) + f(x)
  {
    assert (xs + [x])[..|xs|] == xs;
  }

  lemma TotalAppend<T>(xs: seq<T>, x: T, f: T -> int)
    ensures Total(xs + [x], f) == Total(xs, f) + f(x)
  {
    assert (xs + [x])[..|xs|] == xs;
  }

  /** Two totals agree when their terms agree position by position. */
  lemma {:induction false} TotalPointwise<T, U>(xs: seq<T>, f: T -> int, ys: seq<U>, g: U -> int)
    requires |xs| == |ys|
    requires forall i :: 0 <= i < |xs| ==> f(xs[i]) == g(ys[i])
    ensures Total(xs, f) == Total(ys, g)
  {
    if |xs| > 0 {
      var n := |xs| - 1;
      assert forall i :: 0 <= i < n ==> xs[..n][i] == xs[i] && ys[..n][i] == ys[i];
      TotalPointwise(xs[..n], f, ys[..n], g);
    }
  }
}
