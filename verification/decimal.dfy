/**
 * Fixed-point decimal arithmetic as Python's `decimal` module performs it for
 * this code base: sums, differences and products are exact, and
 * `x.quantize(Decimal("0.01"))` / `x.quantize(Decimal("0.0001"))` round to
 * the nearest multiple of the quantum, ties going to the even neighbour
 * (the default context's ROUND_HALF_EVEN).
 */
module Decimal {

  /** The two quanta the source rounds to. */
  datatype Quantum = Cents | TenThousandths

  /** x measured in quanta: x * 100 for cents, x * 10000 for ten-thousandths. */
  function Scaled(x: real, q: Quantum): real
  {
    match q
    case Cents => x * 100.0
    case TenThousandths => x * 10000.0
  }

  /** Measuring in quanta is linear. */
  lemma ScaledLinear(a: real, b: real, q: Quantum)
    ensures Scaled(a + b, q) == Scaled(a, q) + Scaled(b, q)
    ensures Scaled(a - b, q) == Scaled(a, q) - Scaled(b, q)
  {
  }

  /** ROUND_HALF_EVEN to an integer: the nearest integer, and the even one on a tie. */
  function RoundHalfEven(x: real): (k: int)
    ensures -0.5 <= k as real - x <= 0.5
    ensures (k as real - x == 0.5 || x - k as real == 0.5) ==> k % 2 == 0
  {
    var f := x.Floor;
    var d := x - f as real;
    if d < 0.5 then f
    else if d > 0.5 then f + 1
    else if f % 2 == 0 then f else f + 1
  }

  /** The two properties above determine the rounded value: no other integer has them. */
  lemma RoundHalfEvenUnique(x: real, k: int)
    requires -0.5 <= k as real - x <= 0.5
    requires (k as real - x == 0.5 || x - k as real == 0.5) ==> k % 2 == 0
    ensures k == RoundHalfEven(x)
  {
  }

  /** An integer is left alone. */
  lemma RoundHalfEvenOfInt(n: int)
    ensures RoundHalfEven(n as real) == n
  {
    RoundHalfEvenUnique(n as real, n);
  }

  /** True when x is a whole number of quanta, i.e. has no digits beyond the quantum. */
  predicate OnGrid(x: real, q: Quantum)
  {
    Scaled(x, q).Floor as real == Scaled(x, q)
  }

  /** `x.quantize(quantum)` with ROUND_HALF_EVEN. */
  function Quantize(x: real, q: Quantum): (r: real)
    ensures OnGrid(r, q)
    ensures -0.5 <= Scaled(r - x, q) <= 0.5
  {
    var k := RoundHalfEven(Scaled(x, q));
    match q
    case Cents => k as real / 100.0
    case TenThousandths => k as real / 10000.0
  }

  /** Quantizing a value that is already on the grid returns it unchanged. */
  lemma QuantizeOnGrid(x: real, q: Quantum)
    requires OnGrid(x, q)
    ensures Quantize(x, q) == x
  {
    RoundHalfEvenOfInt(Scaled(x, q).Floor);
  }

  /** Quantizing twice is quantizing once. */
  lemma QuantizeIdempotent(x: real, q: Quantum)
    ensures Quantize(Quantize(x, q), q) == Quantize(x, q)
  {
    QuantizeOnGrid(Quantize(x, q), q);
  }

  /** Sums and differences of grid values stay on the grid (exact decimal addition). */
  lemma OnGridAddSub(a: real, b: real, q: Quantum)
    requires OnGrid(a, q) && OnGrid(b, q)
    ensures OnGrid(a + b, q) && OnGrid(a - b, q)
  {
    ScaledLinear(a, b, q);
    var na, nb := Scaled(a, q).Floor, Scaled(b, q).Floor;
    assert Scaled(a + b, q) == (na + nb) as real;
    assert Scaled(a - b, q) == (na - nb) as real;
  }

  /** Integers are on every grid. */
  lemma OnGridInt(n: int, q: Quantum)
    ensures OnGrid(n as real, q)
  {
    match q
    case Cents => assert Scaled(n as real, q) == (n * 100) as real;
    case TenThousandths => assert Scaled(n as real, q) == (n * 10000) as real;
  }

  /** A whole number of copies of a grid value (y, which is x times k) stays on the grid. */
  lemma {:induction false} OnGridTimesNat(x: real, k: nat, y: real, q: Quantum)
    requires OnGrid(x, q) && y == x * k as real
    ensures OnGrid(y, q)
  {
    if k == 0 {
      assert Scaled(y, q) == 0 as real;
    } else {
      OnGridTimesNat(x, k - 1, y - x, q);
      OnGridAddSub(y - x, x, q);
      assert y - x + x == y;
    }
  }

  /** A whole number of cents is also a whole number of ten-thousandths. */
  lemma CentsOnTenThousandths(x: real)
    requires OnGrid(x, Cents)
    ensures OnGrid(x, TenThousandths)
  {
    var n := Scaled(x, Cents).Floor;
    var m := n * 100;
    assert Scaled(x, TenThousandths) == Scaled(x, Cents) * 100.0;
    assert Scaled(x, TenThousandths) == m as real;
  }

  /** Exact sum of a sequence of decimals, accumulated left to right as `sum()` does. */
  function Sum(xs: seq<real>): real
  {
    if xs == [] then 0.0 else Sum(xs[..|xs| - 1]) + xs[|xs| - 1]
  }

  /** Appending one value adds it to the sum. */
  lemma SumAppend(xs: seq<real>, x: real)
    ensures Sum(xs + [x]) == Sum(xs) + x
  {
    assert (xs + [x])[..|xs|] == xs;
  }

  /** Sum distributes over concatenation. */
  lemma {:induction false} SumConcat(xs: seq<real>, ys: seq<real>)
    ensures Sum(xs + ys) == Sum(xs) + Sum(ys)
  {
    if ys == [] {
      assert xs + ys == xs;
    } else {
      var init := ys[..|ys| - 1];
      SumConcat(xs, init);
      assert (xs + ys)[..|xs + ys| - 1] == xs + init;
    }
  }
}
