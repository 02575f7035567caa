/**
 Python's `round(x, k)` over real numbers: half-way cases go to the even neighbour.
 A `scale` of 100 stands for two decimals, 1000 for three, and so on.
 */
module Rounding {

  /** The nearest integer, ties to the even one. */
  function HalfEven(x: real): (n: int)
    ensures n as real - 0.5 <= x <= n as real + 0.5
  {
    var below := x.Floor;
    var rest := x - below as real;
    if rest < 0.5 then below
    else if rest > 0.5 then below + 1
    else if below % 2 == 0 then below
    else below + 1
  }

  function Round(x: real, scale: int): (r: real)
    requires scale > 0
  {
    HalfEven(x * scale as real) as real / scale as real
  }

  lemma {:induction false} HalfEvenMonotone(x: real, y: real)
    requires x <= y
    ensures HalfEven(x) <= HalfEven(y)
  {
    assert x.Floor <= y.Floor;
    if x.Floor < y.Floor {
      assert HalfEven(x) <= x.Floor + 1 <= y.Floor <= HalfEven(y);
    }
  }

  /** An integer is its own rounding, and moving by an even integer commutes with rounding. */
  lemma {:induction false} HalfEvenShift(x: real, k: int)
    requires k % 2 == 0
    ensures HalfEven(x + k as real) == HalfEven(x) + k
  {
    assert (x + k as real).Floor == x.Floor + k;
  }

  /** Rounding never reorders two values. */
  lemma {:induction false} RoundMonotone(x: real, y: real, scale: int)
    requires scale > 0 && x <= y
    ensures Round(x, scale) <= Round(y, scale)
  {
    assert x * scale as real <= y * scale as real;
    HalfEvenMonotone(x * scale as real, y * scale as real);
    DivideMonotone(HalfEven(x * scale as real) as real, HalfEven(y * scale as real) as real, scale as real);
  }

  lemma {:induction false} DivideMonotone(a: real, b: real, s: real)
    requires s > 0.0 && a <= b
    ensures a / s <= b / s
  {
    var step := (b - a) / s;
    assert step * s == b - a;
    assert step >= 0.0;
    assert (a / s + step) * s == b;
  }

  /** Rounding moves a value by at most half a unit of the last place. */
  lemma {:induction false} RoundError(x: real, scale: int)
    requires scale > 0
    ensures x - 0.5 / scale as real <= Round(x, scale) <= x + 0.5 / scale as real
  {
    var s := scale as real;
    var n := HalfEven(x * s) as real;
    DivideMonotone(n - 0.5, x * s, s);
    DivideMonotone(x * s, n + 0.5, s);
    assert x * s / s == x;
    SplitDivision(n, 0.5, s);
  }

  lemma {:induction false} SplitDivision(a: real, b: real, s: real)
    requires s > 0.0
    ensures (a + b) / s == a / s + b / s
    ensures (a - b) / s == a / s - b / s
  {
    assert (a / s + b / s) * s == a + b;
    assert (a / s - b / s) * s == a - b;
  }

  /** In cents, and in thousandths. */
  lemma {:induction false} RoundCents(x: real)
    ensures -0.005 <= Round(x, 100) - x <= 0.005
  {
    RoundError(x, 100);
    assert 0.5 / 100.0 == 0.005;
  }

  lemma {:induction false} RoundThousandths(x: real)
    ensures -0.0005 <= Round(x, 1000) - x <= 0.0005
  {
    RoundError(x, 1000);
    assert 0.5 / 1000.0 == 0.0005;
  }

  /** A value already on the grid is unchanged. */
  lemma {:induction false} RoundExact(x: real, n: int, scale: int)
    requires scale > 0 && x * scale as real == n as real
    ensures Round(x, scale) == x
  {
    var y := x * scale as real;
    assert y.Floor == n;
    assert HalfEven(y) == n;
  }
}
