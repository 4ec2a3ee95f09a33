/** The Python and numpy numeric primitives that trim_and_fade relies on,
    stated over Dafny's exact reals (no IEEE-754 rounding). */
module Numeric {

  /** np.abs on one sample: the magnitude, x or -x, never negative. */
  function Abs(x: real): (r: real)
    ensures 0.0 <= r && (r == x || r == -x)
  {
    if x < 0.0 then -x else x
  }

  function Min(a: int, b: int): (r: int)
    ensures r <= a && r <= b && (r == a || r == b)
  {
    if a <= b then a else b
  }

  /** Python's int() applied to a float: truncation toward zero. */
  function Trunc(x: real): (r: int)
    ensures 0.0 <= x ==> 0 <= r && r as real <= x < r as real + 1.0
    ensures x < 0.0 ==> r <= 0 && r as real - 1.0 < x <= r as real
  {
    if x >= 0.0 then x.Floor else -((-x).Floor)
  }

  /** The fraction i / (n - 1) of the way from start to stop at which
      np.linspace places value i of n. */
  function Fraction(i: nat, n: nat): (f: real)
    requires i < n && n >= 2
    ensures 0.0 <= f <= 1.0
    ensures i == 0 ==> f == 0.0
    ensures i == n - 1 ==> f == 1.0
  {
    var d := (n - 1) as real;
    assert 0.0 < d && d / d == 1.0;
    assert i == n - 1 ==> i as real == d;
    (i as real) / d
  }

  lemma FractionMonotone(i: nat, j: nat, n: nat)
    requires i <= j < n && n >= 2
    ensures Fraction(i, n) <= Fraction(j, n)
  {
    var d := (n - 1) as real;
    assert (j as real) / d - (i as real) / d == ((j - i) as real) / d;
  }

  /** np.linspace(start, stop, n) with its default endpoint=True: n evenly
      spaced values from start to stop, both ends included; [start] when n is
      1 and [] when n is 0. (A negative n makes numpy raise; callers handle
      that case before calling.) */
  function Linspace(start: real, stop: real, n: nat): (r: seq<real>)
    ensures |r| == n
  {
    if n == 1 then [start]
    else seq(n, i requires 0 <= i < n => start + (stop - start) * Fraction(i, n))
  }

  /** Value i of np.linspace(0, 1, n) and of np.linspace(1, 0, n): the two
      ramps are i / (n - 1) and 1 - i / (n - 1), and with a single value
      each ramp is just its start. */
  lemma RampAt(n: nat, i: nat)
    requires i < n
    ensures Linspace(0.0, 1.0, n)[i] == if n == 1 then 0.0 else Fraction(i, n)
    ensures Linspace(1.0, 0.0, n)[i] == if n == 1 then 1.0 else 1.0 - Fraction(i, n)
  {
  }

  /** The rising ramp runs from exactly 0 to exactly 1 and never decreases;
      the falling ramp runs from exactly 1 to exactly 0 and never increases. */
  lemma RampShape(n: nat, i: nat, j: nat)
    requires i <= j < n
    ensures 0.0 <= Linspace(0.0, 1.0, n)[i] <= Linspace(0.0, 1.0, n)[j] <= 1.0
    ensures 0.0 <= Linspace(1.0, 0.0, n)[j] <= Linspace(1.0, 0.0, n)[i] <= 1.0
    ensures Linspace(0.0, 1.0, n)[0] == 0.0 && Linspace(1.0, 0.0, n)[0] == 1.0
    ensures n >= 2 ==> Linspace(0.0, 1.0, n)[n - 1] == 1.0 && Linspace(1.0, 0.0, n)[n - 1] == 0.0
  {
    RampAt(n, i);
    RampAt(n, j);
    RampAt(n, 0);
    RampAt(n, n - 1);
    if n >= 2 {
      FractionMonotone(i, j, n);
    }
  }

  /** Scaling x by a gain g in [0, 1] keeps it between 0 and x. */
  lemma ScaleBetween(x: real, g: real)
    requires 0.0 <= g <= 1.0
    ensures 0.0 <= x ==> 0.0 <= Amplify(x, g) <= x
    ensures x <= 0.0 ==> x <= Amplify(x, g) <= 0.0
  {
    assert Amplify(x, g) == x * g;
    assert x - x * g == x * (1.0 - g);
    if 0.0 <= x {
      assert 0.0 <= x * (1.0 - g);
    } else {
      assert x * (1.0 - g) <= 0.0;
    }
  }

  /** One element of numpy's in-place `*=`: a sample times its gain. A gain
      of 1 leaves the sample as it was and a gain of 0 silences it. */
  function Amplify(x: real, gain: real): (r: real)
    ensures gain == 1.0 ==> r == x
    ensures gain == 0.0 ==> r == 0.0
  {
    x * gain
  }

  /** Scaling x by a gain g in [0, 1] never makes it louder. */
  lemma GainShrinks(x: real, g: real)
    requires 0.0 <= g <= 1.0
    ensures Abs(Amplify(x, g)) <= Abs(x)
  {
    ScaleBetween(x, g);
  }
}
