/** Shared vocabulary of the trading bot model: optional values, trade sides,
    Python's `round` on exact reals, and folds over price series. */
module Common {

  datatype Option<T> = None | Some(value: T)

  /** Direction of an order or a position ('BUY' / 'SELL' in the bot). */
  datatype Side = Buy | Sell {
    function Opposite(): (o: Side)
      ensures o != this
    {
      if Buy? then Sell else Buy
    }
  }

  /** The `entry` of a broker deal: opening, closing, reversal, or close by an opposite position. */
  datatype DealEntry = EntryIn | EntryOut | EntryInOut | EntryOutBy

  function Abs(x: real): (r: real)
    ensures r >= 0.0 && (r == x || r == -x)
  {
    if x < 0.0 then -x else x
  }

  function MaxReal(a: real, b: real): (r: real)
    ensures r >= a && r >= b && (r == a || r == b)
  {
    if a >= b then a else b
  }

  function MinReal(a: real, b: real): (r: real)
    ensures r <= a && r <= b && (r == a || r == b)
  {
    if a <= b then a else b
  }

  /** Python's `round(x)` on an exact value: nearest integer, ties to the even one. */
  function Round(x: real): (r: int)
    ensures x - 0.5 <= r as real <= x + 0.5
    ensures x - r as real == 0.5 || r as real - x == 0.5 ==> r % 2 == 0
  {
    var f := x.Floor;
    var d := x - f as real;
    if d < 0.5 then f
    else if d > 0.5 then f + 1
    else if f % 2 == 0 then f else f + 1
  }

  /** No integer is nearer to `x` than `round(x)`. */
  lemma RoundIsNearest(x: real, j: int)
    ensures Abs(x - Round(x) as real) <= Abs(x - j as real)
  {
    var r := Round(x);
    if j > r {
      assert (j as real) >= r as real + 1.0;
    } else if j < r {
      assert (j as real) <= r as real - 1.0;
    }
  }

  /** Python's `round(x, 2)` on an exact value: a whole number of cents, within half
      a cent of `x`, and on a tie the even number of cents. */
  function Round2(x: real): (r: real)
    ensures x - 0.005 <= r <= x + 0.005
    ensures IsStepMultiple(r, 0.01)
    ensures Abs(x - r) == 0.005 ==> IsStepMultiple(r, 0.02)
  {
    var k := Round(x * 100.0);
    assert Lots(k, 0.01) == k as real / 100.0;
    if Abs(x * 100.0 - k as real) == 0.5 then
      assert k % 2 == 0;
      assert Lots(k / 2, 0.02) == k as real / 100.0;
      k as real / 100.0
    else k as real / 100.0
  }

  /** No whole number of cents is nearer to `x` than `round(x, 2)`. */
  lemma Round2IsNearestCent(x: real, j: int)
    ensures Abs(x - Round2(x)) <= Abs(x - Lots(j, 0.01))
  {
    RoundIsNearest(x * 100.0, j);
  }

  /** The real value of `k` lots of size `step`. */
  function Lots(k: int, step: real): real
  {
    k as real * step
  }

  /** `r` is a whole number of volume steps. */
  ghost predicate IsStepMultiple(r: real, step: real)
  {
    exists k: int :: r == Lots(k, step)
  }

  /** `round(x / step) * step`: the multiple of `step` nearest to `x`. */
  function RoundToStep(x: real, step: real): (r: real)
    requires step > 0.0
    ensures IsStepMultiple(r, step)
    ensures x - step / 2.0 <= r <= x + step / 2.0
  {
    var k := Round(x / step);
    StepBounds(x, step, k);
    Lots(k, step)
  }

  /** A whole number of steps within half a step of `x / step` is within half a
      step size of `x`. */
  lemma StepBounds(x: real, step: real, k: int)
    requires step > 0.0 && x / step - 0.5 <= k as real <= x / step + 0.5
    ensures x - step / 2.0 <= Lots(k, step) <= x + step / 2.0
  {
    var q := x / step;
    assert q * step == x;
    ScaleBounds(q - 0.5, k as real, q + 0.5, step);
    assert (q + 0.5) * step == x + step / 2.0;
    assert (q - 0.5) * step == x - step / 2.0;
  }

  lemma ScaleBounds(lo: real, v: real, hi: real, c: real)
    requires c > 0.0 && lo <= v <= hi
    ensures lo * c <= v * c <= hi * c
  {
    assert v * c - lo * c == (v - lo) * c;
    assert hi * c - v * c == (hi - v) * c;
  }

  function Sum(s: seq<real>): real
  {
    if |s| == 0 then 0.0 else Sum(s[..|s| - 1]) + s[|s| - 1]
  }

  lemma {:induction false} SumAppend(s: seq<real>, t: seq<real>)
    ensures Sum(s + t) == Sum(s) + Sum(t)
    decreases |t|
  {
    if |t| == 0 {
      assert s + t == s;
    } else {
      assert (s + t)[..|s + t| - 1] == s + t[..|t| - 1];
      SumAppend(s, t[..|t| - 1]);
    }
  }

  /** Mean of a non-empty series (pandas `Series.mean()` over defined values). */
  function Mean(s: seq<real>): (r: real)
    requires |s| > 0
  {
    Sum(s) / |s| as real
  }

  /** Largest element of a non-empty window (pandas `rolling(...).max()` at one index). */
  function MaxOf(s: seq<real>): (r: real)
    requires |s| > 0
    ensures r in s
    ensures forall i :: 0 <= i < |s| ==> s[i] <= r
  {
    if |s| == 1 then s[0] else MaxReal(MaxOf(s[..|s| - 1]), s[|s| - 1])
  }

  /** Smallest element of a non-empty window (pandas `rolling(...).min()` at one index). */
  function MinOf(s: seq<real>): (r: real)
    requires |s| > 0
    ensures r in s
    ensures forall i :: 0 <= i < |s| ==> r <= s[i]
  {
    if |s| == 1 then s[0] else MinReal(MinOf(s[..|s| - 1]), s[|s| - 1])
  }
}
