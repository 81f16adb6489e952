/** `Stabilizer`: an exponential moving average over crop anchors, restarted
    by `reset`. */
module Stabilization {
  import opened Wrappers
  import PyText

  /** One EMA step: weight `alpha` on the new sample, `1 - alpha` on the
      stored one. */
  function Smooth(alpha: real, raw: real, prev: real): real
  {
    alpha * raw + (1.0 - alpha) * prev
  }

  /** What one axis stores after a sample: the raw value itself when nothing
      was stored yet. */
  function Step(alpha: real, prev: Option<real>, raw: real): real
  {
    if prev.None? then raw else Smooth(alpha, raw, prev.value)
  }

  /** The stored value of an axis that started at `init` after the samples
      `xs[..n]`. */
  function EmaFrom(alpha: real, init: Option<real>, xs: seq<real>, n: nat): (s: Option<real>)
    requires n <= |xs|
    ensures n > 0 ==> s.Some?
  {
    if n == 0 then init else Some(Step(alpha, EmaFrom(alpha, init, xs, n - 1), xs[n - 1]))
  }

  function Min(a: real, b: real): real { if a <= b then a else b }

  function Max(a: real, b: real): real { if a <= b then b else a }

  lemma MulNonNeg(a: real, b: real)
    requires 0.0 <= a && 0.0 <= b
    ensures 0.0 <= a * b
  {
  }

  /** For a smoothing factor in (0, 1] the new value lies between the stored
      value and the raw sample. */
  lemma SmoothBetween(alpha: real, raw: real, prev: real)
    requires 0.0 < alpha <= 1.0
    ensures Min(raw, prev) <= Smooth(alpha, raw, prev) <= Max(raw, prev)
  {
    var d := Smooth(alpha, raw, prev) - prev;
    assert d == alpha * (raw - prev);
    var e := raw - prev;
    assert e - alpha * e == (1.0 - alpha) * e;
    if e >= 0.0 {
      MulNonNeg(alpha, e);
      MulNonNeg(1.0 - alpha, e);
    } else {
      MulNonNeg(alpha, -e);
      MulNonNeg(1.0 - alpha, -e);
    }
  }

  /** Samples confined to [lo, hi] keep the stored value in [lo, hi]: a
      smoothed crop anchor never leaves the range of the raw anchors. */
  lemma {:induction false} EmaWithin(alpha: real, init: Option<real>, xs: seq<real>, n: nat, lo: real, hi: real)
    requires 0.0 < alpha <= 1.0 && n <= |xs|
    requires forall i :: 0 <= i < |xs| ==> lo <= xs[i] <= hi
    requires init.Some? ==> lo <= init.value <= hi
    ensures var s := EmaFrom(alpha, init, xs, n); s.Some? ==> lo <= s.value <= hi
  {
    if n > 0 {
      EmaWithin(alpha, init, xs, n - 1, lo, hi);
      var p := EmaFrom(alpha, init, xs, n - 1);
      if p.Some? {
        SmoothBetween(alpha, xs[n - 1], p.value);
      }
    }
  }

  /** A constant input is a fixed point: the y anchor, always the same third
      of the frame height, stays exactly that value. */
  lemma {:induction false} EmaConstant(alpha: real, init: Option<real>, xs: seq<real>, n: nat, c: real)
    requires n <= |xs|
    requires forall i :: 0 <= i < |xs| ==> xs[i] == c
    requires init.None? || init == Some(c)
    requires n > 0 || init.Some?
    ensures EmaFrom(alpha, init, xs, n) == Some(c)
  {
    if n > 0 {
      if n - 1 > 0 || init.Some? {
        EmaConstant(alpha, init, xs, n - 1, c);
        assert Smooth(alpha, c, c) == (alpha + (1.0 - alpha)) * c;
      }
    }
  }

  /** With `alpha = 1` the stabilizer passes every sample straight through. */
  lemma {:induction false} EmaAlphaOne(init: Option<real>, xs: seq<real>, n: nat)
    requires 0 < n <= |xs|
    ensures EmaFrom(1.0, init, xs, n) == Some(xs[n - 1])
  {
  }

  /** With `alpha = 0.5`, samples 100 then 200 give 150. */
  lemma HalfAlphaExample()
    ensures var s := EmaFrom(0.5, None, [100.0, 200.0], 2);
      s == Some(150.0) && PyText.Trunc(s.value) == 150
  {
    assert EmaFrom(0.5, None, [100.0, 200.0], 1) == Some(100.0);
  }

  class Stabilizer {
    const alpha: real
    var prevX: Option<real>
    var prevY: Option<real>

    /** Both axes are set and cleared together. */
    ghost predicate Valid()
      reads this
    {
      prevX.None? == prevY.None?
    }

    constructor (alpha: real)
      ensures this.alpha == alpha && prevX == None && prevY == None && Valid()
    {
      this.alpha := alpha;
      prevX := None;
      prevY := None;
    }

    /** `update(x, y)`: stores the untruncated smoothed values and returns
        them truncated toward zero. */
    method Update(x: real, y: real) returns (sx: int, sy: int)
      modifies this
      ensures Valid() && prevX.Some? && prevY.Some?
      ensures old(prevX.None? || prevY.None?) ==> prevX.value == x && prevY.value == y
      ensures old(prevX.Some? && prevY.Some?) ==>
        prevX.value == Smooth(alpha, x, old(prevX.value)) && prevY.value == Smooth(alpha, y, old(prevY.value))
      ensures old(Valid()) ==> prevX == Some(Step(alpha, old(prevX), x)) && prevY == Some(Step(alpha, old(prevY), y))
      ensures sx == PyText.Trunc(prevX.value) && sy == PyText.Trunc(prevY.value)
    {
      if prevX.None? || prevY.None? {
        prevX := Some(x);
        prevY := Some(y);
        return PyText.Trunc(x), PyText.Trunc(y);
      }
      var smoothX := alpha * x + (1.0 - alpha) * prevX.value;
      var smoothY := alpha * y + (1.0 - alpha) * prevY.value;
      prevX := Some(smoothX);
      prevY := Some(smoothY);
      return PyText.Trunc(smoothX), PyText.Trunc(smoothY);
    }

    method Reset()
      modifies this
      ensures prevX == None && prevY == None && Valid()
    {
      prevX := None;
      prevY := None;
    }
  }
}
