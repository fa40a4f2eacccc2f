/**
 The "curves" primitive of the filter base class: `np.interp` against
 evenly spaced breakpoints `np.linspace(0, 1, N)`, applied to every sample
 of a channel. `Interp` follows numpy's one-dimensional piecewise-linear
 interpolation: below the first breakpoint it returns the first value, above
 the last the last value, and in between it uses the segment's slope.
 */
module Curves {
  import opened Arrays

  predicate StrictlyIncreasing(xs: seq<real>) {
    forall i, j :: 0 <= i < j < |xs| ==> xs[i] < xs[j]
  }

  predicate NonDecreasing(xs: seq<real>) {
    forall i, j :: 0 <= i < j < |xs| ==> xs[i] <= xs[j]
  }

  /** The smallest element of a non-empty sequence. */
  function SeqMin(xs: seq<real>): (m: real)
    requires |xs| >= 1
    ensures forall k :: 0 <= k < |xs| ==> m <= xs[k]
    ensures exists k :: 0 <= k < |xs| && xs[k] == m
  {
    if |xs| == 1 then xs[0]
    else
      var m' := SeqMin(xs[1..]);
      if xs[0] <= m' then xs[0] else m'
  }

  /** The largest element of a non-empty sequence. */
  function SeqMax(xs: seq<real>): (m: real)
    requires |xs| >= 1
    ensures forall k :: 0 <= k < |xs| ==> xs[k] <= m
    ensures exists k :: 0 <= k < |xs| && xs[k] == m
  {
    if |xs| == 1 then xs[0]
    else
      var m' := SeqMax(xs[1..]);
      if xs[0] >= m' then xs[0] else m'
  }

  /** `np.linspace(0, 1, n)`: `n` evenly spaced points from 0 to 1 inclusive
      (the single point 0 when `n` is 1). */
  function Linspace(n: nat): (xs: seq<real>)
    ensures |xs| == n
    ensures StrictlyIncreasing(xs)
    ensures n >= 1 ==> xs[0] == 0.0
    ensures n >= 2 ==> xs[n - 1] == 1.0
    ensures n >= 2 ==> forall i :: 0 <= i < n ==> xs[i] == i as real / (n - 1) as real
  {
    if n == 0 then []
    else if n == 1 then [0.0]
    else
      var d := (n - 1) as real;
      var xs := seq(n, i requires 0 <= i < n => i as real / d);
      assert StrictlyIncreasing(xs) by {
        forall i, j | 0 <= i < j < n
          ensures xs[i] < xs[j]
        {
          DivMono(i as real, j as real, d);
        }
      }
      DivSelf(d);
      xs
  }

  lemma DivSelf(d: real)
    requires d > 0.0
    ensures d / d == 1.0
  {
  }

  /** Division by a positive number keeps a strict order. */
  lemma DivMono(a: real, b: real, d: real)
    requires a < b && d > 0.0
    ensures a / d < b / d
  {
    assert b / d - a / d == (b - a) / d;
  }

  /** A part of a positive whole, divided by the whole, lies in [0, 1]. */
  lemma DivUnit(a: real, b: real)
    requires 0.0 <= a <= b && b > 0.0
    ensures 0.0 <= a / b <= 1.0
  {
    DivMonoWeak(a, b, b);
    assert b / b == 1.0;
  }

  /** Division by a positive number keeps a weak order. */
  lemma DivMonoWeak(a: real, b: real, d: real)
    requires 0.0 <= a <= b && d > 0.0
    ensures 0.0 <= a / d <= b / d
  {
    assert b / d - a / d == (b - a) / d;
  }

  /** numpy's interpolation on one segment [x0, x1] with end values y0, y1:
      the segment's slope times the distance from x0, plus y0. */
  function Segment(x: real, x0: real, x1: real, y0: real, y1: real): (y: real)
    requires x0 < x1
    ensures x == x0 ==> y == y0
    ensures y0 == y1 ==> y == y0
  {
    (y1 - y0) / (x1 - x0) * (x - x0) + y0
  }

  /** On a segment, the interpolated value lies between the two end values, and
      it meets them at the ends. */
  lemma SegmentBetween(x: real, x0: real, x1: real, y0: real, y1: real)
    requires x0 < x1 && x0 <= x <= x1
    ensures y0 <= y1 ==> y0 <= Segment(x, x0, x1, y0, y1) <= y1
    ensures y1 <= y0 ==> y1 <= Segment(x, x0, x1, y0, y1) <= y0
    ensures x == x0 ==> Segment(x, x0, x1, y0, y1) == y0
    ensures x == x1 ==> Segment(x, x0, x1, y0, y1) == y1
  {
    var t := (x - x0) / (x1 - x0);
    DivUnit(x - x0, x1 - x0);
    assert Segment(x, x0, x1, y0, y1) == y0 + t * (y1 - y0);
  }

  /** On a segment with y0 <= y1, the interpolated value does not decrease with x. */
  lemma SegmentMono(xa: real, xb: real, x0: real, x1: real, y0: real, y1: real)
    requires x0 < x1 && xa <= xb && y0 <= y1
    ensures Segment(xa, x0, x1, y0, y1) <= Segment(xb, x0, x1, y0, y1)
  {
    var s := (y1 - y0) / (x1 - x0);
    assert s >= 0.0;
    assert s * (xb - x0) - s * (xa - x0) == s * (xb - xa);
  }

  /** `np.interp(x, xp, fp)` for increasing breakpoints `xp` and values `fp`:
      the value of the segment that holds `x`, clamped to `fp[0]` and the last
      value outside the breakpoints. It never leaves the range of `fp`. */
  function Interp(x: real, xp: seq<real>, fp: seq<real>): (y: real)
    requires |xp| == |fp| >= 1 && StrictlyIncreasing(xp)
    ensures SeqMin(fp) <= y <= SeqMax(fp)
    decreases |xp|
  {
    if |xp| == 1 || x <= xp[0] then fp[0]
    else if x < xp[1] then
      SegmentBetween(x, xp[0], xp[1], fp[0], fp[1]);
      Segment(x, xp[0], xp[1], fp[0], fp[1])
    else
      Interp(x, xp[1..], fp[1..])
  }

  /** At or below the first breakpoint np.interp returns the first value. */
  lemma InterpClampLow(x: real, xp: seq<real>, fp: seq<real>)
    requires |xp| == |fp| >= 1 && StrictlyIncreasing(xp)
    requires x <= xp[0]
    ensures Interp(x, xp, fp) == fp[0]
  {
  }

  /** At or above the last breakpoint np.interp returns the last value. */
  lemma {:induction false} InterpClampHigh(x: real, xp: seq<real>, fp: seq<real>)
    requires |xp| == |fp| >= 1 && StrictlyIncreasing(xp)
    requires x >= xp[|xp| - 1]
    ensures Interp(x, xp, fp) == fp[|fp| - 1]
    decreases |xp|
  {
    if |xp| > 1 {
      assert xp[1] <= xp[|xp| - 1];
      InterpClampHigh(x, xp[1..], fp[1..]);
    }
  }

  /** Between breakpoints `j` and `j + 1` (both included) np.interp is the line
      through (xp[j], fp[j]) and (xp[j+1], fp[j+1]). */
  lemma {:induction false} InterpOnSegment(x: real, xp: seq<real>, fp: seq<real>, j: nat)
    requires |xp| == |fp| >= 1 && StrictlyIncreasing(xp)
    requires j + 1 < |xp| && xp[j] <= x <= xp[j + 1]
    ensures Interp(x, xp, fp) == Segment(x, xp[j], xp[j + 1], fp[j], fp[j + 1])
    decreases j
  {
    SegmentBetween(x, xp[j], xp[j + 1], fp[j], fp[j + 1]);
    if j > 0 {
      assert xp[0] < xp[1] <= xp[j];
      InterpOnSegment(x, xp[1..], fp[1..], j - 1);
    } else if x >= xp[1] {
      InterpClampLow(x, xp[1..], fp[1..]);
    }
  }

  /** np.interp maps each breakpoint to its own value. */
  lemma InterpAtBreakpoint(xp: seq<real>, fp: seq<real>, i: nat)
    requires |xp| == |fp| >= 1 && StrictlyIncreasing(xp) && i < |xp|
    ensures Interp(xp[i], xp, fp) == fp[i]
  {
    if i + 1 < |xp| {
      InterpOnSegment(xp[i], xp, fp, i);
      SegmentBetween(xp[i], xp[i], xp[i + 1], fp[i], fp[i + 1]);
    } else {
      InterpClampHigh(xp[i], xp, fp);
    }
  }

  /** The first element of a non-decreasing sequence is its minimum. */
  lemma NonDecreasingMin(xs: seq<real>)
    requires |xs| >= 1 && NonDecreasing(xs)
    ensures SeqMin(xs) == xs[0]
  {
  }

  /** With non-decreasing values np.interp is monotone in x. */
  lemma {:induction false} InterpMonotone(x1: real, x2: real, xp: seq<real>, fp: seq<real>)
    requires |xp| == |fp| >= 1 && StrictlyIncreasing(xp) && NonDecreasing(fp)
    requires x1 <= x2
    ensures Interp(x1, xp, fp) <= Interp(x2, xp, fp)
    decreases |xp|
  {
    if |xp| == 1 || x1 <= xp[0] {
      NonDecreasingMin(fp);
    } else if x1 < xp[1] {
      SegmentBetween(x1, xp[0], xp[1], fp[0], fp[1]);
      if x2 < xp[1] {
        SegmentMono(x1, x2, xp[0], xp[1], fp[0], fp[1]);
      } else {
        NonDecreasingMin(fp[1..]);
      }
    } else {
      InterpMonotone(x1, x2, xp[1..], fp[1..]);
    }
  }

  // ---------------------------------------------------------------------
  // the curve of `channel_adjust`: np.interp against np.linspace(0, 1, N)

  /** One sample passed through the curve `values`. The output never leaves the
      range of the values, and a one-point curve is constant. */
  function Curve(x: real, values: seq<real>): (y: real)
    requires |values| >= 1
    ensures SeqMin(values) <= y <= SeqMax(values)
    ensures |values| == 1 ==> y == values[0]
  {
    Interp(x, Linspace(|values|), values)
  }

  /** Breakpoint i / (N - 1) is mapped to `values[i]`. */
  lemma CurveAtBreakpoint(values: seq<real>, i: nat)
    requires |values| >= 2 && i < |values|
    ensures Curve(i as real / (|values| - 1) as real, values) == values[i]
  {
    InterpAtBreakpoint(Linspace(|values|), values, i);
  }

  /** Inputs at or below 0 give the first value, inputs at or above 1 the last:
      the curve clamps and never extrapolates. */
  lemma CurveClamps(x: real, values: seq<real>)
    requires |values| >= 1
    ensures x <= 0.0 ==> Curve(x, values) == values[0]
    ensures x >= 1.0 ==> Curve(x, values) == values[|values| - 1]
  {
    if x >= 1.0 {
      InterpClampHigh(x, Linspace(|values|), values);
    }
  }

  /** Between breakpoints i / (N - 1) and (i + 1) / (N - 1) the curve is the
      linear blend of `values[i]` and `values[i + 1]`, with weight x * (N - 1) - i. */
  lemma CurveLinear(x: real, values: seq<real>, i: nat)
    requires |values| >= 2 && i + 1 < |values|
    requires i as real / (|values| - 1) as real <= x <= (i + 1) as real / (|values| - 1) as real
    ensures Curve(x, values) == Blend(values[i], values[i + 1], x * (|values| - 1) as real - i as real)
  {
    EvenSegment(x, i as real, (|values| - 1) as real, values[i], values[i + 1]);
    CurveOnSegment(x, values, i);
  }

  /** The curve between two neighbouring breakpoints is numpy's segment formula. */
  lemma CurveOnSegment(x: real, values: seq<real>, i: nat)
    requires |values| >= 2 && i + 1 < |values|
    requires i as real / (|values| - 1) as real <= x <= (i + 1) as real / (|values| - 1) as real
    ensures (i as real) / (|values| - 1) as real < (i as real + 1.0) / (|values| - 1) as real
    ensures Curve(x, values) == Segment(x, (i as real) / (|values| - 1) as real,
      (i as real + 1.0) / (|values| - 1) as real, values[i], values[i + 1])
  {
    var xp := Linspace(|values|);
    var d := (|values| - 1) as real;
    assert xp[i] == i as real / d;
    assert xp[i + 1] == (i + 1) as real / d == (i as real + 1.0) / d;
    InterpOnSegment(x, xp, values, i);
  }

  /** The linear blend of `a` and `b` with weight `t` on `b`. */
  function Blend(a: real, b: real, t: real): real {
    a + t * (b - a)
  }

  /** The segment between breakpoints k / d and (k + 1) / d, written without the
      slope: the blend of its end values with weight x * d - k. */
  lemma EvenSegment(x: real, k: real, d: real, a: real, b: real)
    requires d > 0.0
    ensures k / d < (k + 1.0) / d
    ensures Segment(x, k / d, (k + 1.0) / d, a, b) == Blend(a, b, x * d - k)
  {
    DivMono(k, k + 1.0, d);
    assert (k + 1.0) / d - k / d == 1.0 / d;
    assert (b - a) / (1.0 / d) == (b - a) * d;
    assert d * (k / d) == k;
  }

  /** With the two-point curve [0, 1] the curve is the identity on [0, 1] and
      clips everything else into [0, 1]. */
  lemma CurveIdentity(x: real)
    ensures Curve(x, [0.0, 1.0]) == Clip(x, 0.0, 1.0)
  {
    CurveClamps(x, [0.0, 1.0]);
    if 0.0 < x < 1.0 {
      CurveLinear(x, [0.0, 1.0], 0);
    }
  }

  /** With non-decreasing values the curve is monotone. */
  lemma CurveMonotone(x1: real, x2: real, values: seq<real>)
    requires |values| >= 1 && NonDecreasing(values) && x1 <= x2
    ensures Curve(x1, values) <= Curve(x2, values)
  {
    InterpMonotone(x1, x2, Linspace(|values|), values);
  }

  /** If every value lies in [lo, hi], so does every output of the curve. */
  lemma CurveBounded(x: real, values: seq<real>, lo: real, hi: real)
    requires |values| >= 1
    requires forall k :: 0 <= k < |values| ==> lo <= values[k] <= hi
    ensures lo <= Curve(x, values) <= hi
  {
  }

  /** `Filter.channel_adjust(channel, values)`: flattens the channel, passes every
      sample through the curve and reshapes to the channel's shape. Each output
      sample is the curve applied to the input sample at the same position. */
  function ChannelAdjust(channel: Plane, values: seq<real>): (r: Plane)
    requires channel.Valid() && |values| >= 1
    ensures r.Valid() && r.h == channel.h && r.w == channel.w
    ensures forall i, j :: 0 <= i < r.h && 0 <= j < r.w ==>
      r.s[i][j] == Curve(channel.s[i][j], values)
  {
    MapFlat(channel, x => Curve(x, values))
  }

  /** With non-decreasing values, `channel_adjust` keeps the sample-wise order of
      two channels of one shape. */
  lemma ChannelAdjustMonotone(p: Plane, q: Plane, values: seq<real>)
    requires p.Valid() && q.Valid() && p.h == q.h && p.w == q.w
    requires |values| >= 1 && NonDecreasing(values)
    requires forall i, j :: 0 <= i < p.h && 0 <= j < p.w ==> p.s[i][j] <= q.s[i][j]
    ensures forall i, j :: 0 <= i < p.h && 0 <= j < p.w ==>
      ChannelAdjust(p, values).s[i][j] <= ChannelAdjust(q, values).s[i][j]
  {
    forall i, j | 0 <= i < p.h && 0 <= j < p.w
      ensures ChannelAdjust(p, values).s[i][j] <= ChannelAdjust(q, values).s[i][j]
    {
      CurveMonotone(p.s[i][j], q.s[i][j], values);
    }
  }
}
