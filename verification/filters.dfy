/**
 The filter variants of `Filter.py`. Each is a fixed pipeline over an
 H x W x C image: pick channels, pass red through a tone curve, boost blue
 by a constant and clip, stack the three planes, blur the stack, and blend
 the stack with its blur under a clip. The blur is the abstract
 `GaussianFilter` of `Utils`, so every property here holds for every blur.
 */
module Filters {
  import opened Arrays
  import opened Curves
  import opened Utils

  /** The red curve of Gotham, Riverdale and Random: an S-shaped contrast curve
      that darkens samples below 0.5, keeps 0.5, and brightens samples above it. */
  const RedCurve: seq<real> := [0.0, 0.05, 0.1, 0.2, 0.3, 0.5, 0.7, 0.8, 0.9, 0.95, 1.0]

  /** The finer curve Gotham applies to the blue channel of its blended result. */
  const GothamBlueCurve: seq<real> :=
    [0.0, 0.047, 0.198, 0.251, 0.318, 0.392, 0.42, 0.439, 0.475,
     0.561, 0.58, 0.627, 0.671, 0.733, 0.847, 0.925, 1.0]

  /** Every value of the curve lies in [0, 1]. */
  predicate UnitValues(values: seq<real>) {
    forall k :: 0 <= k < |values| ==> 0.0 <= values[k] <= 1.0
  }

  /** Both hard-coded curves are non-decreasing with values in [0, 1], so both
      are monotone and map every input into [0, 1]. */
  lemma HardCodedCurves()
    ensures |RedCurve| == 11 && NonDecreasing(RedCurve) && UnitValues(RedCurve)
    ensures |GothamBlueCurve| == 17 && NonDecreasing(GothamBlueCurve) && UnitValues(GothamBlueCurve)
  {
  }

  /** The red curve maps every sample into [0, 1] and keeps the order of samples. */
  lemma RedCurveProperties(x: real, y: real)
    ensures 0.0 <= Curve(x, RedCurve) <= 1.0
    ensures x <= y ==> Curve(x, RedCurve) <= Curve(y, RedCurve)
  {
    HardCodedCurves();
    CurveBounded(x, RedCurve, 0.0, 1.0);
    if x <= y {
      CurveMonotone(x, y, RedCurve);
    }
  }

  /** Gotham's blue curve maps every sample into [0, 1] and keeps the order of samples. */
  lemma BlueCurveProperties(x: real, y: real)
    ensures 0.0 <= Curve(x, GothamBlueCurve) <= 1.0
    ensures x <= y ==> Curve(x, GothamBlueCurve) <= Curve(y, GothamBlueCurve)
  {
    HardCodedCurves();
    CurveBounded(x, GothamBlueCurve, 0.0, 1.0);
    if x <= y {
      CurveMonotone(x, y, GothamBlueCurve);
    }
  }

  /** Three points of the red curve: 0.3 goes down to 0.2, 0.5 stays, and 0.6
      goes up to 0.7. */
  lemma RedCurveContrast()
    ensures Curve(0.3, RedCurve) == 0.2
    ensures Curve(0.5, RedCurve) == 0.5
    ensures Curve(0.6, RedCurve) == 0.7
  {
    TenthPoint(RedCurve, 3, 0.3);
    TenthPoint(RedCurve, 5, 0.5);
    TenthPoint(RedCurve, 6, 0.6);
  }

  /** An eleven-point curve maps i / 10 to its i-th value. */
  lemma TenthPoint(values: seq<real>, i: nat, x: real)
    requires |values| == 11 && i < 11 && x * 10.0 == i as real
    ensures Curve(x, values) == values[i]
  {
    assert x == i as real / 10 as real;
    CurveAtBreakpoint(values, i);
  }

  /** `np.clip(b + c, 0, 1)` on one sample: the blue boost. The result lies in
      [0, 1] and a non-negative boost never lowers a sample that is at most 1. */
  function BoostSample(b: real, c: real): (r: real)
    ensures 0.0 <= r <= 1.0
    ensures c >= 0.0 && b <= 1.0 ==> b <= r
  {
    Clip(b + c, 0.0, 1.0)
  }

  /** The blue boost on a whole channel. */
  function Boost(b: Plane, c: real): (r: Plane)
    requires b.Valid()
    ensures r.Valid() && r.h == b.h && r.w == b.w
    ensures forall i, j :: 0 <= i < b.h && 0 <= j < b.w ==> r.s[i][j] == BoostSample(b.s[i][j], c)
  {
    Plane(b.h, b.w,
      seq(b.h, i requires 0 <= i < b.h =>
        seq(b.w, j requires 0 <= j < b.w => BoostSample(b.s[i][j], c))))
  }

  /** The stage before the blur: red through the curve `values`, green as it
      is, and the given blue plane, stacked into a three-channel image. */
  function ToneMerge(img: Image, values: seq<real>, blue: Plane): (merged: Image)
    requires img.Valid() && img.c >= 3 && |values| >= 1
    requires blue.Valid() && blue.h == img.h && blue.w == img.w
    ensures merged.Valid() && merged.h == img.h && merged.w == img.w && merged.c == 3
    ensures forall i, j :: 0 <= i < img.h && 0 <= j < img.w ==>
      && merged.px[i][j][0] == Curve(img.px[i][j][0], values)
      && merged.px[i][j][1] == img.px[i][j][1]
      && merged.px[i][j][2] == blue.s[i][j]
  {
    var planes := [ChannelAdjust(ChannelOf(img, 0), values), ChannelOf(img, 1), blue];
    assert AllShaped(planes, img.h, img.w);
    FromPlanes(planes, img.h, img.w)
  }

  /** Gotham's and Riverdale's pre-blur image: red through the curve, green as it
      is, blue boosted by `c` and clipped. */
  function BoostedMerge(img: Image, c: real): (merged: Image)
    requires img.Valid() && img.c >= 3
    ensures merged.Valid() && merged.h == img.h && merged.w == img.w && merged.c == 3
    ensures forall i, j :: 0 <= i < img.h && 0 <= j < img.w ==>
      && merged.px[i][j][0] == Curve(img.px[i][j][0], RedCurve)
      && merged.px[i][j][1] == img.px[i][j][1]
      && merged.px[i][j][2] == BoostSample(img.px[i][j][2], c)
  {
    ToneMerge(img, RedCurve, Boost(ChannelOf(img, 2), c))
  }

  /** For an input in [0, 1], the pre-blur images of Gotham (c = 0.03) and
      Riverdale (c = 0.2) lie in [0, 1], and their blue is never below the
      input's blue. */
  lemma BoostedMergeProperties(img: Image, c: real)
    requires img.Valid() && img.c >= 3 && InUnit(img) && c >= 0.0
    ensures InUnit(BoostedMerge(img, c))
    ensures forall i, j :: 0 <= i < img.h && 0 <= j < img.w ==>
      img.px[i][j][2] <= BoostedMerge(img, c).px[i][j][2]
  {
    var merged := BoostedMerge(img, c);
    forall i, j | 0 <= i < img.h && 0 <= j < img.w
      ensures 0.0 <= merged.px[i][j][0] <= 1.0
      ensures 0.0 <= merged.px[i][j][1] <= 1.0
      ensures 0.0 <= merged.px[i][j][2] <= 1.0
      ensures img.px[i][j][2] <= merged.px[i][j][2]
    {
      assert 0.0 <= img.px[i][j][1] <= 1.0 && img.px[i][j][2] <= 1.0;
      BoostedMergeAt(img, c, i, j);
    }
    InUnitThree(merged);
  }

  /** One pixel of the pre-blur image lies in [0, 1], and its blue is not below
      the input's. */
  lemma BoostedMergeAt(img: Image, c: real, i: nat, j: nat)
    requires img.Valid() && img.c >= 3 && c >= 0.0 && i < img.h && j < img.w
    requires 0.0 <= img.px[i][j][1] <= 1.0 && img.px[i][j][2] <= 1.0
    ensures 0.0 <= BoostedMerge(img, c).px[i][j][0] <= 1.0
    ensures 0.0 <= BoostedMerge(img, c).px[i][j][1] <= 1.0
    ensures 0.0 <= BoostedMerge(img, c).px[i][j][2] <= 1.0
    ensures img.px[i][j][2] <= BoostedMerge(img, c).px[i][j][2]
  {
    RedCurveProperties(img.px[i][j][0], img.px[i][j][0]);
  }

  /** Gotham's blend before its blue curve: red curve, blue + 0.03, blur at
      0.001, then the sharpening blend `clip(merged * 1.3 - blurred * 0.3, 0, 1)`. */
  function GothamBlend(img: Image, conv: Conv): (final: Image)
    requires img.Valid() && img.c >= 3 && img.h >= 1 && img.w >= 1
    ensures final.Valid() && final.h == img.h && final.w == img.w && final.c == 3
    ensures InUnit(final)
  {
    var merged := BoostedMerge(img, 0.03);
    ClippedBlend(merged, GaussianFilter(merged, 0.001, conv), 1.3, -0.3)
  }

  /** `GothamFilter.apply_filter`: the blend above with its blue channel passed
      through `GothamBlueCurve`; red and green are the blend's own. */
  function Gotham(img: Image, conv: Conv): (r: Image)
    requires img.Valid() && img.c >= 3 && img.h >= 1 && img.w >= 1
    ensures r.Valid() && r.h == img.h && r.w == img.w && r.c == 3
    ensures forall i, j :: 0 <= i < img.h && 0 <= j < img.w ==>
      && r.px[i][j][0] == GothamBlend(img, conv).px[i][j][0]
      && r.px[i][j][1] == GothamBlend(img, conv).px[i][j][1]
      && r.px[i][j][2] == Curve(GothamBlend(img, conv).px[i][j][2], GothamBlueCurve)
  {
    var final := GothamBlend(img, conv);
    SetChannel(final, 2, ChannelAdjust(ChannelOf(final, 2), GothamBlueCurve))
  }

  /** Every sample of Gotham's output lies in [0, 1], for any input and any blur:
      red and green come from the clipped blend, blue from a curve whose values
      lie in [0, 1]. */
  lemma GothamInUnit(img: Image, conv: Conv)
    requires img.Valid() && img.c >= 3 && img.h >= 1 && img.w >= 1
    ensures InUnit(Gotham(img, conv))
  {
    BlueCurvedInUnit(GothamBlend(img, conv), Gotham(img, conv));
  }

  /** An image in [0, 1] with its blue passed through Gotham's blue curve, red
      and green kept, is still in [0, 1]. */
  lemma BlueCurvedInUnit(final: Image, r: Image)
    requires final.Valid() && final.c == 3 && InUnit(final)
    requires r.Valid() && r.h == final.h && r.w == final.w && r.c == 3
    requires forall i, j :: 0 <= i < final.h && 0 <= j < final.w ==>
      && r.px[i][j][0] == final.px[i][j][0]
      && r.px[i][j][1] == final.px[i][j][1]
      && r.px[i][j][2] == Curve(final.px[i][j][2], GothamBlueCurve)
    ensures InUnit(r)
  {
    forall i: nat, j: nat | i < r.h && j < r.w
      ensures PixelInUnit(r, i, j)
    {
      assert 0.0 <= final.px[i][j][0] <= 1.0 && 0.0 <= final.px[i][j][1] <= 1.0;
      BlueCurveProperties(final.px[i][j][2], final.px[i][j][2]);
    }
    InUnitThree(r);
  }

  /** One pixel of Gotham's output lies in [0, 1]. */
  lemma GothamAt(img: Image, conv: Conv, i: nat, j: nat)
    requires img.Valid() && img.c >= 3 && img.h >= 1 && img.w >= 1
    requires i < img.h && j < img.w
    ensures 0.0 <= Gotham(img, conv).px[i][j][0] <= 1.0
    ensures 0.0 <= Gotham(img, conv).px[i][j][1] <= 1.0
    ensures 0.0 <= Gotham(img, conv).px[i][j][2] <= 1.0
    ensures PixelInUnit(Gotham(img, conv), i, j)
  {
    var final := GothamBlend(img, conv);
    assert 0.0 <= final.px[i][j][0] <= 1.0 && 0.0 <= final.px[i][j][1] <= 1.0;
    BlueCurveProperties(final.px[i][j][2], final.px[i][j][2]);
  }

  /** The blend of Riverdale, Random and Grayscale: `clip(merged + blurred * 0.3, 0, 1)`. */
  function SoftBlend(merged: Image, blurred: Image): (r: Image)
    requires merged.Valid() && blurred.Valid()
    requires merged.h == blurred.h && merged.w == blurred.w && merged.c == blurred.c
    ensures r.Valid() && r.h == merged.h && r.w == merged.w && r.c == merged.c
    ensures InUnit(r)
  {
    ClippedBlend(merged, blurred, 1.0, 0.3)
  }

  /** `RiverdaleFilter.apply_filter`: red curve, blue + 0.2, blur at 0.1, soft
      blend. The result is H x W x 3 with every sample in [0, 1]. */
  function Riverdale(img: Image, conv: Conv): (r: Image)
    requires img.Valid() && img.c >= 3 && img.h >= 1 && img.w >= 1
    ensures r.Valid() && r.h == img.h && r.w == img.w && r.c == 3
    ensures InUnit(r)
  {
    var merged := BoostedMerge(img, 0.2);
    SoftBlend(merged, GaussianFilter(merged, 0.1, conv))
  }

  /** Random's pre-blur image: rows 100 onward, red through the curve, green and
      blue exactly as they were (no blue boost). */
  function RandomMerge(img: Image): (merged: Image)
    requires img.Valid() && img.c >= 3
    ensures merged.Valid() && merged.w == img.w && merged.c == 3
    ensures merged.h == if img.h > 100 then img.h - 100 else 0
    ensures forall i, j :: 0 <= i < merged.h && 0 <= j < img.w ==>
      && merged.px[i][j][0] == Curve(img.px[100 + i][j][0], RedCurve)
      && merged.px[i][j][1] == img.px[100 + i][j][1]
      && merged.px[i][j][2] == img.px[100 + i][j][2]
  {
    var rows := RowsFrom(img, 100);
    ToneMerge(rows, RedCurve, ChannelOf(rows, 2))
  }

  /** `RandomFilter.apply_filter`: Riverdale without the blue boost, on rows 100
      onward only; the first 100 rows are dropped from the result. The blur needs a
      non-empty image, so the input needs more than 100 rows. The result has
      H - 100 rows and every sample in [0, 1]. */
  function Random(img: Image, conv: Conv): (r: Image)
    requires img.Valid() && img.c >= 3 && img.h > 100 && img.w >= 1
    ensures r.Valid() && r.h == img.h - 100 && r.w == img.w && r.c == 3
    ensures InUnit(r)
  {
    var merged := RandomMerge(img);
    SoftBlend(merged, GaussianFilter(merged, 0.1, conv))
  }

  /** `GrayscaleFilter.apply_filter`: the gray plane stacked three times, blurred at
      0.1, soft blend. The result is H x W x 3 with every sample in [0, 1]. */
  function Grayscale(img: Image, conv: Conv): (r: Image)
    requires img.Valid() && img.c >= 3 && img.h >= 1 && img.w >= 1
    ensures r.Valid() && r.h == img.h && r.w == img.w && r.c == 3
    ensures InUnit(r)
  {
    var gray := Rgb2Gray(img);
    var merged := Stack([gray, gray, gray]);
    SoftBlend(merged, GaussianFilter(merged, 0.1, conv))
  }

  /** Grayscale's three output channels are identical: the stacked image repeats
      one gray plane, and the blur treats equal channels alike. */
  lemma GrayscaleChannelsEqual(img: Image, conv: Conv)
    requires img.Valid() && img.c >= 3 && img.h >= 1 && img.w >= 1
    ensures forall i, j :: 0 <= i < img.h && 0 <= j < img.w ==>
      Grayscale(img, conv).px[i][j][0] == Grayscale(img, conv).px[i][j][1] == Grayscale(img, conv).px[i][j][2]
  {
    var gray := Rgb2Gray(img);
    var planes := [gray, gray, gray];
    var merged := Stack(planes);
    var blurred := GaussianFilter(merged, 0.1, conv);
    forall k | 0 <= k < 3
      ensures ChannelOf(blurred, k) == BlurPlane(gray, 0.1, conv)
    {
      FromPlanesChannel(planes, gray.h, gray.w, k);
    }
    forall i, j | 0 <= i < img.h && 0 <= j < img.w
      ensures blurred.px[i][j][0] == blurred.px[i][j][1] == blurred.px[i][j][2]
    {
      assert ChannelOf(blurred, 0).s[i][j] == ChannelOf(blurred, 1).s[i][j] == ChannelOf(blurred, 2).s[i][j];
    }
  }

  /** `BlurFilter.apply_filter(img, amount)`: the blur at intensity 1 / amount, with
      no clip. Python's division refuses amount 0. The result keeps the input's
      height, width and channel count. */
  function Blur(img: Image, amount: real, conv: Conv): (r: Image)
    requires img.Valid() && img.h >= 1 && img.w >= 1 && amount != 0.0
    ensures r.Valid() && r.h == img.h && r.w == img.w && r.c == img.c
    ensures forall k :: 0 <= k < img.c ==>
      ChannelOf(r, k) == BlurPlane(ChannelOf(img, k), 1.0 / amount, conv)
  {
    GaussianFilter(img, 1.0 / amount, conv)
  }
}
