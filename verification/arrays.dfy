/**
 The array layer the filters are written against: a single colour plane
 (a 2-D array of samples), a multi-channel image laid out height x width x
 channels as numpy lays out an RGB array, and the handful of numpy
 operations the filters use on them: flatten/reshape, channel selection,
 stacking along the channel axis, row slicing, channel assignment, clipping
 and elementwise arithmetic. Samples are reals standing in for float64.
 */
module Arrays {

  /** A 2-D array `s[row][column]` of `h` rows and `w` columns. */
  datatype Plane = Plane(h: nat, w: nat, s: seq<seq<real>>) {
    predicate Valid() {
      |s| == h && forall i :: 0 <= i < h ==> |s[i]| == w
    }
  }

  /** An `h` x `w` x `c` array `px[row][column][channel]`. */
  datatype Image = Image(h: nat, w: nat, c: nat, px: seq<seq<seq<real>>>) {
    predicate Valid() {
      && |px| == h
      && (forall i :: 0 <= i < h ==> |px[i]| == w)
      && (forall i, j :: 0 <= i < h && 0 <= j < w ==> |px[i][j]| == c)
    }
  }

  /** Every sample of the image lies in [0, 1]. */
  predicate InUnit(img: Image)
    requires img.Valid()
  {
    forall i, j, k :: 0 <= i < img.h && 0 <= j < img.w && 0 <= k < img.c ==>
      0.0 <= img.px[i][j][k] <= 1.0
  }

  /** The first three samples of pixel (i, j) lie in [0, 1]. */
  predicate PixelInUnit(img: Image, i: nat, j: nat)
    requires img.Valid() && img.c >= 3 && i < img.h && j < img.w
  {
    && 0.0 <= img.px[i][j][0] <= 1.0
    && 0.0 <= img.px[i][j][1] <= 1.0
    && 0.0 <= img.px[i][j][2] <= 1.0
  }

  /** A three-channel image is in [0, 1] when each of its pixels is. */
  lemma InUnitThree(img: Image)
    requires img.Valid() && img.c == 3
    requires forall i: nat, j: nat :: i < img.h && j < img.w ==> PixelInUnit(img, i, j)
    ensures InUnit(img)
  {
    forall i, j, k | 0 <= i < img.h && 0 <= j < img.w && 0 <= k < img.c
      ensures 0.0 <= img.px[i][j][k] <= 1.0
    {
      assert PixelInUnit(img, i, j);
      assert k == 0 || k == 1 || k == 2;
    }
  }

  /** Two valid planes of the same shape with the same samples are the same plane. */
  lemma PlaneExt(p: Plane, q: Plane)
    requires p.Valid() && q.Valid() && p.h == q.h && p.w == q.w
    requires forall i, j :: 0 <= i < p.h && 0 <= j < p.w ==> p.s[i][j] == q.s[i][j]
    ensures p == q
  {
    forall i | 0 <= i < p.h
      ensures p.s[i] == q.s[i]
    {
    }
  }

  // ---------------------------------------------------------------------
  // flatten / reshape

  /** `p.flatten()`: the rows of `p` one after another (row-major order). */
  function Flatten(p: Plane): (r: seq<real>)
    requires p.Valid()
    ensures |r| == p.h * p.w
    decreases p.h
  {
    if p.h == 0 then []
    else
      RowStart(p.h, p.w);
      p.s[0] + Flatten(Plane(p.h - 1, p.w, p.s[1..]))
  }

  /** Row `i` starts `w` samples later than row `i - 1`. */
  lemma RowStart(i: int, w: int)
    ensures i * w == (i - 1) * w + w
  {
  }

  /** Sample (i, j) of `p` sits at index `i * w + j` of the flattened plane. */
  lemma {:induction false} FlattenAt(p: Plane, i: nat, j: nat)
    requires p.Valid() && i < p.h && j < p.w
    ensures i * p.w + j < |Flatten(p)|
    ensures Flatten(p)[i * p.w + j] == p.s[i][j]
    decreases i
  {
    RowStart(p.h, p.w);
    var tail := Plane(p.h - 1, p.w, p.s[1..]);
    if i > 0 {
      FlattenAt(tail, i - 1, j);
      RowStart(i, p.w);
      assert Flatten(tail)[(i - 1) * p.w + j] == p.s[i][j];
    }
  }

  /** `flat.reshape(h, w)`: cuts a sequence of `h * w` samples into `h` rows of `w`. */
  function Reshape(flat: seq<real>, h: nat, w: nat): (p: Plane)
    requires |flat| == h * w
    ensures p.Valid() && p.h == h && p.w == w
    decreases h
  {
    if h == 0 then Plane(0, w, [])
    else
      RowStart(h, w);
      var rest := Reshape(flat[w..], h - 1, w);
      Plane(h, w, [flat[..w]] + rest.s)
  }

  /** Row `i`, column `j` of the reshaped plane is sample `i * w + j` of `flat`. */
  lemma {:induction false} ReshapeAt(flat: seq<real>, h: nat, w: nat, i: nat, j: nat)
    requires |flat| == h * w && i < h && j < w
    ensures i * w + j < |flat|
    ensures Reshape(flat, h, w).s[i][j] == flat[i * w + j]
    decreases i
  {
    RowStart(h, w);
    if i > 0 {
      ReshapeAt(flat[w..], h - 1, w, i - 1, j);
      RowStart(i, w);
    }
  }

  /** Reshaping a flattened plane to its own shape gives the plane back. */
  lemma ReshapeFlatten(p: Plane)
    requires p.Valid()
    ensures Reshape(Flatten(p), p.h, p.w) == p
  {
    var q := Reshape(Flatten(p), p.h, p.w);
    forall i, j | 0 <= i < p.h && 0 <= j < p.w
      ensures q.s[i][j] == p.s[i][j]
    {
      FlattenAt(p, i, j);
      ReshapeAt(Flatten(p), p.h, p.w, i, j);
    }
    PlaneExt(q, p);
  }

  /** Flattening a reshaped sequence gives the sequence back. */
  lemma FlattenReshape(flat: seq<real>, h: nat, w: nat)
    requires |flat| == h * w
    ensures Flatten(Reshape(flat, h, w)) == flat
  {
    var p := Reshape(flat, h, w);
    var r := Flatten(p);
    forall n | 0 <= n < |flat|
      ensures r[n] == flat[n]
    {
      var i, j := n / w, n % w;
      assert n == i * w + j;
      if i >= h {
        MulMono(h, i, w);
      }
      FlattenAt(p, i, j);
      ReshapeAt(flat, h, w, i, j);
    }
  }

  /** Multiplying by a natural number keeps the order of naturals. */
  lemma MulMono(a: nat, b: nat, w: nat)
    requires a <= b
    ensures a * w <= b * w
  {
  }

  /** Applies `f` to every element: the elementwise step of a numpy ufunc. */
  function MapSeq(xs: seq<real>, f: real -> real): (r: seq<real>)
    ensures |r| == |xs|
    ensures forall n :: 0 <= n < |xs| ==> r[n] == f(xs[n])
  {
    seq(|xs|, n requires 0 <= n < |xs| => f(xs[n]))
  }

  /** Mapping `f` over the flattened plane puts `f` of sample (i, j) at index i * w + j. */
  lemma MapFlattenAt(p: Plane, f: real -> real, i: nat, j: nat, n: nat)
    requires p.Valid() && i < p.h && j < p.w && n == i * p.w + j
    ensures n < |MapSeq(Flatten(p), f)|
    ensures MapSeq(Flatten(p), f)[n] == f(p.s[i][j])
  {
    FlattenAt(p, i, j);
  }

  /** `f` applied to every sample the way numpy does it for an arbitrary-shaped
      array: flatten, map, reshape to the original shape. Each output sample is
      `f` of the input sample at the same position. */
  function MapFlat(p: Plane, f: real -> real): (r: Plane)
    requires p.Valid()
    ensures r.Valid() && r.h == p.h && r.w == p.w
    ensures forall i, j :: 0 <= i < p.h && 0 <= j < p.w ==> r.s[i][j] == f(p.s[i][j])
  {
    var mapped := MapSeq(Flatten(p), f);
    var r := Reshape(mapped, p.h, p.w);
    assert forall i, j :: 0 <= i < p.h && 0 <= j < p.w ==> r.s[i][j] == f(p.s[i][j]) by {
      forall i, j | 0 <= i < p.h && 0 <= j < p.w
        ensures r.s[i][j] == f(p.s[i][j])
      {
        MapFlattenAt(p, f, i, j, i * p.w + j);
        ReshapeAt(mapped, p.h, p.w, i, j);
      }
    }
    r
  }

  // ---------------------------------------------------------------------
  // channels

  /** `img[:, :, k]`: the plane of channel `k`. */
  function ChannelOf(img: Image, k: nat): (p: Plane)
    requires img.Valid() && k < img.c
    ensures p.Valid() && p.h == img.h && p.w == img.w
    ensures forall i, j :: 0 <= i < img.h && 0 <= j < img.w ==> p.s[i][j] == img.px[i][j][k]
  {
    Plane(img.h, img.w,
      seq(img.h, i requires 0 <= i < img.h =>
        seq(img.w, j requires 0 <= j < img.w => img.px[i][j][k])))
  }

  /** Every plane is valid and `h` x `w`. */
  predicate AllShaped(planes: seq<Plane>, h: nat, w: nat)
  {
    forall k :: 0 <= k < |planes| ==> planes[k].Valid() && planes[k].h == h && planes[k].w == w
  }

  /** The `h` x `w` image whose channel `k` is `planes[k]`. */
  function FromPlanes(planes: seq<Plane>, h: nat, w: nat): (r: Image)
    requires AllShaped(planes, h, w)
    ensures r.Valid() && r.h == h && r.w == w && r.c == |planes|
    ensures forall i, j, k :: 0 <= i < h && 0 <= j < w && 0 <= k < |planes| ==>
      r.px[i][j][k] == planes[k].s[i][j]
  {
    Image(h, w, |planes|,
      seq(h, i requires 0 <= i < h =>
        seq(w, j requires 0 <= j < w =>
          seq(|planes|, k requires 0 <= k < |planes| => planes[k].s[i][j]))))
  }

  /** Selecting channel `k` of the image built from `planes` gives `planes[k]` back. */
  lemma FromPlanesChannel(planes: seq<Plane>, h: nat, w: nat, k: nat)
    requires AllShaped(planes, h, w) && k < |planes|
    ensures ChannelOf(FromPlanes(planes, h, w), k) == planes[k]
  {
    PlaneExt(ChannelOf(FromPlanes(planes, h, w), k), planes[k]);
  }

  /** `np.stack(planes, axis=2)`: needs at least one plane, all of one shape; the
      new image's channel `k` is `planes[k]`. */
  function Stack(planes: seq<Plane>): (r: Image)
    requires |planes| >= 1 && AllShaped(planes, planes[0].h, planes[0].w)
    ensures r.Valid() && r.h == planes[0].h && r.w == planes[0].w && r.c == |planes|
    ensures forall i, j, k :: 0 <= i < r.h && 0 <= j < r.w && 0 <= k < |planes| ==>
      r.px[i][j][k] == planes[k].s[i][j]
  {
    FromPlanes(planes, planes[0].h, planes[0].w)
  }

  /** `img[n:]`: the rows from index `n` on; empty when `n` is past the end. */
  function RowsFrom(img: Image, n: nat): (r: Image)
    requires img.Valid()
    ensures r.Valid() && r.w == img.w && r.c == img.c
    ensures r.h == if n < img.h then img.h - n else 0
    ensures forall i :: 0 <= i < r.h ==> r.px[i] == img.px[n + i]
  {
    if n < img.h then Image(img.h - n, img.w, img.c, img.px[n..])
    else Image(0, img.w, img.c, [])
  }

  /** `img[:, :, k] = p` on a copy: channel `k` replaced by `p`, every other
      sample kept. */
  function SetChannel(img: Image, k: nat, p: Plane): (r: Image)
    requires img.Valid() && k < img.c
    requires p.Valid() && p.h == img.h && p.w == img.w
    ensures r.Valid() && r.h == img.h && r.w == img.w && r.c == img.c
    ensures forall i, j :: 0 <= i < img.h && 0 <= j < img.w ==> r.px[i][j][k] == p.s[i][j]
    ensures forall i, j, k' :: 0 <= i < img.h && 0 <= j < img.w && 0 <= k' < img.c && k' != k ==>
      r.px[i][j][k'] == img.px[i][j][k']
  {
    Image(img.h, img.w, img.c,
      seq(img.h, i requires 0 <= i < img.h =>
        seq(img.w, j requires 0 <= j < img.w =>
          img.px[i][j][k := p.s[i][j]])))
  }

  // ---------------------------------------------------------------------
  // elementwise arithmetic

  /** `np.clip(x, lo, hi)`: the lower bound applied first, then the upper one. */
  function Clip(x: real, lo: real, hi: real): (r: real)
    ensures lo <= hi ==> lo <= r <= hi
    ensures lo <= x <= hi ==> r == x
    ensures x <= lo ==> r == (if lo <= hi then lo else hi)
    ensures hi <= x ==> r == hi
  {
    var m := if x < lo then lo else x;
    if m > hi then hi else m
  }

  /** `np.clip(x * wa + y * wb, 0, 1)` on one pair of samples. */
  function Mix(x: real, y: real, wa: real, wb: real): (r: real)
    ensures 0.0 <= r <= 1.0
  {
    Clip(x * wa + y * wb, 0.0, 1.0)
  }

  /** `np.clip(a * wa + b * wb, 0, 1)` for two images of one shape: every sample of
      the result lies in [0, 1]. */
  function ClippedBlend(a: Image, b: Image, wa: real, wb: real): (r: Image)
    requires a.Valid() && b.Valid() && a.h == b.h && a.w == b.w && a.c == b.c
    ensures r.Valid() && r.h == a.h && r.w == a.w && r.c == a.c
    ensures InUnit(r)
    ensures forall i, j, k :: 0 <= i < a.h && 0 <= j < a.w && 0 <= k < a.c ==>
      r.px[i][j][k] == Mix(a.px[i][j][k], b.px[i][j][k], wa, wb)
  {
    Image(a.h, a.w, a.c,
      seq(a.h, i requires 0 <= i < a.h =>
        seq(a.w, j requires 0 <= j < a.w =>
          seq(a.c, k requires 0 <= k < a.c => Mix(a.px[i][j][k], b.px[i][j][k], wa, wb)))))
  }
}
