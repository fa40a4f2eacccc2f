/**
 The two helpers of `utils.py` the filters call: `rgb2gray`, the fixed
 weighted sum of the first three channels, and `gaussian_filter`, the blur.

 The blur's body (a sampled Gaussian bump, its outer product, and a product
 of FFT spectra) is floating-point library numerics and is not modelled.
 What the filters rely on is its shape: it convolves every channel with one
 kernel built from the intensity and the image's height and width, so the
 value it puts at (i, j) of channel k depends only on the intensity, the
 plane of channel k and the position. `Conv` is that per-plane operation,
 left as a parameter; every property proved here and in the filters holds
 for every choice of it.
 */
module Utils {
  import opened Arrays

  /** The luminance weights of red, green and blue. */
  const RedWeight: real := 0.2989
  const GreenWeight: real := 0.5870
  const BlueWeight: real := 0.1140

  /** The luminance of one pixel. For samples in [0, 1] it lies in [0, 0.9999],
      and a neutral pixel (v, v, v) has luminance 0.9999 * v. */
  function Luma(r: real, g: real, b: real): (y: real)
    ensures 0.0 <= r <= 1.0 && 0.0 <= g <= 1.0 && 0.0 <= b <= 1.0 ==> 0.0 <= y <= 0.9999
    ensures r == g == b ==> y == 0.9999 * r
  {
    RedWeight * r + GreenWeight * g + BlueWeight * b
  }

  /** The luminance of a pure red, green or blue pixel is that channel's weight. */
  lemma LumaWeights()
    ensures Luma(1.0, 0.0, 0.0) == 0.2989
    ensures Luma(0.0, 1.0, 0.0) == 0.5870
    ensures Luma(0.0, 0.0, 1.0) == 0.1140
  {
  }

  /** Raising any one of red, green or blue never lowers the luminance. */
  lemma LumaMonotone(r: real, g: real, b: real, r': real, g': real, b': real)
    requires r <= r' && g <= g' && b <= b'
    ensures Luma(r, g, b) <= Luma(r', g', b')
  {
  }

  /** `rgb2gray(rgb)`: `np.dot(rgb[..., :3], weights)`, dropping the channel axis.
      Only the first three channels are read. */
  function Rgb2Gray(img: Image): (gray: Plane)
    requires img.Valid() && img.c >= 3
    ensures gray.Valid() && gray.h == img.h && gray.w == img.w
    ensures forall i, j :: 0 <= i < img.h && 0 <= j < img.w ==>
      gray.s[i][j] == Luma(img.px[i][j][0], img.px[i][j][1], img.px[i][j][2])
  {
    Plane(img.h, img.w,
      seq(img.h, i requires 0 <= i < img.h =>
        seq(img.w, j requires 0 <= j < img.w =>
          Luma(img.px[i][j][0], img.px[i][j][1], img.px[i][j][2]))))
  }

  /** Two images that agree on red, green and blue have the same gray plane,
      whatever their further (alpha) channels hold. */
  lemma Rgb2GrayIgnoresAlpha(a: Image, b: Image)
    requires a.Valid() && b.Valid() && a.c >= 3 && b.c >= 3
    requires a.h == b.h && a.w == b.w
    requires forall k :: 0 <= k < 3 ==> ChannelOf(a, k) == ChannelOf(b, k)
    ensures Rgb2Gray(a) == Rgb2Gray(b)
  {
    forall i, j | 0 <= i < a.h && 0 <= j < a.w
      ensures Rgb2Gray(a).s[i][j] == Rgb2Gray(b).s[i][j]
    {
      assert ChannelOf(a, 0).s[i][j] == ChannelOf(b, 0).s[i][j];
      assert ChannelOf(a, 1).s[i][j] == ChannelOf(b, 1).s[i][j];
      assert ChannelOf(a, 2).s[i][j] == ChannelOf(b, 2).s[i][j];
    }
    PlaneExt(Rgb2Gray(a), Rgb2Gray(b));
  }

  /** Raising red, green or blue anywhere never lowers the gray plane there. */
  lemma Rgb2GrayMonotone(a: Image, b: Image)
    requires a.Valid() && b.Valid() && a.c >= 3 && b.c >= 3
    requires a.h == b.h && a.w == b.w
    requires forall i, j, k :: 0 <= i < a.h && 0 <= j < a.w && 0 <= k < 3 ==>
      a.px[i][j][k] <= b.px[i][j][k]
    ensures forall i, j :: 0 <= i < a.h && 0 <= j < a.w ==>
      Rgb2Gray(a).s[i][j] <= Rgb2Gray(b).s[i][j]
  {
    forall i, j | 0 <= i < a.h && 0 <= j < a.w
      ensures Rgb2Gray(a).s[i][j] <= Rgb2Gray(b).s[i][j]
    {
      LumaMonotone(a.px[i][j][0], a.px[i][j][1], a.px[i][j][2],
                   b.px[i][j][0], b.px[i][j][1], b.px[i][j][2]);
    }
  }

  /** For an image with samples in [0, 1], every gray sample lies in [0, 0.9999]. */
  lemma Rgb2GrayBounds(img: Image)
    requires img.Valid() && img.c >= 3 && InUnit(img)
    ensures forall i, j :: 0 <= i < img.h && 0 <= j < img.w ==>
      0.0 <= Rgb2Gray(img).s[i][j] <= 0.9999
  {
    forall i, j | 0 <= i < img.h && 0 <= j < img.w
      ensures 0.0 <= Rgb2Gray(img).s[i][j] <= 0.9999
    {
      assert 0.0 <= img.px[i][j][0] <= 1.0;
      assert 0.0 <= img.px[i][j][1] <= 1.0;
      assert 0.0 <= img.px[i][j][2] <= 1.0;
    }
  }

  /** The blur's operation on one plane: the value at (i, j) for a given intensity. */
  type Conv = (real, Plane, nat, nat) -> real

  /** One plane blurred by `conv`; it keeps the plane's shape. */
  function BlurPlane(p: Plane, intensity: real, conv: Conv): (q: Plane)
    requires p.Valid()
    ensures q.Valid() && q.h == p.h && q.w == p.w
  {
    Plane(p.h, p.w,
      seq(p.h, i requires 0 <= i < p.h =>
        seq(p.w, j requires 0 <= j < p.w => conv(intensity, p, i, j))))
  }

  /** `gaussian_filter(img, intensity)`: the same plane operation applied to every
      channel. numpy's FFT refuses an axis of length 0, so the image needs at least
      one row and one column. The result has the input's height, width and channel
      count, and channel k of the result is channel k of the input blurred. */
  function GaussianFilter(img: Image, intensity: real, conv: Conv): (r: Image)
    requires img.Valid() && img.h >= 1 && img.w >= 1
    ensures r.Valid() && r.h == img.h && r.w == img.w && r.c == img.c
    ensures forall k :: 0 <= k < img.c ==>
      ChannelOf(r, k) == BlurPlane(ChannelOf(img, k), intensity, conv)
  {
    var blurred := seq(img.c, k requires 0 <= k < img.c =>
      BlurPlane(ChannelOf(img, k), intensity, conv));
    var r := FromPlanes(blurred, img.h, img.w);
    assert forall k :: 0 <= k < img.c ==> ChannelOf(r, k) == blurred[k] by {
      forall k | 0 <= k < img.c
        ensures ChannelOf(r, k) == blurred[k]
      {
        FromPlanesChannel(blurred, img.h, img.w, k);
      }
    }
    r
  }

  /** Equal input channels give equal output channels: the blur uses one kernel
      for every channel, also across two images of one shape. */
  lemma GaussianFilterSameKernel(a: Image, b: Image, ka: nat, kb: nat, intensity: real, conv: Conv)
    requires a.Valid() && a.h >= 1 && a.w >= 1 && ka < a.c
    requires b.Valid() && b.h >= 1 && b.w >= 1 && kb < b.c
    requires ChannelOf(a, ka) == ChannelOf(b, kb)
    ensures ChannelOf(GaussianFilter(a, intensity, conv), ka) ==
            ChannelOf(GaussianFilter(b, intensity, conv), kb)
  {
  }
}
