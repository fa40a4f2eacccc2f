# Instagram-style image filters, modelled in Dafny

This project models the filter engine of a small photo-filter application:
the `Filter` base class with its "curves" helper `channel_adjust`, the
Gotham, Riverdale, Random, Grayscale, Blur and Multiple filters, and the
helpers `rgb2gray` and `gaussian_filter` they call.

An image is an H x W x C array of samples. It is modelled as
`Arrays.Image(h, w, c, px)` with `px[i][j][k]`, numpy's layout. A single
channel is an `Arrays.Plane(h, w, s)`. Samples are `real`s.

The model is split into five modules:

- `Arrays` (arrays.dfy): the numpy operations the filters use. These are
  flatten and reshape, channel selection, `np.stack`, row slicing, channel
  assignment, `np.clip` and the clipped linear blend.
- `Curves` (curves.dfy): `np.linspace(0, 1, N)`, a general `np.interp` over
  strictly increasing breakpoints, and `channel_adjust`.
- `Utils` (utils.dfy): `rgb2gray` and the blur.
  - The blur is a parameter `conv` that gives the value at (i, j) of one
    blurred plane, for an intensity.
  - `gaussian_filter` applies that one operation to every channel. This is
    what its FFT body does: it multiplies every channel's spectrum by one
    kernel spectrum.
  - Every filter property below holds for every such blur.
- `Filters` (filters.dfy): the `apply_filter` pipelines of the five fixed
  filters.
- `Dispatch` (dispatch.dfy): calling `apply_filter` on a filter class, and
  `MultipleFilter`.
  - The Python exceptions those calls can raise are modelled as a `Result`.
    They are: the `NotImplementedError` of `Filter.apply_filter` itself,
    indexing channel 2 of an image with fewer than three channels,
    numpy's FFT on an empty axis, `1 / 0`, a missing or non-numeric blur
    amount, and calling something that is not a class.

The model is functional: every operation returns a new value. So no filter
changes its input image; in `Filter.py` too, each filter builds new arrays and
only assigns into its own `final`.

Images with an empty axis are errors, not empty results:

- `RandomFilter` keeps `img[100:]` (Filter.py:85-86), which is empty when the
  image has at most 100 rows. `gaussian_filter` then calls
  `np.fft.fftn(kernel, s=img.shape[:2])` (utils.py:65) with a length of 0,
  which raises `ValueError`.
- So `Dispatch.Apply` gives `EmptyFftAxis` there, and `Filters.Random`
  requires H > 100.
- The same holds when the image has no rows or no columns, for Gotham,
  Riverdale and Grayscale on an image with at least three channels, and for
  Blur once its amount is accepted. `MultipleFilter` fails the same way as
  soon as it runs one of them. With no filter classes it returns such an
  image unchanged.

## Model

| member | source | states |
|---|---|---|
| Arrays.ReshapeFlatten | Filter.py:15-19 | Reshaping a flattened channel to its original shape gives the channel back. |
| Arrays.FlattenReshape | Filter.py:16-19 | Flattening a reshaped sequence gives the sequence back, so flatten and reshape are inverse. |
| Arrays.Flatten | Filter.py:16 | `channel.flatten()` of an H x W channel has H * W samples; FlattenAt places each one and ReshapeFlatten undoes it. |
| Arrays.Reshape | Filter.py:19 | `adjusted.reshape(orig_size)` of H * W samples is a well-formed H x W channel; ReshapeAt places each sample and FlattenReshape undoes it. |
| Arrays.FlattenAt | Filter.py:16 | Row-major order: sample (i, j) of a channel sits at position i * W + j of the flattened channel. |
| Arrays.ReshapeAt | Filter.py:19 | Reshape puts position i * W + j of the flat sequence at (i, j). |
| Arrays.MapFlat | Filter.py:15-19 | Flatten, map every element, reshape: the result has the channel's shape, and each sample is the function of the input sample at the same position. |
| Arrays.ChannelOf | Filter.py:39-40 | `img[:, :, k]` is an H x W plane holding channel k of every pixel. |
| Arrays.FromPlanesChannel | Filter.py:46 | Taking channel k of the stacked image gives back the k-th stacked plane. |
| Arrays.Stack | Filter.py:46 | `np.stack(..., axis=2)` of equally shaped planes is an H x W x N image whose channel k at (i, j) is plane k at (i, j). |
| Arrays.RowsFrom | Filter.py:85-86 | `img[100:]` keeps rows 100 onward in order; it is empty, not an error, when the image has at most 100 rows. |
| Arrays.SetChannel | Filter.py:61 | `final[:, :, 2] = b_adjusted` replaces channel 2 and leaves every other sample unchanged. |
| Arrays.Clip | Filter.py:45 | `np.clip` lands in [lo, hi], leaves values inside the range alone, and sends values below or above to the nearer bound. |
| Arrays.Mix | Filter.py:53 | A clipped weighted sum of two samples lies in [0, 1]. |
| Arrays.ClippedBlend | Filter.py:53 | The clipped blend of two images of one shape keeps that shape and has every sample in [0, 1]. |
| Curves.Linspace | Filter.py:17 | `np.linspace(0, 1, N)` has N strictly increasing points, from 0 to 1, with point i equal to i / (N - 1). |
| Curves.Segment | Filter.py:17 | numpy's slope formula on one segment gives the left end value at the left breakpoint, and is constant when both end values agree. |
| Curves.Interp | Filter.py:17 | `np.interp` never leaves the range [min(values), max(values)]. |
| Curves.SegmentBetween | Filter.py:17 | On one segment the interpolated value lies between the two end values and meets them at the ends. |
| Curves.InterpClampLow | Filter.py:17 | At or below the first breakpoint np.interp returns the first value. |
| Curves.InterpClampHigh | Filter.py:17 | At or above the last breakpoint np.interp returns the last value. |
| Curves.InterpOnSegment | Filter.py:17 | Between two neighbouring breakpoints np.interp is the straight line through their two points. |
| Curves.InterpAtBreakpoint | Filter.py:17 | np.interp maps every breakpoint to its own value. |
| Curves.InterpMonotone | Filter.py:17 | With non-decreasing values np.interp is monotone. |
| Curves.Curve | Filter.py:17 | One sample through `np.interp` against `np.linspace(0, 1, N)` never leaves [min(values), max(values)], and a one-point curve is constant. |
| Curves.CurveAtBreakpoint | Filter.py:17 | The curve maps breakpoint i / (N - 1) to `values[i]`. |
| Curves.CurveClamps | Filter.py:17 | Inputs at or below 0 give `values[0]` and inputs at or above 1 give the last value: no extrapolation. |
| Curves.CurveLinear | Filter.py:17 | Between breakpoints i / (N - 1) and (i + 1) / (N - 1) the curve is the linear blend of `values[i]` and `values[i + 1]` with weight x * (N - 1) - i. |
| Curves.EvenSegment | Filter.py:17 | numpy's slope formula on an evenly spaced segment equals the blend of its end values. |
| Curves.CurveIdentity | Filter.py:17 | The two-point curve [0, 1] is the identity on [0, 1] and clips everything else into [0, 1]. |
| Curves.CurveMonotone | Filter.py:17 | With non-decreasing values the curve is monotone. |
| Curves.CurveBounded | Filter.py:17 | If every curve value lies in [lo, hi], every output of the curve lies in [lo, hi]. |
| Curves.ChannelAdjust | Filter.py:14-19 | `channel_adjust` keeps the channel's shape, and each output sample is the curve applied to the input sample at the same position. |
| Curves.ChannelAdjustMonotone | Filter.py:14-19 | With non-decreasing values, `channel_adjust` keeps the sample-wise order of two channels. |
| Filters.HardCodedCurves | Filter.py:41-59 | Both hard-coded curves (11 and 17 points) are non-decreasing with every value in [0, 1]. |
| Filters.RedCurveProperties | Filter.py:41-44 | The red curve maps every input into [0, 1] and is monotone. |
| Filters.BlueCurveProperties | Filter.py:55-59 | Gotham's blue curve maps every input into [0, 1] and is monotone. |
| Filters.RedCurveContrast | Filter.py:41-44 | The red curve is a contrast curve: 0.3 goes down to 0.2, 0.5 stays 0.5, and 0.6 goes up to 0.7. |
| Filters.TenthPoint | Filter.py:17 | An eleven-point curve maps i / 10 to its i-th value. |
| Filters.BoostSample | Filter.py:45 | The blue boost `clip(b + c, 0, 1)` stays in [0, 1] and, for c >= 0, never lowers a sample b <= 1. |
| Filters.Boost | Filter.py:45 | The boost of a channel keeps its shape and boosts every sample. |
| Filters.ToneMerge | Filter.py:39-46 | The pre-blur stack is H x W x 3: red through the curve, green unchanged, and the given blue. |
| Filters.BoostedMerge | Filter.py:39-46 | Gotham's and Riverdale's pre-blur image: red curved, green unchanged, blue boosted by c. |
| Filters.BoostedMergeProperties | Filter.py:45-46 | For an input in [0, 1] the pre-blur image lies in [0, 1], and its blue is never below the input's blue. |
| Filters.BoostedMergeAt | Filter.py:45-46 | The same, for one pixel. |
| Filters.GothamBlend | Filter.py:51-53 | Gotham's sharpening blend is H x W x 3 with every sample in [0, 1], whatever the blur returns. |
| Filters.Gotham | Filter.py:38-62 | Gotham returns an H x W x 3 image: red and green of the blend, and blue equal to the blend's blue through the blue curve. |
| Filters.GothamInUnit | Filter.py:53-61 | Every sample of Gotham's output lies in [0, 1], for any input and any blur. |
| Filters.BlueCurvedInUnit | Filter.py:55-61 | Replacing the blue of an image in [0, 1] by its value through Gotham's blue curve, keeping red and green, leaves the image in [0, 1]. |
| Filters.GothamAt | Filter.py:53-61 | The same, for one pixel: its red, green and blue lie in [0, 1]. |
| Filters.SoftBlend | Filter.py:79 | `clip(merged + blurred * 0.3, 0, 1)` keeps the shape and lies in [0, 1]. |
| Filters.Riverdale | Filter.py:65-81 | Riverdale returns an H x W x 3 image with every sample in [0, 1]. |
| Filters.RandomMerge | Filter.py:84-92 | Random's pre-blur image is rows 100 onward: red curved, and green and blue exactly as in the input, so blue is not boosted. |
| Filters.Random | Filter.py:84-100 | Random returns (H - 100) x W x 3 with every sample in [0, 1]. |
| Filters.Grayscale | Filter.py:104-117 | Grayscale returns H x W x 3 with every sample in [0, 1]. |
| Filters.GrayscaleChannelsEqual | Filter.py:108-117 | Grayscale's three output channels are identical at every pixel. |
| Filters.Blur | Filter.py:120-123 | Blur keeps the input's shape and blurs every channel with the same operation at intensity 1 / amount. |
| Utils.Luma | utils.py:9 | The luminance of samples in [0, 1] lies in [0, 0.9999], and a neutral pixel (v, v, v) maps to 0.9999 * v. |
| Utils.LumaWeights | utils.py:9 | Pure red, green and blue have luminance 0.2989, 0.5870 and 0.1140. |
| Utils.LumaMonotone | utils.py:9 | Raising any of red, green or blue never lowers the luminance. |
| Utils.Rgb2Gray | utils.py:8-9 | `rgb2gray` drops the channel axis (H x W x C to H x W), and each gray sample is 0.2989 R + 0.5870 G + 0.1140 B exactly. |
| Utils.Rgb2GrayIgnoresAlpha | utils.py:9 | Only the first three channels are read: images that agree on them have the same gray plane. |
| Utils.Rgb2GrayMonotone | utils.py:9 | Brighter red, green or blue never gives a darker gray. |
| Utils.Rgb2GrayBounds | utils.py:9 | For an input in [0, 1] every gray sample lies in [0, 0.9999]. |
| Utils.BlurPlane | utils.py:69-71 | The blur of one plane keeps its shape. |
| Utils.GaussianFilter | utils.py:52-73 | The blur keeps height, width and channel count, and blurs every channel with the same operation. |
| Utils.GaussianFilterSameKernel | utils.py:61-69 | Equal input channels give equal output channels, because there is one kernel for all channels. |
| Dispatch.Apply | Filter.py:24-133 | Each filter succeeds exactly when its inputs allow it, and a success carries that filter's image. `Filter` itself raises NotImplementedError. The fixed filters need at least 3 channels (else IndexError) and then non-empty axes (else the FFT error); Random needs more than 100 rows. Blur needs a non-zero number as amount (a missing amount, a non-number or 0 raise), and then non-empty axes. Output shapes are as above. |
| Dispatch.Chain | Filter.py:126-133 | `MultipleFilter` succeeds only if every argument is a class. Its result is a well-formed image. |
| Dispatch.AndThen | Filter.py:129-131 | One more step of the loop keeps a failure and passes a success on. |
| Dispatch.MultipleEmpty | Filter.py:127-133 | `MultipleFilter` with no filters returns its input. |
| Dispatch.ChainIsFold | Filter.py:128-131 | `MultipleFilter` over a list of classes is the left fold of its filters over the image. |
| Dispatch.FoldFailure | Filter.py:129-131 | Once a step raises, no later filter runs. |
| Dispatch.ChainAppend | Filter.py:129-131 | Filtering with `xs + ys` is filtering with `xs`, then with `ys` on the result. |
| Dispatch.ChainSingle | Filter.py:129-131 | `MultipleFilter` with one class is that filter called with no arguments. |
| Dispatch.ChainPair | Filter.py:129-131 | `MultipleFilter` with [A, B] is B(A(img)), each called with no arguments. |
| Dispatch.ChainRejectsBlur | Filter.py:120-133 | A `BlurFilter` anywhere in `MultipleFilter`'s list makes the call fail, because it is called without `amount`. |
| Dispatch.ApplyClipped | Filter.py:38-117 | Whenever Gotham, Riverdale, Random or Grayscale succeed, every output sample lies in [0, 1]. |
| Dispatch.ApplyInUnit | Filter.py:38-133 | For an input in [0, 1], every filter other than Blur that succeeds returns an image in [0, 1]. |
| Dispatch.ChainInUnit | Filter.py:126-133 | For an input in [0, 1], `MultipleFilter` returns an image in [0, 1] whenever it succeeds. |
| Dispatch.Sepia | main_ui.py:103 | Sepia (`MultipleFilter` with Grayscale then Gotham) fails exactly on fewer than 3 channels or an empty axis. Otherwise it returns Gotham of Grayscale: H x W x 3, in [0, 1]. |

## Left out

- The Tkinter GUI (main_ui.py): window, buttons, dialogs, the temporary
  `.test2222.png` round trip, and the `filter_map` lookup from a button name to
  a class. This is user interface and file I/O. `Dispatch.Apply` takes the
  class itself.
- The body of `gaussian_filter` (utils.py:56-71): the sampled Gaussian, `np.exp`,
  `np.trapz` and the FFT and inverse FFT are floating-point library numerics.
  The blur is the parameter `conv`. Nothing is claimed about its values: not
  that it preserves a constant image, and not that its kernel sums to 1.
- Utils.GaussianFilter: states only shape and "one operation for every
  channel", not the values of the convolution, for the reason above.
- Filters.Blur: no range claim, because `BlurFilter` does not clip the blurred
  image.
- `fourier` and `plotFourier` (utils.py:14-31): FFT display code.
- `read_image_from_path` and `save_img_at_path` (utils.py:36-47): file and
  codec I/O.
- The assignments `b = final[:, :, 1]` (Filter.py:80) and
  `b = final[100:, :, 1]` (Filter.py:99): their results are never used.
- IEEE-754 rounding, NaN and infinities: samples are reals. A numpy float
  zero as blur amount would give `inf` rather than raise. The model treats the
  amount as a Python number, for which `1 / 0` raises.
- Two-dimensional images (an H x W array without a channel axis): the model's
  images always have a channel axis.
- Positional arguments other than numbers, filter classes and `None`.
