/**
 Calling `apply_filter` on an instance of one of the filter classes, with the
 Python exceptions those calls can raise made explicit, and `MultipleFilter`,
 which instantiates each class it is given and threads the image through
 their `apply_filter` calls with no further arguments.
 */
module Dispatch {
  import opened Arrays
  import opened Utils
  import opened Filters

  /** `Filter` itself and its subclasses. */
  datatype FilterClass =
    | BaseFilter
    | GothamFilter
    | RiverdaleFilter
    | RandomFilter
    | GrayscaleFilter
    | BlurFilter
    | MultipleFilter

  /** A positional argument after the image: a number, a filter class, or `None`
      (what a cancelled number dialog yields). */
  datatype Arg = Number(x: real) | Class(cls: FilterClass) | NoneValue

  /** The exceptions a filter call can raise. */
  datatype Error =
    | NotImplemented      // `Filter.apply_filter`, which only raises
    | IndexOutOfRange     // `img[:, :, 2]` on an image with fewer than three channels
    | EmptyFftAxis        // numpy's FFT on an axis of length 0
    | ZeroDivision        // `1 / amount` with amount 0
    | MissingAmount       // `BlurFilter.apply_filter` called without `amount`
    | UnsupportedOperand  // `1 / amount` with a class or `None` as amount
    | NotCallable         // `custom_filter()` on something that is not a class

  datatype Result = Success(value: Image) | Failure(error: Error)

  /** The result is a failure or a well-formed image. */
  predicate WellFormed(r: Result) {
    r.Success? ==> r.value.Valid()
  }

  /** `cls().apply_filter(img, *args)`. The four fixed filters index channel 2
      before anything else, so fewer than three channels raise first; the blur
      then refuses an empty axis. Gotham, Riverdale and Grayscale return an
      H x W x 3 image, Random an (H - 100) x W x 3 image, Blur an image of the
      input's shape; each success carries that filter's image. */
  function Apply(f: FilterClass, img: Image, args: seq<Arg>, conv: Conv): (r: Result)
    requires img.Valid()
    ensures WellFormed(r)
    ensures f in {GothamFilter, RiverdaleFilter, GrayscaleFilter} ==>
      && (r.Success? <==> img.c >= 3 && img.h >= 1 && img.w >= 1)
      && (img.c < 3 ==> r == Failure(IndexOutOfRange))
      && (img.c >= 3 && (img.h == 0 || img.w == 0) ==> r == Failure(EmptyFftAxis))
      && (r.Success? ==> r.value.h == img.h && r.value.w == img.w && r.value.c == 3)
    ensures f == RandomFilter ==>
      && (r.Success? <==> img.c >= 3 && img.h > 100 && img.w >= 1)
      && (img.c < 3 ==> r == Failure(IndexOutOfRange))
      && (img.c >= 3 && (img.h <= 100 || img.w == 0) ==> r == Failure(EmptyFftAxis))
      && (r.Success? ==> r.value.h == img.h - 100 && r.value.w == img.w && r.value.c == 3)
    ensures f == BlurFilter ==>
      && (r.Success? <==>
            |args| >= 1 && args[0].Number? && args[0].x != 0.0 && img.h >= 1 && img.w >= 1)
      && (|args| == 0 ==> r == Failure(MissingAmount))
      && (|args| >= 1 && !args[0].Number? ==> r == Failure(UnsupportedOperand))
      && (|args| >= 1 && args[0] == Number(0.0) ==> r == Failure(ZeroDivision))
      && (|args| >= 1 && args[0].Number? && args[0].x != 0.0 && (img.h == 0 || img.w == 0) ==>
            r == Failure(EmptyFftAxis))
      && (r.Success? ==> r.value.h == img.h && r.value.w == img.w && r.value.c == img.c)
    ensures f == BaseFilter ==> r == Failure(NotImplemented)
    ensures f == GothamFilter && img.c >= 3 && img.h >= 1 && img.w >= 1 ==>
      r == Success(Gotham(img, conv))
    ensures f == RiverdaleFilter && img.c >= 3 && img.h >= 1 && img.w >= 1 ==>
      r == Success(Riverdale(img, conv))
    ensures f == RandomFilter && img.c >= 3 && img.h > 100 && img.w >= 1 ==>
      r == Success(Random(img, conv))
    ensures f == GrayscaleFilter && img.c >= 3 && img.h >= 1 && img.w >= 1 ==>
      r == Success(Grayscale(img, conv))
    ensures (f == BlurFilter && |args| >= 1 && args[0].Number? && args[0].x != 0.0 &&
             img.h >= 1 && img.w >= 1) ==>
      r == Success(Blur(img, args[0].x, conv))
    ensures f == MultipleFilter ==> r == Chain(args, img, conv)
    decreases |args|, 1
  {
    match f
    case BaseFilter =>
      Failure(NotImplemented)
    case GothamFilter =>
      if img.c < 3 then Failure(IndexOutOfRange)
      else if img.h == 0 || img.w == 0 then Failure(EmptyFftAxis)
      else Success(Gotham(img, conv))
    case RiverdaleFilter =>
      if img.c < 3 then Failure(IndexOutOfRange)
      else if img.h == 0 || img.w == 0 then Failure(EmptyFftAxis)
      else Success(Riverdale(img, conv))
    case RandomFilter =>
      if img.c < 3 then Failure(IndexOutOfRange)
      else if img.h <= 100 || img.w == 0 then Failure(EmptyFftAxis)
      else Success(Random(img, conv))
    case GrayscaleFilter =>
      if img.c < 3 then Failure(IndexOutOfRange)
      else if img.h == 0 || img.w == 0 then Failure(EmptyFftAxis)
      else Success(Grayscale(img, conv))
    case BlurFilter =>
      if |args| == 0 then Failure(MissingAmount)
      else if !args[0].Number? then Failure(UnsupportedOperand)
      else if args[0].x == 0.0 then Failure(ZeroDivision)
      else if img.h == 0 || img.w == 0 then Failure(EmptyFftAxis)
      else Success(Blur(img, args[0].x, conv))
    case MultipleFilter =>
      Chain(args, img, conv)
  }

  /** `MultipleFilter.apply_filter(img, *fs)`: each element is called to make an
      instance, whose `apply_filter` gets the current image and nothing else; the
      first exception ends the loop. */
  function Chain(fs: seq<Arg>, img: Image, conv: Conv): (r: Result)
    requires img.Valid()
    ensures WellFormed(r)
    ensures r.Success? ==> forall k :: 0 <= k < |fs| ==> fs[k].Class?
    decreases |fs|, 0
  {
    if |fs| == 0 then Success(img)
    else if !fs[0].Class? then Failure(NotCallable)
    else
      var step := Apply(fs[0].cls, img, [], conv);
      if step.Failure? then step
      else Chain(fs[1..], step.value, conv)
  }

  /** One more filter after a result: the failure is kept, a success is passed on
      to `f` with no further arguments. */
  function AndThen(r: Result, f: FilterClass, conv: Conv): (next: Result)
    requires WellFormed(r)
    ensures WellFormed(next)
    ensures r.Failure? ==> next == r
  {
    if r.Failure? then r else Apply(f, r.value, [], conv)
  }

  /** A list of filters in which every element is a filter class. */
  function Classes(fs: seq<FilterClass>): (args: seq<Arg>)
    ensures |args| == |fs|
    ensures forall k :: 0 <= k < |fs| ==> args[k] == Class(fs[k])
  {
    seq(|fs|, k requires 0 <= k < |fs| => Class(fs[k]))
  }

  /** The left fold of `AndThen` over the classes: a second definition of what
      `MultipleFilter` computes, which `ChainIsFold` proves equal to `Chain`. */
  function Fold(fs: seq<FilterClass>, r: Result, conv: Conv): (out: Result)
    requires WellFormed(r)
    ensures WellFormed(out)
    decreases |fs|
  {
    if |fs| == 0 then r else Fold(fs[1..], AndThen(r, fs[0], conv), conv)
  }

  // ---------------------------------------------------------------------
  // properties of MultipleFilter

  /** With no filters, `MultipleFilter` returns its input. */
  lemma MultipleEmpty(img: Image, conv: Conv)
    requires img.Valid()
    ensures Apply(MultipleFilter, img, [], conv) == Success(img)
  {
  }

  /** `MultipleFilter` is the left fold of its classes over the image. */
  lemma {:induction false} ChainIsFold(fs: seq<FilterClass>, img: Image, conv: Conv)
    requires img.Valid()
    ensures Chain(Classes(fs), img, conv) == Fold(fs, Success(img), conv)
    decreases |fs|
  {
    if |fs| > 0 {
      assert Classes(fs)[1..] == Classes(fs[1..]);
      var step := Apply(fs[0], img, [], conv);
      if step.Failure? {
        FoldFailure(fs[1..], step, conv);
      } else {
        ChainIsFold(fs[1..], step.value, conv);
      }
    }
  }

  /** Once a failure occurs, the fold keeps it. */
  lemma {:induction false} FoldFailure(fs: seq<FilterClass>, r: Result, conv: Conv)
    requires r.Failure?
    ensures Fold(fs, r, conv) == r
    decreases |fs|
  {
    if |fs| > 0 {
      FoldFailure(fs[1..], r, conv);
    }
  }

  /** Running the filters `xs + ys` is running `xs`, then `ys` on the result. */
  lemma {:induction false} ChainAppend(xs: seq<Arg>, ys: seq<Arg>, img: Image, conv: Conv)
    requires img.Valid()
    ensures var first := Chain(xs, img, conv);
      Chain(xs + ys, img, conv) ==
        if first.Failure? then first else Chain(ys, first.value, conv)
    decreases |xs|
  {
    if |xs| == 0 {
      assert xs + ys == ys;
    } else {
      assert (xs + ys)[0] == xs[0];
      assert (xs + ys)[1..] == xs[1..] + ys;
      if xs[0].Class? {
        var step := Apply(xs[0].cls, img, [], conv);
        if step.Success? {
          ChainAppend(xs[1..], ys, step.value, conv);
        }
      }
    }
  }

  /** `MultipleFilter` with `[A, B]` is `B(A(img))`, each called with no further
      arguments. */
  lemma ChainPair(a: FilterClass, b: FilterClass, img: Image, conv: Conv)
    requires img.Valid()
    ensures Apply(MultipleFilter, img, [Class(a), Class(b)], conv) ==
      AndThen(Apply(a, img, [], conv), b, conv)
  {
    var fs := [Class(a), Class(b)];
    assert fs[1..] == [Class(b)];
    var first := Apply(a, img, [], conv);
    assert Chain(fs, img, conv) ==
      if first.Failure? then first else Chain([Class(b)], first.value, conv);
    if first.Success? {
      ChainSingle(b, first.value, conv);
    }
  }

  /** `MultipleFilter` with one class is that class's filter with no arguments. */
  lemma ChainSingle(f: FilterClass, img: Image, conv: Conv)
    requires img.Valid()
    ensures Chain([Class(f)], img, conv) == Apply(f, img, [], conv)
  {
    assert [Class(f)][1..] == [];
  }

  /** A `BlurFilter` anywhere in `MultipleFilter`'s list makes the call fail:
      either an earlier step fails, or the blur is called without `amount`. */
  lemma {:induction false} ChainRejectsBlur(xs: seq<Arg>, ys: seq<Arg>, img: Image, conv: Conv)
    requires img.Valid()
    ensures Chain(xs + [Class(BlurFilter)] + ys, img, conv).Failure?
    decreases |xs|
  {
    ChainAppend(xs, [Class(BlurFilter)] + ys, img, conv);
    assert xs + [Class(BlurFilter)] + ys == xs + ([Class(BlurFilter)] + ys);
    var first := Chain(xs, img, conv);
    if first.Success? {
      var rest := [Class(BlurFilter)] + ys;
      assert rest[0] == Class(BlurFilter);
      assert Apply(BlurFilter, first.value, [], conv) == Failure(MissingAmount);
    }
  }

  // ---------------------------------------------------------------------
  // value range

  /** The four clipping filters return images with every sample in [0, 1], for
      any input and any blur. */
  lemma ApplyClipped(f: FilterClass, img: Image, args: seq<Arg>, conv: Conv)
    requires img.Valid()
    requires f in {GothamFilter, RiverdaleFilter, RandomFilter, GrayscaleFilter}
    requires Apply(f, img, args, conv).Success?
    ensures InUnit(Apply(f, img, args, conv).value)
  {
    if f == GothamFilter {
      GothamInUnit(img, conv);
    }
  }

  /** A filter other than the blur, on an image in [0, 1], gives an image in
      [0, 1]: the four clipping filters clip, and `MultipleFilter` only chains
      them (the blur cannot occur in it without failing). */
  lemma {:induction false} ApplyInUnit(f: FilterClass, img: Image, args: seq<Arg>, conv: Conv)
    requires img.Valid() && InUnit(img) && f != BlurFilter
    requires Apply(f, img, args, conv).Success?
    ensures InUnit(Apply(f, img, args, conv).value)
    decreases |args|, 1
  {
    if f == MultipleFilter {
      ChainInUnit(args, img, conv);
    } else {
      ApplyClipped(f, img, args, conv);
    }
  }

  /** `MultipleFilter` keeps an image in [0, 1] whenever it succeeds. */
  lemma {:induction false} ChainInUnit(fs: seq<Arg>, img: Image, conv: Conv)
    requires img.Valid() && InUnit(img)
    requires Chain(fs, img, conv).Success?
    ensures InUnit(Chain(fs, img, conv).value)
    decreases |fs|, 0
  {
    if |fs| > 0 {
      var f := fs[0].cls;
      if f != BlurFilter {
        var step := Apply(f, img, [], conv);
        ApplyInUnit(f, img, [], conv);
        ChainInUnit(fs[1..], step.value, conv);
      }
    }
  }

  // ---------------------------------------------------------------------
  // the Sepia button

  /** Sepia is `MultipleFilter` with `[GrayscaleFilter, GothamFilter]`: on an
      image with at least three channels and no empty axis it is Gotham applied to
      Grayscale's output, an H x W x 3 image in [0, 1]. */
  lemma Sepia(img: Image, conv: Conv)
    requires img.Valid()
    ensures var r := Apply(MultipleFilter, img, [Class(GrayscaleFilter), Class(GothamFilter)], conv);
      && (img.c < 3 ==> r == Failure(IndexOutOfRange))
      && (r.Success? <==> img.c >= 3 && img.h >= 1 && img.w >= 1)
      && (r.Success? ==>
            && r.value == Gotham(Grayscale(img, conv), conv)
            && r.value.h == img.h && r.value.w == img.w && r.value.c == 3
            && InUnit(r.value))
  {
    ChainPair(GrayscaleFilter, GothamFilter, img, conv);
    if img.c >= 3 && img.h >= 1 && img.w >= 1 {
      GothamInUnit(Grayscale(img, conv), conv);
    }
  }
}
