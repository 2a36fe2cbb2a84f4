/** Frames and the frame-source contract: the optional square resize every
    source applies, the stream a source's `frames()` generator produces, and
    the test double `DummyFrameProvider`. */
module Frames {
  import opened Errors

  /** A pixel grid of `height` rows, `width` columns and `channels` samples
      per pixel, stored row by row. */
  datatype Frame = Frame(height: nat, width: nat, channels: nat, pixels: seq<int>)

  /** What a source yields: a frame, or `None`, which is passed on untouched. */
  type FrameItem = Option<Frame>

  /** The samples `cv2.resize` interpolates for a square target of the given
      side; OpenCV's interpolation is not modelled. */
  type Resampler = (Frame, nat) -> seq<int>

  /** `resize_frame`: resize to `resize_to` x `resize_to` when `resize_to` is
      truthy and the frame is not `None`. `cv2.resize` raises on a negative
      size and on an empty frame. */
  function ResizeFrame(resizeTo: Option<int>, item: FrameItem, resample: Resampler): (r: Result<FrameItem>)
    ensures resizeTo.None? || resizeTo == Some(0) || item.None? ==> r == Ok(item)
    ensures r.Err? <==>
      resizeTo.Some? && resizeTo.value != 0 && item.Some? && (resizeTo.value < 0 || item.value.height == 0 || item.value.width == 0)
    ensures r.Err? ==> r.error == OpenCvError
    ensures r.Ok? && resizeTo.Some? && resizeTo.value > 0 && item.Some? ==>
      r.value.Some? && r.value.value.height == resizeTo.value && r.value.value.width == resizeTo.value
      && r.value.value.channels == item.value.channels
  {
    if resizeTo.None? || resizeTo.value == 0 || item.None? then Ok(item)
    else if resizeTo.value < 0 || item.value.height == 0 || item.value.width == 0 then Err(OpenCvError)
    else
      var side := resizeTo.value;
      Ok(Some(Frame(side, side, item.value.channels, resample(item.value, side))))
  }

  /** What iterating a source's `frames()` produces: the items it yields, then
      either exhaustion (`failure == None`) or the exception it raises. */
  datatype FrameStream = FrameStream(items: seq<FrameItem>, failure: Option<Exception>)

  /** The generator loop `for img in images: yield self.resize_frame(img)`.
      The first frame whose resize raises ends the stream with that exception. */
  function Generate(images: seq<FrameItem>, resizeTo: Option<int>, resample: Resampler): (s: FrameStream)
    ensures |s.items| <= |images|
    ensures s.failure.None? ==> |s.items| == |images|
    ensures forall i :: 0 <= i < |s.items| ==> ResizeFrame(resizeTo, images[i], resample) == Ok(s.items[i])
    ensures s.failure.Some? ==>
      |s.items| < |images| && ResizeFrame(resizeTo, images[|s.items|], resample) == Err(s.failure.value)
  {
    if |images| == 0 then FrameStream([], None)
    else
      match ResizeFrame(resizeTo, images[0], resample)
      case Err(e) => FrameStream([], Some(e))
      case Ok(first) =>
        var rest := Generate(images[1..], resizeTo, resample);
        FrameStream([first] + rest.items, rest.failure)
  }

  /** `[x] * n`: `n` copies of `x`, none when `n <= 0`. */
  function Repeat(x: FrameItem, n: int): (r: seq<FrameItem>)
    ensures |r| == if n <= 0 then 0 else n
    ensures forall i :: 0 <= i < |r| ==> r[i] == x
  {
    if n <= 0 then [] else [x] + Repeat(x, n - 1)
  }

  /** A source yielding one given frame a fixed number of times. */
  class DummyFrameProvider {
    /** The list built once, at construction. */
    const dummyFrames: seq<FrameItem>
    const resizeTo: Option<int>

    constructor (dummyFrame: FrameItem, repeat: int := 1, resizeTo: Option<int> := None)
      ensures dummyFrames == Repeat(dummyFrame, repeat) && this.resizeTo == resizeTo
    {
      dummyFrames := Repeat(dummyFrame, repeat);
      this.resizeTo := resizeTo;
    }

    /** `__enter__` returns the provider itself. */
    method Enter() returns (p: DummyFrameProvider)
      ensures p == this
    {
      p := this;
    }

    /** `next_frame` is a stub that returns `None`. */
    method NextFrame() returns (item: FrameItem)
      ensures item.None?
    {
      item := None;
    }

    /** `__exit__` releases nothing and suppresses nothing. */
    method Exit()
    {
    }

    /** `frames()`: the stored list, each item passed through `resize_frame`.
      The list never changes, so every call yields the same stream. */
    function Frames(resample: Resampler): FrameStream {
      Generate(dummyFrames, resizeTo, resample)
    }
  }

  /** Without a resize, the generator yields its list unchanged and ends
      normally. */
  lemma {:induction false} GenerateUnresized(images: seq<FrameItem>, resample: Resampler)
    ensures Generate(images, None, resample) == FrameStream(images, None)
  {
    if |images| > 0 {
      GenerateUnresized(images[1..], resample);
      assert [images[0]] + images[1..] == images;
    }
  }

  /** A dummy source without a resize yields exactly `repeat` copies of its
      frame, none when `repeat <= 0`, and then is exhausted. */
  lemma DummyYieldsRepeat(frame: FrameItem, repeat: int, resample: Resampler)
    ensures Generate(Repeat(frame, repeat), None, resample).failure.None?
    ensures var items := Generate(Repeat(frame, repeat), None, resample).items;
      && |items| == (if repeat <= 0 then 0 else repeat)
      && forall i :: 0 <= i < |items| ==> items[i] == frame
  {
    GenerateUnresized(Repeat(frame, repeat), resample);
  }

  /** With a positive resize every yielded frame is square of that side,
      whatever the aspect ratio it had. */
  lemma GenerateSquare(images: seq<FrameItem>, side: int, resample: Resampler, i: int)
    requires side > 0
    requires 0 <= i < |Generate(images, Some(side), resample).items|
    requires images[i].Some?
    ensures var f := Generate(images, Some(side), resample).items[i];
      f.Some? && f.value.height == side && f.value.width == side
  {
  }

  /** A dummy source whose frame cannot be resized yields nothing: the first
      request for a frame raises `cv2.error`. */
  lemma DummyResizeFails(frame: Frame, repeat: int, side: int, resample: Resampler)
    requires repeat > 0
    requires side < 0 || (side != 0 && (frame.height == 0 || frame.width == 0))
    ensures Generate(Repeat(Some(frame), repeat), Some(side), resample) == FrameStream([], Some(OpenCvError))
  {
  }
}
