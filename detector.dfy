/** `MotionDetectionWeightedAverage`: a background-subtraction detector whose
    background is a running weighted average of the blurred grey frames.
    The per-pixel arithmetic is modelled exactly (on reals); colour
    conversion, blurring, dilation and contour tracing are OpenCV's and are
    supplied as the function-valued fields of a `Vision`. */
module MotionDetection {
  import opened Errors
  import opened Frames
  import opened BoundingBoxes

  /** A single-channel image: `height` rows of `width` samples. */
  datatype Plane<T> = Plane(height: nat, width: nat, data: seq<T>)

  /** The shape check `accumulateWeighted` and `absdiff` perform. */
  predicate SameShape<A, B>(a: Plane<A>, b: Plane<B>) {
    a.height == b.height && a.width == b.width && |a.data| == |b.data|
  }

  /** A contour as OpenCV returns it: a list of points. */
  type Contour = seq<(int, int)>

  /** `cv2.boundingRect`'s `(x, y, w, h)`. */
  datatype Rect = Rect(x: int, y: int, w: int, h: int)

  /** The OpenCV primitives the detector calls, left uninterpreted. */
  datatype Vision = Vision(
    grayBlur: (Frame, (int, int)) -> Option<Plane<int>>,  // cvtColor to grey, then GaussianBlur; None when OpenCV raises
    dilate: (Plane<int>, int) -> Plane<int>,               // dilate with the default kernel, that many iterations
    findContours: Plane<int> -> seq<Contour>,              // external contours, in discovery order
    contourArea: Contour -> real,
    boundingRect: Contour -> Rect)

  predicate Is8Bit(p: Plane<int>) {
    forall i :: 0 <= i < |p.data| ==> 0 <= p.data[i] <= 255
  }

  /** A binary mask without a foreground pixel. */
  predicate Blank(m: Plane<int>) {
    forall i :: 0 <= i < |m.data| ==> m.data[i] == 0
  }

  /** What the lemmas below assume of OpenCV: grey images are 8-bit, dilating
      an empty mask leaves it empty, and an empty mask has no contours. */
  ghost predicate Sound(v: Vision) {
    && (forall f, k :: v.grayBlur(f, k).Some? ==> Is8Bit(v.grayBlur(f, k).value))
    && (forall m, n :: Blank(m) ==> Blank(v.dilate(m, n)))
    && (forall m :: Blank(m) ==> v.findContours(m) == [])
  }

  /** The parameters fixed at construction. */
  datatype DetectorConfig = DetectorConfig(minArea: int, deltaThreshold: int, kernel: (int, int), weight: real, dilIters: int)

  // ----- per-pixel steps -----

  /** `gray.copy().astype("float")` */
  function ToFloat(g: Plane<int>): (r: Plane<real>)
    ensures SameShape(r, g)
    ensures forall i :: 0 <= i < |g.data| ==> r.data[i] == g.data[i] as real
  {
    Plane(g.height, g.width, seq(|g.data|, i requires 0 <= i < |g.data| => g.data[i] as real))
  }

  /** `cv2.accumulateWeighted(src, acc, alpha)`: `acc := (1 - alpha) * acc + alpha * src`. */
  function AccumulateWeighted(src: Plane<int>, acc: Plane<real>, alpha: real): (r: Plane<real>)
    requires SameShape(src, acc)
    ensures SameShape(r, acc)
  {
    Plane(acc.height, acc.width,
          seq(|acc.data|, i requires 0 <= i < |acc.data| => (1.0 - alpha) * acc.data[i] + alpha * src.data[i] as real))
  }

  /** OpenCV's `cvRound`: to the nearest integer, ties to even. */
  function RoundHalfEven(x: real): (r: int)
    ensures x - 0.5 <= r as real <= x + 0.5
    ensures x == x.Floor as real ==> r == x.Floor
  {
    var f := x.Floor;
    var frac := x - f as real;
    if frac < 0.5 then f
    else if frac > 0.5 then f + 1
    else if f % 2 == 0 then f else f + 1
  }

  /** `saturate_cast<uchar>` of an integer. */
  function SaturateU8(n: int): (r: int)
    ensures 0 <= r <= 255
    ensures 0 <= n <= 255 ==> r == n
  {
    if n < 0 then 0 else if n > 255 then 255 else n
  }

  function AbsReal(x: real): real {
    if x < 0.0 then -x else x
  }

  /** `cv2.convertScaleAbs(p)`: absolute value, rounded, saturated to 8 bits. */
  function ConvertScaleAbs(p: Plane<real>): (r: Plane<int>)
    ensures SameShape(r, p) && Is8Bit(r)
  {
    Plane(p.height, p.width,
          seq(|p.data|, i requires 0 <= i < |p.data| => SaturateU8(RoundHalfEven(AbsReal(p.data[i])))))
  }

  /** `cv2.absdiff(a, b)` */
  function AbsDiff(a: Plane<int>, b: Plane<int>): (r: Plane<int>)
    requires SameShape(a, b)
    ensures SameShape(r, a)
    ensures forall i :: 0 <= i < |r.data| ==> r.data[i] >= 0
  {
    Plane(a.height, a.width,
          seq(|a.data|, i requires 0 <= i < |a.data| =>
            if a.data[i] >= b.data[i] then a.data[i] - b.data[i] else b.data[i] - a.data[i]))
  }

  /** `cv2.threshold(p, thresh, 255, cv2.THRESH_BINARY)[1]` */
  function Threshold(p: Plane<int>, thresh: int): (r: Plane<int>)
    ensures SameShape(r, p)
  {
    Plane(p.height, p.width,
          seq(|p.data|, i requires 0 <= i < |p.data| => if p.data[i] > thresh then 255 else 0))
  }

  /** A pixel of the mask is foreground (255) exactly when its difference
      exceeds the threshold, and background (0) otherwise. */
  lemma ForegroundIffAboveThreshold(p: Plane<int>, thresh: int, i: int)
    requires 0 <= i < |p.data|
    ensures Threshold(p, thresh).data[i] == 255 <==> p.data[i] > thresh
    ensures Threshold(p, thresh).data[i] == 0 <==> p.data[i] <= thresh
  {
  }

  // ----- contours to boxes -----

  /** `(x, y, w, h)` to `BoundingBox(top=y, left=x, bottom=y+h, right=x+w)`. */
  function BoxOfRect(r: Rect): BoundingBox {
    FromRect(r.x, r.y, r.w, r.h)
  }

  /** Whether one contour survives the `contourArea(c) < min_area` test. */
  predicate Kept(minArea: int, v: Vision, c: Contour) {
    !(v.contourArea(c) < minArea as real)
  }

  /** What `bounding_boxes_from_contours` returns, contour by contour. */
  function BoxesFromContours(minArea: int, v: Vision, cs: seq<Contour>): seq<BoundingBox> {
    if |cs| == 0 then []
    else
      var last := cs[|cs| - 1];
      BoxesFromContours(minArea, v, cs[..|cs| - 1])
        + (if Kept(minArea, v, last) then [BoxOfRect(v.boundingRect(last))] else [])
  }

  /** The positions of the contours that survive, in increasing order. */
  function KeptIndices(minArea: int, v: Vision, cs: seq<Contour>): seq<nat> {
    if |cs| == 0 then []
    else
      KeptIndices(minArea, v, cs[..|cs| - 1])
        + (if Kept(minArea, v, cs[|cs| - 1]) then [|cs| - 1] else [])
  }

  /** The output is the order-preserving subsequence of the contours with area
      at least `min_area` (ties kept), each mapped to its rectangle's box. */
  lemma {:induction false} BoxesAreKeptContours(minArea: int, v: Vision, cs: seq<Contour>)
    ensures var boxes, idx := BoxesFromContours(minArea, v, cs), KeptIndices(minArea, v, cs);
      && |boxes| == |idx| <= |cs|
      && (forall k :: 0 <= k < |idx| ==> idx[k] < |cs|)
      && (forall k, l :: 0 <= k < l < |idx| ==> idx[k] < idx[l])
      && (forall k :: 0 <= k < |idx| ==> boxes[k] == BoxOfRect(v.boundingRect(cs[idx[k]])))
      && (forall j :: 0 <= j < |cs| ==> (j in idx <==> Kept(minArea, v, cs[j])))
  {
    if |cs| > 0 {
      var init := cs[..|cs| - 1];
      BoxesAreKeptContours(minArea, v, init);
      var idx := KeptIndices(minArea, v, cs);
      forall k | 0 <= k < |KeptIndices(minArea, v, init)|
        ensures cs[KeptIndices(minArea, v, init)[k]] == init[KeptIndices(minArea, v, init)[k]]
      {
      }
      forall j | 0 <= j < |cs| ensures j in idx <==> Kept(minArea, v, cs[j]) {
        if j < |cs| - 1 {
          assert cs[j] == init[j];
        }
      }
    }
  }

  /** When no contour reaches `min_area`, nothing is reported. */
  lemma {:induction false} AllBelowMinArea(minArea: int, v: Vision, cs: seq<Contour>)
    requires forall j :: 0 <= j < |cs| ==> v.contourArea(cs[j]) < minArea as real
    ensures BoxesFromContours(minArea, v, cs) == []
  {
    if |cs| > 0 {
      AllBelowMinArea(minArea, v, cs[..|cs| - 1]);
    }
  }

  /** A changed patch of `side` x `side` pixels cannot outline a contour of
      larger area, so with `min_area = side * side + 1` it is never reported. */
  lemma SmallPatchSuppressed(v: Vision, cs: seq<Contour>, side: nat)
    requires forall j :: 0 <= j < |cs| ==> v.contourArea(cs[j]) <= (side * side) as real
    ensures BoxesFromContours(side * side + 1, v, cs) == []
  {
    AllBelowMinArea(side * side + 1, v, cs);
  }

  // ----- one call of next_frame -----

  /** The background after a call, and what the call returned or raised. */
  datatype StepResult = StepResult(background: Option<Plane<real>>, boxes: Result<seq<BoundingBox>>)

  /** `next_frame` as a function of the stored background. `cvtColor` raises
      on a `None` frame; `accumulateWeighted` raises, before changing
      anything, when the grey frame's shape differs from the background's. */
  function Step(cfg: DetectorConfig, v: Vision, background: Option<Plane<real>>, item: FrameItem): StepResult {
    if item.None? then StepResult(background, Err(OpenCvError))
    else
      match v.grayBlur(item.value, cfg.kernel)
      case None => StepResult(background, Err(OpenCvError))
      case Some(gray) =>
        if background.None? then StepResult(Some(ToFloat(gray)), Ok([]))
        else if !SameShape(gray, background.value) then StepResult(background, Err(OpenCvError))
        else
          var avg := AccumulateWeighted(gray, background.value, cfg.weight);
          var delta := AbsDiff(gray, ConvertScaleAbs(avg));
          var mask := v.dilate(Threshold(delta, cfg.deltaThreshold), cfg.dilIters);
          StepResult(Some(avg), Ok(BoxesFromContours(cfg.minArea, v, v.findContours(mask))))
  }

  /** The first call on a fresh detector never reports motion: it either
      raises, leaving no background, or returns `[]` and stores the blurred
      grey frame as the background. */
  lemma FirstCallStoresBackground(cfg: DetectorConfig, v: Vision, item: FrameItem)
    ensures var s := Step(cfg, v, None, item);
      && (s.boxes.Ok? <==> item.Some? && v.grayBlur(item.value, cfg.kernel).Some?)
      && (s.boxes.Ok? ==> s.boxes.value == [] && s.background == Some(ToFloat(v.grayBlur(item.value, cfg.kernel).value)))
      && (s.boxes.Err? ==> s.background.None?)
  {
  }

  /** Once stored, the background is never dropped; a successful later call
      replaces it by the weighted average of itself and the new grey frame. */
  lemma LaterCallsUpdateBackground(cfg: DetectorConfig, v: Vision, bg: Plane<real>, item: FrameItem)
    ensures Step(cfg, v, Some(bg), item).background.Some?
    ensures var s := Step(cfg, v, Some(bg), item);
      s.boxes.Ok? ==>
        var gray := v.grayBlur(item.value, cfg.kernel).value;
        && SameShape(gray, bg)
        && SameShape(s.background.value, bg)
        && forall i :: 0 <= i < |bg.data| ==>
             s.background.value.data[i] == (1.0 - cfg.weight) * bg.data[i] + cfg.weight * gray.data[i] as real
    ensures Step(cfg, v, Some(bg), item).boxes.Err? ==> Step(cfg, v, Some(bg), item).background == Some(bg)
  {
  }

  /** The results of calling `next_frame` on each item in turn. */
  function DetectAll(cfg: DetectorConfig, v: Vision, background: Option<Plane<real>>, items: seq<FrameItem>)
    : (results: seq<Result<seq<BoundingBox>>>)
    ensures |results| == |items|
    decreases |items|
  {
    if |items| == 0 then []
    else
      var s := Step(cfg, v, background, items[0]);
      [s.boxes] + DetectAll(cfg, v, s.background, items[1..])
  }

  /** The background the detector holds after `next_frame` on each item in turn. */
  function BackgroundAfter(cfg: DetectorConfig, v: Vision, background: Option<Plane<real>>, items: seq<FrameItem>)
    : Option<Plane<real>>
    decreases |items|
  {
    if |items| == 0 then background
    else BackgroundAfter(cfg, v, Step(cfg, v, background, items[0]).background, items[1..])
  }

  /** Feeding back the grey frame the background was made from changes
      nothing and finds nothing, provided the threshold is not negative. */
  lemma SteadyFrame(cfg: DetectorConfig, v: Vision, f: Frame, gray: Plane<int>)
    requires Sound(v) && cfg.deltaThreshold >= 0
    requires v.grayBlur(f, cfg.kernel) == Some(gray)
    ensures Step(cfg, v, Some(ToFloat(gray)), Some(f)) == StepResult(Some(ToFloat(gray)), Ok([]))
  {
    assert Is8Bit(gray);
    var bg := ToFloat(gray);
    var avg := AccumulateWeighted(gray, bg, cfg.weight);
    forall i | 0 <= i < |avg.data| ensures avg.data[i] == bg.data[i] {
      var x := gray.data[i] as real;
      assert avg.data[i] == (1.0 - cfg.weight) * x + cfg.weight * x;
    }
    assert avg == bg;
    var scaled := ConvertScaleAbs(avg);
    forall i | 0 <= i < |scaled.data| ensures scaled.data[i] == gray.data[i] {
      assert AbsReal(bg.data[i]) == gray.data[i] as real;
    }
    assert scaled == gray;
    var delta := AbsDiff(gray, scaled);
    var mask := Threshold(delta, cfg.deltaThreshold);
    assert Blank(mask);
    assert Blank(v.dilate(mask, cfg.dilIters));
  }

  /** Repeating that frame keeps the background it was made from and finds
      nothing on any call. */
  lemma {:induction false} SteadyFrames(cfg: DetectorConfig, v: Vision, f: Frame, gray: Plane<int>, n: int)
    requires Sound(v) && cfg.deltaThreshold >= 0
    requires v.grayBlur(f, cfg.kernel) == Some(gray)
    ensures forall i :: 0 <= i < |Repeat(Some(f), n)| ==>
      DetectAll(cfg, v, Some(ToFloat(gray)), Repeat(Some(f), n))[i] == Ok([])
    ensures BackgroundAfter(cfg, v, Some(ToFloat(gray)), Repeat(Some(f), n)) == Some(ToFloat(gray))
    decreases n
  {
    if n > 0 {
      SteadyFrame(cfg, v, f, gray);
      SteadyFrames(cfg, v, f, gray, n - 1);
      assert Repeat(Some(f), n)[1..] == Repeat(Some(f), n - 1);
    }
  }

  /** A sequence of identical frames never reports motion: every call returns
      `[]` (the first because it only stores the background). */
  lemma ConstantFramesNoMotion(cfg: DetectorConfig, v: Vision, f: Frame, n: int)
    requires Sound(v) && cfg.deltaThreshold >= 0
    requires v.grayBlur(f, cfg.kernel).Some?
    ensures var results := DetectAll(cfg, v, None, Repeat(Some(f), n));
      |results| == (if n <= 0 then 0 else n) && forall i :: 0 <= i < |results| ==> results[i] == Ok([])
    ensures BackgroundAfter(cfg, v, None, Repeat(Some(f), n)) ==
      if n <= 0 then None else Some(ToFloat(v.grayBlur(f, cfg.kernel).value))
  {
    if n > 0 {
      var gray := v.grayBlur(f, cfg.kernel).value;
      SteadyFrames(cfg, v, f, gray, n - 1);
      assert Repeat(Some(f), n)[1..] == Repeat(Some(f), n - 1);
    }
  }

  /** The detector object: its configuration, and the background it creates
      on the first call and updates on every later one. */
  class WeightedAverageDetector {
    const minArea: int
    const deltaThreshold: int
    const kernel: (int, int)
    const weight: real
    const dilIters: int

    /** `_weighted_average_image` (`weighted_average` in the older copy). */
    var background: Option<Plane<real>>
    var counter: int

    /** The current copy's constructor and its defaults. */
    constructor (minArea: int := 1000, deltaThreshold: int := 10, kernel: (int, int) := (21, 21),
                 weight: real := 0.3, dilIters: int := 10)
      ensures Config() == DetectorConfig(minArea, deltaThreshold, kernel, weight, dilIters)
      ensures background.None? && counter == 0
    {
      this.minArea := minArea;
      this.deltaThreshold := deltaThreshold;
      this.kernel := kernel;
      this.weight := weight;
      this.dilIters := dilIters;
      background := None;
      counter := 0;
    }

    /** The older copy's constructor: only the two thresholds are parameters;
      weight 0.5, kernel (21, 21) and 2 dilation iterations are fixed. */
    constructor Legacy(minArea: int := 5000, deltaThreshold: int := 5)
      ensures Config() == DetectorConfig(minArea, deltaThreshold, (21, 21), 0.5, 2)
      ensures background.None? && counter == 0
    {
      this.minArea := minArea;
      this.deltaThreshold := deltaThreshold;
      kernel := (21, 21);
      weight := 0.5;
      dilIters := 2;
      background := None;
      counter := 0;
    }

    function Config(): DetectorConfig {
      DetectorConfig(minArea, deltaThreshold, kernel, weight, dilIters)
    }

    /** `next_frame` */
    method NextFrame(item: FrameItem, v: Vision) returns (boxes: Result<seq<BoundingBox>>)
      modifies this`background
      ensures StepResult(background, boxes) == Step(Config(), v, old(background), item)
    {
      if item.None? {
        return Err(OpenCvError);
      }
      var grayOrError := v.grayBlur(item.value, kernel);
      if grayOrError.None? {
        return Err(OpenCvError);
      }
      var gray := grayOrError.value;
      if background.None? {
        background := Some(ToFloat(gray));
        return Ok([]);
      }
      if !SameShape(gray, background.value) {
        return Err(OpenCvError);
      }
      background := Some(AccumulateWeighted(gray, background.value, weight));
      var delta := AbsDiff(gray, ConvertScaleAbs(background.value));
      var mask := v.dilate(Threshold(delta, deltaThreshold), dilIters);
      var found := BoundingBoxesFromContours(v.findContours(mask), v);
      boxes := Ok(found);
    }

    /** `bounding_boxes_from_contours` */
    method BoundingBoxesFromContours(contours: seq<Contour>, v: Vision) returns (boxes: seq<BoundingBox>)
      ensures boxes == BoxesFromContours(minArea, v, contours)
    {
      boxes := [];
      var i := 0;
      while i < |contours|
        invariant 0 <= i <= |contours|
        invariant boxes == BoxesFromContours(minArea, v, contours[..i])
      {
        var c := contours[i];
        assert contours[..i + 1][..i] == contours[..i];
        if v.contourArea(c) < minArea as real {
          i := i + 1;
          continue;
        }
        var r := v.boundingRect(c);
        boxes := boxes + [BoundingBox(top := r.y, left := r.x, bottom := r.y + r.h, right := r.x + r.w)];
        i := i + 1;
      }
      assert contours[..i] == contours;
    }
  }
}
