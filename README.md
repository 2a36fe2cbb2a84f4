# py-motion-detector in Dafny

A model of the core of py-motion-detector, a small Python application that
watches a stream of camera frames for motion. The application calls the user's
callbacks around a loop over the frames. Each frame first goes through an
activation time window; an admitted frame is run through a background-subtraction
detector, and the resulting bounding boxes are dispatched to every callback.
The repository holds two copies of the package: the current one under
`src/py_motion_detector/` and an older top-level `py_motion_detector/`. Both
are modelled; where they differ the model is parameterised (`Variant`,
`WeightedAverageDetector.Legacy`) or has a module of its own
(`LegacyBoundingBoxes`).

Modules, one per piece of the program:

- `Errors`: `Option`, `Result` and the exception kinds that matter
  (`KeyboardInterrupt`, `ValueError`, `IndexError`, `TypeError`, `KeyError`,
  `cv2.error`, and whatever a callback raises).
- `Strings`: decimal digits, `str(int)`, and `split`/`join` on one character.
  These support the parsers and `__repr__`.
- `Times`: `datetime.time` as four fields and a microsecond-of-day.
- `Parsers`: `str2time_duration` and `str2time_start_processing_time`.
  `strptime` is modelled by the ranges its `%H`/`%M`/`%S` patterns accept and
  the range check of the `datetime` constructor. Both command-line help
  texts for `--processing_duration` say "[default=24h]"
  (src/py_motion_detector/api/cli/py_motion_detector_basic.py:69,
  py_motion_detector/api/cli/py_motion_detector_basic.py:39). The actual
  default is `None`, which leaves the gate always open, and `"24h"` itself
  is rejected with `ValueError` because `%H` stops at 23
  (`DurationExamples`).
- `TimeGate`: `_should_process_based_on_time` as the predicate
  `ShouldProcess(window, now)`, with the time of day as a parameter.
- `BoundingBoxes`: the dataclass box with `asdict` / `cls(**d)`.
- `LegacyBoundingBoxes`: the plain-class box kept in a mutable `__dict__`. It
  is a class whose attribute dict is an object shared with `to_dict`'s
  result, plus `__repr__` and a parser proving that representation determines
  the fields.
- `Frames`: `resize_frame`, the `frames()` generator as a finite
  `FrameStream` (items, then exhaustion or an exception), and the
  `DummyFrameProvider` class.
- `MotionDetection`:
  - `MotionDetectionWeightedAverage` is the class `WeightedAverageDetector`, with its lazily created, updated background field.
  - `next_frame` is the method `NextFrame`, proved against the function `Step`.
  - `bounding_boxes_from_contours` is a loop proved against `BoxesFromContours`.
  - The per-pixel arithmetic is written out on reals: weighted accumulation, `convertScaleAbs`, `absdiff` and binary threshold.
  - Grey conversion with blur, dilation, contour tracing, contour area and bounding rectangle are OpenCV's. They are the function-valued fields of a `Vision` value.
- `Application`:
  - `MotionDetectionApplication` is a class whose methods `Run`, `RunFrames` and `CallEach` are proved to follow the functions `RunSpec`, `LoopFrom` and `Calls`.
  - Those methods return a ghost trace of events: `on_start`/`execute`/`on_exit` calls, provider enter and exit, sleeps and detector calls.
  - Clocks, OpenCV and callback behaviour are parameters (`Env`, `Callback`).
- `ApplicationProperties`: the ordering, cleanup and exit-status guarantees of
  `run`, stated over `RunSpec` and `LoopFrom`.

The functions that define the behaviour carry no contracts of their own:
`Calls`, `FrameStep`, `LoopFrom`, `Body`, `Handle`, `Finish`, `RunSpec`,
`Step`, `BackgroundAfter`, `BoxesFromContours`, `ShouldProcess`,
`DatetimeGate`, `Combine`, `ParseRepr`, `LowerAscii` (the `str.lower` of one
ASCII character), `UnitPatternMax`, the older box's `__repr__` as
`LegacyBoundingBoxes.BoundingBox.Repr` and the text it builds,
`LegacyBoundingBoxes.ReprOf`, `MotionDetection.DetectAll` (repeated
`next_frame` calls on one detector, as the detector tests make them; its
contract gives only the length), and the `width`/`height`/`area`
properties `Width`, `Height` and `Area` of both `BoundingBox` classes
(`right - left`, `bottom - top` and their product, with no sign check, as in
src/py_motion_detector/models/bounding_box.py:13-23 and
py_motion_detector/models/bounding_box.py:8-18). What they guarantee is
stated in the lemmas listed below. `DummyFrameProvider.Exit` models the
dummy source's `__exit__` (src/py_motion_detector/input_sources/dummy.py:28-29), which does nothing; it changes no state and
promises nothing.

## Model

| member | source | states |
|---|---|---|
| Parsers.StrptimeField | src/py_motion_detector/common/parsers.py:35 | a directive accepts exactly the strings of one digit, or of two digits no larger than the directive's maximum (23, 59, 61), and yields their decimal value |
| Parsers.MakeTime | src/py_motion_detector/common/parsers.py:35 | building the time succeeds exactly when the second is below 60 (the leap seconds 60 and 61 that `%S` admits are rejected with `ValueError`), and the result is a valid time; every failure is `ValueError` |
| Parsers.ParseDuration | src/py_motion_detector/common/parsers.py:19-36 | `None` maps to `None` and nothing else does; `""` raises `IndexError`, and every failure on a non-empty string is `ValueError`. A result has unit h, m or s (either case) as last character, sets only that field from the prefix, and zeroes the others |
| Parsers.ParseStartTime | src/py_motion_detector/common/parsers.py:50-54 | `None` maps to `None` and nothing else does; every failure is `ValueError`; every result is a valid whole-second time |
| Parsers.StartTimeRoundTrip | src/py_motion_detector/common/parsers.py:53 | every valid whole-second time written as `HH:MM:SS` parses back to itself |
| Parsers.StartTimeFields | src/py_motion_detector/common/parsers.py:50-54 | any three fields that `%H`, `%M` and `%S` accept, one or two digits each, joined by `:` parse to the time holding their values when the second is below 60 |
| Parsers.StartTimeUnpadded | src/py_motion_detector/common/parsers.py:53 | the unpadded `"7:5:3"` parses to 07:05:03 |
| Parsers.StartTimeAccepted | py_motion_detector/common/parsers.py:37 | an accepted start time is exactly three `:`-separated fields holding the hour, minute and second |
| Parsers.DurationField | src/py_motion_detector/common/parsers.py:22-35 | any prefix the unit's directive accepts as v, followed by h, m or s in either case, yields the time with that one field set to v and the others zero (seconds only below 60) |
| Parsers.DurationRoundTrip | py_motion_detector/common/parsers.py:14-26 | `"<nn>h"`, `"<nn>m"`, `"<nn>s"` set exactly that one field to nn (up to 23 h, 59 m, 59 s) |
| Parsers.DurationBadUnit | py_motion_detector/common/parsers.py:22-24 | any last character other than h, m, s in either case raises `ValueError`, whatever precedes it |
| Parsers.DurationExamples | tests/common/test_parsers.py:22-40 | `"10h"`, `"10M"`, `"10s"`, `"5s"`, `"0s"` give those times; `"1q"`, `"lala"`, `"h"`, `"24h"`, `"60s"` raise `ValueError`; `""` raises `IndexError` |
| TimeGate.ShouldProcessMatchesDatetime | src/py_motion_detector/motion_detection_app.py:109-118 | on any date, the time-of-day gate agrees with the source's comparison of `datetime.combine(today, from_time)`, that plus the duration's `timedelta`, and the current datetime |
| TimeGate.ZeroDurationNeverOpen | src/py_motion_detector/motion_detection_app.py:113-118 | a zero duration admits no instant |
| TimeGate.NoWrapPastMidnight | src/py_motion_detector/motion_detection_app.py:113-118 | before the start time of day the gate is closed however long the window, so a window past midnight does not reopen in the early hours |
| TimeGate.LateWindowOpenUntilMidnight | src/py_motion_detector/motion_detection_app.py:113-118 | a window reaching past midnight is open from its start to the end of the day |
| TimeGate.ParsedDurationWindows | tests/test_motion_detection_app.py:16-28 | started now, the parsed `"5s"` admits its first five seconds and the parsed `"0s"` admits nothing |
| BoundingBoxes.ToDict | src/py_motion_detector/models/bounding_box.py:25-26 | the record has exactly the keys top, left, bottom, right |
| BoundingBoxes.FromDict | src/py_motion_detector/models/bounding_box.py:28-30 | succeeds iff the keys are exactly the four fields; a missing or extra key raises `TypeError` |
| BoundingBoxes.RecordRoundTrip | src/py_motion_detector/models/bounding_box.py:25-30 | `from_dict(to_dict(b)) == b` for every box |
| BoundingBoxes.DictRoundTrip | src/py_motion_detector/models/bounding_box.py:25-30 | `to_dict(from_dict(d)) == d` for every record `from_dict` accepts |
| BoundingBoxes.ToDictInjective | src/py_motion_detector/models/bounding_box.py:4-11 | boxes with equal records are equal: equality is field by field |
| BoundingBoxes.FromRect | src/py_motion_detector/models/motion_detection/weighted_average_past_frames.py:76-77 | the box of rectangle (x, y, w, h) has top y, left x, width w, height h and area w*h |
| BoundingBoxes.UnorderedCoordinatesAllowed | src/py_motion_detector/models/bounding_box.py:8-23 | nothing orders the coordinates: width and height may be negative |
| LegacyBoundingBoxes.BoundingBox.constructor | py_motion_detector/models/bounding_box.py:2-6 | a new box's attribute dict holds exactly the four given values |
| LegacyBoundingBoxes.BoundingBox.ToDict | py_motion_detector/models/bounding_box.py:24-25 | `to_dict` returns the box's own attribute dict, not a copy |
| LegacyBoundingBoxes.BoundingBox.FromDict | py_motion_detector/models/bounding_box.py:27-29 | succeeds iff all four keys are present (extra keys ignored), else `KeyError`; builds a new box from those four values |
| LegacyBoundingBoxes.ReadFields | py_motion_detector/models/bounding_box.py:29 | the four lookups succeed iff all four keys are present and return those values; otherwise `KeyError` |
| LegacyBoundingBoxes.AssignTopThroughDict | py_motion_detector/models/bounding_box.py:24-25 | writing `top` into the dict `to_dict` returned changes the box's `top` and nothing else |
| LegacyBoundingBoxes.DictRoundTrip | py_motion_detector/models/bounding_box.py:24-29 | `from_dict(to_dict(b))` is a different object with the same four fields |
| LegacyBoundingBoxes.ReprRoundTrip | py_motion_detector/models/bounding_box.py:20-22 | `BoundingBox(top=…, left=…, bottom=…, right=…)` reads back as the four fields in that order |
| LegacyBoundingBoxes.ReprInjective | py_motion_detector/models/bounding_box.py:20-22 | two boxes print alike only if their four fields agree |
| Frames.ResizeFrame | src/py_motion_detector/input_sources/base.py:27-30 | unchanged when `resize_to` is `None` or 0 or the frame is `None`; otherwise square of side `resize_to` with the same channels, or `cv2.error` exactly for a negative side or an empty frame |
| Frames.Generate | src/py_motion_detector/input_sources/dummy.py:24-26 | the generator yields the resized images in order, all of them unless a resize raises; then the stream ends with exactly the error of the first image whose resize failed |
| Frames.Repeat | src/py_motion_detector/input_sources/dummy.py:17 | `[x] * n` has `max(n, 0)` elements, all `x` |
| Frames.DummyFrameProvider.constructor | src/py_motion_detector/input_sources/dummy.py:16-18 | the stored list is `repeat` copies of the frame and the resize setting is kept |
| Frames.DummyFrameProvider.Enter | src/py_motion_detector/input_sources/base.py:11-12 | `__enter__` returns the provider itself |
| Frames.DummyFrameProvider.NextFrame | src/py_motion_detector/input_sources/dummy.py:13-14 | `next_frame` returns `None` |
| Frames.GenerateUnresized | py_motion_detector/input_sources/frame_provider_abc.py:36-38 | without a resize the stream is the list itself, ending normally |
| Frames.DummyYieldsRepeat | py_motion_detector/input_sources/dummy.py:16-26 | a dummy source without a resize yields exactly `repeat` copies of its frame (none when `repeat <= 0`) and is then exhausted |
| Frames.GenerateSquare | py_motion_detector/input_sources/frame_provider_abc.py:30-39 | with a positive resize every yielded frame is square of that side, whatever its aspect ratio |
| Frames.DummyResizeFails | src/py_motion_detector/input_sources/base.py:29 | a frame that cannot be resized makes the first request raise `cv2.error`, yielding nothing |
| MotionDetection.ToFloat | src/py_motion_detector/models/motion_detection/weighted_average_past_frames.py:56 | the float copy has the grey image's shape and values |
| MotionDetection.AccumulateWeighted | src/py_motion_detector/models/motion_detection/weighted_average_past_frames.py:60 | the running average keeps the background's shape |
| MotionDetection.RoundHalfEven | src/py_motion_detector/models/motion_detection/weighted_average_past_frames.py:61 | rounding moves a value by at most one half and keeps integers |
| MotionDetection.SaturateU8 | src/py_motion_detector/models/motion_detection/weighted_average_past_frames.py:61 | the result lies in 0..255 and is the input when that already does |
| MotionDetection.ConvertScaleAbs | src/py_motion_detector/models/motion_detection/weighted_average_past_frames.py:61 | the conversion keeps the shape and yields an 8-bit image |
| MotionDetection.AbsDiff | src/py_motion_detector/models/motion_detection/weighted_average_past_frames.py:61 | the difference keeps the shape and is never negative |
| MotionDetection.Threshold | src/py_motion_detector/models/motion_detection/weighted_average_past_frames.py:63 | the mask keeps the shape |
| MotionDetection.ForegroundIffAboveThreshold | src/py_motion_detector/models/motion_detection/weighted_average_past_frames.py:63 | a mask pixel is 255 iff its delta exceeds `delta_threshold`, and 0 otherwise |
| MotionDetection.BoxesAreKeptContours | src/py_motion_detector/models/motion_detection/weighted_average_past_frames.py:69-79 | the boxes are, in contour order, the boxes of exactly those contours whose area is not below `min_area` (equal area kept): an order-preserving subsequence, never longer |
| MotionDetection.AllBelowMinArea | src/py_motion_detector/models/motion_detection/weighted_average_past_frames.py:72-74 | when every contour is below `min_area` no box is returned |
| MotionDetection.SmallPatchSuppressed | tests/models/test_motion_detection/test_weighted_average_past_frames.py:41-49 | with `min_area = side*side + 1`, contours no larger than a `side` x `side` patch give no box |
| MotionDetection.FirstCallStoresBackground | src/py_motion_detector/models/motion_detection/weighted_average_past_frames.py:54-57 | on a fresh detector `next_frame` succeeds iff the frame can be converted; it then returns `[]` and stores the float grey frame; on failure nothing is stored |
| MotionDetection.LaterCallsUpdateBackground | src/py_motion_detector/models/motion_detection/weighted_average_past_frames.py:54-61 | once stored the background is never dropped; a successful call replaces it pixel by pixel by `(1 - w) * bg + w * gray`, a failing one leaves it as it was |
| MotionDetection.SteadyFrame | src/py_motion_detector/models/motion_detection/weighted_average_past_frames.py:59-67 | the frame the background was made from changes nothing and finds nothing (threshold not negative) |
| MotionDetection.SteadyFrames | src/py_motion_detector/models/motion_detection/weighted_average_past_frames.py:59-67 | that frame, repeated, finds nothing on any call and leaves the background it was made from unchanged |
| MotionDetection.ConstantFramesNoMotion | tests/models/test_motion_detection/test_weighted_average_past_frames.py:18-28 | with `delta_threshold >= 0`, n identical frames fed to a fresh detector give `[]` on every one of the n calls, and leave as background the first frame's grey image (none when n is 0) |
| MotionDetection.WeightedAverageDetector.constructor | src/py_motion_detector/models/motion_detection/weighted_average_past_frames.py:19-46 | the parameters are fixed at construction, defaults 1000, 10, (21, 21), 0.3, 10, with no background |
| MotionDetection.WeightedAverageDetector.Legacy | py_motion_detector/models/motion_detection/weighted_average_past_frames.py:20-29 | only `min_area` (5000) and `delta_threshold` (5) are parameters; kernel (21, 21), weight 0.5 and 2 dilations are fixed |
| MotionDetection.WeightedAverageDetector.NextFrame | src/py_motion_detector/models/motion_detection/weighted_average_past_frames.py:49-67 | the returned boxes and the new background are those of `Step` on the old background |
| MotionDetection.WeightedAverageDetector.BoundingBoxesFromContours | src/py_motion_detector/models/motion_detection/weighted_average_past_frames.py:69-79 | the append loop returns `BoxesFromContours`, whose meaning `BoxesAreKeptContours` states |
| Application.DefaultDetector | src/py_motion_detector/motion_detection_app.py:58-60 | the detector each copy builds by default: (1000, 10, (21, 21), 0.3, 10) current, (5000, 5, (21, 21), 0.5, 2) older |
| Application.ClosedGateFrame | src/py_motion_detector/motion_detection_app.py:95-101 | a frame outside the window causes exactly one sleep of `sleep_sec`, with no detection and no dispatch, and leaves the background; it raises iff `sleep_sec` is negative |
| Application.AdmittedFrame | src/py_motion_detector/motion_detection_app.py:103-107 | an admitted frame is detected once; a detector error ends the loop; otherwise the callbacks are dispatched with this frame, one timestamp and the boxes |
| Application.MotionDetectionApplication.constructor | src/py_motion_detector/motion_detection_app.py:55-62 | the settings are stored; a missing detector is a fresh default one of the copy's class, missing callbacks an empty list |
| Application.MotionDetectionApplication.CallEach | src/py_motion_detector/motion_detection_app.py:79-87 | the dispatch loop's outcome and calls are those of `Calls` from the first callback: calls in order, stopping at the first that raises, whose exception is the outcome |
| Application.MotionDetectionApplication.RunFrames | src/py_motion_detector/motion_detection_app.py:92-107 | the frame loop produces exactly `LoopFrom` from frame 0: outcome, events and final background |
| Application.MotionDetectionApplication.Run | src/py_motion_detector/motion_detection_app.py:64-77 | `run` produces exactly `RunSpec`: result, trace and final background |
| ApplicationProperties.CallsShape | src/py_motion_detector/motion_detection_app.py:82 | a phase calls the callbacks one after another in list order, each at most once; it ends normally iff none raises, and otherwise stops right after the first that raises, with its exception |
| ApplicationProperties.CallsEveryCallback | src/py_motion_detector/motion_detection_app.py:106-107 | when no callback raises, each is called exactly once, in order |
| ApplicationProperties.NormalCallsAll | src/py_motion_detector/motion_detection_app.py:84-87 | a phase that ends normally called every callback once, in order |
| ApplicationProperties.FrameEvents | src/py_motion_detector/motion_detection_app.py:95-107 | one iteration is a sleep alone, or a detection followed by `execute` calls on this frame, all with one shared hook |
| ApplicationProperties.LoopEventKinds | src/py_motion_detector/motion_detection_app.py:92-107 | the loop from frame i only sleeps on closed frames, detects open ones, and calls `execute` with the frame's own item and timestamp |
| ApplicationProperties.NotBeforeStart | src/py_motion_detector/motion_detection_app.py:93 | the loop started at frame i neither detects nor sleeps on any frame j < i |
| ApplicationProperties.LoopAtMostOnce | src/py_motion_detector/motion_detection_app.py:93-107 | no frame is detected twice or slept on twice |
| ApplicationProperties.LoopCoversFrames | src/py_motion_detector/motion_detection_app.py:93-107 | a loop that ends normally exhausted the source, detected every frame inside the window exactly once and slept once on every frame outside it |
| ApplicationProperties.OneDispatchPerFrame | src/py_motion_detector/motion_detection_app.py:103-107 | all `execute` calls for one frame carry the same item, timestamp and box list, even an empty one |
| ApplicationProperties.UnconfiguredNeverSleeps | py_motion_detector/motion_detection_app.py:90-92 | without a window no frame is slept on |
| ApplicationProperties.EmptyDummySourceDoesNothing | py_motion_detector/input_sources/dummy.py:17 | a dummy source with `repeat <= 0`, with or without a resize, leads to no detection and no dispatch: the source is entered and left |
| ApplicationProperties.ConstantSourceReportsNoMotion | src/py_motion_detector/motion_detection_app.py:103-107 | with `delta_threshold >= 0`, a source repeating one frame, with no background yet or the background made from that frame, makes every `execute` call report no boxes |
| ApplicationProperties.DummySourceReportsNoMotion | src/py_motion_detector/input_sources/dummy.py:16-26 | with `delta_threshold >= 0`, a dummy source run by a fresh application reports no motion in any `execute` call, with or without a resize, provided the frame it yields converts to grey |
| ApplicationProperties.CallsOnly | src/py_motion_detector/motion_detection_app.py:82 | a phase consists of calls with its own hook only |
| ApplicationProperties.CurrentSetupFailure | src/py_motion_detector/motion_detection_app.py:66-67 | current copy: an `on_start` that raises propagates before the source is entered, and no `on_exit` runs |
| ApplicationProperties.CurrentCleanup | src/py_motion_detector/motion_detection_app.py:64-92 | current copy after setup: all `on_start`s in order, enter, loop, provider exit, then `on_exit` on every callback in order (unless one raises), whatever the loop did |
| ApplicationProperties.LegacyCleanup | py_motion_detector/motion_detection_app.py:57-88 | older copy: even when an `on_start` raises, `on_exit` is called on every callback, including those whose `on_start` never ran, and the source is never entered |
| ApplicationProperties.ExitStatus | src/py_motion_detector/motion_detection_app.py:69-77 | `run` returns iff the block ended normally (or on `KeyboardInterrupt` in the older copy), exits 0 iff `KeyboardInterrupt` in the current copy, exits 1 iff any other exception; an `on_exit` that raises propagates instead |

## Left out

- OpenCV: colour conversion, Gaussian blur, dilation, `findContours`,
  `contourArea`, `boundingRect` and `resize` are uninterpreted function
  parameters. The lemmas about them assume `Sound`: grey images are
  8-bit, a blank mask stays blank when dilated, and a blank mask has no
  contours. `SmallPatchSuppressed` assumes in addition that every contour's
  `contourArea` is at most the patch's side squared.
- Floating point: the running average and `convertScaleAbs` are computed on
  exact reals, not on IEEE doubles.
- The older detector's `contours[1]`, which selects the contour list from
  OpenCV 3's result tuple, is folded into the `findContours` parameter. What
  it does under OpenCV 4 is not modelled.
- Boxes from the detector, in both copies, are values
  `BoundingBoxes.BoundingBox`. In the older copy they would be plain-class
  objects (`LegacyBoundingBoxes.BoundingBox`), which the model only covers on
  their own.
- `strptime` is modelled for ASCII digits only. Other Unicode decimal digits,
  which Python's `\d` also matches, are not modelled.
- Dict values are integers. `from_dict` with non-integer values is not
  modelled.
- Callbacks raise only `KeyboardInterrupt` or an ordinary exception.
  `SystemExit` and other `BaseException`s raised by a callback are not
  modelled.
- A callback is a function of its hook. Any state that callbacks keep between
  calls is not modelled, apart from the frame number that each `execute` hook
  carries.
- Callbacks are assumed not to mutate their arguments. The source hands the
  same `frame` array and the same `motion_detected_bounding_boxes` list
  object to every callback (src/py_motion_detector/motion_detection_app.py:105-107),
  so a callback that changed either would change what later callbacks
  receive. The model passes values, so `OneDispatchPerFrame` holds by
  construction. No callback in the repository mutates its arguments.
- `KeyboardInterrupt` arriving asynchronously (during `time.sleep` or inside
  OpenCV) is not modelled. Only an interrupt raised by a callback or by the
  frame source is.
- Clocks: the time of day the gate reads, and the dispatch timestamp, are
  functions of the frame's position. `datetime.now()` itself is not
  modelled.
- Timestamps are integers, not `datetime` objects.
- `time.sleep`: it is only a trace event, plus the `ValueError` it raises for
  a negative `sleep_sec`.
- Logging (structlog and logging) is not modelled.
- The detector's `counter` field is stored but never read by the source; the
  model keeps it at 0.
- Frame sources other than `DummyFrameProvider` (camera, video file, image
  files) are not part of this model. Neither are the output callbacks, the
  plotting and replay utilities, and the command-line entry points.
  `Application` reduces a source to the `FrameStream` its `frames()`
  produces.
- The abstract base classes of callbacks and detectors, and their `name()`,
  are not modelled.
- The two copies of the parsers, of the gate and of `resize_frame` are
  textually equivalent in logic. Each is modelled once, and the table cites
  one copy or the other.
- Frames.DummyFrameProvider.Frames: `frames()` is a function of constant
  fields, so repeated calls yield the same stream by construction. No
  separate lemma states this.
- MotionDetection.AccumulateWeighted: its own contract gives only the shape.
  The per-pixel value is stated by `LaterCallsUpdateBackground`.
