/** `MotionDetectionApplication`: calls `on_start` on every callback, enters
    the frame source, runs each frame through the time gate and the detector,
    dispatches to every callback, and guarantees `on_exit` in a `finally`.
    Both copies of the class are modelled; `Variant` selects which.

    Everything the application observes from outside is a parameter: the
    frames the source yields, the clock readings, the OpenCV primitives and
    what each callback raises. What the application does is recorded as a
    ghost trace of `Event`s. */
module Application {
  import opened Errors
  import opened Times
  import opened TimeGate
  import opened Frames
  import opened BoundingBoxes
  import opened MotionDetection

  /** `Current` is `src/py_motion_detector`, `Legacy` the older top-level copy. */
  datatype Variant = Current | Legacy

  /** A call the application makes on a callback. */
  datatype Hook =
    | OnStart
    | Execute(frame: nat, item: FrameItem, timestamp: int, boxes: seq<BoundingBox>)
    | OnExit

  /** A callback, reduced to what the application can observe of it: the
      exception (if any) that each call raises. `frame` in `Execute` is the
      position of the frame in the stream. */
  type Callback = Hook -> Option<Exception>

  datatype Event =
    | Call(callback: nat, hook: Hook)       // callback number `callback` called with `hook`
    | ProviderEnter                          // `__enter__` of the frame source
    | Sleep(frame: nat, seconds: int)        // `time.sleep` for a frame outside the window
    | Detect(frame: nat)                     // `next_frame` on a frame inside the window
    | ProviderExit                           // `__exit__` of the frame source

  /** How a block of code ended: normally, or by raising. `Raised(KeyboardInterrupt)`
      is an interrupt; every other exception is an `Exception` subclass. */
  datatype Outcome = Normal | Raised(error: Exception)

  /** How `run` ends: by returning, by `sys.exit(code)` (a `SystemExit`
      reaching the caller), or with another exception propagating. */
  datatype RunResult = Returned | Exited(code: int) | Propagated(error: Exception)

  /** The application's settings as the constructor stores them, with the
      frame source reduced to the stream its `frames()` produces. */
  datatype AppConfig = AppConfig(
    variant: Variant,
    frames: FrameStream,
    window: Window,
    sleepSec: int,
    detector: DetectorConfig,
    callbacks: seq<Callback>)

  /** The outside world: the time of day `datetime.now()` gives when frame `i`
      is checked against the window, the timestamp taken for frame `i`, and
      OpenCV. */
  datatype Env = Env(gateClock: nat -> Time, stampClock: nat -> int, vision: Vision)

  datatype Phase = Phase(outcome: Outcome, events: seq<Event>)

  /** The list comprehensions over the callbacks and the inner dispatch loop:
      callbacks `k..` are called in order with `hook`; the first that raises
      ends the phase, and its exception is the phase's outcome. */
  function Calls(callbacks: seq<Callback>, hook: Hook, k: nat): Phase
    decreases |callbacks| - k
  {
    if k >= |callbacks| then Phase(Normal, [])
    else
      match callbacks[k](hook)
      case Some(e) => Phase(Raised(e), [Call(k, hook)])
      case None =>
        var rest := Calls(callbacks, hook, k + 1);
        Phase(rest.outcome, [Call(k, hook)] + rest.events)
  }

  /** One step of the dispatch loop: after the calls recorded in `before`,
      calling callback `k` either raises, ending the phase, or leaves the
      remaining callbacks to run. */
  lemma CallsUnfold(callbacks: seq<Callback>, hook: Hook, k: nat, before: seq<Event>)
    requires k < |callbacks|
    ensures callbacks[k](hook).Some? ==>
      Phase(Calls(callbacks, hook, k).outcome, before + Calls(callbacks, hook, k).events)
      == Phase(Raised(callbacks[k](hook).value), before + [Call(k, hook)])
    ensures callbacks[k](hook).None? ==>
      Phase(Calls(callbacks, hook, k).outcome, before + Calls(callbacks, hook, k).events)
      == Phase(Calls(callbacks, hook, k + 1).outcome, (before + [Call(k, hook)]) + Calls(callbacks, hook, k + 1).events)
  {
    if callbacks[k](hook).None? {
      var next := Calls(callbacks, hook, k + 1);
      assert before + ([Call(k, hook)] + next.events) == (before + [Call(k, hook)]) + next.events;
    }
  }

  datatype LoopState = LoopState(outcome: Outcome, events: seq<Event>, background: Option<Plane<real>>)

  function Prepend(events: seq<Event>, s: LoopState): LoopState {
    s.(events := events + s.events)
  }

  /** How iterating the frames ends once they run out: normally, or with the
      exception the generator raised. */
  function EndOfStream(s: FrameStream): Outcome {
    if s.failure.None? then Normal else Raised(s.failure.value)
  }

  /** One iteration of the `for` loop, on frame `i`. A `Normal` outcome means
      the loop goes on with the next frame. */
  function FrameStep(a: AppConfig, env: Env, background: Option<Plane<real>>, i: nat): LoopState
    requires i < |a.frames.items|
  {
    if !ShouldProcess(a.window, env.gateClock(i)) then
      // `time.sleep` raises ValueError for a negative duration
      LoopState(if a.sleepSec < 0 then Raised(ValueError) else Normal, [Sleep(i, a.sleepSec)], background)
    else
      var item := a.frames.items[i];
      var s := Step(a.detector, env.vision, background, item);
      if s.boxes.Err? then LoopState(Raised(s.boxes.error), [Detect(i)], s.background)
      else
        var d := Calls(a.callbacks, Execute(i, item, env.stampClock(i), s.boxes.value), 0);
        LoopState(d.outcome, [Detect(i)] + d.events, s.background)
  }

  /** The `for frame in frame_prv.frames()` loop from frame `i` on, with the
      detector's background `background` at that point; the first exception
      ends it. */
  function LoopFrom(a: AppConfig, env: Env, background: Option<Plane<real>>, i: nat): LoopState
    decreases |a.frames.items| - i
  {
    if i >= |a.frames.items| then LoopState(EndOfStream(a.frames), [], background)
    else
      var f := FrameStep(a, env, background, i);
      if f.outcome.Raised? then f else Prepend(f.events, LoopFrom(a, env, f.background, i + 1))
  }

  /** A frame outside the window costs one sleep of `sleep_sec` and nothing
      else: no detection, no dispatch, the background untouched. */
  lemma ClosedGateFrame(a: AppConfig, env: Env, background: Option<Plane<real>>, i: nat)
    requires i < |a.frames.items| && !ShouldProcess(a.window, env.gateClock(i))
    ensures FrameStep(a, env, background, i).events == [Sleep(i, a.sleepSec)]
    ensures FrameStep(a, env, background, i).background == background
    ensures FrameStep(a, env, background, i).outcome.Normal? <==> a.sleepSec >= 0
  {
  }

  /** A frame inside the window is run through the detector once and, if
      that succeeds, dispatched to the callbacks, every one of them getting
      the same frame, timestamp and boxes; the next frame sees the updated
      background. */
  lemma AdmittedFrame(a: AppConfig, env: Env, background: Option<Plane<real>>, i: nat)
    requires i < |a.frames.items| && ShouldProcess(a.window, env.gateClock(i))
    ensures var s := Step(a.detector, env.vision, background, a.frames.items[i]);
      var f := FrameStep(a, env, background, i);
      && f.background == s.background
      && (s.boxes.Err? ==> f == LoopState(Raised(s.boxes.error), [Detect(i)], s.background))
      && (s.boxes.Ok? ==>
            var d := Calls(a.callbacks, Execute(i, a.frames.items[i], env.stampClock(i), s.boxes.value), 0);
            f.events == [Detect(i)] + d.events && f.outcome == d.outcome)
  {
  }

  lemma PrependTwice(x: seq<Event>, y: seq<Event>, s: LoopState)
    ensures Prepend(x, Prepend(y, s)) == Prepend(x + y, s)
  {
    assert x + (y + s.events) == (x + y) + s.events;
  }

  /** The `with` block: the source is entered, the loop runs, and `__exit__`
      (which suppresses nothing) runs however the loop ended. */
  function Body(a: AppConfig, env: Env, background: Option<Plane<real>>): LoopState {
    var l := LoopFrom(a, env, background, 0);
    LoopState(l.outcome, [ProviderEnter] + l.events + [ProviderExit], l.background)
  }

  /** The `except` clauses. `KeyboardInterrupt` is `sys.exit(0)` in the current
      copy and is swallowed in the older one; any other exception is `sys.exit(1)`. */
  function Handle(variant: Variant, o: Outcome): RunResult {
    match o
    case Normal => Returned
    case Raised(KeyboardInterrupt) => if variant == Current then Exited(0) else Returned
    case Raised(_) => Exited(1)
  }

  /** The `finally` clause: an exception from an `on_exit` replaces whatever
      `run` was about to do. */
  function Finish(handled: RunResult, exits: Outcome): RunResult {
    if exits.Raised? then Propagated(exits.error) else handled
  }

  datatype RunOutcome = RunOutcome(result: RunResult, trace: seq<Event>, background: Option<Plane<real>>)

  /** `run`. In the current copy `_setup_callbacks` precedes the `try`, so an
      `on_start` that raises propagates with no cleanup; in the older copy
      the `on_start` calls are inside it. */
  function RunSpec(a: AppConfig, env: Env, background: Option<Plane<real>>): RunOutcome {
    var starts := Calls(a.callbacks, OnStart, 0);
    if a.variant == Current && starts.outcome.Raised? then
      RunOutcome(Propagated(starts.outcome.error), starts.events, background)
    else
      var body := if starts.outcome.Raised? then LoopState(starts.outcome, [], background)
                  else Body(a, env, background);
      var exits := Calls(a.callbacks, OnExit, 0);
      RunOutcome(Finish(Handle(a.variant, body.outcome), exits.outcome),
                 starts.events + body.events + exits.events, body.background)
  }

  /** The configuration of the detector each copy builds when none is given. */
  function DefaultDetector(variant: Variant): (c: DetectorConfig)
    ensures variant == Current ==> c == DetectorConfig(1000, 10, (21, 21), 0.3, 10)
    ensures variant == Legacy ==> c == DetectorConfig(5000, 5, (21, 21), 0.5, 2)
  {
    if variant == Current then DetectorConfig(1000, 10, (21, 21), 0.3, 10)
    else DetectorConfig(5000, 5, (21, 21), 0.5, 2)
  }

  class MotionDetectionApplication {
    const variant: Variant
    /** What `frame_provider.frames()` yields. */
    const frames: FrameStream
    var fromTime: Option<Time>
    var duration: Option<Time>
    const detector: WeightedAverageDetector
    const callbacks: seq<Callback>
    const sleepSec: int

    /** `__init__`: a missing detector is a new default one of the copy's own
        detector class, missing callbacks an empty list, and `sleep_sec` is 10
        unless given. */
    constructor (variant: Variant, frames: FrameStream, fromTime: Option<Time> := None,
                 duration: Option<Time> := None, detector: Option<WeightedAverageDetector> := None,
                 callbacks: Option<seq<Callback>> := None, sleepSec: int := 10)
      ensures this.variant == variant && this.frames == frames
      ensures this.fromTime == fromTime && this.duration == duration && this.sleepSec == sleepSec
      ensures detector.Some? ==> this.detector == detector.value
      ensures detector.None? ==> fresh(this.detector) && this.detector.background.None?
      ensures detector.None? ==> this.detector.Config() == DefaultDetector(variant)
      ensures this.callbacks == if callbacks.Some? then callbacks.value else []
    {
      this.variant := variant;
      this.frames := frames;
      this.fromTime := fromTime;
      this.duration := duration;
      if detector.Some? {
        this.detector := detector.value;
      } else if variant == Current {
        this.detector := new WeightedAverageDetector();
      } else {
        this.detector := new WeightedAverageDetector.Legacy();
      }
      this.callbacks := if callbacks.Some? then callbacks.value else [];
      this.sleepSec := sleepSec;
    }

    function Settings(): AppConfig
      reads this
    {
      AppConfig(variant, frames, Window(fromTime, duration), sleepSec, detector.Config(), callbacks)
    }

    /** Calls every callback with `hook`, in list order, until one raises. */
    method CallEach(hook: Hook) returns (o: Outcome, ghost events: seq<Event>)
      ensures o == Calls(callbacks, hook, 0).outcome
      ensures events == Calls(callbacks, hook, 0).events
    {
      var cbs := callbacks;
      events := [];
      o := Normal;
      var k := 0;
      while k < |cbs| && o.Normal?
        invariant 0 <= k <= |cbs|
        invariant o.Normal? ==> Calls(cbs, hook, 0) == Phase(Calls(cbs, hook, k).outcome, events + Calls(cbs, hook, k).events)
        invariant o.Raised? ==> Calls(cbs, hook, 0) == Phase(o, events)
        decreases |cbs| - k
      {
        var raised := cbs[k](hook);
        CallsUnfold(cbs, hook, k, events);
        events := events + [Call(k, hook)];
        if raised.Some? {
          o := Raised(raised.value);
        }
        k := k + 1;
      }
    }

    /** `_run`'s loop over the frames. */
    method RunFrames(env: Env) returns (o: Outcome, ghost events: seq<Event>)
      modifies detector`background
      ensures LoopState(o, events, detector.background) == LoopFrom(Settings(), env, old(detector.background), 0)
    {
      ghost var a := Settings();
      ghost var start := detector.background;
      events := [];
      var i := 0;
      while i < |frames.items|
        invariant 0 <= i <= |frames.items|
        invariant LoopFrom(a, env, start, 0) == Prepend(events, LoopFrom(a, env, detector.background, i))
        decreases |frames.items| - i
      {
        ghost var previous := detector.background;
        if !ShouldProcess(Window(fromTime, duration), env.gateClock(i)) {
          ClosedGateFrame(a, env, previous, i);
          if sleepSec < 0 {
            return Raised(ValueError), events + [Sleep(i, sleepSec)];
          }
          PrependTwice(events, [Sleep(i, sleepSec)], LoopFrom(a, env, previous, i + 1));
          events := events + [Sleep(i, sleepSec)];
          i := i + 1;
          continue;
        }
        var item := frames.items[i];
        var boxes := detector.NextFrame(item, env.vision);
        AdmittedFrame(a, env, previous, i);
        if boxes.Err? {
          return Raised(boxes.error), events + [Detect(i)];
        }
        var timestamp := env.stampClock(i);
        var dispatched;
        ghost var callEvents;
        dispatched, callEvents := CallEach(Execute(i, item, timestamp, boxes.value));
        if dispatched.Raised? {
          return dispatched, events + ([Detect(i)] + callEvents);
        }
        PrependTwice(events, [Detect(i)] + callEvents, LoopFrom(a, env, detector.background, i + 1));
        events := events + ([Detect(i)] + callEvents);
        i := i + 1;
      }
      o := EndOfStream(frames);
    }

    /** `run` */
    method Run(env: Env) returns (result: RunResult, ghost trace: seq<Event>)
      modifies detector`background
      ensures RunOutcome(result, trace, detector.background) == RunSpec(Settings(), env, old(detector.background))
    {
      var started;
      ghost var startEvents;
      started, startEvents := CallEach(OnStart);
      if variant == Current && started.Raised? {
        return Propagated(started.error), startEvents;
      }
      var outcome := started;
      ghost var bodyEvents := [];
      if started.Normal? {
        var looped;
        ghost var loopEvents;
        looped, loopEvents := RunFrames(env);
        outcome := looped;
        bodyEvents := [ProviderEnter] + loopEvents + [ProviderExit];
      }
      var handled := Handle(variant, outcome);
      var exited;
      ghost var exitEvents;
      exited, exitEvents := CallEach(OnExit);
      result := Finish(handled, exited);
      trace := startEvents + bodyEvents + exitEvents;
    }
  }
}
