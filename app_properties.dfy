/** What `MotionDetectionApplication.run` guarantees, stated over `RunSpec`
    and `LoopFrom` (which `Run` and `RunFrames` are proved to follow). */
module ApplicationProperties {
  import opened Errors
  import opened TimeGate
  import opened Frames
  import opened MotionDetection
  import opened Application

  /** Calling the callbacks from `k` on: callback after callback in list
      order, each once, stopping right after the first that raises. */
  lemma {:induction false} CallsShape(callbacks: seq<Callback>, hook: Hook, k: nat)
    requires k <= |callbacks|
    ensures var p := Calls(callbacks, hook, k);
      && |p.events| <= |callbacks| - k
      && (forall m :: 0 <= m < |p.events| ==> p.events[m] == Call(k + m, hook))
      && (p.outcome.Normal? <==> forall j :: k <= j < |callbacks| ==> callbacks[j](hook).None?)
      && (p.outcome.Normal? ==> |p.events| == |callbacks| - k)
      && (p.outcome.Raised? ==>
            && 0 < |p.events|
            && callbacks[k + |p.events| - 1](hook) == Some(p.outcome.error)
            && forall j :: k <= j < k + |p.events| - 1 ==> callbacks[j](hook).None?)
    decreases |callbacks| - k
  {
    if k < |callbacks| && callbacks[k](hook).None? {
      CallsShape(callbacks, hook, k + 1);
      var rest := Calls(callbacks, hook, k + 1);
      assert Calls(callbacks, hook, k).events == [Call(k, hook)] + rest.events;
    }
  }

  /** When nobody raises, every callback is called exactly once, in order. */
  lemma CallsEveryCallback(callbacks: seq<Callback>, hook: Hook)
    requires forall j :: 0 <= j < |callbacks| ==> callbacks[j](hook).None?
    ensures Calls(callbacks, hook, 0) == Phase(Normal, seq(|callbacks|, j requires 0 <= j < |callbacks| => Call(j, hook)))
  {
    CallsShape(callbacks, hook, 0);
  }

  /** A phase that ends normally called every callback once, in order. */
  lemma NormalCallsAll(callbacks: seq<Callback>, hook: Hook)
    ensures var p := Calls(callbacks, hook, 0);
      p.outcome.Normal? ==> p.events == seq(|callbacks|, j requires 0 <= j < |callbacks| => Call(j, hook))
  {
    CallsShape(callbacks, hook, 0);
  }

  /** What may appear in the loop's part of the trace, started at frame `i`:
      sleeps for frames outside the window, detections for frames inside it,
      and `execute` calls carrying the frame's own item and timestamp. */
  predicate LoopEvent(a: AppConfig, env: Env, i: nat, e: Event) {
    match e
    case Sleep(j, s) => i <= j < |a.frames.items| && !ShouldProcess(a.window, env.gateClock(j)) && s == a.sleepSec
    case Detect(j) => i <= j < |a.frames.items| && ShouldProcess(a.window, env.gateClock(j))
    case Call(k, hook) =>
      && k < |a.callbacks| && hook.Execute?
      && i <= hook.frame < |a.frames.items| && ShouldProcess(a.window, env.gateClock(hook.frame))
      && hook.item == a.frames.items[hook.frame] && hook.timestamp == env.stampClock(hook.frame)
    case _ => false
  }

  /** The events of one iteration: a sleep for a frame outside the window
      (and nothing else), or a detection followed by `execute` calls on this
      frame, all with one and the same hook. */
  lemma FrameEvents(a: AppConfig, env: Env, background: Option<Plane<real>>, i: nat)
    requires i < |a.frames.items|
    ensures var f := FrameStep(a, env, background, i);
      var open := ShouldProcess(a.window, env.gateClock(i));
      && 1 <= |f.events|
      && f.events == [f.events[0]] + f.events[1..]
      && f.events[0] == (if open then Detect(i) else Sleep(i, a.sleepSec))
      && (!open ==> f.events == [Sleep(i, a.sleepSec)] && f.background == background)
      && (forall e :: e in f.events[1..] ==> e.Call? && e.hook.Execute? && e.hook.frame == i && LoopEvent(a, env, i, e))
      && (forall e1, e2 :: e1 in f.events[1..] && e2 in f.events[1..] ==> e1.hook == e2.hook)
  {
    var f := FrameStep(a, env, background, i);
    if ShouldProcess(a.window, env.gateClock(i)) {
      var item := a.frames.items[i];
      var s := Step(a.detector, env.vision, background, item);
      if s.boxes.Ok? {
        var hook := Execute(i, item, env.stampClock(i), s.boxes.value);
        CallsShape(a.callbacks, hook, 0);
        assert f.events[1..] == Calls(a.callbacks, hook, 0).events;
      }
    }
  }

  lemma {:induction false} LoopEventKinds(a: AppConfig, env: Env, background: Option<Plane<real>>, i: nat)
    ensures forall e :: e in LoopFrom(a, env, background, i).events ==> LoopEvent(a, env, i, e)
    decreases |a.frames.items| - i
  {
    if i < |a.frames.items| {
      var f := FrameStep(a, env, background, i);
      FrameEvents(a, env, background, i);
      if f.outcome.Normal? {
        LoopEventKinds(a, env, f.background, i + 1);
      }
    }
  }

  /** The loop started at frame `i` neither sleeps on nor detects any frame before `i`. */
  lemma NotBeforeStart(a: AppConfig, env: Env, background: Option<Plane<real>>, i: nat, j: nat, e: Event)
    requires j < i && (e == Detect(j) || (e.Sleep? && e.frame == j))
    ensures e !in LoopFrom(a, env, background, i).events
  {
    LoopEventKinds(a, env, background, i);
    assert !LoopEvent(a, env, i, e);
  }

  /** No frame is detected twice and none slept on twice. */
  ghost predicate AtMostOnce(events: seq<Event>) {
    && (forall j :: multiset(events)[Detect(j)] <= 1)
    && (forall j, s :: multiset(events)[Sleep(j, s)] <= 1)
  }

  /** Prefixing a detection or sleep not repeated later, together with
      dispatch calls, keeps every frame's count, adding one for `x`. */
  lemma CountAfter(x: Event, d: seq<Event>, rest: seq<Event>)
    requires x.Detect? || x.Sleep?
    requires forall e :: e in d ==> e.Call?
    ensures forall j :: multiset([x] + d + rest)[Detect(j)] == (if x == Detect(j) then 1 else 0) + multiset(rest)[Detect(j)]
    ensures forall j, s :: multiset([x] + d + rest)[Sleep(j, s)] == (if x == Sleep(j, s) then 1 else 0) + multiset(rest)[Sleep(j, s)]
  {
    var all := [x] + d + rest;
    assert multiset(all) == multiset([x]) + multiset(d) + multiset(rest);
    forall j ensures multiset(all)[Detect(j)] == (if x == Detect(j) then 1 else 0) + multiset(rest)[Detect(j)] {
      assert Detect(j) !in d;
    }
    forall j, s ensures multiset(all)[Sleep(j, s)] == (if x == Sleep(j, s) then 1 else 0) + multiset(rest)[Sleep(j, s)] {
      assert Sleep(j, s) !in d;
    }
  }

  /** The events of one frame (`x`, then the dispatch calls `d`) ahead of
      later events that repeat neither the detection nor the sleep. */
  lemma AtMostOnceStep(x: Event, d: seq<Event>, rest: seq<Event>)
    requires x.Detect? || x.Sleep?
    requires forall e :: e in d ==> e.Call?
    requires x !in rest && AtMostOnce(rest)
    ensures AtMostOnce([x] + d + rest)
  {
    CountAfter(x, d, rest);
  }

  ghost predicate LoopOnce(a: AppConfig, env: Env, background: Option<Plane<real>>, i: nat) {
    AtMostOnce(LoopFrom(a, env, background, i).events)
  }

  /** Each frame is detected at most once and slept on at most once. */
  lemma {:induction false} LoopAtMostOnce(a: AppConfig, env: Env, background: Option<Plane<real>>, i: nat)
    ensures LoopOnce(a, env, background, i)
    decreases |a.frames.items| - i
  {
    if i < |a.frames.items| {
      var f := FrameStep(a, env, background, i);
      if f.outcome.Raised? {
        LoopOnceRaised(a, env, background, i);
      } else {
        LoopAtMostOnce(a, env, f.background, i + 1);
        LoopOnceStep(a, env, background, i);
      }
    } else {
      LoopOnceAtEnd(a, env, background, i);
    }
  }

  lemma LoopOnceAtEnd(a: AppConfig, env: Env, background: Option<Plane<real>>, i: nat)
    requires i >= |a.frames.items|
    ensures LoopOnce(a, env, background, i)
  {
    assert LoopFrom(a, env, background, i).events == [];
    assert multiset(LoopFrom(a, env, background, i).events) == multiset{};
  }

  lemma LoopOnceRaised(a: AppConfig, env: Env, background: Option<Plane<real>>, i: nat)
    requires i < |a.frames.items| && FrameStep(a, env, background, i).outcome.Raised?
    ensures LoopOnce(a, env, background, i)
  {
    var f := FrameStep(a, env, background, i);
    assert LoopFrom(a, env, background, i).events == f.events;
    FrameEvents(a, env, background, i);
    AtMostOnceStep(f.events[0], f.events[1..], []);
    assert f.events == [f.events[0]] + f.events[1..] + [];
  }

  lemma LoopOnceStep(a: AppConfig, env: Env, background: Option<Plane<real>>, i: nat)
    requires i < |a.frames.items| && FrameStep(a, env, background, i).outcome.Normal?
    requires LoopOnce(a, env, FrameStep(a, env, background, i).background, i + 1)
    ensures LoopOnce(a, env, background, i)
  {
    var f := FrameStep(a, env, background, i);
    var rest := LoopFrom(a, env, f.background, i + 1);
    assert LoopFrom(a, env, background, i) == Prepend(f.events, rest);
    FrameEvents(a, env, background, i);
    NotBeforeStart(a, env, f.background, i + 1, i, f.events[0]);
    AtMostOnceStep(f.events[0], f.events[1..], rest.events);
    assert LoopFrom(a, env, background, i).events == [f.events[0]] + f.events[1..] + rest.events;
  }

  /** In `events`, every frame from `lo` on inside the window is detected
      exactly once, and every one outside it slept on exactly once. */
  ghost predicate Counted(a: AppConfig, env: Env, events: seq<Event>, lo: nat) {
    forall j :: lo <= j < |a.frames.items| ==>
      && multiset(events)[Detect(j)] == (if ShouldProcess(a.window, env.gateClock(j)) then 1 else 0)
      && multiset(events)[Sleep(j, a.sleepSec)] == (if ShouldProcess(a.window, env.gateClock(j)) then 0 else 1)
  }

  /** The counting step: the events of frame `i` (`x`, then the calls `d`)
      before those of the frames after it (`rest`). */
  lemma CoverStep(a: AppConfig, env: Env, x: Event, d: seq<Event>, rest: seq<Event>, i: nat)
    requires x == (if ShouldProcess(a.window, env.gateClock(i)) then Detect(i) else Sleep(i, a.sleepSec))
    requires forall e :: e in d ==> e.Call?
    requires Detect(i) !in rest && Sleep(i, a.sleepSec) !in rest
    requires Counted(a, env, rest, i + 1)
    ensures Counted(a, env, [x] + d + rest, i)
  {
    CountAfter(x, d, rest);
    forall j | i <= j < |a.frames.items|
      ensures multiset([x] + d + rest)[Detect(j)] == (if ShouldProcess(a.window, env.gateClock(j)) then 1 else 0)
      ensures multiset([x] + d + rest)[Sleep(j, a.sleepSec)] == (if ShouldProcess(a.window, env.gateClock(j)) then 0 else 1)
    {
      if j != i {
        assert x != Detect(j) && x != Sleep(j, a.sleepSec);
      }
    }
  }

  /** If the loop from frame `i` on ends normally, the source was exhausted
      without an error, every frame inside the window was detected exactly
      once and every frame outside it caused exactly one sleep. */
  ghost predicate CoversFrames(a: AppConfig, env: Env, background: Option<Plane<real>>, i: nat) {
    var r := LoopFrom(a, env, background, i);
    r.outcome.Normal? ==> a.frames.failure.None? && Counted(a, env, r.events, i)
  }

  lemma {:induction false} LoopCoversFrames(a: AppConfig, env: Env, background: Option<Plane<real>>, i: nat)
    ensures CoversFrames(a, env, background, i)
    decreases |a.frames.items| - i
  {
    if i < |a.frames.items| {
      var f := FrameStep(a, env, background, i);
      if f.outcome.Normal? {
        LoopCoversFrames(a, env, f.background, i + 1);
        CoversFramesStep(a, env, background, i);
      }
    }
  }

  lemma CoversFramesStep(a: AppConfig, env: Env, background: Option<Plane<real>>, i: nat)
    requires i < |a.frames.items| && FrameStep(a, env, background, i).outcome.Normal?
    requires CoversFrames(a, env, FrameStep(a, env, background, i).background, i + 1)
    ensures CoversFrames(a, env, background, i)
  {
    var f := FrameStep(a, env, background, i);
    var rest := LoopFrom(a, env, f.background, i + 1);
    assert LoopFrom(a, env, background, i) == Prepend(f.events, rest);
    if rest.outcome.Normal? {
      FrameEvents(a, env, background, i);
      NotBeforeStart(a, env, f.background, i + 1, i, Detect(i));
      NotBeforeStart(a, env, f.background, i + 1, i, Sleep(i, a.sleepSec));
      CoverStep(a, env, f.events[0], f.events[1..], rest.events, i);
      assert LoopFrom(a, env, background, i).events == [f.events[0]] + f.events[1..] + rest.events;
    }
  }

  /** Every callback sees, for a given frame, one and the same call: the
      same item, the same timestamp and the same box list. */
  lemma {:induction false} OneDispatchPerFrame(a: AppConfig, env: Env, background: Option<Plane<real>>, i: nat)
    ensures var r := LoopFrom(a, env, background, i);
      forall e1, e2 ::
        (e1 in r.events && e2 in r.events && e1.Call? && e2.Call?
         && e1.hook.Execute? && e2.hook.Execute? && e1.hook.frame == e2.hook.frame) ==> e1.hook == e2.hook
    decreases |a.frames.items| - i
  {
    if i < |a.frames.items| {
      var f := FrameStep(a, env, background, i);
      FrameEvents(a, env, background, i);
      if f.outcome.Normal? {
        var rest := LoopFrom(a, env, f.background, i + 1).events;
        OneDispatchPerFrame(a, env, f.background, i + 1);
        LoopEventKinds(a, env, f.background, i + 1);
        forall e | e in rest && e.Call? ensures e.hook.Execute? && e.hook.frame > i {
          assert LoopEvent(a, env, i + 1, e);
        }
      }
    }
  }

  /** Without a window the gate never closes, so no frame is slept on. */
  lemma UnconfiguredNeverSleeps(a: AppConfig, env: Env, background: Option<Plane<real>>)
    requires a.window.fromTime.None? || a.window.duration.None?
    ensures forall e :: e in LoopFrom(a, env, background, 0).events ==> !e.Sleep?
  {
    LoopEventKinds(a, env, background, 0);
    forall e | e in LoopFrom(a, env, background, 0).events ensures !e.Sleep? {
      assert LoopEvent(a, env, 0, e);
    }
  }

  /** A source that yields nothing (a dummy source with `repeat <= 0`, with
      or without a resize) leads to no detection and no dispatch: the source
      is entered and left. */
  lemma EmptyDummySourceDoesNothing(a: AppConfig, env: Env, background: Option<Plane<real>>,
                                    frame: FrameItem, repeat: int, resizeTo: Option<int>, resample: Resampler)
    requires repeat <= 0
    requires a.frames == Generate(Repeat(frame, repeat), resizeTo, resample)
    ensures Body(a, env, background) == LoopState(Normal, [ProviderEnter, ProviderExit], background)
  {
    assert Repeat(frame, repeat) == [];
  }

  /** From frame `i` on the source repeats one frame, and the background is
      either not yet made or made from that frame: no call reports motion. */
  lemma {:induction false} ConstantSourceReportsNoMotion(a: AppConfig, env: Env, background: Option<Plane<real>>,
                                                        frame: Frame, i: nat)
    requires Sound(env.vision) && a.detector.deltaThreshold >= 0
    requires env.vision.grayBlur(frame, a.detector.kernel).Some?
    requires forall j :: i <= j < |a.frames.items| ==> a.frames.items[j] == Some(frame)
    requires background.None? || background == Some(ToFloat(env.vision.grayBlur(frame, a.detector.kernel).value))
    ensures forall e :: e in LoopFrom(a, env, background, i).events && e.Call? && e.hook.Execute? ==> e.hook.boxes == []
    decreases |a.frames.items| - i
  {
    if i < |a.frames.items| {
      var gray := env.vision.grayBlur(frame, a.detector.kernel).value;
      var f := FrameStep(a, env, background, i);
      FrameEvents(a, env, background, i);
      if ShouldProcess(a.window, env.gateClock(i)) {
        if background.Some? {
          SteadyFrame(a.detector, env.vision, frame, gray);
        }
        var s := Step(a.detector, env.vision, background, a.frames.items[i]);
        assert s == StepResult(Some(ToFloat(gray)), Ok([]));
        var hook := Execute(i, Some(frame), env.stampClock(i), []);
        CallsShape(a.callbacks, hook, 0);
        assert f.events[1..] == Calls(a.callbacks, hook, 0).events;
        assert f.background == Some(ToFloat(gray));
      }
      if f.outcome.Normal? {
        ConstantSourceReportsNoMotion(a, env, f.background, frame, i + 1);
      }
    }
  }

  /** A dummy source repeating one frame, run by a fresh application: every
      `execute` call reports no motion, whatever the resize, provided the
      frame it yields can be converted to grey. */
  lemma DummySourceReportsNoMotion(a: AppConfig, env: Env, frame: Frame, repeat: int,
                                   resizeTo: Option<int>, resample: Resampler)
    requires Sound(env.vision) && a.detector.deltaThreshold >= 0
    requires match ResizeFrame(resizeTo, Some(frame), resample)
      case Ok(Some(g)) => env.vision.grayBlur(g, a.detector.kernel).Some?
      case _ => true
    requires a.frames == Generate(Repeat(Some(frame), repeat), resizeTo, resample)
    ensures forall e :: e in RunSpec(a, env, None).trace && e.Call? && e.hook.Execute? ==> e.hook.boxes == []
  {
    var images := Repeat(Some(frame), repeat);
    match ResizeFrame(resizeTo, Some(frame), resample) {
      case Ok(Some(g)) =>
        forall j | 0 <= j < |a.frames.items| ensures a.frames.items[j] == Some(g) {
          assert ResizeFrame(resizeTo, images[j], resample) == Ok(a.frames.items[j]);
        }
        ConstantSourceReportsNoMotion(a, env, None, g, 0);
      case Ok(None) =>
        assert false;
      case Err(_) =>
        assert |images| == 0 || ResizeFrame(resizeTo, images[0], resample).Err?;
        assert a.frames.items == [];
        assert LoopFrom(a, env, None, 0).events == [];
    }
    CallsOnly(a.callbacks, OnStart);
    CallsOnly(a.callbacks, OnExit);
  }

  /** The dispatch of one hook produces calls with that hook and nothing else. */
  lemma CallsOnly(callbacks: seq<Callback>, hook: Hook)
    ensures forall e :: e in Calls(callbacks, hook, 0).events ==> e.Call? && e.hook == hook
  {
    CallsShape(callbacks, hook, 0);
  }

  // ----- run: ordering, cleanup and exit status -----

  /** The outcome of the `try` block. */
  function TryOutcome(a: AppConfig, env: Env, background: Option<Plane<real>>): Outcome {
    var starts := Calls(a.callbacks, OnStart, 0);
    if starts.outcome.Raised? then starts.outcome else LoopFrom(a, env, background, 0).outcome
  }

  /** Current copy: an `on_start` that raises propagates out of `run` before
      the source is entered, and no `on_exit` is called. */
  lemma CurrentSetupFailure(a: AppConfig, env: Env, background: Option<Plane<real>>)
    requires a.variant == Current
    requires Calls(a.callbacks, OnStart, 0).outcome.Raised?
    ensures var r := RunSpec(a, env, background);
      && r.result == Propagated(Calls(a.callbacks, OnStart, 0).outcome.error)
      && r.background == background
      && ProviderEnter !in r.trace
      && forall e :: e in r.trace ==> e.Call? && e.hook == OnStart
  {
    CallsOnly(a.callbacks, OnStart);
  }

  /** Current copy, setup done: every `on_start` in order, then the source is
      entered, the loop runs, the source is left, and only then the `on_exit`
      calls follow, one per callback in list order unless one of them raises. */
  lemma CurrentCleanup(a: AppConfig, env: Env, background: Option<Plane<real>>)
    requires a.variant == Current
    requires Calls(a.callbacks, OnStart, 0).outcome.Normal?
    ensures var r := RunSpec(a, env, background);
      var exits := Calls(a.callbacks, OnExit, 0);
      && r.trace == seq(|a.callbacks|, j requires 0 <= j < |a.callbacks| => Call(j, OnStart))
           + [ProviderEnter] + LoopFrom(a, env, background, 0).events + [ProviderExit] + exits.events
      && (exits.outcome.Normal? ==> exits.events == seq(|a.callbacks|, j requires 0 <= j < |a.callbacks| => Call(j, OnExit)))
      && r.background == LoopFrom(a, env, background, 0).background
  {
    NormalCallsAll(a.callbacks, OnStart);
    NormalCallsAll(a.callbacks, OnExit);
  }

  /** Older copy: the `on_start` calls are inside the `try`, so even when one
      raises, `on_exit` is called on every callback, including those whose
      `on_start` never ran; the source is entered only after all `on_start`s. */
  lemma LegacyCleanup(a: AppConfig, env: Env, background: Option<Plane<real>>)
    requires a.variant == Legacy
    ensures var r := RunSpec(a, env, background);
      var starts := Calls(a.callbacks, OnStart, 0);
      var exits := Calls(a.callbacks, OnExit, 0);
      && (starts.outcome.Raised? ==> r.trace == starts.events + exits.events && ProviderEnter !in r.trace)
      && (starts.outcome.Normal? ==>
            r.trace == seq(|a.callbacks|, j requires 0 <= j < |a.callbacks| => Call(j, OnStart))
              + [ProviderEnter] + LoopFrom(a, env, background, 0).events + [ProviderExit] + exits.events)
      && (exits.outcome.Normal? ==> exits.events == seq(|a.callbacks|, j requires 0 <= j < |a.callbacks| => Call(j, OnExit)))
  {
    var starts := Calls(a.callbacks, OnStart, 0);
    var exits := Calls(a.callbacks, OnExit, 0);
    NormalCallsAll(a.callbacks, OnStart);
    NormalCallsAll(a.callbacks, OnExit);
    if starts.outcome.Raised? {
      CallsOnly(a.callbacks, OnStart);
      CallsOnly(a.callbacks, OnExit);
      assert RunSpec(a, env, background).trace == starts.events + [] + exits.events;
      assert ProviderEnter !in starts.events + exits.events;
    }
  }

  /** How `run` ends, once the `try` block has been entered (always in the
      older copy, after a successful setup in the current one) and the
      `on_exit` calls did not raise: it returns exactly when the block ended
      normally or (older copy) by `KeyboardInterrupt`; it exits with status 0
      exactly on `KeyboardInterrupt` in the current copy; with status 1
      exactly on any other exception. An `on_exit` that raises wins. */
  lemma ExitStatus(a: AppConfig, env: Env, background: Option<Plane<real>>)
    requires a.variant == Current ==> Calls(a.callbacks, OnStart, 0).outcome.Normal?
    ensures var r := RunSpec(a, env, background).result;
      var o := TryOutcome(a, env, background);
      var exits := Calls(a.callbacks, OnExit, 0).outcome;
      && (exits.Raised? ==> r == Propagated(exits.error))
      && (exits.Normal? ==>
            && (r == Returned <==> o.Normal? || (o == Raised(KeyboardInterrupt) && a.variant == Legacy))
            && (r == Exited(0) <==> o == Raised(KeyboardInterrupt) && a.variant == Current)
            && (r == Exited(1) <==> o.Raised? && o.error != KeyboardInterrupt)
            && (r.Returned? || r.Exited?))
  {
  }
}
