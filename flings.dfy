/** Properties of momentum (`finishScroll` and its `step`) and of whole runs of
    events: every axis only ever slows down, stepping stops only at rest, a
    snap-back holds off new gestures, and with overflow disallowed no position
    out of bounds is ever rendered. */
module Flings {
  import opened Js
  import opened Geometry
  import opened Motion
  import opened Engine

  /** `a` lies between 0 and `b`: the same direction, no faster. */
  predicate Slower(a: real, b: real)
  {
    (b >= 0.0 ==> 0.0 <= a <= b) && (b <= 0.0 ==> b <= a <= 0.0)
  }

  /** Both axes decelerate against their velocity. */
  predicate Braking(m: Momentum)
  {
    Opposed(m.speedX, m.acceX) && Opposed(m.speedY, m.acceY)
  }

  /** Released momentum always brakes. */
  lemma FinishScrollBrakes(s: State, now: real)
    requires s.info.dt != 0.0
    ensures var r := FinishScroll(s, now);
            Braking(r.momentum) && r.momentum.time == now && r.info.status == Idle &&
            r.info.frame == Some(s.nextFrame) && Position(r) == Position(s)
  {
  }

  /** One tick keeps both axes braking and never speeds an axis up or turns it
      around, provided the clock does not run backwards. */
  lemma TickDecelerates(cfg: Config, s: State, now: real)
    requires Braking(s.momentum) && now >= s.momentum.time
    ensures var n := Tick(cfg, s, now).momentum;
            Braking(n) && Slower(n.speedX, s.momentum.speedX) && Slower(n.speedY, s.momentum.speedY) &&
            n.time == now
  {
    var m := s.momentum;
    var dt := now - m.time;
    NextSpeedDecelerates(m.speedX, m.acceX, dt);
    NextSpeedDecelerates(m.speedY, m.acceY, dt);
    var n := Tick(cfg, s, now).momentum;
    assert n.speedX == 0.0 || n.speedX == NextSpeed(m.speedX, m.acceX, dt);
    assert n.speedY == 0.0 || n.speedY == NextSpeed(m.speedY, m.acceY, dt);
    assert n.acceX == m.acceX || n.acceX == m.acceX * OutOfBoundsBrake;
    assert n.acceY == m.acceY || n.acceY == m.acceY * OutOfBoundsBrake;
    BrakeKeepsOpposed(n.speedX, m.acceX);
    BrakeKeepsOpposed(n.speedY, m.acceY);
  }

  /** An axis still moving whose rendered offset is out of bounds brakes five
      times harder; an axis in bounds keeps its deceleration. */
  lemma TickBrakesOutOfBounds(cfg: Config, s: State, now: real)
    ensures var r := Tick(cfg, s, now);
            var b := s.layout.bounds;
            (r.momentum.speedX != 0.0 && IsOutDir(r.info.left, b.minX) ==> r.momentum.acceX == 5.0 * s.momentum.acceX) &&
            (!IsOutDir(r.info.left, b.minX) ==> r.momentum.acceX == s.momentum.acceX) &&
            (r.momentum.speedY != 0.0 && IsOutDir(r.info.top, b.minY) ==> r.momentum.acceY == 5.0 * s.momentum.acceY) &&
            (!IsOutDir(r.info.top, b.minY) ==> r.momentum.acceY == s.momentum.acceY)
  {
  }

  /** With overflow disallowed and proper bounds, a tick renders an in-bounds
      position, and an axis that would have left its bounds stops. */
  lemma TickStaysInBounds(cfg: Config, s: State, now: real)
    requires !cfg.overflow && Proper(s.layout.bounds)
    ensures var r := Tick(cfg, s, now);
            var raw := Projected(s, now);
            var b := s.layout.bounds;
            !IsScrollOut(Position(r), b) &&
            (IsOutDir(raw.left, b.minX) ==> r.momentum.speedX == 0.0) &&
            (IsOutDir(raw.top, b.minY) ==> r.momentum.speedY == 0.0)
  {
  }

  /** A step fired after the status left IDLE (a new touch started) does nothing. */
  lemma StaleStepReturns(cfg: Config, s: State, now: real)
    requires s.info.status != Idle
    ensures Step(cfg, s, now) == s
  {
  }

  /** Stepping ends only when both axes are at rest: while one moves another
      frame is requested; at rest it snaps back when out of bounds (SCROLLING,
      so new touches wait) and otherwise emits `:end`. */
  lemma StepStopsOnlyAtRest(cfg: Config, s: State, now: real)
    requires s.info.status == Idle
    ensures var t := Tick(cfg, s, now);
            var r := Step(cfg, s, now);
            var moving := t.momentum.speedX != 0.0 || t.momentum.speedY != 0.0;
            (moving ==> r.info.frame == Some(s.nextFrame) && r.nextFrame == s.nextFrame + 1 &&
                        r.info.status == Idle && r.log == t.log) &&
            (!moving && IsScrollOut(Position(t), s.layout.bounds) ==>
                        r.info.status == Scrolling && r.snapBacks == s.snapBacks + 1 &&
                        Position(r) == NormalizePos(Position(t), s.layout.bounds)) &&
            (!moving && !IsScrollOut(Position(t), s.layout.bounds) ==>
                        r.info.status == Idle && r.log == t.log + [EmitEnd])
  {
  }

  /** The end of a tick as the source writes it: the continuation test is the
      signed sum `speed.x + speed.y` (see Motion.KeepsSteppingAsWritten). */
  function SettleAsWritten(s: State): State
  {
    if KeepsSteppingAsWritten(s.momentum.speedX, s.momentum.speedY) then RequestFrame(s)
    else if IsScrollOut(Position(s), s.layout.bounds) then ResetScroll(s.(info := s.info.(status := Scrolling)))
    else s.(log := s.log + [EmitEnd])
  }

  /** A frame whose tick leaves the axes moving at equal and opposite speeds
      inside the bounds: the source's step emits `:end` and requests no frame,
      although both axes still move; the corrected step requests the next frame. */
  lemma AsWrittenStepEndsMidFling(cfg: Config, s: State, now: real)
    requires s.info.status == Idle
    requires var t := Tick(cfg, s, now);
             t.momentum.speedX != 0.0 && t.momentum.speedY == -t.momentum.speedX &&
             !IsScrollOut(Position(t), t.layout.bounds)
    ensures var t := Tick(cfg, s, now);
            var asWritten := SettleAsWritten(t);
            t.momentum.speedY != 0.0 &&
            asWritten.log == t.log + [EmitEnd] && asWritten.info.frame == t.info.frame &&
            asWritten.nextFrame == t.nextFrame &&
            Step(cfg, s, now).info.frame == Some(s.nextFrame) && Step(cfg, s, now).log == t.log
  {
  }

  /** While a snap-back is pending after momentum, a new touch start is ignored;
      once it completes, the scroller is IDLE and the touch is accepted. */
  lemma SnapBackBlocksStart(cfg: Config, s: State, now: real, x: real, y: real)
    requires s.info.status == Idle && !s.disabled
    requires var t := Tick(cfg, s, now);
             t.momentum.speedX == 0.0 && t.momentum.speedY == 0.0 && IsScrollOut(Position(t), s.layout.bounds)
    ensures var r := Step(cfg, s, now);
            TouchStart(r, x, y, now) == r &&
            TouchStart(SnapBackDone(r), x, y, now).info.status == Prepare
  {
  }

  /** `disable` acts only in SCROLLING, and momentum runs in IDLE: disabling
      during a fling leaves the next step exactly as it would have been. */
  lemma DisableDuringMomentum(cfg: Config, s: State, now: real, later: real)
    requires s.info.status == Idle && !s.disabled
    ensures Disable(cfg, s, now) == Done(s.(disabled := true))
    ensures Step(cfg, s.(disabled := true), later) == Step(cfg, s, later).(disabled := true)
  {
  }

  /** The steps fired at the given clock values. */
  function Frames(cfg: Config, s: State, times: seq<real>): State
    decreases |times|
  {
    if times == [] then s else Frames(cfg, Step(cfg, s, times[0]), times[1..])
  }

  predicate Nondecreasing(times: seq<real>)
  {
    forall i, j :: 0 <= i < j < |times| ==> times[i] <= times[j]
  }

  lemma StepDecelerates(cfg: Config, s: State, now: real)
    requires Braking(s.momentum) && now >= s.momentum.time
    ensures var n := Step(cfg, s, now).momentum;
            Braking(n) && Slower(n.speedX, s.momentum.speedX) && Slower(n.speedY, s.momentum.speedY) &&
            s.momentum.time <= n.time <= now
  {
    if s.info.status == Idle {
      TickDecelerates(cfg, s, now);
    }
  }

  /** Over any run of frames with a clock that never goes back, both axes keep
      braking and each ends no faster than it started, in the same direction. */
  lemma {:induction false} FlingDecelerates(cfg: Config, s: State, times: seq<real>)
    requires Braking(s.momentum) && Nondecreasing(times)
    requires |times| > 0 ==> s.momentum.time <= times[0]
    ensures var n := Frames(cfg, s, times).momentum;
            Braking(n) && Slower(n.speedX, s.momentum.speedX) && Slower(n.speedY, s.momentum.speedY)
    decreases |times|
  {
    if times != [] {
      var t := Step(cfg, s, times[0]);
      StepDecelerates(cfg, s, times[0]);
      FlingDecelerates(cfg, t, times[1..]);
    }
  }

  /** An event reaching the scroller: touches through the disabled guard, a
      fired animation frame, a completed snap-back transition, or a call of the
      public API. */
  datatype Event =
    | TouchStarted(x: real, y: real, now: real)
    | TouchMoved(x: real, y: real, now: real)
    | TouchEnded(now: real)
    | FrameFired(now: real)
    | SnapBackCompleted
    | ScrollToCalled(args: seq<real>)
    | DisableCalled(now: real)
    | EnableCalled

  function Apply(cfg: Config, s: State, e: Event): State
  {
    match e
    case TouchStarted(x, y, now) => TouchStart(s, x, y, now)
    case TouchMoved(x, y, now) => TouchMove(cfg, s, x, y, now)
    case TouchEnded(now) => TouchEnd(cfg, s, now)
    case FrameFired(now) => Step(cfg, s, now)
    case SnapBackCompleted => SnapBackDone(s)
    case ScrollToCalled(args) => ScrollTo(s, args)
    case DisableCalled(now) => Disable(cfg, s, now).state
    case EnableCalled => Enable(s)
  }

  function Run(cfg: Config, s: State, es: seq<Event>): State
    decreases |es|
  {
    if es == [] then s else Run(cfg, Apply(cfg, s, es[0]), es[1..])
  }

  /** Every position in a `:render` notice of the log lies within the bounds. */
  predicate RendersInBounds(log: seq<Notice>, b: Bounds)
  {
    forall i :: 0 <= i < |log| && log[i].EmitRender? ==> !IsScrollOut(Pos(log[i].top, log[i].left), b)
  }

  /** Proper bounds, an offset inside them and no render outside them so far. */
  predicate Contained(s: State)
  {
    Proper(s.layout.bounds) && !IsScrollOut(Position(s), s.layout.bounds) && RendersInBounds(s.log, s.layout.bounds)
  }

  lemma NoticeKeepsRenders(log: seq<Notice>, n: Notice, b: Bounds)
    requires RendersInBounds(log, b) && !n.EmitRender?
    ensures RendersInBounds(log + [n], b)
  {
    assert forall i :: 0 <= i < |log| ==> (log + [n])[i] == log[i];
  }

  lemma RenderKeepsContained(s: State, p: Pos, duration: real)
    requires Contained(s) && !IsScrollOut(p, s.layout.bounds)
    ensures Contained(Render(s, p, duration))
  {
    assert forall i :: 0 <= i < |s.log| ==> Render(s, p, duration).log[i] == s.log[i];
  }

  lemma ResetScrollKeepsContained(s: State)
    requires Contained(s)
    ensures Contained(ResetScroll(s))
  {
    RenderKeepsContained(s, NormalizePos(Position(s), s.layout.bounds), SnapBackDuration);
  }

  lemma EndKeepsContained(cfg: Config, s: State, now: real, event: bool)
    requires Contained(s)
    ensures Contained(EndHandler(cfg, s, now, event).state)
    ensures EndHandler(cfg, s, now, event).state.layout == s.layout
  {
    if s.info.status == Scrolling && (cfg.variant == ScrollJs || event) {
      var s1 := if cfg.variant == ScrollerJs then s.(log := s.log + [StopEvent]) else s;
      if cfg.variant == ScrollerJs {
        NoticeKeepsRenders(s.log, StopEvent, s.layout.bounds);
      }
      if s1.info.dt != 0.0 && IsScrollOut(Position(s1), s1.layout.bounds) {
        ResetScrollKeepsContained(s1);
      }
    }
  }

  lemma EngageKeepsContained(cfg: Config, s: State)
    requires Contained(s)
    ensures Contained(Engage(cfg, s)) && Engage(cfg, s).layout == s.layout
  {
    var b := s.layout.bounds;
    var s1 := if s.info.status == Prepare
              then s.(info := s.info.(status := Scrolling), log := s.log + [EmitStart])
              else s;
    if s.info.status == Prepare {
      NoticeKeepsRenders(s.log, EmitStart, b);
    }
    if cfg.variant == ScrollJs {
      NoticeKeepsRenders(s1.log, PreventDefault, b);
    }
  }

  lemma DragKeepsContained(cfg: Config, s: State, dx: real, dy: real, now: real)
    requires !cfg.overflow && Contained(s)
    ensures Contained(Drag(cfg, s, dx, dy, now)) && Drag(cfg, s, dx, dy, now).layout == s.layout
  {
    var b := s.layout.bounds;
    var incX := Resisted(dx, s.info.left, b.minX);
    var incY := Resisted(dy, s.info.top, b.minY);
    var p := Corrected(cfg, Pos(s.info.top + incY, s.info.left + incX), b);
    var s1 := s.(info := s.info.(
                   pointX := s.info.pointX + dx, pointY := s.info.pointY + dy,
                   dx := if cfg.variant == ScrollerJs then incX else dx,
                   dy := if cfg.variant == ScrollerJs then incY else dy));
    RenderKeepsContained(s1, p, 0.0);
    NoticeKeepsRenders(Render(s1, p, 0.0).log, EmitScroll(-1.0 * p.left, -1.0 * p.top), b);
  }

  lemma MoveKeepsContained(cfg: Config, s: State, x: real, y: real, now: real)
    requires !cfg.overflow && Contained(s)
    ensures Contained(MoveHandler(cfg, s, x, y, now))
    ensures MoveHandler(cfg, s, x, y, now).layout == s.layout
  {
    if s.info.status != Idle {
      var dx := Delta(s.layout.horizontal, x, s.info.pointX);
      var dy := Delta(s.layout.vertical, y, s.info.pointY);
      var s1 := if cfg.variant == ScrollerJs then s.(log := s.log + [StopEvent]) else s;
      if cfg.variant == ScrollerJs {
        NoticeKeepsRenders(s.log, StopEvent, s.layout.bounds);
      }
      if Accepted(dx, dy) {
        EngageKeepsContained(cfg, s1);
        DragKeepsContained(cfg, Engage(cfg, s1), dx, dy, now);
      }
    }
  }

  lemma StepKeepsContained(cfg: Config, s: State, now: real)
    requires !cfg.overflow && Contained(s)
    ensures Contained(Step(cfg, s, now))
    ensures Step(cfg, s, now).layout == s.layout
  {
    if s.info.status == Idle {
      var b := s.layout.bounds;
      var raw := Projected(s, now);
      var p := if Corrects(cfg, raw, b) then NormalizePos(raw, b) else raw;
      RenderKeepsContained(s, p, 0.0);
      var t := Tick(cfg, s, now);
      assert Contained(t);
      if !KeepsStepping(t.momentum.speedX, t.momentum.speedY) {
        if IsScrollOut(Position(t), b) {
          ResetScrollKeepsContained(t.(info := t.info.(status := Scrolling)));
        } else {
          NoticeKeepsRenders(t.log, EmitEnd, b);
        }
      }
    }
  }

  lemma ApplyKeepsContained(cfg: Config, s: State, e: Event)
    requires !cfg.overflow && Contained(s)
    ensures Contained(Apply(cfg, s, e)) && Apply(cfg, s, e).layout == s.layout
  {
    match e
    case TouchStarted(x, y, now) =>
    case TouchMoved(x, y, now) =>
      if !s.disabled {
        MoveKeepsContained(cfg, s, x, y, now);
      }
    case TouchEnded(now) =>
      if !s.disabled {
        EndKeepsContained(cfg, s, now, true);
      }
    case FrameFired(now) =>
      StepKeepsContained(cfg, s, now);
    case SnapBackCompleted =>
      if s.snapBacks > 0 {
        NoticeKeepsRenders(s.log, EmitEnd, s.layout.bounds);
      }
    case ScrollToCalled(args) =>
      if !s.disabled {
        var top := if s.layout.vertical then First(args) else s.info.top;
        var rest := if s.layout.vertical then Rest(args) else args;
        var left := if s.layout.horizontal then First(rest) else s.info.left;
        var rest2 := if s.layout.horizontal then Rest(rest) else rest;
        RenderKeepsContained(s, NormalizePos(Pos(-1.0 * top, -1.0 * left), s.layout.bounds), First(rest2));
      }
    case DisableCalled(now) =>
      if !s.disabled && s.info.status == Scrolling {
        EndKeepsContained(cfg, s.(disabled := true), now, false);
      }
    case EnableCalled =>
  }

  /** With overflow disallowed, a scroller whose content is at least as large as
      its viewport never renders a position out of bounds, whatever events arrive
      (short of a `repaint`, which changes the bounds). */
  lemma {:induction false} RunStaysInBounds(cfg: Config, s: State, es: seq<Event>)
    requires !cfg.overflow && Contained(s)
    ensures Contained(Run(cfg, s, es)) && Run(cfg, s, es).layout == s.layout
    decreases |es|
  {
    if es != [] {
      ApplyKeepsContained(cfg, s, es[0]);
      RunStaysInBounds(cfg, Apply(cfg, s, es[0]), es[1..]);
    }
  }

  /** A freshly constructed scroller over content no smaller than its viewport
      starts contained. */
  lemma InitialContained(cfg: Config, e: Extent)
    requires e.scrollWidth >= e.clientWidth && e.scrollHeight >= e.clientHeight
    ensures Contained(Initial(cfg, e))
  {
  }
}
