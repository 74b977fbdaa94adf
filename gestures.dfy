/** Properties of the touch handlers of module Engine: what a move, a start, an
    end and `disable` do to the `info` bag, how `:start` is emitted once per
    gesture, and the public `scrollTo`/`getScrollTop` pair. */
module Gestures {
  import opened Js
  import opened Geometry
  import opened Motion
  import opened Engine

  /** A move while IDLE changes nothing at all. */
  lemma MoveIgnoredWhenIdle(cfg: Config, s: State, x: real, y: real, now: real)
    requires s.info.status == Idle
    ensures MoveHandler(cfg, s, x, y, now) == s
  {
  }

  /** A move below the threshold on both axes leaves offset, reference point and
      status alone; Scroller.js still stops the event. */
  lemma SubThresholdMoveChangesNothing(cfg: Config, s: State, x: real, y: real, now: real)
    requires s.info.status != Idle
    requires !Accepted(Delta(s.layout.horizontal, x, s.info.pointX), Delta(s.layout.vertical, y, s.info.pointY))
    ensures var r := MoveHandler(cfg, s, x, y, now);
            r.info == s.info && r.layout == s.layout && r.momentum == s.momentum &&
            r.log == s.log + (if cfg.variant == ScrollerJs then [StopEvent] else [])
  {
  }

  /** On an accepted move the reference point advances by exactly the delta, and
      a disabled axis contributes no delta: its reference point stays and its
      release delta is zero. */
  lemma AcceptedMoveAdvancesPoint(cfg: Config, s: State, x: real, y: real, now: real)
    requires s.info.status != Idle
    requires Accepted(Delta(s.layout.horizontal, x, s.info.pointX), Delta(s.layout.vertical, y, s.info.pointY))
    ensures var r := MoveHandler(cfg, s, x, y, now);
            r.info.pointX == s.info.pointX + Delta(s.layout.horizontal, x, s.info.pointX) &&
            r.info.pointY == s.info.pointY + Delta(s.layout.vertical, y, s.info.pointY) &&
            (!s.layout.horizontal ==> r.info.pointX == s.info.pointX && r.info.dx == 0.0) &&
            (!s.layout.vertical ==> r.info.pointY == s.info.pointY && r.info.dy == 0.0) &&
            r.info.status == Scrolling && r.info.time == now && r.info.dt == now - s.info.time
  {
  }

  /** The resistance rule of an accepted move, per axis: an axis out of bounds
      takes a third of its delta, an axis in bounds the whole delta.
      Scroller.js stores that increment as the release delta, whatever the
      overflow option; Scroll.js stores the raw delta. With overflow allowed no
      correction applies, so the offset moves by exactly that increment. The
      `scroll` notice carries the negated rendered offset. */
  lemma ResistedMove(cfg: Config, s: State, x: real, y: real, now: real)
    requires s.info.status != Idle
    requires Accepted(Delta(s.layout.horizontal, x, s.info.pointX), Delta(s.layout.vertical, y, s.info.pointY))
    ensures var r := MoveHandler(cfg, s, x, y, now);
            var d := x - s.info.pointX;
            var inc := if IsOutDir(s.info.left, s.layout.bounds.minX) then d / 3.0 else d;
            s.layout.horizontal ==>
              r.info.dx == (if cfg.variant == ScrollerJs then inc else d) &&
              (cfg.overflow ==> r.info.left == s.info.left + inc)
    ensures var r := MoveHandler(cfg, s, x, y, now);
            var d := y - s.info.pointY;
            var inc := if IsOutDir(s.info.top, s.layout.bounds.minY) then d / 3.0 else d;
            s.layout.vertical ==>
              r.info.dy == (if cfg.variant == ScrollerJs then inc else d) &&
              (cfg.overflow ==> r.info.top == s.info.top + inc)
    ensures var r := MoveHandler(cfg, s, x, y, now);
            |r.log| > 0 && r.log[|r.log| - 1] == EmitScroll(-1.0 * r.info.left, -1.0 * r.info.top)
  {
  }

  /** With overflow disallowed and proper bounds, every accepted move renders an
      in-bounds position. */
  lemma MoveStaysInBounds(cfg: Config, s: State, x: real, y: real, now: real)
    requires !cfg.overflow && Proper(s.layout.bounds)
    requires s.info.status != Idle
    requires Accepted(Delta(s.layout.horizontal, x, s.info.pointX), Delta(s.layout.vertical, y, s.info.pointY))
    ensures !IsScrollOut(Position(MoveHandler(cfg, s, x, y, now)), s.layout.bounds)
  {
  }

  /** The number of `:start` notices in a log. */
  function Starts(log: seq<Notice>): nat
  {
    multiset(log)[EmitStart]
  }

  lemma StartsAppend(log: seq<Notice>, more: seq<Notice>)
    ensures Starts(log + more) == Starts(log) + Starts(more)
  {
  }

  /** The offset update of a move appends a render and a `scroll` notice and
      leaves the status alone. */
  lemma DragEmitsNoStart(cfg: Config, s: State, dx: real, dy: real, now: real)
    ensures var r := Drag(cfg, s, dx, dy, now);
            s.log <= r.log && Starts(r.log) == Starts(s.log) && r.info.status == s.info.status
  {
    var r := Drag(cfg, s, dx, dy, now);
    var more := r.log[|s.log|..];
    assert r.log == s.log + more;
    assert |more| == 2 && more[0].EmitRender? && more[1].EmitScroll?;
    assert more == [more[0], more[1]];
    StartsAppend(s.log, more);
  }

  /** Entering SCROLLING emits `:start` exactly when the status was PREPARE. */
  lemma EngageEmitsStartFromPrepare(cfg: Config, s: State)
    ensures var r := Engage(cfg, s);
            s.log <= r.log &&
            Starts(r.log) == Starts(s.log) + (if s.info.status == Prepare then 1 else 0) &&
            r.info.status == (if s.info.status == Prepare then Scrolling else s.info.status)
  {
    var s1 := if s.info.status == Prepare
              then s.(info := s.info.(status := Scrolling), log := s.log + [EmitStart])
              else s;
    StartsAppend(s.log, [EmitStart]);
    StartsAppend(s1.log, [PreventDefault]);
  }

  /** An accepted move: entering SCROLLING, then the offset update. */
  lemma EngagedDragEmitsStartFromPrepare(cfg: Config, s: State, dx: real, dy: real, now: real)
    ensures var r := Drag(cfg, Engage(cfg, s), dx, dy, now);
            s.log <= r.log &&
            Starts(r.log) == Starts(s.log) + (if s.info.status == Prepare then 1 else 0) &&
            r.info.status == (if s.info.status == Prepare then Scrolling else s.info.status)
  {
    EngageEmitsStartFromPrepare(cfg, s);
    DragEmitsNoStart(cfg, Engage(cfg, s), dx, dy, now);
  }

  /** One move emits `:start` exactly when it is the first accepted move of the
      gesture, keeps what was emitted before, and never returns to PREPARE. */
  lemma MoveEmitsStartOnFirstAccept(cfg: Config, s: State, x: real, y: real, now: real)
    ensures var r := MoveHandler(cfg, s, x, y, now);
            var first := s.info.status == Prepare &&
                         Accepted(Delta(s.layout.horizontal, x, s.info.pointX), Delta(s.layout.vertical, y, s.info.pointY));
            s.log <= r.log &&
            Starts(r.log) == Starts(s.log) + (if first then 1 else 0) &&
            r.info.status == (if first then Scrolling else s.info.status)
  {
    if s.info.status != Idle {
      var dx := Delta(s.layout.horizontal, x, s.info.pointX);
      var dy := Delta(s.layout.vertical, y, s.info.pointY);
      var s1 := if cfg.variant == ScrollerJs then s.(log := s.log + [StopEvent]) else s;
      StartsAppend(s.log, [StopEvent]);
      assert s.log <= s1.log && Starts(s1.log) == Starts(s.log) && s1.info == s.info;
      if Accepted(dx, dy) {
        assert MoveHandler(cfg, s, x, y, now) == Drag(cfg, Engage(cfg, s1), dx, dy, now);
        EngagedDragEmitsStartFromPrepare(cfg, s1, dx, dy, now);
      } else {
        assert MoveHandler(cfg, s, x, y, now) == s1;
      }
    }
  }

  /** A finger's movements after a touch start. */
  datatype Touch = Touch(x: real, y: real, now: real)

  function Moves(cfg: Config, s: State, ts: seq<Touch>): State
    decreases |ts|
  {
    if ts == [] then s else Moves(cfg, MoveHandler(cfg, s, ts[0].x, ts[0].y, ts[0].now), ts[1..])
  }

  /** However many moves follow a start, `:start` is emitted at most once, and
      not at all when the gesture was already SCROLLING. */
  lemma {:induction false} StartEmittedAtMostOnce(cfg: Config, s: State, ts: seq<Touch>)
    ensures var r := Moves(cfg, s, ts);
            s.log <= r.log &&
            Starts(r.log) <= Starts(s.log) + (if s.info.status == Prepare then 1 else 0)
    decreases |ts|
  {
    if ts != [] {
      var t := MoveHandler(cfg, s, ts[0].x, ts[0].y, ts[0].now);
      MoveEmitsStartOnFirstAccept(cfg, s, ts[0].x, ts[0].y, ts[0].now);
      StartEmittedAtMostOnce(cfg, t, ts[1..]);
    }
  }

  /** A start is ignored while SCROLLING (a drag or a snap-back is under way). */
  lemma StartIgnoredWhileScrolling(s: State, x: real, y: real, now: real)
    requires s.info.status == Scrolling
    ensures StartHandler(s, x, y, now) == s
  {
  }

  /** Otherwise a start cancels any pending frame, zeroes the deltas, records the
      touch point and clock, and enters PREPARE; the offset is kept. */
  lemma StartArmsGesture(s: State, x: real, y: real, now: real)
    requires s.info.status != Scrolling
    ensures var r := StartHandler(s, x, y, now);
            r.info.frame == None && r.info.status == Prepare &&
            r.info.dx == 0.0 && r.info.dy == 0.0 && r.info.dt == 0.0 &&
            r.info.pointX == x && r.info.pointY == y && r.info.time == now &&
            Position(r) == Position(s) && r.log == s.log
  {
  }

  /** The end handler outside SCROLLING only returns to IDLE. */
  lemma EndOutsideScrolling(cfg: Config, s: State, now: real, event: bool)
    requires s.info.status != Scrolling
    ensures EndHandler(cfg, s, now, event) == Done(s.(info := s.info.(status := Idle)))
  {
  }

  /** With a touch event the end handler never throws; without one only
      Scroller.js throws, and only in SCROLLING. */
  lemma EndThrowsOnlyWithoutEvent(cfg: Config, s: State, now: real, event: bool)
    ensures EndHandler(cfg, s, now, event).Threw? <==>
            !event && cfg.variant == ScrollerJs && s.info.status == Scrolling
  {
  }

  /** Ending a gesture in SCROLLING: without motion since the last move it goes
      IDLE; out of bounds it snaps back (render of the clamped offset over 0.5,
      IDLE and `:end` once the transition completes); otherwise momentum starts
      in IDLE with a frame scheduled. */
  lemma EndCases(cfg: Config, s: State, now: real)
    requires s.info.status == Scrolling
    ensures var o := EndHandler(cfg, s, now, true);
            var r := o.state;
            o.Done? &&
            (s.info.dt == 0.0 ==> r.info.status == Idle && Position(r) == Position(s) && r.snapBacks == s.snapBacks) &&
            (s.info.dt != 0.0 && IsScrollOut(Position(s), s.layout.bounds) ==>
               r.info.status == Scrolling && r.snapBacks == s.snapBacks + 1 &&
               Position(r) == NormalizePos(Position(s), s.layout.bounds) &&
               r.log[|r.log| - 1] == EmitRender(Position(r).left, Position(r).top, SnapBackDuration) &&
               var d := SnapBackDone(r);
               d.info.status == Idle && d.log == r.log + [EmitEnd]) &&
            (s.info.dt != 0.0 && !IsScrollOut(Position(s), s.layout.bounds) ==>
               r.info.status == Idle && r.info.frame.Some? && r.momentum.speedX * s.info.dt == s.info.dx &&
               r.momentum.speedY * s.info.dt == s.info.dy && Position(r) == Position(s))
  {
  }

  /** Disabling Scroller.js in SCROLLING throws from the end handler after the
      flag is set; nothing else has changed. */
  lemma ScrollerDisableThrowsWhileScrolling(cfg: Config, s: State, now: real)
    requires cfg.variant == ScrollerJs && !s.disabled && s.info.status == Scrolling
    ensures Disable(cfg, s, now) == Threw(s.(disabled := true))
  {
  }

  /** Disabling Scroll.js in SCROLLING ends the gesture as a touch end would and
      cancels the pending frame; no touch handler acts until `enable`. */
  lemma ScrollDisableEndsGesture(cfg: Config, s: State, now: real, x: real, y: real)
    requires cfg.variant == ScrollJs && !s.disabled && s.info.status == Scrolling
    ensures var o := Disable(cfg, s, now);
            o.Done? && o.state.disabled && o.state.info.frame == None &&
            o.state == StopAnimate(EndHandler(cfg, s.(disabled := true), now, false).state) &&
            TouchStart(o.state, x, y, now) == o.state &&
            TouchMove(cfg, o.state, x, y, now) == o.state &&
            TouchEnd(cfg, o.state, now) == o.state
  {
  }

  /** `enable` undoes `disable` outside SCROLLING. */
  lemma EnableUndoesDisable(cfg: Config, s: State, now: real)
    requires !s.disabled && s.info.status != Scrolling
    ensures Enable(Disable(cfg, s, now).state) == s
  {
  }

  /** The public `scrollTo` renders the negated arguments clamped into bounds. */
  lemma ScrollToClamps(s: State, top: real, left: real, duration: real)
    requires !s.disabled && s.layout.vertical && s.layout.horizontal
    ensures var r := ScrollTo(s, [top, left, duration]);
            Position(r) == NormalizePos(Pos(-top, -left), s.layout.bounds) &&
            r.log == s.log + [EmitRender(Position(r).left, Position(r).top, duration)]
  {
  }

  /** A disabled axis takes no argument: `scrollTo(top, duration)` on a vertical
      scroller keeps the horizontal offset (negated like the others). */
  lemma ScrollToSkipsDisabledAxis(s: State, top: real, duration: real)
    requires !s.disabled && s.layout.vertical && !s.layout.horizontal
    ensures var r := ScrollTo(s, [top, duration]);
            Position(r) == NormalizePos(Pos(-top, -s.info.left), s.layout.bounds) &&
            r.log[|r.log| - 1].duration == duration
  {
  }

  /** `getScrollTop`/`getScrollLeft` read back what `scrollTo` set, for any
      reachable target. */
  lemma ScrollToThenGet(s: State, top: real, left: real)
    requires !s.disabled && s.layout.vertical && s.layout.horizontal
    requires 0.0 <= top <= -s.layout.bounds.minY && 0.0 <= left <= -s.layout.bounds.minX
    ensures GetScrollTop(ScrollTo(s, [top, left])) == top
    ensures GetScrollLeft(ScrollTo(s, [top, left])) == left
  {
    var r := ScrollTo(s, [top, left]);
    assert Position(r) == NormalizePos(Pos(-top, -left), s.layout.bounds);
    assert !IsScrollOut(Pos(-top, -left), s.layout.bounds);
  }

  /** A viewport 300 high over content 900 high: `scrollTo(300, 0, 0)` moves the
      offset to -300 and `getScrollTop()` reports 300. */
  lemma TallContentScenario(cfg: Config)
    requires cfg.options == MakeConfig(cfg.variant, map[]).options
    ensures var s := Initial(cfg, Extent(300.0, 300.0, 300.0, 900.0));
            var r := ScrollTo(s, [300.0, 0.0, 0.0]);
            s.layout.vertical && !s.layout.horizontal &&
            r.info.top == -300.0 && r.info.left == 0.0 && GetScrollTop(r) == 300.0
  {
    var s := Initial(cfg, Extent(300.0, 300.0, 300.0, 900.0));
    assert Get(cfg.options, "vertical") == Bool(true);
    assert s.layout.bounds == Bounds(0.0, -600.0);
  }

  /** `repaint` re-measures and clamps the offset into the new bounds. */
  lemma RepaintClamps(cfg: Config, s: State, e: Extent)
    requires !s.disabled && e.scrollWidth >= e.clientWidth && e.scrollHeight >= e.clientHeight
    ensures var r := Repaint(cfg, s, e);
            r.layout == Calculate(cfg.options, e) && Proper(r.layout.bounds) &&
            !IsScrollOut(Position(r), r.layout.bounds) &&
            (!IsScrollOut(Position(s), r.layout.bounds) ==> Position(r) == Position(s))
  {
  }
}
