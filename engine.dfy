/** The gesture-to-motion engine of `src/Scroller.js` and its twin `src/Scroll.js`,
    as functions from the controller's state to its next state. The class in
    controller.dfy carries out the same steps in place and is proved to match.

    The two files are one controller with four differences, selected by
    `Variant`: what the move handler stores as the release delta, when it
    suppresses the touch event, whether `disable` passes an event to the end
    handler, and whether a new position is clamped always or only when it is
    out of bounds (`Corrects`). */
module Engine {
  import opened Js
  import opened Geometry
  import opened Motion

  /** `STATUS`: IDLE = 0, PREPARE = 1, SCROLLING = 2. */
  datatype Status = Idle | Prepare | Scrolling

  datatype Variant = ScrollerJs | ScrollJs

  /** What the controller emits (`:render`, `:start`, `scroll`, `:end`) and what
      it does to the touch event (`stopEvent`, `preventDefault`), in order. */
  datatype Notice =
    | EmitRender(left: real, top: real, duration: real)
    | EmitStart
    | EmitScroll(left: real, top: real)
    | EmitEnd
    | StopEvent
    | PreventDefault

  /** Moves shorter than this on both axes are ignored. */
  const Threshold: real := 10.0

  /** Divisor of a move's delta on an axis that is already out of bounds. */
  const Resistance: real := 3.0

  /** Duration of the snap-back transition. */
  const SnapBackDuration: real := 0.5

  /** The wrapper element's measurements read by `calculate`. */
  datatype Extent = Extent(clientWidth: real, clientHeight: real, scrollWidth: real, scrollHeight: real)

  /** What `calculate` stores on the scroller. */
  datatype Layout = Layout(bounds: Bounds, extent: Extent, vertical: bool, horizontal: bool)

  /** Fixed at construction: the variant, the merged options (`initialOptions`)
      and the truthiness of their `overflow` entry. */
  datatype Config = Config(variant: Variant, options: Options, overflow: bool)

  /** The `info` bag. */
  datatype Info = Info(
    top: real, left: real, status: Status,
    pointX: real, pointY: real, time: real,
    dx: real, dy: real, dt: real,
    frame: Option<nat>)

  /** Everything a handler may change: the layout, the `info` bag, the state of
      the running `step` closure, the snap-back transitions whose completion is
      still to come, the next animation-frame handle, the disabled flag, and the
      emitted notices. */
  datatype State = State(
    layout: Layout,
    info: Info,
    momentum: Momentum,
    snapBacks: nat,
    nextFrame: nat,
    disabled: bool,
    log: seq<Notice>)

  /** A handler either returns or throws; `Threw` holds the state at the throw. */
  datatype Outcome = Done(state: State) | Threw(state: State)

  /** `DEFAUTL_PROPERTYS`. */
  const DefaultOptions: Options :=
    map["scrollbar" := Bool(false), "vertical" := Bool(true), "horizontal" := Bool(true), "overflow" := Bool(true)]

  /** The constructor's `extend({}, DEFAUTL_PROPERTYS, options)` and `me[key] = ...`. */
  function MakeConfig(variant: Variant, options: Options): (c: Config)
    ensures forall k :: k in options ==> Get(c.options, k) == options[k]
    ensures forall k :: k !in options ==> Get(c.options, k) == Get(DefaultOptions, k)
    ensures c.overflow <==> "overflow" !in options || Truthy(options["overflow"])
  {
    var merged := DefaultOptions + options;
    Config(variant, merged, Truthy(Get(merged, "overflow")))
  }

  function Position(s: State): Pos
  {
    Pos(s.info.top, s.info.left)
  }

  /** `calculate`: the bounds are client size minus content size; an axis is
      enabled when its option is not literally `false` and the content overflows it. */
  function Calculate(options: Options, e: Extent): (l: Layout)
    ensures l.bounds.minX == e.clientWidth - e.scrollWidth
    ensures l.bounds.minY == e.clientHeight - e.scrollHeight
    ensures l.extent == e
    ensures l.vertical <==> Get(options, "vertical") != Bool(false) && e.scrollHeight > e.clientHeight
    ensures l.horizontal <==> Get(options, "horizontal") != Bool(false) && e.scrollWidth > e.clientWidth
  {
    var b := Bounds(e.clientWidth - e.scrollWidth, e.clientHeight - e.scrollHeight);
    Layout(b, e, Get(options, "vertical") != Bool(false) && b.minY < 0.0,
           Get(options, "horizontal") != Bool(false) && b.minX < 0.0)
  }

  /** The state `initScroller` leaves: offset (0, 0), IDLE, enabled, nothing emitted. */
  function Initial(cfg: Config, e: Extent): State
  {
    State(Calculate(cfg.options, e),
          Info(0.0, 0.0, Idle, 0.0, 0.0, 0.0, 0.0, 0.0, 0.0, None),
          Momentum(0.0, 0.0, 0.0, 0.0, 0.0),
          0, 1, false, [])
  }

  /** `render`: emits `:render`, then stores the position as the offset. */
  function Render(s: State, p: Pos, duration: real): State
  {
    s.(info := s.info.(top := p.top, left := p.left),
       log := s.log + [EmitRender(p.left, p.top, duration)])
  }

  /** `stopAnimate`: cancels the pending animation frame, if any. */
  function StopAnimate(s: State): State
  {
    if s.info.frame.Some? then s.(info := s.info.(frame := None)) else s
  }

  /** `requestAnimationFrame(step)`: a fresh handle is stored in `info.frame`. */
  function RequestFrame(s: State): State
  {
    s.(info := s.info.(frame := Some(s.nextFrame)), nextFrame := s.nextFrame + 1)
  }

  /** `resetScroll`: renders the normalized offset with duration 0.5; the status
      stays as it is until the transition completes. */
  function ResetScroll(s: State): State
  {
    Render(s, NormalizePos(Position(s), s.layout.bounds), SnapBackDuration).(snapBacks := s.snapBacks + 1)
  }

  /** The `.then` of `resetScroll`: a pending snap-back completes, the status
      becomes IDLE and `:end` is emitted. */
  function SnapBackDone(s: State): State
  {
    if s.snapBacks == 0 then s
    else s.(info := s.info.(status := Idle), snapBacks := s.snapBacks - 1, log := s.log + [EmitEnd])
  }

  /** `finishScroll`: the status becomes IDLE (momentum may be interrupted), the
      release velocity is the last delta over the last interval, and the first
      step is scheduled. */
  function FinishScroll(s: State, now: real): State
    requires s.info.dt != 0.0
  {
    RequestFrame(s.(info := s.info.(status := Idle),
                    momentum := Release(s.info.dx, s.info.dy, s.info.dt, now)))
  }

  /** `scrollStartHandler`. */
  function StartHandler(s: State, x: real, y: real, now: real): State
  {
    if s.info.status == Scrolling then s
    else
      var c := StopAnimate(s);
      c.(info := c.info.(pointX := x, pointY := y, time := now, dx := 0.0, dy := 0.0, dt := 0.0, status := Prepare))
  }

  /** The raw delta on one axis: zero when the axis is disabled. */
  function Delta(enabled: bool, coord: real, reference: real): real
  {
    if enabled then coord - reference else 0.0
  }

  /** A move counts once it reaches the threshold on either axis. */
  predicate Accepted(dx: real, dy: real)
  {
    !(Abs(dx) < Threshold && Abs(dy) < Threshold)
  }

  /** The increment applied on one axis: a third of the delta while the current
      offset on that axis is out of bounds. */
  function Resisted(d: real, value: real, min: real): real
  {
    if IsOutDir(value, min) then d / Resistance else d
  }

  /** The overflow correction applied to a new position: Scroller.js normalizes
      whenever overflow is disallowed, Scroll.js only when the position is out. */
  predicate Corrects(cfg: Config, p: Pos, b: Bounds)
  {
    !cfg.overflow && (cfg.variant == ScrollerJs || IsScrollOut(p, b))
  }

  /** The position that reaches `render` after the overflow correction. */
  function Corrected(cfg: Config, p: Pos, b: Bounds): Pos
  {
    if Corrects(cfg, p, b) then NormalizePos(p, b) else p
  }

  /** The first accepted move of a gesture turns PREPARE into SCROLLING and
      emits `:start`; Scroll.js then calls `preventDefault`. */
  function Engage(cfg: Config, s: State): State
  {
    var s1 := if s.info.status == Prepare
              then s.(info := s.info.(status := Scrolling), log := s.log + [EmitStart])
              else s;
    if cfg.variant == ScrollJs then s1.(log := s1.log + [PreventDefault]) else s1
  }

  /** The rest of an accepted move: the reference point advances by the delta,
      the release delta is stored, the offset moves by the (resisted) delta and
      is rendered, `scroll` is emitted with the sign-flipped position, and the
      interval since the previous move is recorded. */
  function Drag(cfg: Config, s: State, dx: real, dy: real, now: real): State
  {
    var b := s.layout.bounds;
    var incX := Resisted(dx, s.info.left, b.minX);
    var incY := Resisted(dy, s.info.top, b.minY);
    var p := Corrected(cfg, Pos(s.info.top + incY, s.info.left + incX), b);
    var s1 := s.(info := s.info.(
                   pointX := s.info.pointX + dx, pointY := s.info.pointY + dy,
                   dx := if cfg.variant == ScrollerJs then incX else dx,
                   dy := if cfg.variant == ScrollerJs then incY else dy));
    var s2 := Render(s1, p, 0.0);
    s2.(info := s2.info.(dt := now - s2.info.time, time := now),
        log := s2.log + [EmitScroll(-1.0 * p.left, -1.0 * p.top)])
  }

  /** `scrollMoveHandler`. */
  function MoveHandler(cfg: Config, s: State, x: real, y: real, now: real): State
  {
    if s.info.status == Idle then s
    else
      var dx := Delta(s.layout.horizontal, x, s.info.pointX);
      var dy := Delta(s.layout.vertical, y, s.info.pointY);
      var s1 := if cfg.variant == ScrollerJs then s.(log := s.log + [StopEvent]) else s;
      if !Accepted(dx, dy) then s1
      else Drag(cfg, Engage(cfg, s1), dx, dy, now)
  }

  /** `scrollEndHandler`; `event` says whether the caller passed a touch event.
      Scroller.js calls `stopEvent(e)` in SCROLLING, which throws without one. */
  function EndHandler(cfg: Config, s: State, now: real, event: bool): Outcome
  {
    if s.info.status != Scrolling then Done(s.(info := s.info.(status := Idle)))
    else if cfg.variant == ScrollerJs && !event then Threw(s)
    else
      var s1 := if cfg.variant == ScrollerJs then s.(log := s.log + [StopEvent]) else s;
      if s1.info.dt == 0.0 then Done(s1.(info := s1.info.(status := Idle)))
      else if IsScrollOut(Position(s1), s1.layout.bounds) then Done(ResetScroll(s1))
      else Done(FinishScroll(s1, now))
  }

  /** The position one tick of momentum would reach before any correction. */
  function Projected(s: State, now: real): Pos
  {
    var m := s.momentum;
    var dt := now - m.time;
    Pos(s.info.top + Displacement(m.speedY, m.acceY, dt), s.info.left + Displacement(m.speedX, m.acceX, dt))
  }

  /** One tick of `step` up to the render: both axes decelerate, the position
      advances by the trapezoidal displacement, an axis that would leave its
      bounds while overflow is disallowed stops and the position is clamped, and
      an axis still moving while out of bounds brakes five times harder. */
  function Tick(cfg: Config, s: State, now: real): State
  {
    var m := s.momentum;
    var dt := now - m.time;
    var b := s.layout.bounds;
    var raw := Projected(s, now);
    var fix := Corrects(cfg, raw, b);
    var sx := if fix && IsOutDir(raw.left, b.minX) then 0.0 else NextSpeed(m.speedX, m.acceX, dt);
    var sy := if fix && IsOutDir(raw.top, b.minY) then 0.0 else NextSpeed(m.speedY, m.acceY, dt);
    var p := if fix then NormalizePos(raw, b) else raw;
    var s1 := Render(s, p, 0.0);
    var ax := if sx != 0.0 && IsOutDir(p.left, b.minX) then m.acceX * OutOfBoundsBrake else m.acceX;
    var ay := if sy != 0.0 && IsOutDir(p.top, b.minY) then m.acceY * OutOfBoundsBrake else m.acceY;
    s1.(momentum := Momentum(sx, sy, ax, ay, now))
  }

  /** The end of a tick: another frame while an axis moves; otherwise a snap-back
      (in SCROLLING, so new touches wait for it) when out of bounds, else `:end`. */
  function Settle(s: State): State
  {
    if KeepsStepping(s.momentum.speedX, s.momentum.speedY) then RequestFrame(s)
    else if IsScrollOut(Position(s), s.layout.bounds) then ResetScroll(s.(info := s.info.(status := Scrolling)))
    else s.(log := s.log + [EmitEnd])
  }

  /** The `step` of `finishScroll`, fired by the animation frame at clock `now`;
      it does nothing once the status is no longer IDLE. */
  function Step(cfg: Config, s: State, now: real): State
  {
    if s.info.status != Idle then s else Settle(Tick(cfg, s, now))
  }

  /** The `wrapHandler` guard: a disabled scroller ignores touch events. */
  function TouchStart(s: State, x: real, y: real, now: real): State
  {
    if s.disabled then s else StartHandler(s, x, y, now)
  }

  function TouchMove(cfg: Config, s: State, x: real, y: real, now: real): State
  {
    if s.disabled then s else MoveHandler(cfg, s, x, y, now)
  }

  function TouchEnd(cfg: Config, s: State, now: real): State
  {
    if s.disabled then s else EndHandler(cfg, s, now, true).state
  }

  /** The inner `scrollTo`: renders the normalized position. */
  function ScrollToInner(s: State, top: real, left: real, duration: real): State
  {
    Render(s, NormalizePos(Pos(top, left), s.layout.bounds), duration)
  }

  /** `args.shift() || 0` and `args[0] || 0` on the remaining arguments. */
  function First(args: seq<real>): real
  {
    if |args| > 0 then args[0] else 0.0
  }

  function Rest(args: seq<real>): seq<real>
  {
    if |args| > 0 then args[1..] else []
  }

  /** The public `scrollTo(top?, left?, duration?)`: a disabled axis takes no
      argument and keeps the internal offset, whose sign is then flipped with
      the others. */
  function ScrollTo(s: State, args: seq<real>): State
  {
    if s.disabled then s
    else
      var top := if s.layout.vertical then First(args) else s.info.top;
      var rest := if s.layout.vertical then Rest(args) else args;
      var left := if s.layout.horizontal then First(rest) else s.info.left;
      var rest2 := if s.layout.horizontal then Rest(rest) else rest;
      ScrollToInner(s, -1.0 * top, -1.0 * left, First(rest2))
  }

  /** `repaint` (the plugin reset is the host's part): re-measures and re-renders
      the current offset, normalized into the new bounds. */
  function Repaint(cfg: Config, s: State, e: Extent): State
  {
    if s.disabled then s
    else
      var s1 := s.(layout := Calculate(cfg.options, e));
      ScrollToInner(s1, s1.info.top, s1.info.left, 0.0)
  }

  /** `disable`: once disabled, a gesture in SCROLLING is ended as by a touch
      end without an event, and the pending frame is cancelled. */
  function Disable(cfg: Config, s: State, now: real): Outcome
  {
    if s.disabled then Done(s)
    else
      var s1 := s.(disabled := true);
      if s1.info.status != Scrolling then Done(s1)
      else
        match EndHandler(cfg, s1, now, false)
        case Threw(t) => Threw(t)
        case Done(t) => Done(StopAnimate(t))
  }

  function Enable(s: State): State
  {
    s.(disabled := false)
  }

  function GetScrollTop(s: State): real
  {
    -1.0 * s.info.top
  }

  function GetScrollLeft(s: State): real
  {
    -1.0 * s.info.left
  }
}
