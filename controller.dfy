/** The scroller object: the `info` bag, the layout fields `calculate` writes, the
    closure state of the running `step`, and the `plugins` dictionary, updated in
    place by the handlers exactly as the functions of module Engine describe. */
module Controller {
  import opened Js
  import opened Geometry
  import opened Motion
  import opened Engine
  import Plugins

  class Scroller {
    const cfg: Config
    /** `scroller.plugins`. */
    const plugins: Plugins.Host
    var layout: Layout
    var info: Info
    /** `speed`, `acce` and `time` of the current `step` closure. */
    var momentum: Momentum
    /** Snap-back transitions whose `.then` has not run yet. */
    var snapBacks: nat
    /** The handle the next `requestAnimationFrame` returns. */
    var nextFrame: nat
    var disabled: bool
    var log: seq<Notice>

    ghost predicate Valid()
      reads this, plugins
    {
      plugins.Valid()
    }

    function Current(): State
      reads this
    {
      State(layout, info, momentum, snapBacks, nextFrame, disabled, log)
    }

    /** The constructor: merges the options, runs `initScroller` and enables the
        registered plugins with the caller's options. */
    constructor (variant: Variant, options: Options, e: Extent, registry: Plugins.Registry)
      requires registry.Valid()
      ensures Valid() && fresh(plugins)
      ensures cfg == MakeConfig(variant, options)
      ensures Current() == Initial(cfg, e)
      ensures plugins.Snapshot() == Plugins.EnableAll(Plugins.Table([], map[], []), registry.names, registry.factories, options)
    {
      cfg := MakeConfig(variant, options);
      layout := Calculate(MakeConfig(variant, options).options, e);
      info := Info(0.0, 0.0, Idle, 0.0, 0.0, 0.0, 0.0, 0.0, 0.0, None);
      momentum := Momentum(0.0, 0.0, 0.0, 0.0, 0.0);
      snapBacks, nextFrame, disabled, log := 0, 1, false, [];
      var host := new Plugins.Host();
      plugins := host;
      new;
      registry.Enable(host, options);
    }

    /** `render`. */
    method Render(p: Pos, duration: real)
      modifies this
      ensures Current() == Engine.Render(old(Current()), p, duration)
    {
      log := log + [EmitRender(p.left, p.top, duration)];
      info := info.(top := p.top, left := p.left);
    }

    /** `stopAnimate`. */
    method StopAnimate()
      modifies this
      ensures Current() == Engine.StopAnimate(old(Current()))
    {
      if info.frame.Some? {
        info := info.(frame := None);
      }
    }

    method RequestFrame()
      modifies this
      ensures Current() == Engine.RequestFrame(old(Current()))
    {
      info := info.(frame := Some(nextFrame));
      nextFrame := nextFrame + 1;
    }

    /** `resetScroll`. */
    method ResetScroll()
      modifies this
      ensures Current() == Engine.ResetScroll(old(Current()))
    {
      var pos := NormalizePos(Pos(info.top, info.left), layout.bounds);
      Render(pos, SnapBackDuration);
      snapBacks := snapBacks + 1;
    }

    /** The snap-back transition has finished. */
    method SnapBackDone()
      modifies this
      ensures Current() == Engine.SnapBackDone(old(Current()))
    {
      if snapBacks > 0 {
        snapBacks := snapBacks - 1;
        info := info.(status := Idle);
        log := log + [EmitEnd];
      }
    }

    /** `finishScroll`. */
    method FinishScroll(now: real)
      requires info.dt != 0.0
      modifies this
      ensures Current() == Engine.FinishScroll(old(Current()), now)
    {
      info := info.(status := Idle);
      var speedX := info.dx / info.dt;
      var speedY := info.dy / info.dt;
      momentum := Momentum(speedX, speedY, InitialAcce(speedX), InitialAcce(speedY), now);
      RequestFrame();
    }

    /** `step`: one animation frame of momentum at clock `now`. */
    method Step(now: real)
      modifies this
      ensures Current() == Engine.Step(cfg, old(Current()), now)
    {
      if info.status != Idle {
        return;
      }
      Tick(now);
      Settle();
    }

    /** The arithmetic and the render of one tick. */
    method Tick(now: real)
      modifies this
      ensures Current() == Engine.Tick(cfg, old(Current()), now)
    {
      var dt := now - momentum.time;
      var vy := momentum.speedY + momentum.acceY * dt;
      var vx := momentum.speedX + momentum.acceX * dt;
      var dy := (momentum.speedY + vy) * dt / 2.0;
      var dx := (momentum.speedX + vx) * dt / 2.0;
      var speedX := if vx * momentum.acceX < 0.0 then vx else 0.0;
      var speedY := if vy * momentum.acceY < 0.0 then vy else 0.0;
      var pos := Pos(info.top + dy, info.left + dx);
      assert pos == Projected(old(Current()), now);
      var b := layout.bounds;
      if !cfg.overflow && (cfg.variant == ScrollerJs || IsScrollOut(pos, b)) {
        if IsOutDir(pos.left, b.minX) {
          speedX := 0.0;
        }
        if IsOutDir(pos.top, b.minY) {
          speedY := 0.0;
        }
        pos := NormalizePos(pos, b);
      }
      Render(pos, 0.0);
      var acceX, acceY := momentum.acceX, momentum.acceY;
      if speedX != 0.0 && IsOutDir(info.left, b.minX) {
        acceX := acceX * OutOfBoundsBrake;
      }
      if speedY != 0.0 && IsOutDir(info.top, b.minY) {
        acceY := acceY * OutOfBoundsBrake;
      }
      momentum := Momentum(speedX, speedY, acceX, acceY, now);
    }

    /** The continuation decision at the end of a tick. */
    method Settle()
      modifies this
      ensures Current() == Engine.Settle(old(Current()))
    {
      if KeepsStepping(momentum.speedX, momentum.speedY) {
        RequestFrame();
      } else if IsScrollOut(Pos(info.top, info.left), layout.bounds) {
        info := info.(status := Scrolling);
        ResetScroll();
      } else {
        log := log + [EmitEnd];
      }
    }

    /** `scrollStartHandler`. */
    method StartHandler(x: real, y: real, now: real)
      modifies this
      ensures Current() == Engine.StartHandler(old(Current()), x, y, now)
    {
      if info.status == Scrolling {
        return;
      }
      StopAnimate();
      info := info.(pointX := x, pointY := y, time := now);
      info := info.(dx := 0.0, dy := 0.0, dt := 0.0);
      info := info.(status := Prepare);
    }

    /** `scrollMoveHandler`. */
    method MoveHandler(x: real, y: real, now: real)
      modifies this
      ensures Current() == Engine.MoveHandler(cfg, old(Current()), x, y, now)
    {
      if info.status == Idle {
        return;
      }
      var dx := if layout.horizontal then x - info.pointX else 0.0;
      var dy := if layout.vertical then y - info.pointY else 0.0;
      if cfg.variant == ScrollerJs {
        log := log + [StopEvent];
      }
      if Abs(dx) < Threshold && Abs(dy) < Threshold {
        return;
      }
      Engage();
      Drag(dx, dy, now);
    }

    /** Entering SCROLLING on the first accepted move. */
    method Engage()
      modifies this
      ensures Current() == Engine.Engage(cfg, old(Current()))
    {
      if info.status == Prepare {
        info := info.(status := Scrolling);
        log := log + [EmitStart];
      }
      if cfg.variant == ScrollJs {
        log := log + [PreventDefault];
      }
    }

    /** The offset update of an accepted move. */
    method Drag(dx: real, dy: real, now: real)
      modifies this
      ensures Current() == Engine.Drag(cfg, old(Current()), dx, dy, now)
    {
      var b := layout.bounds;
      var incX := Resisted(dx, info.left, b.minX);
      var incY := Resisted(dy, info.top, b.minY);
      var pos := Corrected(cfg, Pos(info.top + incY, info.left + incX), b);
      info := info.(pointX := info.pointX + dx, pointY := info.pointY + dy);
      if cfg.variant == ScrollerJs {
        info := info.(dx := incX, dy := incY);
      } else {
        info := info.(dx := dx, dy := dy);
      }
      Render(pos, 0.0);
      log := log + [EmitScroll(-1.0 * pos.left, -1.0 * pos.top)];
      info := info.(dt := now - info.time);
      info := info.(time := now);
    }

    /** `scrollEndHandler`; `threw` reports the exception of `stopEvent(undefined)`. */
    method EndHandler(now: real, event: bool) returns (threw: bool)
      modifies this
      ensures Current() == Engine.EndHandler(cfg, old(Current()), now, event).state
      ensures threw <==> Engine.EndHandler(cfg, old(Current()), now, event).Threw?
    {
      threw := false;
      if info.status != Scrolling {
        info := info.(status := Idle);
        return;
      }
      if cfg.variant == ScrollerJs {
        if !event {
          threw := true;
          return;
        }
        log := log + [StopEvent];
      }
      if info.dt == 0.0 {
        info := info.(status := Idle);
      } else if IsScrollOut(Pos(info.top, info.left), layout.bounds) {
        ResetScroll();
      } else {
        FinishScroll(now);
      }
    }

    /** The `touchstart` listener built by `wrapHandler`. */
    method TouchStart(x: real, y: real, now: real)
      modifies this
      ensures Current() == Engine.TouchStart(old(Current()), x, y, now)
    {
      if disabled {
        return;
      }
      StartHandler(x, y, now);
    }

    /** The `touchmove` listener built by `wrapHandler`. */
    method TouchMove(x: real, y: real, now: real)
      modifies this
      ensures Current() == Engine.TouchMove(cfg, old(Current()), x, y, now)
    {
      if disabled {
        return;
      }
      MoveHandler(x, y, now);
    }

    /** The `touchend` listener built by `wrapHandler`. */
    method TouchEnd(now: real)
      modifies this
      ensures Current() == Engine.TouchEnd(cfg, old(Current()), now)
    {
      if disabled {
        return;
      }
      var _ := EndHandler(now, true);
    }

    /** The inner `scrollTo`. */
    method ScrollToInner(top: real, left: real, duration: real)
      modifies this
      ensures Current() == Engine.ScrollToInner(old(Current()), top, left, duration)
    {
      var pos := NormalizePos(Pos(top, left), layout.bounds);
      Render(pos, duration);
    }

    /** The public `scrollTo`. */
    method ScrollTo(args: seq<real>)
      modifies this
      ensures Current() == Engine.ScrollTo(old(Current()), args)
    {
      if disabled {
        return;
      }
      var rest := args;
      var top := info.top;
      var left := info.left;
      if layout.vertical {
        top := First(rest);
        rest := Rest(rest);
      }
      if layout.horizontal {
        left := First(rest);
        rest := Rest(rest);
      }
      ScrollToInner(-1.0 * top, -1.0 * left, First(rest));
    }

    /** `repaint`: re-measures, resets the plugins, re-renders the offset. */
    method Repaint(e: Extent)
      requires Valid()
      modifies this, plugins
      ensures Valid()
      ensures Current() == Engine.Repaint(cfg, old(Current()), e)
      ensures plugins.order == old(plugins.order) && plugins.plugins == old(plugins.plugins)
      ensures plugins.calls == old(plugins.calls) +
                (if old(disabled) then [] else Plugins.ResetCalls(plugins.order, plugins.plugins))
    {
      if disabled {
        return;
      }
      layout := Calculate(cfg.options, e);
      plugins.Reset();
      ScrollToInner(info.top, info.left, 0.0);
    }

    /** `getScrollTop`: the offset with its sign flipped. */
    method GetScrollTop() returns (r: real)
      ensures r == Engine.GetScrollTop(Current())
      ensures r >= 0.0 <==> info.top <= 0.0
    {
      r := -1.0 * info.top;
    }

    /** `getScrollLeft`: the offset with its sign flipped. */
    method GetScrollLeft() returns (r: real)
      ensures r == Engine.GetScrollLeft(Current())
      ensures r >= 0.0 <==> info.left <= 0.0
    {
      r := -1.0 * info.left;
    }

    /** `disable`; `threw` reports the exception Scroller.js raises in SCROLLING. */
    method Disable(now: real) returns (threw: bool)
      modifies this
      ensures Current() == Engine.Disable(cfg, old(Current()), now).state
      ensures threw <==> Engine.Disable(cfg, old(Current()), now).Threw?
    {
      threw := false;
      if disabled {
        return;
      }
      disabled := true;
      if info.status == Scrolling {
        threw := EndHandler(now, false);
        if threw {
          return;
        }
        StopAnimate();
      }
    }

    /** `enable`. */
    method Enable()
      modifies this
      ensures Current() == Engine.Enable(old(Current()))
    {
      disabled := false;
    }

    /** `destroy`: every plugin is disabled. */
    method Destroy()
      requires Valid()
      modifies plugins
      ensures Valid()
      ensures plugins.Snapshot() == Plugins.DisableAll(old(plugins.Snapshot()), old(plugins.order))
    {
      plugins.Disable("");
    }
  }
}
