/** The arithmetic of the scrollbar plugin (`src/plugin/scrollbar.js`): the
    initial bar size, the size and offset of both bars for a rendered position,
    and the registration factory. Sizes are percentages of the track, offsets
    pixels from the track's start. */
module Scrollbar {
  import opened Js
  import opened Geometry
  import opened Motion
  import opened Engine
  import Plugins

  /** No bar is ever drawn shorter than 5% of its track. */
  const MinPercent: real := 5.0

  /** A bar's offset never passes 95% of the viewport. */
  const MaxOffsetShare: real := 0.95

  /** `Math.max(rate * 100, 5)` in `createBar`: the initial bar size, where
      `rate` is the visible share of the content. */
  function BarRate(rate: real): (r: real)
    ensures r >= MinPercent
    ensures rate * 100.0 >= MinPercent ==> r == rate * 100.0
    ensures rate * 100.0 < MinPercent ==> r == MinPercent
  {
    Max(rate * 100.0, MinPercent)
  }

  /** `Math.max(value, min - value)`: how far an out-of-bounds offset lies
      beyond its bounds. */
  function Overscroll(value: real, min: real): real
  {
    Max(value, min - value)
  }

  /** For an out-of-bounds offset the overscroll is exactly the distance to the
      clamped offset, and so it is positive. */
  lemma OverscrollIsDistance(value: real, min: real)
    requires min <= 0.0 && IsOutDir(value, min)
    ensures Overscroll(value, min) == Abs(value - Clamp(value, min))
    ensures Overscroll(value, min) > 0.0
  {
  }

  /** The size of one bar in `calculate`: the visible share of the content, cut
      by the overscroll share while the offset is out of bounds, but never below
      5%. */
  function BarLength(value: real, min: real, client: real, scroll: real): (r: real)
    requires scroll > 0.0
    ensures !IsOutDir(value, min) ==> r == client / scroll * 100.0
    ensures IsOutDir(value, min) ==> r >= MinPercent
    ensures IsOutDir(value, min) && min <= 0.0 ==> r <= Max(MinPercent, client / scroll * 100.0)
  {
    if IsOutDir(value, min) then
      var over := Overscroll(value, min) / scroll;
      Max(MinPercent, (client / scroll - over) * 100.0)
    else client / scroll * 100.0
  }

  /** A bar created at an in-bounds offset has the size the first render gives
      it, unless the visible share is below the 5% floor. */
  lemma CreatedBarMatchesRender(value: real, min: real, client: real, scroll: real)
    requires scroll > 0.0 && !IsOutDir(value, min)
    ensures client / scroll * 100.0 >= MinPercent ==> BarRate(client / scroll) == BarLength(value, min, client, scroll)
    ensures BarLength(value, min, client, scroll) <= BarRate(client / scroll)
  {
  }

  /** The offset of one bar in `calculate`: the content offset scaled to the
      viewport, kept within [0, 95% of the viewport]. */
  function BarOffset(value: real, client: real, scroll: real): (r: real)
    requires scroll > 0.0
    ensures r >= 0.0
    ensures client >= 0.0 ==> r <= MaxOffsetShare * client
    ensures var scaled := -1.0 * value / scroll * client;
            0.0 <= scaled <= MaxOffsetShare * client ==> r == scaled
  {
    var scaled := -1.0 * value / scroll * client;
    Max(0.0, Min(scaled, client * MaxOffsetShare))
  }

  /** The object `calculate` returns. */
  datatype Bars = Bars(height: real, width: real, top: real, left: real)

  /** `calculate(scroll, info)` for the rendered position `p`. */
  function Calculate(l: Layout, p: Pos): (r: Bars)
    requires l.extent.scrollHeight > 0.0 && l.extent.scrollWidth > 0.0
    ensures !IsOutDir(p.top, l.bounds.minY) ==> r.height == l.extent.clientHeight / l.extent.scrollHeight * 100.0
    ensures !IsOutDir(p.left, l.bounds.minX) ==> r.width == l.extent.clientWidth / l.extent.scrollWidth * 100.0
    ensures IsOutDir(p.top, l.bounds.minY) ==> MinPercent <= r.height
    ensures IsOutDir(p.left, l.bounds.minX) ==> MinPercent <= r.width
    ensures IsOutDir(p.top, l.bounds.minY) && l.bounds.minY <= 0.0 ==>
              r.height <= Max(MinPercent, l.extent.clientHeight / l.extent.scrollHeight * 100.0)
    ensures IsOutDir(p.left, l.bounds.minX) && l.bounds.minX <= 0.0 ==>
              r.width <= Max(MinPercent, l.extent.clientWidth / l.extent.scrollWidth * 100.0)
    ensures l.extent.clientHeight >= 0.0 ==> 0.0 <= r.top <= MaxOffsetShare * l.extent.clientHeight
    ensures l.extent.clientWidth >= 0.0 ==> 0.0 <= r.left <= MaxOffsetShare * l.extent.clientWidth
  {
    var e := l.extent;
    Bars(BarLength(p.top, l.bounds.minY, e.clientHeight, e.scrollHeight),
         BarLength(p.left, l.bounds.minX, e.clientWidth, e.scrollWidth),
         BarOffset(p.top, e.clientHeight, e.scrollHeight),
         BarOffset(p.left, e.clientWidth, e.scrollWidth))
  }

  /** Within bounds, both bars show exactly the visible share of the content. */
  lemma InBoundsBarsShowVisibleShare(l: Layout, p: Pos)
    requires l.extent.scrollHeight > 0.0 && l.extent.scrollWidth > 0.0
    requires !IsScrollOut(p, l.bounds)
    ensures Calculate(l, p).height == l.extent.clientHeight / l.extent.scrollHeight * 100.0
    ensures Calculate(l, p).width == l.extent.clientWidth / l.extent.scrollWidth * 100.0
  {
  }

  /** A bar at the start of the content sits at the start of its track. */
  lemma BarAtOriginSitsAtStart(l: Layout)
    requires l.extent.scrollHeight > 0.0 && l.extent.scrollWidth > 0.0
    ensures Calculate(l, Pos(0.0, 0.0)).top == 0.0
    ensures Calculate(l, Pos(0.0, 0.0)).left == 0.0
  {
  }

  /** The registration factory: a scrollbar (which has `reset` and `destroy`)
      only when `options.scrollbar` is truthy, otherwise `false`. */
  function Factory(options: Options): (r: Option<Plugins.Plugin>)
    ensures r.Some? <==> Truthy(Get(options, "scrollbar"))
    ensures r.Some? ==> r.value.hasReset && r.value.hasDestroy
  {
    if Truthy(Get(options, "scrollbar")) then Some(Plugins.Plugin(true, true)) else None
  }

  /** Enabling the scrollbar on a scroller that does not have it yet installs it
      exactly when the option asks for it, and it then takes part in `reset`. */
  lemma EnableInstallsIffOption(t: Plugins.Table, options: Options)
    requires Plugins.WellFormed(t) && "scrollbar" !in t.plugins
    ensures var u := Plugins.EnableOne(t, "scrollbar", Factory, options);
            ("scrollbar" in u.plugins <==> Truthy(Get(options, "scrollbar"))) &&
            ("scrollbar" in u.plugins ==> Plugins.Reset("scrollbar") in Plugins.ResetCalls(u.order, u.plugins))
  {
    var u := Plugins.EnableOne(t, "scrollbar", Factory, options);
    if "scrollbar" in u.plugins {
      assert u.order == t.order + ["scrollbar"];
      Plugins.ResetCallsExactly(u.order, u.plugins);
    }
  }
}
