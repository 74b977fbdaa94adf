/** The overflow-hint plugin (`src/plugin/overflowHint.js`): on every render it
    strips the hint classes it added before from the container's class list and
    adds one class per axis telling at which edge the content sits. The class
    list is modelled as its sequence of whitespace-free tokens. */
module OverflowHint {
  import opened Js
  import opened Geometry
  import Plugins

  /** `CLS_NAME_PREFIX`. */
  const DefaultPrefix: string := "scroll-overflow"

  /** A character the hint pattern's `[^- ]` admits. */
  predicate NameChar(c: char)
  {
    c != '-' && c != ' '
  }

  /** A name the pattern's `[^- ]+` matches. */
  predicate PlainName(name: string)
  {
    name != [] && forall i :: 0 <= i < |name| ==> NameChar(name[i])
  }

  /** A token the pattern `prefix-[^- ]+` removes: the prefix, a dash, and a
      non-empty name without dashes. */
  predicate IsHint(prefix: string, tok: string)
  {
    |tok| > |prefix| + 1 && tok[..|prefix|] == prefix && tok[|prefix|] == '-' &&
    PlainName(tok[|prefix| + 1..])
  }

  /** `options.className || CLS_NAME_PREFIX`, where `options` is the value of
      the scroller's `overflowHint` option. */
  function Prefix(options: Value): (p: string)
    ensures !Truthy(Prop(options, "className")) ==> p == DefaultPrefix
    ensures Prop(options, "className").Str? && Truthy(Prop(options, "className")) ==> p == Prop(options, "className").s
    ensures p != ""
  {
    match Prop(options, "className")
    case Str(s) => if s != "" then s else DefaultPrefix
    case _ => DefaultPrefix
  }

  /** `addClassName`: appends `prefix-name` when the name is not empty. */
  function AddClassName(classes: seq<string>, prefix: string, name: string): (r: seq<string>)
    ensures |r| == |classes| + (if name == "" then 0 else 1)
    ensures r[..|classes|] == classes
    ensures name != "" ==> r[|classes|] == prefix + "-" + name
  {
    if name != "" then classes + [prefix + "-" + name] else classes
  }

  /** The horizontal edge: `right` at or beyond the start, else `left` at or
      beyond the end, else none. The start is tested first. */
  function HorizontalHint(x: real, minX: real): (h: string)
    ensures h == "right" <==> x >= 0.0
    ensures h == "left" <==> x < 0.0 && x <= minX
    ensures h == "" <==> minX < x < 0.0
  {
    if x >= 0.0 then "right" else if x <= minX then "left" else ""
  }

  /** The vertical edge: `bottom` at or beyond the start, else `top` at or
      beyond the end, else none. */
  function VerticalHint(y: real, minY: real): (h: string)
    ensures h == "bottom" <==> y >= 0.0
    ensures h == "top" <==> y < 0.0 && y <= minY
    ensures h == "" <==> minY < y < 0.0
  {
    if y >= 0.0 then "bottom" else if y <= minY then "top" else ""
  }

  /** An offset that is out of bounds on an axis always carries a hint there. */
  lemma OutOfBoundsIsHinted(p: Pos, b: Bounds)
    ensures IsOutDir(p.left, b.minX) ==> HorizontalHint(p.left, b.minX) != ""
    ensures IsOutDir(p.top, b.minY) ==> VerticalHint(p.top, b.minY) != ""
  {
  }

  /** The tokens of `classes` that are hints (`hint` true) or are not. */
  function Select(classes: seq<string>, prefix: string, hint: bool): (r: seq<string>)
    ensures forall t :: t in r <==> t in classes && IsHint(prefix, t) == hint
    ensures |r| <= |classes|
  {
    if classes == [] then []
    else (if IsHint(prefix, classes[0]) == hint then [classes[0]] else []) + Select(classes[1..], prefix, hint)
  }

  /** `className.replace(clsNameReg, '').trim()`: the hint tokens are removed. */
  function Strip(classes: seq<string>, prefix: string): seq<string>
  {
    Select(classes, prefix, false)
  }

  lemma {:induction false} SelectAppend(a: seq<string>, b: seq<string>, prefix: string, hint: bool)
    ensures Select(a + b, prefix, hint) == Select(a, prefix, hint) + Select(b, prefix, hint)
  {
    if a == [] {
      assert a + b == b;
    } else {
      assert (a + b)[0] == a[0];
      assert (a + b)[1..] == a[1..] + b;
      SelectAppend(a[1..], b, prefix, hint);
    }
  }

  /** Selecting again from a selection changes nothing. */
  lemma {:induction false} SelectIdempotent(classes: seq<string>, prefix: string, hint: bool)
    ensures Select(Select(classes, prefix, hint), prefix, hint) == Select(classes, prefix, hint)
  {
    if classes != [] {
      SelectIdempotent(classes[1..], prefix, hint);
      var head := if IsHint(prefix, classes[0]) == hint then [classes[0]] else [];
      SelectAppend(head, Select(classes[1..], prefix, hint), prefix, hint);
    }
  }

  /** Every edge name the plugin adds is itself a hint token, so the next render
      strips it. */
  lemma EdgeClassIsHint(prefix: string, name: string)
    requires name in {"right", "left", "bottom", "top"}
    ensures IsHint(prefix, prefix + "-" + name)
  {
    var tok := prefix + "-" + name;
    assert tok[..|prefix|] == prefix;
    assert tok[|prefix|] == '-';
    assert tok[|prefix| + 1..] == name;
  }

  /** `OverflowHint.prototype.render` on the container's class list for the
      offset `p` within bounds `b`. */
  function RenderedClasses(classes: seq<string>, prefix: string, p: Pos, b: Bounds): seq<string>
  {
    var kept := Strip(classes, prefix);
    AddClassName(AddClassName(kept, prefix, HorizontalHint(p.left, b.minX)), prefix, VerticalHint(p.top, b.minY))
  }

  /** What a render adds: the two edge classes, either of them absent when the
      offset is strictly inside its bounds on that axis. */
  function EdgeClasses(prefix: string, p: Pos, b: Bounds): seq<string>
  {
    AddClassName(AddClassName([], prefix, HorizontalHint(p.left, b.minX)), prefix, VerticalHint(p.top, b.minY))
  }

  lemma EdgeClassesAreHints(prefix: string, p: Pos, b: Bounds)
    ensures Select(EdgeClasses(prefix, p, b), prefix, true) == EdgeClasses(prefix, p, b)
    ensures Select(EdgeClasses(prefix, p, b), prefix, false) == []
  {
    var h := HorizontalHint(p.left, b.minX);
    var v := VerticalHint(p.top, b.minY);
    var hs := if h == "" then [] else [prefix + "-" + h];
    var vs := if v == "" then [] else [prefix + "-" + v];
    assert EdgeClasses(prefix, p, b) == hs + vs;
    if h != "" {
      EdgeClassIsHint(prefix, h);
    }
    if v != "" {
      EdgeClassIsHint(prefix, v);
    }
    SelectAppend(hs, vs, prefix, true);
    SelectAppend(hs, vs, prefix, false);
  }

  /** A render keeps the non-hint classes, in order. */
  lemma RenderKeepsOthers(classes: seq<string>, prefix: string, p: Pos, b: Bounds)
    ensures Strip(RenderedClasses(classes, prefix, p, b), prefix) == Strip(classes, prefix)
  {
    var kept := Strip(classes, prefix);
    var edges := EdgeClasses(prefix, p, b);
    assert RenderedClasses(classes, prefix, p, b) == kept + edges;
    SelectAppend(kept, edges, prefix, false);
    SelectIdempotent(classes, prefix, false);
    EdgeClassesAreHints(prefix, p, b);
    assert Select(kept, prefix, false) + [] == kept;
  }

  /** The hint classes after a render are exactly the edge classes it added. */
  lemma RenderHintsAreEdges(classes: seq<string>, prefix: string, p: Pos, b: Bounds)
    ensures Select(RenderedClasses(classes, prefix, p, b), prefix, true) == EdgeClasses(prefix, p, b)
  {
    var kept := Strip(classes, prefix);
    var edges := EdgeClasses(prefix, p, b);
    assert RenderedClasses(classes, prefix, p, b) == kept + edges;
    SelectAppend(kept, edges, prefix, true);
    NoHintsInStripped(classes, prefix);
    EdgeClassesAreHints(prefix, p, b);
    assert [] + edges == edges;
  }

  /** After a render the other classes are kept in order, and the hint classes
      are exactly one per axis at an edge: none from earlier renders survive. */
  lemma RenderReplacesHints(classes: seq<string>, prefix: string, p: Pos, b: Bounds)
    ensures Strip(RenderedClasses(classes, prefix, p, b), prefix) == Strip(classes, prefix)
    ensures Select(RenderedClasses(classes, prefix, p, b), prefix, true) == EdgeClasses(prefix, p, b)
    ensures |Select(RenderedClasses(classes, prefix, p, b), prefix, true)| <= 2
  {
    RenderKeepsOthers(classes, prefix, p, b);
    RenderHintsAreEdges(classes, prefix, p, b);
  }

  lemma {:induction false} NoHintsInStripped(classes: seq<string>, prefix: string)
    ensures Select(Strip(classes, prefix), prefix, true) == []
  {
    if classes != [] {
      NoHintsInStripped(classes[1..], prefix);
      var head := if !IsHint(prefix, classes[0]) then [classes[0]] else [];
      SelectAppend(head, Strip(classes[1..], prefix), prefix, true);
    }
  }

  /** Rendering the same offset twice gives the same class list as rendering it once. */
  lemma RenderIdempotent(classes: seq<string>, prefix: string, p: Pos, b: Bounds)
    ensures RenderedClasses(RenderedClasses(classes, prefix, p, b), prefix, p, b) == RenderedClasses(classes, prefix, p, b)
  {
    RenderReplacesHints(classes, prefix, p, b);
  }

  /** The registration factory: a hint plugin (which has `destroy` but no
      `reset`) only when `options.overflowHint` is truthy, otherwise `false`. */
  function Factory(options: Options): (r: Option<Plugins.Plugin>)
    ensures r.Some? <==> Truthy(Get(options, "overflowHint"))
    ensures r.Some? ==> !r.value.hasReset && r.value.hasDestroy
  {
    if Truthy(Get(options, "overflowHint")) then Some(Plugins.Plugin(false, true)) else None
  }

  /** The element whose class list the plugin rewrites. */
  class Container {
    var classes: seq<string>

    constructor (classes: seq<string>)
      ensures this.classes == classes
    {
      this.classes := classes;
    }
  }

  /** The plugin object: its prefix and the container it decorates. */
  class Hint {
    const prefix: string
    const container: Container

    /** The constructor reads the prefix and renders the scroller's current offset. */
    constructor (options: Value, container: Container, p: Pos, b: Bounds)
      modifies container
      ensures prefix == Prefix(options) && this.container == container
      ensures container.classes == RenderedClasses(old(container.classes), Prefix(options), p, b)
    {
      prefix := Prefix(options);
      this.container := container;
      new;
      Render(p, b);
    }

    /** `render`: rewrites the container's class list for offset `p`. */
    method Render(p: Pos, b: Bounds)
      modifies container
      ensures container.classes == RenderedClasses(old(container.classes), prefix, p, b)
    {
      var kept := Strip(container.classes, prefix);
      kept := AddClassName(kept, prefix, HorizontalHint(p.left, b.minX));
      kept := AddClassName(kept, prefix, VerticalHint(p.top, b.minY));
      container.classes := kept;
    }
  }
}
