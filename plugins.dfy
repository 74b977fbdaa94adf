/** The plugin registry of `src/plugin.js`: a module-wide dictionary of factories
    by name, and per scroller a dictionary of the plugins those factories
    accepted. For the non-numeric plugin names used, object keys iterate in
    insertion order, so both dictionaries keep their key order beside the map. */
module Plugins {
  import opened Js

  /** What a factory hands back when it accepts: the registry only asks whether
      the plugin object has a `reset` and a `destroy` method. */
  datatype Plugin = Plugin(hasReset: bool, hasDestroy: bool)

  /** A factory receives the scroller's options and returns a plugin, or `None`
      for the falsy value (`false`) that declines. */
  type Factory = Options -> Option<Plugin>

  /** A call the registry makes into plugin code. */
  datatype Call = Invoke(name: string) | Reset(name: string) | Destroy(name: string)

  predicate Distinct(s: seq<string>)
  {
    forall i, j :: 0 <= i < j < |s| ==> s[i] != s[j]
  }

  /** A scroller's `plugins` dictionary (keys in insertion order) and the calls
      made into plugin code so far. */
  datatype Table = Table(order: seq<string>, plugins: map<string, Plugin>, calls: seq<Call>)

  ghost predicate WellFormed(t: Table)
  {
    Distinct(t.order) && forall n :: n in t.plugins <==> n in t.order
  }

  /** One round of `enable`'s loop: a name already enabled is skipped without
      calling its factory; otherwise the factory is called and a truthy result stored. */
  function EnableOne(t: Table, name: string, f: Factory, options: Options): Table
  {
    if name in t.plugins then t
    else
      var r := f(options);
      var called := t.(calls := t.calls + [Invoke(name)]);
      if r.Some? then called.(order := t.order + [name], plugins := t.plugins[name := r.value])
      else called
  }

  /** `enable`: one round per registered name, in registration order. */
  function EnableAll(t: Table, names: seq<string>, factories: map<string, Factory>, options: Options): Table
    requires forall n :: n in names ==> n in factories
    decreases |names|
  {
    if names == [] then t
    else
      var last := names[|names| - 1];
      EnableOne(EnableAll(t, names[..|names| - 1], factories, options), last, factories[last], options)
  }

  function Without(s: seq<string>, name: string): (r: seq<string>)
    ensures forall n :: n in r <==> n in s && n != name
    ensures Distinct(s) ==> Distinct(r)
  {
    if s == [] then []
    else if s[0] == name then Without(s[1..], name)
    else
      assert Distinct(s) ==> s[0] !in s[1..];
      [s[0]] + Without(s[1..], name)
  }

  /** One round of `disable`'s loop: an enabled plugin is destroyed when it has
      `destroy`, then deleted; a name not enabled is skipped. */
  function DisableOne(t: Table, name: string): (r: Table)
    ensures r.plugins == t.plugins - {name}
    ensures r.calls == t.calls + (if name in t.plugins && t.plugins[name].hasDestroy then [Destroy(name)] else [])
    ensures WellFormed(t) ==> WellFormed(r)
  {
    if name in t.plugins then
      var p := t.plugins[name];
      Table(Without(t.order, name), t.plugins - {name}, t.calls + (if p.hasDestroy then [Destroy(name)] else []))
    else t
  }

  function DisableAll(t: Table, names: seq<string>): Table
    decreases |names|
  {
    if names == [] then t else DisableAll(DisableOne(t, names[0]), names[1..])
  }

  /** The names `disable` works through: the given one if it is truthy, every
      enabled one otherwise. */
  function DisableTargets(t: Table, name: string): seq<string>
  {
    if name != "" then [name] else t.order
  }

  /** The calls `reset` makes: `reset()` on each enabled plugin that has it, in key order. */
  function ResetCalls(order: seq<string>, plugins: map<string, Plugin>): seq<Call>
    decreases |order|
  {
    if order == [] then []
    else (if order[0] in plugins && plugins[order[0]].hasReset then [Reset(order[0])] else []) + ResetCalls(order[1..], plugins)
  }

  /** `enable` never changes or re-creates a plugin that is already enabled, and
      never calls its factory again. */
  lemma {:induction false} EnableKeepsEnabled(t: Table, names: seq<string>, factories: map<string, Factory>, options: Options)
    requires forall n :: n in names ==> n in factories
    ensures var r := EnableAll(t, names, factories, options);
            (forall n :: n in t.plugins ==> n in r.plugins && r.plugins[n] == t.plugins[n])
            && |t.calls| <= |r.calls| && r.calls[..|t.calls|] == t.calls
            && (forall i :: |t.calls| <= i < |r.calls| ==> r.calls[i].Invoke? && r.calls[i].name !in t.plugins)
  {
    if names != [] {
      var init := names[..|names| - 1];
      EnableKeepsEnabled(t, init, factories, options);
      var mid := EnableAll(t, init, factories, options);
      var r := EnableAll(t, names, factories, options);
      assert r == EnableOne(mid, names[|names| - 1], factories[names[|names| - 1]], options);
      assert r.calls[..|mid.calls|] == mid.calls;
    }
  }

  /** A name enabled by `enable` is one whose factory accepted, and holds what
      the factory returned; a name whose factory declined gets no entry. */
  lemma {:induction false} EnableStoresAccepted(t: Table, names: seq<string>, factories: map<string, Factory>, options: Options)
    requires forall n :: n in names ==> n in factories
    ensures var r := EnableAll(t, names, factories, options);
            forall n :: n in r.plugins && n !in t.plugins ==>
              n in names && factories[n](options) == Some(r.plugins[n])
  {
    if names != [] {
      EnableStoresAccepted(t, names[..|names| - 1], factories, options);
    }
  }

  /** `enable` calls the factory of every registered name not enabled before. */
  lemma {:induction false} EnableInvokesFresh(t: Table, names: seq<string>, factories: map<string, Factory>, options: Options)
    requires forall n :: n in names ==> n in factories
    ensures var r := EnableAll(t, names, factories, options);
            |t.calls| <= |r.calls| &&
            forall n :: n in names && n !in t.plugins ==> Invoke(n) in r.calls[|t.calls|..]
  {
    if names != [] {
      var init := names[..|names| - 1];
      var last := names[|names| - 1];
      EnableInvokesFresh(t, init, factories, options);
      EnableStoresAccepted(t, init, factories, options);
      var mid := EnableAll(t, init, factories, options);
      var r := EnableAll(t, names, factories, options);
      assert r == EnableOne(mid, last, factories[last], options);
      assert r.calls[..|mid.calls|] == mid.calls;
      assert r.calls[|t.calls|..] == mid.calls[|t.calls|..] + r.calls[|mid.calls|..];
      forall n | n in names && n !in t.plugins
        ensures Invoke(n) in r.calls[|t.calls|..]
      {
        if n in init {
          assert Invoke(n) in mid.calls[|t.calls|..];
        } else {
          assert n == last && last !in mid.plugins;
          assert r.calls[|mid.calls|..] == [Invoke(last)];
        }
      }
    }
  }

  /** A name not enabled before is enabled afterwards exactly when its factory accepts. */
  lemma {:induction false} EnableDecidesByFactory(t: Table, names: seq<string>, factories: map<string, Factory>, options: Options)
    requires forall n :: n in names ==> n in factories
    ensures var r := EnableAll(t, names, factories, options);
            forall n :: n in names && n !in t.plugins ==>
              (n in r.plugins <==> factories[n](options).Some?)
  {
    if names != [] {
      var init := names[..|names| - 1];
      var last := names[|names| - 1];
      EnableDecidesByFactory(t, init, factories, options);
      EnableStoresAccepted(t, init, factories, options);
      forall n | n in names && n !in t.plugins
        ensures var r := EnableAll(t, names, factories, options);
                n in r.plugins <==> factories[n](options).Some?
      {
        if n != last {
          assert n in init;
        }
      }
    }
  }

  /** Every registered name not enabled before has its factory called, and is
      enabled afterwards exactly when that factory accepts. */
  lemma EnableTriesEveryName(t: Table, names: seq<string>, factories: map<string, Factory>, options: Options)
    requires forall n :: n in names ==> n in factories
    ensures var r := EnableAll(t, names, factories, options);
            |t.calls| <= |r.calls| &&
            forall n :: n in names && n !in t.plugins ==> Invoke(n) in r.calls[|t.calls|..]
    ensures var r := EnableAll(t, names, factories, options);
            forall n :: n in names && n !in t.plugins ==>
              (n in r.plugins <==> factories[n](options).Some?)
  {
    EnableInvokesFresh(t, names, factories, options);
    EnableDecidesByFactory(t, names, factories, options);
  }

  lemma {:induction false} EnablePreservesWellFormed(t: Table, names: seq<string>, factories: map<string, Factory>, options: Options)
    requires forall n :: n in names ==> n in factories
    requires WellFormed(t)
    ensures WellFormed(EnableAll(t, names, factories, options))
  {
    if names != [] {
      EnablePreservesWellFormed(t, names[..|names| - 1], factories, options);
    }
  }

  /** `disable` over a list of names removes exactly those names. */
  lemma {:induction false} DisableRemovesNames(t: Table, names: seq<string>)
    ensures DisableAll(t, names).plugins == t.plugins - (set n | n in names)
    decreases |names|
  {
    if names != [] {
      DisableRemovesNames(DisableOne(t, names[0]), names[1..]);
      assert (set n | n in names) == {names[0]} + (set n | n in names[1..]);
    }
  }

  /** `disable` with no name leaves no plugin enabled. */
  lemma DisableEverything(t: Table)
    requires WellFormed(t)
    ensures DisableAll(t, DisableTargets(t, "")).plugins == map[]
  {
    DisableRemovesNames(t, t.order);
    assert t.plugins.Keys <= (set n | n in t.order);
  }

  /** `disable(name)` removes that one entry only, calling `destroy` only when the
      plugin has one. */
  lemma DisableOneName(t: Table, name: string)
    requires name != ""
    ensures var r := DisableAll(t, DisableTargets(t, name));
            r.plugins == t.plugins - {name}
            && r.calls == t.calls + (if name in t.plugins && t.plugins[name].hasDestroy then [Destroy(name)] else [])
  {
    assert DisableTargets(t, name)[1..] == [];
  }

  /** `reset` calls `reset` on exactly the enabled plugins that have it. */
  lemma {:induction false} ResetCallsExactly(order: seq<string>, plugins: map<string, Plugin>)
    requires forall n :: n in order ==> n in plugins
    ensures forall c :: c in ResetCalls(order, plugins) <==> c.Reset? && c.name in order && plugins[c.name].hasReset
  {
    if order != [] {
      ResetCallsExactly(order[1..], plugins);
      forall c ensures c in ResetCalls(order, plugins) <==> c.Reset? && c.name in order && plugins[c.name].hasReset {
        assert c.Reset? && c.name in order ==> c.name == order[0] || c.name in order[1..];
      }
    }
  }

  /** `pluginFactories`, with its keys in registration order. */
  class Registry {
    var names: seq<string>
    var factories: map<string, Factory>

    ghost predicate Valid()
      reads this
    {
      Distinct(names) && forall n :: n in factories <==> n in names
    }

    constructor ()
      ensures Valid() && names == [] && factories == map[]
    {
      names := [];
      factories := map[];
    }

    /** `register`: stores the factory under the name, replacing any earlier one;
        a replaced name keeps its place in the key order. */
    method Register(name: string, f: Factory)
      requires Valid()
      modifies this
      ensures Valid()
      ensures factories == old(factories)[name := f]
      ensures names == if name in old(factories) then old(names) else old(names) + [name]
    {
      if name !in factories {
        names := names + [name];
      }
      factories := factories[name := f];
    }

    /** `enable`: offers the scroller to every registered factory in order. */
    method Enable(host: Host, options: Options)
      requires Valid() && host.Valid()
      modifies host
      ensures host.Valid()
      ensures host.Snapshot() == EnableAll(old(host.Snapshot()), names, factories, options)
    {
      var i := 0;
      while i < |names|
        invariant 0 <= i <= |names|
        invariant host.Valid()
        invariant host.Snapshot() == EnableAll(old(host.Snapshot()), names[..i], factories, options)
      {
        var name := names[i];
        host.Offer(name, factories[name], options);
        assert names[..i + 1][..i] == names[..i];
        i := i + 1;
      }
      assert names[..i] == names;
    }
  }

  /** A scroller's `plugins` dictionary. */
  class Host {
    var order: seq<string>
    var plugins: map<string, Plugin>
    var calls: seq<Call>

    ghost predicate Valid()
      reads this
    {
      WellFormed(Snapshot())
    }

    function Snapshot(): Table
      reads this
    {
      Table(order, plugins, calls)
    }

    constructor ()
      ensures Valid() && Snapshot() == Table([], map[], [])
    {
      order, plugins, calls := [], map[], [];
    }

    /** One round of `enable`'s loop: the factory is called only for a name not
        yet enabled, and a plugin it returns is stored. */
    method Offer(name: string, f: Factory, options: Options)
      requires Valid()
      modifies this
      ensures Valid()
      ensures Snapshot() == EnableOne(old(Snapshot()), name, f, options)
    {
      if name !in plugins {
        var r := f(options);
        calls := calls + [Invoke(name)];
        if r.Some? {
          order := order + [name];
          plugins := plugins[name := r.value];
        }
      }
    }

    /** `disable(name)`; the empty string stands for a missing name. */
    method Disable(name: string)
      requires Valid()
      modifies this
      ensures Valid()
      ensures Snapshot() == DisableAll(old(Snapshot()), DisableTargets(old(Snapshot()), name))
    {
      var names := if name != "" then [name] else order;
      var i := 0;
      while i < |names|
        invariant 0 <= i <= |names|
        invariant Valid()
        invariant DisableAll(Snapshot(), names[i..]) == DisableAll(old(Snapshot()), names)
      {
        ghost var before := Snapshot();
        Remove(names[i]);
        assert names[i..][1..] == names[i + 1..];
        assert DisableAll(before, names[i..]) == DisableAll(Snapshot(), names[i + 1..]);
        i := i + 1;
      }
    }

    /** The body of `disable`'s loop for one name. */
    method Remove(item: string)
      requires Valid()
      modifies this
      ensures Valid()
      ensures Snapshot() == DisableOne(old(Snapshot()), item)
    {
      if item in plugins {
        var p := plugins[item];
        if p.hasDestroy {
          calls := calls + [Destroy(item)];
        }
        order := Without(order, item);
        plugins := plugins - {item};
      }
    }

    /** `reset`: calls `reset()` on every enabled plugin that has it; the
        dictionary itself does not change. */
    method Reset()
      requires Valid()
      modifies this
      ensures Valid()
      ensures order == old(order) && plugins == old(plugins)
      ensures calls == old(calls) + ResetCalls(order, plugins)
    {
      var names, table := order, plugins;
      var done: seq<Call> := [];
      var i := 0;
      while i < |names|
        invariant 0 <= i <= |names|
        invariant forall n :: n in names ==> n in table
        invariant done + ResetCalls(names[i..], table) == ResetCalls(names, table)
      {
        var name := names[i];
        ghost var here := if table[name].hasReset then [Call.Reset(name)] else [];
        assert names[i..][1..] == names[i + 1..];
        assert ResetCalls(names[i..], table) == here + ResetCalls(names[i + 1..], table);
        if table[name].hasReset {
          done := done + [Call.Reset(name)];
        }
        assert done + ResetCalls(names[i + 1..], table) == ResetCalls(names, table);
        i := i + 1;
      }
      assert names[i..] == [];
      calls := calls + done;
    }
  }
}
