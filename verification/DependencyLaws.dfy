/** What resolving keeps: one set-up of each cached dependency, teardowns in the order made, and no cycle. */
module DependencyLaws {
  import opened Util
  import opened Dependencies

  /** A chain of `n` more declarations starts at `m`. */
  ghost predicate Chain(w: World, m: Marker, n: nat)
    decreases n
  {
    n == 0 || exists sub :: sub in w.declared(m.fn) && Chain(w, sub, n - 1)
  }

  /** The nesting error is the framework's own: no dependency raises it. */
  ghost predicate NoForeignDepth(w: World) {
    forall fn, values, at :: w.produce(fn, values, at) != Fails(TooDeep)
  }

  /** A dependency is cached exactly when it was set up through a caching marker, and then only once. */
  ghost predicate Once(s: Setup) {
    && (forall f :: f in s.cache <==> Marker(f, true) in s.setups)
    && (forall i, j :: 0 <= i < j < |s.setups| && s.setups[i] == s.setups[j] ==> !s.setups[i].useCache)
  }

  /** The exits stand in the order their generators were made. */
  ghost predicate InOrder(s: Setup) {
    && (forall i :: 0 <= i < |s.stack| ==> s.stack[i].at < s.calls)
    && (forall i, j :: 0 <= i < j < |s.stack| ==> s.stack[i].at < s.stack[j].at)
  }

  /** Setting up only adds. */
  ghost predicate Grew(s: Setup, t: Setup) {
    && s.stack <= t.stack && s.calls <= t.calls && s.setups <= t.setups
    && forall f :: f in s.cache ==> f in t.cache && t.cache[f] == s.cache[f]
  }

  /** `path` is a chain of markers being resolved: each declares the next, and none is cached yet. */
  ghost predicate Resolving(w: World, path: seq<Marker>, s: Setup) {
    && (forall i :: 0 <= i < |path| && path[i].useCache ==> path[i].fn !in s.cache)
    && (forall i :: 0 < i < |path| ==> path[i] in w.declared(path[i - 1].fn))
  }

  lemma CalledKeeps(w: World, m: Marker, values: seq<nat>, s: Setup)
    requires Once(s) && InOrder(s) && (m.useCache ==> m.fn !in s.cache)
    ensures var t := Called(w, m, values, s); Once(t.setup) && InOrder(t.setup) && Grew(s, t.setup)
    ensures var t := Called(w, m, values, s);
      t.result.Ok? && m.useCache ==> m.fn in t.setup.cache && t.setup.cache[m.fn] == t.result.value
    ensures Called(w, m, values, s).setup.cache.Keys <= s.cache.Keys + {m.fn}
    ensures NoForeignDepth(w) ==> Called(w, m, values, s).result != Err(TooDeep)
  {
    var t := Called(w, m, values, s);
    if t.result.Ok? {
      assert t.setup.setups == s.setups + [m];
      assert forall x :: x in t.setup.setups <==> x in s.setups || x == m;
    }
  }

  /** A marker whose declarations all resolved below it is not one of those above it. */
  lemma NotAmongItsOwn(w: World, m: Marker, path: seq<Marker>, s: Setup)
    requires Resolving(w, path + [m], s) && forall sub :: sub in w.declared(m.fn) ==> sub !in path + [m]
    ensures forall i :: 0 <= i < |path| ==> path[i].fn != m.fn
    ensures Resolving(w, path, s) && (m.useCache ==> m.fn !in s.cache)
  {
    var here := path + [m];
    assert here[|path|] == m;
    forall i | 0 <= i < |path|
      ensures path[i] == here[i] && path[i].fn != m.fn
    {
      assert here[i + 1] in w.declared(here[i].fn) && here[i + 1] in here;
    }
  }

  /**
   Resolving keeps all of it, for every graph of declarations, cycles and mutual nesting included. What
   succeeded was not part of a cycle, so nothing that is being resolved above it was cached meanwhile:
   that is why each cached dependency is set up once.
   */
  lemma {:induction false} ResolutionKeeps(w: World, m: Marker, depth: nat, s: Setup, path: seq<Marker>)
    requires Once(s) && InOrder(s) && Resolving(w, path, s)
    requires path != [] ==> m in w.declared(path[|path| - 1].fn)
    ensures var t := Resolution(w, m, depth, s);
      && Once(t.setup) && InOrder(t.setup) && Grew(s, t.setup)
      && (t.result.Ok? ==> Resolving(w, path, t.setup) && m !in path)
      && (t.result.Ok? && m.useCache ==> m.fn in t.setup.cache && t.setup.cache[m.fn] == t.result.value)
    decreases DEPTH + 1 - depth, 0
  {
    if depth <= DEPTH && !(m.useCache && m.fn in s.cache) {
      var here := path + [m];
      ResolutionsKeep(w, m, w.declared(m.fn), depth + 1, s, here);
      var below := Resolutions(w, w.declared(m.fn), depth + 1, s);
      if below.failed.None? {
        NotAmongItsOwn(w, m, path, below.setup);
        CalledKeeps(w, m, below.values, below.setup);
      }
    }
  }

  lemma {:induction false} ResolutionsKeep(w: World, m: Marker, subs: seq<Marker>, depth: nat, s: Setup,
                                           here: seq<Marker>)
    requires Once(s) && InOrder(s) && Resolving(w, here, s) && depth <= DEPTH + 1
    requires here != [] && here[|here| - 1] == m && forall sub :: sub in subs ==> sub in w.declared(m.fn)
    ensures var t := Resolutions(w, subs, depth, s);
      && Once(t.setup) && InOrder(t.setup) && Grew(s, t.setup)
      && (t.failed.None? ==> Resolving(w, here, t.setup) && forall sub :: sub in subs ==> sub !in here)
    decreases DEPTH + 1 - depth, |subs|
  {
    if subs != [] {
      var few, last := subs[..|subs| - 1], subs[|subs| - 1];
      assert subs == few + [last];
      ResolutionsKeep(w, m, few, depth, s, here);
      var before := Resolutions(w, few, depth, s);
      if before.failed.None? {
        ResolutionKeeps(w, last, depth, before.setup, here);
      }
    }
  }

  /** The same of everything a handler declares. */
  lemma {:induction false} OpeningKeeps(w: World, dependencies: seq<Marker>, s: Setup)
    requires s == Setup(map[], [], 0, [])
    ensures var t := Resolutions(w, dependencies, 0, s).setup; Once(t) && InOrder(t)
  {
    if dependencies != [] {
      var few := dependencies[..|dependencies| - 1];
      OpeningKeeps(w, few, s);
      var before := Resolutions(w, few, 0, s);
      if before.failed.None? {
        ResolutionKeeps(w, dependencies[|dependencies| - 1], 0, before.setup, []);
      }
    }
  }

  /** The nesting error is true: it means a chain of twenty-one declarations below the marker. */
  lemma {:induction false} TooDeepIsTrue(w: World, m: Marker, depth: nat, s: Setup)
    requires NoForeignDepth(w) && depth <= DEPTH + 1 && Resolution(w, m, depth, s).result == Err(TooDeep)
    ensures Chain(w, m, DEPTH + 1 - depth)
    decreases DEPTH + 1 - depth, 0
  {
    if depth <= DEPTH {
      var below := Resolutions(w, w.declared(m.fn), depth + 1, s);
      if below.failed.Some? {
        SomeIsTooDeep(w, m, w.declared(m.fn), depth + 1, s);
      }
    }
  }

  lemma {:induction false} SomeIsTooDeep(w: World, m: Marker, subs: seq<Marker>, depth: nat, s: Setup)
    requires NoForeignDepth(w) && depth <= DEPTH + 1 && Resolutions(w, subs, depth, s).failed == Some(TooDeep)
    requires forall sub :: sub in subs ==> sub in w.declared(m.fn)
    ensures Chain(w, m, DEPTH + 2 - depth)
    decreases DEPTH + 1 - depth, |subs|
  {
    var few, last := subs[..|subs| - 1], subs[|subs| - 1];
    var before := Resolutions(w, few, depth, s);
    assert subs == few + [last];
    if before.failed.Some? {
      SomeIsTooDeep(w, m, few, depth, s);
    } else {
      TooDeepIsTrue(w, last, depth, before.setup);
      assert last in w.declared(m.fn);
    }
  }
}
