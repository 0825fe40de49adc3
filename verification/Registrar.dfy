/** internal/registrar/registrar.go, publish.go and cache.go with the callbacks of
    cmd/controller/main.go, as the process runs them. Every method says which steps of
    the machine in module Publish it takes, so what holds in all runs there holds of
    the fields here. */
module Registrar {
  import opened Text
  import opened Routing
  import opened Publish
  import Sup = Supervisor

  // ---- The graph cache ----

  function BpKey(workspace: string, name: string): string { workspace + ['|'] + name }

  lemma BpKeyInjective(ws: string, n: string, ws': string, n': string)
    requires '|' !in ws && '|' !in ws' && BpKey(ws, n) == BpKey(ws', n')
    ensures ws == ws' && n == n'
  {
    CutUnique(ws, n, ws', n', '|');
  }

  lemma BpKeyName(ws: string, n: string, n': string)
    requires BpKey(ws, n) == BpKey(ws, n')
    ensures n == n'
  {
    assert BpKey(ws, n)[|ws| + 1..] == n && BpKey(ws, n')[|ws| + 1..] == n';
  }

  type Graphs = map<string, map<string, Graph>>

  /** The nested maps hold exactly one hash per cached blueprint of the workspace. */
  ghost predicate Holds(m: Graphs, ws: string, cache: map<string, Cached>) {
    forall n :: HoldsFor(m, ws, cache, n)
  }

  ghost predicate HoldsFor(m: Graphs, ws: string, cache: map<string, Cached>, n: string) {
    (BpKey(ws, n) in m <==> n in cache) && (n in cache ==> m[BpKey(ws, n)] == map[cache[n].hash := cache[n].graph])
  }

  lemma PutHolds(m: Graphs, ws: string, cache: map<string, Cached>, name: string, hash: string, g: Graph)
    requires Holds(m, ws, cache)
    ensures Holds(m[BpKey(ws, name) := map[hash := g]], ws, cache[name := Cached(hash, g)])
  {
    var m', cache' := m[BpKey(ws, name) := map[hash := g]], cache[name := Cached(hash, g)];
    forall n ensures HoldsFor(m', ws, cache', n) {
      if BpKey(ws, n) == BpKey(ws, name) { BpKeyName(ws, n, name); }
      assert HoldsFor(m, ws, cache, n);
    }
  }

  lemma DeleteHolds(m: Graphs, ws: string, cache: map<string, Cached>, name: string)
    requires Holds(m, ws, cache)
    ensures Holds(m - {BpKey(ws, name)}, ws, cache - {name})
  {
    var m', cache' := m - {BpKey(ws, name)}, cache - {name};
    forall n ensures HoldsFor(m', ws, cache', n) {
      if BpKey(ws, n) == BpKey(ws, name) { BpKeyName(ws, n, name); }
      assert HoldsFor(m, ws, cache, n);
    }
  }

  class GraphCache {
    var m: Graphs

    constructor ()
      ensures m == map[]
    {
      m := map[];
    }

    /** A hit means that this hash is the one cached for the blueprint. */
    method Get(ws: string, name: string, hash: string, ghost cache: map<string, Cached>) returns (g: Option<Graph>)
      requires Holds(m, ws, cache)
      ensures g.Some? <==> name in cache && cache[name].hash == hash
      ensures g.Some? ==> g.value == cache[name].graph
    {
      assert HoldsFor(m, ws, cache, name);
      if BpKey(ws, name) !in m { return None; }
      var byHash := m[BpKey(ws, name)];
      return if hash in byHash then Some(byHash[hash]) else None;
    }

    /** Replaces whatever hash was cached for the blueprint. */
    method Put(ws: string, name: string, hash: string, g: Graph, ghost cache: map<string, Cached>)
      requires Holds(m, ws, cache)
      modifies this`m
      ensures Holds(m, ws, cache[name := Cached(hash, g)])
      ensures forall k :: k in old(m) && k != BpKey(ws, name) ==> k in m && m[k] == old(m)[k]
    {
      m := m[BpKey(ws, name) := map[hash := g]];
      PutHolds(old(m), ws, cache, name, hash, g);
    }

    method Delete(ws: string, name: string, ghost cache: map<string, Cached>)
      requires Holds(m, ws, cache)
      modifies this`m
      ensures Holds(m, ws, cache - {name})
      ensures forall k :: k in old(m) && k != BpKey(ws, name) ==> k in m && m[k] == old(m)[k]
    {
      m := m - {BpKey(ws, name)};
      DeleteHolds(old(m), ws, cache, name);
    }
  }

  /** Reusing the cached graph or building: the same graph either way, if the cache is
      right so far. */
  method LookupOrBuild(c: GraphCache, ws: string, w: World, name: string, spec: Spec, ghost cache: map<string, Cached>)
    returns (g: Option<Graph>, ghost cache': map<string, Cached>)
    requires Holds(c.m, ws, cache)
    modifies c`m
    ensures g == if name in cache && cache[name].hash == w.hash(spec) then Some(cache[name].graph)
      else w.build(name, spec)
    ensures cache' == if g.Some? then cache[name := Cached(w.hash(spec), g.value)] else cache
    ensures Holds(c.m, ws, cache')
  {
    g := c.Get(ws, name, w.hash(spec), cache);
    cache' := cache;
    if g.None? {
      g := w.build(name, spec);
      if g.Some? {
        c.Put(ws, name, w.hash(spec), g.value, cache);
        cache' := cache[name := Cached(w.hash(spec), g.value)];
      }
    } else {
      assert cache == cache[name := Cached(w.hash(spec), g.value)];
    }
  }

  // ---- The registry and the callbacks ----

  /** published in cmd/controller/main.go. */
  class Registry {
    var m: map<string, Served>

    constructor ()
      ensures m == map[]
    {
      m := map[];
    }

    method Set(x: string, v: Served)
      modifies this`m
      ensures m == old(m)[x := v]
    {
      m := m[x := v];
    }

    method Delete(x: string)
      modifies this`m
      ensures m == old(m) - {x}
    {
      m := m - {x};
    }
  }

  /** The registry is written before the manager is stopped and started, so whatever
      the new manager reads is the new value. */
  method OnPublished(registry: Registry, sup: Sup.Supervisor<Served>, x: string, v: Served, changed: bool)
    requires sup.Valid() && 0 !in sup.view.held
    modifies registry`m, sup, sup.entries
    ensures sup.Valid() && 0 !in sup.view.held && x in sup.view.running
    ensures registry.m == old(registry.m)[x := v] && sup.view == Restarted(old(sup.view), x, changed)
  {
    registry.Set(x, v);
    if changed { sup.Stop(0, x); }
    sup.Ensure(x);
  }

  method OnDeleted(registry: Registry, sup: Sup.Supervisor<Served>, x: string)
    requires sup.Valid() && 0 !in sup.view.held
    modifies registry`m, sup, sup.entries
    ensures sup.Valid() && sup.entries == old(sup.entries) && 0 !in sup.view.held
    ensures x != "" ==> x !in sup.view.running
    ensures x != "" ==>
      registry.m == old(registry.m) - {x} && sup.view == Sup.Do(Sup.Do(old(sup.view), Sup.Take(0, x)), Sup.Cancel(0))
    ensures x == "" ==> registry.m == old(registry.m) && sup.view == old(sup.view)
  {
    if x != "" {
      sup.Stop(0, x);
      registry.Delete(x);
    }
  }
}
