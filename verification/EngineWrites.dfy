/** What a pass of the engine writes, node by node, and where it stops: the loop of
    internal/engine/engine.go told by its result. */
module EngineWrites {
  import opened Routing
  import opened Claims
  import opened Naming
  import opened Stores
  import opened Engine
  import opened EngineLaws

  function TargetAt(rt: Runtime, w: Wiring, j: nat): Target
    requires j < |rt.nodes|
  {
    TargetForNode(rt.nodes[j].id, w.routing)
  }

  /** The objects that node `j` renders, if it is a template and not ignored, given what
      the nodes before it were observed as. */
  function Rendered(rt: Runtime, obs: Obs, j: nat): seq<Desired>
    requires j < |rt.nodes|
  {
    var n, known := rt.nodes[j], Upto(obs, rt.nodes, j);
    if (n.kind.Template? || n.kind.Collection?) && rt.ignored(n.id, known) == Some(false)
       && rt.desired(n.id, known).Objects?
    then rt.desired(n.id, known).objects else []
  }

  /** Node `j` writes everything it renders, in order. */
  function WritesAt(h: Digest, rt: Runtime, w: Wiring, obs: Obs, j: nat): seq<Event>
    requires HexDigest(h) && j < |rt.nodes|
  {
    var t := TargetAt(rt, w, j);
    if t in w.appliers then Events(h, t, w.appliers[t], Rendered(rt, obs, j)) else []
  }

  /** The nodes from `i` up to `m`, one after the other. */
  function Writes(h: Digest, rt: Runtime, w: Wiring, obs: Obs, i: nat, m: nat): seq<Event>
    requires HexDigest(h) && m <= |rt.nodes|
    decreases m - i
  {
    if i >= m then [] else WritesAt(h, rt, w, obs, i) + Writes(h, rt, w, obs, i + 1, m)
  }

  lemma {:induction false} EventAt(h: Digest, t: Target, a: Applier, ds: seq<Desired>, x: nat)
    requires HexDigest(h) && x < |ds|
    ensures |Events(h, t, a, ds)| == |ds| && Events(h, t, a, ds)[x] == Event(t, Final(h, a, ds[x]))
  {
    if |ds| > 1 { EventAt(h, t, a, ds[1..], if x > 0 then x - 1 else 0); }
  }

  lemma EventOf(h: Digest, t: Target, a: Applier, ds: seq<Desired>, e: Event) returns (x: nat)
    requires HexDigest(h) && e in Events(h, t, a, ds)
    ensures x < |ds| && e == Event(t, Final(h, a, ds[x]))
  {
    x :| x < |Events(h, t, a, ds)| && Events(h, t, a, ds)[x] == e;
    EventAt(h, t, a, ds, if x < |ds| then x else 0);
  }

  /** One turn, if it goes on, adds what its node writes. */
  lemma TurnWrites(h: Digest, rt: Runtime, w: Wiring, i: nat, st: State, obs: Obs)
    requires HexDigest(h) && Wired(w, st.stores.Keys) && i < |rt.nodes| && Upto(obs, rt.nodes, i) == st.obs
    requires TakeTurn(h, rt, w, rt.nodes[i], st).Next?
    ensures TakeTurn(h, rt, w, rt.nodes[i], st).state.log == st.log + WritesAt(h, rt, w, obs, i)
  {
    var n, t := rt.nodes[i], TargetAt(rt, w, i);
    if rt.ignored(n.id, st.obs) == Some(false) && !IsExternal(n) {
      ApplyLog(h, t, w.appliers[t], rt.desired(n.id, st.obs).objects, st, []);
    }
  }

  lemma LogGrows(log: seq<Event>, a: seq<Event>, b: seq<Event>)
    ensures log + (a + b) == log + a + b
  {
  }

  /** The node at which the walk from node `i` ends, if any. */
  function Reached(h: Digest, rt: Runtime, w: Wiring, i: nat, st: State): (m: nat)
    requires HexDigest(h) && Wired(w, st.stores.Keys) && i <= |rt.nodes|
    ensures i <= m <= |rt.nodes| && (m == |rt.nodes| <==> Walk(h, rt, w, i, st).1 == Completed)
    decreases |rt.nodes| - i
  {
    if i == |rt.nodes| || TakeTurn(h, rt, w, rt.nodes[i], st).Stop? then i
    else Reached(h, rt, w, i + 1, TakeTurn(h, rt, w, rt.nodes[i], st).state)
  }

  /** The walk has written what the nodes on the way write, all of it and in that order. */
  lemma {:induction false} WalkWrites(h: Digest, rt: Runtime, w: Wiring, i: nat, st: State)
    requires HexDigest(h) && Wired(w, st.stores.Keys) && i <= |rt.nodes| && UniqueNodes(rt)
    requires st.obs.Keys <= Ids(rt.nodes[..i])
    ensures var final := Walk(h, rt, w, i, st).0;
      final.log == st.log + Writes(h, rt, w, final.obs, i, Reached(h, rt, w, i, st))
    decreases |rt.nodes| - i
  {
    if i < |rt.nodes| && TakeTurn(h, rt, w, rt.nodes[i], st).Next? {
      var st' := TakeTurn(h, rt, w, rt.nodes[i], st).state;
      NextIsFresh(rt, i);
      ObservationsPersist(h, rt, w, i, st);
      var obs, m := Walk(h, rt, w, i, st).0.obs, Reached(h, rt, w, i, st);
      TurnWrites(h, rt, w, i, st, obs);
      WalkWrites(h, rt, w, i + 1, st');
      LogGrows(st.log, WritesAt(h, rt, w, obs, i), Writes(h, rt, w, obs, i + 1, m));
    }
  }

  lemma {:induction false} NodeWrites(h: Digest, rt: Runtime, w: Wiring, obs: Obs, i: nat, m: nat, j: nat, e: Event)
    requires HexDigest(h) && i <= j < m <= |rt.nodes| && e in WritesAt(h, rt, w, obs, j)
    ensures e in Writes(h, rt, w, obs, i, m)
    decreases m - i
  {
    var here, rest := WritesAt(h, rt, w, obs, i), Writes(h, rt, w, obs, i + 1, m);
    if i < j { NodeWrites(h, rt, w, obs, i + 1, m, j, e); }
    assert Writes(h, rt, w, obs, i, m) == here + rest && (e in here || e in rest);
  }

  lemma {:induction false} WrittenByNode(h: Digest, rt: Runtime, w: Wiring, obs: Obs, i: nat, m: nat, e: Event)
    returns (j: nat)
    requires HexDigest(h) && m <= |rt.nodes| && e in Writes(h, rt, w, obs, i, m)
    ensures i <= j < m && e in WritesAt(h, rt, w, obs, j)
    decreases m - i
  {
    j := i;
    if e !in WritesAt(h, rt, w, obs, i) { j := WrittenByNode(h, rt, w, obs, i + 1, m, e); }
  }

  /** Node `j` is a template or a collection, is not ignored and renders `ds`, judged on
      what the nodes before it were observed as. */
  ghost predicate Renders(rt: Runtime, obs: Obs, j: nat, ds: seq<Desired>) {
    && j < |rt.nodes| && (rt.nodes[j].kind.Template? || rt.nodes[j].kind.Collection?)
    && rt.ignored(rt.nodes[j].id, Upto(obs, rt.nodes, j)) == Some(false)
    && rt.desired(rt.nodes[j].id, Upto(obs, rt.nodes, j)) == Objects(ds)
  }

  /** A complete pass has written every object of every node that renders any ... */
  lemma RenderedIsWritten(h: Digest, rt: Runtime, w: Wiring, stores: Stores, j: nat, ds: seq<Desired>, d: Desired)
    requires HexDigest(h) && Wired(w, stores.Keys) && UniqueNodes(rt)
    requires Walk(h, rt, w, 0, Begin(stores)).1 == Completed
    requires Renders(rt, Walk(h, rt, w, 0, Begin(stores)).0.obs, j, ds) && d in ds
    ensures var t := TargetForNode(rt.nodes[j].id, w.routing);
      t in w.appliers && Event(t, Final(h, w.appliers[t], d)) in Walk(h, rt, w, 0, Begin(stores)).0.log
  {
    var final, t := Walk(h, rt, w, 0, Begin(stores)).0, TargetAt(rt, w, j);
    var m := Reached(h, rt, w, 0, Begin(stores));
    WalkWrites(h, rt, w, 0, Begin(stores));
    CompletedAppliesTo(h, rt, w, 0, Begin(stores), j, ds);
    var x :| 0 <= x < |ds| && ds[x] == d;
    EventAt(h, t, w.appliers[t], ds, x);
    assert Event(t, Final(h, w.appliers[t], d)) in WritesAt(h, rt, w, final.obs, j);
    NodeWrites(h, rt, w, final.obs, 0, m, j, Event(t, Final(h, w.appliers[t], d)));
  }

  /** ... and whatever any pass, complete or not, has written some node renders. */
  lemma WrittenIsRendered(h: Digest, rt: Runtime, w: Wiring, stores: Stores, e: Event)
    returns (j: nat, ds: seq<Desired>, d: Desired)
    requires HexDigest(h) && Wired(w, stores.Keys) && UniqueNodes(rt) && e in Walk(h, rt, w, 0, Begin(stores)).0.log
    ensures Renders(rt, Walk(h, rt, w, 0, Begin(stores)).0.obs, j, ds) && d in ds
    ensures var t := TargetForNode(rt.nodes[j].id, w.routing);
      t in w.appliers && e == Event(t, Final(h, w.appliers[t], d))
  {
    var final := Walk(h, rt, w, 0, Begin(stores)).0;
    var m := Reached(h, rt, w, 0, Begin(stores));
    WalkWrites(h, rt, w, 0, Begin(stores));
    j := WrittenByNode(h, rt, w, final.obs, 0, m, e);
    ds := Rendered(rt, final.obs, j);
    var x := EventOf(h, TargetAt(rt, w, j), w.appliers[TargetAt(rt, w, j)], ds, e);
    d := ds[x];
  }

  /** A walk that completes has an applier for every node that renders. */
  lemma {:induction false} CompletedAppliesTo(h: Digest, rt: Runtime, w: Wiring, i: nat, st: State, j: nat,
                                              ds: seq<Desired>)
    requires HexDigest(h) && Wired(w, st.stores.Keys) && i <= j && UniqueNodes(rt) && i <= |rt.nodes|
    requires st.obs.Keys <= Ids(rt.nodes[..i]) && Walk(h, rt, w, i, st).1 == Completed
    requires Renders(rt, Walk(h, rt, w, i, st).0.obs, j, ds)
    ensures TargetForNode(rt.nodes[j].id, w.routing) in w.appliers
    decreases |rt.nodes| - i
  {
    var turn := TakeTurn(h, rt, w, rt.nodes[i], st);
    NextIsFresh(rt, i);
    ObservationsPersist(h, rt, w, i, st);
    if i < j { CompletedAppliesTo(h, rt, w, i + 1, turn.state, j, ds); }
  }

  // ---- What the nodes are observed as ----

  lemma InStoresParts(a: seq<Event>, b: seq<Event>, targets: set<Target>)
    ensures InStores(a + b, targets) <==> InStores(a, targets) && InStores(b, targets)
  {
    assert forall e :: e in a + b <==> e in a || e in b;
  }

  lemma {:induction false} ReplayInTurn(stores: Stores, a: seq<Event>, b: seq<Event>)
    requires InStores(a, stores.Keys) && InStores(b, stores.Keys)
    ensures InStores(a + b, stores.Keys) && Replay(stores, a + b) == Replay(Replay(stores, a), b)
    decreases |b|
  {
    InStoresParts(a, b, stores.Keys);
    if b == [] {
      assert a + b == a;
    } else {
      var front, e := b[..|b| - 1], b[|b| - 1];
      assert b == front + [e] && e in b;
      InStoresParts(front, [e], stores.Keys);
      ReplayInTurn(stores, a, front);
      AppendedLast(stores, a, front, e);
    }
  }

  lemma AppendedLast(stores: Stores, a: seq<Event>, front: seq<Event>, e: Event)
    requires InStores(a, stores.Keys) && InStores(front, stores.Keys) && InStores(a + front, stores.Keys)
    requires e.target in stores && Replay(stores, a + front) == Replay(Replay(stores, a), front)
    ensures InStores(a + (front + [e]), stores.Keys) && InStores(front + [e], stores.Keys)
    ensures Replay(stores, a + (front + [e])) == Replay(Replay(stores, a), front + [e])
  {
    assert a + (front + [e]) == (a + front) + [e];
    ReplayOneMore(stores, a + front, e);
    ReplayOneMore(Replay(stores, a), front, e);
  }

  lemma {:induction false} EventsInStores(h: Digest, t: Target, a: Applier, ds: seq<Desired>, targets: set<Target>)
    requires HexDigest(h) && t in targets
    ensures InStores(Events(h, t, a, ds), targets)
  {
    if ds != [] { EventsInStores(h, t, a, ds[1..], targets); }
  }

  /** The stores just after the write of `ds[x]`. */
  function JustAfter(h: Digest, t: Target, a: Applier, ds: seq<Desired>, x: nat, stores: Stores): Stores
    requires HexDigest(h) && t in stores && x < |ds|
    decreases x
  {
    var stores' := WriteOne(stores, Event(t, Final(h, a, ds[0])));
    if x == 0 then stores' else JustAfter(h, t, a, ds[1..], x - 1, stores')
  }

  lemma {:induction false} SeenLength(h: Digest, t: Target, a: Applier, ds: seq<Desired>, st: State, seen: seq<Seen>)
    requires HexDigest(h) && t in st.stores
    ensures var r := ApplyObjects(h, t, a, ds, st, seen).1; |r| == |seen| + |ds| && seen <= r
    decreases ds
  {
    if ds != [] {
      var e := Event(t, Final(h, a, ds[0]));
      var st' := AfterWrite(st, e);
      SeenLength(h, t, a, ds[1..], st', seen + [(e.desired.key, st'.stores[t][e.desired.key])]);
    }
  }

  /** The first object is read back as its own write leaves it ... */
  lemma FirstIsSeen(h: Digest, t: Target, a: Applier, ds: seq<Desired>, st: State, seen: seq<Seen>)
    requires HexDigest(h) && t in st.stores && ds != []
    ensures var r := ApplyObjects(h, t, a, ds, st, seen).1;
      |r| > |seen| && ReadBackAt(h, t, a, ds, st.stores, 0, r[|seen|])
  {
    var e := Event(t, Final(h, a, ds[0]));
    var st' := AfterWrite(st, e);
    SeenLength(h, t, a, ds[1..], st', seen + [(e.desired.key, st'.stores[t][e.desired.key])]);
  }

  /** ... and so are the others, in order. */
  lemma {:induction false} AppliedIsSeen(h: Digest, t: Target, a: Applier, ds: seq<Desired>, st: State,
                                         seen: seq<Seen>, x: nat)
    requires HexDigest(h) && t in st.stores && x < |ds|
    ensures var r := ApplyObjects(h, t, a, ds, st, seen).1;
      |r| == |seen| + |ds| && ReadBackAt(h, t, a, ds, st.stores, x, r[|seen| + x])
    decreases ds
  {
    SeenLength(h, t, a, ds, st, seen);
    if x == 0 {
      FirstIsSeen(h, t, a, ds, st, seen);
    } else {
      var e := Event(t, Final(h, a, ds[0]));
      var st' := AfterWrite(st, e);
      var seen' := seen + [(e.desired.key, st'.stores[t][e.desired.key])];
      AppliedIsSeen(h, t, a, ds[1..], st', seen', x - 1);
      assert |seen'| + (x - 1) == |seen| + x;
    }
  }

  /** What node `n` is observed as when its turn comes with the stores `pre`: nothing if
      it is ignored or an external reference that resolves to nothing; the object it
      refers to; the objects of its kind, namespace and selector; or what it applied,
      each as read back right after its write. */
  ghost predicate SeenAs(h: Digest, rt: Runtime, w: Wiring, n: Node, known: Obs, pre: Stores, obs: Obs)
    requires HexDigest(h)
  {
    var t, ds := TargetForNode(n.id, w.routing), rt.desired(n.id, known);
    if rt.ignored(n.id, known) == Some(true) then n.id !in obs
    else
      && rt.ignored(n.id, known) == Some(false) && ds.Objects? && t in pre
      && match n.kind
         case External =>
           if ds.objects == [] then n.id !in obs
           else var k := ds.objects[0].key; n.id in obs && k in pre[t] && obs[n.id] == Items([(k, pre[t][k])])
         case ExternalCollection =>
           if ds.objects == [] then n.id !in obs
           else n.id in obs && obs[n.id].Listing? && Finds(rt, n, ds.objects[0], pre[t], obs[n.id].found)
         case _ =>
           && n.id in obs && obs[n.id].Items? && t in w.appliers
           && ReadBack(h, t, w.appliers[t], ds.objects, pre, obs[n.id].items)
  }

  ghost predicate Finds(rt: Runtime, n: Node, d: Desired, s: Store, found: map<Key, Object>) {
    && rt.selector(d).Some?
    && (forall k :: k in found ==> k in s && found[k] == s[k])
    && (forall k :: k in s ==>
          (k in found <==>
             && k.gvk == d.key.gvk && rt.selector(d).value(s[k].labels)
             && (n.namespaced && d.key.namespace != "" ==> k.namespace == d.key.namespace)))
  }

  ghost predicate ReadBack(h: Digest, t: Target, a: Applier, ds: seq<Desired>, pre: Stores, items: seq<Seen>)
    requires HexDigest(h) && t in pre
  {
    |items| == |ds| && forall x :: 0 <= x < |ds| ==> ReadBackAt(h, t, a, ds, pre, x, items[x])
  }

  ghost predicate ReadBackAt(h: Digest, t: Target, a: Applier, ds: seq<Desired>, pre: Stores, x: nat, item: Seen)
    requires HexDigest(h) && t in pre && x < |ds|
  {
    var k, now := Final(h, a, ds[x]).key, JustAfter(h, t, a, ds, x, pre);
    t in now && k in now[t] && item == (k, now[t][k])
  }

  lemma AppliedIsReadBack(h: Digest, t: Target, a: Applier, ds: seq<Desired>, st: State)
    requires HexDigest(h) && t in st.stores
    ensures ReadBack(h, t, a, ds, st.stores, ApplyObjects(h, t, a, ds, st, []).1)
  {
    var items := ApplyObjects(h, t, a, ds, st, []).1;
    SeenLength(h, t, a, ds, st, []);
    forall x | 0 <= x < |ds| ensures ReadBackAt(h, t, a, ds, st.stores, x, items[x]) {
      AppliedIsSeen(h, t, a, ds, st, [], x);
    }
  }

  lemma TurnSees(h: Digest, rt: Runtime, w: Wiring, n: Node, st: State)
    requires HexDigest(h) && Wired(w, st.stores.Keys) && n.id !in st.obs && TakeTurn(h, rt, w, n, st).Next?
    ensures SeenAs(h, rt, w, n, st.obs, st.stores, TakeTurn(h, rt, w, n, st).state.obs)
  {
    var t := TargetForNode(n.id, w.routing);
    if rt.ignored(n.id, st.obs) == Some(false) && !IsExternal(n) {
      AppliedIsReadBack(h, t, w.appliers[t], rt.desired(n.id, st.obs).objects, st);
    }
  }

  lemma {:induction false} ObjectsInPlace(h: Digest, t: Target, a: Applier, ds: seq<Desired>, st: State,
                                          seen: seq<Seen>)
    requires HexDigest(h) && t in st.stores
    ensures InStores(Events(h, t, a, ds), st.stores.Keys)
    ensures ApplyObjects(h, t, a, ds, st, seen).0.stores == Replay(st.stores, Events(h, t, a, ds))
    decreases ds
  {
    EventsInStores(h, t, a, ds, st.stores.Keys);
    if ds != [] {
      var e := Event(t, Final(h, a, ds[0]));
      var st' := AfterWrite(st, e);
      ObjectsInPlace(h, t, a, ds[1..], st', seen + [(e.desired.key, st'.stores[t][e.desired.key])]);
      ReplayOneMore(st.stores, [], e);
      assert [] + [e] == [e];
      ReplayInTurn(st.stores, [e], Events(h, t, a, ds[1..]));
    }
  }

  /** One turn changes the stores by what its node writes. */
  lemma TurnStores(h: Digest, rt: Runtime, w: Wiring, i: nat, st: State, obs: Obs)
    requires HexDigest(h) && Wired(w, st.stores.Keys) && i < |rt.nodes| && Upto(obs, rt.nodes, i) == st.obs
    requires TakeTurn(h, rt, w, rt.nodes[i], st).Next?
    ensures InStores(WritesAt(h, rt, w, obs, i), st.stores.Keys)
    ensures TakeTurn(h, rt, w, rt.nodes[i], st).state.stores == Replay(st.stores, WritesAt(h, rt, w, obs, i))
  {
    var n, t := rt.nodes[i], TargetAt(rt, w, i);
    if t in w.appliers { EventsInStores(h, t, w.appliers[t], Rendered(rt, obs, i), st.stores.Keys); }
    if rt.ignored(n.id, st.obs) == Some(false) && !IsExternal(n) {
      ObjectsInPlace(h, t, w.appliers[t], rt.desired(n.id, st.obs).objects, st, []);
    }
  }

  lemma {:induction false} WritesInStores(h: Digest, rt: Runtime, w: Wiring, obs: Obs, i: nat, m: nat,
                                          targets: set<Target>)
    requires HexDigest(h) && m <= |rt.nodes| && Wired(w, targets)
    ensures InStores(Writes(h, rt, w, obs, i, m), targets)
    decreases m - i
  {
    if i < m {
      var t := TargetAt(rt, w, i);
      if t in w.appliers { EventsInStores(h, t, w.appliers[t], Rendered(rt, obs, i), targets); }
      WritesInStores(h, rt, w, obs, i + 1, m, targets);
    }
  }

  /** The stores when the turn of node `j` comes. */
  function StoresAt(h: Digest, rt: Runtime, w: Wiring, obs: Obs, i: nat, j: nat, stores: Stores): Stores
    requires HexDigest(h) && j <= |rt.nodes| && Wired(w, stores.Keys)
  {
    WritesInStores(h, rt, w, obs, i, j, stores.Keys);
    Replay(stores, Writes(h, rt, w, obs, i, j))
  }

  lemma StoresAfterOne(h: Digest, rt: Runtime, w: Wiring, obs: Obs, i: nat, j: nat, stores: Stores)
    requires HexDigest(h) && i < j <= |rt.nodes| && Wired(w, stores.Keys)
    requires InStores(WritesAt(h, rt, w, obs, i), stores.Keys)
    ensures StoresAt(h, rt, w, obs, i, j, stores)
         == StoresAt(h, rt, w, obs, i + 1, j, Replay(stores, WritesAt(h, rt, w, obs, i)))
  {
    WritesInStores(h, rt, w, obs, i + 1, j, stores.Keys);
    ReplayInTurn(stores, WritesAt(h, rt, w, obs, i), Writes(h, rt, w, obs, i + 1, j));
  }

  lemma SeenPersists(h: Digest, rt: Runtime, w: Wiring, n: Node, known: Obs, pre: Stores, obs: Obs, obs': Obs)
    requires HexDigest(h) && SeenAs(h, rt, w, n, known, pre, obs)
    requires (n.id in obs <==> n.id in obs') && (n.id in obs ==> obs[n.id] == obs'[n.id])
    ensures SeenAs(h, rt, w, n, known, pre, obs')
  {
  }

  lemma FinalKeeps(rt: Runtime, i: nat, final: Obs, after: Obs)
    requires i < |rt.nodes| && Upto(final, rt.nodes, i + 1) == after
    ensures var id := rt.nodes[i].id; (id in after <==> id in final) && (id in after ==> after[id] == final[id])
  {
    assert rt.nodes[i] in rt.nodes[..i + 1];
  }

  /** Every node on the way of a walk ends up observed as its turn found it. */
  lemma {:induction false} WalkObserves(h: Digest, rt: Runtime, w: Wiring, i: nat, st: State, j: nat)
    requires HexDigest(h) && Wired(w, st.stores.Keys) && i <= |rt.nodes| && UniqueNodes(rt)
    requires st.obs.Keys <= Ids(rt.nodes[..i]) && i <= j < Reached(h, rt, w, i, st)
    ensures var obs := Walk(h, rt, w, i, st).0.obs;
      SeenAs(h, rt, w, rt.nodes[j], Upto(obs, rt.nodes, j), StoresAt(h, rt, w, obs, i, j, st.stores), obs)
    decreases |rt.nodes| - i
  {
    var n, st' := rt.nodes[i], TakeTurn(h, rt, w, rt.nodes[i], st).state;
    var obs := Walk(h, rt, w, i, st).0.obs;
    NextIsFresh(rt, i);
    ObservationsPersist(h, rt, w, i, st);
    ObservationsPersist(h, rt, w, i + 1, st');
    if i == j {
      TurnSees(h, rt, w, n, st);
      FinalKeeps(rt, i, obs, st'.obs);
      SeenPersists(h, rt, w, n, st.obs, st.stores, st'.obs, obs);
    } else {
      TurnStores(h, rt, w, i, st, obs);
      StoresAfterOne(h, rt, w, obs, i, j, st.stores);
      WalkObserves(h, rt, w, i + 1, st', j);
    }
  }

  /** A node without an answer yet, or whose object is not there, makes the walk wait; an
      invalid answer or a missing client makes it fail. */
  ghost predicate EndsAs(rt: Runtime, w: Wiring, n: Node, known: Obs, stores: Stores, how: End)
    requires Wired(w, stores.Keys)
  {
    var t, ds := TargetForNode(n.id, w.routing), rt.desired(n.id, known);
    var absent := n.kind.External? && t in w.readers && ds.Objects? && ds.objects != []
      && ds.objects[0].key !in stores[t];
    && rt.ignored(n.id, known) != Some(true)
    && (how == Waiting <==> rt.ignored(n.id, known) == Some(false) && (ds.Pending? || absent))
    && (how == Failed && rt.ignored(n.id, known).Some? && ds.Objects? ==>
          if n.kind.External? then t !in w.readers
          else if n.kind.ExternalCollection?
          then t !in w.readers || (ds.objects != [] && rt.selector(ds.objects[0]).None?)
          else t !in w.appliers)
  }

  lemma TurnEnds(h: Digest, rt: Runtime, w: Wiring, n: Node, st: State)
    requires HexDigest(h) && Wired(w, st.stores.Keys) && TakeTurn(h, rt, w, n, st).Stop?
    ensures EndsAs(rt, w, n, st.obs, st.stores, TakeTurn(h, rt, w, n, st).end)
  {
  }

  /** A walk that does not complete ends at a node that makes it wait or fail. */
  lemma {:induction false} WalkEnds(h: Digest, rt: Runtime, w: Wiring, i: nat, st: State)
    requires HexDigest(h) && Wired(w, st.stores.Keys) && i <= |rt.nodes| && UniqueNodes(rt)
    requires st.obs.Keys <= Ids(rt.nodes[..i]) && Walk(h, rt, w, i, st).1 != Completed
    ensures var ((final, how), m) := (Walk(h, rt, w, i, st), Reached(h, rt, w, i, st));
      EndsAs(rt, w, rt.nodes[m], Upto(final.obs, rt.nodes, m), final.stores, how)
    decreases |rt.nodes| - i
  {
    var turn := TakeTurn(h, rt, w, rt.nodes[i], st);
    ObservationsPersist(h, rt, w, i, st);
    if turn.Next? {
      NextIsFresh(rt, i);
      WalkEnds(h, rt, w, i + 1, turn.state);
    } else {
      TurnEnds(h, rt, w, rt.nodes[i], st);
    }
  }
}
