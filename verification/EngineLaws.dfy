/** What one engine pass guarantees, over every graph, oracle and store. */
module EngineLaws {
  import opened Routing
  import opened Claims
  import opened Naming
  import opened Stores
  import opened Engine

  function Ids(nodes: seq<Node>): set<string> { set n | n in nodes :: n.id }

  /** The observations of the nodes before `i`: what the runtime knew at node `i`. */
  function Upto(obs: Obs, nodes: seq<Node>, i: nat): Obs
    requires i <= |nodes|
  {
    map id | id in obs && id in Ids(nodes[..i]) :: obs[id]
  }

  lemma NextIsFresh(rt: Runtime, i: nat)
    requires UniqueNodes(rt) && i < |rt.nodes|
    ensures Ids(rt.nodes[..i + 1]) == Ids(rt.nodes[..i]) + {rt.nodes[i].id}
    ensures rt.nodes[i].id !in Ids(rt.nodes[..i])
  {
    assert rt.nodes[..i + 1] == rt.nodes[..i] + [rt.nodes[i]];
  }

  lemma DropNewest(rt: Runtime, i: nat, final: Obs, after: Obs, before: Obs)
    requires UniqueNodes(rt) && i < |rt.nodes| && Upto(final, rt.nodes, i + 1) == after
    requires after == before || (rt.nodes[i].id in after && after == before[rt.nodes[i].id := after[rt.nodes[i].id]])
    requires before.Keys <= Ids(rt.nodes[..i])
    ensures Upto(final, rt.nodes, i) == before
  {
    NextIsFresh(rt, i);
    var id := rt.nodes[i].id;
    assert Upto(final, rt.nodes, i) == after - {id};
    assert before == after - {id};
  }

  /** A turn observes its own node at most. */
  lemma TurnObserves(h: Digest, rt: Runtime, w: Wiring, n: Node, st: State)
    requires HexDigest(h) && Wired(w, st.stores.Keys)
    ensures var turn := TakeTurn(h, rt, w, n, st);
      var obs := turn.state.obs;
      (obs == st.obs || (n.id in obs && obs == st.obs[n.id := obs[n.id]])) && (turn.Stop? ==> obs == st.obs)
      && turn.state.stores.Keys == st.stores.Keys
  {
  }

  /** Later nodes never disturb what earlier ones were observed as. */
  lemma {:induction false} ObservationsPersist(h: Digest, rt: Runtime, w: Wiring, i: nat, st: State)
    requires HexDigest(h) && Wired(w, st.stores.Keys) && i <= |rt.nodes| && UniqueNodes(rt)
    requires st.obs.Keys <= Ids(rt.nodes[..i])
    ensures var final := Walk(h, rt, w, i, st).0.obs;
      final.Keys <= Ids(rt.nodes) && Upto(final, rt.nodes, i) == st.obs
    decreases |rt.nodes| - i
  {
    if i == |rt.nodes| {
      assert rt.nodes[..i] == rt.nodes;
    } else {
      NextIsFresh(rt, i);
      TurnObserves(h, rt, w, rt.nodes[i], st);
      var turn := TakeTurn(h, rt, w, rt.nodes[i], st);
      if turn.Next? {
        ObservationsPersist(h, rt, w, i + 1, turn.state);
        DropNewest(rt, i, Walk(h, rt, w, i, st).0.obs, turn.state.obs, st.obs);
      } else {
        PrefixIds(rt.nodes, i, st.obs);
      }
    }
  }

  lemma PrefixIds(nodes: seq<Node>, i: nat, obs: Obs)
    requires i <= |nodes| && obs.Keys <= Ids(nodes[..i])
    ensures obs.Keys <= Ids(nodes) && Upto(obs, nodes, i) == obs
  {
  }

  function Events(h: Digest, t: Target, a: Applier, ds: seq<Desired>): seq<Event>
    requires HexDigest(h)
  {
    if ds == [] then [] else [Event(t, Final(h, a, ds[0]))] + Events(h, t, a, ds[1..])
  }

  lemma {:induction false} ApplyLog(h: Digest, t: Target, a: Applier, ds: seq<Desired>, st: State, seen: seq<Seen>)
    requires HexDigest(h) && t in st.stores
    ensures ApplyObjects(h, t, a, ds, st, seen).0.log == st.log + Events(h, t, a, ds)
    decreases ds
  {
    if ds != [] {
      var e := Event(t, Final(h, a, ds[0]));
      var st' := AfterWrite(st, e);
      ApplyLog(h, t, a, ds[1..], st', seen + [(e.desired.key, st'.stores[t][e.desired.key])]);
      assert st.log + [e] + Events(h, t, a, ds[1..]) == st.log + ([e] + Events(h, t, a, ds[1..]));
    }
  }

  /** `rt'` answers like `rt` wherever `rt` answers at all: the same blueprint once its
      pending data has arrived or its expressions have been fixed. */
  ghost predicate Resolves(rt: Runtime, rt': Runtime) {
    && rt'.nodes == rt.nodes
    && (forall id, obs :: rt.ignored(id, obs).Some? ==> rt'.ignored(id, obs) == rt.ignored(id, obs))
    && (forall id, obs :: rt.desired(id, obs).Objects? ==> rt'.desired(id, obs) == rt.desired(id, obs))
  }

  ghost predicate Agree(obs: Obs, obs': Obs) {
    forall id :: id in obs ==> id in obs' && obs'[id] == obs[id]
  }

  /** Two passes that have seen the same so far take the same turn. */
  lemma SameTurn(h: Digest, rt: Runtime, rt': Runtime, w: Wiring, n: Node, st: State, st': State)
    requires HexDigest(h) && Resolves(rt, rt') && Wired(w, st.stores.Keys) && Wired(w, st'.stores.Keys)
    requires st.obs == st'.obs && st.log == st'.log && n.id !in st.obs
    requires var t, t' := TakeTurn(h, rt, w, n, st), TakeTurn(h, rt', w, n, st');
      t.Next? && t'.Next? && (n.id in t.state.obs ==> n.id in t'.state.obs && t.state.obs[n.id] == t'.state.obs[n.id])
    ensures TakeTurn(h, rt, w, n, st).state.obs == TakeTurn(h, rt', w, n, st').state.obs
    ensures TakeTurn(h, rt, w, n, st).state.log == TakeTurn(h, rt', w, n, st').state.log
  {
    var t := TargetForNode(n.id, w.routing);
    if rt.ignored(n.id, st.obs) == Some(false) && !IsExternal(n) {
      var ds := rt.desired(n.id, st.obs).objects;
      ApplyLog(h, t, w.appliers[t], ds, st, []);
      ApplyLog(h, t, w.appliers[t], ds, st', []);
    }
  }

  /** A pass that stops early, waiting or failed, has written a prefix of what any
      complete pass over the same observations writes. */
  lemma {:induction false} StoppedPassIsPrefix(h: Digest, rt: Runtime, rt': Runtime, w: Wiring, i: nat, st: State,
                                               st': State)
    requires HexDigest(h) && Resolves(rt, rt') && UniqueNodes(rt) && i <= |rt.nodes|
    requires Wired(w, st.stores.Keys) && Wired(w, st'.stores.Keys)
    requires st.obs == st'.obs && st.log == st'.log && st.obs.Keys <= Ids(rt.nodes[..i])
    requires Walk(h, rt', w, i, st').1 == Completed
    requires Agree(Walk(h, rt, w, i, st).0.obs, Walk(h, rt', w, i, st').0.obs)
    ensures Walk(h, rt, w, i, st).0.log <= Walk(h, rt', w, i, st').0.log
    decreases |rt.nodes| - i
  {
    if i < |rt.nodes| {
      var n := rt.nodes[i];
      var t, t' := TakeTurn(h, rt, w, n, st), TakeTurn(h, rt', w, n, st');
      NextIsFresh(rt, i);
      if t.Next? {
        ObservationsPersist(h, rt, w, i + 1, t.state);
        ObservationsPersist(h, rt', w, i + 1, t'.state);
        var final, final' := Walk(h, rt, w, i, st).0.obs, Walk(h, rt', w, i, st').0.obs;
        assert n.id in t.state.obs ==> n.id in Upto(final, rt.nodes, i + 1);
        assert n.id in t.state.obs ==> n.id in Upto(final', rt.nodes, i + 1);
        SameTurn(h, rt, rt', w, n, st, st');
        StoppedPassIsPrefix(h, rt, rt', w, i + 1, t.state, t'.state);
      }
    }
  }

  /** Two complete passes with the same observations write the same objects in the
      same order, whatever the stores held. */
  lemma SameObservationsSameWrites(h: Digest, rt: Runtime, w: Wiring, stores: Stores, stores': Stores)
    requires HexDigest(h) && UniqueNodes(rt) && Wired(w, stores.Keys) && Wired(w, stores'.Keys)
    requires Walk(h, rt, w, 0, Begin(stores)).1 == Completed == Walk(h, rt, w, 0, Begin(stores')).1
    requires Walk(h, rt, w, 0, Begin(stores)).0.obs == Walk(h, rt, w, 0, Begin(stores')).0.obs
    ensures Walk(h, rt, w, 0, Begin(stores)).0.log == Walk(h, rt, w, 0, Begin(stores')).0.log
  {
    StoppedPassIsPrefix(h, rt, rt, w, 0, Begin(stores), Begin(stores'));
    StoppedPassIsPrefix(h, rt, rt, w, 0, Begin(stores'), Begin(stores));
  }

  /** Whether node `j` takes part in readiness: it is not ignored, and it is not an
      external reference that resolved to nothing. */
  predicate Counts(rt: Runtime, obs: Obs, j: nat)
    requires j < |rt.nodes|
  {
    CountsGiven(rt, rt.nodes[j], Upto(obs, rt.nodes, j))
  }

  predicate CountsGiven(rt: Runtime, n: Node, known: Obs) {
    rt.ignored(n.id, known) == Some(false) && !(IsExternal(n) && rt.desired(n.id, known) == Objects([]))
  }

  lemma TurnReadiness(h: Digest, rt: Runtime, w: Wiring, n: Node, st: State)
    requires HexDigest(h) && Wired(w, st.stores.Keys) && TakeTurn(h, rt, w, n, st).Next?
    ensures var after := TakeTurn(h, rt, w, n, st).state;
      after.ready <==> st.ready && (CountsGiven(rt, n, st.obs) ==> rt.ready(n.id, after.obs))
  {
  }

  ghost predicate ReadyFrom(rt: Runtime, obs: Obs, i: nat) {
    forall j :: i <= j < |rt.nodes| && Counts(rt, obs, j) ==> rt.ready(rt.nodes[j].id, Upto(obs, rt.nodes, j + 1))
  }

  lemma ReadyFromHere(rt: Runtime, obs: Obs, i: nat)
    requires i < |rt.nodes|
    ensures ReadyFrom(rt, obs, i) <==>
            ReadyFrom(rt, obs, i + 1) && (Counts(rt, obs, i) ==> rt.ready(rt.nodes[i].id, Upto(obs, rt.nodes, i + 1)))
  {
  }

  /** A complete pass is ready exactly when every node that counts was ready, judged on
      what had been observed up to and including that node. */
  lemma {:induction false} CompletePassReadiness(h: Digest, rt: Runtime, w: Wiring, i: nat, st: State)
    requires HexDigest(h) && Wired(w, st.stores.Keys) && UniqueNodes(rt) && i <= |rt.nodes|
    requires st.obs.Keys <= Ids(rt.nodes[..i])
    requires Walk(h, rt, w, i, st).1 == Completed
    ensures var final := Walk(h, rt, w, i, st).0;
      final.ready <==> st.ready && ReadyFrom(rt, final.obs, i)
    decreases |rt.nodes| - i
  {
    if i < |rt.nodes| {
      var n := rt.nodes[i];
      NextIsFresh(rt, i);
      var turn := TakeTurn(h, rt, w, n, st);
      var final := Walk(h, rt, w, i, st).0;
      ObservationsPersist(h, rt, w, i, st);
      ObservationsPersist(h, rt, w, i + 1, turn.state);
      TurnReadiness(h, rt, w, n, st);
      CompletePassReadiness(h, rt, w, i + 1, turn.state);
      ReadyFromHere(rt, final.obs, i);
    }
  }
}
