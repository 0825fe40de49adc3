/** internal/engine: the applier decorators and the node loop of one pass. */
module Engine {
  import opened GvkCodec
  import opened Routing
  import opened Claims
  import opened Naming
  import opened Stores

  // ---- apply.go: decorators ----

  /** Each wraps the next; `Ssa` is the server-side apply at the bottom. */
  datatype Applier =
    | Ssa(target: Target)
    | Recording(inner: Applier)
    | OwnerRef(inner: Applier, uid: string)
    | Qualifying(inner: Applier, cluster: string, instance: string)
    | Labeling(inner: Applier, labels: map<string, string>)

  function Destination(a: Applier): Target {
    if a.Ssa? then a.target else Destination(a.inner)
  }

  /** How many recording decorators the chain holds. */
  function Sinks(a: Applier): nat {
    match a
    case Ssa(_) => 0
    case Recording(inner) => 1 + Sinks(inner)
    case _ => Sinks(a.inner)
  }

  /** What reaches the server when `d` enters the chain. */
  function Final(h: Digest, a: Applier, d: Desired): Desired
    requires HexDigest(h)
  {
    match a
    case Ssa(_) => d
    case Recording(inner) => Final(h, inner, d)
    case OwnerRef(inner, uid) => Final(h, inner, d.(owner := Some(uid)))
    case Qualifying(inner, cluster, instance) =>
      Final(h, inner, d.(key := d.key.(name := ProviderChildName(h, Tuple(cluster, instance, d.key.name)))))
    case Labeling(inner, labels) => Final(h, inner, d.(labels := d.labels + labels))
  }

  type Seen = (Key, Object)

  /** A successful apply stores what the chain makes of `d`, appends its identity to
      the target's sink and returns it as read back. A failed one records nothing. */
  method Apply(s: Session, h: Digest, a: Applier, d: Desired) returns (r: Option<Seen>)
    requires HexDigest(h) && s.Has(Destination(a)) && Sinks(a) <= 1
    modifies s
    ensures var t, f := Destination(a), Final(h, a, d);
      && (s.stores == old(s.stores)[t := ServerApply(old(s.stores)[t], f)] || (r.None? && s.stores == old(s.stores)))
      && (r.Some? ==> r.value == (f.key, s.stores[t][f.key]))
      && s.applied == (if r.Some? && Sinks(a) == 1 then old(s.applied)[t := old(s.applied)[t] + [f.key]]
                       else old(s.applied))
      && Only(s.calls - old(s.calls), t, {d.key.gvk}, {"get", "patch", "create"})
    ensures s.faults == old(s.faults) + (if r.Some? then 0 else 1)
    decreases a
  {
    match a
    case Ssa(t) =>
      var ok := s.Patch(t, d);
      if !ok { return None; }
      var observed := s.Get(t, d.key);
      if !observed.Found? { return None; }
      r := Some((d.key, observed.value));
    case Recording(inner) =>
      r := Apply(s, h, inner, d);
      if r.Some? {
        s.applied := s.applied[Destination(inner) := s.applied[Destination(inner)] + [r.value.0]];
      }
    case OwnerRef(inner, uid) =>
      r := Apply(s, h, inner, d.(owner := Some(uid)));
    case Qualifying(inner, cluster, instance) =>
      r := Apply(s, h, inner, d.(key := d.key.(name := ProviderChildName(h, Tuple(cluster, instance, d.key.name)))));
    case Labeling(inner, labels) =>
      r := Apply(s, h, inner, d.(labels := d.labels + labels));
  }

  // ---- engine.go: the node loop ----

  /** What a node was last observed as: applied or fetched objects in order, or a listing. */
  datatype Observation = Items(items: seq<Seen>) | Listing(found: map<Key, Object>)

  type Obs = map<string, Observation>

  datatype Resolution = Pending | Invalid | Objects(objects: seq<Desired>)

  type Selector = map<string, string> -> bool

  /** kro's runtime for one instance: the nodes in topological order, and its answers
      as deterministic functions of what has been observed so far. `None` is an error. */
  datatype Runtime = Runtime(
    nodes: seq<Node>,
    ignored: (string, Obs) -> Option<bool>,
    desired: (string, Obs) -> Resolution,
    ready: (string, Obs) -> bool,
    selector: Desired -> Option<Selector>)

  predicate UniqueNodes(rt: Runtime) {
    forall i, j :: 0 <= i < j < |rt.nodes| ==> rt.nodes[i].id != rt.nodes[j].id
  }

  /** Rendering never changes the kind a node's template declares. */
  ghost predicate KindsFixed(rt: Runtime) {
    forall n, obs, d :: n in rt.nodes && rt.desired(n.id, obs).Objects? && d in rt.desired(n.id, obs).objects ==>
      d.key.gvk == n.gvk
  }

  datatype Wiring = Wiring(appliers: map<Target, Applier>, readers: set<Target>, routing: map<string, Target>)

  predicate Wired(w: Wiring, targets: set<Target>) {
    && w.readers <= targets
    && (forall t :: t in w.appliers ==> t in targets && Destination(w.appliers[t]) == t && Sinks(w.appliers[t]) == 1)
  }

  /** One object written by the pass, as it reached the server. */
  datatype Event = Event(target: Target, desired: Desired)

  datatype State = State(stores: Stores, obs: Obs, log: seq<Event>, ready: bool)

  datatype End = Completed | Waiting | Failed

  datatype Turn = Next(state: State) | Stop(state: State, end: End)

  function WriteOne(stores: Stores, e: Event): Stores
    requires e.target in stores
  {
    stores[e.target := ServerApply(stores[e.target], e.desired)]
  }

  predicate InStores(log: seq<Event>, targets: set<Target>) {
    forall e :: e in log ==> e.target in targets
  }

  /** The stores after a sequence of writes. */
  function Replay(stores: Stores, log: seq<Event>): (r: Stores)
    requires InStores(log, stores.Keys)
    ensures r.Keys == stores.Keys
  {
    if log == [] then stores
    else
      assert InStores(log[..|log| - 1], stores.Keys);
      WriteOne(Replay(stores, log[..|log| - 1]), log[|log| - 1])
  }

  lemma ReplayOneMore(stores: Stores, log: seq<Event>, e: Event)
    requires InStores(log, stores.Keys) && e.target in stores
    ensures InStores(log + [e], stores.Keys)
    ensures Replay(stores, log + [e]) == WriteOne(Replay(stores, log), e)
  {
    assert (log + [e])[..|log|] == log;
  }

  function Observe(rt: Runtime, n: Node, st: State, o: Observation): State {
    var obs := st.obs[n.id := o];
    st.(obs := obs, ready := st.ready && rt.ready(n.id, obs))
  }

  /** Applying a node's objects in order: the state and what was read back. */
  function ApplyObjects(h: Digest, t: Target, a: Applier, ds: seq<Desired>, st: State,
                        seen: seq<Seen>): (r: (State, seq<Seen>))
    requires HexDigest(h) && t in st.stores
    ensures r.0.stores.Keys == st.stores.Keys && r.0.obs == st.obs && r.0.ready == st.ready && st.log <= r.0.log
    decreases ds
  {
    if ds == [] then (st, seen)
    else
      var e := Event(t, Final(h, a, ds[0]));
      var st' := st.(stores := WriteOne(st.stores, e), log := st.log + [e]);
      ApplyObjects(h, t, a, ds[1..], st', seen + [(e.desired.key, st'.stores[t][e.desired.key])])
  }

  predicate Picks(ns: string, sel: Selector, k: Key, o: Object) {
    (ns == "" || k.namespace == ns) && sel(o.labels)
  }

  function Matching(s: Store, g: GVK, ns: string, sel: Selector): Store {
    map k | k in s && k.gvk == g && Picks(ns, sel, k, s[k]) :: s[k]
  }

  /** The read half of a node: an external reference or collection. */
  function ReadTurn(rt: Runtime, w: Wiring, n: Node, t: Target, ds: seq<Desired>, st: State): (r: Turn)
    requires Wired(w, st.stores.Keys)
  {
    if t !in w.readers then Stop(st, Failed)
    else if ds == [] then Next(st)
    else if n.kind.External? then
      if ds[0].key !in st.stores[t] then Stop(st.(ready := false), Waiting)
      else Next(Observe(rt, n, st, Items([(ds[0].key, st.stores[t][ds[0].key])])))
    else if rt.selector(ds[0]).None? then Stop(st, Failed)
    else
      var ns := if n.namespaced then ds[0].key.namespace else "";
      Next(Observe(rt, n, st, Listing(Matching(st.stores[t], ds[0].key.gvk, ns, rt.selector(ds[0]).value))))
  }

  /** The write half: a template or a collection of templates. */
  function WriteTurn(h: Digest, rt: Runtime, w: Wiring, n: Node, t: Target, ds: seq<Desired>, st: State): (r: Turn)
    requires HexDigest(h) && Wired(w, st.stores.Keys)
    ensures r.state.stores.Keys == st.stores.Keys && st.log <= r.state.log
  {
    if t !in w.appliers then Stop(st, Failed)
    else
      var (st', seen) := ApplyObjects(h, t, w.appliers[t], ds, st, []);
      Next(Observe(rt, n, st', Items(seen)))
  }

  /** One node, when no client call fails. */
  function TakeTurn(h: Digest, rt: Runtime, w: Wiring, n: Node, st: State): (r: Turn)
    requires HexDigest(h) && Wired(w, st.stores.Keys)
    ensures r.state.stores.Keys == st.stores.Keys && st.log <= r.state.log
    ensures r.state.obs == st.obs || (n.id in r.state.obs && r.state.obs == st.obs[n.id := r.state.obs[n.id]])
    ensures r.Stop? ==>
      r.end != Completed && r.state.obs == st.obs && r.state.log == st.log && r.state.stores == st.stores
  {
    match rt.ignored(n.id, st.obs)
    case None => Stop(st, Failed)
    case Some(true) => Next(st)
    case Some(false) =>
      match rt.desired(n.id, st.obs)
      case Pending => Stop(st.(ready := false), Waiting)
      case Invalid => Stop(st, Failed)
      case Objects(ds) =>
        var t := TargetForNode(n.id, w.routing);
        if IsExternal(n) then ReadTurn(rt, w, n, t, ds, st) else WriteTurn(h, rt, w, n, t, ds, st)
  }

  /** The whole loop from node `i` on, when no client call fails. */
  function Walk(h: Digest, rt: Runtime, w: Wiring, i: nat, st: State): (r: (State, End))
    requires HexDigest(h) && Wired(w, st.stores.Keys) && i <= |rt.nodes|
    ensures r.0.stores.Keys == st.stores.Keys && st.log <= r.0.log
    decreases |rt.nodes| - i
  {
    if i == |rt.nodes| then (st, Completed)
    else
      match TakeTurn(h, rt, w, rt.nodes[i], st)
      case Stop(st', end) => (st', end)
      case Next(st') => Walk(h, rt, w, i + 1, st')
  }

  function Begin(stores: Stores): State { State(stores, map[], [], true) }

  function RecordAll(applied: map<Target, seq<Key>>, log: seq<Event>): (r: map<Target, seq<Key>>)
    requires InStores(log, applied.Keys)
    ensures r.Keys == applied.Keys
  {
    if log == [] then applied
    else
      var e := log[|log| - 1];
      assert InStores(log[..|log| - 1], applied.Keys);
      var front := RecordAll(applied, log[..|log| - 1]);
      front[e.target := front[e.target] + [e.desired.key]]
  }

  lemma RecordOneMore(applied: map<Target, seq<Key>>, log: seq<Event>, e: Event)
    requires InStores(log, applied.Keys) && e.target in applied
    ensures InStores(log + [e], applied.Keys)
    ensures var r := RecordAll(applied, log);
      RecordAll(applied, log + [e]) == r[e.target := r[e.target] + [e.desired.key]]
  {
    assert (log + [e])[..|log|] == log;
  }

  /** What a node of this kind may ask of its target. */
  function VerbsNeeded(n: Node): set<string> {
    if n.kind.External? then {"get"}
    else if n.kind.ExternalCollection? then {"list"}
    else {"get", "list", "patch", "create", "delete"}
  }

  /** Some node routed to the call's target has the call's kind and needs its verb. */
  ghost predicate Permitted(c: Call, nodes: seq<Node>, routing: map<string, Target>) {
    exists n :: n in nodes && TargetForNode(n.id, routing) == c.target && n.gvk == c.gvk && c.verb in VerbsNeeded(n)
  }

  ghost predicate AllPermitted(calls: set<Call>, nodes: seq<Node>, routing: map<string, Target>) {
    forall c :: c in calls ==> Permitted(c, nodes, routing)
  }

  /** The stores hold exactly the writes of `log`, or those and one more whose
      response was lost, `full` being what a pass without failures would write. */
  predicate WroteSome(before: Stores, after: Stores, log: seq<Event>, full: seq<Event>) {
    && InStores(full, before.Keys) && log <= full
    && (assert forall e :: e in log ==> e in full; InStores(log, before.Keys))
    && (after == Replay(before, log)
        || (|log| < |full|
            && after == (assert InStores(full[..|log| + 1], before.Keys); Replay(before, full[..|log| + 1]))))
  }

  /** A pass that started from `before`, has written `st.log` and is about to do more. */
  ghost predicate Underway(s: Session, before: Stores, sinks: map<Target, seq<Key>>, st: State)
    reads s
  {
    && s.stores == st.stores && InStores(st.log, before.Keys) && before.Keys == sinks.Keys
    && s.stores == Replay(before, st.log) && s.applied == RecordAll(sinks, st.log)
  }

  lemma ApplyOneMore(h: Digest, t: Target, a: Applier, ds: seq<Desired>, j: nat, st: State, seen: seq<Seen>)
    requires HexDigest(h) && t in st.stores && j < |ds|
    ensures var e := Event(t, Final(h, a, ds[j]));
      var next := AfterWrite(st, e);
      var r := ApplyObjects(h, t, a, ds[j..], st, seen);
      && r == ApplyObjects(h, t, a, ds[j + 1..], next, seen + [(e.desired.key, next.stores[t][e.desired.key])])
      && next.log <= r.0.log
  {
    assert ds[j..][1..] == ds[j + 1..];
  }

  lemma Interrupted(before: Stores, after: Stores, log: seq<Event>, e: Event, full: seq<Event>)
    requires InStores(full, before.Keys) && InStores(log, before.Keys) && e.target in before && log + [e] <= full
    requires after == Replay(before, log) || after == WriteOne(Replay(before, log), e)
    ensures WroteSome(before, after, log, full)
  {
    assert full[..|log| + 1] == log + [e];
    ReplayOneMore(before, log, e);
  }

  lemma {:induction false} KindKept(h: Digest, a: Applier, d: Desired)
    requires HexDigest(h)
    ensures Final(h, a, d).key.gvk == d.key.gvk
    decreases a
  {
    match a
    case Ssa(_) =>
    case Recording(inner) => KindKept(h, inner, d);
    case OwnerRef(inner, uid) => KindKept(h, inner, d.(owner := Some(uid)));
    case Qualifying(inner, c, i) =>
      KindKept(h, inner, d.(key := d.key.(name := ProviderChildName(h, Tuple(c, i, d.key.name)))));
    case Labeling(inner, labels) => KindKept(h, inner, d.(labels := d.labels + labels));
  }

  function AfterWrite(st: State, e: Event): State
    requires e.target in st.stores
  {
    st.(stores := WriteOne(st.stores, e), log := st.log + [e])
  }

  method ApplyOne(s: Session, h: Digest, t: Target, a: Applier, d: Desired,
                  ghost before: Stores, ghost sinks: map<Target, seq<Key>>, ghost st: State)
    returns (r: Option<Seen>)
    requires HexDigest(h) && t in before && Destination(a) == t && Sinks(a) == 1
    requires Underway(s, before, sinks, st)
    modifies s
    ensures var e := Event(t, Final(h, a, d));
      && (r.Some? ==>
            Underway(s, before, sinks, AfterWrite(st, e)) && r.value == (e.desired.key, s.stores[t][e.desired.key]))
      && (r.None? ==>
            s.applied == RecordAll(sinks, st.log) && (s.stores == st.stores || s.stores == WriteOne(st.stores, e)))
    ensures Only(s.calls - old(s.calls), t, {d.key.gvk}, {"get", "patch", "create"})
    ensures s.faults == old(s.faults) + (if r.Some? then 0 else 1)
  {
    ReplayOneMore(before, st.log, Event(t, Final(h, a, d)));
    RecordOneMore(sinks, st.log, Event(t, Final(h, a, d)));
    r := Apply(s, h, a, d);
  }

  method ApplyNode(s: Session, h: Digest, t: Target, a: Applier, ds: seq<Desired>,
                   ghost before: Stores, ghost sinks: map<Target, seq<Key>>, ghost st: State, ghost g: GVK)
    returns (observed: Option<seq<Seen>>, ghost log: seq<Event>)
    requires HexDigest(h) && t in before && Destination(a) == t && Sinks(a) == 1
    requires Underway(s, before, sinks, st)
    requires forall d :: d in ds ==> d.key.gvk == g
    modifies s
    ensures var (st', seen) := ApplyObjects(h, t, a, ds, st, []);
      && (observed.Some? ==> log == st'.log && observed.value == seen && Underway(s, before, sinks, st'))
      && (observed.None? ==> WroteSome(before, s.stores, log, st'.log) && s.applied == RecordAll(sinks, log))
      && InStores(st'.log, before.Keys)
    ensures Only(s.calls - old(s.calls), t, {g}, {"get", "patch", "create"})
    ensures s.faults == old(s.faults) + (if observed.Some? then 0 else 1)
  {
    var out: seq<Seen> := [];
    ghost var cur := st;
    ghost var full := ApplyObjects(h, t, a, ds, st, []);
    InStoresAfter(h, t, a, ds, st, [], before.Keys);
    assert ds[0..] == ds;
    for j := 0 to |ds|
      invariant Underway(s, before, sinks, cur)
      invariant full == ApplyObjects(h, t, a, ds[j..], cur, out)
      invariant Only(s.calls - old(s.calls), t, {g}, {"get", "patch", "create"}) && s.faults == old(s.faults)
    {
      ghost var e := Event(t, Final(h, a, ds[j]));
      ApplyOneMore(h, t, a, ds, j, cur, out);
      assert ds[j] in ds;
      var r := ApplyOne(s, h, t, a, ds[j], before, sinks, cur);
      if r.None? {
        Interrupted(before, s.stores, cur.log, e, full.0.log);
        return None, cur.log;
      }
      out := out + [r.value];
      cur := AfterWrite(cur, e);
    }
    return Some(out), cur.log;
  }

  lemma {:induction false} InStoresAfter(h: Digest, t: Target, a: Applier, ds: seq<Desired>, st: State, seen: seq<Seen>,
                                         targets: set<Target>)
    requires HexDigest(h) && t in st.stores && t in targets && InStores(st.log, targets)
    ensures InStores(ApplyObjects(h, t, a, ds, st, seen).0.log, targets)
    decreases ds
  {
    if ds != [] {
      var e := Event(t, Final(h, a, ds[0]));
      var st' := st.(stores := WriteOne(st.stores, e), log := st.log + [e]);
      InStoresAfter(h, t, a, ds[1..], st', seen + [(e.desired.key, st'.stores[t][e.desired.key])], targets);
    }
  }

  datatype Progress = Go | Wait | Err

  method ListMatching(s: Session, t: Target, g: GVK, ns: string, sel: Selector) returns (items: Option<Store>)
    requires s.Has(t)
    modifies s`calls, s`faults
    ensures items.Some? ==> items.value == Matching(s.stores[t], g, ns, sel)
    ensures s.calls == old(s.calls) + {Call(t, "list", g)}
    ensures s.faults == old(s.faults) + (if items.Some? then 0 else 1)
  {
    items := s.List(t, g, (k: Key, o: Object) => Picks(ns, sel, k, o));
    if items.Some? { assert items.value == Matching(s.stores[t], g, ns, sel); }
  }

  method ReadNode(s: Session, rt: Runtime, w: Wiring, n: Node, t: Target, ds: seq<Desired>, obs: Obs, ready: bool,
                  ghost st: State)
    returns (progress: Progress, obs': Obs, ready': bool)
    requires IsExternal(n) && Wired(w, s.stores.Keys) && s.stores.Keys == s.applied.Keys
    requires s.stores == st.stores && st.obs == obs && st.ready == ready
    requires forall d :: d in ds ==> d.key.gvk == n.gvk
    modifies s`calls, s`faults
    ensures progress.Go? ==> ReadTurn(rt, w, n, t, ds, st) == Next(st.(obs := obs', ready := ready'))
    ensures progress.Wait? ==> ReadTurn(rt, w, n, t, ds, st) == Stop(st.(ready := false), Waiting) && obs' == obs
    ensures Only(s.calls - old(s.calls), t, {n.gvk}, VerbsNeeded(n))
    ensures s.faults == old(s.faults) + (if progress.Err? && !Fails(ReadTurn(rt, w, n, t, ds, st)) then 1 else 0)
    ensures Fails(ReadTurn(rt, w, n, t, ds, st)) ==> progress.Err?
  {
    obs', ready' := obs, ready;
    if t !in w.readers { return Err, obs', ready'; }
    if ds == [] { return Go, obs', ready'; }
    assert ds[0] in ds;
    if n.kind.External? {
      var obj := s.Get(t, ds[0].key);
      if obj.NotFound? { return Wait, obs', false; }
      if obj.Unavailable? { return Err, obs', ready'; }
      obs' := obs[n.id := Items([(ds[0].key, obj.value)])];
    } else {
      var sel := rt.selector(ds[0]);
      if sel.None? { return Err, obs', ready'; }
      var items := ListMatching(s, t, ds[0].key.gvk, if n.namespaced then ds[0].key.namespace else "", sel.value);
      if items.None? { return Err, obs', ready'; }
      obs' := obs[n.id := Listing(items.value)];
    }
    ready' := ready && rt.ready(n.id, obs');
    return Go, obs', ready';
  }

  lemma NodePermits(calls: set<Call>, n: Node, t: Target, verbs: set<string>, nodes: seq<Node>,
                    routing: map<string, Target>)
    requires Only(calls, t, {n.gvk}, verbs) && verbs <= VerbsNeeded(n) && n in nodes
    requires TargetForNode(n.id, routing) == t
    ensures AllPermitted(calls, nodes, routing)
  {
    forall c | c in calls ensures Permitted(c, nodes, routing) {}
  }

  predicate Fails(turn: Turn) { turn.Stop? && turn.end.Failed? }

  /** How far one node's visit got, against the failure-free turn. */
  ghost predicate TurnTaken(s: Session, before: Stores, sinks: map<Target, seq<Key>>, turn: Turn,
                          progress: Progress, obs: Obs, ready: bool, log: seq<Event>)
    reads s
  {
    && InStores(turn.state.log, before.Keys)
    && (progress.Go? ==> turn == Next(State(s.stores, obs, log, ready)) && Underway(s, before, sinks, turn.state))
    && (progress.Wait? ==>
          turn == Stop(State(s.stores, obs, log, false), Waiting) && Underway(s, before, sinks, turn.state))
    && (progress.Err? ==>
          WroteSome(before, s.stores, log, turn.state.log) && InStores(log, sinks.Keys)
            && s.applied == RecordAll(sinks, log))
  }

  method VisitTemplate(s: Session, h: Digest, rt: Runtime, w: Wiring, n: Node, t: Target, ds: seq<Desired>, obs: Obs,
                       ready: bool, ghost before: Stores, ghost sinks: map<Target, seq<Key>>, ghost st: State)
    returns (progress: Progress, obs': Obs, ready': bool, ghost log: seq<Event>)
    requires HexDigest(h) && Wired(w, before.Keys) && !IsExternal(n)
    requires Underway(s, before, sinks, st) && st.obs == obs && st.ready == ready
    requires forall d :: d in ds ==> d.key.gvk == n.gvk
    modifies s
    ensures TurnTaken(s, before, sinks, WriteTurn(h, rt, w, n, t, ds, st), progress, obs', ready', log)
    ensures Only(s.calls - old(s.calls), t, {n.gvk}, VerbsNeeded(n))
    ensures var failed := Fails(WriteTurn(h, rt, w, n, t, ds, st));
      s.faults == old(s.faults) + (if progress.Err? && !failed then 1 else 0) && (failed ==> progress.Err?)
  {
    obs', ready', log := obs, ready, st.log;
    if t !in w.appliers { return Err, obs', ready', log; }
    var observed;
    observed, log := ApplyNode(s, h, t, w.appliers[t], ds, before, sinks, st, n.gvk);
    if observed.None? { return Err, obs', ready', log; }
    obs' := obs[n.id := Items(observed.value)];
    ready' := ready && rt.ready(n.id, obs');
    return Go, obs', ready', log;
  }

  method VisitExternal(s: Session, rt: Runtime, w: Wiring, n: Node, t: Target, ds: seq<Desired>, obs: Obs, ready: bool,
                       ghost before: Stores, ghost sinks: map<Target, seq<Key>>, ghost st: State)
    returns (progress: Progress, obs': Obs, ready': bool)
    requires Wired(w, before.Keys) && IsExternal(n)
    requires Underway(s, before, sinks, st) && st.obs == obs && st.ready == ready
    requires forall d :: d in ds ==> d.key.gvk == n.gvk
    modifies s`calls, s`faults
    ensures TurnTaken(s, before, sinks, ReadTurn(rt, w, n, t, ds, st), progress, obs', ready', st.log)
    ensures Only(s.calls - old(s.calls), t, {n.gvk}, VerbsNeeded(n))
    ensures var failed := Fails(ReadTurn(rt, w, n, t, ds, st));
      s.faults == old(s.faults) + (if progress.Err? && !failed then 1 else 0) && (failed ==> progress.Err?)
  {
    progress, obs', ready' := ReadNode(s, rt, w, n, t, ds, obs, ready, st);
  }

  method VisitNode(s: Session, h: Digest, rt: Runtime, w: Wiring, n: Node, obs: Obs, ready: bool,
                   ghost before: Stores, ghost sinks: map<Target, seq<Key>>, ghost st: State)
    returns (progress: Progress, obs': Obs, ready': bool, ghost log: seq<Event>)
    requires HexDigest(h) && Wired(w, before.Keys) && n in rt.nodes && KindsFixed(rt)
    requires Underway(s, before, sinks, st) && st.obs == obs && st.ready == ready
    modifies s
    ensures TurnTaken(s, before, sinks, TakeTurn(h, rt, w, n, st), progress, obs', ready', log)
    ensures AllPermitted(s.calls - old(s.calls), rt.nodes, w.routing)
    ensures var failed := Fails(TakeTurn(h, rt, w, n, st));
      s.faults == old(s.faults) + (if progress.Err? && !failed then 1 else 0) && (failed ==> progress.Err?)
  {
    obs', ready', log := obs, ready, st.log;
    var ignored := rt.ignored(n.id, obs);
    if ignored.None? { return Err, obs', ready', log; }
    if ignored.value { return Go, obs', ready', log; }
    var resolved := rt.desired(n.id, obs);
    if resolved.Pending? { return Wait, obs', false, log; }
    if resolved.Invalid? { return Err, obs', ready', log; }
    var t := TargetForNode(n.id, w.routing);
    if IsExternal(n) {
      progress, obs', ready' := VisitExternal(s, rt, w, n, t, resolved.objects, obs, ready, before, sinks, st);
    } else {
      progress, obs', ready', log :=
        VisitTemplate(s, h, rt, w, n, t, resolved.objects, obs, ready, before, sinks, st);
    }
    NodePermits(s.calls - old(s.calls), n, t, VerbsNeeded(n), rt.nodes, w.routing);
  }

  /** `Result`, with the error a pass may return beside it. */
  datatype Outcome = Outcome(ready: bool, requeue: bool, complete: bool, err: bool)

  lemma MoreToWrite(before: Stores, after: Stores, log: seq<Event>, part: seq<Event>, full: seq<Event>)
    requires WroteSome(before, after, log, part) && part <= full && InStores(full, before.Keys)
    ensures WroteSome(before, after, log, full)
  {
    if |log| < |part| { assert full[..|log| + 1] == part[..|log| + 1]; }
  }

  /** Engine.Reconcile under client failures. Without an error the stores, the sinks and
      the flags are exactly those of the failure-free walk; with one, the objects written
      are a prefix of what that walk writes, the last of them perhaps unrecorded. Without
      a failing call there is an error exactly when the walk itself ends in one. */
  method Reconcile(s: Session, h: Digest, rt: Runtime, w: Wiring) returns (res: Outcome, ghost log: seq<Event>)
    requires HexDigest(h) && KindsFixed(rt) && Wired(w, s.stores.Keys) && s.stores.Keys == s.applied.Keys
    modifies s
    ensures var (end, how) := Walk(h, rt, w, 0, Begin(old(s.stores)));
      && InStores(end.log, old(s.stores).Keys)
      && (!res.err ==>
            how != Failed && log == end.log && s.stores == end.stores && s.stores == Replay(old(s.stores), log))
      && (!res.err ==>
            (res.complete <==> how == Completed) && (res.ready <==> how == Completed && end.ready)
              && res.requeue == !res.ready)
      && (res.err ==> WroteSome(old(s.stores), s.stores, log, end.log) && !res.complete)
      && InStores(log, old(s.applied).Keys) && s.applied == RecordAll(old(s.applied), log)
    ensures AllPermitted(s.calls - old(s.calls), rt.nodes, w.routing)
    ensures old(s.faults) <= s.faults && (!res.err ==> s.faults == old(s.faults))
    ensures s.faults == old(s.faults) ==> (res.err <==> Walk(h, rt, w, 0, Begin(old(s.stores))).1 == Failed)
  {
    ghost var before, sinks := s.stores, s.applied;
    ghost var (end, how) := Walk(h, rt, w, 0, Begin(before));
    ghost var st := Begin(before);
    WalkStaysInStores(h, rt, w, 0, st, before.Keys);
    var obs: Obs, ready := map[], true;
    for i := 0 to |rt.nodes|
      invariant Underway(s, before, sinks, st) && st.obs == obs && st.ready == ready
      invariant (end, how) == Walk(h, rt, w, i, st)
      invariant AllPermitted(s.calls - old(s.calls), rt.nodes, w.routing) && s.faults == old(s.faults)
    {
      ghost var turn := TakeTurn(h, rt, w, rt.nodes[i], st);
      var progress, obs', ready', written := VisitNode(s, h, rt, w, rt.nodes[i], obs, ready, before, sinks, st);
      log := written;
      if progress.Err? {
        MoreToWrite(before, s.stores, log, turn.state.log, end.log);
        return Outcome(ready', !ready', false, true), log;
      }
      if progress.Wait? {
        return Outcome(false, true, false, false), log;
      }
      obs, ready, st := obs', ready', turn.state;
    }
    log := st.log;
    return Outcome(ready, !ready, true, false), log;
  }

  lemma {:induction false} WalkStaysInStores(h: Digest, rt: Runtime, w: Wiring, i: nat, st: State, targets: set<Target>)
    requires HexDigest(h) && Wired(w, st.stores.Keys) && i <= |rt.nodes|
    requires InStores(st.log, targets) && st.stores.Keys == targets
    ensures InStores(Walk(h, rt, w, i, st).0.log, targets)
    decreases |rt.nodes| - i
  {
    if i < |rt.nodes| {
      var n := rt.nodes[i];
      var t := TargetForNode(n.id, w.routing);
      var turn := TakeTurn(h, rt, w, n, st);
      if t in w.appliers && rt.desired(n.id, st.obs).Objects? {
        InStoresAfter(h, t, w.appliers[t], rt.desired(n.id, st.obs).objects, st, [], targets);
      }
      assert InStores(turn.state.log, targets);
      if turn.Next? { WalkStaysInStores(h, rt, w, i + 1, turn.state, targets); }
    }
  }
}
