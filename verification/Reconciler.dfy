/** internal/controller/reconciler.go: one reconcile pass over one instance. */
module Reconciler {
  import opened Text
  import opened GvkCodec
  import opened Routing
  import opened Claims
  import opened Naming
  import opened Stores
  import opened Engine

  const FINALIZER := "krop.opendefense.cloud/gc"

  /** The fixed configuration of one per-export reconciler. */
  datatype Config = Config(graph: map<string, Node>, routing: map<string, Target>, hostWired: bool,
                           blueprint: string, recordNamespace: string)

  datatype Instance = Instance(uid: string, name: string, finalizers: seq<string>, deleting: bool)

  function WiredTargets(r: Config): set<Target> {
    {Consumer, Provider} + (if r.hostWired then {Host} else {})
  }

  const ALL_TARGETS: set<Target> := {Consumer, Provider, Host}

  /** The kinds krop creates in a target. External references are only read. */
  function ChildKinds(r: Config, t: Target): set<GVK> {
    set id | id in r.graph && Creates(r, r.graph[id], t) :: r.graph[id].gvk
  }

  predicate Creates(r: Config, n: Node, t: Target) {
    !IsExternal(n) && TargetForNode(n.id, r.routing) == t
  }

  /** childGVKs: the distinct child kinds of a target, in some order. */
  method ChildGVKs(r: Config, t: Target) returns (out: seq<GVK>)
    ensures Distinct(out) && Elems(out) == ChildKinds(r, t)
    ensures forall g :: g in out <==>
      exists id :: id in r.graph && r.graph[id].gvk == g && TargetForNode(r.graph[id].id, r.routing) == t
                   && (r.graph[id].kind.Template? || r.graph[id].kind.Collection?)
  {
    out := [];
    var seen: set<GVK> := {};
    var todo := r.graph.Keys;
    while todo != {}
      invariant todo <= r.graph.Keys
      invariant Distinct(out) && seen == Elems(out) && seen <= ChildKinds(r, t)
      invariant forall id :: id in r.graph && id !in todo && Creates(r, r.graph[id], t) ==> r.graph[id].gvk in seen
    {
      var id :| id in todo;
      todo := todo - {id};
      var node := r.graph[id];
      if IsExternal(node) { continue; }
      if TargetForNode(node.id, r.routing) != t { continue; }
      if node.gvk !in seen {
        seen := seen + {node.gvk};
        out := out + [node.gvk];
      }
    }
    assert forall g :: g in out <==> g in seen;
  }

  predicate CleanGraph(r: Config) {
    forall id :: id in r.graph ==> Clean(r.graph[id].gvk)
  }

  /** childGVKString: what the sweeper will visit for this string is exactly the
      target's child kinds, each once. */
  method ChildGVKString(r: Config, t: Target) returns (s: string)
    ensures CleanGraph(r) ==> Distinct(Visited(s)) && Elems(Visited(s)) == ChildKinds(r, t)
  {
    var gvks := ChildGVKs(r, t);
    var tokens := [];
    for i := 0 to |gvks|
      invariant tokens == Tokens(gvks[..i])
    {
      tokens := tokens + [Token(gvks[i])];
    }
    s := Join(tokens, ',');
    if CleanGraph(r) {
      assert gvks[..|gvks|] == gvks;
      forall g | g in gvks ensures Clean(g) {
        assert g in Elems(gvks);
      }
      GvkStringRoundTrip(gvks);
    }
  }

  // ---- Garbage collection ----

  /** Only reapable objects left the store, and nothing else changed. */
  ghost predicate OnlyReaped(before: Store, after: Store, kinds: set<GVK>, uid: string, keep: set<Key>) {
    && (forall k :: k in after ==> k in before && after[k] == before[k])
    && (forall k :: k in before && k !in after ==> k in Reapable(before, kinds, uid, keep))
  }

  ghost predicate ReapedEverywhere(r: Config, before: Stores, after: Stores, uid: string, keep: map<Target, set<Key>>,
                                   targets: set<Target>)
    requires before.Keys == after.Keys == keep.Keys == ALL_TARGETS
  {
    forall t :: t in ALL_TARGETS ==>
      after[t] == if t in targets then Reap(before[t], ChildKinds(r, t), uid, keep[t]) else before[t]
  }

  ghost predicate ReapedSomewhere(r: Config, before: Stores, after: Stores, uid: string, keep: map<Target, set<Key>>)
    requires before.Keys == after.Keys == keep.Keys == ALL_TARGETS
  {
    forall t :: t in ALL_TARGETS ==>
      if t in WiredTargets(r)
      then OnlyReaped(before[t], after[t], ChildKinds(r, t), uid, keep[t]) else after[t] == before[t]
  }

  ghost predicate ReapCalls(r: Config, calls: set<Call>) {
    forall c :: c in calls ==> c.gvk in ChildKinds(r, c.target) && c.verb in {"list", "delete"}
  }

  method ReapTarget(s: Session, r: Config, t: Target, uid: string, keep: set<Key>) returns (ok: bool)
    requires s.Has(t)
    modifies s`calls, s`faults, s`stores
    ensures s.stores.Keys == old(s.stores).Keys && s.stores == old(s.stores)[t := s.stores[t]]
    ensures ok ==> s.stores[t] == Reap(old(s.stores)[t], ChildKinds(r, t), uid, keep)
    ensures OnlyReaped(old(s.stores)[t], s.stores[t], ChildKinds(r, t), uid, keep)
    ensures Only(s.calls - old(s.calls), t, ChildKinds(r, t), {"list", "delete"})
    ensures s.faults == old(s.faults) + (if ok then 0 else 1)
  {
    var kinds := ChildGVKs(r, t);
    var done, gone := ReapKinds(s, t, kinds, uid, keep);
    ok := done;
  }

  lemma CallsGrow(r: Config, first: set<Call>, mid: set<Call>, last: set<Call>, t: Target)
    requires ReapCalls(r, mid - first) && Only(last - mid, t, ChildKinds(r, t), {"list", "delete"})
    ensures ReapCalls(r, last - first)
  {
    forall c | c in last - first ensures c.gvk in ChildKinds(r, c.target) && c.verb in {"list", "delete"} {
      assert c in mid - first || c in last - mid;
    }
  }

  lemma ReapOneMore(r: Config, before: Stores, mid: Stores, after: Stores, uid: string, keep: map<Target, set<Key>>,
                    done: set<Target>, t: Target)
    requires before.Keys == mid.Keys == after.Keys == keep.Keys == ALL_TARGETS
    requires ReapedEverywhere(r, before, mid, uid, keep, done) && done <= WiredTargets(r) && t in WiredTargets(r)
    requires t !in done
    requires after == mid[t := after[t]]
    requires OnlyReaped(mid[t], after[t], ChildKinds(r, t), uid, keep[t])
    ensures ReapedSomewhere(r, before, after, uid, keep)
    ensures after[t] == Reap(mid[t], ChildKinds(r, t), uid, keep[t]) ==>
      ReapedEverywhere(r, before, after, uid, keep, done + {t})
  {
    assert mid[t] == before[t];
    forall x | x in ALL_TARGETS
      ensures if x in WiredTargets(r) then OnlyReaped(before[x], after[x], ChildKinds(r, x), uid, keep[x])
        else after[x] == before[x]
    {
      if x != t { assert after[x] == mid[x]; }
    }
  }

  /** The common loop of deleteChildren (nothing kept) and pruneChildren (the applied
      set kept): every wired target, in any order, every child kind of it. */
  method ReapTargets(s: Session, r: Config, uid: string, keep: map<Target, set<Key>>) returns (ok: bool)
    requires s.stores.Keys == s.applied.Keys == keep.Keys == ALL_TARGETS
    modifies s`calls, s`faults, s`stores
    ensures s.stores.Keys == ALL_TARGETS
    ensures ok ==> ReapedEverywhere(r, old(s.stores), s.stores, uid, keep, WiredTargets(r))
    ensures ReapedSomewhere(r, old(s.stores), s.stores, uid, keep)
    ensures ReapCalls(r, s.calls - old(s.calls))
    ensures s.faults == old(s.faults) + (if ok then 0 else 1)
  {
    var todo := WiredTargets(r);
    ghost var done: set<Target> := {};
    while todo != {}
      invariant done + todo == WiredTargets(r) && done !! todo && s.stores.Keys == ALL_TARGETS
      invariant ReapedEverywhere(r, old(s.stores), s.stores, uid, keep, done)
      invariant ReapedSomewhere(r, old(s.stores), s.stores, uid, keep)
      invariant ReapCalls(r, s.calls - old(s.calls)) && s.faults == old(s.faults)
    {
      var t :| t in todo;
      ghost var mid, called := s.stores, s.calls;
      var reaped := ReapTarget(s, r, t, uid, keep[t]);
      ReapOneMore(r, old(s.stores), mid, s.stores, uid, keep, done, t);
      CallsGrow(r, old(s.calls), called, s.calls, t);
      if !reaped { return false; }
      todo := todo - {t};
      done := done + {t};
    }
    ok := true;
  }

  // ---- The liveness record ----

  function RecordKey(h: Digest, r: Config, cluster: string, uid: string): Key
    requires HexDigest(h)
  {
    var ns := if r.recordNamespace != "" then r.recordNamespace else "default";
    Key(CONFIG_MAP, ns, LivenessRecordName(h, cluster, uid))
  }

  function GCLabels(uid: string, cluster: string, blueprint: string): map<string, string> {
    map[LABEL_UID := uid, LABEL_CLUSTER := cluster, LABEL_BLUEPRINT := blueprint]
  }

  /** A record that lets the sweeper find every kind the graph can create. */
  predicate IsRecord(r: Config, o: Object, cluster: string, uid: string, now: string) {
    && o.labels == map["krop.opendefense.cloud/instance-uid" := uid,
                       "krop.opendefense.cloud/consumer-cluster" := cluster,
                       "krop.opendefense.cloud/blueprint" := r.blueprint,
                       "krop.opendefense.cloud/liveness" := "true"]
    && o.spec.Keys == {"lastReconciled", "providerChildGVKs", "hostChildGVKs"}
    && o.spec["lastReconciled"] == now
    && (CleanGraph(r) ==>
          && Elems(Visited(o.spec["providerChildGVKs"])) == ChildKinds(r, Provider)
          && Elems(Visited(o.spec["hostChildGVKs"])) == ChildKinds(r, Host))
  }

  ghost predicate WroteRecord(h: Digest, r: Config, before: Stores, after: Stores, cluster: string, uid: string,
                              now: string)
    requires HexDigest(h) && before.Keys == after.Keys == ALL_TARGETS
  {
    var k := RecordKey(h, r, cluster, uid);
    && k in after[Provider] && IsRecord(r, after[Provider][k], cluster, uid, now)
    && after == before[Provider := before[Provider][k := after[Provider][k]]]
  }

  /** writeLivenessRecord: read, then create or update. `now` is taken first. */
  method WriteLivenessRecord(s: Session, h: Digest, r: Config, cluster: string, uid: string, now: string)
    returns (ok: bool)
    requires HexDigest(h) && s.stores.Keys == s.applied.Keys == ALL_TARGETS
    modifies s`calls, s`faults, s`stores
    ensures s.stores.Keys == ALL_TARGETS
    ensures WroteRecord(h, r, old(s.stores), s.stores, cluster, uid, now) || (!ok && s.stores == old(s.stores))
    ensures forall c :: c in s.calls - old(s.calls) ==> c.target == Provider
    ensures s.faults == old(s.faults) + (if ok then 0 else 1)
  {
    var labels := GCLabels(uid, cluster, r.blueprint)[LABEL_LIVENESS := "true"];
    var providerKinds := ChildGVKString(r, Provider);
    var hostKinds := ChildGVKString(r, Host);
    var data := map["lastReconciled" := now, "providerChildGVKs" := providerKinds, "hostChildGVKs" := hostKinds];
    var k := RecordKey(h, r, cluster, uid);
    var existing := s.Get(Provider, k);
    match existing
    case Unavailable => ok := false;
    case NotFound => ok := s.Put(Provider, k, Object(labels, None, data, ""));
    case Found(o) => ok := s.Put(Provider, k, o.(labels := labels, spec := data));
  }

  // ---- The appliers of one pass ----

  function ConsumerChain(uid: string, labels: map<string, string>): (a: Applier)
    ensures Destination(a) == Consumer && Sinks(a) == 1
  {
    var innermost := Recording(Ssa(Consumer));
    assert Destination(innermost) == Consumer && Sinks(innermost) == 1;
    Labeling(OwnerRef(innermost, uid), labels)
  }

  function QualifiedChain(t: Target, cluster: string, instance: string, labels: map<string, string>): (a: Applier)
    ensures Destination(a) == t && Sinks(a) == 1
  {
    var innermost := Recording(Ssa(t));
    assert Destination(innermost) == t && Sinks(innermost) == 1;
    Labeling(Qualifying(innermost, cluster, instance), labels)
  }

  /** The consumer chain labels and owns; the other two label and rename. */
  lemma ChainsFinal(h: Digest, t: Target, uid: string, cluster: string, instance: string, labels: map<string, string>,
                    d: Desired)
    requires HexDigest(h)
    ensures Final(h, ConsumerChain(uid, labels), d) == d.(labels := d.labels + labels, owner := Some(uid))
    ensures Final(h, QualifiedChain(t, cluster, instance, labels), d)
         == d.(labels := d.labels + labels,
               key := d.key.(name := ProviderChildName(h, Tuple(cluster, instance, d.key.name))))
  {
    var l := d.(labels := d.labels + labels);
    var o := l.(owner := Some(uid));
    var q := l.(key := d.key.(name := ProviderChildName(h, Tuple(cluster, instance, d.key.name))));
    assert Final(h, Recording(Ssa(Consumer)), o) == Final(h, Ssa(Consumer), o) == o;
    assert Final(h, Recording(Ssa(t)), q) == Final(h, Ssa(t), q) == q;
    assert Final(h, OwnerRef(Recording(Ssa(Consumer)), uid), l) == o;
    assert Final(h, Qualifying(Recording(Ssa(t)), cluster, instance), l) == q;
  }

  function WiringFor(r: Config, cluster: string, inst: Instance): (w: Wiring)
    ensures Wired(w, ALL_TARGETS) && w.appliers.Keys == WiredTargets(r) && w.routing == r.routing
  {
    var labels := GCLabels(inst.uid, cluster, r.blueprint);
    var both := map[Consumer := ConsumerChain(inst.uid, labels),
                    Provider := QualifiedChain(Provider, cluster, inst.name, labels)];
    var all := if r.hostWired then both[Host := QualifiedChain(Host, cluster, inst.name, labels)] else both;
    Wiring(all, WiredTargets(r), r.routing)
  }

  /** What a rendered object becomes on its way to each target: labels everywhere, the
      owner in the consumer workspace, a qualified name outside it. The host is read and
      written only with a client for it. */
  lemma WiringFinal(h: Digest, r: Config, cluster: string, inst: Instance, t: Target, d: Desired)
    requires HexDigest(h) && t in WiredTargets(r)
    ensures var w := WiringFor(r, cluster, inst);
      w.readers == w.appliers.Keys == if r.hostWired then {Consumer, Provider, Host} else {Consumer, Provider}
    ensures Final(h, WiringFor(r, cluster, inst).appliers[t], d) == Desired(
      if t == Consumer then d.key else d.key.(name := ProviderChildName(h, Tuple(cluster, inst.name, d.key.name))),
      d.labels + map["krop.opendefense.cloud/instance-uid" := inst.uid,
                     "krop.opendefense.cloud/consumer-cluster" := cluster,
                     "krop.opendefense.cloud/blueprint" := r.blueprint],
      if t == Consumer then Some(inst.uid) else d.owner,
      d.spec)
  {
    ChainsFinal(h, t, inst.uid, cluster, inst.name, GCLabels(inst.uid, cluster, r.blueprint), d);
  }

  /** A write this instance's pass may make: labelled with its uid, its cluster and its
      blueprint, of a child kind of the target, and outside the consumer workspace under a qualified name. */
  ghost predicate OwnWrite(h: Digest, r: Config, cluster: string, inst: Instance, e: Event)
    requires HexDigest(h)
  {
    && LABEL_UID in e.desired.labels && e.desired.labels[LABEL_UID] == inst.uid
    && LABEL_CLUSTER in e.desired.labels && e.desired.labels[LABEL_CLUSTER] == cluster
    && LABEL_BLUEPRINT in e.desired.labels && e.desired.labels[LABEL_BLUEPRINT] == r.blueprint
    && e.target in WiredTargets(r) && e.desired.key.gvk in ChildKinds(r, e.target)
    && (e.target != Consumer ==>
          exists original :: e.desired.key.name == ProviderChildName(h, Tuple(cluster, inst.name, original)))
  }

  ghost predicate OwnWrites(h: Digest, r: Config, cluster: string, inst: Instance, log: seq<Event>)
    requires HexDigest(h)
  {
    forall e :: e in log ==> OwnWrite(h, r, cluster, inst, e)
  }

  /** The runtime's nodes are nodes of the compiled graph. */
  predicate FromGraph(rt: Runtime, r: Config) {
    forall n :: n in rt.nodes ==> n.id in r.graph && r.graph[n.id] == n
  }

  lemma FinalIsOwn(h: Digest, r: Config, cluster: string, inst: Instance, n: Node, d: Desired)
    requires HexDigest(h) && n.id in r.graph && r.graph[n.id] == n && !IsExternal(n) && d.key.gvk == n.gvk
    requires TargetForNode(n.id, r.routing) in WiredTargets(r)
    ensures var t := TargetForNode(n.id, r.routing);
      OwnWrite(h, r, cluster, inst, Event(t, Final(h, WiringFor(r, cluster, inst).appliers[t], d)))
  {
    var t := TargetForNode(n.id, r.routing);
    WiringFinal(h, r, cluster, inst, t, d);
  }

  lemma {:induction false} ObjectsAreOwn(h: Digest, r: Config, cluster: string, inst: Instance, n: Node,
                                         ds: seq<Desired>, st: State, seen: seq<Seen>)
    requires HexDigest(h) && n.id in r.graph && r.graph[n.id] == n && !IsExternal(n)
    requires forall d :: d in ds ==> d.key.gvk == n.gvk
    requires var t := TargetForNode(n.id, r.routing); t in WiredTargets(r) && t in st.stores
    requires OwnWrites(h, r, cluster, inst, st.log)
    ensures var t := TargetForNode(n.id, r.routing);
      OwnWrites(h, r, cluster, inst, ApplyObjects(h, t, WiringFor(r, cluster, inst).appliers[t], ds, st, seen).0.log)
    decreases ds
  {
    if ds != [] {
      var t := TargetForNode(n.id, r.routing);
      var a := WiringFor(r, cluster, inst).appliers[t];
      var e := Event(t, Final(h, a, ds[0]));
      FinalIsOwn(h, r, cluster, inst, n, ds[0]);
      var st' := AfterWrite(st, e);
      ObjectsAreOwn(h, r, cluster, inst, n, ds[1..], st', seen + [(e.desired.key, st'.stores[t][e.desired.key])]);
    }
  }

  lemma TurnWritesOwn(h: Digest, r: Config, cluster: string, inst: Instance, rt: Runtime, n: Node, st: State)
    requires HexDigest(h) && KindsFixed(rt) && FromGraph(rt, r) && n in rt.nodes && st.stores.Keys == ALL_TARGETS
    requires OwnWrites(h, r, cluster, inst, st.log)
    ensures var turn := TakeTurn(h, rt, WiringFor(r, cluster, inst), n, st);
      OwnWrites(h, r, cluster, inst, turn.state.log) && turn.state.stores.Keys == ALL_TARGETS
  {
    var t := TargetForNode(n.id, r.routing);
    if !IsExternal(n) && t in WiringFor(r, cluster, inst).appliers && rt.desired(n.id, st.obs).Objects? {
      ObjectsAreOwn(h, r, cluster, inst, n, rt.desired(n.id, st.obs).objects, st, []);
    }
  }

  /** Every write of a walk is the instance's own. */
  lemma {:induction false} WalkWritesOwn(h: Digest, r: Config, cluster: string, inst: Instance, rt: Runtime, i: nat,
                                         st: State)
    requires HexDigest(h) && KindsFixed(rt) && FromGraph(rt, r) && i <= |rt.nodes| && st.stores.Keys == ALL_TARGETS
    requires OwnWrites(h, r, cluster, inst, st.log)
    ensures OwnWrites(h, r, cluster, inst, Walk(h, rt, WiringFor(r, cluster, inst), i, st).0.log)
    decreases |rt.nodes| - i
  {
    if i < |rt.nodes| {
      TurnWritesOwn(h, r, cluster, inst, rt, rt.nodes[i], st);
      var turn := TakeTurn(h, rt, WiringFor(r, cluster, inst), rt.nodes[i], st);
      if turn.Next? { WalkWritesOwn(h, r, cluster, inst, rt, i + 1, turn.state); }
    }
  }

  /** The identities a log leaves in one target: the set pruning keeps. */
  function Written(log: seq<Event>, t: Target): set<Key> {
    set e | e in log && e.target == t :: e.desired.key
  }

  lemma {:induction false} SinksHoldWritten(log: seq<Event>, sinks: map<Target, seq<Key>>, t: Target)
    requires InStores(log, sinks.Keys) && t in sinks && sinks[t] == []
    ensures Elems(RecordAll(sinks, log)[t]) == Written(log, t)
  {
    if log != [] {
      var front, e := log[..|log| - 1], log[|log| - 1];
      assert log == front + [e];
      SinksHoldWritten(front, sinks, t);
      assert Written(log, t) == Written(front, t) + (if e.target == t then {e.desired.key} else {});
    }
  }
}
