/** What a complete, error-free pass leaves of an instance, in terms of what its
    blueprint renders. */
module PassOutcome {
  import opened Routing
  import opened Claims
  import opened Naming
  import opened Stores
  import opened Engine
  import opened EngineLaws
  import opened EngineWrites
  import opened Reconciler
  import opened Pass

  /** Under which identity `d` ends up in target `t`. */
  function PlacedAs(h: Digest, cluster: string, inst: Instance, t: Target, d: Desired): Key
    requires HexDigest(h)
  {
    if t == Consumer then d.key else d.key.(name := ProviderChildName(h, Tuple(cluster, inst.name, d.key.name)))
  }

  ghost predicate Completes(h: Digest, r: Config, cluster: string, inst: Instance, rt: Runtime, before: Stores) {
    && HexDigest(h) && KindsFixed(rt) && FromGraph(rt, r) && UniqueNodes(rt) && before.Keys == ALL_TARGETS
    && Walk(h, rt, WiringFor(r, cluster, inst), 0, Begin(before)).1 == Completed
  }

  lemma WalkIsOwn(h: Digest, r: Config, cluster: string, inst: Instance, rt: Runtime, before: Stores)
    requires Completes(h, r, cluster, inst, rt, before)
    ensures var log := Walk(h, rt, WiringFor(r, cluster, inst), 0, Begin(before)).0.log;
      OwnWrites(h, r, cluster, inst, log) && InStores(log, ALL_TARGETS)
  {
    WalkWritesOwn(h, r, cluster, inst, rt, 0, Begin(before));
    WalkStaysInStores(h, rt, WiringFor(r, cluster, inst), 0, Begin(before), ALL_TARGETS);
  }

  /** The stores after such a pass, `rec` being the record it writes. */
  ghost function After(h: Digest, r: Config, cluster: string, inst: Instance, rt: Runtime, before: Stores,
                       rec: Object): (after: Stores)
    requires Completes(h, r, cluster, inst, rt, before)
    ensures after.Keys == ALL_TARGETS
  {
    WalkIsOwn(h, r, cluster, inst, rt, before);
    var log := Walk(h, rt, WiringFor(r, cluster, inst), 0, Begin(before)).0.log;
    CompletePass(r, before, log, inst.uid, RecordKey(h, r, cluster, inst.uid), rec)
  }

  /** Every object that some node renders is there afterwards, in its node's target ... */
  lemma RenderedIsThere(h: Digest, r: Config, cluster: string, inst: Instance, rt: Runtime, before: Stores, rec: Object,
                        j: nat, ds: seq<Desired>, d: Desired)
    requires Completes(h, r, cluster, inst, rt, before)
    requires Renders(rt, Walk(h, rt, WiringFor(r, cluster, inst), 0, Begin(before)).0.obs, j, ds) && d in ds
    ensures var t := TargetForNode(rt.nodes[j].id, r.routing);
      t in WiredTargets(r)
        && PlacedAs(h, cluster, inst, t, d) in Owned(r, After(h, r, cluster, inst, rt, before, rec)[t], t, inst.uid)
  {
    var w := WiringFor(r, cluster, inst);
    var log, t := Walk(h, rt, w, 0, Begin(before)).0.log, TargetForNode(rt.nodes[j].id, r.routing);
    WalkIsOwn(h, r, cluster, inst, rt, before);
    RenderedIsWritten(h, rt, w, before, j, ds, d);
    WiringFinal(h, r, cluster, inst, t, d);
    CompletePassIsExact(h, r, cluster, inst, before, log, rec);
    var e := Event(t, Final(h, w.appliers[t], d));
    assert e in log && e.target == t && e.desired.key == PlacedAs(h, cluster, inst, t, d);
  }

  /** The last write to a key decides its spec. */
  lemma {:induction false} LastWrite(log: seq<Event>, t: Target, k: Key) returns (e: Event)
    requires Summary(log, t, k).Some?
    ensures e in log && e.target == t && e.desired.key == k && Summary(log, t, k).value.spec == e.desired.spec
    ensures e.desired.owner.Some? ==> Summary(log, t, k).value.owner == e.desired.owner
  {
    e := log[|log| - 1];
    if e.target != t || e.desired.key != k { e := LastWrite(log[..|log| - 1], t, k); }
  }

  /** ... and whatever is the instance's afterwards some node renders, with that spec;
      in the consumer workspace the instance owns it. */
  lemma OnlyRenderedIsThere(h: Digest, r: Config, cluster: string, inst: Instance, rt: Runtime, before: Stores,
                            rec: Object, t: Target, k: Key)
    returns (j: nat, ds: seq<Desired>, d: Desired)
    requires Completes(h, r, cluster, inst, rt, before) && t in WiredTargets(r)
    requires k in Owned(r, After(h, r, cluster, inst, rt, before, rec)[t], t, inst.uid)
    ensures Renders(rt, Walk(h, rt, WiringFor(r, cluster, inst), 0, Begin(before)).0.obs, j, ds) && d in ds
    ensures TargetForNode(rt.nodes[j].id, r.routing) == t && k == PlacedAs(h, cluster, inst, t, d)
    ensures var o := After(h, r, cluster, inst, rt, before, rec)[t][k];
      o.spec == d.spec && (t == Consumer ==> o.owner == Some(inst.uid))
  {
    var w := WiringFor(r, cluster, inst);
    var log := Walk(h, rt, w, 0, Begin(before)).0.log;
    WalkIsOwn(h, r, cluster, inst, rt, before);
    CompletePassIsExact(h, r, cluster, inst, before, log, rec);
    SummaryWritten(log, t, k);
    var e := LastWrite(log, t, k);
    j, ds, d := WrittenIsRendered(h, rt, w, before, e);
    WiringFinal(h, r, cluster, inst, t, d);
    RecordIsNoChild(h, r, cluster, inst, log);
    ReplayKey(before, log, t, k);
  }
}
