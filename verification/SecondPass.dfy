/** A second pass over what a complete first one left: when it retraces the first. */
module SecondPass {
  import opened GvkCodec
  import opened Routing
  import opened Claims
  import opened Naming
  import opened Stores
  import opened Engine
  import opened EngineLaws
  import opened Reconciler
  import opened Pass

  /** No object is written twice. */
  predicate WrittenOnce(log: seq<Event>) {
    forall i, j :: 0 <= i < j < |log| ==> !(log[i].target == log[j].target && log[i].desired.key == log[j].desired.key)
  }

  /** The stores `once` have absorbed the `i`th write: it was the last word on its
      object, and repeating it changes nothing. */
  ghost predicate AbsorbedAt(before: Stores, once: Stores, log: seq<Event>, i: nat)
    requires i < |log| && InStores(log, before.Keys) && before.Keys == once.Keys
  {
    var e := log[i];
    assert InStores(log[..i + 1], before.Keys);
    var then' := Replay(before, log[..i + 1])[e.target];
    && e.desired.key in once[e.target] && WriteOne(once, e) == once
    && e.desired.key in then' && then'[e.desired.key] == once[e.target][e.desired.key]
  }

  ghost predicate Absorbed(before: Stores, once: Stores, log: seq<Event>) {
    && InStores(log, before.Keys) && before.Keys == once.Keys
    && forall i :: 0 <= i < |log| ==> AbsorbedAt(before, once, log, i)
  }

  lemma {:induction false} OnlySummary(log: seq<Event>, i: nat, j: nat)
    requires WrittenOnce(log) && i < j <= |log|
    ensures Summary(log[..j], log[i].target, log[i].desired.key) == Some(log[i].desired)
    decreases j
  {
    var t, k, part := log[i].target, log[i].desired.key, log[..j];
    assert part[..j - 1] == log[..j - 1];
    if j - 1 > i {
      OnlySummary(log, i, j - 1);
    } else {
      NotYet(log, i, i);
    }
  }

  lemma {:induction false} NotYet(log: seq<Event>, i: nat, j: nat)
    requires WrittenOnce(log) && j <= i < |log|
    ensures Summary(log[..j], log[i].target, log[i].desired.key) == None
    decreases j
  {
    if j > 0 {
      assert log[..j][..j - 1] == log[..j - 1];
      NotYet(log, i, j - 1);
    }
  }

  /** The stores a complete pass leaves have absorbed its writes. */
  lemma PassAbsorbs(h: Digest, r: Config, cluster: string, inst: Instance, before: Stores, log: seq<Event>, rec: Object)
    requires HexDigest(h) && before.Keys == ALL_TARGETS && InStores(log, before.Keys)
    requires OwnWrites(h, r, cluster, inst, log) && WrittenOnce(log)
    ensures Absorbed(before, CompletePass(r, before, log, inst.uid, RecordKey(h, r, cluster, inst.uid), rec), log)
  {
    var key := RecordKey(h, r, cluster, inst.uid);
    var once := CompletePass(r, before, log, inst.uid, key, rec);
    RecordIsNoChild(h, r, cluster, inst, log);
    forall i | 0 <= i < |log| ensures AbsorbedAt(before, once, log, i) {
      var e := log[i];
      var t, k := e.target, e.desired.key;
      assert k in Written(log, t);
      KeptByPass(r, before, log, inst.uid, key, rec, t, k);
      assert log[..|log|] == log;
      OnlySummary(log, i, |log|);
      ReplayKey(before, log, t, k);
      AbsorbedOne(before, once, log, i);
    }
  }

  lemma KeptByPass(r: Config, before: Stores, log: seq<Event>, uid: string, key: Key, rec: Object, t: Target, k: Key)
    requires before.Keys == ALL_TARGETS && InStores(log, before.Keys) && t in ALL_TARGETS
    requires k in Written(log, t) && !(t == Provider && k == key)
    ensures SameAt(CompletePass(r, before, log, uid, key, rec)[t], Replay(before, log)[t], k)
  {
  }

  lemma AbsorbedOne(before: Stores, once: Stores, log: seq<Event>, i: nat)
    requires before.Keys == once.Keys && InStores(log, before.Keys) && WrittenOnce(log) && i < |log|
    requires var e := log[i];
      var t, k := e.target, e.desired.key;
      k in once[t] && once[t][k] == Act(Base(before[t], k), e.desired)
    ensures AbsorbedAt(before, once, log, i)
  {
    var e := log[i];
    assert InStores(log[..i + 1], before.Keys);
    OnlySummary(log, i, i + 1);
    ReplayKey(before, log[..i + 1], e.target, e.desired.key);
    ActTwice(Base(before[e.target], e.desired.key), e.desired);
    ServerApplyKey(once[e.target], e.desired);
    assert ServerApply(once[e.target], e.desired) == once[e.target];
  }

  // ---- Templates ----

  /** A node's writes go through again and are read back as they were. */
  lemma {:induction false} ReapplyObjects(h: Digest, t: Target, a: Applier, ds: seq<Desired>, st: State,
                                          seen: seq<Seen>,
                                          before: Stores, once: Stores, log: seq<Event>)
    requires HexDigest(h) && Absorbed(before, once, log) && t in before
    requires st.log <= log && InStores(st.log, before.Keys) && st.stores == Replay(before, st.log)
    requires ApplyObjects(h, t, a, ds, st, seen).0.log <= log
    ensures var (st', seen') := ApplyObjects(h, t, a, ds, st, seen);
      && ApplyObjects(h, t, a, ds, st.(stores := once), seen) == (st'.(stores := once), seen')
      && InStores(st'.log, before.Keys) && st'.stores == Replay(before, st'.log)
    decreases ds
  {
    if ds != [] {
      var e := Event(t, Final(h, a, ds[0]));
      var next := AfterWrite(st, e);
      var seen' := seen + [(e.desired.key, next.stores[t][e.desired.key])];
      assert next.log <= ApplyObjects(h, t, a, ds[1..], next, seen').0.log;
      ReplayOneMore(before, st.log, e);
      WriteAbsorbed(before, once, log, st.log, e);
      ReapplyObjects(h, t, a, ds[1..], next, seen', before, once, log);
    }
  }

  lemma WriteAbsorbed(before: Stores, once: Stores, log: seq<Event>, part: seq<Event>, e: Event)
    requires Absorbed(before, once, log) && part + [e] <= log && InStores(part + [e], before.Keys)
    ensures WriteOne(once, e) == once
    ensures var s := Replay(before, part + [e])[e.target];
      e.desired.key in s && e.desired.key in once[e.target] && s[e.desired.key] == once[e.target][e.desired.key]
  {
    assert AbsorbedAt(before, once, log, |part|);
    assert log[|part|] == e && log[..|part| + 1] == part + [e];
  }

  // ---- External references ----

  /** The first pass does not touch this object: it writes none of that name, the name
      is not the record's, and no object of that name carried the instance's label. */
  predicate Undisturbed(before: Stores, log: seq<Event>, uid: string, key: Key, t: Target, k: Key)
    requires t in before
  {
    k !in Written(log, t) && !(t == Provider && k == key) && !(k in before[t] && Labelled(before[t][k], uid))
  }

  predicate Listed(s: Store, g: GVK, ns: string, sel: Selector, k: Key) {
    k in s && k.gvk == g && Picks(ns, sel, k, s[k])
  }

  function Namespace(n: Node, d: Desired): string { if n.namespaced then d.key.namespace else "" }

  /** What node `n` reads, or lists before or after the first pass, is undisturbed. */
  ghost predicate ReadsApart(rt: Runtime, n: Node, t: Target, d: Desired, before: Stores, once: Stores, log: seq<Event>,
                             uid: string, key: Key)
    requires t in before && t in once
  {
    if n.kind.External? then Undisturbed(before, log, uid, key, t, d.key)
    else rt.selector(d).Some? ==>
      var g, ns, sel := d.key.gvk, Namespace(n, d), rt.selector(d).value;
      forall k :: Listed(before[t], g, ns, sel, k) || Listed(once[t], g, ns, sel, k) ==>
        Undisturbed(before, log, uid, key, t, k)
  }

  /** The same of every external node, as it was resolved in the first pass. */
  ghost predicate ExternalsApart(rt: Runtime, w: Wiring, before: Stores, once: Stores, end: State, uid: string,
                                 key: Key)
    requires before.Keys == once.Keys
  {
    forall i :: 0 <= i < |rt.nodes| && IsExternal(rt.nodes[i]) ==>
      ApartGiven(rt, w, rt.nodes[i], Upto(end.obs, rt.nodes, i), before, once, end.log, uid, key)
  }

  ghost predicate ApartGiven(rt: Runtime, w: Wiring, n: Node, known: Obs, before: Stores, once: Stores, log: seq<Event>,
                             uid: string, key: Key)
    requires before.Keys == once.Keys
  {
    var t := TargetForNode(n.id, w.routing);
    t in before && rt.ignored(n.id, known) == Some(false) && rt.desired(n.id, known).Objects?
      && rt.desired(n.id, known).objects != [] ==>
      ReadsApart(rt, n, t, rt.desired(n.id, known).objects[0], before, once, log, uid, key)
  }

  /** All that the second walk needs to know of `once`. */
  ghost predicate Settles(before: Stores, once: Stores, log: seq<Event>, uid: string, key: Key) {
    && WrittenOnce(log) && Absorbed(before, once, log)
    && forall t, k :: t in before && Undisturbed(before, log, uid, key, t, k) ==> SameAt(once[t], before[t], k)
  }

  /** Untouched objects are the same after the pass as before. */
  lemma UndisturbedStays(r: Config, before: Stores, log: seq<Event>, uid: string, key: Key, rec: Object, t: Target,
                         k: Key)
    requires before.Keys == ALL_TARGETS && InStores(log, before.Keys) && t in ALL_TARGETS
    requires Undisturbed(before, log, uid, key, t, k)
    ensures SameAt(CompletePass(r, before, log, uid, key, rec)[t], before[t], k)
  {
    SummaryWritten(log, t, k);
    ReplayKey(before, log, t, k);
  }

  /** And so they are during it. */
  lemma UndisturbedMeanwhile(before: Stores, log: seq<Event>, part: seq<Event>, uid: string, key: Key, t: Target,
                             k: Key)
    requires part <= log && InStores(part, before.Keys) && t in before && Undisturbed(before, log, uid, key, t, k)
    ensures SameAt(Replay(before, part)[t], before[t], k)
  {
    PrefixWritten(part, log, t);
    SummaryWritten(part, t, k);
    ReplayKey(before, part, t, k);
  }

  /** Once written, an object is as it will be after. */
  lemma AlreadyAsAfter(before: Stores, once: Stores, log: seq<Event>, i: nat, j: nat)
    requires Absorbed(before, once, log) && WrittenOnce(log) && i < j <= |log| && InStores(log[..j], before.Keys)
    ensures SameAt(Replay(before, log[..j])[log[i].target], once[log[i].target], log[i].desired.key)
  {
    var t, k := log[i].target, log[i].desired.key;
    assert AbsorbedAt(before, once, log, i) && InStores(log[..i + 1], before.Keys);
    OnlySummary(log, i, j);
    OnlySummary(log, i, i + 1);
    ReplayKey(before, log[..j], t, k);
    ReplayKey(before, log[..i + 1], t, k);
  }

  /** During the pass an object is as it was before, or as it will be after. */
  lemma BeforeOrAfter(before: Stores, once: Stores, log: seq<Event>, part: seq<Event>, t: Target, k: Key)
    requires Absorbed(before, once, log) && WrittenOnce(log) && part <= log && InStores(part, before.Keys)
    requires t in before
    ensures SameAt(Replay(before, part)[t], before[t], k) || SameAt(Replay(before, part)[t], once[t], k)
  {
    if i :| 0 <= i < |part| && part[i].target == t && part[i].desired.key == k {
      assert log[..|part|] == part && log[i] == part[i];
      AlreadyAsAfter(before, once, log, i, |part|);
    } else {
      SummaryWritten(part, t, k);
      ReplayKey(before, part, t, k);
    }
  }

  lemma SameListing(rt: Runtime, n: Node, t: Target, d: Desired, before: Stores, once: Stores, log: seq<Event>,
                    part: seq<Event>,
                    uid: string, key: Key)
    requires Settles(before, once, log, uid, key) && part <= log && InStores(part, before.Keys) && t in before
    requires !n.kind.External? && rt.selector(d).Some? && ReadsApart(rt, n, t, d, before, once, log, uid, key)
    ensures Matching(Replay(before, part)[t], d.key.gvk, Namespace(n, d), rt.selector(d).value)
         == Matching(once[t], d.key.gvk, Namespace(n, d), rt.selector(d).value)
  {
    var g, ns, sel := d.key.gvk, Namespace(n, d), rt.selector(d).value;
    var now := Replay(before, part)[t];
    forall k
      ensures Listed(now, g, ns, sel, k) <==> Listed(once[t], g, ns, sel, k)
      ensures Listed(now, g, ns, sel, k) ==> now[k] == once[t][k]
    {
      if Listed(before[t], g, ns, sel, k) || Listed(once[t], g, ns, sel, k) {
        UndisturbedMeanwhile(before, log, part, uid, key, t, k);
      } else {
        BeforeOrAfter(before, once, log, part, t, k);
      }
    }
    SameMatching(now, once[t], g, ns, sel);
  }

  lemma SameMatching(a: Store, b: Store, g: GVK, ns: string, sel: Selector)
    requires forall k :: Listed(a, g, ns, sel, k) <==> Listed(b, g, ns, sel, k)
    requires forall k :: Listed(a, g, ns, sel, k) && Listed(b, g, ns, sel, k) ==> a[k] == b[k]
    ensures Matching(a, g, ns, sel) == Matching(b, g, ns, sel)
  {
    var ma, mb := Matching(a, g, ns, sel), Matching(b, g, ns, sel);
    assert forall k :: k in ma <==> Listed(a, g, ns, sel, k);
    assert forall k :: k in mb <==> Listed(b, g, ns, sel, k);
  }

  // ---- The second walk ----

  /** A state of the first walk, on the way to writing `log`. */
  ghost predicate OnTheWay(st: State, before: Stores, log: seq<Event>) {
    st.log <= log && InStores(st.log, before.Keys) && st.stores == Replay(before, st.log)
  }

  lemma ReadAgain(rt: Runtime, w: Wiring, n: Node, t: Target, ds: seq<Desired>, st: State,
                  before: Stores, log: seq<Event>, once: Stores, uid: string, key: Key)
    requires Settles(before, once, log, uid, key) && Wired(w, before.Keys) && IsExternal(n) && OnTheWay(st, before, log)
    requires ReadTurn(rt, w, n, t, ds, st).Next?
    requires t in before && ds != [] ==> ReadsApart(rt, n, t, ds[0], before, once, log, uid, key)
    ensures ReadTurn(rt, w, n, t, ds, st.(stores := once)) == Next(ReadTurn(rt, w, n, t, ds, st).state.(stores := once))
  {
    if ds != [] {
      if n.kind.External? {
        UndisturbedMeanwhile(before, log, st.log, uid, key, t, ds[0].key);
      } else {
        SameListing(rt, n, t, ds[0], before, once, log, st.log, uid, key);
      }
    }
  }

  lemma WriteAgain(h: Digest, rt: Runtime, w: Wiring, n: Node, t: Target, ds: seq<Desired>, st: State,
                   before: Stores, log: seq<Event>, once: Stores)
    requires HexDigest(h) && Absorbed(before, once, log) && Wired(w, before.Keys) && OnTheWay(st, before, log)
    requires WriteTurn(h, rt, w, n, t, ds, st).Next? && WriteTurn(h, rt, w, n, t, ds, st).state.log <= log
    ensures var st' := WriteTurn(h, rt, w, n, t, ds, st).state;
      WriteTurn(h, rt, w, n, t, ds, st.(stores := once)) == Next(st'.(stores := once)) && OnTheWay(st', before, log)
  {
    ReapplyObjects(h, t, w.appliers[t], ds, st, [], before, once, log);
  }

  /** One node of the second walk, on the stores the first pass left. */
  lemma TurnAgain(h: Digest, rt: Runtime, w: Wiring, n: Node, st: State,
                  before: Stores, log: seq<Event>, once: Stores, uid: string, key: Key)
    requires HexDigest(h) && Settles(before, once, log, uid, key) && Wired(w, before.Keys) && OnTheWay(st, before, log)
    requires TakeTurn(h, rt, w, n, st).Next? && TakeTurn(h, rt, w, n, st).state.log <= log
    requires IsExternal(n) ==> ApartGiven(rt, w, n, st.obs, before, once, log, uid, key)
    ensures var st' := TakeTurn(h, rt, w, n, st).state;
      TakeTurn(h, rt, w, n, st.(stores := once)) == Next(st'.(stores := once)) && OnTheWay(st', before, log)
  {
    if rt.ignored(n.id, st.obs) == Some(false) {
      var ds, t := rt.desired(n.id, st.obs).objects, TargetForNode(n.id, w.routing);
      if IsExternal(n) {
        ReadAgain(rt, w, n, t, ds, st, before, log, once, uid, key);
      } else {
        WriteAgain(h, rt, w, n, t, ds, st, before, log, once);
      }
    }
  }

  lemma {:induction false} WalkAgain(h: Digest, rt: Runtime, w: Wiring, i: nat, st: State,
                                     before: Stores, end: State, once: Stores, uid: string, key: Key)
    requires HexDigest(h) && Settles(before, once, end.log, uid, key) && Wired(w, before.Keys) && UniqueNodes(rt)
    requires ExternalsApart(rt, w, before, once, end, uid, key)
    requires i <= |rt.nodes| && st.obs.Keys <= Ids(rt.nodes[..i]) && OnTheWay(st, before, end.log)
    requires Walk(h, rt, w, i, st) == (end, Completed)
    ensures Walk(h, rt, w, i, st.(stores := once)) == (end.(stores := once), Completed)
    decreases |rt.nodes| - i
  {
    if i < |rt.nodes| {
      ObservationsPersist(h, rt, w, i, st);
      NextIsFresh(rt, i);
      TurnObserves(h, rt, w, rt.nodes[i], st);
      TurnAgain(h, rt, w, rt.nodes[i], st, before, end.log, once, uid, key);
      WalkAgain(h, rt, w, i + 1, TakeTurn(h, rt, w, rt.nodes[i], st).state, before, end, once, uid, key);
    }
  }

  lemma WholeWalkAgain(h: Digest, rt: Runtime, w: Wiring, before: Stores, end: State, once: Stores, uid: string,
                       key: Key)
    requires HexDigest(h) && Settles(before, once, end.log, uid, key) && Wired(w, before.Keys) && UniqueNodes(rt)
    requires ExternalsApart(rt, w, before, once, end, uid, key) && Walk(h, rt, w, 0, Begin(before)) == (end, Completed)
    ensures Walk(h, rt, w, 0, Begin(once)) == (end.(stores := once), Completed)
  {
    assert OnTheWay(Begin(before), before, end.log);
    assert Begin(before).(stores := once) == Begin(once);
    WalkAgain(h, rt, w, 0, Begin(before), before, end, once, uid, key);
  }

  /** A failure-free walk over `stores` reaches the last node and ends in `end`. */
  ghost predicate Completes(h: Digest, rt: Runtime, w: Wiring, stores: Stores, end: State)
    requires HexDigest(h)
  {
    Wired(w, stores.Keys) && Walk(h, rt, w, 0, Begin(stores)) == (end, Completed)
  }

  /** A complete first pass and the stores it left. */
  ghost predicate FirstPass(h: Digest, r: Config, cluster: string, inst: Instance, rt: Runtime,
                            before: Stores, rec: Object, end: State, once: Stores)
    requires HexDigest(h)
  {
    && before.Keys == ALL_TARGETS && UniqueNodes(rt) && KindsFixed(rt) && FromGraph(rt, r) && Labelled(rec, inst.uid)
    && Completes(h, rt, WiringFor(r, cluster, inst), before, end) && InStores(end.log, before.Keys)
    && once == CompletePass(r, before, end.log, inst.uid, RecordKey(h, r, cluster, inst.uid), rec)
  }

  lemma PassSettles(h: Digest, r: Config, cluster: string, inst: Instance, before: Stores, log: seq<Event>, rec: Object)
    requires HexDigest(h) && before.Keys == ALL_TARGETS && InStores(log, before.Keys)
    requires OwnWrites(h, r, cluster, inst, log) && WrittenOnce(log)
    ensures var key := RecordKey(h, r, cluster, inst.uid);
      Settles(before, CompletePass(r, before, log, inst.uid, key, rec), log, inst.uid, key)
  {
    var key := RecordKey(h, r, cluster, inst.uid);
    PassAbsorbs(h, r, cluster, inst, before, log, rec);
    forall t, k | t in before && Undisturbed(before, log, inst.uid, key, t, k)
      ensures SameAt(CompletePass(r, before, log, inst.uid, key, rec)[t], before[t], k)
    {
      UndisturbedStays(r, before, log, inst.uid, key, rec, t, k);
    }
  }

  /** Let a complete pass write no object twice, and what its external nodes read or
      list be neither written by it, nor labelled with the uid, nor the record. Then a
      second pass over what it left completes, observes and writes the same ... */
  lemma SecondPassRetraces(h: Digest, r: Config, cluster: string, inst: Instance, rt: Runtime,
                           before: Stores, rec: Object, end: State, once: Stores)
    requires HexDigest(h) && FirstPass(h, r, cluster, inst, rt, before, rec, end, once) && WrittenOnce(end.log)
    requires ExternalsApart(rt, WiringFor(r, cluster, inst), before, once, end, inst.uid,
                            RecordKey(h, r, cluster, inst.uid))
    ensures Completes(h, rt, WiringFor(r, cluster, inst), once, end.(stores := once))
    ensures OwnWrites(h, r, cluster, inst, end.log)
  {
    WalkWritesOwn(h, r, cluster, inst, rt, 0, Begin(before));
    PassSettles(h, r, cluster, inst, before, end.log, rec);
    WholeWalkAgain(h, rt, WiringFor(r, cluster, inst), before, end, once, inst.uid, RecordKey(h, r, cluster, inst.uid));
  }

  /** ... and changes no object of any store but the record. */
  lemma SameInputsSecondPassIsIdle(h: Digest, r: Config, cluster: string, inst: Instance, rt: Runtime,
                                   before: Stores, rec: Object, rec': Object, end: State, once: Stores)
    requires HexDigest(h) && FirstPass(h, r, cluster, inst, rt, before, rec, end, once) && WrittenOnce(end.log)
    requires ExternalsApart(rt, WiringFor(r, cluster, inst), before, once, end, inst.uid,
                            RecordKey(h, r, cluster, inst.uid))
    requires Labelled(rec', inst.uid)
    ensures Completes(h, rt, WiringFor(r, cluster, inst), once, end.(stores := once))
    ensures var key := RecordKey(h, r, cluster, inst.uid);
      var twice := CompletePass(r, once, end.log, inst.uid, key, rec');
      forall t, k :: t in ALL_TARGETS && !(t == Provider && k == key) ==> SameAt(once[t], twice[t], k)
  {
    SecondPassRetraces(h, r, cluster, inst, rt, before, rec, end, once);
    SecondPassChangesNothing(h, r, cluster, inst, before, end.log, rec, rec');
  }
}
