/** What happens when ConfigMap is a provider child kind: the sweeper can lose track of
    an orphan's children, and then nothing ever reclaims them. */
module LifecycleLoss {
  import opened GvkCodec
  import opened Routing
  import opened Naming
  import opened Stores
  import opened Lifecycle
  import opened LifecycleSafety
  import opened LifecycleTheorems
  import opened LifecycleRace

  /** The object at `a` is a child of an instance of which no record is left; its worker
      is idle and the sweeper is not on it. */
  ghost predicate Abandoned(w: World, s: State, k: InstKey, u: string, a: Addr)
    requires HexDigest(w.digest)
  {
    && a in s.objs && s.objs[a].uid == Some(u) && PcOf(s, k).Idle?
    && u in s.homes && s.homes[u] == k && OwnRecord(w, s, u) !in s.objs
    && (!s.sweep.Off? ==> OwnRecord(w, s, u) !in s.sweep.records)
    && (s.sweep.On? ==> s.sweep.uid != u && a !in s.sweep.listed)
  }

  /** The record has just gone while the sweep of it is under way. */
  ghost predicate RecordLost(w: World, s: State, k: InstKey, u: string, a: Addr)
    requires HexDigest(w.digest)
  {
    && u in s.homes && s.homes[u] == k && s.sweep.On? && s.sweep.quiet && PcOf(s, k).Idle?
    && a in s.objs && s.objs[a].uid == Some(u)
    && OwnRecord(w, s, u) !in s.objs && OwnRecord(w, s, u) !in s.sweep.records
  }

  /** If ConfigMap is a provider child kind, the sweeper can remove the record first and
      leave the other children, although no pass runs meanwhile. */
  lemma SweepCanRemoveTheRecordFirst(w: World, k: InstKey, a: Addr, u: string) returns (steps: seq<Step>, s: State)
    requires WorldOk(w) && w.renders(k, a) && !a.place.Workspace? && (k.cluster, u) in w.ids
    requires CONFIG_MAP in w.kinds(k.blueprint, Provider)
    ensures s == Exec(w, map[], steps) && RecordLost(w, s, k, u, a)
  {
    var f := Stepper(w);
    steps, s := LoseTheRecord(w, f, k, a, u);
    RunIsExec(w, f, steps);
  }

  /** If the next call then fails, the child is abandoned. */
  lemma FailingSweepAbandons(w: World, k: InstKey, a: Addr, u: string) returns (steps: seq<Step>, s: State)
    requires WorldOk(w) && w.renders(k, a) && !a.place.Workspace? && (k.cluster, u) in w.ids
    requires CONFIG_MAP in w.kinds(k.blueprint, Provider)
    ensures s == Exec(w, map[], steps) && Abandoned(w, s, k, u, a)
  {
    var f := Stepper(w);
    steps, s := LoseTheRecord(w, f, k, a, u);
    steps, s := Advance(w, f, steps, s, Sweeper(GiveUp));
    RunIsExec(w, f, steps);
  }

  lemma LoseTheRecord(w: World, f: Machine, k: InstKey, a: Addr, u: string) returns (steps: seq<Step>, s: State)
    requires WorldOk(w) && IsStep(w, f) && w.renders(k, a) && (k.cluster, u) in w.ids
    requires CONFIG_MAP in w.kinds(k.blueprint, Provider)
    ensures Run(f, steps) == s && RecordLost(w, s, k, u, a)
  {
    steps, s := OwnsAndRecords(w, f, k, a, u);
    RecordIsRead(w, f, steps, s, k, u);
    steps, s := ListTheRecord(w, f, steps, s, k, u);
    steps, s := DeleteTheListed(w, f, steps, s, RecordAddr(w, k.cluster, u));
  }

  lemma DeleteTheListed(w: World, f: Machine, steps: seq<Step>, s: State, r: Addr)
    returns (steps': seq<Step>, s': State)
    requires HexDigest(w.digest) && IsStep(w, f) && Run(f, steps) == s && s.sweep.On? && r in s.sweep.listed
    ensures Run(f, steps') == s' && s'.objs == s.objs - {r} && s'.homes == s.homes && s'.pcs == s.pcs
    ensures s'.sweep.On? && s'.sweep.quiet == s.sweep.quiet && s'.sweep.records == s.sweep.records
  {
    steps', s' := Advance(w, f, steps, s, Sweeper(SweepDelete(r)));
  }

  lemma OwnsAndRecords(w: World, f: Machine, k: InstKey, a: Addr, u: string) returns (steps: seq<Step>, s: State)
    requires WorldOk(w) && IsStep(w, f) && w.renders(k, a) && (k.cluster, u) in w.ids
    ensures Run(f, steps) == s && At(s, k, u, Idle) && s.homes == map[u := k]
    ensures a in s.objs && s.objs[a].uid == Some(u) && RecordAddr(w, k.cluster, u) != a
    ensures var r := RecordAddr(w, k.cluster, u); r in s.objs && s.objs[r].live && s.objs[r].uid == Some(u)
    ensures Besides(START, s, k) && About([], steps, k)
  {
    assert RecordAddr(w, k.cluster, u) != a by {
      RenderedIsNoRecord(w, k, a);
      assert (k.cluster, u) in w.ids;
    }
    var s1;
    steps, s1 := Owns(w, f, [], START, k, u, a);
    ghost var owned := steps;
    steps, s := WriteRecord(w, f, steps, s1, k, u, {a}, false);
    BesidesTwice(START, s1, s, k);
    AboutTwice([], owned, steps, k);
  }

  lemma RecordIsRead(w: World, f: Machine, steps: seq<Step>, s: State, k: InstKey, u: string)
    requires WorldOk(w) && IsStep(w, f) && Run(f, steps) == s && u in s.homes && s.homes[u] == k
    requires CONFIG_MAP in w.kinds(k.blueprint, Provider)
    requires var r := RecordAddr(w, k.cluster, u); r in s.objs && s.objs[r].live && s.objs[r].uid == Some(u)
    ensures CONFIG_MAP in Visited(s.objs[RecordAddr(w, k.cluster, u)].providerKinds)
  {
    var r := RecordAddr(w, k.cluster, u);
    RunIsExec(w, f, steps);
    Reachable(w, map[], steps);
    assert ObjOk(w, s, r, s.objs[r]);
    assert CONFIG_MAP in Elems(Visited(s.objs[r].providerKinds));
  }

  /** The sweeper takes the record up and lists ConfigMaps, the record among them. */
  lemma ListTheRecord(w: World, f: Machine, steps: seq<Step>, s: State, k: InstKey, u: string)
    returns (steps': seq<Step>, s': State)
    requires HexDigest(w.digest) && IsStep(w, f) && Run(f, steps) == s && At(s, k, u, Idle) && u in s.homes
    requires s.homes[u] == k
    requires var r := RecordAddr(w, k.cluster, u);
      r in s.objs && s.objs[r].live && s.objs[r].uid == Some(u) && CONFIG_MAP in Visited(s.objs[r].providerKinds)
    ensures Run(f, steps') == s' && s'.objs == s.objs && s'.homes == s.homes && s'.sweep.On? && s'.sweep.quiet
    ensures RecordAddr(w, k.cluster, u) in s'.sweep.listed && RecordAddr(w, k.cluster, u) !in s'.sweep.records
    ensures PcOf(s', k).Idle?
  {
    var s1;
    steps', s1 := TakeTheRecordUp(w, f, steps, s, k, u);
    steps', s' := ListConfigMaps(w, f, steps', s1, u, RecordAddr(w, k.cluster, u));
  }

  lemma ListConfigMaps(w: World, f: Machine, steps: seq<Step>, s: State, u: string, r: Addr)
    returns (steps': seq<Step>, s': State)
    requires HexDigest(w.digest) && IsStep(w, f) && Run(f, steps) == s && s.sweep.On? && s.sweep.uid == u
    requires (Provider, CONFIG_MAP) in s.sweep.todo && s.sweep.listed == {}
    requires r in s.objs && r.place == ProviderWs && r.gvk == CONFIG_MAP && s.objs[r].uid == Some(u)
    ensures Run(f, steps') == s' && s'.objs == s.objs && s'.homes == s.homes
    ensures s'.sweep.On? && s'.sweep.quiet == s.sweep.quiet && r in s'.sweep.listed
    ensures s'.sweep.records == s.sweep.records && s'.pcs == s.pcs
  {
    steps', s' := Advance(w, f, steps, s, Sweeper(SweepKind(Provider, CONFIG_MAP)));
  }

  lemma TakeTheRecordUp(w: World, f: Machine, steps: seq<Step>, s: State, k: InstKey, u: string)
    returns (steps': seq<Step>, s': State)
    requires HexDigest(w.digest) && IsStep(w, f) && Run(f, steps) == s && At(s, k, u, Idle) && u in s.homes
    requires s.homes[u] == k
    requires var r := RecordAddr(w, k.cluster, u);
      r in s.objs && s.objs[r].live && s.objs[r].uid == Some(u) && CONFIG_MAP in Visited(s.objs[r].providerKinds)
    ensures Run(f, steps') == s' && s'.objs == s.objs && s'.homes == s.homes && s'.pcs == s.pcs
    ensures s'.sweep.On? && RecordAddr(w, k.cluster, u) !in s'.sweep.records
    ensures s'.sweep.On? && s'.sweep.uid == u && s'.sweep.quiet && (Provider, CONFIG_MAP) in s'.sweep.todo
    ensures s'.sweep.listed == {}
  {
    var r := RecordAddr(w, k.cluster, u);
    steps', s' := Advance(w, f, steps, s, Sweeper(ListRecords));
    assert s'.sweep.Between? && r in s'.sweep.records && s'.sweep.records[r] == s.objs[r];
    steps', s' := Advance(w, f, steps', s', Sweeper(TakeUp(r)));
  }

  // ---- Nothing reclaims an abandoned child ----

  /** Neither the instance's worker moves nor does anybody else touch `a`. */
  predicate Ignores(step: Step, k: InstKey, a: Addr) {
    Spares(step, a) && !(step.Work? && step.k == k)
  }

  lemma NotItsOwn(w: World, s: State, j: InstKey, a: Addr)
    requires WorldOk(w) && Inv(w, s) && !w.renders(j, a) && !InRecordSpace(w, a)
    ensures var pc := PcOf(s, j);
      a !in ListedAt(pc) && (pc.DroppingRecord? || pc.PuttingRecord? ==> a != RecordAddr(w, j.cluster, pc.uid))
  {
    var pc := PcOf(s, j);
    assert PcOk(w, s, j, pc);
    if !pc.Idle? && !pc.AddingFinalizer? { OwnRecordInSpace(w, s, pc.uid); }
  }

  lemma OthersSpareTheChild(w: World, s: State, j: InstKey, op: WorkOp, k: InstKey, a: Addr)
    requires WorldOk(w) && Inv(w, s) && a in s.objs && w.renders(k, a) && !w.renders(j, a)
    ensures var s' := DoWork(w, s, j, op); a in s'.objs && s'.objs[a] == s.objs[a]
  {
    RenderedIsNoRecord(w, k, a);
    NotItsOwn(w, s, j, a);
    WorkTouches(w, s, j, op, a);
  }

  lemma OthersWriteNoRecord(w: World, s: State, j: InstKey, op: WorkOp, k: InstKey, u: string)
    requires WorldOk(w) && Inv(w, s) && u in s.homes && s.homes[u] == k && j != k && OwnRecord(w, s, u) !in s.objs
    ensures OwnRecord(w, s, u) !in DoWork(w, Busy(s, j), j, op).objs
  {
    var pc, r := PcOf(s, j), OwnRecord(w, s, u);
    assert PcOk(w, s, j, pc);
    OwnRecordInSpace(w, s, u);
    if w.renders(j, r) { RenderedIsNoRecord(w, j, r); }
    if pc.PuttingRecord? {
      OwnRecordInSpace(w, s, pc.uid);
      if r == RecordAddr(w, j.cluster, pc.uid) { RecordAddrUnique(w, j.cluster, pc.uid, k.cluster, u); }
    }
    WorkTouches(w, Busy(s, j), j, op, r);
  }

  lemma WorkLeavesSweepAlone(w: World, s: State, j: InstKey, op: WorkOp)
    requires HexDigest(w.digest)
    ensures var s' := DoWork(w, s, j, op); s'.homes == s.homes && s'.sweep == s.sweep
  {
  }

  /** The worker of another instance does not touch the child nor bring the record back. */
  lemma OthersLeaveAbandoned(w: World, s: State, j: InstKey, op: WorkOp, k: InstKey, u: string, a: Addr)
    requires WorldOk(w) && Inv(w, s) && Abandoned(w, s, k, u, a) && j != k && w.renders(k, a) && !w.renders(j, a)
    ensures Abandoned(w, DoWork(w, Busy(s, j), j, op), k, u, a)
  {
    BusyKeeps(w, s, j);
    OthersSpareTheChild(w, Busy(s, j), j, op, k, a);
    OthersWriteNoRecord(w, s, j, op, k, u);
    WorkLeavesSweepAlone(w, Busy(s, j), j, op);
    WorkMovesOnlyItself(w, Busy(s, j), j, op, k);
  }

  lemma SweepLeavesAbandoned(w: World, s: State, op: SweepOp, k: InstKey, u: string, a: Addr)
    requires WorldOk(w) && Inv(w, s) && Abandoned(w, s, k, u, a) && w.renders(k, a)
    ensures Abandoned(w, DoSweep(w, s, op), k, u, a)
  {
    RenderedIsNoRecord(w, k, a);
    if s.sweep.On? { OwnRecordInSpace(w, s, s.sweep.uid); }
    if op.TakeUp? && s.sweep.Between? && op.record in s.sweep.records {
      assert SnapshotOk(w, s, op.record, s.sweep.records[op.record]);
    }
    SweepTouches(w, s, op, a);
    SweepTouches(w, s, op, OwnRecord(w, s, u));
  }

  lemma EnvLeavesAbandoned(w: World, s: State, e: EnvOp, k: InstKey, u: string, a: Addr)
    requires WorldOk(w) && Inv(w, s) && Abandoned(w, s, k, u, a) && Spares(Env(e), a)
    ensures Abandoned(w, DoEnv(w, s, e), k, u, a)
  {
    OwnRecordInSpace(w, s, u);
  }

  lemma StepLeavesAbandoned(w: World, s: State, step: Step, k: InstKey, u: string, a: Addr)
    requires WorldOk(w) && Inv(w, s) && Abandoned(w, s, k, u, a) && w.renders(k, a) && Ignores(step, k, a)
    requires forall j :: j != k ==> !w.renders(j, a)
    ensures Abandoned(w, Do(w, s, step), k, u, a)
  {
    match step
    case Env(e) => EnvLeavesAbandoned(w, s, e, k, u, a);
    case Work(j, op) => OthersLeaveAbandoned(w, s, j, op, k, u, a);
    case Sweeper(op) => SweepLeavesAbandoned(w, s, op, k, u, a);
  }

  /** An abandoned child stays for good: as long as its own instance's worker stays idle
      and nobody outside krop removes it, no sweep and no other worker ever does. */
  lemma {:induction false} AbandonedForGood(w: World, objs: map<Addr, Obj>, steps: seq<Step>, more: seq<Step>,
                                            k: InstKey, u: string, a: Addr)
    requires WorldOk(w) && Pristine(w, objs) && Abandoned(w, Exec(w, objs, steps), k, u, a) && w.renders(k, a)
    requires forall j :: j != k ==> !w.renders(j, a)
    requires forall i :: 0 <= i < |more| ==> Ignores(more[i], k, a)
    ensures Abandoned(w, Exec(w, objs, steps + more), k, u, a)
    decreases |more|
  {
    if more == [] {
      assert steps + more == steps;
    } else {
      var front, last := more[..|more| - 1], more[|more| - 1];
      AbandonedForGood(w, objs, steps, front, k, u, a);
      assert steps + more == (steps + front) + [last];
      AbandonedOnce(w, objs, steps + front, last, k, u, a);
    }
  }

  lemma AbandonedOnce(w: World, objs: map<Addr, Obj>, steps: seq<Step>, step: Step, k: InstKey, u: string, a: Addr)
    requires WorldOk(w) && Pristine(w, objs) && Abandoned(w, Exec(w, objs, steps), k, u, a) && w.renders(k, a)
    requires Ignores(step, k, a) && forall j :: j != k ==> !w.renders(j, a)
    ensures Abandoned(w, Exec(w, objs, steps + [step]), k, u, a)
  {
    ExecOneMore(w, objs, steps, step);
    Reachable(w, objs, steps);
    StepLeavesAbandoned(w, Exec(w, objs, steps), step, k, u, a);
  }
}
