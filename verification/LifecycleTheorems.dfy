/** The guarantees of the lifecycle protocol, over every run. */
module LifecycleTheorems {
  import opened GvkCodec
  import opened Routing
  import opened Naming
  import opened Stores
  import opened Lifecycle
  import opened LifecycleSafety

  /** The instance object that was given uid `u` exists. */
  predicate Present(s: State, u: string) {
    u in s.homes && s.homes[u] in s.insts && s.insts[s.homes[u]].uid == u
  }

  /** No object carries the label of `u`, anywhere, and its record is gone. */
  ghost predicate Spotless(w: World, s: State, u: string)
    requires HexDigest(w.digest) && u in s.homes
  {
    Unmarked(s, u) && OwnRecord(w, s, u) !in s.objs
  }

  lemma ExecOneMore(w: World, objs: map<Addr, Obj>, steps: seq<Step>, step: Step)
    requires HexDigest(w.digest)
    ensures Exec(w, objs, steps + [step]) == Do(w, Exec(w, objs, steps), step)
  {
    assert (steps + [step])[..|steps|] == steps;
  }

  // ---- What a single step can do ----

  /** Only these calls of a worker remove or write an object. */
  lemma WorkTouches(w: World, s: State, k: InstKey, op: WorkOp, a: Addr)
    requires HexDigest(w.digest)
    ensures var s', pc := DoWork(w, s, k, op), PcOf(s, k);
      && (a in s.objs && a !in s'.objs ==>
            ((pc.Pruning? || pc.Collecting?) && a in pc.listed)
              || (pc.DroppingRecord? && a == RecordAddr(w, k.cluster, pc.uid)))
      && (a in s'.objs && (a !in s.objs || s'.objs[a] != s.objs[a]) ==>
            (pc.Applying? && w.renders(k, a)) || (pc.PuttingRecord? && a == RecordAddr(w, k.cluster, pc.uid)))
  {
  }

  /** Only these calls of the sweeper remove an object; it writes none. */
  lemma SweepTouches(w: World, s: State, op: SweepOp, a: Addr)
    ensures var s' := DoSweep(w, s, op);
      && (a in s'.objs ==> a in s.objs && s'.objs[a] == s.objs[a])
      && (a in s.objs && a !in s'.objs ==>
            s.sweep.On? && (a in s.sweep.listed || (a == s.sweep.record && s.sweep.todo == {} && s.sweep.listed == {})))
  {
  }

  /** A worker moves itself only. */
  lemma WorkMovesOnlyItself(w: World, s: State, j: InstKey, op: WorkOp, k: InstKey)
    requires HexDigest(w.digest) && j != k
    ensures PcOf(DoWork(w, s, j, op), k) == PcOf(s, k)
  {
  }

  /** A step that changes instance objects changes no other, and no uid is reused. */
  ghost predicate InstanceStep(s: State, s': State) {
    && (forall u :: u in s.homes ==> u in s'.homes && s'.homes[u] == s.homes[u])
    && (forall u :: u in s.homes && Present(s', u) ==> Present(s, u))
    && (s'.insts != s.insts ==> s'.objs == s.objs)
  }

  lemma EnvInstances(w: World, s: State, e: EnvOp)
    requires HexDigest(w.digest)
    ensures InstanceStep(s, DoEnv(w, s, e))
  {
  }

  lemma UpdateInstances(s: State, k: InstKey, rv: nat, finalizer: bool)
    ensures InstanceStep(s, WorkUpdate(s, k, rv, finalizer))
  {
  }

  /** A worker changes instances in no other way. */
  lemma WorkLeavesInstances(w: World, s: State, k: InstKey, op: WorkOp)
    requires HexDigest(w.digest) && !op.AddFinalizer? && !op.Release?
    ensures var s' := DoWork(w, s, k, op); s'.insts == s.insts && s'.homes == s.homes
  {
  }

  lemma WorkInstances(w: World, s: State, k: InstKey, op: WorkOp)
    requires HexDigest(w.digest)
    ensures InstanceStep(s, DoWork(w, s, k, op))
  {
    if op.AddFinalizer? || op.Release? {
      var pc := PcOf(s, k);
      if pc.AddingFinalizer? || pc.Releasing? { UpdateInstances(s, k, pc.rv, op.AddFinalizer?); }
    } else {
      WorkLeavesInstances(w, s, k, op);
    }
  }

  lemma StepInstances(w: World, s: State, step: Step)
    requires HexDigest(w.digest)
    ensures InstanceStep(s, Do(w, s, step))
  {
    match step
    case Env(e) => EnvInstances(w, s, e);
    case Work(k, op) => WorkInstances(w, Busy(s, k), k, op);
    case Sweeper(op) =>
  }

  // ---- Deletion ----

  /** In every run, whatever fails or interleaves, the step at which an instance object
      disappears finds nothing of it left: no labelled child in any store, no record. */
  lemma DisappearsOnlyWhenSpotless(w: World, objs: map<Addr, Obj>, steps: seq<Step>, step: Step, u: string)
    requires WorldOk(w) && Pristine(w, objs)
    requires Present(Exec(w, objs, steps), u) && !Present(Do(w, Exec(w, objs, steps), step), u)
    ensures Spotless(w, Exec(w, objs, steps), u)
  {
    var s := Exec(w, objs, steps);
    var s' := Do(w, s, step);
    Reachable(w, objs, steps);
    StepKeeps(w, s, step);
    StepInstances(w, s, step);
    UnguardedIsClean(w, s', u);
  }

  /** Once gone, an instance stays gone and nothing of it ever comes back. */
  lemma {:induction false} GoneForGood(w: World, objs: map<Addr, Obj>, steps: seq<Step>, more: seq<Step>, u: string)
    requires WorldOk(w) && Pristine(w, objs)
    requires u in Exec(w, objs, steps).homes && !Present(Exec(w, objs, steps), u)
    ensures var s := Exec(w, objs, steps + more); u in s.homes && !Present(s, u) && Spotless(w, s, u)
    decreases more
  {
    if more == [] {
      assert steps + more == steps;
    } else {
      var front, last := more[..|more| - 1], more[|more| - 1];
      GoneForGood(w, objs, steps, front, u);
      assert steps + more == (steps + front) + [last];
      StaysGone(w, objs, steps + front, last, u);
    }
    Reachable(w, objs, steps + more);
    UnguardedIsClean(w, Exec(w, objs, steps + more), u);
  }

  lemma StaysGone(w: World, objs: map<Addr, Obj>, steps: seq<Step>, step: Step, u: string)
    requires WorldOk(w) && Pristine(w, objs)
    requires u in Exec(w, objs, steps).homes && !Present(Exec(w, objs, steps), u)
    ensures var s := Exec(w, objs, steps + [step]); u in s.homes && !Present(s, u)
  {
    Reachable(w, objs, steps);
    ExecOneMore(w, objs, steps, step);
    StepInstances(w, Exec(w, objs, steps), step);
  }

  /** Nothing is created for an instance before the finalizer is persisted on it. */
  lemma MarkedImpliesFinalizer(w: World, objs: map<Addr, Obj>, steps: seq<Step>, a: Addr)
    requires WorldOk(w) && Pristine(w, objs)
    ensures var s := Exec(w, objs, steps); a in s.objs && s.objs[a].uid.Some? ==> Guarded(s, s.objs[a].uid.value)
  {
    Reachable(w, objs, steps);
  }

  // ---- Instances do not touch each other ----

  /** Outside the consumer workspaces an address is in two instances' scopes only if
      they share cluster and name: namespace and blueprint do not count. */
  lemma ScopeSharedOnlyByNamesakes(w: World, k: InstKey, k': InstKey, a: Addr)
    requires WorldOk(w) && Scope(w, k, a) && Scope(w, k', a) && !a.place.Workspace?
    ensures k.cluster == k'.cluster && k.name == k'.name
  {
    assert QualifiedFor(w, k, a.name) && QualifiedFor(w, k', a.name);
    var o :| Tuple(k.cluster, k.name, o) in w.names
      && a.name == ProviderChildName(w.digest, Tuple(k.cluster, k.name, o));
    var o' :| Tuple(k'.cluster, k'.name, o') in w.names
      && a.name == ProviderChildName(w.digest, Tuple(k'.cluster, k'.name, o'));
    ProviderChildNameInjective(w.digest, Tuple(k.cluster, k.name, o), Tuple(k'.cluster, k'.name, o'));
  }

  lemma MarkedInScope(w: World, s: State, k: InstKey, a: Addr, u: string)
    requires WorldOk(w) && Inv(w, s) && a in s.objs && s.objs[a].uid == Some(u) && w.renders(k, a)
    requires !a.place.Workspace?
    ensures u in s.homes && s.homes[u].cluster == k.cluster && s.homes[u].name == k.name
  {
    assert ObjOk(w, s, a, s.objs[a]);
    RenderedIsNoRecord(w, k, a);
    OwnRecordInSpace(w, s, u);
    ScopeSharedOnlyByNamesakes(w, s.homes[u], k, a);
  }

  /** In every run, an apply in the provider or host store overwrites no object of an
      instance with a different cluster or name. */
  lemma ApplyOverwritesNoOther(w: World, objs: map<Addr, Obj>, steps: seq<Step>, k: InstKey, a: Addr, body: string,
                               u: string)
    requires WorldOk(w) && Pristine(w, objs)
    requires var s := Exec(w, objs, steps);
      && a in s.objs && s.objs[a].uid == Some(u) && !a.place.Workspace?
      && var s' := Do(w, s, Work(k, Apply(a, body))); a in s'.objs && s'.objs[a] != s.objs[a]
    ensures var s := Exec(w, objs, steps); u in s.homes && s.homes[u].cluster == k.cluster && s.homes[u].name == k.name
  {
    var s := Exec(w, objs, steps);
    Reachable(w, objs, steps);
    WorkTouches(w, Busy(s, k), k, Apply(a, body), a);
    MarkedInScope(w, s, k, a, u);
  }

  /** Worker `k` is about to remove `a`. */
  predicate Removable(w: World, s: State, k: InstKey, a: Addr)
    requires HexDigest(w.digest)
  {
    var pc := PcOf(s, k);
    ((pc.Pruning? || pc.Collecting?) && a in pc.listed) || (pc.DroppingRecord? && a == RecordAddr(w, k.cluster, pc.uid))
  }

  lemma RemovableIsOwn(w: World, s: State, k: InstKey, a: Addr, u: string)
    requires WorldOk(w) && Inv(w, s) && a in s.objs && s.objs[a].uid == Some(u) && !a.place.Workspace?
    requires Removable(w, s, k, a)
    ensures u in s.homes && s.homes[u].cluster == k.cluster && s.homes[u].name == k.name
  {
    var pc := PcOf(s, k);
    assert PcOk(w, s, k, pc) && ObjOk(w, s, a, s.objs[a]);
    if w.renders(k, a) {
      MarkedInScope(w, s, k, a, u);
    } else {
      OwnRecordInSpace(w, s, pc.uid);
      RecordAddrUnique(w, k.cluster, pc.uid, s.homes[u].cluster, u);
    }
  }

  lemma WorkerRemovesRemovable(w: World, s: State, k: InstKey, op: WorkOp, a: Addr)
    requires HexDigest(w.digest) && a in s.objs && a !in Do(w, s, Work(k, op)).objs
    ensures Removable(w, s, k, a)
  {
    WorkTouches(w, Busy(s, k), k, op, a);
  }

  /** In every run, what a worker removes in the provider or host store belongs to no
      instance with a different cluster or name, even if the object changed hands
      between the listing and the call. */
  lemma WorkerRemovesNoOther(w: World, objs: map<Addr, Obj>, steps: seq<Step>, k: InstKey, op: WorkOp, a: Addr,
                             u: string)
    requires WorldOk(w) && Pristine(w, objs)
    requires var s := Exec(w, objs, steps);
      && a in s.objs && s.objs[a].uid == Some(u) && !a.place.Workspace? && a !in Do(w, s, Work(k, op)).objs
    ensures var s := Exec(w, objs, steps); u in s.homes && s.homes[u].cluster == k.cluster && s.homes[u].name == k.name
  {
    var s := Exec(w, objs, steps);
    WorkerRemovesRemovable(w, s, k, op, a);
    assert Inv(w, s) by { Reachable(w, objs, steps); }
    RemovableIsOwn(w, s, k, a, u);
  }

  // ---- Only what changed hands is lost ----

  /** Somebody else writes `a` without the uid label. */
  predicate Strips(step: Step, a: Addr) { step.Env? && step.env.Write? && step.env.a == a && step.env.o.uid.None? }

  ghost predicate LabelStripped(steps: seq<Step>, a: Addr) { exists i :: 0 <= i < |steps| && Strips(steps[i], a) }

  function ListedAt(pc: Pc): set<Addr> { if pc.Pruning? || pc.Collecting? then pc.listed else {} }

  /** An object listed for deletion has lost its label since. */
  predicate LostLabel(s: State, k: InstKey, a: Addr) { a in ListedAt(PcOf(s, k)) && a in s.objs && s.objs[a].uid.None? }

  lemma WorkLosesNoLabel(w: World, s: State, j: InstKey, op: WorkOp, k: InstKey, a: Addr)
    requires HexDigest(w.digest) && LostLabel(DoWork(w, s, j, op), k, a)
    ensures LostLabel(s, k, a)
  {
  }

  lemma StepLosesNoLabel(w: World, s: State, step: Step, k: InstKey, a: Addr)
    requires HexDigest(w.digest) && !Strips(step, a) && LostLabel(Do(w, s, step), k, a)
    ensures LostLabel(s, k, a)
  {
    match step
    case Env(e) =>
    case Work(j, op) => WorkLosesNoLabel(w, Busy(s, j), j, op, k, a);
    case Sweeper(op) => SweepTouches(w, s, op, a);
  }

  lemma {:induction false} LostLabelWasStripped(w: World, objs: map<Addr, Obj>, steps: seq<Step>, k: InstKey, a: Addr)
    requires HexDigest(w.digest) && LostLabel(Exec(w, objs, steps), k, a)
    ensures LabelStripped(steps, a)
  {
    if steps != [] {
      var front, last := steps[..|steps| - 1], steps[|steps| - 1];
      if !Strips(last, a) {
        StepLosesNoLabel(w, Exec(w, objs, front), last, k, a);
        LostLabelWasStripped(w, objs, front, k, a);
        var i :| 0 <= i < |front| && Strips(front[i], a);
        assert Strips(steps[i], a);
      }
    }
  }

  lemma RemovableIsOwnOrTaken(w: World, s: State, k: InstKey, a: Addr, u: string)
    requires WorldOk(w) && Inv(w, s) && Removable(w, s, k, a) && a in s.objs && s.objs[a].uid == Some(u)
    ensures u == PcOf(s, k).uid || (u in s.homes && s.homes[u] != k && w.renders(s.homes[u], a))
  {
    var pc := PcOf(s, k);
    RemovableIsReached(w, s, k, a);
    assert ObjOk(w, s, a, s.objs[a]);
    if !w.renders(s.homes[u], a) {
      OwnRecordInSpace(w, s, u);
      if w.renders(k, a) { RenderedIsNoRecord(w, k, a); }
      RecordAddrUnique(w, k.cluster, pc.uid, s.homes[u].cluster, u);
    }
  }

  lemma RemovableIsReached(w: World, s: State, k: InstKey, a: Addr)
    requires WorldOk(w) && Inv(w, s) && Removable(w, s, k, a)
    ensures var pc := PcOf(s, k);
      && Holds(s, k, pc.uid) && (k.cluster, pc.uid) in w.ids && s.insts[k].uid == pc.uid
      && (w.renders(k, a) || a == RecordAddr(w, k.cluster, pc.uid))
  {
    assert PcOk(w, s, k, PcOf(s, k));
  }

  lemma RemovableIsLabelled(w: World, s: State, k: InstKey, a: Addr)
    requires WorldOk(w) && Inv(w, s) && Removable(w, s, k, a) && a in s.objs && s.objs[a].uid.None?
    ensures LostLabel(s, k, a)
  {
    assert PcOk(w, s, k, PcOf(s, k)) && ObjOk(w, s, a, s.objs[a]);
    if PcOf(s, k).DroppingRecord? { OwnRecordInSpace(w, s, PcOf(s, k).uid); }
  }

  /** In every run and every store, what a worker removes carries its own instance's
      label, or another instance that renders the object has taken it over, or somebody
      else has stripped the label. */
  lemma OnlyTakenOverIsLost(w: World, objs: map<Addr, Obj>, steps: seq<Step>, k: InstKey, op: WorkOp, a: Addr)
    requires WorldOk(w) && Pristine(w, objs)
    requires var s := Exec(w, objs, steps); a in s.objs && a !in Do(w, s, Work(k, op)).objs
    ensures var s := Exec(w, objs, steps);
      Removable(w, s, k, a) &&
      match s.objs[a].uid
      case None => LabelStripped(steps, a)
      case Some(u) => u == PcOf(s, k).uid || (u in s.homes && s.homes[u] != k && w.renders(s.homes[u], a))
  {
    var s := Exec(w, objs, steps);
    WorkerRemovesRemovable(w, s, k, op, a);
    assert Inv(w, s) by { Reachable(w, objs, steps); }
    if s.objs[a].uid.None? {
      RemovableIsLabelled(w, s, k, a);
      LostLabelWasStripped(w, objs, steps, k, a);
    } else {
      RemovableIsOwnOrTaken(w, s, k, a, s.objs[a].uid.value);
    }
  }

  // ---- External objects ----

  predicate Spares(step: Step, a: Addr) {
    !(step.Env? && ((step.env.Write? && step.env.a == a) || (step.env.Remove? && step.env.a == a)))
  }

  /** Nobody is about to touch `a`. */
  ghost predicate OutOfReach(w: World, s: State, a: Addr)
    requires HexDigest(w.digest)
  {
    && (forall k :: !w.renders(k, a))
    && (forall k :: !Removable(w, s, k, a))
    && (forall k :: !(PcOf(s, k).PuttingRecord? && a == RecordAddr(w, k.cluster, PcOf(s, k).uid)))
    && (s.sweep.On? ==> a !in s.sweep.listed && a != s.sweep.record)
  }

  lemma UnrenderedIsOutOfReach(w: World, s: State, a: Addr)
    requires WorldOk(w) && Inv(w, s) && !InRecordSpace(w, a) && forall k :: !w.renders(k, a)
    ensures OutOfReach(w, s, a)
  {
    forall k
      ensures !Removable(w, s, k, a) && !(PcOf(s, k).PuttingRecord? && a == RecordAddr(w, k.cluster, PcOf(s, k).uid))
    {
      WorkerIsNowhereNear(w, s, k, a);
    }
    if s.sweep.On? { OwnRecordInSpace(w, s, s.sweep.uid); }
  }

  lemma WorkerIsNowhereNear(w: World, s: State, k: InstKey, a: Addr)
    requires WorldOk(w) && Inv(w, s) && !InRecordSpace(w, a) && !w.renders(k, a)
    ensures !Removable(w, s, k, a) && !(PcOf(s, k).PuttingRecord? && a == RecordAddr(w, k.cluster, PcOf(s, k).uid))
  {
    var pc := PcOf(s, k);
    assert PcOk(w, s, k, pc);
    if !pc.Idle? && !pc.AddingFinalizer? { OwnRecordInSpace(w, s, pc.uid); }
  }

  lemma StepSparesUnreached(w: World, s: State, step: Step, a: Addr)
    requires HexDigest(w.digest) && a in s.objs && Spares(step, a) && OutOfReach(w, s, a)
    ensures a in Do(w, s, step).objs && Do(w, s, step).objs[a] == s.objs[a]
  {
    match step
    case Env(e) =>
    case Work(k, op) =>
      assert !Removable(w, s, k, a);
      WorkTouches(w, Busy(s, k), k, op, a);
    case Sweeper(op) => SweepTouches(w, s, op, a);
  }

  /** An object that no template renders and that is no record is, whenever it came into
      being, the same after every further run of passes, prunes, deletions and sweeps in
      which nobody else touches it, even when a template creates objects of its kind. */
  lemma {:induction false} UnrenderedIsUntouched(w: World, objs: map<Addr, Obj>, before: seq<Step>,
                                                 more: seq<Step>, a: Addr)
    requires WorldOk(w) && Pristine(w, objs) && a in Exec(w, objs, before).objs && !InRecordSpace(w, a)
    requires forall k :: !w.renders(k, a)
    requires forall i :: 0 <= i < |more| ==> Spares(more[i], a)
    ensures var s, s' := Exec(w, objs, before), Exec(w, objs, before + more); a in s'.objs && s'.objs[a] == s.objs[a]
    decreases |more|
  {
    if more == [] {
      assert before + more == before;
    } else {
      var front, last := more[..|more| - 1], more[|more| - 1];
      UnrenderedIsUntouched(w, objs, before, front, a);
      assert before + more == (before + front) + [last];
      UntouchedOnce(w, objs, before + front, last, a);
    }
  }

  lemma UntouchedOnce(w: World, objs: map<Addr, Obj>, steps: seq<Step>, step: Step, a: Addr)
    requires WorldOk(w) && Pristine(w, objs) && a in Exec(w, objs, steps).objs && !InRecordSpace(w, a)
    requires Spares(step, a) && forall k :: !w.renders(k, a)
    ensures var s, s' := Exec(w, objs, steps), Exec(w, objs, steps + [step]); a in s'.objs && s'.objs[a] == s.objs[a]
  {
    ExecOneMore(w, objs, steps, step);
    Reachable(w, objs, steps);
    UnrenderedIsOutOfReach(w, Exec(w, objs, steps), a);
    StepSparesUnreached(w, Exec(w, objs, steps), step, a);
  }

  // ---- The liveness record ----

  /** In every run, each provider or host child of an instance that has a record is of
      a kind the sweeper will read out of that record. */
  lemma RecordNamesEveryChild(w: World, objs: map<Addr, Obj>, steps: seq<Step>, r: Addr, a: Addr, u: string)
    requires WorldOk(w) && Pristine(w, objs)
    requires var s := Exec(w, objs, steps);
      && r in s.objs && s.objs[r].live && s.objs[r].uid == Some(u)
      && a in s.objs && s.objs[a].uid == Some(u) && a != r && !a.place.Workspace?
    ensures var rec := Exec(w, objs, steps).objs[r];
      a.gvk in Visited(if a.place == ProviderWs then rec.providerKinds else rec.hostKinds)
  {
    var s := Exec(w, objs, steps);
    Reachable(w, objs, steps);
    assert ObjOk(w, s, a, s.objs[a]) && ObjOk(w, s, r, s.objs[r]);
    assert Scope(w, s.homes[u], a);
    var rec := s.objs[r];
    assert a.gvk in Elems(Visited(if a.place == ProviderWs then rec.providerKinds else rec.hostKinds));
  }

  /** When the sweeper removes a record while the instance's worker has stayed idle
      since the record was taken up, no provider or host child of it is left. Needed:
      ConfigMap is no provider child kind, and the sweeper has a host client if the
      reconciler has one. */
  lemma SweptRecordLeavesNoChild(w: World, objs: map<Addr, Obj>, steps: seq<Step>, op: SweepOp, u: string)
    requires WorldOk(w) && Pristine(w, objs) && (w.hostWired ==> w.sweeperHost)
    requires var s := Exec(w, objs, steps);
      && u in s.homes && CONFIG_MAP !in w.kinds(s.homes[u].blueprint, Provider)
      && s.sweep.On? && s.sweep.quiet
      && OwnRecord(w, s, u) in s.objs && OwnRecord(w, s, u) !in DoSweep(w, s, op).objs
    ensures var s' := DoSweep(w, Exec(w, objs, steps), op);
      forall a :: a in s'.objs && s'.objs[a].uid == Some(u) ==> a.place.Workspace?
  {
    var s := Exec(w, objs, steps);
    Reachable(w, objs, steps);
    RecordGoesLast(w, s, op, u);
    forall a | a in DoSweep(w, s, op).objs && DoSweep(w, s, op).objs[a].uid == Some(u) ensures a.place.Workspace? {
      SweepTouches(w, s, op, a);
      SweptClean(w, s, u, a);
    }
  }

  /** The record goes at the end of its own sweep, or not at all. */
  lemma RecordGoesLast(w: World, s: State, op: SweepOp, u: string)
    requires WorldOk(w) && Inv(w, s) && u in s.homes && CONFIG_MAP !in w.kinds(s.homes[u].blueprint, Provider)
    requires s.sweep.On? && OwnRecord(w, s, u) in s.objs && OwnRecord(w, s, u) !in DoSweep(w, s, op).objs
    ensures s.sweep.uid == u && s.sweep.todo == {} && s.sweep.listed == {}
  {
    var r, u2 := OwnRecord(w, s, u), s.sweep.uid;
    SweepTouches(w, s, op, r);
    OwnRecordInSpace(w, s, u);
    if r in s.sweep.listed && w.renders(s.homes[u2], r) { RenderedIsNoRecord(w, s.homes[u2], r); }
    RecordAddrUnique(w, s.homes[u].cluster, u, s.homes[u2].cluster, u2);
  }

  /** At the end of a quiet sweep only consumer children and the record are left. */
  lemma SweptClean(w: World, s: State, u: string, a: Addr)
    requires WorldOk(w) && Inv(w, s) && (w.hostWired ==> w.sweeperHost) && u in s.homes
    requires s.sweep.On? && s.sweep.quiet && s.sweep.uid == u && s.sweep.todo == {} && s.sweep.listed == {}
    requires a in s.objs && s.objs[a].uid == Some(u) && a != OwnRecord(w, s, u)
    ensures a.place.Workspace?
  {
    ChildPlaces(w, s, a, u);
  }

  /** A provider or host child other than the record is in a sweepable place. */
  lemma ChildPlaces(w: World, s: State, a: Addr, u: string)
    requires WorldOk(w) && Inv(w, s) && (w.hostWired ==> w.sweeperHost)
    requires u in s.homes && a in s.objs && s.objs[a].uid == Some(u) && a != OwnRecord(w, s, u)
    ensures a.place.Workspace? || Sweepable(w, a.place)
  {
    assert ObjOk(w, s, a, s.objs[a]);
    assert Scope(w, s.homes[u], a);
  }
}
