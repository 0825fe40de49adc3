/** What the sweeper removes, over every run in which passes interleave with it. */
module LifecycleSweep {
  import opened GvkCodec
  import opened Routing
  import opened Naming
  import opened Stores
  import opened Lifecycle
  import opened LifecycleSafety
  import opened LifecycleTheorems
  import opened LifecycleRace
  import opened LifecycleLoss

  predicate SweepLists(s: State, a: Addr) { s.sweep.On? && a in s.sweep.listed }

  /** The sweeper lists an object where it is, outside the consumer workspaces and with
      the record's label. */
  lemma SweepStepLists(w: World, s: State, op: SweepOp, a: Addr)
    requires !SweepLists(s, a) && SweepLists(DoSweep(w, s, op), a)
    ensures !a.place.Workspace? && a in s.objs && s.objs[a].uid == Some(DoSweep(w, s, op).sweep.uid)
    ensures DoSweep(w, s, op).objs == s.objs
  {
  }

  lemma OthersListNothing(w: World, s: State, step: Step, a: Addr)
    requires HexDigest(w.digest) && !step.Sweeper? && SweepLists(Do(w, s, step), a)
    ensures SweepLists(s, a)
  {
    match step
    case Env(e) =>
    case Work(j, op) => WorkLeavesSweep(w, Busy(s, j), j, op);
  }

  lemma WorkLeavesSweep(w: World, s: State, j: InstKey, op: WorkOp)
    requires HexDigest(w.digest)
    ensures DoWork(w, s, j, op).sweep == s.sweep
  {
  }

  /** An object of the listing has lost its label since. */
  predicate Unlabelled(s: State, a: Addr) { SweepLists(s, a) && a in s.objs && s.objs[a].uid.None? }

  lemma WorkStripsNothing(w: World, s: State, j: InstKey, op: WorkOp, a: Addr)
    requires HexDigest(w.digest) && a in DoWork(w, s, j, op).objs && DoWork(w, s, j, op).objs[a].uid.None?
    ensures a in s.objs && s.objs[a].uid.None?
  {
  }

  lemma StepStripsNothing(w: World, s: State, step: Step, a: Addr)
    requires HexDigest(w.digest) && !Strips(step, a) && Unlabelled(Do(w, s, step), a)
    ensures Unlabelled(s, a)
  {
    match step
    case Env(e) =>
    case Work(j, op) =>
      OthersListNothing(w, s, step, a);
      WorkStripsNothing(w, Busy(s, j), j, op, a);
    case Sweeper(op) =>
      SweepTouches(w, s, op, a);
      if !SweepLists(s, a) { SweepStepLists(w, s, op, a); }
  }

  lemma {:induction false} UnlabelledWasStripped(w: World, objs: map<Addr, Obj>, steps: seq<Step>, a: Addr)
    requires HexDigest(w.digest) && Unlabelled(Exec(w, objs, steps), a)
    ensures LabelStripped(steps, a)
  {
    if steps != [] {
      var front, last := steps[..|steps| - 1], steps[|steps| - 1];
      if !Strips(last, a) {
        StepStripsNothing(w, Exec(w, objs, front), last, a);
        UnlabelledWasStripped(w, objs, front, a);
        var i :| 0 <= i < |front| && Strips(front[i], a);
        assert Strips(steps[i], a);
      }
    }
  }

  lemma {:induction false} ListedOutside(w: World, objs: map<Addr, Obj>, steps: seq<Step>, a: Addr)
    requires HexDigest(w.digest) && SweepLists(Exec(w, objs, steps), a)
    ensures !a.place.Workspace?
  {
    if steps != [] {
      var front, last := steps[..|steps| - 1], steps[|steps| - 1];
      var s := Exec(w, objs, front);
      if SweepLists(s, a) {
        ListedOutside(w, objs, front, a);
      } else if last.Sweeper? {
        SweepStepLists(w, s, last.sop, a);
      } else {
        OthersListNothing(w, s, last, a);
        assert false;
      }
    }
  }

  lemma SweptIsOwnOrTaken(w: World, s: State, a: Addr, v: string)
    requires WorldOk(w) && Inv(w, s) && s.sweep.On? && (a in s.sweep.listed || a == s.sweep.record)
    requires a in s.objs && s.objs[a].uid == Some(v)
    ensures var u := s.sweep.uid;
      u in s.homes && (v == u || (v in s.homes && w.renders(s.homes[v], a)))
  {
    var u := s.sweep.uid;
    assert ObjOk(w, s, a, s.objs[a]);
    OwnRecordInSpace(w, s, u);
    OwnRecordInSpace(w, s, v);
    if w.renders(s.homes[v], a) {
      RenderedIsNoRecord(w, s.homes[v], a);
    } else {
      if w.renders(s.homes[u], a) { RenderedIsNoRecord(w, s.homes[u], a); }
      RecordAddrUnique(w, s.homes[u].cluster, u, s.homes[v].cluster, v);
    }
  }

  /** In every run, what the sweeper removes lies outside the consumer workspaces and is
      the record it took up or something that record's instance renders; it carries that
      instance's label, or another instance that renders it has taken it over, perhaps
      its own successor under the same name, or somebody else has stripped the label. */
  lemma SweepRemovesOnlyOrphans(w: World, objs: map<Addr, Obj>, steps: seq<Step>, op: SweepOp, a: Addr)
    requires WorldOk(w) && Pristine(w, objs)
    requires var s := Exec(w, objs, steps); a in s.objs && a !in DoSweep(w, s, op).objs
    ensures var s := Exec(w, objs, steps);
      && s.sweep.On? && s.sweep.uid in s.homes && !a.place.Workspace?
      && (a == OwnRecord(w, s, s.sweep.uid) || w.renders(s.homes[s.sweep.uid], a))
      && match s.objs[a].uid
         case None => LabelStripped(steps, a)
         case Some(v) => v == s.sweep.uid || (v in s.homes && w.renders(s.homes[v], a))
  {
    var s := Exec(w, objs, steps);
    Reachable(w, objs, steps);
    SweepTouches(w, s, op, a);
    OwnRecordInSpace(w, s, s.sweep.uid);
    assert ObjOk(w, s, a, s.objs[a]);
    if a in s.sweep.listed { ListedOutside(w, objs, steps, a); }
    if s.objs[a].uid.None? {
      UnlabelledWasStripped(w, objs, steps, a);
    } else {
      SweptIsOwnOrTaken(w, s, a, s.objs[a].uid.value);
    }
  }

  // ---- The sweeper can take a stranger's child ----

  lemma SweepsKindOf(w: World, f: Machine, steps: seq<Step>, s: State, k: InstKey, u: string, a: Addr)
    requires WorldOk(w) && IsStep(w, f) && Run(f, steps) == s && u in s.homes && s.homes[u] == k
    requires w.renders(k, a) && Sweepable(w, a.place)
    requires var r := RecordAddr(w, k.cluster, u); r in s.objs && s.objs[r].live && s.objs[r].uid == Some(u)
    ensures (TargetOf(a.place), a.gvk) in RecordedKinds(w, s.objs[RecordAddr(w, k.cluster, u)])
  {
    var r := RecordAddr(w, k.cluster, u);
    RunIsExec(w, f, steps);
    Reachable(w, map[], steps);
    assert ObjOk(w, s, r, s.objs[r]) && Scope(w, k, a);
    assert forall g :: g in Visited(s.objs[r].providerKinds) <==> g in Elems(Visited(s.objs[r].providerKinds));
    assert forall g :: g in Visited(s.objs[r].hostKinds) <==> g in Elems(Visited(s.objs[r].hostKinds));
  }

  /** The run goes on without users and other controllers. */
  ghost predicate Calm(steps: seq<Step>, steps': seq<Step>) {
    steps <= steps' && forall i :: |steps| <= i < |steps'| ==> !steps'[i].Env?
  }

  lemma CalmTwice(steps: seq<Step>, steps': seq<Step>, steps'': seq<Step>)
    requires Calm(steps, steps') && Calm(steps', steps'')
    ensures Calm(steps, steps'')
  {
  }

  /** The sweeper takes the record up ... */
  lemma TakeUpFor(w: World, f: Machine, steps: seq<Step>, s: State, r: Addr, u: string, todo: Todo)
    returns (steps': seq<Step>, s': State)
    requires HexDigest(w.digest) && IsStep(w, f) && Run(f, steps) == s && s.sweep.Off?
    requires r in s.objs && s.objs[r].live && s.objs[r].uid == Some(u) && RecordedKinds(w, s.objs[r]) == todo
    requires r.place == ProviderWs && r.gvk == CONFIG_MAP && r.namespace == w.recordNamespace
    ensures Calm(steps, steps') && Run(f, steps') == s'
    ensures s'.objs == s.objs && s'.homes == s.homes && s'.pcs == s.pcs
    ensures s'.sweep.On? && s'.sweep.uid == u && s'.sweep.todo == todo && s'.sweep.listed == {}
  {
    steps', s' := Advance(w, f, steps, s, Sweeper(ListRecords));
    assert s'.sweep.Between? && r in s'.sweep.records && s'.sweep.records[r] == s.objs[r];
    steps', s' := Advance(w, f, steps', s', Sweeper(TakeUp(r)));
  }

  /** ... and lists the child. */
  lemma ListFor(w: World, f: Machine, steps: seq<Step>, s: State, u: string, a: Addr)
    returns (steps': seq<Step>, s': State)
    requires HexDigest(w.digest) && IsStep(w, f) && Run(f, steps) == s && s.sweep.On? && s.sweep.uid == u
    requires !a.place.Workspace? && (TargetOf(a.place), a.gvk) in s.sweep.todo && s.sweep.listed == {}
    requires a in s.objs && s.objs[a].uid == Some(u)
    ensures Calm(steps, steps') && Run(f, steps') == s'
    ensures s'.objs == s.objs && s'.homes == s.homes && s'.pcs == s.pcs && SweepLists(s', a) && s'.sweep.uid == u
  {
    steps', s' := Advance(w, f, steps, s, Sweeper(SweepKind(TargetOf(a.place), a.gvk)));
  }

  /** Meanwhile the other instance applies it. */
  lemma TakeOver(w: World, f: Machine, steps: seq<Step>, s: State, k': InstKey, a: Addr, u': string)
    returns (steps': seq<Step>, s': State)
    requires HexDigest(w.digest) && IsStep(w, f) && Run(f, steps) == s && PcOf(s, k') == Applying(u', {})
    requires w.renders(k', a) && SweepLists(s, a)
    ensures Calm(steps, steps') && Run(f, steps') == s' && s'.homes == s.homes
    ensures a in s'.objs && s'.objs[a].uid == Some(u') && SweepLists(s', a) && s'.sweep.uid == s.sweep.uid
  {
    assert PcOf(Busy(s, k'), k') == PcOf(s, k');
    steps', s' := Advance(w, f, steps, s, Work(k', Apply(a, "")));
  }

  /** An orphan with its record, and another instance about to apply. */
  lemma OrphanAndRival(w: World, f: Machine, k: InstKey, k': InstKey, a: Addr, u: string, u': string)
    returns (steps: seq<Step>, s: State)
    requires WorldOk(w) && IsStep(w, f) && k != k' && w.renders(k, a) && u != u'
    requires (k.cluster, u) in w.ids && (k'.cluster, u') in w.ids
    ensures Run(f, steps) == s && s.sweep.Off? && PcOf(s, k') == Applying(u', {})
    ensures u in s.homes && s.homes[u] == k && u' in s.homes && s.homes[u'] == k'
    ensures a in s.objs && s.objs[a].uid == Some(u)
    ensures var r := RecordAddr(w, k.cluster, u); r in s.objs && s.objs[r].live && s.objs[r].uid == Some(u)
    ensures forall i :: 0 <= i < |steps| ==> Concerns(steps[i], k) || Concerns(steps[i], k')
  {
    var s1;
    steps, s1 := OwnsAndRecords(w, f, k, a, u);
    assert SameFor(START, s1, k');
    ghost var own := steps;
    steps, s := Enrol(w, f, steps, s1, k', u');
    assert forall i :: 0 <= i < |own| ==> steps[i] == own[i];
  }

  lemma UnstrippedRun(steps: seq<Step>, steps': seq<Step>, k: InstKey, k': InstKey, a: Addr)
    requires forall i :: 0 <= i < |steps| ==> Concerns(steps[i], k) || Concerns(steps[i], k')
    requires Calm(steps, steps')
    ensures !LabelStripped(steps', a)
  {
    assert forall i :: 0 <= i < |steps| ==> steps'[i] == steps[i];
  }

  /** A sweep can delete another instance's child: for every two instances that render a
      common object outside the consumer workspaces, the second one applies it between
      the sweep's listing and its delete. */
  lemma SweepCanDeleteAStrangersChild(w: World, k: InstKey, k': InstKey, a: Addr, u: string, u': string)
    returns (steps: seq<Step>, s: State)
    requires WorldOk(w) && k != k' && w.renders(k, a) && w.renders(k', a) && Sweepable(w, a.place) && u != u'
    requires (k.cluster, u) in w.ids && (k'.cluster, u') in w.ids
    ensures s == Exec(w, map[], steps) && !LabelStripped(steps, a) && SweepLists(s, a)
    ensures s.sweep.uid == u && u in s.homes && s.homes[u] == k
    ensures a in s.objs && s.objs[a].uid == Some(u') && u' in s.homes && s.homes[u'] == k'
    ensures a !in DoSweep(w, s, SweepDelete(a)).objs
  {
    var f := Stepper(w);
    steps, s := TakenOverWhileSwept(w, f, k, k', a, u, u');
    RunIsExec(w, f, steps);
    DeletesTheListed(w, s, a);
  }

  lemma DeletesTheListed(w: World, s: State, a: Addr)
    requires SweepLists(s, a)
    ensures a !in DoSweep(w, s, SweepDelete(a)).objs
  {
  }

  lemma TakenOverWhileSwept(w: World, f: Machine, k: InstKey, k': InstKey, a: Addr, u: string, u': string)
    returns (steps: seq<Step>, s: State)
    requires WorldOk(w) && IsStep(w, f) && k != k' && w.renders(k, a) && w.renders(k', a) && u != u'
    requires Sweepable(w, a.place) && (k.cluster, u) in w.ids && (k'.cluster, u') in w.ids
    ensures Run(f, steps) == s && !LabelStripped(steps, a) && SweepLists(s, a)
    ensures s.sweep.uid == u && u in s.homes && s.homes[u] == k
    ensures a in s.objs && s.objs[a].uid == Some(u') && u' in s.homes && s.homes[u'] == k'
  {
    var first, s1 := OrphanAndRival(w, f, k, k', a, u, u');
    SweepsKindOf(w, f, first, s1, k, u, a);
    steps, s := ListAndTakeOver(w, f, first, s1, k, k', a, u, u');
    UnstrippedRun(first, steps, k, k', a);
  }

  lemma ListAndTakeOver(w: World, f: Machine, steps: seq<Step>, s: State, k: InstKey, k': InstKey, a: Addr, u: string,
                        u': string)
    returns (steps': seq<Step>, s': State)
    requires HexDigest(w.digest) && IsStep(w, f) && Run(f, steps) == s && s.sweep.Off?
    requires PcOf(s, k') == Applying(u', {}) && w.renders(k', a) && Sweepable(w, a.place)
    requires a in s.objs && s.objs[a].uid == Some(u)
    requires var r := RecordAddr(w, k.cluster, u);
      && r in s.objs && s.objs[r].live && s.objs[r].uid == Some(u)
      && (TargetOf(a.place), a.gvk) in RecordedKinds(w, s.objs[r])
    ensures Run(f, steps') == s' && s'.homes == s.homes && Calm(steps, steps')
    ensures a in s'.objs && s'.objs[a].uid == Some(u') && SweepLists(s', a) && s'.sweep.uid == u
  {
    var r := RecordAddr(w, k.cluster, u);
    var taken, s1 := TakeUpFor(w, f, steps, s, r, u, RecordedKinds(w, s.objs[r]));
    var listed, s2 := ListFor(w, f, taken, s1, u, a);
    steps', s' := TakeOver(w, f, listed, s2, k', a, u');
    CalmTwice(steps, taken, listed);
    CalmTwice(steps, listed, steps');
  }

  /** In the run `steps` nobody strips labels, and yet the sweep for an instance at `k`
      can now remove at `a` the child of an instance elsewhere. */
  ghost predicate SweepWrongs(w: World, steps: seq<Step>, k: InstKey, a: Addr)
    requires HexDigest(w.digest)
  {
    var s := Exec(w, map[], steps);
    && !LabelStripped(steps, a) && s.sweep.On? && s.sweep.uid in s.homes && s.homes[s.sweep.uid] == k
    && a in s.objs && (exists op :: a !in DoSweep(w, s, op).objs)
    && s.objs[a].uid.Some? && s.objs[a].uid.value in s.homes && s.homes[s.objs[a].uid.value] != k
  }

  /** It happens if and only if another instance renders the object. */
  lemma SweepDeletesOthersExactly(w: World, k: InstKey, a: Addr)
    requires WorldOk(w) && w.renders(k, a) && Sweepable(w, a.place)
    ensures Contested(w, k, a) <==> exists steps :: SweepWrongs(w, steps, k, a)
  {
    if Contested(w, k, a) {
      var k', u, u' :| k' != k && w.renders(k', a) && (k.cluster, u) in w.ids && (k'.cluster, u') in w.ids && u != u';
      var steps, s := SweepCanDeleteAStrangersChild(w, k, k', a, u, u');
      assert SweepWrongs(w, steps, k, a);
    }
    forall steps | SweepWrongs(w, steps, k, a) ensures Contested(w, k, a) { SweepWrongedIsContested(w, steps, k, a); }
  }

  lemma SweepWrongedIsContested(w: World, steps: seq<Step>, k: InstKey, a: Addr)
    requires WorldOk(w) && SweepWrongs(w, steps, k, a)
    ensures Contested(w, k, a)
  {
    var s := Exec(w, map[], steps);
    var op :| a !in DoSweep(w, s, op).objs;
    SweepRemovesOnlyOrphans(w, map[], steps, op, a);
    Reachable(w, map[], steps);
    var u, v := s.sweep.uid, s.objs[a].uid.value;
    assert (s.homes[u].cluster, u) in w.ids && (s.homes[v].cluster, v) in w.ids;
  }
}
