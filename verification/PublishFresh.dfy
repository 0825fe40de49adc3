/** What every step of publishing keeps about what managers serve. */
module PublishFresh {
  import opened Publish
  import opened PublishSafety
  import opened PublishStops
  import Sup = Supervisor

  /** The mapped manager of `x`, if it has read the registry, serves `v`. */
  ghost predicate ServesOnly(sup: Managers, x: string, v: Served) {
    x in sup.running && sup.running[x] < |sup.managers| && sup.managers[sup.running[x]].phase.Serving? ==>
      sup.managers[sup.running[x]].phase.what == v
  }

  ghost predicate FreshOne(registry: map<string, Served>, sup: Managers, x: string, v: Served) {
    (x in registry ==> registry[x] == v) && ServesOnly(sup, x, v)
  }

  /** The status of `n` names an export and has caught up with the managers. */
  ghost predicate Settled(w: World, bps: Bps, marks: Marks, n: string) {
    n in bps && n !in marks.uncommitted && bps[n].exported != "" && n in marks.committed
      && Value(w, n, marks.committed[n]).Some?
  }

  ghost predicate FreshOk(w: World, bps: Bps, marks: Marks, registry: map<string, Served>, sup: Managers) {
    forall n :: Settled(w, bps, marks, n) ==>
      FreshOne(registry, sup, bps[n].exported, Value(w, n, marks.committed[n]).value)
  }

  predicate AfterSet(pc: Pc) { pc.Taking? || pc.Cancelling? || pc.Ensuring? || pc.Committing? }

  ghost predicate PcFresh(registry: map<string, Served>, sup: Managers, uncommitted: set<string>, pc: Pc) {
    && (AfterSet(pc) && pc.job.changed ==>
          pc.job.name in uncommitted && ExportOf(pc.job) in registry && registry[ExportOf(pc.job)] == pc.job.served)
    && (pc.Committing? && pc.job.changed ==> ServesOnly(sup, ExportOf(pc.job), pc.job.served))
    && (pc.Releasing? && pc.x != "" ==> pc.x !in registry)
  }

  ghost predicate Fresh(w: World, s: State) {
    FreshOk(w, s.bps, s.marks, s.mem.registry, s.sup) && PcFresh(s.mem.registry, s.sup, s.marks.uncommitted, s.pc)
  }

  // ---- What the supervisor's steps do to the served value ----

  lemma ServesKeeps(sup: Managers, step: Sup.Step<Served>, x: string, v: Served)
    requires Sup.Inv(sup) && ServesOnly(sup, x, v)
    requires step.Load? && step.gen < |sup.managers| && sup.managers[step.gen].apiExport == x ==> step.what == v
    ensures ServesOnly(Sup.Do(sup, step), x, v)
  {
  }

  lemma SupStepKeepsFresh(w: World, s: State, step: Sup.Step<Served>)
    requires Sup.Inv(s.sup) && FreshOk(w, s.bps, s.marks, s.mem.registry, s.sup)
    requires step.Load? && step.gen < |s.sup.managers| ==>
      s.sup.managers[step.gen].apiExport in s.mem.registry
        && s.mem.registry[s.sup.managers[step.gen].apiExport] == step.what
    ensures FreshOk(w, s.bps, s.marks, s.mem.registry, Sup.Do(s.sup, step))
  {
    forall n | Settled(w, s.bps, s.marks, n)
      ensures FreshOne(s.mem.registry, Sup.Do(s.sup, step), s.bps[n].exported, Value(w, n, s.marks.committed[n]).value)
    {
      ServesKeeps(s.sup, step, s.bps[n].exported, Value(w, n, s.marks.committed[n]).value);
    }
  }

  lemma ManagerKeepsFresh(w: World, s: State, s': State, step: Sup.Step<Served>)
    requires Sup.Inv(s.sup) && Fresh(w, s) && s' == s.(sup := Sup.Do(s.sup, step))
    requires (step.Load? || step.Exit? || step.Forget?)
    requires step.Load? && step.gen < |s.sup.managers| ==>
      s.sup.managers[step.gen].apiExport in s.mem.registry
        && s.mem.registry[s.sup.managers[step.gen].apiExport] == step.what
    ensures Fresh(w, s')
  {
    SupStepKeepsFresh(w, s, step);
    if s.pc.Committing? && s.pc.job.changed { ServesKeeps(s.sup, step, ExportOf(s.pc.job), s.pc.job.served); }
  }

  // ---- The steps of the machine ----

  lemma SetKeepsFresh(w: World, s: State)
    requires WorldOk(w) && Core(w, s) && Fresh(w, s) && s.pc.Setting?
    ensures Fresh(w, DoLocal(w, s))
  {
    var s', job := DoLocal(w, s), s.pc.job;
    if !job.changed { UnchangedExport(w, s); }
    forall n | Settled(w, s.bps, s'.marks, n)
      ensures FreshOne(s'.mem.registry, s.sup, s.bps[n].exported, Value(w, n, s.marks.committed[n]).value)
    {
      assert Settled(w, s.bps, s.marks, n);
      if s.bps[n].exported == ExportOf(job) { JobOwnsExport(w, s, n); }
    }
  }

  lemma LocalKeepsFresh(w: World, s: State)
    requires WorldOk(w) && Core(w, s) && Stops(s) && Fresh(w, s) && !IsCall(s.pc)
    ensures Fresh(w, DoLocal(w, s))
  {
    var pc, s' := s.pc, DoLocal(w, s);
    if pc.Setting? { SetKeepsFresh(w, s); }
    else if pc.Taking? { SupStepKeepsFresh(w, s, Sup.Take(0, ExportOf(pc.job))); SameSettled(w, s, s'); }
    else if pc.Halting? { SupStepKeepsFresh(w, s, Sup.Take(0, pc.x)); SameSettled(w, s, s'); }
    else if pc.Cancelling? || pc.Halted? { SupStepKeepsFresh(w, s, Sup.Cancel(0)); }
    else if pc.Ensuring? { SupStepKeepsFresh(w, s, Sup.Ensure(ExportOf(pc.job))); SameSettled(w, s, s'); }
    else if pc.Unregistering? { UnregisterKeepsFresh(w, s); }
  }

  lemma SameSettled(w: World, s: State, s': State)
    requires s'.bps == s.bps && s'.marks.uncommitted == s.marks.uncommitted && s'.marks.committed == s.marks.committed
    requires FreshOk(w, s.bps, s.marks, s'.mem.registry, s'.sup)
    ensures FreshOk(w, s'.bps, s'.marks, s'.mem.registry, s'.sup)
  {
    forall n | Settled(w, s'.bps, s'.marks, n)
      ensures FreshOne(s'.mem.registry, s'.sup, s'.bps[n].exported, Value(w, n, s'.marks.committed[n]).value)
    {
      assert Settled(w, s.bps, s.marks, n);
    }
  }

  lemma UnregisterKeepsFresh(w: World, s: State)
    requires Fresh(w, s) && s.pc.Unregistering?
    ensures Fresh(w, DoLocal(w, s))
  {
  }

  lemma CommitKeepsFresh(w: World, s: State)
    requires WorldOk(w) && Core(w, s) && Fresh(w, s) && s.pc.Committing?
    ensures Fresh(w, DoCommit(w, s))
  {
    var s', job := DoCommit(w, s), s.pc.job;
    if !job.changed { UnchangedExport(w, s); }
    forall n | Settled(w, s'.bps, s'.marks, n)
      ensures FreshOne(s.mem.registry, s.sup, s'.bps[n].exported, Value(w, n, s'.marks.committed[n]).value)
    {
      if n != job.name || !job.changed { assert Settled(w, s.bps, s.marks, n); }
    }
  }

  /** Neither registry, managers, marks nor any exported name change. */
  ghost predicate Quiet(s: State, s': State) {
    && s'.marks == s.marks && s'.mem.registry == s.mem.registry && s'.sup == s.sup
    && (forall n :: n in s'.bps && s'.bps[n].exported != "" ==> n in s.bps && s.bps[n].exported == s'.bps[n].exported)
    && (AfterSet(s'.pc) || s'.pc.Releasing? ==> s'.pc == s.pc)
  }

  lemma QuietKeepsFresh(w: World, s: State, s': State)
    requires Fresh(w, s) && Quiet(s, s')
    ensures Fresh(w, s')
  {
    forall n | Settled(w, s'.bps, s'.marks, n)
      ensures FreshOne(s'.mem.registry, s'.sup, s'.bps[n].exported, Value(w, n, s'.marks.committed[n]).value)
    {
      assert Settled(w, s.bps, s.marks, n);
    }
  }

  lemma CallIsQuiet(w: World, s: State, op: Op)
    requires IsCall(s.pc) && (s.pc.Committing? ==> op.Fails?)
    ensures Quiet(s, DoCall(w, s, op))
  {
  }

  lemma EditIsQuiet(w: World, s: State, step: Step)
    requires step.Create? || step.Edit? || step.Delete?
    ensures Quiet(s, DoEdit(w, s, step))
  {
  }

  lemma CallKeepsFresh(w: World, s: State, op: Op)
    requires WorldOk(w) && Core(w, s) && Fresh(w, s) && IsCall(s.pc)
    ensures Fresh(w, DoCall(w, s, op))
  {
    if s.pc.Committing? && !op.Fails? {
      CommitKeepsFresh(w, s);
    } else {
      CallIsQuiet(w, s, op);
      QuietKeepsFresh(w, s, DoCall(w, s, op));
    }
  }

  lemma OutsideKeepsFresh(w: World, s: State, step: Step)
    requires Fresh(w, s) && (step.Create? || step.Edit? || step.Delete? || step.Begin?)
    ensures Fresh(w, Do(w, s, step))
  {
    if !step.Begin? { EditIsQuiet(w, s, step); }
    QuietKeepsFresh(w, s, Do(w, s, step));
  }

  lemma FreshKeeps(w: World, s: State, step: Step)
    requires WorldOk(w) && Core(w, s) && Stops(s) && Fresh(w, s)
    ensures Fresh(w, Do(w, s, step))
  {
    match step
    case Work(op) => if IsCall(s.pc) { CallKeepsFresh(w, s, op); } else { LocalKeepsFresh(w, s); }
    case Load(g) =>
      if g < |s.sup.managers| {
        var x := s.sup.managers[g].apiExport;
        var life := if x in s.mem.registry then Sup.Load(g, s.mem.registry[x]) else Sup.Exit(g);
        ManagerKeepsFresh(w, s, DoLoad(s, g), life);
      }
    case Quit(g) => ManagerKeepsFresh(w, s, Do(w, s, step), Sup.Exit(g));
    case Clear(g) => ManagerKeepsFresh(w, s, Do(w, s, step), Sup.Forget(g));
    case Restart =>
    case _ => OutsideKeepsFresh(w, s, step);
  }
}
