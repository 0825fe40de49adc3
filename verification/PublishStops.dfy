/** What every step of publishing keeps about managers: which were stopped, which
    exited, and which of the exports still has one. */
module PublishStops {
  import opened Publish
  import opened PublishSafety
  import Sup = Supervisor

  type Managers = Sup.State<Served>

  /** No later manager was started for the same export. */
  predicate Last(sup: Managers, g: nat)
    requires g < |sup.managers|
  {
    forall h :: g < h < |sup.managers| ==> sup.managers[h].apiExport != sup.managers[g].apiExport
  }

  /** The last manager of an export is the mapped one, or the registrar stopped it, or
      it exited by itself. */
  ghost predicate LastOk(sup: Managers, stopped: set<string>, g: nat)
    requires g < |sup.managers|
  {
    var m := sup.managers[g];
    if m.apiExport in sup.running then sup.running[m.apiExport] == g
    else m.apiExport in stopped || (m.phase.Forgotten? && !m.cancelled)
  }

  ghost predicate LastsOk(sup: Managers, stopped: set<string>) {
    forall g :: 0 <= g < |sup.managers| && Last(sup, g) ==> LastOk(sup, stopped, g)
  }

  /** Only the worker stops managers; what it holds belongs to a stopped export. */
  ghost predicate HeldOk(sup: Managers, stopped: set<string>, pc: Pc) {
    forall c :: c in sup.held ==>
      c == 0 && (pc.Cancelling? || pc.Halted?) && sup.held[c] < |sup.managers|
        && sup.managers[sup.held[c]].apiExport in stopped
  }

  ghost predicate SupOk(sup: Managers, stopped: set<string>, pc: Pc) {
    Sup.Inv(sup) && LastsOk(sup, stopped) && HeldOk(sup, stopped, pc)
  }

  /** The export of a status is stopped only while being restarted or withdrawn. */
  ghost predicate StopsOk(bps: Bps, stopped: set<string>, pc: Pc) {
    forall n :: n in bps && bps[n].exported in stopped && bps[n].exported != "" ==>
      bps[n].deleting || ((pc.Cancelling? || pc.Ensuring?) && ExportOf(pc.job) == bps[n].exported)
  }

  ghost predicate PcStops(sup: Managers, stopped: set<string>, pc: Pc) {
    && (OnJob(pc) && !pc.job.changed ==> ExportOf(pc.job) !in stopped && !pc.Taking? && !pc.Cancelling?)
    && (pc.Cancelling? || (pc.Ensuring? && pc.job.changed) ==>
          ExportOf(pc.job) in stopped && ExportOf(pc.job) !in sup.running)
    && (pc.Committing? ==> ExportOf(pc.job) !in stopped)
    && (pc.Halted? || pc.Unregistering? || (pc.Releasing? && pc.x != "") ==> pc.x in stopped && pc.x !in sup.running)
    && (pc.Halting? || pc.Unregistering? || pc.Halted? ==> pc.x != "")
  }

  /** A pass begins while the export of its blueprint's status is not stopped. */
  ghost predicate BuildStops(bps: Bps, stopped: set<string>, pc: Pc) {
    pc.Building? && pc.name in bps && bps[pc.name].exported != "" ==> bps[pc.name].exported !in stopped
  }

  ghost predicate Stops(s: State) {
    && SupOk(s.sup, s.marks.stopped, s.pc) && PcStops(s.sup, s.marks.stopped, s.pc)
    && StopsOk(s.bps, s.marks.stopped, s.pc) && BuildStops(s.bps, s.marks.stopped, s.pc)
  }

  // ---- The supervisor's steps ----

  lemma TakeKeepsSup(sup: Managers, stopped: set<string>, pc: Pc, x: string, pc': Pc)
    requires SupOk(sup, stopped, pc) && !pc.Cancelling? && !pc.Halted? && (pc'.Cancelling? || pc'.Halted?)
    ensures SupOk(Sup.Do(sup, Sup.Take(0, x)), stopped + {x}, pc') && x !in Sup.Do(sup, Sup.Take(0, x)).running
  {
    Sup.TakeKeeps(sup, 0, x);
    var sup' := Sup.Do(sup, Sup.Take(0, x));
    assert 0 !in sup.held;
    forall g | 0 <= g < |sup'.managers| && Last(sup', g) ensures LastOk(sup', stopped + {x}, g) {
      assert Last(sup, g);
    }
  }

  lemma CancelKeepsSup(sup: Managers, stopped: set<string>, pc: Pc, pc': Pc)
    requires SupOk(sup, stopped, pc)
    ensures SupOk(Sup.Do(sup, Sup.Cancel(0)), stopped, pc') && Sup.Do(sup, Sup.Cancel(0)).running == sup.running
  {
    Sup.CancelKeeps(sup, 0);
    var sup' := Sup.Do(sup, Sup.Cancel(0));
    forall g | 0 <= g < |sup'.managers| && Last(sup', g) ensures LastOk(sup', stopped, g) {
      forall h | g < h < |sup.managers| ensures sup.managers[h].apiExport != sup.managers[g].apiExport {
        assert sup'.managers[h].apiExport != sup'.managers[g].apiExport;
      }
      assert Last(sup, g);
    }
  }

  lemma EnsureKeepsSup(sup: Managers, stopped: set<string>, pc: Pc, x: string, pc': Pc)
    requires SupOk(sup, stopped, pc) && !pc.Cancelling? && !pc.Halted?
    ensures SupOk(Sup.Do(sup, Sup.Ensure(x)), stopped - {x}, pc')
    ensures forall y :: y != x && y !in sup.running ==> y !in Sup.Do(sup, Sup.Ensure(x)).running
  {
    Sup.EnsureKeeps(sup, x);
    var sup' := Sup.Do(sup, Sup.Ensure(x));
    forall g | 0 <= g < |sup'.managers| && Last(sup', g) ensures LastOk(sup', stopped - {x}, g) {
      if g < |sup.managers| {
        forall h | g < h < |sup.managers| ensures sup.managers[h].apiExport != sup.managers[g].apiExport {
          assert sup'.managers[h].apiExport != sup'.managers[g].apiExport;
        }
        assert Last(sup, g);
        assert |sup'.managers| > |sup.managers| ==>
          sup'.managers[|sup.managers|].apiExport != sup'.managers[g].apiExport;
      }
    }
  }

  lemma LifeKeepsLast(sup: Managers, stopped: set<string>, step: Sup.Step<Served>, g: nat)
    requires Sup.Inv(sup) && LastsOk(sup, stopped) && (step.Load? || step.Exit? || step.Forget?)
    requires g < |sup.managers| && Last(Sup.Do(sup, step), g)
    ensures LastOk(Sup.Do(sup, step), stopped, g)
  {
    var sup' := Sup.Do(sup, step);
    forall h | g < h < |sup.managers| ensures sup.managers[h].apiExport != sup.managers[g].apiExport {
      assert sup'.managers[h].apiExport != sup'.managers[g].apiExport;
    }
    assert Last(sup, g) && Sup.ManagerOk(sup, g);
  }

  lemma LifeMapsNone(sup: Managers, step: Sup.Step<Served>)
    requires step.Load? || step.Exit? || step.Forget?
    ensures forall y :: y !in sup.running ==> y !in Sup.Do(sup, step).running
    ensures |Sup.Do(sup, step).managers| == |sup.managers| && Sup.Do(sup, step).held == sup.held
  {
  }

  /** Loading, returning and being forgotten. */
  lemma LifeKeepsSup(sup: Managers, stopped: set<string>, pc: Pc, step: Sup.Step<Served>)
    requires SupOk(sup, stopped, pc) && (step.Load? || step.Exit? || step.Forget?)
    ensures SupOk(Sup.Do(sup, step), stopped, pc)
    ensures forall y :: y !in sup.running ==> y !in Sup.Do(sup, step).running
  {
    Sup.LifeKeeps(sup, step);
    LifeMapsNone(sup, step);
    var sup' := Sup.Do(sup, step);
    forall g | 0 <= g < |sup'.managers| && Last(sup', g) ensures LastOk(sup', stopped, g) {
      LifeKeepsLast(sup, stopped, step, g);
    }
  }

  lemma NewPcKeepsSup(sup: Managers, stopped: set<string>, pc: Pc, pc': Pc)
    requires SupOk(sup, stopped, pc) && !pc.Cancelling? && !pc.Halted?
    ensures SupOk(sup, stopped, pc')
  {
  }

  // ---- The steps of the machine ----

  /** Other blueprints never have the job's export. */
  lemma JobOwnsExport(w: World, s: State, n: string)
    requires WorldOk(w) && Core(w, s) && OnJob(s.pc) && n in s.bps && s.bps[n].exported == ExportOf(s.pc.job)
    ensures n == s.pc.job.name
  {
    assert BpOk(w, s.marks.committed, n, s.bps[n]);
    assert SameExport(w, n, s.marks.committed[n], s.pc.job.name, s.pc.job.spec);
  }

  /** An unchanged pass is about the export its status names. */
  lemma UnchangedExport(w: World, s: State)
    requires WorldOk(w) && Core(w, s) && OnJob(s.pc) && !s.pc.job.changed
    ensures s.bps[s.pc.job.name].exported == ExportOf(s.pc.job) && s.pc.job.name in s.marks.committed
    ensures s.marks.committed[s.pc.job.name] == s.pc.job.spec
  {
    assert BpOk(w, s.marks.committed, s.pc.job.name, s.bps[s.pc.job.name]);
  }

  lemma LocalKeepsStops(w: World, s: State)
    requires WorldOk(w) && Core(w, s) && Stops(s) && !IsCall(s.pc)
    ensures Stops(DoLocal(w, s))
  {
    var pc, s' := s.pc, DoLocal(w, s);
    if pc.Taking? {
      TakeKeepsSup(s.sup, s.marks.stopped, pc, ExportOf(pc.job), s'.pc);
    } else if pc.Halting? {
      TakeKeepsSup(s.sup, s.marks.stopped, pc, pc.x, s'.pc);
      forall n | n in s.bps && s.bps[n].exported == pc.x ensures s.bps[n].deleting { NamesakeIsSame(w, s, n, pc.name); }
    } else if pc.Cancelling? || pc.Halted? {
      CancelKeepsSup(s.sup, s.marks.stopped, pc, s'.pc);
    } else if pc.Ensuring? {
      EnsureKeepsSup(s.sup, s.marks.stopped, pc, ExportOf(pc.job), s'.pc);
    } else {
      NewPcKeepsSup(s.sup, s.marks.stopped, pc, s'.pc);
    }
  }

  lemma NamesakeIsSame(w: World, s: State, n: string, m: string)
    requires WorldOk(w) && Core(w, s) && n in s.bps && m in s.bps && s.bps[n].exported == s.bps[m].exported != ""
    ensures n == m
  {
    assert BpOk(w, s.marks.committed, n, s.bps[n]) && BpOk(w, s.marks.committed, m, s.bps[m]);
    assert SameExport(w, n, s.marks.committed[n], m, s.marks.committed[m]);
  }

  lemma BuildKeepsStops(w: World, s: State)
    requires WorldOk(w) && Core(w, s) && Stops(s) && s.pc.Building?
    ensures Stops(DoBuild(w, s, s.pc.name, s.pc.spec, s.pc.changed))
  {
    var s' := DoBuild(w, s, s.pc.name, s.pc.spec, s.pc.changed);
    NewPcKeepsSup(s.sup, s.marks.stopped, s.pc, s'.pc);
    BuildKeepsCore(w, s);
    if s'.pc.Applying? && !s'.pc.job.changed { UnchangedExport(w, s'); }
  }

  lemma GuardKeepsStops(w: World, s: State, op: Op)
    requires Core(w, s) && Stops(s) && s.pc.Guarding?
    ensures Stops(DoGuard(s, op))
  {
    NewPcKeepsSup(s.sup, s.marks.stopped, s.pc, DoGuard(s, op).pc);
    if s.pc.name in s.bps { assert BpOk(w, s.marks.committed, s.pc.name, s.bps[s.pc.name]); }
  }

  lemma PublishKeepsStops(w: World, s: State, op: Op)
    requires Stops(s) && (s.pc.Applying? || s.pc.Upserting?)
    ensures Stops(DoPublish(w, s, op))
  {
    NewPcKeepsSup(s.sup, s.marks.stopped, s.pc, DoPublish(w, s, op).pc);
  }

  lemma CommitKeepsStops(w: World, s: State)
    requires Stops(s) && s.pc.Committing?
    ensures Stops(DoCommit(w, s))
  {
    NewPcKeepsSup(s.sup, s.marks.stopped, s.pc, DoCommit(w, s).pc);
  }

  lemma WithdrawKeepsStops(s: State, op: Op)
    requires Stops(s) && (s.pc.Fetching? || s.pc.Erasing? || s.pc.Releasing?)
    ensures Stops(DoWithdraw(s, op))
  {
    NewPcKeepsSup(s.sup, s.marks.stopped, s.pc, DoWithdraw(s, op).pc);
  }

  lemma CallKeepsStops(w: World, s: State, op: Op)
    requires WorldOk(w) && Core(w, s) && Stops(s) && IsCall(s.pc)
    ensures Stops(DoCall(w, s, op))
  {
    if op.Fails? { NewPcKeepsSup(s.sup, s.marks.stopped, s.pc, Idle); }
    else if s.pc.Guarding? { GuardKeepsStops(w, s, op); }
    else if s.pc.Building? { BuildKeepsStops(w, s); }
    else if s.pc.Applying? || s.pc.Upserting? { PublishKeepsStops(w, s, op); }
    else if s.pc.Committing? { CommitKeepsStops(w, s); }
    else { WithdrawKeepsStops(s, op); }
  }

  lemma EditKeepsStops(w: World, s: State, step: Step)
    requires Core(w, s) && Stops(s) && (step.Create? || step.Edit? || step.Delete?)
    ensures Stops(DoEdit(w, s, step))
  {
  }

  lemma BeginKeepsStops(w: World, s: State, n: string)
    requires Stops(s)
    ensures Stops(BeginPass(w, s, n))
  {
    if s.pc.Idle? { NewPcKeepsSup(s.sup, s.marks.stopped, s.pc, BeginPass(w, s, n).pc); }
  }

  lemma ManagerKeepsStops(s: State, s': State, step: Sup.Step<Served>)
    requires Stops(s) && s' == s.(sup := Sup.Do(s.sup, step)) && (step.Load? || step.Exit? || step.Forget?)
    ensures Stops(s')
  {
    LifeKeepsSup(s.sup, s.marks.stopped, s.pc, step);
  }

  lemma StopsKeep(w: World, s: State, step: Step)
    requires WorldOk(w) && Core(w, s) && Stops(s)
    ensures Stops(Do(w, s, step))
  {
    match step
    case Work(op) => if IsCall(s.pc) { CallKeepsStops(w, s, op); } else { LocalKeepsStops(w, s); }
    case Load(g) =>
      if g < |s.sup.managers| {
        var x := s.sup.managers[g].apiExport;
        ManagerKeepsStops(s, DoLoad(s, g), if x in s.mem.registry then Sup.Load(g, s.mem.registry[x]) else Sup.Exit(g));
      }
    case Quit(g) => ManagerKeepsStops(s, Do(w, s, step), Sup.Exit(g));
    case Clear(g) => ManagerKeepsStops(s, Do(w, s, step), Sup.Forget(g));
    case Begin(n) => BeginKeepsStops(w, s, n);
    case Create(_, _) => EditKeepsStops(w, s, step);
    case Edit(_, _) => EditKeepsStops(w, s, step);
    case Delete(_) => EditKeepsStops(w, s, step);
    case Restart =>
  }
}
