/** What publishing leaves behind, and the exact conditions: when every export is named
    by some status, every schema referenced by some export, and every manager serving
    what the status shows. */
module PublishRemains {
  import opened Routing
  import opened Publish
  import opened PublishSafety
  import opened PublishStops
  import opened PublishApi
  import opened PublishTheorems
  import opened PublishRuns
  import Sup = Supervisor

  // ---- Exports ----

  /** A publish that has written its export goes on to write its status. */
  predicate Commits(pc: Pc, step: Step) {
    && (pc.Upserting? ==> step != Work(Lost))
    && (Upserted(pc) ==> step != Restart)
    && (pc.Committing? ==> step != Work(Fails))
  }

  ghost predicate CommittedRun(w: World, steps: seq<Step>) {
    forall i :: 0 <= i < |steps| ==> Commits(Exec(w, steps[..i]).pc, steps[i])
  }

  /** A pass over a published blueprint is about the export its status names. */
  predicate KeepsExport(s: State) {
    OnJob(s.pc) && s.pc.job.name in s.bps && s.bps[s.pc.job.name].exported != "" ==>
      s.bps[s.pc.job.name].exported == ExportOf(s.pc.job)
  }

  ghost predicate NamedBy(bps: Bps, x: string, n: string) { n in bps && bps[n].exported == x }

  ghost predicate Named(bps: Bps, x: string) { x != "" && exists n :: NamedBy(bps, x, n) }

  ghost predicate AllNamed(bps: Bps, exports: map<string, seq<string>>, pc: Pc) {
    forall x :: x in exports ==> Named(bps, x) || (Upserted(pc) && x == ExportOf(pc.job))
  }

  lemma StaysNamed(bps: Bps, bps': Bps, exports: map<string, seq<string>>, exports': map<string, seq<string>>, pc: Pc,
                   pc': Pc)
    requires AllNamed(bps, exports, pc) && exports'.Keys <= exports.Keys
    requires Upserted(pc) ==> Upserted(pc') && pc'.job == pc.job
    requires forall n :: n in bps && bps[n].exported in exports' && bps[n].exported != "" ==>
      n in bps' && bps'[n].exported == bps[n].exported
    ensures AllNamed(bps', exports', pc')
  {
    forall x | x in exports' && !(Upserted(pc') && x == ExportOf(pc'.job)) ensures Named(bps', x) {
      var n :| NamedBy(bps, x, n);
      assert NamedBy(bps', x, n);
    }
  }

  lemma UpsertKeepsNamed(w: World, s: State, op: Op)
    requires AllNamed(s.bps, s.api.exports, s.pc) && s.pc.Upserting? && op.Go?
    ensures var s' := DoPublish(w, s, op); AllNamed(s'.bps, s'.api.exports, s'.pc)
  {
  }

  lemma CommitKeepsNamed(w: World, s: State)
    requires Core(w, s) && AllNamed(s.bps, s.api.exports, s.pc) && s.pc.Committing? && KeepsExport(s)
    ensures var s' := DoCommit(w, s); AllNamed(s'.bps, s'.api.exports, s'.pc)
  {
    var s', job := DoCommit(w, s), s.pc.job;
    assert ExportOf(job) != "" && NamedBy(s'.bps, ExportOf(job), job.name);
    forall x | x in s'.api.exports ensures Named(s'.bps, x) {
      if x != ExportOf(job) {
        var n :| NamedBy(s.bps, x, n);
        assert NamedBy(s'.bps, x, n);
      }
    }
  }

  lemma WithdrawKeepsNamed(w: World, s: State, op: Op)
    requires Core(w, s) && ApiOk(w, s) && AllNamed(s.bps, s.api.exports, s.pc)
    requires s.pc.Fetching? || s.pc.Erasing? || s.pc.Releasing?
    ensures var s' := DoWithdraw(s, op); AllNamed(s'.bps, s'.api.exports, s'.pc)
  {
    var s' := DoWithdraw(s, op);
    StaysNamed(s.bps, s'.bps, s.api.exports, s'.api.exports, s.pc, s'.pc);
  }

  lemma QuietCallKeepsNamed(w: World, s: State, op: Op)
    requires AllNamed(s.bps, s.api.exports, s.pc) && IsCall(s.pc)
    requires op.Fails? || s.pc.Guarding? || s.pc.Building? || s.pc.Applying?
    requires Commits(s.pc, Work(op))
    ensures var s' := DoCall(w, s, op); AllNamed(s'.bps, s'.api.exports, s'.pc)
  {
    var s' := DoCall(w, s, op);
    StaysNamed(s.bps, s'.bps, s.api.exports, s'.api.exports, s.pc, s'.pc);
  }

  lemma CallKeepsNamed(w: World, s: State, op: Op)
    requires Core(w, s) && ApiOk(w, s) && AllNamed(s.bps, s.api.exports, s.pc) && IsCall(s.pc)
    requires Commits(s.pc, Work(op)) && KeepsExport(s)
    ensures var s' := DoCall(w, s, op); AllNamed(s'.bps, s'.api.exports, s'.pc)
  {
    if s.pc.Committing? { CommitKeepsNamed(w, s); }
    else if op.Fails? || s.pc.Guarding? || s.pc.Building? || s.pc.Applying? { QuietCallKeepsNamed(w, s, op); }
    else if s.pc.Upserting? { UpsertKeepsNamed(w, s, op); }
    else { WithdrawKeepsNamed(w, s, op); }
  }

  lemma LocalKeepsNamed(w: World, s: State)
    requires AllNamed(s.bps, s.api.exports, s.pc) && !IsCall(s.pc)
    ensures var s' := DoLocal(w, s); AllNamed(s'.bps, s'.api.exports, s'.pc)
  {
    var s' := DoLocal(w, s);
    StaysNamed(s.bps, s'.bps, s.api.exports, s'.api.exports, s.pc, s'.pc);
  }

  lemma EditKeepsNamed(w: World, s: State, step: Step)
    requires Core(w, s) && AllNamed(s.bps, s.api.exports, s.pc) && (step.Create? || step.Edit? || step.Delete?)
    ensures var s' := DoEdit(w, s, step); AllNamed(s'.bps, s'.api.exports, s'.pc)
  {
    var s' := DoEdit(w, s, step);
    if step.name in s.bps { assert BpOk(w, s.marks.committed, step.name, s.bps[step.name]); }
    StaysNamed(s.bps, s'.bps, s.api.exports, s'.api.exports, s.pc, s'.pc);
  }

  lemma StepKeepsNamed(w: World, s: State, step: Step)
    requires Core(w, s) && ApiOk(w, s) && AllNamed(s.bps, s.api.exports, s.pc) && Commits(s.pc, step) && KeepsExport(s)
    ensures var s' := Do(w, s, step); AllNamed(s'.bps, s'.api.exports, s'.pc)
  {
    match step
    case Work(op) => if IsCall(s.pc) { CallKeepsNamed(w, s, op); } else { LocalKeepsNamed(w, s); }
    case Create(_, _) => EditKeepsNamed(w, s, step);
    case Edit(_, _) => EditKeepsNamed(w, s, step);
    case Delete(_) => EditKeepsNamed(w, s, step);
    case _ => StaysNamed(s.bps, s.bps, s.api.exports, s.api.exports, s.pc, Do(w, s, step).pc);
  }

  /** In every run in which a publish that wrote its export also writes its status, and
      passes keep to the export the status names, every export is named by some status
      or by the pass about to name it. */
  lemma {:induction false} ExportsAreNamed(w: World, steps: seq<Step>)
    requires WorldOk(w) && CommittedRun(w, steps) && forall i :: 0 <= i < |steps| ==> KeepsExport(Exec(w, steps[..i]))
    ensures var s := Exec(w, steps); AllNamed(s.bps, s.api.exports, s.pc)
  {
    if steps != [] {
      var front := steps[..|steps| - 1];
      assert forall i :: 0 <= i < |front| ==> front[..i] == steps[..i];
      ExportsAreNamed(w, front);
      Reachable(w, front);
      StepKeepsNamed(w, Exec(w, front), steps[|steps| - 1]);
    }
  }

  /** All buildable specs of one blueprint give the same export. */
  ghost predicate OneExport(w: World) {
    forall n, a, b :: a in w.specs && b in w.specs && Value(w, n, a).Some? && Value(w, n, b).Some? ==>
      Value(w, n, a).value.graph.ApiExport() == Value(w, n, b).value.graph.ApiExport()
  }

  lemma OneExportIsKept(w: World, steps: seq<Step>)
    requires WorldOk(w) && OneExport(w)
    ensures KeepsExport(Exec(w, steps))
  {
    var s := Exec(w, steps);
    Reachable(w, steps);
    if OnJob(s.pc) && s.bps[s.pc.job.name].exported != "" {
      assert BpOk(w, s.marks.committed, s.pc.job.name, s.bps[s.pc.job.name]);
    }
  }

  lemma {:induction false} SmoothSteps(steps: seq<Step>)
    requires Bumps(steps) == 0
    ensures forall i :: 0 <= i < |steps| ==> Smooth(steps[i])
  {
    if steps != [] {
      var front := steps[..|steps| - 1];
      SmoothSteps(front);
      assert forall i :: 0 <= i < |front| ==> steps[i] == front[i];
    }
  }

  ghost predicate NothingUnnamed(w: World, steps: seq<Step>) {
    var s := Exec(w, steps);
    CommittedRun(w, steps) && s.pc.Idle? ==> forall x :: x in s.api.exports ==> Named(s.bps, x)
  }

  /** If every publish commits, an idle registrar leaves no export unnamed in any run if
      and only if edits never rename a blueprint's export. */
  lemma NothingUnnamedExactly(w: World)
    requires WorldOk(w)
    ensures OneExport(w) <==> forall steps :: NothingUnnamed(w, steps)
  {
    if OneExport(w) {
      forall steps ensures NothingUnnamed(w, steps) {
        if CommittedRun(w, steps) {
          forall i | 0 <= i < |steps| ensures KeepsExport(Exec(w, steps[..i])) { OneExportIsKept(w, steps[..i]); }
          ExportsAreNamed(w, steps);
        }
      }
    } else {
      var n, a, b :| a in w.specs && b in w.specs && Value(w, n, a).Some? && Value(w, n, b).Some?
        && Value(w, n, a).value.graph.ApiExport() != Value(w, n, b).value.graph.ApiExport();
      var steps := RenamedExportIsLeft(w, n, a, b, Value(w, n, a).value, Value(w, n, b).value);
      SmoothSteps(steps);
      var s, x := Exec(w, steps), Value(w, n, a).value.graph.ApiExport();
      assert forall m :: !NamedBy(s.bps, x, m);
      assert !Named(s.bps, x);
      assert !NothingUnnamed(w, steps);
    }
  }

  // ---- Schemas ----

  /** A publish that has written its schema goes on to write its export and status. */
  predicate CommitsWhole(pc: Pc, step: Step) {
    && Commits(pc, step)
    && (pc.Applying? ==> step != Work(Lost))
    && (pc.Upserting? ==> step != Work(Fails) && step != Restart)
  }

  ghost predicate WholeRun(w: World, steps: seq<Step>) {
    forall i :: 0 <= i < |steps| ==> CommitsWhole(Exec(w, steps[..i]).pc, steps[i])
  }

  /** A pass over a published blueprint is about the spec its status shows. */
  predicate KeepsSpec(s: State) {
    OnJob(s.pc) && s.pc.job.name in s.bps && s.bps[s.pc.job.name].exported != "" ==> !s.pc.job.changed
  }

  ghost predicate Referenced(exports: map<string, seq<string>>, sn: string) {
    exists x :: x in exports && sn in exports[x]
  }

  ghost predicate AllReferenced(w: World, api: Api, pc: Pc) {
    forall sn :: sn in api.schemas ==> Referenced(api.exports, sn) || (pc.Upserting? && sn == SchemaOf(w, pc.job))
  }

  /** The pass about to write its export drops no other reference. */
  predicate DropsNothing(w: World, s: State) {
    s.pc.Upserting? && ExportOf(s.pc.job) in s.api.exports ==>
      s.api.exports[ExportOf(s.pc.job)] == [SchemaOf(w, s.pc.job)]
  }

  lemma StaysReferenced(w: World, api: Api, api': Api, pc: Pc, pc': Pc)
    requires AllReferenced(w, api, pc) && (pc.Upserting? ==> pc' == pc)
    requires forall sn :: sn in api'.schemas ==> sn in api.schemas
    requires forall x :: x in api.exports && x !in api'.exports ==>
      forall sn :: sn in api.exports[x] ==> sn !in api'.schemas
    requires forall x :: x in api.exports && x in api'.exports ==> api'.exports[x] == api.exports[x]
    ensures AllReferenced(w, api', pc')
  {
    forall sn | sn in api'.schemas && Referenced(api.exports, sn) ensures Referenced(api'.exports, sn) {
      var x :| x in api.exports && sn in api.exports[x];
      assert x in api'.exports && sn in api'.exports[x];
    }
  }

  lemma UpsertKeepsReferenced(w: World, s: State)
    requires AllReferenced(w, s.api, s.pc) && s.pc.Upserting? && DropsNothing(w, s)
    ensures var s' := DoPublish(w, s, Go); AllReferenced(w, s'.api, s'.pc)
  {
    var s', x, sn := DoPublish(w, s, Go), ExportOf(s.pc.job), SchemaOf(w, s.pc.job);
    forall m | m in s'.api.schemas ensures Referenced(s'.api.exports, m) {
      if m == sn {
        assert x in s'.api.exports && m in s'.api.exports[x];
      } else {
        var y :| y in s.api.exports && m in s.api.exports[y];
        assert y in s'.api.exports && m in s'.api.exports[y];
      }
    }
  }

  lemma WithdrawKeepsReferenced(w: World, s: State, op: Op)
    requires ApiOk(w, s) && AllReferenced(w, s.api, s.pc) && (s.pc.Fetching? || s.pc.Erasing? || s.pc.Releasing?)
    ensures var s' := DoWithdraw(s, op); AllReferenced(w, s'.api, s'.pc)
  {
    var s' := DoWithdraw(s, op);
    StaysReferenced(w, s.api, s'.api, s.pc, s'.pc);
  }

  lemma CallKeepsReferenced(w: World, s: State, op: Op)
    requires ApiOk(w, s) && AllReferenced(w, s.api, s.pc) && IsCall(s.pc)
    requires CommitsWhole(s.pc, Work(op)) && DropsNothing(w, s)
    ensures var s' := DoCall(w, s, op); AllReferenced(w, s'.api, s'.pc)
  {
    if s.pc.Upserting? { UpsertKeepsReferenced(w, s); }
    else if op.Fails? { StaysReferenced(w, s.api, s.api, s.pc, Idle); }
    else if s.pc.Fetching? || s.pc.Erasing? || s.pc.Releasing? { WithdrawKeepsReferenced(w, s, op); }
    else if !s.pc.Applying? { StaysReferenced(w, s.api, s.api, s.pc, DoCall(w, s, op).pc); }
  }

  lemma StepKeepsReferenced(w: World, s: State, step: Step)
    requires ApiOk(w, s) && AllReferenced(w, s.api, s.pc) && CommitsWhole(s.pc, step) && DropsNothing(w, s)
    ensures var s' := Do(w, s, step); AllReferenced(w, s'.api, s'.pc)
  {
    if step.Work? && IsCall(s.pc) {
      CallKeepsReferenced(w, s, step.op);
    } else {
      OtherKeepsApi(w, s, step);
      StaysReferenced(w, s.api, s.api, s.pc, Do(w, s, step).pc);
    }
  }

  lemma OtherKeepsApi(w: World, s: State, step: Step)
    requires !(step.Work? && IsCall(s.pc))
    ensures Do(w, s, step).api == s.api && (s.pc.Upserting? && step != Restart ==> Do(w, s, step).pc == s.pc)
  {
  }

  lemma {:induction false} NothingDropped(w: World, steps: seq<Step>)
    requires WorldOk(w) && WholeRun(w, steps) && forall i :: 0 <= i < |steps| ==> DropsNothing(w, Exec(w, steps[..i]))
    ensures AllReferenced(w, Exec(w, steps).api, Exec(w, steps).pc)
  {
    if steps != [] {
      var front := steps[..|steps| - 1];
      assert forall i :: 0 <= i < |front| ==> front[..i] == steps[..i];
      NothingDropped(w, front);
      Reachable(w, front);
      StepKeepsReferenced(w, Exec(w, front), steps[|steps| - 1]);
    }
  }

  // ---- Runs without changes of published specs ----

  /** An export references the schema of the spec its status shows, or the one of the
      pass about to write the status. */
  ghost predicate RefsShown(w: World, bps: Bps, exports: map<string, seq<string>>, pc: Pc) {
    && (forall n :: n in bps && bps[n].exported != "" && bps[n].exported in exports ==>
          exports[bps[n].exported] == [SchemaName(bps[n].observed, bps[n].exported)]
            || (Upserted(pc) && pc.job.name == n))
    && (Upserted(pc) ==> ExportOf(pc.job) in exports && exports[ExportOf(pc.job)] == [SchemaOf(w, pc.job)])
  }

  ghost predicate Tidy(w: World, s: State) {
    AllNamed(s.bps, s.api.exports, s.pc) && RefsShown(w, s.bps, s.api.exports, s.pc)
  }

  lemma KeptSpecKeepsExport(w: World, s: State)
    requires WorldOk(w) && Core(w, s) && KeepsSpec(s)
    ensures KeepsExport(s)
  {
    if OnJob(s.pc) && !s.pc.job.changed { UnchangedExport(w, s); }
  }

  /** Writing the export again changes no reference: it named this schema before. */
  lemma KeptSpecDropsNothing(w: World, s: State)
    requires WorldOk(w) && Core(w, s) && Tidy(w, s) && KeepsSpec(s)
    ensures DropsNothing(w, s)
  {
    if s.pc.Upserting? && ExportOf(s.pc.job) in s.api.exports {
      var n :| NamedBy(s.bps, ExportOf(s.pc.job), n);
      JobOwnsExport(w, s, n);
      UnchangedExport(w, s);
    }
  }

  /** Exports and statuses stay, or some go. */
  ghost predicate LeavesShown(s: State, s': State) {
    && (forall x :: x in s'.api.exports ==> x in s.api.exports && s'.api.exports[x] == s.api.exports[x])
    && (Upserted(s.pc) || Upserted(s'.pc) ==>
          Upserted(s.pc) && Upserted(s'.pc) && s'.pc.job == s.pc.job && s'.api.exports == s.api.exports)
    && (forall n :: n in s'.bps && s'.bps[n].exported != "" ==>
          n in s.bps && s'.bps[n].exported == s.bps[n].exported && s'.bps[n].observed == s.bps[n].observed)
  }

  lemma StaysShown(w: World, s: State, s': State)
    requires RefsShown(w, s.bps, s.api.exports, s.pc) && LeavesShown(s, s')
    ensures RefsShown(w, s'.bps, s'.api.exports, s'.pc)
  {
  }

  lemma CallLeavesShown(w: World, s: State, op: Op)
    requires IsCall(s.pc) && !s.pc.Upserting? && !s.pc.Committing?
    requires s.pc.Guarding? && s.pc.name in s.bps ==> s.bps[s.pc.name].exported == ""
    ensures LeavesShown(s, DoCall(w, s, op))
  {
  }

  lemma EditLeavesShown(w: World, s: State, step: Step)
    requires step.Create? || step.Edit? || step.Delete?
    ensures LeavesShown(s, DoEdit(w, s, step))
  {
  }

  lemma OtherLeavesShown(w: World, s: State, step: Step)
    requires !(step.Work? && IsCall(s.pc)) && (Upserted(s.pc) ==> step != Restart)
    ensures LeavesShown(s, Do(w, s, step))
  {
    if step.Create? || step.Edit? || step.Delete? { EditLeavesShown(w, s, step); }
  }

  lemma UpsertKeepsShown(w: World, s: State)
    requires WorldOk(w) && Core(w, s) && RefsShown(w, s.bps, s.api.exports, s.pc) && s.pc.Upserting?
    ensures var s' := DoPublish(w, s, Go); RefsShown(w, s'.bps, s'.api.exports, s'.pc)
  {
    forall n | n in s.bps && s.bps[n].exported == ExportOf(s.pc.job)
      ensures n == s.pc.job.name
    {
      JobOwnsExport(w, s, n);
    }
  }

  lemma CommitKeepsShown(w: World, s: State)
    requires Core(w, s) && RefsShown(w, s.bps, s.api.exports, s.pc) && s.pc.Committing?
    ensures var s' := DoCommit(w, s); RefsShown(w, s'.bps, s'.api.exports, s'.pc)
  {
  }

  lemma CallKeepsShown(w: World, s: State, op: Op)
    requires WorldOk(w) && Core(w, s) && RefsShown(w, s.bps, s.api.exports, s.pc) && IsCall(s.pc)
    requires CommitsWhole(s.pc, Work(op))
    ensures var s' := DoCall(w, s, op); RefsShown(w, s'.bps, s'.api.exports, s'.pc)
  {
    if s.pc.Committing? { CommitKeepsShown(w, s); }
    else if s.pc.Upserting? { UpsertKeepsShown(w, s); }
    else {
      if s.pc.Guarding? && s.pc.name in s.bps { assert BpOk(w, s.marks.committed, s.pc.name, s.bps[s.pc.name]); }
      CallLeavesShown(w, s, op);
      StaysShown(w, s, DoCall(w, s, op));
    }
  }

  lemma StepKeepsTidy(w: World, s: State, step: Step)
    requires WorldOk(w) && Core(w, s) && ApiOk(w, s) && Tidy(w, s) && CommitsWhole(s.pc, step) && KeepsSpec(s)
    ensures Tidy(w, Do(w, s, step))
  {
    KeptSpecKeepsExport(w, s);
    StepKeepsNamed(w, s, step);
    if step.Work? && IsCall(s.pc) {
      CallKeepsShown(w, s, step.op);
    } else {
      OtherLeavesShown(w, s, step);
      StaysShown(w, s, Do(w, s, step));
    }
  }

  lemma {:induction false} TidyRun(w: World, steps: seq<Step>)
    requires WorldOk(w) && WholeRun(w, steps) && forall i :: 0 <= i < |steps| ==> KeepsSpec(Exec(w, steps[..i]))
    ensures Tidy(w, Exec(w, steps))
  {
    if steps != [] {
      var front := steps[..|steps| - 1];
      assert forall i :: 0 <= i < |front| ==> front[..i] == steps[..i];
      TidyRun(w, front);
      Reachable(w, front);
      StepKeepsTidy(w, Exec(w, front), steps[|steps| - 1]);
    }
  }

  /** In every run in which a publish that wrote its schema goes through and no pass
      meets a published blueprint with a changed spec, every schema is referenced by an
      export or by the pass about to reference it. */
  lemma SchemasAreReferenced(w: World, steps: seq<Step>)
    requires WorldOk(w) && WholeRun(w, steps) && forall i :: 0 <= i < |steps| ==> KeepsSpec(Exec(w, steps[..i]))
    ensures AllReferenced(w, Exec(w, steps).api, Exec(w, steps).pc)
  {
    forall i | 0 <= i < |steps| ensures DropsNothing(w, Exec(w, steps[..i])) {
      var front := steps[..i];
      assert forall j :: 0 <= j < i ==> front[..j] == steps[..j];
      TidyRun(w, front);
      Reachable(w, front);
      KeptSpecDropsNothing(w, Exec(w, front));
    }
    NothingDropped(w, steps);
  }

  // ---- The exact condition on the specs ----

  /** No blueprint has two buildable specs that give the same export. */
  ghost predicate OneSpecEach(w: World) {
    forall n, a, b :: a in w.specs && b in w.specs && SameType(w, n, a, b) ==> a == b
  }

  predicate SameType(w: World, n: string, a: Spec, b: Spec) {
    && Value(w, n, a).Some? && Value(w, n, b).Some?
    && Value(w, n, a).value.graph.ApiExport() == Value(w, n, b).value.graph.ApiExport()
  }

  ghost predicate RefOf(w: World, x: string, refs: seq<string>, n: string, a: Spec) {
    a in w.specs && Value(w, n, a).Some? && Value(w, n, a).value.graph.ApiExport() == x
      && refs == [SchemaName(w.hash(a), x)]
  }

  ghost predicate HasRef(w: World, x: string, refs: seq<string>) { exists n, a :: RefOf(w, x, refs, n, a) }

  /** Every export references the schema of some buildable spec. */
  lemma {:induction false} ExportsHaveRefs(w: World, steps: seq<Step>)
    requires WorldOk(w)
    ensures forall x :: x in Exec(w, steps).api.exports ==> HasRef(w, x, Exec(w, steps).api.exports[x])
  {
    if steps != [] {
      var front := steps[..|steps| - 1];
      ExportsHaveRefs(w, front);
      Reachable(w, front);
      RefsKept(w, Exec(w, front), steps[|steps| - 1]);
    }
  }

  lemma RefsKept(w: World, s: State, step: Step)
    requires Core(w, s) && forall x :: x in s.api.exports ==> HasRef(w, x, s.api.exports[x])
    ensures forall x :: x in Do(w, s, step).api.exports ==> HasRef(w, x, Do(w, s, step).api.exports[x])
  {
    if step.Work? && s.pc.Upserting? {
      assert RefOf(w, ExportOf(s.pc.job), [SchemaOf(w, s.pc.job)], s.pc.job.name, s.pc.job.spec);
    }
  }

  lemma OneSpecDropsNothing(w: World, steps: seq<Step>)
    requires WorldOk(w) && OneSpecEach(w)
    ensures DropsNothing(w, Exec(w, steps))
  {
    var s := Exec(w, steps);
    Reachable(w, steps);
    ExportsHaveRefs(w, steps);
    if s.pc.Upserting? && ExportOf(s.pc.job) in s.api.exports {
      var x := ExportOf(s.pc.job);
      assert HasRef(w, x, s.api.exports[x]);
      var n, a :| RefOf(w, x, s.api.exports[x], n, a);
      assert SameExport(w, n, a, s.pc.job.name, s.pc.job.spec);
      assert SameType(w, n, a, s.pc.job.spec);
    }
  }

  ghost predicate NothingUnreferenced(w: World, steps: seq<Step>) {
    var s := Exec(w, steps);
    WholeRun(w, steps) && s.pc.Idle? ==> forall sn :: sn in s.api.schemas ==> Referenced(s.api.exports, sn)
  }

  /** If every publish goes through, an idle registrar leaves no schema unreferenced in
      any run if and only if no blueprint can be edited from one buildable spec to
      another that keeps its export. */
  lemma NothingUnreferencedExactly(w: World)
    requires WorldOk(w)
    ensures OneSpecEach(w) <==> forall steps :: NothingUnreferenced(w, steps)
  {
    if OneSpecEach(w) {
      forall steps ensures NothingUnreferenced(w, steps) {
        if WholeRun(w, steps) {
          forall i | 0 <= i < |steps|
            ensures DropsNothing(w, Exec(w, steps[..i]))
          {
            OneSpecDropsNothing(w, steps[..i]);
          }
          NothingDropped(w, steps);
        }
      }
    } else {
      var n, a, b :| a in w.specs && b in w.specs && SameType(w, n, a, b) && a != b;
      var steps := SupersededSchemaIsLeft(w, n, a, b, Value(w, n, a).value, Value(w, n, b).value);
      SmoothSteps(steps);
      assert !NothingUnreferenced(w, steps);
    }
  }

  // ---- What is served, without conditions on status writes ----

  /** `v` is what some buildable spec of a blueprint with the export `x` gives. */
  ghost predicate ValueOf(w: World, x: string, v: Served, n: string, a: Spec) {
    a in w.specs && Value(w, n, a) == Some(v) && v.graph.ApiExport() == x
  }

  ghost predicate Genuine(w: World, x: string, v: Served) { exists n, a :: ValueOf(w, x, v, n, a) }

  ghost predicate GenuineRegistry(w: World, registry: map<string, Served>) {
    forall x :: x in registry ==> Genuine(w, x, registry[x])
  }

  ghost predicate GenuineManagers(w: World, sup: Managers) {
    forall g :: 0 <= g < |sup.managers| && sup.managers[g].phase.Serving? ==>
      Genuine(w, sup.managers[g].apiExport, sup.managers[g].phase.what)
  }

  lemma SupKeepsGenuine(w: World, sup: Managers, step: Sup.Step<Served>)
    requires GenuineManagers(w, sup)
    requires step.Load? && step.gen < |sup.managers| ==> Genuine(w, sup.managers[step.gen].apiExport, step.what)
    ensures GenuineManagers(w, Sup.Do(sup, step))
  {
  }

  lemma SetKeepsGenuine(w: World, s: State)
    requires Core(w, s) && GenuineRegistry(w, s.mem.registry) && s.pc.Setting?
    ensures GenuineRegistry(w, s.mem.registry[ExportOf(s.pc.job) := s.pc.job.served])
  {
    assert ValueOf(w, ExportOf(s.pc.job), s.pc.job.served, s.pc.job.name, s.pc.job.spec);
  }

  lemma LocalKeepsGenuine(w: World, s: State)
    requires Core(w, s) && GenuineRegistry(w, s.mem.registry) && GenuineManagers(w, s.sup) && !IsCall(s.pc)
    ensures var s' := DoLocal(w, s); GenuineRegistry(w, s'.mem.registry) && GenuineManagers(w, s'.sup)
  {
    var pc := s.pc;
    if pc.Setting? { SetKeepsGenuine(w, s); }
    else if pc.Taking? { SupKeepsGenuine(w, s.sup, Sup.Take(0, ExportOf(pc.job))); }
    else if pc.Halting? { SupKeepsGenuine(w, s.sup, Sup.Take(0, pc.x)); }
    else if pc.Cancelling? || pc.Halted? { SupKeepsGenuine(w, s.sup, Sup.Cancel(0)); }
    else if pc.Ensuring? { SupKeepsGenuine(w, s.sup, Sup.Ensure(ExportOf(pc.job))); }
  }

  lemma StepKeepsGenuine(w: World, s: State, step: Step)
    requires Core(w, s) && GenuineRegistry(w, s.mem.registry) && GenuineManagers(w, s.sup)
    ensures var s' := Do(w, s, step); GenuineRegistry(w, s'.mem.registry) && GenuineManagers(w, s'.sup)
  {
    match step
    case Work(op) => if IsCall(s.pc) { CallKeepsServing(w, s, op); } else { LocalKeepsGenuine(w, s); }
    case Load(g) =>
      if g < |s.sup.managers| {
        var x := s.sup.managers[g].apiExport;
        SupKeepsGenuine(w, s.sup, if x in s.mem.registry then Sup.Load(g, s.mem.registry[x]) else Sup.Exit(g));
      }
    case Quit(g) => SupKeepsGenuine(w, s.sup, Sup.Exit(g));
    case Clear(g) => SupKeepsGenuine(w, s.sup, Sup.Forget(g));
    case _ =>
  }

  lemma CallKeepsServing(w: World, s: State, op: Op)
    requires IsCall(s.pc)
    ensures DoCall(w, s, op).mem.registry == s.mem.registry && DoCall(w, s, op).sup == s.sup
  {
  }

  /** In every run the registry and the managers hold what buildable specs of their
      exports' blueprints give. */
  lemma {:induction false} OnlyGenuineIsServed(w: World, steps: seq<Step>)
    requires WorldOk(w)
    ensures GenuineRegistry(w, Exec(w, steps).mem.registry) && GenuineManagers(w, Exec(w, steps).sup)
  {
    if steps != [] {
      var front := steps[..|steps| - 1];
      OnlyGenuineIsServed(w, front);
      Reachable(w, front);
      StepKeepsGenuine(w, Exec(w, front), steps[|steps| - 1]);
    }
  }

  /** Two buildable specs of one blueprint that keep its export give the same value. */
  ghost predicate OneValue(w: World) {
    forall n, a, b :: a in w.specs && b in w.specs && SameType(w, n, a, b) ==> Value(w, n, a) == Value(w, n, b)
  }

  /** The mapped manager of the export that the status of `n` names is unread or serves
      what the status shows. */
  ghost predicate ServesShown(w: World, s: State, n: string) {
    n in s.bps && s.bps[n].exported != "" && s.bps[n].exported in s.sup.running ==>
      && s.sup.running[s.bps[n].exported] < |s.sup.managers|
      && var m := s.sup.managers[s.sup.running[s.bps[n].exported]];
         m.phase.Serving? ==> IsObserved(w, n, s.bps[n], m.phase.what)
  }

  ghost predicate IdleFresh(w: World, steps: seq<Step>) {
    Exec(w, steps).pc.Idle? ==> forall n :: ServesShown(w, Exec(w, steps), n)
  }

  lemma OneValueIsShown(w: World, steps: seq<Step>, n: string)
    requires WorldOk(w) && OneValue(w)
    ensures ServesShown(w, Exec(w, steps), n)
  {
    var s := Exec(w, steps);
    Reachable(w, steps);
    OnlyGenuineIsServed(w, steps);
    if n in s.bps && s.bps[n].exported != "" && s.bps[n].exported in s.sup.running {
      var b, m := s.bps[n], s.sup.managers[s.sup.running[s.bps[n].exported]];
      assert BpOk(w, s.marks.committed, n, b);
      if m.phase.Serving? {
        assert Genuine(w, b.exported, m.phase.what);
        var n', a :| ValueOf(w, b.exported, m.phase.what, n', a);
        assert SameExport(w, n', a, n, s.marks.committed[n]);
        assert SameType(w, n, a, s.marks.committed[n]);
      }
    }
  }

  /** Whatever happens to status writes, an idle registrar's managers serve what the
      statuses show in every run if and only if specs that keep a blueprint's export
      build and route alike. */
  lemma FreshnessExactly(w: World)
    requires WorldOk(w)
    ensures OneValue(w) <==> forall steps :: IdleFresh(w, steps)
  {
    if OneValue(w) {
      forall steps ensures IdleFresh(w, steps) {
        forall n ensures ServesShown(w, Exec(w, steps), n) { OneValueIsShown(w, steps, n); }
      }
    } else {
      var n, a, b :| a in w.specs && b in w.specs && SameType(w, n, a, b) && Value(w, n, a) != Value(w, n, b);
      StaleIsReachable(w, n, a, b);
    }
  }

  lemma StaleIsReachable(w: World, n: string, a: Spec, b: Spec)
    requires WorldOk(w) && a in w.specs && b in w.specs && SameType(w, n, a, b) && Value(w, n, a) != Value(w, n, b)
    ensures exists steps :: !IdleFresh(w, steps)
  {
    var va, vb := Value(w, n, a).value, Value(w, n, b).value;
    var steps := LostStatusServesStale(w, n, a, b, va, vb);
    var s := Exec(w, steps);
    assert s.bps[n].observed == w.hash(a);
    assert !IsObserved(w, n, s.bps[n], vb);
    assert !ServesShown(w, s, n);
    assert !IdleFresh(w, steps);
  }
}
