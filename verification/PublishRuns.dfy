/** Runs of publishing: a withdrawal that no call fails completes, and the runs that
    show where the guarantees end. */
module PublishRuns {
  import opened Routing
  import opened Publish
  import opened PublishSafety
  import opened PublishStops
  import opened PublishApi
  import opened PublishTheorems
  import Sup = Supervisor

  // ---- Building runs ----

  type Machine = (State, Step) -> State

  /** `f` is the machine's step function. */
  ghost predicate IsStep(w: World, f: Machine) {
    forall s, e {:trigger Do(w, s, e)} :: f(s, e) == Do(w, s, e)
  }

  ghost function Run(f: Machine, steps: seq<Step>): State {
    if steps == [] then START else f(Run(f, steps[..|steps| - 1]), steps[|steps| - 1])
  }

  lemma {:induction false} RunIsExec(w: World, f: Machine, steps: seq<Step>)
    requires IsStep(w, f)
    ensures Run(f, steps) == Exec(w, steps)
  {
    if steps != [] {
      var front, last := steps[..|steps| - 1], steps[|steps| - 1];
      RunIsExec(w, f, front);
      assert f(Exec(w, front), last) == Do(w, Exec(w, front), last);
    }
  }

  lemma Stepper(w: World) returns (f: Machine)
    ensures IsStep(w, f)
  {
    f := (s: State, e: Step) => Do(w, s, e);
  }

  /** No call fails, none is lost, and the process is not restarted. */
  predicate Smooth(step: Step) { step != Work(Fails) && step != Work(Lost) && step != Restart }

  /** How many steps of a run are not smooth. */
  function Bumps(steps: seq<Step>): nat {
    if steps == [] then 0 else Bumps(steps[..|steps| - 1]) + (if Smooth(steps[|steps| - 1]) then 0 else 1)
  }

  /** The run `steps` leads to `s`, with `bumps` steps that are not smooth. */
  ghost predicate Leads(f: Machine, steps: seq<Step>, s: State, bumps: nat) {
    Run(f, steps) == s && Bumps(steps) == bumps
  }

  lemma Push(w: World, f: Machine, steps: seq<Step>, s: State, step: Step, bumps: nat)
    returns (steps': seq<Step>, s': State)
    requires IsStep(w, f) && Leads(f, steps, s, bumps)
    ensures steps' == steps + [step] && s' == Do(w, s, step)
    ensures Leads(f, steps', s', if Smooth(step) then bumps else bumps + 1)
  {
    steps', s' := steps + [step], Do(w, s, step);
    assert steps'[..|steps|] == steps;
  }

  // ---- Withdrawal completes ----

  /** `k` steps of the worker, none of which fails. */
  function Goes(k: nat): seq<Step> { seq(k, _ => Work(Go)) }

  /** `k` such steps after `start` lead to `s`. */
  ghost predicate Went(f: Machine, start: seq<Step>, k: nat, s: State) { Run(f, start + Goes(k)) == s }

  lemma GoOn(w: World, f: Machine, start: seq<Step>, k: nat, s: State)
    requires IsStep(w, f) && Went(f, start, k, s)
    ensures Went(f, start, k + 1, DoWork(w, s, Go))
  {
    assert (start + Goes(k + 1))[..|start| + k] == start + Goes(k);
    assert f(s, Work(Go)) == Do(w, s, Work(Go));
  }

  /** Each schema takes one call, the export another. */
  lemma {:induction false} EraseAll(w: World, f: Machine, start: seq<Step>, k: nat, s: State, n: string, x: string,
                                    todo: seq<string>)
    returns (s': State)
    requires IsStep(w, f) && Went(f, start, k, s) && s.pc == Erasing(n, x, todo)
    ensures Went(f, start, k + |todo| + 1, s') && s'.pc == Purging(n, x)
    decreases |todo|
  {
    GoOn(w, f, start, k, s);
    s' := DoWork(w, s, Go);
    if todo != [] { s' := EraseAll(w, f, start, k + 1, s', n, x, todo[1..]); }
  }

  lemma HaltAndUnregister(w: World, f: Machine, start: seq<Step>, k: nat, s: State, n: string, x: string)
    returns (s': State)
    requires IsStep(w, f) && Went(f, start, k, s) && s.pc == Halting(n, x)
    ensures Went(f, start, k + 3, s') && s'.pc == Releasing(n, x)
  {
    GoOn(w, f, start, k, s);
    s' := DoWork(w, s, Go);
    assert s'.pc == Halted(n, x);
    GoOn(w, f, start, k + 1, s');
    s' := DoWork(w, s', Go);
    assert s'.pc == Unregistering(n, x);
    GoOn(w, f, start, k + 2, s');
    s' := DoWork(w, s', Go);
  }

  lemma PurgeAndRelease(w: World, f: Machine, start: seq<Step>, k: nat, s: State, n: string, x: string)
    returns (s': State)
    requires IsStep(w, f) && Went(f, start, k, s) && s.pc == Purging(n, x)
    ensures Went(f, start, k + (if x == "" then 2 else 5), s') && s'.pc == Idle && n !in s'.bps
  {
    GoOn(w, f, start, k, s);
    s' := DoWork(w, s, Go);
    var j := k + 1;
    if x != "" {
      s' := HaltAndUnregister(w, f, start, k + 1, s', n, x);
      j := k + 4;
    }
    assert s'.pc == Releasing(n, x);
    GoOn(w, f, start, j, s');
    s' := DoWork(w, s', Go);
  }

  /** The calls a withdrawal takes from `s` if none fails. */
  function CallsToWithdraw(s: State, x: string): nat {
    if x == "" then 2 else if x in s.api.exports then |s.api.exports[x]| + 7 else 6
  }

  lemma WithdrawsFrom(w: World, f: Machine, steps: seq<Step>, s: State, n: string) returns (s': State)
    requires IsStep(w, f) && Run(f, steps) == s && s.pc.Idle? && n in s.bps && s.bps[n].deleting && s.bps[n].finalizer
    ensures Went(f, steps + [Begin(n)], CallsToWithdraw(s, s.bps[n].exported), s') && s'.pc == Idle && n !in s'.bps
  {
    var x := s.bps[n].exported;
    var start := steps + [Begin(n)];
    assert start[..|steps|] == steps && start + Goes(0) == start;
    assert f(s, Begin(n)) == Do(w, s, Begin(n));
    s' := BeginPass(w, s, n);
    var k := 0;
    if x != "" {
      assert s'.pc == Fetching(n, x);
      GoOn(w, f, start, 0, s');
      s' := DoWork(w, s', Go);
      k := 1;
      if x in s.api.exports {
        s' := EraseAll(w, f, start, 1, s', n, x, s.api.exports[x]);
        k := |s.api.exports[x]| + 2;
      }
    }
    s' := PurgeAndRelease(w, f, start, k, s', n, x);
  }

  /** From every reachable state with an idle registrar, one more pass over a deleted
      blueprint in which no call fails releases it. What then is gone,
      ReleasedIsWithdrawn says. */
  lemma RetriedWithdrawalCompletes(w: World, steps: seq<Step>, n: string)
    requires var s := Exec(w, steps); s.pc.Idle? && n in s.bps && s.bps[n].deleting && s.bps[n].finalizer
    ensures var s := Exec(w, steps);
      var s' := Exec(w, steps + [Begin(n)] + Goes(CallsToWithdraw(s, s.bps[n].exported)));
      s'.pc == Idle && n !in s'.bps
  {
    var f := Stepper(w);
    RunIsExec(w, f, steps);
    var s' := WithdrawsFrom(w, f, steps, Exec(w, steps), n);
    RunIsExec(w, f, steps + [Begin(n)] + Goes(CallsToWithdraw(Exec(w, steps), Exec(w, steps).bps[n].exported)));
  }

  // ---- One publishing pass ----

  lemma PassUpToBuild(w: World, f: Machine, steps: seq<Step>, s: State, n: string, bumps: nat)
    returns (steps': seq<Step>, s': State)
    requires IsStep(w, f) && Leads(f, steps, s, bumps) && s.pc.Idle? && n in s.bps && !s.bps[n].deleting
    ensures Leads(f, steps', s', bumps)
    ensures s'.pc == Building(n, s.bps[n].spec, s.bps[n].observed != w.hash(s.bps[n].spec))
    ensures s'.bps == s.bps[n := s.bps[n].(finalizer := true)] && s'.mem == s.mem && s'.sup == s.sup && s'.api == s.api
  {
    steps', s' := Push(w, f, steps, s, Begin(n), bumps);
    if s.bps[n].finalizer {
      assert s.bps == s.bps[n := s.bps[n].(finalizer := true)];
    } else {
      steps', s' := Push(w, f, steps', s', Work(Go), bumps);
    }
  }

  lemma PassFromBuild(w: World, f: Machine, steps: seq<Step>, s: State, job: Job, bumps: nat)
    returns (steps': seq<Step>, s': State)
    requires IsStep(w, f) && Leads(f, steps, s, bumps) && s.pc == Building(job.name, job.spec, job.changed)
    requires job.spec in w.specs && CacheOk(w, s.mem.cache) && Value(w, job.name, job.spec) == Some(job.served)
    ensures Leads(f, steps', s', bumps) && s'.pc == Setting(job)
    ensures s'.bps == s.bps && s'.mem.registry == s.mem.registry && s'.sup == s.sup
    ensures s'.api.exports == s.api.exports[ExportOf(job) := [SchemaOf(w, job)]]
    ensures s'.api.schemas.Keys == s.api.schemas.Keys + {SchemaOf(w, job)}
  {
    CacheRefinesBuild(w, s, job.name, job.spec);
    steps', s' := Push(w, f, steps, s, Work(Go), bumps);
    assert s'.pc == Applying(job);
    steps', s' := Push(w, f, steps', s', Work(Go), bumps);
    assert s'.pc == Upserting(job);
    steps', s' := Push(w, f, steps', s', Work(Go), bumps);
  }

  /** The callback. */
  lemma PassNotifies(w: World, f: Machine, steps: seq<Step>, s: State, job: Job, bumps: nat)
    returns (steps': seq<Step>, s': State)
    requires IsStep(w, f) && Leads(f, steps, s, bumps) && s.pc == Setting(job)
    ensures Leads(f, steps', s', bumps) && s'.pc == Committing(job)
    ensures s'.api == s.api && s'.mem.registry == s.mem.registry[ExportOf(job) := job.served] && s'.bps == s.bps
    ensures s'.sup == Restarted(s.sup, ExportOf(job), job.changed)
  {
    steps', s' := Push(w, f, steps, s, Work(Go), bumps);
    if job.changed {
      steps', s' := Push(w, f, steps', s', Work(Go), bumps);
      assert s'.pc == Cancelling(job);
      steps', s' := Push(w, f, steps', s', Work(Go), bumps);
    }
    assert s'.pc == Ensuring(job);
    steps', s' := Push(w, f, steps', s', Work(Go), bumps);
  }

  /** The callback and the status write, which commits or not. */
  lemma PassFromExport(w: World, f: Machine, steps: seq<Step>, s: State, job: Job, op: Op, bumps: nat)
    returns (steps': seq<Step>, s': State)
    requires IsStep(w, f) && Leads(f, steps, s, bumps) && s.pc == Setting(job) && job.name in s.bps && op != Lost
    ensures Leads(f, steps', s', if op.Go? then bumps else bumps + 1) && s'.pc == Idle && s'.api == s.api
    ensures s'.mem.registry == s.mem.registry[ExportOf(job) := job.served]
    ensures s'.sup == Restarted(s.sup, ExportOf(job), job.changed)
    ensures s'.bps == if op.Fails? then s.bps else
      s.bps[job.name := s.bps[job.name].(exported := ExportOf(job), observed := w.hash(job.spec))]
  {
    steps', s' := PassNotifies(w, f, steps, s, job, bumps);
    steps', s' := Push(w, f, steps', s', Work(op), bumps);
  }

  /** What a pass over `n` leads to, whose status write commits or not. */
  ghost predicate Passed(w: World, s: State, s': State, n: string, v: Served, op: Op)
    requires n in s.bps
  {
    var b, x := s.bps[n], v.graph.ApiExport();
    var sn := SchemaName(w.hash(b.spec), x);
    && s'.pc == Idle
    && s'.bps == s.bps[n := if op.Go? then Blueprint(b.spec, true, false, x, w.hash(b.spec)) else b.(finalizer := true)]
    && s'.api.exports == s.api.exports[x := [sn]] && s'.api.schemas.Keys == s.api.schemas.Keys + {sn}
    && s'.mem.registry == s.mem.registry[x := v] && s'.sup == Restarted(s.sup, x, b.observed != w.hash(b.spec))
  }

  lemma Pass(w: World, f: Machine, steps: seq<Step>, s: State, n: string, v: Served, op: Op, bumps: nat)
    returns (steps': seq<Step>, s': State)
    requires WorldOk(w) && IsStep(w, f) && Leads(f, steps, s, bumps) && s.pc.Idle? && n in s.bps && !s.bps[n].deleting
    requires op != Lost && Value(w, n, s.bps[n].spec) == Some(v)
    ensures Leads(f, steps', s', if op.Go? then bumps else bumps + 1) && Passed(w, s, s', n, v, op)
  {
    var b := s.bps[n];
    steps', s' := PassUpToBuild(w, f, steps, s, n, bumps);
    KnownSpec(w, f, steps, s, n);
    CacheIsRight(w, f, steps', s');
    var job := Job(n, b.spec, b.observed != w.hash(b.spec), v);
    steps', s' := PassFromBuild(w, f, steps', s', job, bumps);
    steps', s' := PassFromExport(w, f, steps', s', job, op, bumps);
  }

  lemma KnownSpec(w: World, f: Machine, steps: seq<Step>, s: State, n: string)
    requires WorldOk(w) && IsStep(w, f) && Run(f, steps) == s && n in s.bps
    ensures s.bps[n].spec in w.specs
  {
    RunIsExec(w, f, steps);
    Reachable(w, steps);
    assert BpOk(w, s.marks.committed, n, s.bps[n]);
  }

  lemma CacheIsRight(w: World, f: Machine, steps: seq<Step>, s: State)
    requires WorldOk(w) && IsStep(w, f) && Run(f, steps) == s
    ensures CacheOk(w, s.mem.cache)
  {
    RunIsExec(w, f, steps);
    Reachable(w, steps);
  }

  // ---- Where the guarantees end ----

  lemma CreateFirst(w: World, f: Machine, n: string, a: Spec) returns (steps: seq<Step>, s: State)
    requires IsStep(w, f) && a in w.specs
    ensures Leads(f, steps, s, 0) && s == START.(bps := map[n := Blueprint(a, false, false, "", "")])
  {
    assert Leads(f, [], START, 0);
    steps, s := Push(w, f, [], START, Create(n, a), 0);
  }

  lemma StartOnce(x: string, changed: bool)
    ensures Restarted(Sup.Start(), x, changed)
         == Sup.State(map[x := 0], [Sup.Manager(x, false, Sup.Starting)], map[])
  {
    var none: Managers := Sup.Start();
    assert Sup.Do(Sup.Do(none, Sup.Take(0, x)), Sup.Cancel(0)) == none;
  }

  lemma FirstIsPublished(w: World, s: State, s': State, n: string, a: Spec, va: Served, op: Op)
    requires s == START.(bps := map[n := Blueprint(a, false, false, "", "")]) && Passed(w, s, s', n, va, op)
    ensures Published(w, s', n, a, va)
    ensures s'.bps == map[n := if op.Go? then Blueprint(a, true, false, va.graph.ApiExport(), w.hash(a))
                          else Blueprint(a, true, false, "", "")]
  {
    StartOnce(va.graph.ApiExport(), "" != w.hash(a));
  }

  /** A blueprint `n` is created with spec `a`, and a first pass made over it. */
  lemma FirstPass(w: World, f: Machine, n: string, a: Spec, va: Served, op: Op) returns (steps: seq<Step>, s: State)
    requires WorldOk(w) && IsStep(w, f) && a in w.specs && Value(w, n, a) == Some(va) && op != Lost
    ensures Leads(f, steps, s, if op.Go? then 0 else 1) && Published(w, s, n, a, va)
    ensures s.bps == map[n := if op.Go? then Blueprint(a, true, false, va.graph.ApiExport(), w.hash(a))
                         else Blueprint(a, true, false, "", "")]
  {
    var created;
    steps, created := CreateFirst(w, f, n, a);
    steps, s := Pass(w, f, steps, created, n, va, op, 0);
    FirstIsPublished(w, created, s, n, a, va, op);
  }

  /** The offering of `a` is the only one, and its manager has just been started. */
  ghost predicate Published(w: World, s: State, n: string, a: Spec, va: Served) {
    var x := va.graph.ApiExport();
    && s.pc == Idle
    && s.api.exports == map[x := [SchemaName(w.hash(a), x)]] && s.api.schemas.Keys == {SchemaName(w.hash(a), x)}
    && s.mem.registry == map[x := va]
    && s.sup == Sup.State(map[x := 0], [Sup.Manager(x, false, Sup.Starting)], map[])
  }

  /** Then the spec becomes `b`, and a pass is made over it. */
  lemma EditAndPass(w: World, f: Machine, steps: seq<Step>, s: State, n: string, b: Spec, vb: Served, op: Op,
                    bumps: nat)
    returns (steps': seq<Step>, s': State)
    requires WorldOk(w) && IsStep(w, f) && Leads(f, steps, s, bumps) && s.pc.Idle? && n in s.bps && !s.bps[n].deleting
    requires op != Lost && b in w.specs && Value(w, n, b) == Some(vb)
    ensures Leads(f, steps', s', if op.Go? then bumps else bumps + 1)
    ensures Passed(w, s.(bps := s.bps[n := s.bps[n].(spec := b)]), s', n, vb, op)
  {
    steps', s' := Push(w, f, steps, s, Edit(n, b), bumps);
    steps', s' := Pass(w, f, steps', s', n, vb, op, bumps);
  }

  lemma LostStatus(w: World, f: Machine, n: string, a: Spec, b: Spec, va: Served, vb: Served)
    returns (steps: seq<Step>, s: State)
    requires WorldOk(w) && IsStep(w, f) && a in w.specs && b in w.specs && Value(w, n, a) == Some(va)
    requires Value(w, n, b) == Some(vb)
    requires va != vb && va.graph.ApiExport() == vb.graph.ApiExport()
    ensures Leads(f, steps, s, 1)
    ensures var x := va.graph.ApiExport();
      && s.pc == Idle && s.bps == map[n := Blueprint(b, true, false, x, w.hash(a))] && s.mem.registry == map[x := vb]
      && s.sup == Sup.State(map[x := 1], [Sup.Manager(x, true, Sup.Starting), Sup.Manager(x, false, Sup.Serving(vb))],
                            map[])
  {
    steps, s := FirstPass(w, f, n, a, va, Go);
    steps, s := EditAndPass(w, f, steps, s, n, b, vb, Fails, 0);
    RestartOnce(va.graph.ApiExport());
    steps, s := LoadSecond(w, f, steps, s, va.graph.ApiExport(), vb);
  }

  /** The second manager of `x` reads what the registry holds. */
  lemma LoadSecond(w: World, f: Machine, steps: seq<Step>, s: State, x: string, v: Served)
    returns (steps': seq<Step>, s': State)
    requires IsStep(w, f) && Leads(f, steps, s, 1) && x in s.mem.registry && s.mem.registry[x] == v
    requires s.sup == Sup.State(map[x := 1], [Sup.Manager(x, true, Sup.Starting), Sup.Manager(x, false, Sup.Starting)],
                                map[])
    ensures Leads(f, steps', s', 1) && s'.bps == s.bps && s'.mem == s.mem && s'.pc == s.pc
    ensures s'.sup ==
      Sup.State(map[x := 1], [Sup.Manager(x, true, Sup.Starting), Sup.Manager(x, false, Sup.Serving(v))], map[])
  {
    steps', s' := Push(w, f, steps, s, Load(1), 1);
  }

  lemma RestartOnce(x: string)
    ensures Restarted(Sup.State(map[x := 0], [Sup.Manager(x, false, Sup.Starting)], map[]), x, true)
         == Sup.State(map[x := 1], [Sup.Manager(x, true, Sup.Starting), Sup.Manager(x, false, Sup.Starting)], map[])
  {
    var one: Managers := Sup.State(map[x := 0], [Sup.Manager(x, false, Sup.Starting)], map[]);
    assert Sup.Do(one, Sup.Take(0, x)) == Sup.State(map[], [Sup.Manager(x, false, Sup.Starting)], map[0 := 0]);
  }

  /** The freshness guarantee needs the status write: let `b` be published over `a`,
      its status write fail, and the spec return to `a`; nothing else goes wrong. Then
      the registrar is idle, spec and status show `a`, and the manager serves `b`. */
  lemma LostStatusServesStale(w: World, n: string, a: Spec, b: Spec, va: Served, vb: Served) returns (steps: seq<Step>)
    requires WorldOk(w) && a in w.specs && b in w.specs && Value(w, n, a) == Some(va) && Value(w, n, b) == Some(vb)
    requires va != vb && va.graph.ApiExport() == vb.graph.ApiExport()
    ensures Bumps(steps) == 1
    ensures var s, x := Exec(w, steps), va.graph.ApiExport();
      && s.pc == Idle && s.bps == map[n := Blueprint(a, true, false, x, w.hash(a))] && s.mem.registry == map[x := va]
      && s.sup.running == map[x := 1] && |s.sup.managers| == 2
      && s.sup.managers[1] == Sup.Manager(x, false, Sup.Serving(vb))
  {
    var f := Stepper(w);
    var s;
    steps, s := LostStatus(w, f, n, a, b, va, vb);
    steps, s := EditAndPass(w, f, steps, s, n, a, va, Go, 1);
    RunIsExec(w, f, steps);
  }

  /** An edit that changes the generated type leaves the old offering behind: its
      export stays published and its manager mapped, and no status names them. */
  lemma RenamedExportIsLeft(w: World, n: string, a: Spec, b: Spec, va: Served, vb: Served) returns (steps: seq<Step>)
    requires WorldOk(w) && a in w.specs && b in w.specs && Value(w, n, a) == Some(va) && Value(w, n, b) == Some(vb)
    requires va.graph.ApiExport() != vb.graph.ApiExport()
    ensures Bumps(steps) == 0
    ensures var s, x := Exec(w, steps), va.graph.ApiExport();
      && s.pc == Idle && s.bps == map[n := Blueprint(b, true, false, vb.graph.ApiExport(), w.hash(b))]
      && x in s.api.exports && x in s.mem.registry && x in s.sup.running
  {
    var f := Stepper(w);
    var s;
    steps, s := FirstPass(w, f, n, a, va, Go);
    steps, s := EditAndPass(w, f, steps, s, n, b, vb, Go, 0);
    RunIsExec(w, f, steps);
  }

  /** An edit that keeps the type leaves the old schema behind: it still exists and no
      export references it any more, so withdrawal will not find it. */
  lemma SupersededSchemaIsLeft(w: World, n: string, a: Spec, b: Spec, va: Served, vb: Served) returns (steps: seq<Step>)
    requires WorldOk(w) && a in w.specs && b in w.specs && a != b && Value(w, n, a) == Some(va)
    requires Value(w, n, b) == Some(vb)
    requires va.graph.ApiExport() == vb.graph.ApiExport()
    ensures Bumps(steps) == 0
    ensures var s, x := Exec(w, steps), va.graph.ApiExport();
      var sn := SchemaName(w.hash(a), x);
      && s.pc == Idle && s.bps == map[n := Blueprint(b, true, false, x, w.hash(b))]
      && sn in s.api.schemas && forall y :: y in s.api.exports ==> sn !in s.api.exports[y]
  {
    var f := Stepper(w);
    var s;
    var x := va.graph.ApiExport();
    if SchemaName(w.hash(a), x) == SchemaName(w.hash(b), x) {
      SchemaNameInjective(w.hash(a), x, w.hash(b), x);
      assert false;
    }
    steps, s := FirstPass(w, f, n, a, va, Go);
    steps, s := EditAndPass(w, f, steps, s, n, b, vb, Go, 0);
    RunIsExec(w, f, steps);
  }

  /** Deleting schemas before the export lets an export reference a missing schema: the
      withdrawal stops after its first delete, whose answer is lost. */
  lemma WithdrawalLeavesExportDangling(w: World, n: string, a: Spec, va: Served) returns (steps: seq<Step>)
    requires WorldOk(w) && a in w.specs && Value(w, n, a) == Some(va)
    ensures Bumps(steps) == 1
    ensures var s, x := Exec(w, steps), va.graph.ApiExport();
      && s.pc == Idle && s.bps == map[n := Blueprint(a, true, true, x, w.hash(a))]
      && x in s.api.exports && !Whole(s.api, x)
  {
    var f := Stepper(w);
    var s;
    steps, s := FirstPass(w, f, n, a, va, Go);
    steps, s := EraseOne(w, f, steps, s, n, a, va);
    RunIsExec(w, f, steps);
  }

  /** The blueprint is deleted, and the worker turns to it. */
  lemma DeleteAndBegin(w: World, f: Machine, steps: seq<Step>, s: State, n: string, bumps: nat)
    returns (steps': seq<Step>, s': State)
    requires IsStep(w, f) && Leads(f, steps, s, bumps) && s.pc.Idle? && n in s.bps && s.bps[n].finalizer
    ensures Leads(f, steps', s', bumps) && s'.bps == s.bps[n := s.bps[n].(deleting := true)]
    ensures s'.pc == if s.bps[n].exported == "" then Purging(n, "") else Fetching(n, s.bps[n].exported)
    ensures s'.api == s.api && s'.mem == s.mem && s'.sup == s.sup
  {
    steps', s' := Push(w, f, steps, s, Delete(n), bumps);
    steps', s' := Push(w, f, steps', s', Begin(n), bumps);
  }

  lemma EraseOne(w: World, f: Machine, steps: seq<Step>, s: State, n: string, a: Spec, va: Served)
    returns (steps': seq<Step>, s': State)
    requires IsStep(w, f) && Leads(f, steps, s, 0) && Published(w, s, n, a, va)
    requires s.bps == map[n := Blueprint(a, true, false, va.graph.ApiExport(), w.hash(a))] && va.graph.ApiExport() != ""
    ensures Leads(f, steps', s', 1)
    ensures s'.pc == Idle && s'.bps == map[n := Blueprint(a, true, true, va.graph.ApiExport(), w.hash(a))]
    ensures va.graph.ApiExport() in s'.api.exports && !Whole(s'.api, va.graph.ApiExport())
  {
    var x := va.graph.ApiExport();
    var sn := SchemaName(w.hash(a), x);
    steps', s' := DeleteAndBegin(w, f, steps, s, n, 0);
    steps', s' := Push(w, f, steps', s', Work(Go), 0);
    assert s'.pc == Erasing(n, x, [sn]) && s'.api == s.api;
    steps', s' := Push(w, f, steps', s', Work(Lost), 0);
    assert sn in s'.api.exports[x] && sn !in s'.api.schemas;
  }

  /** A withdrawal needs the status that names the export: if its only write failed, the
      blueprint is deleted and released, and the offering stays. */
  lemma UnnamedOfferingIsLeft(w: World, n: string, a: Spec, va: Served) returns (steps: seq<Step>)
    requires WorldOk(w) && a in w.specs && Value(w, n, a) == Some(va)
    ensures Bumps(steps) == 1
    ensures var s, x := Exec(w, steps), va.graph.ApiExport();
      s.pc == Idle && s.bps == map[] && x in s.api.exports && x in s.mem.registry && x in s.sup.running
  {
    var f := Stepper(w);
    var s;
    steps, s := FirstPass(w, f, n, a, va, Fails);
    steps, s := ReleaseUnnamed(w, f, steps, s, n, a);
    RunIsExec(w, f, steps);
  }

  lemma ReleaseUnnamed(w: World, f: Machine, steps: seq<Step>, s: State, n: string, a: Spec)
    returns (steps': seq<Step>, s': State)
    requires IsStep(w, f) && Leads(f, steps, s, 1) && s.pc.Idle? && s.bps == map[n := Blueprint(a, true, false, "", "")]
    ensures Leads(f, steps', s', 1)
    ensures s'.pc == Idle && s'.bps == map[] && s'.api == s.api && s'.mem.registry == s.mem.registry && s'.sup == s.sup
  {
    steps', s' := DeleteAndBegin(w, f, steps, s, n, 1);
    steps', s' := Push(w, f, steps', s', Work(Go), 1);
    assert s'.pc == Releasing(n, "");
    steps', s' := Push(w, f, steps', s', Work(Go), 1);
  }

  /** `n` is gone and the worker is not on it. */
  predicate Absent(s: State, n: string) {
    n !in s.bps && (s.pc.Guarding? ==> s.pc.name != n)
  }

  lemma StepKeepsAbsent(w: World, s: State, step: Step, n: string)
    requires Core(w, s) && Absent(s, n) && !(step.Create? && step.name == n)
    ensures Absent(Do(w, s, step), n)
  {
  }

  lemma StepKeepsExport(w: World, s: State, step: Step, x: string)
    requires x in s.api.exports && !(s.pc.Erasing? && s.pc.x == x)
    ensures x in Do(w, s, step).api.exports
  {
  }

  lemma NobodyErases(w: World, s: State, n: string, a: Spec, x: string)
    requires WorldOk(w) && Core(w, s) && ApiOk(w, s) && n !in s.bps
    requires a in w.specs && w.build(n, a).Some? && w.build(n, a).value.ApiExport() == x
    ensures !(s.pc.Erasing? && s.pc.x == x)
  {
    if s.pc.Erasing? {
      var m := s.pc.name;
      assert WithdrawOk(s.bps, m, s.pc.x) && BpOk(w, s.marks.committed, m, s.bps[m]);
      assert !SameExport(w, n, a, m, s.marks.committed[m]);
    }
  }

  /** ... for good: unless a blueprint of that name is created again, no run ever
      removes the export. */
  lemma {:induction false} LeftoverStays(w: World, steps: seq<Step>, more: seq<Step>, n: string, a: Spec, x: string)
    requires WorldOk(w) && Absent(Exec(w, steps), n) && x in Exec(w, steps).api.exports
    requires a in w.specs && w.build(n, a).Some? && w.build(n, a).value.ApiExport() == x
    requires forall i :: 0 <= i < |more| ==> !(more[i].Create? && more[i].name == n)
    ensures Absent(Exec(w, steps + more), n) && x in Exec(w, steps + more).api.exports
  {
    if more == [] {
      assert steps + more == steps;
    } else {
      var front, last := more[..|more| - 1], more[|more| - 1];
      LeftoverStays(w, steps, front, n, a, x);
      assert (steps + more)[..|steps + more| - 1] == steps + front;
      LeftoverStaysOnce(w, steps + front, last, n, a, x);
      assert steps + more == steps + front + [last];
    }
  }

  lemma LeftoverStaysOnce(w: World, steps: seq<Step>, step: Step, n: string, a: Spec, x: string)
    requires WorldOk(w) && Absent(Exec(w, steps), n) && x in Exec(w, steps).api.exports
    requires !(step.Create? && step.name == n)
    requires a in w.specs && w.build(n, a).Some? && w.build(n, a).value.ApiExport() == x
    ensures Absent(Exec(w, steps + [step]), n) && x in Exec(w, steps + [step]).api.exports
  {
    assert (steps + [step])[..|steps|] == steps;
    Reachable(w, steps);
    var s := Exec(w, steps);
    NobodyErases(w, s, n, a, x);
    StepKeepsAbsent(w, s, step, n);
    StepKeepsExport(w, s, step, x);
  }
}
