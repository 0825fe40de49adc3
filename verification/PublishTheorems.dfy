/** What publishing guarantees in every run. */
module PublishTheorems {
  import opened Routing
  import opened Publish
  import opened PublishSafety
  import opened PublishStops
  import opened PublishFresh
  import opened PublishApi
  import Sup = Supervisor

  ghost predicate Inv(w: World, s: State) { Core(w, s) && Stops(s) && Fresh(w, s) && ApiOk(w, s) }

  lemma InvKeeps(w: World, s: State, step: Step)
    requires WorldOk(w) && Inv(w, s)
    ensures Inv(w, Do(w, s, step))
  {
    CoreKeeps(w, s, step);
    StopsKeep(w, s, step);
    FreshKeeps(w, s, step);
    ApiKeeps(w, s, step);
  }

  lemma InvHoldsAtStart(w: World)
    ensures Inv(w, START)
  {
    forall n, a ensures SchemaOk(w, START.api.schemas, n, a) {}
  }

  lemma {:induction false} Reachable(w: World, steps: seq<Step>)
    requires WorldOk(w)
    ensures Inv(w, Exec(w, steps))
  {
    if steps == [] {
      InvHoldsAtStart(w);
    } else {
      Reachable(w, steps[..|steps| - 1]);
      InvKeeps(w, Exec(w, steps[..|steps| - 1]), steps[|steps| - 1]);
    }
  }

  // ---- What is served ----

  /** `v` is what building and routing give for the spec whose hash the status shows. */
  ghost predicate IsObserved(w: World, n: string, b: Blueprint, v: Served) {
    exists a :: a in w.specs && w.hash(a) == b.observed && Value(w, n, a) == Some(v)
  }

  /** The mapped manager of the export named by a status has not read the registry yet
      or serves what the status shows, unless the last publish that restarted it has
      not reached the status. */
  lemma MappedManagerServesObserved(w: World, steps: seq<Step>, n: string)
    requires WorldOk(w)
    requires var s := Exec(w, steps);
      n in s.bps && n !in s.marks.uncommitted && s.bps[n].exported != "" && s.bps[n].exported in s.sup.running
    ensures var s := Exec(w, steps);
      && s.sup.running[s.bps[n].exported] < |s.sup.managers|
      && var m := s.sup.managers[s.sup.running[s.bps[n].exported]];
         && m.apiExport == s.bps[n].exported && !m.cancelled
         && (m.phase.Serving? ==> IsObserved(w, n, s.bps[n], m.phase.what))
  {
    var s := Exec(w, steps);
    Reachable(w, steps);
    assert BpOk(w, s.marks.committed, n, s.bps[n]);
    assert Settled(w, s.bps, s.marks, n);
    assert Sup.ManagerOk(s.sup, s.sup.running[s.bps[n].exported]);
  }

  /** No status write of a publishing pass fails. */
  ghost predicate StatusWritesCommit(w: World, steps: seq<Step>) {
    forall i :: 0 <= i < |steps| && steps[i] == Work(Fails) ==> !Exec(w, steps[..i]).pc.Committing?
  }

  ghost predicate Pending(s: State) {
    forall n :: n in s.marks.uncommitted ==> AfterSet(s.pc) && s.pc.job.changed && s.pc.job.name == n
  }

  lemma LocalKeepsPending(w: World, s: State)
    requires Pending(s) && Stops(s) && !IsCall(s.pc)
    ensures Pending(DoLocal(w, s))
  {
  }

  lemma CallKeepsPending(w: World, s: State, op: Op)
    requires Core(w, s) && Pending(s) && IsCall(s.pc) && !(op.Fails? && s.pc.Committing?)
    ensures Pending(DoCall(w, s, op))
  {
  }

  lemma {:induction false} OnlyPendingUncommitted(w: World, steps: seq<Step>)
    requires WorldOk(w) && StatusWritesCommit(w, steps)
    ensures Pending(Exec(w, steps))
  {
    if steps != [] {
      var front, last := steps[..|steps| - 1], steps[|steps| - 1];
      forall i | 0 <= i < |front| && front[i] == Work(Fails) ensures !Exec(w, front[..i]).pc.Committing? {
        assert front[..i] == steps[..i];
      }
      OnlyPendingUncommitted(w, front);
      Reachable(w, front);
      PendingKeeps(w, Exec(w, front), last);
    }
  }

  lemma PendingKeeps(w: World, s: State, step: Step)
    requires Core(w, s) && Stops(s) && Pending(s) && !(step == Work(Fails) && s.pc.Committing?)
    ensures Pending(Do(w, s, step))
  {
    if step.Work? {
      if IsCall(s.pc) { CallKeepsPending(w, s, step.op); } else { LocalKeepsPending(w, s); }
    } else if step.Create? || step.Edit? || step.Delete? {
      EditIsQuiet(w, s, step);
      assert DoEdit(w, s, step).pc == s.pc;
    }
  }

  /** In every run in which status writes commit, whenever the registrar is idle the
      mapped manager of every published export is unread or serves what the blueprint's
      status shows. */
  lemma IdleServesObserved(w: World, steps: seq<Step>, n: string)
    requires WorldOk(w) && StatusWritesCommit(w, steps)
    requires var s := Exec(w, steps);
      s.pc.Idle? && n in s.bps && s.bps[n].exported != "" && s.bps[n].exported in s.sup.running
    ensures var s := Exec(w, steps);
      && s.sup.running[s.bps[n].exported] < |s.sup.managers|
      && var m := s.sup.managers[s.sup.running[s.bps[n].exported]];
         && m.apiExport == s.bps[n].exported && !m.cancelled
         && (m.phase.Serving? ==> IsObserved(w, n, s.bps[n], m.phase.what))
  {
    OnlyPendingUncommitted(w, steps);
    MappedManagerServesObserved(w, steps, n);
  }

  /** Every pass serves what building the spec it read would give, cache or not. */
  lemma PassServesItsBuild(w: World, steps: seq<Step>)
    requires WorldOk(w) && OnJob(Exec(w, steps).pc)
    ensures var job := Exec(w, steps).pc.job; job.spec in w.specs && Value(w, job.name, job.spec) == Some(job.served)
  {
    Reachable(w, steps);
  }

  /** When a resync of an unchanged blueprint starts a manager, the last one of the
      export, if there was any, had exited by itself; the ones before it had exited or
      been cancelled. */
  lemma UnchangedResyncReplacesOnlyTheExited(w: World, steps: seq<Step>, g: nat)
    requires WorldOk(w)
    requires var s := Exec(w, steps);
      && s.pc.Ensuring? && !s.pc.job.changed && ExportOf(s.pc.job) !in s.sup.running
      && g < |s.sup.managers| && s.sup.managers[g].apiExport == ExportOf(s.pc.job)
    ensures var m := Exec(w, steps).sup.managers[g]; m.cancelled || m.phase.Forgotten?
    ensures var s := Exec(w, steps); Last(s.sup, g) ==>
      s.sup.managers[g].phase.Forgotten? && !s.sup.managers[g].cancelled
  {
    var s := Exec(w, steps);
    Reachable(w, steps);
    assert Sup.ManagerOk(s.sup, g);
    assert forall c :: !Sup.HeldBy(s.sup, c, g);
    assert Last(s.sup, g) ==> LastOk(s.sup, s.marks.stopped, g);
  }

  // ---- Withdrawal ----

  /** A blueprint whose status names an export leaves only when its finalizer is
      released, and then nothing of its offering is left: neither the export nor any
      schema it referenced, no cached graph, no registry entry, no mapped manager, and
      no manager that is not cancelled or done. */
  lemma ReleasedIsWithdrawn(w: World, steps: seq<Step>, step: Step, n: string)
    requires WorldOk(w)
    requires var s := Exec(w, steps); n in s.bps && s.bps[n].exported != "" && n !in Do(w, s, step).bps
    ensures var s := Exec(w, steps);
      var x, s' := s.bps[n].exported, Do(w, s, step);
      && s.bps[n].deleting && Gone(s'.api, x)
      && n !in s'.mem.cache && x !in s'.mem.registry && x !in s'.sup.running
      && forall g :: 0 <= g < |s'.sup.managers| && s'.sup.managers[g].apiExport == x ==>
        s'.sup.managers[g].cancelled || s'.sup.managers[g].phase.Forgotten?
  {
    var s := Exec(w, steps);
    Reachable(w, steps);
    OnlyReleaseRemoves(w, s, step, n);
    NothingRuns(s, s.bps[n].exported);
  }

  lemma CallKeepsKeys(w: World, s: State, op: Op, n: string)
    requires IsCall(s.pc) && n in s.bps && !(s.pc.Releasing? && s.pc.name == n)
    ensures n in DoCall(w, s, op).bps
  {
  }

  lemma OnlyReleaseRemoves(w: World, s: State, step: Step, n: string)
    requires Core(w, s) && n in s.bps && s.bps[n].exported != "" && n !in Do(w, s, step).bps
    ensures s.pc == Releasing(n, s.bps[n].exported)
    ensures var s' := Do(w, s, step); s'.api == s.api && s'.mem == s.mem && s'.sup == s.sup
  {
    assert BpOk(w, s.marks.committed, n, s.bps[n]);
    assert step.Work? && IsCall(s.pc);
    if !(s.pc.Releasing? && s.pc.name == n) {
      CallKeepsKeys(w, s, step.op, n);
      assert false;
    }
  }

  lemma NothingRuns(s: State, x: string)
    requires Stops(s) && s.pc.Releasing? && s.pc.x == x != ""
    ensures forall g :: 0 <= g < |s.sup.managers| && s.sup.managers[g].apiExport == x ==>
      s.sup.managers[g].cancelled || s.sup.managers[g].phase.Forgotten?
  {
    forall g | 0 <= g < |s.sup.managers| && s.sup.managers[g].apiExport == x
      ensures s.sup.managers[g].cancelled || s.sup.managers[g].phase.Forgotten?
    {
      assert Sup.ManagerOk(s.sup, g);
      assert forall c :: !Sup.HeldBy(s.sup, c, g);
    }
  }

  /** Short of its release a withdrawal can always be retried: the export is there, or
      it is gone and so is everything it referenced. */
  lemma WithdrawalIsRetryable(w: World, steps: seq<Step>, n: string)
    requires WorldOk(w)
    requires var s := Exec(w, steps); n in s.bps && s.bps[n].exported != ""
    ensures var s := Exec(w, steps);
      var x := s.bps[n].exported;
      s.bps[n].finalizer && (x in s.api.exports || (s.bps[n].deleting && Gone(s.api, x)))
  {
    Reachable(w, steps);
    assert BpOk(w, Exec(w, steps).marks.committed, n, Exec(w, steps).bps[n]);
  }

  /** An export that some blueprint's status names is there with every schema it
      references, unless that blueprint is being deleted. */
  lemma NamedExportIsWhole(w: World, steps: seq<Step>, n: string)
    requires WorldOk(w)
    requires var s := Exec(w, steps); n in s.bps && s.bps[n].exported != "" && !s.bps[n].deleting
    ensures var s := Exec(w, steps); Whole(s.api, s.bps[n].exported)
  {
    var s := Exec(w, steps);
    var x := s.bps[n].exported;
    Reachable(w, steps);
    assert Whole(s.api, x) || Condemned(s.bps, x);
    if Condemned(s.bps, x) {
      var m :| m in s.bps && s.bps[m].deleting && s.bps[m].exported == x;
      NamesakeIsSame(w, s, n, m);
      assert false;
    }
  }

  /** An export lacks a schema it references only while the blueprint that names it is
      being deleted. */
  lemma DanglingOnlyInWithdrawal(w: World, steps: seq<Step>, x: string)
    requires WorldOk(w) && x in Exec(w, steps).api.exports && !Whole(Exec(w, steps).api, x)
    ensures var s := Exec(w, steps); exists n :: n in s.bps && s.bps[n].deleting && s.bps[n].exported == x
  {
    Reachable(w, steps);
    assert Condemned(Exec(w, steps).bps, x);
  }
}
