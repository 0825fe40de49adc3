/** What a prune spares: the pass it belongs to, told by the steps of the run. */
module LifecyclePrune {
  import opened GvkCodec
  import opened Routing
  import opened Naming
  import opened Stores
  import opened Lifecycle
  import opened LifecycleSafety
  import opened LifecycleTheorems

  /** What a worker has done since it last began a pass: the objects it applied, whether
      the engine got through, and whether it has put its record. */
  datatype Done = Done(applied: set<Addr>, complete: bool, recorded: bool)

  /** The worker of `k` begins a pass with this step. */
  predicate Begins(s: State, step: Step, k: InstKey) { step == Work(k, Get) && PcOf(s, k).Idle? }

  /** It applies the object at `a`. */
  predicate Applies(w: World, s: State, step: Step, k: InstKey, a: Addr) {
    step.Work? && step.k == k && step.op.Apply? && step.op.a == a && PcOf(s, k).Applying? && w.renders(k, a)
  }

  /** Its record stands, with the kinds it has just written. */
  predicate Records(w: World, s: State, step: Step, k: InstKey)
    requires HexDigest(w.digest)
  {
    && step.Work? && step.k == k && step.op.PutRecord? && PcOf(s, k).PuttingRecord?
    && var r, s' := RecordAddr(w, k.cluster, PcOf(s, k).uid), Do(w, s, step);
       && r in s'.objs && s'.objs[r].live && s'.objs[r].uid == Some(PcOf(s, k).uid)
       && s'.objs[r].providerKinds == GvkString(step.op.provider) && s'.objs[r].hostKinds == GvkString(step.op.host)
  }

  function NextDone(w: World, s: State, step: Step, k: InstKey, d: Done): Done
    requires HexDigest(w.digest)
  {
    if Begins(s, step, k) then Done({}, false, false)
    else if step.Work? && step.op.Apply? && Applies(w, s, step, k, step.op.a)
    then d.(applied := d.applied + {step.op.a})
    else if step.Work? && step.k == k && step.op.FinishEngine? && PcOf(s, k).Applying?
    then d.(complete := step.op.complete)
    else if Records(w, s, step, k) then d.(recorded := true)
    else d
  }

  function DoneBy(w: World, objs: map<Addr, Obj>, steps: seq<Step>, k: InstKey): Done
    requires HexDigest(w.digest)
  {
    if steps == [] then Done({}, false, false)
    else
      var front := steps[..|steps| - 1];
      NextDone(w, Exec(w, objs, front), steps[|steps| - 1], k, DoneBy(w, objs, front, k))
  }

  /** What the worker remembers is what it has done. It prunes only with its engine
      through and its record put, and lists nothing that it has applied. */
  predicate Remembers(pc: Pc, d: Done) {
    match pc
    case Applying(_, applied) => applied == d.applied
    case ReadingRecord(_, applied, complete) => applied == d.applied && complete == d.complete
    case PuttingRecord(_, applied, complete, _) => applied == d.applied && complete == d.complete
    case Pruning(_, keep, _, listed) => keep == d.applied && d.complete && d.recorded && listed !! keep
    case _ => true
  }

  lemma ListRemembers(w: World, s: State, k: InstKey, op: WorkOp, d: Done)
    requires HexDigest(w.digest) && Remembers(PcOf(s, k), d) && (op.ListKind? || op.DeleteListed?)
    ensures Remembers(PcOf(DoWork(w, s, k, op), k), d)
  {
  }

  lemma PutRemembers(w: World, s: State, k: InstKey, provider: seq<GVK>, host: seq<GVK>, d: Done)
    requires HexDigest(w.digest) && Remembers(PcOf(s, k), d)
    ensures var step := Work(k, PutRecord(provider, host));
      Remembers(PcOf(Do(w, s, step), k), if Records(w, s, step, k) then d.(recorded := true) else d)
  {
    assert PcOf(Busy(s, k), k) == PcOf(s, k);
  }

  /** The remaining moves: none begins a pass, applies or finishes the engine. */
  lemma MoveRemembers(w: World, s: State, k: InstKey, op: WorkOp, d: Done)
    requires HexDigest(w.digest) && Remembers(PcOf(s, k), d)
    requires op.AddFinalizer? || op.GetRecord? || op.ReapDone? || op.DropRecord? || op.Release? || op.Abort?
    ensures Remembers(PcOf(DoWork(w, s, k, op), k), d)
  {
  }

  lemma PassRemembers(w: World, s: State, k: InstKey, op: WorkOp, d: Done)
    requires HexDigest(w.digest) && Remembers(PcOf(s, k), d) && (op.Get? || op.Apply? || op.FinishEngine?)
    ensures Remembers(PcOf(DoWork(w, s, k, op), k), NextDone(w, s, Work(k, op), k, d))
  {
  }

  lemma OwnStepRemembers(w: World, s: State, k: InstKey, op: WorkOp, d: Done)
    requires HexDigest(w.digest) && Remembers(PcOf(s, k), d)
    ensures Remembers(PcOf(Do(w, s, Work(k, op)), k), NextDone(w, s, Work(k, op), k, d))
  {
    var b := Busy(s, k);
    assert PcOf(b, k) == PcOf(s, k);
    if op.ListKind? || op.DeleteListed? {
      ListRemembers(w, b, k, op, d);
    } else if op.PutRecord? {
      PutRemembers(w, s, k, op.provider, op.host, d);
    } else if op.Get? || op.Apply? || op.FinishEngine? {
      PassRemembers(w, b, k, op, d);
    } else {
      MoveRemembers(w, b, k, op, d);
    }
  }

  lemma OtherStepsLeave(w: World, s: State, step: Step, k: InstKey)
    requires HexDigest(w.digest) && !(step.Work? && step.k == k)
    ensures PcOf(Do(w, s, step), k) == PcOf(s, k)
  {
    match step
    case Env(e) =>
    case Work(j, op) => WorkMovesOnlyItself(w, Busy(s, j), j, op, k);
    case Sweeper(op) =>
  }

  lemma {:induction false} WorkerRemembers(w: World, objs: map<Addr, Obj>, steps: seq<Step>, k: InstKey)
    requires HexDigest(w.digest)
    ensures Remembers(PcOf(Exec(w, objs, steps), k), DoneBy(w, objs, steps, k))
  {
    if steps != [] {
      var front, last := steps[..|steps| - 1], steps[|steps| - 1];
      WorkerRemembers(w, objs, front, k);
      if last.Work? && last.k == k {
        OwnStepRemembers(w, Exec(w, objs, front), k, last.op, DoneBy(w, objs, front, k));
      } else {
        OtherStepsLeave(w, Exec(w, objs, front), last, k);
      }
    }
  }

  /** Step `i` of the run begins a pass of the worker of `k`. */
  predicate BeginsAt(w: World, objs: map<Addr, Obj>, steps: seq<Step>, k: InstKey, i: nat)
    requires HexDigest(w.digest)
  {
    i < |steps| && Begins(Exec(w, objs, steps[..i]), steps[i], k)
  }

  /** Step `i` of the run applies the object at `a`. */
  predicate AppliesAt(w: World, objs: map<Addr, Obj>, steps: seq<Step>, k: InstKey, a: Addr, i: nat)
    requires HexDigest(w.digest)
  {
    i < |steps| && Applies(w, Exec(w, objs, steps[..i]), steps[i], k, a)
  }

  lemma PrefixSteps(steps: seq<Step>, i: nat)
    requires i + 1 < |steps|
    ensures var front := steps[..|steps| - 1]; front[i] == steps[i] && front[..i] == steps[..i]
  {
  }

  lemma SameEarlier(w: World, objs: map<Addr, Obj>, steps: seq<Step>, k: InstKey, a: Addr, i: nat)
    requires HexDigest(w.digest) && i + 1 < |steps|
    ensures var front := steps[..|steps| - 1];
      && (BeginsAt(w, objs, front, k, i) <==> BeginsAt(w, objs, steps, k, i))
      && (AppliesAt(w, objs, front, k, a, i) <==> AppliesAt(w, objs, steps, k, a, i))
  {
    PrefixSteps(steps, i);
  }

  lemma NextStays(w: World, s: State, step: Step, k: InstKey, d: Done, a: Addr)
    requires HexDigest(w.digest)
    ensures a in NextDone(w, s, step, k, d).applied <==>
            Applies(w, s, step, k, a) || (a in d.applied && !Begins(s, step, k))
  {
  }

  /** What was applied stays on the account until the next pass begins. */
  lemma {:induction false} AppliedSince(w: World, objs: map<Addr, Obj>, steps: seq<Step>, k: InstKey, a: Addr, i: nat)
    requires HexDigest(w.digest) && AppliesAt(w, objs, steps, k, a, i)
    requires forall j :: i < j < |steps| ==> !BeginsAt(w, objs, steps, k, j)
    ensures a in DoneBy(w, objs, steps, k).applied
  {
    var front, last, n := steps[..|steps| - 1], steps[|steps| - 1], |steps| - 1;
    NextStays(w, Exec(w, objs, front), last, k, DoneBy(w, objs, front, k), a);
    if i < n {
      SameEarlier(w, objs, steps, k, a, i);
      forall j | i < j < n ensures !BeginsAt(w, objs, front, k, j) { SameEarlier(w, objs, steps, k, a, j); }
      AppliedSince(w, objs, front, k, a, i);
      assert !BeginsAt(w, objs, steps, k, n);
    }
  }

  /** In every run, a pruning worker removes nothing that it has applied since it began
      its pass: before it removes `a`, it has begun another pass after every step that
      applied `a`. And it prunes only after the engine got through the whole graph and
      the record was put. */
  lemma PruneSparesItsPass(w: World, objs: map<Addr, Obj>, steps: seq<Step>, k: InstKey, op: WorkOp, a: Addr)
    requires HexDigest(w.digest)
    requires var s := Exec(w, objs, steps);
      PcOf(s, k).Pruning? && a in s.objs && a !in Do(w, s, Work(k, op)).objs
    ensures forall i :: 0 <= i < |steps| && AppliesAt(w, objs, steps, k, a, i) ==>
      exists j :: i < j < |steps| && BeginsAt(w, objs, steps, k, j)
    ensures var d := DoneBy(w, objs, steps, k); a !in d.applied && d.complete && d.recorded
  {
    assert a !in DoneBy(w, objs, steps, k).applied by {
      WorkerRemembers(w, objs, steps, k);
      WorkerRemovesRemovable(w, Exec(w, objs, steps), k, op, a);
    }
    WorkerRemembers(w, objs, steps, k);
    forall i | 0 <= i < |steps| && AppliesAt(w, objs, steps, k, a, i)
      ensures exists j :: i < j < |steps| && BeginsAt(w, objs, steps, k, j)
    {
      if forall j :: i < j < |steps| ==> !BeginsAt(w, objs, steps, k, j) {
        AppliedSince(w, objs, steps, k, a, i);
        assert false;
      }
    }
  }

  /** ... and it is thorough: when the prune is through, whatever carries the instance's
      label, in any store, this pass has applied, the record aside. */
  lemma PruneLeavesItsPass(w: World, objs: map<Addr, Obj>, steps: seq<Step>, k: InstKey, a: Addr)
    requires WorldOk(w) && Pristine(w, objs)
    requires var s := Exec(w, objs, steps);
      && PcOf(s, k).Pruning? && PcOf(Do(w, s, Work(k, ReapDone)), k).Idle?
      && a in s.objs && s.objs[a].uid == Some(PcOf(s, k).uid)
    ensures var s := Exec(w, objs, steps);
      a in DoneBy(w, objs, steps, k).applied || a == RecordAddr(w, k.cluster, PcOf(s, k).uid)
  {
    var s := Exec(w, objs, steps);
    DoneWhenEmpty(w, s, k);
    assert PcOk(w, s, k, PcOf(s, k)) by { Reachable(w, objs, steps); }
    KeptAreLeft(w, s, k, PcOf(s, k), a);
    WorkerRemembers(w, objs, steps, k);
  }

  lemma DoneWhenEmpty(w: World, s: State, k: InstKey)
    requires HexDigest(w.digest) && PcOf(s, k).Pruning? && PcOf(Do(w, s, Work(k, ReapDone)), k).Idle?
    ensures PcOf(s, k).todo == {} && PcOf(s, k).listed == {}
  {
    assert PcOf(Busy(s, k), k) == PcOf(s, k);
  }

  lemma KeptAreLeft(w: World, s: State, k: InstKey, pc: Pc, a: Addr)
    requires HexDigest(w.digest) && pc.Pruning? && PcOk(w, s, k, pc) && pc.todo == {} && pc.listed == {}
    requires a in s.objs && s.objs[a].uid == Some(pc.uid)
    ensures a in pc.keep || a == RecordAddr(w, k.cluster, pc.uid)
  {
    assert a == OwnRecord(w, s, pc.uid) || a in pc.listed + pc.keep;
  }
}
