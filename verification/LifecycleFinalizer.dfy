/** When krop's finalizer is put on and taken off, over every run. */
module LifecycleFinalizer {
  import opened Naming
  import opened Lifecycle
  import opened LifecycleSafety
  import opened LifecycleTheorems

  /** An instance object still as the worker read it is the one it read, without the
      finalizer and not being deleted. */
  predicate ReadAs(s: State, k: InstKey) {
    PcOf(s, k).AddingFinalizer? ==>
      && PcOf(s, k).rv < s.clock
      && (k in s.insts && s.insts[k].rv == PcOf(s, k).rv ==>
            s.insts[k].uid == PcOf(s, k).uid && !s.insts[k].deleting && !s.insts[k].finalizer)
  }

  lemma WorkKeepsRead(w: World, s: State, j: InstKey, op: WorkOp, k: InstKey)
    requires HexDigest(w.digest) && InstsOk(w, s) && ReadAs(s, k)
    ensures ReadAs(DoWork(w, s, j, op), k)
  {
    if j != k { WorkMovesOnlyItself(w, s, j, op, k); }
    if op.AddFinalizer? || op.Release? {
    } else {
      WorkLeavesInstances(w, s, j, op);
      WorkLeavesClock(w, s, j, op);
    }
  }

  lemma WorkLeavesClock(w: World, s: State, j: InstKey, op: WorkOp)
    requires HexDigest(w.digest) && !op.AddFinalizer? && !op.Release?
    ensures DoWork(w, s, j, op).clock == s.clock
  {
  }

  lemma EnvKeepsRead(w: World, s: State, e: EnvOp, k: InstKey)
    requires HexDigest(w.digest) && ReadAs(s, k)
    ensures ReadAs(DoEnv(w, s, e), k)
  {
  }

  lemma SweepKeepsRead(w: World, s: State, op: SweepOp, k: InstKey)
    requires HexDigest(w.digest) && ReadAs(s, k)
    ensures ReadAs(DoSweep(w, s, op), k)
  {
  }

  lemma {:induction false} StaysRead(w: World, objs: map<Addr, Obj>, steps: seq<Step>, k: InstKey)
    requires WorldOk(w) && Pristine(w, objs)
    ensures ReadAs(Exec(w, objs, steps), k)
  {
    if steps != [] {
      var front, last := steps[..|steps| - 1], steps[|steps| - 1];
      var s := Exec(w, objs, front);
      StaysRead(w, objs, front, k);
      Reachable(w, objs, front);
      match last
      case Env(e) => EnvKeepsRead(w, s, e, k);
      case Work(j, op) => WorkKeepsRead(w, Busy(s, j), j, op, k);
      case Sweeper(op) => SweepKeepsRead(w, s, op, k);
    }
  }

  /** In every run the finalizer is put on only by the instance's own worker, and only on
      the object it read, which nobody has begun to delete since. */
  lemma FinalizerGoesOnTheLiving(w: World, objs: map<Addr, Obj>, steps: seq<Step>, step: Step, k: InstKey)
    requires WorldOk(w) && Pristine(w, objs)
    requires GoesOn(Exec(w, objs, steps), Do(w, Exec(w, objs, steps), step), k)
    ensures var s := Exec(w, objs, steps);
      step == Work(k, AddFinalizer) && PcOf(s, k).AddingFinalizer? && s.insts[k].uid == PcOf(s, k).uid
        && !s.insts[k].deleting
  {
    StaysRead(w, objs, steps, k);
    FinalizerChanges(w, Exec(w, objs, steps), step, k);
  }

  /** The finalizer of instance `k` goes on, or off. */
  predicate GoesOn(s: State, s': State, k: InstKey) {
    k in s.insts && !s.insts[k].finalizer && k in s'.insts && s'.insts[k].finalizer
  }

  predicate ComesOff(s: State, s': State, k: InstKey) {
    k in s.insts && s.insts[k].finalizer && (k !in s'.insts || !s'.insts[k].finalizer)
  }

  lemma EnvLeavesFinalizer(w: World, s: State, e: EnvOp, k: InstKey)
    requires HexDigest(w.digest)
    ensures !GoesOn(s, DoEnv(w, s, e), k) && !ComesOff(s, DoEnv(w, s, e), k)
  {
  }

  lemma UpdateChanges(s: State, j: InstKey, rv: nat, finalizer: bool, k: InstKey)
    ensures GoesOn(s, WorkUpdate(s, j, rv, finalizer), k) ==> j == k && finalizer && s.insts[k].rv == rv
    ensures ComesOff(s, WorkUpdate(s, j, rv, finalizer), k) ==> j == k && !finalizer && s.insts[k].rv == rv
  {
  }

  lemma WorkChanges(w: World, s: State, j: InstKey, op: WorkOp, k: InstKey)
    requires HexDigest(w.digest)
    ensures GoesOn(s, DoWork(w, s, j, op), k) ==>
      j == k && op == AddFinalizer && PcOf(s, k).AddingFinalizer? && s.insts[k].rv == PcOf(s, k).rv
    ensures ComesOff(s, DoWork(w, s, j, op), k) ==> j == k && op == Release && PcOf(s, k).Releasing?
  {
    if op.AddFinalizer? {
      if PcOf(s, j).AddingFinalizer? { UpdateChanges(s, j, PcOf(s, j).rv, true, k); }
    } else if op.Release? {
      if PcOf(s, j).Releasing? { UpdateChanges(s, j, PcOf(s, j).rv, false, k); }
    } else {
      WorkLeavesInstances(w, s, j, op);
    }
  }

  lemma FinalizerChanges(w: World, s: State, step: Step, k: InstKey)
    requires HexDigest(w.digest)
    ensures GoesOn(s, Do(w, s, step), k) ==>
      step == Work(k, AddFinalizer) && PcOf(s, k).AddingFinalizer? && s.insts[k].rv == PcOf(s, k).rv
    ensures ComesOff(s, Do(w, s, step), k) ==> step == Work(k, Release) && PcOf(s, k).Releasing?
  {
    match step
    case Env(e) => EnvLeavesFinalizer(w, s, e, k);
    case Work(j, op) => WorkChanges(w, Busy(s, j), j, op, k);
    case Sweeper(op) =>
  }

  /** ... and it is taken off only by that worker, only from an instance that is being
      deleted, and only when nothing of it is left in any store. */
  lemma FinalizerComesOffTheSpotless(w: World, objs: map<Addr, Obj>, steps: seq<Step>, step: Step, k: InstKey)
    requires WorldOk(w) && Pristine(w, objs)
    requires ComesOff(Exec(w, objs, steps), Do(w, Exec(w, objs, steps), step), k)
    ensures var s := Exec(w, objs, steps);
      && step == Work(k, Release) && s.insts[k].deleting
      && s.insts[k].uid in s.homes && Spotless(w, s, s.insts[k].uid)
  {
    var s := Exec(w, objs, steps);
    Reachable(w, objs, steps);
    FinalizerChanges(w, s, step, k);
    assert PcOk(w, s, k, PcOf(s, k));
  }
}
