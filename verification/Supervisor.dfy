/** internal/supervisor/supervisor.go: one manager per export, as an interleaving of
    the locked sections of Ensure, Stop and forget with the managers' own lives. */
module Supervisor {

  /** A manager goroutine: not yet past its first read, serving what it read, returned
      from start with forget still to run, or done. */
  datatype Phase<V> = Starting | Serving(what: V) | Returned | Forgotten

  datatype Manager<V> = Manager(apiExport: string, cancelled: bool, phase: Phase<V>)

  /** Generations are numbered in order of creation. `held` is what each Stop call
      under way has taken out of the map and not yet cancelled. */
  datatype State<V> = State(running: map<string, nat>, managers: seq<Manager<V>>, held: map<nat, nat>)

  datatype Step<V> =
    | Ensure(apiExport: string)
    | Take(caller: nat, apiExport: string)
    | Cancel(caller: nat)
    | Load(gen: nat, what: V)
    | Exit(gen: nat)
    | Forget(gen: nat)

  predicate Alive<V>(m: Manager<V>) { m.phase.Starting? || m.phase.Serving? }

  function SetPhase<V>(s: State<V>, g: nat, p: Phase<V>): State<V>
    requires g < |s.managers|
  {
    s.(managers := s.managers[g := s.managers[g].(phase := p)])
  }

  function Do<V>(s: State<V>, step: Step<V>): State<V> {
    match step
    case Ensure(x) =>
      if x in s.running then s
      else s.(running := s.running[x := |s.managers|], managers := s.managers + [Manager(x, false, Starting)])
    case Take(caller, x) =>
      if caller in s.held || x !in s.running then s
      else s.(running := s.running - {x}, held := s.held[caller := s.running[x]])
    case Cancel(caller) =>
      if caller !in s.held || s.held[caller] >= |s.managers| then s
      else
        var g := s.held[caller];
        s.(managers := s.managers[g := s.managers[g].(cancelled := true)], held := s.held - {caller})
    case Load(g, v) =>
      if g < |s.managers| && s.managers[g].phase.Starting? then SetPhase(s, g, Serving(v)) else s
    case Exit(g) =>
      if g < |s.managers| && Alive(s.managers[g]) then SetPhase(s, g, Returned) else s
    case Forget(g) =>
      if g >= |s.managers| || !s.managers[g].phase.Returned? then s
      else
        var x := s.managers[g].apiExport;
        var s' := SetPhase(s, g, Forgotten);
        if x in s.running && s.running[x] == g then s'.(running := s.running - {x}) else s'
  }

  function Start<V>(): State<V> { State(map[], [], map[]) }

  function Exec<V>(steps: seq<Step<V>>): State<V> {
    if steps == [] then Start() else Do(Exec(steps[..|steps| - 1]), steps[|steps| - 1])
  }

  predicate Mapped<V>(s: State<V>, g: nat) {
    g < |s.managers| && s.managers[g].apiExport in s.running && s.running[s.managers[g].apiExport] == g
  }

  predicate HeldBy<V>(s: State<V>, caller: nat, g: nat) { caller in s.held && s.held[caller] == g }

  ghost predicate Held<V>(s: State<V>, g: nat) { exists caller :: HeldBy(s, caller, g) }

  ghost predicate ManagerOk<V>(s: State<V>, g: nat)
    requires g < |s.managers|
  {
    var m := s.managers[g];
    && (Mapped(s, g) ==> !m.cancelled && !m.phase.Forgotten? && !Held(s, g))
    && (Held(s, g) ==> !m.cancelled)
    && (!m.cancelled && !m.phase.Forgotten? ==> Mapped(s, g) || Held(s, g))
  }

  ghost predicate Inv<V>(s: State<V>) {
    && (forall x :: x in s.running ==> s.running[x] < |s.managers| && s.managers[s.running[x]].apiExport == x)
    && (forall c :: c in s.held ==> s.held[c] < |s.managers|)
    && (forall c, d :: c in s.held && d in s.held && s.held[c] == s.held[d] ==> c == d)
    && (forall g :: 0 <= g < |s.managers| ==> ManagerOk(s, g))
  }

  lemma HeldSame<V>(s: State<V>, s': State<V>, g: nat)
    requires s'.held == s.held
    ensures Held(s', g) == Held(s, g)
  {
    assert forall c :: HeldBy(s', c, g) == HeldBy(s, c, g);
  }

  /** Taking an entry out of the map moves it, and nothing else, to the caller. */
  lemma TakeKeeps<V>(s: State<V>, caller: nat, x: string)
    requires Inv(s)
    ensures Inv(Do(s, Take(caller, x)))
  {
    var s' := Do(s, Take(caller, x));
    if s' != s {
      var h := s.running[x];
      assert ManagerOk(s, h);
      forall g | 0 <= g < |s.managers| ensures ManagerOk(s', g) {
        assert ManagerOk(s, g);
        assert HeldBy(s', caller, h);
        forall c | HeldBy(s, c, g) ensures HeldBy(s', c, g) {}
        forall c | HeldBy(s', c, g) ensures g == h || HeldBy(s, c, g) {}
      }
      forall c | c in s.held ensures s.held[c] != h { assert s.held[c] != h || HeldBy(s, c, h); }
    }
  }

  lemma CancelKeeps<V>(s: State<V>, caller: nat)
    requires Inv(s)
    ensures Inv(Do(s, Cancel(caller)))
  {
    var s' := Do(s, Cancel(caller));
    if s' != s {
      var h := s.held[caller];
      assert HeldBy(s, caller, h) && ManagerOk(s, h);
      forall g | 0 <= g < |s.managers| ensures ManagerOk(s', g) {
        assert ManagerOk(s, g);
        forall c | HeldBy(s', c, g) ensures HeldBy(s, c, g) && g != h {}
        forall c | HeldBy(s, c, g) && g != h ensures HeldBy(s', c, g) {}
      }
    }
  }

  lemma EnsureKeeps<V>(s: State<V>, x: string)
    requires Inv(s)
    ensures Inv(Do(s, Ensure(x)))
  {
    var s' := Do(s, Ensure(x));
    if s' != s {
      forall g | 0 <= g < |s'.managers| ensures ManagerOk(s', g) {
        HeldSame(s, s', g);
        if g < |s.managers| {
          assert ManagerOk(s, g);
        } else {
          forall c ensures !HeldBy(s, c, g) {}
        }
      }
    }
  }

  lemma LifeKeepsOne<V>(s: State<V>, step: Step<V>, g: nat)
    requires Inv(s) && (step.Load? || step.Exit? || step.Forget?) && g < |s.managers|
    ensures ManagerOk(Do(s, step), g)
  {
    HeldSame(s, Do(s, step), g);
    assert ManagerOk(s, g);
  }

  /** A manager loading, returning or being forgotten. */
  lemma LifeKeeps<V>(s: State<V>, step: Step<V>)
    requires Inv(s) && (step.Load? || step.Exit? || step.Forget?)
    ensures Inv(Do(s, step))
  {
    var s' := Do(s, step);
    assert |s'.managers| == |s.managers|;
    forall g | 0 <= g < |s'.managers| ensures ManagerOk(s', g) {
      LifeKeepsOne(s, step, g);
    }
  }

  lemma StepKeeps<V>(s: State<V>, step: Step<V>)
    requires Inv(s)
    ensures Inv(Do(s, step))
  {
    match step
    case Ensure(x) => EnsureKeeps(s, x);
    case Take(c, x) => TakeKeeps(s, c, x);
    case Cancel(c) => CancelKeeps(s, c);
    case _ => LifeKeeps(s, step);
  }

  lemma {:induction false} Reachable<V>(steps: seq<Step<V>>)
    ensures Inv(Exec(steps))
  {
    if steps != [] {
      Reachable(steps[..|steps| - 1]);
      StepKeeps(Exec(steps[..|steps| - 1]), steps[|steps| - 1]);
    }
  }

  /** In every interleaving, a manager that is neither cancelled nor done is the one
      mapped for its export, or some Stop holds it and is about to cancel it. */
  lemma NoStrayManager<V>(steps: seq<Step<V>>, g: nat)
    requires var s := Exec(steps); g < |s.managers| && !s.managers[g].cancelled && !s.managers[g].phase.Forgotten?
    ensures var s := Exec(steps); Mapped(s, g) || exists caller :: HeldBy(s, caller, g)
  {
    Reachable(steps);
    assert ManagerOk(Exec(steps), g);
  }

  /** Of two managers of one export that are both alive, at most one is not cancelled
      nor about to be. */
  lemma OneServerPerExport<V>(steps: seq<Step<V>>, g: nat, h: nat)
    requires var s := Exec(steps);
      g < h < |s.managers| && s.managers[g].apiExport == s.managers[h].apiExport && Alive(s.managers[g])
        && Alive(s.managers[h])
    ensures var s := Exec(steps);
      s.managers[g].cancelled || s.managers[h].cancelled || Held(s, g) || Held(s, h)
  {
    Reachable(steps);
    assert ManagerOk(Exec(steps), g) && ManagerOk(Exec(steps), h);
  }

  predicate Serves<V>(s: State<V>, g: nat, x: string) {
    Mapped(s, g) && Alive(s.managers[g]) && s.managers[g].apiExport == x
  }

  predicate LeavesAlone<V>(step: Step<V>, g: nat, x: string) {
    !(step.Exit? && step.gen == g) && !(step.Take? && step.apiExport == x)
  }

  /** The entry of a generation leaves the map only by a Stop of its export or its own
      forget: whatever other generations do, it stays mapped and uncancelled as long
      as its manager runs and nobody stops it. */
  lemma {:induction false} StaysMapped<V>(steps: seq<Step<V>>, more: seq<Step<V>>, g: nat, x: string)
    requires Serves(Exec(steps), g, x) && forall i :: 0 <= i < |more| ==> LeavesAlone(more[i], g, x)
    ensures Serves(Exec(steps + more), g, x) && !Exec(steps + more).managers[g].cancelled
  {
    if more == [] {
      assert steps + more == steps;
    } else {
      var front, last := more[..|more| - 1], more[|more| - 1];
      StaysMapped(steps, front, g, x);
      assert (steps + more)[..|steps + more| - 1] == steps + front;
      OneStepStaysMapped(Exec(steps + front), last, g, x);
    }
    MappedIsUncancelled(steps + more, g);
  }

  lemma MappedIsUncancelled<V>(steps: seq<Step<V>>, g: nat)
    requires Mapped(Exec(steps), g)
    ensures !Exec(steps).managers[g].cancelled
  {
    Reachable(steps);
    assert ManagerOk(Exec(steps), g);
  }

  lemma OneStepStaysMapped<V>(s: State<V>, step: Step<V>, g: nat, x: string)
    requires Serves(s, g, x) && LeavesAlone(step, g, x)
    ensures Serves(Do(s, step), g, x)
  {
  }

  // ---- The object ----

  /** An entry is compared by identity; its manager's life is kept with it. */
  class Entry<V> {
    const apiExport: string
    var cancelled: bool
    var phase: Phase<V>
    ghost const gen: nat

    constructor (apiExport: string, ghost gen: nat)
      ensures this.apiExport == apiExport && this.gen == gen && !cancelled && phase == Starting
    {
      this.apiExport, this.gen := apiExport, gen;
      cancelled, phase := false, Starting;
    }
  }

  ghost function ManagerOf<V>(e: Entry<V>): Manager<V>
    reads e
  {
    Manager(e.apiExport, e.cancelled, e.phase)
  }

  class Supervisor<V> {
    var running: map<string, Entry<V>>
    /** All entries ever made, by generation. */
    ghost var entries: seq<Entry<V>>
    /** What the fields amount to in the machine above. Every method takes a step of it,
        so by StepKeeps the machine's invariant holds here too. */
    ghost var view: State<V>

    ghost predicate Known(e: Entry<V>)
      reads this
    {
      e.gen < |entries| && entries[e.gen] == e
    }

    ghost predicate Valid()
      reads this, entries
    {
      && |entries| == |view.managers| && running.Keys == view.running.Keys
      && (forall g :: 0 <= g < |entries| ==> entries[g].gen == g && view.managers[g] == ManagerOf(entries[g]))
      && (forall x :: x in running ==> Known(running[x]) && running[x].gen == view.running[x])
    }

    constructor ()
      ensures Valid() && view == Start()
    {
      running, entries, view := map[], [], Start();
    }

    /** Starts a manager unless one is mapped. */
    method Ensure(x: string)
      requires Valid()
      modifies this
      ensures Valid() && view == Do(old(view), Step.Ensure(x))
      ensures entries == if x in old(running) then old(entries) else old(entries) + [running[x]]
      ensures x in view.running && view.held == old(view.held)
    {
      if x in running { return; }
      var e := new Entry(x, |entries|);
      running := running[x := e];
      entries := entries + [e];
      view := Do(view, Step.Ensure(x));
    }

    /** The locked half of Stop: out of the map, into the caller's hands. */
    method TakeOut(ghost caller: nat, x: string) returns (e: Entry?<V>)
      requires Valid() && caller !in view.held
      modifies this
      ensures Valid() && view == Do(old(view), Take(caller, x))
      ensures entries == old(entries) && x !in running
      ensures if e == null then caller !in view.held else HeldBy(view, caller, e.gen) && Known(e)
    {
      e := if x in running then running[x] else null;
      running := running - {x};
      view := Do(view, Take(caller, x));
    }

    /** The unlocked half: cancelling what was taken. */
    method CancelHeld(ghost caller: nat, e: Entry?<V>)
      requires Valid() && (if e == null then caller !in view.held else HeldBy(view, caller, e.gen) && Known(e))
      modifies this, e
      ensures Valid() && view == Do(old(view), Cancel(caller)) && entries == old(entries) && running == old(running)
    {
      if e != null {
        e.cancelled := true;
        view := Do(view, Cancel(caller));
      }
    }

    /** Stop as one caller runs it. */
    method Stop(ghost caller: nat, x: string)
      requires Valid() && caller !in view.held
      modifies this, entries
      ensures Valid() && view == Do(Do(old(view), Take(caller, x)), Cancel(caller)) && entries == old(entries)
      ensures caller !in view.held && x !in view.running
    {
      var e := TakeOut(caller, x);
      CancelHeld(caller, e);
    }

    /** A manager's start function returning. */
    method Return(e: Entry<V>)
      requires Valid() && Known(e) && (e.phase.Starting? || e.phase.Serving?)
      modifies this, e
      ensures Valid() && view == Do(old(view), Exit(e.gen)) && entries == old(entries) && running == old(running)
    {
      e.phase := Returned;
      view := Do(view, Exit(e.gen));
    }

    /** Clears the entry of a manager that has returned, if it is still the mapped one. */
    method Forget(e: Entry<V>)
      requires Valid() && Known(e) && e.phase.Returned?
      modifies this, e
      ensures Valid() && view == Do(old(view), Step.Forget(e.gen)) && entries == old(entries)
    {
      assert view.managers[e.gen] == ManagerOf(e);
      e.phase := Forgotten;
      if e.apiExport in running && running[e.apiExport] == e {
        running := running - {e.apiExport};
        assert view.running[e.apiExport] == e.gen;
      } else {
        assert e.apiExport in running ==> view.running[e.apiExport] != e.gen;
      }
      view := Do(view, Step.Forget(e.gen));
    }

    method Running(x: string) returns (yes: bool)
      requires Valid()
      ensures yes <==> x in view.running
    {
      yes := x in running;
    }
  }
}
