/** Runs of the lifecycle protocol that show where its guarantees end, for every world
    in which they can happen. */
module LifecycleRace {
  import opened GvkCodec
  import opened Routing
  import opened Naming
  import opened Stores
  import opened Lifecycle
  import opened LifecycleSafety
  import opened LifecycleTheorems

  // ---- Building runs ----

  type Machine = (State, Step) -> State

  /** `f` is the machine's step function. */
  ghost predicate IsStep(w: World, f: Machine)
    requires HexDigest(w.digest)
  {
    forall s, e {:trigger Do(w, s, e)} :: f(s, e) == Do(w, s, e)
  }

  const START := State(map[], map[], map[], map[], Off, 0)

  ghost function Run(f: Machine, steps: seq<Step>): State {
    if steps == [] then START else f(Run(f, steps[..|steps| - 1]), steps[|steps| - 1])
  }

  lemma {:induction false} RunIsExec(w: World, f: Machine, steps: seq<Step>)
    requires HexDigest(w.digest) && IsStep(w, f)
    ensures Run(f, steps) == Exec(w, map[], steps)
  {
    if steps != [] {
      var front, last := steps[..|steps| - 1], steps[|steps| - 1];
      RunIsExec(w, f, front);
      assert f(Exec(w, map[], front), last) == Do(w, Exec(w, map[], front), last);
    }
  }

  lemma Stepper(w: World) returns (f: Machine)
    requires HexDigest(w.digest)
    ensures IsStep(w, f)
  {
    f := (s: State, e: Step) requires HexDigest(w.digest) => Do(w, s, e);
  }

  lemma Advance(w: World, f: Machine, steps: seq<Step>, s: State, step: Step) returns (steps': seq<Step>, s': State)
    requires HexDigest(w.digest) && IsStep(w, f) && Run(f, steps) == s
    ensures steps' == steps + [step] && s' == Do(w, s, step) && Run(f, steps') == s'
  {
    steps', s' := steps + [step], Do(w, s, step);
    assert steps'[..|steps|] == steps;
  }

  // ---- Parts of runs, while the sweeper is off ----

  /** The step is one of the worker of `k`, or creates or deletes its instance. */
  predicate Concerns(step: Step, k: InstKey) {
    (step.Work? && step.k == k) || (step.Env? && (step.env.Create? || step.env.Delete?) && step.env.k == k)
  }

  /** The run goes on with steps that concern `k` only. */
  ghost predicate About(steps: seq<Step>, steps': seq<Step>, k: InstKey) {
    steps <= steps' && forall i :: |steps| <= i < |steps'| ==> Concerns(steps'[i], k)
  }

  lemma AboutTwice(steps: seq<Step>, steps': seq<Step>, steps'': seq<Step>, k: InstKey)
    requires About(steps, steps', k) && About(steps', steps'', k)
    ensures About(steps, steps'', k)
  {
  }

  /** The worker of `k` stands at `pc`, and its instance is there with its finalizer. */
  predicate At(s: State, k: InstKey, u: string, pc: Pc) {
    && s.sweep.Off? && k in s.insts && s.insts[k].uid == u && s.insts[k].finalizer && !s.insts[k].deleting
    && s.insts[k].rv < s.clock && PcOf(s, k) == pc
  }

  /** Whatever concerns the instance `j` is as it was. */
  predicate SameFor(s: State, s': State, j: InstKey) {
    (j in s.insts <==> j in s'.insts) && (j in s.insts ==> s'.insts[j] == s.insts[j]) && PcOf(s', j) == PcOf(s, j)
  }

  ghost predicate Besides(s: State, s': State, k: InstKey) {
    s.sweep.Off? && s'.sweep.Off? && s.clock <= s'.clock && forall j :: j != k ==> SameFor(s, s', j)
  }

  lemma BesidesTwice(s: State, s': State, s'': State, k: InstKey)
    requires Besides(s, s', k) && Besides(s', s'', k)
    ensures Besides(s, s'', k)
  {
    forall j | j != k ensures SameFor(s, s'', j) {
      assert SameFor(s, s', j) && SameFor(s', s'', j);
    }
  }

  /** An instance is created, and its worker reads it. */
  lemma Appear(w: World, f: Machine, steps: seq<Step>, s: State, k: InstKey, u: string)
    returns (steps': seq<Step>, s': State)
    requires HexDigest(w.digest) && IsStep(w, f) && Run(f, steps) == s && s.sweep.Off?
    requires k !in s.insts && u !in s.homes && (k.cluster, u) in w.ids && PcOf(s, k).Idle?
    ensures Run(f, steps') == s' && Besides(s, s', k) && PcOf(s', k) == AddingFinalizer(u, s.clock)
    ensures k in s'.insts && s'.insts[k] == Inst(u, s.clock, false, false, false) && s'.clock == s.clock + 1
    ensures s'.objs == s.objs && s'.homes == s.homes[u := k]
    ensures About(steps, steps', k)
  {
    steps', s' := Advance(w, f, steps, s, Env(Create(k, u, false)));
    steps', s' := Advance(w, f, steps', s', Work(k, Get));
  }

  /** An instance is created and gets its finalizer; its worker begins to apply. */
  lemma Enrol(w: World, f: Machine, steps: seq<Step>, s: State, k: InstKey, u: string)
    returns (steps': seq<Step>, s': State)
    requires HexDigest(w.digest) && IsStep(w, f) && Run(f, steps) == s && s.sweep.Off?
    requires k !in s.insts && u !in s.homes && (k.cluster, u) in w.ids && PcOf(s, k).Idle?
    ensures Run(f, steps') == s' && At(s', k, u, Applying(u, {})) && Besides(s, s', k)
    ensures s'.objs == s.objs && s'.homes == s.homes[u := k]
    ensures About(steps, steps', k)
  {
    var s1;
    steps', s1 := Appear(w, f, steps, s, k, u);
    ghost var read := steps';
    steps', s' := Advance(w, f, steps', s1, Work(k, AddFinalizer));
    steps', s' := Advance(w, f, steps', s', Work(k, Get));
    BesidesTwice(s, s1, s', k);
    AboutTwice(steps, read, steps', k);
  }

  /** It applies an object. */
  lemma Take(w: World, f: Machine, steps: seq<Step>, s: State, k: InstKey, u: string, a: Addr)
    returns (steps': seq<Step>, s': State)
    requires HexDigest(w.digest) && IsStep(w, f) && Run(f, steps) == s && At(s, k, u, Applying(u, {}))
    requires w.renders(k, a)
    ensures Run(f, steps') == s' && At(s', k, u, Applying(u, {a})) && Besides(s, s', k) && s'.homes == s.homes
    ensures s'.objs.Keys == s.objs.Keys + {a} && s'.objs[a].uid == Some(u)
    ensures forall b :: b in s.objs && b != a ==> s'.objs[b] == s.objs[b]
    ensures About(steps, steps', k)
  {
    steps', s' := Advance(w, f, steps, s, Work(k, Apply(a, "")));
  }

  /** Its pass fails, and the next one begins. */
  lemma Restart(w: World, f: Machine, steps: seq<Step>, s: State, k: InstKey, u: string, pc: Pc)
    returns (steps': seq<Step>, s': State)
    requires HexDigest(w.digest) && IsStep(w, f) && Run(f, steps) == s && At(s, k, u, pc)
    ensures Run(f, steps') == s' && At(s', k, u, Applying(u, {})) && Besides(s, s', k) && s'.homes == s.homes
    ensures s'.objs == s.objs
    ensures About(steps, steps', k)
  {
    steps', s' := Advance(w, f, steps, s, Work(k, Abort));
    steps', s' := Advance(w, f, steps', s', Work(k, Get));
  }

  lemma {:induction false} Listing<T>(s: set<T>) returns (l: seq<T>)
    ensures Elems(l) == s
  {
    if s == {} {
      l := [];
    } else {
      var x :| x in s;
      var rest := Listing(s - {x});
      l := rest + [x];
      assert Elems(l) == Elems(rest) + {x};
    }
  }

  /** The engine is done, and the worker finds no record. */
  lemma ReadRecord(w: World, f: Machine, steps: seq<Step>, s: State, k: InstKey, u: string, applied: set<Addr>,
                   complete: bool)
    returns (steps': seq<Step>, s': State)
    requires HexDigest(w.digest) && IsStep(w, f) && Run(f, steps) == s && At(s, k, u, Applying(u, applied))
    requires RecordAddr(w, k.cluster, u) !in s.objs
    ensures Run(f, steps') == s' && Besides(s, s', k) && s'.homes == s.homes && s'.objs == s.objs
    ensures At(s', k, u, PuttingRecord(u, applied, complete, false))
    ensures About(steps, steps', k)
  {
    steps', s' := Advance(w, f, steps, s, Work(k, FinishEngine(complete)));
    assert PcOf(s', k) == ReadingRecord(u, applied, complete);
    steps', s' := Advance(w, f, steps', s', Work(k, GetRecord));
  }

  /** The engine is done, and the worker writes a record where there was none. */
  lemma WriteRecord(w: World, f: Machine, steps: seq<Step>, s: State, k: InstKey, u: string, applied: set<Addr>,
                    complete: bool)
    returns (steps': seq<Step>, s': State)
    requires HexDigest(w.digest) && IsStep(w, f) && Run(f, steps) == s && At(s, k, u, Applying(u, applied))
    requires RecordAddr(w, k.cluster, u) !in s.objs
    ensures Run(f, steps') == s' && Besides(s, s', k) && s'.homes == s.homes
    ensures At(s', k, u, if complete then Pruning(u, applied, AllKinds(w, k), {}) else Idle)
    ensures s'.objs.Keys == s.objs.Keys + {RecordAddr(w, k.cluster, u)}
    ensures s'.objs[RecordAddr(w, k.cluster, u)].live && s'.objs[RecordAddr(w, k.cluster, u)].uid == Some(u)
    ensures forall b :: b in s.objs ==> s'.objs[b] == s.objs[b]
    ensures About(steps, steps', k)
  {
    var s1;
    steps', s1 := ReadRecord(w, f, steps, s, k, u, applied, complete);
    ghost var read := steps';
    steps', s' := Put(w, f, steps', s1, k, u, applied, complete);
    BesidesTwice(s, s1, s', k);
    AboutTwice(steps, read, steps', k);
  }

  lemma Put(w: World, f: Machine, steps: seq<Step>, s: State, k: InstKey, u: string, applied: set<Addr>, complete: bool)
    returns (steps': seq<Step>, s': State)
    requires HexDigest(w.digest) && IsStep(w, f) && Run(f, steps) == s
    requires At(s, k, u, PuttingRecord(u, applied, complete, false)) && RecordAddr(w, k.cluster, u) !in s.objs
    ensures Run(f, steps') == s' && Besides(s, s', k) && s'.homes == s.homes
    ensures At(s', k, u, if complete then Pruning(u, applied, AllKinds(w, k), {}) else Idle)
    ensures s'.objs.Keys == s.objs.Keys + {RecordAddr(w, k.cluster, u)}
    ensures s'.objs[RecordAddr(w, k.cluster, u)].live && s'.objs[RecordAddr(w, k.cluster, u)].uid == Some(u)
    ensures forall b :: b in s.objs ==> s'.objs[b] == s.objs[b]
    ensures About(steps, steps', k)
  {
    var provider := Listing(w.kinds(k.blueprint, Provider));
    var host := Listing(w.kinds(k.blueprint, Host));
    steps', s' := Advance(w, f, steps, s, Work(k, PutRecord(provider, host)));
  }

  lemma KindToList(w: World, k: InstKey, a: Addr)
    requires WorldOk(w) && w.renders(k, a)
    ensures (TargetOf(a.place), a.gvk) in AllKinds(w, k) && PlaceOf(k, TargetOf(a.place)) == a.place
  {
    assert Scope(w, k, a);
  }

  /** The worker has listed `a` for deletion. */
  predicate Lists(s: State, k: InstKey, u: string, a: Addr) {
    (PcOf(s, k).Pruning? || PcOf(s, k).Collecting?) && PcOf(s, k).uid == u && a in PcOf(s, k).listed
  }

  /** A worker that renders nothing any more lists its object for pruning. */
  lemma ListToPrune(w: World, f: Machine, steps: seq<Step>, s: State, k: InstKey, u: string, a: Addr)
    returns (steps': seq<Step>, s': State)
    requires WorldOk(w) && IsStep(w, f) && Run(f, steps) == s && At(s, k, u, Pruning(u, {}, AllKinds(w, k), {}))
    requires w.renders(k, a)
    requires a in s.objs && s.objs[a].uid == Some(u)
    ensures Run(f, steps') == s' && Besides(s, s', k) && s'.homes == s.homes && s'.objs == s.objs && Lists(s', k, u, a)
    ensures About(steps, steps', k)
  {
    KindToList(w, k, a);
    steps', s' := Advance(w, f, steps, s, Work(k, ListKind(TargetOf(a.place), a.gvk)));
    assert s' == WorkList(s, k, PcOf(s, k), TargetOf(a.place), a.gvk);
    forall j | j != k ensures SameFor(s, s', j) {
      assert s'.insts == s.insts && (j in s'.pcs <==> j in s.pcs);
    }
  }

  /** An instance renders `a` once and then no more; its worker is about to prune it. */
  lemma AboutToPrune(w: World, f: Machine, k: InstKey, a: Addr, u: string) returns (steps: seq<Step>, s: State)
    requires WorldOk(w) && IsStep(w, f) && w.renders(k, a) && (k.cluster, u) in w.ids
    ensures Run(f, steps) == s && Besides(START, s, k) && Lists(s, k, u, a)
    ensures s.homes == map[u := k] && a in s.objs && s.objs[a].uid == Some(u)
    ensures About([], steps, k)
  {
    var s1, s2;
    steps, s := Owns(w, f, [], START, k, u, a);
    ghost var r0 := steps;
    steps, s1 := Restart(w, f, steps, s, k, u, Applying(u, {a}));
    ghost var r1 := steps;
    assert RecordAddr(w, k.cluster, u) != a by {
      RenderedIsNoRecord(w, k, a);
      assert (k.cluster, u) in w.ids;
    }
    steps, s2 := WriteRecord(w, f, steps, s1, k, u, {}, true);
    ghost var r2 := steps;
    BesidesTwice(START, s, s1, k);
    BesidesTwice(START, s1, s2, k);
    steps, s := ListToPrune(w, f, steps, s2, k, u, a);
    BesidesTwice(START, s2, s, k);
    AboutTwice([], r0, r1, k);
    AboutTwice([], r1, r2, k);
    AboutTwice([], r2, steps, k);
  }

  /** An instance is created and applies `a`. */
  lemma Owns(w: World, f: Machine, steps: seq<Step>, s: State, k: InstKey, u: string, a: Addr)
    returns (steps': seq<Step>, s': State)
    requires HexDigest(w.digest) && IsStep(w, f) && Run(f, steps) == s && s.sweep.Off?
    requires k !in s.insts && u !in s.homes && (k.cluster, u) in w.ids && PcOf(s, k).Idle? && w.renders(k, a)
    ensures Run(f, steps') == s' && At(s', k, u, Applying(u, {a})) && Besides(s, s', k) && s'.homes == s.homes[u := k]
    ensures s'.objs.Keys == s.objs.Keys + {a} && s'.objs[a].uid == Some(u)
    ensures About(steps, steps', k)
  {
    var mid;
    steps', mid := Enrol(w, f, steps, s, k, u);
    ghost var between := steps';
    steps', s' := Take(w, f, steps', mid, k, u, a);
    BesidesTwice(s, mid, s', k);
    AboutTwice(steps, between, steps', k);
  }

  /** "No pass deletes an object lacking its instance's label" fails for every two
      instances that render a common object: a delete call names an object, not a
      version of it, and here the second applies it between the first one's listing and
      its delete. OnlyTakenOverIsLost says that nothing else can happen. */
  lemma PruneCanDeleteAStrangersChild(w: World, k: InstKey, k': InstKey, a: Addr, u: string, u': string)
    returns (steps: seq<Step>)
    requires WorldOk(w) && k != k' && w.renders(k, a) && w.renders(k', a)
    requires (k.cluster, u) in w.ids && (k'.cluster, u') in w.ids && u != u'
    ensures !LabelStripped(steps, a)
    ensures var s := Exec(w, map[], steps);
      && a in s.objs && s.objs[a].uid == Some(u') && u' in s.homes && s.homes[u'] == k'
      && Lists(s, k, u, a) && a !in Do(w, s, Work(k, DeleteListed(a))).objs
  {
    var f := Stepper(w);
    var s;
    steps, s := TakenOverWhileListed(w, f, k, k', a, u, u');
    RunIsExec(w, f, steps);
  }

  lemma TakenOverWhileListed(w: World, f: Machine, k: InstKey, k': InstKey, a: Addr, u: string, u': string)
    returns (steps: seq<Step>, s: State)
    requires WorldOk(w) && IsStep(w, f) && k != k' && w.renders(k, a) && w.renders(k', a)
    requires (k.cluster, u) in w.ids && (k'.cluster, u') in w.ids && u != u'
    ensures Run(f, steps) == s && !LabelStripped(steps, a) && Lists(s, k, u, a)
    ensures a in s.objs && s.objs[a].uid == Some(u') && u' in s.homes && s.homes[u'] == k'
  {
    var s1;
    steps, s1 := AboutToPrune(w, f, k, a, u);
    assert SameFor(START, s1, k');
    ghost var listed := steps;
    steps, s := Owns(w, f, steps, s1, k', u', a);
    assert SameFor(s1, s, k);
    assert forall i :: 0 <= i < |listed| ==> steps[i] == listed[i];
  }

  /** Some other instance can render `a` beside one of `k`. */
  ghost predicate Contested(w: World, k: InstKey, a: Addr) {
    exists k', u, u' :: k' != k && w.renders(k', a) && (k.cluster, u) in w.ids && (k'.cluster, u') in w.ids && u != u'
  }

  /** In the run `steps` nobody strips labels, and yet the worker of `k` can now remove
      at `a` an object without its instance's label. */
  ghost predicate Wrongs(w: World, steps: seq<Step>, k: InstKey, a: Addr)
    requires HexDigest(w.digest)
  {
    var s := Exec(w, map[], steps);
    !LabelStripped(steps, a) && exists op ::
      && a in s.objs && a !in Do(w, s, Work(k, op)).objs
      && (Removable(w, s, k, a) ==> s.objs[a].uid != Some(PcOf(s, k).uid))
  }

  /** So, strangers' writes aside, a worker deletes only what carries its own instance's
      label if and only if no other instance renders the object. */
  lemma DeletesOnlyOwnExactly(w: World, k: InstKey, a: Addr)
    requires WorldOk(w) && w.renders(k, a)
    ensures Contested(w, k, a) <==> exists steps :: Wrongs(w, steps, k, a)
  {
    if Contested(w, k, a) {
      var k', u, u' :| k' != k && w.renders(k', a) && (k.cluster, u) in w.ids && (k'.cluster, u') in w.ids && u != u';
      var steps := PruneCanDeleteAStrangersChild(w, k, k', a, u, u');
      assert Wrongs(w, steps, k, a);
    }
    forall steps | Wrongs(w, steps, k, a) ensures Contested(w, k, a) { WrongedIsContested(w, steps, k, a); }
  }

  lemma WrongedIsContested(w: World, steps: seq<Step>, k: InstKey, a: Addr)
    requires WorldOk(w) && Wrongs(w, steps, k, a)
    ensures Contested(w, k, a)
  {
    var s := Exec(w, map[], steps);
    var op :| a in s.objs && a !in Do(w, s, Work(k, op)).objs;
    OnlyTakenOverIsLost(w, map[], steps, k, op, a);
    Reachable(w, map[], steps);
    var u' := s.objs[a].uid.value;
    assert PcOk(w, s, k, PcOf(s, k));
    assert (s.homes[u'].cluster, u') in w.ids && (k.cluster, PcOf(s, k).uid) in w.ids;
  }

  /** The same happens when somebody strips the label after the listing. */
  lemma PruneCanDeleteTheUnlabelled(w: World, k: InstKey, a: Addr, u: string) returns (steps: seq<Step>)
    requires WorldOk(w) && w.renders(k, a) && (k.cluster, u) in w.ids
    ensures var s := Exec(w, map[], steps);
      a in s.objs && s.objs[a].uid == None && Lists(s, k, u, a) && a !in Do(w, s, Work(k, DeleteListed(a))).objs
  {
    var f := Stepper(w);
    var s;
    steps, s := AboutToPrune(w, f, k, a, u);
    RenderedIsNoRecord(w, k, a);
    steps, s := Advance(w, f, steps, s, Env(EnvOp.Write(a, Obj(None, false, "", "", ""))));
    RunIsExec(w, f, steps);
  }

  // ---- Namesakes ----

  /** An instance is deleted, and its worker lists `a` for deletion. */
  lemma ListToCollect(w: World, f: Machine, steps: seq<Step>, s: State, k: InstKey, u: string, pc: Pc, a: Addr)
    returns (steps': seq<Step>, s': State)
    requires WorldOk(w) && IsStep(w, f) && Run(f, steps) == s && At(s, k, u, pc) && w.renders(k, a)
    requires a in s.objs && s.objs[a].uid == Some(u)
    ensures Run(f, steps') == s' && Besides(s, s', k) && s'.homes == s.homes && s'.objs == s.objs && Lists(s', k, u, a)
    ensures About(steps, steps', k)
  {
    KindToList(w, k, a);
    var s1;
    ghost var begun;
    steps', s1 := BeginCollecting(w, f, steps, s, k, u, pc);
    begun := steps';
    steps', s' := Advance(w, f, steps', s1, Work(k, ListKind(TargetOf(a.place), a.gvk)));
    assert s' == WorkList(s1, k, PcOf(s1, k), TargetOf(a.place), a.gvk);
    forall j | j != k ensures SameFor(s1, s', j) {}
    BesidesTwice(s, s1, s', k);
    AboutTwice(steps, begun, steps', k);
  }

  lemma BeginCollecting(w: World, f: Machine, steps: seq<Step>, s: State, k: InstKey, u: string, pc: Pc)
    returns (steps': seq<Step>, s': State)
    requires HexDigest(w.digest) && IsStep(w, f) && Run(f, steps) == s && At(s, k, u, pc)
    ensures Run(f, steps') == s' && Besides(s, s', k) && s'.homes == s.homes && s'.objs == s.objs
    ensures About(steps, steps', k)
    ensures PcOf(s', k).Collecting? && PcOf(s', k) == Collecting(u, PcOf(s', k).rv, AllKinds(w, k), {})
  {
    steps', s' := Advance(w, f, steps, s, Work(k, Abort));
    assert s' == Goto(s, k, Idle);
    steps', s' := Advance(w, f, steps', s', Env(Delete(k)));
    assert k in s'.insts && s'.insts[k].deleting && s'.insts[k].finalizer && s'.insts[k].uid == u && PcOf(s', k).Idle?;
    steps', s' := Advance(w, f, steps', s', Work(k, Get));
  }

  /** Two instances that render a common object share it: the second one takes the
      first one's child over and, deleted in its turn, removes it, while the first one
      stays as it is. Outside the consumer workspaces such instances are namesakes, by
      ScopeSharedOnlyByNamesakes: names hold neither namespace nor blueprint. */
  lemma NamesakeTakesOverAndRemoves(w: World, k: InstKey, k': InstKey, a: Addr, u: string, u': string)
    returns (first: seq<Step>, s1: State, second: seq<Step>, s2: State, third: seq<Step>, s3: State)
    requires WorldOk(w) && k != k' && w.renders(k, a) && w.renders(k', a)
    requires (k.cluster, u) in w.ids && (k'.cluster, u') in w.ids && u != u'
    ensures About(first, second, k') && About(second, third, k')
    ensures s1 == Exec(w, map[], first) && s2 == Exec(w, map[], second) && s3 == Exec(w, map[], third)
    ensures a in s1.objs && s1.objs[a].uid == Some(u) && u in s1.homes && s1.homes[u] == k
    ensures a in s2.objs && s2.objs[a].uid == Some(u') && u' in s2.homes && s2.homes[u'] == k'
    ensures a !in s3.objs && k in s3.insts && s3.insts[k].uid == u && s3.insts[k].finalizer && !s3.insts[k].deleting
  {
    var f := Stepper(w);
    first, s1 := Owns(w, f, [], START, k, u, a);
    assert SameFor(START, s1, k');
    second, s2, third, s3 := TakesOverAndRemoves(w, f, first, s1, k, k', a, u, u');
    RunIsExec(w, f, first);
    RunIsExec(w, f, second);
    RunIsExec(w, f, third);
  }

  lemma TakesOverAndRemoves(w: World, f: Machine, first: seq<Step>, s1: State, k: InstKey, k': InstKey, a: Addr,
                            u: string, u': string)
    returns (second: seq<Step>, s2: State, third: seq<Step>, s3: State)
    requires WorldOk(w) && IsStep(w, f) && Run(f, first) == s1 && k != k' && w.renders(k', a)
    requires (k'.cluster, u') in w.ids
    requires k in s1.insts && k' !in s1.insts && u' !in s1.homes && PcOf(s1, k').Idle? && s1.sweep.Off?
    ensures Run(f, second) == s2 && Run(f, third) == s3 && About(first, second, k') && About(second, third, k')
    ensures a in s2.objs && s2.objs[a].uid == Some(u') && u' in s2.homes && s2.homes[u'] == k'
    ensures a !in s3.objs && k in s3.insts && s3.insts[k] == s1.insts[k]
  {
    second, s2 := Owns(w, f, first, s1, k', u', a);
    third, s3 := ListToCollect(w, f, second, s2, k', u', Applying(u', {a}), a);
    ghost var listed := third;
    assert SameFor(s1, s2, k) && SameFor(s2, s3, k);
    third, s3 := Advance(w, f, third, s3, Work(k', DeleteListed(a)));
    AboutTwice(second, listed, third, k');
  }
}
