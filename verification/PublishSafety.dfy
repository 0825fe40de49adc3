/** What every step of publishing keeps. */
module PublishSafety {
  import opened Routing
  import opened Publish

  type Bps = map<string, Blueprint>

  // ---- Blueprints, cache and the worker's own knowledge ----

  /** A status that names an export was written for a spec that gives this export. */
  ghost predicate BpOk(w: World, committed: map<string, Spec>, n: string, b: Blueprint) {
    && b.spec in w.specs
    && (b.exported == "" ==> b.observed == "")
    && (b.exported != "" ==>
          && b.finalizer && n in committed && committed[n] in w.specs && w.hash(committed[n]) == b.observed
          && Value(w, n, committed[n]).Some? && Value(w, n, committed[n]).value.graph.ApiExport() == b.exported)
  }

  ghost predicate BpsOk(w: World, bps: Bps, committed: map<string, Spec>) {
    forall n :: n in bps ==> BpOk(w, committed, n, bps[n])
  }

  /** A cached graph is what building would give for any spec with its hash. */
  ghost predicate CachedOk(w: World, n: string, c: Cached) {
    forall a :: a in w.specs && w.hash(a) == c.hash ==> w.build(n, a) == Some(c.graph)
  }

  ghost predicate CacheOk(w: World, cache: map<string, Cached>) {
    forall n :: n in cache ==> CachedOk(w, n, cache[n])
  }

  predicate OnJob(pc: Pc) {
    pc.Applying? || pc.Upserting? || pc.Setting? || pc.Taking? || pc.Cancelling? || pc.Ensuring? || pc.Committing?
  }

  predicate Withdrawing(pc: Pc) {
    pc.Fetching? || pc.Erasing? || pc.Purging? || pc.Halting? || pc.Halted? || pc.Unregistering? || pc.Releasing?
  }

  predicate Purged(pc: Pc) { pc.Halting? || pc.Halted? || pc.Unregistering? || pc.Releasing? }

  ghost predicate Guarded(w: World, bps: Bps, n: string, spec: Spec, changed: bool) {
    n in bps && bps[n].finalizer && spec in w.specs && changed == (bps[n].observed != w.hash(spec))
  }

  ghost predicate JobOk(w: World, bps: Bps, job: Job) {
    Guarded(w, bps, job.name, job.spec, job.changed) && Value(w, job.name, job.spec) == Some(job.served)
  }

  ghost predicate WithdrawOk(bps: Bps, n: string, x: string) {
    n in bps && bps[n].finalizer && bps[n].deleting && bps[n].exported == x
  }

  ghost predicate PcOk(w: World, bps: Bps, cache: map<string, Cached>, pc: Pc) {
    && (pc.Guarding? ==> pc.spec in w.specs && pc.changed && (pc.name in bps ==> !bps[pc.name].finalizer))
    && (pc.Building? ==> Guarded(w, bps, pc.name, pc.spec, pc.changed))
    && (OnJob(pc) ==> JobOk(w, bps, pc.job))
    && (Withdrawing(pc) ==> WithdrawOk(bps, pc.name, pc.x))
    && (Purged(pc) ==> pc.name !in cache)
  }

  ghost predicate Core(w: World, s: State) {
    BpsOk(w, s.bps, s.marks.committed) && CacheOk(w, s.mem.cache) && PcOk(w, s.bps, s.mem.cache, s.pc)
  }

  /** In every state the cache and the builder agree, so a pass uses what building the
      spec it read would give. */
  lemma CacheRefinesBuild(w: World, s: State, n: string, spec: Spec)
    requires CacheOk(w, s.mem.cache) && spec in w.specs
    ensures Compile(w, s, n, spec) == w.build(n, spec)
  {
  }

  lemma PutKeepsCache(w: World, cache: map<string, Cached>, n: string, spec: Spec, g: Graph)
    requires WorldOk(w) && CacheOk(w, cache) && spec in w.specs && w.build(n, spec) == Some(g)
    ensures CacheOk(w, cache[n := Cached(w.hash(spec), g)])
  {
  }

  lemma BuildKeepsCore(w: World, s: State)
    requires WorldOk(w) && Core(w, s) && s.pc.Building?
    ensures Core(w, DoBuild(w, s, s.pc.name, s.pc.spec, s.pc.changed))
  {
    var n, spec := s.pc.name, s.pc.spec;
    CacheRefinesBuild(w, s, n, spec);
    if w.build(n, spec).Some? { PutKeepsCache(w, s.mem.cache, n, spec, w.build(n, spec).value); }
  }

  lemma GuardKeepsCore(w: World, s: State, op: Op)
    requires WorldOk(w) && Core(w, s) && s.pc.Guarding?
    ensures Core(w, DoGuard(s, op))
  {
  }

  lemma PublishKeepsCore(w: World, s: State, op: Op)
    requires Core(w, s) && (s.pc.Applying? || s.pc.Upserting?)
    ensures Core(w, DoPublish(w, s, op))
  {
  }

  lemma CommitKeepsCore(w: World, s: State)
    requires WorldOk(w) && Core(w, s) && s.pc.Committing?
    ensures Core(w, DoCommit(w, s))
  {
  }

  lemma WithdrawKeepsCore(w: World, s: State, op: Op)
    requires Core(w, s) && (s.pc.Fetching? || s.pc.Erasing? || s.pc.Releasing?)
    ensures Core(w, DoWithdraw(s, op))
  {
  }

  lemma CallKeepsCore(w: World, s: State, op: Op)
    requires WorldOk(w) && Core(w, s) && IsCall(s.pc)
    ensures Core(w, DoCall(w, s, op))
  {
    if op.Fails? {}
    else if s.pc.Guarding? { GuardKeepsCore(w, s, op); }
    else if s.pc.Building? { BuildKeepsCore(w, s); }
    else if s.pc.Applying? || s.pc.Upserting? { PublishKeepsCore(w, s, op); }
    else if s.pc.Committing? { CommitKeepsCore(w, s); }
    else { WithdrawKeepsCore(w, s, op); }
  }

  lemma LocalKeepsCore(w: World, s: State)
    requires Core(w, s) && !IsCall(s.pc)
    ensures Core(w, DoLocal(w, s))
  {
  }

  lemma CreateKeepsCore(w: World, s: State, n: string, spec: Spec)
    requires Core(w, s)
    ensures Core(w, DoEdit(w, s, Create(n, spec)))
  {
  }

  lemma RespecKeepsCore(w: World, s: State, n: string, spec: Spec)
    requires Core(w, s)
    ensures Core(w, DoEdit(w, s, Edit(n, spec)))
  {
  }

  lemma DeleteKeepsCore(w: World, s: State, n: string)
    requires Core(w, s)
    ensures Core(w, DoEdit(w, s, Delete(n)))
  {
  }

  lemma BeginKeepsCore(w: World, s: State, n: string)
    requires WorldOk(w) && Core(w, s)
    ensures Core(w, BeginPass(w, s, n))
  {
  }

  lemma CoreKeeps(w: World, s: State, step: Step)
    requires WorldOk(w) && Core(w, s)
    ensures Core(w, Do(w, s, step))
  {
    match step
    case Work(op) =>
      if !IsCall(s.pc) { LocalKeepsCore(w, s); }
      else { CallKeepsCore(w, s, op); }
    case Begin(n) => BeginKeepsCore(w, s, n);
    case Create(n, spec) => CreateKeepsCore(w, s, n, spec);
    case Edit(n, spec) => RespecKeepsCore(w, s, n, spec);
    case Delete(n) => DeleteKeepsCore(w, s, n);
    case _ =>
  }
}
