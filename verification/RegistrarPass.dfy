/** Registrar.Reconcile (internal/registrar/registrar.go): one pass over a blueprint,
    call by call, refining the machine of module Publish. */
module RegistrarPass {
  import opened Routing
  import opened Claims
  import opened Publish
  import opened PublishSafety
  import opened Registrar
  import Sup = Supervisor

  type StepFn = (State, Op) -> State

  /** `step` is the worker's step in the machine of module Publish. */
  ghost predicate IsWork(w: World, step: StepFn) {
    forall s, op {:trigger DoWork(w, s, op)} :: step(s, op) == DoWork(w, s, op)
  }

  /** Running the worker from `s` through calls with the given outcomes. */
  ghost function RunOps(step: StepFn, s: State, ops: seq<Op>): State {
    if ops == [] then s else step(RunOps(step, s, ops[..|ops| - 1]), ops[|ops| - 1])
  }

  lemma RunOne(step: StepFn, s: State, ops: seq<Op>, op: Op)
    ensures RunOps(step, s, ops + [op]) == step(RunOps(step, s, ops), op)
  {
    assert (ops + [op])[..|ops|] == ops;
  }

  lemma {:induction false} RunMore(step: StepFn, s: State, ops: seq<Op>, more: seq<Op>)
    ensures RunOps(step, s, ops + more) == RunOps(step, RunOps(step, s, ops), more)
  {
    if more == [] {
      assert ops + more == ops;
    } else {
      RunMore(step, s, ops, more[..|more| - 1]);
      assert (ops + more)[..|ops + more| - 1] == ops + more[..|more| - 1];
    }
  }

  /** A pass is a run of the machine, so what holds in every reachable state of the
      machine holds after it. */
  lemma {:induction false} PassIsARun(w: World, step: StepFn, steps: seq<Step>, n: string, ops: seq<Op>)
    returns (steps': seq<Step>)
    requires IsWork(w, step)
    ensures Exec(w, steps') == RunOps(step, BeginPass(w, Exec(w, steps), n), ops)
    decreases |ops|
  {
    if ops == [] {
      steps' := steps + [Begin(n)];
      assert steps'[..|steps|] == steps;
    } else {
      var front := PassIsARun(w, step, steps, n, ops[..|ops| - 1]);
      steps' := front + [Work(ops[|ops| - 1])];
      assert steps'[..|front|] == front;
      assert step(Exec(w, front), ops[|ops| - 1]) == DoWork(w, Exec(w, front), ops[|ops| - 1]);
    }
  }

  predicate Misrouted(spec: Spec, id: string) {
    DeclaredTarget(spec.resources, id) != "" && ParseTarget(DeclaredTarget(spec.resources, id)).None?
  }

  /** Typed routing of a spec, as ToKro and ParseTarget give it. */
  ghost predicate RoutedAs(spec: Spec, routing: Option<map<string, Target>>) {
    && (routing.None? <==> exists id :: Misrouted(spec, id))
    && (routing.Some? ==> forall id ::
          && (id in routing.value <==> DeclaredTarget(spec.resources, id) != "")
          && (id in routing.value ==> ParseTarget(DeclaredTarget(spec.resources, id)) == Some(routing.value[id])))
  }

  lemma RoutedUniquely(spec: Spec, a: Option<map<string, Target>>, b: Option<map<string, Target>>)
    requires RoutedAs(spec, a) && RoutedAs(spec, b)
    ensures a == b
  {
    if a.Some? && b.Some? {
      assert forall id :: id in a.value <==> id in b.value;
      forall id | id in a.value ensures a.value[id] == b.value[id] {
        assert ParseTarget(DeclaredTarget(spec.resources, id)) == Some(a.value[id]);
      }
      assert a.value == b.value;
    }
  }

  /** ToKro and the typing of its targets. */
  method Route(w: World, spec: Spec) returns (routing: Option<map<string, Target>>)
    requires RoutedAs(spec, w.routing(spec))
    ensures routing == w.routing(spec)
  {
    var _, raw := ToKro(spec.resources);
    routing := TypedRouting(raw);
    assert forall id :: id in raw <==> DeclaredTarget(spec.resources, id) != "";
    assert RoutedAs(spec, routing);
    RoutedUniquely(spec, routing, w.routing(spec));
  }

  /** What one build step does. */
  lemma BuildStep(w: World, s: State, g: Option<Graph>, cache': map<string, Cached>, served: Option<Served>)
    requires s.pc.Building? && g == Compile(w, s, s.pc.name, s.pc.spec)
    requires cache' == if g.Some? then s.mem.cache[s.pc.name := Cached(w.hash(s.pc.spec), g.value)] else s.mem.cache
    requires served == if g.Some? && w.routing(s.pc.spec).Some? then Some(Served(g.value, w.routing(s.pc.spec).value))
      else None
    ensures var s' := DoWork(w, s, Go);
      && s'.bps == s.bps && s'.api == s.api && s'.sup == s.sup && s'.mem == Memory(cache', s.mem.registry)
      && s'.pc == if served.Some? then Applying(Job(s.pc.name, s.pc.spec, s.pc.changed, served.value)) else Idle
  {
  }

  /** The cache holds what building gives, and `spec` is one of the specs that occur. */
  ghost predicate RightCache(w: World, s: State, spec: Spec) { CacheOk(w, s.mem.cache) && spec in w.specs }

  /** Schemas have gone from `before`, all of them listed in `refs`. */
  ghost predicate Erased(before: map<string, Graph>, after: map<string, Graph>, refs: seq<string>) {
    && (forall sn :: sn in before && sn !in after ==> sn in refs)
    && (forall sn :: sn in after ==> sn in before && after[sn] == before[sn])
  }

  ghost predicate Needs(v: Served, gr: GroupResource) {
    Writes(v.graph.nodes, v.graph.own, v.routing, gr) || Reads(v.graph.nodes, v.graph.own, v.routing, gr)
  }

  /** Some foreign type is needed in the consumer workspace, and each such type outside
      the core group has an identity. */
  ghost predicate Claimable(v: Served, identity: map<GroupResource, string>) {
    && (exists id :: id in v.graph.nodes && Foreign(v.graph.nodes[id], v.graph.own, v.routing))
    && (forall gr :: Needs(v, gr) && gr.group != "" ==> IdentityOf(identity, gr) != "")
  }

  ghost predicate Publishable(w: World, n: string, spec: Spec, identity: map<GroupResource, string>) {
    Value(w, n, spec).Some? && Claimable(Value(w, n, spec).value, identity)
  }

  lemma ResolvedExactly(claims: seq<Claim>, v: Served, identity: map<GroupResource, string>)
    requires ClaimsFor(claims, v.graph.nodes, v.graph.own, v.routing, identity)
    ensures (forall c :: c in claims && c.gr.group != "" ==> c.identityHash != "") <==>
            (forall gr :: Needs(v, gr) && gr.group != "" ==> IdentityOf(identity, gr) != "")
  {
    forall c | c in claims ensures Needs(v, c.gr) && c.identityHash == IdentityOf(identity, c.gr) {
      assert Claimed(claims, c.gr);
    }
    forall gr | Needs(v, gr)
      ensures exists c :: c in claims && c.gr == gr && c.identityHash == IdentityOf(identity, gr)
    {
      assert Claimed(claims, gr);
    }
  }

  type Fits = (Served, seq<Claim>, map<GroupResource, string>) -> bool

  /** `fits` says of claims whether they are those a graph and its routing call for. */
  ghost predicate IsFits(fits: Fits) {
    forall v, cs, ids {:trigger ClaimsFor(cs, v.graph.nodes, v.graph.own, v.routing, ids)} ::
      fits(v, cs, ids) <==> ClaimsFor(cs, v.graph.nodes, v.graph.own, v.routing, ids)
  }

  /** The process with the API objects it works on. `model` is the state of the machine
      these fields amount to. */
  class Process {
    const w: World
    const workspace: string
    const cache: GraphCache
    const registry: Registry
    const sup: Sup.Supervisor<Served>
    var bps: map<string, Blueprint>
    var schemas: map<string, Graph>
    var exports: map<string, seq<string>>
    /** The permission claims of each export. */
    var claims: map<string, seq<Claim>>
    /** The identities found in the workspace's bindings. */
    var identity: map<GroupResource, string>
    ghost var model: State
    ghost const step: StepFn
    ghost const fits: Fits
    /** How many calls have failed or lost their answer. */
    ghost var faults: nat

    /** Everything but the managers. */
    ghost predicate Stored()
      reads this, cache, registry
    {
      && IsWork(w, step) && IsFits(fits)
      && model.bps == bps && model.api.schemas == schemas && model.api.exports == exports
      && Holds(cache.m, workspace, model.mem.cache) && model.mem.registry == registry.m
    }

    ghost predicate Valid()
      reads this, cache, registry, sup, sup.entries
    {
      Stored() && sup.Valid() && sup.view == model.sup && 0 !in model.sup.held
    }

    constructor (w: World, workspace: string)
      ensures Valid() && model == START && fresh(cache) && fresh(registry) && fresh(sup)
      ensures this.w == w && this.workspace == workspace
    {
      this.w, this.workspace := w, workspace;
      step := (s: State, op: Op) => DoWork(w, s, op);
      fits := (v: Served, cs: seq<Claim>, ids: map<GroupResource, string>) =>
        ClaimsFor(cs, v.graph.nodes, v.graph.own, v.routing, ids);
      cache := new GraphCache();
      registry := new Registry();
      sup := new Sup.Supervisor();
      bps, schemas, exports, claims, identity := map[], map[], map[], map[], map[];
      faults := 0;
      model := START;
    }

    // ---- Publishing ----

    method AddFinalizer(n: string) returns (ok: bool, ghost op: Op)
      requires Stored() && model.pc.Guarding? && model.pc.name == n && n in bps && !bps[n].deleting
      modifies this`bps, this`model, this`faults
      ensures Stored() && model == step(old(model), op) && model.sup == old(model.sup)
      ensures model.pc == if ok then Building(n, old(model).pc.spec, old(model).pc.changed) else Idle
      ensures bps.Keys == old(bps).Keys && model.mem == old(model.mem)
      ensures faults == old(faults) + (if ok then 0 else 1)
    {
      var lost: bool := *;
      ok := *;
      op := if ok then Go else if lost then Lost else Fails;
      if !ok { faults := faults + 1; }
      if ok || lost { bps := bps[n := bps[n].(finalizer := true)]; }
      model := DoWork(w, model, op);
    }

    /** Cache, build and routing. */
    method Compile(n: string, spec: Spec, routing: Option<map<string, Target>>)
      returns (served: Option<Served>, ghost op: Op)
      requires Stored() && model.pc.Building? && model.pc.name == n && model.pc.spec == spec
      requires routing == w.routing(spec)
      modifies this`model, this`faults, cache`m
      ensures Stored() && model == step(old(model), op) && model.sup == old(model.sup)
      ensures model.pc == if served.Some? then Applying(Job(n, spec, old(model).pc.changed, served.value)) else Idle
      ensures RightCache(w, old(model), spec) ==> served == Value(w, n, spec)
      ensures faults == old(faults)
    {
      op := Go;
      var g, cache' := LookupOrBuild(cache, workspace, w, n, spec, model.mem.cache);
      served := if g.Some? && routing.Some? then Some(Served(g.value, routing.value)) else None;
      BuildStep(w, model, g, cache', served);
      ghost var next := DoWork(w, model, op);
      assert next.mem.cache == cache' && next.mem.registry == model.mem.registry;
      model := next;
    }

    /** applyARS: create the schema v<hash>.<plural>.<group> unless it is there already. */
    method ApplySchema(job: Job) returns (ok: bool, ghost op: Op)
      requires Stored() && model.pc == Applying(job)
      modifies this`schemas, this`model, this`faults
      ensures Stored() && model == step(old(model), op) && model.sup == old(model.sup)
      ensures model.pc == if ok then Upserting(job) else Idle
      ensures forall sn :: sn in old(schemas) ==> sn in schemas && schemas[sn] == old(schemas)[sn]
      ensures ok ==> SchemaOf(w, job) in schemas
      ensures var own := job.served.graph.own;
        forall sn :: sn in schemas && sn !in old(schemas) ==>
          sn == "v" + w.hash(job.spec) + "." + (own.resource + "." + own.group) && schemas[sn] == job.served.graph
      ensures faults == old(faults) + (if ok then 0 else 1)
    {
      var sn := SchemaOf(w, job);
      var got: bool := *;
      var lost: bool := *;
      ok := *;
      if !got {
        ok, op := false, Fails;
        faults := faults + 1;
      } else if sn in schemas {
        ok, op := true, Go;
      } else {
        op := if ok then Go else if lost then Lost else Fails;
        if !ok { faults := faults + 1; }
        if ok || lost { schemas := schemas[sn := job.served.graph]; }
      }
      model := DoWork(w, model, op);
    }

    /** Permission claims from the identities found in the workspace's bindings. */
    method ResolveClaims(job: Job) returns (cs: Option<seq<Claim>>)
      requires IsFits(fits)
      ensures cs.Some? <==> Claimable(job.served, identity)
      ensures cs.Some? ==> fits(job.served, cs.value, identity)
      ensures cs.Some? ==>
        ClaimsFor(cs.value, job.served.graph.nodes, job.served.graph.own, job.served.routing, identity)
    {
      var g := job.served.graph;
      var merged := PublishedClaims(g.nodes, g.own, job.served.routing, identity);
      if merged.Panic? { return None; }
      var bad := ValidateClaims(merged.claims);
      ResolvedExactly(merged.claims, job.served, identity);
      return if bad.None? then Some(merged.claims) else None;
    }

    /** The export is called <plural>.<group>. */
    method UpsertExport(job: Job, cs: Option<seq<Claim>>) returns (ok: bool, ghost op: Op)
      requires Stored() && model.pc == Upserting(job)
      modifies this`exports, this`claims, this`model, this`faults
      ensures Stored() && model == step(old(model), op) && model.sup == old(model.sup)
      ensures model.pc == if ok then Setting(job) else Idle
      ensures cs.None? ==> !ok && exports == old(exports) && claims == old(claims)
      ensures ok ==> cs.Some?
      ensures ok ==>
        var own := job.served.graph.own;
        var x := own.resource + "." + own.group;
        && exports == old(exports)[x := ["v" + w.hash(job.spec) + "." + x]] && claims == old(claims)[x := cs.value]
        && x == ExportOf(job)
      ensures faults == old(faults) + (if ok || cs.None? then 0 else 1)
    {
      var lost: bool := *;
      ok := *;
      if cs.None? { ok, lost := false, false; }
      op := if ok then Go else if lost then Lost else Fails;
      if !ok && cs.Some? { faults := faults + 1; }
      if ok || lost {
        exports := exports[ExportOf(job) := [SchemaOf(w, job)]];
        claims := claims[ExportOf(job) := cs.value];
      }
      model := DoWork(w, model, op);
    }

    method WriteStatus(job: Job) returns (ok: bool, ghost op: Op)
      requires Stored() && model.pc == Committing(job) && job.name in bps
      modifies this`bps, this`model, this`faults
      ensures Stored() && model == step(old(model), op) && model.sup == old(model.sup) && model.pc == Idle
      ensures ok ==>
        bps == old(bps)[job.name := old(bps)[job.name].(exported := ExportOf(job), observed := w.hash(job.spec))]
      ensures faults == old(faults) + (if ok then 0 else 1)
    {
      var lost: bool := *;
      ok := *;
      op := if ok then Go else if lost then Lost else Fails;
      if !ok { faults := faults + 1; }
      if ok || lost { bps := bps[job.name := bps[job.name].(exported := ExportOf(job), observed := w.hash(job.spec))]; }
      model := DoWork(w, model, op);
    }

    /** OnPublished: registry, then Stop if the spec changed, then Ensure. */
    method Notify(job: Job) returns (ghost ops: seq<Op>)
      requires Valid() && model.pc == Setting(job)
      modifies this`model, this`faults, registry`m, sup, sup.entries
      ensures Valid() && model == RunOps(step, old(model), ops) && model.pc == Committing(job)
      ensures registry.m == old(registry.m)[ExportOf(job) := job.served]
      ensures ExportOf(job) in sup.view.running
      ensures faults == old(faults)
    {
      ops := NotifySteps(w, step, model, job);
      ghost var next := RunOps(step, model, ops);
      assert next.mem.cache == model.mem.cache && next.mem.registry == model.mem.registry[ExportOf(job) := job.served];
      OnPublished(registry, sup, ExportOf(job), job.served, job.changed);
      model := next;
    }

    // ---- Withdrawal ----

    /** The first half of DeletePublishedAPI: which schemas does the export reference? */
    method FetchExport(n: string, x: string) returns (ok: bool, refs: Option<seq<string>>, ghost op: Op)
      requires Stored() && model.pc == Fetching(n, x)
      modifies this`model, this`faults
      ensures Stored() && model == step(old(model), op) && model.sup == old(model.sup)
      ensures ok ==> refs == if x in exports then Some(exports[x]) else None
      ensures model.pc == if !ok then Idle else if refs.Some? then Erasing(n, x, refs.value) else Purging(n, x)
      ensures faults == old(faults) + (if ok then 0 else 1)
    {
      ok := *;
      op := if ok then Go else Fails;
      if !ok { faults := faults + 1; }
      refs := if x in exports then Some(exports[x]) else None;
      model := DoWork(w, model, op);
    }

    method EraseSchema(n: string, x: string, todo: seq<string>) returns (ok: bool, ghost op: Op)
      requires Stored() && model.pc == Erasing(n, x, todo) && todo != []
      modifies this`schemas, this`model, this`faults
      ensures Stored() && model == step(old(model), op) && model.sup == old(model.sup)
      ensures model.pc == if ok then Erasing(n, x, todo[1..]) else Idle
      ensures schemas == old(schemas) - {todo[0]} || (!ok && schemas == old(schemas))
      ensures faults == old(faults) + (if ok then 0 else 1)
    {
      var lost: bool := *;
      ok := *;
      op := if ok then Go else if lost then Lost else Fails;
      if !ok { faults := faults + 1; }
      if ok || lost { schemas := schemas - {todo[0]}; }
      model := DoWork(w, model, op);
    }

    method EraseExport(n: string, x: string) returns (ok: bool, ghost op: Op)
      requires Stored() && model.pc == Erasing(n, x, [])
      modifies this`exports, this`model, this`faults
      ensures Stored() && model == step(old(model), op) && model.sup == old(model.sup)
      ensures model.pc == if ok then Purging(n, x) else Idle
      ensures exports == old(exports) - {x} || (!ok && exports == old(exports))
      ensures faults == old(faults) + (if ok then 0 else 1)
    {
      var lost: bool := *;
      ok := *;
      op := if ok then Go else if lost then Lost else Fails;
      if !ok { faults := faults + 1; }
      if ok || lost { exports := exports - {x}; }
      model := DoWork(w, model, op);
    }

    /** Schemas first, the export last: if the export is gone so is every schema it
        referenced, whatever failed; and nothing else is touched. */
    method DeletePublishedAPI(n: string, x: string) returns (ok: bool, ghost ops: seq<Op>)
      requires Stored() && model.pc == Fetching(n, x)
      modifies this`schemas, this`exports, this`model, this`faults
      ensures Stored() && model == RunOps(step, old(model), ops) && model.sup == old(model.sup)
      ensures model.pc == if ok then Purging(n, x) else Idle
      ensures exports == old(exports) || exports == old(exports) - {x}
      ensures ok ==> x !in exports
      ensures x in old(exports) && x !in exports ==> forall sn :: sn in old(exports)[x] ==> sn !in schemas
      ensures Erased(old(schemas), schemas, if x in old(exports) then old(exports)[x] else [])
      ensures faults == old(faults) + (if ok then 0 else 1)
    {
      ghost var start := model;
      var refs;
      ghost var op;
      ok, refs, op := FetchExport(n, x);
      RunOne(step, start, [], op);
      ops := [] + [op];
      if !ok || refs.None? { return; }
      ghost var more;
      ok, more := EraseSchemas(n, x, refs.value);
      RunMore(step, start, ops, more);
      ops := ops + more;
      if !ok { return; }
      ok, op := EraseExport(n, x);
      RunOne(step, start, ops, op);
      ops := ops + [op];
    }

    /** Only the listed schemas go, and all of them if no call fails. */
    method EraseSchemas(n: string, x: string, refs: seq<string>) returns (ok: bool, ghost ops: seq<Op>)
      requires Stored() && model.pc == Erasing(n, x, refs)
      modifies this`schemas, this`model, this`faults
      ensures Stored() && model == RunOps(step, old(model), ops) && model.sup == old(model.sup)
      ensures model.pc == if ok then Erasing(n, x, []) else Idle
      ensures ok ==> forall sn :: sn in refs ==> sn !in schemas
      ensures Erased(old(schemas), schemas, refs)
      ensures faults == old(faults) + (if ok then 0 else 1)
    {
      ghost var start := model;
      var todo := refs;
      ops := [];
      while todo != []
        invariant Stored() && model == RunOps(step, start, ops) && model.sup == start.sup
        invariant model.pc == Erasing(n, x, todo)
        invariant forall sn :: sn in todo ==> sn in refs
        invariant forall sn :: sn in refs ==> sn in todo || sn !in schemas
        invariant Erased(old(schemas), schemas, refs) && faults == old(faults)
        decreases |todo|
      {
        ghost var op;
        ok, op := EraseSchema(n, x, todo);
        RunOne(step, start, ops, op);
        ops := ops + [op];
        if !ok { return; }
        todo := todo[1..];
      }
      ok := true;
    }

    method PurgeCache(n: string, x: string) returns (ghost op: Op)
      requires Stored() && model.pc == Purging(n, x)
      modifies cache`m, this`model, this`faults
      ensures Stored() && model == step(old(model), op) && model.sup == old(model.sup)
      ensures model.pc == (if x == "" then Releasing(n, x) else Halting(n, x)) && BpKey(workspace, n) !in cache.m
      ensures faults == old(faults)
    {
      op := Go;
      cache.Delete(workspace, n, model.mem.cache);
      ghost var next := DoWork(w, model, op);
      assert next.mem.cache == model.mem.cache - {n} && next.mem.registry == model.mem.registry;
      model := next;
      assert HoldsFor(cache.m, workspace, model.mem.cache, n);
    }

    /** OnDeleted: Stop, then the registry. */
    method TearDown(n: string, x: string) returns (ghost ops: seq<Op>)
      requires Valid() && model.pc == Halting(n, x) && x != ""
      modifies this`model, this`faults, registry`m, sup, sup.entries
      ensures Valid() && model == RunOps(step, old(model), ops) && model.pc == Releasing(n, x)
      ensures x !in registry.m && x !in sup.view.running && sup.entries == old(sup.entries)
      ensures faults == old(faults)
    {
      ops := TearDownSteps(w, step, model, n, x);
      ghost var next := RunOps(step, model, ops);
      assert next.mem.cache == model.mem.cache && next.mem.registry == model.mem.registry - {x};
      OnDeleted(registry, sup, x);
      model := next;
    }

    /** The finalizer goes, and with it the object. */
    method Release(n: string, x: string) returns (ok: bool, ghost op: Op)
      requires Stored() && model.pc == Releasing(n, x)
      modifies this`bps, this`model, this`faults
      ensures Stored() && model == step(old(model), op) && model.sup == old(model.sup) && model.pc == Idle
      ensures bps == old(bps) - {n} || (!ok && bps == old(bps))
      ensures faults == old(faults) + (if ok then 0 else 1)
    {
      var lost: bool := *;
      ok := *;
      op := if ok then Go else if lost then Lost else Fails;
      if !ok { faults := faults + 1; }
      if ok || lost { bps := bps - {n}; }
      model := DoWork(w, model, op);
    }

    // ---- The pass ----

    /** The status shows the job, and a manager is mapped that will read or has read
        the registry, where the job's value is. */
    ghost predicate Serves(job: Job)
      reads this, registry, sup
    {
      var x := ExportOf(job);
      && job.name in bps && bps[job.name].exported == x && bps[job.name].observed == w.hash(job.spec)
      && x in registry.m && registry.m[x] == job.served && x in sup.view.running
    }

    /** The export is there with its schema and the claims the job calls for. */
    ghost predicate Exported(job: Job)
      reads this
    {
      var x := ExportOf(job);
      && x in exports && exports[x] == [SchemaOf(w, job)] && SchemaOf(w, job) in schemas
      && x in claims && fits(job.served, claims[x], identity)
    }

    /** From the compiled graph to the export. */
    method PublishExport(job: Job) returns (ok: bool, ghost ops: seq<Op>)
      requires Stored() && model.pc == Applying(job)
      modifies this`schemas, this`exports, this`claims, this`model, this`faults
      ensures Stored() && model == RunOps(step, old(model), ops) && model.sup == old(model.sup)
      ensures model.pc == if ok then Setting(job) else Idle
      ensures ok ==> Exported(job)
      ensures ok ==> faults == old(faults)
      ensures faults >= old(faults) && (faults == old(faults) ==> (ok <==> Claimable(job.served, identity)))
    {
      ghost var start := model;
      ghost var op;
      ok, op := ApplySchema(job);
      RunOne(step, start, [], op);
      ops := [] + [op];
      if !ok { return; }
      ok, op := PublishClaims(job);
      RunOne(step, start, ops, op);
      ops := ops + [op];
    }

    /** Identities, claims and the export. */
    method PublishClaims(job: Job) returns (ok: bool, ghost op: Op)
      requires Stored() && model.pc == Upserting(job) && SchemaOf(w, job) in schemas
      modifies this`exports, this`claims, this`model, this`faults
      ensures Stored() && model == step(old(model), op) && model.sup == old(model.sup)
      ensures model.pc == if ok then Setting(job) else Idle
      ensures ok ==> Exported(job)
      ensures ok ==> faults == old(faults)
      ensures faults >= old(faults) && (faults == old(faults) ==> (ok <==> Claimable(job.served, identity)))
    {
      var listed: bool := *;
      var cs := None;
      if listed { cs := ResolveClaims(job); } else { faults := faults + 1; }
      ok, op := UpsertExport(job, cs);
    }

    /** From the callback to the status write. */
    method Serve(job: Job) returns (ok: bool, ghost ops: seq<Op>)
      requires Valid() && model.pc == Setting(job) && job.name in bps
      modifies this`bps, this`model, this`faults, registry`m, sup, sup.entries
      ensures Valid() && model == RunOps(step, old(model), ops) && model.pc == Idle
      ensures ok ==> Serves(job)
      ensures faults == old(faults) + (if ok then 0 else 1)
    {
      ghost var start := model;
      ghost var op;
      ops := Notify(job);
      ok, op := WriteStatus(job);
      RunOne(step, start, ops, op);
      ops := ops + [op];
    }

    /** ... with the export in place, which stays. */
    method ServeExported(job: Job) returns (ok: bool, ghost ops: seq<Op>)
      requires Valid() && model.pc == Setting(job) && job.name in bps && Exported(job)
      modifies this`bps, this`model, this`faults, registry`m, sup, sup.entries
      ensures Valid() && model == RunOps(step, old(model), ops) && model.pc == Idle
      ensures Exported(job) && (ok ==> Serves(job))
      ensures faults == old(faults) + (if ok then 0 else 1)
    {
      ok, ops := Serve(job);
    }

    /** From the compiled graph to the status write. */
    method PublishServed(job: Job) returns (ok: bool, ghost ops: seq<Op>)
      requires Valid() && model.pc == Applying(job) && job.name in bps
      modifies this`bps, this`schemas, this`exports, this`claims, this`model, this`faults, registry`m, sup, sup.entries
      ensures Valid() && model == RunOps(step, old(model), ops) && model.pc == Idle
      ensures ok ==> Exported(job) && Serves(job)
      ensures ok ==> faults == old(faults)
      ensures faults >= old(faults) && (faults == old(faults) ==> (ok <==> Claimable(job.served, identity)))
    {
      ghost var start := model;
      ok, ops := PublishExport(job);
      assert Valid();
      if !ok { return; }
      ghost var more;
      ok, more := ServeExported(job);
      RunMore(step, start, ops, more);
      ops := ops + more;
    }

    /** Finalizer, cache or build, routing. */
    method Prepare(n: string) returns (served: Option<Served>, ghost ops: seq<Op>)
      requires Stored() && n in bps && RoutedAs(bps[n].spec, w.routing(bps[n].spec)) && !bps[n].deleting
      requires var b := bps[n];
        var changed := b.observed != w.hash(b.spec);
        model.pc == if b.finalizer then Building(n, b.spec, changed) else Guarding(n, b.spec, changed)
      modifies this`bps, this`model, this`faults, cache`m
      ensures Stored() && model == RunOps(step, old(model), ops) && model.sup == old(model.sup)
      ensures bps.Keys == old(bps).Keys
      ensures var b := old(bps)[n];
        model.pc == if served.Some? then Applying(Job(n, b.spec, b.observed != w.hash(b.spec), served.value)) else Idle
      ensures served.Some? ==> faults == old(faults)
      ensures faults >= old(faults)
      ensures RightCache(w, old(model), old(bps)[n].spec) ==>
        (served.Some? || faults == old(faults) ==> served == Value(w, n, old(bps)[n].spec))
    {
      ghost var start := model;
      ghost var op;
      var spec := bps[n].spec;
      ops := [];
      if !bps[n].finalizer {
        var ok;
        ok, op := AddFinalizer(n);
        RunOne(step, start, ops, op);
        ops := ops + [op];
        if !ok { return None, ops; }
      }
      var routing := Route(w, spec);
      served, op := Compile(n, spec, routing);
      RunOne(step, start, ops, op);
      ops := ops + [op];
    }

    /** The publishing branch of Reconcile. */
    method PublishBlueprint(n: string) returns (ok: bool, ghost ops: seq<Op>, ghost job: Option<Job>)
      requires Valid() && n in bps && RoutedAs(bps[n].spec, w.routing(bps[n].spec)) && !bps[n].deleting
      requires var b := bps[n];
        var changed := b.observed != w.hash(b.spec);
        model.pc == if b.finalizer then Building(n, b.spec, changed) else Guarding(n, b.spec, changed)
      modifies this`bps, this`schemas, this`exports, this`claims, this`model
      modifies this`faults, cache`m, registry`m, sup, sup.entries
      ensures Valid() && model == RunOps(step, old(model), ops) && model.pc == Idle
      ensures ok ==>
        job.Some? && job.value.name == n && job.value.spec == old(bps)[n].spec && Exported(job.value)
          && Serves(job.value)
      ensures faults >= old(faults) && (ok ==> faults == old(faults))
      ensures RightCache(w, old(model), old(bps)[n].spec) ==>
        && (ok ==> Value(w, n, old(bps)[n].spec) == Some(job.value.served))
        && (faults == old(faults) ==> (ok <==> Publishable(w, n, old(bps)[n].spec, identity)))
    {
      ghost var start := model;
      var spec, changed := bps[n].spec, bps[n].observed != w.hash(bps[n].spec);
      var served;
      served, ops := Prepare(n);
      if served.None? { return false, ops, None; }
      job := Some(Job(n, spec, changed, served.value));
      ghost var more;
      ok, more := PublishServed(Job(n, spec, changed, served.value));
      RunMore(step, start, ops, more);
      ops := ops + more;
    }

    /** The withdrawal branch of Reconcile. */
    method Withdraw(n: string, x: string) returns (ok: bool, ghost ops: seq<Op>)
      requires Valid() && model.pc == if x == "" then Purging(n, x) else Fetching(n, x)
      modifies this`bps, this`schemas, this`exports, this`model, this`faults, cache`m, registry`m, sup, sup.entries
      ensures Valid() && model == RunOps(step, old(model), ops) && model.pc == Idle
      ensures bps == old(bps) || bps == old(bps) - {n}
      ensures ok ==> n !in bps && BpKey(workspace, n) !in cache.m
      ensures ok && x != "" ==> x !in exports && x !in registry.m && x !in sup.view.running
      ensures exports == old(exports) || exports == old(exports) - {x}
      ensures Erased(old(schemas), schemas, if x != "" && x in old(exports) then old(exports)[x] else [])
      ensures x in old(exports) && x !in exports ==> forall sn :: sn in old(exports)[x] ==> sn !in schemas
      ensures faults == old(faults) + (if ok then 0 else 1)
    {
      ghost var start := model;
      ops := [];
      if x != "" {
        ok, ops := DeletePublishedAPI(n, x);
        if !ok { return; }
      }
      ghost var more;
      ok, more := CleanUpAndRelease(n, x);
      RunMore(step, start, ops, more);
      ops := ops + more;
    }

    /** Cache, callback and finalizer. */
    method CleanUpAndRelease(n: string, x: string) returns (ok: bool, ghost ops: seq<Op>)
      requires Valid() && model.pc == Purging(n, x)
      modifies this`bps, this`model, this`faults, cache`m, registry`m, sup, sup.entries
      ensures Valid() && model == RunOps(step, old(model), ops) && model.pc == Idle
      ensures bps == old(bps) - {n} || (!ok && bps == old(bps))
      ensures BpKey(workspace, n) !in cache.m && (x != "" ==> x !in registry.m && x !in sup.view.running)
      ensures faults == old(faults) + (if ok then 0 else 1)
    {
      ghost var start := model;
      ghost var op;
      ops := CleanUp(n, x);
      ok, op := Release(n, x);
      RunOne(step, start, ops, op);
      ops := ops + [op];
    }

    /** Cache and callback. */
    method CleanUp(n: string, x: string) returns (ghost ops: seq<Op>)
      requires Valid() && model.pc == Purging(n, x)
      modifies this`model, this`faults, cache`m, registry`m, sup, sup.entries
      ensures Valid() && model == RunOps(step, old(model), ops) && model.pc == Releasing(n, x)
      ensures BpKey(workspace, n) !in cache.m && (x != "" ==> x !in registry.m && x !in sup.view.running)
      ensures faults == old(faults)
    {
      ghost var start := model;
      ghost var op := PurgeCache(n, x);
      RunOne(step, start, [], op);
      ops := [] + [op];
      if x != "" {
        ghost var more := TearDown(n, x);
        RunMore(step, start, ops, more);
        ops := ops + more;
      }
    }

    /** One pass. Whatever fails, the fields end up where a run of the machine's worker
        leads; a pass that reports success over a live blueprint leaves its offering
        complete, and one over a deleted blueprint leaves nothing of it. */
    method Reconcile(n: string) returns (ok: bool, ghost began: bool, ghost ops: seq<Op>, ghost job: Option<Job>)
      requires Valid() && model.pc == Idle && (n in bps ==> RoutedAs(bps[n].spec, w.routing(bps[n].spec)))
      modifies this`bps, this`schemas, this`exports, this`claims, this`model
      modifies this`faults, cache`m, registry`m, sup, sup.entries
      ensures Valid() && model.pc == Idle
      ensures model == if began then RunOps(step, BeginPass(w, old(model), n), ops) else old(model)
      ensures ok && n in old(bps) && !old(bps)[n].deleting ==>
        job.Some? && job.value.name == n && job.value.spec == old(bps)[n].spec && Exported(job.value)
          && Serves(job.value)
      ensures ok && n in old(bps) && old(bps)[n].deleting && old(bps)[n].finalizer ==>
        var x := old(bps)[n].exported;
        && n !in bps && BpKey(workspace, n) !in cache.m
        && (x != "" ==> x !in exports && x !in registry.m && x !in sup.view.running)
        && (x != "" && x in old(exports) ==> forall sn :: sn in old(exports)[x] ==> sn !in schemas)
      ensures ok ==> faults == old(faults)
      ensures n in old(bps) && !old(bps)[n].deleting && RightCache(w, old(model), old(bps)[n].spec) ==>
        && (ok ==> Value(w, n, old(bps)[n].spec) == Some(job.value.served))
        && (faults == old(faults) ==> (ok <==> Publishable(w, n, old(bps)[n].spec, identity)))
      ensures faults == old(faults) && (n in old(bps) ==> old(bps)[n].deleting) ==> ok
    {
      began, ops, job := false, [], None;
      var got: bool := *;
      if !got {
        faults := faults + 1;
        return false, began, ops, job;
      }
      if n !in bps { return true, began, ops, job; }
      var b := bps[n];
      if b.deleting && !b.finalizer { return true, began, ops, job; }
      began := true;
      model := BeginPass(w, model, n);
      if b.deleting {
        ok, ops := Withdraw(n, b.exported);
      } else {
        ok, ops, job := PublishBlueprint(n);
      }
    }
  }

  lemma NotifySteps(w: World, step: StepFn, s: State, job: Job) returns (ops: seq<Op>)
    requires IsWork(w, step) && s.pc == Setting(job)
    ensures var s', x := RunOps(step, s, ops), ExportOf(job);
      && s'.pc == Committing(job) && s'.bps == s.bps && s'.api == s.api
      && s'.mem == Memory(s.mem.cache, s.mem.registry[x := job.served]) && s'.sup == Restarted(s.sup, x, job.changed)
  {
    ops := RunGo(w, step, s, []);
    if job.changed {
      ops := RunGo(w, step, s, ops);
      assert RunOps(step, s, ops).pc == Cancelling(job);
      ops := RunGo(w, step, s, ops);
    }
    assert RunOps(step, s, ops).pc == Ensuring(job);
    assert RunOps(step, s, ops).mem.registry == s.mem.registry[ExportOf(job) := job.served];
    ops := RunGo(w, step, s, ops);
  }

  lemma RunGo(w: World, step: StepFn, s: State, ops: seq<Op>) returns (ops': seq<Op>)
    requires IsWork(w, step)
    ensures RunOps(step, s, ops') == DoWork(w, RunOps(step, s, ops), Go)
  {
    ops' := ops + [Go];
    RunOne(step, s, ops, Go);
  }

  lemma TearDownSteps(w: World, step: StepFn, s: State, n: string, x: string) returns (ops: seq<Op>)
    requires IsWork(w, step) && s.pc == Halting(n, x)
    ensures var s' := RunOps(step, s, ops);
      && s'.pc == Releasing(n, x) && s'.bps == s.bps && s'.api == s.api
      && s'.mem == Memory(s.mem.cache, s.mem.registry - {x})
      && s'.sup == Sup.Do(Sup.Do(s.sup, Sup.Take(0, x)), Sup.Cancel(0))
  {
    ops := RunGo(w, step, s, []);
    var s1 := RunOps(step, s, ops);
    assert s1.pc == Halted(n, x) && s1.bps == s.bps && s1.api == s.api && s1.mem == s.mem;
    assert s1.sup == Sup.Do(s.sup, Sup.Take(0, x));
    ops := RunGo(w, step, s, ops);
    var s2 := RunOps(step, s, ops);
    assert s2.pc == Unregistering(n, x) && s2.bps == s.bps && s2.api == s.api && s2.mem == s.mem;
    assert s2.sup == Sup.Do(s1.sup, Sup.Cancel(0));
    ops := RunGo(w, step, s, ops);
  }
}
