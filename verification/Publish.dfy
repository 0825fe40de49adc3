/** Publishing and serving blueprints as one state machine: the registrar's single
    worker (internal/registrar/registrar.go, publish.go, cache.go), the registry and
    callbacks of cmd/controller/main.go and the supervisor's managers, interleaved
    with edits, deletions and restarts. Each API call is a step that may fail, or
    take effect and still be reported as failed. */
module Publish {
  import opened Routing
  import opened Claims
  import Sup = Supervisor

  /** ResourceGraphDefinitionSpec; `schema` stands for its schema part. */
  datatype Spec = Spec(schema: string, resources: seq<Option<Resource>>)

  /** A compiled graph: the type of its instances and its nodes. The export is named
      after the type, <plural>.<group>. */
  datatype Graph = Graph(own: GroupResource, nodes: map<string, Node>) {
    function ApiExport(): string { own.resource + ['.'] + own.group }
  }

  /** servedBlueprint in cmd/controller/main.go. */
  datatype Served = Served(graph: Graph, routing: map<string, Target>)

  /** A blueprint object with the status fields the registrar reads back. */
  datatype Blueprint = Blueprint(spec: Spec, finalizer: bool, deleting: bool, exported: string, observed: string)

  datatype Cached = Cached(hash: string, graph: Graph)

  /** `build` compiles a graph from a blueprint's name and spec, `routing` types its
      targets, `hash` is SpecHash; `specs` are the specs that occur. */
  datatype World = World(build: (string, Spec) -> Option<Graph>, routing: Spec -> Option<map<string, Target>>,
                         hash: Spec -> string, specs: set<Spec>)

  function Value(w: World, name: string, spec: Spec): Option<Served> {
    if w.build(name, spec).Some? && w.routing(spec).Some?
    then Some(Served(w.build(name, spec).value, w.routing(spec).value)) else None
  }

  /** A publishing pass: what it read, and what it is going to serve. */
  datatype Job = Job(name: string, spec: Spec, changed: bool, served: Served)

  datatype Pc =
    | Idle
    | Guarding(name: string, spec: Spec, changed: bool)
    | Building(name: string, spec: Spec, changed: bool)
    | Applying(job: Job)
    | Upserting(job: Job)
    | Setting(job: Job)
    | Taking(job: Job)
    | Cancelling(job: Job)
    | Ensuring(job: Job)
    | Committing(job: Job)
    | Fetching(name: string, x: string)
    | Erasing(name: string, x: string, todo: seq<string>)
    | Purging(name: string, x: string)
    | Halting(name: string, x: string)
    | Halted(name: string, x: string)
    | Unregistering(name: string, x: string)
    | Releasing(name: string, x: string)

  /** `exports` lists the schemas each export references, `referenced` those it last
      referenced while it existed. */
  datatype Api = Api(schemas: map<string, Graph>, exports: map<string, seq<string>>,
                     referenced: map<string, seq<string>>)

  /** The process's memory: the graph cache and the registry of served blueprints. */
  datatype Memory = Memory(cache: map<string, Cached>, registry: map<string, Served>)

  /** History: the spec behind each written status; the blueprints whose latest restart
      of a manager has not reached their status; and the exports whose manager was
      stopped by the registrar and not started again. */
  datatype Marks = Marks(committed: map<string, Spec>, uncommitted: set<string>, stopped: set<string>)

  datatype State = State(bps: map<string, Blueprint>, api: Api, mem: Memory, sup: Sup.State<Served>, pc: Pc,
                         marks: Marks)

  datatype Op = Go | Fails | Lost

  datatype Step =
    | Create(name: string, spec: Spec)
    | Edit(name: string, spec: Spec)
    | Delete(name: string)
    | Begin(name: string)
    | Work(op: Op)
    | Load(gen: nat)
    | Quit(gen: nat)
    | Clear(gen: nat)
    | Restart

  function SchemaName(hash: string, x: string): string { "v" + hash + ['.'] + x }

  function ExportOf(job: Job): string { job.served.graph.ApiExport() }

  function SchemaOf(w: World, job: Job): string { SchemaName(w.hash(job.spec), ExportOf(job)) }

  function BeginPass(w: World, s: State, name: string): State {
    if !s.pc.Idle? || name !in s.bps then s
    else
      var b := s.bps[name];
      var changed := b.observed != w.hash(b.spec);
      if b.deleting then
        if !b.finalizer then s
        else if b.exported == "" then s.(pc := Purging(name, ""))
        else s.(pc := Fetching(name, b.exported))
      else if b.finalizer then s.(pc := Building(name, b.spec, changed))
      else s.(pc := Guarding(name, b.spec, changed))
  }

  /** The graph comes from the cache when the hash matches and is built otherwise. */
  function Compile(w: World, s: State, name: string, spec: Spec): Option<Graph> {
    if name in s.mem.cache && s.mem.cache[name].hash == w.hash(spec)
    then Some(s.mem.cache[name].graph) else w.build(name, spec)
  }

  function DoBuild(w: World, s: State, name: string, spec: Spec, changed: bool): State {
    match Compile(w, s, name, spec)
    case None => s.(pc := Idle)
    case Some(g) =>
      var s' := s.(mem := s.mem.(cache := s.mem.cache[name := Cached(w.hash(spec), g)]));
      match w.routing(spec)
      case None => s'.(pc := Idle)
      case Some(r) => s'.(pc := Applying(Job(name, spec, changed, Served(g, r))))
  }

  /** A call that takes effect moves on if it also answers. */
  function Next(op: Op, pc: Pc): Pc { if op.Go? then pc else Idle }

  function DoGuard(s: State, op: Op): State
    requires s.pc.Guarding?
  {
    var n := s.pc.name;
    if n !in s.bps || s.bps[n].deleting then s.(pc := Idle)
    else s.(bps := s.bps[n := s.bps[n].(finalizer := true)], pc := Next(op, Building(n, s.pc.spec, s.pc.changed)))
  }

  /** applyARS and UpsertAPIExport: a schema is created once, an export overwritten. */
  function DoPublish(w: World, s: State, op: Op): State
    requires s.pc.Applying? || s.pc.Upserting?
  {
    var job := s.pc.job;
    var sn, x := SchemaOf(w, job), ExportOf(job);
    if s.pc.Applying? then
      s.(api := s.api.(schemas := if sn in s.api.schemas then s.api.schemas else s.api.schemas[sn := job.served.graph]),
         pc := Next(op, Upserting(job)))
    else
      s.(api := s.api.(exports := s.api.exports[x := [sn]], referenced := s.api.referenced[x := [sn]]),
         pc := Next(op, Setting(job)))
  }

  /** The status write that ends a pass. */
  function DoCommit(w: World, s: State): State
    requires s.pc.Committing?
  {
    var job := s.pc.job;
    if job.name !in s.bps then s.(pc := Idle)
    else
      var b := s.bps[job.name].(exported := ExportOf(job), observed := w.hash(job.spec));
      s.(bps := s.bps[job.name := b],
         marks := s.marks.(committed := s.marks.committed[job.name := job.spec],
                           uncommitted := if job.changed then s.marks.uncommitted - {job.name}
                             else s.marks.uncommitted),
         pc := Idle)
  }

  /** DeletePublishedAPI, and the release of the finalizer. */
  function DoWithdraw(s: State, op: Op): State
    requires s.pc.Fetching? || s.pc.Erasing? || s.pc.Releasing?
  {
    match s.pc
    case Fetching(name, x) =>
      s.(pc := if x in s.api.exports then Next(op, Erasing(name, x, s.api.exports[x])) else Next(op, Purging(name, x)))
    case Erasing(name, x, todo) =>
      if todo == [] then s.(api := s.api.(exports := s.api.exports - {x}), pc := Next(op, Purging(name, x)))
      else s.(api := s.api.(schemas := s.api.schemas - {todo[0]}), pc := Next(op, Erasing(name, x, todo[1..])))
    case Releasing(name, x) => s.(bps := s.bps - {name}, pc := Idle)
  }

  /** The API calls of a pass. `Fails` stands for every error before the next effect,
      be it of a call, of a conversion or of the claims. */
  function DoCall(w: World, s: State, op: Op): State {
    if op.Fails? then s.(pc := Idle)
    else if s.pc.Guarding? then DoGuard(s, op)
    else if s.pc.Building? then DoBuild(w, s, s.pc.name, s.pc.spec, s.pc.changed)
    else if s.pc.Applying? || s.pc.Upserting? then DoPublish(w, s, op)
    else if s.pc.Committing? then DoCommit(w, s)
    else if s.pc.Fetching? || s.pc.Erasing? || s.pc.Releasing? then DoWithdraw(s, op)
    else s
  }

  predicate IsCall(pc: Pc) {
    pc.Guarding? || pc.Building? || pc.Applying? || pc.Upserting? || pc.Committing? || pc.Fetching? || pc.Erasing?
      || pc.Releasing?
  }

  /** The steps inside the process, which cannot fail: OnPublished, OnDeleted and the
      cache purge. */
  function DoLocal(w: World, s: State): State {
    match s.pc
    case Setting(job) =>
      s.(mem := s.mem.(registry := s.mem.registry[ExportOf(job) := job.served]),
         marks := s.marks.(uncommitted := if job.changed then s.marks.uncommitted + {job.name}
                           else s.marks.uncommitted),
         pc := if job.changed then Taking(job) else Ensuring(job))
    case Taking(job) =>
      s.(sup := Sup.Do(s.sup, Sup.Take(0, ExportOf(job))),
         marks := s.marks.(stopped := s.marks.stopped + {ExportOf(job)}), pc := Cancelling(job))
    case Cancelling(job) => s.(sup := Sup.Do(s.sup, Sup.Cancel(0)), pc := Ensuring(job))
    case Ensuring(job) =>
      s.(sup := Sup.Do(s.sup, Sup.Ensure(ExportOf(job))),
         marks := s.marks.(stopped := s.marks.stopped - {ExportOf(job)}), pc := Committing(job))
    case Purging(name, x) =>
      s.(mem := s.mem.(cache := s.mem.cache - {name}), pc := if x == "" then Releasing(name, x) else Halting(name, x))
    case Halting(name, x) =>
      s.(sup := Sup.Do(s.sup, Sup.Take(0, x)), marks := s.marks.(stopped := s.marks.stopped + {x}),
         pc := Halted(name, x))
    case Halted(name, x) => s.(sup := Sup.Do(s.sup, Sup.Cancel(0)), pc := Unregistering(name, x))
    case Unregistering(name, x) => s.(mem := s.mem.(registry := s.mem.registry - {x}), pc := Releasing(name, x))
    case _ => s
  }

  /** What OnPublished does to the supervisor, its steps taken together. */
  function Restarted(sup: Sup.State<Served>, x: string, changed: bool): Sup.State<Served> {
    var sup' := if changed then Sup.Do(Sup.Do(sup, Sup.Take(0, x)), Sup.Cancel(0)) else sup;
    Sup.Do(sup', Sup.Ensure(x))
  }

  function DoWork(w: World, s: State, op: Op): State {
    if IsCall(s.pc) then DoCall(w, s, op) else DoLocal(w, s)
  }

  /** startFn begins by reading the registry, and gives up if its export is not there. */
  function DoLoad(s: State, g: nat): State {
    if g >= |s.sup.managers| then s
    else
      var x := s.sup.managers[g].apiExport;
      s.(sup := Sup.Do(s.sup, if x in s.mem.registry then Sup.Load(g, s.mem.registry[x]) else Sup.Exit(g)))
  }

  function DoEdit(w: World, s: State, step: Step): State
    requires step.Create? || step.Edit? || step.Delete?
  {
    match step
    case Create(name, spec) =>
      if name in s.bps || spec !in w.specs then s else s.(bps := s.bps[name := Blueprint(spec, false, false, "", "")])
    case Edit(name, spec) =>
      if name !in s.bps || spec !in w.specs then s else s.(bps := s.bps[name := s.bps[name].(spec := spec)])
    case Delete(name) =>
      if name !in s.bps then s
      else if s.bps[name].finalizer then s.(bps := s.bps[name := s.bps[name].(deleting := true)])
      else s.(bps := s.bps - {name})
  }

  function Do(w: World, s: State, step: Step): State {
    match step
    case Begin(name) => BeginPass(w, s, name)
    case Work(op) => DoWork(w, s, op)
    case Load(g) => DoLoad(s, g)
    case Quit(g) => s.(sup := Sup.Do(s.sup, Sup.Exit(g)))
    case Clear(g) => s.(sup := Sup.Do(s.sup, Sup.Forget(g)))
    case Restart =>
      s.(mem := Memory(map[], map[]), sup := Sup.Start(), pc := Idle, marks := Marks(s.marks.committed, {}, {}))
    case _ => DoEdit(w, s, step)
  }

  const START := State(map[], Api(map[], map[], map[]), Memory(map[], map[]), Sup.Start(), Idle, Marks(map[], {}, {}))

  function Exec(w: World, steps: seq<Step>): State {
    if steps == [] then START else Do(w, Exec(w, steps[..|steps| - 1]), steps[|steps| - 1])
  }

  /** The hash is dot-free and tells the occurring specs apart; no two blueprints
      generate the same export. */
  ghost predicate WorldOk(w: World) {
    && (forall a :: a in w.specs ==> w.hash(a) != "" && '.' !in w.hash(a))
    && (forall a, b :: a in w.specs && b in w.specs && w.hash(a) == w.hash(b) ==> a == b)
    && (forall n, a, m, b :: a in w.specs && b in w.specs && SameExport(w, n, a, m, b) ==> n == m)
  }

  predicate SameExport(w: World, n: string, a: Spec, m: string, b: Spec) {
    w.build(n, a).Some? && w.build(m, b).Some? && w.build(n, a).value.ApiExport() == w.build(m, b).value.ApiExport()
  }
}
