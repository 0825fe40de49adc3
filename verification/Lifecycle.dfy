/** The instance lifecycle and garbage-collection protocol as a step machine: every
    client call of every instance worker and of the sweeper is one step, steps of
    users, other controllers, all workers and the sweeper interleave freely, and any
    call may fail or its process crash. Each worker follows Reconcile
    (internal/controller/reconciler.go), the sweeper Sweep (internal/controller/sweeper.go). */
module Lifecycle {
  import opened GvkCodec
  import opened Routing
  import opened Naming
  import opened Stores

  /** One instance object's place: the export that serves it and its name. */
  datatype InstKey = InstKey(blueprint: string, cluster: string, namespace: string, name: string)

  /** `rv` is the resource version, `others` says foreign finalizers are present. */
  datatype Inst = Inst(uid: string, rv: nat, finalizer: bool, others: bool, deleting: bool)

  datatype Place = Workspace(cluster: string) | ProviderWs | HostCluster

  datatype Addr = Addr(place: Place, gvk: GVK, namespace: string, name: string)

  /** `uid` is the instance-uid label, `live` the liveness label. */
  datatype Obj = Obj(uid: Option<string>, live: bool, providerKinds: string, hostKinds: string, body: string)

  /** What does not change during a run: the digest, the graphs' child kinds, what an
      instance's templates can render, the wired clients, and the finite sets of names
      and instance identities the run uses. */
  datatype World = World(
    digest: Digest,
    kinds: (string, Target) -> set<GVK>,
    renders: (InstKey, Addr) -> bool,
    hostWired: bool,
    sweeperHost: bool,
    recordNamespace: string,
    names: set<Tuple>,
    ids: set<(string, string)>)

  function PlaceOf(k: InstKey, t: Target): Place {
    match t case Consumer => Workspace(k.cluster) case Provider => ProviderWs case Host => HostCluster
  }

  function TargetOf(p: Place): Target {
    match p case Workspace(_) => Consumer case ProviderWs => Provider case HostCluster => Host
  }

  predicate WiredTarget(w: World, t: Target) { t != Host || w.hostWired }

  function RecordAddr(w: World, cluster: string, uid: string): Addr
    requires HexDigest(w.digest)
  {
    Addr(ProviderWs, CONFIG_MAP, w.recordNamespace, LivenessRecordName(w.digest, cluster, uid))
  }

  ghost predicate QualifiedFor(w: World, k: InstKey, name: string)
    requires HexDigest(w.digest)
  {
    exists original :: Tuple(k.cluster, k.name, original) in w.names
      && name == ProviderChildName(w.digest, Tuple(k.cluster, k.name, original))
  }

  /** Where the appliers of instance `k` can put an object. */
  ghost predicate Scope(w: World, k: InstKey, a: Addr)
    requires HexDigest(w.digest)
  {
    var t := TargetOf(a.place);
    && WiredTarget(w, t) && a.place == PlaceOf(k, t) && a.gvk in w.kinds(k.blueprint, t)
    && (t != Consumer ==> QualifiedFor(w, k, a.name))
  }

  /** The digest separates the names and identities in use: no more is assumed of it. */
  ghost predicate Separates(w: World)
    requires HexDigest(w.digest)
  {
    && (forall t :: t in w.names ==> NulFree(t))
    && (forall t, t' :: t in w.names && t' in w.names && t != t' ==> ChildHash(w.digest, t) != ChildHash(w.digest, t'))
    && (forall c, u :: (c, u) in w.ids ==> NUL !in c)
    && (forall c, u, c', u' :: (c, u) in w.ids && (c', u') in w.ids && (c, u) != (c', u') ==>
          w.digest(c + [NUL] + u)[..RECORD_HASH_LEN] != w.digest(c' + [NUL] + u')[..RECORD_HASH_LEN])
  }

  ghost predicate WorldOk(w: World) {
    && HexDigest(w.digest) && Separates(w)
    && (forall k, a :: w.renders(k, a) ==> Scope(w, k, a))
    && (forall b, t, g :: g in w.kinds(b, t) ==> Clean(g))
  }

  type Todo = set<(Target, GVK)>

  /** Where a worker stands in Reconcile, with what it has read or gathered. */
  datatype Pc =
    | Idle
    | AddingFinalizer(uid: string, rv: nat)
    | Applying(uid: string, applied: set<Addr>)
    | ReadingRecord(uid: string, applied: set<Addr>, complete: bool)
    | PuttingRecord(uid: string, applied: set<Addr>, complete: bool, found: bool)
    | Pruning(uid: string, keep: set<Addr>, todo: Todo, listed: set<Addr>)
    | Collecting(uid: string, rv: nat, todo: Todo, listed: set<Addr>)
    | DroppingRecord(uid: string, rv: nat)
    | Releasing(uid: string, rv: nat)

  /** The sweeper between records, or inside one. `quiet` remembers whether the
      instance's worker was idle when this record was taken up and has stayed so. */
  datatype Sweep =
    | Off
    | Between(records: map<Addr, Obj>)
    | On(records: map<Addr, Obj>, record: Addr, uid: string, todo: Todo, listed: set<Addr>, quiet: bool)

  /** `homes` remembers which instance each uid was ever given to. */
  datatype State = State(
    insts: map<InstKey, Inst>, homes: map<string, InstKey>, objs: map<Addr, Obj>,
    pcs: map<InstKey, Pc>, sweep: Sweep, clock: nat)

  function PcOf(s: State, k: InstKey): Pc { if k in s.pcs then s.pcs[k] else Idle }

  datatype EnvOp =
    | Create(k: InstKey, uid: string, others: bool)
    | Touch(k: InstKey)
    | Delete(k: InstKey)
    | OthersDone(k: InstKey)
    | Write(a: Addr, o: Obj)
    | Remove(a: Addr)

  datatype WorkOp =
    | Get | AddFinalizer | Apply(a: Addr, body: string) | FinishEngine(complete: bool)
    | GetRecord | PutRecord(provider: seq<GVK>, host: seq<GVK>)
    | ListKind(t: Target, g: GVK) | DeleteListed(a: Addr) | ReapDone
    | DropRecord | Release | Abort

  datatype SweepOp =
    | ListRecords | TakeUp(record: Addr) | Skip(record: Addr)
    | SweepKind(t: Target, g: GVK) | SweepDelete(a: Addr) | DeleteRecord | GiveUp | Stop

  datatype Step = Env(env: EnvOp) | Work(k: InstKey, op: WorkOp) | Sweeper(sop: SweepOp)

  // ---- Users and other controllers ----

  /** Removal once a deleting object has no finalizer left. */
  function Settle(s: State, k: InstKey, i: Inst): State {
    var gone := i.deleting && !i.finalizer && !i.others;
    s.(insts := if gone then s.insts - {k} else s.insts[k := i.(rv := s.clock)], clock := s.clock + 1)
  }

  predicate InRecordSpace(w: World, a: Addr)
    requires HexDigest(w.digest)
  {
    a in set id | id in w.ids :: RecordAddr(w, id.0, id.1)
  }

  /** Others may create, change and remove anything, but stamp neither label: a write
      keeps the uid label that is there or removes it, and record names are krop's. */
  function DoEnv(w: World, s: State, e: EnvOp): State
    requires HexDigest(w.digest)
  {
    match e
    case Create(k, uid, others) =>
      if k in s.insts || uid in s.homes || (k.cluster, uid) !in w.ids then s
      else s.(insts := s.insts[k := Inst(uid, s.clock, false, others, false)], homes := s.homes[uid := k],
              clock := s.clock + 1)
    case Touch(k) => if k in s.insts then Settle(s, k, s.insts[k]) else s
    case Delete(k) => if k in s.insts then Settle(s, k, s.insts[k].(deleting := true)) else s
    case OthersDone(k) => if k in s.insts then Settle(s, k, s.insts[k].(others := false)) else s
    case Write(a, o) =>
      if InRecordSpace(w, a) || o.live || (o.uid.Some? && !(a in s.objs && s.objs[a].uid == o.uid)) then s
      else s.(objs := s.objs[a := o])
    case Remove(a) => s.(objs := s.objs - {a})
  }

  // ---- Instance workers ----

  function AllKinds(w: World, k: InstKey): Todo {
    (set g | g in w.kinds(k.blueprint, Consumer) :: (Consumer, g))
    + (set g | g in w.kinds(k.blueprint, Provider) :: (Provider, g))
    + (if w.hostWired then set g | g in w.kinds(k.blueprint, Host) :: (Host, g) else {})
  }

  function Goto(s: State, k: InstKey, pc: Pc): State { s.(pcs := s.pcs[k := pc]) }

  function Listed(s: State, p: Place, g: GVK, uid: string): set<Addr> {
    set a | a in s.objs && a.place == p && a.gvk == g && s.objs[a].uid == Some(uid)
  }

  function WorkGet(w: World, s: State, k: InstKey): State {
    if k !in s.insts then s
    else
      var i := s.insts[k];
      if i.deleting then
        if i.finalizer then Goto(s, k, Collecting(i.uid, i.rv, AllKinds(w, k), {})) else s
      else if !i.finalizer then Goto(s, k, AddingFinalizer(i.uid, i.rv))
      else Goto(s, k, Applying(i.uid, {}))
  }

  function WorkApply(w: World, s: State, k: InstKey, pc: Pc, a: Addr, body: string): State
    requires pc.Applying?
  {
    if !w.renders(k, a) then s
    else
      var o := if a in s.objs then s.objs[a].(uid := Some(pc.uid), body := body)
        else Obj(Some(pc.uid), false, "", "", body);
      Goto(s.(objs := s.objs[a := o]), k, Applying(pc.uid, pc.applied + {a}))
  }

  /** Create or update, as the read before it found the record absent or present. */
  function WorkPutRecord(w: World, s: State, k: InstKey, pc: Pc, provider: seq<GVK>, host: seq<GVK>): State
    requires pc.PuttingRecord? && HexDigest(w.digest)
  {
    var a := RecordAddr(w, k.cluster, pc.uid);
    if Elems(provider) != w.kinds(k.blueprint, Provider) || Elems(host) != w.kinds(k.blueprint, Host) then s
    else if pc.found != (a in s.objs) then Goto(s, k, Idle)
    else
      var body := if a in s.objs then s.objs[a].body else "";
      Goto(s.(objs := s.objs[a := Obj(Some(pc.uid), true, GvkString(provider), GvkString(host), body)]), k,
           if pc.complete then Pruning(pc.uid, pc.applied, AllKinds(w, k), {}) else Idle)
  }

  function WorkList(s: State, k: InstKey, pc: Pc, t: Target, g: GVK): State
    requires pc.Pruning? || pc.Collecting?
  {
    if pc.listed != {} || (t, g) !in pc.todo then s
    else
      var found := Listed(s, PlaceOf(k, t), g, pc.uid);
      var pc' := pc.(todo := pc.todo - {(t, g)}, listed := if pc.Pruning? then found - pc.keep else found);
      Goto(s, k, pc')
  }

  function WorkDelete(s: State, k: InstKey, pc: Pc, a: Addr): State
    requires pc.Pruning? || pc.Collecting?
  {
    if a !in pc.listed then s
    else Goto(s.(objs := s.objs - {a}), k, pc.(listed := pc.listed - {a}))
  }

  /** Updates carry the version read at the start of the pass: a changed or replaced
      object refuses them. */
  function WorkUpdate(s: State, k: InstKey, rv: nat, finalizer: bool): State {
    if k in s.insts && s.insts[k].rv == rv
    then Goto(Settle(s, k, s.insts[k].(finalizer := finalizer)), k, Idle)
    else Goto(s, k, Idle)
  }

  function DoWork(w: World, s: State, k: InstKey, op: WorkOp): State
    requires HexDigest(w.digest)
  {
    var pc := PcOf(s, k);
    match op
    case Get => if pc.Idle? then WorkGet(w, s, k) else s
    case AddFinalizer => if pc.AddingFinalizer? then WorkUpdate(s, k, pc.rv, true) else s
    case Apply(a, body) => if pc.Applying? then WorkApply(w, s, k, pc, a, body) else s
    case FinishEngine(complete) => if pc.Applying? then Goto(s, k, ReadingRecord(pc.uid, pc.applied, complete)) else s
    case GetRecord =>
      if pc.ReadingRecord?
      then Goto(s, k, PuttingRecord(pc.uid, pc.applied, pc.complete, RecordAddr(w, k.cluster, pc.uid) in s.objs)) else s
    case PutRecord(provider, host) => if pc.PuttingRecord? then WorkPutRecord(w, s, k, pc, provider, host) else s
    case ListKind(t, g) => if pc.Pruning? || pc.Collecting? then WorkList(s, k, pc, t, g) else s
    case DeleteListed(a) => if pc.Pruning? || pc.Collecting? then WorkDelete(s, k, pc, a) else s
    case ReapDone =>
      if pc.Pruning? && pc.todo == {} && pc.listed == {} then Goto(s, k, Idle)
      else if pc.Collecting? && pc.todo == {} && pc.listed == {} then Goto(s, k, DroppingRecord(pc.uid, pc.rv))
      else s
    case DropRecord =>
      if pc.DroppingRecord?
      then Goto(s.(objs := s.objs - {RecordAddr(w, k.cluster, pc.uid)}), k, Releasing(pc.uid, pc.rv)) else s
    case Release => if pc.Releasing? then WorkUpdate(s, k, pc.rv, false) else s
    // a failed call or a crash; a call whose answer was lost is the call and then this
    case Abort => Goto(s, k, Idle)
  }

  // ---- The sweeper ----

  function RecordedKinds(w: World, o: Obj): Todo {
    (set g | g in Visited(o.providerKinds) :: (Provider, g))
    + (if w.sweeperHost then set g | g in Visited(o.hostKinds) :: (Host, g) else {})
  }

  /** Which records count as stale is left open here: any may. */
  function DoSweep(w: World, s: State, op: SweepOp): State {
    match op
    case ListRecords =>
      if s.sweep.Off?
      then s.(sweep := Between(map a | a in s.objs && a.place == ProviderWs && a.gvk == CONFIG_MAP
                                       && a.namespace == w.recordNamespace && s.objs[a].live :: s.objs[a]))
      else s
    case TakeUp(r) =>
      if s.sweep.Between? && r in s.sweep.records && s.sweep.records[r].uid.Some?
      then
        var uid := s.sweep.records[r].uid.value;
        var quiet := uid in s.homes && PcOf(s, s.homes[uid]).Idle?;
        s.(sweep := On(s.sweep.records - {r}, r, uid, RecordedKinds(w, s.sweep.records[r]), {}, quiet))
      else s
    case Skip(r) => if s.sweep.Between? then s.(sweep := Between(s.sweep.records - {r})) else s
    case SweepKind(t, g) =>
      if s.sweep.On? && s.sweep.listed == {} && (t, g) in s.sweep.todo && t != Consumer
      then s.(sweep := s.sweep.(todo := s.sweep.todo - {(t, g)},
                                listed := Listed(s, if t == Host then HostCluster else ProviderWs, g, s.sweep.uid)))
      else s
    case SweepDelete(a) =>
      if s.sweep.On? && a in s.sweep.listed
      then s.(objs := s.objs - {a}, sweep := s.sweep.(listed := s.sweep.listed - {a})) else s
    case DeleteRecord =>
      if s.sweep.On? && s.sweep.todo == {} && s.sweep.listed == {}
      then s.(objs := s.objs - {s.sweep.record}, sweep := Between(s.sweep.records)) else s
    case GiveUp => if s.sweep.On? then s.(sweep := Between(s.sweep.records)) else s
    case Stop => s.(sweep := Off)
  }

  /** A worker that moves is not quiet. */
  function Busy(s: State, k: InstKey): State {
    if s.sweep.On? && s.sweep.uid in s.homes && s.homes[s.sweep.uid] == k
    then s.(sweep := s.sweep.(quiet := false)) else s
  }

  function Do(w: World, s: State, step: Step): State
    requires HexDigest(w.digest)
  {
    match step
    case Env(e) => DoEnv(w, s, e)
    case Work(k, op) => DoWork(w, Busy(s, k), k, op)
    case Sweeper(op) => DoSweep(w, s, op)
  }

  /** A run starts with stores krop has not touched; disabled steps do nothing. */
  function Exec(w: World, objs: map<Addr, Obj>, steps: seq<Step>): State
    requires HexDigest(w.digest)
  {
    if steps == [] then State(map[], map[], objs, map[], Off, 0)
    else Do(w, Exec(w, objs, steps[..|steps| - 1]), steps[|steps| - 1])
  }

  predicate Pristine(w: World, objs: map<Addr, Obj>)
    requires HexDigest(w.digest)
  {
    forall a :: a in objs ==> objs[a].uid.None? && !objs[a].live && !InRecordSpace(w, a)
  }
}
