/** What holds in every reachable state of the lifecycle machine. */
module LifecycleSafety {
  import opened GvkCodec
  import opened Routing
  import opened Naming
  import opened Stores
  import opened Lifecycle

  // ---- The invariant ----

  ghost predicate InstsOk(w: World, s: State) {
    && (forall k :: k in s.insts ==>
          s.insts[k].uid in s.homes && s.homes[s.insts[k].uid] == k && s.insts[k].rv < s.clock)
    && (forall u :: u in s.homes ==> (s.homes[u].cluster, u) in w.ids)
  }

  /** The instance of `u` exists and krop's finalizer is on it. */
  predicate Guarded(s: State, u: string) {
    u in s.homes && s.homes[u] in s.insts && s.insts[s.homes[u]].uid == u && s.insts[s.homes[u]].finalizer
  }

  function OwnRecord(w: World, s: State, u: string): Addr
    requires HexDigest(w.digest) && u in s.homes
  {
    RecordAddr(w, s.homes[u].cluster, u)
  }

  predicate GoodRecord(w: World, k: InstKey, o: Obj) {
    Elems(Visited(o.providerKinds)) == w.kinds(k.blueprint, Provider)
      && Elems(Visited(o.hostKinds)) == w.kinds(k.blueprint, Host)
  }

  /** A labelled object belongs to a guarded instance and is something that instance
      renders, or its record; a liveness record names every kind of its graph. */
  predicate ObjOk(w: World, s: State, a: Addr, o: Obj)
    requires HexDigest(w.digest)
  {
    && (o.uid.Some? ==>
          Guarded(s, o.uid.value) && (w.renders(s.homes[o.uid.value], a) || a == OwnRecord(w, s, o.uid.value)))
    && (o.live ==> o.uid.Some? && a == OwnRecord(w, s, o.uid.value) && GoodRecord(w, s.homes[o.uid.value], o))
    && (InRecordSpace(w, a) ==> o.live)
  }

  ghost predicate ObjsOk(w: World, s: State)
    requires HexDigest(w.digest)
  {
    forall a :: a in s.objs ==> ObjOk(w, s, a, s.objs[a])
  }

  predicate Holds(s: State, k: InstKey, u: string) { u in s.homes && s.homes[u] == k && Guarded(s, u) }

  /** Every object of `u` other than its record is still to be listed, or among `listed`. */
  ghost predicate Covered(w: World, s: State, u: string, todo: Todo, listed: set<Addr>)
    requires HexDigest(w.digest) && u in s.homes
  {
    forall a :: a in s.objs && s.objs[a].uid == Some(u) && a != OwnRecord(w, s, u) ==>
      (TargetOf(a.place), a.gvk) in todo || a in listed
  }

  /** A worker only ever lists what its own instance renders, or its record. */
  ghost predicate Reach(w: World, k: InstKey, u: string, listed: set<Addr>)
    requires HexDigest(w.digest)
  {
    forall a :: a in listed ==>
      w.renders(k, a) || (a == RecordAddr(w, k.cluster, u) && CONFIG_MAP in w.kinds(k.blueprint, Provider))
  }

  /** Only kinds of the instance's graph are ever asked for. */
  ghost predicate TodoOk(w: World, k: InstKey, todo: Todo) {
    forall t, g :: (t, g) in todo ==> g in w.kinds(k.blueprint, t)
  }

  ghost predicate Unmarked(s: State, u: string) {
    forall a :: a in s.objs ==> s.objs[a].uid != Some(u)
  }

  ghost predicate PcOk(w: World, s: State, k: InstKey, pc: Pc)
    requires HexDigest(w.digest)
  {
    match pc
    case Idle => true
    case AddingFinalizer(u, rv) => true
    case Applying(u, _) => Holds(s, k, u)
    case ReadingRecord(u, _, _) => Holds(s, k, u)
    case PuttingRecord(u, _, _, _) => Holds(s, k, u)
    case Pruning(u, keep, todo, listed) =>
      Holds(s, k, u) && Reach(w, k, u, listed) && TodoOk(w, k, todo) && Covered(w, s, u, todo, listed + keep)
    case Collecting(u, _, todo, listed) =>
      Holds(s, k, u) && s.insts[k].deleting && Reach(w, k, u, listed) && TodoOk(w, k, todo)
        && Covered(w, s, u, todo, listed)
    case DroppingRecord(u, _) => Holds(s, k, u) && s.insts[k].deleting && Covered(w, s, u, {}, {})
    case Releasing(u, _) => Holds(s, k, u) && s.insts[k].deleting && Unmarked(s, u) && OwnRecord(w, s, u) !in s.objs
  }

  ghost predicate PcsOk(w: World, s: State)
    requires HexDigest(w.digest)
  {
    forall k :: k in s.pcs ==> PcOk(w, s, k, s.pcs[k])
  }

  /** A record as it was when listed. Its instance may be gone by now. */
  predicate SnapshotOk(w: World, s: State, a: Addr, o: Obj)
    requires HexDigest(w.digest)
  {
    o.uid.Some? && o.uid.value in s.homes && a == OwnRecord(w, s, o.uid.value) && GoodRecord(w, s.homes[o.uid.value], o)
  }

  predicate Sweepable(w: World, p: Place) { p == ProviderWs || (p == HostCluster && w.sweeperHost) }

  /** While the instance's worker stays idle, its sweepable objects other than the
      record are still to be listed, or listed. */
  ghost predicate SweepCovers(w: World, s: State, u: string, todo: Todo, listed: set<Addr>)
    requires HexDigest(w.digest) && u in s.homes
  {
    forall a :: a in s.objs && s.objs[a].uid == Some(u) && a != OwnRecord(w, s, u) && Sweepable(w, a.place) ==>
      (TargetOf(a.place), a.gvk) in todo || a in listed
  }

  ghost predicate RecordsOk(w: World, s: State, records: map<Addr, Obj>)
    requires HexDigest(w.digest)
  {
    forall a :: a in records ==> SnapshotOk(w, s, a, records[a])
  }

  ghost predicate SweepOk(w: World, s: State)
    requires HexDigest(w.digest)
  {
    match s.sweep
    case Off => true
    case Between(records) => RecordsOk(w, s, records)
    case On(records, a, u, todo, listed, quiet) =>
      && RecordsOk(w, s, records)
      && u in s.homes && a == OwnRecord(w, s, u) && Reach(w, s.homes[u], u, listed) && TodoOk(w, s.homes[u], todo)
      && (quiet ==> PcOf(s, s.homes[u]).Idle? && SweepCovers(w, s, u, todo, listed))
  }

  ghost predicate Inv(w: World, s: State)
    requires HexDigest(w.digest)
  {
    InstsOk(w, s) && ObjsOk(w, s) && PcsOk(w, s) && SweepOk(w, s)
  }

  // ---- Names ----

  lemma RecordAddrUnique(w: World, c: string, u: string, c': string, u': string)
    requires WorldOk(w) && (c, u) in w.ids && (c', u') in w.ids
    requires RecordAddr(w, c, u) == RecordAddr(w, c', u')
    ensures c == c' && u == u'
  {
    LivenessRecordNameInjective(w.digest, c, u, c', u');
  }

  lemma RenderedIsNoRecord(w: World, k: InstKey, a: Addr)
    requires WorldOk(w) && w.renders(k, a)
    ensures !InRecordSpace(w, a)
  {
    assert Scope(w, k, a);
    if a.place == ProviderWs {
      assert QualifiedFor(w, k, a.name);
      var original :| Tuple(k.cluster, k.name, original) in w.names
        && a.name == ProviderChildName(w.digest, Tuple(k.cluster, k.name, original));
      forall id | id in w.ids ensures a != RecordAddr(w, id.0, id.1) {
        ChildNameIsNoRecordName(w.digest, Tuple(k.cluster, k.name, original), id.0, id.1);
      }
    }
  }

  lemma OwnRecordInSpace(w: World, s: State, u: string)
    requires WorldOk(w) && InstsOk(w, s) && u in s.homes
    ensures InRecordSpace(w, OwnRecord(w, s, u))
  {
    var id := (s.homes[u].cluster, u);
    assert id in w.ids;
  }

  /** Nothing marks an unguarded uid: no child, no record. */
  lemma UnguardedIsClean(w: World, s: State, u: string)
    requires WorldOk(w) && InstsOk(w, s) && ObjsOk(w, s) && u in s.homes && !Guarded(s, u)
    ensures Unmarked(s, u) && OwnRecord(w, s, u) !in s.objs
  {
    forall a | a in s.objs ensures s.objs[a].uid != Some(u) {
      assert ObjOk(w, s, a, s.objs[a]);
    }
    var r := OwnRecord(w, s, u);
    OwnRecordInSpace(w, s, u);
    if r in s.objs {
      var o := s.objs[r];
      assert ObjOk(w, s, r, o);
      var u' := o.uid.value;
      RecordAddrUnique(w, s.homes[u].cluster, u, s.homes[u'].cluster, u');
    }
  }

  // ---- Frames: what small changes of state keep ----

  ghost predicate HomesGrow(a: State, b: State) {
    forall u :: u in a.homes ==> u in b.homes && b.homes[u] == a.homes[u]
  }

  predicate GuardKept(a: State, b: State, u: string) {
    Guarded(a, u) && u in b.homes && b.homes[u] == a.homes[u] ==>
      Guarded(b, u) && (a.insts[a.homes[u]].deleting ==> b.insts[a.homes[u]].deleting)
  }

  ghost predicate KeepsGuards(a: State, b: State) {
    HomesGrow(a, b) && forall u :: u in a.homes ==> GuardKept(a, b, u)
  }

  /** No new mark of `u` appears. */
  ghost predicate NoNewMark(a: State, b: State, u: string) {
    forall x :: x in b.objs && b.objs[x].uid == Some(u) ==> x in a.objs && a.objs[x].uid == Some(u)
  }

  lemma PcFrame(w: World, a: State, b: State, k: InstKey, pc: Pc)
    requires WorldOk(w) && PcOk(w, a, k, pc) && HomesGrow(a, b)
    requires !pc.Idle? && !pc.AddingFinalizer? ==> GuardKept(a, b, pc.uid) && NoNewMark(a, b, pc.uid)
    requires pc.Releasing? ==>
      (RecordAddr(w, k.cluster, pc.uid) in b.objs ==> RecordAddr(w, k.cluster, pc.uid) in a.objs)
    ensures PcOk(w, b, k, pc)
  {
  }

  lemma SnapshotFrame(w: World, a: State, b: State, records: map<Addr, Obj>)
    requires WorldOk(w) && HomesGrow(a, b) && RecordsOk(w, a, records)
    ensures RecordsOk(w, b, records)
  {
    forall x | x in records ensures SnapshotOk(w, b, x, records[x]) {
      assert SnapshotOk(w, a, x, records[x]);
    }
  }

  lemma SweepFrame(w: World, a: State, b: State)
    requires WorldOk(w) && SweepOk(w, a) && HomesGrow(a, b) && b.sweep == a.sweep
    requires a.sweep.On? && a.sweep.quiet ==> NoNewMark(a, b, a.sweep.uid) && PcOf(b, a.homes[a.sweep.uid]).Idle?
    ensures SweepOk(w, b)
  {
    if !a.sweep.Off? { SnapshotFrame(w, a, b, a.sweep.records); }
  }

  lemma ObjFrame(w: World, a: State, b: State, x: Addr, o: Obj)
    requires WorldOk(w) && ObjOk(w, a, x, o) && HomesGrow(a, b)
    requires o.uid.Some? ==> GuardKept(a, b, o.uid.value)
    ensures ObjOk(w, b, x, o)
  {
  }

  /** A step that only removes objects, or changes nothing but instances in ways that
      keep guards, keeps everything but what concerns its own worker. */
  lemma ShrinkKeeps(w: World, a: State, b: State)
    requires WorldOk(w) && Inv(w, a) && KeepsGuards(a, b) && InstsOk(w, b)
    requires b.pcs == a.pcs && b.sweep == a.sweep
    requires forall x :: x in b.objs ==> x in a.objs && b.objs[x] == a.objs[x]
    ensures Inv(w, b)
  {
    forall x | x in b.objs ensures ObjOk(w, b, x, b.objs[x]) { ObjFrame(w, a, b, x, a.objs[x]); }
    forall k | k in b.pcs ensures PcOk(w, b, k, b.pcs[k]) { PcFrame(w, a, b, k, a.pcs[k]); }
    SweepFrame(w, a, b);
  }

  // ---- Users and other controllers ----

  lemma CreateKeeps(w: World, s: State, k: InstKey, uid: string, others: bool)
    requires WorldOk(w) && Inv(w, s) && k !in s.insts && uid !in s.homes && (k.cluster, uid) in w.ids
    ensures Inv(w, DoEnv(w, s, Create(k, uid, others)))
  {
    ShrinkKeeps(w, s, DoEnv(w, s, Create(k, uid, others)));
  }

  lemma SettleKeeps(w: World, s: State, k: InstKey, i: Inst)
    requires WorldOk(w) && Inv(w, s) && k in s.insts
    requires i.uid == s.insts[k].uid && i.finalizer == s.insts[k].finalizer && (s.insts[k].deleting ==> i.deleting)
    ensures Inv(w, Settle(s, k, i))
  {
    var s' := Settle(s, k, i);
    forall u | u in s.homes ensures GuardKept(s, s', u) {}
    ShrinkKeeps(w, s, s');
  }

  lemma EnvKeeps(w: World, s: State, e: EnvOp)
    requires WorldOk(w) && Inv(w, s)
    ensures Inv(w, DoEnv(w, s, e))
  {
    match e
    case Create(k, uid, others) =>
      if k !in s.insts && uid !in s.homes && (k.cluster, uid) in w.ids {
        CreateKeeps(w, s, k, uid, others);
      }
    case Touch(k) => if k in s.insts { SettleKeeps(w, s, k, s.insts[k]); }
    case Delete(k) => if k in s.insts { SettleKeeps(w, s, k, s.insts[k].(deleting := true)); }
    case OthersDone(k) => if k in s.insts { SettleKeeps(w, s, k, s.insts[k].(others := false)); }
    case Write(a, o) =>
      if !InRecordSpace(w, a) && !o.live && (o.uid.Some? ==> a in s.objs && s.objs[a].uid == o.uid) {
        WriteKeeps(w, s, a, o);
      }
    case Remove(a) => ShrinkKeeps(w, s, s.(objs := s.objs - {a}));
  }

  lemma WriteKeepsObjs(w: World, s: State, a: Addr, o: Obj)
    requires WorldOk(w) && ObjsOk(w, s)
    requires !InRecordSpace(w, a) && !o.live && (o.uid.Some? ==> a in s.objs && s.objs[a].uid == o.uid)
    ensures ObjsOk(w, s.(objs := s.objs[a := o]))
  {
    var s' := s.(objs := s.objs[a := o]);
    forall x | x in s'.objs ensures ObjOk(w, s', x, s'.objs[x]) {
      if x == a {
        if o.uid.Some? { assert ObjOk(w, s, a, s.objs[a]); }
      } else {
        ObjFrame(w, s, s', x, s.objs[x]);
      }
    }
  }

  lemma WriteKeeps(w: World, s: State, a: Addr, o: Obj)
    requires WorldOk(w) && Inv(w, s)
    requires !InRecordSpace(w, a) && !o.live && (o.uid.Some? ==> a in s.objs && s.objs[a].uid == o.uid)
    ensures Inv(w, s.(objs := s.objs[a := o]))
  {
    var s' := s.(objs := s.objs[a := o]);
    WriteKeepsObjs(w, s, a, o);
    forall k | k in s'.pcs ensures PcOk(w, s', k, s'.pcs[k]) { WriteKeepsPc(w, s, a, o, k); }
    SweepFrame(w, s, s');
  }

  lemma WriteKeepsPc(w: World, s: State, a: Addr, o: Obj, k: InstKey)
    requires WorldOk(w) && InstsOk(w, s) && PcsOk(w, s) && k in s.pcs
    requires !InRecordSpace(w, a) && (o.uid.Some? ==> a in s.objs && s.objs[a].uid == o.uid)
    ensures PcOk(w, s.(objs := s.objs[a := o]), k, s.pcs[k])
  {
    var pc := s.pcs[k];
    if pc.Releasing? { OwnRecordInSpace(w, s, pc.uid); }
    PcFrame(w, s, s.(objs := s.objs[a := o]), k, pc);
  }

  // ---- Instance workers ----

  lemma SweepChange(w: World, s: State, b: State)
    requires WorldOk(w) && Inv(w, s) && b == s.(objs := b.objs, sweep := b.sweep) && SweepOk(w, b)
    requires forall x :: x in b.objs ==> x in s.objs && b.objs[x] == s.objs[x]
    ensures Inv(w, b)
  {
    forall x | x in b.objs ensures ObjOk(w, b, x, b.objs[x]) { ObjFrame(w, s, b, x, s.objs[x]); }
    forall k | k in b.pcs ensures PcOk(w, b, k, b.pcs[k]) { PcFrame(w, s, b, k, s.pcs[k]); }
  }

  lemma BusyKeeps(w: World, s: State, k: InstKey)
    requires WorldOk(w) && Inv(w, s)
    ensures Inv(w, Busy(s, k)) && NotQuietFor(Busy(s, k), k)
  {
    var s' := Busy(s, k);
    if s' != s {
      SnapshotFrame(w, s, s', s.sweep.records);
      SweepChange(w, s, s');
    }
  }

  predicate NotQuietFor(s: State, k: InstKey) {
    s.sweep.On? && s.sweep.quiet && s.sweep.uid in s.homes ==> s.homes[s.sweep.uid] != k
  }

  /** Worker `k` moves to `pc`, perhaps marking objects as its own, perhaps removing
      some: whatever concerns other instances stays. */
  lemma WorkFrame(w: World, a: State, b: State, k: InstKey, pc: Pc)
    requires WorldOk(w) && Inv(w, a) && NotQuietFor(a, k)
    requires InstsOk(w, b) && ObjsOk(w, b) && b.homes == a.homes && b.sweep == a.sweep
    requires b.pcs == a.pcs[k := pc] && PcOk(w, b, k, pc)
    requires forall u :: u in a.homes && a.homes[u] != k ==> GuardKept(a, b, u) && NoNewMark(a, b, u)
    ensures Inv(w, b)
  {
    forall j | j in b.pcs ensures PcOk(w, b, j, b.pcs[j]) {
      if j != k {
        var q := a.pcs[j];
        assert PcOk(w, a, j, q);
        if q.Releasing? && OwnRecord(w, a, q.uid) in b.objs {
          var r := OwnRecord(w, a, q.uid);
          OwnRecordInSpace(w, a, q.uid);
          assert ObjOk(w, b, r, b.objs[r]);
          var u := b.objs[r].uid.value;
          RecordAddrUnique(w, j.cluster, q.uid, b.homes[u].cluster, u);
          assert NoNewMark(a, b, q.uid);
        }
        PcFrame(w, a, b, j, q);
      }
    }
    if a.sweep.On? && a.sweep.quiet { assert NoNewMark(a, b, a.sweep.uid); }
    SweepFrame(w, a, b);
  }

  /** Only the program counter of `k` changes. */
  lemma GotoKeeps(w: World, s: State, k: InstKey, pc: Pc)
    requires WorldOk(w) && Inv(w, s) && NotQuietFor(s, k) && PcOk(w, Goto(s, k, pc), k, pc)
    ensures Inv(w, Goto(s, k, pc))
  {
    var s' := Goto(s, k, pc);
    forall x | x in s'.objs ensures ObjOk(w, s', x, s'.objs[x]) { ObjFrame(w, s, s', x, s.objs[x]); }
    WorkFrame(w, s, s', k, pc);
  }

  lemma AllKindsCover(w: World, s: State, k: InstKey, u: string)
    requires WorldOk(w) && ObjsOk(w, s) && Holds(s, k, u)
    ensures forall listed :: Covered(w, s, u, AllKinds(w, k), listed)
  {
    forall a | a in s.objs && s.objs[a].uid == Some(u) && a != OwnRecord(w, s, u)
      ensures (TargetOf(a.place), a.gvk) in AllKinds(w, k)
    {
      assert ObjOk(w, s, a, s.objs[a]);
      assert Scope(w, k, a);
    }
  }

  lemma GetKeeps(w: World, s: State, k: InstKey)
    requires WorldOk(w) && Inv(w, s) && NotQuietFor(s, k)
    ensures Inv(w, WorkGet(w, s, k))
  {
    if k in s.insts {
      var i := s.insts[k];
      if i.deleting && i.finalizer {
        AllKindsCover(w, s, k, i.uid);
        GotoKeeps(w, s, k, Collecting(i.uid, i.rv, AllKinds(w, k), {}));
      } else if !i.deleting && !i.finalizer {
        GotoKeeps(w, s, k, AddingFinalizer(i.uid, i.rv));
      } else if !i.deleting {
        GotoKeeps(w, s, k, Applying(i.uid, {}));
      }
    }
  }

  lemma ApplyKeepsObjs(w: World, s: State, s': State, k: InstKey, a: Addr)
    requires WorldOk(w) && InstsOk(w, s) && ObjsOk(w, s) && w.renders(k, a)
    requires s'.insts == s.insts && s'.homes == s.homes && s'.objs.Keys == s.objs.Keys + {a}
    requires forall x :: x in s.objs && x != a ==> s'.objs[x] == s.objs[x]
    requires var o := s'.objs[a]; o.uid.Some? && Holds(s, k, o.uid.value) && (a in s.objs ==> o.live == s.objs[a].live)
    requires a !in s.objs ==> !s'.objs[a].live
    ensures ObjsOk(w, s')
  {
    RenderedIsNoRecord(w, k, a);
    forall x | x in s'.objs ensures ObjOk(w, s', x, s'.objs[x]) {
      if x != a {
        ObjFrame(w, s, s', x, s.objs[x]);
      } else if a in s.objs && s.objs[a].live {
        assert ObjOk(w, s, a, s.objs[a]);
        OwnRecordInSpace(w, s, s.objs[a].uid.value);
      }
    }
  }

  lemma ApplyKeeps(w: World, s: State, k: InstKey, a: Addr, body: string)
    requires WorldOk(w) && Inv(w, s) && NotQuietFor(s, k) && PcOf(s, k).Applying?
    ensures Inv(w, WorkApply(w, s, k, PcOf(s, k), a, body))
  {
    var pc := PcOf(s, k);
    var s' := WorkApply(w, s, k, pc, a, body);
    if w.renders(k, a) {
      assert PcOk(w, s, k, pc);
      ApplyKeepsObjs(w, s, s', k, a);
      forall u | u in s.homes && s.homes[u] != k ensures GuardKept(s, s', u) && NoNewMark(s, s', u) {}
      WorkFrame(w, s, s', k, Applying(pc.uid, pc.applied + {a}));
    }
  }

  lemma GoodRecordWritten(w: World, k: InstKey, provider: seq<GVK>, host: seq<GVK>)
    requires WorldOk(w) && Elems(provider) == w.kinds(k.blueprint, Provider)
    requires Elems(host) == w.kinds(k.blueprint, Host)
    ensures forall u, body :: GoodRecord(w, k, Obj(u, true, GvkString(provider), GvkString(host), body))
  {
    forall g | g in provider ensures Clean(g) { assert g in Elems(provider); }
    forall g | g in host ensures Clean(g) { assert g in Elems(host); }
    GvkStringRoundTrip(provider);
    GvkStringRoundTrip(host);
  }

  /** Worker `k` writes a good record and moves on. */
  lemma RecordWriteKeeps(w: World, s: State, k: InstKey, u: string, o: Obj, pc: Pc)
    requires WorldOk(w) && Inv(w, s) && NotQuietFor(s, k) && Holds(s, k, u) && o.live && o.uid == Some(u)
    requires GoodRecord(w, k, o)
    requires pc.Idle? || (pc.Pruning? && pc.uid == u && pc.listed == {} && TodoOk(w, k, pc.todo)
                          && Covered(w, s, u, pc.todo, pc.keep))
    ensures Inv(w, Goto(s.(objs := s.objs[RecordAddr(w, k.cluster, u) := o]), k, pc))
  {
    var s' := Goto(s.(objs := s.objs[RecordAddr(w, k.cluster, u) := o]), k, pc);
    forall x | x in s'.objs ensures ObjOk(w, s', x, s'.objs[x]) {
      if x != RecordAddr(w, k.cluster, u) { ObjFrame(w, s, s', x, s.objs[x]); }
    }
    WorkFrame(w, s, s', k, pc);
  }

  lemma PutRecordKeeps(w: World, s: State, k: InstKey, provider: seq<GVK>, host: seq<GVK>)
    requires WorldOk(w) && Inv(w, s) && NotQuietFor(s, k) && PcOf(s, k).PuttingRecord?
    ensures Inv(w, WorkPutRecord(w, s, k, PcOf(s, k), provider, host))
  {
    var pc := PcOf(s, k);
    var a := RecordAddr(w, k.cluster, pc.uid);
    if Elems(provider) != w.kinds(k.blueprint, Provider) || Elems(host) != w.kinds(k.blueprint, Host) {
    } else if pc.found != (a in s.objs) {
      GotoKeeps(w, s, k, Idle);
    } else {
      GoodRecordWritten(w, k, provider, host);
      var body := if a in s.objs then s.objs[a].body else "";
      assert PcOk(w, s, k, pc);
      AllKindsCover(w, s, k, pc.uid);
      RecordWriteKeeps(w, s, k, pc.uid, Obj(Some(pc.uid), true, GvkString(provider), GvkString(host), body),
                       if pc.complete then Pruning(pc.uid, pc.applied, AllKinds(w, k), {}) else Idle);
    }
  }

  lemma ListReaches(w: World, s: State, k: InstKey, u: string, t: Target, g: GVK)
    requires WorldOk(w) && ObjsOk(w, s) && Holds(s, k, u) && g in w.kinds(k.blueprint, t)
    ensures Reach(w, k, u, Listed(s, PlaceOf(k, t), g, u))
  {
    forall a | a in Listed(s, PlaceOf(k, t), g, u)
      ensures w.renders(k, a) || (a == RecordAddr(w, k.cluster, u) && CONFIG_MAP in w.kinds(k.blueprint, Provider))
    {
      assert ObjOk(w, s, a, s.objs[a]);
    }
  }

  lemma ListCovers(w: World, s: State, k: InstKey, u: string, todo: Todo, t: Target, g: GVK, kept: set<Addr>)
    requires WorldOk(w) && ObjsOk(w, s) && Holds(s, k, u) && Covered(w, s, u, todo, kept)
    ensures Covered(w, s, u, todo - {(t, g)}, Listed(s, PlaceOf(k, t), g, u) + kept)
  {
    forall a | a in s.objs && s.objs[a].uid == Some(u) && a != OwnRecord(w, s, u)
      ensures (TargetOf(a.place), a.gvk) in todo - {(t, g)} || a in Listed(s, PlaceOf(k, t), g, u) + kept
    {
      assert ObjOk(w, s, a, s.objs[a]);
      assert Scope(w, k, a);
    }
  }

  lemma ListKeeps(w: World, s: State, k: InstKey, t: Target, g: GVK)
    requires WorldOk(w) && Inv(w, s) && NotQuietFor(s, k) && (PcOf(s, k).Pruning? || PcOf(s, k).Collecting?)
    ensures Inv(w, WorkList(s, k, PcOf(s, k), t, g))
  {
    var pc := PcOf(s, k);
    assert PcOk(w, s, k, pc);
    if pc.listed == {} && (t, g) in pc.todo {
      var found := Listed(s, PlaceOf(k, t), g, pc.uid);
      ListReaches(w, s, k, pc.uid, t, g);
      ListCovers(w, s, k, pc.uid, pc.todo, t, g, if pc.Pruning? then pc.keep else {});
      GotoKeeps(w, s, k, pc.(todo := pc.todo - {(t, g)}, listed := if pc.Pruning? then found - pc.keep else found));
    }
  }

  /** Worker `k` removes one object and moves on. */
  lemma RemoveKeeps(w: World, s: State, k: InstKey, a: Addr, pc: Pc)
    requires WorldOk(w) && Inv(w, s) && NotQuietFor(s, k)
    requires PcOk(w, Goto(s.(objs := s.objs - {a}), k, pc), k, pc)
    ensures Inv(w, Goto(s.(objs := s.objs - {a}), k, pc))
  {
    var s' := Goto(s.(objs := s.objs - {a}), k, pc);
    forall x | x in s'.objs ensures ObjOk(w, s', x, s'.objs[x]) { ObjFrame(w, s, s', x, s.objs[x]); }
    WorkFrame(w, s, s', k, pc);
  }

  lemma DeleteKeeps(w: World, s: State, k: InstKey, a: Addr)
    requires WorldOk(w) && Inv(w, s) && NotQuietFor(s, k) && (PcOf(s, k).Pruning? || PcOf(s, k).Collecting?)
    ensures Inv(w, WorkDelete(s, k, PcOf(s, k), a))
  {
    var pc := PcOf(s, k);
    if a in pc.listed { RemoveKeeps(w, s, k, a, pc.(listed := pc.listed - {a})); }
  }

  lemma DropRecordKeeps(w: World, s: State, k: InstKey)
    requires WorldOk(w) && Inv(w, s) && NotQuietFor(s, k) && PcOf(s, k).DroppingRecord?
    ensures Inv(w, DoWork(w, s, k, DropRecord))
  {
    var pc := PcOf(s, k);
    assert PcOk(w, s, k, pc);
    RemoveKeeps(w, s, k, RecordAddr(w, k.cluster, pc.uid), Releasing(pc.uid, pc.rv));
  }

  /** Whoever loses the finalizer, no other instance does. */
  lemma UpdateKeepsGuard(w: World, s: State, k: InstKey, finalizer: bool, u: string)
    requires InstsOk(w, s) && k in s.insts && (finalizer || s.insts[k].uid != u)
    ensures GuardKept(s, Goto(Settle(s, k, s.insts[k].(finalizer := finalizer)), k, Idle), u)
  {
  }

  lemma UpdateKeepsObjs(w: World, s: State, s': State, k: InstKey, finalizer: bool)
    requires WorldOk(w) && Inv(w, s) && k in s.insts && (!finalizer ==> PcOf(s, k).Releasing?)
    requires s' == Goto(Settle(s, k, s.insts[k].(finalizer := finalizer)), k, Idle)
    ensures ObjsOk(w, s')
  {
    if !finalizer { assert PcOk(w, s, k, PcOf(s, k)); }
    assert !finalizer ==> Unmarked(s, s.insts[k].uid);
    forall x | x in s'.objs ensures ObjOk(w, s', x, s'.objs[x]) {
      var o := s.objs[x];
      assert ObjOk(w, s, x, o);
      if o.uid.Some? { UpdateKeepsGuard(w, s, k, finalizer, o.uid.value); }
      ObjFrame(w, s, s', x, o);
    }
  }

  lemma UpdateKeeps(w: World, s: State, k: InstKey, rv: nat, finalizer: bool)
    requires WorldOk(w) && Inv(w, s) && NotQuietFor(s, k)
    requires !finalizer ==> PcOf(s, k).Releasing?
    ensures Inv(w, WorkUpdate(s, k, rv, finalizer))
  {
    if k in s.insts && s.insts[k].rv == rv {
      var s' := Goto(Settle(s, k, s.insts[k].(finalizer := finalizer)), k, Idle);
      UpdateKeepsObjs(w, s, s', k, finalizer);
      forall u | u in s.homes && s.homes[u] != k ensures GuardKept(s, s', u) {
        UpdateKeepsGuard(w, s, k, finalizer, u);
      }
      WorkFrame(w, s, s', k, Idle);
    } else {
      GotoKeeps(w, s, k, Idle);
    }
  }

  /** The moves that touch no object. */
  lemma MoveKeeps(w: World, s: State, k: InstKey, op: WorkOp)
    requires WorldOk(w) && Inv(w, s) && NotQuietFor(s, k)
    requires op.FinishEngine? || op.GetRecord? || op.ReapDone? || op.Abort?
    ensures Inv(w, DoWork(w, s, k, op))
  {
    var s' := DoWork(w, s, k, op);
    assert PcOk(w, s, k, PcOf(s, k));
    if s' != s { GotoKeeps(w, s, k, PcOf(s', k)); }
  }

  lemma WorkKeeps(w: World, s: State, k: InstKey, op: WorkOp)
    requires WorldOk(w) && Inv(w, s) && NotQuietFor(s, k)
    ensures Inv(w, DoWork(w, s, k, op))
  {
    var pc := PcOf(s, k);
    match op
    case Get => if pc.Idle? { GetKeeps(w, s, k); }
    case AddFinalizer => if pc.AddingFinalizer? { UpdateKeeps(w, s, k, pc.rv, true); }
    case Apply(a, body) => if pc.Applying? { ApplyKeeps(w, s, k, a, body); }
    case PutRecord(provider, host) => if pc.PuttingRecord? { PutRecordKeeps(w, s, k, provider, host); }
    case ListKind(t, g) => if pc.Pruning? || pc.Collecting? { ListKeeps(w, s, k, t, g); }
    case DeleteListed(a) => if pc.Pruning? || pc.Collecting? { DeleteKeeps(w, s, k, a); }
    case DropRecord => if pc.DroppingRecord? { DropRecordKeeps(w, s, k); }
    case Release => if pc.Releasing? { UpdateKeeps(w, s, k, pc.rv, false); }
    case _ => MoveKeeps(w, s, k, op);
  }

  // ---- The sweeper ----

  lemma RecordCovers(w: World, s: State, rec: Obj, u: string)
    requires WorldOk(w) && ObjsOk(w, s) && u in s.homes && GoodRecord(w, s.homes[u], rec)
    ensures SweepCovers(w, s, u, RecordedKinds(w, rec), {}) && TodoOk(w, s.homes[u], RecordedKinds(w, rec))
  {
    assert forall g :: g in Visited(rec.providerKinds) <==> g in Elems(Visited(rec.providerKinds));
    assert forall g :: g in Visited(rec.hostKinds) <==> g in Elems(Visited(rec.hostKinds));
    forall a | a in s.objs && s.objs[a].uid == Some(u) && a != OwnRecord(w, s, u) && Sweepable(w, a.place)
      ensures (TargetOf(a.place), a.gvk) in RecordedKinds(w, rec)
    {
      assert ObjOk(w, s, a, s.objs[a]);
      assert Scope(w, s.homes[u], a);
    }
  }

  lemma TakeUpKeeps(w: World, s: State, r: Addr)
    requires WorldOk(w) && Inv(w, s) && s.sweep.Between? && r in s.sweep.records && s.sweep.records[r].uid.Some?
    ensures Inv(w, DoSweep(w, s, TakeUp(r)))
  {
    var s' := DoSweep(w, s, TakeUp(r));
    var rec := s.sweep.records[r];
    assert SnapshotOk(w, s, r, rec);
    SnapshotFrame(w, s, s', s'.sweep.records);
    RecordCovers(w, s, rec, rec.uid.value);
    SweepChange(w, s, s');
  }

  lemma SweepKindKeeps(w: World, s: State, t: Target, g: GVK)
    requires WorldOk(w) && Inv(w, s)
    ensures Inv(w, DoSweep(w, s, SweepKind(t, g)))
  {
    var s' := DoSweep(w, s, SweepKind(t, g));
    if s' != s {
      var u := s.sweep.uid;
      SnapshotFrame(w, s, s', s'.sweep.records);
      forall a | a in s'.sweep.listed
        ensures w.renders(s.homes[u], a)
          || (a == RecordAddr(w, s.homes[u].cluster, u) && CONFIG_MAP in w.kinds(s.homes[u].blueprint, Provider))
      {
        assert ObjOk(w, s, a, s.objs[a]);
      }
      SweepChange(w, s, s');
    }
  }

  lemma SweepKeeps(w: World, s: State, op: SweepOp)
    requires WorldOk(w) && Inv(w, s)
    ensures Inv(w, DoSweep(w, s, op))
  {
    var s' := DoSweep(w, s, op);
    match op
    case ListRecords =>
      if s.sweep.Off? {
        forall a | a in s'.sweep.records ensures SnapshotOk(w, s', a, s'.sweep.records[a]) {
          assert ObjOk(w, s, a, s.objs[a]);
        }
        SweepChange(w, s, s');
      }
    case TakeUp(r) =>
      if s.sweep.Between? && r in s.sweep.records && s.sweep.records[r].uid.Some? { TakeUpKeeps(w, s, r); }
    case SweepKind(t, g) => SweepKindKeeps(w, s, t, g);
    case SweepDelete(a) => SweepRemoveKeeps(w, s, op);
    case DeleteRecord => SweepRemoveKeeps(w, s, op);
    case _ => SweepMoveKeeps(w, s, op);
  }

  lemma SweepRemoveKeeps(w: World, s: State, op: SweepOp)
    requires WorldOk(w) && Inv(w, s) && (op.SweepDelete? || op.DeleteRecord?)
    ensures Inv(w, DoSweep(w, s, op))
  {
    var s' := DoSweep(w, s, op);
    if s' != s {
      SnapshotFrame(w, s, s', s.sweep.records);
      assert SweepOk(w, s');
      SweepChange(w, s, s');
    }
  }

  lemma SweepMoveKeeps(w: World, s: State, op: SweepOp)
    requires WorldOk(w) && Inv(w, s) && (op.Skip? || op.GiveUp? || op.Stop?)
    ensures Inv(w, DoSweep(w, s, op))
  {
    var s' := DoSweep(w, s, op);
    if s' != s {
      if !s'.sweep.Off? { SnapshotFrame(w, s, s', s'.sweep.records); }
      SweepChange(w, s, s');
    }
  }

  /** Every step keeps the invariant. */
  lemma StepKeeps(w: World, s: State, step: Step)
    requires WorldOk(w) && Inv(w, s)
    ensures Inv(w, Do(w, s, step))
  {
    match step
    case Env(e) => EnvKeeps(w, s, e);
    case Work(k, op) => BusyKeeps(w, s, k); WorkKeeps(w, Busy(s, k), k, op);
    case Sweeper(op) => SweepKeeps(w, s, op);
  }

  /** The invariant holds after every run. */
  lemma {:induction false} Reachable(w: World, objs: map<Addr, Obj>, steps: seq<Step>)
    requires WorldOk(w) && Pristine(w, objs)
    ensures Inv(w, Exec(w, objs, steps))
  {
    if steps != [] {
      Reachable(w, objs, steps[..|steps| - 1]);
      StepKeeps(w, Exec(w, objs, steps[..|steps| - 1]), steps[|steps| - 1]);
    }
  }
}
