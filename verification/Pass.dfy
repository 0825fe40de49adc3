/** The effect of one pass as a whole: what pruning leaves, what is never lost, and
    what a second pass changes. */
module Pass {
  import opened GvkCodec
  import opened Routing
  import opened Claims
  import opened Naming
  import opened Stores
  import opened Engine
  import opened Reconciler

  /** The sinks a pass starts with. */
  const EMPTY_SINKS: map<Target, seq<Key>> := map t | t in ALL_TARGETS :: []

  /** What deletion keeps. */
  const KEEP_NOTHING: map<Target, set<Key>> := map t | t in ALL_TARGETS :: {}

  // ---- The net effect of a log on one object ----

  const BLANK := Object(map[], None, map[], "")

  function Act(o: Object, d: Desired): Object {
    Object(o.labels + d.labels, if d.owner.Some? then d.owner else o.owner, d.spec, o.status)
  }

  function Combine(d: Desired, d': Desired): Desired {
    Desired(d'.key, d.labels + d'.labels, if d'.owner.Some? then d'.owner else d.owner, d'.spec)
  }

  /** All writes of `log` to key `k` of target `t`, folded into one. */
  function Summary(log: seq<Event>, t: Target, k: Key): Option<Desired> {
    if log == [] then None
    else
      var e, front := log[|log| - 1], Summary(log[..|log| - 1], t, k);
      if e.target != t || e.desired.key != k then front
      else if front.None? then Some(e.desired)
      else Some(Combine(front.value, e.desired))
  }

  function Base(s: Store, k: Key): Object { if k in s then s[k] else BLANK }

  lemma {:induction false} SummaryWritten(log: seq<Event>, t: Target, k: Key)
    ensures Summary(log, t, k).Some? <==> k in Written(log, t)
  {
    if log != [] {
      var front, e := log[..|log| - 1], log[|log| - 1];
      assert log == front + [e];
      SummaryWritten(front, t, k);
      assert Written(log, t) == Written(front, t) + (if e.target == t then {e.desired.key} else {});
    }
  }

  lemma {:induction false} SummaryLabelled(log: seq<Event>, t: Target, k: Key, uid: string)
    requires forall e :: e in log ==> LABEL_UID in e.desired.labels && e.desired.labels[LABEL_UID] == uid
    ensures Summary(log, t, k).Some? ==>
              LABEL_UID in Summary(log, t, k).value.labels && Summary(log, t, k).value.labels[LABEL_UID] == uid
  {
    if log != [] {
      assert log[|log| - 1] in log;
      SummaryLabelled(log[..|log| - 1], t, k, uid);
    }
  }

  /** The stores after a log, one key at a time. */
  lemma {:induction false} ReplayKey(before: Stores, log: seq<Event>, t: Target, k: Key)
    requires InStores(log, before.Keys) && t in before
    ensures var after, p := Replay(before, log)[t], Summary(log, t, k);
      && (k in after <==> k in before[t] || p.Some?)
      && (k in after ==> after[k] == if p.None? then before[t][k] else Act(Base(before[t], k), p.value))
  {
    if log != [] {
      var front, e := log[..|log| - 1], log[|log| - 1];
      assert InStores(front, before.Keys);
      ReplayKey(before, front, t, k);
      var mid := Replay(before, front);
      assert Replay(before, log) == WriteOne(mid, e);
      ServerApplyKey(mid[e.target], e.desired);
      if e.target == t && e.desired.key == k {
        if Summary(front, t, k).Some? {
          ActCombine(Base(before[t], k), Summary(front, t, k).value, e.desired);
        }
      } else {
        assert SameAt(Replay(before, log)[t], mid[t], k);
      }
    }
  }

  ghost predicate SameAt(s: Store, s': Store, k: Key) {
    (k in s <==> k in s') && (k in s ==> s[k] == s'[k])
  }

  lemma ServerApplyKey(s: Store, d: Desired)
    ensures var after := ServerApply(s, d);
      && d.key in after && after[d.key] == Act(Base(s, d.key), d)
      && (forall k :: k != d.key ==> SameAt(after, s, k))
  {
    assert map[] + d.labels == d.labels;
  }

  lemma ActCombine(o: Object, d: Desired, d': Desired)
    ensures Act(Act(o, d), d') == Act(o, Combine(d, d'))
  {
    assert (o.labels + d.labels) + d'.labels == o.labels + (d.labels + d'.labels);
  }

  /** Writing the same objects again changes nothing. */
  lemma ActTwice(o: Object, d: Desired)
    ensures Act(Act(o, d), d) == Act(o, d)
  {
    assert o.labels + d.labels + d.labels == o.labels + d.labels;
  }

  // ---- A complete pass ----

  ghost function KeepAll(log: seq<Event>): map<Target, set<Key>> {
    map t | t in ALL_TARGETS :: Written(log, t)
  }

  /** Apply the log, put the record, prune every wired target. */
  function CompletePass(r: Config, before: Stores, log: seq<Event>, uid: string, k: Key, rec: Object): Stores
    requires before.Keys == ALL_TARGETS && InStores(log, before.Keys)
  {
    var mid := Recorded(before, log, k, rec);
    map t | t in ALL_TARGETS ::
      if t in WiredTargets(r) then Reap(mid[t], ChildKinds(r, t), uid, Written(log, t)) else mid[t]
  }

  /** Apply the log and put the record: a pass that waits goes no further. */
  function Recorded(before: Stores, log: seq<Event>, k: Key, rec: Object): (mid: Stores)
    requires before.Keys == ALL_TARGETS && InStores(log, before.Keys)
    ensures mid.Keys == ALL_TARGETS
  {
    var applied := Replay(before, log);
    applied[Provider := applied[Provider][k := rec]]
  }

  /** What pruning and deletion enumerate in one target. */
  function Owned(r: Config, s: Store, t: Target, uid: string): set<Key> {
    Reapable(s, ChildKinds(r, t), uid, {})
  }

  lemma RecordIsNoChild(h: Digest, r: Config, cluster: string, inst: Instance, log: seq<Event>)
    requires HexDigest(h) && OwnWrites(h, r, cluster, inst, log)
    ensures RecordKey(h, r, cluster, inst.uid) !in Written(log, Provider)
    ensures RecordKey(h, r, cluster, inst.uid) !in Written(log, Host)
  {
    forall e | e in log && e.target != Consumer ensures e.desired.key != RecordKey(h, r, cluster, inst.uid) {
      var original :| e.desired.key.name == ProviderChildName(h, Tuple(cluster, inst.name, original));
      ChildNameIsNoRecordName(h, Tuple(cluster, inst.name, original), cluster, inst.uid);
    }
  }

  lemma WrittenIsOwned(h: Digest, r: Config, cluster: string, inst: Instance, before: Stores, log: seq<Event>,
                       t: Target, k: Key)
    requires HexDigest(h) && before.Keys == ALL_TARGETS && InStores(log, before.Keys)
    requires OwnWrites(h, r, cluster, inst, log)
    requires t in ALL_TARGETS && k in Written(log, t)
    ensures var s := Replay(before, log); k in s[t] && Labelled(s[t][k], inst.uid) && k.gvk in ChildKinds(r, t)
  {
    SummaryWritten(log, t, k);
    SummaryLabelled(log, t, k, inst.uid);
    ReplayKey(before, log, t, k);
    var e :| e in log && e.target == t && e.desired.key == k;
    assert OwnWrite(h, r, cluster, inst, e);
  }

  /** After an error-free complete pass the instance's objects of each wired target's
      child kinds are exactly those the pass applied. */
  lemma CompletePassIsExact(h: Digest, r: Config, cluster: string, inst: Instance, before: Stores, log: seq<Event>,
                            rec: Object)
    requires HexDigest(h) && before.Keys == ALL_TARGETS && InStores(log, before.Keys)
    requires OwnWrites(h, r, cluster, inst, log)
    ensures var after := CompletePass(r, before, log, inst.uid, RecordKey(h, r, cluster, inst.uid), rec);
      forall t :: t in WiredTargets(r) ==> Owned(r, after[t], t, inst.uid) == Written(log, t)
  {
    var key := RecordKey(h, r, cluster, inst.uid);
    RecordIsNoChild(h, r, cluster, inst, log);
    var mid := Recorded(before, log, key, rec);
    forall t | t in WiredTargets(r)
      ensures Owned(r, Reap(mid[t], ChildKinds(r, t), inst.uid, Written(log, t)), t, inst.uid) == Written(log, t)
    {
      forall k | k in Written(log, t) ensures k in Owned(r, mid[t], t, inst.uid) {
        WrittenIsOwned(h, r, cluster, inst, before, log, t, k);
      }
    }
  }

  /** The record a complete pass has just written survives it exactly when ConfigMaps
      are not among the provider child kinds. */
  lemma RecordSurvivesPrune(h: Digest, r: Config, cluster: string, inst: Instance, before: Stores, log: seq<Event>,
                            rec: Object)
    requires HexDigest(h) && before.Keys == ALL_TARGETS && InStores(log, before.Keys)
    requires OwnWrites(h, r, cluster, inst, log)
    requires Labelled(rec, inst.uid)
    ensures var key := RecordKey(h, r, cluster, inst.uid);
      key in CompletePass(r, before, log, inst.uid, key, rec)[Provider] <==> CONFIG_MAP !in ChildKinds(r, Provider)
  {
    RecordIsNoChild(h, r, cluster, inst, log);
  }

  /** A second complete pass that makes the same writes changes no object of any
      store; only the record is rewritten. */
  lemma SecondPassChangesNothing(h: Digest, r: Config, cluster: string, inst: Instance, before: Stores, log: seq<Event>,
                                 rec: Object, rec': Object)
    requires HexDigest(h) && before.Keys == ALL_TARGETS && InStores(log, before.Keys)
    requires OwnWrites(h, r, cluster, inst, log)
    requires Labelled(rec, inst.uid) && Labelled(rec', inst.uid)
    ensures var key := RecordKey(h, r, cluster, inst.uid);
      var once := CompletePass(r, before, log, inst.uid, key, rec);
      var twice := CompletePass(r, once, log, inst.uid, key, rec');
      forall t, k :: t in ALL_TARGETS && !(t == Provider && k == key) ==> SameAt(once[t], twice[t], k)
  {
    var key := RecordKey(h, r, cluster, inst.uid);
    var once := CompletePass(r, before, log, inst.uid, key, rec);
    var twice := CompletePass(r, once, log, inst.uid, key, rec');
    CompletePassIsExact(h, r, cluster, inst, before, log, rec);
    RecordIsNoChild(h, r, cluster, inst, log);
    forall t, k | t in ALL_TARGETS && !(t == Provider && k == key) ensures SameAt(once[t], twice[t], k) {
      ReplayKey(before, log, t, k);
      ReplayKey(once, log, t, k);
      SummaryWritten(log, t, k);
      var p := Summary(log, t, k);
      if p.Some? {
        ActTwice(Base(before[t], k), p.value);
        assert k in Written(log, t);
        assert once[t][k] == Act(Base(before[t], k), p.value);
      } else if k in once[t] {
        assert t in WiredTargets(r) ==> k !in Owned(r, once[t], t, inst.uid);
      }
    }
  }

  /** Pruning takes only what carried the instance's label before the pass and was not
      applied by it, the record aside. */
  lemma PruneTakesOwnLeftovers(h: Digest, r: Config, cluster: string, inst: Instance, before: Stores, log: seq<Event>,
                               rec: Object, t: Target, k: Key)
    requires HexDigest(h) && before.Keys == ALL_TARGETS && InStores(log, before.Keys)
    requires OwnWrites(h, r, cluster, inst, log)
    requires t in ALL_TARGETS && !(t == Provider && k == RecordKey(h, r, cluster, inst.uid))
    requires k in Reapable(Recorded(before, log, RecordKey(h, r, cluster, inst.uid), rec)[t], ChildKinds(r, t),
                           inst.uid, Written(log, t))
    ensures k in before[t] && Labelled(before[t][k], inst.uid) && k !in Written(log, t) && k.gvk in ChildKinds(r, t)
  {
    ReplayKey(before, log, t, k);
    SummaryWritten(log, t, k);
  }

  // ---- The pass as it runs, under client failures ----

  ghost predicate Keeps(before: Stores, after: Stores)
    requires before.Keys == after.Keys == ALL_TARGETS
  {
    forall t, k :: t in ALL_TARGETS && k in before[t] ==> k in after[t]
  }

  ghost predicate GraphPermits(c: Call, r: Config) {
    exists id :: id in r.graph && TargetForNode(r.graph[id].id, r.routing) == c.target && r.graph[id].gvk == c.gvk
      && c.verb in VerbsNeeded(r.graph[id])
  }

  /** Every call made in the consumer workspace is one some node asks for. */
  ghost predicate ConsumerCallsPermitted(calls: set<Call>, r: Config) {
    forall c :: c in calls && c.target == Consumer ==> GraphPermits(c, r)
  }

  lemma ReplayKeeps(before: Stores, log: seq<Event>)
    requires before.Keys == ALL_TARGETS && InStores(log, before.Keys)
    ensures Keeps(before, Replay(before, log))
    ensures forall t, k :: t in ALL_TARGETS && k in Written(log, t) ==> k in Replay(before, log)[t]
  {
    forall t, k | t in ALL_TARGETS
      ensures k in before[t] ==> k in Replay(before, log)[t]
      ensures k in Written(log, t) ==> k in Replay(before, log)[t]
    {
      ReplayKey(before, log, t, k);
      SummaryWritten(log, t, k);
    }
  }

  lemma PrefixWritten(log: seq<Event>, full: seq<Event>, t: Target)
    requires log <= full
    ensures Written(log, t) <= Written(full, t)
  {
    assert forall e :: e in log ==> e in full;
  }

  lemma EngineCallsPermitted(calls: set<Call>, rt: Runtime, r: Config)
    requires AllPermitted(calls, rt.nodes, r.routing) && FromGraph(rt, r)
    ensures ConsumerCallsPermitted(calls, r)
  {
    forall c | c in calls ensures GraphPermits(c, r) {
      assert Permitted(c, rt.nodes, r.routing);
      var n :| n in rt.nodes && TargetForNode(n.id, r.routing) == c.target && n.gvk == c.gvk
        && c.verb in VerbsNeeded(n);
      assert r.graph[n.id] == n;
    }
  }

  lemma ReapCallsPermitted(calls: set<Call>, r: Config)
    requires ReapCalls(r, calls)
    ensures ConsumerCallsPermitted(calls, r)
  {
    forall c | c in calls ensures GraphPermits(c, r) {
      var id :| id in r.graph && Creates(r, r.graph[id], c.target) && r.graph[id].gvk == c.gvk;
    }
  }

  /** What a pass did to the stores, by how it ended. `log` is what it applied. */
  ghost predicate PassResult(h: Digest, r: Config, cluster: string, inst: Instance, now: string,
                             before: Stores, after: Stores, log: seq<Event>, res: Outcome)
    requires HexDigest(h) && before.Keys == after.Keys == ALL_TARGETS
  {
    var key := RecordKey(h, r, cluster, inst.uid);
    && InStores(log, before.Keys) && OwnWrites(h, r, cluster, inst, log)
    // an incomplete pass deletes nothing
    && (!res.complete ==> Keeps(before, after))
    // nothing the pass applied is missing, however it ended
    && (forall t, k :: t in ALL_TARGETS && k in Written(log, t) ==> k in after[t])
    // whatever is missing carried the label and was not applied
    && (forall t, k :: t in ALL_TARGETS && k in before[t] && k !in after[t] && !(t == Provider && k == key) ==>
          Leftover(r, before, log, inst.uid, t, k))
    // without an error the stores are exactly those of the specification
    && (!res.err ==> ExactStores(h, r, cluster, inst, now, before, after, log, res.complete))
  }

  /** An object of the instance before the pass that the pass did not apply. */
  ghost predicate Leftover(r: Config, before: Stores, log: seq<Event>, uid: string, t: Target, k: Key)
    requires t in before && k in before[t]
  {
    Labelled(before[t][k], uid) && k !in Written(log, t) && k.gvk in ChildKinds(r, t)
  }

  ghost predicate ExactStores(h: Digest, r: Config, cluster: string, inst: Instance, now: string,
                              before: Stores, after: Stores, log: seq<Event>, complete: bool)
    requires HexDigest(h) && before.Keys == after.Keys == ALL_TARGETS && InStores(log, before.Keys)
  {
    var key := RecordKey(h, r, cluster, inst.uid);
    exists rec :: IsRecord(r, rec, cluster, inst.uid, now)
      && after == EndStores(r, before, log, inst.uid, key, rec, complete)
  }

  function EndStores(r: Config, before: Stores, log: seq<Event>, uid: string, key: Key, rec: Object,
                     complete: bool): Stores
    requires before.Keys == ALL_TARGETS && InStores(log, before.Keys)
  {
    if complete then CompletePass(r, before, log, uid, key, rec) else Recorded(before, log, key, rec)
  }

  lemma FailedEarly(h: Digest, r: Config, cluster: string, inst: Instance, now: string,
                    before: Stores, after: Stores, log: seq<Event>, full: seq<Event>, res: Outcome)
    requires HexDigest(h) && before.Keys == after.Keys == ALL_TARGETS && res.err
    requires WroteSome(before, after, log, full) && OwnWrites(h, r, cluster, inst, full)
    ensures PassResult(h, r, cluster, inst, now, before, after, log, res)
  {
    assert forall e :: e in log ==> e in full;
    ReplayKeeps(before, log);
    if after != Replay(before, log) {
      var more := full[..|log| + 1];
      assert log <= more;
      ReplayKeeps(before, more);
      forall t | t in ALL_TARGETS ensures Written(log, t) <= Written(more, t) { PrefixWritten(log, more, t); }
    }
  }

  lemma RecordWritten(h: Digest, r: Config, cluster: string, inst: Instance, now: string, before: Stores, after: Stores,
                      log: seq<Event>)
    requires HexDigest(h) && before.Keys == after.Keys == ALL_TARGETS && InStores(log, before.Keys)
    requires WroteRecord(h, r, Replay(before, log), after, cluster, inst.uid, now)
    ensures var key := RecordKey(h, r, cluster, inst.uid);
      && key in after[Provider] && after == Recorded(before, log, key, after[Provider][key])
      && IsRecord(r, after[Provider][key], cluster, inst.uid, now)
    ensures ExactStores(h, r, cluster, inst, now, before, after, log, false)
  {
    var key := RecordKey(h, r, cluster, inst.uid);
    assert after == EndStores(r, before, log, inst.uid, key, after[Provider][key], false);
  }

  lemma RecordedKeeps(before: Stores, log: seq<Event>, key: Key, rec: Object)
    requires before.Keys == ALL_TARGETS && InStores(log, before.Keys)
    ensures Keeps(before, Recorded(before, log, key, rec))
    ensures forall t, k :: t in ALL_TARGETS && k in Written(log, t) ==> k in Recorded(before, log, key, rec)[t]
  {
    ReplayKeeps(before, log);
  }

  lemma AtRecord(h: Digest, r: Config, cluster: string, inst: Instance, now: string,
                 before: Stores, after: Stores, log: seq<Event>, res: Outcome)
    requires HexDigest(h) && before.Keys == after.Keys == ALL_TARGETS && InStores(log, before.Keys)
    requires OwnWrites(h, r, cluster, inst, log)
    requires WroteRecord(h, r, Replay(before, log), after, cluster, inst.uid, now)
      || (res.err && after == Replay(before, log))
    requires res.err || !res.complete
    ensures PassResult(h, r, cluster, inst, now, before, after, log, res)
  {
    if after == Replay(before, log) && res.err {
      ReplayKeeps(before, log);
    } else {
      RecordWritten(h, r, cluster, inst, now, before, after, log);
      var key := RecordKey(h, r, cluster, inst.uid);
      RecordedKeeps(before, log, key, after[Provider][key]);
    }
  }

  lemma ReapKeepsWritten(r: Config, mid: Stores, after: Stores, uid: string, log: seq<Event>)
    requires mid.Keys == after.Keys == ALL_TARGETS && ReapedSomewhere(r, mid, after, uid, KeepAll(log))
    requires forall t, k :: t in ALL_TARGETS && k in Written(log, t) ==> k in mid[t]
    ensures forall t, k :: t in ALL_TARGETS && k in Written(log, t) ==> k in after[t]
  {
    forall t, k | t in ALL_TARGETS && k in Written(log, t) ensures k in after[t] {
      assert KeepAll(log)[t] == Written(log, t);
      if t in WiredTargets(r) {
        assert k !in Reapable(mid[t], ChildKinds(r, t), uid, KeepAll(log)[t]);
      }
    }
  }

  ghost predicate RecordedAt(before: Stores, mid: Stores, log: seq<Event>, key: Key)
    requires before.Keys == mid.Keys == ALL_TARGETS && InStores(log, before.Keys)
  {
    key in mid[Provider] && mid == Recorded(before, log, key, mid[Provider][key])
  }

  lemma ReapTakesLeftovers(h: Digest, r: Config, cluster: string, inst: Instance, before: Stores, mid: Stores,
                           after: Stores, log: seq<Event>, t: Target, k: Key)
    requires HexDigest(h) && before.Keys == mid.Keys == after.Keys == ALL_TARGETS && InStores(log, before.Keys)
    requires OwnWrites(h, r, cluster, inst, log)
    requires RecordedAt(before, mid, log, RecordKey(h, r, cluster, inst.uid))
    requires ReapedSomewhere(r, mid, after, inst.uid, KeepAll(log))
    requires Keeps(before, mid) && t in ALL_TARGETS && k in before[t] && k !in after[t]
    requires !(t == Provider && k == RecordKey(h, r, cluster, inst.uid))
    ensures Leftover(r, before, log, inst.uid, t, k)
  {
    var key := RecordKey(h, r, cluster, inst.uid);
    assert k in mid[t];
    assert KeepAll(log)[t] == Written(log, t);
    assert t in WiredTargets(r);
    assert k in Reapable(mid[t], ChildKinds(r, t), inst.uid, Written(log, t));
    PruneTakesOwnLeftovers(h, r, cluster, inst, before, log, mid[Provider][key], t, k);
  }

  lemma ReapedIsComplete(r: Config, before: Stores, mid: Stores, after: Stores, log: seq<Event>, uid: string, key: Key)
    requires before.Keys == mid.Keys == after.Keys == ALL_TARGETS && InStores(log, before.Keys)
    requires key in mid[Provider] && mid == Recorded(before, log, key, mid[Provider][key])
    requires ReapedEverywhere(r, mid, after, uid, KeepAll(log), WiredTargets(r))
    ensures after == EndStores(r, before, log, uid, key, mid[Provider][key], true)
  {
    var spec := CompletePass(r, before, log, uid, key, mid[Provider][key]);
    forall t | t in ALL_TARGETS ensures after[t] == spec[t] {
      assert KeepAll(log)[t] == Written(log, t);
    }
  }

  lemma AfterPrune(h: Digest, r: Config, cluster: string, inst: Instance, now: string,
                   before: Stores, mid: Stores, after: Stores, log: seq<Event>, ok: bool, res: Outcome)
    requires HexDigest(h) && before.Keys == mid.Keys == after.Keys == ALL_TARGETS && InStores(log, before.Keys)
    requires OwnWrites(h, r, cluster, inst, log) && res.complete && res.err == !ok
    requires WroteRecord(h, r, Replay(before, log), mid, cluster, inst.uid, now)
    requires ReapedSomewhere(r, mid, after, inst.uid, KeepAll(log))
    requires ok ==> ReapedEverywhere(r, mid, after, inst.uid, KeepAll(log), WiredTargets(r))
    ensures PassResult(h, r, cluster, inst, now, before, after, log, res)
  {
    var key := RecordKey(h, r, cluster, inst.uid);
    RecordWritten(h, r, cluster, inst, now, before, mid, log);
    RecordedKeeps(before, log, key, mid[Provider][key]);
    ReapKeepsWritten(r, mid, after, inst.uid, log);
    LeftoversTaken(h, r, cluster, inst, before, mid, after, log);
    if ok { ReapedIsComplete(r, before, mid, after, log, inst.uid, key); }
  }

  lemma LeftoversTaken(h: Digest, r: Config, cluster: string, inst: Instance, before: Stores, mid: Stores,
                       after: Stores, log: seq<Event>)
    requires HexDigest(h) && before.Keys == mid.Keys == after.Keys == ALL_TARGETS && InStores(log, before.Keys)
    requires OwnWrites(h, r, cluster, inst, log) && Keeps(before, mid)
    requires ReapedSomewhere(r, mid, after, inst.uid, KeepAll(log))
    requires RecordedAt(before, mid, log, RecordKey(h, r, cluster, inst.uid))
    ensures var key := RecordKey(h, r, cluster, inst.uid);
      forall t, k :: t in ALL_TARGETS && k in before[t] && k !in after[t] && !(t == Provider && k == key) ==>
        Leftover(r, before, log, inst.uid, t, k)
  {
    forall t, k | t in ALL_TARGETS && k in before[t] && k !in after[t]
      && !(t == Provider && k == RecordKey(h, r, cluster, inst.uid))
      ensures Leftover(r, before, log, inst.uid, t, k)
    {
      ReapTakesLeftovers(h, r, cluster, inst, before, mid, after, log, t, k);
    }
  }

  lemma PermittedJoin(r: Config, first: set<Call>, mid: set<Call>, last: set<Call>)
    requires ConsumerCallsPermitted(mid - first, r) && ConsumerCallsPermitted(last - mid, r)
    ensures ConsumerCallsPermitted(last - first, r)
  {
    assert last - first <= (mid - first) + (last - mid);
  }

  /** The sinks hold what pruning must keep. */
  lemma KeepIsWritten(log: seq<Event>, applied: map<Target, seq<Key>>)
    requires InStores(log, ALL_TARGETS) && applied == RecordAll(EMPTY_SINKS, log)
    requires applied.Keys == ALL_TARGETS
    ensures (map t | t in ALL_TARGETS :: Elems(applied[t])) == KeepAll(log)
  {
    forall t | t in ALL_TARGETS ensures Elems(applied[t]) == Written(log, t) { SinksHoldWritten(log, EMPTY_SINKS, t); }
  }

  /** pruneChildren after a complete pass: everything labelled and not applied goes. */
  method Prune(s: Session, h: Digest, r: Config, cluster: string, inst: Instance, now: string, done: Outcome,
               ghost before: Stores, ghost log: seq<Event>)
    returns (res: Outcome)
    requires HexDigest(h) && s.stores.Keys == s.applied.Keys == before.Keys == ALL_TARGETS
    requires done.complete && !done.err && InStores(log, before.Keys) && OwnWrites(h, r, cluster, inst, log)
    requires WroteRecord(h, r, Replay(before, log), s.stores, cluster, inst.uid, now)
    requires s.applied == RecordAll(EMPTY_SINKS, log)
    modifies s`calls, s`faults, s`stores
    ensures s.stores.Keys == ALL_TARGETS && res == done.(err := res.err)
    ensures PassResult(h, r, cluster, inst, now, before, s.stores, log, res)
    ensures ConsumerCallsPermitted(s.calls - old(s.calls), r)
    ensures s.faults == old(s.faults) + (if res.err then 1 else 0)
  {
    ghost var mid := s.stores;
    var keep := map t | t in ALL_TARGETS :: Elems(s.applied[t]);
    KeepIsWritten(log, s.applied);
    var pruned := ReapTargets(s, r, inst.uid, keep);
    ReapCallsPermitted(s.calls - old(s.calls), r);
    res := done.(err := !pruned);
    AfterPrune(h, r, cluster, inst, now, before, mid, s.stores, log, pruned, res);
  }

  /** From the liveness record on: the pass has applied `log` without an error. */
  method RecordAndPrune(s: Session, h: Digest, r: Config, cluster: string, inst: Instance, now: string, engine: Outcome,
                        ghost before: Stores, ghost log: seq<Event>)
    returns (res: Outcome)
    requires HexDigest(h) && s.stores.Keys == s.applied.Keys == before.Keys == ALL_TARGETS && !engine.err
    requires InStores(log, before.Keys) && OwnWrites(h, r, cluster, inst, log) && s.stores == Replay(before, log)
    requires s.applied == RecordAll(EMPTY_SINKS, log)
    modifies s`calls, s`faults, s`stores
    ensures s.stores.Keys == ALL_TARGETS
    ensures PassResult(h, r, cluster, inst, now, before, s.stores, log, res)
    ensures res.complete == engine.complete && res.ready == engine.ready && (!res.err ==> res.requeue)
    ensures ConsumerCallsPermitted(s.calls - old(s.calls), r)
    ensures s.faults == old(s.faults) + (if res.err then 1 else 0)
  {
    var wrote := WriteLivenessRecord(s, h, r, cluster, inst.uid, now);
    if !wrote {
      res := engine.(err := true);
      AtRecord(h, r, cluster, inst, now, before, s.stores, log, res);
      return;
    }
    res := engine.(requeue := true);
    if !engine.complete {
      AtRecord(h, r, cluster, inst, now, before, s.stores, log, res);
      return;
    }
    ghost var called := s.calls;
    res := Prune(s, h, r, cluster, inst, now, res, before, log);
    PermittedJoin(r, old(s.calls), called, s.calls);
  }

  /** How a pass relates to the failure-free walk that ends in `end`. */
  ghost predicate FollowsWalk(before: Stores, after: Stores, log: seq<Event>, res: Outcome, refreshed: bool, end: State,
                              how: End) {
    && log <= end.log
    && (!refreshed ==> res.err && !res.complete && WroteSome(before, after, log, end.log))
    && (refreshed ==> how != Failed)
    && (!res.err ==>
          log == end.log && (res.complete <==> how == Completed) && (res.ready <==> how == Completed && end.ready))
  }

  /** Fresh sinks and the engine. */
  method RunEngine(s: Session, h: Digest, rt: Runtime, w: Wiring)
    returns (engine: Outcome, ghost log: seq<Event>, ghost end: State, ghost how: End)
    requires HexDigest(h) && KindsFixed(rt) && Wired(w, ALL_TARGETS) && s.stores.Keys == s.applied.Keys == ALL_TARGETS
    modifies s
    ensures (end, how) == Walk(h, rt, w, 0, Begin(old(s.stores)))
    ensures FollowsWalk(old(s.stores), s.stores, log, engine, !engine.err, end, how)
    ensures s.stores.Keys == s.applied.Keys == ALL_TARGETS && InStores(log, ALL_TARGETS)
    ensures s.applied == RecordAll(EMPTY_SINKS, log)
    ensures !engine.err ==> s.stores == Replay(old(s.stores), log)
    ensures AllPermitted(s.calls - old(s.calls), rt.nodes, w.routing)
    ensures old(s.faults) <= s.faults && (!engine.err ==> s.faults == old(s.faults))
    ensures s.faults == old(s.faults) ==> (engine.err <==> how == Failed)
  {
    s.applied := EMPTY_SINKS;
    ghost var walk := Walk(h, rt, w, 0, Begin(s.stores));
    end, how := walk.0, walk.1;
    engine, log := Engine.Reconcile(s, h, rt, w);
  }

  /** The engine with the appliers and readers of this instance. */
  method EnginePass(s: Session, h: Digest, r: Config, cluster: string, inst: Instance, rt: Runtime)
    returns (engine: Outcome, ghost log: seq<Event>, ghost end: State, ghost how: End)
    requires HexDigest(h) && KindsFixed(rt) && FromGraph(rt, r) && s.stores.Keys == s.applied.Keys == ALL_TARGETS
    modifies s
    ensures Ends(h, r, cluster, inst, rt, old(s.stores), end, how)
    ensures FollowsWalk(old(s.stores), s.stores, log, engine, !engine.err, end, how)
    ensures s.stores.Keys == s.applied.Keys == ALL_TARGETS && InStores(log, ALL_TARGETS)
    ensures OwnWrites(h, r, cluster, inst, end.log) && s.applied == RecordAll(EMPTY_SINKS, log)
    ensures !engine.err ==> s.stores == Replay(old(s.stores), log)
    ensures ConsumerCallsPermitted(s.calls - old(s.calls), r)
    ensures old(s.faults) <= s.faults && (!engine.err ==> s.faults == old(s.faults))
    ensures s.faults == old(s.faults) ==> (engine.err <==> how == Failed)
  {
    WalkWritesOwn(h, r, cluster, inst, rt, 0, Begin(s.stores));
    engine, log, end, how := RunEngine(s, h, rt, WiringFor(r, cluster, inst));
    EngineCallsPermitted(s.calls - old(s.calls), rt, r);
  }

  lemma OwnPrefix(h: Digest, r: Config, cluster: string, inst: Instance, log: seq<Event>, full: seq<Event>)
    requires HexDigest(h) && log <= full && OwnWrites(h, r, cluster, inst, full)
    ensures OwnWrites(h, r, cluster, inst, log)
  {
    assert forall e :: e in log ==> e in full;
  }

  /** The session holds exactly the writes of `log`, all of them the instance's own. */
  ghost predicate HoldsWrites(s: Session, h: Digest, r: Config, cluster: string, inst: Instance, before: Stores,
                              log: seq<Event>)
    requires HexDigest(h)
    reads s
  {
    && s.stores.Keys == s.applied.Keys == before.Keys == ALL_TARGETS && InStores(log, ALL_TARGETS)
    && OwnWrites(h, r, cluster, inst, log) && s.stores == Replay(before, log)
    && s.applied == RecordAll(EMPTY_SINKS, log)
  }

  /** The engine; if it ends in an error the pass ends with it. */
  method EngineOrNothing(s: Session, h: Digest, r: Config, cluster: string, inst: Instance, rt: Runtime,
                         ghost now: string)
    returns (engine: Outcome, ghost log: seq<Event>, ghost end: State, ghost how: End)
    requires HexDigest(h) && KindsFixed(rt) && FromGraph(rt, r) && s.stores.Keys == s.applied.Keys == ALL_TARGETS
    modifies s
    ensures Ends(h, r, cluster, inst, rt, old(s.stores), end, how)
    ensures FollowsWalk(old(s.stores), s.stores, log, engine, !engine.err, end, how)
    ensures s.stores.Keys == s.applied.Keys == ALL_TARGETS
    ensures engine.err ==> PassResult(h, r, cluster, inst, now, old(s.stores), s.stores, log, engine)
    ensures !engine.err ==> HoldsWrites(s, h, r, cluster, inst, old(s.stores), log)
    ensures ConsumerCallsPermitted(s.calls - old(s.calls), r)
    ensures old(s.faults) <= s.faults && (!engine.err ==> s.faults == old(s.faults))
    ensures s.faults == old(s.faults) ==> (engine.err <==> how == Failed)
  {
    ghost var before := s.stores;
    engine, log, end, how := EnginePass(s, h, r, cluster, inst, rt);
    OwnPrefix(h, r, cluster, inst, log, end.log);
    if engine.err { FailedEarly(h, r, cluster, inst, now, before, s.stores, log, end.log, engine); }
  }

  /** The non-deleting branch of Reconcile, from the engine to pruning. A pass whose
      engine ends in an error does not get as far as the record: it is no refresh. */
  method ApplyPass(s: Session, h: Digest, r: Config, cluster: string, inst: Instance, rt: Runtime, now: string)
    returns (res: Outcome, ghost log: seq<Event>, ghost refreshed: bool, ghost end: State, ghost how: End)
    requires HexDigest(h) && KindsFixed(rt) && FromGraph(rt, r) && s.stores.Keys == s.applied.Keys == ALL_TARGETS
    modifies s
    ensures s.stores.Keys == s.applied.Keys == ALL_TARGETS
    ensures PassResult(h, r, cluster, inst, now, old(s.stores), s.stores, log, res)
    ensures Ends(h, r, cluster, inst, rt, old(s.stores), end, how)
    ensures FollowsWalk(old(s.stores), s.stores, log, res, refreshed, end, how) && (!res.err ==> res.requeue)
    ensures ConsumerCallsPermitted(s.calls - old(s.calls), r)
    ensures old(s.faults) <= s.faults && (!res.err ==> s.faults == old(s.faults))
    ensures s.faults == old(s.faults) ==> (res.err <==> how == Failed)
  {
    ghost var before := s.stores;
    res, log, end, how := EngineOrNothing(s, h, r, cluster, inst, rt, now);
    refreshed := !res.err;
    if !res.err {
      ghost var called := s.calls;
      res := Refresh(s, h, r, cluster, inst, now, res, before, log, end, how);
      PermittedJoin(r, old(s.calls), called, s.calls);
    }
  }

  /** From the record on, the engine having followed the walk to its end. */
  method Refresh(s: Session, h: Digest, r: Config, cluster: string, inst: Instance, now: string, engine: Outcome,
                 ghost before: Stores, ghost log: seq<Event>, ghost end: State, ghost how: End)
    returns (res: Outcome)
    requires HexDigest(h) && !engine.err && HoldsWrites(s, h, r, cluster, inst, before, log)
    requires FollowsWalk(before, s.stores, log, engine, true, end, how)
    modifies s`calls, s`faults, s`stores
    ensures s.stores.Keys == s.applied.Keys == ALL_TARGETS
    ensures PassResult(h, r, cluster, inst, now, before, s.stores, log, res)
    ensures FollowsWalk(before, s.stores, log, res, true, end, how) && (!res.err ==> res.requeue)
    ensures ConsumerCallsPermitted(s.calls - old(s.calls), r)
    ensures s.faults == old(s.faults) + (if res.err then 1 else 0)
  {
    ghost var mid := s.stores;
    res := RecordAndPrune(s, h, r, cluster, inst, now, engine, before, log);
    StillFollows(before, mid, s.stores, log, engine, res, end, how);
  }

  lemma StillFollows(before: Stores, mid: Stores, after: Stores, log: seq<Event>, engine: Outcome, res: Outcome,
                     end: State, how: End)
    requires FollowsWalk(before, mid, log, engine, true, end, how) && !engine.err
    requires res.complete == engine.complete && res.ready == engine.ready
    ensures FollowsWalk(before, after, log, res, true, end, how)
  {
  }

  // ---- Reconcile ----

  /** The API server drops a deleting object once its last finalizer is removed. */
  function Settled(i: Instance): Option<Instance> {
    if i.deleting && i.finalizers == [] then None else Some(i)
  }

  datatype InstanceRead = Missing | Unreachable | Read(instance: Instance)

  /** The instance object in the consumer workspace. */
  class InstanceApi {
    var stored: Option<Instance>
    /** How many calls have failed, whether or not they took effect. */
    ghost var faults: nat

    method Get() returns (r: InstanceRead)
      modifies this`faults
      ensures r.Read? ==> stored == Some(r.instance)
      ensures r.Missing? ==> stored.None?
      ensures faults == old(faults) + (if r.Unreachable? then 1 else 0)
    {
      var fails: bool := *;
      if fails {
        faults := faults + 1;
        return Unreachable;
      }
      if stored.None? { return Missing; }
      return Read(stored.value);
    }

    method Update(i: Instance) returns (ok: bool)
      modifies this
      ensures stored == Settled(i) || (!ok && stored == old(stored))
      ensures faults == old(faults) + (if ok then 0 else 1)
    {
      var lost: bool := *;
      ok := *;
      if !ok { faults := faults + 1; }
      if ok || lost { stored := Settled(i); }
    }
  }

  function RemoveString(s: seq<string>, v: string): (out: seq<string>)
    ensures forall x :: x in out <==> x in s && x != v
  {
    if s == [] then [] else (if s[0] != v then [s[0]] else []) + RemoveString(s[1..], v)
  }

  /** Nothing of the instance is left where the graph could have put it. */
  ghost predicate Collected(h: Digest, r: Config, cluster: string, uid: string, stores: Stores)
    requires HexDigest(h) && stores.Keys == ALL_TARGETS
  {
    && (forall t :: t in WiredTargets(r) ==> Owned(r, stores[t], t, uid) == {})
    && RecordKey(h, r, cluster, uid) !in stores[Provider]
  }

  lemma ReapingCollects(r: Config, before: Stores, after: Stores, uid: string)
    requires before.Keys == after.Keys == ALL_TARGETS
    requires ReapedEverywhere(r, before, after, uid, KEEP_NOTHING, WiredTargets(r))
    ensures forall t :: t in WiredTargets(r) ==> Owned(r, after[t], t, uid) == {}
  {
  }

  method DeleteChildren(s: Session, r: Config, uid: string) returns (ok: bool)
    requires s.stores.Keys == s.applied.Keys == ALL_TARGETS
    modifies s`calls, s`faults, s`stores
    ensures s.stores.Keys == ALL_TARGETS
    ensures ok ==> forall t :: t in WiredTargets(r) ==> Owned(r, s.stores[t], t, uid) == {}
    ensures ReapedSomewhere(r, old(s.stores), s.stores, uid, KEEP_NOTHING)
    ensures ConsumerCallsPermitted(s.calls - old(s.calls), r)
    ensures s.faults == old(s.faults) + (if ok then 0 else 1)
  {
    ok := ReapTargets(s, r, uid, KEEP_NOTHING);
    if ok { ReapingCollects(r, old(s.stores), s.stores, uid); }
    ReapCallsPermitted(s.calls - old(s.calls), r);
  }

  /** What is left is as it was, and what is gone carried the instance's label and was
      of a child kind, or is its record. */
  ghost predicate TookOwn(h: Digest, r: Config, cluster: string, uid: string, before: Stores, after: Stores)
    requires HexDigest(h) && before.Keys == after.Keys == ALL_TARGETS
  {
    && (forall t, k :: t in ALL_TARGETS && k in after[t] ==> k in before[t] && after[t][k] == before[t][k])
    && (forall t, k :: t in ALL_TARGETS && k in before[t] && k !in after[t] ==>
          (t == Provider && k == RecordKey(h, r, cluster, uid))
            || (Labelled(before[t][k], uid) && k.gvk in ChildKinds(r, t)))
  }

  lemma ReapingTakesOwn(h: Digest, r: Config, cluster: string, uid: string, before: Stores, mid: Stores, after: Stores)
    requires HexDigest(h) && before.Keys == mid.Keys == ALL_TARGETS
    requires ReapedSomewhere(r, before, mid, uid, KEEP_NOTHING)
    requires after == mid || after == mid[Provider := mid[Provider] - {RecordKey(h, r, cluster, uid)}]
    ensures TookOwn(h, r, cluster, uid, before, after)
  {
    forall t | t in ALL_TARGETS
      ensures forall k :: k in mid[t] ==> k in before[t] && mid[t][k] == before[t][k]
      ensures forall k :: k in before[t] && k !in mid[t] ==> Labelled(before[t][k], uid) && k.gvk in ChildKinds(r, t)
    {
      assert t in WiredTargets(r) ==> OnlyReaped(before[t], mid[t], ChildKinds(r, t), uid, {});
    }
  }

  /** The instance without krop's finalizer, if anything then keeps it. */
  function Released(i: Instance): Option<Instance> {
    Settled(i.(finalizers := RemoveString(i.finalizers, FINALIZER)))
  }

  /** The deletion branch: however it ends only the instance's own objects are gone; the
      finalizer goes only once nothing is left, and without an error it goes. */
  ghost predicate Withdrawn(h: Digest, r: Config, cluster: string, was: Instance, stored: Option<Instance>,
                            before: Stores, after: Stores, err: bool)
    requires HexDigest(h) && before.Keys == after.Keys == ALL_TARGETS
  {
    && TookOwn(h, r, cluster, was.uid, before, after)
    && (stored == Some(was) || (stored == Released(was) && Collected(h, r, cluster, was.uid, after)))
    && (!err ==> stored == Released(was) && OnlyOursRemoved(was, stored) && Collected(h, r, cluster, was.uid, after))
  }

  /** Krop's finalizer is gone and no other; the instance goes with its last one. */
  ghost predicate OnlyOursRemoved(was: Instance, stored: Option<Instance>) {
    match stored
    case None => was.deleting && forall f :: f in was.finalizers ==> f == "krop.opendefense.cloud/gc"
    case Some(i) =>
      && i.uid == was.uid && i.name == was.name && i.deleting == was.deleting
      && (was.deleting ==> exists f :: f in was.finalizers && f != "krop.opendefense.cloud/gc")
      && (forall f :: f in i.finalizers <==> f in was.finalizers && f != "krop.opendefense.cloud/gc")
  }

  lemma ReleasedKeepsOthers(was: Instance)
    ensures OnlyOursRemoved(was, Released(was))
  {
    var left := RemoveString(was.finalizers, FINALIZER);
    if left != [] { assert left[0] in left; }
    assert forall f :: f in was.finalizers && f != FINALIZER ==> f in left;
  }

  method Finalize(s: Session, api: InstanceApi, h: Digest, r: Config, cluster: string, inst: Instance)
    returns (res: Outcome)
    requires HexDigest(h) && s.stores.Keys == s.applied.Keys == ALL_TARGETS
    requires api.stored == Some(inst) && inst.deleting && FINALIZER in inst.finalizers
    modifies s`calls, s`faults, s`stores, api
    ensures s.stores.Keys == ALL_TARGETS && !res.complete
    ensures Withdrawn(h, r, cluster, inst, api.stored, old(s.stores), s.stores, res.err)
    ensures ConsumerCallsPermitted(s.calls - old(s.calls), r)
    ensures s.faults + api.faults == old(s.faults + api.faults) + (if res.err then 1 else 0)
  {
    ghost var before := s.stores;
    res := Outcome(false, false, false, true);
    var reaped := DeleteChildren(s, r, inst.uid);
    ghost var mid, called := s.stores, s.calls;
    ReapingTakesOwn(h, r, cluster, inst.uid, before, mid, mid);
    if !reaped { return; }
    var dropped := s.Delete(Provider, RecordKey(h, r, cluster, inst.uid));
    PermittedJoin(r, old(s.calls), called, s.calls);
    ReapingTakesOwn(h, r, cluster, inst.uid, before, mid, s.stores);
    if !dropped { return; }
    assert Collected(h, r, cluster, inst.uid, s.stores);
    ReleasedKeepsOthers(inst);
    var updated := api.Update(inst.(finalizers := RemoveString(inst.finalizers, FINALIZER)));
    res := Outcome(false, false, false, !updated);
  }

  /** The branch that puts the finalizer on: no store is touched. */
  ghost predicate GuardPut(was: Instance, stored: Option<Instance>, before: Stores, after: Stores, err: bool) {
    && after == before
    && (stored == Some(was) || stored == Some(was.(finalizers := was.finalizers + [FINALIZER])))
    && (!err ==> stored == Some(was.(finalizers := was.finalizers + [FINALIZER])))
  }

  /** The applying branch: it did not get as far as the engine, or the pass went as
      specified and relates to the failure-free walk as FollowsWalk says. */
  ghost predicate Applied(h: Digest, r: Config, cluster: string, was: Instance, rt: Option<Runtime>, now: string,
                          before: Stores, after: Stores, log: seq<Event>, res: Outcome)
    requires HexDigest(h) && before.Keys == after.Keys == ALL_TARGETS
  {
    || (after == before && res.err && !res.complete)
    || (rt.Some? && PassResult(h, r, cluster, was, now, before, after, log, res) && (!res.err ==> res.requeue)
        && exists refreshed, end, how ::
             && Ends(h, r, cluster, was, rt.value, before, end, how)
             && FollowsWalk(before, after, log, res, refreshed, end, how))
  }

  ghost predicate Ends(h: Digest, r: Config, cluster: string, was: Instance, rt: Runtime, before: Stores, end: State,
                       how: End)
    requires HexDigest(h)
  {
    before.Keys == ALL_TARGETS && (end, how) == Walk(h, rt, WiringFor(r, cluster, was), 0, Begin(before))
  }

  predicate Guarded(i: Instance) { FINALIZER in i.finalizers }

  /** The engine cannot get through, whatever the clients do. */
  ghost predicate Stuck(h: Digest, r: Config, cluster: string, was: Instance, rt: Option<Runtime>, before: Stores)
    requires HexDigest(h) && before.Keys == ALL_TARGETS
  {
    Guarded(was) && !was.deleting
    && (rt.None? || Walk(h, rt.value, WiringFor(r, cluster, was), 0, Begin(before)).1 == Failed)
  }

  /** Reconcile, whole. The finalizer is persisted before anything is created, and it
      is given up only for a deleting instance of which nothing is left; each branch
      does what it is for unless a call fails, and without a failing call there is an
      error exactly when the engine cannot get through; every call in the consumer
      workspace is one the graph asks for. */
  method Reconcile(s: Session, api: InstanceApi, h: Digest, r: Config, cluster: string, rt: Option<Runtime>,
                   now: string)
    returns (res: Outcome, ghost log: seq<Event>)
    requires HexDigest(h) && s.stores.Keys == s.applied.Keys == ALL_TARGETS
    requires rt.Some? ==> KindsFixed(rt.value) && FromGraph(rt.value, r)
    modifies s, api
    ensures s.stores.Keys == s.applied.Keys == ALL_TARGETS
    ensures old(api.stored).None? ==> api.stored.None? && s.stores == old(s.stores)
    ensures old(api.stored).Some? ==>
      var was := old(api.stored).value;
      && (was.deleting && Guarded(was) ==> Withdrawn(h, r, cluster, was, api.stored, old(s.stores), s.stores, res.err))
      && (was.deleting && !Guarded(was) ==> api.stored == Some(was) && s.stores == old(s.stores))
      && (!was.deleting && !Guarded(was) ==> GuardPut(was, api.stored, old(s.stores), s.stores, res.err))
      && (!was.deleting && Guarded(was) ==>
            api.stored == Some(was) && Applied(h, r, cluster, was, rt, now, old(s.stores), s.stores, log, res))
    ensures old(s.faults + api.faults) <= s.faults + api.faults
    ensures s.faults + api.faults == old(s.faults + api.faults) ==>
      (res.err <==> old(api.stored).Some? && Stuck(h, r, cluster, old(api.stored).value, rt, old(s.stores)))
    ensures ConsumerCallsPermitted(s.calls - old(s.calls), r)
  {
    res, log := Outcome(false, false, false, false), [];
    ghost var before := s.stores;
    NothingTaken(h, r, cluster, s.stores);
    var read := api.Get();
    if read.Unreachable? { res := res.(err := true); return; }
    if read.Missing? { return; }
    var inst := read.instance;
    if inst.deleting {
      if FINALIZER in inst.finalizers {
        res := Finalize(s, api, h, r, cluster, inst);
      }
      return;
    }
    if FINALIZER !in inst.finalizers {
      var updated := api.Update(inst.(finalizers := inst.finalizers + [FINALIZER]));
      res := res.(err := !updated);
      return;
    }
    if rt.None? { res := res.(err := true); return; }
    ghost var refreshed, end, how;
    res, log, refreshed, end, how := ApplyPass(s, h, r, cluster, inst, rt.value, now);
    assert Ends(h, r, cluster, inst, rt.value, before, end, how);
    assert FollowsWalk(before, s.stores, log, res, refreshed, end, how);
  }

  lemma NothingTaken(h: Digest, r: Config, cluster: string, stores: Stores)
    requires HexDigest(h) && stores.Keys == ALL_TARGETS
    ensures forall uid :: TookOwn(h, r, cluster, uid, stores, stores)
  {
  }

  // ---- Authority ----

  ghost predicate Covers(claims: seq<Claim>, gr: GroupResource, verb: string) {
    exists claim :: claim in claims && claim.gr == gr && verb in claim.verbs
  }

  /** Every consumer-workspace call a graph asks for, on a type other than the
      instance's own, is covered by a published claim that holds its verb; a type only
      external references use is claimed for get, list and watch alone. */
  lemma ClaimsCoverCalls(c: Call, r: Config, own: GroupResource, identity: map<GroupResource, string>,
                         claims: seq<Claim>)
    requires GraphPermits(c, r) && c.target == Consumer
    requires ClaimsFor(claims, r.graph, own, r.routing, identity)
    ensures exists id ::
      && id in r.graph && r.graph[id].gvk == c.gvk && TargetForNode(r.graph[id].id, r.routing) == Consumer
      && (r.graph[id].gr == own || Covers(claims, r.graph[id].gr, c.verb))
    ensures forall claim :: claim in claims && !Writes(r.graph, own, r.routing, claim.gr) ==>
      claim.verbs == ["get", "list", "watch"]
  {
    var id :| id in r.graph && TargetForNode(r.graph[id].id, r.routing) == c.target && r.graph[id].gvk == c.gvk
      && c.verb in VerbsNeeded(r.graph[id]);
    var n := r.graph[id];
    if n.gr != own {
      assert Foreign(n, own, r.routing);
      if IsExternal(n) {
        assert Reads(r.graph, own, r.routing, n.gr);
      } else {
        assert Writes(r.graph, own, r.routing, n.gr);
      }
      assert Claimed(claims, n.gr);
      var claim :| claim in claims && claim.gr == n.gr;
      assert CLAIM_VERBS[0] == READ_ONLY_VERBS[0] == "get" && CLAIM_VERBS[1] == READ_ONLY_VERBS[1] == "list";
      assert CLAIM_VERBS[3] == "create" && CLAIM_VERBS[5] == "patch" && CLAIM_VERBS[6] == "delete";
      assert c.verb in claim.verbs;
    }
  }
}
