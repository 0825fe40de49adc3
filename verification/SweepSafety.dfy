/** The sweep of internal/controller/sweeper.go against the heartbeat and the pass of
    internal/controller/reconciler.go: what the one writes the other reads, and whom a
    sweep spares. */
module SweepSafety {
  import opened GvkCodec
  import opened Routing
  import opened Naming
  import opened Stores
  import opened Sweeper
  import Engine
  import Rec = Reconciler
  import Pass
  import Timing = SweepTiming

  // ---- The record as written and as read ----

  /** The sweeper lists the record a pass writes and reads out of it the instance's uid,
      the time of the pass and exactly the child kinds of the two targets it sweeps. */
  lemma RecordIsReadBack(h: Digest, r: Rec.Config, c: Config, o: Object, cluster: string, uid: string, now: string)
    requires HexDigest(h) && Rec.CleanGraph(r) && Rec.IsRecord(r, o, cluster, uid, now)
    requires c.namespace == if r.recordNamespace != "" then r.recordNamespace else "default"
    ensures IsRecord(c.namespace, Rec.RecordKey(h, r, cluster, uid), o)
    ensures UidOf(o) == uid && Field(o, "lastReconciled") == now
    ensures EntryOf(c, o)
         == Entry(uid, c.parse(now), Rec.ChildKinds(r, Provider), if c.host then Rec.ChildKinds(r, Host) else {})
  {
  }

  // ---- Whom a sweep spares ----

  /** The sweep's judgement is the one of the race in real time, given that time stamps
      are written in whole seconds. */
  lemma JudgesAlike(p: Timing.Params, c: Config, at: real, o: Object, stamp: real)
    requires p.stale == c.staleAfter && UidOf(o) != ""
    requires c.parse(Field(o, "lastReconciled")) == Some(Timing.Truncated(stamp))
    ensures Expired(c.staleAfter, at, EntryOf(c, o)) <==> Timing.Stale(p, at, stamp)
  {
  }

  /** No other record carries the uid of the one at `r`. */
  ghost predicate OnlyRecordOf(c: Config, p: Store, r: Key)
    requires r in p
  {
    forall x :: x in p && x != r && IsRecord(c.namespace, x, p[x]) ==> UidOf(p[x]) != UidOf(p[r])
  }

  /** A record that is not overdue stays as it is, and with it every object that carries
      its uid, in every store and whatever calls fail. */
  lemma FreshIsSpared(c: Config, at: real, before: Stores, after: Stores, toll: Toll, dropped: set<Key>, r: Key,
                      t: Target, k: Key)
    requires Both(before) && Swept(c.staleAfter, at, Entries(c, before[Provider]), before, after, toll, dropped)
    requires r in before[Provider] && IsRecord(c.namespace, r, before[Provider][r])
    requires UidOf(before[Provider][r]) != "" && OnlyRecordOf(c, before[Provider], r)
    requires var last := c.parse(Field(before[Provider][r], "lastReconciled"));
      last.Some? ==> at - last.value <= c.staleAfter
    requires t in before && k in before[t] && Labelled(before[t][k], UidOf(before[Provider][r]))
    ensures t in after && k in after[t] && after[t][k] == before[t][k]
  {
    MissingIsTaken(c, at, before, after, toll, dropped);
  }

  /** So the timing theorem is about this sweep: in every run of heartbeats, restarts,
      bindings and sweeps with a sound margin, a sweep that lists the record as it was
      then takes nothing of an instance that had been bound for more than one gap when
      the sweep began and still is. */
  lemma BoundInstanceKeepsItsObjects(p: Timing.Params, steps: seq<Timing.Step>, c: Config, before: Stores,
                                     after: Stores, toll: Toll, dropped: set<Key>, r: Key, t: Target, k: Key)
    requires Timing.Sound(p) && p.stale == c.staleAfter && Both(before)
    requires var s := Timing.Exec(p, steps);
      && s.phase.Saw? && s.phase.snapshot.Some? && Timing.LongBound(p, s, s.phase.at)
      && Swept(c.staleAfter, s.phase.at, Entries(c, before[Provider]), before, after, toll, dropped)
      && r in before[Provider] && IsRecord(c.namespace, r, before[Provider][r])
      && c.parse(Field(before[Provider][r], "lastReconciled")) == Some(Timing.Truncated(s.phase.snapshot.value))
    requires UidOf(before[Provider][r]) != "" && OnlyRecordOf(c, before[Provider], r)
    requires t in before && k in before[t] && Labelled(before[t][k], UidOf(before[Provider][r]))
    ensures t in after && k in after[t] && after[t][k] == before[t][k]
  {
    var s := Timing.Exec(p, steps);
    Timing.BoundInstanceIsNeverSwept(p, steps + [Timing.Judge]);
    assert (steps + [Timing.Judge])[..|steps|] == steps;
    assert !Timing.Stale(p, s.phase.at, s.phase.snapshot.value);
    FreshIsSpared(c, s.phase.at, before, after, toll, dropped, r, t, k);
  }

  // ---- A sweep undoes a pass ----

  /** The record at `key` is overdue, and reads as the graph's record for `uid`. */
  ghost predicate Overdue(r: Rec.Config, c: Config, at: real, p: Store, key: Key, uid: string) {
    && key in p && IsRecord(c.namespace, key, p[key]) && UidOf(p[key]) == uid != ""
    && Elems(Visited(Field(p[key], "providerChildGVKs"))) == Rec.ChildKinds(r, Provider)
    && Elems(Visited(Field(p[key], "hostChildGVKs"))) == Rec.ChildKinds(r, Host)
    && var last := c.parse(Field(p[key], "lastReconciled")); last.Some? && at - last.value > c.staleAfter
  }

  lemma OwnedIsTaken(r: Rec.Config, c: Config, at: real, mid: Stores, key: Key, uid: string, t: Target, k: Key)
    requires mid.Keys == Rec.ALL_TARGETS && Overdue(r, c, at, mid[Provider], key, uid)
    requires t != Consumer && t in Rec.WiredTargets(r) && c.host == r.hostWired && k in Pass.Owned(r, mid[t], t, uid)
    ensures Takes(c, mid, key, t, k)
  {
    var field := if t == Host then "hostChildGVKs" else "providerChildGVKs";
    assert k.gvk in Elems(Visited(Field(mid[Provider][key], field)));
  }

  /** A clean sweep past the threshold takes everything the instance owns outside the
      consumer workspace, and nothing there. */
  lemma SweepTakesOwned(r: Rec.Config, c: Config, at: real, mid: Stores, after: Stores, key: Key, uid: string,
                        t: Target)
    requires mid.Keys == Rec.ALL_TARGETS && Overdue(r, c, at, mid[Provider], key, uid)
    requires WholeSweep(c.staleAfter, at, Entries(c, mid[Provider]), mid, after)
    requires t in Rec.WiredTargets(r) && c.host == r.hostWired
    ensures after.Keys == Rec.ALL_TARGETS && key !in after[Provider]
    ensures Pass.Owned(r, after[t], t, uid) == if t == Consumer then Pass.Owned(r, mid[t], t, uid) else {}
  {
    CleanTakesAll(c, at, mid, after);
    SweepOnlyRemoves(c, at, mid, after);
    assert Takes(c, mid, key, Provider, key);
    if t != Consumer {
      forall k | k in Pass.Owned(r, mid[t], t, uid) ensures k !in after[t] {
        OwnedIsTaken(r, c, at, mid, key, uid, t, k);
      }
    }
  }

  lemma SweepOnlyRemoves(c: Config, at: real, mid: Stores, after: Stores)
    requires Both(mid) && WholeSweep(c.staleAfter, at, Entries(c, mid[Provider]), mid, after)
    ensures after.Keys == mid.Keys && (Consumer in mid ==> after[Consumer] == mid[Consumer])
    ensures forall t, k :: t in mid && k in after[t] ==> k in mid[t] && after[t][k] == mid[t][k]
  {
    var toll, dropped :| Swept(c.staleAfter, at, Entries(c, mid[Provider]), mid, after, toll, dropped)
      && AllDropped(c.staleAfter, at, Entries(c, mid[Provider]), {}, dropped);
    MissingIsTaken(c, at, mid, after, toll, dropped);
  }

  lemma RecordIsOverdue(h: Digest, r: Rec.Config, c: Config, cluster: string, inst: Rec.Instance, now: string,
                        before: Stores, log: seq<Engine.Event>, rec: Object, at: real)
    requires HexDigest(h) && before.Keys == Rec.ALL_TARGETS && Engine.InStores(log, before.Keys)
    requires Rec.OwnWrites(h, r, cluster, inst, log) && Rec.IsRecord(r, rec, cluster, inst.uid, now)
    requires Rec.CleanGraph(r) && CONFIG_MAP !in Rec.ChildKinds(r, Provider) && inst.uid != ""
    requires c.namespace == if r.recordNamespace != "" then r.recordNamespace else "default"
    requires c.parse(now).Some? && at - c.parse(now).value > c.staleAfter
    ensures var key := Rec.RecordKey(h, r, cluster, inst.uid);
      Overdue(r, c, at, Pass.CompletePass(r, before, log, inst.uid, key, rec)[Provider], key, inst.uid)
  {
    RecordIsReadBack(h, r, c, rec, cluster, inst.uid, now);
    Pass.RecordSurvivesPrune(h, r, cluster, inst, before, log, rec);
  }

  /** What a complete pass has put outside the consumer workspace a clean sweep past the
      threshold takes back, all of it and the record, if ConfigMap is no provider child
      kind; what it put into the consumer workspace stays. */
  lemma SweepUndoesThePass(h: Digest, r: Rec.Config, c: Config, cluster: string, inst: Rec.Instance, now: string,
                           before: Stores, log: seq<Engine.Event>, rec: Object, at: real, after: Stores, t: Target)
    requires HexDigest(h) && before.Keys == Rec.ALL_TARGETS && Engine.InStores(log, before.Keys)
    requires Rec.OwnWrites(h, r, cluster, inst, log) && Rec.IsRecord(r, rec, cluster, inst.uid, now)
    requires Rec.CleanGraph(r) && CONFIG_MAP !in Rec.ChildKinds(r, Provider) && inst.uid != ""
    requires c.namespace == if r.recordNamespace != "" then r.recordNamespace else "default"
    requires c.host == r.hostWired && c.parse(now).Some? && at - c.parse(now).value > c.staleAfter
    requires var key := Rec.RecordKey(h, r, cluster, inst.uid);
      var mid := Pass.CompletePass(r, before, log, inst.uid, key, rec);
      WholeSweep(c.staleAfter, at, Entries(c, mid[Provider]), mid, after)
    requires t in Rec.WiredTargets(r)
    ensures after.Keys == Rec.ALL_TARGETS && Rec.RecordKey(h, r, cluster, inst.uid) !in after[Provider]
    ensures Pass.Owned(r, after[t], t, inst.uid) == if t == Consumer then Rec.Written(log, t) else {}
  {
    var key := Rec.RecordKey(h, r, cluster, inst.uid);
    var mid := Pass.CompletePass(r, before, log, inst.uid, key, rec);
    RecordIsOverdue(h, r, c, cluster, inst, now, before, log, rec, at);
    Pass.CompletePassIsExact(h, r, cluster, inst, before, log, rec);
    SweepTakesOwned(r, c, at, mid, after, key, inst.uid, t);
  }
}
