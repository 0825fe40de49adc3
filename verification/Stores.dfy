/** Objects, the three stores that hold them, and the fallible client calls every
    component makes on them. */
module Stores {
  import opened GvkCodec
  import opened Routing

  /** The identity of an object in one store: `ChildID` in internal/engine/apply.go. */
  datatype Key = Key(gvk: GVK, namespace: string, name: string)

  /** `status` stands for what other controllers write. */
  datatype Object = Object(labels: map<string, string>, owner: Option<string>, spec: map<string, string>,
                           status: string)

  /** What a blueprint renders. */
  datatype Desired = Desired(key: Key, labels: map<string, string>, owner: Option<string>, spec: map<string, string>)

  type Store = map<Key, Object>
  type Stores = map<Target, Store>

  const LABEL_UID := "krop.opendefense.cloud/instance-uid"
  const LABEL_CLUSTER := "krop.opendefense.cloud/consumer-cluster"
  const LABEL_BLUEPRINT := "krop.opendefense.cloud/blueprint"
  const LABEL_LIVENESS := "krop.opendefense.cloud/liveness"

  predicate Labelled(o: Object, uid: string) {
    LABEL_UID in o.labels && o.labels[LABEL_UID] == uid
  }

  /** Forced server-side apply: labels merge, the spec is ours, the status is not. */
  function ServerApply(s: Store, d: Desired): Store {
    if d.key in s then
      var o := s[d.key];
      s[d.key := Object(o.labels + d.labels, if d.owner.Some? then d.owner else o.owner, d.spec, o.status)]
    else
      s[d.key := Object(d.labels, d.owner, d.spec, "")]
  }

  function Elems<T>(s: seq<T>): set<T> { set x | x in s }

  /** Objects of the given kinds carrying the instance's label, save those to keep. */
  function Reapable(s: Store, kinds: set<GVK>, uid: string, keep: set<Key>): set<Key> {
    set k | k in s && k.gvk in kinds && Labelled(s[k], uid) && k !in keep
  }

  function Reap(s: Store, kinds: set<GVK>, uid: string, keep: set<Key>): Store {
    s - Reapable(s, kinds, uid, keep)
  }

  /** A request as an authoriser sees it. */
  datatype Call = Call(target: Target, verb: string, gvk: GVK)

  datatype Fetched = NotFound | Unavailable | Found(value: Object)

  /** The API servers behind the three targets. Any call may fail, and a write that
      fails may nevertheless have taken effect. */
  class Session {
    var stores: Stores
    /** One sink per target, as `appliedConsumer`, `appliedProvider`, `appliedHost`. */
    var applied: map<Target, seq<Key>>
    ghost var calls: set<Call>
    /** How many calls have failed, whether or not they took effect. */
    ghost var faults: nat

    ghost predicate Has(t: Target)
      reads this
    {
      t in stores && t in applied
    }

    method Get(t: Target, k: Key) returns (r: Fetched)
      requires Has(t)
      modifies this`calls, this`faults
      ensures calls == old(calls) + {Call(t, "get", k.gvk)}
      ensures r.Found? ==> k in stores[t] && r.value == stores[t][k]
      ensures r.NotFound? ==> k !in stores[t]
      ensures faults == old(faults) + (if !r.Unavailable? then 0 else 1)
    {
      calls := calls + {Call(t, "get", k.gvk)};
      var fails: bool := *;
      if fails {
        faults := faults + 1;
        return Unavailable;
      }
      if k in stores[t] { return Found(stores[t][k]); }
      return NotFound;
    }

    /** The objects of one kind that pass the selector. */
    method List(t: Target, g: GVK, select: (Key, Object) -> bool) returns (r: Option<map<Key, Object>>)
      requires Has(t)
      modifies this`calls, this`faults
      ensures calls == old(calls) + {Call(t, "list", g)}
      ensures r.Some? ==> r.value == map k | k in stores[t] && k.gvk == g && select(k, stores[t][k]) :: stores[t][k]
      ensures faults == old(faults) + (if r.Some? then 0 else 1)
    {
      calls := calls + {Call(t, "list", g)};
      var fails: bool := *;
      if fails {
        faults := faults + 1;
        return None;
      }
      return Some(map k | k in stores[t] && k.gvk == g && select(k, stores[t][k]) :: stores[t][k]);
    }

    method Patch(t: Target, d: Desired) returns (ok: bool)
      requires Has(t)
      modifies this`calls, this`faults, this`stores
      ensures calls == old(calls) + {Call(t, "patch", d.key.gvk), Call(t, "create", d.key.gvk)}
      ensures stores == old(stores)[t := ServerApply(old(stores)[t], d)] || (!ok && stores == old(stores))
      ensures faults == old(faults) + (if ok then 0 else 1)
    {
      calls := calls + {Call(t, "patch", d.key.gvk), Call(t, "create", d.key.gvk)};
      var lost: bool := *;
      ok := *;
      if !ok { faults := faults + 1; }
      if ok || lost { stores := stores[t := ServerApply(stores[t], d)]; }
    }

    /** Replaces or creates an object outright: `Create` and `Update`. */
    method Put(t: Target, k: Key, o: Object) returns (ok: bool)
      requires Has(t)
      modifies this`calls, this`faults, this`stores
      ensures calls == old(calls) + {Call(t, "create", k.gvk), Call(t, "update", k.gvk)}
      ensures stores == old(stores)[t := old(stores)[t][k := o]] || (!ok && stores == old(stores))
      ensures faults == old(faults) + (if ok then 0 else 1)
    {
      calls := calls + {Call(t, "create", k.gvk), Call(t, "update", k.gvk)};
      var lost: bool := *;
      ok := *;
      if !ok { faults := faults + 1; }
      if ok || lost { stores := stores[t := stores[t][k := o]]; }
    }

    /** `client.IgnoreNotFound(Delete(...))`. */
    method Delete(t: Target, k: Key) returns (ok: bool)
      requires Has(t)
      modifies this`calls, this`faults, this`stores
      ensures calls == old(calls) + {Call(t, "delete", k.gvk)}
      ensures stores == old(stores)[t := old(stores)[t] - {k}] || (!ok && stores == old(stores))
      ensures faults == old(faults) + (if ok then 0 else 1)
    {
      calls := calls + {Call(t, "delete", k.gvk)};
      var lost: bool := *;
      ok := *;
      if !ok { faults := faults + 1; }
      if ok || lost { stores := stores[t := stores[t] - {k}]; }
    }
  }

  /** Every call goes to `t`, on one of `kinds`, with one of `verbs`. */
  ghost predicate Only(calls: set<Call>, t: Target, kinds: set<GVK>, verbs: set<string>) {
    forall c :: c in calls ==> c.target == t && c.gvk in kinds && c.verb in verbs
  }

  /** Deletes the listed objects one call at a time. */
  method DeleteEach(s: Session, t: Target, g: GVK, items: set<Key>) returns (ok: bool, ghost gone: set<Key>)
    requires s.Has(t) && forall k :: k in items ==> k.gvk == g
    modifies s`calls, s`faults, s`stores
    ensures gone <= items && (ok ==> gone == items)
    ensures s.stores == old(s.stores)[t := old(s.stores)[t] - gone]
    ensures Only(s.calls - old(s.calls), t, {g}, {"delete"})
    ensures s.faults == old(s.faults) + (if ok then 0 else 1)
  {
    gone := {};
    ghost var before := s.stores[t];
    assert before - gone == before;
    var todo := items;
    while todo != {}
      invariant todo <= items && gone == items - todo
      invariant s.stores == old(s.stores)[t := before - gone]
      invariant Only(s.calls - old(s.calls), t, {g}, {"delete"}) && s.faults == old(s.faults)
    {
      var k :| k in todo;
      ghost var was := s.stores[t];
      var deleted := s.Delete(t, k);
      assert was - {k} == before - (gone + {k});
      if !deleted {
        ghost var more := if s.stores[t] == was then gone else gone + {k};
        return false, more;
      }
      gone := gone + {k};
      todo := todo - {k};
    }
    ok := true;
  }

  lemma ReapableOneMore(s: Store, kinds: seq<GVK>, i: nat, uid: string, keep: set<Key>)
    requires i < |kinds|
    ensures Reapable(s, Elems(kinds[..i + 1]), uid, keep)
         == Reapable(s, Elems(kinds[..i]), uid, keep) + Reapable(s, {kinds[i]}, uid, keep)
    ensures Reapable(s, Elems(kinds[..i + 1]), uid, keep) <= Reapable(s, Elems(kinds), uid, keep)
  {
    assert kinds[..i + 1] == kinds[..i] + [kinds[i]];
  }

  /** Lists one kind and deletes what it finds, save `keep`. */
  method ReapKind(s: Session, t: Target, g: GVK, uid: string, keep: set<Key>) returns (ok: bool, ghost gone: set<Key>)
    requires s.Has(t)
    modifies s`calls, s`faults, s`stores
    ensures gone <= Reapable(old(s.stores)[t], {g}, uid, keep)
    ensures s.stores == old(s.stores)[t := old(s.stores)[t] - gone]
    ensures ok ==> gone == Reapable(old(s.stores)[t], {g}, uid, keep)
    ensures Only(s.calls - old(s.calls), t, {g}, {"list", "delete"})
    ensures s.faults == old(s.faults) + (if ok then 0 else 1)
  {
    assert s.stores[t] - {} == s.stores[t];
    var listed := s.List(t, g, (k: Key, o: Object) => Labelled(o, uid));
    if listed.None? { return false, {}; }
    var items := set k | k in listed.value && k !in keep;
    assert items == Reapable(s.stores[t], {g}, uid, keep);
    ok, gone := DeleteEach(s, t, g, items);
  }

  /** List-and-delete, the inner loops of `deleteChildren`, `pruneChildren` and
      `sweepChildrenVia`: on success every reapable object of the kinds is gone and
      nothing else; on failure some of them are. */
  method ReapKinds(s: Session, t: Target, kinds: seq<GVK>, uid: string, keep: set<Key>)
    returns (ok: bool, ghost gone: set<Key>)
    requires s.Has(t)
    modifies s`calls, s`faults, s`stores
    ensures gone <= Reapable(old(s.stores)[t], Elems(kinds), uid, keep)
    ensures s.stores == old(s.stores)[t := old(s.stores)[t] - gone]
    ensures ok ==> gone == Reapable(old(s.stores)[t], Elems(kinds), uid, keep)
    ensures Only(s.calls - old(s.calls), t, Elems(kinds), {"list", "delete"})
    ensures s.faults == old(s.faults) + (if ok then 0 else 1)
  {
    gone := {};
    ghost var before := s.stores[t];
    assert before - gone == before;
    for i := 0 to |kinds|
      invariant s.stores == old(s.stores)[t := before - gone]
      invariant gone == Reapable(before, Elems(kinds[..i]), uid, keep)
      invariant Only(s.calls - old(s.calls), t, Elems(kinds), {"list", "delete"}) && s.faults == old(s.faults)
    {
      ReapableOneMore(before, kinds, i, uid, keep);
      ReapableAfter(before, gone, {kinds[i]}, uid, keep);
      var done, more := ReapKind(s, t, kinds[i], uid, keep);
      assert (before - gone) - more == before - (gone + more);
      gone := gone + more;
      if !done { return false, gone; }
    }
    assert kinds[..|kinds|] == kinds;
    ok := true;
  }

  lemma ReapableAfter(s: Store, gone: set<Key>, kinds: set<GVK>, uid: string, keep: set<Key>)
    ensures Reapable(s - gone, kinds, uid, keep) == Reapable(s, kinds, uid, keep) - gone
  {
  }
}
