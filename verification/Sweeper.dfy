/** internal/controller/sweeper.go: one sweep over the liveness records. */
module Sweeper {
  import opened Text
  import opened GvkCodec
  import opened Routing
  import opened Stores
  import SweepTiming

  function Field(o: Object, f: string): string { if f in o.spec then o.spec[f] else "" }

  function UidOf(o: Object): string { if LABEL_UID in o.labels then o.labels[LABEL_UID] else "" }

  predicate IsRecord(ns: string, k: Key, o: Object) {
    k.gvk == CONFIG_MAP && k.namespace == ns && LABEL_LIVENESS in o.labels && o.labels[LABEL_LIVENESS] == "true"
  }

  lemma {:induction false} VisitAppend(a: seq<string>, b: seq<string>)
    ensures Visit(a + b) == Visit(a) + Visit(b)
  {
    if a == [] {
      assert a + b == b;
    } else {
      VisitAppend(a[1..], b);
      DropFirst(a, b);
      ConcatAssociates(VisitOne(a[0]), Visit(a[1..]), Visit(b));
    }
  }

  lemma ReapableStep(s: Store, a: set<GVK>, b: set<GVK>, c: set<GVK>, all: set<GVK>, uid: string)
    requires c == a + b && c <= all
    ensures Reapable(s, c, uid, {}) == Reapable(s, a, uid, {}) + Reapable(s, b, uid, {})
    ensures Reapable(s, c, uid, {}) <= Reapable(s, all, uid, {})
  {
  }

  function KindsOf(token: string): set<GVK> { Elems(VisitOne(token)) }

  lemma ElemsConcat<T>(a: seq<T>, b: seq<T>)
    ensures Elems(a + b) == Elems(a) + Elems(b)
  {
  }

  lemma VisitSingle(token: string)
    ensures Visit([token]) == VisitOne(token)
  {
    assert Visit([token][1..]) == [];
  }

  lemma VisitOneMore(tokens: seq<string>, i: nat)
    requires i < |tokens|
    ensures Kinds(tokens[..i + 1]) == Kinds(tokens[..i]) + KindsOf(tokens[i])
  {
    assert tokens[..i + 1] == tokens[..i] + [tokens[i]];
    VisitAppend(tokens[..i], [tokens[i]]);
    ElemsConcat(Visit(tokens[..i]), Visit([tokens[i]]));
    VisitSingle(tokens[i]);
  }

  lemma VisitPrefix(tokens: seq<string>, i: nat)
    requires i <= |tokens|
    ensures Kinds(tokens[..i]) <= Kinds(tokens)
  {
    assert tokens == tokens[..i] + tokens[i..];
    VisitAppend(tokens[..i], tokens[i..]);
    ElemsConcat(Visit(tokens[..i]), Visit(tokens[i..]));
  }

  function Kinds(tokens: seq<string>): set<GVK> { Elems(Visit(tokens)) }

  /** A token adds what the kind it names condemns, if it names one. */
  lemma OneToken(s: Store, tokens: seq<string>, i: nat, uid: string)
    requires i < |tokens|
    ensures Reapable(s, Kinds(tokens[..i + 1]), uid, {})
         == Reapable(s, Kinds(tokens[..i]), uid, {}) + Reapable(s, KindsOf(tokens[i]), uid, {})
    ensures Reapable(s, Kinds(tokens[..i + 1]), uid, {}) <= Reapable(s, Kinds(tokens), uid, {})
  {
    VisitOneMore(tokens, i);
    VisitPrefix(tokens, i + 1);
    ReapableStep(s, Kinds(tokens[..i]), KindsOf(tokens[i]), Kinds(tokens[..i + 1]), Kinds(tokens), uid);
  }

  /** One token: trimmed, skipped when empty or malformed, otherwise listed and reaped. */
  method SweepToken(s: Session, t: Target, raw: string, uid: string) returns (ok: bool, ghost gone: set<Key>)
    requires s.Has(t)
    modifies s`calls, s`faults, s`stores
    ensures gone <= Reapable(old(s.stores)[t], KindsOf(raw), uid, {})
    ensures ok ==> gone == Reapable(old(s.stores)[t], KindsOf(raw), uid, {})
    ensures s.stores == old(s.stores)[t := old(s.stores)[t] - gone]
    ensures s.faults == old(s.faults) + (if ok then 0 else 1)
  {
    var token := TrimSpace(raw);
    assert s.stores[t] - {} == s.stores[t];
    if token == "" { return true, {}; }
    var parsed := ParseToken(token);
    if parsed.Malformed? { return true, {}; }
    ok, gone := ReapKind(s, t, parsed.gvk, uid, {});
  }

  lemma NextToken(s: Store, tokens: seq<string>, i: nat, uid: string, gone: set<Key>)
    requires i < |tokens| && gone == Reapable(s, Kinds(tokens[..i]), uid, {})
    ensures var next := Reapable(s - gone, KindsOf(tokens[i]), uid, {});
      && gone + next == Reapable(s, Kinds(tokens[..i + 1]), uid, {})
      && gone + next <= Reapable(s, Kinds(tokens), uid, {})
  {
    OneToken(s, tokens, i, uid);
    ReapableAfter(s, gone, KindsOf(tokens[i]), uid, {});
  }

  lemma RemovedInTurn(s: Store, a: set<Key>, b: set<Key>)
    ensures (s - a) - b == s - (a + b)
  {
  }

  /** sweepChildrenVia: token by token. */
  method SweepChildrenVia(s: Session, t: Target, raw: string, uid: string) returns (ok: bool, ghost gone: set<Key>)
    requires s.Has(t)
    modifies s`calls, s`faults, s`stores
    ensures gone <= Reapable(old(s.stores)[t], Elems(Visited(raw)), uid, {})
    ensures ok ==> gone == Reapable(old(s.stores)[t], Elems(Visited(raw)), uid, {})
    ensures s.stores == old(s.stores)[t := old(s.stores)[t] - gone]
    ensures s.faults == old(s.faults) + (if ok then 0 else 1)
  {
    gone := {};
    ghost var before := s.stores[t];
    assert before - gone == before;
    var tokens := Split(raw, ',');
    for i := 0 to |tokens|
      invariant s.stores == old(s.stores)[t := before - gone]
      invariant gone == Reapable(before, Kinds(tokens[..i]), uid, {}) && s.faults == old(s.faults)
    {
      NextToken(before, tokens, i, uid, gone);
      var done, more := SweepToken(s, t, tokens[i], uid);
      RemovedInTurn(before, gone, more);
      gone := gone + more;
      if !done { return false, gone; }
    }
    assert tokens[..|tokens|] == tokens;
    ok := true;
  }

  // ---- What a sweep may take ----

  /** `parse` is time.Parse(time.RFC3339, ...); `host` says whether HostClient is set. */
  datatype Config = Config(staleAfter: real, namespace: string, host: bool, parse: string -> Option<real>)

  /** A record as the sweeper reads it. */
  datatype Entry = Entry(uid: string, last: Option<real>, provider: set<GVK>, host: set<GVK>)

  function EntryOf(c: Config, o: Object): Entry {
    Entry(UidOf(o), c.parse(Field(o, "lastReconciled")),
          Elems(Visited(Field(o, "providerChildGVKs"))),
          if c.host then Elems(Visited(Field(o, "hostChildGVKs"))) else {})
  }

  function Entries(c: Config, p: Store): map<Key, Entry> {
    map k | k in p && IsRecord(c.namespace, k, p[k]) :: EntryOf(c, p[k])
  }

  /** Objects of the provider and of the host store. */
  datatype Toll = Toll(provider: set<Key>, host: set<Key>)

  predicate Both(stores: Stores) { Provider in stores && Host in stores }

  /** What an entry condemns: objects of its kinds labelled with its uid. */
  function TollOf(stores: Stores, e: Entry): Toll
    requires Both(stores)
  {
    Toll(Reapable(stores[Provider], e.provider, e.uid, {}), Reapable(stores[Host], e.host, e.uid, {}))
  }

  predicate Within(a: Toll, b: Toll) { a.provider <= b.provider && a.host <= b.host }

  function Add(a: Toll, b: Toll): Toll { Toll(a.provider + b.provider, a.host + b.host) }

  function Removed(stores: Stores, t: Toll): Stores
    requires Both(stores)
  {
    stores[Provider := stores[Provider] - t.provider][Host := stores[Host] - t.host]
  }

  predicate Expired(stale: real, now: real, e: Entry) {
    e.last.Some? && now - e.last.value > stale && e.uid != ""
  }

  /** Some expired entry condemns the object `k` of the store. */
  ghost predicate DoomedProvider(stale: real, now: real, entries: map<Key, Entry>, stores: Stores, k: Key)
    requires Both(stores)
  {
    exists r :: r in entries && Expired(stale, now, entries[r]) && k in TollOf(stores, entries[r]).provider
  }

  ghost predicate DoomedHost(stale: real, now: real, entries: map<Key, Entry>, stores: Stores, k: Key)
    requires Both(stores)
  {
    exists r :: r in entries && Expired(stale, now, entries[r]) && k in TollOf(stores, entries[r]).host
  }

  /** A sweep has taken `toll`, with it the records `dropped`. Whatever else it took
      some expired entry condemns; a record goes only if it has expired, and not
      before everything it condemns. */
  ghost predicate Swept(stale: real, now: real, entries: map<Key, Entry>, before: Stores, after: Stores, toll: Toll,
                        dropped: set<Key>)
    requires Both(before)
  {
    && after == Removed(before, toll)
    && (forall k :: k in toll.provider && k !in dropped ==> DoomedProvider(stale, now, entries, before, k))
    && (forall k :: k in toll.host ==> DoomedHost(stale, now, entries, before, k))
    && dropped <= toll.provider && dropped <= entries.Keys
    && (forall r :: r in dropped ==> Expired(stale, now, entries[r]) && Within(TollOf(before, entries[r]), toll))
  }

  /** Every expired record that is not still to be visited is among the `dropped`. */
  ghost predicate AllDropped(stale: real, now: real, entries: map<Key, Entry>, todo: set<Key>, dropped: set<Key>) {
    forall r :: r in entries && r !in todo && Expired(stale, now, entries[r]) ==> r in dropped
  }

  lemma TollAfter(before: Stores, toll: Toll, e: Entry)
    requires Both(before)
    ensures var full, left := TollOf(before, e), TollOf(Removed(before, toll), e);
      left.provider == full.provider - toll.provider && left.host == full.host - toll.host
  {
    ReapableAfter(before[Provider], toll.provider, e.provider, e.uid, {});
    ReapableAfter(before[Host], toll.host, e.host, e.uid, {});
  }

  lemma RemovedTwice(stores: Stores, a: Toll, b: Toll)
    requires Both(stores)
    ensures Removed(Removed(stores, a), b) == Removed(stores, Add(a, b))
  {
    assert stores[Provider] - a.provider - b.provider == stores[Provider] - (a.provider + b.provider);
    assert stores[Host] - a.host - b.host == stores[Host] - (a.host + b.host);
  }

  /** The children of one expired entry are swept, some or all. */
  lemma SweptChildren(stale: real, now: real, entries: map<Key, Entry>, before: Stores, after: Stores, toll: Toll,
                      dropped: set<Key>, r: Key, more: Toll)
    requires Both(before) && Swept(stale, now, entries, before, after, toll, dropped)
    requires r in entries && (more == Toll({}, {}) || Expired(stale, now, entries[r]))
    requires Within(more, TollOf(after, entries[r]))
    ensures Swept(stale, now, entries, before, Removed(after, more), Add(toll, more), dropped)
    ensures more == TollOf(after, entries[r]) ==> Within(TollOf(before, entries[r]), Add(toll, more))
  {
    TollAfter(before, toll, entries[r]);
    RemovedTwice(before, toll, more);
  }

  /** ... and then its record. */
  lemma SweptRecord(stale: real, now: real, entries: map<Key, Entry>, before: Stores, after: Stores, toll: Toll,
                    dropped: set<Key>, r: Key)
    requires Both(before) && Swept(stale, now, entries, before, after, toll, dropped)
    requires r in entries && Expired(stale, now, entries[r]) && Within(TollOf(before, entries[r]), toll)
    ensures Swept(stale, now, entries, before, after[Provider := after[Provider] - {r}], Add(toll, Toll({r}, {})),
                  dropped + {r})
  {
    assert before[Provider] - (toll.provider + {r}) == before[Provider] - toll.provider - {r};
    assert toll.host + {} == toll.host;
  }

  // ---- The sweep itself ----

  /** sweepChildren: a record without a uid label is an error. */
  method SweepChildren(s: Session, c: Config, rec: Object) returns (ok: bool, ghost toll: Toll)
    requires s.Has(Provider) && s.Has(Host)
    modifies s`calls, s`faults, s`stores
    ensures s.stores == Removed(old(s.stores), toll)
    ensures Within(toll, TollOf(old(s.stores), EntryOf(c, rec)))
    ensures UidOf(rec) == "" ==> !ok && toll == Toll({}, {})
    ensures ok ==> toll == TollOf(old(s.stores), EntryOf(c, rec))
    ensures s.faults == old(s.faults) + (if ok || UidOf(rec) == "" then 0 else 1)
  {
    ghost var before := s.stores;
    assert before[Provider] - {} == before[Provider] && before[Host] - {} == before[Host];
    toll := Toll({}, {});
    if UidOf(rec) == "" { return false, toll; }
    var done, goneP := SweepChildrenVia(s, Provider, Field(rec, "providerChildGVKs"), UidOf(rec));
    toll := Toll(goneP, {});
    if !done { return false, toll; }
    if c.host {
      var done', goneH := SweepChildrenVia(s, Host, Field(rec, "hostChildGVKs"), UidOf(rec));
      toll := Toll(goneP, goneH);
      if !done' { return false, toll; }
    }
    ok := true;
  }

  /** One record of the list: fresh or unreadable ones are passed over, the children
      of an overdue one are swept and then the record itself. `spoiled` says that a call
      for its children failed, `err` that the one for the record did. */
  method SweepOne(s: Session, c: Config, now: real, r: Key, rec: Object,
                  ghost entries: map<Key, Entry>, ghost before: Stores, ghost toll: Toll, ghost dropped: set<Key>)
    returns (err: bool, ghost spoiled: bool, ghost toll': Toll, ghost dropped': set<Key>)
    requires s.Has(Provider) && s.Has(Host) && Both(before)
    requires Swept(c.staleAfter, now, entries, before, s.stores, toll, dropped)
    requires r in entries && entries[r] == EntryOf(c, rec)
    modifies s`calls, s`faults, s`stores
    ensures s.Has(Provider) && s.Has(Host) && Swept(c.staleAfter, now, entries, before, s.stores, toll', dropped')
    ensures dropped <= dropped' <= dropped + {r}
    ensures s.faults == old(s.faults) + (if spoiled || err then 1 else 0) && !(spoiled && err)
    ensures Expired(c.staleAfter, now, entries[r]) ==> r in dropped' || spoiled || err
    ensures err ==> Within(TollOf(before, entries[r]), toll')
    ensures var last := c.parse(Field(rec, "lastReconciled"));
      last.None? || now - last.value <= c.staleAfter ==> s.stores == old(s.stores) && s.faults == old(s.faults)
  {
    err, spoiled, toll', dropped' := false, false, toll, dropped;
    var last := c.parse(Field(rec, "lastReconciled"));
    if last.None? || now - last.value <= c.staleAfter { return; }
    ghost var was := s.stores;
    var ok, more := SweepChildren(s, c, rec);
    SweptChildren(c.staleAfter, now, entries, before, was, toll, dropped, r, more);
    toll' := Add(toll, more);
    if !ok {
      spoiled := UidOf(rec) != "";
      return;
    }
    SweptRecord(c.staleAfter, now, entries, before, s.stores, toll', dropped, r);
    ghost var mid := s.stores;
    var deleted := s.Delete(Provider, r);
    err := !deleted;
    if deleted || s.stores != mid {
      toll', dropped' := Add(toll', Toll({r}, {})), dropped + {r};
    }
  }

  lemma NothingSwept(stale: real, now: real, entries: map<Key, Entry>, before: Stores)
    requires Both(before)
    ensures Swept(stale, now, entries, before, before, Toll({}, {}), {})
  {
    assert before[Provider] - {} == before[Provider] && before[Host] - {} == before[Host];
  }

  lemma OneMoreDropped(stale: real, now: real, entries: map<Key, Entry>, todo: set<Key>, dropped: set<Key>,
                       dropped': set<Key>, r: Key)
    requires AllDropped(stale, now, entries, todo, dropped) && dropped <= dropped'
    requires r in entries && Expired(stale, now, entries[r]) ==> r in dropped'
    ensures AllDropped(stale, now, entries, todo - {r}, dropped')
  {
  }

  /** The records of the list, one by one. Each failing call costs one record at most:
      a failure on a record's children spoils that record and no other, one on the
      record itself ends the sweep. */
  method SweepListed(s: Session, c: Config, now: real, records: map<Key, Object>, ghost entries: map<Key, Entry>)
    returns (err: bool, ghost spoiled: set<Key>, ghost toll: Toll, ghost dropped: set<Key>)
    requires s.Has(Provider) && s.Has(Host)
    requires entries.Keys == records.Keys && forall r :: r in records ==> entries[r] == EntryOf(c, records[r])
    modifies s`calls, s`faults, s`stores
    ensures Swept(c.staleAfter, now, entries, old(s.stores), s.stores, toll, dropped)
    ensures s.faults == old(s.faults) + |spoiled| + (if err then 1 else 0)
    ensures !err ==> AllDropped(c.staleAfter, now, entries, {}, dropped + spoiled)
  {
    ghost var before := s.stores;
    NothingSwept(c.staleAfter, now, entries, before);
    err, spoiled, toll, dropped := false, {}, Toll({}, {}), {};
    var todo := records.Keys;
    while todo != {}
      invariant todo <= records.Keys && s.Has(Provider) && s.Has(Host)
      invariant Swept(c.staleAfter, now, entries, before, s.stores, toll, dropped)
      invariant spoiled !! todo && s.faults == old(s.faults) + |spoiled|
      invariant AllDropped(c.staleAfter, now, entries, todo, dropped + spoiled)
      invariant !err
    {
      var r :| r in todo;
      ghost var spoils, dropped';
      err, spoils, toll, dropped' := SweepOne(s, c, now, r, records[r], entries, before, toll, dropped);
      if err {
        dropped := dropped';
        return;
      }
      ghost var spoiled' := if spoils then spoiled + {r} else spoiled;
      OneMoreDropped(c.staleAfter, now, entries, todo, dropped + spoiled, dropped' + spoiled', r);
      dropped, spoiled := dropped', spoiled';
      todo := todo - {r};
    }
  }

  /** The body of a sweep past the grace. */
  method SweepRecords(s: Session, c: Config, now: real)
    returns (err: bool, ghost spoiled: set<Key>, ghost toll: Toll, ghost dropped: set<Key>)
    requires s.Has(Provider) && s.Has(Host)
    modifies s`calls, s`faults, s`stores
    ensures Swept(c.staleAfter, now, Entries(c, old(s.stores)[Provider]), old(s.stores), s.stores, toll, dropped)
    ensures s.faults == old(s.faults) + |spoiled| + (if err then 1 else 0)
    ensures !err ==> var entries := Entries(c, old(s.stores)[Provider]);
      AllDropped(c.staleAfter, now, entries, {}, dropped + spoiled)
  {
    ghost var entries := Entries(c, s.stores[Provider]);
    NothingSwept(c.staleAfter, now, entries, s.stores);
    var listed := s.List(Provider, CONFIG_MAP, (k: Key, o: Object) => IsRecord(c.namespace, k, o));
    if listed.None? { return true, {}, Toll({}, {}), {}; }
    err, spoiled, toll, dropped := SweepListed(s, c, now, listed.value, entries);
  }

  /** A sweep in which no call fails: nothing within the grace, and after it every
      expired record with all it condemns. */
  ghost predicate CleanSweep(stale: real, startedAt: real, at: real, entries: map<Key, Entry>, before: Stores,
                             after: Stores)
    requires Both(before)
  {
    if at - startedAt < stale then after == before else WholeSweep(stale, at, entries, before, after)
  }

  ghost predicate WholeSweep(stale: real, at: real, entries: map<Key, Entry>, before: Stores, after: Stores)
    requires Both(before)
  {
    exists toll, dropped ::
      Swept(stale, at, entries, before, after, toll, dropped) && AllDropped(stale, at, entries, {}, dropped)
  }

  /** The record at `r` of `p` names the object `k` of `s`: it carries the record's uid
      and is of a kind listed in that field of the record. */
  predicate NamedBy(p: Store, r: Key, field: string, s: Store, k: Key)
    requires r in p && k in s
  {
    Labelled(s[k], UidOf(p[r])) && k.gvk in Visited(Field(p[r], field))
  }

  /** The record at `r` makes a sweep take the object `k` of target `t`: it is that record
      or is named by it. */
  predicate Takes(c: Config, stores: Stores, r: Key, t: Target, k: Key)
    requires Both(stores) && t in stores && k in stores[t]
  {
    var p := stores[Provider];
    && r in p && r.gvk == GVK("", "v1", "ConfigMap") && r.namespace == c.namespace
    && "krop.opendefense.cloud/liveness" in p[r].labels && p[r].labels["krop.opendefense.cloud/liveness"] == "true"
    && UidOf(p[r]) != ""
    && match t
       case Consumer => false
       case Provider => k == r || NamedBy(p, r, "providerChildGVKs", p, k)
       case Host => c.host && NamedBy(p, r, "hostChildGVKs", stores[Host], k)
  }

  lemma MissingInProvider(c: Config, now: real, before: Stores, after: Stores, toll: Toll, dropped: set<Key>, k: Key)
    returns (r: Key)
    requires Both(before) && Swept(c.staleAfter, now, Entries(c, before[Provider]), before, after, toll, dropped)
    requires k in before[Provider] && k !in after[Provider]
    ensures Takes(c, before, r, Provider, k) && Expired(c.staleAfter, now, EntryOf(c, before[Provider][r]))
  {
    var entries := Entries(c, before[Provider]);
    if k in dropped {
      r := k;
    } else {
      assert DoomedProvider(c.staleAfter, now, entries, before, k);
      r :| r in entries && Expired(c.staleAfter, now, entries[r]) && k in TollOf(before, entries[r]).provider;
    }
  }

  lemma MissingInHost(c: Config, now: real, before: Stores, after: Stores, toll: Toll, dropped: set<Key>, k: Key)
    returns (r: Key)
    requires Both(before) && Swept(c.staleAfter, now, Entries(c, before[Provider]), before, after, toll, dropped)
    requires k in before[Host] && k !in after[Host]
    ensures Takes(c, before, r, Host, k) && Expired(c.staleAfter, now, EntryOf(c, before[Provider][r]))
  {
    var entries := Entries(c, before[Provider]);
    assert DoomedHost(c.staleAfter, now, entries, before, k);
    r :| r in entries && Expired(c.staleAfter, now, entries[r]) && k in TollOf(before, entries[r]).host;
  }

  /** Nothing changes, and whatever is missing a record took that was last refreshed more
      than StaleAfter ago. */
  lemma MissingIsTaken(c: Config, now: real, before: Stores, after: Stores, toll: Toll, dropped: set<Key>)
    requires Both(before) && Swept(c.staleAfter, now, Entries(c, before[Provider]), before, after, toll, dropped)
    ensures after.Keys == before.Keys
    ensures forall t, k :: t in before && k in after[t] ==> k in before[t] && after[t][k] == before[t][k]
    ensures forall t, k :: t in before && k in before[t] && k !in after[t] ==>
      exists r ::
        && Takes(c, before, r, t, k)
        && var last := c.parse(Field(before[Provider][r], "lastReconciled"));
           last.Some? && now - last.value > c.staleAfter
  {
    forall t, k | t in before && k in before[t] && k !in after[t]
      ensures exists r ::
        && Takes(c, before, r, t, k)
        && var last := c.parse(Field(before[Provider][r], "lastReconciled"));
           last.Some? && now - last.value > c.staleAfter
    {
      var r;
      match t
      case Consumer =>
      case Provider => r := MissingInProvider(c, now, before, after, toll, dropped, k);
      case Host => r := MissingInHost(c, now, before, after, toll, dropped, k);
      assert t == Consumer || Takes(c, before, r, t, k);
    }
  }

  lemma TakenIsInToll(c: Config, stores: Stores, r: Key, t: Target, k: Key)
    requires Both(stores) && t in stores && k in stores[t] && Takes(c, stores, r, t, k)
    ensures var toll := TollOf(stores, EntryOf(c, stores[Provider][r]));
      t != Consumer && (if t == Provider then k == r || k in toll.provider else k in toll.host)
  {
  }

  /** A clean sweep past the grace leaves nothing that such a record takes. */
  lemma NothingOverdueIsLeft(c: Config, now: real, before: Stores, after: Stores, r: Key, t: Target, k: Key)
    requires Both(before) && WholeSweep(c.staleAfter, now, Entries(c, before[Provider]), before, after)
    requires t in before && k in before[t] && Takes(c, before, r, t, k)
    requires var last := c.parse(Field(before[Provider][r], "lastReconciled"));
      last.Some? && now - last.value > c.staleAfter
    ensures t in after && k !in after[t]
  {
    var entries := Entries(c, before[Provider]);
    var toll, dropped :| Swept(c.staleAfter, now, entries, before, after, toll, dropped)
      && AllDropped(c.staleAfter, now, entries, {}, dropped);
    assert Expired(c.staleAfter, now, entries[r]);
    TakenIsInToll(c, before, r, t, k);
    assert Within(TollOf(before, entries[r]), toll);
  }

  lemma CleanTakesAll(c: Config, now: real, before: Stores, after: Stores)
    requires Both(before) && WholeSweep(c.staleAfter, now, Entries(c, before[Provider]), before, after)
    ensures after.Keys == before.Keys
    ensures forall t, r, k :: t in before && k in before[t] && Takes(c, before, r, t, k) ==>
      var last := c.parse(Field(before[Provider][r], "lastReconciled"));
      last.Some? && now - last.value > c.staleAfter ==> k !in after[t]
  {
    forall t, r, k | t in before && k in before[t] && Takes(c, before, r, t, k)
      ensures var last := c.parse(Field(before[Provider][r], "lastReconciled"));
        last.Some? && now - last.value > c.staleAfter ==> t in after && k !in after[t]
    {
      var last := c.parse(Field(before[Provider][r], "lastReconciled"));
      if last.Some? && now - last.value > c.staleAfter { NothingOverdueIsLeft(c, now, before, after, r, t, k); }
    }
  }

  class Sweeper {
    const config: Config
    var startedAt: Option<real>

    constructor (config: Config)
      ensures this.config == config && startedAt.None?
    {
      this.config := config;
      startedAt := None;
    }

    /** Start's first action; the ticker then calls Sweep. */
    method Start(now: real)
      modifies this
      ensures startedAt == Some(now)
    {
      startedAt := Some(now);
    }

    /** Within the startup grace nothing is touched. After it only records go that were
        last refreshed more than StaleAfter ago, and objects such a record names; a
        record only once everything it condemns is gone. Unless the sweep itself
        reports an error, every overdue record with a uid label goes, with all it
        condemns, save one at most for each call that failed; with none, the sweep is
        clean. */
    method Sweep(s: Session, now: real)
      returns (err: bool, ghost spoiled: set<Key>, ghost toll: Toll, ghost dropped: set<Key>)
      requires s.Has(Provider) && s.Has(Host)
      modifies this, s`calls, s`faults, s`stores
      ensures startedAt == (if old(startedAt).None? then Some(now) else old(startedAt))
      ensures now - startedAt.value < config.staleAfter ==> s.stores == old(s.stores) && s.faults == old(s.faults)
      ensures Swept(config.staleAfter, now, Entries(config, old(s.stores)[Provider]), old(s.stores), s.stores, toll,
                    dropped)
      ensures s.faults == old(s.faults) + |spoiled| + (if err then 1 else 0)
      ensures !err && now - startedAt.value >= config.staleAfter ==>
        var entries := Entries(config, old(s.stores)[Provider]);
        AllDropped(config.staleAfter, now, entries, {}, dropped + spoiled)
      ensures s.faults == old(s.faults) ==> !err && CleanSweep(
        config.staleAfter, startedAt.value, now, Entries(config, old(s.stores)[Provider]), old(s.stores), s.stores)
      ensures s.stores.Keys == old(s.stores).Keys
      ensures forall t, k :: t in old(s.stores) && k in s.stores[t] ==>
        k in old(s.stores)[t] && s.stores[t][k] == old(s.stores)[t][k]
      ensures forall t, k :: t in old(s.stores) && k in old(s.stores)[t] && k !in s.stores[t] ==>
        exists r ::
          && Takes(config, old(s.stores), r, t, k)
          && var last := config.parse(Field(old(s.stores)[Provider][r], "lastReconciled"));
             last.Some? && now - last.value > config.staleAfter
      ensures s.faults == old(s.faults) && now - startedAt.value >= config.staleAfter ==>
        forall t, r, k :: t in old(s.stores) && k in old(s.stores)[t] && Takes(config, old(s.stores), r, t, k) ==>
          var last := config.parse(Field(old(s.stores)[Provider][r], "lastReconciled"));
          last.Some? && now - last.value > config.staleAfter ==> k !in s.stores[t]
    {
      err, spoiled, toll, dropped := false, {}, Toll({}, {}), {};
      NothingSwept(config.staleAfter, now, Entries(config, s.stores[Provider]), s.stores);
      if startedAt.None? { startedAt := Some(now); }
      if now - startedAt.value < config.staleAfter { return; }
      err, spoiled, toll, dropped := SweepRecords(s, config, now);
      assert spoiled == {} ==> dropped + spoiled == dropped;
      MissingIsTaken(config, now, old(s.stores), s.stores, toll, dropped);
      if s.faults == old(s.faults) { CleanTakesAll(config, now, old(s.stores), s.stores); }
    }
  }
}
