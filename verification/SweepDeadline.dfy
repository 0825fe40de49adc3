/** The deadline by which the sweeper of internal/controller/sweeper.go has reclaimed
    an orphan: ticks, startup grace, time stamps and stores put together. */
module SweepDeadline {
  import opened GvkCodec
  import opened Routing
  import opened Stores
  import opened Sweeper
  import SweepTiming

  /** The stores before and after each tick's sweep. */
  datatype Run = Run(ticks: nat -> real, before: nat -> Stores, after: nat -> Stores)

  /** Each tick is a sweep in which no call fails, as `Sweeper.Sweep` promises it. */
  ghost predicate SweptAt(c: Config, startedAt: real, run: Run, i: nat) {
    && Both(run.before(i)) && Both(run.after(i))
    && CleanSweep(c.staleAfter, startedAt, run.ticks(i), Entries(c, run.before(i)[Provider]), run.before(i),
                  run.after(i))
  }

  ghost predicate Sweeps(c: Config, startedAt: real, run: Run) {
    forall i: nat :: SweptAt(c, startedAt, run, i)
  }

  /** The record at `r` is still there and reads `e`. */
  ghost predicate Kept(entries: map<Key, Entry>, stores: Stores, r: Key, e: Entry)
    requires Both(stores)
  {
    r in entries && entries[r] == e && r in stores[Provider]
  }

  /** Neither the record nor anything it condemned is left. */
  ghost predicate Reclaimed(stores: Stores, r: Key, e: Entry)
    requires Both(stores)
  {
    r !in stores[Provider] && TollOf(stores, e) == Toll({}, {})
  }

  /** No record with the orphan's uid names ConfigMap as a provider child kind. */
  ghost predicate SparesRecords(entries: map<Key, Entry>, uid: string) {
    forall x :: x in entries && entries[x].uid == uid ==> CONFIG_MAP !in entries[x].provider
  }

  /** A record is a ConfigMap labelled with the uid it is read with. */
  ghost predicate Listed(entries: map<Key, Entry>, stores: Stores)
    requires Both(stores)
  {
    forall x :: x in entries ==>
      x.gvk == CONFIG_MAP && x in stores[Provider] && UidOf(stores[Provider][x]) == entries[x].uid
  }

  lemma NotCondemned(stale: real, at: real, entries: map<Key, Entry>, before: Stores, r: Key)
    requires Both(before) && Listed(entries, before) && r in entries && entries[r].uid != ""
    requires SparesRecords(entries, entries[r].uid)
    ensures !DoomedProvider(stale, at, entries, before, r)
  {
  }

  /** A sweep takes the record with all it condemns, or leaves it alone. */
  lemma AllOrNothing(stale: real, at: real, entries: map<Key, Entry>, before: Stores, after: Stores, toll: Toll,
                     dropped: set<Key>, r: Key)
    requires Both(before) && Swept(stale, at, entries, before, after, toll, dropped) && Listed(entries, before)
    requires r in entries && entries[r].uid != "" && SparesRecords(entries, entries[r].uid)
    ensures if r in dropped then Reclaimed(after, r, entries[r])
      else r in after[Provider] && after[Provider][r] == before[Provider][r]
  {
    NotCondemned(stale, at, entries, before, r);
    TollAfter(before, toll, entries[r]);
  }

  /** What is reclaimed stays so through a sweep. */
  lemma SweepAddsNothing(stale: real, at: real, entries: map<Key, Entry>, before: Stores, after: Stores, toll: Toll,
                         dropped: set<Key>, r: Key, e: Entry)
    requires Both(before) && Swept(stale, at, entries, before, after, toll, dropped) && Reclaimed(before, r, e)
    ensures Reclaimed(after, r, e)
  {
    TollAfter(before, toll, e);
  }

  /** One tick: the record stays as it is, or nothing of the orphan is left; past the
      grace and the threshold, nothing is left. */
  lemma OneTick(stale: real, startedAt: real, at: real, entries: map<Key, Entry>, before: Stores, after: Stores, r: Key,
                e: Entry)
    requires Both(before) && CleanSweep(stale, startedAt, at, entries, before, after) && Listed(entries, before)
    requires e.uid != "" && SparesRecords(entries, e.uid)
    requires Kept(entries, before, r, e) || Reclaimed(before, r, e)
    ensures Both(after)
    ensures (Kept(entries, before, r, e) && r in after[Provider] && after[Provider][r] == before[Provider][r])
      || Reclaimed(after, r, e)
    ensures at - startedAt >= stale && Expired(stale, at, e) ==> Reclaimed(after, r, e)
  {
    if at - startedAt >= stale {
      var toll, dropped :| Swept(stale, at, entries, before, after, toll, dropped)
        && AllDropped(stale, at, entries, {}, dropped);
      if Kept(entries, before, r, e) { AllOrNothing(stale, at, entries, before, after, toll, dropped, r); }
      else { SweepAddsNothing(stale, at, entries, before, after, toll, dropped, r, e); }
    }
  }

  lemma EntriesAreListed(c: Config, stores: Stores)
    requires Both(stores)
    ensures Listed(Entries(c, stores[Provider]), stores)
  {
  }

  /** Until the next sweep nobody touches the record of an orphan, restores it or
      gives the orphan children; and ConfigMap is no recorded provider child kind of it. */
  ghost predicate LeftAlone(c: Config, run: Run, r: Key, e: Entry, i: nat) {
    var before, after, before' := run.before(i), run.after(i), run.before(i + 1);
    && Both(before) && Both(after) && Both(before')
    && SparesRecords(Entries(c, before[Provider]), e.uid)
    && (r in after[Provider] ==> r in before'[Provider] && before'[Provider][r] == after[Provider][r])
    && (r !in after[Provider] ==> r !in before'[Provider])
    && Within(TollOf(before', e), TollOf(after, e))
  }

  ghost predicate Orphaned(c: Config, run: Run, r: Key, e: Entry) {
    forall i: nat :: LeftAlone(c, run, r, e, i)
  }

  ghost predicate Settled(c: Config, stores: Stores, r: Key, e: Entry)
  {
    Both(stores) && (Kept(Entries(c, stores[Provider]), stores, r, e) || Reclaimed(stores, r, e))
  }

  lemma OneTickOfRun(c: Config, startedAt: real, run: Run, r: Key, e: Entry, i: nat)
    requires Sweeps(c, startedAt, run) && Orphaned(c, run, r, e) && e.uid != "" && Settled(c, run.before(i), r, e)
    ensures Settled(c, run.before(i + 1), r, e)
    ensures Both(run.after(i))
    ensures run.ticks(i) - startedAt >= c.staleAfter && Expired(c.staleAfter, run.ticks(i), e) ==>
      Reclaimed(run.after(i), r, e)
  {
    assert SweptAt(c, startedAt, run, i) && LeftAlone(c, run, r, e, i);
    var b, a := run.before(i), run.after(i);
    var entries := Entries(c, b[Provider]);
    EntriesAreListed(c, b);
    OneTick(c.staleAfter, startedAt, run.ticks(i), entries, b, a, r, e);
  }

  lemma {:induction false} SettledAt(c: Config, startedAt: real, run: Run, r: Key, e: Entry, i: nat)
    requires Sweeps(c, startedAt, run) && Orphaned(c, run, r, e) && e.uid != "" && Settled(c, run.before(0), r, e)
    ensures Settled(c, run.before(i), r, e)
  {
    if i > 0 {
      var n := i - 1;
      SettledAt(c, startedAt, run, r, e, n);
      OneTickOfRun(c, startedAt, run, r, e, n);
      assert n + 1 == i;
    }
  }

  /** An orphan last refreshed at `last` is gone, record and recorded children, after
      some sweep no later than max(last refresh, start) + StaleAfter + SweepInterval;
      the record holds the refresh time truncated to whole seconds. */
  lemma OrphanIsGoneInTime(c: Config, startedAt: real, interval: real, run: Run, r: Key, e: Entry, last: real, n: nat)
    returns (k: nat)
    requires Sweeps(c, startedAt, run) && Orphaned(c, run, r, e) && c.staleAfter >= 0.0
    requires Both(run.before(0)) && Kept(Entries(c, run.before(0)[Provider]), run.before(0), r, e)
    requires e.uid != "" && e.last == Some(SweepTiming.Truncated(last))
    requires SweepTiming.Ticks(run.ticks, startedAt, interval)
    requires run.ticks(n) > SweepTiming.Max(last, startedAt) + c.staleAfter
    ensures Both(run.after(k)) && Reclaimed(run.after(k), r, e)
    ensures run.ticks(k) <= SweepTiming.Max(last, startedAt) + c.staleAfter + interval
  {
    k := SweepTiming.OrphanIsReclaimedInTime(run.ticks, startedAt, interval, c.staleAfter, last, n);
    SettledAt(c, startedAt, run, r, e, k);
    OneTickOfRun(c, startedAt, run, r, e, k);
  }

  // ---- The ticker's loop ----

  /** A sweep leaves records as they are or removes them. */
  lemma SparesAfterwards(c: Config, startedAt: real, at: real, before: Stores, after: Stores, uid: string)
    requires Both(before) && SparesRecords(Entries(c, before[Provider]), uid)
    requires CleanSweep(c.staleAfter, startedAt, at, Entries(c, before[Provider]), before, after)
    ensures Both(after) && SparesRecords(Entries(c, after[Provider]), uid)
  {
    assert forall k :: k in after[Provider] ==> k in before[Provider] && after[Provider][k] == before[Provider][k];
    forall x | x in Entries(c, after[Provider])
      ensures x in Entries(c, before[Provider]) && Entries(c, before[Provider])[x] == Entries(c, after[Provider])[x]
    {
    }
  }

  /** One tick of the loop, if no call fails. */
  lemma TickSettles(c: Config, startedAt: real, at: real, before: Stores, after: Stores, r: Key, e: Entry)
    requires Settled(c, before, r, e) && e.uid != "" && SparesRecords(Entries(c, before[Provider]), e.uid)
    requires CleanSweep(c.staleAfter, startedAt, at, Entries(c, before[Provider]), before, after)
    ensures Settled(c, after, r, e)
    ensures at - startedAt >= c.staleAfter && Expired(c.staleAfter, at, e) ==> Reclaimed(after, r, e)
    ensures Reclaimed(before, r, e) ==> Reclaimed(after, r, e)
  {
    EntriesAreListed(c, before);
    OneTick(c.staleAfter, startedAt, at, Entries(c, before[Provider]), before, after, r, e);
  }

  /** One of the ticks is past the grace and the threshold. */
  ghost predicate Due(stale: real, startedAt: real, times: seq<real>, last: real) {
    exists i :: 0 <= i < |times| && SweepTiming.Reclaims(stale, startedAt, times[i], last)
  }

  lemma DueOneMore(stale: real, startedAt: real, times: seq<real>, i: nat, last: real)
    requires i < |times|
    ensures Due(stale, startedAt, times[..i + 1], last) <==>
            Due(stale, startedAt, times[..i], last) || SweepTiming.Reclaims(stale, startedAt, times[i], last)
  {
    assert times[..i + 1] == times[..i] + [times[i]];
  }

  /** Start's loop over the ticks that have come: if no call fails, an orphan is gone,
      record and recorded children, once a tick is past the grace and its threshold.
      OrphanIsReclaimedInTime says when that is. */
  method SweepAtTicks(sw: Sweeper, s: Session, times: seq<real>, ghost r: Key, ghost e: Entry, ghost last: real)
    requires s.Has(Provider) && s.Has(Host) && sw.startedAt.Some?
    requires Kept(Entries(sw.config, s.stores[Provider]), s.stores, r, e)
    requires e.uid != "" && e.last == Some(SweepTiming.Truncated(last))
    requires SparesRecords(Entries(sw.config, s.stores[Provider]), e.uid)
    modifies sw, s`calls, s`faults, s`stores
    ensures s.Has(Provider) && s.Has(Host) && sw.startedAt == old(sw.startedAt)
    ensures s.faults == old(s.faults) && Due(sw.config.staleAfter, sw.startedAt.value, times, last) ==>
      Reclaimed(s.stores, r, e)
  {
    for i := 0 to |times|
      invariant s.Has(Provider) && s.Has(Host) && sw.startedAt == old(sw.startedAt) && s.faults >= old(s.faults)
      invariant s.faults == old(s.faults) ==>
        Settled(sw.config, s.stores, r, e) && SparesRecords(Entries(sw.config, s.stores[Provider]), e.uid)
      invariant s.faults == old(s.faults) && Due(sw.config.staleAfter, sw.startedAt.value, times[..i], last) ==>
        Reclaimed(s.stores, r, e)
    {
      ghost var before := s.stores;
      DueOneMore(sw.config.staleAfter, sw.startedAt.value, times, i, last);
      var err, spoiled, toll, dropped := sw.Sweep(s, times[i]);
      if s.faults == old(s.faults) {
        TickSettles(sw.config, sw.startedAt.value, times[i], before, s.stores, r, e);
        SparesAfterwards(sw.config, sw.startedAt.value, times[i], before, s.stores, e.uid);
      }
    }
    assert times[..|times|] == times;
  }
}
