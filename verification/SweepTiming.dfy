/** The race between an instance's heartbeat and the orphan sweeper, in real time:
    internal/controller/sweeper.go (startup grace, staleness) against the refresh of
    internal/controller/reconciler.go, with controller restarts, unbinding and
    rebinding. One instance is followed; records of others do not matter to it. */
module SweepTiming {
  import opened Routing

  /** `gap`: while the controller is up and the instance bound, a refresh commits at
      most this long after the start, the binding or the previous refresh.
      `lag`: how long before its commit a refresh reads the clock.
      `stale`: StaleAfter, which is also the startup grace. */
  datatype Params = Params(gap: real, lag: real, stale: real)

  /** `at` is the clock reading Sweep takes when it begins. */
  datatype Phase =
    | Off
    | Began(at: real)
    | Saw(at: real, snapshot: Option<real>)
    | Deleting(at: real)

  /** `stamp` is the time in the stored record before truncation, `pending` the one a
      refresh under way has read, `lastCommit` when a record was last written. */
  datatype State = State(
    now: real, up: bool, startedAt: real, bound: bool, boundSince: real,
    stamp: Option<real>, pending: Option<real>, lastCommit: Option<real>, phase: Phase)

  datatype Step =
    | Wait(dt: real) | Crash | Restart | Unbind | Bind | RecordLost
    | ReadClock | CommitRefresh | FailRefresh
    | BeginSweep | ListRecords | Judge | DeleteOne | EndSweep

  function Max(a: real, b: real): real { if a < b then b else a }

  function Min(a: real, b: real): real { if a < b then a else b }

  /** When the gap began: with the start, the binding or the last commit. */
  function Since(s: State): real {
    Max(Max(s.startedAt, s.boundSince), if s.lastCommit.Some? then s.lastCommit.value else s.startedAt)
  }

  function Deadline(p: Params, s: State): real { Since(s) + p.gap }

  /** Time stamps are written in whole seconds: RFC 3339 without a fraction. */
  function Truncated(t: real): real { t.Floor as real }

  /** now.Sub(last) > StaleAfter, `last` having been written and parsed back. */
  predicate Stale(p: Params, at: real, stamp: real) { at - Truncated(stamp) > p.stale }

  function Do(p: Params, s: State, step: Step): State {
    match step
    case Wait(dt) =>
      if dt < 0.0 || (s.up && s.bound && s.now + dt > Deadline(p, s)) then s else s.(now := s.now + dt)
    case Crash => s.(up := false, pending := None, phase := Off)
    case Restart => if s.up then s else s.(up := true, startedAt := s.now)
    case Unbind => s.(bound := false, pending := None)
    case Bind => if s.bound then s else s.(bound := true, boundSince := s.now)
    case RecordLost => s.(stamp := None)
    case ReadClock => if s.up && s.bound then s.(pending := Some(s.now)) else s
    case CommitRefresh =>
      if s.up && s.bound && s.pending.Some? && s.now - s.pending.value <= p.lag
      then s.(stamp := s.pending, pending := None, lastCommit := Some(s.now)) else s
    case FailRefresh => s.(pending := None)
    case BeginSweep => if s.up && s.phase.Off? && s.now - s.startedAt >= p.stale then s.(phase := Began(s.now)) else s
    case ListRecords => if s.phase.Began? then s.(phase := Saw(s.phase.at, s.stamp)) else s
    case Judge =>
      if !s.phase.Saw? then s
      else if s.phase.snapshot.Some? && Stale(p, s.phase.at, s.phase.snapshot.value)
      then s.(phase := Deleting(s.phase.at))
      else s.(phase := Off)
    case DeleteOne => s
    case EndSweep => if s.phase.Deleting? then s.(phase := Off, stamp := None) else s
  }

  const START := State(0.0, true, 0.0, true, 0.0, None, None, None, Off)

  function Exec(p: Params, steps: seq<Step>): State {
    if steps == [] then START else Do(p, Exec(p, steps[..|steps| - 1]), steps[|steps| - 1])
  }

  /** The instance has been bound for longer than one gap when the sweep begins. */
  predicate LongBound(p: Params, s: State, at: real) { s.bound && s.boundSince < at - p.gap }

  ghost predicate Inv(p: Params, s: State) {
    && s.startedAt <= s.now && s.boundSince <= s.now
    && (s.lastCommit.Some? ==> s.lastCommit.value <= s.now)
    && (s.up && s.bound ==> s.now <= Deadline(p, s))
    && (s.pending.Some? ==> s.up && s.bound && Since(s) <= s.pending.value <= s.now)
    && (s.stamp.Some? ==> s.lastCommit.Some? && s.lastCommit.value - Delay(p) <= s.stamp.value)
    && (!s.phase.Off? ==> s.up && s.phase.at <= s.now && s.phase.at - s.startedAt >= p.stale)
    && (!s.phase.Off? && LongBound(p, s, s.phase.at) ==>
          && !s.phase.Deleting?
          && s.lastCommit.Some? && s.phase.at - p.gap <= s.lastCommit.value
          && (s.phase.Saw? && s.phase.snapshot.Some? ==> s.phase.at - p.gap - Delay(p) <= s.phase.snapshot.value))
  }

  /** A refresh cannot commit later than a gap after it read the clock, however long
      the lag: it would miss its deadline. */
  function Delay(p: Params): real { Min(p.lag, p.gap) }

  /** StaleAfter exceeds the gap by the delay and the second lost to truncation. */
  predicate Sound(p: Params) { p.gap > 0.0 && p.lag >= 0.0 && p.gap + Delay(p) + 1.0 <= p.stale }

  lemma FreshIsNotStale(p: Params, at: real, stamp: real)
    requires Sound(p) && at - p.gap - Delay(p) <= stamp
    ensures !Stale(p, at, stamp)
  {
    assert stamp < Truncated(stamp) + 1.0;
  }

  lemma WaitKeeps(p: Params, s: State, dt: real)
    requires Sound(p) && Inv(p, s)
    ensures Inv(p, Do(p, s, Wait(dt)))
  {
  }

  lemma CommitKeeps(p: Params, s: State)
    requires Sound(p) && Inv(p, s)
    ensures Inv(p, Do(p, s, CommitRefresh))
  {
  }

  lemma BindingKeeps(p: Params, s: State, step: Step)
    requires Sound(p) && Inv(p, s) && (step.Bind? || step.Unbind?)
    ensures Inv(p, Do(p, s, step))
  {
  }

  lemma ProcessKeeps(p: Params, s: State, step: Step)
    requires Sound(p) && Inv(p, s) && (step.Crash? || step.Restart?)
    ensures Inv(p, Do(p, s, step))
  {
  }

  lemma RefreshKeeps(p: Params, s: State, step: Step)
    requires Sound(p) && Inv(p, s) && (step.ReadClock? || step.FailRefresh? || step.RecordLost?)
    ensures Inv(p, Do(p, s, step))
  {
  }

  lemma BeginKeeps(p: Params, s: State)
    requires Sound(p) && Inv(p, s)
    ensures Inv(p, Do(p, s, BeginSweep))
  {
  }

  lemma ListKeeps(p: Params, s: State)
    requires Sound(p) && Inv(p, s)
    ensures Inv(p, Do(p, s, ListRecords))
  {
  }

  lemma JudgeKeeps(p: Params, s: State)
    requires Sound(p) && Inv(p, s)
    ensures Inv(p, Do(p, s, Judge))
  {
    if s.phase.Saw? && s.phase.snapshot.Some? && LongBound(p, s, s.phase.at) {
      FreshIsNotStale(p, s.phase.at, s.phase.snapshot.value);
    }
  }

  lemma EndKeeps(p: Params, s: State)
    requires Sound(p) && Inv(p, s)
    ensures Inv(p, Do(p, s, EndSweep))
  {
  }

  lemma StepKeeps(p: Params, s: State, step: Step)
    requires Sound(p) && Inv(p, s)
    ensures Inv(p, Do(p, s, step))
  {
    match step
    case Wait(dt) => WaitKeeps(p, s, dt);
    case CommitRefresh => CommitKeeps(p, s);
    case Bind => BindingKeeps(p, s, step);
    case Unbind => BindingKeeps(p, s, step);
    case Crash => ProcessKeeps(p, s, step);
    case Restart => ProcessKeeps(p, s, step);
    case BeginSweep => BeginKeeps(p, s);
    case ListRecords => ListKeeps(p, s);
    case Judge => JudgeKeeps(p, s);
    case EndSweep => EndKeeps(p, s);
    case DeleteOne =>
    case _ => RefreshKeeps(p, s, step);
  }

  lemma {:induction false} Reachable(p: Params, steps: seq<Step>)
    requires Sound(p)
    ensures Inv(p, Exec(p, steps))
  {
    if steps != [] {
      Reachable(p, steps[..|steps| - 1]);
      StepKeeps(p, Exec(p, steps[..|steps| - 1]), steps[|steps| - 1]);
    }
  }

  /** In every run, however restarts, refreshes and the sweep's own steps interleave,
      the sweeper deletes nothing of an instance that had been bound for one gap when
      the sweep began and still is. */
  lemma BoundInstanceIsNeverSwept(p: Params, steps: seq<Step>)
    requires Sound(p)
    ensures var s := Exec(p, steps); s.phase.Deleting? ==> !LongBound(p, s, s.phase.at)
  {
    Reachable(p, steps);
  }

  /** Without unbinding the sweeper never gets as far as deleting. */
  lemma {:induction false} AlwaysBoundIsNeverSwept(p: Params, steps: seq<Step>)
    requires Sound(p) && Unbind !in steps
    ensures var s := Exec(p, steps); s.bound && s.boundSince == 0.0 && s.startedAt >= 0.0 && !s.phase.Deleting?
  {
    Reachable(p, steps);
    if steps != [] {
      var front := steps[..|steps| - 1];
      assert Unbind !in front;
      AlwaysBoundIsNeverSwept(p, front);
      BoundInstanceIsNeverSwept(p, steps);
      assert steps[|steps| - 1] in steps;
    }
  }

  // ---- The margin is exact ----

  lemma Advance(p: Params, steps: seq<Step>, step: Step) returns (steps': seq<Step>)
    ensures steps' == steps + [step] && (Unbind !in steps && step != Unbind ==> Unbind !in steps')
    ensures Exec(p, steps') == Do(p, Exec(p, steps), step)
  {
    steps' := steps + [step];
    assert steps'[..|steps|] == steps;
  }

  /** Bound and up since the start, a refresh has just committed. */
  predicate JustRefreshed(s: State, t: real) {
    s == State(t, true, 0.0, true, 0.0, Some(t), None, Some(t), Off)
  }

  lemma Refresh(p: Params, steps: seq<Step>, t: real, t': real) returns (steps': seq<Step>)
    requires p.gap > 0.0 && p.lag >= 0.0 && Unbind !in steps && 0.0 <= t <= t' <= t + p.gap
    requires JustRefreshed(Exec(p, steps), t) || (t == 0.0 && Exec(p, steps) == START)
    ensures Unbind !in steps' && JustRefreshed(Exec(p, steps'), t')
  {
    steps' := Advance(p, steps, Wait(t' - t));
    steps' := Advance(p, steps', ReadClock);
    steps' := Advance(p, steps', CommitRefresh);
  }

  /** A heartbeat every gap keeps the instance refreshed up to any time. */
  lemma {:induction false} Heartbeat(p: Params, t: real, beats: nat) returns (steps: seq<Step>)
    requires p.gap > 0.0 && p.lag >= 0.0 && 0.0 <= t <= (beats as real + 1.0) * p.gap
    ensures Unbind !in steps && JustRefreshed(Exec(p, steps), t)
    decreases beats
  {
    if beats == 0 || t <= p.gap {
      steps := Refresh(p, [], 0.0, t);
    } else {
      steps := Heartbeat(p, t - p.gap, beats - 1);
      steps := Refresh(p, steps, t - p.gap, t);
    }
  }

  lemma EnoughBeats(t: real, gap: real) returns (beats: nat)
    requires t >= 0.0 && gap > 0.0
    ensures t <= (beats as real + 1.0) * gap
  {
    var q := t / gap;
    beats := q.Floor;
    assert q * gap == t;
    Scale(q, beats as real + 1.0, gap);
  }

  lemma Scale(a: real, b: real, c: real)
    requires a <= b && c > 0.0
    ensures a * c <= b * c
  {
  }

  predicate TooTight(p: Params) { p.gap > 0.0 && p.lag >= 0.0 && 0.0 <= p.stale < p.gap + Delay(p) + 1.0 }

  /** A time just before a full second, late enough for the startup grace. */
  lemma JustBeforeASecond(p: Params) returns (t: real)
    requires TooTight(p)
    ensures t >= p.stale && Stale(p, t + Delay(p) + p.gap, t)
  {
    var short := p.gap + Delay(p) + 1.0 - p.stale;
    var eps := if short > 1.0 then 0.5 else short / 2.0;
    var n: int := p.stale.Floor + 1;
    t := n as real + 1.0 - eps;
    assert n as real <= t < n as real + 1.0;
    assert t.Floor == n;
  }

  /** A refresh that reads the clock at `t` and commits one delay later, then one gap. */
  lemma LateRefresh(p: Params, steps: seq<Step>, t: real) returns (steps': seq<Step>)
    requires p.gap > 0.0 && p.lag >= 0.0 && t >= 0.0 && Unbind !in steps && JustRefreshed(Exec(p, steps), t)
    ensures Unbind !in steps'
    ensures Exec(p, steps') == State(t + Delay(p) + p.gap, true, 0.0, true, 0.0, Some(t), None, Some(t + Delay(p)), Off)
  {
    steps' := Advance(p, steps, ReadClock);
    steps' := Advance(p, steps', Wait(Delay(p)));
    steps' := Advance(p, steps', CommitRefresh);
    steps' := Advance(p, steps', Wait(p.gap));
  }

  /** If the margin is missed by anything at all, some run in which the instance is
      never unbound and every refresh is in time ends with the sweeper deleting its
      children: refreshes read the clock just before a full second, commit one delay
      later, and the sweep begins one gap after that. */
  lemma SmallerMarginIsUnsafe(p: Params) returns (steps: seq<Step>)
    requires TooTight(p)
    ensures Unbind !in steps && Exec(p, steps).phase.Deleting? && Exec(p, steps).bound
  {
    var t := JustBeforeASecond(p);
    var beats := EnoughBeats(t, p.gap);
    steps := Heartbeat(p, t, beats);
    steps := LateRefresh(p, steps, t);
    steps := Advance(p, steps, BeginSweep);
    steps := Advance(p, steps, ListRecords);
    steps := Advance(p, steps, Judge);
  }

  /** So the margin is exact: the sweeper never deletes for an instance that is never
      unbound if and only if StaleAfter is at least gap + min(lag, gap) + 1s. */
  lemma MarginIsExact(p: Params)
    requires p.gap > 0.0 && p.lag >= 0.0 && p.stale >= 0.0
    ensures Sound(p) <==> forall steps :: Unbind !in steps ==> !Exec(p, steps).phase.Deleting?
  {
    if Sound(p) {
      forall steps | Unbind !in steps ensures !Exec(p, steps).phase.Deleting? { AlwaysBoundIsNeverSwept(p, steps); }
    } else {
      var steps := SmallerMarginIsUnsafe(p);
    }
  }

  /** An orphan whose last refresh was at time 0, unbound until `t`. */
  lemma OrphanUntil(p: Params, t: real) returns (steps: seq<Step>)
    requires p.lag >= 0.0 && t >= 0.0
    ensures Exec(p, steps) == State(t, true, 0.0, false, 0.0, Some(0.0), None, Some(0.0), Off)
  {
    assert Exec(p, []) == START;
    steps := Advance(p, [], ReadClock);
    steps := Advance(p, steps, CommitRefresh);
    assert Exec(p, steps) == START.(stamp := Some(0.0), lastCommit := Some(0.0));
    steps := Advance(p, steps, Unbind);
    assert Exec(p, steps) == START.(stamp := Some(0.0), lastCommit := Some(0.0), bound := false);
    steps := Advance(p, steps, Wait(t));
  }

  lemma SweepBegins(p: Params, steps: seq<Step>) returns (steps': seq<Step>)
    requires var s := Exec(p, steps);
      s.up && s.phase.Off? && s.now - s.startedAt >= p.stale && s.stamp == Some(0.0) && s.now > p.stale
    ensures Exec(p, steps') == Exec(p, steps).(phase := Deleting(Exec(p, steps).now))
  {
    assert (0.0).Floor == 0;
    steps' := Advance(p, steps, BeginSweep);
    steps' := Advance(p, steps', ListRecords);
    steps' := Advance(p, steps', Judge);
  }

  /** Having been bound for longer than a gap is exact too: for every shorter time `d`
      (negative when the instance comes back during the sweep) some run ends with the
      sweeper deleting for an instance that was bound `d` before the sweep began and
      has refreshed since. */
  lemma RebindingRacesTheSweep(p: Params, d: real) returns (steps: seq<Step>)
    requires Sound(p) && d <= p.gap
    ensures var s := Exec(p, steps);
      s.phase.Deleting? && s.bound && s.boundSince == s.phase.at - d && s.stamp == Some(s.now)
  {
    steps := OrphanUntil(p, p.stale + 1.0);
    if d >= 0.0 {
      steps := Advance(p, steps, Bind);
      steps := Advance(p, steps, Wait(d));
      steps := SweepBegins(p, steps);
    } else {
      steps := SweepBegins(p, steps);
      steps := Advance(p, steps, Wait(-d));
      steps := Advance(p, steps, Bind);
    }
    steps := Advance(p, steps, ReadClock);
    steps := Advance(p, steps, CommitRefresh);
  }

  // ---- Orphans are reclaimed in time ----

  /** Start's ticker: the first tick and each next one come at most an interval later. */
  ghost predicate Ticks(ticks: nat -> real, startedAt: real, interval: real) {
    && ticks(0) <= startedAt + interval
    && (forall k: nat :: NextTick(ticks, interval, k))
  }

  ghost predicate NextTick(ticks: nat -> real, interval: real, k: nat) {
    ticks(k) <= ticks(k + 1) <= ticks(k) + interval
  }

  /** What Sweep checks before it reclaims a record stamped `last`. */
  predicate Reclaims(stale: real, startedAt: real, at: real, last: real) {
    at - startedAt >= stale && at - Truncated(last) > stale
  }

  lemma {:induction false} FirstTickAfter(ticks: nat -> real, startedAt: real, interval: real, t: real, n: nat)
    returns (k: nat)
    requires Ticks(ticks, startedAt, interval) && startedAt <= t < ticks(n)
    ensures k <= n && t < ticks(k) <= t + interval
  {
    if n == 0 || ticks(n - 1) <= t {
      assert n == 0 || NextTick(ticks, interval, n - 1);
      k := n;
    } else {
      k := FirstTickAfter(ticks, startedAt, interval, t, n - 1);
    }
  }

  /** Some sweep reclaims a record that is no longer refreshed, no later than
      max(last refresh, start) + StaleAfter + SweepInterval. */
  lemma OrphanIsReclaimedInTime(ticks: nat -> real, startedAt: real, interval: real, stale: real, last: real, n: nat)
    returns (k: nat)
    requires Ticks(ticks, startedAt, interval) && stale >= 0.0
    requires ticks(n) > Max(last, startedAt) + stale
    ensures Reclaims(stale, startedAt, ticks(k), last) && ticks(k) <= Max(last, startedAt) + stale + interval
  {
    k := FirstTickAfter(ticks, startedAt, interval, Max(last, startedAt) + stale, n);
    assert Truncated(last) <= last;
  }
}
