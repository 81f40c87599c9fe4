// StartWatcher: polls forever, backing off after failures.
module KubeSupervisor {
  import opened Records
  import opened Fleet
  import opened Reconcile
  import opened Polling
  import opened KubeWatcher
  import opened Supervisor

  const MINUTE: int := 60 * SECOND
  const HOUR: int := 60 * MINUTE

  // 1 << n
  function Shifted(n: nat): (r: nat)
    ensures r > 0
  {
    if n == 0 then 1 else 2 * Shifted(n - 1)
  }

  function Min(a: int, b: int): int { if a <= b then a else b }

  function Max(a: int, b: int): int { if a >= b then a else b }

  // The base delay after so many failed polls in a row.
  function Backoff(interval: int, failures: nat): int {
    Min(interval * Shifted(Min(failures, 6)), MINUTE)
  }

  ghost predicate DelayAfter(delay: int, interval: int, failures: nat) {
    if failures == 0 then delay == interval
    else
      var base := Backoff(interval, failures);
      base <= delay < base + Max(base / 4, 1)
  }

  lemma {:induction false} ShiftedGrows(m: nat, n: nat)
    requires m <= n
    ensures Shifted(m) <= Shifted(n)
    decreases n
  {
    if m < n { ShiftedGrows(m, n - 1); }
  }

  // More failures never shorten the base delay, which stays within a minute
  // and within a signed 64-bit duration on the way there.
  lemma BackoffGrows(interval: int, m: nat, n: nat)
    requires 0 < interval <= HOUR && m <= n
    ensures 0 < Backoff(interval, m) <= Backoff(interval, n) <= MINUTE
    ensures interval * Shifted(Min(n, 6)) <= 0x7FFF_FFFF_FFFF_FFFF
  {
    ShiftedGrows(Min(m, 6), Min(n, 6));
    ShiftedGrows(Min(n, 6), 6);
    assert Shifted(6) == 64 by { assert Shifted(3) == 8; }
    Scaled(interval, Shifted(Min(m, 6)), Shifted(Min(n, 6)));
    Scaled(interval, Shifted(Min(n, 6)), 64);
    Scaled(interval, 1, Shifted(Min(m, 6)));
  }

  lemma Scaled(k: int, a: nat, b: nat)
    requires k > 0 && a <= b
    ensures k * a <= k * b
  {
  }

  // The base delay after a failure reaches the interval only for intervals of
  // up to a minute, the cap.
  lemma BackoffSlowsDown(interval: int, failures: nat)
    requires 0 < interval <= HOUR && failures > 0
    ensures Backoff(interval, failures) >= interval <==> interval <= MINUTE
  {
    ShiftedGrows(0, Min(failures, 6));
    Scaled(interval, 1, Shifted(Min(failures, 6)));
  }

  // With the jitter, every wait after a failure is shorter than the healthy
  // interval, so failing makes the watcher poll more often, exactly for
  // intervals from the cap and a quarter on.
  lemma FailuresSpeedUp(interval: int, failures: nat)
    requires 0 < interval <= HOUR && failures > 0
    ensures (forall delay :: DelayAfter(delay, interval, failures) ==> delay < interval) <==> interval >= MINUTE + MINUTE / 4
  {
    var base := Backoff(interval, failures);
    BackoffGrows(interval, 1, failures);
    BackoffSlowsDown(interval, failures);
    if interval >= MINUTE {
      BackoffAtCap(interval, failures);
      assert MINUTE / 4 == 15 * SECOND;
    }
    assert DelayAfter(base + Max(base / 4, 1) - 1, interval, failures);
    hide Backoff;
  }

  lemma BackoffAtCap(interval: int, failures: nat)
    requires interval >= MINUTE && failures > 0
    ensures Backoff(interval, failures) == MINUTE
  {
    ShiftedGrows(0, Min(failures, 6));
    Scaled(interval, 1, Shifted(Min(failures, 6)));
  }

  // What each tick brought, what its poll did and how long the watcher then
  // waited.
  ghost predicate Watched(ticks: seq<Option<seq<Instance>>>, delays: seq<int>, history: seq<Round>, interval: int) {
    && |ticks| == |delays| == |history|
    && (forall i :: 0 <= i < |ticks| ==> Brought(ticks[i], history[i]))
    && (forall i :: 0 <= i < |ticks| ==> DelayAfter(delays[i], interval, FailedInARow(history[..i + 1])))
  }

  lemma WatchedNext(
    ticks: seq<Option<seq<Instance>>>, delays: seq<int>, history: seq<Round>, interval: int,
    tick: Option<seq<Instance>>, delay: int, round: Round)
    requires Watched(ticks, delays, history, interval) && Brought(tick, round)
    requires DelayAfter(delay, interval, FailedInARow(history + [round]))
    ensures Watched(ticks + [tick], delays + [delay], history + [round], interval)
  {
    hide DelayAfter, FailedInARow, Brought;
    var n := |ticks|;
    assert (history + [round])[..n + 1] == history + [round];
    forall i | 0 <= i < n ensures DelayAfter(delays[i], interval, FailedInARow((history + [round])[..i + 1])) {
      assert (history + [round])[..i + 1] == history[..i + 1];
    }
  }

  lemma FailuresNext(history: seq<Round>, round: Round)
    ensures FailedInARow(history + [round]) == if round.Reconciled? then 0 else FailedInARow(history) + 1
  {
    assert (history + [round])[..|history|] == history;
  }

  // Polls once per tick until cancelled. The registries it goes through and
  // what each poll did are a history for the miss counters, and its broadcasts
  // explain all of it.
  method StartWatcher(driver: KubeVirtDriver, ticks: seq<Option<seq<Instance>>>, interval: int)
    returns (delays: seq<int>, ghost r: seq<map<string, Record>>, ghost history: seq<Round>)
    requires driver.Valid() && 0 < interval <= HOUR
    modifies driver.registry, driver.provider, driver.clock
    ensures driver.Valid() && Follows(old(driver.Now()), driver.Now())
    ensures Watched(ticks, delays, history, interval) && Rounds(KubeVirt, r, history, driver.maxAge)
    ensures r[0] == old(driver.registry.records) && r[|history|] == driver.registry.records
  {
    hide RoundRel, Follows, DelayAfter, Watched, Rounds, FailedInARow;
    ghost var start := driver.Now();
    FollowsSelf(start);
    var consecutiveFailures: nat := 0;
    delays, r, history := [], [driver.registry.records], [];
    NothingWatched(driver.registry.records, interval, driver.maxAge);
    for i := 0 to |ticks|
      invariant driver.Valid() && Follows(start, driver.Now())
      invariant Watched(ticks[..i], delays, history, interval) && Rounds(KubeVirt, r, history, driver.maxAge)
      invariant |r| == |history| + 1 && r[0] == start.records && r[|history|] == driver.registry.records
      invariant consecutiveFailures == FailedInARow(history)
    {
      ghost var before := driver.Now();
      ghost var round;
      var ok;
      ok, round := PollOnce(Kube(driver), ticks[i]);
      FollowsTrans(start, before, driver.Now());
      RoundsNext(KubeVirt, r, history, driver.maxAge, driver.registry.records, round);
      FailuresNext(history, round);
      consecutiveFailures := if ok then 0 else consecutiveFailures + 1;
      var delay := NextDelay(interval, consecutiveFailures);
      WatchedNext(ticks[..i], delays, history, interval, ticks[i], delay, round);
      assert ticks[..i + 1] == ticks[..i] + [ticks[i]];
      r, history, delays := r + [driver.registry.records], history + [round], delays + [delay];
    }
    assert ticks[..|ticks|] == ticks;
  }

  lemma NothingWatched(records: map<string, Record>, interval: int, maxAge: int)
    ensures Watched([], [], [], interval) && Rounds(KubeVirt, [records], [], maxAge) && FailedInARow([]) == 0
  {
  }

  method NextDelay(interval: int, failures: nat) returns (delay: int)
    ensures DelayAfter(delay, interval, failures)
  {
    if failures == 0 { return interval; }
    delay := Backoff(interval, failures);
    var jitter :| 0 <= jitter < Max(delay / 4, 1);
    delay := delay + jitter;
  }

  // Polls that failed since the last one that returned nil.
  ghost function FailedInARow(history: seq<Round>): nat
    decreases |history|
  {
    if history == [] || history[|history| - 1].Reconciled? then 0
    else FailedInARow(history[..|history| - 1]) + 1
  }

  // ---- The delays in words ----------------------------------------------------------

  // The first failure doubles the interval, every further one up to the sixth
  // doubles again, and nothing exceeds a minute.
  lemma BackoffDoubles(interval: int, failures: nat)
    requires interval > 0
    ensures Backoff(interval, 1) == Min(2 * interval, 60_000_000_000)
    ensures failures < 6 ==> Backoff(interval, failures + 1) == Min(2 * Backoff(interval, failures), 60_000_000_000)
    ensures failures >= 6 ==> Backoff(interval, failures) == Backoff(interval, 6)
  {
    assert Shifted(1) == 2 * Shifted(0);
    if failures < 6 { assert interval * Shifted(failures + 1) == 2 * (interval * Shifted(failures)); }
  }

  // After a success the watcher waits for the interval, after a failure for the
  // base delay and less than a quarter more.
  lemma DelayInWords(delay: int, interval: int, failures: nat)
    requires interval > 0
    ensures DelayAfter(delay, interval, 0) <==> delay == interval
    ensures failures > 0 && DelayAfter(delay, interval, failures) ==>
              Backoff(interval, failures) <= delay && (Backoff(interval, failures) >= 4 ==> 4 * delay < 5 * Backoff(interval, failures))
  {
    hide Backoff;
  }

  // So many polls at the end of the history failed, and the one before them, if
  // there was one, did not.
  lemma {:induction false} FailedInARowCounts(history: seq<Round>)
    ensures
      var n, k := FailedInARow(history), |history|;
      && n <= k && (forall i :: k - n <= i < k ==> !history[i].Reconciled?)
      && (n < k ==> history[k - n - 1].Reconciled?)
    decreases |history|
  {
    if history != [] {
      var init := history[..|history| - 1];
      FailedInARowCounts(init);
      assert forall i :: 0 <= i < |init| ==> init[i] == history[i];
    }
  }
}
