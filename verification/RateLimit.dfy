/**
 The fixed-window limiter of sign-in attempts: consumeAuthAttempt of
 services/control-api/src/identity-store.js. Times are microseconds, as in the database; JavaScript
 reads them cut to milliseconds.
 */
module RateLimit {
  import opened Options

  datatype Row = Row(started: nat, count: nat)

  const DAY := 24 * 60 * 60 * 1_000_000

  function Micros(windowMs: nat): nat { windowMs * 1000 }

  /** INSERT ... ON CONFLICT DO UPDATE for one key. */
  function Attempt(row: Option<Row>, window: nat, now: nat): (r: Row) {
    if row.None? then Row(now, 1)
    else if row.value.started + window <= now then Row(now, 1)
    else row.value.(count := row.value.count + 1)
  }

  function Max(a: int, b: int): int { if a < b then b else a }

  function CeilDiv(a: int, b: nat): int
    requires b > 0
  {
    -((-a) / b)
  }

  /** The milliseconds that are left, as the code counts them. */
  function Remaining(started: nat, windowMs: nat, clock: nat): int {
    started / 1000 + windowMs - clock / 1000
  }

  function RetryAfterSeconds(started: nat, windowMs: nat, clock: nat): int {
    Max(1, CeilDiv(Remaining(started, windowMs, clock), 1000))
  }

  /** The random cleanup deletes windows that began more than a day ago. */
  function Cleaned(rows: map<string, Row>, now: nat): map<string, Row> {
    map k | k in rows && !(rows[k].started + DAY < now) :: rows[k]
  }

  datatype Verdict = Admitted | Limited(retryAfterSeconds: int) | ConfigurationInvalid

  class AuthRateLimits {
    var rows: map<string, Row>

    constructor ()
      ensures rows == map[]
    {
      rows := map[];
    }

    function RowOf(key: string): Option<Row>
      reads this
    {
      if key in rows then Some(rows[key]) else None
    }

    /** `clock` is the instance's own clock when the answer is made; `cleanup` is the one in a hundred. */
    method ConsumeAuthAttempt(key: string, limit: int, windowMs: int, now: nat, cleanup: bool, clock: nat)
      returns (verdict: Verdict)
      modifies this
      ensures limit < 1 || windowMs < 1 ==> verdict == ConfigurationInvalid && rows == old(rows)
      ensures limit >= 1 && windowMs >= 1 ==>
                var row := Attempt(old(RowOf(key)), Micros(windowMs), now);
                var updated := old(rows)[key := row];
                && rows == (if cleanup then Cleaned(updated, now) else updated)
                && verdict == if row.count <= limit then Admitted
                              else Limited(RetryAfterSeconds(row.started, windowMs, clock))
    {
      if limit < 1 || windowMs < 1 { return ConfigurationInvalid; }
      var row;
      if key !in rows {
        row := Row(now, 1);
      } else {
        var existing := rows[key];
        var over := existing.started + windowMs * 1000 <= now;
        row := Row(if over then now else existing.started, if over then 1 else existing.count + 1);
      }
      rows := rows[key := row];
      if cleanup { rows := Cleaned(rows, now); }
      if row.count > limit { return Limited(RetryAfterSeconds(row.started, windowMs, clock)); }
      return Admitted;
    }
  }

  // ---------------------------------------------------------------- the attempts of one key

  ghost predicate Nondecreasing(ts: seq<nat>) {
    forall i, j :: 0 <= i < j < |ts| ==> ts[i] <= ts[j]
  }

  /** The key's row after the attempts at these times, when nothing is cleaned up. */
  function RowAfter(ts: seq<nat>, window: nat): Option<Row> {
    if ts == [] then None else Some(Attempt(RowAfter(ts[..|ts| - 1], window), window, ts[|ts| - 1]))
  }

  function RowAt(ts: seq<nat>, window: nat, i: nat): Row
    requires i < |ts|
  {
    RowAfter(ts[..i + 1], window).value
  }

  predicate AdmittedAt(ts: seq<nat>, window: nat, limit: nat, i: nat)
    requires i < |ts|
  {
    RowAt(ts, window, i).count <= limit
  }

  lemma RowStep(ts: seq<nat>, window: nat, i: nat)
    requires 0 < i < |ts|
    ensures RowAt(ts, window, i) == Attempt(Some(RowAt(ts, window, i - 1)), window, ts[i])
  {
    assert ts[..i + 1][..i] == ts[..i];
  }

  lemma RowFirst(ts: seq<nat>, window: nat)
    requires ts != []
    ensures RowAt(ts, window, 0) == Row(ts[0], 1)
  {
    var one := ts[..0 + 1];
    assert one[..|one| - 1] == [] && one[|one| - 1] == ts[0];
    assert RowAfter([], window) == None;
  }

  /** The row's window contains the latest attempt. */
  lemma {:induction false} InsideWindow(ts: seq<nat>, window: nat, i: nat)
    requires i < |ts| && window > 0 && Nondecreasing(ts)
    ensures RowAt(ts, window, i).started <= ts[i] < RowAt(ts, window, i).started + window
    ensures RowAt(ts, window, i).count >= 1
  {
    if i == 0 {
      RowFirst(ts, window);
    } else {
      InsideWindow(ts, window, i - 1);
      RowStep(ts, window, i);
    }
  }

  // ---------------------------------------------------------------- at most twice the limit

  /** How many attempts with indices in [lo, hi) are admitted. */
  function CountAdmitted(ts: seq<nat>, window: nat, limit: nat, lo: nat, hi: nat): nat
    requires lo <= hi <= |ts|
  {
    if lo == hi then 0
    else CountAdmitted(ts, window, limit, lo, hi - 1) + if AdmittedAt(ts, window, limit, hi - 1) then 1 else 0
  }

  function Min(a: nat, b: nat): nat { if a < b then a else b }

  /** Still in the first window, or in the one after it. */
  ghost predicate OneOrTwoWindows(ts: seq<nat>, window: nat, limit: nat, lo: nat, hi: nat)
    requires lo < hi <= |ts|
  {
    var row, n := RowAt(ts, window, hi - 1), CountAdmitted(ts, window, limit, lo, hi);
    || (row.started == RowAt(ts, window, lo).started && n <= Min(limit, row.count))
    || (row.started > ts[lo] && n <= limit + Min(limit, row.count))
  }

  lemma {:induction false} CountsStayBelow(ts: seq<nat>, window: nat, limit: nat, lo: nat, hi: nat)
    requires window > 0 && limit > 0 && Nondecreasing(ts) && lo < hi <= |ts| && ts[hi - 1] - ts[lo] <= window
    ensures OneOrTwoWindows(ts, window, limit, lo, hi)
    decreases hi
  {
    hide RowAt;
    InsideWindow(ts, window, lo);
    if hi - 1 == lo {
      assert CountAdmitted(ts, window, limit, lo, lo) == 0;
    } else {
      CountsStayBelow(ts, window, limit, lo, hi - 1);
      RowStep(ts, window, hi - 1);
      InsideWindow(ts, window, hi - 2);
    }
  }

  /** Any closed interval as long as the window admits at most twice the limit. */
  lemma TwiceTheLimit(ts: seq<nat>, window: nat, limit: nat, lo: nat, hi: nat)
    requires window > 0 && limit > 0 && Nondecreasing(ts) && lo <= hi <= |ts|
    requires lo < hi ==> ts[hi - 1] - ts[lo] <= window
    ensures CountAdmitted(ts, window, limit, lo, hi) <= 2 * limit
  {
    if lo < hi { CountsStayBelow(ts, window, limit, lo, hi); }
  }

  function Burst(n: nat, t: nat): seq<nat> {
    seq(n, i => t)
  }

  lemma {:induction false} BurstsCount(window: nat, limit: nat, hi: nat)
    requires window > 0 && limit > 0 && hi <= 2 * limit
    ensures var ts := Burst(limit, 0) + Burst(limit, window);
            && CountAdmitted(ts, window, limit, 0, hi) == hi
            && (hi > 0 ==> RowAt(ts, window, hi - 1) == if hi <= limit then Row(0, hi) else Row(window, hi - limit))
  {
    hide RowAt;
    var ts := Burst(limit, 0) + Burst(limit, window);
    if hi > 0 {
      BurstsCount(window, limit, hi - 1);
      if hi == 1 { RowFirst(ts, window); } else { RowStep(ts, window, hi - 1); }
    }
  }

  /** The bound is reached: as many as the limit at the start of the interval, as many at its end. */
  lemma TwiceTheLimitIsReached(window: nat, limit: nat)
    requires window > 0 && limit > 0
    ensures var ts := Burst(limit, 0) + Burst(limit, window);
            && Nondecreasing(ts) && ts[|ts| - 1] - ts[0] == window
            && CountAdmitted(ts, window, limit, 0, |ts|) == 2 * limit
  {
    BurstsCount(window, limit, 2 * limit);
  }

  // ---------------------------------------------------------------- the cleanup

  /** Cleanups, of any instance, before each attempt: the latest time one ran, if any did. */
  function RowWithCleanups(ts: seq<nat>, cleanups: seq<Option<nat>>, window: nat): Option<Row>
    requires |cleanups| == |ts|
  {
    if ts == [] then None else
    var before := RowWithCleanups(ts[..|ts| - 1], cleanups[..|ts| - 1], window);
    Some(Attempt(Swept(before, cleanups[|ts| - 1]), window, ts[|ts| - 1]))
  }

  function Swept(row: Option<Row>, cleanup: Option<nat>): Option<Row> {
    if row.Some? && cleanup.Some? && row.value.started + DAY < cleanup.value then None else row
  }

  /** The DELETE is that sweep of every key: it forgets windows that began more than 24 hours before, no others. */
  lemma CleanedIsSwept(rows: map<string, Row>, now: nat, key: string)
    ensures Swept(if key in rows then Some(rows[key]) else None, Some(now)) ==
            if key in Cleaned(rows, now) then Some(Cleaned(rows, now)[key]) else None
    ensures key in Cleaned(rows, now) <==> key in rows && now <= rows[key].started + 24 * 3_600_000_000
    ensures key in Cleaned(rows, now) ==> Cleaned(rows, now)[key] == rows[key]
  {
  }

  /** A cleanup runs no later than the attempt that follows it. */
  ghost predicate Timely(ts: seq<nat>, cleanups: seq<Option<nat>>) {
    |cleanups| == |ts| && forall i :: 0 <= i < |ts| ==> (cleanups[i].Some? ==> cleanups[i].value <= ts[i])
  }

  lemma {:induction false} CleanupChangesNothing(ts: seq<nat>, cleanups: seq<Option<nat>>, window: nat)
    requires window <= DAY && Timely(ts, cleanups)
    ensures RowWithCleanups(ts, cleanups, window) == RowAfter(ts, window)
  {
    if ts != [] {
      CleanupChangesNothing(ts[..|ts| - 1], cleanups[..|ts| - 1], window);
    }
  }

  /** A window longer than a day can be ended early by a cleanup. */
  lemma CleanupShows(window: nat)
    requires window > DAY + 1
    ensures var ts, cleanups := [0, DAY + 1], [None, Some(DAY + 1)];
            Timely(ts, cleanups) && RowWithCleanups(ts, cleanups, window) != RowAfter(ts, window)
  {
    var ts, cleanups := [0, DAY + 1], [None, Some(DAY + 1)];
    assert ts[..1] == [0] && cleanups[..1] == [None] && ts[..1][..0] == [] && cleanups[..1][..0] == [];
    assert RowAfter([0], window) == Some(Row(0, 1)) by { assert [0][..0] == []; }
    assert RowWithCleanups([0], [None], window) == Some(Row(0, 1)) by { assert [0][..0] == []; }
  }

  /** The cleanup cannot be observed, whenever it runs, exactly when the window is at most a day. */
  lemma CleanupIsUnobservable(windowMs: nat)
    ensures Micros(windowMs) <= DAY <==>
            forall ts, cleanups :: Timely(ts, cleanups) ==>
              RowWithCleanups(ts, cleanups, Micros(windowMs)) == RowAfter(ts, Micros(windowMs))
  {
    if Micros(windowMs) <= DAY {
      forall ts, cleanups | Timely(ts, cleanups)
        ensures RowWithCleanups(ts, cleanups, Micros(windowMs)) == RowAfter(ts, Micros(windowMs))
      {
        CleanupChangesNothing(ts, cleanups, Micros(windowMs));
      }
    } else {
      CleanupShows(Micros(windowMs));
    }
  }

  // ---------------------------------------------------------------- retry after

  /** The first attempt at or after the window's end opens a new one, and later ones count from it. */
  lemma {:induction false} CountsFromReset(ts: seq<nat>, window: nat, m: nat, j: nat)
    requires window > 0 && Nondecreasing(ts) && m <= j < |ts|
    requires RowAt(ts, window, m) == Row(ts[m], 1) && ts[j] < ts[m] + window
    ensures RowAt(ts, window, j) == Row(ts[m], j - m + 1)
    decreases j
  {
    hide RowAt;
    if m < j {
      CountsFromReset(ts, window, m, j - 1);
      RowStep(ts, window, j);
    }
  }

  /** The rows of one window only count up. */
  lemma {:induction false} CountsUpInWindow(ts: seq<nat>, window: nat, i: nat, j: nat)
    requires window > 0 && Nondecreasing(ts) && i <= j < |ts|
    requires ts[j] < RowAt(ts, window, i).started + window
    ensures RowAt(ts, window, j) == Row(RowAt(ts, window, i).started, RowAt(ts, window, i).count + (j - i))
    decreases j
  {
    hide RowAt;
    if i < j {
      CountsUpInWindow(ts, window, i, j - 1);
      RowStep(ts, window, j);
    }
  }

  /**
   After a rejection at i: an attempt at j, within one window of the first attempt m that comes after the
   rejected window's end, is admitted exactly when fewer than `limit` attempts were made from m on.
   */
  lemma AdmittedAfterReset(ts: seq<nat>, window: nat, limit: nat, i: nat, m: nat, j: nat)
    requires window > 0 && Nondecreasing(ts) && i < m <= j < |ts|
    requires var s := RowAt(ts, window, i).started; ts[m - 1] < s + window <= ts[m]
    requires ts[j] < ts[m] + window
    ensures AdmittedAt(ts, window, limit, j) <==> j - m < limit
  {
    hide RowAt;
    CountsUpInWindow(ts, window, i, m - 1);
    RowStep(ts, window, m);
    CountsFromReset(ts, window, m, j);
  }

  /**
   The time announced with a rejection ends less than a millisecond before the window does, or after it;
   `clock` is read after the rejected attempt was stored.
   */
  lemma RetryAfterReachesWindowEnd(started: nat, windowMs: nat, clock: nat, t: nat)
    requires t >= clock + RetryAfterSeconds(started, windowMs, clock) * 1_000_000
    ensures t + 1000 > started + Micros(windowMs)
  {
  }

  /**
   When a rejection ends: after one at i, every attempt is rejected until the window is over, however many
   come, and the first attempt from then on is admitted.
   */
  lemma RejectedUntilWindowEnds(ts: seq<nat>, window: nat, limit: nat, i: nat, j: nat)
    requires window > 0 && limit > 0 && Nondecreasing(ts) && i < j < |ts| && !AdmittedAt(ts, window, limit, i)
    requires ts[j - 1] < RowAt(ts, window, i).started + window
    ensures AdmittedAt(ts, window, limit, j) <==> ts[j] >= RowAt(ts, window, i).started + window
  {
    hide RowAt;
    CountsUpInWindow(ts, window, i, j - 1);
    RowStep(ts, window, j);
  }

  /** With nobody else in between, that is the next attempt. */
  lemma LoneRetryIsAdmitted(ts: seq<nat>, window: nat, limit: nat, i: nat)
    requires window > 0 && limit > 0 && Nondecreasing(ts) && i + 1 < |ts| && !AdmittedAt(ts, window, limit, i)
    ensures AdmittedAt(ts, window, limit, i + 1) <==> ts[i + 1] >= RowAt(ts, window, i).started + window
  {
    InsideWindow(ts, window, i);
    hide RowAt;
    RejectedUntilWindowEnds(ts, window, limit, i, i + 1);
  }

  /**
   The announced time is too early: whole seconds are left, and the cut to milliseconds took more from
   the window's start than from the clock.
   */
  predicate AnnouncedTooEarly(started: nat, windowMs: nat, clock: nat) {
    var left := Remaining(started, windowMs, clock);
    left > 0 && left % 1000 == 0 && clock % 1000 < started % 1000
  }

  lemma AnnouncedExactly(started: nat, windowMs: nat, clock: nat)
    ensures clock + RetryAfterSeconds(started, windowMs, clock) * 1_000_000 >= started + Micros(windowMs) <==>
              !AnnouncedTooEarly(started, windowMs, clock)
  {
    var left, seconds := Remaining(started, windowMs, clock), RetryAfterSeconds(started, windowMs, clock);
    CeilDivIs(left);
    assert started == 1000 * (started / 1000) + started % 1000;
    assert clock == 1000 * (clock / 1000) + clock % 1000;
    assert clock + seconds * 1_000_000 - started - Micros(windowMs) ==
           1000 * (seconds * 1000 - left) + clock % 1000 - started % 1000;
    if seconds * 1000 == left { assert left % 1000 == 0; }
  }

  lemma CeilDivIs(a: int)
    ensures a <= 1000 * CeilDiv(a, 1000) < a + 1000
    ensures a % 1000 == 0 ==> 1000 * CeilDiv(a, 1000) == a
  {
  }

  /** A lone retry exactly at the announced time is admitted unless that time was announced too early. */
  lemma PunctualRetry(ts: seq<nat>, windowMs: nat, limit: nat, i: nat, clock: nat)
    requires windowMs > 0 && limit > 0 && Nondecreasing(ts) && i + 1 < |ts|
    requires !AdmittedAt(ts, Micros(windowMs), limit, i)
    requires ts[i + 1] == clock + RetryAfterSeconds(RowAt(ts, Micros(windowMs), i).started, windowMs, clock) * 1_000_000
    ensures AdmittedAt(ts, Micros(windowMs), limit, i + 1) <==>
              !AnnouncedTooEarly(RowAt(ts, Micros(windowMs), i).started, windowMs, clock)
  {
    hide RowAt, AnnouncedTooEarly, RetryAfterSeconds, AdmittedAt;
    AnnouncedExactly(RowAt(ts, Micros(windowMs), i).started, windowMs, clock);
    LoneRetryIsAdmitted(ts, Micros(windowMs), limit, i);
  }

  /** Whoever waits a millisecond more, with nobody else trying, is admitted. */
  lemma PatientRetryIsAdmitted(ts: seq<nat>, windowMs: nat, limit: nat, i: nat, clock: nat)
    requires windowMs > 0 && limit > 0 && Nondecreasing(ts) && i + 1 < |ts|
    requires var seconds := RetryAfterSeconds(RowAt(ts, Micros(windowMs), i).started, windowMs, clock);
             ts[i + 1] >= clock + seconds * 1_000_000 + 1000
    ensures AdmittedAt(ts, Micros(windowMs), limit, i + 1)
  {
    var window, s := Micros(windowMs), RowAt(ts, Micros(windowMs), i).started;
    RetryAfterReachesWindowEnd(s, windowMs, clock, ts[i + 1] - 1000);
    InsideWindow(ts, window, i);
    hide RowAt;
    AdmittedAfterReset(ts, window, limit, i, i + 1, i + 1);
  }

  /** It happens: the first attempt at 999 microseconds, and a rejection exactly one second after zero. */
  lemma PunctualRetryCanBeRejected()
    ensures var ts := [999, 1_000_000, 2_000_000];
            && Nondecreasing(ts) && !AdmittedAt(ts, Micros(2000), 1, 1)
            && ts[2] >= ts[1] + RetryAfterSeconds(RowAt(ts, Micros(2000), 1).started, 2000, ts[1]) * 1_000_000
            && !AdmittedAt(ts, Micros(2000), 1, 2)
  {
    var ts := [999, 1_000_000, 2_000_000];
    RowFirst(ts, 2_000_000);
    RowStep(ts, 2_000_000, 1);
    RowStep(ts, 2_000_000, 2);
  }

  /** Nor is a patient retry safe from others, who may use up the new window first. */
  lemma CrowdedRetryCanBeRejected()
    ensures var ts := [0, 500_000, 2_000_000, 4_000_000 - 1];
            && Nondecreasing(ts) && !AdmittedAt(ts, Micros(2000), 1, 1)
            && ts[3] >= ts[1] + RetryAfterSeconds(RowAt(ts, Micros(2000), 1).started, 2000, ts[1]) * 1_000_000 + 1000
            && !AdmittedAt(ts, Micros(2000), 1, 3)
  {
    var ts := [0, 500_000, 2_000_000, 4_000_000 - 1];
    RowFirst(ts, 2_000_000);
    RowStep(ts, 2_000_000, 1);
    RowStep(ts, 2_000_000, 2);
    RowStep(ts, 2_000_000, 3);
  }
}
