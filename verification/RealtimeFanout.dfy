/**
 Realtime delivery of one API instance: the event log that all instances write under the advisory
 lock, retention pruning, the polling drain of services/control-api/src/realtime-events.js, and the
 connections of RealtimeClients. Every SQL statement is a step and so is the code up to the next
 await; the rows of one drained batch are handled one step each, which only adds interleavings.
 */
module RealtimeFanout {
  import opened Options
  import opened RealtimeClients

  /**
   The table is committed[pruned..]. `sequence` is the last value given out by the id sequence;
   `inFlight` is the row the holder of the write lock has inserted and not yet committed.
   */
  datatype Log = Log(now: nat, committed: seq<Row>, pruned: nat, sequence: nat, inFlight: Option<Row>)

  function LastId(rows: seq<Row>): nat {
    if rows == [] then 0 else rows[|rows| - 1].id
  }

  function FirstId(rows: seq<Row>): nat {
    if rows == [] then 0 else rows[0].id
  }

  function Table(log: Log): seq<Row>
    requires log.pruned <= |log.committed|
  {
    log.committed[log.pruned..]
  }

  /** How many leading rows have ids up to the given one. */
  function Index(rows: seq<Row>, id: nat): (k: nat)
    ensures k <= |rows|
    ensures forall j :: k <= j < |rows| ==> rows[j].id > id
    ensures k > 0 ==> rows[k - 1].id <= id
  {
    if rows == [] then 0
    else if rows[|rows| - 1].id <= id then |rows|
    else Index(rows[..|rows| - 1], id)
  }

  function Take(rows: seq<Row>, limit: nat): seq<Row> {
    if |rows| <= limit then rows else rows[..limit]
  }

  // ---------------------------------------------------------------- replayAfter

  predicate HasMarker(rows: seq<Row>) {
    exists r <- rows :: r.event.marker
  }

  /** None is a gap. The table is that of the transaction's snapshot, the sequence is read later. */
  function ReplayAfter(table: seq<Row>, sequence: nat, cursor: int, maxEvents: nat): Option<(seq<Row>, nat)> {
    if cursor < 0 then None else
    var first, latest := FirstId(table), LastId(table);
    if cursor > latest || (first != 0 && cursor < first - 1) || (first == 0 && cursor < sequence) then None else
    var rows := Take(table[Index(table, cursor)..], maxEvents + 1);
    if |rows| > maxEvents || HasMarker(rows) then None else Some((rows, latest))
  }

  ghost predicate IdsWithin(rows: seq<Row>, low: int, high: nat) {
    forall k :: 0 <= k < |rows| ==> low < rows[k].id <= high
  }

  /** Pruning behind the cursor does not change what is beyond it. */
  lemma IndexInTable(rows: seq<Row>, pruned: nat, id: nat)
    requires Increasing(rows) && pruned <= |rows| && (pruned > 0 ==> rows[pruned - 1].id <= id)
    ensures pruned + Index(rows[pruned..], id) == Index(rows, id)
  {
  }

  /**
   replayAfter is exact: without a gap the rows are all events ever committed beyond the cursor, pruned
   ones included, in order, without a marker and no more than maxEvents of them.
   */
  lemma ReplayIsExact(committed: seq<Row>, pruned: nat, sequence: nat, cursor: int, maxEvents: nat)
    requires Increasing(committed) && IdsWithin(committed, 0, sequence) && pruned <= |committed|
    requires ReplayAfter(committed[pruned..], sequence, cursor, maxEvents).Some?
    ensures cursor >= 0
    ensures var (rows, latest) := ReplayAfter(committed[pruned..], sequence, cursor, maxEvents).value;
            && rows == committed[Index(committed, cursor)..] && IdsWithin(rows, cursor, latest)
            && latest == LastId(committed) && |rows| <= maxEvents && !HasMarker(rows)
  {
    hide Index, Take, HasMarker, Increasing;
    var table := committed[pruned..];
    Served(table, sequence, cursor, maxEvents);
    TableEnds(committed, pruned, sequence);
    IndexInTable(committed, pruned, cursor);
    var i := Index(committed, cursor);
    assert table[Index(table, cursor)..] == committed[i..];
    forall k | 0 <= k < |committed[i..]| ensures cursor < committed[i..][k].id <= LastId(committed) {
      IsBelowLast(committed, i + k);
    }
  }

  lemma Served(table: seq<Row>, sequence: nat, cursor: int, maxEvents: nat)
    requires ReplayAfter(table, sequence, cursor, maxEvents).Some?
    ensures 0 <= cursor <= LastId(table)
    ensures FirstId(table) != 0 ==> cursor >= FirstId(table) - 1
    ensures FirstId(table) == 0 ==> cursor >= sequence
    ensures var rows := table[Index(table, cursor)..];
            && ReplayAfter(table, sequence, cursor, maxEvents) == Some((rows, LastId(table)))
            && |rows| <= maxEvents && !HasMarker(rows)
  {
  }

  lemma IsBelowLast(rows: seq<Row>, k: nat)
    requires Increasing(rows) && k < |rows|
    ensures rows[k].id <= LastId(rows)
  {
  }

  /** The table ends where the log ends, unless it is empty; what is pruned is below its first row. */
  lemma TableEnds(committed: seq<Row>, pruned: nat, sequence: nat)
    requires Increasing(committed) && IdsWithin(committed, 0, sequence) && pruned <= |committed|
    ensures var table := committed[pruned..];
            if table == [] then FirstId(table) == 0 && LastId(table) == 0 && LastId(committed) <= sequence
            else FirstId(table) > 0 && LastId(table) == LastId(committed)
    ensures pruned > 0 ==> 1 <= committed[pruned - 1].id <= sequence
    ensures 0 < pruned < |committed| ==> committed[pruned - 1].id < FirstId(committed[pruned..])
    ensures (LastId(committed) == 0 <==> committed == [])
  {
  }

  /** A cursor that is still in the table, with few enough plain events behind it, is always served. */
  lemma RetainedCursorIsServed(table: seq<Row>, sequence: nat, k: nat, maxEvents: nat)
    requires Increasing(table) && IdsWithin(table, 0, sequence)
    requires k < |table| && |table| - 1 - k <= maxEvents && !HasMarker(table[k + 1..])
    ensures ReplayAfter(table, sequence, table[k].id, maxEvents) == Some((table[k + 1..], LastId(table)))
  {
  }

  lemma {:induction false} IndexIs(rows: seq<Row>, id: nat, k: nat)
    requires k <= |rows|
    requires (forall j :: 0 <= j < k ==> rows[j].id <= id) && (forall j :: k <= j < |rows| ==> rows[j].id > id)
    ensures Index(rows, id) == k
  {
    if rows != [] && rows[|rows| - 1].id > id { IndexIs(rows[..|rows| - 1], id, k); }
  }

  /** The cursor is in the table's reach: nothing between it and the table's first row, and not beyond its last. */
  predicate InReach(table: seq<Row>, sequence: nat, cursor: nat) {
    if table == [] then cursor == 0 && sequence == 0
    else table[0].id <= cursor + 1 && cursor <= table[|table| - 1].id
  }

  /**
   When a replay is served: exactly when the cursor is in reach and at most `maxEvents` plain events lie beyond it; it
   gets them all. `k` is where they begin.
   */
  lemma ReplayServedExactly(table: seq<Row>, sequence: nat, cursor: nat, k: nat, maxEvents: nat)
    requires Increasing(table) && IdsWithin(table, 0, sequence) && k <= |table|
    requires forall j :: 0 <= j < k ==> table[j].id <= cursor
    requires forall j :: k <= j < |table| ==> table[j].id > cursor
    ensures ReplayAfter(table, sequence, cursor, maxEvents) ==
            if InReach(table, sequence, cursor) && |table| - k <= maxEvents
               && (forall r <- table[k..] :: !r.event.marker)
            then Some((table[k..], if table == [] then 0 else table[|table| - 1].id))
            else None
  {
    hide Index, Increasing;
    IndexIs(table, cursor, k);
    var rows := Take(table[k..], maxEvents + 1);
    if |table| - k <= maxEvents { assert rows == table[k..]; }
  }

  // ---------------------------------------------------------------- the drain

  /** Which await of #drain comes next. `pruned0`, `pruned1` and `at` are log positions, for the proofs. */
  datatype Drain =
    | Resting
    | BoundsRead(first: nat, latest: nat, pruned0: nat)
    | HighRead(first: nat, latest: nat, high: nat, pruned0: nat)
    | RowsRead(first: nat, latest: nat, high: nat, pruned0: nat, pruned1: nat, at: nat, rows: seq<Row>)
    | Handling(at: nat, rows: seq<Row>)

  /**
   `last` is lastEventId and `start` its first value. The ids it has passed were handed on (to onEvent,
   or to onGap for a marker), jumped by a gap that was raised, or skipped silently.
   */
  datatype Fanout = Fanout(start: nat, last: nat, drain: Drain, handed: set<nat>, jumped: set<nat>, skipped: set<nat>)

  type PeerId = nat

  datatype World = World(log: Log, fanout: Fanout, clients: map<PeerId, Client>)

  const BATCH := 500
  const MAX_REPLAY := 5000

  datatype Action =
    // the writers of all instances, and retention
    | Insert(event: Event)
    | CommitInsert
    | AbandonInsert
    | Prune(upTo: nat)
    // the drain
    | ReadBounds
    | ReadHigh
    | ReadRows
    | HandleRows
    | HandleRow
    | DrainFails
    // the connections
    | Connect(peer: PeerId, principal: Principal, cursor: Option<nat>)
    | Disconnect(peer: PeerId)
    | ReadCursor(peer: PeerId)
    | ReadTables(peer: PeerId)
    | FinishSnapshot(peer: PeerId)
    | ReadReplayBounds(peer: PeerId)
    | ReadReplayRows(peer: PeerId)
    | FinishReplay(peer: PeerId)

  predicate JobOf(w: World, peer: PeerId, job: Job -> bool) {
    peer in w.clients && job(w.clients[peer].job)
  }

  /** A client's cursor was issued by an instance, so it is not beyond the committed events. */
  predicate Enabled(w: World, a: Action) {
    match a
    case Insert(event) => w.log.inFlight.None? && event.written <= w.log.now
    case CommitInsert => w.log.inFlight.Some?
    case AbandonInsert => w.log.inFlight.Some?
    case Prune(upTo) => w.log.pruned <= upTo <= |w.log.committed|
    case ReadBounds => w.fanout.drain.Resting?
    case ReadHigh => w.fanout.drain.BoundsRead?
    case ReadRows => w.fanout.drain.HighRead?
    case HandleRows => w.fanout.drain.RowsRead?
    case HandleRow => w.fanout.drain.Handling?
    case DrainFails => w.fanout.drain.BoundsRead? || w.fanout.drain.HighRead?
    case Connect(peer, _, cursor) => peer !in w.clients && (cursor.Some? ==> cursor.value <= LastId(w.log.committed))
    case Disconnect(peer) => peer in w.clients
    case ReadCursor(peer) => JobOf(w, peer, (j: Job) => j.SnapshotDue?)
    case ReadTables(peer) => JobOf(w, peer, (j: Job) => j.CursorRead?)
    case FinishSnapshot(peer) => JobOf(w, peer, (j: Job) => j.TablesRead?)
    case ReadReplayBounds(peer) => JobOf(w, peer, (j: Job) => j.ReplayDue?)
    case ReadReplayRows(peer) => JobOf(w, peer, (j: Job) => j.ReplayBounds?)
    case FinishReplay(peer) => JobOf(w, peer, (j: Job) => j.ReplayRows?)
  }

  function NextLog(log: Log, a: Action): Log {
    var later := log.(now := log.now + 1);
    match a
    case Insert(event) => later.(sequence := log.sequence + 1, inFlight := Some(Row(log.sequence + 1, event)))
    case CommitInsert =>
      if log.inFlight.Some? then later.(committed := log.committed + [log.inFlight.value], inFlight := None) else later
    case AbandonInsert => later.(inFlight := None)
    case Prune(upTo) => later.(pruned := upTo)
    case _ => later
  }

  function Between(low: nat, high: nat): (ids: set<nat>)
    ensures forall i :: i in ids <==> low < i <= high
    decreases high
  {
    if high <= low then {} else Between(low, high - 1) + {high}
  }

  /** Committed ids before log position `at` that lastEventId has not reached. */
  function Overlooked(log: Log, last: nat, at: nat): set<nat> {
    set k | 0 <= k < |log.committed| && k < at && log.committed[k].id > last :: log.committed[k].id
  }

  predicate BoundsGap(d: Drain, last: nat)
    requires d.RowsRead?
  {
    d.first != 0 && last < d.first - 1
  }

  /** Where HandleRows jumps to, when it raises a gap. */
  function Jump(d: Drain, last: nat): Option<nat>
    requires d.RowsRead?
  {
    if BoundsGap(d, last) then Some(d.latest)
    else if d.rows == [] && last < d.high then Some(d.high)
    else None
  }

  function Jumped(f: Fanout, to: nat): Fanout {
    f.(last := to, jumped := f.jumped + Between(f.last, to), drain := Resting)
  }

  function Handed(f: Fanout, at: nat, rows: seq<Row>, overlooked: set<nat>): Fanout
    requires rows != []
  {
    f.(last := rows[0].id, handed := f.handed + {rows[0].id}, skipped := f.skipped + overlooked,
       drain := if |rows| == 1 then Resting else Handling(at + 1, rows[1..]))
  }

  function NextFanout(log: Log, f: Fanout, a: Action): Fanout
    requires log.pruned <= |log.committed|
  {
    match (a, f.drain)
    case (ReadBounds, Resting) =>
      f.(drain := BoundsRead(FirstId(Table(log)), LastId(Table(log)), log.pruned))
    case (ReadHigh, BoundsRead(first, latest, pruned0)) =>
      f.(drain := HighRead(first, latest, log.sequence, pruned0))
    case (ReadRows, HighRead(first, latest, high, pruned0)) =>
      var at := Max(log.pruned, Index(log.committed, f.last));
      f.(drain := RowsRead(first, latest, high, pruned0, log.pruned, at, Take(log.committed[at..], BATCH)))
    case (HandleRows, RowsRead(_, _, _, _, _, at, rows)) =>
      if Jump(f.drain, f.last).Some? then Jumped(f, Jump(f.drain, f.last).value)
      else if rows == [] then f.(drain := Resting)
      else Handed(f, at, rows, Overlooked(log, f.last, at))
    case (HandleRow, Handling(at, rows)) =>
      if rows == [] then f.(drain := Resting) else Handed(f, at, rows, {})
    case (DrainFails, _) => f.(drain := Resting)
    case _ => f
  }

  /** onEvent or onGap for one client. */
  function HandedTo(c: Client, row: Row): Client {
    if row.event.marker then Gapped(c) else Delivered(c, row)
  }

  function DrainedTo(log: Log, f: Fanout, a: Action, c: Client): Client
    requires log.pruned <= |log.committed|
  {
    match (a, f.drain)
    case (HandleRows, RowsRead(_, _, _, _, _, at, rows)) =>
      if Jump(f.drain, f.last).Some? then Gapped(c)
      else if rows == [] then c
      else HandedTo(c, rows[0])
    case (HandleRow, Handling(at, rows)) =>
      if rows == [] then c else HandedTo(c, rows[0])
    case _ => c
  }

  /** A row in flight that lastEventId has passed: no drain will hand it on. */
  predicate Passed(log: Log, last: nat) {
    log.inFlight.Some? && log.inFlight.value.id <= last
  }

  /** The client's own asynchronous work. */
  function Worked(log: Log, a: Action, c: Client): Client
    requires log.pruned <= |log.committed|
    requires c.job.ReplayBounds? ==> c.job.lo <= c.job.hi <= |log.committed|
  {
    match (a, c.job)
    case (ReadCursor(_), SnapshotDue) => c.(job := CursorRead(LastId(Table(log))))
    case (ReadTables(_), CursorRead(cursor)) => c.(job := TablesRead(cursor, log.now))
    case (FinishSnapshot(_), TablesRead(cursor, readAt)) => FinishedSnapshot(c, cursor, readAt)
    case (ReadReplayBounds(_), ReplayDue(cursor)) =>
      c.(job := ReplayBounds(cursor, log.pruned, |log.committed|, LastId(log.committed)))
    case (ReadReplayRows(_), ReplayBounds(cursor, lo, hi, _)) =>
      var history := ReplayAfter(log.committed[lo..hi], log.sequence, cursor, MAX_REPLAY);
      if history.None? then Resync(c) else c.(job := ReplayRows(cursor, history.value.0, history.value.1))
    case (FinishReplay(_), ReplayRows(_, rows, latest)) => FinishedReplay(c, rows, latest)
    case _ => c
  }

  /**
   A client that comes back is replayed, without a snapshot, exactly when its cursor is in reach and at most 5000 plain
   events lie beyond it in the table its transaction sees.
   */
  lemma ReplayedOrResynced(log: Log, c: Client, p: PeerId, k: nat)
    requires log.pruned <= |log.committed| && c.job.ReplayBounds? && c.job.lo <= c.job.hi <= |log.committed|
    requires Increasing(log.committed[c.job.lo..c.job.hi])
    requires IdsWithin(log.committed[c.job.lo..c.job.hi], 0, log.sequence)
    requires k <= c.job.hi - c.job.lo
    requires var table := log.committed[c.job.lo..c.job.hi];
             && (forall j :: 0 <= j < k ==> table[j].id <= c.job.cursor)
             && (forall j :: k <= j < |table| ==> table[j].id > c.job.cursor)
    ensures var table := log.committed[c.job.lo..c.job.hi];
            Worked(log, ReadReplayRows(p), c) ==
            if InReach(table, log.sequence, c.job.cursor) && |table| - k <= 5000
               && (forall r <- table[k..] :: !r.event.marker)
            then c.(job := ReplayRows(c.job.cursor, table[k..], if table == [] then 0 else table[|table| - 1].id))
            else Resync(c)
  {
    hide ReplayAfter, Increasing;
    ReplayServedExactly(log.committed[c.job.lo..c.job.hi], log.sequence, c.job.cursor, k, MAX_REPLAY);
  }

  predicate Concerned(a: Action, peer: PeerId) {
    match a
    case ReadCursor(p) => p == peer
    case ReadTables(p) => p == peer
    case FinishSnapshot(p) => p == peer
    case ReadReplayBounds(p) => p == peer
    case ReadReplayRows(p) => p == peer
    case FinishReplay(p) => p == peer
    case _ => false
  }

  // ---------------------------------------------------------------- invariants

  /** The write lock makes commit order the order of the ids. */
  ghost predicate LogOk(log: Log) {
    && Increasing(log.committed) && log.pruned <= |log.committed|
    && IdsWithin(log.committed, 0, log.sequence)
    && (forall k :: 0 <= k < |log.committed| ==> log.committed[k].event.written < log.now)
    && (log.inFlight.Some? ==>
          var r := log.inFlight.value;
          r.id == log.sequence && LastId(log.committed) < r.id && r.event.written < log.now)
  }

  ghost predicate DrainOk(log: Log, last: nat, d: Drain) {
    match d
    case Resting => true
    case BoundsRead(first, latest, pruned0) => BoundsOk(log, first, latest, pruned0)
    case HighRead(first, latest, high, pruned0) => BoundsOk(log, first, latest, pruned0) && HighOk(log, high, pruned0)
    case RowsRead(first, latest, high, pruned0, pruned1, at, rows) =>
      && BoundsOk(log, first, latest, pruned0) && HighOk(log, high, pruned0) && pruned0 <= pruned1 <= log.pruned
      && (rows != [] ==>
            && IsSlice(log, at, rows) && pruned1 <= at && rows[0].id > last
            && (pruned1 < at ==> log.committed[at - 1].id <= last))
    case Handling(at, rows) =>
      rows != [] && IsSlice(log, at, rows) && at > 0 && log.committed[at - 1].id == last
  }

  ghost predicate IsSlice(log: Log, at: nat, rows: seq<Row>) {
    at + |rows| <= |log.committed| && rows == log.committed[at..at + |rows|]
  }

  ghost predicate BoundsOk(log: Log, first: nat, latest: nat, pruned0: nat) {
    && pruned0 <= log.pruned <= |log.committed| && first <= latest <= LastId(log.committed)
    && (first != 0 ==> pruned0 < |log.committed| && log.committed[pruned0].id == first)
  }

  /** The sequence was read after the bounds. */
  ghost predicate HighOk(log: Log, high: nat, pruned0: nat) {
    high <= log.sequence && (0 < pruned0 <= |log.committed| ==> log.committed[pruned0 - 1].id <= high)
  }

  ghost predicate Classified(f: Fanout, id: nat) {
    f.start < id <= f.last ==> id in f.handed || id in f.jumped || id in f.skipped
  }

  /** Each id lastEventId has passed is in exactly one of the three sets. */
  ghost predicate FanoutOk(log: Log, f: Fanout) {
    && f.start <= f.last <= log.sequence
    && (forall i :: i in f.handed || i in f.jumped || i in f.skipped ==> f.start < i <= f.last)
    && f.handed !! f.jumped && f.handed !! f.skipped && f.jumped !! f.skipped
    && (forall k :: 0 <= k < |log.committed| ==> Classified(f, log.committed[k].id))
    && (Passed(log, f.last) && f.start < log.inFlight.value.id ==> log.inFlight.value.id in f.jumped)
    && DrainOk(log, f.last, f.drain)
  }

  lemma BelowLast(log: Log, k: nat)
    requires LogOk(log) && k < |log.committed|
    ensures 1 <= log.committed[k].id <= LastId(log.committed) <= log.sequence
    ensures log.inFlight.Some? ==> log.committed[k].id < log.inFlight.value.id
  {
  }

  lemma StepKeepsLog(log: Log, a: Action)
    requires LogOk(log)
    requires a.Insert? ==> log.inFlight.None? && a.event.written <= log.now
    requires a.Prune? ==> log.pruned <= a.upTo <= |log.committed|
    ensures LogOk(NextLog(log, a))
  {
  }

  lemma SliceGrows(log: Log, r: Row, at: nat, rows: seq<Row>)
    requires IsSlice(log, at, rows)
    ensures IsSlice(log.(committed := log.committed + [r]), at, rows)
  {
  }

  lemma BoundsGrow(log: Log, r: Row, first: nat, latest: nat, pruned0: nat)
    requires BoundsOk(log, first, latest, pruned0) && LastId(log.committed) < r.id
    ensures BoundsOk(log.(committed := log.committed + [r]), first, latest, pruned0)
  {
  }

  lemma HighGrows(log: Log, r: Row, first: nat, latest: nat, high: nat, pruned0: nat)
    requires HighOk(log, high, pruned0) && BoundsOk(log, first, latest, pruned0)
    ensures HighOk(log.(committed := log.committed + [r]), high, pruned0)
  {
  }

  lemma CommitKeepsDrain(log: Log, last: nat, d: Drain, r: Row)
    requires LogOk(log) && log.inFlight == Some(r) && DrainOk(log, last, d)
    ensures DrainOk(log.(committed := log.committed + [r]), last, d)
  {
    assert LastId(log.committed) < r.id;
    hide LogOk, IsSlice, BoundsOk, HighOk;
    match d
    case Resting =>
    case BoundsRead(first, latest, pruned0) =>
      BoundsGrow(log, r, first, latest, pruned0);
    case HighRead(first, latest, high, pruned0) =>
      BoundsGrow(log, r, first, latest, pruned0);
      HighGrows(log, r, first, latest, high, pruned0);
    case RowsRead(first, latest, high, pruned0, _, at, rows) =>
      BoundsGrow(log, r, first, latest, pruned0);
      HighGrows(log, r, first, latest, high, pruned0);
      if rows != [] {
        SliceGrows(log, r, at, rows);
        SliceBounds(log, at, rows);
      }
    case Handling(at, rows) =>
      SliceGrows(log, r, at, rows);
      SliceBounds(log, at, rows);
  }

  lemma SliceBounds(log: Log, at: nat, rows: seq<Row>)
    requires IsSlice(log, at, rows)
    ensures at + |rows| <= |log.committed|
    ensures rows != [] ==> rows[0] == log.committed[at]
    ensures rows != [] ==> IsSlice(log, at + 1, rows[1..])
  {
  }

  lemma QuietKeepsDrain(log: Log, next: Log, last: nat, d: Drain)
    requires DrainOk(log, last, d)
    requires next.committed == log.committed && log.pruned <= next.pruned <= |log.committed|
    requires log.sequence <= next.sequence
    ensures DrainOk(next, last, d)
  {
  }

  lemma StepKeepsFanoutInLog(log: Log, f: Fanout, a: Action)
    requires LogOk(log) && FanoutOk(log, f)
    requires a.Insert? ==> log.inFlight.None?
    requires a.Prune? ==> log.pruned <= a.upTo <= |log.committed|
    ensures FanoutOk(NextLog(log, a), f)
  {
    var next := NextLog(log, a);
    if a.CommitInsert? && log.inFlight.Some? {
      CommitKeepsDrain(log, f.last, f.drain, log.inFlight.value);
      QuietKeepsDrain(log.(committed := log.committed + [log.inFlight.value]), next, f.last, f.drain);
    } else {
      QuietKeepsDrain(log, next, f.last, f.drain);
    }
    hide DrainOk;
  }

  // ---------------------------------------------------------------- the drain's own steps

  lemma BoundsKeepFanout(log: Log)
    requires LogOk(log)
    ensures BoundsOk(log, FirstId(Table(log)), LastId(Table(log)), log.pruned)
  {
  }

  lemma HighKeepsFanout(log: Log, pruned0: nat)
    requires LogOk(log) && pruned0 <= |log.committed|
    ensures HighOk(log, log.sequence, pruned0)
  {
  }

  lemma RowsKeepFanout(log: Log, last: nat, first: nat, latest: nat, high: nat, pruned0: nat)
    requires log.pruned <= |log.committed| && DrainOk(log, last, HighRead(first, latest, high, pruned0))
    ensures var at := Max(log.pruned, Index(log.committed, last));
            DrainOk(log, last, RowsRead(first, latest, high, pruned0, log.pruned, at, Take(log.committed[at..], BATCH)))
  {
    hide IsSlice, Index, Take, HighOk;
    var at := Max(log.pruned, Index(log.committed, last));
    TakeIsSlice(log, at);
  }

  lemma ReadsKeepFanout(log: Log, f: Fanout, a: Action)
    requires LogOk(log) && FanoutOk(log, f) && (a.ReadBounds? || a.ReadHigh? || a.ReadRows? || a.DrainFails?)
    ensures FanoutOk(log, NextFanout(log, f, a))
  {
    hide IsSlice, HighOk, Index, Take;
    if a.ReadBounds? && f.drain.Resting? {
      BoundsKeepFanout(log);
    } else if a.ReadHigh? && f.drain.BoundsRead? {
      HighKeepsFanout(log, f.drain.pruned0);
    } else if a.ReadRows? && f.drain.HighRead? {
      RowsKeepFanout(log, f.last, f.drain.first, f.drain.latest, f.drain.high, f.drain.pruned0);
    }
    hide LogOk, BoundsOk;
  }

  lemma TakeIsSlice(log: Log, at: nat)
    requires at <= |log.committed|
    ensures var rows := Take(log.committed[at..], BATCH);
            IsSlice(log, at, rows) && (rows == [] <==> at == |log.committed|)
            && (rows != [] ==> rows[0] == log.committed[at])
  {
  }

  lemma JumpKeepsFanout(log: Log, f: Fanout, to: nat)
    requires LogOk(log) && FanoutOk(log, f) && f.last <= to <= log.sequence
    ensures FanoutOk(log, Jumped(f, to))
  {
  }

  lemma HandKeepsFanout(log: Log, f: Fanout, at: nat, rows: seq<Row>, overlooked: set<nat>)
    requires LogOk(log) && FanoutOk(log, f) && rows != [] && IsSlice(log, at, rows) && rows[0].id > f.last
    requires overlooked == Overlooked(log, f.last, at)
    ensures FanoutOk(log, Handed(f, at, rows, overlooked))
  {
    SliceBounds(log, at, rows);
    var next := Handed(f, at, rows, overlooked);
    BelowLast(log, at);
    OverlookedAreBetween(log, f.last, at);
    forall k | 0 <= k < |log.committed| ensures Classified(next, log.committed[k].id) {
      assert Classified(f, log.committed[k].id);
      if at < k { assert log.committed[at].id < log.committed[k].id; }
      if k < at && log.committed[k].id > f.last { assert log.committed[k].id in overlooked; }
    }
    HandedDrainOk(log, f, at, rows, overlooked);
    hide DrainOk, LogOk, IsSlice, Classified, Overlooked;
  }

  lemma HandedDrainOk(log: Log, f: Fanout, at: nat, rows: seq<Row>, overlooked: set<nat>)
    requires rows != [] && IsSlice(log, at, rows)
    ensures DrainOk(log, rows[0].id, Handed(f, at, rows, overlooked).drain)
  {
  }

  lemma OverlookedAreBetween(log: Log, last: nat, at: nat)
    requires LogOk(log) && at < |log.committed|
    ensures forall i :: i in Overlooked(log, last, at) ==> last < i < log.committed[at].id
    ensures at > 0 && log.committed[at - 1].id > last <==> Overlooked(log, last, at) != {}
  {
    forall k | 0 <= k < at ensures log.committed[k].id < log.committed[at].id { }
    if at > 0 && log.committed[at - 1].id > last { assert log.committed[at - 1].id in Overlooked(log, last, at); }
    if at > 0 && log.committed[at - 1].id <= last {
      forall k | 0 <= k < at ensures log.committed[k].id <= last {
        if k < at - 1 { assert log.committed[k].id < log.committed[at - 1].id; }
      }
    }
  }

  lemma RowsStepKeepsFanout(log: Log, f: Fanout)
    requires LogOk(log) && FanoutOk(log, f) && f.drain.RowsRead?
    ensures FanoutOk(log, NextFanout(log, f, HandleRows))
  {
    hide LogOk, FanoutOk, IsSlice, Overlooked;
    FanoutFacts(log, f);
    LastIsInSequence(log);
    if Jump(f.drain, f.last).Some? {
      JumpKeepsFanout(log, f, Jump(f.drain, f.last).value);
    } else if f.drain.rows != [] {
      HandKeepsFanout(log, f, f.drain.at, f.drain.rows, Overlooked(log, f.last, f.drain.at));
    } else {
      RestKeepsFanout(log, f);
    }
  }

  lemma RowStepKeepsFanout(log: Log, f: Fanout)
    requires LogOk(log) && FanoutOk(log, f) && f.drain.Handling?
    ensures FanoutOk(log, NextFanout(log, f, HandleRow))
  {
    var at, rows := f.drain.at, f.drain.rows;
    assert rows[0].id > f.last && Overlooked(log, f.last, at) == {} by {
      SliceBounds(log, at, rows);
      OverlookedAreBetween(log, f.last, at);
    }
    hide LogOk, FanoutOk, Overlooked;
    FanoutFacts(log, f);
    HandKeepsFanout(log, f, at, rows, {});
  }

  lemma FanoutFacts(log: Log, f: Fanout)
    requires FanoutOk(log, f)
    ensures f.start <= f.last <= log.sequence && DrainOk(log, f.last, f.drain)
  {
  }

  lemma DrainStepKeepsFanout(log: Log, f: Fanout, a: Action)
    requires LogOk(log) && FanoutOk(log, f)
    ensures FanoutOk(log, NextFanout(log, f, a))
  {
    hide FanoutOk, Overlooked, Index, Take, DrainOk;
    if a.HandleRows? && f.drain.RowsRead? {
      RowsStepKeepsFanout(log, f);
    } else if a.HandleRow? && f.drain.Handling? {
      RowStepKeepsFanout(log, f);
    } else if a.ReadBounds? || a.ReadHigh? || a.ReadRows? || a.DrainFails? {
      ReadsKeepFanout(log, f, a);
    }
  }

  lemma LastIsInSequence(log: Log)
    requires LogOk(log)
    ensures LastId(log.committed) <= log.sequence
  {
  }

  lemma RestKeepsFanout(log: Log, f: Fanout)
    requires FanoutOk(log, f)
    ensures FanoutOk(log, f.(drain := Resting))
  {
  }

  // ---------------------------------------------------------------- when a row can be skipped

  /** The rows read start behind ids that were pruned before they were read and never handed on. */
  predicate Races(log: Log, f: Fanout) {
    && f.drain.RowsRead? && f.drain.rows != [] && Jump(f.drain, f.last).None?
    && 0 < f.drain.pruned1 <= |log.committed| && log.committed[f.drain.pruned1 - 1].id > f.last
  }

  /**
   A drained batch skips a committed event silently exactly when the newest event pruned before the rows
   were read is beyond lastEventId and no gap is raised.
   */
  lemma SkipsExactlyInARace(log: Log, f: Fanout)
    requires LogOk(log) && FanoutOk(log, f) && f.drain.RowsRead?
    ensures NextFanout(log, f, HandleRows).skipped != f.skipped <==> Races(log, f)
  {
    var d := f.drain;
    if d.rows != [] && Jump(d, f.last).None? {
      SliceBounds(log, d.at, d.rows);
      OverlookedAreBetween(log, f.last, d.at);
      var overlooked := Overlooked(log, f.last, d.at);
      assert overlooked != {} <==> Races(log, f);
      if overlooked != {} {
        var i :| i in overlooked;
        assert i !in f.skipped;
      }
    }
  }

  /**
   So it takes a deletion between the bounds query and the rows query, or a table that the bounds query saw
   empty while ids beyond lastEventId had been given out, filled again before the rows query.
   */
  lemma RacesAreRare(log: Log, f: Fanout)
    requires LogOk(log) && FanoutOk(log, f) && Races(log, f)
    ensures f.drain.pruned0 < f.drain.pruned1 || (f.drain.first == 0 && f.last < f.drain.high)
  {
  }

  // ---------------------------------------------------------------- when a gap is raised

  /**
   When the bounds were read, the table had rows, and some id right behind lastEventId was not among them: every
   row that was, or came later, is beyond it.
   */
  ghost predicate Hole(log: Log, d: Drain, last: nat)
    requires d.RowsRead?
  {
    d.first != 0 && exists id :: id > last && IsMissing(log, d, id)
  }

  ghost predicate IsMissing(log: Log, d: Drain, id: nat)
    requires d.RowsRead?
  {
    forall k :: d.pruned0 <= k < |log.committed| ==> log.committed[k].id > id
  }

  /**
   A gap is raised, and lastEventId jumps, exactly over a hole, or when no rows are left below the sequence's last
   value; it jumps to the table's last id, or to that value. Otherwise nothing is jumped.
   */
  lemma GapExactlyOverHole(log: Log, f: Fanout)
    requires LogOk(log) && FanoutOk(log, f) && f.drain.RowsRead?
    ensures var d, next := f.drain, NextFanout(log, f, HandleRows);
            && (Hole(log, d, f.last) ==> next.last == d.latest && next.handed == f.handed && next.drain.Resting?)
            && (!Hole(log, d, f.last) && d.rows == [] && f.last < d.high ==>
                  next.last == d.high && next.handed == f.handed && next.drain.Resting?)
            && (Hole(log, d, f.last) || (d.rows == [] && f.last < d.high) ==>
                  forall i :: i in next.jumped <==> i in f.jumped || f.last < i <= next.last)
            && (!Hole(log, d, f.last) && !(d.rows == [] && f.last < d.high) ==> next.jumped == f.jumped)
  {
    var d := f.drain;
    FirstIsSmallest(log, d, f.last);
    hide LogOk, FanoutOk, Hole, IsMissing, Overlooked;
  }

  lemma FirstIsSmallest(log: Log, d: Drain, last: nat)
    requires LogOk(log) && d.RowsRead? && DrainOk(log, last, d)
    ensures Hole(log, d, last) <==> d.first > last + 1
  {
    hide IsSlice, HighOk;
    if d.first > last + 1 {
      assert IsMissing(log, d, last + 1);
    }
    if Hole(log, d, last) {
      var id :| id > last && IsMissing(log, d, id);
      assert log.committed[d.pruned0].id > id;
    }
  }

  /** The drained batch row by row, when nothing interrupts it. */
  function BatchDone(log: Log, f: Fanout): Fanout
    requires log.pruned <= |log.committed|
    decreases if f.drain.Handling? then |f.drain.rows| else 0
  {
    if f.drain.Handling? && f.drain.rows != [] then BatchDone(log, NextFanout(log, f, HandleRow)) else f
  }

  lemma {:induction false} BatchHandsOn(log: Log, f: Fanout)
    requires log.pruned <= |log.committed| && f.drain.Handling? && f.drain.rows != []
    ensures var next := BatchDone(log, f);
            && (forall i :: i in next.handed <==> i in f.handed || exists r <- f.drain.rows :: r.id == i)
            && next.last == f.drain.rows[|f.drain.rows| - 1].id
            && next.jumped == f.jumped && next.skipped == f.skipped && next.drain.Resting?
    decreases |f.drain.rows|
  {
    hide Overlooked, Table, Index, Take;
    var rows := f.drain.rows;
    var g := NextFanout(log, f, HandleRow);
    assert forall r :: r in rows <==> r == rows[0] || r in rows[1..];
    if |rows| > 1 { BatchHandsOn(log, g); }
  }

  /**
   Without a hole every row of the batch is handed on, and lastEventId ends at the last one; nothing is jumped.
   */
  lemma RowsAreHandedOn(log: Log, f: Fanout)
    requires LogOk(log) && FanoutOk(log, f) && f.drain.RowsRead? && f.drain.rows != []
    requires !Hole(log, f.drain, f.last)
    ensures var rows, next := f.drain.rows, BatchDone(log, NextFanout(log, f, HandleRows));
            && (forall i :: i in next.handed <==> i in f.handed || exists r <- rows :: r.id == i)
            && next.last == rows[|rows| - 1].id && next.jumped == f.jumped && next.drain.Resting?
  {
    FirstIsSmallest(log, f.drain, f.last);
    hide LogOk, FanoutOk, Hole, Overlooked, Table, Index, Take;
    var rows := f.drain.rows;
    assert forall r :: r in rows <==> r == rows[0] || r in rows[1..];
    var g := NextFanout(log, f, HandleRows);
    if |rows| > 1 { BatchHandsOn(log, g); }
  }

  /** Where the rows query starts: behind the pruned rows and lastEventId, and nothing lies between. */
  lemma QueryStart(committed: seq<Row>, pruned: nat, last: nat)
    requires Increasing(committed) && pruned <= |committed|
    ensures var at := Max(pruned, Index(committed, last));
            && pruned <= at <= |committed|
            && (forall k :: at <= k < |committed| ==> committed[k].id > last)
            && (forall k :: pruned <= k < at ==> committed[k].id <= last)
  {
    var n := Index(committed, last);
    hide Index;
    forall k | pruned <= k < n ensures committed[k].id <= last {
      if k < n - 1 { assert committed[k].id < committed[n - 1].id; }
    }
  }

  lemma TakeIsBeginning(rows: seq<Row>, limit: nat)
    requires Increasing(rows)
    ensures var some := Take(rows, limit);
            && |some| <= limit && some <= rows && Increasing(some)
            && forall k :: 0 <= k < |rows| ==>
                 rows[k] in some || (|some| == limit && limit > 0 && rows[k].id > some[|some| - 1].id)
                 || limit == 0
  {
    var some := Take(rows, limit);
    forall k | 0 <= k < |some| ensures rows[k] in some { assert rows[k] == some[k]; }
  }

  lemma RestIncreases(committed: seq<Row>, at: nat)
    requires Increasing(committed) && at <= |committed|
    ensures Increasing(committed[at..])
  {
  }

  /** Some rows are the next ones of a table beyond an id: all of them, or the first `limit`. */
  ghost predicate AreNext(table: seq<Row>, last: nat, limit: nat, rows: seq<Row>) {
    && |rows| <= limit && Increasing(rows)
    && (forall r <- rows :: r.id > last && r in table)
    && (forall r <- table :: r.id > last ==> r in rows || (|rows| == limit > 0 && r.id > rows[limit - 1].id))
  }

  lemma BeginningIsNext(skipped: seq<Row>, rest: seq<Row>, last: nat, limit: nat)
    requires limit > 0 && Increasing(rest)
    requires (forall r <- skipped :: r.id <= last) && (forall r <- rest :: r.id > last)
    ensures AreNext(skipped + rest, last, limit, Take(rest, limit))
  {
    hide Take, Increasing;
    TakeIsBeginning(rest, limit);
  }

  /** The rows of a batch are the next ones in the table: all beyond lastEventId, or the first 500 of them. */
  lemma RowsReadAreNext(log: Log, f: Fanout)
    requires LogOk(log) && f.drain.HighRead?
    ensures AreNext(log.committed[log.pruned..], f.last, 500, NextFanout(log, f, ReadRows).drain.rows)
  {
    hide Index, Take, Increasing, AreNext;
    var at := Max(log.pruned, Index(log.committed, f.last));
    var skipped, rest := log.committed[log.pruned..at], log.committed[at..];
    QueryStart(log.committed, log.pruned, f.last);
    RestIncreases(log.committed, at);
    assert log.committed[log.pruned..] == skipped + rest;
    forall r <- skipped ensures r.id <= f.last { }
    BeginningIsNext(skipped, rest, f.last, BATCH);
  }
}
