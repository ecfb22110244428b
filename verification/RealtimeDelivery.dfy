/**
 Whole runs of the realtime delivery of RealtimeFanout: what every step keeps for the drain and for
 each connection, and the runs in which an update is lost.
 */
module RealtimeDelivery {
  import opened Options
  import opened RealtimeClients
  import opened RealtimeFanout

  // ---------------------------------------------------------------- the whole system

  ghost predicate JobsFit(w: World) {
    && w.log.pruned <= |w.log.committed|
    && forall p :: p in w.clients ==> Fits(w.log, w.clients[p].job)
  }

  ghost predicate Fits(log: Log, j: Job) {
    j.ReplayBounds? ==> j.lo <= j.hi <= |log.committed|
  }

  /** The rows there are: the committed ones, and the one in flight. */
  function Existing(log: Log): seq<Row> {
    log.committed + (if log.inFlight.Some? then [log.inFlight.value] else [])
  }

  function MarkerId(r: Row): set<nat> {
    if r.event.marker then {r.id} else {}
  }

  /**
   The ids that a step may take past a client: those a raised gap jumps, those a batch overlooks, a marker
   itself, and at the bounds query of a replay the row in flight that the drain has passed.
   */
  function PassingBy(log: Log, f: Fanout, a: Action, p: PeerId): set<nat> {
    match (a, f.drain)
    case (HandleRows, RowsRead(_, _, _, _, _, at, rows)) =>
      if Jump(f.drain, f.last).Some? then Between(f.last, Jump(f.drain, f.last).value)
      else if rows == [] then {}
      else Overlooked(log, f.last, at) + MarkerId(rows[0])
    case (HandleRow, Handling(at, rows)) => if rows == [] then {} else MarkerId(rows[0])
    case (ReadReplayBounds(q), _) => if q == p && Passed(log, f.last) then {log.inFlight.value.id} else {}
    case _ => {}
  }

  /** Of the ids that pass by, the client misses those that concern it and that nothing brings. */
  ghost function MissedAmong(log: Log, c: Client, ids: set<nat>): set<nat> {
    set r | r in Existing(log) && r.id in ids && Concerns(c, r) && !Accounted(c, r) :: r.id
  }

  ghost function Noted(log: Log, c: Client, ids: set<nat>): Client {
    c.(missed := c.missed + MissedAmong(log, c, ids))
  }

  ghost function NextClient(w: World, a: Action, p: PeerId): Client
    requires JobsFit(w) && p in w.clients
  {
    var c := w.clients[p];
    Noted(w.log, if Concerned(a, p) then Worked(w.log, a, c) else DrainedTo(w.log, w.fanout, a, c),
          PassingBy(w.log, w.fanout, a, p))
  }

  ghost function NextClients(w: World, a: Action): map<PeerId, Client>
    requires JobsFit(w)
  {
    var moved := map p | p in w.clients :: NextClient(w, a, p);
    match a
    case Connect(peer, principal, cursor) => moved[peer := Connected(principal, cursor)]
    case Disconnect(peer) => moved - {peer}
    case _ => moved
  }

  ghost function Step(w: World, a: Action): World
    requires JobsFit(w)
  {
    World(NextLog(w.log, a), NextFanout(w.log, w.fanout, a), NextClients(w, a))
  }

  /** When start() returns: any log, no clients, lastEventId at the sequence's last value. */
  ghost predicate Initial(w: World) {
    && LogOk(w.log) && w.clients == map[]
    && w.fanout == Fanout(w.log.sequence, w.log.sequence, Resting, {}, {}, {})
  }

  ghost predicate IsRun(w: World, actions: seq<Action>, end: World)
    decreases |actions|
  {
    if actions == [] then end == w
    else JobsFit(w) && Enabled(w, actions[0]) && IsRun(Step(w, actions[0]), actions[1..], end)
  }

  // ---------------------------------------------------------------- where an event is for a client

  predicate Concerns(c: Client, r: Row) {
    r.event.marker || Sees(c.principal, r.event)
  }

  /**
   The event is before what the client came with, or its state was written before a finished snapshot read the
   tables.
   */
  predicate Covered(c: Client, r: Row) {
    AtMost(r.id, c.start) || (c.covered.Some? && r.event.written < c.covered.value)
  }

  /** The resync in progress will bring the event. */
  predicate Coming(c: Client, r: Row) {
    match c.job
    case Idle => false
    case TablesRead(_, readAt) => r.event.written < readAt
    case ReplayBounds(_, _, _, upTo) => r.id <= upTo
    case ReplayRows(_, rows, _) => r in rows
    case SnapshotDue => true
    case CursorRead(_) => true
    case ReplayDue(_) => true
  }

  ghost predicate Accounted(c: Client, r: Row) {
    Sent(c, r) || r in c.pending || Covered(c, r) || Coming(c, r)
  }

  /** The drain or the client is past this event. */
  predicate Due(c: Client, last: nat, r: Row) {
    r.id <= last || AtMost(r.id, c.lastSent)
  }

  /** An event that is due is missing exactly when its id is among the missed ones. */
  ghost predicate Told(c: Client, last: nat, r: Row) {
    Due(c, last, r) && Concerns(c, r) ==> (Accounted(c, r) <==> r.id !in c.missed)
  }

  ghost predicate AllTold(log: Log, last: nat, c: Client) {
    forall r :: r in Existing(log) ==> Told(c, last, r)
  }

  /** The missed ids are passed ones, and a resync that is still to read misses nothing. */
  ghost predicate MissedOk(last: nat, c: Client) {
    (forall i :: i in c.missed ==> i <= last) && (Unread(c.job) ==> c.missed == {})
  }

  ghost predicate PendingOk(log: Log, last: nat, c: Client) {
    && Increasing(c.pending)
    && forall k :: 0 <= k < |c.pending| ==>
         c.pending[k].id <= last && c.pending[k].id <= LastId(log.committed) && !AtMost(c.pending[k].id, c.lastSent)
  }

  /** Every committed event between the two ids is among the rows. */
  ghost predicate Complete(log: Log, cursor: nat, latest: nat, rows: seq<Row>) {
    forall k :: 0 <= k < |log.committed| ==> (cursor < log.committed[k].id <= latest ==> log.committed[k] in rows)
  }

  ghost predicate JobOk(log: Log, c: Client) {
    match c.job
    case Idle => c.pending == [] && c.lastSent.Some?
    case SnapshotDue => true
    case CursorRead(cursor) => cursor <= LastId(log.committed)
    case TablesRead(cursor, readAt) =>
      && cursor <= LastId(log.committed) && readAt <= log.now
      && (c.covered.Some? ==> c.covered.value <= readAt)
      && forall k :: 0 <= k < |log.committed| ==>
           (log.committed[k].id <= cursor ==> log.committed[k].event.written < readAt)
    case ReplayDue(cursor) => AtStart(c, cursor)
    case ReplayBounds(cursor, lo, hi, upTo) =>
      AtStart(c, cursor) && lo <= hi <= |log.committed| && upTo == LastId(log.committed[..hi])
    case ReplayRows(cursor, rows, latest) =>
      && AtStart(c, cursor) && latest <= LastId(log.committed) && cursor <= latest
      && Increasing(rows) && IdsWithin(rows, cursor, latest) && !HasMarker(rows)
      && Complete(log, cursor, latest, rows)
  }

  /** Nothing was sent yet: the client stands at the cursor it came with. */
  ghost predicate AtStart(c: Client, cursor: nat) {
    c.start == Some(cursor) && c.lastSent == Some(cursor) && c.wire == [] && c.covered.None?
  }

  /** Everything but what the client was told. */
  ghost predicate Standing(log: Log, last: nat, c: Client) {
    && WireOk(c) && (c.resyncing <==> c.job != Idle)
    && PendingOk(log, last, c) && JobOk(log, c)
    && (c.lastSent.Some? ==> c.lastSent.value <= LastId(log.committed))
    && (c.covered.Some? ==> c.covered.value <= log.now)
    && MissedOk(last, c)
  }

  ghost predicate ClientOk(log: Log, last: nat, c: Client) {
    Standing(log, last, c) && AllTold(log, last, c)
  }

  ghost predicate Inv(w: World) {
    && LogOk(w.log) && FanoutOk(w.log, w.fanout)
    && forall p :: p in w.clients ==> ClientOk(w.log, w.fanout.last, w.clients[p])
  }

  lemma InvJobsFit(w: World)
    requires Inv(w)
    ensures JobsFit(w)
  {
  }

  // ---------------------------------------------------------------- the log moves on

  lemma LogGrowsForJob(log: Log, c: Client, r: Row)
    requires LogOk(log) && log.inFlight == Some(r) && JobOk(log, c)
    ensures JobOk(log.(committed := log.committed + [r]), c)
  {
  }

  lemma TimePassesForJob(log: Log, next: Log, c: Client)
    requires JobOk(log, c) && next.committed == log.committed && next.now >= log.now
    ensures JobOk(next, c)
  {
  }

  lemma NewRowIsNotDue(log: Log, last: nat, c: Client)
    requires LogOk(log) && last <= log.sequence
    requires c.lastSent.Some? ==> c.lastSent.value <= LastId(log.committed)
    ensures forall r: Row :: r.id > log.sequence ==> !Due(c, last, r)
  {
    if log.committed != [] { BelowLast(log, |log.committed| - 1); }
  }

  lemma ToldMovesOn(log: Log, a: Action, last: nat, c: Client)
    requires LogOk(log) && AllTold(log, last, c) && last <= log.sequence
    requires c.lastSent.Some? ==> c.lastSent.value <= LastId(log.committed)
    requires a.Insert? ==> log.inFlight.None?
    ensures AllTold(NextLog(log, a), last, c)
  {
    NewRowIsNotDue(log, last, c);
    hide Due, Concerns, Accounted, LogOk;
    forall r | r in Existing(NextLog(log, a)) ensures Told(c, last, r) {
      if r in Existing(log) { assert Told(c, last, r); }
    }
  }

  lemma StandingMovesOn(log: Log, a: Action, last: nat, c: Client)
    requires LogOk(log) && Standing(log, last, c)
    ensures Standing(NextLog(log, a), last, c)
  {
    var next := NextLog(log, a);
    if a.CommitInsert? && log.inFlight.Some? {
      LogGrowsForJob(log, c, log.inFlight.value);
      TimePassesForJob(log.(committed := log.committed + [log.inFlight.value]), next, c);
      assert LastId(log.committed) <= LastId(next.committed);
    } else {
      TimePassesForJob(log, next, c);
    }
    hide JobOk, WireOk, LogOk, MissedOk;
  }

  lemma ClientMovesOn(log: Log, a: Action, last: nat, c: Client)
    requires LogOk(log) && ClientOk(log, last, c) && last <= log.sequence
    requires a.Insert? ==> log.inFlight.None?
    ensures ClientOk(NextLog(log, a), last, c)
  {
    hide LogOk, AllTold, WireOk, JobOk, PendingOk, MissedOk;
    StandingMovesOn(log, a, last, c);
    ToldMovesOn(log, a, last, c);
  }

  // ---------------------------------------------------------------- who is told what

  /** What a step has to see to: of the ids passing by it need not say. */
  ghost predicate ToldBut(c: Client, last: nat, ids: set<nat>, r: Row) {
    Due(c, last, r) && Concerns(c, r) ==>
      && (r.id in c.missed ==> !Accounted(c, r))
      && (!Accounted(c, r) ==> r.id in c.missed || r.id in ids)
  }

  ghost predicate AllToldBut(log: Log, last: nat, ids: set<nat>, c: Client) {
    forall r :: r in Existing(log) ==> ToldBut(c, last, ids, r)
  }

  lemma IdsAreUnique(log: Log, r: Row, q: Row)
    requires LogOk(log) && r in Existing(log) && q in Existing(log) && r.id == q.id
    ensures r == q
  {
    if r in log.committed {
      var k :| 0 <= k < |log.committed| && log.committed[k] == r;
      BelowLast(log, k);
      if q in log.committed {
        var j :| 0 <= j < |log.committed| && log.committed[j] == q;
      }
    } else if q in log.committed {
      var k :| 0 <= k < |log.committed| && log.committed[k] == q;
      BelowLast(log, k);
    }
  }

  /** What Noted notes, event by event. */
  lemma NotedExactly(log: Log, c: Client, ids: set<nat>, r: Row)
    requires LogOk(log) && r in Existing(log)
    ensures r.id in Noted(log, c, ids).missed <==>
              r.id in c.missed || (r.id in ids && Concerns(c, r) && !Accounted(c, r))
  {
    hide LogOk, Existing, Concerns, Accounted;
    if r.id in MissedAmong(log, c, ids) {
      var q :| q in Existing(log) && q.id == r.id && q.id in ids && Concerns(c, q) && !Accounted(c, q);
      IdsAreUnique(log, r, q);
    }
  }

  lemma NotedIsAccounted(log: Log, c: Client, ids: set<nat>, last: nat, r: Row)
    ensures var d := Noted(log, c, ids);
            && (Accounted(d, r) <==> Accounted(c, r)) && (Due(d, last, r) <==> Due(c, last, r))
            && (Concerns(d, r) <==> Concerns(c, r))
  {
    hide MissedAmong;
  }

  lemma NotedStanding(log: Log, last: nat, c: Client, ids: set<nat>)
    requires Standing(log, last, c) && forall i :: i in ids ==> i <= last
    ensures Standing(log, last, Noted(log, c, ids))
  {
    hide Existing, Concerns, LastId, HasMarker, Increasing, InOrder;
    if Unread(c.job) {
      assert MissedAmong(log, c, ids) == {};
    }
  }

  lemma NotedIsOk(log: Log, last: nat, c: Client, ids: set<nat>)
    requires LogOk(log) && Standing(log, last, c) && AllToldBut(log, last, ids, c)
    requires forall i :: i in ids ==> i <= last
    ensures ClientOk(log, last, Noted(log, c, ids))
  {
    hide LogOk, Existing, Standing, Noted, Due, Concerns, Accounted;
    NotedStanding(log, last, c, ids);
    forall r | r in Existing(log) ensures Told(Noted(log, c, ids), last, r) {
      assert ToldBut(c, last, ids, r);
      NotedExactly(log, c, ids, r);
      NotedIsAccounted(log, c, ids, last, r);
    }
  }

  lemma NothingToNote(log: Log, c: Client)
    ensures Noted(log, c, {}) == c
  {
    assert MissedAmong(log, c, {}) == {};
  }

  lemma UnreadIsTold(log: Log, last: nat, c: Client, ids: set<nat>)
    requires Unread(c.job) && c.missed == {}
    ensures AllToldBut(log, last, ids, c)
  {
  }

  // ---------------------------------------------------------------- gaps and rows

  /** Who is passed by keeps all, but for the ids newly passed. */
  lemma PassedByIsTold(log: Log, last: nat, to: nat, c: Client, ids: set<nat>)
    requires AllTold(log, last, c) && MissedOk(last, c) && last <= to
    requires forall r :: r in Existing(log) && last < r.id <= to ==> r.id in ids
    ensures AllToldBut(log, to, ids, c)
  {
    hide Existing, Concerns, Accounted;
    forall r | r in Existing(log) ensures ToldBut(c, to, ids, r) {
      assert Told(c, last, r);
    }
  }

  lemma GapKeepsStanding(log: Log, last: nat, to: nat, c: Client)
    requires Standing(log, last, c) && last <= to
    ensures Standing(log, to, Gapped(c))
  {
  }

  /** A gap moves lastEventId forward; who has not read the tables yet, or starts to, is safe. */
  lemma GapKeepsClient(log: Log, last: nat, to: nat, c: Client, ids: set<nat>)
    requires LogOk(log) && ClientOk(log, last, c) && last <= to && forall i :: i in ids ==> i <= to
    requires forall r :: r in Existing(log) && last < r.id <= to ==> r.id in ids
    ensures ClientOk(log, to, Noted(log, Gapped(c), ids))
  {
    hide LogOk, Existing, Standing, AllTold, AllToldBut, ClientOk, Noted;
    SplitOk(log, last, c);
    GapKeepsStanding(log, last, to, c);
    if c.resyncing {
      PassedByIsTold(log, last, to, c, ids);
    } else {
      UnreadIsTold(log, to, Gapped(c), ids);
    }
    NotedIsOk(log, to, Gapped(c), ids);
  }

  lemma SplitOk(log: Log, last: nat, c: Client)
    requires ClientOk(log, last, c)
    ensures Standing(log, last, c) && AllTold(log, last, c) && MissedOk(last, c)
  {
  }

  lemma DeliveredKeepsStanding(log: Log, last: nat, c: Client, r: Row)
    requires Standing(log, last, c) && last < r.id <= LastId(log.committed) && !r.event.marker
    ensures Standing(log, r.id, Delivered(c, r))
  {
    hide InOrder, Position, HasMarker;
    if Sees(c.principal, r.event) && !AtMost(r.id, c.lastSent) && !c.resyncing {
      SendKeepsWire(c, r);
    }
  }

  /** A delivered event is sent or buffered; nothing else changes for the client. */
  lemma DeliveryTells(c: Client, last: nat, r: Row, q: Row, ids: set<nat>)
    requires Told(c, last, q) && MissedOk(last, c) && last < r.id && !r.event.marker
    requires c.resyncing <==> c.job != Idle
    requires q.id == r.id ==> q == r
    requires last < q.id < r.id ==> q.id in ids
    ensures ToldBut(Delivered(c, r), r.id, ids, q)
  {
  }

  lemma BetweenAreOverlooked(log: Log, last: nat, at: nat, q: Row)
    requires LogOk(log) && at < |log.committed| && q in Existing(log) && last < q.id < log.committed[at].id
    ensures q.id in Overlooked(log, last, at)
  {
    if q in log.committed {
      var k :| 0 <= k < |log.committed| && log.committed[k] == q;
      assert k < at;
    } else {
      BelowLast(log, at);
    }
  }

  lemma DeliveredIsTold(log: Log, last: nat, c: Client, at: nat, ids: set<nat>)
    requires LogOk(log) && ClientOk(log, last, c) && at < |log.committed| && last < log.committed[at].id
    requires !log.committed[at].event.marker
    requires Overlooked(log, last, at) <= ids
    ensures AllToldBut(log, log.committed[at].id, ids, Delivered(c, log.committed[at]))
  {
    var r := log.committed[at];
    assert r in Existing(log);
    hide LogOk, WireOk, PendingOk, JobOk, MissedOk, Overlooked, ToldBut, Told, Delivered;
    forall q | q in Existing(log) ensures ToldBut(Delivered(c, r), r.id, ids, q) {
      if q.id == r.id { IdsAreUnique(log, q, r); }
      if last < q.id < r.id { BetweenAreOverlooked(log, last, at, q); }
      assert Told(c, last, q);
      DeliveryTells(c, last, r, q, ids);
    }
  }

  /** The next row: of the rows newly passed, the client is told of all but the overlooked ones. */
  lemma HandedKeepsClient(log: Log, last: nat, c: Client, at: nat)
    requires LogOk(log) && ClientOk(log, last, c) && at < |log.committed| && last < log.committed[at].id
    ensures var r := log.committed[at];
            ClientOk(log, r.id, Noted(log, HandedTo(c, r), Overlooked(log, last, at) + MarkerId(r)))
  {
    var r := log.committed[at];
    var ids := Overlooked(log, last, at) + MarkerId(r);
    BelowLast(log, at);
    OverlookedAreBetween(log, last, at);
    SplitOk(log, last, c);
    hide LogOk, ClientOk, Overlooked, Delivered, Gapped, Noted, Standing, AllTold, AllToldBut, MissedOk, Existing;
    if r.event.marker {
      forall q | q in Existing(log) && last < q.id <= r.id ensures q.id in ids {
        if q.id < r.id { BetweenAreOverlooked(log, last, at, q); }
      }
      GapKeepsClient(log, last, r.id, c, ids);
    } else {
      DeliveredKeepsStanding(log, last, c, r);
      DeliveredIsTold(log, last, c, at, ids);
      NotedIsOk(log, r.id, Delivered(c, r), ids);
    }
  }

  lemma JumpKeepsClient(log: Log, f: Fanout, c: Client)
    requires LogOk(log) && FanoutOk(log, f) && ClientOk(log, f.last, c)
    requires f.drain.RowsRead? && Jump(f.drain, f.last).Some?
    ensures var to := Jump(f.drain, f.last).value;
            ClientOk(log, to, Noted(log, Gapped(c), Between(f.last, to)))
  {
    assert DrainOk(log, f.last, f.drain);
    var to := Jump(f.drain, f.last).value;
    assert f.last <= to;
    hide ClientOk, LogOk, FanoutOk, Existing, Gapped, Noted;
    GapKeepsClient(log, f.last, to, c, Between(f.last, to));
  }

  /** The first row of a batch, or a later one. */
  lemma RowKeepsClient(log: Log, f: Fanout, c: Client, at: nat, rows: seq<Row>)
    requires LogOk(log) && ClientOk(log, f.last, c) && rows != [] && IsSlice(log, at, rows) && f.last < rows[0].id
    ensures ClientOk(log, rows[0].id, Noted(log, HandedTo(c, rows[0]), Overlooked(log, f.last, at) + MarkerId(rows[0])))
  {
    SliceBounds(log, at, rows);
    hide ClientOk, LogOk, Overlooked, IsSlice, HandedTo, Noted;
    HandedKeepsClient(log, f.last, c, at);
  }

  lemma NothingOverlooked(log: Log, f: Fanout, at: nat, rows: seq<Row>)
    requires LogOk(log) && f.drain == Handling(at, rows) && DrainOk(log, f.last, f.drain)
    ensures f.last < rows[0].id && Overlooked(log, f.last, at) == {}
  {
    SliceBounds(log, at, rows);
    assert log.committed[at - 1].id < log.committed[at].id;
    OverlookedAreBetween(log, f.last, at);
  }

  /** A step that jumps, hands on the first row of a batch, or a later one; no other step reaches the clients. */
  predicate Jumps(f: Fanout, a: Action) {
    a.HandleRows? && f.drain.RowsRead? && Jump(f.drain, f.last).Some?
  }

  predicate HandsFirst(f: Fanout, a: Action) {
    a.HandleRows? && f.drain.RowsRead? && Jump(f.drain, f.last).None? && f.drain.rows != []
  }

  predicate HandsNext(f: Fanout, a: Action) {
    a.HandleRow? && f.drain.Handling? && f.drain.rows != []
  }

  lemma DrainSteps(log: Log, f: Fanout, a: Action, c: Client, p: PeerId)
    requires log.pruned <= |log.committed| && !Concerned(a, p)
    ensures var last, d, ids := NextFanout(log, f, a).last, DrainedTo(log, f, a, c), PassingBy(log, f, a, p);
            if Jumps(f, a) then
              var to := Jump(f.drain, f.last).value;
              last == to && d == Gapped(c) && ids == Between(f.last, to)
            else if HandsFirst(f, a) then
              && last == f.drain.rows[0].id && d == HandedTo(c, f.drain.rows[0])
              && ids == Overlooked(log, f.last, f.drain.at) + MarkerId(f.drain.rows[0])
            else if HandsNext(f, a) then
              last == f.drain.rows[0].id && d == HandedTo(c, f.drain.rows[0]) && ids == MarkerId(f.drain.rows[0])
            else
              last == f.last && d == c && ids == {}
  {
    hide Overlooked, HandedTo, Gapped, Table, Index, Take, Between;
  }

  lemma DrainIsOk(log: Log, f: Fanout)
    requires FanoutOk(log, f)
    ensures DrainOk(log, f.last, f.drain)
  {
  }

  lemma PrunedIsCommitted(log: Log)
    requires LogOk(log)
    ensures log.pruned <= |log.committed|
  {
  }

  lemma FirstRowIsNext(log: Log, f: Fanout)
    requires FanoutOk(log, f) && f.drain.RowsRead? && f.drain.rows != []
    ensures IsSlice(log, f.drain.at, f.drain.rows) && f.last < f.drain.rows[0].id
  {
    DrainIsOk(log, f);
    hide IsSlice, BoundsOk, HighOk, FanoutOk;
  }

  lemma FirstRowKeepsClient(log: Log, f: Fanout, c: Client)
    requires LogOk(log) && FanoutOk(log, f) && ClientOk(log, f.last, c)
    requires f.drain.RowsRead? && f.drain.rows != []
    ensures var row := f.drain.rows[0];
            ClientOk(log, row.id, Noted(log, HandedTo(c, row), Overlooked(log, f.last, f.drain.at) + MarkerId(row)))
  {
    hide ClientOk, LogOk, FanoutOk, IsSlice, HandedTo, Noted, Overlooked, DrainOk, MarkerId;
    FirstRowIsNext(log, f);
    RowKeepsClient(log, f, c, f.drain.at, f.drain.rows);
  }

  lemma NextRowKeepsClient(log: Log, f: Fanout, c: Client)
    requires LogOk(log) && FanoutOk(log, f) && ClientOk(log, f.last, c)
    requires f.drain.Handling? && f.drain.rows != []
    ensures var row := f.drain.rows[0];
            ClientOk(log, row.id, Noted(log, HandedTo(c, row), MarkerId(row)))
  {
    hide ClientOk, LogOk, FanoutOk, IsSlice, HandedTo, Noted, Overlooked, MarkerId, BoundsOk, HighOk;
    DrainIsOk(log, f);
    NothingOverlooked(log, f, f.drain.at, f.drain.rows);
    RowKeepsClient(log, f, c, f.drain.at, f.drain.rows);
    assert {} + MarkerId(f.drain.rows[0]) == MarkerId(f.drain.rows[0]);
  }

  lemma DrainKeepsClient(log: Log, f: Fanout, a: Action, c: Client, p: PeerId)
    requires LogOk(log) && FanoutOk(log, f) && ClientOk(log, f.last, c) && !Concerned(a, p)
    ensures ClientOk(log, NextFanout(log, f, a).last, Noted(log, DrainedTo(log, f, a, c), PassingBy(log, f, a, p)))
  {
    hide ClientOk, LogOk, FanoutOk, HandedTo, Gapped, Noted, Overlooked, NextFanout, DrainedTo, PassingBy, Concerned,
         MarkerId;
    PrunedIsCommitted(log);
    DrainSteps(log, f, a, c, p);
    if Jumps(f, a) {
      JumpKeepsClient(log, f, c);
    } else if HandsFirst(f, a) {
      FirstRowKeepsClient(log, f, c);
    } else if HandsNext(f, a) {
      NextRowKeepsClient(log, f, c);
    } else {
      NothingToNote(log, c);
    }
  }

  // ---------------------------------------------------------------- the client's own work

  lemma ReadCursorKeepsClient(log: Log, last: nat, c: Client)
    requires LogOk(log) && ClientOk(log, last, c) && c.job.SnapshotDue?
    ensures ClientOk(log, last, c.(job := CursorRead(LastId(Table(log)))))
  {
    hide WireOk, PendingOk, Concerns, Existing;
    SameWireOk(c, c.(job := CursorRead(LastId(Table(log)))));
  }

  lemma ExistingIsWritten(log: Log, r: Row)
    requires LogOk(log) && r in Existing(log)
    ensures r.event.written < log.now && r.id <= log.sequence
  {
    if r in log.committed {
      var k :| 0 <= k < |log.committed| && log.committed[k] == r;
    }
  }

  /** Everything there is by now was written before the tables are read. */
  lemma ReadTablesKeepsClient(log: Log, last: nat, c: Client, cursor: nat)
    requires LogOk(log) && ClientOk(log, last, c) && c.job == CursorRead(cursor)
    ensures ClientOk(log, last, c.(job := TablesRead(cursor, log.now)))
  {
    hide WireOk, PendingOk, Concerns, Existing, Due;
    var d := c.(job := TablesRead(cursor, log.now));
    SameWireOk(c, d);
    forall r | r in Existing(log) ensures Told(d, last, r) { ExistingIsWritten(log, r); }
  }

  /** What is committed now will be replayed. */
  lemma BoundsTell(log: Log, last: nat, c: Client, cursor: nat, r: Row)
    requires LogOk(log) && ClientOk(log, last, c) && c.job == ReplayDue(cursor) && r in Existing(log)
    ensures var d := Worked(log, ReadReplayBounds(0), c);
            && (Accounted(d, r) <==> r in log.committed)
            && (Due(d, last, r) && r !in log.committed ==> Passed(log, last) && r == log.inFlight.value)
  {
    hide Increasing, WireOk;
    var d := Worked(log, ReadReplayBounds(0), c);
    if r in log.committed {
      var k :| 0 <= k < |log.committed| && log.committed[k] == r;
      BelowLast(log, k);
    } else {
      assert log.inFlight == Some(r);
      assert r !in c.pending;
    }
  }

  lemma ReadReplayBoundsKeepsClient(log: Log, f: Fanout, c: Client, cursor: nat, p: PeerId)
    requires LogOk(log) && ClientOk(log, f.last, c) && c.job == ReplayDue(cursor)
    ensures var a := ReadReplayBounds(p);
            ClientOk(log, f.last, Noted(log, Worked(log, a, c), PassingBy(log, f, a, p)))
  {
    var d := Worked(log, ReadReplayBounds(0), c);
    var ids := PassingBy(log, f, ReadReplayBounds(p), p);
    assert log.committed[..|log.committed|] == log.committed;
    assert Standing(log, f.last, d);
    hide LogOk, Standing, ClientOk, Existing, Due, Accounted, Concerns, WireOk;
    forall r | r in Existing(log) ensures ToldBut(d, f.last, ids, r) {
      BoundsTell(log, f.last, c, cursor, r);
    }
    NotedIsOk(log, f.last, d, ids);
  }

  lemma ReadReplayRowsKeepsClient(log: Log, last: nat, c: Client, cursor: nat, lo: nat, hi: nat, upTo: nat)
    requires LogOk(log) && ClientOk(log, last, c) && c.job == ReplayBounds(cursor, lo, hi, upTo)
    requires log.pruned <= |log.committed| && lo <= hi <= |log.committed|
    ensures ClientOk(log, last, Worked(log, ReadReplayRows(0), c))
  {
    hide ReplayAfter, LogOk, ClientOk, FinishedSnapshot, FinishedReplay, Resync, Passed, Table, LastId;
    if ReplayAfter(log.committed[lo..hi], log.sequence, cursor, MAX_REPLAY).None? {
      ResyncKeepsClient(log, last, c);
    } else {
      HistoryKeepsClient(log, last, c, cursor, lo, hi, upTo);
    }
  }

  lemma ResyncKeepsClient(log: Log, last: nat, c: Client)
    requires ClientOk(log, last, c)
    ensures ClientOk(log, last, Resync(c))
  {
    hide Concerns, Existing, Increasing;
  }

  lemma HistoryKeepsClient(log: Log, last: nat, c: Client, cursor: nat, lo: nat, hi: nat, upTo: nat)
    requires LogOk(log) && ClientOk(log, last, c) && c.job == ReplayBounds(cursor, lo, hi, upTo)
    requires ReplayAfter(log.committed[lo..hi], log.sequence, cursor, MAX_REPLAY).Some?
    ensures var history := ReplayAfter(log.committed[lo..hi], log.sequence, cursor, MAX_REPLAY).value;
            ClientOk(log, last, c.(job := ReplayRows(cursor, history.0, history.1)))
  {
    hide WireOk, PendingOk, HasMarker, ReplayAfter, LogOk, Increasing, IdsWithin, Told, Complete, Existing;
    ReplayHistory(log, cursor, lo, hi);
    var (rows, latest) := ReplayAfter(log.committed[lo..hi], log.sequence, cursor, MAX_REPLAY).value;
    var d := c.(job := ReplayRows(cursor, rows, latest));
    SameWireOk(c, d);
    forall r | r in Existing(log) ensures Told(d, last, r) {
      assert Told(c, last, r);
      HistoryTells(log, c, rows, latest, r);
      SameToldness(c, d, last, r);
    }
  }

  lemma SameWireOk(c: Client, d: Client)
    requires d == c.(job := d.job)
    ensures WireOk(c) ==> WireOk(d)
    ensures forall log, last :: PendingOk(log, last, c) ==> PendingOk(log, last, d)
  {
  }

  lemma SameToldness(c: Client, d: Client, last: nat, r: Row)
    requires d == c.(job := d.job) && (Accounted(c, r) <==> Accounted(d, r)) && Told(c, last, r)
    ensures Told(d, last, r)
  {
    hide Accounted;
  }

  /** The rows of the history are those the bounds announced. */
  lemma HistoryTells(log: Log, c: Client, rows: seq<Row>, latest: nat, r: Row)
    requires LogOk(log) && r in Existing(log)
    requires c.job.ReplayBounds? && AtStart(c, c.job.cursor) && c.job.upTo == latest <= LastId(log.committed)
    requires IdsWithin(rows, c.job.cursor, latest) && Complete(log, c.job.cursor, latest, rows)
    ensures Accounted(c, r) <==> Accounted(c.(job := ReplayRows(c.job.cursor, rows, latest)), r)
  {
    if r in log.committed {
      var k :| 0 <= k < |log.committed| && log.committed[k] == r;
    }
  }

  /** The beginning of a log is a log. */
  lemma PrefixInOrder(rows: seq<Row>, hi: nat, high: nat)
    requires Increasing(rows) && IdsWithin(rows, 0, high) && hi <= |rows|
    ensures Increasing(rows[..hi]) && IdsWithin(rows[..hi], 0, high) && LastId(rows[..hi]) <= LastId(rows)
    ensures forall k :: 0 <= k < |rows| ==> (rows[k].id <= LastId(rows[..hi]) <==> k < hi)
  {
  }

  lemma SuffixInOrder(rows: seq<Row>, cursor: nat)
    requires Increasing(rows)
    ensures Increasing(rows[Index(rows, cursor)..])
    ensures forall k :: 0 <= k < |rows| && rows[k].id > cursor ==> rows[k] in rows[Index(rows, cursor)..]
  {
  }

  lemma SuffixIsComplete(log: Log, cursor: nat, hi: nat)
    requires LogOk(log) && hi <= |log.committed|
    ensures var upTo := log.committed[..hi];
            var rows := upTo[Index(upTo, cursor)..];
            Complete(log, cursor, LastId(upTo), rows) && Increasing(rows) && LastId(upTo) <= LastId(log.committed)
    ensures Increasing(log.committed[..hi]) && IdsWithin(log.committed[..hi], 0, log.sequence)
  {
    hide Index, IdsWithin, Increasing, LastId;
    var upTo := log.committed[..hi];
    PrefixInOrder(log.committed, hi, log.sequence);
    SuffixInOrder(upTo, cursor);
    forall k | 0 <= k < |log.committed| && cursor < log.committed[k].id <= LastId(upTo)
      ensures log.committed[k] in upTo[Index(upTo, cursor)..]
    {
      assert log.committed[k] == upTo[k];
    }
  }

  /** The history of a replay, as part of the log when it is decided. */
  lemma ReplayHistory(log: Log, cursor: nat, lo: nat, hi: nat)
    requires LogOk(log) && lo <= hi <= |log.committed|
    requires ReplayAfter(log.committed[lo..hi], log.sequence, cursor, MAX_REPLAY).Some?
    ensures var (rows, latest) := ReplayAfter(log.committed[lo..hi], log.sequence, cursor, MAX_REPLAY).value;
            && latest == LastId(log.committed[..hi]) <= LastId(log.committed) && cursor <= latest
            && Increasing(rows) && IdsWithin(rows, cursor, latest) && !HasMarker(rows)
            && Complete(log, cursor, latest, rows)
  {
    hide ReplayAfter, HasMarker, Index, IdsWithin, Increasing, LogOk, LastId, Complete;
    var upTo := log.committed[..hi];
    assert upTo[lo..] == log.committed[lo..hi];
    SuffixIsComplete(log, cursor, hi);
    ReplayIsExact(upTo, lo, log.sequence, cursor, MAX_REPLAY);
    CursorIsServed(upTo, lo, log.sequence, cursor);
  }

  lemma CursorIsServed(rows: seq<Row>, lo: nat, sequence: nat, cursor: nat)
    requires lo <= |rows| && ReplayAfter(rows[lo..], sequence, cursor, MAX_REPLAY).Some?
    requires Increasing(rows) && IdsWithin(rows, 0, sequence)
    ensures cursor <= LastId(rows)
  {
    hide ReplayAfter, Index;
    Served(rows[lo..], sequence, cursor, MAX_REPLAY);
    TableEnds(rows, lo, sequence);
  }

  // ---------------------------------------------------------------- the end of a resync

  /** What a finished snapshot leaves: the buffer is sent, or older than the cursor. */
  lemma SnapshotSends(c: Client, cursor: nat, readAt: nat)
    requires Increasing(c.pending)
    ensures var d := FinishedSnapshot(c, cursor, readAt);
            && d == c.(wire := d.wire, lastSent := d.lastSent, pending := [], covered := Some(readAt),
                       resyncing := false, job := Idle)
            && (forall r :: Sent(c, r) ==> Sent(d, r))
            && (forall p <- c.pending :: Sent(d, p) || p.id <= cursor)
            && d.lastSent == Some(if c.pending == [] then cursor else Max(cursor, c.pending[|c.pending| - 1].id))
  {
    var e := c.(wire := c.wire + [Snapshot(cursor)], lastSent := Some(cursor), covered := Some(readAt));
    FlushSends(e);
    hide Flushed, Increasing;
    var f := Flushed(e);
    assert FinishedSnapshot(c, cursor, readAt) == f.(resyncing := false, job := Idle);
    assert forall r :: Sent(c, r) ==> Sent(e, r);
  }

  lemma SnapshotTells(log: Log, last: nat, c: Client, cursor: nat, readAt: nat, q: Row)
    requires c.job == TablesRead(cursor, readAt) && Told(c, last, q) && PendingOk(log, last, c) && MissedOk(last, c)
    requires c.covered.Some? ==> c.covered.value <= readAt
    requires q.id <= cursor ==> q.event.written < readAt
    ensures Told(FinishedSnapshot(c, cursor, readAt), last, q)
  {
    var d := FinishedSnapshot(c, cursor, readAt);
    SnapshotSends(c, cursor, readAt);
    if Sent(d, q) { SnapshotSendsOnly(c, cursor, readAt, q); }
    hide Sent, Flushed, FinishedSnapshot, Increasing;
    if c.pending != [] { assert c.pending[|c.pending| - 1].id <= last; }
  }

  lemma FinishSnapshotKeepsStanding(log: Log, last: nat, c: Client, cursor: nat, readAt: nat)
    requires Standing(log, last, c) && c.job == TablesRead(cursor, readAt)
    ensures Standing(log, last, FinishedSnapshot(c, cursor, readAt))
  {
    SnapshotSends(c, cursor, readAt);
    SnapshotKeepsWire(c, cursor, readAt);
    hide WireOk, FinishedSnapshot, HasMarker;
    if c.pending != [] { assert c.pending[|c.pending| - 1].id <= LastId(log.committed); }
  }

  lemma ReadBeforeCursor(log: Log, c: Client, cursor: nat, readAt: nat, q: Row)
    requires LogOk(log) && JobOk(log, c) && c.job == TablesRead(cursor, readAt) && q in Existing(log)
    ensures q.id <= cursor ==> q.event.written < readAt
  {
    if q in log.committed {
      var k :| 0 <= k < |log.committed| && log.committed[k] == q;
    }
  }

  /** What a finished snapshot drops from the buffer is older than its cursor, so its state was read. */
  lemma FinishSnapshotKeepsClient(log: Log, last: nat, c: Client, cursor: nat, readAt: nat)
    requires LogOk(log) && ClientOk(log, last, c) && c.job == TablesRead(cursor, readAt)
    ensures ClientOk(log, last, FinishedSnapshot(c, cursor, readAt))
  {
    var d := FinishedSnapshot(c, cursor, readAt);
    FinishSnapshotKeepsStanding(log, last, c, cursor, readAt);
    assert c.covered.Some? ==> c.covered.value <= readAt;
    hide WireOk, LogOk, JobOk, PendingOk, MissedOk, Told, FinishedSnapshot, Existing;
    forall q | q in Existing(log) ensures Told(d, last, q) {
      assert Told(c, last, q);
      ReadBeforeCursor(log, c, cursor, readAt, q);
      SnapshotTells(log, last, c, cursor, readAt, q);
    }
  }

  /** What a finished replay leaves: its rows that concern the client and the buffer are sent. */
  lemma ReplaySends(c: Client, rows: seq<Row>, cursor: nat, latest: nat)
    requires AtStart(c, cursor) && cursor <= latest
    requires Increasing(rows) && IdsWithin(rows, cursor, latest) && Increasing(c.pending)
    ensures var d := FinishedReplay(c, rows, latest);
            && d == c.(wire := d.wire, lastSent := d.lastSent, pending := [], resyncing := false, job := Idle)
            && (forall r :: Sent(c, r) ==> Sent(d, r))
            && (forall p <- c.pending :: Sent(d, p) || p.id <= latest)
            && (forall r <- rows :: c.principal.Legacy? ==> Sent(d, r))
            && (forall r <- rows | c.principal.User? && r.event.organization.Some? ::
                  r.event.organization.value in c.principal.organizations ==> Sent(d, r))
            && d.lastSent.Some?
            && (d.lastSent == Some(latest) || exists p <- c.pending :: d.lastSent == Some(p.id))
  {
    forall r <- rows ensures cursor < r.id <= latest { }
    RowsAreSent(c, rows);
    AfterKeeps(c.pending, latest);
    var d := SentRows(c, rows);
    var kept := After(d.pending, latest);
    var e := d.(wire := d.wire + [CursorFrame(latest)], lastSent := Some(latest), pending := kept);
    assert FinishedReplay(c, rows, latest) == Flushed(e).(resyncing := false, job := Idle);
    hide SentRows, After, Increasing, IdsWithin;
    assert forall r :: Sent(d, r) ==> Sent(e, r);
    FlushSends(e);
    hide Flushed, Sent;
    if kept != [] { assert kept[|kept| - 1] in kept; }
  }

  lemma ReplayTells(log: Log, last: nat, c: Client, q: Row)
    requires Standing(log, last, c) && c.job.ReplayRows? && Told(c, last, q)
    requires q.id <= c.job.latest && q.id > c.job.cursor ==> q in c.job.rows
    ensures Told(FinishedReplay(c, c.job.rows, c.job.latest), last, q)
  {
    var rows, latest := c.job.rows, c.job.latest;
    var d := FinishedReplay(c, rows, latest);
    ReplaySends(c, rows, c.job.cursor, latest);
    if Sent(d, q) { ReplaySendsOnly(c, rows, latest, q); }
    forall p <- c.pending ensures p.id <= last { }
    forall r <- rows ensures !r.event.marker { }
    hide WireOk, JobOk, PendingOk, FinishedReplay, Sent, HasMarker;
  }

  lemma FinishReplayKeepsStanding(log: Log, last: nat, c: Client)
    requires Standing(log, last, c) && c.job.ReplayRows?
    ensures Standing(log, last, FinishedReplay(c, c.job.rows, c.job.latest))
  {
    ReplaySends(c, c.job.rows, c.job.cursor, c.job.latest);
    ReplayKeepsWire(c, c.job.rows, c.job.latest);
    forall p <- c.pending ensures p.id <= LastId(log.committed) { }
    hide WireOk, FinishedReplay, HasMarker;
  }

  lemma HistoryHasAll(log: Log, c: Client, q: Row)
    requires LogOk(log) && JobOk(log, c) && c.job.ReplayRows? && q in Existing(log)
    ensures q.id <= c.job.latest && q.id > c.job.cursor ==> q in c.job.rows
  {
    if q in log.committed {
      var k :| 0 <= k < |log.committed| && log.committed[k] == q;
    }
  }

  /** Replayed, pending and live events together leave nothing out. */
  lemma FinishReplayKeepsClient(log: Log, last: nat, c: Client)
    requires LogOk(log) && ClientOk(log, last, c) && c.job.ReplayRows?
    ensures ClientOk(log, last, FinishedReplay(c, c.job.rows, c.job.latest))
  {
    var d := FinishedReplay(c, c.job.rows, c.job.latest);
    FinishReplayKeepsStanding(log, last, c);
    SplitOk(log, last, c);
    assert JobOk(log, c);
    hide Standing, LogOk, JobOk, Told, FinishedReplay, Existing;
    forall q | q in Existing(log) ensures Told(d, last, q) {
      assert Told(c, last, q);
      HistoryHasAll(log, c, q);
      ReplayTells(log, last, c, q);
    }
  }

  // ---------------------------------------------------------------- every step

  lemma WorkKeepsClient(log: Log, f: Fanout, a: Action, c: Client, p: PeerId)
    requires LogOk(log) && ClientOk(log, f.last, c) && Concerned(a, p) && (a.ReadReplayBounds? ==> c.job.ReplayDue?)
    ensures (c.job.ReplayBounds? ==> c.job.lo <= c.job.hi <= |log.committed|)
    ensures ClientOk(log, f.last, Noted(log, Worked(log, a, c), PassingBy(log, f, a, p)))
  {
    hide LogOk, ClientOk, Noted;
    FitsJob(log, f.last, c);
    if a.ReadReplayBounds? {
      ReadReplayBoundsKeepsClient(log, f, c, c.job.cursor, p);
    } else {
      NothingToNote(log, Worked(log, a, c));
      OtherWorkKeepsClient(log, f.last, a, c);
    }
  }

  lemma OtherWorkKeepsClient(log: Log, last: nat, a: Action, c: Client)
    requires LogOk(log) && ClientOk(log, last, c) && !a.ReadReplayBounds?
    requires log.pruned <= |log.committed| && Fits(log, c.job)
    ensures ClientOk(log, last, Worked(log, a, c))
  {
    hide LogOk, ClientOk;
    match (a, c.job)
    case (ReadCursor(_), SnapshotDue) => ReadCursorKeepsClient(log, last, c);
    case (ReadTables(_), CursorRead(cursor)) => ReadTablesKeepsClient(log, last, c, cursor);
    case (FinishSnapshot(_), TablesRead(cursor, readAt)) => FinishSnapshotKeepsClient(log, last, c, cursor, readAt);
    case (ReadReplayRows(_), ReplayBounds(cursor, lo, hi, upTo)) =>
      ReadReplayRowsKeepsClient(log, last, c, cursor, lo, hi, upTo);
    case (FinishReplay(_), ReplayRows(_, _, _)) => FinishReplayKeepsClient(log, last, c);
    case _ =>
  }

  lemma FitsJob(log: Log, last: nat, c: Client)
    requires LogOk(log) && ClientOk(log, last, c)
    ensures log.pruned <= |log.committed| && Fits(log, c.job)
  {
  }

  lemma NewClientOk(log: Log, last: nat, principal: Principal, cursor: Option<nat>)
    requires cursor.Some? ==> cursor.value <= LastId(log.committed)
    ensures ClientOk(log, last, Connected(principal, cursor))
  {
  }

  lemma NextClientOk(w: World, a: Action, p: PeerId)
    requires Inv(w) && JobsFit(w) && Enabled(w, a) && p in w.clients
    ensures ClientOk(w.log, NextFanout(w.log, w.fanout, a).last, NextClient(w, a, p))
  {
    var c := w.clients[p];
    assert ClientOk(w.log, w.fanout.last, c);
    hide LogOk, ClientOk, FanoutOk;
    if Concerned(a, p) {
      WorkKeepsClient(w.log, w.fanout, a, c, p);
    } else {
      DrainKeepsClient(w.log, w.fanout, a, c, p);
    }
  }

  lemma StepKeepsInv(w: World, a: Action)
    requires Inv(w) && Enabled(w, a)
    ensures JobsFit(w) && Inv(Step(w, a))
  {
    InvJobsFit(w);
    var next := Step(w, a);
    StepKeepsLog(w.log, a);
    DrainStepKeepsFanout(w.log, w.fanout, a);
    StepKeepsFanoutInLog(w.log, next.fanout, a);
    forall p | p in next.clients ensures ClientOk(next.log, next.fanout.last, next.clients[p]) {
      hide LogOk, ClientOk, NextFanout, NextClient, NextLog, Connected;
      if p in w.clients {
        NextClientOk(w, a, p);
        ClientMovesOn(w.log, a, next.fanout.last, NextClient(w, a, p));
      } else {
        NewClientOk(w.log, next.fanout.last, a.principal, a.cursor);
        ClientMovesOn(w.log, a, next.fanout.last, Connected(a.principal, a.cursor));
      }
    }
  }

  lemma {:induction false} EveryRunKeepsInv(w: World, actions: seq<Action>, end: World)
    requires Inv(w) && IsRun(w, actions, end)
    ensures Inv(end)
    decreases |actions|
  {
    if actions != [] {
      StepKeepsInv(w, actions[0]);
      EveryRunKeepsInv(Step(w, actions[0]), actions[1..], end);
    }
  }

  lemma InitialInv(w: World)
    requires Initial(w)
    ensures Inv(w)
  {
  }

  // ---------------------------------------------------------------- when an update is missed

  /** The step raises a gap over this id: it jumps the id, or the id is a marker's own. */
  predicate GapOver(f: Fanout, a: Action, id: nat) {
    || (Jumps(f, a) && f.last < id <= Jump(f.drain, f.last).value)
    || ((HandsFirst(f, a) || HandsNext(f, a)) && f.drain.rows[0].event.marker && id == f.drain.rows[0].id)
  }

  /** The batch skips this id without a gap, for a client that does not start a resync with its first row. */
  predicate SkippedFor(log: Log, f: Fanout, a: Action, c: Client, id: nat) {
    HandsFirst(f, a) && id in Overlooked(log, f.last, f.drain.at) && (c.resyncing || !f.drain.rows[0].event.marker)
  }

  /** The drain passes the event, and nothing brings it to this client. */
  ghost predicate DrainedPast(log: Log, f: Fanout, a: Action, c: Client, r: Row) {
    && Concerns(c, r) && !Accounted(c, r)
    && ((GapOver(f, a, r.id) && c.resyncing) || SkippedFor(log, f, a, c, r.id))
  }

  /**
   The three ways to miss an event: a gap is raised over it while the client is in a resync that read too
   early to bring it, a batch skips it, or the client's replay reads its bounds while the event is in flight and
   lastEventId has passed it already.
   */
  ghost predicate Mishap(w: World, a: Action, p: PeerId, r: Row)
    requires p in w.clients
  {
    || DrainedPast(w.log, w.fanout, a, w.clients[p], r)
    || (a == ReadReplayBounds(p) && Concerns(w.clients[p], r) && w.log.inFlight == Some(r) && r.id <= w.fanout.last)
  }

  ghost predicate MishapOf(w: World, a: Action, p: PeerId, id: nat) {
    p in w.clients && exists r :: r in Existing(w.log) && r.id == id && Mishap(w, a, p, r)
  }

  function MissedOf(w: World, p: PeerId): set<nat> {
    if p in w.clients then w.clients[p].missed else {}
  }

  /** The client is connected and its resync, if it is in one, has read what it will bring. */
  predicate HasRead(w: World, p: PeerId) {
    p in w.clients && !Unread(w.clients[p].job)
  }

  /** The client's own work drops nothing and misses nothing, but for a replay's bounds. */
  lemma WorkMisses(log: Log, f: Fanout, a: Action, c: Client, p: PeerId, r: Row)
    requires LogOk(log) && ClientOk(log, f.last, c) && Concerned(a, p) && Fits(log, c.job) && r in Existing(log)
    requires a.ReadReplayBounds? ==> c.job.ReplayDue?
    ensures var next := Noted(log, Worked(log, a, c), PassingBy(log, f, a, p));
            r.id in next.missed <==>
              && !Unread(next.job)
              && (r.id in c.missed
                  || (a == ReadReplayBounds(p) && Concerns(c, r) && log.inFlight == Some(r) && r.id <= f.last))
  {
    var ids := PassingBy(log, f, a, p);
    NotedExactly(log, Worked(log, a, c), ids, r);
    if a.ReadReplayBounds? {
      BoundsTell(log, f.last, c, c.job.cursor, r);
      if Passed(log, f.last) && r.id == log.inFlight.value.id { IdsAreUnique(log, r, log.inFlight.value); }
      InFlightIsNew(log);
      hide LogOk, WireOk, PendingOk, JobOk, AllTold, Accounted, Existing;
    } else {
      WorkKeepsMissed(log, f.last, a, c);
      hide LogOk, WireOk, PendingOk, JobOk, AllTold, Accounted, Existing, Worked;
    }
  }

  lemma InFlightIsNew(log: Log)
    requires LogOk(log)
    ensures log.inFlight.Some? ==> log.inFlight.value !in log.committed
  {
  }

  lemma WorkKeepsMissed(log: Log, last: nat, a: Action, c: Client)
    requires LogOk(log) && Standing(log, last, c) && Fits(log, c.job)
    ensures var d := Worked(log, a, c);
            d.missed == if Unread(d.job) then {} else c.missed
  {
    hide ReplayAfter, FinishedSnapshot, FinishedReplay;
    match (a, c.job)
    case (FinishSnapshot(_), TablesRead(cursor, readAt)) => SnapshotSends(c, cursor, readAt);
    case (FinishReplay(_), ReplayRows(cursor, rows, latest)) => ReplaySends(c, rows, cursor, latest);
    case _ =>
  }

  lemma DeliveryIsAccounted(c: Client, r: Row, q: Row)
    requires q != r
    ensures Accounted(Delivered(c, r), q) <==> Accounted(c, q)
  {
  }

  lemma PlainRowMisses(log: Log, last: nat, c: Client, at: nat, r: Row)
    requires LogOk(log) && ClientOk(log, last, c) && at < |log.committed| && last < log.committed[at].id
    requires r in Existing(log) && !log.committed[at].event.marker
    ensures var ids := Overlooked(log, last, at) + MarkerId(log.committed[at]);
            var next := Noted(log, Delivered(c, log.committed[at]), ids);
            r.id in next.missed <==>
              !Unread(next.job)
              && (r.id in c.missed || (Concerns(c, r) && !Accounted(c, r) && r.id in Overlooked(log, last, at)))
  {
    var row := log.committed[at];
    var ids := Overlooked(log, last, at) + MarkerId(row);
    SplitOk(log, last, c);
    OverlookedAreBetween(log, last, at);
    if r != row { DeliveryIsAccounted(c, row, r); }
    hide LogOk, Standing, AllTold, Existing, Overlooked, Accounted, ClientOk, Noted;
    NotedExactly(log, Delivered(c, row), ids, r);
    NotedKeepsJob(log, Delivered(c, row), ids);
    if Unread(c.job) { UnreadIsAccounted(c, r); }
  }

  lemma MarkerMisses(log: Log, last: nat, c: Client, at: nat, r: Row)
    requires LogOk(log) && ClientOk(log, last, c) && at < |log.committed| && last < log.committed[at].id
    requires r in Existing(log) && log.committed[at].event.marker
    ensures var row, ids := log.committed[at], Overlooked(log, last, at) + MarkerId(log.committed[at]);
            var next := Noted(log, Gapped(c), ids);
            r.id in next.missed <==>
              !Unread(next.job)
              && (r.id in c.missed
                  || (Concerns(c, r) && !Accounted(c, r) && c.resyncing
                      && (r.id in Overlooked(log, last, at) || r.id == row.id)))
  {
    var row := log.committed[at];
    var ids := Overlooked(log, last, at) + MarkerId(row);
    SplitOk(log, last, c);
    hide LogOk, Standing, AllTold, Existing, Overlooked, Accounted, ClientOk, Noted;
    NotedExactly(log, Gapped(c), ids, r);
    NotedKeepsJob(log, Gapped(c), ids);
    if !c.resyncing { UnreadIsAccounted(Gapped(c), r); }
    if Unread(c.job) { UnreadIsAccounted(c, r); }
  }

  /**
   When a resync comes too late for an event that lastEventId has not reached: the tables were read before its
   state was written, or the replay ends before it.
   */
  lemma TooLateForResync(log: Log, last: nat, c: Client, r: Row)
    requires LogOk(log) && ClientOk(log, last, c) && r in Existing(log) && r.id > last
    requires c.resyncing && !Unread(c.job)
    ensures !Accounted(c, r) <==>
              !AtMost(r.id, c.start)
              && match c.job
                 case TablesRead(_, readAt) => !Sent(c, r) && readAt <= r.event.written
                 case ReplayBounds(_, _, _, upTo) => upTo < r.id
                 case ReplayRows(_, _, latest) => latest < r.id
                 case _ => false
  {
    assert JobOk(log, c) && PendingOk(log, last, c);
    assert r !in c.pending;
    if c.job.ReplayRows? { HistoryHasAll(log, c, r); }
    hide LogOk, WireOk, PendingOk, AllTold, MissedOk, HasMarker, Increasing, Complete, Existing;
  }

  /** What the next row of a batch makes the client miss. */
  lemma HandingMisses(log: Log, last: nat, c: Client, at: nat, r: Row)
    requires LogOk(log) && ClientOk(log, last, c) && at < |log.committed| && last < log.committed[at].id
    requires r in Existing(log)
    ensures var row := log.committed[at];
            var next := Noted(log, HandedTo(c, row), Overlooked(log, last, at) + MarkerId(row));
            r.id in next.missed <==>
              !Unread(next.job)
              && (r.id in c.missed
                  || (Concerns(c, r) && !Accounted(c, r) && (c.resyncing || !row.event.marker)
                      && (r.id in Overlooked(log, last, at) || (row.event.marker && r.id == row.id))))
  {
    hide LogOk, Existing, Overlooked, Accounted, ClientOk, Noted, Delivered, Gapped, Unread;
    if log.committed[at].event.marker {
      MarkerMisses(log, last, c, at, r);
    } else {
      PlainRowMisses(log, last, c, at, r);
    }
  }

  lemma UnreadIsAccounted(c: Client, r: Row)
    requires Unread(c.job)
    ensures Accounted(c, r)
  {
  }

  lemma NotedKeepsJob(log: Log, c: Client, ids: set<nat>)
    ensures Noted(log, c, ids).job == c.job
  {
  }

  lemma JumpMisses(log: Log, last: nat, to: nat, c: Client, r: Row)
    requires LogOk(log) && ClientOk(log, last, c) && r in Existing(log)
    ensures var next := Noted(log, Gapped(c), Between(last, to));
            r.id in next.missed <==>
              && !Unread(next.job)
              && (r.id in c.missed || (last < r.id <= to && c.resyncing && Concerns(c, r) && !Accounted(c, r)))
  {
    SplitOk(log, last, c);
    hide LogOk, Standing, AllTold, Existing, Accounted, ClientOk, Noted;
    NotedExactly(log, Gapped(c), Between(last, to), r);
    NotedKeepsJob(log, Gapped(c), Between(last, to));
    if !c.resyncing { UnreadIsAccounted(Gapped(c), r); }
    if Unread(c.job) { UnreadIsAccounted(c, r); }
  }

  lemma FirstRowMisses(log: Log, f: Fanout, c: Client, r: Row)
    requires LogOk(log) && FanoutOk(log, f) && ClientOk(log, f.last, c) && r in Existing(log)
    requires HandsFirst(f, HandleRows)
    ensures var row := f.drain.rows[0];
            var next := Noted(log, HandedTo(c, row), Overlooked(log, f.last, f.drain.at) + MarkerId(row));
            r.id in next.missed <==>
              !Unread(next.job) && (r.id in c.missed || DrainedPast(log, f, HandleRows, c, r))
  {
    hide ClientOk, LogOk, FanoutOk, HandedTo, Noted, Overlooked, BoundsOk, HighOk, Accounted, Existing, IsSlice,
         MarkerId, Concerns, Unread;
    DrainIsOk(log, f);
    SliceBounds(log, f.drain.at, f.drain.rows);
    HandingMisses(log, f.last, c, f.drain.at, r);
  }

  lemma NextRowMisses(log: Log, f: Fanout, c: Client, r: Row)
    requires LogOk(log) && FanoutOk(log, f) && ClientOk(log, f.last, c) && r in Existing(log)
    requires HandsNext(f, HandleRow)
    ensures var row := f.drain.rows[0];
            var next := Noted(log, HandedTo(c, row), MarkerId(row));
            r.id in next.missed <==>
              !Unread(next.job) && (r.id in c.missed || DrainedPast(log, f, HandleRow, c, r))
  {
    hide ClientOk, LogOk, FanoutOk, HandedTo, Noted, Overlooked, BoundsOk, HighOk, Accounted, Existing, IsSlice,
         MarkerId, Concerns, Unread;
    DrainIsOk(log, f);
    NothingOverlooked(log, f, f.drain.at, f.drain.rows);
    SliceBounds(log, f.drain.at, f.drain.rows);
    HandingMisses(log, f.last, c, f.drain.at, r);
    assert {} + MarkerId(f.drain.rows[0]) == MarkerId(f.drain.rows[0]);
  }

  lemma DrainMisses(log: Log, f: Fanout, a: Action, c: Client, p: PeerId, r: Row)
    requires LogOk(log) && FanoutOk(log, f) && ClientOk(log, f.last, c) && r in Existing(log) && !Concerned(a, p)
    ensures var next := Noted(log, DrainedTo(log, f, a, c), PassingBy(log, f, a, p));
            r.id in next.missed <==> !Unread(next.job) && (r.id in c.missed || DrainedPast(log, f, a, c, r))
  {
    hide ClientOk, LogOk, FanoutOk, HandedTo, Gapped, Noted, Overlooked, Accounted, Existing, Standing, AllTold,
         DrainedTo, PassingBy, Concerned, MarkerId, NextFanout, Concerns;
    PrunedIsCommitted(log);
    SplitOk(log, f.last, c);
    DrainSteps(log, f, a, c, p);
    if Jumps(f, a) {
      JumpMisses(log, f.last, Jump(f.drain, f.last).value, c, r);
    } else if HandsFirst(f, a) {
      FirstRowMisses(log, f, c, r);
    } else if HandsNext(f, a) {
      NextRowMisses(log, f, c, r);
    } else {
      NothingToNote(log, c);
    }
  }

  lemma NotedComesFrom(log: Log, c: Client, ids: set<nat>, id: nat)
    requires id in Noted(log, c, ids).missed && id !in c.missed
    ensures exists r :: r in Existing(log) && r.id == id
  {
  }

  /** One client, one step: its missed ids grow by the mishaps and are forgotten when it starts to read anew. */
  lemma StepMisses(w: World, a: Action, p: PeerId, r: Row)
    requires Inv(w) && JobsFit(w) && Enabled(w, a) && p in w.clients && r in Existing(w.log)
    ensures var next := NextClient(w, a, p);
            r.id in next.missed <==> !Unread(next.job) && (r.id in w.clients[p].missed || Mishap(w, a, p, r))
  {
    var c := w.clients[p];
    assert ClientOk(w.log, w.fanout.last, c);
    WorkIsNotDrain(w, a, p, r);
    hide ClientOk, LogOk, FanoutOk, Noted, PassingBy, Worked, DrainedTo, DrainedPast, Existing, Unread;
    if Concerned(a, p) {
      WorkMisses(w.log, w.fanout, a, c, p, r);
    } else {
      DrainMisses(w.log, w.fanout, a, c, p, r);
    }
  }

  lemma WorkIsNotDrain(w: World, a: Action, p: PeerId, r: Row)
    requires p in w.clients
    ensures Concerned(a, p) ==> !DrainedPast(w.log, w.fanout, a, w.clients[p], r)
    ensures !Concerned(a, p) ==> a != ReadReplayBounds(p)
  {
    hide Accounted, Concerns, Overlooked;
  }

  /** Missed ids of rows that are gone, an abandoned insert's, stay until the client starts to read anew. */
  lemma OldIdsStay(w: World, a: Action, p: PeerId, id: nat)
    requires Inv(w) && JobsFit(w) && Enabled(w, a) && p in w.clients
    requires forall r :: r in Existing(w.log) ==> r.id != id
    ensures var next := NextClient(w, a, p);
            id in next.missed <==> !Unread(next.job) && id in w.clients[p].missed
  {
    var c := w.clients[p];
    assert ClientOk(w.log, w.fanout.last, c);
    SplitOk(w.log, w.fanout.last, c);
    var d := if Concerned(a, p) then Worked(w.log, a, c) else DrainedTo(w.log, w.fanout, a, c);
    var ids := PassingBy(w.log, w.fanout, a, p);
    hide LogOk, FanoutOk, PassingBy, Worked, DrainedTo, Existing, AllTold, Standing, Unread, Noted;
    if Concerned(a, p) {
      WorkKeepsMissed(w.log, w.fanout.last, a, c);
    } else {
      DrainKeepsMissed(w.log, w.fanout, a, c, p);
    }
    NotedKeepsJob(w.log, d, ids);
    if id in Noted(w.log, d, ids).missed && id !in d.missed { NotedComesFrom(w.log, d, ids, id); }
    MissedStays(w.log, d, ids);
  }

  lemma MissedStays(log: Log, c: Client, ids: set<nat>)
    ensures c.missed <= Noted(log, c, ids).missed
  {
  }

  lemma DrainKeepsMissed(log: Log, f: Fanout, a: Action, c: Client, p: PeerId)
    requires log.pruned <= |log.committed| && !Concerned(a, p) && (Unread(c.job) ==> c.missed == {})
    requires c.resyncing <==> c.job != Idle
    ensures var d := DrainedTo(log, f, a, c);
            d.missed == if Unread(d.job) then {} else c.missed
  {
    hide DrainedTo, NextFanout, PassingBy;
    DrainSteps(log, f, a, c, p);
  }

  /** One step of the whole system. */
  lemma StepMissesId(w: World, a: Action, p: PeerId, id: nat)
    requires Inv(w) && JobsFit(w) && Enabled(w, a)
    ensures var next := Step(w, a);
            id in MissedOf(next, p) <==> HasRead(next, p) && (id in MissedOf(w, p) || MishapOf(w, a, p, id))
  {
    hide Inv, JobsFit, LogOk, NextLog, NextFanout, NextClient, Mishap, Existing;
    if p in w.clients && a != Disconnect(p) {
      StepKeepsClientAt(w, a, p);
      if exists r :: r in Existing(w.log) && r.id == id {
        var r :| r in Existing(w.log) && r.id == id;
        StepMisses(w, a, p, r);
        OneRowHasId(w, r);
      } else {
        OldIdsStay(w, a, p, id);
      }
    }
  }

  lemma StepKeepsClientAt(w: World, a: Action, p: PeerId)
    requires JobsFit(w) && Enabled(w, a) && p in w.clients && a != Disconnect(p)
    ensures p in Step(w, a).clients && Step(w, a).clients[p] == NextClient(w, a, p)
  {
    hide NextClient, NextLog, NextFanout, JobsFit;
  }

  lemma OneRowHasId(w: World, r: Row)
    requires Inv(w) && r in Existing(w.log)
    ensures forall q :: q in Existing(w.log) && q.id == r.id ==> q == r
  {
    forall q | q in Existing(w.log) && q.id == r.id ensures q == r { IdsAreUnique(w.log, q, r); }
  }

  /** From here to the end of the run the client stays connected and starts no new resync. */
  ghost predicate ReadsNoMore(w: World, actions: seq<Action>, p: PeerId)
    decreases |actions|
  {
    HasRead(w, p) && (actions != [] && JobsFit(w) ==> ReadsNoMore(Step(w, actions[0]), actions[1..], p))
  }

  /** Somewhere in the run a mishap takes this id past the client, and no new resync starts afterwards. */
  ghost predicate Misses(w: World, actions: seq<Action>, p: PeerId, id: nat)
    decreases |actions|
  {
    && actions != [] && JobsFit(w)
    && ((MishapOf(w, actions[0], p, id) && ReadsNoMore(Step(w, actions[0]), actions[1..], p))
        || Misses(Step(w, actions[0]), actions[1..], p, id))
  }

  lemma MissedHasRead(w: World, p: PeerId, id: nat)
    requires Inv(w) && id in MissedOf(w, p)
    ensures HasRead(w, p)
  {
    assert ClientOk(w.log, w.fanout.last, w.clients[p]);
  }

  /** The missed ids are those of the mishaps since the last resync began to read: no others, and all of them. */
  lemma {:induction false} MissedExactly(w: World, actions: seq<Action>, end: World, p: PeerId, id: nat)
    requires Inv(w) && IsRun(w, actions, end)
    ensures id in MissedOf(end, p) <==>
              Misses(w, actions, p, id) || (id in MissedOf(w, p) && ReadsNoMore(w, actions, p))
    decreases |actions|
  {
    hide Inv, MishapOf, Step, JobsFit, Enabled, MissedOf, HasRead;
    if id in MissedOf(w, p) { MissedHasRead(w, p, id); }
    if actions != [] {
      StepKeepsInv(w, actions[0]);
      StepMissesId(w, actions[0], p, id);
      MissedExactly(Step(w, actions[0]), actions[1..], end, p, id);
    }
  }

  // ---------------------------------------------------------------- the main theorems

  /**
   Which updates are lost, in every run: an event up to lastEventId that concerns a client has been sent to it,
   waits in its buffer, is covered, or is on its way with the resync in progress, if and only if no mishap took
   it past the client since the client's last resync began.
   */
  lemma NoLostUpdate(w: World, actions: seq<Action>, end: World, p: PeerId, r: Row)
    requires Initial(w) && IsRun(w, actions, end) && p in end.clients && r in end.log.committed
    requires Due(end.clients[p], end.fanout.last, r) && Concerns(end.clients[p], r)
    ensures Accounted(end.clients[p], r) <==> !Misses(w, actions, p, r.id)
    ensures Accounted(end.clients[p], r) <==> r.id !in end.clients[p].missed
  {
    InitialInv(w);
    EveryRunKeepsInv(w, actions, end);
    MissedExactly(w, actions, end, p, r.id);
    assert ClientOk(end.log, end.fanout.last, end.clients[p]);
    assert r in Existing(end.log);
    hide Accounted, Due, Concerns, Misses, LogOk, Standing, Existing, FanoutOk, Step, JobsFit;
    assert Told(end.clients[p], end.fanout.last, r);
  }

  /** A client that is not resyncing was sent an event, or had its state covered, exactly when no mishap hit it. */
  lemma SettledClientHasEverything(w: World, actions: seq<Action>, end: World, p: PeerId, r: Row)
    requires Initial(w) && IsRun(w, actions, end) && p in end.clients && r in end.log.committed
    requires !end.clients[p].resyncing && r.id <= end.fanout.last && Concerns(end.clients[p], r)
    ensures Sent(end.clients[p], r) || Covered(end.clients[p], r) <==> !Misses(w, actions, p, r.id)
  {
    NoLostUpdate(w, actions, end, p, r);
    InitialInv(w);
    EveryRunKeepsInv(w, actions, end);
    assert ClientOk(end.log, end.fanout.last, end.clients[p]);
    hide Sent, Covered, Misses;
  }

  /**
   Per-client order, in every run and with no assumption; and no connection of a user ever carries an event of an
   organization the user is not in, nor an event without one, nor a marker.
   */
  lemma EveryConnectionIsInOrder(w: World, actions: seq<Action>, end: World, p: PeerId)
    requires Initial(w) && IsRun(w, actions, end) && p in end.clients
    ensures InOrder(end.clients[p].start, end.clients[p].wire)
    ensures var principal := end.clients[p].principal;
            forall f <- end.clients[p].wire :: f.EventFrame? ==>
              && !f.row.event.marker
              && (principal.User? ==>
                    f.row.event.organization.Some? && f.row.event.organization.value in principal.organizations)
  {
    InitialInv(w);
    EveryRunKeepsInv(w, actions, end);
    assert ClientOk(end.log, end.fanout.last, end.clients[p]);
  }

  /**
   Every event lastEventId has passed was handed on, or jumped by a gap that was raised, or skipped: one of the
   three and only one.
   */
  lemma DrainAccountsForEveryEvent(w: World, actions: seq<Action>, end: World, k: nat)
    requires Initial(w) && IsRun(w, actions, end) && k < |end.log.committed|
    requires end.fanout.start < end.log.committed[k].id <= end.fanout.last
    ensures var id, f := end.log.committed[k].id, end.fanout;
            && (id in f.handed || id in f.jumped || id in f.skipped)
            && !(id in f.handed && id in f.jumped) && (id in f.skipped ==> id !in f.handed && id !in f.jumped)
  {
    InitialInv(w);
    EveryRunKeepsInv(w, actions, end);
    assert Classified(end.fanout, end.log.committed[k].id);
  }

  /** The step raises a gap over this id: a hole was there when the bounds were read, or no rows are left. */
  ghost predicate JumpsNow(w: World, a: Action, id: nat) {
    var d, last := w.fanout.drain, w.fanout.last;
    && a.HandleRows? && d.RowsRead?
    && if Hole(w.log, d, last) then last < id <= d.latest else d.rows == [] && last < id <= d.high
  }

  lemma StepJumps(w: World, a: Action, id: nat)
    requires Inv(w) && JobsFit(w) && Enabled(w, a)
    ensures id in Step(w, a).fanout.jumped <==> id in w.fanout.jumped || JumpsNow(w, a, id)
  {
    hide LogOk, FanoutOk, Hole, Overlooked, NextClients, NextLog, JobsFit, Table, Index, Take;
    if a.HandleRows? && w.fanout.drain.RowsRead? { GapExactlyOverHole(w.log, w.fanout); }
  }

  ghost predicate JumpedIn(w: World, actions: seq<Action>, id: nat)
    decreases |actions|
  {
    && actions != [] && JobsFit(w)
    && (JumpsNow(w, actions[0], id) || JumpedIn(Step(w, actions[0]), actions[1..], id))
  }

  /** Over every run an id is jumped only by such a gap; without holes every row is handed on. */
  lemma {:induction false} JumpedExactly(w: World, actions: seq<Action>, end: World, id: nat)
    requires Inv(w) && IsRun(w, actions, end)
    ensures id in end.fanout.jumped <==> id in w.fanout.jumped || JumpedIn(w, actions, id)
    decreases |actions|
  {
    hide Inv, Step, JobsFit, Enabled, JumpsNow;
    if actions != [] {
      StepKeepsInv(w, actions[0]);
      StepJumps(w, actions[0], id);
      JumpedExactly(Step(w, actions[0]), actions[1..], end, id);
    }
  }

  ghost predicate NoRace(w: World, actions: seq<Action>)
    decreases |actions|
  {
    actions != [] && JobsFit(w) ==>
      !(actions[0].HandleRows? && Races(w.log, w.fanout)) && NoRace(Step(w, actions[0]), actions[1..])
  }

  /** A run without races skips nothing. */
  lemma {:induction false} DrainSkipsNothing(w: World, actions: seq<Action>, end: World)
    requires Inv(w) && IsRun(w, actions, end) && NoRace(w, actions)
    ensures end.fanout.skipped == w.fanout.skipped
    decreases |actions|
  {
    if actions != [] {
      StepKeepsInv(w, actions[0]);
      if actions[0].HandleRows? { SkipsExactlyInARace(w.log, w.fanout); }
      DrainSkipsNothing(Step(w, actions[0]), actions[1..], end);
    }
  }
}
