/**
 One client connection of the control API: the closures broadcastLocal, finishClientResync,
 resyncClients and replayClient of services/control-api/src/index.js as functions on the state they
 keep for the connection, and the class that runs them over all connections.
 */
module RealtimeClients {
  import opened Options

  /** `written` is the moment of the state write behind the event; it precedes the publish call. */
  datatype Event = Event(organization: Option<string>, marker: bool, written: nat)

  datatype Row = Row(id: nat, event: Event)

  datatype Principal = Legacy | User(organizations: set<string>)

  /** What goes over the wire: a snapshot with its cursor, an event, a bare cursor after a replay. */
  datatype Frame = Snapshot(cursor: nat) | EventFrame(row: Row) | CursorFrame(cursor: nat)

  /** The asynchronous resync of a client: which await it is at. Log positions stand for a database snapshot. */
  datatype Job =
    | Idle
    | SnapshotDue
    | CursorRead(cursor: nat)
    | TablesRead(cursor: nat, readAt: nat)
    | ReplayDue(cursor: nat)
    | ReplayBounds(cursor: nat, lo: nat, hi: nat, upTo: nat)
    | ReplayRows(cursor: nat, rows: seq<Row>, latest: nat)

  /**
   principal, resyncing, pending and lastSent are the fields of the source's client state. The rest
   records the run: the cursor the client came with, the frames sent, when the tables of the last
   finished snapshot were read, and the ids of the events that only a new resync can bring.
   */
  datatype Client = Client(principal: Principal, resyncing: bool, pending: seq<Row>, lastSent: Option<nat>, job: Job,
                           start: Option<nat>, wire: seq<Frame>, covered: Option<nat>, missed: set<nat>)

  predicate Sees(p: Principal, e: Event) {
    p.Legacy? || (e.organization.Some? && e.organization.value in p.organizations)
  }

  predicate AtMost(id: nat, bound: Option<nat>) {
    bound.Some? && id <= bound.value
  }

  function Connected(p: Principal, cursor: Option<nat>): Client {
    Client(p, true, [], cursor, if cursor.Some? then ReplayDue(cursor.value) else SnapshotDue, cursor, [], None, {})
  }

  function Send(c: Client, r: Row): Client {
    c.(wire := c.wire + [EventFrame(r)], lastSent := Some(r.id))
  }

  /** broadcastLocal for one client. */
  function Delivered(c: Client, r: Row): Client {
    if !Sees(c.principal, r.event) then c
    else if AtMost(r.id, c.lastSent) then c
    else if c.resyncing then c.(pending := c.pending + [r])
    else Send(c, r)
  }

  /** The tables or the replay are still to be read. */
  predicate Unread(j: Job) {
    j.SnapshotDue? || j.CursorRead? || j.ReplayDue?
  }

  function Resync(c: Client): Client {
    c.(resyncing := true, job := SnapshotDue, missed := {})
  }

  /** resyncClients for one client: a client that is resyncing already is passed by. */
  function Gapped(c: Client): Client {
    if c.resyncing then c else Resync(c)
  }

  /** The while loop of finishClientResync. */
  function Flushed(c: Client): Client
    decreases |c.pending|
  {
    if c.pending == [] then c else
    var p := c.pending[0];
    var d := c.(pending := c.pending[1..]);
    Flushed(if AtMost(p.id, d.lastSent) then d else Send(d, p))
  }

  /** finishClientResync with a snapshot. */
  function FinishedSnapshot(c: Client, cursor: nat, readAt: nat): Client {
    Flushed(c.(wire := c.wire + [Snapshot(cursor)], lastSent := Some(cursor), covered := Some(readAt)))
      .(resyncing := false, job := Idle)
  }

  /** The loop of replayClient over the replayed rows. */
  function SentRows(c: Client, rows: seq<Row>): Client
    decreases |rows|
  {
    if rows == [] then c
    else
      var wanted := Sees(c.principal, rows[0].event) && !AtMost(rows[0].id, c.lastSent);
      SentRows(if wanted then Send(c, rows[0]) else c, rows[1..])
  }

  function Max(a: nat, b: nat): nat { if a < b then b else a }

  function After(rows: seq<Row>, id: nat): seq<Row> {
    if rows == [] then []
    else if rows[0].id > id then [rows[0]] + After(rows[1..], id)
    else After(rows[1..], id)
  }

  /** replayClient once it has its history. */
  function FinishedReplay(c: Client, rows: seq<Row>, latest: nat): Client {
    var d := SentRows(c, rows);
    var e := d.(wire := d.wire + [CursorFrame(latest)],
                lastSent := Some(Max(if d.lastSent.Some? then d.lastSent.value else 0, latest)),
                pending := After(d.pending, latest));
    Flushed(e).(resyncing := false, job := Idle)
  }

  /** Who may see an event, written out: a legacy client, or a member of the event's organization. */
  lemma OnlyMembersSee(p: Principal, e: Event)
    ensures p.User? ==>
              (Sees(p, e) <==> exists organization <- p.organizations :: e.organization == Some(organization))
    ensures p.Legacy? ==> Sees(p, e)
  {
    if e.organization.Some? && p.User? && e.organization.value in p.organizations {
      assert e.organization == Some(e.organization.value);
    }
  }

  /**
   What a live event does to one client whose socket works: a stranger's connection stays as it is; a member is
   sent an event beyond its position, or has it buffered while it is resyncing.
   */
  lemma DeliveryByMembership(c: Client, r: Row)
    ensures var member := c.principal.Legacy? || (r.event.organization.Some?
                                                  && r.event.organization.value in c.principal.organizations);
            var d := Delivered(c, r);
            if !member || (c.lastSent.Some? && r.id <= c.lastSent.value) then d == c
            else if c.resyncing then d == c.(pending := c.pending + [r])
            else d.wire == c.wire + [EventFrame(r)] && d.lastSent == Some(r.id) && d.pending == c.pending
  {
  }

  // ---------------------------------------------------------------- order on the wire

  /** The cursor the client stands at after these frames. */
  function Position(start: Option<nat>, wire: seq<Frame>): Option<nat>
    decreases |wire|
  {
    if wire == [] then start else
    var before := Position(start, wire[..|wire| - 1]);
    match wire[|wire| - 1]
    case Snapshot(cursor) => Some(cursor)
    case EventFrame(r) => Some(r.id)
    case CursorFrame(cursor) => Some(Max(if before.Some? then before.value else 0, cursor))
  }

  /** Every event is beyond the position before it. */
  ghost predicate InOrder(start: Option<nat>, wire: seq<Frame>)
    decreases |wire|
  {
    wire != [] ==>
      var before := wire[..|wire| - 1];
      var f := wire[|wire| - 1];
      InOrder(start, before) && (f.EventFrame? ==> !AtMost(f.row.id, Position(start, before)))
  }

  /** An event the client may see; a marker is not an event. */
  predicate Allowed(c: Client, r: Row) {
    Sees(c.principal, r.event) && !r.event.marker
  }

  ghost predicate OnlyAllowed(c: Client) {
    && (forall f <- c.wire :: f.EventFrame? ==> Allowed(c, f.row))
    && (forall p <- c.pending :: Allowed(c, p))
  }

  ghost predicate WireOk(c: Client) {
    InOrder(c.start, c.wire) && c.lastSent == Position(c.start, c.wire) && OnlyAllowed(c)
  }

  lemma SendKeepsWire(c: Client, r: Row)
    requires WireOk(c) && !AtMost(r.id, c.lastSent) && Allowed(c, r)
    ensures WireOk(Send(c, r))
  {
    hide Sees;
    InOrderOneMore(c.start, c.wire, r);
    AllowedOneMore(c, r);
    hide InOrder, Position, OnlyAllowed;
  }

  lemma InOrderOneMore(start: Option<nat>, wire: seq<Frame>, r: Row)
    requires InOrder(start, wire) && !AtMost(r.id, Position(start, wire))
    ensures InOrder(start, wire + [EventFrame(r)]) && Position(start, wire + [EventFrame(r)]) == Some(r.id)
  {
    assert (wire + [EventFrame(r)])[..|wire|] == wire;
  }

  lemma AllowedOneMore(c: Client, r: Row)
    requires OnlyAllowed(c) && Allowed(c, r)
    ensures OnlyAllowed(Send(c, r))
  {
  }

  lemma CursorKeepsWire(c: Client, f: Frame)
    requires WireOk(c) && !f.EventFrame?
    ensures InOrder(c.start, c.wire + [f]) && OnlyAllowed(c.(wire := c.wire + [f]))
    ensures Position(c.start, c.wire + [f]) ==
            if f.Snapshot? then Some(f.cursor)
            else Some(Max(if c.lastSent.Some? then c.lastSent.value else 0, f.cursor))
  {
    assert (c.wire + [f])[..|c.wire|] == c.wire;
  }

  lemma {:induction false} FlushKeepsWire(c: Client)
    requires WireOk(c)
    ensures WireOk(Flushed(c))
    decreases |c.pending|
  {
    hide InOrder, Position;
    if c.pending != [] {
      var d := c.(pending := c.pending[1..]);
      assert c.pending[0] in c.pending && forall p <- d.pending :: p in c.pending;
      if AtMost(c.pending[0].id, d.lastSent) {
        FlushKeepsWire(d);
      } else {
        SendKeepsWire(d, c.pending[0]);
        FlushKeepsWire(Send(d, c.pending[0]));
      }
    }
  }

  lemma {:induction false} RowsKeepWire(c: Client, rows: seq<Row>)
    requires WireOk(c) && forall r <- rows :: !r.event.marker
    ensures WireOk(SentRows(c, rows)) && SentRows(c, rows).pending == c.pending
    ensures SentRows(c, rows).principal == c.principal
    decreases |rows|
  {
    hide InOrder, Position;
    if rows != [] {
      assert rows[0] in rows && forall r <- rows[1..] :: r in rows;
      if Sees(c.principal, rows[0].event) && !AtMost(rows[0].id, c.lastSent) {
        SendKeepsWire(c, rows[0]);
        hide WireOk;
        RowsKeepWire(Send(c, rows[0]), rows[1..]);
      } else {
        hide WireOk;
        RowsKeepWire(c, rows[1..]);
      }
    }
  }

  lemma {:induction false} AfterIsPart(rows: seq<Row>, id: nat)
    ensures forall r <- After(rows, id) :: r in rows
  {
    if rows != [] { AfterIsPart(rows[1..], id); }
  }

  lemma SnapshotKeepsWire(c: Client, cursor: nat, readAt: nat)
    requires WireOk(c)
    ensures WireOk(FinishedSnapshot(c, cursor, readAt))
  {
    hide InOrder, Position, Flushed;
    CursorKeepsWire(c, Snapshot(cursor));
    FlushKeepsWire(c.(wire := c.wire + [Snapshot(cursor)], lastSent := Some(cursor), covered := Some(readAt)));
  }

  lemma ReplayKeepsWire(c: Client, rows: seq<Row>, latest: nat)
    requires WireOk(c) && forall r <- rows :: !r.event.marker
    ensures WireOk(FinishedReplay(c, rows, latest))
  {
    hide InOrder, Position, Flushed, SentRows, After;
    RowsKeepWire(c, rows);
    var d := SentRows(c, rows);
    CursorKeepsWire(d, CursorFrame(latest));
    AfterIsPart(d.pending, latest);
    var e := d.(wire := d.wire + [CursorFrame(latest)],
                lastSent := Some(Max(if d.lastSent.Some? then d.lastSent.value else 0, latest)),
                pending := After(d.pending, latest));
    FlushKeepsWire(e);
  }

  function Mark(f: Frame): nat {
    match f
    case Snapshot(cursor) => cursor
    case EventFrame(r) => r.id
    case CursorFrame(cursor) => cursor
  }

  /**
   What the order says to a reader of the connection: between two snapshots every event is beyond every
   earlier event, snapshot cursor and replay cursor.
   */
  lemma {:induction false} BeyondEverythingBefore(start: Option<nat>, wire: seq<Frame>, i: nat, j: nat)
    requires InOrder(start, wire) && i < j < |wire| && wire[j].EventFrame?
    requires forall k :: i < k < j ==> !wire[k].Snapshot?
    ensures wire[j].row.id > Mark(wire[i])
    decreases |wire|
  {
    if j < |wire| - 1 {
      BeyondEverythingBefore(start, wire[..|wire| - 1], i, j);
    } else {
      PositionGrows(start, wire[..j], i);
    }
  }

  lemma {:induction false} PositionGrows(start: Option<nat>, wire: seq<Frame>, i: nat)
    requires InOrder(start, wire) && i < |wire|
    requires forall k :: i < k < |wire| ==> !wire[k].Snapshot?
    ensures AtMost(Mark(wire[i]), Position(start, wire))
    decreases |wire|
  {
    if i < |wire| - 1 { PositionGrows(start, wire[..|wire| - 1], i); }
  }

  // ---------------------------------------------------------------- what a finished resync has sent

  ghost predicate Increasing(rows: seq<Row>) {
    forall i, j :: 0 <= i < j < |rows| ==> rows[i].id < rows[j].id
  }

  ghost predicate Sent(c: Client, r: Row) {
    EventFrame(r) in c.wire
  }

  /** Nothing but the wire, the position and the buffer changes, and the wire only grows. */
  ghost predicate Extends(c: Client, d: Client) {
    && d == c.(wire := d.wire, lastSent := d.lastSent, pending := d.pending)
    && (forall r :: Sent(c, r) ==> Sent(d, r))
  }

  lemma SendExtends(c: Client, r: Row)
    ensures Extends(c, Send(c, r)) && Sent(Send(c, r), r)
  {
  }

  /** The buffer is emptied: what lay beyond the position has been sent. */
  lemma {:induction false} FlushSends(c: Client)
    requires Increasing(c.pending) && c.lastSent.Some?
    ensures var d := Flushed(c);
            && Extends(c, d) && d.pending == [] && d.lastSent.Some?
            && (forall p <- c.pending :: Sent(d, p) || p.id <= c.lastSent.value)
            && d.lastSent.value == if c.pending == [] then c.lastSent.value
                                   else Max(c.lastSent.value, c.pending[|c.pending| - 1].id)
    decreases |c.pending|
  {
    hide Sent;
    if c.pending != [] {
      var p := c.pending[0];
      var d := c.(pending := c.pending[1..]);
      var e := if AtMost(p.id, d.lastSent) then d else Send(d, p);
      SendExtends(d, p);
      SameWire(c, d);
      FlushSends(e);
      forall q <- c.pending ensures Sent(Flushed(c), q) || q.id <= c.lastSent.value {
        if q != p { assert q in d.pending; }
      }
    }
  }

  /** Nothing but the buffer is sent. */
  lemma {:induction false} FlushSendsOnly(c: Client, r: Row)
    requires Sent(Flushed(c), r)
    ensures Sent(c, r) || r in c.pending
    decreases |c.pending|
  {
    if c.pending != [] {
      var d := c.(pending := c.pending[1..]);
      FlushSendsOnly(if AtMost(c.pending[0].id, d.lastSent) then d else Send(d, c.pending[0]), r);
    }
  }

  lemma {:induction false} RowsSendOnly(c: Client, rows: seq<Row>, r: Row)
    requires Sent(SentRows(c, rows), r)
    ensures Sent(c, r) || r in rows
    decreases |rows|
  {
    if rows != [] {
      var wanted := Sees(c.principal, rows[0].event) && !AtMost(rows[0].id, c.lastSent);
      RowsSendOnly(if wanted then Send(c, rows[0]) else c, rows[1..], r);
    }
  }

  lemma {:induction false} RowsKeepBuffer(c: Client, rows: seq<Row>)
    ensures SentRows(c, rows).pending == c.pending
    decreases |rows|
  {
    if rows != [] {
      var wanted := Sees(c.principal, rows[0].event) && !AtMost(rows[0].id, c.lastSent);
      RowsKeepBuffer(if wanted then Send(c, rows[0]) else c, rows[1..]);
    }
  }

  /** A finished snapshot sends only what was in the buffer. */
  lemma SnapshotSendsOnly(c: Client, cursor: nat, readAt: nat, r: Row)
    requires Sent(FinishedSnapshot(c, cursor, readAt), r)
    ensures Sent(c, r) || r in c.pending
  {
    hide Flushed;
    FlushSendsOnly(c.(wire := c.wire + [Snapshot(cursor)], lastSent := Some(cursor), covered := Some(readAt)), r);
  }

  /** A finished replay sends only its rows and what was in the buffer. */
  lemma ReplaySendsOnly(c: Client, rows: seq<Row>, latest: nat, r: Row)
    requires Sent(FinishedReplay(c, rows, latest), r)
    ensures Sent(c, r) || r in rows || r in c.pending
  {
    hide Flushed, SentRows, After;
    var d := SentRows(c, rows);
    RowsKeepBuffer(c, rows);
    AfterIsPart(d.pending, latest);
    FlushSendsOnly(d.(wire := d.wire + [CursorFrame(latest)],
                      lastSent := Some(Max(if d.lastSent.Some? then d.lastSent.value else 0, latest)),
                      pending := After(d.pending, latest)), r);
    if Sent(d, r) { RowsSendOnly(c, rows, r); }
  }

  lemma SameWire(c: Client, d: Client)
    requires d == c.(pending := d.pending)
    ensures Extends(c, d)
  {
  }

  lemma {:induction false} RowsAreSent(c: Client, rows: seq<Row>)
    requires Increasing(rows) && c.lastSent.Some? && forall r <- rows :: r.id > c.lastSent.value
    ensures var d := SentRows(c, rows);
            && Extends(c, d) && d.pending == c.pending && d.lastSent.Some?
            && (forall r <- rows :: Sees(c.principal, r.event) ==> Sent(d, r))
            && (d.lastSent == c.lastSent || exists r <- rows :: d.lastSent == Some(r.id))
    decreases |rows|
  {
    hide Sent;
    if rows != [] {
      var r := rows[0];
      var sees := Sees(c.principal, r.event);
      var d := if sees then Send(c, r) else c;
      SendExtends(c, r);
      RowsAreSent(d, rows[1..]);
      forall q <- rows | Sees(c.principal, q.event) ensures Sent(SentRows(c, rows), q) {
        if q != r { assert q in rows[1..]; }
      }
      assert r in rows;
      assert forall q <- rows[1..] :: q in rows;
    }
  }

  lemma {:induction false} AfterKeeps(rows: seq<Row>, id: nat)
    requires Increasing(rows)
    ensures var kept := After(rows, id);
            && Increasing(kept) && (forall r <- kept :: r in rows && r.id > id)
            && (forall r <- rows :: r.id > id ==> r in kept)
    decreases |rows|
  {
    if rows != [] {
      AfterKeeps(rows[1..], id);
      var kept := After(rows[1..], id);
      forall r <- kept ensures r in rows && r.id > rows[0].id { }
      forall r <- rows | r.id > id ensures r in After(rows, id) {
        if r != rows[0] { assert r in rows[1..]; }
      }
    }
  }
}
