/**
 From publish() to the client: the calls of PublishQueue, whose rows are those of the event log that
 RealtimeDelivery hands on.
 */
module RealtimeEndToEnd {
  import opened Options
  import opened RealtimeClients
  import opened RealtimeFanout
  import opened RealtimeDelivery
  import Queue = PublishQueue

  /** Which payload stands for a call: its own, or the marker of the overflow it fell into. */
  function PlaceOf(calls: seq<Queue.Call>, i: nat): int
    requires i < |calls|
  {
    |Queue.Expected(calls[..i + 1])| - 1
  }

  function StandsFor(call: Queue.Call): Queue.Payload {
    if call.Accepted? then Queue.Plain(call.event) else Queue.Marker
  }

  lemma {:induction false} ExpectedGrows(calls: seq<Queue.Call>, n: nat)
    requires n <= |calls|
    ensures Queue.Expected(calls[..n]) <= Queue.Expected(calls)
  {
    if n < |calls| {
      ExpectedGrows(calls[..|calls| - 1], n);
      assert calls[..|calls| - 1][..n] == calls[..n];
    } else {
      assert calls[..n] == calls;
    }
  }

  /** Every call has its payload; the dropped ones share the marker of their overflow. */
  lemma {:induction false} EveryCallHasPayload(calls: seq<Queue.Call>, overflowed: bool, i: nat)
    requires Queue.CallsOk(calls, overflowed) && i < |calls|
    ensures 0 <= PlaceOf(calls, i) < |Queue.Expected(calls)|
    ensures Queue.Expected(calls)[PlaceOf(calls, i)] == StandsFor(calls[i])
  {
    var upTo := calls[..i + 1];
    assert upTo[..i] == calls[..i];
    ExpectedGrows(calls, i + 1);
    if calls[i].Dropped? { EveryCallHasPayload(calls, overflowed, i - 1); }
  }

  /** Where in the shared table the k-th row of an instance is. */
  function RowOf(rows: seq<Queue.Stored>, origin: string, k: nat): (j: nat)
    requires k < |Queue.Mine(rows, origin)|
    ensures j < |rows| && rows[j].origin == origin && rows[j].entry == Queue.Mine(rows, origin)[k]
  {
    if rows[|rows| - 1].origin == origin && k == |Queue.Mine(rows, origin)| - 1 then |rows| - 1
    else RowOf(rows[..|rows| - 1], origin, k)
  }

  predicate Carries(r: Row, p: Queue.Payload, organizationOf: string -> Option<string>) {
    match p
    case Marker => r.event.marker
    case Plain(event) => !r.event.marker && r.event.organization == organizationOf(event)
  }

  /** The log is the table the queues write, row by row. */
  ghost predicate Mirrors(log: Log, rows: seq<Queue.Stored>, organizationOf: string -> Option<string>) {
    |log.committed| == |rows|
    && forall j :: 0 <= j < |rows| ==> Carries(log.committed[j], rows[j].entry.payload, organizationOf)
  }

  /** A call's state is written before the row that stands for the call; `written` are those moments. */
  ghost predicate WrittenBefore(log: Log, rows: seq<Queue.Stored>, me: string, calls: seq<Queue.Call>,
                                written: seq<nat>) {
    |log.committed| == |rows| && |written| == |calls|
    && forall i :: 0 <= i < |calls| && 0 <= PlaceOf(calls, i) < |Queue.Mine(rows, me)| ==>
         written[i] <= log.committed[RowOf(rows, me, PlaceOf(calls, i))].event.written
  }

  lemma RowStandsForCall(log: Log, rows: seq<Queue.Stored>, me: string, calls: seq<Queue.Call>, overflowed: bool,
                         organizationOf: string -> Option<string>, i: nat)
    requires Mirrors(log, rows, organizationOf) && Queue.CallsOk(calls, overflowed) && i < |calls|
    requires Queue.Payloads(Queue.Mine(rows, me)) <= Queue.Expected(calls)
    requires 0 <= PlaceOf(calls, i) < |Queue.Mine(rows, me)|
    ensures Carries(log.committed[RowOf(rows, me, PlaceOf(calls, i))], StandsFor(calls[i]), organizationOf)
  {
    hide Queue.CallsOk, Queue.Expected, PlaceOf, Carries;
    EveryCallHasPayload(calls, overflowed, i);
  }

  /**
   The call reached the client: its own event was sent, or the state behind it is part of what the client came
   with or of a snapshot it got.
   */
  ghost predicate Reached(c: Client, call: Queue.Call, written: nat, r: Row) {
    (call.Accepted? && Sent(c, r)) || AtMost(r.id, c.start) || (c.covered.Some? && written < c.covered.value)
  }

  /**
   Every publish() call whose payload is stored, the calls dropped in an overflow included, has reached each settled
   client once the drain is past its row, unless a mishap took the row past the client. A dropped call concerns
   every client, and only a snapshot can bring it.
   */
  lemma EveryCallArrives(w: World, actions: seq<Action>, end: World, p: PeerId, rows: seq<Queue.Stored>, me: string,
                         calls: seq<Queue.Call>, overflowed: bool, written: seq<nat>,
                         organizationOf: string -> Option<string>, i: nat)
    requires Initial(w) && IsRun(w, actions, end) && p in end.clients && !end.clients[p].resyncing
    requires Mirrors(end.log, rows, organizationOf) && WrittenBefore(end.log, rows, me, calls, written)
    requires Queue.CallsOk(calls, overflowed) && Queue.Payloads(Queue.Mine(rows, me)) <= Queue.Expected(calls)
    requires i < |calls| && 0 <= PlaceOf(calls, i) < |Queue.Mine(rows, me)|
    ensures var c, r := end.clients[p], end.log.committed[RowOf(rows, me, PlaceOf(calls, i))];
            && Carries(r, StandsFor(calls[i]), organizationOf)
            && (!calls[i].Accepted? ==> Concerns(c, r) && !Sent(c, r))
            && (r.id <= end.fanout.last && Concerns(c, r) && !Misses(w, actions, p, r.id) ==>
                  Reached(c, calls[i], written[i], r))
  {
    hide Initial, IsRun, Misses, Queue.CallsOk, Queue.Expected, PlaceOf, InOrder;
    var c, r := end.clients[p], end.log.committed[RowOf(rows, me, PlaceOf(calls, i))];
    RowStandsForCall(end.log, rows, me, calls, overflowed, organizationOf, i);
    EveryConnectionIsInOrder(w, actions, end, p);
    if r.id <= end.fanout.last && Concerns(c, r) {
      SettledClientHasEverything(w, actions, end, p, r);
    }
  }
}
