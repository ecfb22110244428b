/**
 The running code of RealtimeClients and RealtimeFanout: the map of client connections that the
 closures of services/control-api/src/index.js update in place, and the drained batch of
 services/control-api/src/realtime-events.js. A send on a broken socket throws.
 */
module RealtimeSockets {
  import opened Options
  import opened RealtimeClients
  import opened RealtimeFanout

  predicate Writes(c: Client, r: Row) {
    Sees(c.principal, r.event) && !AtMost(r.id, c.lastSent) && !c.resyncing
  }

  /** A client whose socket breaks under a live event is dropped. */
  function Broadcast(clients: map<PeerId, Client>, r: Row, broken: set<PeerId>): map<PeerId, Client> {
    map p | p in clients && !(p in broken && Writes(clients[p], r)) :: Delivered(clients[p], r)
  }

  function AllGapped(clients: map<PeerId, Client>): map<PeerId, Client> {
    map p | p in clients :: Gapped(clients[p])
  }

  class ClientSockets {
    var clients: map<PeerId, Client>

    constructor ()
      ensures clients == map[]
    {
      clients := map[];
    }

    /** broadcastLocal. */
    method BroadcastLocal(r: Row, broken: set<PeerId>)
      modifies this
      ensures clients == Broadcast(old(clients), r, broken)
      // the event reaches every member, and nobody else's connection changes
      ensures forall p :: p in old(clients) && old(clients)[p].principal.User?
                          && (r.event.organization.None?
                              || r.event.organization.value !in old(clients)[p].principal.organizations) ==>
                p in clients && clients[p] == old(clients)[p]
      ensures forall p :: p in old(clients) && p !in broken && !AtMost(r.id, old(clients)[p].lastSent)
                          && (old(clients)[p].principal.Legacy?
                              || (r.event.organization.Some?
                                  && r.event.organization.value in old(clients)[p].principal.organizations)) ==>
                p in clients && if old(clients)[p].resyncing then r in clients[p].pending
                                else EventFrame(r) in clients[p].wire && clients[p].lastSent == Some(r.id)
    {
      ghost var before := clients;
      var todo := clients.Keys;
      while todo != {}
        invariant todo <= before.Keys
        invariant forall p :: p in todo ==> p in clients && clients[p] == before[p]
        invariant forall p :: p in before.Keys - todo ==>
                    (p in clients <==> !(p in broken && Writes(before[p], r)))
                    && (p in clients ==> clients[p] == Delivered(before[p], r))
        invariant clients.Keys <= before.Keys
        decreases |todo|
      {
        var p :| p in todo;
        todo := todo - {p};
        var state := clients[p];
        if Sees(state.principal, r.event) {
          if AtMost(r.id, state.lastSent) { continue; }
          if state.resyncing {
            clients := clients[p := state.(pending := state.pending + [r])];
            continue;
          }
          if p in broken {
            clients := clients - {p};
          } else {
            clients := clients[p := state.(wire := state.wire + [EventFrame(r)], lastSent := Some(r.id))];
          }
        }
      }
    }

    /** resyncClients. */
    method ResyncClients()
      modifies this
      ensures clients == AllGapped(old(clients))
    {
      ghost var before := clients;
      var todo := clients.Keys;
      while todo != {}
        invariant todo <= before.Keys == clients.Keys
        invariant forall p :: p in before ==> clients[p] == if p in todo then before[p] else Gapped(before[p])
        decreases |todo|
      {
        var p :| p in todo;
        todo := todo - {p};
        var state := clients[p];
        if state.resyncing { continue; }
        clients := clients[p := state.(resyncing := true, job := SnapshotDue, missed := {})];
      }
    }

    /** finishClientResync; the snapshot itself goes out first, so a broken socket loses the client at once. */
    method FinishClientResync(peer: PeerId, cursor: nat, readAt: nat, broken: bool)
      requires peer in clients
      modifies this
      ensures clients == if broken then old(clients) - {peer}
                         else old(clients)[peer := FinishedSnapshot(old(clients)[peer], cursor, readAt)]
    {
      var state := clients[peer];
      if broken {
        clients := clients - {peer};
        return;
      }
      state := state.(wire := state.wire + [Snapshot(cursor)], lastSent := Some(cursor), covered := Some(readAt));
      ghost var start := state;
      while state.pending != []
        invariant Flushed(state) == Flushed(start)
        decreases |state.pending|
      {
        var pending := state.pending[0];
        state := state.(pending := state.pending[1..]);
        if AtMost(pending.id, state.lastSent) { continue; }
        state := state.(wire := state.wire + [EventFrame(pending)]);
        state := state.(lastSent := Some(pending.id));
      }
      clients := clients[peer := state.(resyncing := false, job := Idle)];
    }

    /** The end of replayClient; the cursor frame is always sent. */
    method FinishReplay(peer: PeerId, rows: seq<Row>, latest: nat, broken: bool)
      requires peer in clients
      modifies this
      ensures clients == if broken then old(clients) - {peer}
                         else old(clients)[peer := FinishedReplay(old(clients)[peer], rows, latest)]
    {
      var state := clients[peer];
      if broken {
        clients := clients - {peer};
        return;
      }
      ghost var first := state;
      for i := 0 to |rows|
        invariant SentRows(first, rows) == SentRows(state, rows[i..])
      {
        assert rows[i..][1..] == rows[i + 1..];
        if Sees(state.principal, rows[i].event) {
          if AtMost(rows[i].id, state.lastSent) { continue; }
          state := state.(wire := state.wire + [EventFrame(rows[i])], lastSent := Some(rows[i].id));
        }
      }
      var lastSent := if state.lastSent.Some? then state.lastSent.value else 0;
      var later := After(state.pending, latest);
      state := state.(wire := state.wire + [CursorFrame(latest)], lastSent := Some(Max(lastSent, latest)),
                      pending := []);
      ghost var start := state.(pending := later);
      for i := 0 to |later|
        invariant Flushed(start) == Flushed(state.(pending := later[i..])) && state.pending == []
      {
        assert later[i..][1..] == later[i + 1..];
        if AtMost(later[i].id, state.lastSent) { continue; }
        state := state.(wire := state.wire + [EventFrame(later[i])], lastSent := Some(later[i].id));
      }
      clients := clients[peer := state.(resyncing := false, job := Idle)];
    }
  }

  // ---------------------------------------------------------------- one drained batch

  /** What handling these rows one after the other makes of the clients. */
  function HandedAll(clients: map<PeerId, Client>, rows: seq<Row>, broken: set<PeerId>): map<PeerId, Client>
    decreases |rows|
  {
    if rows == [] then clients
    else if rows[0].event.marker then HandedAll(AllGapped(clients), rows[1..], broken)
    else HandedAll(Broadcast(clients, rows[0], broken), rows[1..], broken)
  }

  class EventDrain {
    var lastEventId: nat
    const sockets: ClientSockets

    constructor (high: nat, sockets: ClientSockets)
      ensures lastEventId == high && this.sockets == sockets
    {
      this.lastEventId := high;
      this.sockets := sockets;
    }

    /** The body of #drain's loop once its three queries are answered; false means that the drain rests. */
    method Handle(first: nat, latest: nat, high: nat, rows: seq<Row>, broken: set<PeerId>) returns (again: bool)
      modifies this, sockets
      ensures first > old(lastEventId) + 1 ==>
                !again && lastEventId == latest && sockets.clients == AllGapped(old(sockets.clients))
      ensures first <= old(lastEventId) + 1 && rows == [] ==>
                && !again && lastEventId == (if high > old(lastEventId) then high else old(lastEventId))
                && sockets.clients == if high > old(lastEventId) then AllGapped(old(sockets.clients))
                                      else old(sockets.clients)
      ensures first <= old(lastEventId) + 1 && rows != [] ==>
                && again && lastEventId == LastId(rows)
                && sockets.clients == HandedAll(old(sockets.clients), rows, broken)
    {
      if first != 0 && lastEventId < first - 1 {
        lastEventId := latest;
        sockets.ResyncClients();
        return false;
      }
      if rows == [] {
        if lastEventId < high {
          lastEventId := high;
          sockets.ResyncClients();
        }
        return false;
      }
      for i := 0 to |rows|
        invariant HandedAll(old(sockets.clients), rows, broken) == HandedAll(sockets.clients, rows[i..], broken)
        invariant i > 0 ==> lastEventId == rows[i - 1].id
      {
        assert rows[i..][1..] == rows[i + 1..];
        lastEventId := rows[i].id;
        if rows[i].event.marker {
          sockets.ResyncClients();
        } else {
          sockets.BroadcastLocal(rows[i], broken);
        }
      }
      return true;
    }
  }

  /**
   What a batch does to one client whose socket works is what the steps HandleRows and HandleRow of the
   fanout do to it, row by row.
   */
  lemma {:induction false} BatchIsRowByRow(clients: map<PeerId, Client>, rows: seq<Row>, broken: set<PeerId>, p: PeerId)
    requires p in clients && p !in broken
    ensures p in HandedAll(clients, rows, broken)
    ensures HandedAll(clients, rows, broken)[p] == RowByRow(clients[p], rows)
    decreases |rows|
  {
    if rows != [] {
      var next := if rows[0].event.marker then AllGapped(clients) else Broadcast(clients, rows[0], broken);
      BatchIsRowByRow(next, rows[1..], broken, p);
    }
  }

  function RowByRow(c: Client, rows: seq<Row>): Client
    decreases |rows|
  {
    if rows == [] then c else RowByRow(HandedTo(c, rows[0]), rows[1..])
  }
}
