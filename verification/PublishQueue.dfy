/**
 The publishing side of services/control-api/src/realtime-events.js: a bounded queue in memory that
 is written to the shared event table one entry at a time. A transaction may commit without the
 instance ever hearing of it; the entry is then written again under the same key. Each method is
 the code between two awaits, or one transaction.
 */
module PublishQueue {
  import opened Options

  type Key = nat

  datatype Payload = Plain(event: string) | Marker

  datatype Entry = Entry(key: Key, payload: Payload, bytes: nat)

  datatype Stored = Stored(origin: string, entry: Entry)

  /** {"type":"realtime.resync_required"} */
  const MARKER_BYTES := 35

  /** What publish() did: took the event, started an overflow with it, or dropped it during one. */
  datatype Call = Accepted(event: string) | Overflowed | Dropped

  /** The publish calls in order, each overflow replaced by one marker in its place. */
  function Expected(calls: seq<Call>): seq<Payload> {
    if calls == [] then [] else
    Expected(calls[..|calls| - 1]) +
      match calls[|calls| - 1]
      case Accepted(event) => [Plain(event)]
      case Overflowed => [Marker]
      case Dropped => []
  }

  function Payloads(entries: seq<Entry>): (p: seq<Payload>)
    ensures |p| == |entries| && forall i :: 0 <= i < |p| ==> p[i] == entries[i].payload
  {
    if entries == [] then [] else Payloads(entries[..|entries| - 1]) + [entries[|entries| - 1].payload]
  }

  function Bytes(entries: seq<Entry>): nat {
    if entries == [] then 0 else entries[0].bytes + Bytes(entries[1..])
  }

  function Mine(rows: seq<Stored>, origin: string): seq<Entry> {
    if rows == [] then []
    else if rows[|rows| - 1].origin == origin then Mine(rows[..|rows| - 1], origin) + [rows[|rows| - 1].entry]
    else Mine(rows[..|rows| - 1], origin)
  }

  predicate HasKey(rows: seq<Stored>, key: Key) {
    exists r <- rows :: r.entry.key == key
  }

  ghost predicate DistinctKeys(entries: seq<Entry>) {
    forall i, j :: 0 <= i < j < |entries| ==> entries[i].key != entries[j].key
  }

  lemma {:induction false} BytesAppend(entries: seq<Entry>, e: Entry)
    ensures Bytes(entries + [e]) == Bytes(entries) + e.bytes
  {
    if entries == [] {
      assert [e][1..] == [] && entries + [e] == [e];
    } else {
      assert (entries + [e])[1..] == entries[1..] + [e];
      BytesAppend(entries[1..], e);
    }
  }

  lemma NoBytes()
    ensures Bytes([]) == 0
  {
  }

  lemma PayloadsAppend(entries: seq<Entry>, e: Entry)
    ensures Payloads(entries + [e]) == Payloads(entries) + [e.payload]
  {
  }

  // ---------------------------------------------------------------- invariants

  /** Calls are dropped only while an overflow is on. */
  ghost predicate CallsOk(calls: seq<Call>, overflowed: bool) {
    && (forall i :: 0 < i < |calls| && calls[i].Dropped? ==> !calls[i - 1].Accepted?)
    && (calls != [] ==> !calls[0].Dropped?)
    && (overflowed ==> calls != [] && !calls[|calls| - 1].Accepted?)
  }

  /** Everything published, in order: stored, waiting, and the marker of an overflow that is still on. */
  ghost predicate InOrder(calls: seq<Call>, done: seq<Entry>, outstanding: seq<Entry>, overflowed: bool) {
    && Payloads(done) + Payloads(outstanding) + (if overflowed then [Marker] else []) == Expected(calls)
    && CallsOk(calls, overflowed)
  }

  ghost predicate KeysOk(keys: set<Key>, outstanding: seq<Entry>) {
    DistinctKeys(outstanding) && forall i :: 0 <= i < |outstanding| ==> outstanding[i].key in keys
  }

  /** The table has what is known to be stored, and the first waiting entry if its commit went unheard. */
  ghost predicate TableOk(rows: seq<Stored>, origin: string, done: seq<Entry>, outstanding: seq<Entry>,
                          headStored: bool)
  {
    && (headStored ==> outstanding != [])
    && Mine(rows, origin) == done + (if headStored then outstanding[..1] else [])
    && forall i :: 0 <= i < |outstanding| ==> (HasKey(rows, outstanding[i].key) <==> headStored && i == 0)
  }

  /** The bounds, and the exact byte count; a marker goes into an empty queue whatever the limits are. */
  ghost predicate SizeOk(queue: seq<Entry>, bytes: nat, maxQueuedEvents: nat, maxQueueBytes: nat) {
    && bytes == Bytes(queue)
    && |queue| <= (if maxQueuedEvents < 1 then 1 else maxQueuedEvents)
    && bytes <= (if maxQueueBytes < MARKER_BYTES then MARKER_BYTES else maxQueueBytes)
  }

  lemma EnqueueKeeps(keys: set<Key>, rows: seq<Stored>, origin: string, done: seq<Entry>, outstanding: seq<Entry>,
                     headStored: bool, e: Entry)
    requires KeysOk(keys, outstanding) && TableOk(rows, origin, done, outstanding, headStored)
    requires e.key !in keys && !HasKey(rows, e.key)
    ensures KeysOk(keys + {e.key}, outstanding + [e]) && TableOk(rows, origin, done, outstanding + [e], headStored)
  {
  }

  lemma AcceptedInOrder(calls: seq<Call>, done: seq<Entry>, outstanding: seq<Entry>, e: Entry)
    requires InOrder(calls, done, outstanding, false) && e.payload.Plain?
    ensures InOrder(calls + [Accepted(e.payload.event)], done, outstanding + [e], false)
  {
  }

  lemma OverflowInOrder(calls: seq<Call>, done: seq<Entry>, outstanding: seq<Entry>, overflowed: bool)
    requires InOrder(calls, done, outstanding, overflowed)
    ensures InOrder(calls + [if overflowed then Dropped else Overflowed], done, outstanding, true)
  {
  }

  lemma MarkerInOrder(calls: seq<Call>, done: seq<Entry>, marker: Entry)
    requires InOrder(calls, done, [], true) && marker.payload.Marker?
    ensures InOrder(calls, done, [marker], false)
  {
  }

  lemma StoredInOrder(calls: seq<Call>, done: seq<Entry>, outstanding: seq<Entry>, overflowed: bool)
    requires InOrder(calls, done, outstanding, overflowed) && outstanding != []
    ensures InOrder(calls, done + [outstanding[0]], outstanding[1..], overflowed)
  {
    hide Payloads, Expected;
    PayloadsAppend(done, outstanding[0]);
    assert Payloads(outstanding) == [outstanding[0].payload] + Payloads(outstanding[1..]);
  }

  /** The head's commit is heard of. */
  lemma ShiftKeeps(keys: set<Key>, rows: seq<Stored>, origin: string, done: seq<Entry>, outstanding: seq<Entry>)
    requires KeysOk(keys, outstanding) && TableOk(rows, origin, done, outstanding, true)
    ensures KeysOk(keys, outstanding[1..]) && TableOk(rows, origin, done + [outstanding[0]], outstanding[1..], false)
  {
  }

  /** The head's transaction commits: its row is new, or was stored by an earlier attempt. */
  lemma InsertKeeps(keys: set<Key>, rows: seq<Stored>, origin: string, done: seq<Entry>, outstanding: seq<Entry>,
                    headStored: bool)
    requires KeysOk(keys, outstanding) && TableOk(rows, origin, done, outstanding, headStored) && outstanding != []
    ensures var e := outstanding[0];
            var next := if HasKey(rows, e.key) then rows else rows + [Stored(origin, e)];
            TableOk(next, origin, done, outstanding, true) && Mine(next, origin) == done + [e]
  {
  }

  /** Rows of other instances do not disturb. */
  lemma ForeignInsertKeeps(keys: set<Key>, rows: seq<Stored>, r: Stored, origin: string, done: seq<Entry>,
                           outstanding: seq<Entry>, headStored: bool)
    requires KeysOk(keys, outstanding) && TableOk(rows, origin, done, outstanding, headStored)
    requires r.origin != origin && r.entry.key !in keys
    ensures TableOk(rows + [r], origin, done, outstanding, headStored)
  {
  }

  /** The table all instances share; rows that retention deletes are not forgotten here. */
  class EventTable {
    var rows: seq<Stored>

    constructor ()
      ensures rows == []
    {
      rows := [];
    }

    /** INSERT ... ON CONFLICT (event_key), under the write lock. */
    method Insert(origin: string, e: Entry)
      modifies this
      ensures rows == if HasKey(old(rows), e.key) then old(rows) else old(rows) + [Stored(origin, e)]
    {
      if HasKey(rows, e.key) { return; }
      rows := rows + [Stored(origin, e)];
    }
  }

  class EventQueue {
    const instanceId: string
    const maxQueuedEvents: nat
    const maxQueueBytes: nat
    const table: EventTable
    var publishQueue: seq<Entry>
    var publishQueueBytes: nat
    var overflowed: bool
    var publishing: bool
    var closing: bool
    var closed: bool
    /** The entry whose transaction is under way. */
    var current: Option<Entry>

    /** All publish calls, all keys given out, the entries known to be stored, those not yet known to be. */
    ghost var calls: seq<Call>
    ghost var keys: set<Key>
    ghost var done: seq<Entry>
    ghost var outstanding: seq<Entry>
    ghost var headStored: bool

    /** All but this: an overflow is waiting behind something. */
    ghost predicate Consistent()
      reads this, table
    {
      && InOrder(calls, done, outstanding, overflowed) && KeysOk(keys, outstanding)
      && TableOk(table.rows, instanceId, done, outstanding, headStored)
      && publishQueue == (if closed then [] else outstanding)
      && SizeOk(publishQueue, publishQueueBytes, maxQueuedEvents, maxQueueBytes)
      && (closed ==> closing) && (publishing <==> current.Some?)
      && (current.Some? ==> outstanding != [] && current.value == outstanding[0])
    }

    ghost predicate Valid()
      reads this, table
    {
      Consistent() && (overflowed ==> outstanding != [])
    }

    constructor (instanceId: string, maxQueuedEvents: nat, maxQueueBytes: nat, table: EventTable)
      requires Mine(table.rows, instanceId) == []
      ensures Valid() && calls == [] && this.table == table
    {
      this.instanceId := instanceId;
      this.maxQueuedEvents := maxQueuedEvents;
      this.maxQueueBytes := maxQueueBytes;
      this.table := table;
      publishQueue, publishQueueBytes, overflowed := [], 0, false;
      publishing, closing, closed, current := false, false, false, None;
      calls, keys, done, outstanding, headStored := [], {}, [], [], false;
    }

    predicate Full(bytes: nat)
      reads this
    {
      |publishQueue| >= maxQueuedEvents || publishQueueBytes + bytes > maxQueueBytes
    }

    ghost predicate Fresh(key: Key)
      reads this, table
    {
      key !in keys && !HasKey(table.rows, key)
    }

    /** publish(); a random key never repeats. */
    method Publish(event: string, bytes: nat, key: Key, markerKey: Key)
      requires Valid() && Fresh(key) && Fresh(markerKey) && key != markerKey
      modifies this
      ensures Valid() && closing == old(closing) && done == old(done)
      ensures calls == if old(closing) then old(calls)
                       else old(calls) + [if old(overflowed) then Dropped
                                          else if old(|publishQueue| >= maxQueuedEvents
                                                      || publishQueueBytes + bytes > maxQueueBytes) then Overflowed
                                          else Accepted(event)]
      ensures publishQueue ==
              if old(closing || overflowed) then old(publishQueue)
              else if !old(Full(bytes)) then old(publishQueue) + [Entry(key, Plain(event), bytes)]
              else if old(publishQueue) == [] then [Entry(markerKey, Marker, MARKER_BYTES)]
              else old(publishQueue)
      ensures !closing && !old(overflowed) ==> (publishing <==> publishQueue != [])
    {
      hide InOrder, KeysOk, TableOk, HasKey, Bytes, Payloads, Expected, Mine, DistinctKeys;
      if closing || closed { return; }
      if overflowed || Full(bytes) { OverflowInOrder(calls, done, outstanding, overflowed); }
      if overflowed {
        calls := calls + [Dropped];
        return;
      }
      if Full(bytes) {
        overflowed := true;
        calls := calls + [Overflowed];
        Flush(markerKey);
        return;
      }
      var e := Entry(key, Plain(event), bytes);
      BytesAppend(publishQueue, e);
      AcceptedInOrder(calls, done, outstanding, e);
      EnqueueKeeps(keys, table.rows, instanceId, done, outstanding, headStored, e);
      publishQueue := publishQueue + [e];
      publishQueueBytes := publishQueueBytes + bytes;
      outstanding, keys, calls := outstanding + [e], keys + {key}, calls + [Accepted(event)];
      Flush(markerKey);
    }

    /** #flushPublishQueue up to its first await; the retry timer runs it too. */
    method Flush(markerKey: Key)
      requires Consistent() && Fresh(markerKey) && (publishing ==> outstanding != [])
      requires closed && overflowed ==> outstanding != []
      modifies this
      ensures Valid() && closing == old(closing) && closed == old(closed) && done == old(done) && calls == old(calls)
      ensures publishQueue == if old(!closed && !publishing && overflowed && publishQueue == [])
                              then [Entry(markerKey, Marker, MARKER_BYTES)] else old(publishQueue)
      ensures !closed ==> (publishing <==> publishQueue != [])
    {
      if publishing || closed { return; }
      publishing := true;
      Advance(markerKey);
    }

    /** The head of the while loop: the marker follows when the queue is empty; then the next entry is written. */
    method Advance(markerKey: Key)
      requires publishing && !closed && Fresh(markerKey) && publishQueue == outstanding
      requires InOrder(calls, done, outstanding, overflowed) && KeysOk(keys, outstanding)
      requires TableOk(table.rows, instanceId, done, outstanding, headStored)
      requires SizeOk(publishQueue, publishQueueBytes, maxQueuedEvents, maxQueueBytes)
      modifies this
      ensures Valid() && closing == old(closing) && closed == old(closed) && done == old(done) && calls == old(calls)
      ensures publishQueue == if old(overflowed && publishQueue == []) then [Entry(markerKey, Marker, MARKER_BYTES)]
                              else old(publishQueue)
      ensures publishing <==> publishQueue != []
    {
      hide InOrder, KeysOk, TableOk, HasKey, Bytes;
      if publishQueue == [] && overflowed {
        var marker := Entry(markerKey, Marker, MARKER_BYTES);
        MarkerInOrder(calls, done, marker);
        EnqueueKeeps(keys, table.rows, instanceId, done, outstanding, headStored, marker);
        BytesAppend(publishQueue, marker);
        NoBytes();
        assert outstanding + [marker] == [marker];
        publishQueue := publishQueue + [marker];
        publishQueueBytes := publishQueueBytes + MARKER_BYTES;
        overflowed := false;
        outstanding, keys := outstanding + [marker], keys + {markerKey};
      }
      publishing := publishQueue != [];
      current := if publishing then Some(publishQueue[0]) else None;
    }

    /** The transaction under way commits, heard of or not. */
    method TransactionCommits()
      requires Valid() && current.Some?
      modifies this, table
      ensures Valid() && headStored && calls == old(calls) && current == old(current)
      ensures Mine(table.rows, instanceId) == done + [current.value]
    {
      hide InOrder, KeysOk, TableOk, HasKey, SizeOk, Mine;
      InsertKeeps(keys, table.rows, instanceId, done, outstanding, headStored);
      table.Insert(instanceId, current.value);
      headStored := true;
    }

    /**
     The await on #persist ends. It returns normally only after the commit; it throws before or after it. Once the
     queue has been dropped the shift finds nothing, which ends the loop like a failure.
     */
    method PersistReturns(normally: bool, markerKey: Key)
      requires Valid() && Fresh(markerKey) && current.Some? && (normally ==> headStored)
      modifies this
      ensures Valid() && closed == old(closed) && calls == old(calls)
      ensures done == if normally && !old(closed) then old(done) + [old(current).value] else old(done)
      ensures !normally || closed ==> !publishing && publishQueue == old(publishQueue)
      ensures normally && !closed ==> (publishing <==> publishQueue != [])
    {
      hide InOrder, KeysOk, TableOk, HasKey;
      if !normally || publishQueue == [] {
        publishing, current := false, None;
        return;
      }
      StoredInOrder(calls, done, outstanding, overflowed);
      ShiftKeeps(keys, table.rows, instanceId, done, outstanding);
      var persisted := publishQueue[0];
      publishQueue := publishQueue[1..];
      publishQueueBytes := publishQueueBytes - persisted.bytes;
      done, outstanding, headStored := done + [persisted], outstanding[1..], false;
      Advance(markerKey);
    }

    method CloseBegins()
      requires Valid()
      modifies this
      ensures Valid() && closing && calls == old(calls) && done == old(done)
    {
      hide InOrder, KeysOk, TableOk, SizeOk;
      closing := true;
    }

    /** The end of close(); what is still waiting at the deadline is dropped. */
    method CloseEnds()
      requires Valid() && closing
      modifies this
      ensures Valid() && closed && calls == old(calls) && done == old(done)
      ensures publishQueue == [] && publishQueueBytes == 0
    {
      hide InOrder, KeysOk, TableOk, HasKey;
      if publishQueue != [] {
        publishQueue, publishQueueBytes := [], 0;
      }
      closed := true;
    }

    method AnotherInstanceInserts(origin: string, e: Entry)
      requires Valid() && origin != instanceId && e.key !in keys
      modifies table
      ensures Valid()
    {
      if !HasKey(table.rows, e.key) {
        ForeignInsertKeeps(keys, table.rows, Stored(origin, e), instanceId, done, outstanding, headStored);
      }
      hide InOrder, KeysOk, TableOk, HasKey;
      table.Insert(origin, e);
    }

    /**
     Until the deadline of close(): the rows this instance has in the table, then what is queued and not yet
     stored, then the marker that is still owed, are exactly what was published, each once and in order.
     */
    lemma QueueRefinesCalls()
      requires Valid() && !closed
      ensures Payloads(Mine(table.rows, instanceId)) + Payloads(if headStored then publishQueue[1..] else publishQueue)
              + (if overflowed then [Marker] else []) == Expected(calls)
    {
      if headStored {
        assert outstanding[..1] == [outstanding[0]];
        StoredInOrder(calls, done, outstanding, overflowed);
      } else {
        assert done + [] == done;
      }
    }

    /** Nothing is lost or doubled, whatever failed on the way: an idle queue has stored all it took. */
    lemma IdleQueueHasStoredAll()
      requires Valid() && !closed && publishQueue == []
      ensures Payloads(Mine(table.rows, instanceId)) == Expected(calls)
    {
    }

    /** After the deadline the table still has a beginning of what was published. */
    lemma TableIsAlwaysAPrefix()
      requires Valid()
      ensures Payloads(Mine(table.rows, instanceId)) <= Expected(calls) && CallsOk(calls, overflowed)
    {
      hide KeysOk, HasKey, Bytes, SizeOk, Payloads, Expected, Mine;
      var tail := if headStored then outstanding[1..] else outstanding;
      if headStored {
        assert outstanding[..1] == [outstanding[0]];
        StoredInOrder(calls, done, outstanding, overflowed);
      } else {
        assert done + [] == done;
      }
      assert InOrder(calls, Mine(table.rows, instanceId), tail, overflowed);
    }
  }
}
