/**
 Three runs that show why the theorems of RealtimeDelivery need their conditions: each mishap really
 loses an update or skips an event.
 */
module RealtimeLosses {
  import opened Options
  import opened RealtimeClients
  import opened RealtimeFanout
  import opened RealtimeDelivery

  /** An event that concerns a settled client, that the drain is past, and that the client never got. */
  ghost predicate IsLost(w: World, p: PeerId, r: Row) {
    && p in w.clients && !w.clients[p].resyncing && r in w.log.committed && r.id <= w.fanout.last
    && Concerns(w.clients[p], r) && !Accounted(w.clients[p], r)
  }

  ghost predicate Leads(w: World, a: Action, next: World) {
    JobsFit(w) && Enabled(w, a) && next == Step(w, a)
  }

  /** Some run from here ends with this event lost for the client. */
  ghost predicate CanLose(w: World, p: PeerId, r: Row) {
    exists actions, end :: IsRun(w, actions, end) && IsLost(end, p, r)
  }

  lemma Here(w: World, p: PeerId, r: Row)
    requires IsLost(w, p, r)
    ensures CanLose(w, p, r)
  {
    assert IsRun(w, [], w);
  }

  lemma Then(w: World, a: Action, next: World, p: PeerId, r: Row)
    requires Leads(w, a, next) && CanLose(next, p, r)
    ensures CanLose(w, p, r)
  {
    var actions, end :| IsRun(next, actions, end) && IsLost(end, p, r);
    assert ([a] + actions)[1..] == actions;
    assert IsRun(w, [a] + actions, end);
  }

  /** A system with one client, and one without. */
  function With(log: Log, f: Fanout, c: Client): World {
    World(log, f, map[1 := c])
  }

  function Without(log: Log, f: Fanout): World {
    World(log, f, map[])
  }

  function After(log: Log, f: Fanout, a: Action, c: Client): Client
    requires log.pruned <= |log.committed| && Fits(log, c.job)
  {
    if Concerned(a, 1) then Worked(log, a, c) else DrainedTo(log, f, a, c)
  }

  lemma OneClientLeads(log: Log, f: Fanout, c: Client, a: Action, d: Client)
    requires log.pruned <= |log.committed| && Fits(log, c.job) && Enabled(With(log, f, c), a)
    requires !a.Connect? && !a.Disconnect?
    requires d == Noted(log, After(log, f, a, c), PassingBy(log, f, a, 1))
    ensures Leads(With(log, f, c), a, With(NextLog(log, a), NextFanout(log, f, a), d))
  {
    hide Worked, DrainedTo, NextFanout, NextLog, Noted, PassingBy;
    var w := With(log, f, c);
    assert NextClients(w, a) == map[1 := d];
  }

  lemma ConnectLeads(log: Log, f: Fanout, principal: Principal, cursor: Option<nat>)
    requires log.pruned <= |log.committed| && (cursor.Some? ==> cursor.value <= LastId(log.committed))
    ensures Leads(Without(log, f), Connect(1, principal, cursor),
                  With(log.(now := log.now + 1), f, Connected(principal, cursor)))
  {
  }

  lemma NoClientLeads(log: Log, f: Fanout, a: Action)
    requires log.pruned <= |log.committed| && Enabled(Without(log, f), a) && !a.Connect? && !a.Disconnect?
    ensures Leads(Without(log, f), a, Without(NextLog(log, a), NextFanout(log, f, a)))
  {
  }

  function StartedAt(sequence: nat): Fanout {
    Fanout(sequence, sequence, Resting, {}, {}, {})
  }

  /** Some run from here ends with this event skipped by the drain. */
  ghost predicate CanSkip(w: World, id: nat) {
    exists actions, end :: IsRun(w, actions, end) && id in end.fanout.skipped
  }

  lemma ThenSkips(w: World, a: Action, next: World, id: nat)
    requires Leads(w, a, next) && CanSkip(next, id)
    ensures CanSkip(w, id)
  {
    var actions, end :| IsRun(next, actions, end) && id in end.fanout.skipped;
    assert ([a] + actions)[1..] == actions;
    assert IsRun(w, [a] + actions, end);
  }

  /** One step before a state of a system with one client. */
  lemma BeforeNoting(log: Log, f: Fanout, c: Client, a: Action, d: Client, later: Log, g: Fanout, r: Row)
    requires log.pruned <= |log.committed| && Fits(log, c.job) && Enabled(With(log, f, c), a)
    requires !a.Connect? && !a.Disconnect?
    requires later == NextLog(log, a) && g == NextFanout(log, f, a)
    requires d == Noted(log, After(log, f, a, c), PassingBy(log, f, a, 1))
    requires CanLose(With(later, g, d), 1, r)
    ensures CanLose(With(log, f, c), 1, r)
  {
    hide CanLose, With, After, NextFanout, NextLog, Enabled, Leads, Noted, PassingBy;
    OneClientLeads(log, f, c, a, d);
    Then(With(log, f, c), a, With(later, g, d), 1, r);
  }

  /** A step that takes no id past the client. */
  lemma Before(log: Log, f: Fanout, c: Client, a: Action, d: Client, later: Log, g: Fanout, r: Row)
    requires log.pruned <= |log.committed| && Fits(log, c.job) && Enabled(With(log, f, c), a)
    requires !a.Connect? && !a.Disconnect?
    requires later == NextLog(log, a) && g == NextFanout(log, f, a)
    requires d == After(log, f, a, c) && PassingBy(log, f, a, 1) == {}
    requires CanLose(With(later, g, d), 1, r)
    ensures CanLose(With(log, f, c), 1, r)
  {
    hide CanLose, With, After, NextFanout, NextLog, Enabled, PassingBy, Noted;
    NothingToNote(log, d);
    BeforeNoting(log, f, c, a, d, later, g, r);
  }

  /** The row in flight passes by and the client misses it. */
  lemma NotesInFlight(log: Log, c: Client, r: Row)
    requires log.inFlight == Some(r) && Concerns(c, r) && !Accounted(c, r)
    requires forall q <- log.committed :: q.id != r.id
    ensures Noted(log, c, {r.id}) == c.(missed := c.missed + {r.id})
  {
    hide Concerns, Accounted;
    assert r in Existing(log);
    assert MissedAmong(log, c, {r.id}) == {r.id};
  }

  /** One step before a state of a system without clients. */
  lemma BeforeSkip(log: Log, f: Fanout, a: Action, later: Log, g: Fanout, id: nat)
    requires log.pruned <= |log.committed| && Enabled(Without(log, f), a) && !a.Connect? && !a.Disconnect?
    requires later == NextLog(log, a) && g == NextFanout(log, f, a)
    requires CanSkip(Without(later, g), id)
    ensures CanSkip(Without(log, f), id)
  {
    hide CanSkip, Without, NextFanout, NextLog, Enabled, Leads;
    NoClientLeads(log, f, a);
    ThenSkips(Without(log, f), a, Without(later, g), id);
  }

  const LATE := Row(1, Event(None, false, 3))

  function Resyncing(job: Job): Client {
    Client(Legacy, true, [], None, job, None, [], None, {})
  }

  /** From the moment the gap has passed the client by. */
  lemma AfterTheGap()
    ensures var f := Fanout(0, 1, Resting, {}, {1}, {});
            CanLose(With(Log(8, [], 0, 1, Some(LATE)), f, Resyncing(TablesRead(0, 2)).(missed := {1})), 1, LATE)
  {
    hide CanLose;
    var f := Fanout(0, 1, Resting, {}, {1}, {});
    var c := Resyncing(TablesRead(0, 2)).(missed := {1});
    var log, committed := Log(8, [], 0, 1, Some(LATE)), Log(9, [LATE], 0, 1, None);
    var d := FinishedSnapshot(c, 0, 2);
    assert CanLose(With(committed, f, c), 1, LATE) by {
      assert d.wire == [Snapshot(0)] && !d.resyncing && d.covered == Some(2) && d.pending == [];
      Here(With(committed.(now := 10), f, d), 1, LATE);
      Before(committed, f, c, FinishSnapshot(1), d, committed.(now := 10), f, LATE);
    }
    assert [] + [LATE] == [LATE];
    Before(log, f, c, CommitInsert, c, committed, f, LATE);
  }

  /** From the moment the row is in flight: the drain finds no rows and jumps to the sequence's last value. */
  lemma AroundTheGap()
    ensures CanLose(With(Log(4, [], 0, 1, Some(LATE)), StartedAt(0), Resyncing(TablesRead(0, 2))), 1, LATE)
  {
    hide CanLose;
    var f, log := StartedAt(0), Log(4, [], 0, 1, Some(LATE));
    var c := Resyncing(TablesRead(0, 2));
    var bounds, high := f.(drain := BoundsRead(0, 0, 0)), f.(drain := HighRead(0, 0, 1, 0));
    var rows := f.(drain := RowsRead(0, 0, 1, 0, 0, 0, []));
    assert CanLose(With(log.(now := 7), rows, c), 1, LATE) by {
      AfterTheGap();
      var g := Fanout(0, 1, Resting, {}, {1}, {});
      assert {} + Between(0, 1) == {1};
      NotesInFlight(log.(now := 7), c, LATE);
      assert {} + {1} == {1};
      BeforeNoting(log.(now := 7), rows, c, HandleRows, c.(missed := {1}), log.(now := 8), g, LATE);
    }
    assert CanLose(With(log.(now := 6), high, c), 1, LATE) by {
      Before(log.(now := 6), high, c, ReadRows, c, log.(now := 7), rows, LATE);
    }
    assert CanLose(With(log.(now := 5), bounds, c), 1, LATE) by {
      Before(log.(now := 5), bounds, c, ReadHigh, c, log.(now := 6), high, LATE);
    }
    Before(log, f, c, ReadBounds, c, log.(now := 5), bounds, LATE);
  }

  /**
   A gap in the middle of a resync: the state is written after the client's tables were read, the gap passes
   the row while it is in flight, and resyncClients passes by the client.
   */
  lemma GapDuringResyncLosesUpdate()
    ensures var w := Without(Log(0, [], 0, 0, None), StartedAt(0));
            Initial(w) && CanLose(w, 1, LATE)
  {
    hide CanLose;
    var f, log := StartedAt(0), Log(0, [], 0, 0, None);
    var due, read, c := Resyncing(SnapshotDue), Resyncing(CursorRead(0)), Resyncing(TablesRead(0, 2));
    assert CanLose(With(log.(now := 3), f, c), 1, LATE) by {
      AroundTheGap();
      Before(log.(now := 3), f, c, Insert(LATE.event), c, Log(4, [], 0, 1, Some(LATE)), f, LATE);
    }
    assert CanLose(With(log.(now := 2), f, read), 1, LATE) by {
      Before(log.(now := 2), f, read, ReadTables(1), c, log.(now := 3), f, LATE);
    }
    assert CanLose(With(log.(now := 1), f, due), 1, LATE) by {
      Before(log.(now := 1), f, due, ReadCursor(1), read, log.(now := 2), f, LATE);
    }
    ConnectLeads(log, f, Legacy, None);
    Then(Without(log, f), Connect(1, Legacy, None), With(log.(now := 1), f, due), 1, LATE);
  }

  // ---------------------------------------------------------------- a replay beside a row in flight

  const SEEN := Row(1, Event(None, false, 0))
  const UNSEEN := Row(2, Event(None, false, 0))

  function Replaying(job: Job, missed: set<nat>): Client {
    Client(Legacy, true, [], Some(1), job, Some(1), [], None, missed)
  }

  /** From the moment the replay has read its rows. */
  lemma AfterTheReplay()
    ensures CanLose(With(Log(4, [SEEN], 0, 2, Some(UNSEEN)), StartedAt(2), Replaying(ReplayRows(1, [], 1), {2})), 1,
                    UNSEEN)
  {
    hide CanLose;
    var f, log := StartedAt(2), Log(5, [SEEN], 0, 2, Some(UNSEEN));
    var rows := Replaying(ReplayRows(1, [], 1), {2});
    var done := FinishedReplay(rows, [], 1);
    assert CanLose(With(log, f, done), 1, UNSEEN) by {
      var end := Log(6, [SEEN, UNSEEN], 0, 2, None);
      assert done.wire == [CursorFrame(1)] && !done.resyncing && done.pending == [] && done.covered == None;
      assert end.committed[1] == UNSEEN && [SEEN] + [UNSEEN] == [SEEN, UNSEEN];
      Here(With(end, f, done), 1, UNSEEN);
      Before(log, f, done, CommitInsert, done, end, f, UNSEEN);
    }
    Before(log.(now := 4), f, rows, FinishReplay(1), done, log, f, UNSEEN);
  }

  /**
   Another instance is in the middle of its insert when start() reads the sequence; a client that comes back
   with the newest committed cursor is replayed to before that insert commits.
   */
  lemma ReplayBesideInsertLosesUpdate()
    ensures var w := Without(Log(1, [SEEN], 0, 2, Some(UNSEEN)), StartedAt(2));
            Initial(w) && CanLose(w, 1, UNSEEN)
  {
    hide CanLose;
    var f, log := StartedAt(2), Log(1, [SEEN], 0, 2, Some(UNSEEN));
    var due, bounds := Replaying(ReplayDue(1), {}), Replaying(ReplayBounds(1, 0, 1, 1), {2});
    assert CanLose(With(log.(now := 3), f, bounds), 1, UNSEEN) by {
      AfterTheReplay();
      assert log.committed[0..1] == [SEEN] && [SEEN][1..] == [];
      Before(log.(now := 3), f, bounds, ReadReplayRows(1), Replaying(ReplayRows(1, [], 1), {2}), log.(now := 4), f,
             UNSEEN);
    }
    assert CanLose(With(log.(now := 2), f, due), 1, UNSEEN) by {
      NotesInFlight(log.(now := 2), Replaying(ReplayBounds(1, 0, 1, 1), {}), UNSEEN);
      assert {} + {2} == {2};
      BeforeNoting(log.(now := 2), f, due, ReadReplayBounds(1), bounds, log.(now := 3), f, UNSEEN);
    }
    ConnectLeads(log, f, Legacy, Some(1));
    Then(Without(log, f), Connect(1, Legacy, Some(1)), With(log.(now := 2), f, due), 1, UNSEEN);
  }

  // ---------------------------------------------------------------- an emptied table that fills again

  /** From the moment the bounds query has seen the emptied table. */
  lemma AfterTheBounds()
    ensures CanSkip(Without(Log(5, [SEEN], 1, 1, None), StartedAt(0).(drain := HighRead(0, 0, 1, 1))), 1)
  {
    hide CanSkip;
    var f, two := StartedAt(0), Log(8, [SEEN, UNSEEN], 1, 2, None);
    var high, rows := f.(drain := HighRead(0, 0, 1, 1)), f.(drain := RowsRead(0, 0, 1, 1, 1, 1, [UNSEEN]));
    var inFlight := Log(6, [SEEN], 1, 2, Some(UNSEEN));
    assert CanSkip(Without(two, rows), 1) by {
      assert two.committed[0] == SEEN && two.committed[1] == UNSEEN;
      assert Overlooked(two, 0, 1) == {1};
      var g := Handed(f, 1, [UNSEEN], {1});
      SkippedHere(Without(two.(now := 9), g), 1);
      BeforeSkip(two, rows, HandleRows, two.(now := 9), g, 1);
    }
    assert CanSkip(Without(two.(now := 7), high), 1) by {
      assert two.committed[1..] == [UNSEEN];
      BeforeSkip(two.(now := 7), high, ReadRows, two, rows, 1);
    }
    assert CanSkip(Without(inFlight, high), 1) by {
      assert [SEEN] + [UNSEEN] == [SEEN, UNSEEN];
      BeforeSkip(inFlight, high, CommitInsert, two.(now := 7), high, 1);
    }
    BeforeSkip(Log(5, [SEEN], 1, 1, None), high, Insert(UNSEEN.event), inFlight, high, 1);
  }

  lemma SkippedHere(w: World, id: nat)
    requires id in w.fanout.skipped
    ensures CanSkip(w, id)
  {
    assert IsRun(w, [], w);
  }

  /**
   The table is pruned empty before the drain has delivered its row, and a new row commits between the bounds
   query and the rows query: no gap is raised and the pruned row is skipped.
   */
  lemma EmptiedTableSkipsEvent()
    ensures var w := Without(Log(0, [], 0, 0, None), StartedAt(0));
            Initial(w) && CanSkip(w, 1)
  {
    hide CanSkip;
    var f, bounds := StartedAt(0), StartedAt(0).(drain := BoundsRead(0, 0, 1));
    var pruned := Log(5, [SEEN], 1, 1, None);
    assert CanSkip(Without(pruned.(now := 4), bounds), 1) by {
      AfterTheBounds();
      BeforeSkip(pruned.(now := 4), bounds, ReadHigh, pruned, f.(drain := HighRead(0, 0, 1, 1)), 1);
    }
    assert CanSkip(Without(pruned.(now := 3), f), 1) by {
      BeforeSkip(pruned.(now := 3), f, ReadBounds, pruned.(now := 4), bounds, 1);
    }
    assert CanSkip(Without(Log(2, [SEEN], 0, 1, None), f), 1) by {
      BeforeSkip(Log(2, [SEEN], 0, 1, None), f, Prune(1), pruned.(now := 3), f, 1);
    }
    assert CanSkip(Without(Log(1, [], 0, 1, Some(SEEN)), f), 1) by {
      assert [] + [SEEN] == [SEEN];
      BeforeSkip(Log(1, [], 0, 1, Some(SEEN)), f, CommitInsert, Log(2, [SEEN], 0, 1, None), f, 1);
    }
    BeforeSkip(Log(0, [], 0, 0, None), f, Insert(SEEN.event), Log(1, [], 0, 1, Some(SEEN)), f, 1);
  }
}
