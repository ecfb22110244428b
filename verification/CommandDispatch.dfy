/**
 Nothing is stranded: what an instance can bring about with its own poll. The runs built here follow
 the code's order of steps and use nothing of the other instances but, at most, the end of a
 transaction that has the row locked.
 */
module CommandDispatch {
  import opened Options
  import opened CommandRows
  import opened CommandOutbox
  import Receipts = CommandReceipts

  /** Time passes, or this instance goes on with its own poll. */
  predicate Alone(step: Step, who: InstanceId) {
    step.Tick? || (Acts(step) && step.who == who && !step.AckArrives? && !step.Connect? && !step.Disconnect?
                   && !step.CloseBegins? && !step.CloseReturnsLeases? && !step.CloseReturnsReconciliations?)
  }

  ghost predicate RunsTo(s: State, steps: seq<Step>, t: State, maxEntries: nat)
    decreases |steps|
  {
    if steps == [] then s == t
    else Enabled(s, steps[0]) && RunsTo(Apply(s, steps[0], maxEntries), steps[1..], t, maxEntries)
  }

  /** Some run of this instance alone leads there. */
  ghost predicate Reaches(s: State, t: State, who: InstanceId, maxEntries: nat) {
    exists steps :: RunsTo(s, steps, t, maxEntries) && forall step <- steps :: Alone(step, who)
  }

  lemma ReachesItself(s: State, who: InstanceId, maxEntries: nat)
    ensures Reaches(s, s, who, maxEntries)
  {
    assert RunsTo(s, [], s, maxEntries);
  }

  lemma {:induction false} RunsJoin(s: State, a: seq<Step>, t: State, b: seq<Step>, u: State, maxEntries: nat)
    requires RunsTo(s, a, t, maxEntries) && RunsTo(t, b, u, maxEntries)
    ensures RunsTo(s, a + b, u, maxEntries)
    decreases |a|
  {
    hide Enabled, Apply;
    if a == [] {
      assert a + b == b;
    } else {
      assert (a + b)[1..] == a[1..] + b;
      RunsJoin(Apply(s, a[0], maxEntries), a[1..], t, b, u, maxEntries);
    }
  }

  lemma ReachesOn(s: State, t: State, u: State, who: InstanceId, maxEntries: nat)
    requires Reaches(s, t, who, maxEntries) && Reaches(t, u, who, maxEntries)
    ensures Reaches(s, u, who, maxEntries)
  {
    hide RunsTo, Alone;
    var a :| RunsTo(s, a, t, maxEntries) && forall step <- a :: Alone(step, who);
    var b :| RunsTo(t, b, u, maxEntries) && forall step <- b :: Alone(step, who);
    RunsJoin(s, a, t, b, u, maxEntries);
  }

  /**
   The command is the same and unfinished, the others are where they were, and this instance stays open and
   connected.
   */
  ghost predicate Frame(s: State, t: State, who: InstanceId, id: CommandId) {
    && id in s.rows && id in t.rows && t.rows[id].command == s.rows[id].command
    && !Finished(s.rows[id]) && !Finished(t.rows[id])
    && (forall j :: j != who ==> InstanceOf(t, j) == InstanceOf(s, j))
    && (forall j :: j != who ==> (j in t.instances <==> j in s.instances))
    && InstanceOf(t, who).closing == InstanceOf(s, who).closing
    && InstanceOf(t, who).connected == InstanceOf(s, who).connected
  }

  ghost predicate Follow(s: State, t: State, who: InstanceId, id: CommandId, maxEntries: nat) {
    Inv(t, maxEntries) && Reaches(s, t, who, maxEntries) && Frame(s, t, who, id)
  }

  lemma FollowsOn(s: State, t: State, u: State, who: InstanceId, id: CommandId, maxEntries: nat)
    requires Follow(s, t, who, id, maxEntries) && Follow(t, u, who, id, maxEntries)
    ensures Follow(s, u, who, id, maxEntries)
  {
    hide Inv, Reaches;
    ReachesOn(s, t, u, who, maxEntries);
  }

  lemma Stay(s: State, who: InstanceId, id: CommandId, maxEntries: nat)
    requires Inv(s, maxEntries) && id in s.rows && !Finished(s.rows[id])
    ensures Follow(s, s, who, id, maxEntries)
  {
    hide Inv;
    ReachesItself(s, who, maxEntries);
  }

  lemma OneStepRuns(s: State, step: Step, maxEntries: nat)
    requires Enabled(s, step)
    ensures RunsTo(s, [step], Apply(s, step, maxEntries), maxEntries)
  {
    hide Enabled, Apply;
    assert [step][1..] == [];
  }

  lemma OwnStepLeavesOthers(s: State, step: Step, who: InstanceId)
    requires Alone(step, who)
    ensures forall j :: j != who ==> (j in InstancesAfter(s, step) <==> j in s.instances)
    ensures forall j :: j != who && j in s.instances ==> InstancesAfter(s, step)[j] == s.instances[j]
    ensures Acts(step) ==> NextInstance(InstanceOf(s, who), step).closing == InstanceOf(s, who).closing
                           && NextInstance(InstanceOf(s, who), step).connected == InstanceOf(s, who).connected
  {
  }

  lemma CommandStays(s: State, step: Step, id: CommandId, maxEntries: nat)
    requires Inv(s, maxEntries) && Enabled(s, step) && id in s.rows
    ensures var t := Apply(s, step, maxEntries).rows;
            id in t && Follows(id, s.rows[id], t[id], StatementOf(s, step))
  {
    hide Enabled, Apply, StatementOf, Follows, FinishedWasBegun, MessagesOk, DaemonsOk, HandledOk, InstancesOk, RowsOk;
    StepIsFinal(s, step, maxEntries, id);
  }

  lemma AloneGivesNoVerdict(s: State, step: Step, who: InstanceId, id: CommandId, r: Row, q: Row)
    requires Alone(step, who) && !Finished(r) && Follows(id, r, q, StatementOf(s, step))
    ensures !Finished(q) && q.command == r.command
  {
    hide KeepsLeases, RowOk;
  }

  lemma NextFrame(s: State, step: Step, who: InstanceId, id: CommandId, maxEntries: nat)
    requires Inv(s, maxEntries) && Enabled(s, step) && Alone(step, who) && id in s.rows && !Finished(s.rows[id])
    ensures Frame(s, Apply(s, step, maxEntries), who, id)
  {
    hide Apply, Enabled, Follows, NextInstance, Inv, Alone, Finished, StatementOf;
    CommandStays(s, step, id, maxEntries);
    AloneGivesNoVerdict(s, step, who, id, s.rows[id], Apply(s, step, maxEntries).rows[id]);
    AloneIsOwn(step, who);
    OwnStepLeavesOthers(s, step, who);
    ApplyInstances(s, step, maxEntries);
  }

  lemma ApplyInstances(s: State, step: Step, maxEntries: nat)
    ensures Apply(s, step, maxEntries).instances == InstancesAfter(s, step)
  {
    hide Execute, StoreAfter, MessagesAfter, StatementOf, NextInstance;
  }

  lemma AloneIsOwn(step: Step, who: InstanceId)
    requires Alone(step, who)
    ensures Acts(step) ==> step.who == who
  {
  }

  /** Take one own step. */
  lemma Do(s: State, step: Step, who: InstanceId, id: CommandId, maxEntries: nat) returns (t: State)
    requires maxEntries >= 1 && Inv(s, maxEntries) && Enabled(s, step) && Alone(step, who)
    requires id in s.rows && !Finished(s.rows[id])
    ensures t == Apply(s, step, maxEntries) && Follow(s, t, who, id, maxEntries)
  {
    t := Apply(s, step, maxEntries);
    StepKeepsInv(s, step, maxEntries);
    OneStepRuns(s, step, maxEntries);
    NextFrame(s, step, who, id, maxEntries);
    hide Inv, Apply, Enabled, Frame, RunsTo;
    assert forall x <- [step] :: Alone(x, who);
  }

  /** A step of an instance, part by part. */
  lemma PartsOfStep(s: State, step: Step, maxEntries: nat)
    requires Acts(step)
    ensures var t := Apply(s, step, maxEntries);
            && t.rows == Execute(s.rows, StatementOf(s, step), s.now) && t.now == s.now
            && t.instances == s.instances[step.who := NextInstance(InstanceOf(s, step.who), step)]
            && InstanceOf(t, step.who) == NextInstance(InstanceOf(s, step.who), step)
  {
    hide Execute, StoreAfter, StatementOf, NextInstance;
  }

  // ---------------------------------------------------------------- the leases

  /** Statuses, owners and leases are the same. */
  ghost predicate SameLeases(s: State, t: State) {
    && t.now == s.now && t.rows.Keys == s.rows.Keys && s.sent <= t.sent
    && forall x :: x in s.rows ==>
         && t.rows[x].status == s.rows[x].status && t.rows[x].owner == s.rows[x].owner
         && t.rows[x].lease == s.rows[x].lease
         && t.rows[x].command == s.rows[x].command && t.rows[x].createdAt == s.rows[x].createdAt
  }

  predicate AboutReconciliation(stmt: Statement) {
    stmt.Nothing? || stmt.ReleaseReconciliations? || stmt.ClaimReconciliations? || stmt.CompleteReconciliation?
  }

  lemma RowKeepsLease(r: Row, stmt: Statement, now: nat)
    requires AboutReconciliation(stmt)
    ensures var q := Updated(r, stmt, now);
            && q.status == r.status && q.owner == r.owner && q.lease == r.lease
            && q.command == r.command && q.createdAt == r.createdAt
  {
  }

  lemma ReconcilingKeepsLeases(s: State, step: Step, maxEntries: nat)
    requires AboutReconciliation(StatementOf(s, step)) && Acts(step)
    ensures SameLeases(s, Apply(s, step, maxEntries))
  {
    hide StatementOf, StoreAfter, InstancesAfter, Updated;
    forall x | x in s.rows { RowKeepsLease(s.rows[x], StatementOf(s, step), s.now); }
  }

  lemma LeasesOn(s: State, t: State, u: State)
    requires SameLeases(s, t) && SameLeases(t, u)
    ensures SameLeases(s, u)
  {
  }

  /** A run of this instance alone that touched no lease. */
  ghost predicate Then(s: State, t: State, who: InstanceId, id: CommandId, maxEntries: nat) {
    Follow(s, t, who, id, maxEntries) && SameLeases(s, t)
  }

  lemma ThenNothing(s: State, who: InstanceId, id: CommandId, maxEntries: nat)
    requires Inv(s, maxEntries) && id in s.rows && !Finished(s.rows[id])
    ensures Then(s, s, who, id, maxEntries)
  {
    Stay(s, who, id, maxEntries);
    hide Inv;
  }

  lemma ThenOn(s: State, t: State, u: State, who: InstanceId, id: CommandId, maxEntries: nat)
    requires Then(s, t, who, id, maxEntries) && Then(t, u, who, id, maxEntries)
    ensures Then(s, u, who, id, maxEntries)
  {
    FollowsOn(s, t, u, who, id, maxEntries);
    LeasesOn(s, t, u);
  }

  lemma InvOf(s: State, t: State, who: InstanceId, id: CommandId, maxEntries: nat)
    requires Follow(s, t, who, id, maxEntries)
    ensures Inv(t, maxEntries) && id in s.rows && id in t.rows && !Finished(t.rows[id])
    ensures t.rows[id].command == s.rows[id].command
    ensures InstanceOf(t, who).closing == InstanceOf(s, who).closing
    ensures InstanceOf(t, who).connected == InstanceOf(s, who).connected
  {
    hide Inv;
  }

  /** The steps of a poll that touch no lease. */
  predicate Quiet(step: Step, who: InstanceId) {
    Alone(step, who) && Acts(step) && !step.ClaimPending? && !step.SweepLeases? && !step.SendReturned?
  }

  lemma QuietStatement(s: State, step: Step, who: InstanceId)
    requires Quiet(step, who)
    ensures AboutReconciliation(StatementOf(s, step)) && Alone(step, who) && Acts(step) && step.who == who
  {
  }

  /** One more quiet step. */
  lemma DoQuietly(s: State, t: State, step: Step, who: InstanceId, id: CommandId, maxEntries: nat) returns (u: State)
    requires maxEntries >= 1 && Then(s, t, who, id, maxEntries) && Enabled(t, step) && Quiet(step, who)
    ensures Then(s, u, who, id, maxEntries)
    ensures InstanceOf(u, who) == NextInstance(InstanceOf(t, who), step)
    ensures u == Apply(t, step, maxEntries)
  {
    hide Inv, Enabled, Frame, Execute, StoreAfter, MessagesAfter, Quiet, StatementOf, NextInstance, SameLeases, Reaches;
    InvOf(s, t, who, id, maxEntries);
    QuietStatement(t, step, who);
    u := Do(t, step, who, id, maxEntries);
    ReconcilingKeepsLeases(t, step, maxEntries);
    hide Follow;
    ThenOn(s, t, u, who, id, maxEntries);
  }

  // ---------------------------------------------------------------- to the end of a poll

  /** The loop over the failed commands comes to its end. */
  lemma {:induction false} DrainHandling(s: State, t: State, who: InstanceId, id: CommandId, maxEntries: nat)
    returns (u: State)
    requires maxEntries >= 1 && Then(s, t, who, id, maxEntries) && InstanceOf(t, who).poll.Handling?
    ensures Then(s, u, who, id, maxEntries)
    ensures InstanceOf(u, who).poll == Handling(InstanceOf(t, who).poll.machines, {}, None)
    decreases |InstanceOf(t, who).poll.todo|, if InstanceOf(t, who).poll.returned.Some? then 1 else 0
  {
    hide Apply, Then, StatementOf, IsOldest;
    var poll := InstanceOf(t, who).poll;
    if poll.returned.Some? {
      var v := DoQuietly(s, t, HandledUpdate(who, false), who, id, maxEntries);
      SmallerWithout(poll.todo, poll.returned.value);
      u := DrainHandling(s, v, who, id, maxEntries);
    } else if poll.todo != {} {
      var x :| x in poll.todo;
      TodoIsThere(s, t, who, id, x, maxEntries);
      var v := DoQuietly(s, t, Handle(who, x, 0, ThrowsBefore), who, id, maxEntries);
      SmallerWithout(poll.todo, x);
      u := DrainHandling(s, v, who, id, maxEntries);
    } else {
      u := t;
    }
  }

  lemma SmallerWithout(todo: set<CommandId>, x: CommandId)
    ensures |todo - {x}| <= |todo| && (x in todo ==> |todo - {x}| < |todo|)
  {
    if x !in todo { assert todo - {x} == todo; }
  }

  lemma TodoIsThere(s: State, t: State, who: InstanceId, id: CommandId, x: CommandId, maxEntries: nat)
    requires Then(s, t, who, id, maxEntries)
    requires var poll := InstanceOf(t, who).poll; (poll.Handling? || poll.Sending?) && x in poll.todo
    ensures x in t.rows
  {
    hide MessagesOk, DaemonsOk, HandledOk, FinishedWasBegun, Disjoint, Reaches, SameLeases, Frame;
    assert PollOk(t.rows, t.handled, t.instances[who]);
  }

  lemma LeavesHandling(s: State, t: State, who: InstanceId, id: CommandId, maxEntries: nat) returns (u: State)
    requires maxEntries >= 1 && Then(s, t, who, id, maxEntries)
    ensures Then(s, u, who, id, maxEntries) && !InstanceOf(u, who).poll.Handling?
  {
    hide Inv, Apply, Then, StatementOf, IsOldest;
    u := t;
    if InstanceOf(t, who).poll.Handling? {
      u := DrainHandling(s, t, who, id, maxEntries);
      u := DoQuietly(s, u, EndHandling(who), who, id, maxEntries);
    }
  }

  lemma LeavesSending(s: State, t: State, who: InstanceId, id: CommandId, maxEntries: nat) returns (u: State)
    requires maxEntries >= 1 && Then(s, t, who, id, maxEntries) && !InstanceOf(t, who).poll.Handling?
    ensures Then(s, u, who, id, maxEntries)
    ensures var poll := InstanceOf(u, who).poll; !poll.Handling? && (poll.Sending? ==> poll.unsent.Some?)
  {
    hide Inv, Apply, Then, StatementOf, IsOldest;
    u := t;
    var poll := InstanceOf(t, who).poll;
    if poll.Sending? && poll.unsent.None? {
      if poll.todo == {} {
        u := DoQuietly(s, t, EndSending(who), who, id, maxEntries);
      } else {
        var x :| x in poll.todo;
        u := DoQuietly(s, t, SendThrows(who, x), who, id, maxEntries);
      }
    }
  }

  /** Whatever the poll is doing, it can come to rest without touching a lease. */
  lemma ComesToRest(s: State, who: InstanceId, id: CommandId, maxEntries: nat) returns (t: State)
    requires maxEntries >= 1 && Inv(s, maxEntries) && id in s.rows && !Finished(s.rows[id])
    ensures Then(s, t, who, id, maxEntries) && InstanceOf(t, who).poll.Resting?
  {
    hide Inv, Apply, Then, StatementOf, IsOldest;
    ThenNothing(s, who, id, maxEntries);
    t := LeavesHandling(s, s, who, id, maxEntries);
    t := LeavesSending(s, t, who, id, maxEntries);
    if !InstanceOf(t, who).poll.Resting? {
      t := DoQuietly(s, t, PollFails(who), who, id, maxEntries);
    }
  }

  // ---------------------------------------------------------------- waiting

  /** Time passes until a moment; nothing else happens. */
  lemma {:induction false} Wait(s: State, until: nat, who: InstanceId, id: CommandId, maxEntries: nat)
    returns (t: State)
    requires maxEntries >= 1 && Inv(s, maxEntries) && id in s.rows && !Finished(s.rows[id])
    ensures Follow(s, t, who, id, maxEntries) && t.now >= until
    ensures t.rows == s.rows && InstanceOf(t, who) == InstanceOf(s, who)
    decreases until - s.now
  {
    hide Inv, Follow, Frame;
    if s.now >= until {
      t := s;
      Stay(s, who, id, maxEntries);
    } else {
      var u := Do(s, Tick, who, id, maxEntries);
      assert Execute(s.rows, Nothing, s.now) == s.rows;
      InvOf(s, u, who, id, maxEntries);
      t := Wait(u, until, who, id, maxEntries);
      FollowsOn(s, u, t, who, id, maxEntries);
    }
  }

  // ---------------------------------------------------------------- one poll

  /** From rest to the lease sweep: the reconciliations are worked off, no lease is touched. */
  lemma CatchesUp(s: State, who: InstanceId, id: CommandId, maxEntries: nat) returns (t: State)
    requires maxEntries >= 1 && Inv(s, maxEntries) && id in s.rows && !Finished(s.rows[id])
    requires InstanceOf(s, who).closing.Open? && InstanceOf(s, who).poll.Resting? && InstanceOf(s, who).connected != {}
    ensures Then(s, t, who, id, maxEntries) && InstanceOf(t, who).poll == CaughtUp(InstanceOf(s, who).connected)
  {
    hide Inv, Apply, Then, StatementOf, IsOldest;
    ThenNothing(s, who, id, maxEntries);
    t := DoQuietly(s, s, PollBegins(who), who, id, maxEntries);
    t := DoQuietly(s, t, SweepReconciliations(who), who, id, maxEntries);
    var ids := SomeIsOldest(EligibleFailed(t, who), UpdateTimes(t.rows));
    t := DoQuietly(s, t, SelectFailed(who, ids), who, id, maxEntries);
    t := DoQuietly(s, t, ClaimFailed(who, true), who, id, maxEntries);
    t := DrainHandling(s, t, who, id, maxEntries);
    t := DoQuietly(s, t, EndHandling(who), who, id, maxEntries);
  }

  /** No lease has run out. */
  ghost predicate AllFresh(s: State) {
    forall x :: x in s.rows ==> !(s.rows[x].status == Dispatching && Expired(s.rows[x].lease, s.now))
  }

  lemma SweptRows(rows: Table, now: nat)
    ensures var t := Execute(rows, ReleaseExpired, now);
            && t.Keys == rows.Keys
            && forall x :: x in rows ==>
                 if rows[x].status == Dispatching && Expired(rows[x].lease, now) then t[x].status == Pending
                 else t[x] == rows[x]
  {
  }

  lemma SweepsFresh(s: State, t: State)
    requires RowsOk(s.rows) && t.rows == Execute(s.rows, ReleaseExpired, s.now) && t.now == s.now && s.sent <= t.sent
    ensures AllFresh(t) && (AllFresh(s) ==> SameLeases(s, t))
    ensures forall x :: x in s.rows && (s.rows[x].status == Pending || Expired(s.rows[x].lease, s.now)) ==>
              x in t.rows && t.rows[x].status == Pending
  {
    hide Execute;
    SweptRows(s.rows, s.now);
  }

  /** The lease sweep: every expired lease is gone, and the row of an expired one is pending. */
  lemma Sweeps(s: State, who: InstanceId, id: CommandId, maxEntries: nat) returns (t: State)
    requires maxEntries >= 1 && Inv(s, maxEntries) && id in s.rows && !Finished(s.rows[id])
    requires InstanceOf(s, who).poll.CaughtUp?
    ensures Follow(s, t, who, id, maxEntries) && AllFresh(t) && t.now == s.now
    ensures InstanceOf(t, who).poll == Released(InstanceOf(s, who).poll.machines)
    ensures s.rows[id].status == Pending || Expired(s.rows[id].lease, s.now) ==> t.rows[id].status == Pending
    ensures AllFresh(s) ==> SameLeases(s, t)
  {
    hide Inv, Follow, Apply, SameLeases, AllFresh, Expired, RowsOk;
    t := Do(s, SweepLeases(who), who, id, maxEntries);
    PartsOfStep(s, SweepLeases(who), maxEntries);
    SentSame(s, SweepLeases(who), maxEntries);
    RowsOkOf(s, maxEntries);
    SweepsFresh(s, t);
    InvOf(s, t, who, id, maxEntries);
  }

  lemma SentSame(s: State, step: Step, maxEntries: nat)
    requires Acts(step) && !step.Send?
    ensures Apply(s, step, maxEntries).sent == s.sent
  {
    hide StoreAfter, Execute, InstancesAfter;
  }

  lemma RowsOkOf(s: State, maxEntries: nat)
    requires Inv(s, maxEntries)
    ensures RowsOk(s.rows)
  {
  }

  lemma ClaimedRows(rows: Table, ids: set<CommandId>, who: InstanceId, now: nat)
    requires forall x :: x in rows ==> rows[x].command.id == x
    ensures var t := Execute(rows, Claim(ids, who, LEASE_MS), now);
            && t.Keys == rows.Keys
            && forall x :: x in rows ==>
                 if x in ids then Holds(t[x], who) && !Expired(t[x].lease, now) && t[x].command == rows[x].command
                 else t[x] == rows[x]
  {
  }

  /** Exactly these rows are now this instance's, the others are as they were. */
  ghost predicate Taken(s: State, t: State, ids: set<CommandId>, who: InstanceId) {
    && t.now == s.now && t.rows.Keys == s.rows.Keys
    && forall x :: x in s.rows ==>
         && t.rows[x].command == s.rows[x].command
         && if x in ids then Holds(t.rows[x], who) else t.rows[x].status == s.rows[x].status
  }

  lemma ClaimsFresh(s: State, u: State, t: State, ids: set<CommandId>, who: InstanceId)
    requires RowsOk(u.rows) && SameLeases(s, u) && AllFresh(s)
    requires t.rows == Execute(u.rows, Claim(ids, who, LEASE_MS), u.now) && t.now == u.now
    ensures AllFresh(t) && Taken(s, t, ids, who)
  {
    hide Execute, Expired;
    ClaimedRows(u.rows, ids, who, u.now);
  }

  /** The next fifty: this instance's claim takes the oldest eligible rows. */
  lemma ClaimsNext(s: State, ids: set<CommandId>, who: InstanceId, id: CommandId, maxEntries: nat) returns (t: State)
    requires maxEntries >= 1 && Inv(s, maxEntries) && id in s.rows && !Finished(s.rows[id]) && AllFresh(s)
    requires InstanceOf(s, who).poll.Released?
    requires IsOldest(ids, EligiblePending(s, who, InstanceOf(s, who).poll.machines), CreationTimes(s.rows))
    ensures Follow(s, t, who, id, maxEntries) && AllFresh(t) && Taken(s, t, ids, who)
    ensures InstanceOf(t, who).poll == Sending(ids, None)
  {
    hide Inv, Follow, Apply, SameLeases, AllFresh, RowsOk, IsOldest, Taken;
    ThenNothing(s, who, id, maxEntries);
    var u := DoQuietly(s, s, SelectPending(who, ids), who, id, maxEntries);
    InvOf(s, u, who, id, maxEntries);
    t := Do(u, ClaimPending(who, true), who, id, maxEntries);
    FollowsOn(s, u, t, who, id, maxEntries);
    PartsOfStep(u, ClaimPending(who, true), maxEntries);
    RowsOkOf(u, maxEntries);
    ClaimsFresh(s, u, t, ids, who);
  }

  ghost predicate AllReachable(s: State, who: InstanceId, ids: set<CommandId>) {
    forall x :: x in ids ==> x in s.rows && s.rows[x].command.machine in InstanceOf(s, who).connected
  }

  lemma ReachableLater(s: State, t: State, who: InstanceId, id: CommandId, x: CommandId, ids: set<CommandId>,
                       maxEntries: nat)
    requires Then(s, t, who, id, maxEntries) && AllReachable(s, who, ids) && x in ids
    ensures x in t.rows && t.rows[x].command.machine in InstanceOf(t, who).connected
  {
    hide Inv, Reaches;
  }

  lemma SentGrows(t: State, step: Step, maxEntries: nat)
    requires step.Send? || step.EndSending?
    ensures Apply(t, step, maxEntries).sent == if step.Send? then t.sent + {step.id} else t.sent
  {
    hide StoreAfter, Execute, InstancesAfter;
  }

  /** All of them are sent while their machines are connected. */
  lemma {:induction false} SendsAll(s: State, t: State, ids: set<CommandId>, who: InstanceId, id: CommandId,
                                    maxEntries: nat) returns (u: State)
    requires maxEntries >= 1 && Then(s, t, who, id, maxEntries) && AllReachable(s, who, ids)
    requires InstanceOf(t, who).poll.Sending? && InstanceOf(t, who).poll.unsent.None?
    requires InstanceOf(t, who).poll.todo <= ids <= t.sent + InstanceOf(t, who).poll.todo
    ensures Then(s, u, who, id, maxEntries) && InstanceOf(u, who).poll.Resting? && ids <= u.sent
    decreases |InstanceOf(t, who).poll.todo|
  {
    hide Apply, Then, StatementOf, IsOldest, AllReachable, InstanceOf;
    var todo := InstanceOf(t, who).poll.todo;
    if todo == {} {
      u := DoQuietly(s, t, EndSending(who), who, id, maxEntries);
      SentGrows(t, EndSending(who), maxEntries);
    } else {
      var x :| x in todo;
      ReachableLater(s, t, who, id, x, ids, maxEntries);
      var v := DoQuietly(s, t, Send(who, x), who, id, maxEntries);
      SentGrows(t, Send(who, x), maxEntries);
      SmallerWithout(todo, x);
      u := SendsAll(s, v, ids, who, id, maxEntries);
    }
  }

  // ---------------------------------------------------------------- poll after poll

  /** Between the lease sweep and the claim of a poll that is free to take this command. */
  ghost predicate Ready(s: State, who: InstanceId, id: CommandId) {
    && AllFresh(s) && InstanceOf(s, who).poll == Released(InstanceOf(s, who).connected)
    && InstanceOf(s, who).closing.Open?
    && id in EligiblePending(s, who, InstanceOf(s, who).connected)
  }

  ghost predicate HoldsAndSent(t: State, who: InstanceId, id: CommandId) {
    id in t.rows && Holds(t.rows[id], who) && id in t.sent
  }

  lemma SameLocks(s: State, t: State, who: InstanceId, id: CommandId, maxEntries: nat)
    requires Follow(s, t, who, id, maxEntries)
    ensures forall x :: LockedByOther(t, who, x) <==> LockedByOther(s, who, x)
  {
    hide Inv, Reaches, Selected;
    forall x ensures LockedByOther(t, who, x) <==> LockedByOther(s, who, x) {
      if LockedByOther(s, who, x) {
        var j :| j in s.instances && j != who && x in Selected(s.instances[j]);
        assert InstanceOf(t, j) == InstanceOf(s, j);
      }
      if LockedByOther(t, who, x) {
        var j :| j in t.instances && j != who && x in Selected(t.instances[j]);
        assert InstanceOf(t, j) == InstanceOf(s, j);
      }
    }
  }

  lemma FreshOn(s: State, t: State)
    requires SameLeases(s, t) && AllFresh(s)
    ensures AllFresh(t)
  {
  }

  /** A poll that took others leaves fewer before this command. */
  lemma FewerEligible(s: State, u: State, t: State, ids: set<CommandId>, who: InstanceId, id: CommandId)
    requires Taken(s, u, ids, who) && SameLeases(u, t)
    requires forall x :: LockedByOther(t, who, x) <==> LockedByOther(s, who, x)
    requires ids <= EligiblePending(s, who, InstanceOf(s, who).connected) && |ids| == LIMIT && id !in ids
    requires id in EligiblePending(s, who, InstanceOf(s, who).connected)
    requires InstanceOf(t, who).connected == InstanceOf(s, who).connected
    ensures var left := EligiblePending(t, who, InstanceOf(t, who).connected);
            id in left && |left| < |EligiblePending(s, who, InstanceOf(s, who).connected)|
  {
    hide LockedByOther;
    var before, left := EligiblePending(s, who, InstanceOf(s, who).connected),
                        EligiblePending(t, who, InstanceOf(t, who).connected);
    assert left == before - ids;
  }

  lemma TakenAreReachable(s: State, t: State, ids: set<CommandId>, who: InstanceId, id: CommandId, maxEntries: nat)
    requires Follow(s, t, who, id, maxEntries) && Taken(s, t, ids, who)
    requires ids <= EligiblePending(s, who, InstanceOf(s, who).connected)
    ensures AllReachable(t, who, ids)
  {
    hide Inv, Reaches, LockedByOther;
  }

  /** One poll from the claim on: take the oldest, send them all. */
  lemma TakesAndSends(s: State, ids: set<CommandId>, who: InstanceId, id: CommandId, maxEntries: nat)
    returns (u: State, t: State)
    requires maxEntries >= 1 && Inv(s, maxEntries) && id in s.rows && !Finished(s.rows[id]) && Ready(s, who, id)
    requires IsOldest(ids, EligiblePending(s, who, InstanceOf(s, who).connected), CreationTimes(s.rows))
    ensures Follow(s, u, who, id, maxEntries) && Then(u, t, who, id, maxEntries) && Taken(s, u, ids, who)
    ensures AllFresh(t) && ids <= t.sent && InstanceOf(t, who).poll.Resting?
  {
    hide Inv, Follow, Apply, SameLeases, AllFresh, Taken, AllReachable, EligiblePending;
    u := ClaimsNext(s, ids, who, id, maxEntries);
    OldestAreEligible(ids, EligiblePending(s, who, InstanceOf(s, who).connected), CreationTimes(s.rows));
    TakenAreReachable(s, u, ids, who, id, maxEntries);
    InvOf(s, u, who, id, maxEntries);
    ThenNothing(u, who, id, maxEntries);
    t := SendsAll(u, u, ids, who, id, maxEntries);
    FreshOn(u, t);
  }

  lemma OldestAreEligible(ids: set<CommandId>, eligible: set<CommandId>, times: map<CommandId, nat>)
    requires eligible <= times.Keys && IsOldest(ids, eligible, times)
    ensures ids <= eligible && (|ids| != LIMIT ==> ids == eligible)
  {
  }

  lemma TakenIsHeld(s: State, u: State, t: State, ids: set<CommandId>, who: InstanceId, id: CommandId)
    requires Taken(s, u, ids, who) && SameLeases(u, t) && id in ids && id in s.rows && ids <= t.sent
    ensures HoldsAndSent(t, who, id)
  {
  }

  /** The rest of a poll that took fifty others, and the next poll up to its claim. */
  lemma NextPoll(s: State, who: InstanceId, id: CommandId, maxEntries: nat) returns (t: State)
    requires maxEntries >= 1 && Inv(s, maxEntries) && id in s.rows && !Finished(s.rows[id]) && AllFresh(s)
    requires InstanceOf(s, who).closing.Open? && InstanceOf(s, who).poll.Resting? && InstanceOf(s, who).connected != {}
    ensures Then(s, t, who, id, maxEntries) && AllFresh(t)
    ensures InstanceOf(t, who).poll == Released(InstanceOf(s, who).connected)
  {
    hide Inv, Follow, Apply, SameLeases, AllFresh, InstanceOf;
    var u := CatchesUp(s, who, id, maxEntries);
    InvOf(s, u, who, id, maxEntries);
    FreshOn(s, u);
    t := Sweeps(u, who, id, maxEntries);
    ThenOn(s, u, t, who, id, maxEntries);
  }

  /** Poll after poll the oldest fifty are taken, and after finitely many it is this command's turn. */
  lemma {:induction false} ItsTurnComes(s: State, who: InstanceId, id: CommandId, maxEntries: nat) returns (t: State)
    requires maxEntries >= 1 && Inv(s, maxEntries) && id in s.rows && !Finished(s.rows[id]) && Ready(s, who, id)
    ensures Follow(s, t, who, id, maxEntries) && HoldsAndSent(t, who, id)
    decreases |EligiblePending(s, who, InstanceOf(s, who).connected)|
  {
    hide Inv, Follow, Apply, SameLeases, AllFresh, Taken, IsOldest, EligiblePending, HoldsAndSent;
    var ids := SomeIsOldest(EligiblePending(s, who, InstanceOf(s, who).connected), CreationTimes(s.rows));
    OldestAreEligible(ids, EligiblePending(s, who, InstanceOf(s, who).connected), CreationTimes(s.rows));
    var u, v := TakesAndSends(s, ids, who, id, maxEntries);
    FollowsOn(s, u, v, who, id, maxEntries);
    if id in ids {
      t := v;
      TakenIsHeld(s, u, v, ids, who, id);
    } else {
      InvOf(s, v, who, id, maxEntries);
      MachineIsConnected(s, who, id);
      var w := NextPoll(v, who, id, maxEntries);
      FollowsOn(s, v, w, who, id, maxEntries);
      LeasesOn(u, v, w);
      SameLocks(s, w, who, id, maxEntries);
      InvOf(s, w, who, id, maxEntries);
      FewerEligible(s, u, w, ids, who, id);
      t := ItsTurnComes(w, who, id, maxEntries);
      FollowsOn(s, w, t, who, id, maxEntries);
    }
  }

  lemma MachineIsConnected(s: State, who: InstanceId, id: CommandId)
    requires id in EligiblePending(s, who, InstanceOf(s, who).connected)
    ensures InstanceOf(s, who).connected != {}
  {
  }

  /** An open instance that is connected to the machine, when nobody has the row locked. */
  ghost predicate CanServe(s: State, who: InstanceId, id: CommandId) {
    && id in s.rows && !Finished(s.rows[id])
    && InstanceOf(s, who).closing.Open? && s.rows[id].command.machine in InstanceOf(s, who).connected
  }

  /** The current lease, whoever has it, is waited out. */
  lemma LeaseRunsOut(s: State, who: InstanceId, id: CommandId, maxEntries: nat) returns (t: State)
    requires maxEntries >= 1 && Inv(s, maxEntries) && CanServe(s, who, id)
    ensures Follow(s, t, who, id, maxEntries) && InstanceOf(t, who).poll.Resting?
    ensures t.rows[id].status == Pending || Expired(t.rows[id].lease, t.now)
  {
    hide Inv, Follow, Apply;
    var u := ComesToRest(s, who, id, maxEntries);
    InvOf(s, u, who, id, maxEntries);
    RowsOkOf(u, maxEntries);
    assert RowOk(id, u.rows[id]);
    var until := if u.rows[id].lease.Some? then u.rows[id].lease.value else u.now;
    t := Wait(u, until, who, id, maxEntries);
    FollowsOn(s, u, t, who, id, maxEntries);
  }

  lemma BecomesReady(s: State, who: InstanceId, id: CommandId, maxEntries: nat) returns (t: State)
    requires maxEntries >= 1 && Inv(s, maxEntries) && CanServe(s, who, id) && !LockedByOther(s, who, id)
    ensures Follow(s, t, who, id, maxEntries) && Ready(t, who, id)
  {
    hide Inv, Follow, Apply, SameLeases, AllFresh, LockedByOther, Expired;
    var u := LeaseRunsOut(s, who, id, maxEntries);
    InvOf(s, u, who, id, maxEntries);
    var v := CatchesUp(u, who, id, maxEntries);
    InvOf(u, v, who, id, maxEntries);
    LeaseOf(u, v, id);
    t := Sweeps(v, who, id, maxEntries);
    InvOf(v, t, who, id, maxEntries);
    FollowsOn(s, u, v, who, id, maxEntries);
    FollowsOn(s, v, t, who, id, maxEntries);
    SameLocks(s, t, who, id, maxEntries);
  }

  lemma LeaseOf(s: State, t: State, id: CommandId)
    requires SameLeases(s, t) && id in s.rows
    ensures id in t.rows && t.now == s.now
    ensures t.rows[id].status == s.rows[id].status && t.rows[id].lease == s.rows[id].lease
  {
  }

  lemma UnlockedIsServed(s: State, who: InstanceId, id: CommandId, maxEntries: nat) returns (t: State)
    requires maxEntries >= 1 && Inv(s, maxEntries) && CanServe(s, who, id) && !LockedByOther(s, who, id)
    ensures Follow(s, t, who, id, maxEntries) && HoldsAndSent(t, who, id)
  {
    hide Inv, Follow, LockedByOther, Ready, HoldsAndSent;
    var u := BecomesReady(s, who, id, maxEntries);
    InvOf(s, u, who, id, maxEntries);
    t := ItsTurnComes(u, who, id, maxEntries);
    FollowsOn(s, u, t, who, id, maxEntries);
  }

  // ---------------------------------------------------------------- every reachable state

  /** Its transaction ends without a commit, and with it the lock on the row. */
  lemma LockEnds(s: State, who: InstanceId, id: CommandId, maxEntries: nat) returns (j: InstanceId)
    requires Inv(s, maxEntries) && CanServe(s, who, id) && LockedByOther(s, who, id)
    ensures j != who && id in Selected(InstanceOf(s, j)) && Enabled(s, PollFails(j))
    ensures var t := Apply(s, PollFails(j), maxEntries);
            CanServe(t, who, id) && !LockedByOther(t, who, id)
  {
    hide FinishedWasBegun, MessagesOk, DaemonsOk, HandledOk, RowsOk, PollOk, ClosingOk, Execute, StoreAfter;
    j :| j in s.instances && j != who && id in Selected(s.instances[j]);
    assert Execute(s.rows, Nothing, s.now) == s.rows by { NothingIsNothing(s.rows, s.now); }
  }

  lemma NothingIsNothing(rows: Table, now: nat)
    ensures Execute(rows, Nothing, now) == rows
  {
  }

  lemma {:induction false} RunGoesOn(steps: seq<Step>, more: seq<Step>, s: State, t: State, maxEntries: nat)
    requires Run(steps, maxEntries) == Some(s) && RunsTo(s, more, t, maxEntries)
    ensures Run(steps + more, maxEntries) == Some(t)
    decreases |more|
  {
    hide Enabled, Apply;
    if more == [] {
      assert steps + more == steps;
    } else {
      var next := steps + [more[0]];
      assert next[..|next| - 1] == steps && next[|next| - 1] == more[0];
      assert steps + more == next + more[1..];
      RunGoesOn(next, more[1..], Apply(s, more[0], maxEntries), t, maxEntries);
    }
  }

  /**
   Steps of this instance's poll and time, after at most one step of another: the end, without a
   commit, of a transaction that has the row locked.
   */
  ghost predicate ByItself(s: State, more: seq<Step>, who: InstanceId, id: CommandId) {
    forall i :: 0 <= i < |more| ==>
      || Alone(more[i], who)
      || (i == 0 && more[i].PollFails? && id in Selected(InstanceOf(s, more[i].who)))
  }

  /**
   No command is stranded: in every reachable state, an open instance that is connected to the machine of
   an unfinished command can come to hold its lease and send it, whoever holds it now and whatever
   its own poll is in the middle of, however many older commands wait. It takes nothing but its own
   polls and time, and the end of another transaction if one has the row locked.
   */
  lemma OpenInstanceComesToHold(steps: seq<Step>, id: CommandId, who: InstanceId, maxEntries: nat)
    requires maxEntries >= 1 && Run(steps, maxEntries).Some?
    requires var s := Run(steps, maxEntries).value;
             && id in s.rows && !Finished(s.rows[id])
             && InstanceOf(s, who).closing.Open? && s.rows[id].command.machine in InstanceOf(s, who).connected
    ensures exists more ::
              && ByItself(Run(steps, maxEntries).value, more, who, id)
              && Run(steps + more, maxEntries).Some?
              && HoldsAndSent(Run(steps + more, maxEntries).value, who, id)
  {
    hide Inv, Apply, Enabled, HoldsAndSent, LockedByOther, Frame, Alone, RunsTo;
    EveryRunKeepsInv(steps, maxEntries);
    var s := Run(steps, maxEntries).value;
    var first: seq<Step>, u := [], s;
    if LockedByOther(s, who, id) {
      var j := LockEnds(s, who, id, maxEntries);
      StepKeepsInv(s, PollFails(j), maxEntries);
      OneStepRuns(s, PollFails(j), maxEntries);
      first, u := [PollFails(j)], Apply(s, PollFails(j), maxEntries);
    } else {
      assert RunsTo(s, [], s, maxEntries) by { RunsNowhere(s, maxEntries); }
    }
    var t := UnlockedIsServed(u, who, id, maxEntries);
    var own :| RunsTo(u, own, t, maxEntries) && forall step <- own :: Alone(step, who);
    RunsJoin(s, first, u, own, t, maxEntries);
    RunGoesOn(steps, first + own, s, t, maxEntries);
    assert ByItself(s, first + own, who, id);
  }

  lemma RunsNowhere(s: State, maxEntries: nat)
    ensures RunsTo(s, [], s, maxEntries)
  {
  }

  // ---------------------------------------------------------------- to the verdict

  lemma DaemonStepKeepsRows(s: State, step: Step, maxEntries: nat)
    requires step.Receive? || step.Finish?
    ensures Apply(s, step, maxEntries).rows == s.rows
  {
    hide StoreAfter, InstancesAfter, Received;
    NothingIsNothing(s.rows, s.now);
    hide Execute;
  }

  lemma AckEnds(s: State, who: InstanceId, id: CommandId, receipt: Receipts.Receipt, maxEntries: nat)
    requires RowsOk(s.rows) && id in s.rows && Holds(s.rows[id], who) && (id, receipt) in s.acks
    ensures Enabled(s, AckArrives(who, id, receipt, false))
    ensures var t := Apply(s, AckArrives(who, id, receipt, false), maxEntries);
            id in t.rows && t.rows[id].status == if receipt.ok then Acked else Failed
  {
    hide Updated, StoreAfter, Received;
    assert RowOk(id, s.rows[id]);
    RowAfterStep(s, AckArrives(who, id, receipt, false), maxEntries, id);
    HoldersAckCounts(id, s.rows[id], s.rows[id].command.machine, who, receipt, false, s.now);
  }

  lemma FinishSendsAck(s: State, id: CommandId, receipt: Receipts.Receipt, maxEntries: nat)
    requires Enabled(s, Finish(id, receipt))
    ensures (id, receipt) in Apply(s, Finish(id, receipt), maxEntries).acks
  {
    hide Execute, StoreAfter, InstancesAfter, Receipts.AfterComplete;
  }

  lemma TwoRun(s: State, a: Step, b: Step, maxEntries: nat)
    requires Enabled(s, a) && Enabled(Apply(s, a, maxEntries), b)
    ensures RunsTo(s, [a, b], Apply(Apply(s, a, maxEntries), b, maxEntries), maxEntries)
  {
    hide Enabled, Apply;
    OneStepRuns(s, a, maxEntries);
    OneStepRuns(Apply(s, a, maxEntries), b, maxEntries);
    RunsJoin(s, [a], Apply(s, a, maxEntries), [b], Apply(Apply(s, a, maxEntries), b, maxEntries), maxEntries);
    assert [a] + [b] == [a, b];
  }

  lemma FinishAndAck(s: State, who: InstanceId, id: CommandId, receipt: Receipts.Receipt, maxEntries: nat)
    returns (steps: seq<Step>, t: State)
    requires RowsOk(s.rows) && id in s.rows && Holds(s.rows[id], who)
    requires id in DaemonOf(s, s.rows[id].command.machine).begun
    ensures RunsTo(s, steps, t, maxEntries) && id in t.rows
    ensures t.rows[id].status == if receipt.ok then Acked else Failed
  {
    hide Apply, RowsOk, RunsTo;
    var a, b := Finish(id, receipt), AckArrives(who, id, receipt, false);
    assert Enabled(s, a);
    var u := Apply(s, a, maxEntries);
    DaemonStepKeepsRows(s, a, maxEntries);
    FinishSendsAck(s, id, receipt, maxEntries);
    AckEnds(u, who, id, receipt, maxEntries);
    TwoRun(s, a, b, maxEntries);
    steps, t := [a, b], Apply(u, b, maxEntries);
  }

  lemma InFlightWasBegun(s: State, m: MachineId, id: CommandId, maxEntries: nat)
    requires Inv(s, maxEntries)
    ensures id in DaemonOf(s, m).cache.inFlight ==> id in DaemonOf(s, m).begun
  {
    BootedIsOk({}, maxEntries);
  }

  /** From the lease to the verdict: the message arrives, the work ends, the acknowledgement comes back. */
  lemma HeldCanFinish(s: State, who: InstanceId, id: CommandId, receipt: Receipts.Receipt, maxEntries: nat)
    returns (steps: seq<Step>, t: State)
    requires Inv(s, maxEntries) && HoldsAndSent(s, who, id)
    ensures RunsTo(s, steps, t, maxEntries) && id in t.rows && Finished(t.rows[id])
    ensures var l := DaemonOf(s, s.rows[id].command.machine);
            var last := if id in l.cache.receipts then l.cache.receipts[id] else receipt;
            t.rows[id].status == if last.ok then Acked else Failed
  {
    hide Apply, Inv, RunsTo, RowsOk;
    var l := DaemonOf(s, s.rows[id].command.machine);
    RowsOkOf(s, maxEntries);
    InFlightWasBegun(s, s.rows[id].command.machine, id, maxEntries);
    var a := Receive(id);
    assert Enabled(s, a);
    DuplicateIsAnswered(s, maxEntries, id);
    DaemonStepKeepsRows(s, a, maxEntries);
    var u := Apply(s, a, maxEntries);
    if id in l.cache.receipts {
      var b := AckArrives(who, id, l.cache.receipts[id], false);
      AckEnds(u, who, id, l.cache.receipts[id], maxEntries);
      TwoRun(s, a, b, maxEntries);
      steps, t := [a, b], Apply(u, b, maxEntries);
    } else if id in l.cache.inFlight {
      steps, t := FinishAndAck(s, who, id, receipt, maxEntries);
    } else {
      var more;
      more, t := FinishAndAck(u, who, id, receipt, maxEntries);
      OneStepRuns(s, a, maxEntries);
      RunsJoin(s, [a], u, more, t, maxEntries);
      steps := [a] + more;
    }
  }

  /**
   Every command can come to its end: from every reachable state in which an open instance is connected to the
   machine of an unfinished command, some continuation gives the command its verdict.
   */
  lemma EveryCommandCanFinish(steps: seq<Step>, id: CommandId, who: InstanceId, maxEntries: nat)
    requires maxEntries >= 1 && Run(steps, maxEntries).Some?
    requires var s := Run(steps, maxEntries).value;
             && id in s.rows && s.rows[id].status != Acked && s.rows[id].status != Failed
             && InstanceOf(s, who).closing.Open? && s.rows[id].command.machine in InstanceOf(s, who).connected
    ensures exists more ::
              && Run(steps + more, maxEntries).Some?
              && id in Run(steps + more, maxEntries).value.rows
              && Run(steps + more, maxEntries).value.rows[id].status in {Acked, Failed}
  {
    hide Run, Inv, HoldsAndSent, ByItself, RunsTo;
    OpenInstanceComesToHold(steps, id, who, maxEntries);
    var first :| Run(steps + first, maxEntries).Some?
                 && HoldsAndSent(Run(steps + first, maxEntries).value, who, id);
    EveryRunKeepsInv(steps + first, maxEntries);
    var receipt := Receipts.Receipt(true, None);
    var last, t := HeldCanFinish(Run(steps + first, maxEntries).value, who, id, receipt, maxEntries);
    RunGoesOn(steps + first, last, Run(steps + first, maxEntries).value, t, maxEntries);
    assert steps + first + last == steps + (first + last);
  }
}
