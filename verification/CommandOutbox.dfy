/**
 The daemon command outbox: services/control-api/src/daemon-command-router.js with the handler at
 index.js:146-168 and the daemon's message handler. Any number of router instances and daemons
 share one table. Every SQL statement is one step, and so is every stretch of code between two
 awaits; a claiming transaction is two, for its SELECT locks the rows it returns. Steps interleave
 freely, but the steps of one instance's poll come in the order of the code.
 */
module CommandOutbox {
  import opened Options
  import opened CommandRows
  import Receipts = CommandReceipts
  import Events = SessionEvents

  // ---------------------------------------------------------------- what a failure does

  /** Session rows and the states of shipping runs. */
  datatype Store = Store(sessions: map<string, Events.Session>, runs: map<string, string>)

  /** onAcknowledged for a failed command. */
  function Reconciled(store: Store, c: Command, error: string, at: nat): Store {
    match c.action
    case SessionStart(sid) => RecordedIn(store, sid, Events.Event(Events.StatusChange("failed"), Some(c.id), at))
    case SessionMessage(sid) => RecordedIn(store, sid, Events.Event(Events.Problem(error), Some(c.id), at))
    case SessionInterrupt(sid) => RecordedIn(store, sid, Events.Event(Events.Problem(error), Some(c.id), at))
    case ShippingStart(run) =>
      if run in store.runs && store.runs[run] == "QUEUED" then store.(runs := store.runs[run := "FAILED"]) else store
  }

  function RecordedIn(store: Store, sid: string, e: Events.Event): Store {
    if sid in store.sessions then store.(sessions := store.sessions[sid := Events.AddEvent(store.sessions[sid], e)])
    else store
  }

  /** The row a command is enqueued with: created in the same transaction, or found just before. */
  function WithSubject(store: Store, c: Command, session: Events.Session): Store {
    match c.action
    case SessionStart(sid) =>
      if sid in store.sessions then store else store.(sessions := store.sessions[sid := session])
    case SessionMessage(sid) => store
    case SessionInterrupt(sid) => store
    case ShippingStart(run) => if run in store.runs then store else store.(runs := store.runs[run := "QUEUED"])
  }

  predicate SubjectExists(store: Store, a: Action) {
    match a
    case ShippingStart(run) => run in store.runs
    case _ => a.session in store.sessions
  }

  // ---------------------------------------------------------------- the instances

  const LEASE_MS := 15_000

  /** Where #poll is: which statement or loop comes next. `machines` are those connected when it began. */
  datatype Poll =
    | Resting
    | Started(machines: set<MachineId>)
    | Swept(machines: set<MachineId>)
    | FailedSelected(machines: set<MachineId>, ids: set<CommandId>)
    | Handling(machines: set<MachineId>, todo: set<CommandId>, returned: Option<CommandId>)
    | CaughtUp(machines: set<MachineId>)
    | Released(machines: set<MachineId>)
    | PendingSelected(machines: set<MachineId>, ids: set<CommandId>)
    | Sending(todo: set<CommandId>, unsent: Option<CommandId>)

  /** How far close() is; the first `Closing` only sets the flag, then it waits for the poll. */
  datatype Closing = Open | Closing | LeasesReturned | Closed

  datatype Instance = Instance(closing: Closing, connected: set<MachineId>, poll: Poll)

  const STARTED := Instance(Open, {}, Resting)

  /** The rows an instance's open transaction has locked. */
  function Selected(i: Instance): set<CommandId> {
    match i.poll
    case FailedSelected(_, ids) => ids
    case PendingSelected(_, ids) => ids
    case _ => {}
  }

  // ---------------------------------------------------------------- the protocol

  /**
   `sent` are messages ever put on a daemon's connection and `acks` the receipts daemons ever sent
   back; both may arrive late, twice, or never. `handled` are the commands for which onAcknowledged
   has returned normally at least once.
   */
  datatype State = State(
    now: nat, rows: Table, store: Store, instances: map<InstanceId, Instance>, sent: set<CommandId>,
    daemons: map<MachineId, Receipts.Ledger>, everBegun: set<CommandId>, acks: set<(CommandId, Receipts.Receipt)>,
    handled: set<CommandId>)

  const START := State(0, map[], Store(map[], map[]), map[], {}, map[], {}, {}, {})

  /** How one call of onAcknowledged ends; it may throw before or after its write. */
  datatype Outcome = ReturnsNormally | ThrowsBefore | ThrowsAfter

  datatype Step =
    | Tick
    | Enqueue(command: Command, session: Events.Session, startedAt: nat)
    | SessionActivity(subject: string, event: Events.Event)
    | RunActivity(run: string, state: string)
    // the daemons
    | Receive(id: CommandId)
    | Finish(id: CommandId, receipt: Receipts.Receipt)
    | Restart(machine: MachineId)
    // one instance
    | Connect(who: InstanceId, machine: MachineId)
    | Disconnect(who: InstanceId, machine: MachineId)
    | AckArrives(who: InstanceId, id: CommandId, receipt: Receipts.Receipt, legacy: bool)
    // its poll; `heard` is false when the commit's answer is lost
    | PollBegins(who: InstanceId)
    | SweepReconciliations(who: InstanceId)
    | SelectFailed(who: InstanceId, ids: set<CommandId>)
    | ClaimFailed(who: InstanceId, heard: bool)
    | Handle(who: InstanceId, id: CommandId, at: nat, outcome: Outcome)
    | HandledUpdate(who: InstanceId, works: bool)
    | EndHandling(who: InstanceId)
    | SweepLeases(who: InstanceId)
    | SelectPending(who: InstanceId, ids: set<CommandId>)
    | ClaimPending(who: InstanceId, heard: bool)
    | Send(who: InstanceId, id: CommandId)
    | SendThrows(who: InstanceId, id: CommandId)
    | SendReturned(who: InstanceId)
    | EndSending(who: InstanceId)
    | PollFails(who: InstanceId)
    // its close()
    | CloseBegins(who: InstanceId)
    | CloseReturnsLeases(who: InstanceId)
    | CloseReturnsReconciliations(who: InstanceId)

  predicate Acts(step: Step) {
    !(step.Tick? || step.Enqueue? || step.SessionActivity? || step.RunActivity?
      || step.Receive? || step.Finish? || step.Restart?)
  }

  function DaemonOf(s: State, m: MachineId): Receipts.Ledger {
    if m in s.daemons then s.daemons[m] else Receipts.BOOTED
  }

  function InstanceOf(s: State, who: InstanceId): Instance {
    if who in s.instances then s.instances[who] else STARTED
  }

  predicate LockedByOther(s: State, who: InstanceId, id: CommandId) {
    exists j | j in s.instances && j != who :: id in Selected(s.instances[j])
  }

  function CreationTimes(rows: Table): map<CommandId, nat> {
    map id | id in rows :: rows[id].createdAt
  }

  function UpdateTimes(rows: Table): map<CommandId, nat> {
    map id | id in rows :: rows[id].updatedAt
  }

  /** What the poll's two SELECTs may return; rows locked by another transaction are skipped. */
  function EligiblePending(s: State, who: InstanceId, machines: set<MachineId>): (ids: set<CommandId>)
    ensures ids <= s.rows.Keys
  {
    set id | id in s.rows && s.rows[id].status == Pending && s.rows[id].command.machine in machines
             && !LockedByOther(s, who, id)
  }

  function EligibleFailed(s: State, who: InstanceId): (ids: set<CommandId>)
    ensures ids <= s.rows.Keys
  {
    set id | id in s.rows && s.rows[id].status == Failed && s.rows[id].recon == ToReconcile
             && !LockedByOther(s, who, id)
  }

  ghost predicate Enabled(s: State, step: Step) {
    match step
    case Tick => true
    case Enqueue(c, session, startedAt) =>
      && c.id != "" && session.events == [] && startedAt <= s.now
      && SubjectExists(WithSubject(s.store, c, session), c.action)
    case SessionActivity(sid, _) => sid in s.store.sessions
    case RunActivity(run, state) => run in s.store.runs && state != "QUEUED"
    case Receive(id) => id in s.sent && id in s.rows
    case Finish(id, _) => id in s.rows && id in DaemonOf(s, s.rows[id].command.machine).begun
    case Restart(_) => true
    case AckArrives(_, id, receipt, _) => (id, receipt) in s.acks && id in s.rows
    case _ => InstanceEnabled(s, InstanceOf(s, step.who), step)
  }

  ghost predicate InstanceEnabled(s: State, i: Instance, step: Step) {
    match step
    case Connect(_, _) => true
    case Disconnect(_, _) => true
    case PollBegins(_) => i.closing.Open? && i.poll.Resting?
    case SweepReconciliations(_) => i.poll.Started?
    case SelectFailed(who, ids) => i.poll.Swept? && IsOldest(ids, EligibleFailed(s, who), UpdateTimes(s.rows))
    case ClaimFailed(_, _) => i.poll.FailedSelected?
    case Handle(_, id, _, _) => i.poll.Handling? && i.poll.returned.None? && id in i.poll.todo && id in s.rows
    case HandledUpdate(_, _) => i.poll.Handling? && i.poll.returned.Some?
    case EndHandling(_) => i.poll.Handling? && i.poll.todo == {}
    case SweepLeases(_) => i.poll.CaughtUp?
    case SelectPending(who, ids) =>
      i.poll.Released? && IsOldest(ids, EligiblePending(s, who, i.poll.machines), CreationTimes(s.rows))
    case ClaimPending(_, _) => i.poll.PendingSelected?
    case Send(_, id) =>
      && i.poll.Sending? && i.poll.unsent.None? && id in i.poll.todo
      && id in s.rows && s.rows[id].command.machine in i.connected
    case SendThrows(_, id) => i.poll.Sending? && i.poll.unsent.None? && id in i.poll.todo
    case SendReturned(_) => i.poll.Sending? && i.poll.unsent.Some?
    case EndSending(_) => i.poll.Sending? && i.poll.todo == {}
    // what goes wrong with one failed command, or with one peer, is caught inside the loops
    case PollFails(_) => !i.poll.Resting? && !i.poll.Handling? && (i.poll.Sending? ==> i.poll.unsent.Some?)
    case CloseBegins(_) => i.closing.Open?
    case CloseReturnsLeases(_) => i.closing.Closing? && i.poll.Resting?
    case CloseReturnsReconciliations(_) => i.closing.LeasesReturned?
    case _ => false
  }

  /** The statement a step executes on the table. */
  function StatementOf(s: State, step: Step): Statement {
    match step
    case Enqueue(c, _, startedAt) => Insert(c, startedAt)
    case AckArrives(who, id, receipt, legacy) =>
      if id in s.rows then Acknowledge(id, s.rows[id].command.machine, who, receipt, legacy) else Nothing
    case SweepReconciliations(_) => ReleaseReconciliations
    case ClaimFailed(who, _) => ClaimReconciliations(Selected(InstanceOf(s, who)), who, LEASE_MS)
    case HandledUpdate(who, works) =>
      var poll := InstanceOf(s, who).poll;
      if works && poll.Handling? && poll.returned.Some? then CompleteReconciliation(poll.returned.value, who)
      else Nothing
    case SweepLeases(_) => ReleaseExpired
    case ClaimPending(who, _) => Claim(Selected(InstanceOf(s, who)), who, LEASE_MS)
    case SendReturned(who) =>
      var poll := InstanceOf(s, who).poll;
      if poll.Sending? && poll.unsent.Some? then ReturnUnsent(poll.unsent.value, who) else Nothing
    case CloseReturnsLeases(who) => ReturnLeases(who)
    case CloseReturnsReconciliations(who) => ReturnReconciliations(who)
    case _ => Nothing
  }

  function Without(todo: set<CommandId>, id: Option<CommandId>): set<CommandId> {
    if id.Some? then todo - {id.value} else todo
  }

  /** What a step does to the instance that takes it. */
  function NextInstance(i: Instance, step: Step): Instance {
    match (step, i.poll)
    case (Connect(_, machine), _) => i.(connected := i.connected + {machine})
    case (Disconnect(_, machine), _) => i.(connected := i.connected - {machine})
    case (PollBegins(_), Resting) => i.(poll := Started(i.connected))
    case (SweepReconciliations(_), Started(machines)) => i.(poll := Swept(machines))
    case (SelectFailed(_, ids), Swept(machines)) => i.(poll := FailedSelected(machines, ids))
    case (ClaimFailed(_, heard), FailedSelected(machines, ids)) =>
      i.(poll := if heard then Handling(machines, ids, None) else Resting)
    case (Handle(_, id, _, outcome), Handling(machines, todo, _)) =>
      i.(poll := if outcome.ReturnsNormally? then Handling(machines, todo, Some(id))
                 else Handling(machines, todo - {id}, None))
    case (HandledUpdate(_, _), Handling(machines, todo, returned)) =>
      i.(poll := Handling(machines, Without(todo, returned), None))
    case (EndHandling(_), Handling(machines, _, _)) =>
      i.(poll := if machines == {} then Resting else CaughtUp(machines))
    case (SweepLeases(_), CaughtUp(machines)) => i.(poll := Released(machines))
    case (SelectPending(_, ids), Released(machines)) => i.(poll := PendingSelected(machines, ids))
    case (ClaimPending(_, heard), PendingSelected(_, ids)) => i.(poll := if heard then Sending(ids, None) else Resting)
    case (Send(_, id), Sending(todo, _)) => i.(poll := Sending(todo - {id}, None))
    case (SendThrows(_, id), Sending(todo, _)) => i.(poll := Sending(todo, Some(id)))
    case (SendReturned(_), Sending(todo, unsent)) => i.(poll := Sending(Without(todo, unsent), None))
    case (EndSending(_), _) => i.(poll := Resting)
    case (PollFails(_), _) => i.(poll := Resting)
    case (CloseBegins(_), _) => i.(closing := Closing)
    case (CloseReturnsLeases(_), _) => i.(closing := LeasesReturned)
    case (CloseReturnsReconciliations(_), _) => i.(closing := Closed)
    case _ => i
  }

  function StoreAfter(s: State, step: Step): Store {
    match step
    case Enqueue(c, session, _) => WithSubject(s.store, c, session)
    case Handle(_, id, at, outcome) =>
      if outcome.ThrowsBefore? || id !in s.rows then s.store else
      var error := if s.rows[id].ackError.Some? then s.rows[id].ackError.value else "daemon_command_failed";
      Reconciled(s.store, s.rows[id].command, error, at)
    case SessionActivity(sid, e) => RecordedIn(s.store, sid, e)
    case RunActivity(run, state) => s.store.(runs := s.store.runs[run := state])
    case _ => s.store
  }

  /** A daemon gets the message: a new command begins, a known one is answered from the cache. */
  function Received(s: State, id: CommandId): (r: State)
    requires id in s.rows
    ensures r == s.(daemons := r.daemons, everBegun := r.everBegun, acks := r.acks)
  {
    var m := s.rows[id].command.machine;
    var l := DaemonOf(s, m);
    var t := s.(daemons := s.daemons[m := Receipts.AfterBegin(l, id)]);
    match Receipts.Asked(l.cache, id)
    case New => t.(everBegun := s.everBegun + {id})
    case InFlight => t
    case Duplicate(receipt) => t.(acks := s.acks + {(id, receipt)})
  }

  /** What a step does to the daemons and to the messages between them and the instances. */
  function MessagesAfter(s: State, step: Step, maxEntries: nat): State {
    match step
    case Tick => s.(now := s.now + 1)
    case Receive(id) => if id in s.rows then Received(s, id) else s
    case Finish(id, receipt) =>
      if id !in s.rows then s else
      var m := s.rows[id].command.machine;
      s.(daemons := s.daemons[m := Receipts.AfterComplete(DaemonOf(s, m), id, receipt, maxEntries)],
         acks := s.acks + {(id, receipt)})
    case Restart(m) => s.(daemons := s.daemons[m := Receipts.BOOTED])
    case Send(_, id) => s.(sent := s.sent + {id})
    case Handle(_, id, _, outcome) => if outcome.ReturnsNormally? then s.(handled := s.handled + {id}) else s
    case _ => s
  }

  function InstancesAfter(s: State, step: Step): map<InstanceId, Instance> {
    if Acts(step) then s.instances[step.who := NextInstance(InstanceOf(s, step.who), step)] else s.instances
  }

  function Apply(s: State, step: Step, maxEntries: nat): State {
    MessagesAfter(s, step, maxEntries).(
      rows := Execute(s.rows, StatementOf(s, step), s.now), store := StoreAfter(s, step),
      instances := InstancesAfter(s, step))
  }

  /** The state after a run, or None when some step of it was not enabled. */
  ghost function Run(steps: seq<Step>, maxEntries: nat): Option<State> {
    if steps == [] then Some(START) else
    var s := Run(steps[..|steps| - 1], maxEntries);
    if s.Some? && Enabled(s.value, steps[|steps| - 1]) then Some(Apply(s.value, steps[|steps| - 1], maxEntries))
    else None
  }

  // ---------------------------------------------------------------- the instances' invariants

  ghost predicate PollOk(rows: Table, handled: set<CommandId>, i: Instance) {
    match i.poll
    case FailedSelected(_, ids) =>
      ids <= rows.Keys && forall id :: id in ids ==> rows[id].status == Failed && rows[id].recon == ToReconcile
    case PendingSelected(_, ids) => ids <= rows.Keys && forall id :: id in ids ==> rows[id].status == Pending
    case Handling(_, todo, returned) => todo <= rows.Keys && (returned.Some? ==> returned.value in handled)
    case Sending(todo, _) => todo <= rows.Keys
    case _ => true
  }

  /** A closing instance gives everything back and gets nothing again. */
  ghost predicate ClosingOk(rows: Table, who: InstanceId, i: Instance) {
    && (i.closing.LeasesReturned? || i.closing.Closed? ==>
          i.poll.Resting? && forall id :: id in rows ==> !Holds(rows[id], who))
    && (i.closing.Closed? ==> forall id :: id in rows ==> !HoldsReconciliation(rows[id], who))
  }

  ghost predicate Disjoint(instances: map<InstanceId, Instance>) {
    forall i, j :: i in instances && j in instances && i != j ==> Selected(instances[i]) !! Selected(instances[j])
  }

  ghost predicate InstancesOk(s: State) {
    && Disjoint(s.instances)
    && forall who :: who in s.instances ==>
         PollOk(s.rows, s.handled, s.instances[who]) && ClosingOk(s.rows, who, s.instances[who])
  }

  lemma StepFollows(s: State, step: Step)
    requires RowsOk(s.rows) && InstancesOk(s) && Enabled(s, step)
    ensures TableFollows(s.rows, Execute(s.rows, StatementOf(s, step), s.now), StatementOf(s, step))
  {
    hide Execute, TableFollows, Disjoint, ClosingOk, IsOldest, WithSubject, LockedByOther;
    var stmt := StatementOf(s, step);
    forall id | id in s.rows ensures Selectable(s.rows[id], stmt) {
      if Acts(step) && step.who in s.instances { assert PollOk(s.rows, s.handled, s.instances[step.who]); }
    }
    ExecuteFollows(s.rows, stmt, s.now);
  }

  lemma SelectSkipsLocked(s: State, step: Step, j: InstanceId)
    requires Enabled(s, step) && (step.SelectFailed? || step.SelectPending?) && j in s.instances && j != step.who
    ensures step.ids !! Selected(s.instances[j])
  {
    forall id | id in step.ids ensures id !in Selected(s.instances[j]) {
      assert !LockedByOther(s, step.who, id);
    }
  }

  lemma StepKeepsDisjoint(s: State, step: Step)
    requires Disjoint(s.instances) && Enabled(s, step)
    ensures Disjoint(InstancesAfter(s, step))
  {
    if step.SelectFailed? || step.SelectPending? {
      forall j | j in s.instances && j != step.who ensures step.ids !! Selected(s.instances[j]) {
        SelectSkipsLocked(s, step, j);
      }
    } else if Acts(step) {
      LocksShrink(InstanceOf(s, step.who), step);
    }
    hide Enabled, NextInstance;
  }

  /** Only the two SELECTs lock rows. */
  lemma LocksShrink(i: Instance, step: Step)
    requires Acts(step) && !step.SelectFailed? && !step.SelectPending?
    ensures Selected(NextInstance(i, step)) <= Selected(i)
  {
  }

  /** The rows an instance works on are not touched by the others. */
  lemma OthersKeepPoll(s: State, t: Table, stmt: Statement, j: InstanceId)
    requires TableFollows(s.rows, t, stmt) && j in s.instances && PollOk(s.rows, s.handled, s.instances[j])
    requires stmt.Claim? || stmt.ClaimReconciliations? ==> stmt.ids !! Selected(s.instances[j])
    ensures PollOk(t, s.handled, s.instances[j])
  {
    hide KeepsVerdict, RowsOk;
    forall id | id in s.rows && id in Selected(s.instances[j])
      ensures s.rows[id].status == Pending ==> t[id].status == Pending
      ensures s.rows[id].status == Failed && s.rows[id].recon == ToReconcile ==>
                t[id].status == Failed && t[id].recon == ToReconcile
    {
      assert Follows(id, s.rows[id], t[id], stmt);
      if s.rows[id].status == Failed { FailedStaysFailed(id, s.rows[id], t[id], stmt); }
    }
  }

  lemma FailedStaysFailed(id: CommandId, r: Row, q: Row, stmt: Statement)
    requires Follows(id, r, q, stmt) && r.status == Failed
    ensures q.status == Failed
  {
  }

  /** Only an instance's own claims give it leases. */
  lemma OthersKeepClosing(s: State, t: Table, stmt: Statement, j: InstanceId)
    requires TableFollows(s.rows, t, stmt) && j in s.instances && ClosingOk(s.rows, j, s.instances[j])
    requires stmt.Claim? || stmt.ClaimReconciliations? ==> stmt.who != j
    ensures ClosingOk(t, j, s.instances[j])
  {
    hide KeepsVerdict, RowsOk;
    forall id | id in t && id in s.rows
      ensures Holds(t[id], j) ==> Holds(s.rows[id], j)
      ensures HoldsReconciliation(t[id], j) ==> HoldsReconciliation(s.rows[id], j)
    {
      assert Follows(id, s.rows[id], t[id], stmt);
    }
  }

  /** A step of the poll itself. */
  lemma OwnStepKeepsPoll(s: State, step: Step, t: Table, handled: set<CommandId>)
    requires Enabled(s, step) && Acts(step) && s.rows.Keys <= t.Keys && s.handled <= handled
    requires PollOk(s.rows, s.handled, InstanceOf(s, step.who))
    requires step.Handle? && step.outcome.ReturnsNormally? ==> step.id in handled
    requires step.SelectFailed? || step.SelectPending? ==> t == s.rows
    requires NextInstance(InstanceOf(s, step.who), step).poll != InstanceOf(s, step.who).poll
    ensures PollOk(t, handled, NextInstance(InstanceOf(s, step.who), step))
  {
    hide WithSubject, LockedByOther;
  }

  /** What an instance holds after a statement: what it held, unless it claims or gives back. */
  lemma HeldBefore(rows: Table, t: Table, stmt: Statement, who: InstanceId)
    requires TableFollows(rows, t, stmt)
    ensures forall id :: id in t && Holds(t[id], who) && !stmt.Claim? ==>
              id in rows && Holds(rows[id], who) && stmt != ReturnLeases(who)
    ensures forall id :: id in t && HoldsReconciliation(t[id], who) && !stmt.ClaimReconciliations? ==>
              id in rows && HoldsReconciliation(rows[id], who) && stmt != ReturnReconciliations(who)
  {
    hide KeepsVerdict, RowsOk, RowOk;
    forall id | id in t && id in rows
      ensures Holds(t[id], who) && !stmt.Claim? ==> Holds(rows[id], who) && stmt != ReturnLeases(who)
      ensures HoldsReconciliation(t[id], who) && !stmt.ClaimReconciliations? ==>
                HoldsReconciliation(rows[id], who) && stmt != ReturnReconciliations(who)
    {
      assert Follows(id, rows[id], t[id], stmt);
    }
  }

  lemma OwnStepKeepsClosing(s: State, step: Step, t: Table)
    requires Enabled(s, step) && Acts(step) && TableFollows(s.rows, t, StatementOf(s, step))
    requires ClosingOk(s.rows, step.who, InstanceOf(s, step.who))
    ensures ClosingOk(t, step.who, NextInstance(InstanceOf(s, step.who), step))
  {
    hide TableFollows, IsOldest, Holds, HoldsReconciliation;
    HeldBefore(s.rows, t, StatementOf(s, step), step.who);
  }

  lemma FreshInstanceIsOk(s: State, who: InstanceId)
    requires RowsOk(s.rows) && InstancesOk(s)
    ensures PollOk(s.rows, s.handled, InstanceOf(s, who)) && ClosingOk(s.rows, who, InstanceOf(s, who))
  {
  }

  lemma SelectReads(s: State, step: Step)
    requires step.SelectFailed? || step.SelectPending?
    ensures Execute(s.rows, StatementOf(s, step), s.now) == s.rows
  {
  }

  lemma OwnStepKeepsInstance(s: State, step: Step, t: Table, handled: set<CommandId>)
    requires RowsOk(s.rows) && InstancesOk(s) && Enabled(s, step) && Acts(step)
    requires TableFollows(s.rows, t, StatementOf(s, step)) && s.handled <= handled
    requires step.Handle? && step.outcome.ReturnsNormally? ==> step.id in handled
    requires step.SelectFailed? || step.SelectPending? ==> t == s.rows
    ensures var i := NextInstance(InstanceOf(s, step.who), step);
            PollOk(t, handled, i) && ClosingOk(t, step.who, i)
  {
    hide TableFollows, Enabled, NextInstance, StatementOf, PollOk, ClosingOk, Disjoint;
    var who := step.who;
    FreshInstanceIsOk(s, who);
    KeysGrow(s.rows, t, StatementOf(s, step));
    OwnStepKeepsClosing(s, step, t);
    if NextInstance(InstanceOf(s, who), step).poll != InstanceOf(s, who).poll {
      OwnStepKeepsPoll(s, step, t, handled);
    } else if who in s.instances {
      ClaimsAreOwn(s, step, who);
      OthersKeepPoll(s, t, StatementOf(s, step), who);
      MoreHandled(t, s.handled, handled, InstanceOf(s, who), NextInstance(InstanceOf(s, who), step));
    } else {
      RestingIsOk(t, handled, NextInstance(InstanceOf(s, who), step));
    }
  }

  lemma OtherStepKeepsInstance(s: State, step: Step, t: Table, handled: set<CommandId>, who: InstanceId)
    requires RowsOk(s.rows) && InstancesOk(s) && Enabled(s, step)
    requires who in s.instances && !(Acts(step) && step.who == who)
    requires TableFollows(s.rows, t, StatementOf(s, step)) && s.handled <= handled
    ensures PollOk(t, handled, s.instances[who]) && ClosingOk(t, who, s.instances[who])
  {
    hide TableFollows, Enabled, NextInstance, StatementOf, PollOk, ClosingOk, Disjoint;
    ClaimsAreOwn(s, step, who);
    OthersKeepClosing(s, t, StatementOf(s, step), who);
    OthersKeepPoll(s, t, StatementOf(s, step), who);
    MoreHandled(t, s.handled, handled, s.instances[who], s.instances[who]);
  }

  lemma StepKeepsInstance(s: State, step: Step, maxEntries: nat, who: InstanceId)
    requires RowsOk(s.rows) && InstancesOk(s) && Enabled(s, step) && who in InstancesAfter(s, step)
    ensures var t := Apply(s, step, maxEntries);
            PollOk(t.rows, t.handled, t.instances[who]) && ClosingOk(t.rows, who, t.instances[who])
  {
    hide Execute, TableFollows, StoreAfter, Received, Enabled, NextInstance, StatementOf, PollOk, ClosingOk,
         InstancesOk;
    var t := Apply(s, step, maxEntries);
    StepFollows(s, step);
    if Acts(step) && step.who == who {
      if step.SelectFailed? || step.SelectPending? { SelectReads(s, step); }
      OwnStepKeepsInstance(s, step, t.rows, t.handled);
    } else {
      OtherStepKeepsInstance(s, step, t.rows, t.handled, who);
    }
  }

  lemma RestingIsOk(rows: Table, handled: set<CommandId>, i: Instance)
    requires i.poll.Resting?
    ensures PollOk(rows, handled, i)
  {
  }

  lemma StepKeepsInstances(s: State, step: Step, maxEntries: nat)
    requires RowsOk(s.rows) && InstancesOk(s) && Enabled(s, step)
    ensures InstancesOk(Apply(s, step, maxEntries))
  {
    StepKeepsDisjoint(s, step);
    forall who | who in InstancesAfter(s, step)
      ensures var t := Apply(s, step, maxEntries);
              PollOk(t.rows, t.handled, t.instances[who]) && ClosingOk(t.rows, who, t.instances[who])
    {
      StepKeepsInstance(s, step, maxEntries, who);
    }
    hide PollOk, ClosingOk, Disjoint, Enabled, InstancesAfter, Execute, StoreAfter, MessagesAfter, StatementOf;
  }

  lemma KeysGrow(rows: Table, t: Table, stmt: Statement)
    requires TableFollows(rows, t, stmt)
    ensures rows.Keys <= t.Keys
  {
  }

  lemma MoreHandled(rows: Table, handled: set<CommandId>, more: set<CommandId>, i: Instance, j: Instance)
    requires PollOk(rows, handled, i) && handled <= more && j.poll == i.poll
    ensures PollOk(rows, more, j)
  {
  }

  /** A claim changes its instance's poll, and its rows are locked by nobody else. */
  lemma ClaimsAreOwn(s: State, step: Step, j: InstanceId)
    requires InstancesOk(s) && Enabled(s, step) && j in s.instances
    requires Acts(step) && step.who == j ==> NextInstance(InstanceOf(s, j), step).poll == InstanceOf(s, j).poll
    ensures var stmt := StatementOf(s, step);
            stmt.Claim? || stmt.ClaimReconciliations? ==> stmt.who != j && stmt.ids !! Selected(s.instances[j])
  {
    hide PollOk, ClosingOk, IsOldest, WithSubject;
  }

  // ---------------------------------------------------------------- the daemons

  /** A verdict is for a begun command. */
  ghost predicate FinishedWasBegun(s: State) {
    forall id :: id in s.rows && Finished(s.rows[id]) ==> id in s.everBegun
  }

  /** A receipt is for a begun command, a begun command was sent, and only stored commands are sent. */
  ghost predicate MessagesOk(s: State) {
    && (forall a :: a in s.acks ==> a.0 in s.everBegun)
    && s.everBegun <= s.sent
    && s.sent <= s.rows.Keys
  }

  ghost predicate DaemonOk(l: Receipts.Ledger, begun: set<CommandId>, maxEntries: nat) {
    Receipts.LedgerOk(l, maxEntries) && l.begun <= begun && l.cache.receipts.Keys <= begun
  }

  ghost predicate DaemonsOk(s: State, maxEntries: nat) {
    forall m :: m in s.daemons ==> DaemonOk(s.daemons[m], s.everBegun, maxEntries)
  }

  lemma BootedIsOk(begun: set<CommandId>, maxEntries: nat)
    ensures DaemonOk(Receipts.BOOTED, begun, maxEntries)
  {
  }

  lemma BeginKeepsDaemon(l: Receipts.Ledger, id: CommandId, begun: set<CommandId>, maxEntries: nat)
    requires DaemonOk(l, begun, maxEntries)
    ensures DaemonOk(Receipts.AfterBegin(l, id), begun + {id}, maxEntries)
    ensures !Receipts.Asked(l.cache, id).New? ==> DaemonOk(Receipts.AfterBegin(l, id), begun, maxEntries)
  {
  }

  lemma FinishKeepsDaemon(l: Receipts.Ledger, id: CommandId, receipt: Receipts.Receipt, begun: set<CommandId>,
                          maxEntries: nat)
    requires maxEntries >= 1 && DaemonOk(l, begun, maxEntries) && id in begun
    ensures DaemonOk(Receipts.AfterComplete(l, id, receipt, maxEntries), begun, maxEntries)
  {
    Receipts.CompleteKeepsLedger(l, id, receipt, maxEntries);
    Receipts.CompletedShape(l.cache, id, receipt, maxEntries);
  }

  /** The daemons and the messages are MessagesAfter's business. */
  lemma MessagesOnly(s: State, step: Step, maxEntries: nat)
    ensures var t, u := Apply(s, step, maxEntries), MessagesAfter(s, step, maxEntries);
            && t.daemons == u.daemons && t.everBegun == u.everBegun && t.acks == u.acks && t.sent == u.sent
            && t.handled == u.handled
  {
    hide MessagesAfter, Execute, StoreAfter, InstancesAfter, StatementOf;
  }

  lemma OthersLeaveDaemons(s: State, step: Step, maxEntries: nat)
    requires !step.Receive? && !step.Finish? && !step.Restart?
    ensures var u := MessagesAfter(s, step, maxEntries);
            && u.daemons == s.daemons && u.everBegun == s.everBegun && u.acks == s.acks
            && u.sent == if step.Send? then s.sent + {step.id} else s.sent
  {
  }

  lemma ReceivingKeepsDaemons(s: State, id: CommandId, maxEntries: nat)
    requires DaemonsOk(s, maxEntries) && id in s.rows
    ensures DaemonsOk(Received(s, id), maxEntries)
  {
    hide DaemonOk, Receipts.AfterBegin;
    var l := DaemonOf(s, s.rows[id].command.machine);
    BootedIsOk(s.everBegun, maxEntries);
    BeginKeepsDaemon(l, id, s.everBegun, maxEntries);
    forall m | m in s.daemons ensures DaemonOk(s.daemons[m], s.everBegun + {id}, maxEntries) {
      MoreBegun(s.daemons[m], s.everBegun, id, maxEntries);
    }
  }

  lemma FinishingKeepsDaemons(s: State, id: CommandId, receipt: Receipts.Receipt, maxEntries: nat)
    requires maxEntries >= 1 && DaemonsOk(s, maxEntries)
    requires id in s.rows && id in DaemonOf(s, s.rows[id].command.machine).begun
    ensures DaemonsOk(MessagesAfter(s, Finish(id, receipt), maxEntries), maxEntries)
  {
    hide DaemonOk, Receipts.AfterComplete;
    BootedIsOk(s.everBegun, maxEntries);
    var l := DaemonOf(s, s.rows[id].command.machine);
    BegunWasBegun(l, s.everBegun, id, maxEntries);
    FinishKeepsDaemon(l, id, receipt, s.everBegun, maxEntries);
  }

  lemma StepKeepsDaemons(s: State, step: Step, maxEntries: nat)
    requires maxEntries >= 1 && DaemonsOk(s, maxEntries) && Enabled(s, step)
    ensures DaemonsOk(Apply(s, step, maxEntries), maxEntries)
  {
    hide DaemonOk, Apply, InstanceEnabled, Received, Receipts.AfterComplete, WithSubject;
    MessagesOnly(s, step, maxEntries);
    match step {
      case Receive(id) => ReceivingKeepsDaemons(s, id, maxEntries);
      case Finish(id, receipt) => FinishingKeepsDaemons(s, id, receipt, maxEntries);
      case Restart(_) => BootedIsOk(s.everBegun, maxEntries);
      case _ => OthersLeaveDaemons(s, step, maxEntries);
    }
  }

  lemma MoreBegun(l: Receipts.Ledger, begun: set<CommandId>, id: CommandId, maxEntries: nat)
    requires DaemonOk(l, begun, maxEntries)
    ensures DaemonOk(l, begun + {id}, maxEntries)
  {
  }

  lemma BegunWasBegun(l: Receipts.Ledger, begun: set<CommandId>, id: CommandId, maxEntries: nat)
    requires DaemonOk(l, begun, maxEntries) && (id in l.begun || id in l.cache.receipts)
    ensures id in begun
  {
  }

  lemma MessagesAreOk(s: State, step: Step, maxEntries: nat)
    requires MessagesOk(s) && DaemonsOk(s, maxEntries) && Enabled(s, step)
    ensures MessagesOk(MessagesAfter(s, step, maxEntries))
  {
    hide DaemonOk, Receipts.AfterBegin, Receipts.AfterComplete, WithSubject, IsOldest;
    BootedIsOk(s.everBegun, maxEntries);
    match step {
      case Receive(id) =>
        var l := DaemonOf(s, s.rows[id].command.machine);
        if id in l.cache.receipts { BegunWasBegun(l, s.everBegun, id, maxEntries); }
      case Finish(id, _) =>
        BegunWasBegun(DaemonOf(s, s.rows[id].command.machine), s.everBegun, id, maxEntries);
      case Restart(_) =>
      case _ => OthersLeaveDaemons(s, step, maxEntries);
    }
  }

  lemma StepKeepsMessages(s: State, step: Step, maxEntries: nat)
    requires RowsOk(s.rows) && InstancesOk(s) && MessagesOk(s) && DaemonsOk(s, maxEntries) && Enabled(s, step)
    ensures MessagesOk(Apply(s, step, maxEntries))
  {
    hide DaemonOk, Execute, StoreAfter, InstancesAfter, StatementOf, MessagesAfter, TableFollows, Enabled, RowsOk,
         InstancesOk;
    StepFollows(s, step);
    KeysGrow(s.rows, Apply(s, step, maxEntries).rows, StatementOf(s, step));
    MessagesAreOk(s, step, maxEntries);
    SameRowsMeanwhile(s, step, maxEntries);
  }

  lemma SameRowsMeanwhile(s: State, step: Step, maxEntries: nat)
    ensures MessagesAfter(s, step, maxEntries).rows == s.rows
    ensures s.everBegun <= MessagesAfter(s, step, maxEntries).everBegun
  {
  }

  /** A verdict comes from an acknowledgement that was in the air. */
  lemma VerdictWasAcked(s: State, step: Step, id: CommandId, r: Row, q: Row)
    requires Enabled(s, step) && Follows(id, r, q, StatementOf(s, step)) && Finished(q) && !Finished(r)
    ensures exists receipt :: (id, receipt) in s.acks
  {
    hide KeepsLeases, RowOk, InstanceEnabled;
    assert step.AckArrives?;
    assert (id, step.receipt) in s.acks;
  }

  lemma StepKeepsBegun(s: State, step: Step, maxEntries: nat)
    requires RowsOk(s.rows) && InstancesOk(s) && FinishedWasBegun(s) && MessagesOk(s) && Enabled(s, step)
    ensures FinishedWasBegun(Apply(s, step, maxEntries))
  {
    hide Follows, Execute, StoreAfter, InstancesAfter, MessagesAfter, Enabled, RowsOk, InstancesOk, StatementOf;
    StepFollows(s, step);
    SameRowsMeanwhile(s, step, maxEntries);
    var t := Apply(s, step, maxEntries);
    forall id | id in t.rows && Finished(t.rows[id]) ensures id in t.everBegun {
      if id in s.rows {
        assert Follows(id, s.rows[id], t.rows[id], StatementOf(s, step));
        if !Finished(s.rows[id]) { VerdictWasAcked(s, step, id, s.rows[id], t.rows[id]); }
      }
    }
  }

  // ---------------------------------------------------------------- the store

  /** What a handled command has left in the store. */
  ghost predicate Recorded(store: Store, c: Command) {
    match c.action
    case ShippingStart(run) => run in store.runs && store.runs[run] != "QUEUED"
    case _ => c.action.session in store.sessions && Events.Count(store.sessions[c.action.session].events, c.id) == 1
  }

  ghost predicate AtMostOneEach(store: Store) {
    forall sid, id :: sid in store.sessions && id != "" ==> Events.Count(store.sessions[sid].events, id) <= 1
  }

  lemma RecordingKeepsStore(store: Store, sid: string, e: Events.Event)
    requires AtMostOneEach(store)
    ensures AtMostOneEach(RecordedIn(store, sid, e))
    ensures RecordedIn(store, sid, e).sessions.Keys == store.sessions.Keys
    ensures RecordedIn(store, sid, e).runs == store.runs
    ensures forall c: Command :: c.id != "" && Recorded(store, c) ==> Recorded(RecordedIn(store, sid, e), c)
    ensures sid in store.sessions ==> forall c: Command ::
              c.id != "" && e.commandId == Some(c.id) && !c.action.ShippingStart? && c.action.session == sid ==>
                Recorded(RecordedIn(store, sid, e), c)
  {
    if sid in store.sessions {
      forall id | id != ""
        ensures Events.Count(Events.AddEvent(store.sessions[sid], e).events, id) <= 1
        ensures Events.Carries(e, id) || Events.Count(store.sessions[sid].events, id) == 1 ==>
                  Events.Count(Events.AddEvent(store.sessions[sid], e).events, id) == 1
      {
        Events.AddKeepsAtMostOne(store.sessions[sid], e, id);
        Events.AddNeverRemoves(store.sessions[sid], e, id);
      }
    }
  }

  /** Subjects stay, records stay, and a call of onAcknowledged that gets to its write leaves the record. */
  ghost predicate StoreFollows(store: Store, after: Store) {
    && AtMostOneEach(after)
    && store.sessions.Keys <= after.sessions.Keys && store.runs.Keys <= after.runs.Keys
    && (forall c: Command :: c.id != "" && Recorded(store, c) ==> Recorded(after, c))
  }

  lemma ReconcilingRecords(store: Store, c: Command, error: string, at: nat)
    requires c.id != "" && AtMostOneEach(store) && SubjectExists(store, c.action)
    ensures StoreFollows(store, Reconciled(store, c, error, at))
    ensures Recorded(Reconciled(store, c, error, at), c)
  {
    hide RecordedIn, AtMostOneEach;
    match c.action {
      case SessionStart(sid) =>
        RecordingKeepsStore(store, sid, Events.Event(Events.StatusChange("failed"), Some(c.id), at));
      case SessionMessage(sid) => RecordingKeepsStore(store, sid, Events.Event(Events.Problem(error), Some(c.id), at));
      case SessionInterrupt(sid) =>
        RecordingKeepsStore(store, sid, Events.Event(Events.Problem(error), Some(c.id), at));
      case ShippingStart(run) => SessionsSame(store, Reconciled(store, c, error, at));
    }
  }

  lemma SessionsSame(store: Store, after: Store)
    requires AtMostOneEach(store) && after.sessions == store.sessions
    ensures AtMostOneEach(after)
  {
  }

  lemma SubjectKeepsStore(store: Store, c: Command, session: Events.Session)
    requires AtMostOneEach(store) && session.events == []
    ensures StoreFollows(store, WithSubject(store, c, session))
  {
  }

  lemma StoreStays(store: Store)
    requires AtMostOneEach(store)
    ensures StoreFollows(store, store)
  {
  }

  lemma StepKeepsStore(s: State, step: Step)
    requires RowsOk(s.rows) && AtMostOneEach(s.store) && Enabled(s, step)
    requires forall id :: id in s.rows ==> SubjectExists(s.store, s.rows[id].command.action)
    ensures StoreFollows(s.store, StoreAfter(s, step))
    ensures step.Handle? && !step.outcome.ThrowsBefore? ==> Recorded(StoreAfter(s, step), s.rows[step.id].command)
  {
    hide AtMostOneEach, RecordedIn, Reconciled, WithSubject, LockedByOther, IsOldest, Recorded, StoreFollows,
         SubjectExists;
    match step {
      case Enqueue(c, session, _) => SubjectKeepsStore(s.store, c, session);
      case Handle(_, id, at, outcome) =>
        var error := if s.rows[id].ackError.Some? then s.rows[id].ackError.value else "daemon_command_failed";
        ReconcilingRecords(s.store, s.rows[id].command, error, at);
        StoreStays(s.store);
      case SessionActivity(sid, e) => ActivityKeepsStore(s.store, sid, e);
      case RunActivity(run, state) => RunActivityKeepsStore(s.store, run, state);
      case _ => StoreStays(s.store);
    }
  }

  lemma ActivityKeepsStore(store: Store, sid: string, e: Events.Event)
    requires AtMostOneEach(store)
    ensures StoreFollows(store, RecordedIn(store, sid, e))
  {
    hide RecordedIn, AtMostOneEach;
    RecordingKeepsStore(store, sid, e);
  }

  lemma RunActivityKeepsStore(store: Store, run: string, state: string)
    requires AtMostOneEach(store) && run in store.runs && state != "QUEUED"
    ensures StoreFollows(store, store.(runs := store.runs[run := state]))
  {
  }

  ghost predicate SubjectsExist(s: State) {
    forall id :: id in s.rows ==> SubjectExists(s.store, s.rows[id].command.action)
  }

  /** Reconciled means handled. */
  ghost predicate ReconciledWasHandled(s: State) {
    forall id :: id in s.rows && s.rows[id].status == Failed && s.rows[id].recon == Complete ==> id in s.handled
  }

  /** Handled means recorded. */
  ghost predicate HandledIsRecorded(s: State) {
    forall id :: id in s.handled ==> id in s.rows && Recorded(s.store, s.rows[id].command)
  }

  ghost predicate HandledOk(s: State) {
    AtMostOneEach(s.store) && SubjectsExist(s) && ReconciledWasHandled(s) && HandledIsRecorded(s)
  }

  lemma SubjectStays(store: Store, after: Store, a: Action)
    requires StoreFollows(store, after) && SubjectExists(store, a)
    ensures SubjectExists(after, a)
  {
    hide AtMostOneEach, Recorded;
  }

  /** A new row comes with its subject. */
  lemma NewRowHasSubject(s: State, step: Step, t: Table, id: CommandId)
    requires Enabled(s, step) && TableFollows(s.rows, t, StatementOf(s, step)) && id in t && id !in s.rows
    ensures SubjectExists(StoreAfter(s, step), t[id].command.action)
  {
    hide WithSubject, InstanceEnabled, Follows, RowsOk, SubjectExists;
  }

  lemma StepKeepsSubjects(s: State, step: Step, maxEntries: nat)
    requires RowsOk(s.rows) && InstancesOk(s) && HandledOk(s) && Enabled(s, step)
    ensures AtMostOneEach(Apply(s, step, maxEntries).store) && SubjectsExist(Apply(s, step, maxEntries))
  {
    hide AtMostOneEach, Recorded, Execute, MessagesAfter, InstancesAfter, Enabled, RowsOk, InstancesOk, StoreAfter,
         StatementOf, KeepsVerdict, KeepsLeases, RowOk, SubjectExists;
    StepFollows(s, step);
    StepKeepsStore(s, step);
    var t := Apply(s, step, maxEntries);
    forall id | id in t.rows ensures SubjectExists(t.store, t.rows[id].command.action) {
      if id in s.rows {
        assert Follows(id, s.rows[id], t.rows[id], StatementOf(s, step));
        SubjectStays(s.store, t.store, s.rows[id].command.action);
      } else {
        NewRowHasSubject(s, step, t.rows, id);
      }
    }
  }

  /** Only a reconciliation that was handled completes. */
  lemma CompletedWasHandled(s: State, step: Step, id: CommandId, r: Row, q: Row)
    requires InstancesOk(s) && Enabled(s, step) && Follows(id, r, q, StatementOf(s, step))
    requires q.status == Failed && q.recon == Complete && !(r.status == Failed && r.recon == Complete)
    ensures id in s.handled
  {
    hide RowOk, KeepsLeases, Disjoint, ClosingOk, InstanceEnabled;
    assert step.HandledUpdate?;
    if step.who in s.instances { assert PollOk(s.rows, s.handled, s.instances[step.who]); }
  }

  lemma HandledGrows(s: State, step: Step, maxEntries: nat)
    ensures s.handled <= Apply(s, step, maxEntries).handled
  {
    hide Execute, StoreAfter, InstancesAfter, StatementOf;
  }

  lemma StepKeepsReconciled(s: State, step: Step, maxEntries: nat)
    requires RowsOk(s.rows) && InstancesOk(s) && ReconciledWasHandled(s) && Enabled(s, step)
    ensures ReconciledWasHandled(Apply(s, step, maxEntries))
  {
    hide Execute, StoreAfter, MessagesAfter, RowsOk, InstancesAfter, Enabled, InstancesOk, Follows, StatementOf;
    StepFollows(s, step);
    HandledGrows(s, step, maxEntries);
    NewRowsArePending(s, step, maxEntries);
    var t := Apply(s, step, maxEntries);
    forall id | id in t.rows && t.rows[id].status == Failed && t.rows[id].recon == Complete ensures id in t.handled {
      if id in s.rows {
        assert Follows(id, s.rows[id], t.rows[id], StatementOf(s, step));
        if !(s.rows[id].status == Failed && s.rows[id].recon == Complete) {
          CompletedWasHandled(s, step, id, s.rows[id], t.rows[id]);
        }
      }
    }
  }

  lemma NewRowsArePending(s: State, step: Step, maxEntries: nat)
    requires TableFollows(s.rows, Execute(s.rows, StatementOf(s, step), s.now), StatementOf(s, step))
    ensures var t := Apply(s, step, maxEntries).rows;
            forall id :: id in t && id !in s.rows ==> t[id].status == Pending
  {
    hide Execute, StoreAfter, MessagesAfter, InstancesAfter, StatementOf, Follows, RowsOk;
  }

  lemma StepKeepsRecords(s: State, step: Step, maxEntries: nat)
    requires RowsOk(s.rows) && InstancesOk(s) && HandledOk(s) && Enabled(s, step)
    ensures HandledIsRecorded(Apply(s, step, maxEntries))
  {
    hide AtMostOneEach, Recorded, Execute, StoreAfter, Received, WithSubject, InstancesAfter, KeepsVerdict, KeepsLeases;
    StepFollows(s, step);
    StepKeepsStore(s, step);
    var t := Apply(s, step, maxEntries);
    forall id | id in t.handled ensures id in t.rows && Recorded(t.store, t.rows[id].command) {
      assert Follows(id, s.rows[id], t.rows[id], StatementOf(s, step));
    }
  }

  /**
   A failed session.start leaves its session failed, and a second processing puts it back to failed
   whatever was added in between.
   */
  lemma FailedStartStaysFailed(store: Store, c: Command, sid: string, error: string, at: nat,
                               between: seq<Events.Event>, error2: string, at2: nat)
    requires c.id != "" && c.action == SessionStart(sid) && sid in store.sessions
    requires Events.Find(store.sessions[sid].events, c.id).None?
    ensures var once := Reconciled(store, c, error, at);
            var moved := once.(sessions := once.sessions[sid := Events.AddAll(once.sessions[sid], between)]);
            && once.sessions[sid].status == "failed"
            && Reconciled(moved, c, error2, at2).sessions[sid].status == "failed"
  {
    Events.RetryRestoresStatus(store.sessions[sid], between,
                               Events.Event(Events.StatusChange("failed"), Some(c.id), at),
                               Events.Event(Events.StatusChange("failed"), Some(c.id), at2), c.id, "failed");
  }

  // ---------------------------------------------------------------- every run

  ghost predicate Inv(s: State, maxEntries: nat) {
    RowsOk(s.rows) && InstancesOk(s) && FinishedWasBegun(s) && MessagesOk(s) && DaemonsOk(s, maxEntries) && HandledOk(s)
  }

  lemma StepKeepsInv(s: State, step: Step, maxEntries: nat)
    requires maxEntries >= 1 && Inv(s, maxEntries) && Enabled(s, step)
    ensures Inv(Apply(s, step, maxEntries), maxEntries)
  {
    StepFollows(s, step);
    StepKeepsInstances(s, step, maxEntries);
    StepKeepsMessages(s, step, maxEntries);
    StepKeepsBegun(s, step, maxEntries);
    StepKeepsDaemons(s, step, maxEntries);
    StepKeepsSubjects(s, step, maxEntries);
    StepKeepsReconciled(s, step, maxEntries);
    StepKeepsRecords(s, step, maxEntries);
  }

  lemma {:induction false} EveryRunKeepsInv(steps: seq<Step>, maxEntries: nat)
    requires maxEntries >= 1 && Run(steps, maxEntries).Some?
    ensures Inv(Run(steps, maxEntries).value, maxEntries)
  {
    hide Inv, Apply;
    if steps == [] {
      StartIsOk(maxEntries);
    } else {
      var before := steps[..|steps| - 1];
      EveryRunKeepsInv(before, maxEntries);
      StepKeepsInv(Run(before, maxEntries).value, steps[|steps| - 1], maxEntries);
    }
  }

  lemma StartIsOk(maxEntries: nat)
    ensures Inv(START, maxEntries)
  {
  }

  /**
   The verdict of a command never changes: whatever happens after a run, an acked or failed row is
   still there with the same verdict and error text, and every row keeps its command.
   */
  lemma {:induction false} VerdictIsFinal(steps: seq<Step>, more: seq<Step>, maxEntries: nat, id: CommandId)
    requires maxEntries >= 1 && Run(steps, maxEntries).Some? && Run(steps + more, maxEntries).Some?
    requires id in Run(steps, maxEntries).value.rows
    ensures var r, t := Run(steps, maxEntries).value.rows[id], Run(steps + more, maxEntries).value.rows;
            && id in t && t[id].command == r.command
            && (Finished(r) ==> t[id].status == r.status && t[id].ackError == r.ackError)
            && (r.status == Failed && r.recon == Complete ==> t[id].recon == Complete)
    decreases |more|
  {
    hide Apply, RowOk, Enabled;
    if more == [] {
      assert steps + more == steps;
    } else {
      var all := steps + more;
      assert all[..|all| - 1] == steps + more[..|more| - 1];
      VerdictIsFinal(steps, more[..|more| - 1], maxEntries, id);
      var s, step := Run(all[..|all| - 1], maxEntries).value, all[|all| - 1];
      EveryRunKeepsInv(all[..|all| - 1], maxEntries);
      StepIsFinal(s, step, maxEntries, id);
    }
  }

  lemma StepIsFinal(s: State, step: Step, maxEntries: nat, id: CommandId)
    requires RowsOk(s.rows) && InstancesOk(s) && Enabled(s, step) && id in s.rows
    ensures var t := Apply(s, step, maxEntries).rows;
            id in t && Follows(id, s.rows[id], t[id], StatementOf(s, step))
  {
    StepFollows(s, step);
  }

  /** No command finishes unless the daemon began it, and only the current lease owner's ack finishes it. */
  lemma FinishedOnlyByOwnersAck(steps: seq<Step>, step: Step, maxEntries: nat, id: CommandId)
    requires maxEntries >= 1 && Run(steps, maxEntries).Some? && Enabled(Run(steps, maxEntries).value, step)
    requires id in Run(steps, maxEntries).value.rows && !Finished(Run(steps, maxEntries).value.rows[id])
    requires Finished(Apply(Run(steps, maxEntries).value, step, maxEntries).rows[id])
    ensures var s := Run(steps, maxEntries).value;
            && step.AckArrives? && step.id == id
            && s.rows[id].owner == Some(step.who) && s.rows[id].status == Dispatching
            && id in s.everBegun && (id, step.receipt) in s.acks
  {
    hide MessagesAfter, StoreAfter, InstancesAfter;
    EveryRunKeepsInv(steps, maxEntries);
    StepIsFinal(Run(steps, maxEntries).value, step, maxEntries, id);
  }

  /**
   At most once inside: whenever, in any run, a daemon process begins a command it began before, it
   had completed it and inserted at least maxEntries other receipts since.
   */
  lemma BegunAgainOnlyAfterEviction(steps: seq<Step>, maxEntries: nat, id: CommandId)
    requires maxEntries >= 1 && Run(steps, maxEntries).Some?
    requires Enabled(Run(steps, maxEntries).value, Receive(id))
    ensures var s := Run(steps, maxEntries).value;
            var l := DaemonOf(s, s.rows[id].command.machine);
            id in l.begun && Receipts.Asked(l.cache, id).New? ==>
              id in l.insertedAt && Receipts.Newer(l, id) >= maxEntries
  {
    hide Receipts.LedgerOk;
    EveryRunKeepsInv(steps, maxEntries);
    BootedIsOk({}, maxEntries);
    var s := Run(steps, maxEntries).value;
    Receipts.BegunTwiceOnlyAfterEviction(DaemonOf(s, s.rows[id].command.machine), id, maxEntries);
  }

  /**
   Exactly once outside: a failed command whose reconciliation is complete was handled, and has left
   exactly one event in its session however often it was processed, or moved its run out of QUEUED.
   */
  lemma FailureIsRecordedOnce(steps: seq<Step>, maxEntries: nat, id: CommandId)
    requires maxEntries >= 1 && Run(steps, maxEntries).Some?
    requires id in Run(steps, maxEntries).value.rows
    ensures var s := Run(steps, maxEntries).value;
            s.rows[id].status == Failed && s.rows[id].recon == Complete ==>
              id in s.handled && Recorded(s.store, s.rows[id].command)
  {
    hide Recorded;
    EveryRunKeepsInv(steps, maxEntries);
  }

  /**
   A closed instance never again holds a lease of either kind, so none of its acknowledgements can match:
   close() is final, whatever the others do.
   */
  lemma {:induction false} ClosedHoldsNothing(steps: seq<Step>, more: seq<Step>, maxEntries: nat, who: InstanceId)
    requires maxEntries >= 1 && Run(steps, maxEntries).Some? && Run(steps + more, maxEntries).Some?
    requires InstanceOf(Run(steps, maxEntries).value, who).closing.Closed?
    ensures var s := Run(steps + more, maxEntries).value;
            && InstanceOf(s, who).closing.Closed? && InstanceOf(s, who).poll.Resting?
            && forall id :: id in s.rows ==>
                 && !Holds(s.rows[id], who) && !HoldsReconciliation(s.rows[id], who)
                 && forall machine :: !AckMatches(s.rows[id], machine, who)
    decreases |more|
  {
    hide Apply, Enabled;
    EveryRunKeepsInv(steps + more, maxEntries);
    if more == [] {
      assert steps + more == steps;
    } else {
      var all := steps + more;
      assert all[..|all| - 1] == steps + more[..|more| - 1];
      ClosedHoldsNothing(steps, more[..|more| - 1], maxEntries, who);
      ClosedStaysClosed(Run(all[..|all| - 1], maxEntries).value, all[|all| - 1], maxEntries, who);
    }
    FreshInstanceIsOk(Run(steps + more, maxEntries).value, who);
  }

  lemma ClosedStaysClosed(s: State, step: Step, maxEntries: nat, who: InstanceId)
    requires Enabled(s, step) && InstanceOf(s, who).closing.Closed?
    ensures InstanceOf(Apply(s, step, maxEntries), who).closing.Closed?
  {
    hide Execute, StoreAfter, StatementOf, MessagesAfter, IsOldest, WithSubject;
  }

  // ---------------------------------------------------------------- a lease is safe until its time

  /** The holder's own steps that end its lease of this command. */
  predicate EndsLease(step: Step, h: InstanceId, id: CommandId) {
    || (step.AckArrives? && step.who == h && step.id == id)
    || (step.SendReturned? && step.who == h)
    || (step.CloseReturnsLeases? && step.who == h)
  }

  predicate EndsReconciliation(step: Step, h: InstanceId) {
    (step.HandledUpdate? || step.CloseReturnsReconciliations?) && step.who == h
  }

  /** The command is this instance's until then. */
  ghost predicate LeasedUntil(s: State, h: InstanceId, id: CommandId, until: nat) {
    && id in s.rows && s.rows[id].status == Dispatching
    && s.rows[id].owner == Some(h) && s.rows[id].lease == Some(until)
  }

  ghost predicate ReconciledUntil(s: State, h: InstanceId, id: CommandId, until: nat) {
    && id in s.rows && s.rows[id].recon == Processing
    && s.rows[id].reconOwner == Some(h) && s.rows[id].reconLease == Some(until)
  }

  lemma OwnUseIsOwnStep(s: State, step: Step, h: InstanceId, id: CommandId)
    ensures OwnUse(id, h, StatementOf(s, step)) ==> EndsLease(step, h, id)
    ensures OwnReconciliation(id, h, StatementOf(s, step)) ==> EndsReconciliation(step, h)
  {
  }

  lemma SelectableIn(s: State, step: Step, id: CommandId)
    requires RowsOk(s.rows) && InstancesOk(s) && Enabled(s, step) && id in s.rows
    ensures RowOk(id, s.rows[id]) && Selectable(s.rows[id], StatementOf(s, step))
  {
    hide Disjoint, ClosingOk, IsOldest, WithSubject, LockedByOther;
    if Acts(step) && step.who in s.instances { assert PollOk(s.rows, s.handled, s.instances[step.who]); }
  }

  lemma RowAfterStep(s: State, step: Step, maxEntries: nat, id: CommandId)
    requires id in s.rows
    ensures var t := Apply(s, step, maxEntries);
            && id in t.rows && t.now >= s.now
            && t.rows[id] == if StatementOf(s, step).Insert? then s.rows[id]
                             else Updated(s.rows[id], StatementOf(s, step), s.now)
  {
    hide Updated, StoreAfter, InstancesAfter, StatementOf, Received;
  }

  lemma StepKeepsLease(s: State, step: Step, maxEntries: nat, h: InstanceId, id: CommandId, until: nat)
    requires RowsOk(s.rows) && InstancesOk(s) && Enabled(s, step) && s.now < until
    ensures LeasedUntil(s, h, id, until) && !EndsLease(step, h, id) ==>
              LeasedUntil(Apply(s, step, maxEntries), h, id, until)
    ensures ReconciledUntil(s, h, id, until) && !EndsReconciliation(step, h) ==>
              ReconciledUntil(Apply(s, step, maxEntries), h, id, until)
  {
    hide Apply, Enabled, InstancesOk, RowsOk, StatementOf, EndsLease, EndsReconciliation, Updated, RowOk, Selectable,
         OwnUse, OwnReconciliation;
    if id in s.rows {
      SelectableIn(s, step, id);
      RowAfterStep(s, step, maxEntries, id);
      OwnUseIsOwnStep(s, step, h, id);
      var r, stmt := s.rows[id], StatementOf(s, step);
      if LeasedUntil(s, h, id, until) && !EndsLease(step, h, id) { LeaseIsSafe(id, r, h, stmt, s.now); }
      if ReconciledUntil(s, h, id, until) && !EndsReconciliation(step, h) {
        ReconciliationIsSafe(id, r, h, stmt, s.now);
      }
    }
  }

  /**
   Whatever all the others do, a lease lasts until its own time: only the holder's own acknowledgement, return or
   close can end it before.
   */
  lemma {:induction false} LeaseLasts(steps: seq<Step>, more: seq<Step>, maxEntries: nat, h: InstanceId,
                                      id: CommandId, until: nat)
    requires maxEntries >= 1 && Run(steps, maxEntries).Some? && Run(steps + more, maxEntries).Some?
    requires Run(steps + more, maxEntries).value.now < until
    ensures LeasedUntil(Run(steps, maxEntries).value, h, id, until)
            && (forall step <- more :: !EndsLease(step, h, id)) ==>
              LeasedUntil(Run(steps + more, maxEntries).value, h, id, until)
    ensures ReconciledUntil(Run(steps, maxEntries).value, h, id, until)
            && (forall step <- more :: !EndsReconciliation(step, h)) ==>
              ReconciledUntil(Run(steps + more, maxEntries).value, h, id, until)
    decreases |more|
  {
    hide Apply, Enabled, LeasedUntil, ReconciledUntil, EndsLease, EndsReconciliation, Inv;
    if more == [] {
      assert steps + more == steps;
    } else {
      var all := steps + more;
      var before := more[..|more| - 1];
      assert all[..|all| - 1] == steps + before && more[|more| - 1] in more && forall step <- before :: step in more;
      var s := Run(steps + before, maxEntries).value;
      OneStepLater(s, all[|all| - 1], maxEntries);
      LeaseLasts(steps, before, maxEntries, h, id, until);
      EveryRunKeepsInv(steps + before, maxEntries);
      PartsOfInv(s, maxEntries);
      StepKeepsLease(s, all[|all| - 1], maxEntries, h, id, until);
    }
  }

  lemma OneStepLater(s: State, step: Step, maxEntries: nat)
    ensures s.now <= Apply(s, step, maxEntries).now
  {
    hide Execute, StoreAfter, InstancesAfter, StatementOf, Received;
  }

  lemma PartsOfInv(s: State, maxEntries: nat)
    requires Inv(s, maxEntries)
    ensures RowsOk(s.rows) && InstancesOk(s)
  {
  }

  /** So the acknowledgement that comes back to the holder in time is accepted. */
  lemma AckInTimeIsAccepted(steps: seq<Step>, more: seq<Step>, maxEntries: nat, h: InstanceId, id: CommandId,
                            until: nat, receipt: Receipts.Receipt, legacy: bool)
    requires maxEntries >= 1 && Run(steps, maxEntries).Some? && Run(steps + more, maxEntries).Some?
    requires LeasedUntil(Run(steps, maxEntries).value, h, id, until)
    requires Run(steps + more, maxEntries).value.now < until && forall step <- more :: !EndsLease(step, h, id)
    requires Enabled(Run(steps + more, maxEntries).value, AckArrives(h, id, receipt, legacy))
    ensures var t := Apply(Run(steps + more, maxEntries).value, AckArrives(h, id, receipt, legacy), maxEntries);
            t.rows[id].status == (if receipt.ok then Acked else Failed) && t.rows[id].lease == None
            && (t.rows[id].recon == ToReconcile <==> !receipt.ok)
  {
    hide Apply, Enabled, Run, Updated, RowOk, EndsLease, Inv;
    LeaseLasts(steps, more, maxEntries, h, id, until);
    EveryRunKeepsInv(steps + more, maxEntries);
    var s := Run(steps + more, maxEntries).value;
    PartsOfInv(s, maxEntries);
    RowAfterStep(s, AckArrives(h, id, receipt, legacy), maxEntries, id);
    HoldersAckCounts(id, s.rows[id], s.rows[id].command.machine, h, receipt, legacy, s.now);
  }

  // ---------------------------------------------------------------- what single steps bring about

  /** A claim lasts fifteen seconds. */
  lemma ClaimGivesLease(s: State, who: InstanceId, heard: bool, maxEntries: nat, id: CommandId)
    requires RowsOk(s.rows) && InstancesOk(s) && id in Selected(InstanceOf(s, who))
    ensures Enabled(s, ClaimPending(who, heard)) ==>
              LeasedUntil(Apply(s, ClaimPending(who, heard), maxEntries), who, id, s.now + 15_000)
    ensures Enabled(s, ClaimFailed(who, heard)) ==>
              ReconciledUntil(Apply(s, ClaimFailed(who, heard), maxEntries), who, id, s.now + 15_000)
  {
    hide Disjoint, ClosingOk, Updated, StoreAfter, Received;
    assert PollOk(s.rows, s.handled, s.instances[who]);
    assert RowOk(id, s.rows[id]);
    ClaimLasts(s.rows[id], Selected(InstanceOf(s, who)), who, 15_000, s.now);
    RowAfterStep(s, ClaimPending(who, heard), maxEntries, id);
    RowAfterStep(s, ClaimFailed(who, heard), maxEntries, id);
  }

  /** What could not be sent is pending again at once. */
  lemma UnsentIsReturned(s: State, who: InstanceId, maxEntries: nat, id: CommandId)
    requires RowsOk(s.rows) && Enabled(s, SendReturned(who)) && InstanceOf(s, who).poll.unsent == Some(id)
    requires id in s.rows && Holds(s.rows[id], who)
    ensures var t := Apply(s, SendReturned(who), maxEntries);
            t.rows[id].status == Pending && t.rows[id].owner == None && t.rows[id].lease == None
  {
    hide StoreAfter, Received;
    assert RowOk(id, s.rows[id]);
    RowAfterStep(s, SendReturned(who), maxEntries, id);
  }

  /** A failed command whose handling returned is reconciled by the instance that claimed it. */
  lemma HandledIsReconciled(s: State, who: InstanceId, maxEntries: nat, id: CommandId)
    requires RowsOk(s.rows) && Enabled(s, HandledUpdate(who, true)) && InstanceOf(s, who).poll.returned == Some(id)
    requires id in s.rows && HoldsReconciliation(s.rows[id], who)
    ensures var t := Apply(s, HandledUpdate(who, true), maxEntries);
            t.rows[id].status == Failed && t.rows[id].recon == Complete && t.rows[id].reconOwner == None
  {
    hide StoreAfter, Received;
    assert RowOk(id, s.rows[id]);
    RowAfterStep(s, HandledUpdate(who, true), maxEntries, id);
  }

  /** A daemon that gets a command it has finished answers again with the receipt it remembers. */
  lemma DuplicateIsAnswered(s: State, maxEntries: nat, id: CommandId)
    requires Enabled(s, Receive(id))
    ensures var l := DaemonOf(s, s.rows[id].command.machine);
            var t := Apply(s, Receive(id), maxEntries);
            && (id in l.cache.receipts ==> (id, l.cache.receipts[id]) in t.acks && t.everBegun == s.everBegun)
            && (id !in l.cache.receipts && id !in l.cache.inFlight ==>
                  id in DaemonOf(t, s.rows[id].command.machine).begun)
  {
    hide Execute, StoreAfter, StatementOf, InstancesAfter;
  }

  /** What the failure of a command says where the user sees it, the first time it is handled. */
  lemma FailureIsShown(store: Store, c: Command, error: string, at: nat)
    requires SubjectExists(store, c.action)
    requires c.action.ShippingStart? || Events.Find(store.sessions[c.action.session].events, c.id).None?
    ensures var after := Reconciled(store, c, error, at);
            match c.action
            case SessionStart(sid) =>
              after.sessions[sid].status == "failed" && after.runs == store.runs
            case SessionMessage(sid) =>
              after.sessions[sid].events == store.sessions[sid].events
                                            + [Events.Event(Events.Problem(error), Some(c.id), at)]
            case SessionInterrupt(sid) =>
              after.sessions[sid].events == store.sessions[sid].events
                                            + [Events.Event(Events.Problem(error), Some(c.id), at)]
            case ShippingStart(run) =>
              after.runs[run] == (if store.runs[run] == "QUEUED" then "FAILED" else store.runs[run])
              && after.sessions == store.sessions
  {
  }

  /** The poll takes the oldest fifty pending commands of its machines that nobody has locked. */
  lemma PollTakesOldest(s: State, who: InstanceId, ids: set<CommandId>)
    requires Enabled(s, SelectPending(who, ids))
    ensures |ids| <= 50
    ensures forall x :: x in ids ==>
              && x in s.rows && s.rows[x].status == Pending
              && s.rows[x].command.machine in InstanceOf(s, who).poll.machines
    ensures forall x, y :: x in ids && y in s.rows && y !in ids && s.rows[y].status == Pending
                           && s.rows[y].command.machine in InstanceOf(s, who).poll.machines
                           && !LockedByOther(s, who, y) ==>
              |ids| == 50 && s.rows[x].createdAt <= s.rows[y].createdAt
  {
    hide LockedByOther, IsOldest;
    OldestFifty(ids, EligiblePending(s, who, InstanceOf(s, who).poll.machines), CreationTimes(s.rows));
  }

  /** And the fifty failed ones that wait longest for their reconciliation, whatever their machine. */
  lemma PollTakesOldestFailed(s: State, who: InstanceId, ids: set<CommandId>)
    requires Enabled(s, SelectFailed(who, ids))
    ensures |ids| <= 50
    ensures forall x :: x in ids ==> x in s.rows && s.rows[x].status == Failed && s.rows[x].recon == ToReconcile
    ensures forall x, y :: x in ids && y in s.rows && y !in ids && s.rows[y].status == Failed
                           && s.rows[y].recon == ToReconcile && !LockedByOther(s, who, y) ==>
              |ids| == 50 && s.rows[x].updatedAt <= s.rows[y].updatedAt
  {
    hide LockedByOther, IsOldest;
    OldestFifty(ids, EligibleFailed(s, who), UpdateTimes(s.rows));
  }

  /** Leases whose time has come are swept by the next poll of any instance. */
  lemma OldLeasesAreSwept(s: State, who: InstanceId, maxEntries: nat, id: CommandId)
    requires RowsOk(s.rows) && id in s.rows
    ensures s.rows[id].status == Dispatching && s.rows[id].lease.value <= s.now ==>
              Apply(s, SweepLeases(who), maxEntries).rows[id].status == Pending
    ensures s.rows[id].recon == Processing && s.rows[id].reconLease.value <= s.now ==>
              Apply(s, SweepReconciliations(who), maxEntries).rows[id].recon == ToReconcile
  {
    hide StoreAfter, Received, InstancesAfter, Updated;
    assert RowOk(id, s.rows[id]);
    OldLeaseIsSwept(id, s.rows[id], s.now);
    RowAfterStep(s, SweepLeases(who), maxEntries, id);
    RowAfterStep(s, SweepReconciliations(who), maxEntries, id);
  }

  /** A poll without connected machines only works off failures; it sweeps and claims no commands. */
  lemma NoMachinesNoClaims(s: State, who: InstanceId, maxEntries: nat)
    requires Enabled(s, EndHandling(who))
    ensures var poll := InstanceOf(Apply(s, EndHandling(who), maxEntries), who).poll;
            if InstanceOf(s, who).poll.machines == {} then poll.Resting?
            else poll == CaughtUp(InstanceOf(s, who).poll.machines)
  {
    hide Execute, StoreAfter, StatementOf;
  }
}
