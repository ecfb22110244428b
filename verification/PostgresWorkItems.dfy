/**
 The Postgres work-item repository: transactions that interleave statement by statement, at the
 default isolation level. A row lock or an uncommitted key makes a later statement wait; a lost
 connection may strike before every statement and after the commit.
 */
module PostgresWorkItems {
  import opened Options
  import opened WorkItems

  type TxId = nat

  /** Why the try block of create or transition was left; a lost connection is Infrastructure. */
  datatype Failure = Domain(error: Error) | UniqueViolation | Infrastructure

  /** What the caller finally gets. */
  datatype Answer = Answered(response: Response) | Thrown(failure: Failure)

  /** Where a call stands. Locked, Written and Recorded hold the item's row, or its new primary key. */
  datatype Stage =
    | Begun
    | Looked(at: nat)
    | Locked(current: Option<WorkItem>, updated: WorkItem)
    | Written(current: Option<WorkItem>, updated: WorkItem)
    | Recorded(event: Event)
    | Returning(response: Response)
    | Failing(failure: Failure)
    | Finished(answer: Answer)

  datatype Tx = Tx(request: Request, invokedAt: nat, stage: Stage)

  /**
   The committed events, the calls in progress, and, for the proofs, the requests that committed. The
   item rows are the results of the last events.
   */
  datatype Database = Database(log: Log, txs: map<TxId, Tx>, order: seq<Request>)

  predicate HoldsRow(t: Tx) {
    t.stage.Locked? || t.stage.Written? || t.stage.Recorded?
  }

  /** Two creations of one item, or two transitions of it, wait for each other. */
  predicate SameRow(t: Tx, u: Tx) {
    t.request.Create? == u.request.Create? && Subject(t.request) == Subject(u.request)
  }

  predicate RowFree(d: Database, i: TxId)
    requires i in d.txs
  {
    forall j | j in d.txs && j != i :: !(HoldsRow(d.txs[j]) && SameRow(d.txs[i], d.txs[j]))
  }

  /** An uncommitted insert of the same command id makes a second insert wait. */
  predicate KeyFree(d: Database, i: TxId)
    requires i in d.txs
  {
    forall j | j in d.txs && j != i ::
      !(d.txs[j].stage.Recorded? && d.txs[j].request.commandId == d.txs[i].request.commandId)
  }

  datatype Action =
    | Invoke(request: Request)
    | FindReplay
    | SelectForUpdate
    | Update
    | InsertEvent
    | Commit(acknowledged: bool)
    | Abort
    | ReplayAfterRace(queryWorks: bool)

  predicate Enabled(d: Database, i: TxId, a: Action) {
    if a.Invoke? then i !in d.txs else
    i in d.txs &&
    var stage := d.txs[i].stage;
    match a
    case FindReplay => stage.Begun?
    case SelectForUpdate => stage.Looked? && RowFree(d, i)
    case Update => stage.Locked?
    case InsertEvent => stage.Written? && KeyFree(d, i)
    case Commit(_) => stage.Recorded? || stage.Returning?
    case Abort => !stage.Failing? && !stage.Finished?
    case ReplayAfterRace(_) => stage.Failing?
    case Invoke(_) => true
  }

  function AfterFind(log: Log, r: Request): Stage {
    var found := Find(log, r.commandId);
    if found.None? then Looked(|log|)
    else if found.value.digest != Digest(r) then Failing(Domain(IdempotencyConflict))
    else Returning(Done(found.value.result, true))
  }

  /** SELECT ... FOR UPDATE and transitionWorkItem, or the INSERT of a new item. */
  function AfterSelect(log: Log, r: Request): Stage {
    match r
    case Create(_, _, draft, _) =>
      if Last(log, draft.id).Some? then Failing(Domain(AlreadyExists)) else Locked(None, NewItem(draft))
    case Transition(_, _, id, organization, expectedVersion, to, _, at) =>
      var current := Visible(log, id, organization);
      if current.None? then Returning(Missing) else
      var updated := Moved(current.value, to, expectedVersion, at);
      if updated.Failure? then Failing(Domain(updated.error)) else Locked(current, updated.value)
  }

  /** UPDATE ... WHERE version = expectedVersion; a creation has inserted its row already. */
  function AfterUpdate(log: Log, r: Request, current: Option<WorkItem>, updated: WorkItem): Stage {
    if r.Create? then Written(current, updated) else
    var row := Last(log, r.id);
    if row.Some? && row.value.result.version == r.expectedVersion then Written(current, updated)
    else Failing(Domain(VersionConflict(r.expectedVersion, if current.Some? then current.value.version else 0)))
  }

  function EventOf(r: Request, current: Option<WorkItem>, updated: WorkItem): Event {
    if r.Create? then CreatedEvent(r)
    else MovedEvent(r, if current.Some? then current.value else updated, updated)
  }

  /** The unique constraints on command_id and on (work_item_id, version). */
  predicate Unique(log: Log, e: Event) {
    forall f <- log :: f.commandId != e.commandId && !(f.item == e.item && f.version == e.version)
  }

  function AfterInsert(log: Log, r: Request, current: Option<WorkItem>, updated: WorkItem): Stage {
    var e := EventOf(r, current, updated);
    if Unique(log, e) then Recorded(e) else Failing(UniqueViolation)
  }

  /** The catch block: a committed command is replayed whatever went wrong. */
  function AfterRace(log: Log, r: Request, failure: Failure, queryWorks: bool): Answer {
    var found := Find(log, r.commandId);
    if !queryWorks then Thrown(Infrastructure)
    else if found.Some? then Answered(Replay(found.value, r))
    else if failure.Domain? then Answered(Refused(failure.error))
    else Thrown(failure)
  }

  function NextStage(log: Log, t: Tx, a: Action): Stage {
    match (a, t.stage)
    case (FindReplay, Begun) => AfterFind(log, t.request)
    case (SelectForUpdate, Looked(_)) => AfterSelect(log, t.request)
    case (Update, Locked(current, updated)) => AfterUpdate(log, t.request, current, updated)
    case (InsertEvent, Written(current, updated)) => AfterInsert(log, t.request, current, updated)
    case (Commit(acknowledged), Recorded(e)) =>
      if acknowledged then Finished(Answered(Done(e.result, false))) else Failing(Infrastructure)
    case (Commit(acknowledged), Returning(response)) =>
      if acknowledged then Finished(Answered(response)) else Failing(Infrastructure)
    case (Abort, _) => Failing(Infrastructure)
    case (ReplayAfterRace(queryWorks), Failing(failure)) => Finished(AfterRace(log, t.request, failure, queryWorks))
    case _ => t.stage
  }

  function Step(d: Database, i: TxId, a: Action): Database
    requires Enabled(d, i, a)
  {
    if a.Invoke? then d.(txs := d.txs[i := Tx(a.request, |d.log|, Begun)]) else
    var t := d.txs[i];
    var txs := d.txs[i := t.(stage := NextStage(d.log, t, a))];
    if a.Commit? && t.stage.Recorded? then Database(d.log + [t.stage.event], txs, d.order + [t.request])
    else d.(txs := txs)
  }

  function Trace(steps: seq<(TxId, Action)>): Option<Database> {
    if steps == [] then Some(Database([], map[], [])) else
    var d := Trace(steps[..|steps| - 1]);
    var (i, a) := steps[|steps| - 1];
    if d.Some? && Enabled(d.value, i, a) then Some(Step(d.value, i, a)) else None
  }

  // ---------------------------------------------------------------- invariants

  /** At log position k the specification gives this response, and a fresh one is the event committed there. */
  ghost predicate AnswerAt(log: Log, k: nat, r: Request, response: Response)
    requires k <= |log|
  {
    && Apply(log[..k], r).1 == response
    && (response.Done? && !response.replayed ==> k < |log| && Apply(log[..k], r).0 == log[..k] + [log[k]])
  }

  /** The specification's answer at some moment of the call. */
  ghost predicate Explained(log: Log, since: nat, r: Request, response: Response) {
    exists k: nat :: since <= k <= |log| && AnswerAt(log, k, r, response)
  }

  ghost predicate RefusedAt(log: Log, k: nat, r: Request, e: Error)
    requires k <= |log|
  {
    Find(log[..k], r.commandId).Some? || Apply(log[..k], r).1 == Refused(e)
  }

  /** The specification gave this refusal at some moment of the call, unless the command was committed by then. */
  ghost predicate RefusalExplained(log: Log, since: nat, r: Request, e: Error) {
    exists k: nat :: since <= k <= |log| && RefusedAt(log, k, r, e)
  }

  /** The write a call holds is what the specification would do on the current log. */
  ghost predicate WriteOk(log: Log, r: Request, current: Option<WorkItem>, updated: WorkItem) {
    match r
    case Create(_, _, draft, _) => Last(log, draft.id).None? && current.None? && updated == NewItem(draft)
    case Transition(_, _, id, organization, expectedVersion, to, _, at) =>
      && current.Some? && Visible(log, id, organization) == current
      && Moved(current.value, to, expectedVersion, at) == Success(updated)
  }

  ghost predicate RecordOk(log: Log, r: Request, e: Event) {
    Find(log, r.commandId).None? && Apply(log, r) == (log + [e], Done(e.result, false))
  }

  ghost predicate TxOk(log: Log, t: Tx) {
    && t.invokedAt <= |log|
    && match t.stage
       case Begun => true
       case Looked(at) => t.invokedAt <= at <= |log| && Find(log[..at], t.request.commandId).None?
       case Locked(current, updated) => WriteOk(log, t.request, current, updated)
       case Written(current, updated) => WriteOk(log, t.request, current, updated)
       case Recorded(event) => RecordOk(log, t.request, event)
       case Returning(response) => Explained(log, t.invokedAt, t.request, response)
       case Failing(Domain(e)) => RefusalExplained(log, t.invokedAt, t.request, e)
       case Failing(UniqueViolation) => Find(log, t.request.commandId).Some?
       case Failing(Infrastructure) => true
       case Finished(Answered(response)) => Explained(log, t.invokedAt, t.request, response)
       case Finished(Thrown(failure)) => failure == Infrastructure
  }

  /** At most one call holds an item's row, and at most one an uncommitted event of a command. */
  ghost predicate Exclusive(d: Database) {
    forall i, j :: i in d.txs && j in d.txs && i != j ==>
      && !(HoldsRow(d.txs[i]) && HoldsRow(d.txs[j]) && SameRow(d.txs[i], d.txs[j]))
      && !(d.txs[i].stage.Recorded? && d.txs[j].stage.Recorded?
           && d.txs[i].request.commandId == d.txs[j].request.commandId)
  }

  ghost predicate Inv(d: Database) {
    && LogOk(d.log) && Exclusive(d) && Run([], d.order) == d.log
    && forall i :: i in d.txs ==> TxOk(d.log, d.txs[i])
  }

  lemma StepKeepsExclusive(d: Database, i: TxId, a: Action)
    requires Exclusive(d) && Enabled(d, i, a)
    ensures Exclusive(Step(d, i, a))
  {
    hide Find, Last, Visible, Moved, Unique, Apply;
  }

  // ---------------------------------------------------------------- a growing log

  lemma {:induction false} FindSurvives(log: Log, k: nat, commandId: string)
    requires k <= |log|
    ensures Find(log[..k], commandId).Some? ==> Find(log, commandId) == Find(log[..k], commandId)
  {
    if k < |log| {
      var before := log[..|log| - 1];
      FindSurvives(before, k, commandId);
      assert before[..k] == log[..k] && log == before + [log[|log| - 1]];
      FindInPrefix(before, log[|log| - 1], commandId);
    } else {
      assert log[..k] == log;
    }
  }

  lemma PrefixStays(log: Log, e: Event, k: nat)
    requires k <= |log|
    ensures (log + [e])[..k] == log[..k]
  {
  }

  /** What holds of a call that holds no row keeps holding when another call commits. */
  lemma GrowthKeepsTx(log: Log, e: Event, t: Tx)
    requires TxOk(log, t) && !HoldsRow(t)
    ensures TxOk(log + [e], t)
  {
    hide Find, Apply;
    match t.stage
    case Looked(at) => PrefixStays(log, e, at);
    case Returning(response) => GrowthKeepsExplained(log, e, t.invokedAt, t.request, response);
    case Finished(Answered(response)) => GrowthKeepsExplained(log, e, t.invokedAt, t.request, response);
    case Failing(Domain(error)) =>
      var k: nat :| t.invokedAt <= k <= |log| && RefusedAt(log, k, t.request, error);
      PrefixStays(log, e, k);
      assert RefusedAt(log + [e], k, t.request, error);
    case Failing(UniqueViolation) => FindInPrefix(log, e, t.request.commandId);
    case _ =>
  }

  lemma GrowthKeepsExplained(log: Log, e: Event, since: nat, r: Request, response: Response)
    requires Explained(log, since, r, response)
    ensures Explained(log + [e], since, r, response)
  {
    hide Apply;
    var k: nat :| since <= k <= |log| && AnswerAt(log, k, r, response);
    PrefixStays(log, e, k);
    assert AnswerAt(log + [e], k, r, response);
  }

  /** Row locks and the key wait keep a pending write what the specification would do. */
  lemma GrowthKeepsWrite(log: Log, e: Event, t: Tx)
    requires TxOk(log, t) && HoldsRow(t) && e.item != Subject(t.request)
    requires t.stage.Recorded? ==> e.commandId != t.request.commandId
    ensures TxOk(log + [e], t)
  {
    hide Find, Last, Moved;
    LastAfter(log, e, Subject(t.request));
    if t.stage.Recorded? { GrowthKeepsRecord(log, e, t.request, t.stage.event); }
  }

  lemma GrowthKeepsRecord(log: Log, e: Event, r: Request, pending: Event)
    requires RecordOk(log, r, pending) && e.item != Subject(r) && e.commandId != r.commandId
    ensures RecordOk(log + [e], r, pending)
  {
    hide Find, Last, Moved;
    LastAfter(log, e, Subject(r));
    FindInPrefix(log, e, r.commandId);
    assert (log + [pending])[|log|] == pending;
    var added := ApplyNew(log, r).0;
    assert added[|log|] == pending;
  }

  /** Two rows of one item cannot be held by a creation and a transition together. */
  lemma HoldersDiffer(log: Log, t: Tx, u: Tx)
    requires TxOk(log, t) && TxOk(log, u) && HoldsRow(t) && HoldsRow(u) && !SameRow(t, u)
    ensures Subject(t.request) != Subject(u.request)
  {
  }

  // ---------------------------------------------------------------- one step of one call

  lemma NowExplains(log: Log, t: Tx, response: Response)
    requires t.invokedAt <= |log| && Apply(log, t.request).1 == response
    requires response.Done? ==> response.replayed
    ensures Explained(log, t.invokedAt, t.request, response)
  {
    hide Apply;
    assert log[..|log|] == log;
    assert AnswerAt(log, |log|, t.request, response);
  }

  lemma FindKeepsTx(log: Log, t: Tx)
    requires TxOk(log, t) && t.stage.Begun?
    ensures TxOk(log, t.(stage := AfterFind(log, t.request)))
  {
    hide ApplyNew, Find;
    assert log[..|log|] == log;
    var found := Find(log, t.request.commandId);
    if found.Some? {
      if found.value.digest == Digest(t.request) {
        NowExplains(log, t, Done(found.value.result, true));
      } else {
        assert RefusedAt(log, |log|, t.request, IdempotencyConflict);
      }
    }
  }

  /** What is missing now was missing when the call looked for its command: items do not vanish. */
  lemma {:induction false} VisibleSurvives(log: Log, k: nat, id: string, organization: string)
    requires LogOk(log) && k <= |log|
    ensures Visible(log[..k], id, organization).Some? ==> Visible(log, id, organization).Some?
  {
    if k < |log| {
      var before := log[..|log| - 1];
      VisibleSurvives(before, k, id, organization);
      assert before[..k] == log[..k];
      VisibleStays(before, log[|log| - 1], id, organization);
      assert log == before + [log[|log| - 1]];
    } else {
      assert log[..k] == log;
    }
  }

  lemma VisibleStays(log: Log, e: Event, id: string, organization: string)
    requires Fits(log, e)
    ensures Visible(log, id, organization).Some? ==> Visible(log + [e], id, organization).Some?
  {
  }

  lemma SelectKeepsTx(log: Log, t: Tx)
    requires LogOk(log) && TxOk(log, t) && t.stage.Looked?
    ensures TxOk(log, t.(stage := AfterSelect(log, t.request)))
  {
    hide Find, Last, LogOk, Moved;
    var next := AfterSelect(log, t.request);
    if next.Failing? {
      assert log[..|log|] == log;
      assert RefusedAt(log, |log|, t.request, next.failure.error);
    } else if next.Returning? {
      var at := t.stage.at;
      VisibleSurvives(log, at, t.request.id, t.request.organization);
      assert AnswerAt(log, at, t.request, Missing);
    }
  }

  lemma UpdateKeepsTx(log: Log, t: Tx)
    requires TxOk(log, t) && t.stage.Locked?
    ensures TxOk(log, t.(stage := AfterUpdate(log, t.request, t.stage.current, t.stage.updated)))
    ensures AfterUpdate(log, t.request, t.stage.current, t.stage.updated).Written?
  {
  }

  /** Only the command id can collide: the version is new while the row is held. */
  lemma InsertKeepsTx(log: Log, t: Tx)
    requires LogOk(log) && TxOk(log, t) && t.stage.Written?
    ensures TxOk(log, t.(stage := AfterInsert(log, t.request, t.stage.current, t.stage.updated)))
  {
    hide LogOk, Find, Last;
    var r := t.request;
    var e := EventOf(r, t.stage.current, t.stage.updated);
    if Unique(log, e) {
      assert Find(log, r.commandId).None?;
    } else {
      var i :| 0 <= i < |log|
               && !(log[i].commandId != e.commandId && !(log[i].item == e.item && log[i].version == e.version));
      if log[i].commandId != r.commandId {
        VersionsAreTaken(log, i, e.item);
        LastShape(log, e.item);
        assert false;
      }
    }
  }

  lemma RaceKeepsTx(log: Log, t: Tx, queryWorks: bool)
    requires TxOk(log, t) && t.stage.Failing?
    ensures TxOk(log, t.(stage := Finished(AfterRace(log, t.request, t.stage.failure, queryWorks))))
  {
    hide Find, ApplyNew;
    var r, failure := t.request, t.stage.failure;
    var found := Find(log, r.commandId);
    if queryWorks && found.Some? {
      NowExplains(log, t, Replay(found.value, r));
    } else if queryWorks && failure.Domain? {
      var k: nat :| t.invokedAt <= k <= |log| && RefusedAt(log, k, r, failure.error);
      FindSurvives(log, k, r.commandId);
      assert AnswerAt(log, k, r, Refused(failure.error));
    }
  }

  lemma QuietStepKeepsTx(d: Database, i: TxId, a: Action)
    requires LogOk(d.log) && Enabled(d, i, a) && !a.Invoke? && TxOk(d.log, d.txs[i])
    requires !(a.Commit? && d.txs[i].stage.Recorded?)
    ensures TxOk(d.log, Step(d, i, a).txs[i])
  {
    hide LogOk, Find, Last, WriteOk, RecordOk, Explained, RefusalExplained;
    hide AfterFind, AfterSelect, AfterUpdate, AfterInsert, AfterRace, RowFree, KeyFree;
    var t := d.txs[i];
    match a
    case FindReplay => FindKeepsTx(d.log, t);
    case SelectForUpdate => SelectKeepsTx(d.log, t);
    case Update => UpdateKeepsTx(d.log, t);
    case InsertEvent => InsertKeepsTx(d.log, t);
    case ReplayAfterRace(queryWorks) => RaceKeepsTx(d.log, t, queryWorks);
    case _ =>
  }

  // ---------------------------------------------------------------- the commit

  lemma {:induction false} RunOneMore(log: Log, requests: seq<Request>, r: Request)
    ensures Run(log, requests + [r]) == Apply(Run(log, requests), r).0
    decreases |requests|
  {
    hide Apply;
    if requests == [] {
      assert [r][1..] == [] && requests + [r] == [r];
    } else {
      assert (requests + [r])[1..] == requests[1..] + [r];
      RunOneMore(Apply(log, requests[0]).0, requests[1..], r);
    }
  }

  lemma CommitExplains(log: Log, t: Tx, e: Event)
    requires t.invokedAt <= |log| && RecordOk(log, t.request, e)
    ensures Explained(log + [e], t.invokedAt, t.request, Done(e.result, false))
  {
    hide Apply, Find;
    assert (log + [e])[..|log|] == log;
    assert AnswerAt(log + [e], |log|, t.request, Done(e.result, false));
  }

  lemma CommitKeepsOthers(d: Database, i: TxId, j: TxId)
    requires Inv(d) && i in d.txs && j in d.txs && i != j && d.txs[i].stage.Recorded?
    ensures TxOk(d.log + [d.txs[i].stage.event], d.txs[j])
  {
    var t, u := d.txs[i], d.txs[j];
    assert TxOk(d.log, t) && TxOk(d.log, u);
    CommittedEvent(d.log, t.request, t.stage.event);
    hide Find, Last, LogOk, Apply;
    if HoldsRow(u) {
      if !SameRow(t, u) { HoldersDiffer(d.log, t, u); }
      GrowthKeepsWrite(d.log, t.stage.event, u);
    } else {
      GrowthKeepsTx(d.log, t.stage.event, u);
    }
  }

  lemma CommittedEvent(log: Log, r: Request, e: Event)
    requires LogOk(log) && RecordOk(log, r, e)
    ensures e.item == Subject(r) && e.commandId == r.commandId && e.digest == Digest(r) && LogOk(log + [e])
  {
    ApplyAdds(log, r);
    ApplyKeepsLog(log, r);
    hide Apply, LogOk, Fits, Find;
    assert log + [e] != log by { assert |log + [e]| == |log| + 1; }
    assert (log + [e])[|log|] == e;
  }

  lemma CommitKeepsInv(d: Database, i: TxId, acknowledged: bool)
    requires Inv(d) && Enabled(d, i, Commit(acknowledged)) && d.txs[i].stage.Recorded?
    ensures Inv(Step(d, i, Commit(acknowledged)))
  {
    hide Find, LogOk, Apply, Run, TxOk, RowFree, KeyFree;
    var t := d.txs[i];
    var e := t.stage.event;
    var next := Step(d, i, Commit(acknowledged));
    StepKeepsExclusive(d, i, Commit(acknowledged));
    forall j | j in next.txs ensures TxOk(next.log, next.txs[j]) {
      if j != i { CommitKeepsOthers(d, i, j); } else { OwnCommit(d.log, t, acknowledged); }
    }
    RecordedIsOk(d.log, t);
    CommittedEvent(d.log, t.request, e);
    RunOneMore([], d.order, t.request);
  }

  lemma RecordedIsOk(log: Log, t: Tx)
    requires TxOk(log, t) && t.stage.Recorded?
    ensures RecordOk(log, t.request, t.stage.event)
  {
  }

  lemma OwnCommit(log: Log, t: Tx, acknowledged: bool)
    requires TxOk(log, t) && t.stage.Recorded?
    ensures TxOk(log + [t.stage.event], t.(stage := NextStage(log, t, Commit(acknowledged))))
  {
    hide Explained;
    CommitExplains(log, t, t.stage.event);
  }

  // ---------------------------------------------------------------- every run

  lemma StepKeepsInv(d: Database, i: TxId, a: Action)
    requires Inv(d) && Enabled(d, i, a)
    ensures Inv(Step(d, i, a))
  {
    if a.Commit? && d.txs[i].stage.Recorded? {
      CommitKeepsInv(d, i, a.acknowledged);
    } else {
      StepKeepsExclusive(d, i, a);
      if !a.Invoke? { QuietStepKeepsTx(d, i, a); }
      hide Find, LogOk, Apply, Run, NextStage, Exclusive, Enabled;
    }
  }

  lemma {:induction false} EveryTraceKeepsInv(steps: seq<(TxId, Action)>)
    requires Trace(steps).Some?
    ensures Inv(Trace(steps).value)
  {
    if steps != [] {
      EveryTraceKeepsInv(steps[..|steps| - 1]);
      var (i, a) := steps[|steps| - 1];
      StepKeepsInv(Trace(steps[..|steps| - 1]).value, i, a);
    }
  }

  /**
   Interleaved transactions refine the specification: the committed log is what the committed requests
   give one after the other, every answer is the specification's answer at some moment between the
   call and its return (a fresh success being its own commit), and nothing but a lost connection is
   thrown raw.
   */
  lemma TransactionsAreAtomic(steps: seq<(TxId, Action)>)
    requires Trace(steps).Some?
    ensures var d := Trace(steps).value;
            && Run([], d.order) == d.log && LogOk(d.log)
            && forall i :: i in d.txs && d.txs[i].stage.Finished? ==>
                 match d.txs[i].stage.answer
                 case Answered(response) => Explained(d.log, d.txs[i].invokedAt, d.txs[i].request, response)
                 case Thrown(failure) => failure == Infrastructure
  {
    EveryTraceKeepsInv(steps);
  }

  lemma ExplainedReplay(log: Log, since: nat, r: Request, response: Response)
    requires since <= |log| && Commits(log[..since], r.commandId, Digest(r)) && Explained(log, since, r, response)
    ensures Find(log, r.commandId).Some? && response == Done(Find(log, r.commandId).value.result, true)
  {
    hide Find, ApplyNew;
    var k: nat :| since <= k <= |log| && AnswerAt(log, k, r, response);
    FindSurvives(log, since, r.commandId);
    FindSurvives(log[..k], since, r.commandId);
    assert log[..k][..since] == log[..since];
  }

  lemma CommitSurvives(log: Log, since: nat, commandId: string, body: Body)
    requires since <= |log| && Commits(log[..since], commandId, body)
    ensures Find(log, commandId).Some?
  {
  }

  /** What a call gets whose command was committed before it began. */
  ghost predicate OriginalOrNothing(log: Log, t: Tx) {
    var original := Find(log, t.request.commandId);
    && original.Some?
    && (t.stage.Finished? ==>
          t.stage.answer == Thrown(Infrastructure) || t.stage.answer == Answered(Done(original.value.result, true)))
  }

  ghost predicate CommittedBefore(log: Log, t: Tx) {
    t.invokedAt <= |log| && Commits(log[..t.invokedAt], t.request.commandId, Digest(t.request))
  }

  lemma CommittedIsOriginal(log: Log, t: Tx)
    requires TxOk(log, t) && CommittedBefore(log, t)
    ensures OriginalOrNothing(log, t)
  {
    hide Find, Apply, Commits, Explained;
    CommitSurvives(log, t.invokedAt, t.request.commandId, Digest(t.request));
    if t.stage.Finished? && t.stage.answer.Answered? {
      ExplainedReplay(log, t.invokedAt, t.request, t.stage.answer.response);
    }
  }

  /**
   A command already committed under the same body is answered with its original result whatever its
   own transaction ran into; only a lost connection can keep it from the caller.
   */
  lemma CommittedCommandIsReplayed(steps: seq<(TxId, Action)>, i: TxId)
    requires Trace(steps).Some? && i in Trace(steps).value.txs
    requires CommittedBefore(Trace(steps).value.log, Trace(steps).value.txs[i])
    ensures OriginalOrNothing(Trace(steps).value.log, Trace(steps).value.txs[i])
  {
    hide Trace, TxOk, Find, LogOk, Run, Exclusive, CommittedBefore, OriginalOrNothing;
    EveryTraceKeepsInv(steps);
    CommittedIsOriginal(Trace(steps).value.log, Trace(steps).value.txs[i]);
  }

  // ---------------------------------------------------------------- nothing is thrown without a cause

  /** The connection fails a call: before a statement, after its commit, or in the query of the catch block. */
  predicate Disturbs(a: Action) {
    a.Abort? || a == Commit(false) || a == ReplayAfterRace(false)
  }

  ghost predicate Undisturbed(steps: seq<(TxId, Action)>, i: TxId) {
    forall s <- steps :: s.0 == i ==> !Disturbs(s.1)
  }

  /** Neither thrown nor about to be. */
  ghost predicate OnCourse(t: Tx) {
    && (t.stage.Finished? ==> t.stage.answer.Answered?)
    && (t.stage.Failing? ==> t.stage.failure.Domain? || t.stage.failure.UniqueViolation?)
  }

  lemma StepStaysOnCourse(log: Log, t: Tx, a: Action)
    requires TxOk(log, t) && OnCourse(t) && !Disturbs(a)
    ensures OnCourse(t.(stage := NextStage(log, t, a)))
  {
    hide Find, Last, Visible, Moved, Unique, WriteOk, RecordOk, Explained, RefusalExplained, Replay;
  }

  /** Only the call's own step moves its stage. */
  lemma StepOf(d: Database, i: TxId, a: Action, j: TxId)
    requires Enabled(d, i, a) && j in Step(d, i, a).txs
    ensures i != j ==> j in d.txs && Step(d, i, a).txs[j] == d.txs[j]
    ensures i == j && !a.Invoke? ==>
              j in d.txs && Step(d, i, a).txs[j] == d.txs[j].(stage := NextStage(d.log, d.txs[j], a))
    ensures i == j && a.Invoke? ==> Step(d, i, a).txs[j] == Tx(a.request, |d.log|, Begun)
  {
    hide NextStage, RowFree, KeyFree;
  }

  lemma {:induction false} UndisturbedStaysOnCourse(steps: seq<(TxId, Action)>, i: TxId)
    requires Trace(steps).Some? && Undisturbed(steps, i) && i in Trace(steps).value.txs
    ensures OnCourse(Trace(steps).value.txs[i])
  {
    hide Inv, TxOk, Step, Enabled, NextStage, OnCourse, Disturbs;
    if steps != [] {
      var before := steps[..|steps| - 1];
      var (j, a) := steps[|steps| - 1];
      var d := Trace(before).value;
      assert steps[|steps| - 1] in steps && forall s <- before :: s in steps;
      StepOf(d, j, a, i);
      if i in d.txs {
        UndisturbedStaysOnCourse(before, i);
        EveryTraceKeepsInv(before);
        TxIsOk(d, i);
        if i == j && !a.Invoke? { StepStaysOnCourse(d.log, d.txs[i], a); }
        if i == j && a.Invoke? { NewIsOnCourse(a.request, |d.log|); InvokedOnce(d, i, a); }
      } else {
        NewIsOnCourse(a.request, |d.log|);
      }
    }
  }

  lemma TxIsOk(d: Database, i: TxId)
    requires Inv(d) && i in d.txs
    ensures TxOk(d.log, d.txs[i])
  {
    hide TxOk;
  }

  lemma InvokedOnce(d: Database, i: TxId, a: Action)
    requires Enabled(d, i, a)
    ensures a.Invoke? ==> i !in d.txs
  {
  }

  lemma NewIsOnCourse(r: Request, at: nat)
    ensures OnCourse(Tx(r, at, Begun))
  {
  }

  /**
   A call that none of its own steps disturbs is never thrown raw: when it is over it has an answer, and
   that is the specification's at some moment of the call; a refusal and a replay reach the caller.
   */
  lemma UndisturbedCallIsAnswered(steps: seq<(TxId, Action)>, i: TxId)
    requires Trace(steps).Some? && Undisturbed(steps, i) && i in Trace(steps).value.txs
    requires Trace(steps).value.txs[i].stage.Finished?
    ensures var d, t := Trace(steps).value, Trace(steps).value.txs[i];
            t.stage.answer.Answered? && Explained(d.log, t.invokedAt, t.request, t.stage.answer.response)
  {
    hide Trace, Inv, TxOk, Explained, Undisturbed;
    UndisturbedStaysOnCourse(steps, i);
    EveryTraceKeepsInv(steps);
    TxIsOk(Trace(steps).value, i);
    AnswerIsExplained(Trace(steps).value.log, Trace(steps).value.txs[i]);
  }

  lemma AnswerIsExplained(log: Log, t: Tx)
    requires TxOk(log, t) && t.stage.Finished? && t.stage.answer.Answered?
    ensures Explained(log, t.invokedAt, t.request, t.stage.answer.response)
  {
    hide Explained;
  }

  /** A commit whose answer is lost sends the call to the catch block, which finds the event and replays it. */
  lemma LostCommitIsReplayed(d: Database, i: TxId)
    requires Inv(d) && i in d.txs && d.txs[i].stage.Recorded?
    ensures var t := d.txs[i];
            var lost := Step(d, i, Commit(false));
            && Enabled(lost, i, ReplayAfterRace(true))
            && Step(lost, i, ReplayAfterRace(true)).txs[i].stage ==
               Finished(Answered(Done(t.stage.event.result, true)))
  {
    hide LogOk, Run, Exclusive, Find, Apply, RowFree, KeyFree;
    var t := d.txs[i];
    TxIsOk(d, i);
    CommittedEventFound(d.log, t);
  }

  lemma CommittedEventFound(log: Log, t: Tx)
    requires LogOk(log) && TxOk(log, t) && t.stage.Recorded?
    ensures Find(log + [t.stage.event], t.request.commandId) == Some(t.stage.event)
    ensures t.stage.event.digest == Digest(t.request)
  {
    hide Apply, Find, LogOk;
    CommittedEvent(log, t.request, t.stage.event);
    FindInPrefix(log, t.stage.event, t.request.commandId);
  }

  ghost predicate QueryWorks(steps: seq<(TxId, Action)>, i: TxId) {
    (i, ReplayAfterRace(false)) !in steps
  }

  lemma CommittedIsNotThrown(log: Log, t: Tx, a: Action)
    requires TxOk(log, t) && CommittedBefore(log, t) && a != ReplayAfterRace(false)
    requires t.stage.Finished? ==> t.stage.answer.Answered?
    ensures var stage := NextStage(log, t, a); stage.Finished? ==> stage.answer.Answered?
  {
    hide Find, Last, Visible, Moved, Unique, WriteOk, RecordOk, Explained, RefusalExplained, Replay, Commits;
    CommitSurvives(log, t.invokedAt, t.request.commandId, Digest(t.request));
  }

  lemma CommittedEarlier(log: Log, later: Log, t: Tx, u: Tx)
    requires CommittedBefore(later, u) && log <= later && t.invokedAt == u.invokedAt <= |log| && t.request == u.request
    ensures CommittedBefore(log, t)
  {
    hide Commits;
    assert log[..t.invokedAt] == later[..t.invokedAt];
  }

  lemma LogGrows(d: Database, i: TxId, a: Action)
    requires Enabled(d, i, a)
    ensures d.log <= Step(d, i, a).log
  {
    hide NextStage, RowFree, KeyFree;
  }

  lemma {:induction false} CommittedStaysAnswered(steps: seq<(TxId, Action)>, i: TxId)
    requires Trace(steps).Some? && i in Trace(steps).value.txs && QueryWorks(steps, i)
    requires CommittedBefore(Trace(steps).value.log, Trace(steps).value.txs[i])
    ensures var stage := Trace(steps).value.txs[i].stage; stage.Finished? ==> stage.answer.Answered?
  {
    hide Inv, TxOk, Step, Enabled, NextStage, CommittedBefore;
    if steps != [] {
      var before := steps[..|steps| - 1];
      var (j, a) := steps[|steps| - 1];
      var d := Trace(before).value;
      assert steps[|steps| - 1] in steps && forall s <- before :: s in steps;
      StepOf(d, j, a, i);
      LogGrows(d, j, a);
      InvokedOnce(d, j, a);
      if i in d.txs {
        EveryTraceKeepsInv(before);
        TxIsOk(d, i);
        InvokedIsPast(d.log, d.txs[i]);
        CommittedEarlier(d.log, Step(d, j, a).log, d.txs[i], Step(d, j, a).txs[i]);
        CommittedStaysAnswered(before, i);
        if i == j { CommittedIsNotThrown(d.log, d.txs[i], a); }
      }
    }
  }

  lemma InvokedIsPast(log: Log, t: Tx)
    requires TxOk(log, t)
    ensures t.invokedAt <= |log|
  {
  }

  /**
   A command committed before the call began is answered with its original result, whatever happened to its own
   transaction, a lost connection included, as long as the query of the catch block works.
   */
  lemma CommittedCommandIsAnswered(steps: seq<(TxId, Action)>, i: TxId)
    requires Trace(steps).Some? && i in Trace(steps).value.txs && QueryWorks(steps, i)
    requires CommittedBefore(Trace(steps).value.log, Trace(steps).value.txs[i])
    requires Trace(steps).value.txs[i].stage.Finished?
    ensures var d, t := Trace(steps).value, Trace(steps).value.txs[i];
            var original := Find(d.log, t.request.commandId);
            original.Some? && t.stage.answer == Answered(Done(original.value.result, true))
  {
    hide Trace, Find, CommittedBefore, QueryWorks;
    CommittedStaysAnswered(steps, i);
    CommittedCommandIsReplayed(steps, i);
  }
}
