/**
 Canonical work items: the transition table of packages/domain/src/index.js and the command log both
 repositories keep. The specification is a function on logs; the state of an item is the result of
 its last event. A request digest is represented by the request body it digests.
 */
module WorkItems {
  import opened Options

  datatype Status = Backlog | Ready | Running | Blocked | Verifying | Complete | Failed | Interrupted

  function Successors(s: Status): set<Status> {
    match s
    case Backlog => {Ready}
    case Ready => {Running, Blocked}
    case Running => {Blocked, Verifying, Failed, Interrupted}
    case Blocked => {Ready}
    case Verifying => {Running, Complete, Failed}
    case Failed => {Ready}
    case Interrupted => {Ready, Running}
    case Complete => {}
  }

  function StatusNamed(name: string): Option<Status> {
    if name == "backlog" then Some(Backlog)
    else if name == "ready" then Some(Ready)
    else if name == "running" then Some(Running)
    else if name == "blocked" then Some(Blocked)
    else if name == "verifying" then Some(Verifying)
    else if name == "complete" then Some(Complete)
    else if name == "failed" then Some(Failed)
    else if name == "interrupted" then Some(Interrupted)
    else None
  }

  datatype WorkItem = WorkItem(id: string, organization: string, project: Option<string>, title: string,
                               description: string,
                               status: Status, version: nat, createdBy: string, createdAt: nat, updatedAt: nat)

  /** What a caller provides for a new item; it starts in the backlog at version 1. */
  datatype Draft = Draft(id: string, organization: string, project: Option<string>, title: string, description: string,
                         createdBy: string, createdAt: nat)

  function NewItem(d: Draft): WorkItem {
    WorkItem(d.id, d.organization, d.project, d.title, d.description, Backlog, 1, d.createdBy, d.createdAt, d.createdAt)
  }

  datatype Error =
    | AlreadyExists
    | ExpectedVersionInvalid
    | VersionConflict(expected: int, actual: nat)
    | StateInvalid
    | TransitionInvalid(from: Status, to: Status)
    | IdempotencyConflict

  /** transitionWorkItem */
  function Moved(item: WorkItem, to: string, expectedVersion: int, at: nat): Result<WorkItem, Error> {
    if expectedVersion < 1 then Failure(ExpectedVersionInvalid)
    else if expectedVersion != item.version then Failure(VersionConflict(expectedVersion, item.version))
    else if StatusNamed(to).None? then Failure(StateInvalid)
    else if StatusNamed(to).value !in Successors(item.status) then
      Failure(TransitionInvalid(item.status, StatusNamed(to).value))
    else Success(item.(status := StatusNamed(to).value, version := item.version + 1, updatedAt := at))
  }

  /** What is digested: everything about a request except its command id and its timestamps. */
  datatype Body =
    | CreateBody(actor: string, id: string, organization: string, project: Option<string>, title: string,
                 description: string, createdBy: string)
    | TransitionBody(id: string, organization: string, actor: string, expectedVersion: int, to: string,
                     reason: Option<string>)

  datatype Request =
    | Create(commandId: string, actor: string, draft: Draft, at: nat)
    | Transition(commandId: string, actor: string, id: string, organization: string, expectedVersion: int, to: string,
                 reason: Option<string>, at: nat)

  function Digest(r: Request): Body {
    match r
    case Create(_, actor, d, _) =>
      CreateBody(actor, d.id, d.organization, d.project, d.title, d.description, d.createdBy)
    case Transition(_, actor, id, organization, expectedVersion, to, reason, _) =>
      TransitionBody(id, organization, actor, expectedVersion, to, reason)
  }

  /** A retry repeats the command id and the body; its timestamps may differ. */
  predicate Retries(r: Request, original: Request) {
    r.commandId == original.commandId && Digest(r) == Digest(original)
  }

  datatype Event = Event(item: string, commandId: string, actor: string, version: nat, from: Option<Status>, to: Status,
                         digest: Body, reason: Option<string>, result: WorkItem, occurredAt: nat)

  type Log = seq<Event>

  datatype Response = Done(item: WorkItem, replayed: bool) | Missing | Refused(error: Error)

  // ---------------------------------------------------------------- the specification

  function Find(log: Log, commandId: string): (r: Option<Event>)
    ensures r.Some? ==> r.value in log && r.value.commandId == commandId
    ensures r.None? ==> forall e <- log :: e.commandId != commandId
  {
    if log == [] then None
    else if log[0].commandId == commandId then Some(log[0])
    else Find(log[1..], commandId)
  }

  /** The last event of an item. */
  function Last(log: Log, id: string): (r: Option<Event>)
    ensures r.Some? ==> r.value in log && r.value.item == id
    ensures r.None? ==> forall e <- log :: e.item != id
  {
    if log == [] then None
    else if log[|log| - 1].item == id then Some(log[|log| - 1])
    else Last(log[..|log| - 1], id)
  }

  function Visible(log: Log, id: string, organization: string): Option<WorkItem> {
    var e := Last(log, id);
    if e.Some? && e.value.result.organization == organization then Some(e.value.result) else None
  }

  function CreatedEvent(r: Request): Event
    requires r.Create?
  {
    Event(r.draft.id, r.commandId, r.actor, 1, None, Backlog, Digest(r), None, NewItem(r.draft), r.at)
  }

  function MovedEvent(r: Request, current: WorkItem, updated: WorkItem): Event
    requires r.Transition?
  {
    Event(r.id, r.commandId, r.actor, updated.version, Some(current.status), updated.status, Digest(r), r.reason,
          updated, r.at)
  }

  /** What a request whose command id is new does. */
  function ApplyNew(log: Log, r: Request): (Log, Response) {
    match r
    case Create(_, _, draft, _) =>
      if Last(log, draft.id).Some? then (log, Refused(AlreadyExists))
      else (log + [CreatedEvent(r)], Done(NewItem(draft), false))
    case Transition(_, _, id, organization, expectedVersion, to, _, at) =>
      var current := Visible(log, id, organization);
      if current.None? then (log, Missing) else
      var updated := Moved(current.value, to, expectedVersion, at);
      if updated.Failure? then (log, Refused(updated.error))
      else (log + [MovedEvent(r, current.value, updated.value)], Done(updated.value, false))
  }

  function Replay(e: Event, r: Request): Response {
    if e.digest != Digest(r) then Refused(IdempotencyConflict) else Done(e.result, true)
  }

  function Apply(log: Log, r: Request): (Log, Response) {
    if Find(log, r.commandId).Some? then (log, Replay(Find(log, r.commandId).value, r)) else ApplyNew(log, r)
  }

  function Run(log: Log, requests: seq<Request>): Log
    decreases |requests|
  {
    if requests == [] then log else Run(Apply(log, requests[0]).0, requests[1..])
  }

  // ---------------------------------------------------------------- what a request says and gets

  /** The names a caller may give, one for each status. */
  function NameOf(s: Status): string {
    match s
    case Backlog => "backlog"
    case Ready => "ready"
    case Running => "running"
    case Blocked => "blocked"
    case Verifying => "verifying"
    case Complete => "complete"
    case Failed => "failed"
    case Interrupted => "interrupted"
  }

  lemma EveryStatusHasItsName(name: string, s: Status)
    ensures StatusNamed(name) == Some(s) <==> name == NameOf(s)
  {
  }

  /** Two requests have one digest exactly when they differ in nothing but command id and times. */
  lemma SameDigest(a: Request, b: Request)
    ensures Digest(a) == Digest(b) <==>
              match (a, b)
              case (Create(_, x, d, _), Create(_, y, e, _)) =>
                && x == y && d.id == e.id && d.organization == e.organization && d.project == e.project
                && d.title == e.title && d.description == e.description && d.createdBy == e.createdBy
              case (Transition(_, x, i, o, v, t, r, _), Transition(_, y, j, p, w, u, q, _)) =>
                x == y && i == j && o == p && v == w && t == u && r == q
              case _ => false
  {
  }

  /** What a creation leaves: the item as drafted, in the backlog at version 1, and who made it when. */
  lemma CreationKeepsDraft(log: Log, r: Request)
    requires r.Create? && Find(log, r.commandId).None? && Last(log, r.draft.id).None?
    ensures var (next, answer), d := Apply(log, r), r.draft;
            && answer.Done? && !answer.replayed && |next| == |log| + 1 && next[..|log|] == log
            && answer.item.id == d.id && answer.item.organization == d.organization && answer.item.project == d.project
            && answer.item.title == d.title && answer.item.description == d.description
            && answer.item.createdBy == d.createdBy && answer.item.createdAt == answer.item.updatedAt == d.createdAt
            && answer.item.status == Backlog && answer.item.version == 1
            && next[|log|].actor == r.actor && next[|log|].occurredAt == r.at && next[|log|].reason == None
            && next[|log|].from == None && next[|log|].result == answer.item
  {
    hide Find, Last;
  }

  lemma MovedKeepsRest(item: WorkItem, to: string, expectedVersion: int, at: nat)
    ensures var moved := Moved(item, to, expectedVersion, at);
            moved.Success? ==>
              && moved.value == item.(status := moved.value.status, version := item.version + 1, updatedAt := at)
              && NameOf(moved.value.status) == to
  {
    hide Successors, StatusNamed, NameOf;
    forall s: Status ensures StatusNamed(to) == Some(s) <==> to == NameOf(s) { EveryStatusHasItsName(to, s); }
  }

  /** What a transition leaves: the status, the next version and the time, nothing else, and who moved it and why. */
  lemma MoveChangesStatusOnly(log: Log, r: Request)
    requires r.Transition? && Find(log, r.commandId).None? && Apply(log, r).1.Done?
    ensures Visible(log, r.id, r.organization).Some?
    ensures var (next, answer), current := Apply(log, r), Visible(log, r.id, r.organization).value;
            && !answer.replayed && |next| == |log| + 1 && next[..|log|] == log
            && answer.item == current.(status := answer.item.status, version := current.version + 1, updatedAt := r.at)
            && NameOf(answer.item.status) == r.to
            && next[|log|].actor == r.actor && next[|log|].occurredAt == r.at && next[|log|].reason == r.reason
            && next[|log|].from == Some(current.status) && next[|log|].result == answer.item
  {
    hide Find, Last, Successors, StatusNamed, NameOf, Visible;
    MovedKeepsRest(Visible(log, r.id, r.organization).value, r.to, r.expectedVersion, r.at);
  }

  /** An item of another organization is not there: no transition of it is answered otherwise, or adds anything. */
  lemma OtherOrganizationsSeeNothing(log: Log, r: Request)
    requires r.Transition? && Find(log, r.commandId).None?
    ensures var e := Last(log, r.id);
            if e.None? || e.value.result.organization != r.organization then Apply(log, r) == (log, Missing)
            else !Apply(log, r).1.Missing?
  {
    hide Find, Last, Successors, StatusNamed;
  }

  /** Why a transition of a visible item is refused: the first of these that is wrong. */
  lemma RefusalSaysWhy(log: Log, r: Request, current: WorkItem)
    requires r.Transition? && Find(log, r.commandId).None? && Visible(log, r.id, r.organization) == Some(current)
    ensures var answer := Apply(log, r).1;
            if r.expectedVersion < 1 then answer == Refused(ExpectedVersionInvalid)
            else if r.expectedVersion != current.version then
              answer == Refused(VersionConflict(r.expectedVersion, current.version))
            else if forall s: Status :: NameOf(s) != r.to then answer == Refused(StateInvalid)
            else forall s: Status :: NameOf(s) == r.to ==>
                   if s in Successors(current.status) then answer.Done?
                   else answer == Refused(TransitionInvalid(current.status, s))
  {
    hide Find, Last, Successors;
    forall s: Status ensures NameOf(s) == r.to <==> StatusNamed(r.to) == Some(s) { EveryStatusHasItsName(r.to, s); }
  }

  /** The fourteen legal moves. */
  lemma LegalMoves(from: Status, to: Status)
    ensures to in Successors(from) <==>
              (from, to) in {(Backlog, Ready), (Ready, Running), (Ready, Blocked), (Running, Blocked),
                             (Running, Verifying), (Running, Failed), (Running, Interrupted), (Blocked, Ready),
                             (Verifying, Running), (Verifying, Complete), (Verifying, Failed), (Failed, Ready),
                             (Interrupted, Ready), (Interrupted, Running)}
  {
  }

  // ---------------------------------------------------------------- the log is the state

  ghost predicate Fits(log: Log, e: Event) {
    && Find(log, e.commandId).None?
    && e.result.id == e.item && e.result.version == e.version && e.result.status == e.to
    && match Last(log, e.item)
       case None => e.version == 1 && e.from == None && e.to == Backlog
       case Some(p) =>
         && e.version == p.version + 1 && e.from == Some(p.to) && e.to in Successors(p.to)
         && e.result == p.result.(status := e.to, version := e.version, updatedAt := e.occurredAt)
  }

  ghost predicate LogOk(log: Log) {
    log != [] ==> LogOk(log[..|log| - 1]) && Fits(log[..|log| - 1], log[|log| - 1])
  }

  lemma LogOkAppend(log: Log, e: Event)
    requires LogOk(log) && Fits(log, e)
    ensures LogOk(log + [e])
  {
  }

  lemma {:induction false} LastShape(log: Log, id: string)
    requires LogOk(log)
    ensures var e := Last(log, id);
            e.Some? ==> e.value.result.id == id && e.value.result.status == e.value.to
                        && e.value.result.version == e.value.version >= 1
  {
    if log != [] {
      LastShape(log[..|log| - 1], log[|log| - 1].item);
      if log[|log| - 1].item != id { LastShape(log[..|log| - 1], id); }
    }
  }

  /** A request adds nothing, or one event that fits, under its own command id and body. */
  ghost predicate Adds(log: Log, r: Request, next: Log) {
    next == log ||
    (|next| == |log| + 1 && next == log + [next[|log|]] && Fits(log, next[|log|])
     && next[|log|].commandId == r.commandId && next[|log|].digest == Digest(r) && next[|log|].item == Subject(r))
  }

  function Subject(r: Request): string {
    match r
    case Create(_, _, draft, _) => draft.id
    case Transition(_, _, id, _, _, _, _, _) => id
  }

  lemma CreatedFits(log: Log, r: Request)
    requires r.Create? && Find(log, r.commandId).None? && Last(log, r.draft.id).None?
    ensures Fits(log, CreatedEvent(r))
  {
  }

  lemma MovedFits(log: Log, r: Request, current: WorkItem, updated: WorkItem)
    requires LogOk(log) && r.Transition? && Find(log, r.commandId).None?
    requires Visible(log, r.id, r.organization) == Some(current)
    requires Moved(current, r.to, r.expectedVersion, r.at) == Success(updated)
    ensures Fits(log, MovedEvent(r, current, updated))
  {
    hide Find, LogOk, Last, StatusNamed, Successors;
    LastShape(log, r.id);
  }

  lemma ApplyAdds(log: Log, r: Request)
    requires LogOk(log)
    ensures Adds(log, r, Apply(log, r).0)
    ensures Apply(log, r).0 != log ==> !Barred(log, r)
  {
    hide Find, LogOk, Last, StatusNamed, Successors, Fits;
    LastShape(log, Subject(r));
    if Find(log, r.commandId).None? {
      if r.Create? && Last(log, r.draft.id).None? {
        CreatedFits(log, r);
      } else if r.Transition? {
        var current := Visible(log, r.id, r.organization);
        if current.Some? && Moved(current.value, r.to, r.expectedVersion, r.at).Success? {
          MovedFits(log, r, current.value, Moved(current.value, r.to, r.expectedVersion, r.at).value);
        }
      }
    }
  }

  lemma ApplyKeepsLog(log: Log, r: Request)
    requires LogOk(log)
    ensures LogOk(Apply(log, r).0) && log <= Apply(log, r).0 && |Apply(log, r).0| <= |log| + 1
  {
    ApplyAdds(log, r);
    hide Apply, Fits;
    if Apply(log, r).0 != log { LogOkAppend(log, Apply(log, r).0[|log|]); }
  }

  /** Every reachable log is in order. */
  lemma {:induction false} EveryLogIsOk(log: Log, requests: seq<Request>)
    requires LogOk(log)
    ensures LogOk(Run(log, requests)) && log <= Run(log, requests)
    decreases |requests|
  {
    if requests != [] {
      ApplyKeepsLog(log, requests[0]);
      EveryLogIsOk(Apply(log, requests[0]).0, requests[1..]);
    }
  }

  function History(log: Log, id: string): seq<Event> {
    if log == [] then []
    else if log[|log| - 1].item == id then History(log[..|log| - 1], id) + [log[|log| - 1]]
    else History(log[..|log| - 1], id)
  }

  /** Rebuild an item from what its events say happened, starting from the created item. */
  function Rebuilt(created: WorkItem, events: seq<Event>): WorkItem {
    if events == [] then created else
    var e := events[|events| - 1];
    Rebuilt(created, events[..|events| - 1]).(status := e.to, version := e.version, updatedAt := e.occurredAt)
  }

  ghost predicate Chained(h: seq<Event>, k: nat)
    requires k < |h|
  {
    && h[k].version == k + 1
    && (if k == 0 then h[k].from == None && h[k].to == Backlog
        else h[k].from == Some(h[k - 1].to) && h[k].to in Successors(h[k - 1].to))
  }

  lemma ChainGrows(g: seq<Event>, e: Event)
    requires forall k :: 0 <= k < |g| ==> Chained(g, k)
    requires if g == [] then e.version == 1 && e.from == None && e.to == Backlog
             else && e.version == g[|g| - 1].version + 1 && e.from == Some(g[|g| - 1].to)
                  && e.to in Successors(g[|g| - 1].to)
    ensures forall k :: 0 <= k < |g + [e]| ==> Chained(g + [e], k)
  {
    hide Successors;
    forall k | 0 <= k < |g + [e]| ensures Chained(g + [e], k) {
      if k < |g| { assert Chained(g, k); }
      if k == |g| && g != [] { assert Chained(g, |g| - 1); }
    }
  }

  lemma {:induction false} HistoryIsChained(log: Log, id: string)
    requires LogOk(log)
    ensures var h := History(log, id);
            && (h == [] <==> Last(log, id).None?)
            && (h != [] ==> Last(log, id) == Some(h[|h| - 1]))
            && forall k :: 0 <= k < |h| ==> Chained(h, k)
  {
    hide Chained, Successors, Find;
    if log != [] {
      var before, e := log[..|log| - 1], log[|log| - 1];
      HistoryIsChained(before, id);
      assert Fits(before, e);
      if e.item == id { ChainGrows(History(before, id), e); }
    }
  }

  lemma RebuiltOneMore(g: seq<Event>, e: Event)
    requires g != []
    ensures Rebuilt(g[0].result, (g + [e])[1..]) ==
            Rebuilt(g[0].result, g[1..]).(status := e.to, version := e.version, updatedAt := e.occurredAt)
  {
    assert (g + [e])[1..] == g[1..] + [e];
    assert (g[1..] + [e])[..|g[1..]|] == g[1..];
  }

  lemma {:induction false} HistoryRebuilds(log: Log, id: string)
    requires LogOk(log) && History(log, id) != []
    ensures var h := History(log, id); Rebuilt(h[0].result, h[1..]) == h[|h| - 1].result
  {
    hide Rebuilt, Fits, Find, Last, Chained;
    var before, e := log[..|log| - 1], log[|log| - 1];
    var g := History(before, id);
    assert History(log, id) == if e.item == id then g + [e] else g;
    if e.item == id && g == [] {
      assert g + [e] == [e];
      NothingToReplay(e);
    } else {
      HistoryRebuilds(before, id);
      if e.item == id {
        HistoryIsChained(before, id);
        FollowUp(before, e, g[|g| - 1]);
        RebuiltOneMore(g, e);
      }
    }
  }

  lemma FollowUp(log: Log, e: Event, previous: Event)
    requires Fits(log, e) && Last(log, e.item) == Some(previous)
    ensures e.result == previous.result.(status := e.to, version := e.version, updatedAt := e.occurredAt)
  {
  }

  lemma NothingToReplay(e: Event)
    ensures Rebuilt(e.result, [e][1..]) == e.result
  {
  }

  /**
   The log is the state: an item's events have versions 1..n with chained, legal statuses, and
   replaying them on the created item gives its current state.
   */
  lemma LogIsTheState(log: Log, id: string)
    requires LogOk(log) && Last(log, id).Some?
    ensures var h := History(log, id);
            && h != [] && (forall k :: 0 <= k < |h| ==> Chained(h, k))
            && Rebuilt(h[0].result, h[1..]) == Last(log, id).value.result
  {
    HistoryIsChained(log, id);
    HistoryRebuilds(log, id);
  }

  /**
   No item is complete without the work: before it was completed it was verified, before that it ran, and before that
   it was ready.
   */
  lemma CompleteTookTheWay(log: Log, id: string)
    requires LogOk(log) && Last(log, id).Some? && Last(log, id).value.to == Complete
    ensures var h := History(log, id);
            exists i, j :: 0 <= i < j < |h| - 2 && h[i].to == Ready && h[j].to == Running
                           && h[|h| - 2].to == Verifying && h[|h| - 1].to == Complete
  {
    hide LogOk, History, Last;
    HistoryIsChained(log, id);
    var h := History(log, id);
    assert Chained(h, |h| - 1);
    assert h[|h| - 2].to == Verifying;
    assert Chained(h, |h| - 2);
    assert h[|h| - 3].to == Running;
    var i := ReadyBefore(h, |h| - 3);
  }

  lemma {:induction false} ReadyBefore(h: seq<Event>, j: nat) returns (i: nat)
    requires j < |h| && (forall k :: 0 <= k < |h| ==> Chained(h, k)) && h[j].to !in {Backlog, Ready}
    ensures i < j && h[i].to == Ready
  {
    assert Chained(h, j);
    if h[j - 1].to == Ready { i := j - 1; } else { i := ReadyBefore(h, j - 1); }
  }

  lemma {:induction false} VersionsAreTaken(log: Log, i: nat, id: string)
    requires LogOk(log) && i < |log| && log[i].item == id
    ensures Last(log, id).Some? && log[i].version <= Last(log, id).value.version
    ensures i < |log| - 1 && log[|log| - 1].item == id ==> log[i].version < log[|log| - 1].version
  {
    var before := log[..|log| - 1];
    if i < |log| - 1 { VersionsAreTaken(before, i, id); }
  }

  lemma LastFits(log: Log)
    requires LogOk(log) && log != []
    ensures Find(log[..|log| - 1], log[|log| - 1].commandId).None?
  {
  }

  /** Of the commands that expect the same version of an item at most one is ever committed. */
  lemma {:induction false} OneCommitPerVersion(log: Log, i: nat, j: nat)
    requires LogOk(log) && i < j < |log| && log[i].item == log[j].item
    ensures log[i].version < log[j].version && log[i].commandId != log[j].commandId
  {
    hide LogOk, Last, Fits;
    var upTo := log[..j + 1];
    PrefixIsOk(log, j + 1);
    VersionsAreTaken(upTo, i, log[j].item);
    LastFits(upTo);
    assert log[i] == upTo[..j][i];
  }

  lemma {:induction false} PrefixIsOk(log: Log, n: nat)
    requires LogOk(log) && n <= |log|
    ensures LogOk(log[..n])
  {
    if n < |log| {
      PrefixIsOk(log[..|log| - 1], n);
      assert log[..|log| - 1][..n] == log[..n];
    } else {
      assert log[..n] == log;
    }
  }

  // ---------------------------------------------------------------- finality

  /** The item can no longer take this request: its version is past it, or the move is illegal at it. */
  predicate Barred(log: Log, r: Request) {
    match r
    case Create(_, _, draft, _) => Last(log, draft.id).Some?
    case Transition(_, _, id, organization, expectedVersion, to, _, _) =>
      var current := Visible(log, id, organization);
      current.Some? && (expectedVersion < current.value.version
        || (expectedVersion == current.value.version
            && (StatusNamed(to).None? || StatusNamed(to).value !in Successors(current.value.status))))
  }

  /** Nothing under this command id and body is committed, and the item is past it. */
  predicate Dead(log: Log, r: Request) {
    var found := Find(log, r.commandId);
    if found.Some? then found.value.digest != Digest(r) else Barred(log, r)
  }

  /** The item exists and is at least at the version the request expects. */
  predicate Overtaken(log: Log, r: Request)
    requires r.Transition?
  {
    var current := Visible(log, r.id, r.organization);
    current.Some? && r.expectedVersion <= current.value.version
  }

  lemma DeadIsRefused(log: Log, r: Request)
    requires LogOk(log)
    ensures Dead(log, r) ==> Apply(log, r).0 == log && Apply(log, r).1.Refused?
    ensures r.Transition? && Overtaken(log, r) && Apply(log, r).1.Refused? ==> Dead(log, r)
  {
    if r.Transition? { LastShape(log, r.id); }
  }

  lemma {:induction false} FindInPrefix(log: Log, e: Event, commandId: string)
    ensures Find(log, commandId).Some? ==> Find(log + [e], commandId) == Find(log, commandId)
    ensures Find(log, commandId).None? ==>
              Find(log + [e], commandId) == if e.commandId == commandId then Some(e) else None
  {
    if log == [] {
      assert log + [e] == [e];
    } else {
      assert (log + [e])[1..] == log[1..] + [e];
      FindInPrefix(log[1..], e, commandId);
    }
  }

  lemma LastAfter(log: Log, e: Event, id: string)
    ensures Last(log + [e], id) == if e.item == id then Some(e) else Last(log, id)
  {
  }

  /** Bars are never lifted: versions only grow, and the organization of an item never changes. */
  lemma FittingKeepsBarred(log: Log, e: Event, r: Request)
    requires LogOk(log) && Fits(log, e) && Barred(log, r)
    ensures Barred(log + [e], r)
  {
    var id := Subject(r);
    LastAfter(log, e, id);
    LastShape(log, id);
  }

  lemma DeadStaysDead(log: Log, other: Request, r: Request)
    requires LogOk(log) && Dead(log, r)
    ensures Dead(Apply(log, other).0, r)
  {
    hide Apply, LogOk, Fits, Barred, Find;
    var next := Apply(log, other).0;
    ApplyAdds(log, other);
    if next != log {
      FindInPrefix(log, next[|log|], r.commandId);
      if Find(log, r.commandId).None? {
        FittingKeepsBarred(log, next[|log|], r);
        if Digest(other) == Digest(r) { SameBodySameBar(log, other, r); }
      }
    }
  }

  /** Whether a request is barred depends on its body only. */
  lemma SameBodySameBar(log: Log, a: Request, b: Request)
    requires Digest(a) == Digest(b)
    ensures Barred(log, a) <==> Barred(log, b)
  {
  }

  /**
   A command rejected while it expected at most the current version can never succeed later, whatever
   other requests are made in between.
   */
  lemma {:induction false} RejectedStaysRejected(log: Log, r: Request, others: seq<Request>)
    requires LogOk(log) && r.Transition? && Overtaken(log, r) && Apply(log, r).1.Refused?
    ensures Apply(Run(log, others), r).1.Refused? && Apply(Run(log, others), r).0 == Run(log, others)
  {
    DeadIsRefused(log, r);
    DeadAfterAll(log, r, others);
    EveryLogIsOk(log, others);
    DeadIsRefused(Run(log, others), r);
  }

  lemma {:induction false} DeadAfterAll(log: Log, r: Request, others: seq<Request>)
    requires LogOk(log) && Dead(log, r)
    ensures Dead(Run(log, others), r)
    decreases |others|
  {
    if others != [] {
      DeadStaysDead(log, others[0], r);
      ApplyKeepsLog(log, others[0]);
      DeadAfterAll(Apply(log, others[0]).0, r, others[1..]);
    }
  }

  lemma NothingFitsAfterComplete(log: Log, e: Event, id: string)
    requires Fits(log, e) && Last(log, id).Some? && Last(log, id).value.to == Complete
    ensures e.item != id
  {
    hide Find, Last;
  }

  /** Complete is absorbing. */
  lemma {:induction false} CompleteIsFinal(log: Log, id: string, requests: seq<Request>)
    requires LogOk(log) && Last(log, id).Some? && Last(log, id).value.to == Complete
    ensures Last(Run(log, requests), id) == Last(log, id)
    decreases |requests|
  {
    hide Apply, LogOk, Find, Fits, Last, Subject, Digest;
    if requests != [] {
      var next := Apply(log, requests[0]).0;
      ApplyKeepsLog(log, requests[0]);
      ApplyAdds(log, requests[0]);
      if next != log {
        NothingFitsAfterComplete(log, next[|log|], id);
        LastAfter(log, next[|log|], id);
      }
      CompleteIsFinal(next, id, requests[1..]);
    }
  }

  // ---------------------------------------------------------------- retries

  /** Settled: committed under its own body, or dead. */
  predicate Settled(log: Log, r: Request) {
    var found := Find(log, r.commandId);
    (found.Some? && found.value.digest == Digest(r)) || Dead(log, r)
  }

  /** A retry of a settled request changes nothing, and a committed one is answered with its original result. */
  lemma RetryChangesNothing(log: Log, r: Request, retry: Request)
    requires LogOk(log) && Settled(log, r) && Retries(retry, r)
    ensures Apply(log, retry).0 == log
    ensures Find(log, r.commandId).Some? && Find(log, r.commandId).value.digest == Digest(r) ==>
              Apply(log, retry).1 == Done(Find(log, r.commandId).value.result, true)
  {
  }

  lemma SettledStays(log: Log, other: Request, r: Request)
    requires LogOk(log) && Settled(log, r)
    ensures Settled(Apply(log, other).0, r)
  {
    hide Apply, LogOk, Fits, Find, Barred;
    var next := Apply(log, other).0;
    ApplyAdds(log, other);
    if Dead(log, r) {
      DeadStaysDead(log, other, r);
    } else if next != log {
      FindInPrefix(log, next[|log|], r.commandId);
    }
  }

  predicate SeenBefore(seen: seq<Request>, r: Request) {
    exists s <- seen :: Retries(r, s)
  }

  /** The requests without the retries. */
  function Deduplicated(seen: seq<Request>, requests: seq<Request>): seq<Request>
    decreases |requests|
  {
    if requests == [] then []
    else if SeenBefore(seen, requests[0]) then Deduplicated(seen, requests[1..])
    else [requests[0]] + Deduplicated(seen + [requests[0]], requests[1..])
  }

  /** Each request settles the first time it is made. */
  predicate SettlesAtOnce(log: Log, seen: seq<Request>, requests: seq<Request>)
    decreases |requests|
  {
    requests == [] ||
    (var next := Apply(log, requests[0]).0;
     if SeenBefore(seen, requests[0]) then SettlesAtOnce(next, seen, requests[1..])
     else Settled(next, requests[0]) && SettlesAtOnce(next, seen + [requests[0]], requests[1..]))
  }

  /**
   What a request needs to commit: its command id is new, and it creates an item that is not there or
   moves a visible item, at the version it expects, to a successor of its status.
   */
  predicate Acceptable(log: Log, r: Request) {
    && Find(log, r.commandId).None?
    && match r
       case Create(_, _, draft, _) => Last(log, draft.id).None?
       case Transition(_, _, id, organization, expectedVersion, to, _, _) =>
         var current := Visible(log, id, organization);
         && current.Some? && 1 <= expectedVersion == current.value.version
         && StatusNamed(to).Some? && StatusNamed(to).value in Successors(current.value.status)
  }

  /** A request adds to the log exactly when it is acceptable. */
  lemma CommitsWhenAcceptable(log: Log, r: Request)
    ensures Apply(log, r).0 != log <==> Acceptable(log, r)
  {
  }

  /** No retry is acceptable when its turn comes. */
  predicate RetriesComeLate(log: Log, seen: seq<Request>, requests: seq<Request>)
    decreases |requests|
  {
    requests == [] ||
    (if SeenBefore(seen, requests[0]) then !Acceptable(log, requests[0]) && RetriesComeLate(log, seen, requests[1..])
     else RetriesComeLate(Apply(log, requests[0]).0, seen + [requests[0]], requests[1..]))
  }

  /** Requests that settle at once make their retries harmless. */
  lemma {:induction false} SettledRetriesComeLate(log: Log, seen: seq<Request>, requests: seq<Request>)
    requires LogOk(log) && (forall s <- seen :: Settled(log, s)) && SettlesAtOnce(log, seen, requests)
    ensures RetriesComeLate(log, seen, requests)
    decreases |requests|
  {
    hide Apply, LogOk, Settled, Retries, Acceptable;
    if requests != [] {
      var r := requests[0];
      var next := Apply(log, r).0;
      ApplyKeepsLog(log, r);
      forall s <- seen ensures Settled(next, s) { SettledStays(log, r, s); }
      if SeenBefore(seen, r) {
        var s :| s in seen && Retries(r, s);
        RetryChangesNothing(log, s, r);
        CommitsWhenAcceptable(log, r);
        SettledRetriesComeLate(next, seen, requests[1..]);
      } else {
        SettledRetriesComeLate(next, seen + [r], requests[1..]);
      }
    }
  }

  ghost predicate Commits(log: Log, commandId: string, body: Body) {
    Find(log, commandId).Some? && Find(log, commandId).value.digest == body
  }

  /** A command's commit is kept, and nobody but the command itself can make it. */
  lemma {:induction false} CommitsComeFromRequests(log: Log, requests: seq<Request>, commandId: string, body: Body)
    requires LogOk(log)
    ensures Commits(log, commandId, body) ==> Commits(Run(log, requests), commandId, body)
    ensures !Commits(log, commandId, body) && (forall r <- requests :: r.commandId != commandId || Digest(r) != body)
            ==>
              !Commits(Run(log, requests), commandId, body)
    decreases |requests|
  {
    if requests != [] {
      hide Apply, LogOk, Fits, Find, Digest;
      var next := Apply(log, requests[0]).0;
      ApplyAdds(log, requests[0]);
      ApplyKeepsLog(log, requests[0]);
      if next != log { FindInPrefix(log, next[|log|], commandId); }
      CommitsComeFromRequests(next, requests[1..], commandId, body);
    }
  }

  lemma {:induction false} DeduplicatedIsNew(seen: seq<Request>, requests: seq<Request>, s: Request)
    requires s in seen
    ensures forall r <- Deduplicated(seen, requests) :: !Retries(r, s)
    decreases |requests|
  {
    if requests != [] {
      if SeenBefore(seen, requests[0]) {
        DeduplicatedIsNew(seen, requests[1..], s);
      } else {
        DeduplicatedIsNew(seen + [requests[0]], requests[1..], s);
      }
    }
  }

  /** A sequence with retries ends in the log of its de-duplicated form exactly when every retry comes late. */
  lemma {:induction false} RetriesAreInvisible(log: Log, seen: seq<Request>, requests: seq<Request>)
    requires LogOk(log)
    ensures RetriesComeLate(log, seen, requests) <==> Run(log, requests) == Run(log, Deduplicated(seen, requests))
    decreases |requests|
  {
    hide Apply, LogOk, Retries, Acceptable;
    if requests != [] {
      var r := requests[0];
      var next := Apply(log, r).0;
      ApplyKeepsLog(log, r);
      CommitsWhenAcceptable(log, r);
      if !SeenBefore(seen, r) {
        RetriesAreInvisible(next, seen + [r], requests[1..]);
        var rest := Deduplicated(seen + [r], requests[1..]);
        assert ([r] + rest)[1..] == rest;
      } else if next == log {
        RetriesAreInvisible(log, seen, requests[1..]);
      } else {
        LateCommitShows(log, seen, requests);
      }
    }
  }

  lemma CommitIsFound(log: Log, r: Request)
    requires LogOk(log) && Apply(log, r).0 != log
    ensures Commits(Apply(log, r).0, r.commandId, Digest(r)) && !Commits(log, r.commandId, Digest(r))
  {
    ApplyAdds(log, r);
    FindInPrefix(log, Apply(log, r).0[|log|], r.commandId);
    hide LogOk, Last, Digest, Successors, StatusNamed;
  }

  lemma LateCommitShows(log: Log, seen: seq<Request>, requests: seq<Request>)
    requires LogOk(log) && requests != [] && SeenBefore(seen, requests[0]) && Apply(log, requests[0]).0 != log
    ensures Run(log, requests) != Run(log, Deduplicated(seen, requests))
  {
    hide Apply, LogOk, Fits, Find, Commits, Digest;
    var r := requests[0];
    var s :| s in seen && Retries(r, s);
    CommitIsFound(log, r);
    ApplyKeepsLog(log, r);
    CommitsComeFromRequests(Apply(log, r).0, requests[1..], r.commandId, Digest(r));
    DeduplicatedIsNew(seen, requests[1..], s);
    CommitsComeFromRequests(log, Deduplicated(seen, requests[1..]), r.commandId, Digest(r));
  }

  lemma EarlyTransition(d: Draft, actor: string, at: nat)
    ensures var t := Transition("c1", actor, d.id, d.organization, 1, "ready", None, at);
            var c := Create("c2", actor, d, at);
            && Apply([], t) == ([], Missing) && Apply([], c).0 == [CreatedEvent(c)]
            && Acceptable([CreatedEvent(c)], t)
  {
    var made := [CreatedEvent(Create("c2", actor, d, at))];
    assert made[1..] == [] && made[0].result == NewItem(d);
    assert Ready in Successors(Backlog) && "c2" != "c1";
  }

  /** A retry that is acceptable at the end of three requests. */
  lemma ThirdRequestCommits(t: Request, c: Request, made: Log)
    requires Apply([], t).0 == [] && Apply([], c).0 == made && Acceptable(made, t) && !Retries(c, t)
    ensures !RetriesComeLate([], [], [t, c, t])
  {
    hide Apply, Acceptable, Retries;
    var all, two, one := [t, c, t], [c, t], [t];
    assert all[1..] == two && two[1..] == one;
    assert SeenBefore([t, c], t) by { assert Retries(t, t) by { RetriesItself(t); } }
    assert !RetriesComeLate(made, [t, c], one);
    assert [t] + [c] == [t, c];
    assert !RetriesComeLate([], [t], two);
    var none: seq<Request> := [];
    assert none + [t] == [t];
  }

  lemma RetriesItself(r: Request)
    ensures Retries(r, r)
  {
  }

  /**
   A transition that comes before its item exists is answered "missing"; its retry, after the item was
   created, commits. So not every retry is harmless.
   */
  lemma EarlyTransitionRetryCommits(d: Draft, actor: string, at: nat)
    ensures var t := Transition("c1", actor, d.id, d.organization, 1, "ready", None, at);
            var c := Create("c2", actor, d, at);
            && Run([], [t, c, t]) != Run([], Deduplicated([], [t, c, t]))
            && Apply([], t).1 == Missing
  {
    hide Apply, Acceptable, Run, Deduplicated, RetriesComeLate, CreatedEvent;
    var t := Transition("c1", actor, d.id, d.organization, 1, "ready", None, at);
    var c := Create("c2", actor, d, at);
    EarlyTransition(d, actor, at);
    ThirdRequestCommits(t, c, [CreatedEvent(c)]);
    RetriesAreInvisible([], [], [t, c, t]);
  }
}
