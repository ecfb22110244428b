/**
 The event list of an agent session and addEvent, services/control-api/src/store.js: an event
 that carries a command id is stored at most once, however often it is added.
 */
module SessionEvents {
  import opened Options

  datatype Kind =
    | StatusChange(status: string)
    | Thread(nativeSessionId: string)
    | Text(text: string, blank: bool) // blank: nothing is left after trim()
    | Problem(message: string)

  datatype Event = Event(kind: Kind, commandId: Option<string>, at: nat)

  datatype Session = Session(status: string, events: seq<Event>, messages: seq<string>,
                             nativeSessionId: Option<string>, updatedAt: nat)

  /** An empty command id is falsy and so no id at all. */
  predicate Carries(e: Event, id: string) {
    e.commandId == Some(id) && id != ""
  }

  /** The first event with this command id. */
  function Find(events: seq<Event>, id: string): (r: Option<Event>)
    ensures r.Some? ==> r.value in events && Carries(r.value, id)
    ensures r.None? ==> forall e <- events :: !Carries(e, id)
  {
    if events == [] then None
    else if Carries(events[0], id) then Some(events[0])
    else Find(events[1..], id)
  }

  function AddEvent(s: Session, e: Event): Session {
    var existing := if e.commandId.Some? then Find(s.events, e.commandId.value) else None;
    if existing.Some? then
      if existing.value.kind.StatusChange? && s.status != existing.value.kind.status
      then s.(status := existing.value.kind.status, updatedAt := e.at)
      else s
    else
      var t := s.(events := s.events + [e], updatedAt := e.at);
      match e.kind
      case StatusChange(status) => t.(status := status)
      case Thread(native) => t.(nativeSessionId := Some(native))
      case Text(text, blank) => if blank then t else t.(messages := t.messages + [text])
      case Problem(_) => t
  }

  /** What a new event does: it is kept at the end, and changes what its kind is about, nothing else. */
  lemma NewEventTakesEffect(s: Session, e: Event)
    requires e.commandId.Some? ==> Find(s.events, e.commandId.value).None?
    ensures var t := AddEvent(s, e);
            && t.events == s.events + [e] && t.updatedAt == e.at
            && t.status == (if e.kind.StatusChange? then e.kind.status else s.status)
            && t.nativeSessionId == (if e.kind.Thread? then Some(e.kind.nativeSessionId) else s.nativeSessionId)
            && t.messages == if e.kind.Text? && !e.kind.blank then s.messages + [e.kind.text] else s.messages
  {
  }

  /** An empty command id protects from nothing: such events are all kept. */
  lemma EmptyIdIsNoId(s: Session, e: Event)
    requires e.commandId == Some("")
    ensures AddEvent(s, e).events == s.events + [e]
  {
  }

  function AddAll(s: Session, events: seq<Event>): Session
    decreases |events|
  {
    if events == [] then s else AddAll(AddEvent(s, events[0]), events[1..])
  }

  function Count(events: seq<Event>, id: string): nat {
    if events == [] then 0 else (if Carries(events[0], id) then 1 else 0) + Count(events[1..], id)
  }

  lemma {:induction false} CountOfAppended(events: seq<Event>, e: Event, id: string)
    ensures Count(events + [e], id) == Count(events, id) + if Carries(e, id) then 1 else 0
  {
    if events == [] {
      assert events + [e] == [e];
    } else {
      assert (events + [e])[1..] == events[1..] + [e];
      CountOfAppended(events[1..], e, id);
    }
  }

  lemma {:induction false} CountZeroIffAbsent(events: seq<Event>, id: string)
    ensures Count(events, id) == 0 <==> Find(events, id).None?
  {
    if events != [] { CountZeroIffAbsent(events[1..], id); }
  }

  lemma {:induction false} FindKeepsFirst(events: seq<Event>, e: Event, id: string)
    ensures Find(events, id).Some? ==> Find(events + [e], id) == Find(events, id)
    ensures Find(events, id).None? && Carries(e, id) ==> Find(events + [e], id) == Some(e)
  {
    if events == [] {
      assert events + [e] == [e];
    } else {
      assert (events + [e])[1..] == events[1..] + [e];
      FindKeepsFirst(events[1..], e, id);
    }
  }

  /** Events are only ever appended, so what was recorded for a command stays its record. */
  lemma RecordIsKept(s: Session, e: Event, id: string)
    ensures Find(s.events, id).Some? ==> Find(AddEvent(s, e).events, id) == Find(s.events, id)
    ensures Carries(e, id) ==> Find(AddEvent(s, e).events, id).Some?
  {
    FindKeepsFirst(s.events, e, id);
  }

  /** Whatever is added, in whatever order, a command has at most one event. */
  lemma {:induction false} AtMostOnePerCommand(s: Session, events: seq<Event>, id: string)
    requires id != "" && Count(s.events, id) <= 1
    ensures Count(AddAll(s, events).events, id) <= 1
    decreases |events|
  {
    if events != [] {
      AddKeepsAtMostOne(s, events[0], id);
      AtMostOnePerCommand(AddEvent(s, events[0]), events[1..], id);
    }
  }

  lemma AddKeepsAtMostOne(s: Session, e: Event, id: string)
    requires Count(s.events, id) <= 1
    ensures Count(AddEvent(s, e).events, id) <= 1
    ensures Carries(e, id) ==> Count(AddEvent(s, e).events, id) == 1
  {
    CountOfAppended(s.events, e, id);
    CountZeroIffAbsent(s.events, id);
  }

  lemma AddNeverRemoves(s: Session, e: Event, id: string)
    ensures Count(AddEvent(s, e).events, id) >= Count(s.events, id)
  {
    CountOfAppended(s.events, e, id);
  }

  /**
   Adding again under the same command id changes nothing at all, even when the retry carries
   another text or timestamp.
   */
  lemma AddingAgainIsSilent(s: Session, e: Event, again: Event, id: string)
    requires Carries(e, id) && again.commandId == e.commandId
    ensures AddEvent(AddEvent(s, e), again) == AddEvent(s, e)
  {
  }

  /**
   A status event recorded for a command is re-asserted by a retry, whatever status the session
   moved to in between.
   */
  lemma RetryRestoresStatus(s: Session, between: seq<Event>, e: Event, again: Event, id: string, status: string)
    requires Carries(e, id) && again.commandId == e.commandId
    requires e.kind == StatusChange(status) && Find(s.events, id).None?
    ensures AddEvent(AddAll(AddEvent(s, e), between), again).status == status
  {
    FindKeepsFirst(s.events, e, id);
    RecordSurvives(AddEvent(s, e), between, id);
  }

  lemma {:induction false} RecordSurvives(s: Session, events: seq<Event>, id: string)
    requires Find(s.events, id).Some?
    ensures Find(AddAll(s, events).events, id) == Find(s.events, id)
    decreases |events|
  {
    if events != [] {
      RecordIsKept(s, events[0], id);
      RecordSurvives(AddEvent(s, events[0]), events[1..], id);
    }
  }

  /** The session rows. A missing session answers null. */
  class SessionStore {
    var sessions: map<string, Session>

    constructor ()
      ensures sessions == map[]
    {
      sessions := map[];
    }

    method AddEventTo(id: string, e: Event) returns (saved: Option<Session>)
      modifies this
      ensures id !in old(sessions) ==> saved == None && sessions == old(sessions)
      ensures id in old(sessions) ==>
                saved == Some(AddEvent(old(sessions)[id], e)) && sessions == old(sessions)[id := saved.value]
    {
      if id !in sessions { return None; }
      var session := sessions[id];
      var existing := if e.commandId.Some? then Find(session.events, e.commandId.value) else None;
      if existing.Some? {
        if existing.value.kind.StatusChange? && session.status != existing.value.kind.status {
          session := session.(status := existing.value.kind.status, updatedAt := e.at);
        }
      } else {
        session := session.(events := session.events + [e], updatedAt := e.at);
        if e.kind.StatusChange? { session := session.(status := e.kind.status); }
        if e.kind.Thread? { session := session.(nativeSessionId := Some(e.kind.nativeSessionId)); }
        if e.kind.Text? && !e.kind.blank { session := session.(messages := session.messages + [e.kind.text]); }
      }
      sessions := sessions[id := session];
      return Some(session);
    }
  }
}
