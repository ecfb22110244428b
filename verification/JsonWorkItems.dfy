/**
 The JSON store of services/control-api/src: its promise chain runs one work-item operation at a
 time. It implements the log of WorkItems.
 */
module JsonWorkItems {
  import opened Options
  import opened WorkItems

  class JsonStore {
    var workItems: map<string, WorkItem>
    var workItemEvents: Log

    /** The item map is the last result of each item's events. */
    ghost predicate Valid()
      reads this
    {
      && LogOk(workItemEvents)
      && forall id :: (id in workItems <==> Last(workItemEvents, id).Some?)
                      && (id in workItems ==> workItems[id] == Last(workItemEvents, id).value.result)
    }

    constructor ()
      ensures Valid() && workItemEvents == []
    {
      workItems, workItemEvents := map[], [];
    }

    /**
     One operation of the write chain. A refusal is thrown at once; everything else is answered after the state
     file was written. When that fails the caller gets an error, but the change stays in memory.
     */
    method Mutate(r: Request, fileWritten: bool) returns (response: Option<Response>)
      requires Valid()
      modifies this
      ensures Valid()
      ensures workItemEvents == Apply(old(workItemEvents), r).0
      ensures var answer := Apply(old(workItemEvents), r).1;
              response == if fileWritten || answer.Refused? then Some(answer) else None
    {
      hide LogOk, Fits;
      var result: Response;
      ApplyKeepsLog(workItemEvents, r);
      var replay := Find(workItemEvents, r.commandId);
      if replay.Some? {
        if replay.value.digest != Digest(r) { return Some(Refused(IdempotencyConflict)); }
        result := Done(replay.value.result, true);
      } else if r.Create? {
        if r.draft.id in workItems { return Some(Refused(AlreadyExists)); }
        var item := NewItem(r.draft);
        Record(CreatedEvent(r), item);
        result := Done(item, false);
      } else {
        var current := if r.id in workItems && workItems[r.id].organization == r.organization then Some(workItems[r.id])
                       else None;
        if current.None? {
          result := Missing;
        } else {
          var updated := Moved(current.value, r.to, r.expectedVersion, r.at);
          if updated.Failure? { return Some(Refused(updated.error)); }
          Record(MovedEvent(r, current.value, updated.value), updated.value);
          result := Done(updated.value, false);
        }
      }
      return if fileWritten then Some(result) else None;
    }

    method Record(e: Event, item: WorkItem)
      requires e.result == item
      requires forall id :: (id in workItems <==> Last(workItemEvents, id).Some?)
                            && (id in workItems ==> workItems[id] == Last(workItemEvents, id).value.result)
      modifies this
      ensures workItemEvents == old(workItemEvents) + [e] && workItems == old(workItems)[e.item := item]
      ensures forall id :: (id in workItems <==> Last(workItemEvents, id).Some?)
                           && (id in workItems ==> workItems[id] == Last(workItemEvents, id).value.result)
    {
      ghost var before := workItemEvents;
      workItems := workItems[e.item := item];
      workItemEvents := workItemEvents + [e];
      forall id ensures Last(workItemEvents, id) == if e.item == id then Some(e) else Last(before, id) {
        LastAfter(before, e, id);
      }
    }
  }
}
