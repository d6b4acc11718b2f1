/**
 * `EventsService` (backend/src/events/events.service.ts) over an
 * in-memory event collection: `create` stores a validated DTO under the
 * caller's id, and `findAll` returns the caller's events.
 */
module EventsBackend {
  import opened EventDto
  import opened DocumentStore

  /** A stored calendar-event document. */
  datatype EventRecord = EventRecord(title: string, time: string, predictedMood: string, tag: string, userId: string)

  function Owner(r: EventRecord): string {
    r.userId
  }

  /** The event collection and the service over it. */
  class EventsService {
    var records: seq<EventRecord>

    constructor (stored: seq<EventRecord>)
      ensures records == stored
    {
      records := stored;
    }

    /** `create`: the DTO's fields plus the caller's id; the saved record is returned. */
    method Create(dto: CreateEventDto, userId: string) returns (saved: EventRecord)
      modifies this
      ensures saved == EventRecord(dto.title, dto.time, dto.predictedMood, dto.tag, userId)
      ensures records == old(records) + [saved]
      ensures OwnedBy(records, Owner, userId) == OwnedBy(old(records), Owner, userId) + [saved]
    {
      saved := EventRecord(dto.title, dto.time, dto.predictedMood, dto.tag, userId);
      OwnedByAppend(records, saved, Owner, userId);
      records := records + [saved];
    }

    /**
     * `findAll`: exactly the caller's events, each as often as it is
     * stored. No sort is requested; the model returns collection order.
     */
    function FindAll(userId: string): (r: seq<EventRecord>)
      reads this
      ensures forall d :: d in r <==> d in records && d.userId == userId
      ensures forall d :: multiset(r)[d] == if d.userId == userId then multiset(records)[d] else 0
    {
      OwnedBy(records, Owner, userId)
    }
  }

  /** Creating an event for one user leaves every other user's list as it was. */
  lemma CreateIsolatesUsers(s: seq<EventRecord>, saved: EventRecord, other: string)
    requires saved.userId != other
    ensures OwnedBy(s + [saved], Owner, other) == OwnedBy(s, Owner, other)
  {
    OwnedByAppend(s, saved, Owner, other);
  }
}
