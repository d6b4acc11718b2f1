/**
 * `MoodService` (backend/src/mood/mood.service.ts) over an in-memory mood
 * collection: `create` stores a validated DTO under the caller's id, and
 * `findAll` returns the caller's records, newest first.
 */
module MoodBackend {
  import opened Wrappers
  import opened MoodDto
  import opened DocumentStore

  /** A stored mood document; `timestamp` is in milliseconds. */
  datatype MoodRecord = MoodRecord(mood: string, note: Option<string>, timestamp: int, userId: string)

  function Owner(r: MoodRecord): string {
    r.userId
  }

  /** `sort({ timestamp: -1 })`: no record is older than one after it. */
  predicate NewestFirst(s: seq<MoodRecord>) {
    forall i, j :: 0 <= i < j < |s| ==> s[i].timestamp >= s[j].timestamp
  }

  /** A record no older than any of a newest-first list can go in front of it. */
  lemma ConsNewestFirst(h: MoodRecord, t: seq<MoodRecord>)
    requires NewestFirst(t)
    requires forall d :: d in t ==> d.timestamp <= h.timestamp
    ensures NewestFirst([h] + t)
  {
    forall i, j | 0 <= i < j < |[h] + t|
      ensures ([h] + t)[i].timestamp >= ([h] + t)[j].timestamp
    {
      assert ([h] + t)[j] == t[j - 1];
      if i > 0 {
        assert ([h] + t)[i] == t[i - 1];
      }
    }
  }

  /** Places `x` after every record at least as new as it, keeping the order. */
  function Insert(s: seq<MoodRecord>, x: MoodRecord): (r: seq<MoodRecord>)
    requires NewestFirst(s)
    ensures NewestFirst(r)
    ensures forall d :: d in r <==> d in s || d == x
    ensures multiset(r) == multiset(s) + multiset{x}
  {
    if |s| == 0 || x.timestamp > s[0].timestamp then
      ConsNewestFirst(x, s);
      [x] + s
    else
      assert s == [s[0]] + s[1..];
      var rest := Insert(s[1..], x);
      ConsNewestFirst(s[0], rest);
      [s[0]] + rest
  }

  /**
   * The store's sort, as a stable insertion sort: the result is newest
   * first and holds the same records. The store leaves the order of equal
   * timestamps unspecified; this model keeps their collection order.
   */
  function SortNewestFirst(s: seq<MoodRecord>): (r: seq<MoodRecord>)
    ensures NewestFirst(r)
    ensures multiset(r) == multiset(s)
  {
    if |s| == 0 then []
    else
      assert s == s[..|s| - 1] + [s[|s| - 1]];
      Insert(SortNewestFirst(s[..|s| - 1]), s[|s| - 1])
  }

  /** The mood collection and the service over it. */
  class MoodService {
    var records: seq<MoodRecord>

    constructor (stored: seq<MoodRecord>)
      ensures records == stored
    {
      records := stored;
    }

    /**
     * `create`: the DTO's fields plus the caller's id, with the DTO's
     * timestamp (converted by `toTime`) when it is given and not empty, and
     * the current time otherwise; the saved record is returned.
     */
    method Create(dto: CreateMoodDto, userId: string, now: int, toTime: string -> int) returns (saved: MoodRecord)
      modifies this
      ensures saved.mood == dto.mood && saved.note == dto.note && saved.userId == userId
      ensures saved.timestamp == if dto.timestamp.Some? && dto.timestamp.value != "" then toTime(dto.timestamp.value) else now
      ensures records == old(records) + [saved]
      ensures OwnedBy(records, Owner, userId) == OwnedBy(old(records), Owner, userId) + [saved]
    {
      var timestamp := if dto.timestamp.Some? && dto.timestamp.value != "" then toTime(dto.timestamp.value) else now;
      saved := MoodRecord(dto.mood, dto.note, timestamp, userId);
      OwnedByAppend(records, saved, Owner, userId);
      records := records + [saved];
    }

    /**
     * `findAll`: exactly the caller's records, each as often as it is
     * stored, newest first.
     */
    function FindAll(userId: string): (r: seq<MoodRecord>)
      reads this
      ensures NewestFirst(r)
      ensures forall d :: d in r <==> d in records && d.userId == userId
      ensures forall d :: multiset(r)[d] == if d.userId == userId then multiset(records)[d] else 0
    {
      var owned := OwnedBy(records, Owner, userId);
      assert forall d :: d in owned <==> d in multiset(owned);
      SortNewestFirst(owned)
    }
  }

  /** A user's newest record is first in that user's list. */
  lemma NewestComesFirst(s: seq<MoodRecord>, userId: string, d: MoodRecord)
    requires d in s && d.userId == userId
    ensures var r := SortNewestFirst(OwnedBy(s, Owner, userId));
            |r| > 0 && r[0].timestamp >= d.timestamp
  {
    var owned := OwnedBy(s, Owner, userId);
    var r := SortNewestFirst(owned);
    assert d in owned;
    assert multiset(owned)[d] > 0;
    assert d in multiset(r);
    var k :| 0 <= k < |r| && r[k] == d;
    assert k == 0 || r[0].timestamp >= r[k].timestamp;
  }
}
