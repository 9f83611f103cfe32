/** The 24-hour window query over the booked `schedules` collection:
    documents whose start lies after one hour ago and no later than 24 hours
    ahead, in store order, after `skip` and `limit`, each returned with its
    ObjectId turned into the string `id` and without `_id`. */
module ScheduleCrud {
  import opened Schemas

  /** The query `{"start_time": {"$gt": now - 1h, "$lte": now + 24h}}`:
      strict below, inclusive above; the end time plays no part. */
  predicate InWindow(s: ScheduleBase, currentTime: int) {
    currentTime - OneHour < s.startTime <= currentTime + TwentyFourHours
  }

  /** The documents the query matches, in store order. */
  function Matching(store: seq<Document>, currentTime: int): (r: seq<Document>)
    ensures |r| <= |store|
    ensures forall d :: d in r <==> d in store && InWindow(d.body, currentTime)
  {
    if store == [] then []
    else
      (if InWindow(store[0].body, currentTime) then [store[0]] else [])
      + Matching(store[1..], currentTime)
  }

  /** `cursor.skip(n)`: drops the first `n` results (all of them if fewer). */
  function Skip<T>(s: seq<T>, n: nat): (r: seq<T>)
    ensures |r| == if n <= |s| then |s| - n else 0
    ensures forall k :: 0 <= k < |r| ==> r[k] == s[n + k]
  {
    if n <= |s| then s[n..] else []
  }

  /** `cursor.limit(n)`: keeps the first `n` results; a limit of 0 means no limit. */
  function Limit<T>(s: seq<T>, n: nat): (r: seq<T>)
    ensures |r| == if n == 0 || |s| <= n then |s| else n
    ensures forall k :: 0 <= k < |r| ==> r[k] == s[k]
  {
    if n == 0 || |s| <= n then s else s[..n]
  }

  /** `find(query).skip(skip).limit(limit)` */
  function Cursor(store: seq<Document>, currentTime: int, skip: nat, limit: nat): seq<Document> {
    Limit(Skip(Matching(store, currentTime), skip), limit)
  }

  /** `schedule["id"] = str(schedule["_id"])` followed by `del schedule["_id"]`. */
  function Rename(d: Document): (r: Schedule)
    ensures |r.id| == 24 && forall i :: 0 <= i < |r.id| ==> IsHexDigit(r.id[i])
    ensures r.body == d.body
  {
    Schedule(ObjectIdString(d.oid), d.body)
  }

  /** Renaming keeps documents apart: two results share an `id` exactly when
      they came from documents with the same `_id`. */
  lemma RenameIdInjective(a: Document, b: Document)
    ensures Rename(a).id == Rename(b).id <==> a.oid == b.oid
  {
    ObjectIdStringInjective(a.oid, b.oid);
  }

  /** `s` is some stored document of the window with its `_id` renamed to `id`. */
  ghost predicate RenamedFrom(s: Schedule, store: seq<Document>, currentTime: int) {
    exists d :: d in store && InWindow(d.body, currentTime) &&
                s.id == ObjectIdString(d.oid) && s.body == d.body
  }

  /** Matching distributes over concatenation, so it keeps store order. */
  lemma {:induction false} MatchingConcat(a: seq<Document>, b: seq<Document>, currentTime: int)
    ensures Matching(a + b, currentTime) == Matching(a, currentTime) + Matching(b, currentTime)
  {
    if a == [] {
      assert a + b == b;
    } else {
      assert (a + b)[1..] == a[1..] + b;
      MatchingConcat(a[1..], b, currentTime);
    }
  }

  /** The bounds of the window: a start exactly one hour ago is excluded, a
      start exactly 24 hours ahead is included, and the end time is irrelevant. */
  lemma WindowBounds(s: ScheduleBase, currentTime: int, otherEnd: int)
    ensures !InWindow(s.(startTime := currentTime - OneHour), currentTime)
    ensures InWindow(s.(startTime := currentTime + TwentyFourHours), currentTime)
    ensures InWindow(s.(endTime := otherEnd), currentTime) == InWindow(s, currentTime)
  {
  }

  /** The n-th result of the query is the (skip + n)-th matching document, so the
      results are the matches in store order after the first `skip` of them. */
  lemma CursorAt(store: seq<Document>, currentTime: int, skip: nat, limit: nat)
    ensures var m := Matching(store, currentTime);
      |Cursor(store, currentTime, skip, limit)| ==
        var rest := if skip <= |m| then |m| - skip else 0;
        if limit == 0 || rest <= limit then rest else limit
    ensures forall k :: 0 <= k < |Cursor(store, currentTime, skip, limit)| ==>
              skip + k < |Matching(store, currentTime)| &&
              Cursor(store, currentTime, skip, limit)[k] == Matching(store, currentTime)[skip + k]
  {
  }

  /** get_schedules_24: iterates over the cursor and renames each document's
      identifier. Every result is a stored document in the window, carrying
      `id == str(_id)`; there are at most `limit` of them when `limit` is
      positive, and the n-th is the (skip + n)-th match. */
  method GetSchedules24(store: seq<Document>, currentTime: int, skip: nat, limit: nat)
    returns (schedules: seq<Schedule>)
    ensures var c := Cursor(store, currentTime, skip, limit);
      |schedules| == |c| && forall k :: 0 <= k < |c| ==> schedules[k] == Rename(c[k])
    ensures forall k :: 0 <= k < |schedules| ==> RenamedFrom(schedules[k], store, currentTime)
    ensures forall k :: 0 <= k < |schedules| ==> InWindow(schedules[k].body, currentTime)
    ensures limit > 0 ==> |schedules| <= limit
  {
    var cursor := Cursor(store, currentTime, skip, limit);
    CursorAt(store, currentTime, skip, limit);
    schedules := [];
    var i := 0;
    while i < |cursor|
      invariant 0 <= i <= |cursor|
      invariant |schedules| == i
      invariant forall k :: 0 <= k < i ==> schedules[k] == Rename(cursor[k])
    {
      var schedule := Rename(cursor[i]);
      schedules := schedules + [schedule];
      i := i + 1;
    }
    forall k | 0 <= k < |schedules|
      ensures RenamedFrom(schedules[k], store, currentTime)
    {
      var m := Matching(store, currentTime);
      assert cursor[k] == m[skip + k] && cursor[k] in m;
      assert cursor[k] in store && schedules[k] == Rename(cursor[k]);
    }
  }
}
