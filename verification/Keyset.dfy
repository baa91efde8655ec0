/** The audit read path: keyset pages in descending (time, id) order, and walks over them. */
module Keyset {
  import opened Values
  import opened AuditStore

  const MAX_PAGE_SIZE := 200

  /** An unset field is no constraint. */
  datatype Filter = Filter(from: Time, to: Time, kind: string, entityType: string, entityId: string, trace: string)

  predicate Matches(f: Filter, e: Event) {
    && (f.from == UNSET || e.time >= f.from)
    && (f.to == UNSET || e.time < f.to)
    && (f.kind == "" || e.kind == f.kind)
    && (f.entityType == "" || e.entityType == f.entityType)
    && (f.entityId == "" || e.entityId == f.entityId)
    && (f.trace == "" || e.trace == f.trace)
  }

  /** A place in the log. A cursor whose time is unset is no cursor. */
  datatype Cursor = Cursor(time: Time, id: Id)

  const TOP := Cursor(UNSET, NIL)

  predicate Below(e: Event, c: Cursor) {
    c.time == UNSET || e.time < c.time || (e.time == c.time && e.id < c.id)
  }

  predicate Selects(f: Filter, c: Cursor, e: Event) {
    Matches(f, e) && Below(e, c)
  }

  /** The order of the pages. */
  predicate Before(a: Event, b: Event) {
    b.time < a.time || (b.time == a.time && b.id < a.id)
  }

  ghost predicate Descending(s: seq<Event>) {
    forall i, j :: 0 <= i < j < |s| ==> Before(s[i], s[j])
  }

  // ---- The query -----------------------------------------------------------------------------

  function Place(s: seq<Event>, e: Event): seq<Event> {
    if s == [] then [e]
    else if Before(e, s[0]) then [e] + s
    else [s[0]] + Place(s[1..], e)
  }

  /** WHERE and ORDER BY. */
  function Ordered(rows: seq<Event>, f: Filter, c: Cursor): seq<Event> {
    if rows == [] then []
    else
      var n := |rows| - 1;
      var rest := Ordered(rows[..n], f, c);
      if Selects(f, c, rows[n]) then Place(rest, rows[n]) else rest
  }

  /** LIMIT. */
  function Page(rows: seq<Event>, f: Filter, c: Cursor, limit: nat): seq<Event> {
    var all := Ordered(rows, f, c);
    if |all| <= limit then all else all[..limit]
  }

  lemma {:induction false} PlaceMembers(s: seq<Event>, e: Event, x: Event)
    ensures x in Place(s, e) <==> x in s || x == e
    decreases |s|
  {
    if s != [] && !Before(e, s[0]) {
      PlaceMembers(s[1..], e, x);
      assert s == [s[0]] + s[1..];
    }
  }

  lemma {:induction false} PlaceDescends(s: seq<Event>, e: Event)
    requires Descending(s) && forall i :: 0 <= i < |s| ==> !SameKey(s[i], e)
    ensures Descending(Place(s, e))
    decreases |s|
  {
    if s != [] && !Before(e, s[0]) {
      var tail := Place(s[1..], e);
      PlaceDescends(s[1..], e);
      forall j | 0 <= j < |tail| ensures Before(s[0], tail[j]) {
        PlaceMembers(s[1..], e, tail[j]);
      }
    }
  }

  /** The query returns exactly the rows it selects, in strictly descending order. */
  lemma {:induction false} OrderedSpec(rows: seq<Event>, f: Filter, c: Cursor)
    requires UniqueKeys(rows)
    ensures Descending(Ordered(rows, f, c))
    ensures forall e :: e in Ordered(rows, f, c) <==> e in rows && Selects(f, c, e)
    decreases |rows|
  {
    if rows != [] {
      var n := |rows| - 1;
      var rest := Ordered(rows[..n], f, c);
      OrderedSpec(rows[..n], f, c);
      forall i | 0 <= i < |rest| ensures !SameKey(rest[i], rows[n]) {
        assert rest[i] in rows[..n];
      }
      PlaceDescends(rest, rows[n]);
      forall e ensures e in Ordered(rows, f, c) <==> e in rows && Selects(f, c, e) {
        PlaceMembers(rest, rows[n], e);
        assert rows == rows[..n] + [rows[n]];
      }
    }
  }

  lemma SplitMembers(s: seq<Event>, n: nat, e: Event)
    requires n <= |s|
    ensures e in s <==> e in s[..n] || e in s[n..]
  {
    assert s == s[..n] + s[n..];
  }

  /** A page is the first rows the query selects, as many as the limit allows: what it leaves out comes
      after all of it, and it leaves something out only when it is full. */
  lemma PageSpec(rows: seq<Event>, f: Filter, c: Cursor, limit: nat)
    requires UniqueKeys(rows)
    ensures var page := Page(rows, f, c, limit);
            && Descending(page) && |page| <= limit
            && (forall e :: e in page ==> e in rows && Selects(f, c, e))
            && forall e :: e in rows && Selects(f, c, e) && e !in page ==>
                 |page| == limit && forall i :: 0 <= i < |page| ==> Before(page[i], e)
  {
    var all, page := Ordered(rows, f, c), Page(rows, f, c, limit);
    OrderedSpec(rows, f, c);
    forall e | e in rows && Selects(f, c, e) && e !in page
      ensures |page| == limit && forall i :: 0 <= i < |page| ==> Before(page[i], e)
    {
      SplitMembers(all, |page|, e);
      var k :| 0 <= k < |all[|page|..]| && all[|page|..][k] == e;
      assert all[|page| + k] == e;
    }
    forall e | e in page ensures e in rows && Selects(f, c, e) {
      var i :| 0 <= i < |page| && page[i] == e;
      assert all[i] == e;
    }
  }

  // ---- The server ----------------------------------------------------------------------------

  /** The textual form of identifiers. */
  datatype Ids = Ids(parse: string -> Option<Id>, format: Id -> string) {
    ghost predicate Valid() {
      forall id: Id :: parse(format(id)) == Some(id) && format(id) != ""
    }
  }

  datatype Request = Request(filter: Filter, size: int, cursorTime: Option<Time>, cursorId: string)

  datatype Response = Response(events: seq<Event>, nextTime: Option<Time>, nextId: string)

  function LimitOf(size: int): (n: nat)
    ensures 1 <= n <= MAX_PAGE_SIZE
    ensures 1 <= size <= MAX_PAGE_SIZE ==> n == size
  {
    if size <= 0 || size > MAX_PAGE_SIZE then 50 else size
  }

  /** The cursor of a request: both halves must be there, and the identifier must parse. */
  function CursorOf(ids: Ids, time: Option<Time>, id: string): Result<Cursor> {
    if time == None || id == "" then Ok(TOP)
    else match ids.parse(id)
      case None => Err(InvalidInput)
      case Some(i) => Ok(Cursor(time.value, i))
  }

  function At(e: Event): Cursor {
    Cursor(e.time, e.id)
  }

  /** The page of a query; a size out of range is replaced. */
  method Query(rows: seq<Event>, f: Filter, c: Cursor, size: int) returns (events: seq<Event>)
    ensures events == Page(rows, f, c, LimitOf(size))
  {
    var limit := size;
    if limit <= 0 || limit > MAX_PAGE_SIZE {
      limit := 50;
    }
    events := Page(rows, f, c, limit);
  }

  /** What a request asks for, field by field: an unset field is no constraint, and neither is a cursor with a part
      missing. */
  ghost predicate Wanted(ids: Ids, req: Request, e: Event) {
    && (req.filter.from == 0 || req.filter.from <= e.time)
    && (req.filter.to == 0 || e.time < req.filter.to)
    && (req.filter.kind == "" || req.filter.kind == e.kind)
    && (req.filter.entityType == "" || req.filter.entityType == e.entityType)
    && (req.filter.entityId == "" || req.filter.entityId == e.entityId)
    && (req.filter.trace == "" || req.filter.trace == e.trace)
    && (req.cursorTime.Some? && req.cursorTime.value != 0 && req.cursorId != "" && ids.parse(req.cursorId).Some? ==>
          || e.time < req.cursorTime.value
          || (e.time == req.cursorTime.value && e.id < ids.parse(req.cursorId).value))
  }

  /** What a response contains: wanted rows only, the latest first and the larger identifier first among equals; at most
      as many as were asked for, or 50 if that is not from 1 to 200; and no wanted row is missing unless the response is
      full and the row comes later. */
  ghost predicate Answers(ids: Ids, rows: seq<Event>, req: Request, events: seq<Event>) {
    var limit := if 1 <= req.size <= 200 then req.size else 50;
    && |events| <= limit
    && (forall i :: 0 <= i < |events| ==> events[i] in rows && Wanted(ids, req, events[i]))
    && (forall i, j :: 0 <= i < j < |events| ==>
          events[j].time < events[i].time || (events[j].time == events[i].time && events[j].id < events[i].id))
    && (forall e :: e in rows && Wanted(ids, req, e) && e !in events ==>
          && |events| == limit
          && forall i :: 0 <= i < |events| ==> e.time < events[i].time || (e.time == events[i].time && e.id < events[i].id))
  }

  lemma WantedMeans(ids: Ids, req: Request, e: Event)
    requires CursorOf(ids, req.cursorTime, req.cursorId).Ok?
    ensures Wanted(ids, req, e) <==> Selects(req.filter, CursorOf(ids, req.cursorTime, req.cursorId).value, e)
  {
  }

  lemma PageAnswers(ids: Ids, rows: seq<Event>, req: Request)
    requires CursorOf(ids, req.cursorTime, req.cursorId).Ok?
    ensures UniqueKeys(rows) ==>
              Answers(ids, rows, req,
                      Page(rows, req.filter, CursorOf(ids, req.cursorTime, req.cursorId).value, LimitOf(req.size)))
  {
    var c := CursorOf(ids, req.cursorTime, req.cursorId).value;
    if UniqueKeys(rows) { PageAnswersAt(ids, rows, req, c); }
  }

  lemma PageAnswersAt(ids: Ids, rows: seq<Event>, req: Request, c: Cursor)
    requires UniqueKeys(rows) && CursorOf(ids, req.cursorTime, req.cursorId) == Ok(c)
    ensures Answers(ids, rows, req, Page(rows, req.filter, c, LimitOf(req.size)))
  {
    var page := Page(rows, req.filter, c, LimitOf(req.size));
    PageSpec(rows, req.filter, c, LimitOf(req.size));
    forall i | 0 <= i < |page| ensures page[i] in rows && Wanted(ids, req, page[i]) {
      assert page[i] in page;
      WantedMeans(ids, req, page[i]);
    }
    forall e | e in rows && Wanted(ids, req, e) && e !in page
      ensures |page| == LimitOf(req.size) && forall i :: 0 <= i < |page| ==> Before(page[i], e)
    {
      WantedMeans(ids, req, e);
    }
  }

  /** Answers a query; the cursor it returns, sent back, continues behind the last event. */
  method QueryEvents(ids: Ids, rows: seq<Event>, req: Request) returns (r: Result<Response>)
    requires ids.Valid()
    ensures r.Err? <==> req.cursorTime.Some? && req.cursorId != "" && ids.parse(req.cursorId) == None
    ensures r.Err? ==> r.error == InvalidInput
    ensures r.Ok? && UniqueKeys(rows) ==> Answers(ids, rows, req, r.value.events)
    ensures r.Err? <==> CursorOf(ids, req.cursorTime, req.cursorId).Err?
    ensures r.Ok? ==>
              var c := CursorOf(ids, req.cursorTime, req.cursorId).value;
              r.value.events == Page(rows, req.filter, c, LimitOf(req.size))
    ensures r.Ok? && r.value.events != [] ==>
              CursorOf(ids, r.value.nextTime, r.value.nextId) == Ok(At(r.value.events[|r.value.events| - 1]))
    ensures r.Ok? && r.value.events == [] ==> r.value.nextTime == None && r.value.nextId == ""
  {
    var c := TOP;
    if req.cursorTime != None && req.cursorId != "" {
      var parsed := ids.parse(req.cursorId);
      if parsed == None {
        return Err(InvalidInput);
      }
      c := Cursor(req.cursorTime.value, parsed.value);
    }
    PageAnswers(ids, rows, req);
    var events := Query(rows, req.filter, c, req.size);
    var resp := Response([], None, "");
    for i := 0 to |events|
      invariant resp == Response(events[..i], None, "")
    {
      resp := resp.(events := resp.events + [events[i]]);
    }
    assert events[..|events|] == events;
    if |events| > 0 {
      var last := events[|events| - 1];
      resp := resp.(nextTime := Some(last.time), nextId := ids.format(last.id));
    }
    return Ok(resp);
  }

  // ---- Walks ---------------------------------------------------------------------------------

  /** One request of a walk: the table it finds and the page size it asks for. */
  datatype Fetch = Fetch(rows: seq<Event>, size: int)

  function FetchPage(fetch: Fetch, f: Filter, c: Cursor): seq<Event> {
    Page(fetch.rows, f, c, LimitOf(fetch.size))
  }

  /** What a client sees that follows the returned cursors until a page is empty. */
  function Walk(fetches: seq<Fetch>, f: Filter, c: Cursor): seq<Event>
    decreases |fetches|
  {
    if fetches == [] then []
    else
      var page := FetchPage(fetches[0], f, c);
      if page == [] then [] else page + Walk(fetches[1..], f, At(page[|page| - 1]))
  }

  /** The walk has come to an empty page. */
  predicate Ends(fetches: seq<Fetch>, f: Filter, c: Cursor)
    decreases |fetches|
  {
    && fetches != []
    && var page := FetchPage(fetches[0], f, c);
       page == [] || Ends(fetches[1..], f, At(page[|page| - 1]))
  }

  /** Rows are only added while the walk goes on. */
  ghost predicate Growing(fetches: seq<Fetch>) {
    forall i :: 0 < i < |fetches| ==> fetches[i - 1].rows <= fetches[i].rows
  }

  /** Tables whose keys are unique and whose matching rows have a time. */
  ghost predicate Timed(rows: seq<Event>, f: Filter) {
    UniqueKeys(rows) && forall e :: e in rows && Matches(f, e) ==> e.time != UNSET
  }

  ghost predicate AllTimed(fetches: seq<Fetch>, f: Filter) {
    forall i :: 0 <= i < |fetches| ==> Timed(fetches[i].rows, f)
  }

  /** What lies behind a row in the order is below its cursor. */
  lemma BehindIsBelow(e: Event, last: Event)
    requires last.time != UNSET
    ensures Below(e, At(last)) <==> Before(last, e)
  {
  }

  /** Whatever is stored meanwhile, a walk goes strictly down, so it repeats no row; and it shows
      matching rows below its cursor only. */
  lemma {:induction false} WalkDescends(fetches: seq<Fetch>, f: Filter, c: Cursor)
    requires AllTimed(fetches, f)
    ensures Descending(Walk(fetches, f, c))
    ensures forall i :: 0 <= i < |Walk(fetches, f, c)| ==> Selects(f, c, Walk(fetches, f, c)[i])
    decreases |fetches|
  {
    if fetches != [] {
      var page := FetchPage(fetches[0], f, c);
      PageSpec(fetches[0].rows, f, c, LimitOf(fetches[0].size));
      if page != [] {
        var last := page[|page| - 1];
        var rest := Walk(fetches[1..], f, At(last));
        assert last in page;
        WalkDescends(fetches[1..], f, At(last));
        forall i | 0 <= i < |rest| ensures Before(last, rest[i]) && Selects(f, c, rest[i]) {
          BehindIsBelow(rest[i], last);
        }
        forall i | 0 <= i < |page| ensures Selects(f, c, page[i]) { assert page[i] in page; }
      }
    }
  }

  /** A walk that has come to an empty page has shown every matching row that was there when it began,
      although rows were added meanwhile. */
  lemma {:induction false} WalkMissesNothing(fetches: seq<Fetch>, f: Filter, c: Cursor, e: Event)
    requires AllTimed(fetches, f) && Growing(fetches) && Ends(fetches, f, c)
    requires e in fetches[0].rows && Selects(f, c, e)
    ensures e in Walk(fetches, f, c)
    decreases |fetches|
  {
    var page := FetchPage(fetches[0], f, c);
    PageSpec(fetches[0].rows, f, c, LimitOf(fetches[0].size));
    if e !in page {
      var last := page[|page| - 1];
      assert last in page;
      BehindIsBelow(e, last);
      assert fetches[0].rows <= fetches[1].rows;
      var i :| 0 <= i < |fetches[0].rows| && fetches[0].rows[i] == e;
      assert fetches[1].rows[i] == e;
      WalkMissesNothing(fetches[1..], f, At(last), e);
    }
  }

  /** What a walk shows was stored. */
  lemma {:induction false} WalkShowsRows(fetches: seq<Fetch>, f: Filter, c: Cursor, e: Event)
    requires AllTimed(fetches, f) && Growing(fetches)
    requires e in Walk(fetches, f, c)
    ensures e in fetches[|fetches| - 1].rows
    decreases |fetches|
  {
    var page := FetchPage(fetches[0], f, c);
    PageSpec(fetches[0].rows, f, c, LimitOf(fetches[0].size));
    if e in page {
      RowsStay(fetches, |fetches| - 1, e);
    } else {
      WalkShowsRows(fetches[1..], f, At(page[|page| - 1]), e);
    }
  }

  lemma {:induction false} RowsStay(fetches: seq<Fetch>, k: nat, e: Event)
    requires Growing(fetches) && k < |fetches| && e in fetches[0].rows
    ensures e in fetches[k].rows
    decreases k
  {
    if k > 0 {
      RowsStay(fetches, k - 1, e);
      var i :| 0 <= i < |fetches[k - 1].rows| && fetches[k - 1].rows[i] == e;
      assert fetches[k - 1].rows <= fetches[k].rows;
      assert fetches[k].rows[i] == e;
    }
  }

  // ---- A table that does not change ----------------------------------------------------------

  function Repeat(rows: seq<Event>, size: int, n: nat): seq<Fetch> {
    seq(n, _ => Fetch(rows, size))
  }

  lemma {:induction false} SameMembers(a: seq<Event>, b: seq<Event>)
    requires Descending(a) && Descending(b)
    requires forall e :: e in a <==> e in b
    ensures a == b
    decreases |a|
  {
    HeadIsIn(a);
    HeadIsIn(b);
    if a != [] {
      assert a[0] == b[0];
      forall e ensures e in a[1..] <==> e in b[1..] {
        TailMembers(a, e);
        TailMembers(b, e);
      }
      SameMembers(a[1..], b[1..]);
      assert a == [a[0]] + a[1..] && b == [b[0]] + b[1..];
    }
  }

  lemma HeadIsIn(s: seq<Event>)
    ensures s != [] ==> s[0] in s
  {
  }

  lemma TailMembers(s: seq<Event>, e: Event)
    requires Descending(s) && s != []
    ensures e in s[1..] <==> e in s && e != s[0]
  {
    assert s == [s[0]] + s[1..];
  }

  /** After a page, the query selects what the page left out. */
  lemma RestAfterPage(rows: seq<Event>, f: Filter, c: Cursor, limit: nat)
    requires Timed(rows, f) && Page(rows, f, c, limit) != []
    ensures var page := Page(rows, f, c, limit);
            Ordered(rows, f, c) == page + Ordered(rows, f, At(page[|page| - 1]))
  {
    var all, page := Ordered(rows, f, c), Page(rows, f, c, limit);
    var last := page[|page| - 1];
    var rest := Ordered(rows, f, At(last));
    OrderedSpec(rows, f, c);
    OrderedSpec(rows, f, At(last));
    assert last == all[|page| - 1];
    var left := all[|page|..];
    assert all == page + left;
    assert last in all;
    forall e ensures e in left <==> e in rest {
      BehindIsBelow(e, last);
      BehindMembers(all, |page|, e);
    }
    SameMembers(left, rest);
  }

  lemma BehindMembers(all: seq<Event>, n: nat, e: Event)
    requires Descending(all) && 0 < n <= |all|
    ensures e in all[n..] <==> e in all && Before(all[n - 1], e)
  {
    SplitMembers(all, n, e);
    if e in all[n..] {
      var k :| 0 <= k < |all[n..]| && all[n..][k] == e;
      assert all[n + k] == e;
    } else if e in all {
      var i :| 0 <= i < n && all[i] == e;
    }
  }

  /** On a table that does not change, a walk with enough requests ends, and shows every matching row
      exactly once, in descending order. */
  lemma {:induction false} WalkExact(rows: seq<Event>, f: Filter, c: Cursor, size: int, n: nat)
    requires Timed(rows, f) && n > |Ordered(rows, f, c)|
    ensures Ends(Repeat(rows, size, n), f, c)
    ensures Walk(Repeat(rows, size, n), f, c) == Ordered(rows, f, c)
    decreases n
  {
    var page := Page(rows, f, c, LimitOf(size));
    assert Repeat(rows, size, n)[1..] == Repeat(rows, size, n - 1);
    if page != [] {
      RestAfterPage(rows, f, c, LimitOf(size));
      WalkExact(rows, f, At(page[|page| - 1]), size, n - 1);
    }
  }

  // ---- When walks end ------------------------------------------------------------------------

  /** A walk from the top with this page size comes to an empty page. */
  ghost predicate WalkEnds(rows: seq<Event>, f: Filter, size: int) {
    exists n: nat :: Ends(Repeat(rows, size, n), f, TOP)
  }

  ghost predicate WalksEnd(rows: seq<Event>, f: Filter) {
    forall size :: WalkEnds(rows, f, size)
  }

  /** A matching row without a time makes the walk with pages of one row start over again. */
  lemma {:induction false} StartsOver(rows: seq<Event>, f: Filter, c: Cursor, z: Event, n: nat)
    requires UniqueKeys(rows) && z in rows && Matches(f, z) && z.time == UNSET
    requires c.time >= UNSET
    ensures !Ends(Repeat(rows, 1, n), f, c)
    decreases n
  {
    if n > 0 {
      assert Repeat(rows, 1, n)[1..] == Repeat(rows, 1, n - 1);
      PageSpec(rows, f, c, 1);
      var page := Page(rows, f, c, 1);
      assert page != [] by {
        assert Selects(f, c, z);
        OrderedSpec(rows, f, c);
      }
      assert page[0] == z || Before(page[0], z);
      StartsOver(rows, f, At(page[0]), z, n - 1);
    }
  }

  /** Walks end exactly when no matching row has the unset time. */
  lemma WalksEndExactly(rows: seq<Event>, f: Filter)
    requires UniqueKeys(rows)
    ensures WalksEnd(rows, f) <==> forall e :: e in rows && Matches(f, e) ==> e.time != UNSET
  {
    if forall e :: e in rows && Matches(f, e) ==> e.time != UNSET {
      forall size ensures WalkEnds(rows, f, size) {
        WalkExact(rows, f, TOP, size, |Ordered(rows, f, TOP)| + 1);
      }
    } else {
      var z :| z in rows && Matches(f, z) && z.time == UNSET;
      forall n: nat ensures !Ends(Repeat(rows, 1, n), f, TOP) {
        StartsOver(rows, f, TOP, z, n);
      }
      assert !WalkEnds(rows, f, 1);
    }
  }
}
