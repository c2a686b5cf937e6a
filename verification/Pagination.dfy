/** Cursor pagination over the completed requests. */
module Pagination {

  datatype Record = Record(id: string, completedAt: int, startedAt: int, state: string, texts: seq<string>)

  datatype Cursor = Start | Cursor(time: int, id: string)

  const UNSET := 0 // the zero time

  datatype Query = Query(limit: nat, state: string, search: string, from: int, to: int)

  datatype Page = Page(items: seq<Record>, hasMore: bool, next: Cursor)

  // ---------------------------------------------------------------- the order

  predicate Less(a: string, b: string) {
    b != [] && (a == [] || a[0] < b[0] || (a[0] == b[0] && Less(a[1..], b[1..])))
  }

  lemma {:induction false} LessTotal(a: string, b: string)
    ensures a == b || Less(a, b) || Less(b, a)
    ensures !(Less(a, b) && Less(b, a)) && !Less(a, a)
  {
    if a != [] && b != [] {
      LessTotal(a[1..], b[1..]);
      if a[0] == b[0] && a[1..] == b[1..] { assert a == [a[0]] + a[1..] == b; }
    }
    if a != [] { LessTotal(a[1..], a[1..]); }
  }

  lemma {:induction false} LessTransitive(a: string, b: string, c: string)
    requires Less(a, b) && Less(b, c)
    ensures Less(a, c)
  {
    if a != [] && a[0] == b[0] == c[0] { LessTransitive(a[1..], b[1..], c[1..]); }
  }

  /** Latest completion first, and the greater identifier first among equals. */
  predicate Above(a: Record, b: Record) {
    a.completedAt > b.completedAt || (a.completedAt == b.completedAt && Less(b.id, a.id))
  }

  lemma {:induction false} AboveTransitive(a: Record, b: Record, c: Record)
    requires Above(a, b) && Above(b, c)
    ensures Above(a, c)
  {
    if a.completedAt == b.completedAt == c.completedAt { LessTransitive(c.id, b.id, a.id); }
  }

  lemma {:induction false} AboveTotal(a: Record, b: Record)
    ensures a.id != b.id ==> Above(a, b) || Above(b, a)
    ensures !(Above(a, b) && Above(b, a)) && !Above(a, a)
  {
    LessTotal(a.id, b.id);
    LessTotal(a.id, a.id);
  }

  predicate Ordered(s: seq<Record>) { forall i, j :: 0 <= i < j < |s| ==> Above(s[i], s[j]) }

  lemma {:induction false} HasMember(t: seq<Record>)
    requires t != []
    ensures exists r :: r in t
  {
    assert t[0] in t;
  }

  /** There is only one way to order a set of records, so it does not matter how it is done. */
  lemma {:induction false} OrderedUnique(s: seq<Record>, t: seq<Record>)
    requires Ordered(s) && Ordered(t) && forall r :: r in s <==> r in t
    ensures s == t
  {
    if s == [] {
      if t != [] { HasMember(t); }
    } else {
      assert s[0] in t && t != [];
      assert t[0] in s;
      FirstsAgree(s, t);
      TailsAgree(s, t);
      OrderedUnique(s[1..], t[1..]);
      assert s == [s[0]] + s[1..] && t == [t[0]] + t[1..];
    }
  }

  lemma {:induction false} FirstsAgree(s: seq<Record>, t: seq<Record>)
    requires Ordered(s) && Ordered(t) && s != [] && t != [] && s[0] in t && t[0] in s
    ensures s[0] == t[0]
  {
    var i :| 0 <= i < |t| && t[i] == s[0];
    var j :| 0 <= j < |s| && s[j] == t[0];
    if i > 0 && j > 0 { AboveTotal(s[0], t[0]); }
  }

  lemma {:induction false} TailsAgree(s: seq<Record>, t: seq<Record>)
    requires Ordered(s) && Ordered(t) && s != [] && t != [] && s[0] == t[0] && forall r :: r in s <==> r in t
    ensures forall r :: r in s[1..] <==> r in t[1..]
  {
    TailMembers(s);
    TailMembers(t);
  }

  lemma {:induction false} TailMembers(s: seq<Record>)
    requires Ordered(s) && s != []
    ensures forall r :: r in s[1..] <==> r in s && r != s[0]
  {
    AboveTotal(s[0], s[0]);
    forall r | r in s[1..] ensures r != s[0] {
      var i :| 0 <= i < |s[1..]| && s[1..][i] == r;
      assert Above(s[0], s[i + 1]);
    }
    assert s == [s[0]] + s[1..];
  }

  predicate UniqueIds(db: seq<Record>) { forall i, j :: 0 <= i < j < |db| ==> db[i].id != db[j].id }

  function Insert(s: seq<Record>, r: Record): seq<Record> {
    if s == [] || Above(r, s[0]) then [r] + s else [s[0]] + Insert(s[1..], r)
  }

  function Sorted(db: seq<Record>): seq<Record> {
    if db == [] then [] else Insert(Sorted(db[..|db| - 1]), db[|db| - 1])
  }

  lemma {:induction false} InsertMembers(s: seq<Record>, r: Record)
    ensures multiset(Insert(s, r)) == multiset(s) + multiset{r}
  {
    if s != [] && !Above(r, s[0]) {
      InsertMembers(s[1..], r);
      assert s == [s[0]] + s[1..];
    }
  }

  lemma {:induction false} InsertOrdered(s: seq<Record>, r: Record)
    requires Ordered(s) && forall i :: 0 <= i < |s| ==> s[i].id != r.id
    ensures Ordered(Insert(s, r))
  {
    if s != [] {
      AboveTotal(r, s[0]);
      if Above(r, s[0]) {
        forall i | 0 < i < |s| ensures Above(r, s[i]) { AboveTransitive(r, s[0], s[i]); }
      } else {
        InsertOrdered(s[1..], r);
        InsertMembers(s[1..], r);
        var rest := Insert(s[1..], r);
        forall i | 0 <= i < |rest| ensures Above(s[0], rest[i]) {
          assert rest[i] in multiset(rest);
          assert rest[i] == r || rest[i] in s[1..];
        }
      }
    }
  }

  lemma {:induction false} SortedMembers(db: seq<Record>)
    ensures multiset(Sorted(db)) == multiset(db)
  {
    if db != [] {
      SortedMembers(db[..|db| - 1]);
      InsertMembers(Sorted(db[..|db| - 1]), db[|db| - 1]);
      assert db == db[..|db| - 1] + [db[|db| - 1]];
    }
  }

  lemma {:induction false} SortedOrdered(db: seq<Record>)
    requires UniqueIds(db)
    ensures Ordered(Sorted(db))
  {
    if db != [] {
      var past, last := db[..|db| - 1], db[|db| - 1];
      SortedOrdered(past);
      SortedMembers(past);
      var s := Sorted(past);
      forall i | 0 <= i < |s| ensures s[i].id != last.id {
        assert s[i] in multiset(s);
        var j :| 0 <= j < |past| && past[j] == s[i];
        assert db[j].id != db[|db| - 1].id;
      }
      InsertOrdered(s, last);
    }
  }

  // ---------------------------------------------------------------- filters

  function Lower(s: string): string {
    seq(|s|, i requires 0 <= i < |s| => if 'A' <= s[i] <= 'Z' then s[i] + ' ' else s[i])
  }

  predicate Contains(s: string, part: string) { part <= s || (s != [] && Contains(s[1..], part)) }

  predicate FoundAt(s: string, part: string, i: nat) { i <= |s| && part <= s[i..] }

  /** A search finds its text anywhere. */
  lemma {:induction false} ContainsIsSubstring(s: string, part: string)
    ensures Contains(s, part) <==> exists i :: FoundAt(s, part, i)
  {
    assert s[0..] == s;
    if part <= s {
      assert FoundAt(s, part, 0);
    } else if s != [] {
      ContainsIsSubstring(s[1..], part);
      forall i: nat ensures FoundAt(s[1..], part, i) <==> FoundAt(s, part, i + 1) {
        if i < |s| { assert s[1..][i..] == s[i + 1..]; }
      }
      if i: nat :| FoundAt(s, part, i) { assert FoundAt(s[1..], part, i - 1); }
    }
  }

  predicate MatchesCursor(r: Record, c: Cursor) {
    c.Start? || r.completedAt < c.time || (r.completedAt == c.time && Less(r.id, c.id))
  }

  predicate MatchesRange(r: Record, q: Query) {
    (q.from == UNSET || r.startedAt >= q.from) && (q.to == UNSET || r.startedAt <= q.to)
  }

  predicate MatchesSearch(r: Record, q: Query) {
    q.search == "" || exists i :: 0 <= i < |r.texts| && Contains(Lower(r.texts[i]), q.search)
  }

  predicate Matches(r: Record, q: Query) {
    MatchesRange(r, q) && (q.state == "" || r.state == q.state) && MatchesSearch(r, q)
  }

  predicate Wanted(r: Record, q: Query, c: Cursor) { MatchesCursor(r, c) && Matches(r, q) }

  function Select(s: seq<Record>, q: Query, c: Cursor): seq<Record> {
    if s == [] then [] else (if Wanted(s[0], q, c) then [s[0]] else []) + Select(s[1..], q, c)
  }

  /** The matching records past the cursor, in order. */
  function Below(db: seq<Record>, q: Query, c: Cursor): seq<Record> { Select(Sorted(db), q, c) }

  lemma {:induction false} SelectMembers(s: seq<Record>, q: Query, c: Cursor)
    ensures forall r :: r in Select(s, q, c) <==> r in s && Wanted(r, q, c)
  {
    if s != [] {
      SelectMembers(s[1..], q, c);
      assert s == [s[0]] + s[1..];
    }
  }

  lemma {:induction false} SelectOrdered(s: seq<Record>, q: Query, c: Cursor)
    requires Ordered(s)
    ensures Ordered(Select(s, q, c))
  {
    if s != [] {
      SelectOrdered(s[1..], q, c);
      SelectMembers(s[1..], q, c);
      var rest := Select(s[1..], q, c);
      forall i | 0 <= i < |rest| ensures Above(s[0], rest[i]) {
        assert rest[i] in rest;
        var j :| 0 <= j < |s[1..]| && s[1..][j] == rest[i];
        assert s[j + 1] == rest[i];
      }
    }
  }

  /** Every matching record past the cursor, exactly once, in order. */
  lemma {:induction false} BelowIsExact(db: seq<Record>, q: Query, c: Cursor)
    requires UniqueIds(db)
    ensures Ordered(Below(db, q, c))
    ensures forall r :: r in Below(db, q, c) <==> r in db && Wanted(r, q, c)
  {
    SortedOrdered(db);
    SortedMembers(db);
    SelectOrdered(Sorted(db), q, c);
    SelectMembers(Sorted(db), q, c);
    forall r ensures r in Sorted(db) <==> r in db {
      assert r in multiset(Sorted(db)) <==> r in multiset(db);
    }
  }

  // ---------------------------------------------------------------- pages

  function CursorOf(r: Record): Cursor { Cursor(r.completedAt, r.id) }

  function PageOf(below: seq<Record>, limit: nat): Page {
    if |below| <= limit then Page(below, false, Start)
    else Page(below[..limit], true, if limit > 0 then CursorOf(below[limit - 1]) else Start)
  }

  /** A cursor the parser takes back. */
  predicate Accepted(c: Cursor) { c.Cursor? && c.time != UNSET && c.id != "" }

  method Sort(db: seq<Record>) returns (s: seq<Record>)
    ensures s == Sorted(db)
  {
    s := [];
    for i := 0 to |db|
      invariant s == Sorted(db[..i])
    {
      assert db[..i + 1][..i] == db[..i];
      s := Insert(s, db[i]);
    }
    assert db[..|db|] == db;
  }

  lemma {:induction false} SelectMore(records: seq<Record>, i: nat, found: seq<Record>, q: Query, c: Cursor)
    requires i < |records| && found + Select(records[i..], q, c) == Select(records, q, c)
    ensures var more := if Wanted(records[i], q, c) then found + [records[i]] else found;
      more + Select(records[i + 1..], q, c) == Select(records, q, c)
  {
    assert records[i..][1..] == records[i + 1..];
  }

  method FindText(texts: seq<string>, search: string) returns (found: bool)
    ensures found <==> exists i :: 0 <= i < |texts| && Contains(Lower(texts[i]), search)
  {
    for i := 0 to |texts|
      invariant forall j :: 0 <= j < i ==> !Contains(Lower(texts[j]), search)
    {
      if Contains(Lower(texts[i]), search) { return true; }
    }
    found := false;
  }

  /** The tests of the loop, in its order. */
  method IsWanted(r: Record, q: Query, c: Cursor) returns (wanted: bool)
    ensures wanted == Wanted(r, q, c)
  {
    if c.Cursor? && !(r.completedAt < c.time || (r.completedAt == c.time && Less(r.id, c.id))) { return false; }
    if q.from != UNSET && r.startedAt < q.from { return false; }
    if q.to != UNSET && r.startedAt > q.to { return false; }
    if q.state != "" && r.state != q.state { return false; }
    if q.search == "" { return true; }
    wanted := FindText(r.texts, q.search);
  }

  /** One record more than a page, if there are as many. */
  method CollectPage(records: seq<Record>, q: Query, c: Cursor) returns (filtered: seq<Record>)
    ensures filtered <= Select(records, q, c)
    ensures |filtered| == if |Select(records, q, c)| <= q.limit then |Select(records, q, c)| else q.limit + 1
  {
    filtered := [];
    var i := 0;
    while i < |records|
      invariant 0 <= i <= |records| && |filtered| <= q.limit
      invariant filtered + Select(records[i..], q, c) == Select(records, q, c)
    {
      SelectMore(records, i, filtered, q, c);
      var wanted := IsWanted(records[i], q, c);
      if wanted {
        filtered := filtered + [records[i]];
        if |filtered| > q.limit { return; }
      }
      i := i + 1;
    }
  }

  method QueryHistory(db: seq<Record>, q: Query, c: Cursor) returns (page: Page)
    ensures page == PageOf(Below(db, q, c), q.limit)
  {
    var records := Sort(db);
    var filtered := CollectPage(records, q, c);
    page := Page(filtered, |filtered| > q.limit, Start);
    if page.hasMore {
      page := page.(items := filtered[..q.limit]);
      if |page.items| > 0 { page := page.(next := CursorOf(page.items[|page.items| - 1])); }
    }
  }

  // ---------------------------------------------------------------- following cursors

  function NextPage(db: seq<Record>, q: Query, c: Cursor): Page { PageOf(Below(db, q, c), q.limit) }

  /** All the items of a session that asks for a page of each of the given states of the
      history, following the cursor as long as there is more. */
  function Collect(dbs: seq<seq<Record>>, q: Query, c: Cursor): seq<Record> {
    if dbs == [] then [] else
      var page := NextPage(dbs[0], q, c);
      page.items + if page.hasMore then Collect(dbs[1..], q, page.next) else []
  }

  /** The session got to a last page. */
  predicate Finished(dbs: seq<seq<Record>>, q: Query, c: Cursor) {
    dbs != [] && (var page := NextPage(dbs[0], q, c);
                  page.hasMore ==> Finished(dbs[1..], q, page.next))
  }

  /** Between two requests records only come or go on the near side of the cursor. */
  predicate SameBelow(db: seq<Record>, later: seq<Record>, c: Cursor) {
    && (forall r :: r in db && MatchesCursor(r, c) ==> r in later)
    && (forall r :: r in later && MatchesCursor(r, c) ==> r in db)
  }

  predicate Steady(dbs: seq<seq<Record>>, q: Query, c: Cursor) {
    dbs == [] || (&& UniqueIds(dbs[0])
                  && var page := NextPage(dbs[0], q, c);
                  page.hasMore && |dbs| > 1 ==> SameBelow(dbs[0], dbs[1], page.next) && Steady(dbs[1..], q, page.next))
  }

  lemma {:induction false} BelowSame(db: seq<Record>, later: seq<Record>, q: Query, c: Cursor)
    requires UniqueIds(db) && UniqueIds(later) && SameBelow(db, later, c)
    ensures Below(db, q, c) == Below(later, q, c)
  {
    BelowIsExact(db, q, c);
    BelowIsExact(later, q, c);
    OrderedUnique(Below(db, q, c), Below(later, q, c));
  }

  lemma {:induction false} CursorIsAbove(last: Record, r: Record)
    ensures MatchesCursor(r, CursorOf(last)) <==> Above(last, r)
  {
  }

  lemma {:induction false} CursorNarrows(last: Record, r: Record, c: Cursor)
    requires MatchesCursor(last, c) && Above(last, r)
    ensures MatchesCursor(r, c)
  {
    if c.Cursor? && r.completedAt == c.time { LessTransitive(r.id, last.id, c.id); }
  }

  /** The cursor of a page resumes exactly after its last item. */
  lemma {:induction false} BelowNext(db: seq<Record>, q: Query, c: Cursor, n: nat)
    requires UniqueIds(db) && 0 < n <= |Below(db, q, c)|
    ensures Below(db, q, CursorOf(Below(db, q, c)[n - 1])) == Below(db, q, c)[n..]
  {
    var below := Below(db, q, c);
    var last := below[n - 1];
    BelowIsExact(db, q, c);
    BelowIsExact(db, q, CursorOf(last));
    forall r ensures r in below[n..] <==> r in Below(db, q, CursorOf(last)) { AfterCursor(db, q, c, n, r); }
    OrderedUnique(below[n..], Below(db, q, CursorOf(last)));
  }

  lemma {:induction false} AfterCursor(db: seq<Record>, q: Query, c: Cursor, n: nat, r: Record)
    requires UniqueIds(db) && 0 < n <= |Below(db, q, c)|
    ensures r in Below(db, q, c)[n..] <==> r in Below(db, q, CursorOf(Below(db, q, c)[n - 1]))
  {
    var below := Below(db, q, c);
    var last := below[n - 1];
    BelowIsExact(db, q, c);
    BelowIsExact(db, q, CursorOf(last));
    CursorIsAbove(last, r);
    if r in below[n..] {
      var i :| 0 <= i < |below[n..]| && below[n..][i] == r;
      assert below[n + i] == r && r in below;
    }
    if r in Below(db, q, CursorOf(last)) {
      assert last in below;
      CursorNarrows(last, r, c);
      var i :| 0 <= i < |below| && below[i] == r;
      AboveTotal(last, r);
      assert i >= n;
      assert below[n..][i - n] == r;
    }
  }

  lemma {:induction false} CollectIsBelow(dbs: seq<seq<Record>>, q: Query, c: Cursor)
    requires q.limit >= 1 && Steady(dbs, q, c) && Finished(dbs, q, c)
    ensures Collect(dbs, q, c) == Below(dbs[0], q, c)
  {
    var page := NextPage(dbs[0], q, c);
    if page.hasMore {
      assert dbs[1..] != [] && dbs[1..][0] == dbs[1];
      PageAndRest(dbs[0], q, c);
      BelowSame(dbs[0], dbs[1], q, page.next);
      CollectIsBelow(dbs[1..], q, page.next);
    }
  }

  lemma {:induction false} PageAndRest(db: seq<Record>, q: Query, c: Cursor)
    requires q.limit >= 1 && UniqueIds(db) && NextPage(db, q, c).hasMore
    ensures var page := NextPage(db, q, c); Below(db, q, c) == page.items + Below(db, q, page.next)
  {
    var below := Below(db, q, c);
    BelowNext(db, q, c, q.limit);
    assert below == below[..q.limit] + below[q.limit..];
  }

  /** Following cursors to the end returns every matching record exactly once and in order,
      whatever is inserted before the cursor in the meantime. */
  lemma {:induction false} PaginationIsComplete(dbs: seq<seq<Record>>, q: Query, c: Cursor)
    requires q.limit >= 1 && Steady(dbs, q, c) && Finished(dbs, q, c)
    ensures Ordered(Collect(dbs, q, c)) && forall r :: r in Collect(dbs, q, c) <==> r in dbs[0] && Wanted(r, q, c)
  {
    BelowIsExact(dbs[0], q, c);
    CollectIsBelow(dbs, q, c);
  }

  /** And the end is reached: each page but the last holds limit items. */
  lemma {:induction false} PaginationEnds(dbs: seq<seq<Record>>, q: Query, c: Cursor)
    requires q.limit >= 1 && Steady(dbs, q, c) && dbs != [] && |dbs| >= |Below(dbs[0], q, c)|
    ensures Finished(dbs, q, c)
  {
    var page := NextPage(dbs[0], q, c);
    if page.hasMore {
      assert dbs[1..][0] == dbs[1];
      BelowNext(dbs[0], q, c, q.limit);
      BelowSame(dbs[0], dbs[1], q, page.next);
      PaginationEnds(dbs[1..], q, page.next);
    }
  }

  /** The cursor of a page is one the next request may present. */
  lemma {:induction false} CursorsAreAccepted(db: seq<Record>, q: Query, c: Cursor)
    requires q.limit >= 1 && UniqueIds(db) && forall r :: r in db ==> r.id != "" && r.completedAt != UNSET
    ensures NextPage(db, q, c).hasMore ==> Accepted(NextPage(db, q, c).next)
  {
    BelowIsExact(db, q, c);
    if NextPage(db, q, c).hasMore { assert Below(db, q, c)[q.limit - 1] in Below(db, q, c); }
  }
}
