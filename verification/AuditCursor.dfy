/** Keyset pagination of audit rows: newest first, ties broken by id. */
module AuditCursor {
  import opened Base

  /** The sort columns of a row; ids are compared as the database compares them. */
  datatype Row = Row(createdAt: int, id: int)

  /** `a` is listed before `b`. */
  predicate Before(a: Row, b: Row) {
    a.createdAt > b.createdAt || (a.createdAt == b.createdAt && a.id > b.id)
  }

  predicate UniqueIds(rows: seq<Row>) {
    forall i, j :: 0 <= i < j < |rows| ==> rows[i].id != rows[j].id
  }

  predicate Listed(rows: seq<Row>) {
    forall i, j :: 0 <= i < j < |rows| ==> Before(rows[i], rows[j])
  }

  function Where(rows: seq<Row>, p: Row -> bool): seq<Row> {
    if rows == [] then [] else (if p(rows[0]) then [rows[0]] else []) + Where(rows[1..], p)
  }

  function Insert(r: Row, rows: seq<Row>): seq<Row> {
    if rows == [] || Before(r, rows[0]) then [r] + rows else [rows[0]] + Insert(r, rows[1..])
  }

  /** ORDER BY created_at DESC, id DESC. */
  function OrderBy(rows: seq<Row>): seq<Row> {
    if rows == [] then [] else Insert(rows[0], OrderBy(rows[1..]))
  }

  function Take(rows: seq<Row>, n: nat): seq<Row> {
    if n < |rows| then rows[..n] else rows
  }

  datatype Page = Page(rows: seq<Row>, nextCursor: Option<int>, hasMore: bool)

  /** The cursor row, looked up by id without the filter. */
  function Find(rows: seq<Row>, id: int): Option<Row> {
    if rows == [] then None else if rows[0].id == id then Some(rows[0]) else Find(rows[1..], id)
  }

  function AfterCursor(rows: seq<Row>, cursor: Option<int>, p: Row -> bool): Row -> bool {
    var at := if cursor.Some? then Find(rows, cursor.value) else None;
    r => p(r) && (at.Some? ==> Before(at.value, r))
  }

  /** The page and its cursor from the rows fetched with LIMIT + 1. */
  function PageOf(rows: seq<Row>, limit: nat): Page {
    var hasMore := |rows| > limit;
    var page := if hasMore then rows[..limit] else rows;
    Page(page, if hasMore && |page| > 0 then Some(page[|page| - 1].id) else None, hasMore)
  }

  function ListAdminActivity(table: seq<Row>, p: Row -> bool, cursor: Option<int>, limit: nat): Page {
    PageOf(Take(OrderBy(Where(table, AfterCursor(table, cursor, p))), limit + 1), limit)
  }

  // ---------------------------------------------------------------- sorting

  lemma {:induction false} WhereMembers(rows: seq<Row>, p: Row -> bool)
    requires UniqueIds(rows)
    ensures UniqueIds(Where(rows, p))
    ensures forall r :: r in Where(rows, p) <==> r in rows && p(r)
  {
    if rows != [] {
      WhereMembers(rows[1..], p);
      forall j | 0 <= j < |Where(rows[1..], p)| ensures Where(rows[1..], p)[j].id != rows[0].id {
        assert Where(rows[1..], p)[j] in rows[1..];
      }
    }
  }

  lemma {:induction false} InsertListed(r: Row, rows: seq<Row>)
    requires Listed(rows) && forall i :: 0 <= i < |rows| ==> rows[i].id != r.id
    ensures Listed(Insert(r, rows))
    ensures forall x :: x in Insert(r, rows) <==> x == r || x in rows
  {
    if rows != [] && !Before(r, rows[0]) {
      InsertListed(r, rows[1..]);
      var s := Insert(r, rows[1..]);
      forall j | 0 <= j < |s| ensures Before(rows[0], s[j]) {
        assert s[j] == r || s[j] in rows[1..];
      }
    }
  }

  lemma {:induction false} OrderByListed(rows: seq<Row>)
    requires UniqueIds(rows)
    ensures Listed(OrderBy(rows))
    ensures forall x :: x in OrderBy(rows) <==> x in rows
  {
    if rows != [] {
      OrderByListed(rows[1..]);
      forall i | 0 <= i < |OrderBy(rows[1..])| ensures OrderBy(rows[1..])[i].id != rows[0].id {
        assert OrderBy(rows[1..])[i] in rows[1..];
      }
      InsertListed(rows[0], OrderBy(rows[1..]));
    }
  }

  /** A listing is determined by its rows. */
  lemma {:induction false} ListingIsUnique(a: seq<Row>, b: seq<Row>)
    requires Listed(a) && Listed(b) && forall x :: x in a <==> x in b
    ensures a == b
  {
    var first := if b == [] then Row(0, 0) else b[0];
    assert b == [] || first in b;
    if a != [] {
      assert a[0] in b;
      assert b[0] in a;
      assert a[0] == b[0];
      forall x ensures x in a[1..] <==> x in b[1..] {
        if x in a[1..] { assert x in b && x != a[0]; }
        if x in b[1..] { assert x in a && x != b[0]; }
      }
      ListingIsUnique(a[1..], b[1..]);
    }
  }

  lemma {:induction false} FindById(rows: seq<Row>, r: Row)
    requires UniqueIds(rows) && r in rows
    ensures Find(rows, r.id) == Some(r)
  {
    if rows[0] != r {
      assert r in rows[1..];
      FindById(rows[1..], r);
    }
  }

  // ---------------------------------------------------------------- pages

  /** Every matching row, in listing order: what a walk should visit. */
  function All(table: seq<Row>, p: Row -> bool): seq<Row> {
    OrderBy(Where(table, p))
  }

  /** The cursor that points behind the first `k` rows of a listing. */
  function CursorAt(all: seq<Row>, k: nat): Option<int>
    requires k <= |all|
  {
    if k == 0 then None else Some(all[k - 1].id)
  }

  /** The page holds the next `limit` rows after the first `k`; its cursor points right behind
      them and is absent exactly when nothing is left. */
  predicate IsPageAt(page: Page, all: seq<Row>, k: nat, limit: nat)
    requires k <= |all|
  {
    var end := if k + limit < |all| then k + limit else |all|;
    && page.rows == all[k..end]
    && (page.hasMore <==> end < |all|)
    && page.nextCursor == if end < |all| then CursorAt(all, end) else None
  }

  lemma SuffixMembers(all: seq<Row>, k: nat, x: Row)
    requires Listed(all) && 0 < k <= |all|
    ensures x in all[k..] <==> x in all && Before(all[k - 1], x)
  {
    if x in all {
      var i :| 0 <= i < |all| && all[i] == x;
      assert i >= k ==> x == all[k..][i - k];
    }
  }

  /** The query at that cursor, before LIMIT, is the rest of the listing. */
  lemma RestAfterCursor(table: seq<Row>, p: Row -> bool, k: nat)
    requires UniqueIds(table) && k <= |All(table, p)|
    ensures OrderBy(Where(table, AfterCursor(table, CursorAt(All(table, p), k), p))) == All(table, p)[k..]
  {
    var all, q := All(table, p), AfterCursor(table, CursorAt(All(table, p), k), p);
    WhereMembers(table, p);
    OrderByListed(Where(table, p));
    WhereMembers(table, q);
    OrderByListed(Where(table, q));
    if k == 0 {
      WhereSame(table, p, q);
      assert all[0..] == all;
    } else {
      assert all[k - 1] in all;
      FindById(table, all[k - 1]);
      forall x ensures x in OrderBy(Where(table, q)) <==> x in all[k..] {
        SuffixMembers(all, k, x);
      }
      ListingIsUnique(OrderBy(Where(table, q)), all[k..]);
    }
  }

  lemma PageOfRest(all: seq<Row>, k: nat, limit: nat)
    requires limit > 0 && k <= |all|
    ensures IsPageAt(PageOf(Take(all[k..], limit + 1), limit), all, k, limit)
  {
    if k + limit < |all| {
      assert Take(all[k..], limit + 1)[..limit] == all[k..k + limit];
    } else {
      assert Take(all[k..], limit + 1) == all[k..|all|];
    }
  }

  lemma PageAt(table: seq<Row>, p: Row -> bool, limit: nat, k: nat)
    requires UniqueIds(table) && limit > 0 && k <= |All(table, p)|
    ensures IsPageAt(ListAdminActivity(table, p, CursorAt(All(table, p), k), limit), All(table, p), k, limit)
  {
    RestAfterCursor(table, p, k);
    PageOfRest(All(table, p), k, limit);
  }

  /** Later rows were created earlier, or at the same time with a smaller id; so no row twice. */
  predicate NewestFirst(rows: seq<Row>) {
    forall i, j :: 0 <= i < j < |rows| ==>
      rows[i].createdAt > rows[j].createdAt || (rows[i].createdAt == rows[j].createdAt && rows[i].id > rows[j].id)
  }

  lemma ListedIsNewestFirst(rows: seq<Row>)
    requires Listed(rows)
    ensures NewestFirst(rows)
  {
  }

  /** Pages obtained by following `nextCursor` from the start. */
  ghost predicate Chain(pages: seq<Page>, query: Option<int> -> Page) {
    && (pages != [] ==> pages[0] == query(None))
    && (forall i :: 0 <= i < |pages| - 1 ==>
          pages[i].nextCursor.Some? && pages[i + 1] == query(pages[i].nextCursor))
  }

  function Visited(pages: seq<Page>): seq<Row> {
    if pages == [] then [] else Visited(pages[..|pages| - 1]) + pages[|pages| - 1].rows
  }

  lemma ChainPrefix(pages: seq<Page>, query: Option<int> -> Page)
    requires Chain(pages, query) && |pages| > 1
    ensures var before := pages[..|pages| - 1];
      && Chain(before, query) && before[|before| - 1].nextCursor.Some?
      && pages[|pages| - 1] == query(before[|before| - 1].nextCursor)
  {
    var before, i := pages[..|pages| - 1], |pages| - 2;
    assert pages[i].nextCursor.Some? && pages[i + 1] == query(pages[i].nextCursor);
    assert forall j :: 0 <= j < |before| ==> before[j] == pages[j];
  }

  /** After any number of pages the walk has visited a prefix of the listing, and the next
      cursor points right behind it. */
  lemma {:induction false} ChainVisits(pages: seq<Page>, query: Option<int> -> Page, all: seq<Row>, limit: nat)
    requires limit > 0 && Chain(pages, query) && pages != []
    requires forall k: nat :: k <= |all| ==> IsPageAt(query(CursorAt(all, k)), all, k, limit)
    ensures var k := |Visited(pages)|;
      && k <= |all| && Visited(pages) == all[..k]
      && (|pages| <= k || k == |all|)
      && pages[|pages| - 1].nextCursor == if k < |all| then CursorAt(all, k) else None
  {
    var before, last := pages[..|pages| - 1], pages[|pages| - 1];
    var k := 0;
    if |pages| == 1 {
      assert Visited(before) == [];
    } else {
      ChainPrefix(pages, query);
      ChainVisits(before, query, all, limit);
      k := |Visited(before)|;
    }
    assert IsPageAt(query(CursorAt(all, k)), all, k, limit);
    assert last == query(CursorAt(all, k));
    assert Visited(pages) == all[..k] + last.rows;
  }

  /** Following the cursor to its end visits every matching row exactly once, in listing order,
      ties in `createdAt` included, whatever the storage order; and it does end: no chain is
      longer than the listing, but for the single page of an empty one. */
  lemma {:induction false} WalkIsComplete(pages: seq<Page>, table: seq<Row>, p: Row -> bool, limit: nat)
    requires UniqueIds(table) && limit > 0 && pages != []
    requires Chain(pages, cursor => ListAdminActivity(table, p, cursor, limit))
    ensures |pages| <= |All(table, p)| || |pages| == 1
    ensures pages[|pages| - 1].nextCursor == None ==> Visited(pages) == All(table, p)
    ensures pages[|pages| - 1].nextCursor == None ==> NewestFirst(Visited(pages))
    ensures pages[|pages| - 1].nextCursor == None ==> forall r :: r in Visited(pages) <==> r in table && p(r)
  {
    var query, all := cursor => ListAdminActivity(table, p, cursor, limit), All(table, p);
    forall k: nat | k <= |all| ensures IsPageAt(query(CursorAt(all, k)), all, k, limit) {
      PageAt(table, p, limit, k);
    }
    ChainVisits(pages, query, all, limit);
    if |pages| > 1 {
      ChainPrefix(pages, query);
      ChainVisits(pages[..|pages| - 1], query, all, limit);
    }
    WhereMembers(table, p);
    OrderByListed(Where(table, p));
    ListedIsNewestFirst(all);
  }

  /** The walk depends on the cursor row still being there: for an id that is not in the table
      the query starts over. */
  lemma MissingCursorRestarts(table: seq<Row>, p: Row -> bool, id: int, limit: nat)
    requires forall i :: 0 <= i < |table| ==> table[i].id != id
    ensures ListAdminActivity(table, p, Some(id), limit) == ListAdminActivity(table, p, None, limit)
  {
    NotFound(table, id);
    WhereSame(table, AfterCursor(table, Some(id), p), AfterCursor(table, None, p));
  }

  lemma {:induction false} NotFound(rows: seq<Row>, id: int)
    requires forall i :: 0 <= i < |rows| ==> rows[i].id != id
    ensures Find(rows, id) == None
  {
    if rows != [] {
      NotFound(rows[1..], id);
    }
  }

  lemma {:induction false} WhereSame(rows: seq<Row>, p: Row -> bool, q: Row -> bool)
    requires forall r: Row :: p(r) <==> q(r)
    ensures Where(rows, p) == Where(rows, q)
  {
    if rows != [] {
      WhereSame(rows[1..], p, q);
    }
  }
}
