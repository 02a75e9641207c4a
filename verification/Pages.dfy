/**
  Listing transactions page by page (internal/transaction/query.go,
  internal/postgres/query.go): newest first, by (created_at, id), with a cursor that
  names the last row of the page before.
 */
module Pages {
  import opened Domain
  import opened Ordering
  import opened Invariants

  datatype Item = Item(tx: Transaction, createdAt: int)

  type Table = map<Id, Item>

  datatype Filter = Filter(account: Id, status: Option<TxStatus>, kind: Option<TxKind>)

  /** A page: the rows it shows, and the cursor of the next one if there is one. */
  datatype Page = Page(items: seq<Stamp>, next: Option<Stamp>)

  predicate Matches(filter: Filter, item: Item) {
    && item.tx.account == filter.account
    && (filter.status.Some? ==> item.tx.status == filter.status.value)
    && (filter.kind.Some? ==> item.tx.kind == filter.kind.value)
  }

  predicate Precedes(a: Stamp, cursor: Option<Stamp>) {
    cursor.Some? ==> Before(a, cursor.value)
  }

  /** The rows a query selects, each named by what it is ordered by. */
  function Rows(table: Table, filter: Filter, cursor: Option<Stamp>): set<Stamp> {
    set t | t in table && Matches(filter, table[t]) && Precedes(Stamp(table[t].createdAt, t), cursor) :: Stamp(table[t].createdAt, t)
  }

  // ----- newest first -----

  predicate IsLatest(s: set<Stamp>, m: Stamp) {
    m in s && forall x :: x in s && x != m ==> Before(x, m)
  }

  lemma {:induction false} LatestExists(s: set<Stamp>)
    requires s != {}
    ensures exists m :: IsLatest(s, m)
  {
    var x :| x in s;
    if s == {x} {
      assert IsLatest(s, x);
    } else {
      LatestExists(s - {x});
      var y :| IsLatest(s - {x}, y);
      BeforeTotal(x, y);
      if Before(x, y) {
        assert IsLatest(s, y);
      } else {
        forall z | z in s && z != x ensures Before(z, x) {
          if z != y {
            BeforeTransitive(z, y, x);
          }
        }
        assert IsLatest(s, x);
      }
    }
  }

  ghost function Latest(s: set<Stamp>): (m: Stamp)
    requires s != {}
    ensures IsLatest(s, m)
  {
    LatestExists(s);
    var m :| IsLatest(s, m);
    m
  }

  lemma LatestUnique(s: set<Stamp>, a: Stamp, b: Stamp)
    requires IsLatest(s, a) && IsLatest(s, b)
    ensures a == b
  {
    BeforeTotal(a, b);
  }

  /** The newest row first; rows of the same moment go by id, the highest first. */
  ghost function Descending(s: set<Stamp>): (r: seq<Stamp>)
    ensures |r| == |s|
  {
    if s == {} then [] else [Latest(s)] + Descending(s - {Latest(s)})
  }

  predicate StrictlyFalling(r: seq<Stamp>) {
    forall i, j :: 0 <= i < j < |r| ==> Before(r[j], r[i])
  }

  /** The sorted listing holds exactly the set, each member once. */
  lemma {:induction false} DescendingSorts(s: set<Stamp>)
    ensures StrictlyFalling(Descending(s)) && (forall x :: x in Descending(s) <==> x in s)
  {
    if s != {} {
      DescendingSorts(s - {Latest(s)});
    }
  }

  // ----- one page -----

  function Take(r: seq<Stamp>, n: nat): seq<Stamp> {
    if |r| <= n then r else r[..n]
  }

  /** The page that a query with this cursor shows. */
  ghost function PageOf(table: Table, filter: Filter, cursor: Option<Stamp>, limit: nat): Page
    requires limit > 0
  {
    var rows := Descending(Rows(table, filter, cursor));
    if |rows| <= limit then Page(rows, None) else Page(rows[..limit], Some(rows[limit - 1]))
  }

  /** The store's query: the newest `limit + 1` rows before the cursor. */
  method ListTransactions(table: Table, filter: Filter, cursor: Option<Stamp>, limit: nat) returns (items: seq<Stamp>)
    ensures items == Take(Descending(Rows(table, filter, cursor)), limit + 1)
  {
    var rows := Rows(table, filter, cursor);
    items := [];
    ghost var all := Descending(rows);
    while rows != {} && |items| < limit + 1
      invariant |items| <= limit + 1
      invariant all == items + Descending(rows)
      decreases |rows|
    {
      LatestExists(rows);
      var m :| m in rows && IsLatest(rows, m);
      LatestUnique(rows, m, Latest(rows));
      items, rows := items + [m], rows - {m};
      assert all == items + Descending(rows);
    }
    assert |all| == |items| + |rows|;
  }

  /** The zero time, in the units of created_at. */
  const ZERO_TIME := -62_135_596_800_000_000

  /** What decodeCursor accepts: a cursor made from a row. */
  predicate ValidCursor(cursor: Stamp) {
    cursor.at != ZERO_TIME && SafeToken(cursor.id)
  }

  /** QueryService.List: checks the request, asks for one row more than it shows, and cuts. */
  method List(table: Table, filter: Filter, cursor: Option<Stamp>, limit: int) returns (page: Option<Page>)
    ensures page.None? <==> !SafeToken(filter.account) || limit < 0 || limit > 100 || (cursor.Some? && !ValidCursor(cursor.value))
    ensures page.Some? ==> page.value == PageOf(table, filter, cursor, if limit == 0 then 25 else limit)
  {
    var n := if limit == 0 then 25 else limit;
    if !SafeToken(filter.account) || n < 1 || n > 100 {
      return None;
    }
    if cursor.Some? && !ValidCursor(cursor.value) {
      return None;
    }
    var items := ListTransactions(table, filter, cursor, n);
    if |items| > n {
      items := items[..n];
      return Some(Page(items, Some(items[|items| - 1])));
    }
    return Some(Page(items, None));
  }

  // ----- a walk through the pages, while the table grows -----

  /** A later snapshot: rows stay, with their owner, kind and time of creation; statuses may move. */
  ghost predicate Extends(a: Table, b: Table) {
    forall t :: t in a ==> t in b && b[t].createdAt == a[t].createdAt && SameIdentity(a[t].tx, b[t].tx)
  }

  ghost predicate Growing(tables: seq<Table>) {
    forall i, j :: 0 <= i <= j < |tables| ==> Extends(tables[i], tables[j])
  }

  /** The rows shown by following cursors, one snapshot per request, until a page has no cursor. */
  ghost function Walk(tables: seq<Table>, filter: Filter, cursor: Option<Stamp>, limit: nat): seq<Stamp>
    requires limit > 0
  {
    if tables == [] then []
    else
      var page := PageOf(tables[0], filter, cursor, limit);
      if page.next.None? then page.items else page.items + Walk(tables[1..], filter, page.next, limit)
  }

  /** The walk reached a page without a cursor. */
  ghost predicate Complete(tables: seq<Table>, filter: Filter, cursor: Option<Stamp>, limit: nat)
    requires limit > 0
  {
    tables != [] &&
    var page := PageOf(tables[0], filter, cursor, limit);
    page.next.Some? ==> Complete(tables[1..], filter, page.next, limit)
  }

  /** A page shows rows before the cursor, newest first, and leaves only older ones. */
  lemma PageShape(table: Table, filter: Filter, cursor: Option<Stamp>, limit: nat)
    requires limit > 0
    ensures var page := PageOf(table, filter, cursor, limit);
            && StrictlyFalling(page.items) && |page.items| <= limit
            && (forall x :: x in page.items ==> x in Rows(table, filter, cursor))
            && (page.next.None? ==> forall x :: x in Rows(table, filter, cursor) ==> x in page.items)
            && (page.next.Some? ==>
                  && |page.items| == limit && page.next.value == page.items[limit - 1]
                  && forall x :: x in Rows(table, filter, cursor) && x !in page.items ==> Before(x, page.next.value))
  {
    var rows := Descending(Rows(table, filter, cursor));
    DescendingSorts(Rows(table, filter, cursor));
    var page := PageOf(table, filter, cursor, limit);
    forall x | x in Rows(table, filter, cursor) && x !in page.items
      ensures page.next.Some? && Before(x, page.next.value)
    {
      assert forall k :: 0 <= k < |page.items| ==> rows[k] == page.items[k];
      var i :| 0 <= i < |rows| && rows[i] == x;
    }
  }

  /** The cursor of a page is accepted by the next request, if rows have real ids and times. */
  lemma CursorIsAccepted(table: Table, filter: Filter, cursor: Option<Stamp>, limit: nat)
    requires limit > 0 && forall t :: t in table ==> ValidCursor(Stamp(table[t].createdAt, t))
    ensures PageOf(table, filter, cursor, limit).next.Some? ==> ValidCursor(PageOf(table, filter, cursor, limit).next.value)
  {
    PageShape(table, filter, cursor, limit);
    var page := PageOf(table, filter, cursor, limit);
    if page.next.Some? {
      assert page.next.value in page.items;
    }
  }

  lemma {:induction false} WalkFalls(tables: seq<Table>, filter: Filter, cursor: Option<Stamp>, limit: nat)
    requires limit > 0
    ensures StrictlyFalling(Walk(tables, filter, cursor, limit))
    ensures forall x :: x in Walk(tables, filter, cursor, limit) ==> Precedes(x, cursor)
  {
    if tables != [] {
      PageShape(tables[0], filter, cursor, limit);
      var page := PageOf(tables[0], filter, cursor, limit);
      if page.next.Some? {
        WalkFalls(tables[1..], filter, page.next, limit);
        JoinFalls(page.items, Walk(tables[1..], filter, page.next, limit), cursor);
      }
    }
  }

  lemma JoinFalls(a: seq<Stamp>, b: seq<Stamp>, cursor: Option<Stamp>)
    requires StrictlyFalling(a) && StrictlyFalling(b) && a != []
    requires forall x :: x in a ==> Precedes(x, cursor)
    requires forall x :: x in b ==> Before(x, a[|a| - 1])
    ensures StrictlyFalling(a + b) && forall x :: x in a + b ==> Precedes(x, cursor)
  {
    var last := a[|a| - 1];
    assert last in a;
    forall x, y | x in b && y in a ensures Before(x, y) {
      var i :| 0 <= i < |a| && a[i] == y;
      if i < |a| - 1 {
        BeforeTransitive(x, last, y);
      }
    }
    forall x | x in b ensures Precedes(x, cursor) {
      if cursor.Some? {
        BeforeTransitive(x, last, cursor.value);
      }
    }
    var c := a + b;
    forall i, j | 0 <= i < j < |c| ensures Before(c[j], c[i]) {
      if i < |a| && |a| <= j {
        assert c[i] in a && c[j] in b;
      }
    }
  }

  /** The row is selected in every snapshot that the walk sees. */
  ghost predicate Steady(tables: seq<Table>, filter: Filter, x: Stamp) {
    forall i :: 0 <= i < |tables| ==> x in Rows(tables[i], filter, None)
  }

  lemma RowBefore(table: Table, filter: Filter, cursor: Option<Stamp>, x: Stamp)
    ensures x in Rows(table, filter, cursor) <==> x in Rows(table, filter, None) && Precedes(x, cursor)
  {
  }

  /** The request of the walk whose page covers a stamp: from its cursor down to the next one. */
  ghost function Covering(tables: seq<Table>, filter: Filter, cursor: Option<Stamp>, limit: nat, x: Stamp): (n: nat)
    requires limit > 0 && Complete(tables, filter, cursor, limit)
    ensures n < |tables|
  {
    var page := PageOf(tables[0], filter, cursor, limit);
    if page.next.None? || !Before(x, page.next.value) then 0
    else 1 + Covering(tables[1..], filter, page.next, limit, x)
  }

  /** A page shows the selected rows of its own range, and none below it. */
  lemma OnThePage(table: Table, filter: Filter, cursor: Option<Stamp>, limit: nat, x: Stamp)
    requires limit > 0
    ensures var page := PageOf(table, filter, cursor, limit);
            if page.next.Some? && Before(x, page.next.value) then x !in page.items
            else x in page.items <==> x in Rows(table, filter, cursor)
  {
    PageShape(table, filter, cursor, limit);
    var page := PageOf(table, filter, cursor, limit);
    if page.next.Some? {
      BeforeTotal(x, page.next.value);
    }
  }

  /** A complete walk shows a row if and only if the row is selected in the snapshot of the request whose page covers it. */
  lemma {:induction false} WalkShows(tables: seq<Table>, filter: Filter, cursor: Option<Stamp>, limit: nat, x: Stamp)
    requires limit > 0 && Complete(tables, filter, cursor, limit) && Precedes(x, cursor)
    ensures x in Walk(tables, filter, cursor, limit)
            <==> x in Rows(tables[Covering(tables, filter, cursor, limit, x)], filter, None)
  {
    OnThePage(tables[0], filter, cursor, limit, x);
    RowBefore(tables[0], filter, cursor, x);
    var page := PageOf(tables[0], filter, cursor, limit);
    if page.next.Some? {
      WalkFalls(tables[1..], filter, page.next, limit);
      if Before(x, page.next.value) {
        WalkShows(tables[1..], filter, page.next, limit, x);
      }
    }
  }

  lemma FallingOnce(r: seq<Stamp>, i: nat, j: nat)
    requires StrictlyFalling(r) && i < |r| && j < |r| && r[i] == r[j]
    ensures i == j
  {
    BeforeTotal(r[i], r[j]);
  }

  ghost predicate ShownOnce(shown: seq<Stamp>, x: Stamp) {
    exists i :: 0 <= i < |shown| && shown[i] == x && forall j :: 0 <= j < |shown| && shown[j] == x ==> i == j
  }

  /** Following the cursors while the table changes in any way: shown exactly once if selected when its page is asked for, else never. */
  lemma ShownOnceIffSelected(tables: seq<Table>, filter: Filter, limit: nat, x: Stamp)
    requires limit > 0 && Complete(tables, filter, None, limit)
    ensures ShownOnce(Walk(tables, filter, None, limit), x)
            <==> x in Rows(tables[Covering(tables, filter, None, limit, x)], filter, None)
    ensures ShownOnce(Walk(tables, filter, None, limit), x) <==> x in Walk(tables, filter, None, limit)
  {
    var shown := Walk(tables, filter, None, limit);
    WalkShows(tables, filter, None, limit, x);
    WalkFalls(tables, filter, None, limit);
    if x in shown {
      var i :| 0 <= i < |shown| && shown[i] == x;
      forall j | 0 <= j < |shown| && shown[j] == x ensures i == j {
        FallingOnce(shown, i, j);
      }
    }
  }

  /** In particular a row that stays selected is shown exactly once. */
  lemma SteadyRowOnce(tables: seq<Table>, filter: Filter, limit: nat, x: Stamp)
    requires limit > 0 && Complete(tables, filter, None, limit) && Steady(tables, filter, x)
    ensures ShownOnce(Walk(tables, filter, None, limit), x)
  {
    ShownOnceIffSelected(tables, filter, limit, x);
  }

  /** Rows are added and statuses move: without a status filter, every row there at the start is shown exactly once. */
  lemma EveryRowOnce(tables: seq<Table>, filter: Filter, limit: nat, x: Stamp)
    requires limit > 0 && filter.status.None? && Growing(tables) && Complete(tables, filter, None, limit)
    requires x in Rows(tables[0], filter, None)
    ensures ShownOnce(Walk(tables, filter, None, limit), x)
  {
    forall i | 0 <= i < |tables| ensures x in Rows(tables[i], filter, None) {
      assert Extends(tables[0], tables[i]);
      assert x.id in tables[0] && x.id in tables[i];
    }
    SteadyRowOnce(tables, filter, limit, x);
  }

  // ----- over one snapshot -----

  function Repeat(table: Table, n: nat): seq<Table> {
    if n == 0 then [] else [table] + Repeat(table, n - 1)
  }

  lemma RowsBelow(table: Table, filter: Filter, cursor: Option<Stamp>, last: Stamp, x: Stamp)
    requires last in Rows(table, filter, cursor) && x in Rows(table, filter, Some(last))
    ensures x in Rows(table, filter, cursor)
  {
    if cursor.Some? {
      BeforeTransitive(x, last, cursor.value);
    }
  }

  lemma RestOfRows(table: Table, filter: Filter, cursor: Option<Stamp>, limit: nat)
    requires limit > 0 && |Rows(table, filter, cursor)| > limit
    ensures var rows := Descending(Rows(table, filter, cursor));
            Descending(Rows(table, filter, Some(rows[limit - 1]))) == rows[limit..]
  {
    var rows := Descending(Rows(table, filter, cursor));
    DescendingSorts(Rows(table, filter, cursor));
    var rest := Rows(table, filter, Some(rows[limit - 1]));
    DescendingSorts(rest);
    forall x | x in rest ensures x in rows[limit..] {
      RowsBelow(table, filter, cursor, rows[limit - 1], x);
      var i :| 0 <= i < |rows| && rows[i] == x;
      BeforeTotal(x, rows[limit - 1]);
      assert x == rows[limit..][i - limit];
    }
    forall x | x in rows[limit..] ensures x in rest {
      var i :| 0 <= i < |rows| - limit && rows[limit..][i] == x;
      assert Before(rows[limit + i], rows[limit - 1]);
      assert x in Rows(table, filter, cursor);
    }
    FallingUnique(Descending(rest), rows[limit..]);
  }

  /** A falling listing is determined by what it holds. */
  lemma {:induction false} FallingUnique(a: seq<Stamp>, b: seq<Stamp>)
    requires StrictlyFalling(a) && StrictlyFalling(b) && forall x :: x in a <==> x in b
    ensures a == b
  {
    if b != [] {
      assert b[0] in a;
    }
    if a != [] {
      assert a[0] in b;
      var i :| 0 <= i < |b| && b[i] == a[0];
      var j :| 0 <= j < |a| && a[j] == b[0];
      BeforeTotal(a[0], b[0]);
      assert a[0] == b[0];
      forall x ensures x in a[1..] <==> x in b[1..] {
        TailLacksHead(a, x);
        TailLacksHead(b, x);
      }
      FallingUnique(a[1..], b[1..]);
    }
  }

  lemma TailLacksHead(a: seq<Stamp>, x: Stamp)
    requires a != [] && StrictlyFalling(a)
    ensures x in a[1..] <==> x in a && x != a[0]
  {
    if x in a && x != a[0] {
      var i :| 0 <= i < |a| && a[i] == x;
      assert a[1..][i - 1] == x;
    }
    if x in a[1..] {
      var i :| 0 <= i < |a| - 1 && a[1..][i] == x;
      BeforeTotal(a[0], x);
      assert a[i + 1] == x;
    }
  }

  lemma PagesLeft(n: nat, limit: nat, size: nat)
    requires limit > 0 && n * limit >= size > limit
    ensures n > 1 && (n - 1) * limit >= size - limit
  {
  }

  lemma OnePage(table: Table, filter: Filter, cursor: Option<Stamp>, limit: nat, n: nat)
    requires limit > 0 && n > 0
    ensures var page := PageOf(table, filter, cursor, limit);
            if page.next.None?
            then Complete(Repeat(table, n), filter, cursor, limit) && Walk(Repeat(table, n), filter, cursor, limit) == page.items
            else Complete(Repeat(table, n), filter, cursor, limit) == Complete(Repeat(table, n - 1), filter, page.next, limit)
                 && Walk(Repeat(table, n), filter, cursor, limit) == page.items + Walk(Repeat(table, n - 1), filter, page.next, limit)
  {
  }

  /** Over one snapshot the pages, put together, are the whole sorted listing, and they run out. */
  lemma {:induction false} PagesAreTheListing(table: Table, filter: Filter, cursor: Option<Stamp>, limit: nat, n: nat)
    requires limit > 0 && n * limit >= |Rows(table, filter, cursor)| && n > 0
    ensures Complete(Repeat(table, n), filter, cursor, limit)
    ensures Walk(Repeat(table, n), filter, cursor, limit) == Descending(Rows(table, filter, cursor))
    decreases n
  {
    var rows := Descending(Rows(table, filter, cursor));
    if |rows| > limit {
      var next := Some(rows[limit - 1]);
      RestOfRows(table, filter, cursor, limit);
      assert |Rows(table, filter, next)| == |rows| - limit;
      PagesLeft(n, limit, |rows|);
      PagesAreTheListing(table, filter, next, limit, n - 1);
      assert rows == rows[..limit] + rows[limit..];
    }
    OnePage(table, filter, cursor, limit, n);
  }

  // ----- a row that leaves the listing between two pages -----

  function Row(id: Id, status: TxStatus): Transaction {
    Transaction(id, Payment, "a", Some("m"), None, None, 1, "EUR", status, None, None, "c")
  }

  const EARLIER: Table := map["x" := Item(Row("x", Pending), 1), "y" := Item(Row("y", Pending), 2)]
  const LATER: Table := map["x" := Item(Row("x", Failed), 1), "y" := Item(Row("y", Pending), 2)]
  const PENDING := Filter("a", Some(Pending), None)

  lemma FirstOfTwo(s: set<Stamp>, a: Stamp, b: Stamp)
    requires s == {a, b} && Before(b, a)
    ensures Descending(s) == [a, b]
  {
    BeforeTotal(a, b);
    LatestUnique(s, Latest(s), a);
    assert s - {a} == {b};
    LatestUnique({b}, Latest({b}), b);
    assert {b} - {b} == {};
  }

  /** With a status filter: the row was listed when the walk began, changes status, and is never shown. */
  lemma FilteredRowIsMissed()
    ensures Extends(EARLIER, LATER) && Stamp(1, "x") in Rows(EARLIER, PENDING, None)
    ensures Complete([EARLIER, LATER], PENDING, None, 1) && Stamp(1, "x") !in Walk([EARLIER, LATER], PENDING, None, 1)
  {
    var y := Stamp(2, "y");
    EarlierPage();
    LaterPage();
    assert [EARLIER, LATER][1..] == [LATER];
    assert Complete([LATER], PENDING, Some(y), 1) && Walk([LATER], PENDING, Some(y), 1) == [];
  }

  lemma EarlierPage()
    ensures Stamp(1, "x") in Rows(EARLIER, PENDING, None)
    ensures PageOf(EARLIER, PENDING, None, 1) == Page([Stamp(2, "y")], Some(Stamp(2, "y")))
  {
    var x, y := Stamp(1, "x"), Stamp(2, "y");
    assert Rows(EARLIER, PENDING, None) == {x, y} by {
      assert EARLIER["x"].createdAt == 1 && EARLIER["y"].createdAt == 2;
    }
    FirstOfTwo({x, y}, y, x);
  }

  lemma LaterPage()
    ensures PageOf(LATER, PENDING, Some(Stamp(2, "y")), 1) == Page([], None)
  {
    assert Rows(LATER, PENDING, Some(Stamp(2, "y"))) == {};
  }
}
