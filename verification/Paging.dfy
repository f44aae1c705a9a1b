/** Keyset paging over a table that may change between pages. The row order is a parameter; the
    request list orders by completion time and then id, both descending. */
module Paging {
  import opened Wrappers
  import opened Collections
  import opened Orders
  import Text

  // ----- Orders and listings -----

  ghost predicate Ordered<K(!new)>(before: (K, K) -> bool, s: seq<K>) {
    forall i, j :: 0 <= i < j < |s| ==> before(s[i], s[j])
  }

  /** The rows in order: what ORDER BY returns. */
  ghost function Listed<K(!new)>(before: (K, K) -> bool, s: set<K>): (r: seq<K>)
    requires IsOrder(before)
  {
    if s == {} then []
    else
      assert exists k :: IsFirst(before, s, k) by { var k := FirstExists(before, s); }
      var k :| IsFirst(before, s, k);
      [k] + Listed(before, s - {k})
  }

  lemma {:induction false} ListedMeaning<K(!new)>(before: (K, K) -> bool, s: set<K>)
    requires IsOrder(before)
    ensures Ordered(before, Listed(before, s)) && forall k :: k in Listed(before, s) <==> k in s
  {
    if s != {} {
      var first := Listed(before, s)[0];
      assert IsFirst(before, s, first) by { var k := FirstExists(before, s); }
      ListedMeaning(before, s - {first});
      var rest := Listed(before, s - {first});
      assert Listed(before, s) == [first] + rest;
      assert forall i :: 0 <= i < |rest| ==> rest[i] in s - {first};
    }
  }

  /** A set has only one ordered listing. */
  lemma {:induction false} ListingUnique<K(!new)>(before: (K, K) -> bool, a: seq<K>, b: seq<K>)
    requires IsOrder(before) && Ordered(before, a) && Ordered(before, b)
    requires forall k :: k in a <==> k in b
    ensures a == b
  {
    assert b != [] ==> b[0] in b;
    if a != [] {
      assert a[0] in a && a[0] in b;
      assert b[0] in a;
      assert a[0] == b[0];
      var x, y := a[1..], b[1..];
      forall k
        ensures k in x <==> k in y
      {
        assert k in x ==> before(a[0], k) && k in a;
        assert k in y ==> before(b[0], k) && k in b;
        assert a == [a[0]] + x && b == [b[0]] + y;
      }
      ListingUnique(before, x, y);
      assert a == [a[0]] + x && b == [b[0]] + y;
    }
  }

  // ----- One page -----

  /** The rows strictly after the cursor. */
  ghost function Matching<K(!new)>(before: (K, K) -> bool, table: set<K>, after: Option<K>): (s: set<K>) {
    set k | k in table && (after.Some? ==> before(after.value, k))
  }

  function Take<K>(s: seq<K>, n: nat): (r: seq<K>) { if |s| <= n then s else s[..n] }

  datatype Page<K> = Page(rows: seq<K>, next: Option<K>)

  /** Turn the fetched rows, at most one more than the limit, into a page. */
  function PageOf<K>(fetched: seq<K>, limit: nat): (p: Page<K>)
    requires limit > 0
  {
    if |fetched| > limit then Page(fetched[..limit], Some(fetched[limit - 1])) else Page(fetched, None)
  }

  ghost function PageFor<K(!new)>(before: (K, K) -> bool, table: set<K>, after: Option<K>, limit: nat): (p: Page<K>)
    requires IsOrder(before) && limit > 0
  {
    PageOf(Take(Listed(before, Matching(before, table, after)), limit + 1), limit)
  }

  /** What one page promises: its rows are in order, all past the cursor; without a next cursor
      it holds every row there is; with one, it is full, ends at that cursor, and every row it
      leaves out lies past the cursor. */
  lemma {:induction false} PageMeaning<K(!new)>(before: (K, K) -> bool, table: set<K>, after: Option<K>, limit: nat)
    requires IsOrder(before) && limit > 0
    ensures var p, all := PageFor(before, table, after, limit), Listed(before, Matching(before, table, after));
            && Ordered(before, p.rows)
            && (forall k :: k in p.rows ==> k in Matching(before, table, after))
            && (p.next.None? ==> p.rows == all)
            && (p.next.Some? ==>
                  && |p.rows| == limit < |all| && p.next.value == p.rows[limit - 1] && p.rows == all[..limit]
                  && (forall k :: k in Matching(before, table, after) && k !in p.rows ==> before(p.next.value, k)))
  {
    var s := Matching(before, table, after);
    var all := Listed(before, s);
    ListedMeaning(before, s);
    var p := PageFor(before, table, after, limit);
    if p.next.Some? {
      assert p.rows == all[..limit];
      forall i | 0 <= i < limit
        ensures all[i] in p.rows
      {
        assert p.rows[i] == all[i];
      }
      forall k | k in s && k !in p.rows
        ensures before(p.next.value, k)
      {
        var i :| 0 <= i < |all| && all[i] == k;
      }
    }
  }

  const MAX_PAGE_SIZE: nat := 200

  /** Build the page from the fetched rows. Outside 1 to 200 the limit is refused. */
  method RequestPage<K>(fetched: seq<K>, limit: nat) returns (r: Result<Page<K>, string>)
    ensures r.Ok? <==> 1 <= limit <= MAX_PAGE_SIZE
    ensures r.Ok? ==> r.value == PageOf(Take(fetched, limit + 1), limit)
  {
    if !(1 <= limit <= MAX_PAGE_SIZE) {
      return Err("usage page size is invalid");
    }
    var rows := Take(fetched, limit + 1);
    var hasMore := |rows| > limit;
    var page: seq<K> := [];
    var shown := if |rows| < limit then |rows| else limit;
    for i := 0 to shown
      invariant page == rows[..i]
    {
      page := page + [rows[i]];
    }
    var next := if hasMore then Some(page[|page| - 1]) else None;
    return Ok(Page(page, next));
  }

  // ----- Following the cursors -----

  /** All pages of an unchanging table, one after another. */
  ghost function FollowStatic<K(!new)>(before: (K, K) -> bool, table: set<K>, after: Option<K>, limit: nat): (rows: seq<K>)
    requires IsOrder(before) && limit > 0
    decreases |Matching(before, table, after)|
  {
    var p := PageFor(before, table, after, limit);
    if p.next.None? then p.rows
    else
      NextIsSmaller(before, table, after, limit);
      p.rows + FollowStatic(before, table, p.next, limit)
  }

  /** A next cursor lies past the old one and leaves fewer rows, so following cursors ends. */
  lemma {:induction false} NextIsSmaller<K(!new)>(before: (K, K) -> bool, table: set<K>, after: Option<K>, limit: nat)
    requires IsOrder(before) && limit > 0 && PageFor(before, table, after, limit).next.Some?
    ensures var next := PageFor(before, table, after, limit).next;
            && (after.Some? ==> before(after.value, next.value))
            && Matching(before, table, next) < Matching(before, table, after)
            && |Matching(before, table, next)| < |Matching(before, table, after)|
  {
    PageMeaning(before, table, after, limit);
    var p := PageFor(before, table, after, limit);
    var next := p.next.value;
    assert next in p.rows;
    assert next in Matching(before, table, after) && next !in Matching(before, table, p.next);
    Smaller(Matching(before, table, p.next), Matching(before, table, after));
  }

  lemma {:induction false} Smaller<K>(a: set<K>, b: set<K>)
    requires a < b
    ensures |a| < |b|
  {
    var x :| x in b && x !in a;
    SubsetSize(a, b - {x});
  }

  lemma {:induction false} StaticPages<K(!new)>(before: (K, K) -> bool, table: set<K>, after: Option<K>, limit: nat)
    requires IsOrder(before) && limit > 0
    ensures Ordered(before, FollowStatic(before, table, after, limit))
    ensures forall k :: k in FollowStatic(before, table, after, limit) <==> k in Matching(before, table, after)
    decreases |Matching(before, table, after)|
  {
    PageMeaning(before, table, after, limit);
    var p := PageFor(before, table, after, limit);
    if p.next.None? {
      ListedMeaning(before, Matching(before, table, after));
    } else {
      NextIsSmaller(before, table, after, limit);
      StaticPages(before, table, p.next, limit);
      Concatenated(before, p.rows, FollowStatic(before, table, p.next, limit), p.next.value);
    }
  }

  /** Following the cursors of an unchanging table to the end gives exactly the plain ordered list. */
  lemma {:induction false} PagesAreTheList<K(!new)>(before: (K, K) -> bool, table: set<K>, after: Option<K>, limit: nat)
    requires IsOrder(before) && limit > 0
    ensures FollowStatic(before, table, after, limit) == Listed(before, Matching(before, table, after))
  {
    StaticPages(before, table, after, limit);
    ListedMeaning(before, Matching(before, table, after));
    ListingUnique(before, FollowStatic(before, table, after, limit), Listed(before, Matching(before, table, after)));
  }

  // ----- Rows that come and go between pages -----

  /** Page `i` is read from table `i`; reading stops at the first page without a next cursor. */
  ghost function Follow<K(!new)>(before: (K, K) -> bool, tables: seq<set<K>>, after: Option<K>, limit: nat): (rows: seq<K>)
    requires IsOrder(before) && limit > 0
  {
    if tables == [] then []
    else
      var p := PageFor(before, tables[0], after, limit);
      if p.next.None? then p.rows else p.rows + Follow(before, tables[1..], p.next, limit)
  }

  /** The last page was reached. */
  ghost predicate Reached<K(!new)>(before: (K, K) -> bool, tables: seq<set<K>>, after: Option<K>, limit: nat)
    requires IsOrder(before) && limit > 0
  {
    tables != [] &&
    var p := PageFor(before, tables[0], after, limit);
    p.next.None? || Reached(before, tables[1..], p.next, limit)
  }

  ghost predicate Past<K(!new)>(before: (K, K) -> bool, after: Option<K>, k: K) {
    after.Some? ==> before(after.value, k)
  }

  /** Whatever changes between pages, no row is returned twice, rows come in order and past the
      cursor, and every row returned was in the table its page was read from. */
  lemma {:induction false} NeverRepeats<K(!new)>(before: (K, K) -> bool, tables: seq<set<K>>, after: Option<K>, limit: nat)
    requires IsOrder(before) && limit > 0
    ensures Ordered(before, Follow(before, tables, after, limit))
    ensures forall k :: k in Follow(before, tables, after, limit) ==>
              Past(before, after, k) && exists i :: 0 <= i < |tables| && k in tables[i]
  {
    if tables != [] {
      PageMeaning(before, tables[0], after, limit);
      var p := PageFor(before, tables[0], after, limit);
      if p.next.Some? {
        NextIsSmaller(before, tables[0], after, limit);
        NeverRepeats(before, tables[1..], p.next, limit);
        var rest := Follow(before, tables[1..], p.next, limit);
        forall k | k in rest
          ensures Past(before, after, k) && exists i :: 0 <= i < |tables| && k in tables[i]
        {
          assert Past(before, p.next, k);
          var i :| 0 <= i < |tables| - 1 && k in tables[1..][i];
          assert k in tables[i + 1];
        }
        Concatenated(before, p.rows, rest, p.next.value);
      }
    }
  }

  lemma {:induction false} Concatenated<K(!new)>(before: (K, K) -> bool, rows: seq<K>, rest: seq<K>, cursor: K)
    requires IsOrder(before) && Ordered(before, rows) && Ordered(before, rest)
    requires rows != [] && rows[|rows| - 1] == cursor && forall k :: k in rest ==> before(cursor, k)
    ensures Ordered(before, rows + rest)
  {
    forall i, j | 0 <= i < |rows| && 0 <= j < |rest|
      ensures before(rows[i], rest[j])
    {
      assert rest[j] in rest;
      assert i == |rows| - 1 || before(rows[i], cursor);
    }
  }

  /** And a row that is there throughout is never skipped: once the last page is reached it has
      been returned. */
  lemma {:induction false} NeverSkips<K(!new)>(before: (K, K) -> bool, tables: seq<set<K>>, after: Option<K>, limit: nat, k: K)
    requires IsOrder(before) && limit > 0 && Reached(before, tables, after, limit)
    requires Past(before, after, k) && forall i :: 0 <= i < |tables| ==> k in tables[i]
    ensures k in Follow(before, tables, after, limit)
  {
    PageMeaning(before, tables[0], after, limit);
    var p := PageFor(before, tables[0], after, limit);
    ListedMeaning(before, Matching(before, tables[0], after));
    if p.next.Some? && k !in p.rows {
      NeverSkips(before, tables[1..], p.next, limit, k);
    }
  }

  // ----- The request list -----

  datatype RequestCursor = RequestCursor(completedAt: int, requestId: string)

  /** Later completions first, ties by descending id. */
  predicate Newer(a: RequestCursor, b: RequestCursor) {
    b.completedAt < a.completedAt || (b.completedAt == a.completedAt && Text.Less(b.requestId, a.requestId))
  }

  lemma {:induction false} NewerIsOrder()
    ensures IsOrder(Newer)
  {
    forall a: RequestCursor, b: RequestCursor
      ensures !(Newer(a, b) && Newer(b, a)) && (Newer(a, b) || Newer(b, a) || a == b)
    {
      Text.LessTotal(a.requestId, b.requestId);
    }
    forall a: RequestCursor, b: RequestCursor, c: RequestCursor | Newer(a, b) && Newer(b, c)
      ensures Newer(a, c)
    {
      if c.completedAt == b.completedAt == a.completedAt {
        Text.LessTransitive(c.requestId, b.requestId, a.requestId);
      }
    }
  }

  /** Paging the request list from the start visits every matching request exactly once, newest
      first. */
  lemma {:induction false} RequestPagesAreTheList(table: set<RequestCursor>, limit: nat)
    requires 1 <= limit <= MAX_PAGE_SIZE
    ensures IsOrder(Newer)
    ensures var rows := FollowStatic(Newer, table, None, limit);
            && rows == Listed(Newer, table)
            && Ordered(Newer, rows) && (forall k :: k in rows <==> k in table)
  {
    NewerIsOrder();
    PagesAreTheList(Newer, table, None, limit);
    assert Matching(Newer, table, None) == table;
    ListedMeaning(Newer, table);
  }

  /** While rows come and go between pages, the request list still repeats nothing, stays newest
      first, and returns every request that is there throughout. */
  lemma {:induction false} RequestPagesWhileRowsChange(tables: seq<set<RequestCursor>>, limit: nat, k: RequestCursor)
    requires 1 <= limit <= MAX_PAGE_SIZE
    ensures IsOrder(Newer)
    ensures var rows := Follow(Newer, tables, None, limit);
            && Ordered(Newer, rows)
            && (forall i, j :: 0 <= i < j < |rows| ==> rows[i] != rows[j])
            && (Reached(Newer, tables, None, limit) && (forall i :: 0 <= i < |tables| ==> k in tables[i]) ==> k in rows)
  {
    NewerIsOrder();
    NeverRepeats(Newer, tables, None, limit);
    if Reached(Newer, tables, None, limit) && forall i :: 0 <= i < |tables| ==> k in tables[i] {
      NeverSkips(Newer, tables, None, limit, k);
    }
    var rows := Follow(Newer, tables, None, limit);
    forall i, j | 0 <= i < j < |rows|
      ensures rows[i] != rows[j]
    {
      assert Newer(rows[i], rows[j]);
    }
  }
}
