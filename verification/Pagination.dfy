/** Keyset pagination: pages of a descending key order, and the walk a client makes along the cursors.
    A key is (created_at, id) for payments and (id, 0) for journal lines. */
module Pagination {
  import opened Sums

  datatype Key = Key(major: int, minor: int)

  predicate Less(a: Key, b: Key) {
    a.major < b.major || (a.major == b.major && a.minor < b.minor)
  }

  // ---- limits ----

  datatype RawLimit = Absent | NotANumber | Number(n: int)

  function QueryLimit(raw: RawLimit, def: int, max: int): Option<int> {
    match raw
    case Absent => Some(def)
    case NotANumber => None
    case Number(n) => if n < 1 then None else if n > max then Some(max) else Some(n)
  }

  /** The ceiling the repositories put on the number of rows asked for. */
  function RepoLimit(n: int): int {
    if n <= 0 then 50 else if n > 201 then 201 else n
  }

  /** For both listings the repository's ceiling never cuts the extra row the handler asks for. */
  lemma ProbeRowSurvives(raw: RawLimit)
    ensures forall limit | QueryLimit(raw, 25, 100) == Some(limit) ::
              1 <= limit <= 100 && RepoLimit(limit + 1) == limit + 1
    ensures forall limit | QueryLimit(raw, 50, 200) == Some(limit) ::
              1 <= limit <= 200 && RepoLimit(limit + 1) == limit + 1
    ensures raw.Number? && 1 <= raw.n <= 100 ==> QueryLimit(raw, 25, 100) == Some(raw.n)
    ensures raw.Number? && 1 <= raw.n <= 200 ==> QueryLimit(raw, 50, 200) == Some(raw.n)
    ensures raw.Number? && raw.n > 100 ==> QueryLimit(raw, 25, 100) == Some(100)
    ensures raw.Number? && raw.n > 200 ==> QueryLimit(raw, 50, 200) == Some(200)
    ensures raw == NotANumber || (raw.Number? && raw.n < 1) <==> QueryLimit(raw, 25, 100) == None
    ensures raw == Absent ==> QueryLimit(raw, 25, 100) == Some(25) && QueryLimit(raw, 50, 200) == Some(50)
  {
  }

  // ---- one query ----

  /** The rows still ahead of a client at the cursor. */
  function Ahead(table: set<Key>, cursor: Option<Key>): set<Key> {
    set k | k in table && (cursor.None? || Less(k, cursor.value))
  }

  predicate Descending(p: seq<Key>) {
    forall i, j | 0 <= i < j < |p| :: Less(p[j], p[i])
  }

  /** Newest first, ties by the higher id. */
  predicate NewestFirst(p: seq<Key>) {
    forall i, j | 0 <= i < j < |p| ::
      p[i].major > p[j].major || (p[i].major == p[j].major && p[i].minor > p[j].minor)
  }

  /** p is what ORDER BY key DESC LIMIT n returns from the rows ahead of the cursor. */
  ghost predicate IsPage(table: set<Key>, cursor: Option<Key>, n: nat, p: seq<Key>) {
    && Descending(p) && |p| <= n
    && (forall k | k in p :: k in Ahead(table, cursor))
    && (forall k | k in Ahead(table, cursor) && k !in p :: |p| == n && forall q | q in p :: Less(k, q))
  }

  method Greatest(s: set<Key>) returns (g: Key)
    requires s != {}
    ensures g in s && forall k | k in s && k != g :: Less(k, g)
  {
    g :| g in s;
    var left := s - {g};
    while left != {}
      invariant left <= s && g in s
      invariant forall k | k in s && k !in left && k != g :: Less(k, g)
      decreases left
    {
      var k :| k in left;
      if Less(g, k) {
        g := k;
      }
      left := left - {k};
    }
  }

  /** The query itself, one row at a time. */
  method Query(table: set<Key>, cursor: Option<Key>, n: nat) returns (p: seq<Key>)
    ensures IsPage(table, cursor, n, p)
  {
    p := [];
    var left := Ahead(table, cursor);
    while left != {} && |p| < n
      invariant left <= Ahead(table, cursor) && |p| <= n && Descending(p)
      invariant forall k | k in p :: k in Ahead(table, cursor) && k !in left
      invariant forall k | k in Ahead(table, cursor) && k !in p :: k in left
      invariant forall k, q | k in left && q in p :: Less(k, q)
      decreases left
    {
      var g := Greatest(left);
      p := p + [g];
      left := left - {g};
    }
  }

  // ---- one response ----

  datatype Response = Response(data: seq<Key>, hasMore: bool, next: Option<Key>)

  /** The response a handler owes its client for the page at a cursor. */
  ghost predicate Serves(table: set<Key>, cursor: Option<Key>, limit: nat, r: Response) {
    && IsPage(table, cursor, limit, r.data)
    && (r.hasMore <==> exists k :: k in Ahead(table, cursor) && k !in r.data)
    && (r.hasMore ==> |r.data| == limit && limit > 0 && r.next == Some(r.data[limit - 1]))
    && (!r.hasMore ==> r.next == None)
  }

  /** Fetch one row more than asked, keep the page, and point the cursor at its last row. */
  method List(table: set<Key>, cursor: Option<Key>, limit: nat) returns (r: Response)
    requires 1 <= limit
    ensures Serves(table, cursor, limit, r)
  {
    var rows := Query(table, cursor, limit + 1);
    ghost var all := rows;
    var hasMore := |rows| > limit;
    if hasMore {
      assert rows[limit] in Ahead(table, cursor) && rows[limit] !in rows[..limit];
      rows := rows[..limit];
    }
    var data := [];
    for i := 0 to |rows|
      invariant data == rows[..i]
    {
      data := data + [rows[i]];
    }
    assert data == rows;
    r := Response(data, hasMore, if hasMore && |rows| > 0 then Some(rows[|rows| - 1]) else None);
    if hasMore {
      forall k | k in Ahead(table, cursor) && k !in data
        ensures forall q | q in data :: Less(k, q)
      {
        if k in all {
          assert k == all[limit];
        }
      }
    }
  }

  // ---- a walk ----

  /** Where the client stands after the given pages. */
  function CursorAfter(rs: seq<Response>): Option<Key> {
    if rs == [] then None else rs[|rs| - 1].next
  }

  /** The client follows next_cursor; tables[i] is the table as request i finds it, and rows only get added. */
  ghost predicate IsWalk(tables: seq<set<Key>>, limit: nat, rs: seq<Response>) {
    && |tables| == |rs|
    && (forall i, j | 0 <= i <= j < |tables| :: tables[i] <= tables[j])
    && (forall i | 0 <= i < |rs| :: Serves(tables[i], CursorAfter(rs[..i]), limit, rs[i]))
    && (forall i | 0 <= i < |rs| - 1 :: rs[i].hasMore)
  }

  function Data(rs: seq<Response>): seq<Key> {
    if rs == [] then [] else Data(rs[..|rs| - 1]) + rs[|rs| - 1].data
  }

  /** Everything delivered so far, against the table the walk started on. */
  ghost predicate Delivered(start: set<Key>, rs: seq<Response>) {
    && Descending(Data(rs))
    && (rs != [] && rs[|rs| - 1].hasMore ==>
          CursorAfter(rs).Some?
          && forall k | k in Data(rs) && k != CursorAfter(rs).value :: Less(CursorAfter(rs).value, k))
    && (forall k | k in start && k !in Data(rs) :: rs == [] || (rs[|rs| - 1].hasMore && Less(k, CursorAfter(rs).value)))
  }

  /** One more page keeps the delivered rows descending and leaves no row of the first table behind. */
  lemma DeliveredStep(start: set<Key>, table: set<Key>, limit: nat, done: seq<Response>, r: Response)
    requires Delivered(start, done) && start <= table && 1 <= limit
    requires done != [] ==> done[|done| - 1].hasMore
    requires Serves(table, CursorAfter(done), limit, r)
    ensures Delivered(start, done + [r])
  {
    var all := done + [r];
    assert all[..|done|] == done;
    var had, got := Data(done), r.data;
    assert Data(all) == had + got;
    forall i, j | 0 <= i < j < |had + got|
      ensures Less((had + got)[j], (had + got)[i])
    {
      if i < |had| <= j {
        var k := got[j - |had|];
        assert k in got && had[i] in had;
        assert k in Ahead(table, CursorAfter(done));
      }
    }
    if r.hasMore {
      var c := got[limit - 1];
      forall k | k in Data(all) && k != c
        ensures Less(c, k)
      {
        var i :| 0 <= i < |Data(all)| && Data(all)[i] == k;
        assert Data(all)[|Data(all)| - 1] == c;
      }
    }
    forall k | k in start && k !in Data(all)
      ensures r.hasMore && Less(k, CursorAfter(all).value)
    {
      assert k in Ahead(table, CursorAfter(done)) && k !in got;
      assert got[limit - 1] in got;
    }
  }

  lemma {:induction false} DeliveredSoFar(tables: seq<set<Key>>, limit: nat, rs: seq<Response>, n: nat)
    requires IsWalk(tables, limit, rs) && 1 <= limit && 1 <= n <= |rs|
    ensures Delivered(tables[0], rs[..n])
  {
    var done := rs[..n - 1];
    assert rs[..n] == done + [rs[n - 1]];
    if n > 1 {
      DeliveredSoFar(tables, limit, rs, n - 1);
      assert done[|done| - 1] == rs[n - 2];
    } else {
      assert Delivered(tables[0], done);
    }
    DeliveredStep(tables[0], tables[n - 1], limit, done, rs[n - 1]);
  }

  /** With rows being added between pages: nothing is delivered twice, and once the walk ends every row present at
      its start has been delivered. */
  lemma WalkDelivers(tables: seq<set<Key>>, limit: nat, rs: seq<Response>)
    requires IsWalk(tables, limit, rs) && 1 <= limit && rs != []
    ensures NewestFirst(Data(rs))
    ensures !rs[|rs| - 1].hasMore ==> forall k | k in tables[0] :: k in Data(rs)
  {
    DeliveredSoFar(tables, limit, rs, |rs|);
    assert rs[..|rs|] == rs;
  }

  lemma {:induction false} WalkStaysInTable(tables: seq<set<Key>>, limit: nat, rs: seq<Response>, n: nat)
    requires IsWalk(tables, limit, rs) && 1 <= n <= |rs|
    ensures forall k | k in Data(rs[..n]) :: k in tables[n - 1]
  {
    var done, r := rs[..n - 1], rs[n - 1];
    assert rs[..n][..n - 1] == done;
    if n > 1 {
      WalkStaysInTable(tables, limit, rs, n - 1);
      assert tables[n - 2] <= tables[n - 1];
    }
    assert forall k | k in r.data :: k in Ahead(tables[n - 1], CursorAfter(done));
  }

  /** On a fixed table the walk delivers exactly its rows, in descending order, once each. */
  lemma FixedTableWalk(table: set<Key>, tables: seq<set<Key>>, limit: nat, rs: seq<Response>)
    requires IsWalk(tables, limit, rs) && 1 <= limit && rs != [] && !rs[|rs| - 1].hasMore
    requires forall t | t in tables :: t == table
    ensures NewestFirst(Data(rs)) && forall k :: k in Data(rs) <==> k in table
  {
    assert tables[0] in tables && tables[|tables| - 1] in tables;
    WalkDelivers(tables, limit, rs);
    WalkStaysInTable(tables, limit, rs, |rs|);
    assert rs[..|rs|] == rs;
  }

  /** The client's loop on a fixed table: it ends, having seen every row once in descending order. */
  method Walk(table: set<Key>, limit: nat) returns (seen: seq<Key>)
    requires 1 <= limit
    ensures NewestFirst(seen) && forall k :: k in seen <==> k in table
  {
    var r := List(table, None, limit);
    seen := r.data;
    while r.hasMore
      invariant Descending(seen) && forall k | k in seen :: k in table
      invariant r.hasMore ==> r.next.Some? && seen != [] && r.next.value == seen[|seen| - 1]
      invariant forall k | k in table && k !in seen :: r.hasMore && Less(k, r.next.value)
      decreases r.hasMore, Ahead(table, r.next)
    {
      ghost var cursor := r.next;
      ghost var ahead := Ahead(table, cursor);
      r := List(table, r.next, limit);
      forall k | k in r.data
        ensures k in ahead
      {
      }
      ghost var before := seen;
      seen := seen + r.data;
      forall i, j | 0 <= i < |before| <= j < |seen|
        ensures Less(seen[j], seen[i])
      {
        assert seen[j] in r.data && seen[i] == before[i];
        assert Less(seen[j], cursor.value);
      }
      if r.hasMore {
        assert r.next.value in r.data && r.next.value in ahead;
        assert Ahead(table, r.next) < ahead;
      }
      forall k | k in table && k !in seen
        ensures r.hasMore && Less(k, r.next.value)
      {
        assert k !in before && k in ahead && k !in r.data;
      }
    }
  }
}
