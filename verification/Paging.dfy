/** Paging of `list_my_submissions` (nl-submit/src/module.cpp) and `list_problems`
    (nl-problem/src/module.cpp): a page is addressed by number (LIMIT/OFFSET) or by the
    smallest id already seen (keyset). */
module Paging {
  import opened Sequences

  datatype Row = Row(id: int, user: int, problem: int, status: string)

  /** A table in ORDER BY id DESC order. */
  ghost predicate Table(t: seq<Row>) {
    (forall i :: 0 <= i < |t| ==> t[i].id > 0) && forall i, j :: 0 <= i < j < |t| ==> t[i].id > t[j].id
  }

  /** The WHERE clause. */
  function Select(t: seq<Row>, keep: Row -> bool): seq<Row> {
    if t == [] then [] else if keep(t[0]) then [t[0]] + Select(t[1..], keep) else Select(t[1..], keep)
  }

  function Limit<T>(t: seq<T>, n: nat): seq<T> { if |t| <= n then t else t[..n] }

  function Offset<T>(t: seq<T>, n: nat): seq<T> { if |t| <= n then [] else t[n..] }

  function Below(keep: Row -> bool, lastId: int): Row -> bool {
    (r: Row) => keep(r) && r.id < lastId
  }

  /** One call; out-of-range arguments give an empty page. */
  function Fetch(t: seq<Row>, keep: Row -> bool, pageNum: int, size: int, lastId: int): seq<Row> {
    if pageNum < 1 || size < 1 || size > 100 || lastId < 0 then []
    else if lastId > 0 then Limit(Select(t, Below(keep, lastId)), size)
    else
      assert (pageNum - 1) * size >= 0;
      Limit(Offset(Select(t, keep), (pageNum - 1) * size), size)
  }

  function LastId(page: seq<Row>): int
    requires page != []
  {
    page[|page| - 1].id
  }

  /** Following `lastId` until a page comes back empty; the table may be another one at
      each call, `tables(k)` at the k-th. */
  function WalkFrom(tables: nat -> seq<Row>, k: nat, keep: Row -> bool, size: int, lastId: int): seq<seq<Row>>
    requires lastId > 0
    decreases lastId
  {
    var page := Fetch(tables(k), keep, 1, size, lastId);
    if page == [] || !(0 < LastId(page) < lastId) then []
    else [page] + WalkFrom(tables, k + 1, keep, size, LastId(page))
  }

  function Walk(tables: nat -> seq<Row>, keep: Row -> bool, size: int): seq<seq<Row>> {
    var page := Fetch(tables(0), keep, 1, size, 0);
    if page == [] || LastId(page) <= 0 then [] else [page] + WalkFrom(tables, 1, keep, size, LastId(page))
  }

  /** The client's loop. */
  method WalkPages(tables: nat -> seq<Row>, keep: Row -> bool, size: int) returns (pages: seq<seq<Row>>)
    requires forall k :: Table(tables(k))
    ensures pages == Walk(tables, keep, size)
  {
    pages := [];
    var page := Fetch(tables(0), keep, 1, size, 0);
    CursorFalls(tables(0), keep, size, 0);
    if page == [] {
      return;
    }
    pages := [page];
    var k, lastId := 1, LastId(page);
    page := Fetch(tables(k), keep, 1, size, lastId);
    while page != []
      invariant lastId > 0 && k >= 1 && page == Fetch(tables(k), keep, 1, size, lastId)
      invariant pages + WalkFrom(tables, k, keep, size, lastId) == Walk(tables, keep, size)
      decreases lastId
    {
      WalkStep(tables, k, keep, size, lastId, pages);
      pages := pages + [page];
      k, lastId := k + 1, LastId(page);
      page := Fetch(tables(k), keep, 1, size, lastId);
    }
    AppendNothing(pages);
  }

  lemma WalkStep(tables: nat -> seq<Row>, k: nat, keep: Row -> bool, size: int, lastId: int, done: seq<seq<Row>>)
    requires Table(tables(k)) && lastId > 0 && Fetch(tables(k), keep, 1, size, lastId) != []
    ensures var page := Fetch(tables(k), keep, 1, size, lastId);
            0 < LastId(page) < lastId &&
            done + WalkFrom(tables, k, keep, size, lastId) == done + [page] + WalkFrom(tables, k + 1, keep, size, LastId(page))
  {
    CursorFalls(tables(k), keep, size, lastId);
    var page := Fetch(tables(k), keep, 1, size, lastId);
    MoveOne(done, page, WalkFrom(tables, k + 1, keep, size, LastId(page)));
  }

  function Flat<T>(pages: seq<seq<T>>): seq<T> {
    if pages == [] then [] else pages[0] + Flat(pages[1..])
  }

  // --------------------------------------------------------------------- selecting

  lemma {:induction false} SelectHas(t: seq<Row>, keep: Row -> bool)
    ensures forall r :: r in Select(t, keep) <==> r in t && keep(r)
  {
    if t != [] {
      SelectHas(t[1..], keep);
      assert forall r :: r in t <==> r == t[0] || r in t[1..];
    }
  }

  /** Tables are what inserting rows under ever larger ids makes. */
  lemma TableCons(r: Row, rest: seq<Row>)
    requires r.id > 0 && Table(rest) && forall s :: s in rest ==> s.id < r.id
    ensures Table([]) && Table([r] + rest)
  {
    var t := [r] + rest;
    forall i, j | 0 <= i < j < |t| ensures t[i].id > t[j].id {
      assert t[j] == rest[j - 1] && rest[j - 1] in rest;
    }
  }

  lemma {:induction false} SelectTable(t: seq<Row>, keep: Row -> bool)
    requires Table(t)
    ensures Table(Select(t, keep))
  {
    if t != [] {
      var rest := t[1..];
      SelectTable(rest, keep);
      SelectHas(rest, keep);
      if keep(t[0]) {
        forall s | s in Select(rest, keep) ensures s.id < t[0].id {
          assert s in rest;
        }
        TableCons(t[0], Select(rest, keep));
      }
    }
  }

  lemma SelectIs(t: seq<Row>, keep: Row -> bool)
    requires Table(t)
    ensures Table(Select(t, keep))
    ensures forall r :: r in Select(t, keep) <==> r in t && keep(r)
  {
    SelectTable(t, keep);
    SelectHas(t, keep);
  }

  lemma FetchFirst(t: seq<Row>, keep: Row -> bool, size: int)
    requires 1 <= size <= 100
    ensures Fetch(t, keep, 1, size, 0) == Limit(Select(t, keep), size)
  {
    assert Offset(Select(t, keep), 0) == Select(t, keep);
  }

  /** The last id of a page, and so the next cursor, is positive and below the cursor. */
  lemma CursorFalls(t: seq<Row>, keep: Row -> bool, size: int, lastId: int)
    requires Table(t) && lastId >= 0
    ensures var page := Fetch(t, keep, 1, size, lastId);
            page != [] ==> 0 < LastId(page) && (lastId > 0 ==> LastId(page) < lastId)
  {
    var page := Fetch(t, keep, 1, size, lastId);
    var rows := if lastId > 0 then Select(t, Below(keep, lastId)) else Select(t, keep);
    SelectIs(t, Below(keep, lastId));
    SelectIs(t, keep);
    if page != [] {
      if lastId == 0 {
        FetchFirst(t, keep, size);
      }
      assert page[|page| - 1] in rows;
    }
  }

  /** The rows a keyset page selects from are those after the last one seen. */
  lemma {:induction false} SelectBelow(t: seq<Row>, keep: Row -> bool, n: nat)
    requires Table(t) && 0 < n <= |Select(t, keep)|
    ensures Select(t, Below(keep, Select(t, keep)[n - 1].id)) == Select(t, keep)[n..]
  {
    var all := Select(t, keep);
    var lastId := all[n - 1].id;
    SelectIs(t, keep);
    if keep(t[0]) {
      var rest := Select(t[1..], keep);
      assert all == [t[0]] + rest && all[n..] == rest[n - 1..];
      if n == 1 {
        SelectAllBelow(t[1..], keep, lastId);
      } else {
        SelectBelow(t[1..], keep, n - 1);
        assert rest[n - 2] == all[n - 1];
        assert all[0].id > lastId;
      }
    } else {
      assert all == Select(t[1..], keep);
      SelectBelow(t[1..], keep, n);
    }
  }

  lemma {:induction false} SelectAllBelow(t: seq<Row>, keep: Row -> bool, lastId: int)
    requires forall i :: 0 <= i < |t| ==> t[i].id < lastId
    ensures Select(t, Below(keep, lastId)) == Select(t, keep)
  {
    if t != [] {
      SelectAllBelow(t[1..], keep, lastId);
    }
  }

  // ------------------------------------------------------------------ a fixed table

  /** The matching rows cut into pages of `size`. */
  function Chunks<T>(rows: seq<T>, size: nat): seq<seq<T>>
    requires size >= 1
    decreases |rows|
  {
    if rows == [] then [] else [Limit(rows, size)] + Chunks(Offset(rows, size), size)
  }

  lemma {:induction false} WalkFromIs(t: seq<Row>, k: nat, keep: Row -> bool, size: int, n: nat)
    requires Table(t) && 1 <= size <= 100 && 0 < n <= |Select(t, keep)|
    ensures Select(t, keep)[n - 1].id > 0
    ensures WalkFrom(_ => t, k, keep, size, Select(t, keep)[n - 1].id) == Chunks(Select(t, keep)[n..], size)
    decreases |Select(t, keep)| - n
  {
    hide Select;
    var all := Select(t, keep);
    var lastId := all[n - 1].id;
    SelectIs(t, keep);
    SelectBelow(t, keep, n);
    var rows := all[n..];
    var page := Limit(rows, size);
    assert page == Fetch(t, keep, 1, size, lastId);
    if rows != [] {
      var m := n + |page|;
      assert LastId(page) == all[m - 1].id;
      WalkFromIs(t, k + 1, keep, size, m);
      assert all[m..] == Offset(rows, size);
    }
  }

  lemma WalkIsChunks(t: seq<Row>, keep: Row -> bool, size: int)
    requires Table(t) && 1 <= size <= 100
    ensures Walk(_ => t, keep, size) == Chunks(Select(t, keep), size)
  {
    var all := Select(t, keep);
    var page := Limit(all, size);
    CursorFalls(t, keep, size, 0);
    FetchFirst(t, keep, size);
    if all != [] {
      assert LastId(page) == all[|page| - 1].id;
      WalkFromIs(t, 1, keep, size, |page|);
      assert all[|page|..] == Offset(all, size);
    }
  }

  lemma {:induction false} ChunksFlat<T>(rows: seq<T>, size: nat)
    requires size >= 1
    ensures Flat(Chunks(rows, size)) == rows
    decreases |rows|
  {
    if rows != [] {
      ChunksFlat(Offset(rows, size), size);
      assert Limit(rows, size) + Offset(rows, size) == rows;
      assert Chunks(rows, size)[1..] == Chunks(Offset(rows, size), size);
    }
  }

  lemma OffsetTwice<T>(rows: seq<T>, size: nat, k: nat)
    ensures Offset(Offset(rows, size), k) == Offset(rows, k + size)
    ensures k < |Offset(rows, size)| <==> k + size < |rows|
  {
  }

  lemma Times(p: nat, size: nat)
    requires p >= 1
    ensures p * size == (p - 1) * size + size && (p - 1) * size >= 0
  {
  }

  lemma ChunksCons<T>(rows: seq<T>, size: nat)
    requires size >= 1 && rows != []
    ensures Chunks(rows, size) == [Limit(rows, size)] + Chunks(Offset(rows, size), size)
  {
  }

  /** Page `p`, from 0, begins at row `at`. */
  lemma {:induction false} ChunkAt<T>(rows: seq<T>, size: nat, p: nat, at: nat)
    requires size >= 1 && at == p * size
    ensures p < |Chunks(rows, size)| <==> at < |rows|
    ensures p < |Chunks(rows, size)| ==> Chunks(rows, size)[p] == Limit(Offset(rows, at), size)
    decreases p
  {
    hide Limit, Offset;
    if rows != [] {
      ChunksCons(rows, size);
      if p == 0 {
        OffsetNothing(rows);
      } else {
        Times(p, size);
        ChunkAt(Offset(rows, size), size, p - 1, at - size);
        OffsetTwice(rows, size, at - size);
      }
      hide Chunks;
    }
  }

  lemma OffsetNothing<T>(rows: seq<T>)
    ensures Offset(rows, 0) == rows
  {
  }

  /** On a fixed table the keyset walk visits exactly the matching rows, each once, in
      descending id order. */
  lemma WalkVisitsAll(t: seq<Row>, keep: Row -> bool, size: int)
    requires Table(t) && 1 <= size <= 100
    ensures Flat(Walk(_ => t, keep, size)) == Select(t, keep) && Table(Select(t, keep))
    ensures forall r :: r in Flat(Walk(_ => t, keep, size)) <==> r in t && keep(r)
  {
    WalkIsChunks(t, keep, size);
    ChunksFlat(Select(t, keep), size);
    SelectIs(t, keep);
  }

  /** Its page `p` is OFFSET page `p`, and past its end the OFFSET pages are empty. */
  lemma WalkPageIsOffsetPage(t: seq<Row>, keep: Row -> bool, size: int, p: int)
    requires Table(t) && 1 <= size <= 100 && p >= 1
    ensures Fetch(t, keep, p, size, 0) ==
              if p <= |Walk(_ => t, keep, size)| then Walk(_ => t, keep, size)[p - 1] else []
  {
    WalkIsChunks(t, keep, size);
    FetchNumbered(t, keep, size, p);
  }

  lemma FetchNumbered(t: seq<Row>, keep: Row -> bool, size: int, p: int)
    requires 1 <= size <= 100 && p >= 1
    ensures var chunks := Chunks(Select(t, keep), size);
            Fetch(t, keep, p, size, 0) == if p <= |chunks| then chunks[p - 1] else []
  {
    ChunkAt(Select(t, keep), size, p - 1, (p - 1) * size);
    hide Chunks, Select, Limit, Offset;
  }

  // -------------------------------------------------------------- a changing table

  /** Whatever happens to the table between the calls, ids come out strictly descending
      (so no row twice), and a matching row that stays as it is comes out. */
  lemma {:induction false} WalkFromKeepsStable(tables: nat -> seq<Row>, k: nat, keep: Row -> bool, size: int,
                                                  lastId: int, r: Row)
    requires (forall j :: Table(tables(j))) && 1 <= size <= 100 && lastId > 0
    ensures var out := Flat(WalkFrom(tables, k, keep, size, lastId));
            Table(out) && (out != [] ==> out[0].id < lastId) &&
            (keep(r) && r.id < lastId && (forall j :: r in tables(j)) ==> r in out)
    decreases lastId
  {
    var rows := Select(tables(k), Below(keep, lastId));
    var page := Limit(rows, size);
    SelectIs(tables(k), Below(keep, lastId));
    assert page == Fetch(tables(k), keep, 1, size, lastId);
    if page != [] {
      var last := LastId(page);
      CursorFalls(tables(k), keep, size, lastId);
      assert page[0] in rows;
      WalkFromKeepsStable(tables, k + 1, keep, size, last, r);
      FlatCons(page, WalkFrom(tables, k + 1, keep, size, last), last);
      PageHasTop(rows, size, r);
    }
  }

  lemma FlatCons(page: seq<Row>, more: seq<seq<Row>>, last: int)
    requires Table(page) && Table(Flat(more)) && page != [] && LastId(page) == last
    requires Flat(more) != [] ==> Flat(more)[0].id < last
    ensures Flat([page] + more) == page + Flat(more) && Table(page + Flat(more))
  {
    assert ([page] + more)[1..] == more;
    JoinTables(page, Flat(more), last);
  }

  lemma JoinTables(a: seq<Row>, b: seq<Row>, last: int)
    requires Table(a) && Table(b) && a != [] && LastId(a) == last && (b != [] ==> b[0].id < last)
    ensures Table(a + b)
  {
  }

  /** A row of the selection is on its first page or below that page's last id. */
  lemma PageHasTop(rows: seq<Row>, size: nat, r: Row)
    requires Table(rows) && rows != [] && size >= 1
    ensures r in rows ==> r in Limit(rows, size) || r.id < LastId(Limit(rows, size))
  {
    if r in rows {
      var i :| 0 <= i < |rows| && rows[i] == r;
      if i < |Limit(rows, size)| {
        assert Limit(rows, size)[i] == r;
      }
    }
  }

  lemma WalkKeepsStable(tables: nat -> seq<Row>, keep: Row -> bool, size: int, r: Row)
    requires (forall j :: Table(tables(j))) && 1 <= size <= 100
    ensures var out := Flat(Walk(tables, keep, size));
            Table(out) && (keep(r) && (forall j :: r in tables(j)) ==> r in out)
  {
    var rows := Select(tables(0), keep);
    var page := Limit(rows, size);
    SelectIs(tables(0), keep);
    FetchFirst(tables(0), keep, size);
    CursorFalls(tables(0), keep, size, 0);
    if page != [] {
      var last := LastId(page);
      var more := WalkFrom(tables, 1, keep, size, last);
      assert Walk(tables, keep, size) == [page] + more;
      WalkFromKeepsStable(tables, 1, keep, size, last, r);
      FlatCons(page, more, last);
      PageHasTop(rows, size, r);
      assert keep(r) && (forall j :: r in tables(j)) ==> r in page + Flat(more);
    }
  }
}
