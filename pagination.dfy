/** Walking a long `_all_docs` or view listing page by page
    (`iter_all_docs`, `iter_view`), and cutting a list of rows into id
    batches (`id_slice_iter`). */
module Pagination {
  import opened Wrappers
  import opened Json
  import opened StringOrder
  import opened Documents

  /** One `include_docs` row of a listing: its document id and its doc. */
  datatype ViewRow = ViewRow(id: string, doc: Value)

  function Ids(rows: seq<ViewRow>): (r: seq<string>)
    ensures |r| == |rows|
  {
    seq(|rows|, i requires 0 <= i < |rows| => rows[i].id)
  }

  function Docs(rows: seq<ViewRow>): (r: seq<Value>)
    ensures |r| == |rows|
  {
    seq(|rows|, i requires 0 <= i < |rows| => rows[i].doc)
  }

  /** Each row's id is below the next one's: the order CouchDB lists rows in. */
  predicate SortedById(table: seq<ViewRow>)
    decreases |table|
  {
    |table| <= 1 || (Less(table[0].id, table[1].id) && SortedById(table[1..]))
  }

  lemma {:induction false} SortedByIdStrict(table: seq<ViewRow>)
    requires SortedById(table)
    ensures StrictlySorted(Ids(table))
    decreases |table|
  {
    if |table| > 1 {
      SortedByIdStrict(table[1..]);
      assert Ids(table[1..]) == Ids(table)[1..];
      forall i | 0 <= i < |Ids(table)| - 1 ensures Less(Ids(table)[i], Ids(table)[i + 1]) {
        if i > 0 {
          assert Less(Ids(table[1..])[i - 1], Ids(table[1..])[i]);
        }
      }
      ChainSorted(Ids(table));
    }
  }

  /** The rows whose id is at or after `start`. */
  function AtOrAfter(table: seq<ViewRow>, start: string): seq<ViewRow>
    decreases |table|
  {
    if table == [] then []
    else (if LessEq(start, table[0].id) then [table[0]] else []) + AtOrAfter(table[1..], start)
  }

  /** The rows the server answers one request with: those from
      `startkey_docid` on (all of them without one), at most `limit`. */
  function Page(table: seq<ViewRow>, start: Option<string>, limit: nat): (r: seq<ViewRow>)
  {
    var from := if start.None? then table else AtOrAfter(table, start.value);
    if |from| <= limit then from else from[..limit]
  }

  /** In a listing sorted by id, the rows from a row's own id on are that
      row and the ones after it. */
  lemma {:induction false} AtOrAfterSorted(table: seq<ViewRow>, j: nat)
    requires StrictlySorted(Ids(table))
    requires j < |table|
    ensures AtOrAfter(table, table[j].id) == table[j..]
    decreases j
  {
    if j == 0 {
      AllAtOrAfter(table, table[0].id);
    } else {
      assert Less(Ids(table)[0], Ids(table)[j]);
      if LessEq(table[j].id, table[0].id) {
        Antisymmetric(table[0].id, table[j].id);
      }
      assert Ids(table[1..]) == Ids(table)[1..];
      AtOrAfterSorted(table[1..], j - 1);
      assert table[1..][j - 1..] == table[j..];
    }
  }

  lemma {:induction false} AllAtOrAfter(table: seq<ViewRow>, start: string)
    requires StrictlySorted(Ids(table))
    requires table != [] ==> table[0].id == start
    ensures AtOrAfter(table, start) == table
    decreases |table|
  {
    if table != [] {
      Reflexive(start);
      assert Ids(table[1..]) == Ids(table)[1..];
      forall i | 0 <= i < |table[1..]| ensures LessEq(start, table[1..][i].id) {
        assert Less(Ids(table)[0], Ids(table)[i + 1]);
      }
      AllAbove(table[1..], start);
    }
  }

  lemma {:induction false} AllAbove(table: seq<ViewRow>, start: string)
    requires forall i :: 0 <= i < |table| ==> LessEq(start, table[i].id)
    ensures AtOrAfter(table, start) == table
    decreases |table|
  {
    if table != [] {
      AllAbove(table[1..], start);
    }
  }

  /** The `startkey_docid` of the request after `k` rows were yielded. */
  function StartAfter(table: seq<ViewRow>, k: nat): Option<string>
    requires k <= |table|
  {
    if k == 0 then None else Some(table[k - 1].id)
  }

  /** Which rows of a sorted listing the next page holds: from the last
      yielded row (or the first row) on, at most `limit` of them. */
  lemma PageSlice(table: seq<ViewRow>, k: nat, limit: nat)
    requires StrictlySorted(Ids(table))
    requires k <= |table|
    ensures var from := if k == 0 then 0 else k - 1;
      var end := if |table| - from <= limit then |table| else from + limit;
      Page(table, StartAfter(table, k), limit) == table[from..end]
  {
    if k > 0 {
      AtOrAfterSorted(table, k - 1);
    }
  }

  lemma PageSliceById(table: seq<ViewRow>, k: nat, limit: nat)
    requires SortedById(table)
    requires k <= |table|
    ensures Page(table, StartAfter(table, k), limit) == table[(if k == 0 then 0 else k - 1)..PageEnd(table, k, limit)]
  {
    SortedByIdStrict(table);
    PageSlice(table, k, limit);
  }

  /** How many rows have been yielded once the next page is done. */
  function PageEnd(table: seq<ViewRow>, k: nat, limit: nat): nat
    requires k <= |table|
  {
    var from := if k == 0 then 0 else k - 1;
    if |table| - from <= limit then |table| else from + limit
  }

  /** One turn of the loop, given the page: it is empty only for an empty
      listing; otherwise its last row is where the yielded stretch ends,
      and a full page always moves on. */
  lemma PageShape(table: seq<ViewRow>, k: nat, limit: nat, rows: seq<ViewRow>)
    requires k <= |table| && limit >= 2
    requires rows == table[(if k == 0 then 0 else k - 1)..PageEnd(table, k, limit)]
    ensures rows == [] <==> table == []
    ensures rows != [] ==>
      && k <= PageEnd(table, k, limit) <= |table|
      && StartAfter(table, PageEnd(table, k, limit)) == Some(rows[|rows| - 1].id)
      && (|rows| < limit ==> PageEnd(table, k, limit) == |table|)
      && (|rows| >= limit ==> k < PageEnd(table, k, limit))
  {
  }

  /** What one page yields, its first row only on the first page, is the
      next stretch of the listing's docs. */
  lemma PageYield(table: seq<ViewRow>, k: nat, limit: nat, rows: seq<ViewRow>)
    requires k <= |table| && limit >= 2
    requires rows == table[(if k == 0 then 0 else k - 1)..PageEnd(table, k, limit)]
    requires rows != []
    ensures (if Some(rows[0].id) != StartAfter(table, k) then [rows[0].doc] else []) + Docs(rows[1..])
             == Docs(table)[k..PageEnd(table, k, limit)]
  {
    var from := if k == 0 then 0 else k - 1;
    var end := PageEnd(table, k, limit);
    DocsSlice(table, from, end);
    DocsSlice(table, from + 1, end);
    assert rows[1..] == table[from + 1..end];
    if k == 0 {
      assert Docs(rows) == [rows[0].doc] + Docs(rows[1..]);
    }
  }

  lemma DocsPrefix(table: seq<ViewRow>, k: nat, end: nat)
    requires k <= end <= |table|
    ensures Docs(table)[..end] == Docs(table)[..k] + Docs(table)[k..end]
    ensures Docs(table)[..|table|] == Docs(table)
  {
  }

  lemma DocsSlice(table: seq<ViewRow>, a: nat, b: nat)
    requires a <= b <= |table|
    ensures Docs(table[a..b]) == Docs(table)[a..b]
  {
  }

  /** The paging loop of `iter_all_docs` and `iter_view`: ask for a page of
      `chunksize` rows, skip its first row when it is the one the previous
      page ended with, yield the rest, and stop at an empty or short page.
      Over a listing sorted by id, it yields every doc once, in order. */
  method Paginate(table: seq<ViewRow>, chunksize: int) returns (r: Result<seq<Value>, PyError>)
    requires SortedById(table)
    ensures chunksize < 10 ==> r == Err(AssertionError)
    ensures chunksize >= 10 ==> r == Ok(Docs(table))
  {
    if chunksize < 10 {
      return Err(AssertionError);
    }
    var out: seq<Value> := [];
    var start: Option<string> := None;
    ghost var k: nat := 0;
    while true
      invariant k <= |table|
      invariant out == Docs(table)[..k]
      invariant start == StartAfter(table, k)
      decreases |table| - k
    {
      var rows := Page(table, start, chunksize);
      PageSliceById(table, k, chunksize);
      PageShape(table, k, chunksize, rows);
      if rows == [] {
        break;
      }
      PageYield(table, k, chunksize, rows);
      ghost var end := PageEnd(table, k, chunksize);
      ghost var yielded := out;
      ghost var next := (if Some(rows[0].id) != start then [rows[0].doc] else []) + Docs(rows[1..]);
      if Some(rows[0].id) != start {
        out := out + [rows[0].doc];
      }
      out := out + Docs(rows[1..]);
      assert out == yielded + next;
      DocsPrefix(table, k, end);
      k := end;
      if |rows| < chunksize {
        break;
      }
      start := Some(rows[|rows| - 1].id);
    }
    DocsPrefix(table, k, |table|);
    return Ok(out);
  }

  /** A row of a view listing: its key and its `include_docs` row. */
  datatype KeyedRow = KeyedRow(key: Value, row: ViewRow)

  /** The rows a `key=...` query of the view answers, in the view's order. */
  function RowsOfKey(view: seq<KeyedRow>, key: Value): (r: seq<ViewRow>)
    ensures forall x :: x in r <==> KeyedRow(key, x) in view
    decreases |view|
  {
    if view == [] then []
    else (if view[0].key == key then [view[0].row] else []) + RowsOfKey(view[1..], key)
  }

  /** `iter_view`: the same paging loop, each request carrying the key, over
      the view's rows for that key, which CouchDB lists in id order. */
  method IterView(view: seq<KeyedRow>, key: Value, chunksize: int) returns (r: Result<seq<Value>, PyError>)
    requires SortedById(RowsOfKey(view, key))
    ensures chunksize < 10 ==> r == Err(AssertionError)
    ensures chunksize >= 10 ==> r == Ok(Docs(RowsOfKey(view, key)))
  {
    r := Paginate(RowsOfKey(view, key), chunksize);
  }

  /** `[row['id'] for row in rows]`, when every row has an id. */
  function RowIds(rows: seq<Fields>): (r: seq<Value>)
    requires forall i :: 0 <= i < |rows| ==> "id" in rows[i]
    ensures |r| == |rows|
    ensures forall i :: 0 <= i < |rows| ==> r[i] == rows[i]["id"]
  {
    seq(|rows|, i requires 0 <= i < |rows| && "id" in rows[i] => rows[i]["id"])
  }

  /** The same comprehension with its KeyError. */
  function IdsOf(rows: seq<Fields>): (r: Result<seq<Value>, PyError>)
    ensures r.Ok? <==> forall i :: 0 <= i < |rows| ==> "id" in rows[i]
    ensures r.Ok? ==> r.value == RowIds(rows)
    ensures r.Err? ==> r.error == KeyError("id")
  {
    if forall i :: 0 <= i < |rows| ==> "id" in rows[i] then Ok(RowIds(rows)) else Err(KeyError("id"))
  }

  /** `math.ceil(n / size)` for a positive size. */
  function CeilDiv(n: nat, size: nat): (q: nat)
    requires size > 0
    ensures (q - 1) * size < n <= q * size
  {
    var q := (n + size - 1) / size;
    assert q * size <= n + size - 1 < q * size + size;
    q
  }

  function Concat(chunks: seq<seq<Value>>): seq<Value>
    decreases |chunks|
  {
    if chunks == [] then [] else Concat(chunks[..|chunks| - 1]) + chunks[|chunks| - 1]
  }

  function End(n: nat, size: nat, i: nat): nat {
    if (i + 1) * size < n then (i + 1) * size else n
  }

  /** How many rows the first `i` of `count` slices cover. */
  function Covered(n: nat, size: nat, i: nat, count: nat): nat {
    if i == count then n else i * size
  }

  /** `id_slice_iter`: the ids of the rows, `size` at a time. A zero size
      divides by zero; a negative one gives no slices at all. */
  method IdSlices(rows: seq<Fields>, size: int) returns (r: Result<seq<seq<Value>>, PyError>)
    ensures size == 0 ==> r == Err(ZeroDivisionError)
    ensures size < 0 ==> r == Ok([])
    ensures size > 0 ==> (r.Ok? <==> forall i :: 0 <= i < |rows| ==> "id" in rows[i])
    ensures size > 0 && r.Err? ==> r.error == KeyError("id")
    ensures size > 0 && r.Ok? ==> |r.value| == CeilDiv(|rows|, size)
    ensures size > 0 && r.Ok? ==> forall i :: 0 <= i < |r.value| ==>
      i * size < End(|rows|, size, i) <= |rows| && r.value[i] == RowIds(rows[i * size..End(|rows|, size, i)])
    ensures size > 0 && r.Ok? ==> Concat(r.value) == RowIds(rows)
  {
    if size == 0 {
      return Err(ZeroDivisionError);
    }
    if size < 0 {
      return Ok([]);
    }
    var count := CeilDiv(|rows|, size);
    var out: seq<seq<Value>> := [];
    var i := 0;
    while i < count
      invariant 0 <= i <= count
      invariant |out| == i
      invariant i < count ==> Covered(|rows|, size, i, count) == i * size
      invariant Covered(|rows|, size, i, count) <= |rows|
      invariant forall j :: 0 <= j < Covered(|rows|, size, i, count) ==> "id" in rows[j]
      invariant forall j :: 0 <= j < i ==>
        && j * size < End(|rows|, size, j) <= Covered(|rows|, size, i, count)
        && out[j] == RowIds(rows[j * size..End(|rows|, size, j)])
      invariant Concat(out) == RowIds(rows[..Covered(|rows|, size, i, count)])
    {
      ChunkStart(|rows|, size, i, count);
      var lo := i * size;
      var hi := End(|rows|, size, i);
      var ids := IdsOf(rows[lo..hi]);
      if ids.Err? {
        NotAllIds(rows, lo, hi);
        return Err(ids.error);
      }
      SliceStep(rows, out, lo, hi, ids.value);
      out := out + [ids.value];
      i := i + 1;
    }
    assert rows[..|rows|] == rows;
    return Ok(out);
  }

  lemma NotAllIds(rows: seq<Fields>, lo: nat, hi: nat)
    requires lo <= hi <= |rows|
    requires !(forall i :: 0 <= i < |rows[lo..hi]| ==> "id" in rows[lo..hi][i])
    ensures !(forall i :: 0 <= i < |rows| ==> "id" in rows[i])
  {
    var i :| 0 <= i < |rows[lo..hi]| && "id" !in rows[lo..hi][i];
    assert rows[lo + i] == rows[lo..hi][i];
  }

  /** Appending the ids of the next slice extends the ids covered. */
  lemma SliceStep(rows: seq<Fields>, out: seq<seq<Value>>, lo: nat, hi: nat, ids: seq<Value>)
    requires lo <= hi <= |rows|
    requires forall j :: 0 <= j < lo ==> "id" in rows[j]
    requires forall j :: 0 <= j < hi - lo ==> "id" in rows[lo..hi][j]
    requires Concat(out) == RowIds(rows[..lo])
    requires ids == RowIds(rows[lo..hi])
    ensures forall j :: 0 <= j < hi ==> "id" in rows[j]
    ensures Concat(out + [ids]) == RowIds(rows[..hi])
  {
    forall j | lo <= j < hi ensures "id" in rows[j] {
      assert rows[j] == rows[lo..hi][j - lo];
    }
    assert (out + [ids])[..|out|] == out;
    assert rows[..hi] == rows[..lo] + rows[lo..hi];
  }

  lemma ChunkStart(n: nat, size: nat, i: nat, count: nat)
    requires size > 0 && count == CeilDiv(n, size) && i < count
    ensures i * size < End(n, size, i) <= n
    ensures Covered(n, size, i + 1, count) == End(n, size, i)
    ensures i + 1 < count ==> Covered(n, size, i + 1, count) == (i + 1) * size
  {
    assert i * size <= (count - 1) * size;
    if i + 1 < count {
      assert (i + 1) * size <= (count - 1) * size;
    } else {
      assert (i + 1) * size == count * size;
    }
  }
}
