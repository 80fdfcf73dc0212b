/** Documents as the client holds them: mutable dicts that the bulk-save
    methods update in place from the rows CouchDB answers with. */
module Documents {
  import opened Wrappers
  import opened Json

  /** A document dict; `save` and friends update it in place. */
  class Doc {
    var fields: Fields

    constructor(fields: Fields)
      ensures this.fields == fields
    {
      this.fields := fields;
    }
  }

  /** The dicts of a list of documents. */
  function Contents(docs: seq<Doc>): (r: seq<Fields>)
    reads set d | d in docs
    ensures |r| == |docs|
    ensures forall i :: 0 <= i < |docs| ==> r[i] == docs[i].fields
  {
    if docs == [] then [] else [docs[0].fields] + Contents(docs[1..])
  }

  /** No dict appears twice in the list. */
  predicate Distinct(docs: seq<Doc>) {
    forall i, j :: 0 <= i < j < |docs| ==> docs[i] != docs[j]
  }

  /** One dict of the list takes new fields; the others keep theirs. */
  method SetFields(docs: seq<Doc>, k: nat, f: Fields)
    requires Distinct(docs) && k < |docs|
    modifies docs[k]
    ensures Contents(docs) == old(Contents(docs))[k := f]
  {
    docs[k].fields := f;
  }

  /** A doc without an `_id` gets the generated one; nothing else changes. */
  function WithId(f: Fields, id: string): (r: Fields)
    ensures r.Keys == f.Keys + {"_id"}
    ensures forall k | k in f :: r[k] == f[k]
    ensures "_id" !in f ==> r["_id"] == Str(id)
  {
    if "_id" in f then f else f["_id" := Str(id)]
  }

  /** The documents after the missing ids are filled in; `newId(i)` is the
      id generated for position `i`. */
  function FillIds(fs: seq<Fields>, newId: nat -> string): (r: seq<Fields>)
    ensures |r| == |fs|
    ensures forall i :: 0 <= i < |fs| ==> r[i] == WithId(fs[i], newId(i))
  {
    seq(|fs|, i requires 0 <= i < |fs| => WithId(fs[i], newId(i)))
  }

  /** Documents that all have an `_id` are left as they are. */
  lemma FillIdsNoop(fs: seq<Fields>, newId: nat -> string)
    requires forall i :: 0 <= i < |fs| ==> "_id" in fs[i]
    ensures FillIds(fs, newId) == fs
  {
  }

  /** Filling ids in twice changes nothing the second time. */
  lemma FillIdsIdempotent(fs: seq<Fields>, newId: nat -> string, otherId: nat -> string)
    ensures FillIds(FillIds(fs, newId), otherId) == FillIds(fs, newId)
  {
  }

  /** Does the row answer for this document (`doc['_id'] == row['id']`)? */
  predicate Echoes(f: Fields, row: Fields) {
    "_id" in f && "id" in row && f["_id"] == row["id"]
  }

  /** The error the loop raises at a row that does not echo its doc. */
  function RowError(row: Fields): PyError {
    if "id" !in row then KeyError("id") else AssertionError
  }

  function Min(a: int, b: int): int {
    if a < b then a else b
  }

  /** The first position, among those `zip` pairs up, whose row does not
      echo its document; the number of pairs if there is none. */
  function FirstMismatch(fs: seq<Fields>, rows: seq<Fields>): (k: nat)
    ensures k <= Min(|fs|, |rows|)
    ensures forall j :: 0 <= j < k ==> Echoes(fs[j], rows[j])
    ensures k < Min(|fs|, |rows|) ==> !Echoes(fs[k], rows[k])
  {
    FirstMismatchFrom(fs, rows, 0)
  }

  function FirstMismatchFrom(fs: seq<Fields>, rows: seq<Fields>, i: nat): (k: nat)
    requires i <= Min(|fs|, |rows|)
    requires forall j :: 0 <= j < i ==> Echoes(fs[j], rows[j])
    ensures i <= k <= Min(|fs|, |rows|)
    ensures forall j :: 0 <= j < k ==> Echoes(fs[j], rows[j])
    ensures k < Min(|fs|, |rows|) ==> !Echoes(fs[k], rows[k])
    decreases Min(|fs|, |rows|) - i
  {
    if i == Min(|fs|, |rows|) || !Echoes(fs[i], rows[i]) then i
    else FirstMismatchFrom(fs, rows, i + 1)
  }

  /** `save_many`'s update of one doc by its row: the new `_rev` when the
      row has one, else nothing (a conflict). */
  function Reconcile(f: Fields, row: Fields): Fields {
    if "rev" in row then f["_rev" := row["rev"]] else f
  }

  /** The documents after the first `k` of them were reconciled. */
  function Reconciled(fs: seq<Fields>, rows: seq<Fields>, k: nat): (r: seq<Fields>)
    requires k <= Min(|fs|, |rows|)
    ensures |r| == |fs|
  {
    seq(|fs|, j requires 0 <= j < |fs| => if j < k then Reconcile(fs[j], rows[j]) else fs[j])
  }

  /** A list that agrees with `Reconciled` position by position is it. */
  lemma ReconciledFrom(fs: seq<Fields>, rows: seq<Fields>, k: nat, after: seq<Fields>)
    requires k <= Min(|fs|, |rows|) && |after| == |fs|
    requires forall j :: 0 <= j < k ==> after[j] == Reconcile(fs[j], rows[j])
    requires forall j :: k <= j < |fs| ==> after[j] == fs[j]
    ensures after == Reconciled(fs, rows, k)
  {
  }

  /** The positions below `n` whose row has no `rev`, in ascending order. */
  function ConflictIndices(rows: seq<Fields>, n: nat): (r: seq<nat>)
    requires n <= |rows|
    ensures forall k :: 0 <= k < |r| ==> r[k] < n
    decreases n
  {
    if n == 0 then []
    else ConflictIndices(rows, n - 1) + (if "rev" in rows[n - 1] then [] else [n - 1])
  }

  /** The conflicts are exactly the rows without a `rev`, each once, in the
      order of the documents. */
  lemma {:induction false} ConflictIndicesExact(rows: seq<Fields>, n: nat)
    requires n <= |rows|
    ensures forall i :: 0 <= i < n ==> (i in ConflictIndices(rows, n) <==> "rev" !in rows[i])
    ensures forall a, b :: 0 <= a < b < |ConflictIndices(rows, n)| ==>
      ConflictIndices(rows, n)[a] < ConflictIndices(rows, n)[b]
    decreases n
  {
    if n > 0 {
      ConflictIndicesExact(rows, n - 1);
      var front := ConflictIndices(rows, n - 1);
      assert forall x :: x in front ==> x < n - 1;
    }
  }

  /** There is no conflict exactly when every paired row has a `rev`. */
  lemma NoConflictIff(rows: seq<Fields>, n: nat)
    requires n <= |rows|
    ensures ConflictIndices(rows, n) == [] <==> forall i :: 0 <= i < n ==> "rev" in rows[i]
  {
    ConflictIndicesExact(rows, n);
    if ConflictIndices(rows, n) != [] {
      assert ConflictIndices(rows, n)[0] in ConflictIndices(rows, n);
    }
  }

  /** The documents at the given positions. */
  function Pick(docs: seq<Doc>, idx: seq<nat>): (r: seq<Doc>)
    requires forall k :: 0 <= k < |idx| ==> idx[k] < |docs|
    ensures |r| == |idx|
    ensures forall k :: 0 <= k < |idx| ==> r[k] == docs[idx[k]]
  {
    seq(|idx|, k requires 0 <= k < |idx| => docs[idx[k]])
  }

  /** What reconciling does to documents: a conflicting one is left exactly
      as it was, every other reconciled one gets its row's `rev` as `_rev`
      and keeps all its other fields, the rest are untouched. */
  lemma ReconciledEffect(fs: seq<Fields>, rows: seq<Fields>, k: nat, i: nat)
    requires k <= Min(|fs|, |rows|) && i < |fs|
    ensures i in ConflictIndices(rows, k) ==> Reconciled(fs, rows, k)[i] == fs[i]
    ensures i < k && i !in ConflictIndices(rows, k) ==>
      && "rev" in rows[i]
      && Reconciled(fs, rows, k)[i]["_rev"] == rows[i]["rev"]
      && Reconciled(fs, rows, k)[i] - {"_rev"} == fs[i] - {"_rev"}
    ensures k <= i ==> Reconciled(fs, rows, k)[i] == fs[i]
  {
    ConflictIndicesExact(rows, k);
    if i < k && i !in ConflictIndices(rows, k) {
      assert Reconciled(fs, rows, k)[i] == fs[i]["_rev" := rows[i]["rev"]];
    }
  }

  /** `all_or_nothing` bulk save stops at the first row that does not echo
      its doc or has no `rev`. */
  function FirstBulkFailure(fs: seq<Fields>, rows: seq<Fields>): (k: nat)
    ensures k <= Min(|fs|, |rows|)
    ensures forall j :: 0 <= j < k ==> Echoes(fs[j], rows[j]) && "rev" in rows[j]
    ensures k < Min(|fs|, |rows|) ==> !Echoes(fs[k], rows[k]) || "rev" !in rows[k]
  {
    FirstBulkFailureFrom(fs, rows, 0)
  }

  function FirstBulkFailureFrom(fs: seq<Fields>, rows: seq<Fields>, i: nat): (k: nat)
    requires i <= Min(|fs|, |rows|)
    requires forall j :: 0 <= j < i ==> Echoes(fs[j], rows[j]) && "rev" in rows[j]
    ensures i <= k <= Min(|fs|, |rows|)
    ensures forall j :: 0 <= j < k ==> Echoes(fs[j], rows[j]) && "rev" in rows[j]
    ensures k < Min(|fs|, |rows|) ==> !Echoes(fs[k], rows[k]) || "rev" !in rows[k]
    decreases Min(|fs|, |rows|) - i
  {
    if i == Min(|fs|, |rows|) || !Echoes(fs[i], rows[i]) || "rev" !in rows[i] then i
    else FirstBulkFailureFrom(fs, rows, i + 1)
  }

  /** The error the all-or-nothing loop raises at its failing row. */
  function BulkRowError(f: Fields, row: Fields): PyError {
    if !Echoes(f, row) then RowError(row) else KeyError("rev")
  }

  /** When every row echoes its doc and carries a `rev`, both bulk saves
      leave the documents in the same state. */
  lemma BulkSavesAgree(fs: seq<Fields>, rows: seq<Fields>)
    requires forall j :: 0 <= j < Min(|fs|, |rows|) ==> Echoes(fs[j], rows[j]) && "rev" in rows[j]
    ensures FirstMismatch(fs, rows) == FirstBulkFailure(fs, rows) == Min(|fs|, |rows|)
    ensures ConflictIndices(rows, Min(|fs|, |rows|)) == []
  {
    NoConflictIff(rows, Min(|fs|, |rows|));
  }

  /** `delete_many`'s marking of the first `k` documents. */
  function MarkDeleted(fs: seq<Fields>, k: nat): (r: seq<Fields>)
    requires k <= |fs|
    ensures |r| == |fs|
  {
    seq(|fs|, j requires 0 <= j < |fs| => if j < k then fs[j]["_deleted" := Bool(true)] else fs[j])
  }

  /** A list that agrees with `MarkDeleted` position by position is it. */
  lemma MarkedFrom(fs: seq<Fields>, k: nat, after: seq<Fields>)
    requires k <= |fs| && |after| == |fs|
    requires forall j :: 0 <= j < k ==> after[j] == fs[j]["_deleted" := Bool(true)]
    requires forall j :: k <= j < |fs| ==> after[j] == fs[j]
    ensures after == MarkDeleted(fs, k)
  {
  }

  /** Marking keeps every `_id`. */
  lemma MarkedKeepIds(fs: seq<Fields>)
    requires FirstWithoutId(fs) == |fs|
    ensures forall j :: 0 <= j < |fs| ==> "_id" in MarkDeleted(fs, |fs|)[j]
  {
  }

  /** The position of the first document without `_id`, or the length. */
  function FirstWithoutId(fs: seq<Fields>): (k: nat)
    ensures k <= |fs|
    ensures forall j :: 0 <= j < k ==> "_id" in fs[j]
    ensures k < |fs| ==> "_id" !in fs[k]
  {
    if fs == [] || "_id" !in fs[0] then 0 else 1 + FirstWithoutId(fs[1..])
  }

  /** `has_attachment`: a missing `_attachments` or a missing name is
      False; indexing anything but a dict is a TypeError that escapes. */
  function HasAttachment(doc: Fields, name: string): (r: Result<bool, PyError>)
    ensures "_attachments" !in doc ==> r == Ok(false)
    ensures "_attachments" in doc && doc["_attachments"].Obj? ==>
      r == Ok(name in doc["_attachments"].members)
    ensures "_attachments" in doc && !doc["_attachments"].Obj? ==> r == Err(TypeError)
  {
    if "_attachments" !in doc then Ok(false)
    else match doc["_attachments"]
      case Obj(m) => Ok(name in m)
      case _ => Err(TypeError)
  }

  /** Adding an attachment makes it present, and leaves the others as they were. */
  lemma AddAttachment(doc: Fields, m: Fields, name: string, att: Value, other: string)
    requires "_attachments" in doc && doc["_attachments"] == Obj(m)
    ensures HasAttachment(doc["_attachments" := Obj(m[name := att])], name) == Ok(true)
    ensures other != name ==>
      HasAttachment(doc["_attachments" := Obj(m[name := att])], other) == HasAttachment(doc, other)
  {
  }

  /** `for doc in filter(lambda d: '_id' not in d, docs): doc['_id'] = random_id()` */
  method FillMissingIds(docs: seq<Doc>, newId: nat -> string)
    requires Distinct(docs)
    modifies set d | d in docs
    ensures Contents(docs) == FillIds(old(Contents(docs)), newId)
  {
    ghost var before := Contents(docs);
    var i := 0;
    while i < |docs|
      invariant 0 <= i <= |docs|
      invariant forall j :: 0 <= j < i ==> docs[j].fields == WithId(before[j], newId(j))
      invariant forall j :: i <= j < |docs| ==> docs[j].fields == before[j]
    {
      if "_id" !in docs[i].fields {
        docs[i].fields := docs[i].fields["_id" := Str(newId(i))];
      }
      i := i + 1;
    }
  }

  /** The scan stops at the first row that does not echo its doc. */
  lemma FirstMismatchAt(fs: seq<Fields>, rows: seq<Fields>, i: nat)
    requires i <= Min(|fs|, |rows|)
    requires forall j :: 0 <= j < i ==> Echoes(fs[j], rows[j])
    requires i < Min(|fs|, |rows|) ==> !Echoes(fs[i], rows[i])
    ensures FirstMismatch(fs, rows) == i
  {
  }

  lemma FirstBulkFailureAt(fs: seq<Fields>, rows: seq<Fields>, i: nat)
    requires i <= Min(|fs|, |rows|)
    requires forall j :: 0 <= j < i ==> Echoes(fs[j], rows[j]) && "rev" in rows[j]
    requires i < Min(|fs|, |rows|) ==> !Echoes(fs[i], rows[i]) || "rev" !in rows[i]
    ensures FirstBulkFailure(fs, rows) == i
  {
  }

  /** The `save_many` loop over the response rows: each doc whose row
      echoes it takes the row's `rev`; the scan stops at the first row that
      does not echo its doc (position `k`); `conflicts` are the docs whose
      row has no `rev`. */
  method ApplyRows(docs: seq<Doc>, rows: seq<Fields>) returns (k: nat, conflicts: seq<Doc>)
    requires Distinct(docs)
    modifies set d | d in docs
    ensures k == FirstMismatch(old(Contents(docs)), rows)
    ensures Contents(docs) == Reconciled(old(Contents(docs)), rows, k)
    ensures k == Min(|docs|, |rows|) ==> conflicts == Pick(docs, ConflictIndices(rows, k))
  {
    ghost var before := Contents(docs);
    k, conflicts := ScanRows(docs, rows);
    FirstMismatchAt(before, rows, k);
    ReconciledFrom(before, rows, k, Contents(docs));
  }

  /** The loop of `ApplyRows`, stated position by position. */
  method ScanRows(docs: seq<Doc>, rows: seq<Fields>) returns (k: nat, conflicts: seq<Doc>)
    requires Distinct(docs)
    modifies set d | d in docs
    ensures k <= Min(|docs|, |rows|)
    ensures forall j :: 0 <= j < k ==> Echoes(old(docs[j].fields), rows[j])
    ensures k < Min(|docs|, |rows|) ==> !Echoes(old(docs[k].fields), rows[k])
    ensures forall j :: 0 <= j < k ==> docs[j].fields == Reconcile(old(docs[j].fields), rows[j])
    ensures forall j :: k <= j < |docs| ==> docs[j].fields == old(docs[j].fields)
    ensures conflicts == Pick(docs, ConflictIndices(rows, k))
  {
    var n := Min(|docs|, |rows|);
    conflicts := [];
    k := 0;
    while k < n
      invariant 0 <= k <= n
      invariant forall j :: 0 <= j < k ==> Echoes(old(docs[j].fields), rows[j])
      invariant forall j :: 0 <= j < k ==> docs[j].fields == Reconcile(old(docs[j].fields), rows[j])
      invariant forall j :: k <= j < |docs| ==> docs[j].fields == old(docs[j].fields)
      invariant conflicts == Pick(docs, ConflictIndices(rows, k))
    {
      if !Echoes(docs[k].fields, rows[k]) {
        break;
      }
      PickConflictsStep(docs, rows, k);
      if "rev" in rows[k] {
        docs[k].fields := docs[k].fields["_rev" := rows[k]["rev"]];
      } else {
        conflicts := conflicts + [docs[k]];
      }
      k := k + 1;
    }
  }

  /** One more row adds its doc to the conflicts exactly when it has no `rev`. */
  lemma PickConflictsStep(docs: seq<Doc>, rows: seq<Fields>, k: nat)
    requires k < |docs| && k < |rows|
    ensures Pick(docs, ConflictIndices(rows, k + 1)) ==
      Pick(docs, ConflictIndices(rows, k)) + (if "rev" in rows[k] then [] else [docs[k]])
  {
    assert ConflictIndices(rows, k + 1) == ConflictIndices(rows, k) + (if "rev" in rows[k] then [] else [k]);
  }

  /** The `bulksave` loop: the same, but a row without a `rev` also stops
      the scan. */
  method ApplyAllRows(docs: seq<Doc>, rows: seq<Fields>) returns (k: nat)
    requires Distinct(docs)
    modifies set d | d in docs
    ensures k == FirstBulkFailure(old(Contents(docs)), rows)
    ensures Contents(docs) == Reconciled(old(Contents(docs)), rows, k)
  {
    ghost var before := Contents(docs);
    k := ScanAllRows(docs, rows);
    FirstBulkFailureAt(before, rows, k);
    ReconciledFrom(before, rows, k, Contents(docs));
  }

  /** The loop of `ApplyAllRows`, stated position by position. */
  method ScanAllRows(docs: seq<Doc>, rows: seq<Fields>) returns (k: nat)
    requires Distinct(docs)
    modifies set d | d in docs
    ensures k <= Min(|docs|, |rows|)
    ensures forall j :: 0 <= j < k ==> Echoes(old(docs[j].fields), rows[j]) && "rev" in rows[j]
    ensures k < Min(|docs|, |rows|) ==> !Echoes(old(docs[k].fields), rows[k]) || "rev" !in rows[k]
    ensures forall j :: 0 <= j < k ==> docs[j].fields == Reconcile(old(docs[j].fields), rows[j])
    ensures forall j :: k <= j < |docs| ==> docs[j].fields == old(docs[j].fields)
  {
    var n := Min(|docs|, |rows|);
    k := 0;
    while k < n
      invariant 0 <= k <= n
      invariant forall j :: 0 <= j < k ==> Echoes(old(docs[j].fields), rows[j]) && "rev" in rows[j]
      invariant forall j :: 0 <= j < k ==> docs[j].fields == Reconcile(old(docs[j].fields), rows[j])
      invariant forall j :: k <= j < |docs| ==> docs[j].fields == old(docs[j].fields)
    {
      if !Echoes(docs[k].fields, rows[k]) || "rev" !in rows[k] {
        break;
      }
      docs[k].fields := docs[k].fields["_rev" := rows[k]["rev"]];
      k := k + 1;
    }
  }

  /** The `delete_many` loop: mark each doc `_deleted`, stopping after the
      first one without an `_id` (position `m`), which is marked too. */
  method MarkAll(docs: seq<Doc>) returns (m: nat)
    requires Distinct(docs)
    modifies set d | d in docs
    ensures m == FirstWithoutId(old(Contents(docs)))
    ensures Contents(docs) == MarkDeleted(old(Contents(docs)), if m < |docs| then m + 1 else m)
  {
    ghost var before := Contents(docs);
    m := MarkUntilNoId(docs);
    FirstWithoutIdAt(before, m);
    MarkedFrom(before, if m < |docs| then m + 1 else m, Contents(docs));
  }

  /** The loop of `MarkAll`, stated position by position. */
  method MarkUntilNoId(docs: seq<Doc>) returns (m: nat)
    requires Distinct(docs)
    modifies set d | d in docs
    ensures m <= |docs|
    ensures forall j :: 0 <= j < m ==> "_id" in old(docs[j].fields)
    ensures m < |docs| ==> "_id" !in old(docs[m].fields)
    ensures forall j :: 0 <= j < |docs| && (j < m || j == m) ==> docs[j].fields == old(docs[j].fields)["_deleted" := Bool(true)]
    ensures forall j :: m < j < |docs| ==> docs[j].fields == old(docs[j].fields)
  {
    m := 0;
    while m < |docs|
      invariant 0 <= m <= |docs|
      invariant forall j :: 0 <= j < m ==> "_id" in old(docs[j].fields)
      invariant forall j :: 0 <= j < m ==> docs[j].fields == old(docs[j].fields)["_deleted" := Bool(true)]
      invariant forall j :: m <= j < |docs| ==> docs[j].fields == old(docs[j].fields)
    {
      var absent := "_id" !in docs[m].fields;
      docs[m].fields := docs[m].fields["_deleted" := Bool(true)];
      if absent {
        return;
      }
      m := m + 1;
    }
  }

  lemma FirstWithoutIdAt(fs: seq<Fields>, m: nat)
    requires m <= |fs|
    requires forall j :: 0 <= j < m ==> "_id" in fs[j]
    requires m < |fs| ==> "_id" !in fs[m]
    ensures FirstWithoutId(fs) == m
  {
  }
}
