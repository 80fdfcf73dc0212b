/** The replicator of `microfiber/replicator.py`: the replication id, the
    checkpoint docs kept on both sides, the resume rule, the checkpoint
    policy and the batch loop. The server's answers are parameters; the
    session, a dict the functions update in turn, is a `Session` object. */
module Replicator {
  import opened Wrappers
  import opened Json
  import opened Primitives
  import opened Status
  import opened Query
  import opened Documents
  import opened Couch

  const BatchSize: int := 50
  const CheckpointSize: int := BatchSize * 4

  /** The ValueErrors of `build_replication_id`, and everything the
      database calls raise. */
  datatype Failure =
    | SelfReplication
    | BadMode
    | PullFromSelf
    | Db(e: DbError)

  /** The dict whose hash is the replication id. */
  function ReplicationInfo(replicatorNode: string, srcNode: string, srcDb: string, dstNode: string, dstDb: string): Fields {
    map["replicator" := Str("microfiber/protocol0"),
        "replicator_node" := Str(replicatorNode),
        "src_node" := Str(srcNode), "src_db" := Str(srcDb),
        "dst_node" := Str(dstNode), "dst_db" := Str(dstDb)]
  }

  /** The validation of `build_replication_id` and the dict it hashes:
      the replicator node is the source's for a push, the destination's for
      a pull. */
  function HashedInfo(srcNode: string, srcDb: string, dstNode: string, dstDb: string, mode: string): (r: Result<Fields, Failure>)
    ensures (srcNode, srcDb) == (dstNode, dstDb) ==> r == Err(SelfReplication)
    ensures (srcNode, srcDb) != (dstNode, dstDb) && mode != "push" && mode != "pull" ==> r == Err(BadMode)
    ensures (srcNode, srcDb) != (dstNode, dstDb) && mode == "pull" && srcNode == dstNode ==> r == Err(PullFromSelf)
    ensures r.Ok? <==> (srcNode, srcDb) != (dstNode, dstDb) && (mode == "push" || (mode == "pull" && srcNode != dstNode))
    ensures r.Ok? ==> r.value.Keys == {"replicator", "replicator_node", "src_node", "src_db", "dst_node", "dst_db"}
    ensures r.Ok? && mode == "push" ==> r.value["replicator_node"] == Str(srcNode)
    ensures r.Ok? && mode == "pull" ==> r.value["replicator_node"] == Str(dstNode)
    ensures r.Ok? ==> r.value["src_node"] == Str(srcNode) && r.value["src_db"] == Str(srcDb)
    ensures r.Ok? ==> r.value["dst_node"] == Str(dstNode) && r.value["dst_db"] == Str(dstDb)
  {
    if (srcNode, srcDb) == (dstNode, dstDb) then Err(SelfReplication)
    else
      var node :- if mode == "push" then Ok(srcNode) else if mode == "pull" then Ok(dstNode) else Err(BadMode);
      if srcNode == dstNode && mode != "push" then Err(PullFromSelf)
      else Ok(ReplicationInfo(node, srcNode, srcDb, dstNode, dstDb))
  }

  /** `build_replication_id`: the hash of the validated dict. */
  function BuildReplicationId(lib: Lib, srcNode: string, srcDb: string, dstNode: string, dstDb: string, mode: string): (r: Result<string, Failure>)
    ensures r.Ok? <==> HashedInfo(srcNode, srcDb, dstNode, dstDb, mode).Ok?
    ensures r.Err? ==> r.error == HashedInfo(srcNode, srcDb, dstNode, dstDb, mode).error
    ensures r.Ok? ==> r.value == lib.replicationHash(Obj(HashedInfo(srcNode, srcDb, dstNode, dstDb, mode).value))
  {
    var info :- HashedInfo(srcNode, srcDb, dstNode, dstDb, mode);
    Ok(lib.replicationHash(Obj(info)))
  }

  /** The id is directional: A => B hashes a different dict than B => A. */
  lemma DirectionalInfo(srcNode: string, srcDb: string, dstNode: string, dstDb: string, mode: string)
    requires HashedInfo(srcNode, srcDb, dstNode, dstDb, mode).Ok?
    requires HashedInfo(dstNode, dstDb, srcNode, srcDb, mode).Ok?
    ensures HashedInfo(srcNode, srcDb, dstNode, dstDb, mode).value != HashedInfo(dstNode, dstDb, srcNode, srcDb, mode).value
  {
    var a := HashedInfo(srcNode, srcDb, dstNode, dstDb, mode).value;
    var b := HashedInfo(dstNode, dstDb, srcNode, srcDb, mode).value;
    if srcNode == dstNode {
      assert a["src_db"] != b["src_db"];
    } else {
      assert a["src_node"] != b["src_node"];
    }
  }

  /** Push and pull between two nodes hash different dicts. */
  lemma ModeInfo(srcNode: string, srcDb: string, dstNode: string, dstDb: string)
    requires HashedInfo(srcNode, srcDb, dstNode, dstDb, "push").Ok?
    requires HashedInfo(srcNode, srcDb, dstNode, dstDb, "pull").Ok?
    ensures HashedInfo(srcNode, srcDb, dstNode, dstDb, "push").value != HashedInfo(srcNode, srcDb, dstNode, dstDb, "pull").value
  {
    var a := HashedInfo(srcNode, srcDb, dstNode, dstDb, "push").value;
    var b := HashedInfo(srcNode, srcDb, dstNode, dstDb, "pull").value;
    assert a["replicator_node"] != b["replicator_node"];
  }

  /** `get_checkpoint`: the `_local` doc, or a fresh one carrying only its
      id when the database has none (NotFound). */
  function GetCheckpoint(db: Database, rid: string, status: int, got: Fields): (r: Result<Fields, DbError>)
    ensures status < 400 ==> r == Ok(got)
    ensures status == 404 ==> r == Ok(map["_id" := Str("_local/" + rid)])
    ensures status >= 400 && status != 404 ==> r.Err? && r.error.Http? && r.error.err.status == status
    ensures r.Err? ==> r.error.err.verb == "GET" && r.error.err.url == db.basepath + "_local/" + rid
  {
    ClassifySpecific(NotFound, status);
    match Check("GET", db.basepath + "_local/" + rid, status)
    case None => Ok(got)
    case Some(e) => if e.kind == NotFound then Ok(map["_id" := Str("_local/" + rid)]) else Err(Http(e))
  }

  /** The resume rule of `load_session`: both checkpoints carry the same
      24-character Dbase32 session id and positive integer sequences. */
  predicate Resumable(lib: Lib, srcDoc: Fields, dstDoc: Fields) {
    var sid := Get(srcDoc, "session_id");
    var a := AsInt(Get(srcDoc, "update_seq"));
    var b := AsInt(Get(dstDoc, "update_seq"));
    && sid == Get(dstDoc, "session_id")
    && sid.Str? && lib.isDb32(sid.s) && |sid.s| == 24
    && a.Some? && a.value > 0
    && b.Some? && b.value > 0
  }

  /** The sequence a loaded session starts from: the smaller of the two
      checkpoints when resuming, otherwise 0. */
  function ResumeSeq(lib: Lib, srcDoc: Fields, dstDoc: Fields): (r: int)
    ensures r > 0 <==> Resumable(lib, srcDoc, dstDoc)
    ensures r == 0 <==> !Resumable(lib, srcDoc, dstDoc)
    ensures Resumable(lib, srcDoc, dstDoc) ==>
      && r <= AsInt(Get(srcDoc, "update_seq")).value && r <= AsInt(Get(dstDoc, "update_seq")).value
      && (r == AsInt(Get(srcDoc, "update_seq")).value || r == AsInt(Get(dstDoc, "update_seq")).value)
  {
    if Resumable(lib, srcDoc, dstDoc) then
      Min(AsInt(Get(srcDoc, "update_seq")).value, AsInt(Get(dstDoc, "update_seq")).value)
    else 0
  }

  /** Resuming is symmetric in the two checkpoints. */
  lemma ResumeSymmetric(lib: Lib, srcDoc: Fields, dstDoc: Fields)
    ensures ResumeSeq(lib, srcDoc, dstDoc) == ResumeSeq(lib, dstDoc, srcDoc)
  {
  }

  /** The session's label, for the log. */
  function Label(mode: string, src: Database, dst: Database): (r: string)
    ensures mode == "push" ==> r == src.name + " => " + dst.url + dst.name
    ensures mode != "push" ==> r == dst.name + " <= " + src.url + src.name
  {
    if mode == "push" then src.name + " => " + dst.url + dst.name
    else dst.name + " <= " + src.url + src.name
  }

  /** One row of a `_changes` feed: the doc id and its `changes` list. */
  datatype ChangeRow = ChangeRow(id: string, changes: seq<Fields>)

  /** `[c['rev'] for c in changes]` */
  function RevsOf(changes: seq<Fields>): (r: Result<seq<Value>, PyError>)
    ensures r.Ok? <==> forall i :: 0 <= i < |changes| ==> "rev" in changes[i]
    ensures r.Err? ==> r.error == KeyError("rev")
    ensures r.Ok? ==> |r.value| == |changes| && forall i :: 0 <= i < |changes| ==> r.value[i] == changes[i]["rev"]
  {
    if exists i :: 0 <= i < |changes| && "rev" !in changes[i] then Err(KeyError("rev"))
    else Ok(seq(|changes|, i requires 0 <= i < |changes| => changes[i]["rev"]))
  }

  /** One step of `changes_for_revs_diff`: an empty id is an IndexError,
      an id starting with '_' is skipped, any other id maps to its revs,
      over an earlier row with the same id. */
  function ChangeStep(acc: map<string, seq<Value>>, row: ChangeRow): Result<map<string, seq<Value>>, PyError> {
    if row.id == [] then Err(IndexError)
    else if row.id[0] == '_' then Ok(acc)
    else
      var revs :- RevsOf(row.changes);
      Ok(acc[row.id := revs])
  }

  /** `changes_for_revs_diff` over the first `n` rows. */
  function Changes(results: seq<ChangeRow>, n: nat): Result<map<string, seq<Value>>, PyError>
    requires n <= |results|
    decreases n
  {
    if n == 0 then Ok(map[])
    else
      var acc :- Changes(results, n - 1);
      ChangeStep(acc, results[n - 1])
  }

  /** A row that `changes_for_revs_diff` keeps. */
  predicate Kept(row: ChangeRow) {
    row.id != [] && row.id[0] != '_'
  }

  /** `changes_for_revs_diff` fails exactly on a row with an empty id or,
      for a kept row, a change without `rev`. */
  lemma {:induction false} ChangesOk(results: seq<ChangeRow>, n: nat)
    requires n <= |results|
    ensures Changes(results, n).Ok? <==>
      forall i :: 0 <= i < n ==> results[i].id != [] && (Kept(results[i]) ==> RevsOf(results[i].changes).Ok?)
  {
    if n > 0 {
      ChangesOk(results, n - 1);
    }
  }

  /** Its keys are exactly the kept ids, and each maps to the revs of the
      last row with that id. */
  lemma {:induction false} ChangesContent(results: seq<ChangeRow>, n: nat)
    requires n <= |results| && Changes(results, n).Ok?
    ensures Changes(results, n).value.Keys == set i | 0 <= i < n && Kept(results[i]) :: results[i].id
    ensures forall i :: 0 <= i < n && Kept(results[i]) && (forall j :: i < j < n ==> results[j].id != results[i].id) ==>
      RevsOf(results[i].changes).Ok? &&
      Changes(results, n).value[results[i].id] == RevsOf(results[i].changes).value
  {
    ChangesKeys(results, n);
    ChangesLast(results, n);
  }

  lemma {:induction false} ChangesKeys(results: seq<ChangeRow>, n: nat)
    requires n <= |results| && Changes(results, n).Ok?
    ensures Changes(results, n).value.Keys == set i | 0 <= i < n && Kept(results[i]) :: results[i].id
  {
    if n > 0 {
      ChangesKeys(results, n - 1);
      var prev := Changes(results, n - 1).value;
      var cur := Changes(results, n).value;
      var row := results[n - 1];
      forall k | k in cur.Keys
        ensures k in set i | 0 <= i < n && Kept(results[i]) :: results[i].id
      {
        if k !in prev.Keys {
          assert Kept(row) && k == row.id;
        } else {
          var i :| 0 <= i < n - 1 && Kept(results[i]) && results[i].id == k;
        }
      }
      forall i | 0 <= i < n && Kept(results[i])
        ensures results[i].id in cur.Keys
      {
        if i < n - 1 {
          assert results[i].id in prev.Keys;
        }
      }
    }
  }

  lemma {:induction false} ChangesLast(results: seq<ChangeRow>, n: nat)
    requires n <= |results| && Changes(results, n).Ok?
    ensures forall i :: 0 <= i < n && Kept(results[i]) && (forall j :: i < j < n ==> results[j].id != results[i].id) ==>
      RevsOf(results[i].changes).Ok? &&
      results[i].id in Changes(results, n).value &&
      Changes(results, n).value[results[i].id] == RevsOf(results[i].changes).value
  {
    if n > 0 {
      ChangesLast(results, n - 1);
    }
  }

  /** The `changes_for_revs_diff` loop. */
  method ChangesForRevsDiff(results: seq<ChangeRow>) returns (r: Result<map<string, seq<Value>>, PyError>)
    ensures r == Changes(results, |results|)
  {
    var changes: map<string, seq<Value>> := map[];
    var i := 0;
    while i < |results|
      invariant 0 <= i <= |results|
      invariant Changes(results, i) == Ok(changes)
    {
      var row := results[i];
      if row.id == [] {
        ChangesErrStays(results, i + 1, |results|);
        return Err(IndexError);
      }
      if row.id[0] != '_' {
        var revs := RevsOf(row.changes);
        if revs.Err? {
          ChangesErrStays(results, i + 1, |results|);
          return Err(revs.error);
        }
        changes := changes[row.id := revs.value];
      }
      i := i + 1;
    }
    return Ok(changes);
  }

  /** Once a row fails, the whole feed fails with that error. */
  lemma {:induction false} ChangesErrStays(results: seq<ChangeRow>, i: nat, n: nat)
    requires 0 < i <= n <= |results| && Changes(results, i).Err?
    ensures Changes(results, n) == Changes(results, i)
    decreases n - i
  {
    if n > i {
      ChangesErrStays(results, i, n - 1);
    }
  }

  /** One entry of the `_revs_diff` answer. */
  datatype MissingInfo = MissingInfo(missing: seq<Value>, ancestors: Option<seq<Value>>)

  /** `possible_ancestors[-10:]` */
  function AttsSince(a: seq<Value>): (r: seq<Value>)
    ensures |r| == Min(|a|, 10)
    ensures r == a[|a| - |r|..]
  {
    if |a| <= 10 then a else a[|a| - 10..]
  }

  /** The options of each GET of a missing revision. */
  function FetchOptions(info: MissingInfo): (r: map<string, Value>)
    ensures "revs" in r && "attachments" in r
    ensures r["revs"] == Bool(true) && r["attachments"] == Bool(true)
    ensures "atts_since" in r <==> info.ancestors.Some?
    ensures info.ancestors.Some? ==> r["atts_since"] == Arr(AttsSince(info.ancestors.value))
    ensures r.Keys <= {"revs", "attachments", "atts_since"}
  {
    var kw := map["revs" := Bool(true), "attachments" := Bool(true)];
    if info.ancestors.Some? then kw["atts_since" := Arr(AttsSince(info.ancestors.value))] else kw
  }

  /** One GET of a missing revision. */
  datatype Fetch = Fetch(id: string, rev: Value, options: map<string, Value>)

  function ItemFetches(id: string, info: MissingInfo): (r: seq<Fetch>)
    ensures |r| == |info.missing|
    ensures forall k :: 0 <= k < |r| ==> r[k] == Fetch(id, info.missing[k], FetchOptions(info))
  {
    seq(|info.missing|, k requires 0 <= k < |info.missing| => Fetch(id, info.missing[k], FetchOptions(info)))
  }

  /** The GETs `replicate_one_batch` makes, doc by doc and rev by rev. */
  function Fetches(missing: seq<(string, MissingInfo)>): seq<Fetch>
    decreases |missing|
  {
    if missing == [] then []
    else Fetches(missing[..|missing| - 1]) + ItemFetches(missing[|missing| - 1].0, missing[|missing| - 1].1)
  }

  /** `sum(len(info['missing']) for info in missing.values())` */
  function TotalRevs(missing: seq<(string, MissingInfo)>): nat
    decreases |missing|
  {
    if missing == [] then 0 else TotalRevs(missing[..|missing| - 1]) + |missing[|missing| - 1].1.missing|
  }

  /** One GET per missing revision. */
  lemma {:induction false} FetchesCount(missing: seq<(string, MissingInfo)>)
    ensures |Fetches(missing)| == TotalRevs(missing)
    decreases |missing|
  {
    if missing != [] {
      FetchesCount(missing[..|missing| - 1]);
    }
  }

  /** Every GET asks for a revision the server reported missing, of that
      doc, with at most its last ten possible ancestors. */
  lemma {:induction false} FetchesFaithful(missing: seq<(string, MissingInfo)>, k: nat)
    requires k < |Fetches(missing)|
    ensures exists i, j :: (0 <= i < |missing| && 0 <= j < |missing[i].1.missing| &&
      Fetches(missing)[k] == Fetch(missing[i].0, missing[i].1.missing[j], FetchOptions(missing[i].1)))
    ensures "atts_since" in Fetches(missing)[k].options ==>
      Fetches(missing)[k].options["atts_since"].Arr? && |Fetches(missing)[k].options["atts_since"].items| <= 10
    decreases |missing|
  {
    var front := missing[..|missing| - 1];
    var last := missing[|missing| - 1];
    if k < |Fetches(front)| {
      FetchesFaithful(front, k);
      var i, j :| 0 <= i < |front| && 0 <= j < |front[i].1.missing| &&
        Fetches(front)[k] == Fetch(front[i].0, front[i].1.missing[j], FetchOptions(front[i].1));
      assert missing[i] == front[i];
    } else {
      var j := k - |Fetches(front)|;
      assert Fetches(missing)[k] == ItemFetches(last.0, last.1)[j];
      assert Fetches(missing)[k] == Fetch(missing[|missing| - 1].0, missing[|missing| - 1].1.missing[j], FetchOptions(missing[|missing| - 1].1));
    }
  }

  /** The docs answering a list of GETs. */
  function Answers(getDoc: Fetch -> Value, fs: seq<Fetch>): (r: seq<Value>)
    ensures |r| == |fs| && forall k :: 0 <= k < |fs| ==> r[k] == getDoc(fs[k])
  {
    seq(|fs|, k requires 0 <= k < |fs| => getDoc(fs[k]))
  }

  /** The inner loop of `replicate_one_batch`: one GET per missing
      revision of one doc. */
  method FetchRevs(id: string, info: MissingInfo, getDoc: Fetch -> Value) returns (docs: seq<Value>)
    ensures docs == Answers(getDoc, ItemFetches(id, info))
  {
    var kw := FetchOptions(info);
    docs := [];
    var j := 0;
    while j < |info.missing|
      invariant 0 <= j <= |info.missing|
      invariant docs == Answers(getDoc, ItemFetches(id, info)[..j])
    {
      assert ItemFetches(id, info)[..j + 1] == ItemFetches(id, info)[..j] + [Fetch(id, info.missing[j], kw)];
      docs := docs + [getDoc(Fetch(id, info.missing[j], kw))];
      j := j + 1;
    }
    assert ItemFetches(id, info)[..j] == ItemFetches(id, info);
  }

  /** The nested loop of `replicate_one_batch` that fetches the missing
      revisions, doc by doc. */
  method FetchMissing(missing: seq<(string, MissingInfo)>, getDoc: Fetch -> Value) returns (docs: seq<Value>)
    ensures docs == Answers(getDoc, Fetches(missing))
  {
    docs := [];
    var i := 0;
    while i < |missing|
      invariant 0 <= i <= |missing|
      invariant docs == Answers(getDoc, Fetches(missing[..i]))
    {
      var (id, info) := missing[i];
      var more := FetchRevs(id, info, getDoc);
      assert missing[..i + 1][..i] == missing[..i];
      assert Fetches(missing[..i + 1]) == Fetches(missing[..i]) + ItemFetches(id, info);
      docs := docs + more;
      i := i + 1;
    }
    assert missing[..i] == missing;
  }

  /** The changes-feed options of `get_missing_changes`; a truthy feed
      other than 'longpoll' is an AssertionError. */
  function ChangesOptions(updateSeq: int, feed: Value): (r: Result<map<string, Value>, Failure>)
    ensures r.Err? <==> Truthy(feed) && feed != Str("longpoll")
    ensures r.Err? ==> r.error == Db(Py(AssertionError))
    ensures r.Ok? ==> "limit" in r.value && "style" in r.value && "since" in r.value
    ensures r.Ok? ==> r.value["limit"] == Int(BatchSize) && r.value["style"] == Str("all_docs") && r.value["since"] == Int(updateSeq)
    ensures r.Ok? ==> ("feed" in r.value <==> Truthy(feed)) && ("feed" in r.value ==> r.value["feed"] == Str("longpoll"))
    ensures r.Ok? ==> r.value.Keys <= {"limit", "style", "since", "feed"}
  {
    var kw := map["limit" := Int(BatchSize), "style" := Str("all_docs"), "since" := Int(updateSeq)];
    if Truthy(feed) then
      if feed == Str("longpoll") then Ok(kw["feed" := feed]) else Err(Db(Py(AssertionError)))
    else Ok(kw)
  }

  /** The server's side of one batch: the `_changes` answer, the
      `_revs_diff` answer and the status of the `_bulk_docs` POST. */
  datatype BatchReplies = BatchReplies(
    changesStatus: int, lastSeq: int, results: seq<ChangeRow>,
    diffStatus: int, missing: seq<(string, MissingInfo)>,
    bulkStatus: int)

  /** The server's side of one `save_session`: the `_ensure_full_commit`
      status and the two checkpoint updates. */
  datatype SaveReplies = SaveReplies(commitStatus: int, src: UpdateReplies, dst: UpdateReplies)

  /** `save_session` writes a checkpoint only when the gap is not zero and
      is forced or at least `CheckpointSize`. */
  predicate Checkpoints(saved: int, update: int, force: bool) {
    saved != update && (force || update - saved >= CheckpointSize)
  }

  /** The fields `mark_checkpoint` sets. */
  function Mark(sessionId: string, updateSeq: int): Fields -> Fields {
    f => f["session_id" := Str(sessionId)]["update_seq" := Int(updateSeq)]
  }

  /** A checkpoint doc that records a session and a sequence. */
  predicate MarkedWith(f: Fields, sessionId: string, updateSeq: int) {
    "session_id" in f && f["session_id"] == Str(sessionId) && "update_seq" in f && f["update_seq"] == Int(updateSeq)
  }

  /** Saving a marked doc keeps the marks. */
  lemma MarkSurvivesSave(f: Fields, sessionId: string, updateSeq: int, id: string, rev: Value)
    ensures MarkedWith(WithId(Mark(sessionId, updateSeq)(f), id), sessionId, updateSeq)
    ensures MarkedWith(WithId(Mark(sessionId, updateSeq)(f), id)["_rev" := rev], sessionId, updateSeq)
  {
  }

  /** `mark_checkpoint`'s preconditions. */
  predicate MarkAllowed(lib: Lib, sessionId: string, updateSeq: int) {
    lib.isDb32(sessionId) && |sessionId| == 24 && updateSeq > 0
  }

  /** `db.update(mark_checkpoint, doc, session_id, update_seq)`: the marks
      are set before the save, so a doc with an `_id` ends up marked whether
      the save succeeds, conflicts or fails. */
  method UpdateCheckpoint(db: Database, doc: Doc, sessionId: string, updateSeq: int, replies: UpdateReplies)
    returns (r: Result<Doc, DbError>)
    modifies doc
    ensures "_id" !in old(doc.fields) ==> r == Err(Py(KeyError("_id"))) && doc.fields == old(doc.fields)
    ensures "_id" in old(doc.fields) ==> MarkedWith(doc.fields, sessionId, updateSeq)
    ensures "_id" in old(doc.fields) ==> "_id" in doc.fields && doc.fields["_id"] == old(doc.fields)["_id"]
    ensures r.Ok? <==> UpdateSaves(old(doc.fields), replies)
  {
    MarkSurvivesSave(doc.fields, sessionId, updateSeq, replies.newId, Get(replies.resp, "rev"));
    r := db.Update(Mark(sessionId, updateSeq), doc, replies);
  }

  /** Everything `get_missing_changes` needs to return: valid options, the
      `_changes` GET going through, well-formed change rows and, when there
      are changes, the `_revs_diff` POST going through. */
  predicate MissingOk(updateSeq: int, feed: Value, replies: BatchReplies) {
    && ChangesOptions(updateSeq, feed).Ok?
    && replies.changesStatus < 400
    && Changes(replies.results, |replies.results|).Ok?
    && (Changes(replies.results, |replies.results|).value != map[] ==> replies.diffStatus < 400)
  }

  /** Everything `replicate_one_batch` needs to return: the above, the
      `_bulk_docs` POST going through when there is something to write, and
      a `last_seq` not behind the session. */
  predicate BatchOk(updateSeq: int, feed: Value, replies: BatchReplies) {
    && MissingOk(updateSeq, feed, replies)
    && (Changes(replies.results, |replies.results|).value != map[] && TotalRevs(replies.missing) > 0 ==> replies.bulkStatus < 400)
    && 0 <= updateSeq <= replies.lastSeq
  }

  /** The `last_seq` of batch `j`. */
  function LastSeq(batches: nat -> BatchReplies, j: nat): int {
    batches(j).lastSeq
  }

  /** The session's sequence before batch `j` of a run that started at `start`. */
  function SeqBefore(start: int, batches: nat -> BatchReplies, j: nat): int {
    if j == 0 then start else LastSeq(batches, j - 1)
  }

  /** The first `n` batches of a run that started at `start` each moved
      the sequence past where it was, and none of them reached `stop`;
      stated batch by batch, as the loop establishes it. */
  predicate Climbs(start: int, stop: int, batches: nat -> BatchReplies, n: nat)
    decreases n
  {
    n == 0 || (Climbs(start, stop, batches, n - 1) && SeqBefore(start, batches, n - 1) < LastSeq(batches, n - 1) < stop)
  }

  /** A climbing run, said for all its batches at once: each ends past
      `start` and below `stop`, and their sequences strictly increase. */
  lemma {:induction false} ClimbsIff(start: int, stop: int, batches: nat -> BatchReplies, n: nat)
    ensures Climbs(start, stop, batches, n) <==>
      && (forall j :: 0 <= j < n ==> start < LastSeq(batches, j) < stop)
      && (forall i, j :: 0 <= i < j < n ==> LastSeq(batches, i) < LastSeq(batches, j))
    decreases n
  {
    if n > 0 {
      ClimbsIff(start, stop, batches, n - 1);
      if n > 1 {
        assert SeqBefore(start, batches, n - 1) == LastSeq(batches, n - 2);
      }
    }
  }

  /** How a run whose last batch was batch `last` ends when no error cut
      it short: every earlier batch climbed below `stop`, and batch `last`
      moved the sequence by nothing or reached `stop`. */
  predicate Finished(start: int, stop: int, batches: nat -> BatchReplies, last: nat) {
    && Climbs(start, stop, batches, last)
    && (LastSeq(batches, last) == SeqBefore(start, batches, last) || LastSeq(batches, last) >= stop)
  }

  /** One more batch of a run: where it starts, and what climbing through
      it means. */
  lemma ClimbsStep(start: int, stop: int, batches: nat -> BatchReplies, n: nat)
    ensures SeqBefore(start, batches, n + 1) == LastSeq(batches, n)
    ensures Climbs(start, stop, batches, n + 1) <==>
      Climbs(start, stop, batches, n) && SeqBefore(start, batches, n) < LastSeq(batches, n) < stop
  {
  }

  /** A checkpoint doc's `_id`, the one part of it that decides whether
      `update` can save it. */
  function IdOf(f: Fields): Option<Value> {
    if "_id" in f then Some(f["_id"]) else None
  }

  /** Whether `update` saves depends on the doc only through its `_id`. */
  lemma UpdateSavesById(f: Fields, g: Fields, replies: UpdateReplies)
    requires IdOf(f) == IdOf(g)
    ensures UpdateSaves(f, replies) == UpdateSaves(g, replies)
  {
    assert "_id" in f <==> "_id" in g;
    if "_id" in f {
      assert Some(f["_id"]) == IdOf(f) == IdOf(g) == Some(g["_id"]);
    }
  }

  /** Everything a `save_session` that writes a checkpoint needs: the full
      commit going through, a session id `mark_checkpoint` accepts, and
      both updates saving. */
  predicate SaveGoesThrough(lib: Lib, sessionId: string, srcF: Fields, dstF: Fields, replies: SaveReplies) {
    && replies.commitStatus < 400 && lib.isDb32(sessionId) && |sessionId| == 24
    && UpdateSaves(srcF, replies.src) && UpdateSaves(dstF, replies.dst)
  }

  /** The checkpoint after batch `j` of a run goes through. */
  predicate SaveAtGoesThrough(lib: Lib, sessionId: string, srcF: Fields, dstF: Fields,
                              saves: nat -> SaveReplies, j: nat) {
    SaveGoesThrough(lib, sessionId, srcF, dstF, saves(j))
  }

  /** Batch `j` of a run that started at `start` returns. */
  predicate BatchGoesThrough(start: int, batches: nat -> BatchReplies, j: nat) {
    BatchOk(SeqBefore(start, batches, j), Null, batches(j))
  }

  /** Both checkpoint docs carry session `sessionId` and the sequence
      `at`, as `mark_checkpoint` leaves them and `load_session` reads them
      back. */
  predicate Recorded(srcNow: Fields, dstNow: Fields, sessionId: string, at: int) {
    MarkedWith(srcNow, sessionId, at) && MarkedWith(dstNow, sessionId, at)
  }

  /** What holds throughout a run of `replicate`'s loop that started at
      `start` with `saved0` saved, `count0` documents and checkpoint docs
      whose `_id`s are those of `srcF` and `dstF`, for a session now at
      `updateSeq` with `savedUpdateSeq` saved, `docCount` documents and
      checkpoint docs `srcNow` and `dstNow`: the sequence and the count
      only grow, the `_id`s stay, the saved sequence stays within the
      current one, at most `CheckpointSize - 1` sequence numbers go
      unsaved once the run has moved, and a saved sequence the run wrote
      is marked in both checkpoint docs. */
  predicate Progress(start: int, saved0: int, count0: int, srcF: Fields, dstF: Fields, sessionId: string,
                     updateSeq: int, savedUpdateSeq: int, docCount: int, srcNow: Fields, dstNow: Fields) {
    && updateSeq >= start && docCount >= count0
    && IdOf(srcF) == IdOf(srcNow) && IdOf(dstF) == IdOf(dstNow)
    && (0 <= saved0 <= start ==> 0 <= savedUpdateSeq <= updateSeq)
    && (updateSeq != start ==> updateSeq - savedUpdateSeq < CheckpointSize)
    && (savedUpdateSeq != saved0 ==> Recorded(srcNow, dstNow, sessionId, savedUpdateSeq))
  }

  class Session {
    const src: Database
    const dst: Database
    const srcDoc: Doc
    const dstDoc: Doc
    const logLabel: string
    const sessionId: string
    var updateSeq: int
    var savedUpdateSeq: int
    var docCount: int
    var newUpdateSeq: Option<int>
    /** `session.get('feed')`, Null when it has none */
    var feed: Value

    constructor(src: Database, dst: Database, srcDoc: Doc, dstDoc: Doc, logLabel: string, sessionId: string, updateSeq: int)
      ensures this.src == src && this.dst == dst && this.srcDoc == srcDoc && this.dstDoc == dstDoc
      ensures this.logLabel == logLabel && this.sessionId == sessionId
      ensures this.updateSeq == updateSeq && savedUpdateSeq == updateSeq && docCount == 0
      ensures newUpdateSeq == None && feed == Null
    {
      this.src := src;
      this.dst := dst;
      this.srcDoc := srcDoc;
      this.dstDoc := dstDoc;
      this.logLabel := logLabel;
      this.sessionId := sessionId;
      this.updateSeq := updateSeq;
      savedUpdateSeq := updateSeq;
      docCount := 0;
      newUpdateSeq := None;
      feed := Null;
    }

    /** `save_session`: write a checkpoint to both sides when the policy
        says so, and remember the sequence it saved. */
    method SaveSession(lib: Lib, force: bool, replies: SaveReplies) returns (r: Result<(), Failure>)
      modifies this, srcDoc, dstDoc
      ensures updateSeq == old(updateSeq) && docCount == old(docCount)
      ensures newUpdateSeq == old(newUpdateSeq) && feed == old(feed)
      ensures IdOf(srcDoc.fields) == IdOf(old(srcDoc.fields)) && IdOf(dstDoc.fields) == IdOf(old(dstDoc.fields))
      ensures !(0 <= old(savedUpdateSeq) <= old(updateSeq)) ==>
        r == Err(Db(Py(AssertionError))) && savedUpdateSeq == old(savedUpdateSeq)
      ensures 0 <= old(savedUpdateSeq) <= old(updateSeq) && !Checkpoints(old(savedUpdateSeq), old(updateSeq), force) ==>
        r == Ok(()) && savedUpdateSeq == old(savedUpdateSeq) && unchanged(srcDoc, dstDoc)
      ensures r.Ok? ==> 0 <= savedUpdateSeq <= updateSeq
      ensures r.Ok? && force ==> savedUpdateSeq == updateSeq
      ensures r.Ok? && !force ==> updateSeq - savedUpdateSeq < CheckpointSize
      ensures r.Ok? && Checkpoints(old(savedUpdateSeq), old(updateSeq), force) ==>
        savedUpdateSeq == updateSeq && MarkedWith(dstDoc.fields, sessionId, updateSeq) &&
        (srcDoc != dstDoc ==> MarkedWith(srcDoc.fields, sessionId, updateSeq))
      ensures r.Err? ==> savedUpdateSeq == old(savedUpdateSeq)
      ensures 0 <= old(savedUpdateSeq) <= old(updateSeq) && Checkpoints(old(savedUpdateSeq), old(updateSeq), force) ==>
        (r.Ok? <==> replies.commitStatus < 400 && MarkAllowed(lib, sessionId, old(updateSeq))
                    && UpdateSaves(old(srcDoc.fields), replies.src) && UpdateSaves(old(dstDoc.fields), replies.dst))
      ensures 0 <= old(savedUpdateSeq) <= old(updateSeq) && Checkpoints(old(savedUpdateSeq), old(updateSeq), force)
              && replies.commitStatus >= 400 ==>
        r == Err(Db(Http(Check("POST", dst.basepath + "_ensure_full_commit", replies.commitStatus).value)))
      ensures 0 <= old(savedUpdateSeq) <= old(updateSeq) && Checkpoints(old(savedUpdateSeq), old(updateSeq), force)
              && replies.commitStatus < 400 && !MarkAllowed(lib, sessionId, old(updateSeq)) ==>
        r == Err(Db(Py(if "_id" !in old(srcDoc.fields) then KeyError("_id") else AssertionError)))
    {
      if !(0 <= savedUpdateSeq <= updateSeq) {
        return Err(Db(Py(AssertionError)));
      }
      if !Checkpoints(savedUpdateSeq, updateSeq, force) {
        return Ok(());
      }
      var e := Check("POST", dst.basepath + "_ensure_full_commit", replies.commitStatus);
      if e.Some? {
        return Err(Db(Http(e.value)));
      }
      if !MarkAllowed(lib, sessionId, updateSeq) {
        if "_id" !in srcDoc.fields {
          return Err(Db(Py(KeyError("_id"))));
        }
        return Err(Db(Py(AssertionError)));
      }
      var a := UpdateCheckpoint(src, srcDoc, sessionId, updateSeq, replies.src);
      if a.Err? {
        return Err(Db(a.error));
      }
      var b := UpdateCheckpoint(dst, dstDoc, sessionId, updateSeq, replies.dst);
      if b.Err? {
        return Err(Db(b.error));
      }
      savedUpdateSeq := updateSeq;
      return Ok(());
    }

    /** `get_missing_changes`: read one batch of the source's changes
        feed, note its `last_seq`, and ask the destination which of its
        revisions it lacks. */
    method GetMissingChanges(lib: Lib, replies: BatchReplies) returns (r: Result<seq<(string, MissingInfo)>, Failure>)
      modifies this
      ensures updateSeq == old(updateSeq) && savedUpdateSeq == old(savedUpdateSeq) && docCount == old(docCount) && feed == old(feed)
      ensures ChangesOptions(old(updateSeq), old(feed)).Err? ==> r == Err(ChangesOptions(old(updateSeq), old(feed)).error)
      ensures ChangesOptions(old(updateSeq), old(feed)).Ok? && replies.changesStatus >= 400 ==>
        r == Err(Db(Http(Check("GET", src.basepath + "_changes", replies.changesStatus).value)))
      ensures ChangesOptions(old(updateSeq), old(feed)).Ok? && replies.changesStatus < 400 &&
              Changes(replies.results, |replies.results|).Err? ==>
        r == Err(Db(Py(Changes(replies.results, |replies.results|).error)))
      ensures ChangesOptions(old(updateSeq), old(feed)).Ok? && replies.changesStatus < 400 &&
              Changes(replies.results, |replies.results|).Ok? && Changes(replies.results, |replies.results|).value != map[] &&
              replies.diffStatus >= 400 ==>
        r == Err(Db(Http(Check("POST", dst.basepath + "_revs_diff", replies.diffStatus).value)))
      ensures r.Ok? <==> MissingOk(old(updateSeq), old(feed), replies)
      ensures ChangesOptions(old(updateSeq), old(feed)).Ok? && replies.changesStatus < 400 ==> newUpdateSeq == Some(replies.lastSeq)
      ensures !(ChangesOptions(old(updateSeq), old(feed)).Ok? && replies.changesStatus < 400) ==> newUpdateSeq == old(newUpdateSeq)
      ensures r.Ok? ==> Changes(replies.results, |replies.results|).Ok?
      ensures r.Ok? && Changes(replies.results, |replies.results|).value == map[] ==> r.value == []
      ensures r.Ok? && Changes(replies.results, |replies.results|).value != map[] ==> r.value == replies.missing
    {
      var kw := ChangesOptions(updateSeq, feed);
      if kw.Err? {
        return Err(kw.error);
      }
      var e := Check("GET", src.basepath + "_changes", replies.changesStatus);
      if e.Some? {
        return Err(Db(Http(e.value)));
      }
      newUpdateSeq := Some(replies.lastSeq);
      var changes := ChangesForRevsDiff(replies.results);
      if changes.Err? {
        return Err(Db(Py(changes.error)));
      }
      if changes.value != map[] {
        var d := Check("POST", dst.basepath + "_revs_diff", replies.diffStatus);
        if d.Some? {
          return Err(Db(Http(d.value)));
        }
        return Ok(replies.missing);
      }
      return Ok([]);
    }

    /** `get_sequence_delta`: pop the new sequence, move to it, and say
        how far it moved. */
    method GetSequenceDelta() returns (r: Result<int, Failure>)
      modifies this
      ensures newUpdateSeq == None
      ensures savedUpdateSeq == old(savedUpdateSeq) && docCount == old(docCount) && feed == old(feed)
      ensures old(newUpdateSeq).None? ==> r == Err(Db(Py(KeyError("new_update_seq")))) && updateSeq == old(updateSeq)
      ensures old(newUpdateSeq).Some? && !(0 <= old(updateSeq) <= old(newUpdateSeq).value) ==>
        r == Err(Db(Py(AssertionError))) && updateSeq == old(updateSeq)
      ensures r.Ok? <==> old(newUpdateSeq).Some? && 0 <= old(updateSeq) <= old(newUpdateSeq).value
      ensures r.Ok? ==> updateSeq == old(newUpdateSeq).value && r.value == updateSeq - old(updateSeq) && r.value >= 0
    {
      if newUpdateSeq.None? {
        return Err(Db(Py(KeyError("new_update_seq"))));
      }
      var next := newUpdateSeq.value;
      newUpdateSeq := None;
      if !(0 <= updateSeq <= next) {
        return Err(Db(Py(AssertionError)));
      }
      var delta := next - updateSeq;
      updateSeq := next;
      return Ok(delta);
    }

    /** `replicate_one_batch`: fetch every missing revision from the
        source, write them all to the destination in one `_bulk_docs`
        POST, count them, and move the session to the batch's sequence. */
    method ReplicateOneBatch(lib: Lib, replies: BatchReplies, getDoc: Fetch -> Value) returns (r: Result<int, Failure>)
      modifies this
      ensures savedUpdateSeq == old(savedUpdateSeq) && feed == old(feed)
      ensures r.Ok? ==> r.value >= 0 && updateSeq == old(updateSeq) + r.value
      ensures r.Ok? ==> updateSeq == replies.lastSeq
      ensures r.Ok? ==> Changes(replies.results, |replies.results|).Ok?
      ensures r.Ok? && Changes(replies.results, |replies.results|).value != map[] ==>
        docCount == old(docCount) + TotalRevs(replies.missing)
      ensures r.Ok? && Changes(replies.results, |replies.results|).value == map[] ==> docCount == old(docCount)
      ensures r.Ok? <==> BatchOk(old(updateSeq), old(feed), replies)
      ensures MissingOk(old(updateSeq), old(feed), replies) && Changes(replies.results, |replies.results|).value != map[]
              && TotalRevs(replies.missing) > 0 && replies.bulkStatus >= 400 ==>
        r == Err(Db(Http(Check("POST", dst.basepath + "_bulk_docs", replies.bulkStatus).value)))
    {
      var missing := GetMissingChanges(lib, replies);
      if missing.Err? {
        return Err(missing.error);
      }
      var docs := FetchMissing(missing.value, getDoc);
      FetchesCount(missing.value);
      if docs != [] {
        var e := Check("POST", dst.basepath + "_bulk_docs", replies.bulkStatus);
        if e.Some? {
          return Err(Db(Http(e.value)));
        }
        docCount := docCount + |docs|;
      }
      r := GetSequenceDelta();
    }

    /** What `replicate` relies on from `replicate_one_batch`, as batch
        `j` of a run that started at `start`. */
    method NextBatch(lib: Lib, ghost start: int, batches: nat -> BatchReplies, j: nat, getDoc: Fetch -> Value)
      returns (r: Result<int, Failure>)
      requires feed == Null && updateSeq == SeqBefore(start, batches, j)
      modifies this
      ensures feed == old(feed) && savedUpdateSeq == old(savedUpdateSeq)
      ensures r.Ok? ==> r.value >= 0 && updateSeq == old(updateSeq) + r.value && updateSeq == LastSeq(batches, j)
      ensures r.Ok? ==> docCount >= old(docCount)
      ensures r.Ok? <==> BatchGoesThrough(start, batches, j)
    {
      r := ReplicateOneBatch(lib, batches(j), getDoc);
    }

    /** What `replicate` relies on from `save_session`; `srcF` and `dstF`
        are any fields with the checkpoint docs' current `_id`s. */
    method Checkpoint(lib: Lib, force: bool, replies: SaveReplies, ghost srcF: Fields, ghost dstF: Fields)
      returns (r: Result<(), Failure>)
      requires IdOf(srcF) == IdOf(srcDoc.fields) && IdOf(dstF) == IdOf(dstDoc.fields)
      modifies this, srcDoc, dstDoc
      ensures updateSeq == old(updateSeq) && docCount == old(docCount) && feed == old(feed)
      ensures IdOf(srcDoc.fields) == IdOf(old(srcDoc.fields)) && IdOf(dstDoc.fields) == IdOf(old(dstDoc.fields))
      ensures r.Ok? ==> 0 <= savedUpdateSeq <= updateSeq
      ensures r.Ok? && force ==> savedUpdateSeq == updateSeq
      ensures r.Ok? && !force ==> updateSeq - savedUpdateSeq < CheckpointSize
      ensures r.Ok? && Checkpoints(old(savedUpdateSeq), old(updateSeq), force) ==>
        savedUpdateSeq == updateSeq && Recorded(srcDoc.fields, dstDoc.fields, sessionId, updateSeq)
      ensures r.Ok? && !Checkpoints(old(savedUpdateSeq), old(updateSeq), force) ==>
        savedUpdateSeq == old(savedUpdateSeq) && unchanged(srcDoc, dstDoc)
      ensures r.Err? ==> savedUpdateSeq == old(savedUpdateSeq)
      ensures r.Ok? <==> 0 <= old(savedUpdateSeq) <= old(updateSeq)
                         && (Checkpoints(old(savedUpdateSeq), old(updateSeq), force) ==>
                               SaveGoesThrough(lib, sessionId, srcF, dstF, replies))
    {
      UpdateSavesById(srcF, srcDoc.fields, replies.src);
      UpdateSavesById(dstF, dstDoc.fields, replies.dst);
      r := SaveSession(lib, force, replies);
    }

    /** One turn of `replicate`'s loop: batch `n` of a run that started at
        `start` with `saved0` saved, then a checkpoint by the policy unless
        the batch moved the sequence by nothing. Ok(true) when the loop
        stops after it. */
    method RunOne(lib: Lib, ghost start: int, ghost saved0: int, ghost count0: int, stopAtSeq: int,
                  batches: nat -> BatchReplies, n: nat, getDoc: Fetch -> Value, saves: nat -> SaveReplies,
                  ghost srcF: Fields, ghost dstF: Fields)
      returns (r: Result<bool, Failure>)
      requires feed == Null && updateSeq == SeqBefore(start, batches, n)
      requires Climbs(start, stopAtSeq, batches, n)
      requires Progress(start, saved0, count0, srcF, dstF, sessionId,
                        updateSeq, savedUpdateSeq, docCount, srcDoc.fields, dstDoc.fields)
      modifies this, srcDoc, dstDoc
      ensures r.Ok? ==> Progress(start, saved0, count0, srcF, dstF, sessionId,
                                 updateSeq, savedUpdateSeq, docCount, srcDoc.fields, dstDoc.fields)
      ensures feed == Null
      ensures r.Ok? ==> updateSeq == LastSeq(batches, n) == SeqBefore(start, batches, n + 1)
      ensures r.Ok? && !r.value ==> old(updateSeq) < updateSeq < stopAtSeq && Climbs(start, stopAtSeq, batches, n + 1)
      ensures r.Ok? && r.value ==> Finished(start, stopAtSeq, batches, n)
      ensures r.Err? ==>
        || !(0 <= saved0 <= start)
        || !BatchGoesThrough(start, batches, n)
        || !SaveAtGoesThrough(lib, sessionId, srcF, dstF, saves, n)
    {
      ClimbsStep(start, stopAtSeq, batches, n);
      var delta := NextBatch(lib, start, batches, n, getDoc);
      if delta.Err? {
        r := Err(delta.error);
      } else if delta.value == 0 {
        r := Ok(true);
      } else {
        var s := Checkpoint(lib, false, saves(n), srcF, dstF);
        r := if s.Err? then Err(s.error) else Ok(updateSeq >= stopAtSeq);
      }
    }

    /** The loop of `replicate`: batches, each followed by a checkpoint by
        the policy, until one moves the sequence by nothing or reaches
        `stopAtSeq`. Returns how many batches ran; `last` is the index of
        the last batch started, the failing one included. */
    method RunBatches(lib: Lib, stopAtSeq: int, batches: nat -> BatchReplies, getDoc: Fetch -> Value,
                      saves: nat -> SaveReplies, ghost srcF: Fields, ghost dstF: Fields)
      returns (r: Result<nat, Failure>, ghost last: nat)
      requires feed == Null
      requires IdOf(srcF) == IdOf(srcDoc.fields) && IdOf(dstF) == IdOf(dstDoc.fields)
      modifies this, srcDoc, dstDoc
      ensures feed == Null
      ensures r.Ok? ==> Progress(old(updateSeq), old(savedUpdateSeq), old(docCount), srcF, dstF, sessionId,
                                   updateSeq, savedUpdateSeq, docCount, srcDoc.fields, dstDoc.fields)
      ensures r.Ok? ==> r.value == last + 1 && Finished(old(updateSeq), stopAtSeq, batches, last)
      ensures r.Ok? ==> updateSeq == LastSeq(batches, last)
      ensures r.Err? ==>
        || !(0 <= old(savedUpdateSeq) <= old(updateSeq))
        || !BatchGoesThrough(old(updateSeq), batches, last)
        || !SaveAtGoesThrough(lib, sessionId, srcF, dstF, saves, last)
    {
      ghost var start, saved0, count0 := updateSeq, savedUpdateSeq, docCount;
      var n: nat := 0;
      while true
        invariant updateSeq == SeqBefore(start, batches, n)
        invariant Climbs(start, stopAtSeq, batches, n)
        invariant feed == Null
        invariant Progress(start, saved0, count0, srcF, dstF, sessionId,
                           updateSeq, savedUpdateSeq, docCount, srcDoc.fields, dstDoc.fields)
        decreases if updateSeq < stopAtSeq then stopAtSeq - updateSeq else 0
      {
        var step := RunOne(lib, start, saved0, count0, stopAtSeq, batches, n, getDoc, saves, srcF, dstF);
        if step.Err? {
          return Err(step.error), n;
        }
        if step.value {
          return Ok(n + 1), n;
        }
        n := n + 1;
      }
    }

    /** `replicate`'s closing `save_session(session, force=True)`, after a
        run that started with `saved0` saved. */
    method FinishRun(lib: Lib, replies: SaveReplies, ghost start: int, ghost saved0: int, ghost count0: int,
                     ghost srcF: Fields, ghost dstF: Fields)
      returns (r: Result<(), Failure>)
      requires Progress(start, saved0, count0, srcF, dstF, sessionId,
                        updateSeq, savedUpdateSeq, docCount, srcDoc.fields, dstDoc.fields)
      modifies this, srcDoc, dstDoc
      ensures updateSeq == old(updateSeq) && docCount == old(docCount) && feed == old(feed)
      ensures r.Ok? ==> savedUpdateSeq == updateSeq
      ensures r.Ok? && updateSeq != saved0 ==> Recorded(srcDoc.fields, dstDoc.fields, sessionId, updateSeq)
      ensures r.Ok? <==> 0 <= old(savedUpdateSeq) <= old(updateSeq)
                         && (old(savedUpdateSeq) != old(updateSeq) ==> SaveGoesThrough(lib, sessionId, srcF, dstF, replies))
    {
      r := Checkpoint(lib, true, replies, srcF, dstF);
    }

    /** `replicate`: run the batches, then finish with a forced checkpoint.
        Returns how many batches ran; `last` is the index of the last
        batch started, the failing one included. */
    method Replicate(lib: Lib, stopAtSeq: int, batches: nat -> BatchReplies, getDoc: Fetch -> Value,
                     saves: nat -> SaveReplies, finalSave: SaveReplies) returns (r: Result<nat, Failure>, ghost last: nat)
      modifies this, srcDoc, dstDoc
      ensures feed == Null
      ensures r.Ok? ==> r.value == last + 1
      ensures 0 <= old(savedUpdateSeq) <= old(updateSeq)
              && (forall j :: BatchGoesThrough(old(updateSeq), batches, j))
              && (forall j :: SaveAtGoesThrough(lib, sessionId, old(srcDoc.fields), old(dstDoc.fields), saves, j))
              && SaveGoesThrough(lib, sessionId, old(srcDoc.fields), old(dstDoc.fields), finalSave) ==>
        r.Ok?
      ensures r.Err? ==>
        || !(0 <= old(savedUpdateSeq) <= old(updateSeq))
        || !BatchGoesThrough(old(updateSeq), batches, last)
        || !SaveAtGoesThrough(lib, sessionId, old(srcDoc.fields), old(dstDoc.fields), saves, last)
        || !SaveGoesThrough(lib, sessionId, old(srcDoc.fields), old(dstDoc.fields), finalSave)
      ensures r.Ok? ==> Finished(old(updateSeq), stopAtSeq, batches, last)
      ensures r.Ok? ==> savedUpdateSeq == updateSeq && updateSeq >= old(updateSeq) && docCount >= old(docCount)
      ensures r.Ok? ==> updateSeq == LastSeq(batches, last)
      ensures r.Ok? && updateSeq != old(savedUpdateSeq) ==> Recorded(srcDoc.fields, dstDoc.fields, sessionId, updateSeq)
    {
      ghost var start, saved0, count0, srcF, dstF := updateSeq, savedUpdateSeq, docCount, srcDoc.fields, dstDoc.fields;
      feed := Null;
      var run;
      run, last := RunBatches(lib, stopAtSeq, batches, getDoc, saves, srcF, dstF);
      if run.Err? {
        return Err(run.error), last;
      }
      var s := FinishRun(lib, finalSave, start, saved0, count0, srcF, dstF);
      if s.Err? {
        return Err(s.error), last;
      }
      return Ok(run.value), last;
    }
  }

  /** `load_session`: find the replication's checkpoints on both sides
      (creating the destination first), decide where to resume, and start
      a new session. */
  method LoadSession(lib: Lib, srcId: string, src: Database, dstId: string, dst: Database, mode: string,
                     srcStatus: int, srcGot: Fields, ensureStatus: int, dstStatus: int, dstGot: Fields,
                     newSessionId: string) returns (r: Result<Session, Failure>)
    ensures BuildReplicationId(lib, srcId, src.name, dstId, dst.name, mode).Err? ==>
      r == Err(BuildReplicationId(lib, srcId, src.name, dstId, dst.name, mode).error)
    ensures r.Ok? ==> BuildReplicationId(lib, srcId, src.name, dstId, dst.name, mode).Ok?
    ensures BuildReplicationId(lib, srcId, src.name, dstId, dst.name, mode).Ok? ==>
      var rid := BuildReplicationId(lib, srcId, src.name, dstId, dst.name, mode).value;
      var srcCp := GetCheckpoint(src, rid, srcStatus, srcGot);
      var dstCp := GetCheckpoint(dst, rid, dstStatus, dstGot);
      && (srcCp.Err? ==> r == Err(Db(srcCp.error)))
      && (srcCp.Ok? && dst.Ensure(ensureStatus).Err? ==> r == Err(Db(dst.Ensure(ensureStatus).error)))
      && (srcCp.Ok? && dst.Ensure(ensureStatus).Ok? && dstCp.Err? ==> r == Err(Db(dstCp.error)))
      && (srcCp.Ok? && dst.Ensure(ensureStatus).Ok? && dstCp.Ok? ==> r.Ok?)
    ensures r.Ok? ==> var rid := BuildReplicationId(lib, srcId, src.name, dstId, dst.name, mode).value;
      && fresh(r.value) && fresh(r.value.srcDoc) && fresh(r.value.dstDoc) && r.value.srcDoc != r.value.dstDoc
      && GetCheckpoint(src, rid, srcStatus, srcGot) == Ok(r.value.srcDoc.fields)
      && GetCheckpoint(dst, rid, dstStatus, dstGot) == Ok(r.value.dstDoc.fields)
      && dst.Ensure(ensureStatus).Ok?
    ensures r.Ok? ==>
      && r.value.src == src && r.value.dst == dst
      && r.value.updateSeq == ResumeSeq(lib, r.value.srcDoc.fields, r.value.dstDoc.fields)
      && r.value.savedUpdateSeq == r.value.updateSeq && r.value.docCount == 0
      && r.value.sessionId == newSessionId && r.value.logLabel == Label(mode, src, dst)
      && r.value.newUpdateSeq == None && r.value.feed == Null
  {
    var rid := BuildReplicationId(lib, srcId, src.name, dstId, dst.name, mode);
    if rid.Err? {
      return Err(rid.error);
    }
    var srcFields := GetCheckpoint(src, rid.value, srcStatus, srcGot);
    if srcFields.Err? {
      return Err(Db(srcFields.error));
    }
    var ensured := dst.Ensure(ensureStatus);
    if ensured.Err? {
      return Err(Db(ensured.error));
    }
    var dstFields := GetCheckpoint(dst, rid.value, dstStatus, dstGot);
    if dstFields.Err? {
      return Err(Db(dstFields.error));
    }
    var srcDoc := new Doc(srcFields.value);
    var dstDoc := new Doc(dstFields.value);
    var start := ResumeSeq(lib, srcFields.value, dstFields.value);
    var session := new Session(src, dst, srcDoc, dstDoc, Label(mode, src, dst), newSessionId, start);
    return Ok(session);
  }
}
