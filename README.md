# microfiber in Dafny

A model of the core of microfiber, a small Python client for CouchDB, with
proofs about that model. It covers three parts of the repository.

- **`microfiber/__init__.py`.** This part covers several things:
  - how the `Context` resolves its configuration into a base path and a URL;
  - how `CouchBase.request` builds a request and turns a response status into
    an exception;
  - how `_queryiter` encodes options;
  - the OAuth and basic authentication headers;
  - the bodies for CouchDB's own `_replicate`;
  - the `Server` and `Database` handles with their document conveniences:
    `save`, `save_many`, `bulksave`, `delete_many`, `get_many`, `get_defaults`,
    `view`, `ensure`, `update`, and the paging of `iter_all_docs`/`iter_view`.
- **`microfiber/replicator.py`.** The replicator: the replication id, the
  checkpoint docs on both sides, the resume rule, the checkpoint policy
  (`CHECKPOINT_SIZE` = 4 × `BATCH_SIZE` = 200) and the batch loop.
- **`microfiber.py`.** The older standalone client. It has its own query
  encoding, a four-entry status table, and positional `save`/`bulksave`.

The library routines the client calls are fields of `Primitives.Lib`, and
nothing is assumed about what they return:

- `urlparse`, `json.dumps`, `urlencode`, `quote_plus`;
- HMAC-SHA1 with base64, base64 itself, `str()`;
- `isdb32`, the replication hash, and the platform-dependent `USER_AGENT`.

Every answer from the server is a parameter: a status, a decoded body, or a
bundle of them for a whole `update`, a batch or a checkpoint save. Generated
ids (`random_id`, `time_id`) are parameters too. Documents are `Documents.Doc`
objects whose `fields` map the methods update in place. A list of documents is
a `seq<Doc>` of distinct objects.

Three behaviours of the code that the model keeps as written:

- `CouchBase.request` joins the path segments with '/' as they are, with no
  percent-escaping (microfiber/__init__.py:725).
- The `errors` table has fourteen entries, 410, 411 and 420 among them
  (microfiber/__init__.py:222-237).
- `bulksave` writes each positional row's revision into its doc in turn
  (microfiber/__init__.py:1121-1123). It raises at the first row that does not
  echo its doc's `_id` or has no `rev`, and the docs before that row stay
  updated.

Modules:

| module | file |
|---|---|
| Wrappers, Json, StringOrder, Primitives | shared definitions |
| Status | exception table and classification |
| Query | `_queryiter` |
| Auth | basic auth and the OAuth header |
| Context | `Context` |
| Replication | replication bodies |
| Documents | documents and the bulk-save loops |
| Pagination | `iter_all_docs`, `iter_view`, `id_slice_iter` |
| Couch | `CouchBase.request`, `Server`, `Database` |
| Replicator | `microfiber/replicator.py` |
| Legacy | `microfiber.py` |

## Model

| member | source | states |
|---|---|---|
| Status.Classify | microfiber/__init__.py:731-736 | A status below 400 raises nothing. 500 and above raise ServerError, and only those. Every 4xx raises a ClientError subclass: the one for that code, or ClientError itself for a code the table does not map. |
| Status.ErrorsKeys | microfiber/__init__.py:222-237 | The table maps exactly 400, 401, 403, 404, 405, 406, 409, 410, 411, 412, 415, 416, 417 and 420. |
| Status.ErrorsTableIsCodes | microfiber/__init__.py:167-237 | The table maps each entry's status to the subclass for that status. Every specific subclass appears in it under its own code. |
| Status.ClassifySpecific | microfiber/__init__.py:731-736 | A specific subclass is raised for its own status and for no other. |
| Status.Check | microfiber/__init__.py:731-736 | The error raised is present iff status ≥ 400. It carries the classified kind, the status, the verb and the URL. |
| Query.QueryIter | microfiber/__init__.py:373-384 | Exactly one pair per option, in strictly ascending key order. A str under a key other than key/startkey/endkey passes through as written; every other value is its JSON text. |
| Query.QueryIterEmpty | microfiber/__init__.py:726-729 | The query is empty exactly when there are no options. |
| Query.QueryIterLookup | microfiber/__init__.py:373-384 | Every option's key appears with the encoding of its own value. |
| StringOrder.SortedKeys | microfiber/__init__.py:380 | `sorted()` of a dict: every key once, strictly ascending in Python's string order. |
| StringOrder.SortedUnique | microfiber/__init__.py:380 | A strictly sorted sequence is determined by its set of elements, so the key order is unique. |
| Auth.BasicAuthHeader | microfiber/__init__.py:424-426 | It fails on a non-dict env entry, and when username or password is missing. Otherwise it is 'Basic ' followed by the base64 of 'username:password'. |
| Auth.TokensOf | microfiber/__init__.py:392-407 | The oauth credentials are read when the entry is a dict holding the four keys and the two secrets are str. The key and token are rendered as text. A non-dict is a TypeError. A missing secret is a KeyError even when the other secret is not str, because `str.join` reads both before it checks types. |
| Auth.SortedPairs | microfiber/__init__.py:387-389 | The query's pairs go into the base string in strictly ascending key order, each with its own value. |
| Auth.OAuthHeader | microfiber/__init__.py:400-421 | It succeeds iff the credentials can be read. The value is the header built from the protocol parameters and the signature of the request's base string. |
| Auth.HeaderParamsValues | microfiber/__init__.py:406-416 | The header carries these values: an empty realm, the consumer key, the nonce and timestamp of the `testing` pair, the signature, HMAC-SHA1, the token, and version 1.0. |
| Auth.HeaderOrderSorted | microfiber/__init__.py:417-419 | The header names sorted: 'OAuth realm' comes first, then the oauth_ names alphabetically. |
| Auth.OAuthHeaderLayout | microfiber/__init__.py:417-420 | The whole header value is the eight `k="v"` items, in that sorted order, joined by ', '. |
| Auth.SignedQueryCovers | microfiber/__init__.py:414 | The signature covers every query parameter. Each keeps its own value unless a protocol parameter of the same name overrides it. |
| Context.Resolve | microfiber/__init__.py:617-635 | A non-dict, non-str env gives TypeError. A scheme other than http/https gives a ValueError. So does an empty netloc. On success, the basepath ends in '/' and is the path, with '/' added only when it was missing. The url is scheme://netloc + basepath. |
| Context.ResolveOwnUrl | microfiber/__init__.py:633-635 | A context built from a context's own URL has the same base path and URL. This assumes the URL parser reads the URL back into its parts. |
| Context.PairsToMapSorted | microfiber/__init__.py:657-659 | `dict(query)` of `_queryiter`'s pairs keeps every pair, because their keys are distinct. |
| Context.Context.Create | microfiber/__init__.py:617-643 | It fails exactly when `Resolve` does, with the same error. Otherwise it returns a fresh context with those settings and no connection. |
| Context.Context.FullUrl | microfiber/__init__.py:644-645 | The full URL ends with the path. On a well-formed context it equals the context's URL exactly when the path is the base path. |
| Context.Context.FullUrlOfBasepath | microfiber/__init__.py:633-635 | The context's URL is the full URL of its base path. |
| Context.Context.GetThreadlocalConnection | microfiber/__init__.py:647-652 | An open remembered connection is reused with no new connect. A missing or closed one is replaced by a fresh connection, counting one connect. |
| Context.Context.RawRequest | microfiber/__init__.py:701-719 | When the first attempt fails, that connection is closed and the request is retried once on a connection obtained again, which is fresh. The connect count tells the cases apart. |
| Context.Context.AuthHeaders | microfiber/__init__.py:654-662 | With an 'oauth' entry, the OAuth header is used even when 'basic' is also present. Otherwise a 'basic' entry gives the basic header. Otherwise there are no headers. |
| Replication.Body | microfiber/__init__.py:444-451 | An option named `source` or `target` is a TypeError, which Python raises at the call. Otherwise it gives AssertionError iff an option is outside REPLICATION_KW. It succeeds iff every option is in REPLICATION_KW, and the body is then exactly source, target and the options. |
| Replication.Peer | microfiber/__init__.py:454-460 | A missing url is a KeyError and a non-str url a TypeError. Otherwise the url is env['url'] + name. A truthy 'oauth' always succeeds and adds 'auth'. Otherwise a truthy 'basic' adds the basic header and fails exactly when that header does. Otherwise the peer is the url alone. |
| Replication.Push | microfiber/__init__.py:463-473 | An option named `local_db`, `remote_db` or `remote_env` is a TypeError at the call. Otherwise a failing peer gives its own error. The source is the local name and the target is the remote peer. It fails exactly when the peer or the body fails. |
| Replication.Pull | microfiber/__init__.py:476-486 | An option named `local_db`, `remote_db` or `remote_env` is a TypeError at the call. Otherwise a failing peer gives its own error. The source is the remote peer and the target is the local name. It fails exactly when the peer or the body fails. |
| Replication.PullMirrorsPush | microfiber/__init__.py:463-486 | A pull is the push with source and target exchanged. |
| Documents.WithId | microfiber/__init__.py:1062-1063 | A doc without `_id` gets the generated one. Every existing field, `_id` included, keeps its value. |
| Documents.FillIds | microfiber/__init__.py:1082-1083 | Every doc gets an id, each from its own position's generator value. |
| Documents.FillIdsIdempotent | microfiber/__init__.py:1082-1083 | Filling ids twice changes nothing the second time. |
| Documents.FillIdsNoop | microfiber/__init__.py:1103-1106 | Docs that all have an `_id` are not changed by the filling. This is why `delete_many` never generates an id. |
| Documents.FillMissingIds | microfiber/__init__.py:1082-1083 | The in-place loop leaves the docs equal to `FillIds` of their old contents. |
| Documents.FirstMismatch | microfiber/__init__.py:1085-1086 | The first position where a row's id does not echo its doc's `_id`. All earlier positions echo. |
| Documents.ConflictIndicesExact | microfiber/__init__.py:1087-1091 | A position is a conflict iff its row has no 'rev'. The conflicts are listed once each, in input order. |
| Documents.NoConflictIff | microfiber/__init__.py:1092-1095 | There is no conflict exactly when every paired row has a 'rev'. |
| Documents.ReconciledEffect | microfiber/__init__.py:1085-1091 | A conflicting doc is left exactly as it was. Every other reconciled doc gets its row's rev as `_rev` and keeps all its other fields. Docs past the scan are untouched. |
| Documents.ApplyRows | microfiber/__init__.py:1085-1091 | The loop stops at the first row that does not echo its doc, leaves the docs reconciled up to there, and collects the docs of rows without 'rev' in order. |
| Documents.FirstBulkFailure | microfiber/__init__.py:1122-1124 | The first paired row that does not echo its doc or has no 'rev'. |
| Documents.ApplyAllRows | microfiber/__init__.py:1122-1124 | Each doc before the first failing row takes its row's rev. The rest are untouched. |
| Documents.BulkSavesAgree | microfiber/__init__.py:1083-1124 | When every row echoes its doc and has a 'rev', `save_many` and `bulksave` scan every pair and find no conflict. |
| Documents.MarkAll | microfiber/__init__.py:1104-1106 | Each doc is marked `_deleted`. The loop stops after the first doc without `_id`, which is already marked. |
| Documents.MarkedKeepIds | microfiber/__init__.py:1103-1106 | Marking keeps every `_id`. |
| Documents.HasAttachment | microfiber/__init__.py:340-370 | A missing `_attachments` or a missing name gives False. A present name gives True. A non-dict `_attachments` raises TypeError. |
| Documents.AddAttachment | microfiber/__init__.py:340-370 | After adding an attachment it is present, and every other name's answer is unchanged. |
| Pagination.Paginate | microfiber/__init__.py:1012-1034 | A chunksize below 10 is an AssertionError. Otherwise, over a listing sorted by id, `iter_all_docs` yields every doc exactly once, in order. |
| Pagination.IterView | microfiber/__init__.py:1167-1191 | A chunksize below 10 is an AssertionError. Otherwise `iter_view` yields the doc of every view row with the given key exactly once, in id order. |
| Pagination.PageShape | microfiber/__init__.py:1024-1034 | A page is empty only for an empty listing. Its last row sets the next startkey_docid. A short page ends the walk, and a full page always moves on. |
| Pagination.PageYield | microfiber/__init__.py:1027-1030 | Skipping the first row when it equals the previous startkey_docid yields exactly the next stretch of docs. |
| Pagination.IdsOf | microfiber/__init__.py:491 | `[row['id'] for row in rows]`, or KeyError('id') exactly when a row has no id. |
| Pagination.CeilDiv | microfiber/__init__.py:490 | `math.ceil(n / size)`: the least q with n ≤ q × size. |
| Pagination.IdSlices | microfiber/__init__.py:489-491 | A zero size divides by zero and a negative size gives no slices. Otherwise there are ceil(n/size) slices: slice i holds rows i×size up to (i+1)×size, the last possibly shorter, and together they are all the ids in order. |
| Couch.RequestPath | microfiber/__init__.py:725-729 | basepath + '/'.join(parts), with '?' and the urlencoded `_queryiter` pairs only when there are options. |
| Couch.Request | microfiber/__init__.py:721-736 | Headers are user-agent, then the caller's, then the auth headers, each overriding the ones before. An auth failure escapes. A status below 400 returns. Otherwise it raises the classified error for the full path. |
| Couch.AuthHeadersWin | microfiber/__init__.py:722-727 | An auth header overrides a caller's header of the same name. |
| Couch.Server.Push | microfiber/__init__.py:922-924 | A POST of the push body to `_replicate`. It fails exactly when the body does. An option named `self` is a TypeError at the call; any other failure is the body's error. |
| Couch.Server.Pull | microfiber/__init__.py:926-928 | A POST of the pull body to `_replicate`. It fails exactly when the body does. An option named `self` is a TypeError at the call; any other failure is the body's error. |
| Couch.Server.Database | microfiber/__init__.py:913-920 | A fresh handle on the same context, with basepath = server basepath + name + '/'. Without `ensure` it always succeeds. With `ensure` the database is PUT: it succeeds on a status below 400 or on 412, and any other error escapes with the PUT's status and URL. |
| Couch.Database.Server | microfiber/__init__.py:967-971 | A fresh server handle on the same context, with its base path and URL. |
| Couch.Database.Database | microfiber/__init__.py:973-977 | A sibling database on the same context. |
| Couch.Database.BasepathOf | microfiber/__init__.py:957-960 | The basepath of a database starts with the context's own and ends in '/'. Its full URL is the server URL + name + '/'. |
| Couch.Database.Ensure | microfiber/__init__.py:979-993 | True iff the PUT succeeds, False iff PreconditionFailed (412). Any other error escapes. |
| Couch.Database.View | microfiber/__init__.py:1147-1165 | It is a TypeError exactly when an option is named `self`, `design` or `view`, which Python refuses at the call. Otherwise the call goes to `_design/d/_view/v`. `reduce` defaults to False. With `keys`, it is a POST with {keys} as its body and `keys` is removed from the options. Otherwise it is a GET. All other options pass unchanged. |
| Couch.Database.GetMany | microfiber/__init__.py:1126-1134 | It fails iff the status does. Otherwise it gives each row's doc, or None. |
| Couch.Database.GetDefaults | microfiber/__init__.py:1136-1146 | A default without `_id` gives KeyError. Otherwise each default stands where the database has no doc, and the stored doc stands elsewhere. |
| Couch.Database.Save | microfiber/__init__.py:1062-1066 | `_id` is set only when absent, even when the POST fails. The new rev is stored on success. A reply without 'rev' gives KeyError. |
| Couch.Database.SaveMany | microfiber/__init__.py:1068-1095 | Ids are filled in first. Each doc before the first mismatching row is reconciled. A mismatching row gives AssertionError, or KeyError when it has no id. BulkConflict carries the docs whose rows lack 'rev', left as they were, with all rows. It raises iff there is any. |
| Couch.Database.DeleteMany | microfiber/__init__.py:1097-1106 | Every doc is marked `_deleted` and then `save_many` runs. The first doc without `_id` stops it with AssertionError, already marked. |
| Couch.Database.Bulksave | microfiber/__init__.py:1108-1124 | Ids are filled in. Each doc takes its row's rev up to the first row that does not echo its doc or lacks 'rev'. That row raises, and the later docs are untouched. |
| Couch.Database.Update | microfiber/__init__.py:1235-1275 | Without `_id` it fails with KeyError. Otherwise it saves func(doc). On Conflict it fetches the latest revision, applies func again and saves once more, returning that new doc. The second save's error escapes as it is: its HTTPError (a second Conflict included), or KeyError('rev'). Other errors of the first save escape. |
| Replicator.HashedInfo | microfiber/replicator.py:262-284 | It raises on replication to self, on a mode other than push/pull, and on a pull within one node, and only then. replicator_node is src_node for push and dst_node for pull. |
| Replicator.BuildReplicationId | microfiber/replicator.py:188-286 | The id is the hash of the validated info dict. Each validation error is passed on. |
| Replicator.DirectionalInfo | microfiber/replicator.py:194-202 | A => B hashes a different dict than B => A. |
| Replicator.ModeInfo | microfiber/replicator.py:266-276 | Push and pull between the same two databases hash different dicts. |
| Replicator.GetCheckpoint | microfiber/replicator.py:289-294 | The `_local/` doc, or {'_id': '_local/' + id} on NotFound. Any other error escapes. |
| Replicator.ResumeSeq | microfiber/replicator.py:317-328 | It is positive iff both checkpoints share a 24-character Dbase32 str session id and both update_seq are positive ints. It is then their minimum, and 0 otherwise. |
| Replicator.ResumeSymmetric | microfiber/replicator.py:317-328 | The resume sequence does not depend on which side is which. |
| Replicator.ChangesOk | microfiber/replicator.py:368-379 | It fails exactly on an empty id, or on a kept row with a change lacking 'rev'. |
| Replicator.ChangesContent | microfiber/replicator.py:368-379 | The keys are exactly the ids not starting with '_'. Each maps to the revs of the last row with that id, in order. |
| Replicator.ChangesForRevsDiff | microfiber/replicator.py:368-379 | The loop computes `Changes` over all the rows. |
| Replicator.ChangesErrStays | microfiber/replicator.py:376-378 | Once a row fails, the whole feed fails with that row's error. |
| Replicator.RevsOf | microfiber/replicator.py:378 | `[c['rev'] for c in changes]`, or KeyError('rev'). |
| Replicator.AttsSince | microfiber/replicator.py:423 | The last min(n, 10) possible ancestors. |
| Replicator.FetchOptions | microfiber/replicator.py:411-425 | revs and attachments are True. atts_since is present iff the revs_diff entry has possible ancestors. |
| Replicator.FetchesCount | microfiber/replicator.py:411-427 | One GET per missing revision. |
| Replicator.FetchesFaithful | microfiber/replicator.py:411-427 | Every GET asks for a revision the server reported missing for that doc, with at most 10 ancestors. |
| Replicator.FetchRevs | microfiber/replicator.py:426-427 | The inner loop collects one answer per missing rev of one doc, in the order of `info['missing']`, each GET carrying that doc's options. |
| Replicator.FetchMissing | microfiber/replicator.py:411-427 | The nested loop collects the answers to exactly those GETs, in order. |
| Replicator.ChangesOptions | microfiber/replicator.py:382-391 | limit = BATCH_SIZE, style all_docs, since = update_seq. A truthy feed other than 'longpoll' is an AssertionError. |
| Replicator.MarkSurvivesSave | microfiber/replicator.py:338-342 | The session id and sequence set by `mark_checkpoint` survive the save inside `update`. |
| Replicator.UpdateCheckpoint | microfiber/replicator.py:360-361 | `db.update(mark_checkpoint, doc, ...)`: a doc without `_id` fails with KeyError and stays as it was. A doc with `_id` keeps it and ends up carrying the session id and sequence, whatever the save answers. It succeeds exactly when the save goes through, or conflicts and the GET and the second save go through. |
| Replicator.Session.SaveSession | microfiber/replicator.py:345-365 | It asserts 0 ≤ saved ≤ update. It does nothing when the two are equal, even when forced. Unforced, it does nothing below CHECKPOINT_SIZE. Otherwise it succeeds exactly when `_ensure_full_commit`, `mark_checkpoint`'s assertions and both updates go through; it then marks both checkpoint docs and sets saved := update. A failed commit or a failed assertion gives that error. |
| Replicator.Session.GetMissingChanges | microfiber/replicator.py:382-397 | It succeeds exactly when the options are valid, the `_changes` GET goes through, every change row is well formed and, when there are changes, the `_revs_diff` POST goes through. Each failure gives its own error. Once the GET goes through it records last_seq as new_update_seq. With no kept changes it gives {}, otherwise the `_revs_diff` answer. |
| Replicator.Session.GetSequenceDelta | microfiber/replicator.py:400-405 | It pops new_update_seq (KeyError when absent) and asserts 0 ≤ update ≤ new. update_seq becomes new, and it returns the difference. |
| Replicator.Session.ReplicateOneBatch | microfiber/replicator.py:408-434 | It succeeds exactly when `get_missing_changes` does, the `_bulk_docs` POST goes through whenever there is a doc to write, and last_seq is not behind update_seq. A failed POST gives that error. On success doc_count grows by the number of missing revisions, and update_seq moves to the batch's last_seq by the returned delta. |
| Replicator.Session.Checkpoint | microfiber/replicator.py:345-365 | `save_session` as the loop calls it. It succeeds exactly as SaveSession does, stated on any fields that carry the checkpoint docs' `_id`s. When it writes, saved == update and both docs are marked. When the policy says no, nothing changes. Without force, fewer than CHECKPOINT_SIZE sequence numbers stay unsaved. |
| Replicator.ClimbsIff | microfiber/replicator.py:441-447 | The batch-by-batch climb the loop keeps over the first n batches is the same as: each of them ends past the starting update_seq and below stop_at_seq, and their last_seq values strictly increase. |
| Replicator.Session.RunOne | microfiber/replicator.py:441-447 | One turn of the loop: batch n, then `save_session` without force unless the batch moved nothing. It succeeds when the batch and the save can go through. On failure, one of them could not. It says stop exactly when the batch moved nothing or update_seq reached stop_at_seq. On success the run's progress holds: once update_seq has moved, fewer than CHECKPOINT_SIZE sequence numbers are unsaved, and a saved sequence the run wrote is marked (session id and update_seq) in both checkpoint docs, whose `_id`s are kept. |
| Replicator.Session.RunBatches | microfiber/replicator.py:441-447 | The loop runs until a batch moves nothing or reaches stop_at_seq, with every earlier batch climbing strictly below stop_at_seq. After every batch the checkpoint policy holds: fewer than CHECKPOINT_SIZE sequence numbers unsaved once the run has moved, and any new saved sequence marked in both checkpoint docs. If 0 ≤ saved_update_seq ≤ update_seq at the start and every batch and save can go through, it succeeds. An error names the last batch started, whose batch or save could not go through. update_seq ends at that batch's last_seq. |
| Replicator.Session.FinishRun | microfiber/replicator.py:448 | The closing forced `save_session`: on success saved == update, and both checkpoint docs are marked with the session id and update_seq unless it already equalled the run's starting saved sequence. It succeeds exactly when the sequences are in order and, if they differ, the save goes through. |
| Replicator.Session.Replicate | microfiber/replicator.py:437-448 | It succeeds whenever 0 ≤ saved_update_seq ≤ update_seq at the start and every batch, save and the final forced save can go through. An error comes from the last batch started, its save or the final save. Every batch before the last moves update_seq forward and stays below stop_at_seq. The last batch either moves it by nothing or reaches stop_at_seq. update_seq ends at the last batch's last_seq. The final forced save leaves saved == update. Unless that equals the starting saved sequence, both checkpoint docs carry the session id and the final update_seq, which is what `load_session` resumes from. It terminates. |
| Replicator.LoadSession | microfiber/replicator.py:297-335 | It fails with the error of the first step that fails: the replication id, the source checkpoint, the destination's ensure, then the destination checkpoint. When all four go through it succeeds. It resumes at `ResumeSeq`. The new session has saved_update_seq == update_seq, doc_count 0, the label and a new session id. |
| Legacy.Classify | microfiber.py:70-72 | 400, 404, 409 and 412 get their subclasses. Any other 4xx gets ClientError, and 5xx gets ServerError. |
| Legacy.RefinedByPackage | microfiber.py:70-72 | It agrees with the package's table on those four codes and outside 4xx. Elsewhere it says ClientError where the package names a subclass. |
| Legacy.Check | microfiber.py:132-136 | The error is present iff status ≥ 400, with the classified kind, the verb and the URL. |
| Legacy.QueryIter | microfiber.py:19-24 | One pair per option, keys strictly ascending, each with its own value's encoding (True, False and None as JSON, a str as it is). |
| Legacy.SameKeyOrder | microfiber.py:19-24 | The legacy and the package query iterators send the same keys in the same order. |
| Legacy.StringKeysUnquoted | microfiber.py:19-24 | A str option goes out as it is. Under key/startkey/endkey the package sends its JSON text at the same position instead; under any other key both send the same pair. |
| Legacy.SameQueryWhenPlain | microfiber.py:19-24 | When every option is a str under an ordinary key, the legacy and the package queries are the same. |
| Legacy.Normalise | microfiber.py:103-106 | '/' is added only when missing, so the URL always ends in '/'. |
| Legacy.NormaliseIdempotent | microfiber.py:103-106 | Normalising twice changes nothing. |
| Legacy.PathVersusPackage | microfiber.py:117-121 | `path` equals the package's request path without options, or when every option is a str under an ordinary key. With options the two are equal exactly when their query strings are, so they can differ only after the '?'. |
| Legacy.CouchCore.Request | microfiber.py:123-137 | User-Agent and Accept, with the caller's headers over them. Below 400 it returns. Otherwise it raises the classified error. |
| Legacy.Server.Db | microfiber.py:172-177 | It swallows PreconditionFailed from the PUT and returns a Database at url + name (normalised). Other errors escape. |
| Legacy.DbUrl | microfiber.py:177 | For a name without a trailing '/', the database URL is server url + name + '/'. |
| Legacy.FirstIncomplete | microfiber.py:202-204 | The first row without 'id' or 'rev'. |
| Legacy.Positional | microfiber.py:202-204 | With complete rows, each doc takes its own positional row's id and rev and keeps its other fields. |
| Legacy.Database.Save | microfiber.py:194-198 | `_id` and then `_rev` come from the response. A missing key raises KeyError, after the `_id` was written. |
| Legacy.Database.Bulksave | microfiber.py:200-205 | Rows are copied to docs by position. The first incomplete row raises KeyError after copying what it has, and later docs are untouched. |
| Legacy.CopyCompleteRows | microfiber.py:202-204 | The loop sets each doc before the first incomplete row from its row, and leaves the rest as they were. |
| Legacy.CopyRows | microfiber.py:202-204 | The whole loop, including the partial copy of the row that stops it. |

## Left out

- Transport is left out: the degu client, TLS contexts, `recv_json` decoding and the attachment verbs. A request is its path, headers and status.
- JSON encoding, URL parsing and encoding, quoting, HMAC-SHA1, SHA-512, base64 and Dbase32 are uninterpreted, as fields of `Primitives.Lib`.
- Time, randomness and the platform are parameters: `random_id`, `time_id`, the OAuth timestamp and nonce (through `testing`), and `USER_AGENT`.
- Threads are left out: `FakeList`, `SmartQueue`, `_start_thread`, the `Replicator` and `TempReplicator` classes and `replicate_continuously`. The thread-local connection is a single slot.
- `dump`, `get_tophash`, `compact` and `wait_for_compact` are file, stream and polling code.
- `dc3_env` and `dmedia_env` are subprocess calls.
- The module-level script at the end of `microfiber.py` performs live requests.
- Documents.Distinct: every list of documents is required to hold distinct objects. The same dict passed twice (aliasing) is not modelled.
- Couch.Database.SaveMany: the POST is reduced to its status. Auth-header failures and the request path are stated in `Couch.Request` only. The same holds for Save, Bulksave, DeleteMany, Ensure, GetMany and Update.
- Couch.Database.Update: `func(doc, *args)` is a pure function of the fields, not an in-place mutation with extra arguments.
- Pagination.Paginate: the server is a listing sorted by strictly increasing doc id, and `Page` answers each request from it. A listing whose ids change between pages is not modelled.
- Pagination.IterView: it requires the rows of the key to be in strictly increasing id order, which is how CouchDB orders rows with equal keys. The view's own emit function is not modelled.
- Pagination.IdSlices: `math.ceil(len(rows) / size)` is computed exactly. The float rounding for huge lengths is not modelled. The slices are computed as one list, so a row without 'id' fails the whole call; the generator would first yield the slices before that row.
- Replicator.Session.ReplicateOneBatch: each GET of a missing revision succeeds, through `getDoc`. The errors of those GETs are not modelled.
- Replicator.Session.Replicate: the `timeout` branch and the logging of elapsed time are left out. The source's `stop_at_seq` is a parameter.
- Replicator.ResumeSeq: sequences are integers. CouchDB 2's string sequences are not modelled.
- Couch.Request: the error carries the classified kind and the URL, not the response object.
- Couch.Request: the verb methods `get`, `post`, `put`, `delete` and `head` refuse an option named like one of their parameters (`self`, `obj`) with a TypeError at the call. The model takes the options as a map and does not reject those names. The same holds for the legacy `CouchCore.path` and its verbs.
- Context.Resolve: `UrlNotText` stands for what Python does with a non-str url. `urlparse` then raises AttributeError, or returns bytes parts that fail the scheme check with ValueError; the model does not tell these apart.
- Context.Context: `settings` is fixed when the context is built. The source keeps the caller's env dict by reference and shares it with every handle, and `get_auth_headers` reads it at each request; later changes to that dict are not modelled.
- Replicator.Session.GetMissingChanges: the error of a failed `_changes` GET carries the `_changes` path without its query string.
