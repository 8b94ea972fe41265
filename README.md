# Hono OpenTTS ingestion handler — Dafny model

This project models the decision logic of the repository's single Hono handler
file, `index.ts`: the `POST /create` endpoint that accepts a synthesized-audio
payload, validates it, assigns an id, and runs a background task that writes
the audio and a JSON sidecar to the MinIO bucket `opentts-audio`, inserts a
row into the Postgres table `opentts_audio`, and pushes one set of metrics to
a Prometheus Pushgateway.

Modules, one per concern of the file:

- `JsValues` (`js_values.dfy`): the JavaScript values a parsed JSON body
  holds, with truthiness, loose equality with `''`, and template-literal text.
- `Strings` (`strings.dfy`): `Array.prototype.join` and a one-character
  `String.prototype.split`, with the round trip between them.
- `Validation` (`validation.dfy`): the rejection guard and the ordered
  list of missing fields.
- `Metrics` (`metrics.dfy`): the label string and payload built by
  `pushMetrics`, and a `Gateway` class that records every POST.
- `Storage` (`storage.dfy`): the bucket as a class with a `present` flag and
  an object map, the MinIO helper as a method proved against the function
  `Store`, and the catalog table as a class with a sequence of rows.
- `Ingestion` (`ingestion.dfy`): id derivation, the background task as a
  method proved against the function `Task`, the handler `HandleCreate`, and
  the lemmas about how the task sequences its outcomes.
- `Wrappers` (`wrappers.dfy`): an `Option` type.

External calls (bucket check, bucket creation, uploads, the insert) are
abstract. Each takes a fault flag, and on success changes the modelled state
as stated. Time (`Date.now()`), the UUID generator and the base64 and JSON
text encodings are parameters or abstract contents.

Behaviour the model follows from the code:

- A field is missing when `!v || v == ''`. Under loose equality, a truthy
  array whose text is empty (`[]`, `[""]`, `[null]`, `[[]]`) also counts as
  missing (`JsValues.MissingValues`).
- The id is `clientId || uuidv4()`. Any truthy client value is kept, including
  `[]`, whose text is empty, so its filename is `.wav`.
- `Buffer.from(audioBase64, 'base64')` never fails on a string. It throws on
  booleans, numbers and objects that are neither array-like (no `length`
  member) nor a serialised Buffer. That throw happens inside the
  background task's try and leads to the failure push.
- When the bucket is missing, the helper creates it and returns `true` without
  writing any object. The task then still inserts the row and reports success.
- Upload errors are caught and turned into `false`, which the task ignores.
  If `arrayBuffer` is absent, `JSON.stringify` yields `undefined` and
  `Buffer.from(undefined)` throws after the `.wav` object is written. The
  helper then returns `false` with only the audio stored.
- Label values are not escaped. The label string therefore does not determine
  the labels (`Metrics.LabelStringAmbiguous`).

Points where the code does not do what its names and messages suggest:
- "Missing required fields" is decided by truthiness and loose equality, so
  a truthy empty array counts as missing.
- The client id is kept whenever it is truthy, not only when it is a
  non-empty string.
- A payload that `Buffer.from` rejects is not a validation error. The caller
  gets the 200 "Audio stored successfully" and the task makes the failure push.
- `storeInMinio` returns `true` after creating a missing bucket, although
  nothing was stored.
- Upload errors are turned into `false`, and the task ignores that result.
  A failed upload therefore still yields the row and the success push.

## Model

| member | source | states |
|---|---|---|
| `JsValues.MissingValues` | index.ts:155-162 | the test `!v` or `v == ''` holds exactly for undefined, null, false, 0, "" and arrays with no element or one element that renders empty; such arrays are truthy |
| `JsValues.EmptyText` | index.ts:155 | the template/ToPrimitive text of a value is empty exactly for "" and arrays that join to "" |
| `JsValues.IntText` | index.ts:85 | a number's text is its decimal digits, read back as its magnitude, with a minus sign exactly when it is negative and no leading zero |
| `Strings.Join` | index.ts:80-86 | a join starts with its first part |
| `Validation.CollectMissing` | index.ts:157-162 | the four successive pushes build exactly the missing fields of the body, filtered in the order input, openTTS_Voice, openTTS_Model, audioBase64 |
| `Validation.ListedIffMissing` | index.ts:157-162 | a required field's name is in the list exactly when the field is absent or empty |
| `Validation.MissingInOrder` | index.ts:157-162 | the list holds only the four names, each at most once, in the fixed order, so at most four entries |
| `Validation.RejectedIffSomeMissing` | index.ts:155-164 | the eight-test guard holds exactly when the missing list is non-empty, that is when some required field is missing |
| `Metrics.LabelPairs` | index.ts:80-81 | one `k="v"` per label, in entry order |
| `Metrics.LabelString` | index.ts:80-82 | the label string is empty exactly when there are no labels |
| `Metrics.LabelStringSplits` | index.ts:80-82 | for labels without commas, splitting the label string at commas gives back one `k="v"` per label, in order |
| `Metrics.LabelStringAmbiguous` | index.ts:81 | an unescaped value holding `",` renders like two labels |
| `Metrics.MetricLines` | index.ts:84-85 | one `name{labels} value` line per metric, in entry order |
| `Metrics.Payload` | index.ts:84-86 | the payload is empty exactly when there are no metrics, and otherwise starts with the first name and `{` |
| `Metrics.PayloadSplits` | index.ts:84-86 | for lines without newlines, the payload splits at `\n` into exactly the metric lines, so there is no trailing newline |
| `Metrics.Gateway.PushMetrics` | index.ts:79-98 | each call appends one POST to the job URL with the built payload; transport errors never reach the caller |
| `Storage.StoreCreatesBucketOnly` | index.ts:49-58 | a missing bucket is created and the call returns true with no object written; a failed creation throws |
| `Storage.StoreWritesBoth` | index.ts:61-66 | in an existing bucket with working uploads, `.wav` then `.json` are stored and the call returns true |
| `Storage.StoreSwallowsUploadErrors` | index.ts:61-70 | in an existing bucket the call always returns, and returns true exactly when both objects were stored; only the id's two keys can change; a successful `.wav` upload stays stored even when the `.json` step fails; a false return leaves the `.json` key as it was |
| `Storage.StoreThrowsOnlyInBucketStep` | index.ts:49-58 | the helper throws exactly when the existence check throws or a needed creation fails, leaving the bucket as it was |
| `Storage.ObjectStore.BucketExists` | index.ts:49 | returns the bucket's existence flag, or nothing when the call throws |
| `Storage.ObjectStore.MakeBucket` | index.ts:55 | the bucket exists afterwards unless the call throws; objects untouched |
| `Storage.ObjectStore.PutObject` | index.ts:62-63 | stores the blob under the key exactly when the upload does not fail |
| `Storage.StoreInMinio` | index.ts:47-74 | the client calls in order produce the outcome and bucket that `Store` gives |
| `Storage.Catalog.Insert` | index.ts:33-42 | one insert appends the row unless the query throws |
| `Ingestion.DerivedId` | index.ts:193-195 | every truthy client id (string, number, true, array, object) is the id unchanged; a falsy one is replaced by exactly the generated string; a non-empty generated id gives a truthy id; both keys start with the id's text |
| `Ingestion.DecodeAfterValidation` | index.ts:194 | for a body that passed validation, `Buffer.from(audioBase64, 'base64')` throws exactly for true, a non-zero number, or an object that is neither array-like nor a serialised Buffer; a string payload is non-empty and always decodes |
| `Ingestion.RunTask` | index.ts:190-210 | the task's statements produce the id, bucket, catalog rows and single push that `Task` gives |
| `Ingestion.HandleCreate` | index.ts:155-213 | a rejected body yields the 400 with the missing list and no side effect; an accepted one yields the 200 carrying the task's id, with the task's effects |
| `Ingestion.TaskReportsOutcome` | index.ts:191-209 | the task's one push is the success push exactly when decoding, the bucket step and the insert all succeed; otherwise the failure push |
| `Ingestion.UploadFailureStillSucceeds` | index.ts:197-203 | an upload error makes the helper return false, yet the row is inserted and the success push made |
| `Ingestion.BucketThrowSkipsInsert` | index.ts:197-207 | a throw from the bucket step skips the insert, leaves the bucket unchanged and makes the failure push |
| `Ingestion.NewBucketWritesNothing` | index.ts:51-58 | when the bucket had to be created the task writes no object, yet reports success when nothing throws |
| `Ingestion.OneIdKeysEverything` | index.ts:193-200 | the task writes only `<id>.wav` and `<id>.json`, never removes an object, the row's id is the id and its filename the `.wav` key, and the push carries the id |
| `Ingestion.PushLinesCarryId` | index.ts:200-207 | for an id without newlines, the task's one push consists of exactly its outcome's lines (success counter and duration, or failure counter), each labelled `service="hono-api-dba-push",id="<id>"` with the task's id |
| `Ingestion.TaskLabelString` | index.ts:200 | the labels of every push render as `service="hono-api-dba-push",id="<id>"` |
| `Ingestion.SuccessIsNotFailure` | index.ts:200-207 | a success push and a failure push always differ |
| `Ingestion.SuccessBodyLines` | index.ts:200-203 | for an id without newlines, the success body is two lines: the success counter `1`, then the duration |
| `Ingestion.FailureBodyLines` | index.ts:207 | for an id without newlines, the failure body is the single failure-counter line |

## Left out

- Postgres pool, MinIO client and `node-fetch`: foreign I/O, modelled as calls with fault flags over an abstract bucket, table and list of POSTs.
- Hono routing, JSON body parsing, a body that is not an object, and the 500 path: framework plumbing.
- `checkConnections` and `GET /health`: the function only logs and returns nothing, so there is nothing to verify.
- Fire-and-forget execution: the background task runs to completion inside the handler, before the response, so no interleaving between requests is modelled.
- `Date.now()`: the duration is a parameter.
- `uuidv4()`: the generated id is a parameter.
- Base64 decoding and `JSON.stringify`: object contents are the abstract `WavAudio(payload)` and `JsonSidecar(doc)`.
- IntText: JSON numbers are modelled as integers, so fractions, exponent notation from 1e21 on and double-precision rounding in Number::toString are not modelled.
- A JSON object is modelled only by whether `Buffer.from` accepts it. An object whose own keys shadow `toString` or `valueOf` (which can make `== ''` throw) is not modelled.
- How Postgres converts JS values into columns, and whether the insert fails on a duplicate id: the insert's failure is a flag.
- The bucket name and region are constants of the calls and are not part of the bucket state.
- The commented-out `waitUntil` block, the write-only `status` variable, and logging.
