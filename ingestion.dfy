/**
 * The `POST /create` handler: validation, id assignment, and the background
 * task that writes the bucket, then the catalog, then reports one metrics
 * push. The task is run to completion inside the handler, in program order.
 */
module Ingestion {
  import opened Wrappers
  import opened JsValues
  import opened Strings
  import opened Validation
  import opened Metrics
  import opened Storage

  const Job := "opentts"
  const Service := "hono-api-dba-push"
  const SuccessCounter := "opentts_success_total"
  const DurationGauge := "opentts_duration_ms"
  const FailureCounter := "opentts_failure_total"
  const MissingError := "Missing required fields"
  const AcceptedMessage := "\U{2705} Audio stored successfully"

  /** Which external calls of one background task fail. */
  datatype TaskFaults = TaskFaults(store: StoreFaults, insertThrows: bool)

  /**
   * What one background task did: the id it used, how the MinIO helper ended
   * (None when it was not reached), the bucket afterwards, whether the insert
   * was issued, the row it added, and the one metrics push it made.
   */
  datatype TaskOutcome = TaskOutcome(
    id: JsValue,
    stored: Option<StoreResult>,
    bucket: BucketState,
    insertCalled: bool,
    row: Option<Row>,
    push: Push)

  datatype Response =
    | BadRequest(error: string, missing: seq<string>)
    | Accepted(message: string, id: JsValue)

  /** `clientId || uuidv4()`, with the generated identifier passed in. */
  function DeriveId(clientId: JsValue, generated: string): JsValue {
    if Truthy(clientId) then clientId else Str(generated)
  }

  /**
   * Whether Buffer.from(payload, 'base64') throws: it accepts strings (decoded
   * leniently, never failing), arrays and buffer-like objects, and throws on
   * every other value.
   */
  predicate DecodeThrows(payload: JsValue) {
    match payload
    case Str(_) => false
    case Arr(_) => false
    case Obj(bufferLike) => !bufferLike
    case _ => true
  }

  /**
   * What decoding does to a payload that passed validation: it throws exactly
   * for true, a non-zero number, or an object that is neither array-like nor a
   * serialised Buffer; a non-empty string or an array always decodes.
   */
  lemma DecodeAfterValidation(b: Body)
    requires !Rejected(b)
    ensures var p := b.audioBase64;
      DecodeThrows(p) <==> p == Bool(true) || (p.Num? && p.n != 0) || (p.Obj? && !p.bufferLike)
    ensures b.audioBase64.Str? ==> b.audioBase64.s != "" && !DecodeThrows(b.audioBase64)
  {
    RejectedIffSomeMissing(b);
    ListedIffMissing(b, Audio);
  }

  /** The labels of every push of a task: the service, then the id. */
  function TaskLabels(id: JsValue): seq<Entry> {
    [Entry("service", Str(Service)), Entry("id", id)]
  }

  function SuccessPush(id: JsValue, durationMs: int): Push {
    Push(PushUrl(Job), Payload([Entry(SuccessCounter, Num(1)), Entry(DurationGauge, Num(durationMs))],
                               LabelString(TaskLabels(id))))
  }

  function FailurePush(id: JsValue): Push {
    Push(PushUrl(Job), Payload([Entry(FailureCounter, Num(1))], LabelString(TaskLabels(id))))
  }

  function CatalogRow(b: Body, id: JsValue): Row {
    Row(id, b.input, b.groqResponse, b.voice, b.model, WavKey(id), b.audioBase64)
  }

  function RowsOf(row: Option<Row>): seq<Row> {
    if row.Some? then [row.value] else []
  }

  /**
   * The background task as a function of the bucket before it. Any throw
   * (decoding, the bucket step, the insert) leaves the try and makes the
   * failure push; the boolean the MinIO helper returns is ignored.
   */
  function Task(s: BucketState, b: Body, generated: string, durationMs: int, f: TaskFaults): TaskOutcome {
    var id := DeriveId(b.clientId, generated);
    if DecodeThrows(b.audioBase64) then
      TaskOutcome(id, None, s, false, None, FailurePush(id))
    else
      var (r, s') := Store(s, id, b.audioBase64, b.arrayBuffer, f.store);
      if r == Threw then TaskOutcome(id, Some(r), s', false, None, FailurePush(id))
      else if f.insertThrows then TaskOutcome(id, Some(r), s', true, None, FailurePush(id))
      else TaskOutcome(id, Some(r), s', true, Some(CatalogRow(b, id)), SuccessPush(id, durationMs))
  }

  /** No step of the task throws. */
  predicate TaskSucceeds(s: BucketState, b: Body, f: TaskFaults) {
    && !DecodeThrows(b.audioBase64)
    && !f.store.checkThrows
    && (s.present || !f.store.createThrows)
    && !f.insertThrows
  }

  /** The background task, statement by statement, inside one try/catch. */
  method RunTask(store: ObjectStore, catalog: Catalog, gateway: Gateway,
                 b: Body, generated: string, durationMs: int, f: TaskFaults)
    returns (id: JsValue)
    modifies store, catalog, gateway
    ensures var t := Task(old(store.State()), b, generated, durationMs, f);
      && id == t.id
      && store.State() == t.bucket
      && catalog.rows == old(catalog.rows) + RowsOf(t.row)
      && gateway.sent == old(gateway.sent) + [t.push]
  {
    id := DeriveId(b.clientId, generated);
    var failed := DecodeThrows(b.audioBase64);
    if !failed {
      var filename := WavKey(id);
      var r := StoreInMinio(store, id, b.audioBase64, b.arrayBuffer, f.store);
      failed := r.Threw?;
      if !failed {
        failed := catalog.Insert(Row(id, b.input, b.groqResponse, b.voice, b.model, filename, b.audioBase64),
                                 f.insertThrows);
      }
    }
    if failed {
      gateway.PushMetrics(Job, TaskLabels(id), [Entry(FailureCounter, Num(1))]);
    } else {
      gateway.PushMetrics(Job, TaskLabels(id),
                          [Entry(SuccessCounter, Num(1)), Entry(DurationGauge, Num(durationMs))]);
    }
  }

  /**
   * The handler: a 400 listing the missing fields, with no side effect, or
   * the background task followed by a 200 carrying the id the task used.
   */
  method HandleCreate(store: ObjectStore, catalog: Catalog, gateway: Gateway,
                      b: Body, generated: string, durationMs: int, f: TaskFaults)
    returns (resp: Response)
    modifies store, catalog, gateway
    ensures Rejected(b) ==>
      && resp == BadRequest(MissingError, MissingAmong(b, Required))
      && store.State() == old(store.State())
      && catalog.rows == old(catalog.rows)
      && gateway.sent == old(gateway.sent)
    ensures !Rejected(b) ==>
      var t := Task(old(store.State()), b, generated, durationMs, f);
      && resp == Accepted(AcceptedMessage, t.id)
      && store.State() == t.bucket
      && catalog.rows == old(catalog.rows) + RowsOf(t.row)
      && gateway.sent == old(gateway.sent) + [t.push]
  {
    if Rejected(b) {
      var missing := CollectMissing(b);
      return BadRequest(MissingError, missing);
    }
    var id := RunTask(store, catalog, gateway, b, generated, durationMs, f);
    resp := Accepted(AcceptedMessage, id);
  }

  /**
   * The id is the client's when it is truthy, whatever its kind (a non-empty
   * string, a non-zero number, true, any array or object), and otherwise the
   * generated string; a non-empty generated id always yields a truthy id.
   */
  lemma DerivedId(clientId: JsValue, generated: string)
    ensures var id := DeriveId(clientId, generated);
      && (Truthy(clientId) ==> id == clientId)
      && (Falsy(clientId) ==> id == Str(generated))
      && (clientId.Str? && clientId.s != "" ==> Text(id) == clientId.s)
      && (generated != "" ==> Truthy(id))
      && WavKey(id)[..|Text(id)|] == Text(id) && JsonKey(id)[..|Text(id)|] == Text(id)
  {
  }

  /** The label string of every push: `service="hono-api-dba-push",id="<id>"`. */
  lemma TaskLabelString(id: JsValue)
    ensures LabelString(TaskLabels(id)) == TaskLabelText(id)
  {
    var pairs := LabelPairs(TaskLabels(id));
    assert |pairs| == 2;
    assert pairs[0] == "service=\"hono-api-dba-push\"" by {
      assert pairs[0] == LabelPair(Entry("service", Str(Service)));
    }
    assert pairs[1] == "id=\"" + Text(id) + "\"" by {
      assert pairs[1] == LabelPair(Entry("id", id));
    }
    assert pairs[1..] == [pairs[1]];
    assert LabelString(TaskLabels(id)) == Join(",", pairs);
    assert Join(",", pairs) == pairs[0] + "," + Join(",", pairs[1..]);
  }

  /** A success push and a failure push always differ: their first metric names do. */
  lemma SuccessIsNotFailure(id: JsValue, id': JsValue, durationMs: int)
    ensures SuccessPush(id, durationMs) != FailurePush(id')
  {
    var sb := SuccessPush(id, durationMs).body;
    var fb := FailurePush(id').body;
    assert sb[..|SuccessCounter| + 1] == SuccessCounter + "{";
    assert fb[..|FailureCounter| + 1] == FailureCounter + "{";
    assert sb[8] == 's' && fb[8] == 'f';
  }

  lemma LabelTextNoNewline(id: JsValue)
    requires '\n' !in Text(id)
    ensures '\n' !in TaskLabelText(id)
  {
  }

  lemma MetricNamesPlain()
    ensures '\n' !in SuccessCounter && '\n' !in DurationGauge && '\n' !in FailureCounter
  {
  }

  lemma CounterLine(name: string, labels: string)
    ensures MetricLine(Entry(name, Num(1)), labels) == name + "{" + labels + "} 1"
  {
    assert IntText(1) == "1";
  }

  lemma NoNewlineInLine(m: Entry, labels: string)
    requires '\n' !in m.key && '\n' !in labels && m.value.Num?
    ensures '\n' !in MetricLine(m, labels)
  {
  }

  /** The exposition label string of a task's pushes. */
  function TaskLabelText(id: JsValue): string {
    "service=\"hono-api-dba-push\",id=\"" + Text(id) + "\""
  }

  /** For an id with no newline, the success body is two lines: the success counter, then the duration. */
  lemma SuccessBodyLines(id: JsValue, durationMs: int)
    requires '\n' !in Text(id)
    ensures Split('\n', SuccessPush(id, durationMs).body)
         == [SuccessCounter + "{" + TaskLabelText(id) + "} 1",
             DurationGauge + "{" + TaskLabelText(id) + "} " + IntText(durationMs)]
  {
    TaskLabelString(id);
    LabelTextNoNewline(id);
    MetricNamesPlain();
    var m0 := Entry(SuccessCounter, Num(1));
    var m1 := Entry(DurationGauge, Num(durationMs));
    NoNewlineInLine(m0, TaskLabelText(id));
    NoNewlineInLine(m1, TaskLabelText(id));
    PayloadOfTwo(m0, m1, TaskLabelText(id));
    assert SuccessPush(id, durationMs).body == Payload([m0, m1], TaskLabelText(id));
    CounterLine(SuccessCounter, TaskLabelText(id));
  }

  /** For an id with no newline, the failure body is the single failure-counter line. */
  lemma FailureBodyLines(id: JsValue)
    requires '\n' !in Text(id)
    ensures Split('\n', FailurePush(id).body) == [FailureCounter + "{" + TaskLabelText(id) + "} 1"]
  {
    TaskLabelString(id);
    LabelTextNoNewline(id);
    MetricNamesPlain();
    var m := Entry(FailureCounter, Num(1));
    NoNewlineInLine(m, TaskLabelText(id));
    PayloadOfOne(m, TaskLabelText(id));
    assert FailurePush(id).body == Payload([m], TaskLabelText(id));
    CounterLine(FailureCounter, TaskLabelText(id));
  }

  /**
   * Exactly one push per task, and it is the success push exactly when no
   * step throws (decoding, bucket check or creation, insert); otherwise the
   * failure push. Both carry the task's id.
   */
  lemma TaskReportsOutcome(s: BucketState, b: Body, generated: string, durationMs: int, f: TaskFaults)
    ensures var t := Task(s, b, generated, durationMs, f);
      && t.push == (if TaskSucceeds(s, b, f) then SuccessPush(t.id, durationMs) else FailurePush(t.id))
      && (t.push == SuccessPush(t.id, durationMs) <==> TaskSucceeds(s, b, f))
  {
  }

  /**
   * A failed upload is invisible to the task: the helper returns false, the
   * row is still inserted and the success push still made.
   */
  lemma UploadFailureStillSucceeds(s: BucketState, b: Body, generated: string, durationMs: int, f: TaskFaults)
    requires s.present && !DecodeThrows(b.audioBase64) && !f.store.checkThrows && !f.insertThrows
    requires f.store.wavPutFails || f.store.jsonPutFails || b.arrayBuffer.Undefined?
    ensures var t := Task(s, b, generated, durationMs, f);
      && t.stored == Some(Returned(false))
      && t.row == Some(CatalogRow(b, t.id))
      && t.push == SuccessPush(t.id, durationMs)
  {
  }

  /** A throw from the bucket step skips the insert and makes the failure push. */
  lemma BucketThrowSkipsInsert(s: BucketState, b: Body, generated: string, durationMs: int, f: TaskFaults)
    requires !DecodeThrows(b.audioBase64)
    requires f.store.checkThrows || (!s.present && f.store.createThrows)
    ensures var t := Task(s, b, generated, durationMs, f);
      && t.stored == Some(Threw)
      && !t.insertCalled && t.row == None
      && t.bucket == s
      && t.push == FailurePush(t.id)
  {
  }

  /** When the bucket has to be created, the task writes no object at all, yet may still report success. */
  lemma NewBucketWritesNothing(s: BucketState, b: Body, generated: string, durationMs: int, f: TaskFaults)
    requires !s.present
    ensures var t := Task(s, b, generated, durationMs, f);
      && t.bucket.objects == s.objects
      && (TaskSucceeds(s, b, f) ==> t.bucket.present && t.push == SuccessPush(t.id, durationMs))
  {
  }

  /**
   * One id keys everything: it is the derived id; the only objects the task
   * can add or replace are `<id>.wav` and `<id>.json`; the row's id is it and
   * its filename is the `.wav` key; the push is labelled with it.
   */
  lemma OneIdKeysEverything(s: BucketState, b: Body, generated: string, durationMs: int, f: TaskFaults)
    ensures var t := Task(s, b, generated, durationMs, f);
      && t.id == DeriveId(b.clientId, generated)
      && (forall k :: k in t.bucket.objects && k != WavKey(t.id) && k != JsonKey(t.id) ==>
            k in s.objects && t.bucket.objects[k] == s.objects[k])
      && (forall k :: k in s.objects ==> k in t.bucket.objects)
      && (t.row.Some? ==> t.row.value.id == t.id && t.row.value.filename == WavKey(t.id))
      && (t.push == SuccessPush(t.id, durationMs) || t.push == FailurePush(t.id))
  {
    var id := DeriveId(b.clientId, generated);
    if !DecodeThrows(b.audioBase64) && s.present && !f.store.checkThrows {
      StoreSwallowsUploadErrors(s, id, b.audioBase64, b.arrayBuffer, f.store);
    }
  }

  /**
   * For an id with no newline, the task's one push has exactly the lines of
   * its outcome, and each line carries the task's id in its label string:
   * the success counter and the duration when nothing throws, otherwise the
   * failure counter.
   */
  lemma PushLinesCarryId(s: BucketState, b: Body, generated: string, durationMs: int, f: TaskFaults)
    requires '\n' !in Text(DeriveId(b.clientId, generated))
    ensures var t := Task(s, b, generated, durationMs, f);
      var labels := TaskLabelText(t.id);
      Split('\n', t.push.body) ==
        if TaskSucceeds(s, b, f) then
          [SuccessCounter + "{" + labels + "} 1", DurationGauge + "{" + labels + "} " + IntText(durationMs)]
        else
          [FailureCounter + "{" + labels + "} 1"]
  {
    var id := DeriveId(b.clientId, generated);
    TaskReportsOutcome(s, b, generated, durationMs, f);
    SuccessBodyLines(id, durationMs);
    FailureBodyLines(id);
  }

}
