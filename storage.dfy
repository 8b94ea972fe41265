/**
 * The two sinks of the background task: the `opentts-audio` bucket, written by
 * the MinIO helper, and the `opentts_audio` table, written by the Postgres
 * helper. Client calls are abstract: each may fail, as a flag says, and on
 * success they change the sink's state as stated.
 */
module Storage {
  import opened JsValues
  import Wrappers

  /** Object contents: the bytes decoded from a base64 payload, or the JSON text of a value. */
  datatype Blob = WavAudio(payload: JsValue) | JsonSidecar(doc: JsValue)

  /** The bucket: whether it exists, and its objects by key. */
  datatype BucketState = BucketState(present: bool, objects: map<string, Blob>)

  /** How a call of the MinIO helper ends: it returns a boolean, or it throws. */
  datatype StoreResult = Returned(ok: bool) | Threw

  /** Which client calls of one helper invocation fail. */
  datatype StoreFaults = StoreFaults(
    checkThrows: bool,
    createThrows: bool,
    wavPutFails: bool,
    jsonPutFails: bool)

  /** The audio object's key, `${id}.wav`; the catalog's filename is the same text. */
  function WavKey(id: JsValue): string {
    Text(id) + ".wav"
  }

  function JsonKey(id: JsValue): string {
    Text(id) + ".json"
  }

  /**
   * The MinIO helper's outcome and the bucket afterwards. A failing existence
   * check or bucket creation is not caught and escapes to the caller. A
   * bucket that had to be created ends the call with `true` and no upload.
   * Otherwise both uploads sit inside a try that turns any error into `false`;
   * the sidecar body is Buffer.from(JSON.stringify(arrayBuffer)), which throws
   * when arrayBuffer is undefined, after the audio object is written.
   */
  function Store(s: BucketState, id: JsValue, audio: JsValue, sidecar: JsValue, f: StoreFaults)
    : (StoreResult, BucketState)
  {
    if f.checkThrows then (Threw, s)
    else if !s.present then
      if f.createThrows then (Threw, s) else (Returned(true), s.(present := true))
    else if f.wavPutFails then (Returned(false), s)
    else
      var withWav := s.(objects := s.objects[WavKey(id) := WavAudio(audio)]);
      if sidecar.Undefined? || f.jsonPutFails then (Returned(false), withWav)
      else (Returned(true), withWav.(objects := withWav.objects[JsonKey(id) := JsonSidecar(sidecar)]))
  }

  /** A missing bucket is created and the call returns true without writing any object. */
  lemma StoreCreatesBucketOnly(s: BucketState, id: JsValue, audio: JsValue, sidecar: JsValue, f: StoreFaults)
    requires !s.present && !f.checkThrows
    ensures var (r, s') := Store(s, id, audio, sidecar, f);
      && s'.objects == s.objects
      && (r == Returned(true) <==> !f.createThrows)
      && s'.present == !f.createThrows
      && (f.createThrows ==> r == Threw && s' == s)
  {
  }

  /** In an existing bucket, with every upload succeeding, `.wav` then `.json` are written and the call returns true. */
  lemma StoreWritesBoth(s: BucketState, id: JsValue, audio: JsValue, sidecar: JsValue, f: StoreFaults)
    requires s.present && !f.checkThrows && !f.wavPutFails && !f.jsonPutFails && !sidecar.Undefined?
    ensures var (r, s') := Store(s, id, audio, sidecar, f);
      && r == Returned(true)
      && s'.objects == s.objects[WavKey(id) := WavAudio(audio)][JsonKey(id) := JsonSidecar(sidecar)]
  {
  }

  /**
   * Upload errors never escape: in an existing bucket the call returns, and it
   * returns true exactly when both objects were stored. Nothing but the two
   * keys of the id changes. Once the `.wav` upload succeeds the audio stays
   * stored even if the `.json` step fails, and a call that returns false
   * leaves the `.json` key as it was.
   */
  lemma StoreSwallowsUploadErrors(s: BucketState, id: JsValue, audio: JsValue, sidecar: JsValue, f: StoreFaults)
    requires s.present && !f.checkThrows
    ensures var (r, s') := Store(s, id, audio, sidecar, f);
      && r.Returned?
      && s'.present
      && (r.ok <==> !f.wavPutFails && !f.jsonPutFails && !sidecar.Undefined?)
      && (r.ok ==> s'.objects[WavKey(id)] == WavAudio(audio) && s'.objects[JsonKey(id)] == JsonSidecar(sidecar))
      && (forall k :: k != WavKey(id) && k != JsonKey(id) ==> (k in s'.objects <==> k in s.objects))
      && (forall k :: k in s.objects && k != WavKey(id) && k != JsonKey(id) ==> s'.objects[k] == s.objects[k])
      && (f.wavPutFails ==> s'.objects == s.objects)
      && (!f.wavPutFails ==> WavKey(id) in s'.objects && s'.objects[WavKey(id)] == WavAudio(audio))
      && (!r.ok ==> (JsonKey(id) in s'.objects <==> JsonKey(id) in s.objects))
      && (!r.ok && JsonKey(id) in s.objects ==> s'.objects[JsonKey(id)] == s.objects[JsonKey(id)])
  {
    assert WavKey(id) != JsonKey(id) by {
      var n := |Text(id)|;
      assert WavKey(id)[n + 1] == 'w' && JsonKey(id)[n + 1] == 'j';
    }
  }

  /** The helper throws exactly when the existence check throws, or when the bucket is missing and cannot be created. */
  lemma StoreThrowsOnlyInBucketStep(s: BucketState, id: JsValue, audio: JsValue, sidecar: JsValue, f: StoreFaults)
    ensures var (r, s') := Store(s, id, audio, sidecar, f);
      && (r == Threw <==> f.checkThrows || (!s.present && f.createThrows))
      && (r == Threw ==> s' == s)
  {
  }

  /** The bucket, updated in place by the MinIO client calls. */
  class ObjectStore {
    var present: bool
    var objects: map<string, Blob>

    constructor (s: BucketState)
      ensures State() == s
    {
      present := s.present;
      objects := s.objects;
    }

    function State(): BucketState
      reads this
    {
      BucketState(present, objects)
    }

    /** bucketExists: the flag, or None when the call throws. */
    method BucketExists(throws: bool) returns (r: Wrappers.Option<bool>)
      ensures r == if throws then Wrappers.None else Wrappers.Some(present)
    {
      r := if throws then Wrappers.None else Wrappers.Some(present);
    }

    /** makeBucket in the given region: the bucket exists afterwards unless the call throws. */
    method MakeBucket(region: string, throws: bool) returns (threw: bool)
      modifies this
      ensures threw == throws
      ensures objects == old(objects)
      ensures present == (old(present) || !throws)
    {
      threw := throws;
      if !throws {
        present := true;
      }
    }

    /** putObject: stores the blob under the key unless the upload fails. */
    method PutObject(key: string, blob: Blob, fails: bool) returns (ok: bool)
      modifies this
      ensures ok == !fails
      ensures present == old(present)
      ensures objects == if ok then old(objects)[key := blob] else old(objects)
    {
      ok := !fails;
      if ok {
        objects := objects[key := blob];
      }
    }
  }

  /** The MinIO helper, step by step over the client calls. */
  method StoreInMinio(store: ObjectStore, id: JsValue, audio: JsValue, sidecar: JsValue, f: StoreFaults)
    returns (r: StoreResult)
    modifies store
    ensures r == Store(old(store.State()), id, audio, sidecar, f).0
    ensures store.State() == Store(old(store.State()), id, audio, sidecar, f).1
  {
    var found := store.BucketExists(f.checkThrows);
    if found.None? {
      return Threw;
    }
    if !found.value {
      var threw := store.MakeBucket("us-east-1", f.createThrows);
      r := if threw then Threw else Returned(true);
      return;
    }
    var ok := store.PutObject(WavKey(id), WavAudio(audio), f.wavPutFails);
    if !ok {
      return Returned(false);
    }
    if sidecar.Undefined? {
      // JSON.stringify yields undefined and Buffer.from throws, inside the try
      return Returned(false);
    }
    ok := store.PutObject(JsonKey(id), JsonSidecar(sidecar), f.jsonPutFails);
    r := Returned(ok);
  }

  /** A catalog row: the columns the insert statement fills, in order. */
  datatype Row = Row(
    id: JsValue,
    input: JsValue,
    groqResponse: JsValue,
    voice: JsValue,
    model: JsValue,
    filename: string,
    audioBase64: JsValue)

  /** The `opentts_audio` table, appended to by the insert. */
  class Catalog {
    var rows: seq<Row>

    constructor (initial: seq<Row>)
      ensures rows == initial
    {
      rows := initial;
    }

    /** One INSERT: the row is added unless the query throws. */
    method Insert(row: Row, throws: bool) returns (threw: bool)
      modifies this
      ensures threw == throws
      ensures rows == if threw then old(rows) else old(rows) + [row]
    {
      threw := throws;
      if !throws {
        rows := rows + [row];
      }
    }
  }
}
