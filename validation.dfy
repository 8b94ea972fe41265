/**
 * Request validation of `POST /create`: the rejection guard and the list of
 * missing required fields returned with the 400 response.
 */
module Validation {
  import opened JsValues

  /** The destructured JSON body; a key the body lacks is Undefined. */
  datatype Body = Body(
    clientId: JsValue,
    input: JsValue,
    voice: JsValue,
    model: JsValue,
    groqResponse: JsValue,
    audioBase64: JsValue,
    arrayBuffer: JsValue)

  datatype RequiredField = Input | Voice | Model | Audio

  /** The name reported in `missing`, which is the field's key in the body. */
  function Name(f: RequiredField): string {
    match f
    case Input => "input"
    case Voice => "openTTS_Voice"
    case Model => "openTTS_Model"
    case Audio => "audioBase64"
  }

  function Value(b: Body, f: RequiredField): JsValue {
    match f
    case Input => b.input
    case Voice => b.voice
    case Model => b.model
    case Audio => b.audioBase64
  }

  /** The order in which the handler tests the required fields. */
  const Required: seq<RequiredField> := [Input, Voice, Model, Audio]

  /** Where a reported name stands in that order; -1 for any other text. */
  function Position(name: string): int {
    if name == "input" then 0
    else if name == "openTTS_Voice" then 1
    else if name == "openTTS_Model" then 2
    else if name == "audioBase64" then 3
    else -1
  }

  /** The handler's guard, with its eight tests in the order written. */
  predicate Rejected(b: Body) {
    || Falsy(b.input) || LooselyEqualsEmpty(b.input)
    || LooselyEqualsEmpty(b.voice) || Falsy(b.voice)
    || LooselyEqualsEmpty(b.model) || Falsy(b.model)
    || Falsy(b.audioBase64) || LooselyEqualsEmpty(b.audioBase64)
  }

  /** Names of the fields of `fs` that are missing from `b`, in the order of `fs`. */
  function MissingAmong(b: Body, fs: seq<RequiredField>): seq<string> {
    if |fs| == 0 then []
    else (if IsMissing(Value(b, fs[0])) then [Name(fs[0])] else []) + MissingAmong(b, fs[1..])
  }

  /** Builds the list the 400 response carries, one push per missing field. */
  method CollectMissing(b: Body) returns (missing: seq<string>)
    ensures missing == MissingAmong(b, Required)
  {
    missing := [];
    if Falsy(b.input) || LooselyEqualsEmpty(b.input) {
      missing := missing + ["input"];
    }
    if Falsy(b.voice) || LooselyEqualsEmpty(b.voice) {
      missing := missing + ["openTTS_Voice"];
    }
    if Falsy(b.model) || LooselyEqualsEmpty(b.model) {
      missing := missing + ["openTTS_Model"];
    }
    if Falsy(b.audioBase64) || LooselyEqualsEmpty(b.audioBase64) {
      missing := missing + ["audioBase64"];
    }
    MissingUnrolled(b);
  }

  /** The missing-list contribution of one field. */
  function Listed(b: Body, f: RequiredField): seq<string> {
    if IsMissing(Value(b, f)) then [Name(f)] else []
  }

  lemma MissingUnrolled(b: Body)
    ensures MissingAmong(b, Required) == Listed(b, Input) + Listed(b, Voice) + Listed(b, Model) + Listed(b, Audio)
  {
    assert Required[1..] == [Voice, Model, Audio];
    assert [Voice, Model, Audio][1..] == [Model, Audio];
    assert [Model, Audio][1..] == [Audio];
    assert [Audio][1..] == [];
    assert MissingAmong(b, [Audio]) == Listed(b, Audio);
    assert MissingAmong(b, [Model, Audio]) == Listed(b, Model) + Listed(b, Audio);
  }

  lemma {:induction false} MissingAmongMembers(b: Body, fs: seq<RequiredField>, f: RequiredField)
    ensures Name(f) in MissingAmong(b, fs) <==> f in fs && IsMissing(Value(b, f))
  {
    if |fs| > 0 {
      MissingAmongMembers(b, fs[1..], f);
      assert f in fs <==> f == fs[0] || f in fs[1..];
    }
  }

  /** A required field is listed exactly when it is absent or empty. */
  lemma ListedIffMissing(b: Body, f: RequiredField)
    ensures Name(f) in MissingAmong(b, Required) <==> IsMissing(Value(b, f))
  {
    MissingAmongMembers(b, Required, f);
  }

  lemma {:induction false} MissingAmongSuffix(b: Body, k: nat)
    requires k <= |Required|
    decreases |Required| - k
    ensures var m := MissingAmong(b, Required[k..]);
      && |m| <= |Required| - k
      && (forall i :: 0 <= i < |m| ==> k <= Position(m[i]) < |Required|)
      && (forall i, j :: 0 <= i < j < |m| ==> Position(m[i]) < Position(m[j]))
  {
    if k < |Required| {
      MissingAmongSuffix(b, k + 1);
      assert Required[k..][1..] == Required[k + 1..];
      assert Position(Name(Required[k])) == k;
    }
  }

  /**
   * The list holds only the four required names, each at most once, in the
   * fixed order input, openTTS_Voice, openTTS_Model, audioBase64.
   */
  lemma MissingInOrder(b: Body)
    ensures var m := MissingAmong(b, Required);
      && |m| <= 4
      && (forall i :: 0 <= i < |m| ==> 0 <= Position(m[i]) < 4)
      && (forall i, j :: 0 <= i < j < |m| ==> Position(m[i]) < Position(m[j]))
  {
    MissingAmongSuffix(b, 0);
    assert Required[0..] == Required;
  }

  /** The request is rejected exactly when some required field is missing. */
  lemma RejectedIffSomeMissing(b: Body)
    ensures Rejected(b) <==> MissingAmong(b, Required) != []
    ensures Rejected(b) <==> exists f :: f in Required && IsMissing(Value(b, f))
  {
    MissingUnrolled(b);
    if Rejected(b) {
      if IsMissing(b.input) { assert Input in Required; }
      else if IsMissing(b.voice) { assert Voice in Required; }
      else if IsMissing(b.model) { assert Model in Required; }
      else { assert Audio in Required; }
    }
  }
}
