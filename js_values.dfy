/**
 * The JavaScript values the `/create` handler reads out of a parsed JSON body,
 * with the three language rules the handler leans on: truthiness (`!x`,
 * `a || b`), loose equality with the empty string (`x == ''`) and the
 * conversion a template literal applies (`${x}`).
 */
module JsValues {

  /**
   * A value of a body field. A key the body does not carry reads as Undefined.
   * JSON numbers are modelled as integers. `bufferLike` records whether
   * Node's Buffer.from accepts the object (it has a `length` member or is a
   * serialised Buffer); a JSON object has no other behaviour used here.
   */
  datatype JsValue =
    | Undefined
    | Null
    | Bool(b: bool)
    | Num(n: int)
    | Str(s: string)
    | Arr(elems: seq<JsValue>)
    | Obj(bufferLike: bool)

  /** `!v` holds: undefined (a missing key), null, false, 0 and "". */
  predicate Falsy(v: JsValue) {
    match v
    case Undefined => true
    case Null => true
    case Bool(b) => !b
    case Num(n) => n == 0
    case Str(s) => s == ""
    case Arr(_) => false
    case Obj(_) => false
  }

  predicate Truthy(v: JsValue) {
    !Falsy(v)
  }

  /** An array element that Array.prototype.join renders as nothing. */
  predicate Blank(v: JsValue) {
    v.Undefined? || v.Null?
  }

  /** The number a run of decimal digits denotes, read most significant digit first. */
  function DigitsValue(s: string): int {
    if |s| == 0 then 0
    else DigitsValue(s[..|s| - 1]) * 10 + (s[|s| - 1] as int - '0' as int)
  }

  /** The character of a decimal digit. */
  function DigitChar(d: nat): (c: char)
    requires d < 10
    ensures '0' <= c <= '9' && c as int - '0' as int == d
  {
    "0123456789"[d]
  }

  /**
   * Decimal text of a natural number, most significant digit first, with no
   * leading zero: the text reads back as the number.
   */
  function NatText(n: nat): (r: string)
    ensures |r| > 0
    ensures forall i :: 0 <= i < |r| ==> '0' <= r[i] <= '9'
    ensures DigitsValue(r) == n
    ensures r[0] == '0' ==> r == "0"
  {
    if n < 10 then [DigitChar(n)]
    else
      var r := NatText(n / 10) + [DigitChar(n % 10)];
      assert r[..|r| - 1] == NatText(n / 10);
      r
  }

  /**
   * Number::toString for an integer: a minus sign for a negative number, then
   * the decimal digits of its magnitude.
   */
  function IntText(n: int): (r: string)
    ensures |r| > 0
    ensures forall i :: 0 <= i < |r| ==> r[i] == '-' || '0' <= r[i] <= '9'
    ensures n >= 0 ==> DigitsValue(r) == n && (forall i :: 0 <= i < |r| ==> r[i] != '-')
    ensures n < 0 ==> r[0] == '-' && DigitsValue(r[1..]) == -n && r[1..] != "0"
    ensures n < 0 ==> |r| > 1 && r[1] != '0' && forall i :: 1 <= i < |r| ==> '0' <= r[i] <= '9'
    ensures n >= 0 ==> (r[0] == '0' ==> r == "0")
  {
    if n < 0 then
      var r := "-" + NatText(-n);
      assert r[1..] == NatText(-n);
      r
    else NatText(n)
  }

  /** String(v), as `${v}` in a template literal computes it. */
  function Text(v: JsValue): string
    decreases v
  {
    match v
    case Undefined => "undefined"
    case Null => "null"
    case Bool(b) => if b then "true" else "false"
    case Num(n) => IntText(n)
    case Str(s) => s
    case Arr(e) => ElemsText(e)
    case Obj(_) => "[object Object]"
  }

  /** Array.prototype.join(","): blank elements become empty text. */
  function ElemsText(e: seq<JsValue>): string
    decreases e
  {
    if |e| == 0 then ""
    else
      var first := if Blank(e[0]) then "" else Text(e[0]);
      if |e| == 1 then first else first + "," + ElemsText(e[1..])
  }

  /**
   * `v == ''` under the loose equality operator. A boolean or a number is
   * compared numerically with ToNumber('') == 0; an array is first turned
   * into its joined text; null and undefined equal only each other.
   */
  predicate LooselyEqualsEmpty(v: JsValue) {
    match v
    case Undefined => false
    case Null => false
    case Bool(b) => !b
    case Num(n) => n == 0
    case Str(s) => s == ""
    case Arr(e) => ElemsText(e) == ""
    case Obj(_) => false
  }

  /** The test the handler applies to each required field: `!v || v == ''`. */
  predicate IsMissing(v: JsValue) {
    Falsy(v) || LooselyEqualsEmpty(v)
  }

  /** The only values whose text is empty are "" and arrays that join to "". */
  lemma EmptyText(v: JsValue)
    ensures Text(v) == "" <==> v == Str("") || (v.Arr? && ElemsText(v.elems) == "")
  {
  }

  /**
   * Exactly which field values the handler rejects: the falsy ones and,
   * although they are truthy, arrays with no element or with one element that
   * renders as empty text (`[]`, `[""]`, `[null]`, `[[]]`).
   */
  lemma MissingValues(v: JsValue)
    ensures IsMissing(v) <==>
      || v == Undefined || v == Null || v == Bool(false) || v == Num(0) || v == Str("")
      || (v.Arr? && (|v.elems| == 0 || (|v.elems| == 1 && (Blank(v.elems[0]) || Text(v.elems[0]) == ""))))
    ensures IsMissing(v) && v.Arr? ==> Truthy(v)
  {
  }
}
