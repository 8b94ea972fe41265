/**
 * The Pushgateway helper: the text exposition body it builds from a label
 * object and a metric object, and the POST it sends per call.
 */
module Metrics {
  import opened JsValues
  import opened Strings

  /** One `[key, value]` pair of Object.entries, in entry order. */
  datatype Entry = Entry(key: string, value: JsValue)

  /** One label as `key="value"`; the value is not escaped. */
  function LabelPair(e: Entry): string {
    e.key + "=\"" + Text(e.value) + "\""
  }

  function LabelPairs(labels: seq<Entry>): (r: seq<string>)
    ensures |r| == |labels|
    ensures forall i :: 0 <= i < |labels| ==> r[i] == LabelPair(labels[i])
  {
    if |labels| == 0 then [] else [LabelPair(labels[0])] + LabelPairs(labels[1..])
  }

  /** The label string: the pairs joined by commas. It is empty exactly when there are no labels. */
  function LabelString(labels: seq<Entry>): (r: string)
    ensures r == "" <==> |labels| == 0
  {
    Join(",", LabelPairs(labels))
  }

  /** One exposition line: `name{labels} value`. */
  function MetricLine(m: Entry, labelString: string): string {
    m.key + "{" + labelString + "} " + Text(m.value)
  }

  function MetricLines(metrics: seq<Entry>, labelString: string): (r: seq<string>)
    ensures |r| == |metrics|
    ensures forall i :: 0 <= i < |metrics| ==> r[i] == MetricLine(metrics[i], labelString)
  {
    if |metrics| == 0 then []
    else [MetricLine(metrics[0], labelString)] + MetricLines(metrics[1..], labelString)
  }

  /** The request body: the lines joined by newlines, with no trailing newline. */
  function Payload(metrics: seq<Entry>, labelString: string): (r: string)
    ensures r == "" <==> |metrics| == 0
    ensures |metrics| > 0 ==> |r| > |metrics[0].key| && r[..|metrics[0].key| + 1] == metrics[0].key + "{"
  {
    Join("\n", MetricLines(metrics, labelString))
  }

  /**
   * With at least one label and no comma inside any rendered pair, splitting
   * the label string at commas gives back one `key="value"` per label, in
   * entry order.
   */
  lemma LabelStringSplits(labels: seq<Entry>)
    requires |labels| > 0
    requires forall i :: 0 <= i < |labels| ==> ',' !in LabelPair(labels[i])
    ensures Split(',', LabelString(labels)) == LabelPairs(labels)
  {
    SplitJoin(',', LabelPairs(labels));
  }

  /**
   * Label values are not escaped: a value holding `",` renders exactly like
   * two separate labels, so the label string does not determine the labels.
   */
  lemma LabelStringAmbiguous()
    ensures LabelString([Entry("id", Str("a\",b=\"c"))])
         == LabelString([Entry("id", Str("a")), Entry("b", Str("c"))])
  {
  }

  /**
   * With at least one metric and no newline in any line, the payload splits at
   * newlines into exactly one line per metric, in entry order.
   */
  lemma PayloadSplits(metrics: seq<Entry>, labelString: string)
    requires |metrics| > 0
    requires forall i :: 0 <= i < |metrics| ==> '\n' !in MetricLine(metrics[i], labelString)
    ensures Split('\n', Payload(metrics, labelString)) == MetricLines(metrics, labelString)
  {
    SplitJoin('\n', MetricLines(metrics, labelString));
  }

  /** A payload of one metric is its single line. */
  lemma PayloadOfOne(m: Entry, labelString: string)
    requires '\n' !in MetricLine(m, labelString)
    ensures Split('\n', Payload([m], labelString)) == [MetricLine(m, labelString)]
  {
    PayloadSplits([m], labelString);
  }

  /** A payload of two metrics is their two lines, in entry order. */
  lemma PayloadOfTwo(m0: Entry, m1: Entry, labelString: string)
    requires '\n' !in MetricLine(m0, labelString) && '\n' !in MetricLine(m1, labelString)
    ensures Split('\n', Payload([m0, m1], labelString)) == [MetricLine(m0, labelString), MetricLine(m1, labelString)]
  {
    PayloadSplits([m0, m1], labelString);
  }

  /** One POST to the gateway: the URL for the job and the text body. */
  datatype Push = Push(url: string, body: string)

  function PushUrl(job: string): string {
    "http://pushgateway-container:9091/metrics/job/" + job
  }

  /**
   * The gateway as seen from the service: the sequence of POSTs sent to it.
   * A transport failure is logged and swallowed by the helper, so a call
   * always records its POST and never fails.
   */
  class Gateway {
    var sent: seq<Push>

    constructor ()
      ensures sent == []
    {
      sent := [];
    }

    method PushMetrics(job: string, labels: seq<Entry>, metrics: seq<Entry>)
      modifies this
      ensures sent == old(sent) + [Push(PushUrl(job), Payload(metrics, LabelString(labels)))]
    {
      var labelString := LabelString(labels);
      var payload := Payload(metrics, labelString);
      sent := sent + [Push(PushUrl(job), payload)];
    }
  }
}
