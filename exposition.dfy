/**
 * The Prometheus text exposition format written by the data generator
 * (cmd/tsbs_generate_data/serialize/prometheus.go).
 *
 * One point becomes one line per field,
 *   <measurement>_<field>{k1="v1",...,kn="vn"} <value> <timestamp in ms>\n
 * with the label block left out when the point has no tags. `Serialize`
 * builds the label block and the lines by appending, takes its scratch buffer
 * from a pool and hands it back emptied; `Exposition` says what the text is,
 * and the lemmas read it back.
 */
module Exposition {
  import opened GoText

  type int64 = x: int | -0x8000_0000_0000_0000 <= x < 0x8000_0000_0000_0000

  /** A field value as `valueAppend` sees it: its dynamic type and its value. */
  datatype FieldValue =
    | IntValue(i: int64)
    | Int64Value(i: int64)
    | Float64Value(text: string)   // what strconv.AppendFloat(v, 'f', -1, 64) writes for it
    | Float32Value(text: string)   // what strconv.AppendFloat(v, 'f', -1, 32) writes for it
    | OtherValue                   // any other type: valueAppend panics

  /** `serialize.Point`: the tags and fields are parallel key and value lists, the timestamp
      is kept as its `UnixNano()`. */
  datatype Point = Point(
    measurementName: string,
    tagKeys: seq<string>,
    tagValues: seq<string>,
    fieldKeys: seq<string>,
    fieldValues: seq<FieldValue>,
    timestampNanos: int64)

  /** Integer values reach text through float64, which holds them exactly up to 2^53. */
  predicate ExactlyRendered(v: FieldValue)
  {
    (v.IntValue? || v.Int64Value?) ==> -Float64ExactLimit <= v.i <= Float64ExactLimit
  }

  /** What `Serialize` indexes exists: a value for every tag key and every field key. */
  predicate WellFormed(p: Point)
  {
    && |p.tagValues| >= |p.tagKeys|
    && |p.fieldValues| >= |p.fieldKeys|
    && forall i :: 0 <= i < |p.fieldKeys| ==> ExactlyRendered(p.fieldValues[i])
  }

  /** None of the first `n` field values has a type `valueAppend` rejects. */
  predicate SupportedUpTo(p: Point, n: nat)
    requires WellFormed(p) && n <= |p.fieldKeys|
  {
    forall i :: 0 <= i < n ==> !p.fieldValues[i].OtherValue?
  }

  /** No field value has a type `valueAppend` rejects. */
  predicate Supported(p: Point)
    requires WellFormed(p)
  {
    SupportedUpTo(p, |p.fieldKeys|)
  }

  // ---------------------------------------------------------------------
  // valueAppend and the timestamp column
  // ---------------------------------------------------------------------

  /** The text `valueAppend` writes for a value of a supported type. */
  function ValueText(v: FieldValue): string
    requires ExactlyRendered(v) && !v.OtherValue?
  {
    match v
    case IntValue(i) => Decimal(i)
    case Int64Value(i) => Decimal(i)
    case Float64Value(t) => t
    case Float32Value(t) => t
  }

  /** Integers are written as plain decimal, with no fractional part, and read back as the
      same number. */
  lemma IntegerValueText(v: FieldValue)
    requires ExactlyRendered(v) && (v.IntValue? || v.Int64Value?)
    ensures IsDecimalText(ValueText(v)) && ParseInt(ValueText(v)) == v.i
  {
    DecimalRoundTrip(v.i);
  }

  /** `valueAppend`: `buf` followed by the value's text; nothing (the panic) for a value of
      an unsupported type. */
  function ValueAppend(v: FieldValue, buf: string): (r: Option<string>)
    requires ExactlyRendered(v)
    ensures r.None? <==> v.OtherValue?
    ensures r.Some? ==> |r.value| >= |buf| && r.value[..|buf|] == buf && r.value[|buf|..] == ValueText(v)
    ensures r.Some? && (v.IntValue? || v.Int64Value?) ==>
              IsDecimalText(r.value[|buf|..]) && ParseInt(r.value[|buf|..]) == v.i
  {
    if v.OtherValue? then None
    else
      var appended := buf + ValueText(v);
      assert appended[|buf|..] == ValueText(v);
      if v.IntValue? || v.Int64Value? then IntegerValueText(v); Some(appended)
      else Some(appended)
  }

  /** `p.timestamp.UnixNano()/1e6`: Go's int64 division, which truncates toward zero, so the
      milliseconds are rounded toward zero; the result is always exactly a float64. */
  function TimestampMillis(nanos: int64): (ms: int64)
    ensures nanos >= 0 ==> ms * 1_000_000 <= nanos < ms * 1_000_000 + 1_000_000
    ensures nanos < 0 ==> ms * 1_000_000 - 1_000_000 < nanos <= ms * 1_000_000
    ensures ExactlyRendered(Int64Value(ms))
  {
    GoDiv(nanos, 1_000_000)
  }

  // ---------------------------------------------------------------------
  // The text a point becomes
  // ---------------------------------------------------------------------

  /** One label: key, `=`, and the value in double quotes. */
  function LabelPair(key: string, value: string): string
  {
    key + "=" + "\"" + value + "\""
  }

  /** The labels of the tags, in tag order. */
  function LabelPairs(keys: seq<string>, values: seq<string>): (r: seq<string>)
    requires |values| >= |keys|
    ensures |r| == |keys|
    ensures forall i :: 0 <= i < |keys| ==> r[i] == LabelPair(keys[i], values[i])
  {
    seq(|keys|, i requires 0 <= i < |keys| => LabelPair(keys[i], values[i]))
  }

  /** The label block: nothing at all without tags, else the labels between braces with a
      comma between neighbours and none after the last. */
  function LabelBlock(keys: seq<string>, values: seq<string>): string
    requires |values| >= |keys|
  {
    if |keys| == 0 then "" else "{" + Join(LabelPairs(keys, values), ",") + "}"
  }

  /** The metric name of field `i`: the measurement name, `_`, the field key. */
  function MetricName(p: Point, i: nat): string
    requires i < |p.fieldKeys|
  {
    p.measurementName + "_" + p.fieldKeys[i]
  }

  /** Line `i` of a point without its terminating newline. */
  function LineText(p: Point, i: nat): string
    requires WellFormed(p) && i < |p.fieldKeys| && !p.fieldValues[i].OtherValue?
  {
    MetricName(p, i) + LabelBlock(p.tagKeys, p.tagValues) + " " + ValueText(p.fieldValues[i])
    + " " + Decimal(TimestampMillis(p.timestampNanos))
  }

  /** The lines of the first `n` fields, each ended by a newline. */
  function Lines(p: Point, n: nat): string
    requires WellFormed(p) && n <= |p.fieldKeys| && SupportedUpTo(p, n)
  {
    if n == 0 then "" else Lines(p, n - 1) + LineText(p, n - 1) + "\n"
  }

  /** Everything `Serialize` writes for a point. */
  function Exposition(p: Point): string
    requires WellFormed(p) && Supported(p)
  {
    Lines(p, |p.fieldKeys|)
  }

  // ---------------------------------------------------------------------
  // Reading the text back
  // ---------------------------------------------------------------------

  /** The lines of the first `n` fields, without their newlines. */
  function LineTexts(p: Point, n: nat): (r: seq<string>)
    requires WellFormed(p) && n <= |p.fieldKeys| && SupportedUpTo(p, n)
    ensures |r| == n
  {
    if n == 0 then [] else LineTexts(p, n - 1) + [LineText(p, n - 1)]
  }

  /** Entry `i` of the lines is the line of field `i`. */
  lemma {:induction false} LineTextsAt(p: Point, n: nat, i: nat)
    requires WellFormed(p) && n <= |p.fieldKeys| && SupportedUpTo(p, n) && i < n
    ensures LineTexts(p, n)[i] == LineText(p, i)
    decreases n
  {
    var prev := LineTexts(p, n - 1);
    var last := LineText(p, n - 1);
    assert LineTexts(p, n) == prev + [last];
    SnocAt(prev, last);
    if i < n - 1 {
      LineTextsAt(p, n - 1, i);
    }
  }

  /** Appending one element keeps the earlier ones in place. */
  lemma SnocAt(prev: seq<string>, x: string)
    ensures forall i :: 0 <= i < |prev| ==> (prev + [x])[i] == prev[i]
    ensures (prev + [x])[|prev|] == x
  {
  }

  lemma {:induction false} LinesAsJoin(p: Point, n: nat)
    requires WellFormed(p) && n <= |p.fieldKeys| && SupportedUpTo(p, n)
    ensures Lines(p, n) == Join(LineTexts(p, n) + [""], "\n")
  {
    if n == 0 {
      assert LineTexts(p, 0) + [""] == [""];
    } else {
      LinesAsJoin(p, n - 1);
      JoinTerminated(LineTexts(p, n - 1), LineText(p, n - 1), "\n");
    }
  }

  /** No text of the point holds a newline. */
  predicate NoNewlines(p: Point)
    requires WellFormed(p) && Supported(p)
  {
    forall i :: 0 <= i < |p.fieldKeys| ==> '\n' !in LineText(p, i)
  }

  /** One line per field, in field order: splitting the output at newlines gives the line of
      every field and then the empty rest after the last newline. With no fields nothing is
      written at all. */
  lemma ExpositionLines(p: Point)
    requires WellFormed(p) && Supported(p) && NoNewlines(p)
    ensures Split(Exposition(p), '\n') == LineTexts(p, |p.fieldKeys|) + [""]
    ensures forall i :: 0 <= i < |p.fieldKeys| ==> Split(Exposition(p), '\n')[i] == LineText(p, i)
    ensures |p.fieldKeys| == 0 ==> Exposition(p) == ""
  {
    var n := |p.fieldKeys|;
    LinesAsJoin(p, n);
    var lines := LineTexts(p, n);
    SnocAt(lines, "");
    forall i | 0 <= i < n
      ensures lines[i] == LineText(p, i)
    {
      LineTextsAt(p, n, i);
    }
    var parts := lines + [""];
    assert forall i :: 0 <= i < |parts| ==> '\n' !in parts[i];
    SplitJoin(parts, '\n');
  }

  /** The label block reads back as the tags: without tags there is none; with tags it is
      braced, and splitting its inside at commas gives each tag's `key="value"` in tag order
      (when no key or value holds a comma). */
  lemma LabelBlockLabels(keys: seq<string>, values: seq<string>)
    requires |values| >= |keys|
    requires forall i :: 0 <= i < |keys| ==> ',' !in keys[i] && ',' !in values[i]
    ensures |keys| == 0 <==> LabelBlock(keys, values) == ""
    ensures |keys| > 0 ==>
              var b := LabelBlock(keys, values);
              && b[0] == '{' && b[|b| - 1] == '}'
              && Split(b[1..|b| - 1], ',') == LabelPairs(keys, values)
  {
    if |keys| > 0 {
      var pairs := LabelPairs(keys, values);
      forall i | 0 <= i < |pairs|
        ensures ',' !in pairs[i]
      {
        assert pairs[i] == keys[i] + "=\"" + values[i] + "\"";
      }
      SplitJoin(pairs, ',');
      var b := LabelBlock(keys, values);
      assert b[1..|b| - 1] == Join(pairs, ",");
    }
  }

  /** The columns of a line: when the metric name, the labels and the value hold no space,
      splitting a line at spaces gives exactly the series, the value and the timestamp, and
      the timestamp reads back as the point's time in milliseconds on every line. */
  lemma LineColumns(p: Point, i: nat)
    requires WellFormed(p) && Supported(p) && i < |p.fieldKeys|
    requires ' ' !in MetricName(p, i) + LabelBlock(p.tagKeys, p.tagValues)
    requires ' ' !in ValueText(p.fieldValues[i])
    ensures Split(LineText(p, i), ' ') ==
              [MetricName(p, i) + LabelBlock(p.tagKeys, p.tagValues),
               ValueText(p.fieldValues[i]),
               Decimal(TimestampMillis(p.timestampNanos))]
    ensures IsDecimalText(Split(LineText(p, i), ' ')[2])
    ensures ParseInt(Split(LineText(p, i), ' ')[2]) == TimestampMillis(p.timestampNanos)
  {
    var series := MetricName(p, i) + LabelBlock(p.tagKeys, p.tagValues);
    var value := ValueText(p.fieldValues[i]);
    var ts := Decimal(TimestampMillis(p.timestampNanos));
    DecimalChars(TimestampMillis(p.timestampNanos));
    DecimalRoundTrip(TimestampMillis(p.timestampNanos));
    assert LineText(p, i) == series + " " + value + " " + ts;
    ThreeColumns(series, value, ts);
  }

  /** Three texts without spaces, joined by single spaces, split back into the three. */
  lemma ThreeColumns(a: string, b: string, c: string)
    requires ' ' !in a && ' ' !in b && ' ' !in c
    ensures Split(a + " " + b + " " + c, ' ') == [a, b, c]
  {
    SplitWithoutSeparator(c, ' ');
    SplitAtFirstSeparator(b, ' ', c);
    assert a + " " + b + " " + c == a + [' '] + (b + [' '] + c);
    SplitAtFirstSeparator(a, ' ', b + [' '] + c);
  }

  // ---------------------------------------------------------------------
  // The documented examples
  // ---------------------------------------------------------------------

  /** The three host tags of the documented example points, and their label block. */
  const ExampleTagKeys: seq<string> := ["hostname", "region", "datacenter"]
  const ExampleTagValues: seq<string> := ["host_0", "eu-west-1", "eu-west-1b"]
  const ExampleLabels: string :=
    "{" + "hostname=\"host_0\"" + "," + "region=\"eu-west-1\"" + "," + "datacenter=\"eu-west-1b\"" + "}"

  lemma ExampleLabelBlock()
    ensures LabelBlock(ExampleTagKeys, ExampleTagValues) == ExampleLabels
  {
    ThreeLabelBlock(ExampleTagKeys, ExampleTagValues);
    ExampleLabelPairs();
  }

  /** Three tags give three labels between braces, separated by commas. */
  lemma ThreeLabelBlock(keys: seq<string>, values: seq<string>)
    requires |keys| == 3 && |values| == 3
    ensures var pairs := LabelPairs(keys, values);
            LabelBlock(keys, values) == "{" + pairs[0] + "," + pairs[1] + "," + pairs[2] + "}"
  {
    var pairs := LabelPairs(keys, values);
    var a, b, c := pairs[0], pairs[1], pairs[2];
    assert Join(pairs[2..], ",") == c;
    assert Join(pairs[1..], ",") == b + "," + c by {
      assert pairs[1..][1..] == pairs[2..];
    }
    assert Join(pairs, ",") == a + "," + (b + "," + c);
    assert "{" + (a + "," + (b + "," + c)) + "}" == "{" + a + "," + b + "," + c + "}";
  }

  /** The labels of the example tags. */
  lemma ExampleLabelPairs()
    ensures var pairs := LabelPairs(ExampleTagKeys, ExampleTagValues);
            && pairs[0] == "hostname=\"host_0\""
            && pairs[1] == "region=\"eu-west-1\""
            && pairs[2] == "datacenter=\"eu-west-1b\""
  {
    assert LabelPair("hostname", "host_0") == "hostname=\"host_0\"";
    assert LabelPair("region", "eu-west-1") == "region=\"eu-west-1\"";
    assert LabelPair("datacenter", "eu-west-1b") == "datacenter=\"eu-west-1b\"";
  }

  /** A line of a point carrying the example tags. */
  lemma ExampleLine(p: Point, i: nat, name: string, value: string)
    requires WellFormed(p) && i < |p.fieldKeys| && !p.fieldValues[i].OtherValue?
    requires p.tagKeys == ExampleTagKeys && p.tagValues == ExampleTagValues
    requires MetricName(p, i) == name && ValueText(p.fieldValues[i]) == value
    ensures LineText(p, i) == name + ExampleLabels + " " + value + " " + Decimal(TimestampMillis(p.timestampNanos))
  {
    ExampleLabelBlock();
  }

  /** A point with three fields of three value types, two of them integers, renders as
      three lines in field order, each with the full label block, the integers in plain
      decimal and the same timestamp column. */
  lemma MultiFieldExample(big: int64, small: int64, nanos: int64)
    requires -Float64ExactLimit <= big <= Float64ExactLimit
    requires -Float64ExactLimit <= small <= Float64ExactLimit
    ensures var p := Point("cpu", ExampleTagKeys, ExampleTagValues,
                           ["big_usage_guest", "usage_guest", "usage_guest_nice"],
                           [Int64Value(big), IntValue(small), Float64Value("38.24311829")], nanos);
            var ts := Decimal(TimestampMillis(nanos));
            && WellFormed(p) && Supported(p)
            && Exposition(p)
               == "cpu" + "_" + "big_usage_guest" + ExampleLabels + " " + Decimal(big) + " " + ts + "\n"
                  + "cpu" + "_" + "usage_guest" + ExampleLabels + " " + Decimal(small) + " " + ts + "\n"
                  + "cpu" + "_" + "usage_guest_nice" + ExampleLabels + " " + "38.24311829" + " " + ts + "\n"
  {
    var p := Point("cpu", ExampleTagKeys, ExampleTagValues,
                   ["big_usage_guest", "usage_guest", "usage_guest_nice"],
                   [Int64Value(big), IntValue(small), Float64Value("38.24311829")], nanos);
    var ts := Decimal(TimestampMillis(nanos));
    assert WellFormed(p) && Supported(p);
    assert ValueText(p.fieldValues[0]) == Decimal(big);
    assert ValueText(p.fieldValues[1]) == Decimal(small);
    assert ValueText(p.fieldValues[2]) == "38.24311829";
    ExampleLine(p, 0, "cpu" + "_" + "big_usage_guest", Decimal(big));
    ExampleLine(p, 1, "cpu" + "_" + "usage_guest", Decimal(small));
    ExampleLine(p, 2, "cpu" + "_" + "usage_guest_nice", "38.24311829");
    ThreeLines(p);
    ThreeLinesFlat("cpu", "big_usage_guest", "usage_guest", "usage_guest_nice", ExampleLabels,
                   Decimal(big), Decimal(small), "38.24311829", ts);
  }

  lemma ThreeLines(p: Point)
    requires WellFormed(p) && |p.fieldKeys| == 3 && Supported(p)
    ensures Exposition(p) == "" + LineText(p, 0) + "\n" + LineText(p, 1) + "\n" + LineText(p, 2) + "\n"
  {
    assert Lines(p, 1) == Lines(p, 0) + LineText(p, 0) + "\n";
    assert Lines(p, 2) == Lines(p, 1) + LineText(p, 1) + "\n";
  }

  /** Regrouping of three newline-terminated lines.
      Stated over plain strings so that callers regroup without unfolding the functions that
      produce the pieces, which costs the solver far more. */
  lemma ThreeLinesFlat(m: string, f0: string, f1: string, f2: string, labels: string,
                       v0: string, v1: string, v2: string, ts: string)
    ensures "" + (m + "_" + f0 + labels + " " + v0 + " " + ts) + "\n"
            + (m + "_" + f1 + labels + " " + v1 + " " + ts) + "\n"
            + (m + "_" + f2 + labels + " " + v2 + " " + ts) + "\n"
            == m + "_" + f0 + labels + " " + v0 + " " + ts + "\n"
               + m + "_" + f1 + labels + " " + v1 + " " + ts + "\n"
               + m + "_" + f2 + labels + " " + v2 + " " + ts + "\n"
  {
  }

  /** The integers of the documented test cases, in decimal. */
  lemma DecimalOf38()
    ensures Decimal(38) == "38"
  {
    assert NatDigits(3) == "3";
    assert NatDigits(38) == NatDigits(3) + [DigitChar(8)];
  }

  lemma DecimalOfFiveBillion()
    ensures Decimal(5000000000) == "5000000000"
  {
    assert NatDigits(5) == "5";
    assert NatDigits(50) == NatDigits(5) + "0" == "50";
    assert NatDigits(500) == NatDigits(50) + "0" == "500";
    assert NatDigits(5000) == NatDigits(500) + "0" == "5000";
    assert NatDigits(50000) == NatDigits(5000) + "0" == "50000";
    assert NatDigits(500000) == NatDigits(50000) + "0" == "500000";
    assert NatDigits(5000000) == NatDigits(500000) + "0" == "5000000";
    assert NatDigits(50000000) == NatDigits(5000000) + "0" == "50000000";
    assert NatDigits(500000000) == NatDigits(50000000) + "0" == "500000000";
    assert NatDigits(5000000000) == NatDigits(500000000) + "0" == "5000000000";
  }

  /** A point of one field with the example tags is one line. */
  lemma OneFieldExample(p: Point, name: string, value: string)
    requires WellFormed(p) && |p.fieldKeys| == 1 && !p.fieldValues[0].OtherValue?
    requires p.tagKeys == ExampleTagKeys && p.tagValues == ExampleTagValues
    requires MetricName(p, 0) == name && ValueText(p.fieldValues[0]) == value
    ensures Supported(p)
    ensures Exposition(p) == name + ExampleLabels + " " + value + " " + Decimal(TimestampMillis(p.timestampNanos)) + "\n"
  {
    ExampleLine(p, 0, name, value);
    assert Exposition(p) == Lines(p, 1) == "" + LineText(p, 0) + "\n";
  }

  /** The regular point: one float field. */
  lemma DefaultPointCase(nanos: int64)
    ensures var p := Point("cpu", ExampleTagKeys, ExampleTagValues, ["usage_guest_nice"],
                           [Float64Value("38.24311829")], nanos);
            && WellFormed(p) && Supported(p)
            && Exposition(p)
               == "cpu_usage_guest_nice" + ExampleLabels + " " + "38.24311829" + " "
                  + Decimal(TimestampMillis(nanos)) + "\n"
  {
    var p := Point("cpu", ExampleTagKeys, ExampleTagValues, ["usage_guest_nice"],
                   [Float64Value("38.24311829")], nanos);
    assert MetricName(p, 0) == "cpu_usage_guest_nice";
    OneFieldExample(p, "cpu_usage_guest_nice", "38.24311829");
  }

  /** The regular point with an int value: 38 is written as `38`, with no fractional part. */
  lemma IntPointCase(nanos: int64)
    ensures var p := Point("cpu", ExampleTagKeys, ExampleTagValues, ["usage_guest"],
                           [IntValue(38)], nanos);
            && WellFormed(p) && Supported(p)
            && Exposition(p)
               == "cpu_usage_guest" + ExampleLabels + " " + "38" + " " + Decimal(TimestampMillis(nanos)) + "\n"
  {
    var p := Point("cpu", ExampleTagKeys, ExampleTagValues, ["usage_guest"], [IntValue(38)], nanos);
    assert MetricName(p, 0) == "cpu_usage_guest";
    DecimalOf38();
    OneFieldExample(p, "cpu_usage_guest", "38");
  }

  /** The point with several fields: 5000000000 and 38 in plain decimal, then the float. */
  lemma MultiFieldCase(nanos: int64)
    ensures var p := Point("cpu", ExampleTagKeys, ExampleTagValues,
                           ["big_usage_guest", "usage_guest", "usage_guest_nice"],
                           [Int64Value(5000000000), IntValue(38), Float64Value("38.24311829")], nanos);
            var ts := Decimal(TimestampMillis(nanos));
            && WellFormed(p) && Supported(p)
            && Exposition(p)
               == "cpu" + "_" + "big_usage_guest" + ExampleLabels + " " + "5000000000" + " " + ts + "\n"
                  + "cpu" + "_" + "usage_guest" + ExampleLabels + " " + "38" + " " + ts + "\n"
                  + "cpu" + "_" + "usage_guest_nice" + ExampleLabels + " " + "38.24311829" + " " + ts + "\n"
  {
    MultiFieldExample(5000000000, 38, nanos);
    DecimalOfFiveBillion();
    DecimalOf38();
  }

  /** Without tags no label block is written at all. */
  lemma NoTagsExample(nanos: int64)
    ensures var p := Point("cpu", [], [], ["usage_guest_nice"], [Float64Value("38.24311829")], nanos);
            && WellFormed(p) && Supported(p)
            && Exposition(p) == "cpu_usage_guest_nice" + " " + "38.24311829" + " " + Decimal(TimestampMillis(nanos)) + "\n"
  {
    var p := Point("cpu", [], [], ["usage_guest_nice"], [Float64Value("38.24311829")], nanos);
    assert MetricName(p, 0) == "cpu_usage_guest_nice";
    assert LineText(p, 0) == "cpu_usage_guest_nice" + "" + " " + "38.24311829" + " " + Decimal(TimestampMillis(nanos));
    assert Lines(p, 1) == "" + LineText(p, 0) + "\n";
  }

  // ---------------------------------------------------------------------
  // The serializer
  // ---------------------------------------------------------------------

  /** What the destination does with one write: take all of it, or take the first `n` bytes
      (all of them when there are fewer) and report an error. */
  datatype WriteOutcome = TakeAll | TakeThenFail(n: nat)

  /** The outcome of the next write: the head of the plan; a writer past its plan takes all. */
  function NextOutcome(plan: seq<WriteOutcome>): WriteOutcome
  {
    if plan == [] then TakeAll else plan[0]
  }

  /** The plan left after one write. */
  function AfterWrite(plan: seq<WriteOutcome>): seq<WriteOutcome>
  {
    if plan == [] then [] else plan[1..]
  }

  /** How many of `size` bytes a write with outcome `o` accepts. */
  function Taken(o: WriteOutcome, size: nat): (n: nat)
    ensures n <= size
    ensures n < size ==> o.TakeThenFail?
    ensures o.TakeAll? ==> n == size
  {
    match o
    case TakeAll => size
    case TakeThenFail(k) => if k < size then k else size
  }

  /** The destination `io.Writer`: what it has received, and how its coming writes turn out
      (each one may take a prefix of its buffer and fail, independently of the others). */
  class Writer {
    var content: string
    var plan: seq<WriteOutcome>

    constructor (plan: seq<WriteOutcome>)
      ensures content == "" && this.plan == plan
    {
      content := "";
      this.plan := plan;
    }

    /** `w.Write(buf)`: takes `n` bytes of `buf`, as many as its next outcome allows, and
        reports an error on a failing outcome; by the `io.Writer` contract an error is
        reported whenever fewer than all the bytes were taken. */
    method Write(buf: string) returns (n: nat, failed: bool)
      modifies this
      ensures n <= |buf| && (n < |buf| ==> failed)
      ensures failed <==> NextOutcome(old(plan)).TakeThenFail?
      ensures n == Taken(NextOutcome(old(plan)), |buf|)
      ensures content == old(content) + buf[..n] && plan == AfterWrite(old(plan))
    {
      var outcome := NextOutcome(plan);
      n := Taken(outcome, |buf|);
      failed := outcome.TakeThenFail?;
      content := content + buf[..n];
      plan := AfterWrite(plan);
    }
  }

  /** `scratchBufPool`: the byte buffers kept for reuse. Every buffer in it is empty. */
  class ScratchPool {
    var free: seq<string>

    ghost predicate Valid()
      reads this
    {
      forall k :: 0 <= k < |free| ==> free[k] == ""
    }

    constructor ()
      ensures Valid() && free == []
    {
      free := [];
    }

    /** `Get`: a kept buffer if there is one, else a new empty one; either way empty. */
    method Get() returns (buf: string)
      requires Valid()
      modifies this
      ensures Valid() && buf == ""
      ensures free == if old(free) == [] then [] else old(free)[..|old(free)| - 1]
    {
      if free == [] {
        buf := "";
      } else {
        buf := free[|free| - 1];
        free := free[..|free| - 1];
      }
    }

    /** `Put`: keeps a buffer for reuse. */
    method Put(buf: string)
      requires Valid() && buf == ""
      modifies this
      ensures Valid() && free == old(free) + [buf]
    {
      free := free + [buf];
    }
  }

  /** Appending pieces one at a time is appending their concatenation.
      Stated over plain strings so that callers regroup without unfolding the functions that
      produce the pieces, which costs the solver far more. */
  lemma AppendPieces(a: string, b: string, c: string, d: string, e: string, f: string)
    ensures a + b + c + d + e + f == a + (b + c + d + e + f)
    ensures a + b + c + d + e == a + (b + c + d + e)
    ensures a + b + c == a + (b + c)
  {
  }

  /** The first `i` of `parts`, each followed by a comma except the last of all `parts`. */
  function CommaTerminated(parts: seq<string>, i: nat): string
    requires i <= |parts|
  {
    if i == 0 then "" else CommaTerminated(parts, i - 1) + parts[i - 1] + (if i != |parts| then "," else "")
  }

  lemma {:induction false} CommaTerminatedPrefix(parts: seq<string>, i: nat)
    requires 0 < i < |parts|
    ensures CommaTerminated(parts, i) == Join(parts[..i], ",") + ","
  {
    if i > 1 {
      CommaTerminatedPrefix(parts, i - 1);
      JoinSnoc(parts[..i - 1], parts[i - 1], ",");
      assert parts[..i] == parts[..i - 1] + [parts[i - 1]];
    } else {
      assert parts[..1] == [parts[0]];
    }
  }

  /** Appending every part with a comma after all but the last is joining them with commas. */
  lemma CommaTerminatedJoin(parts: seq<string>)
    requires |parts| > 0
    ensures CommaTerminated(parts, |parts|) == Join(parts, ",")
  {
    var n := |parts|;
    var last := parts[n - 1];
    var before := CommaTerminated(parts, n - 1);
    assert CommaTerminated(parts, n) == before + last + "";
    assert before + last + "" == before + last;
    if n > 1 {
      var init := parts[..n - 1];
      CommaTerminatedPrefix(parts, n - 1);
      assert before == Join(init, ",") + ",";
      JoinSnoc(init, last, ",");
      assert init != [];
      assert parts[n - 1..] == [last];
      assert init + parts[n - 1..] == parts;
    } else {
      assert before == "";
    }
  }

  /** One turn of the label loop: appending a tag's label and its separator extends the
      comma-terminated prefix by one label. */
  lemma LabelStep(pairs: seq<string>, i: nat, before: string, key: string, value: string,
                  sep: string, after: string)
    requires i < |pairs| && pairs[i] == LabelPair(key, value)
    requires sep == (if i != |pairs| - 1 then "," else "")
    requires before == "{" + CommaTerminated(pairs, i)
    requires after == before + key + "=" + "\"" + value + "\"" + sep
    ensures after == "{" + CommaTerminated(pairs, i + 1)
  {
    AppendPieces(before, key, "=", "\"", value, "\"");
    assert after == before + pairs[i] + sep;
    AppendPieces("{", CommaTerminated(pairs, i), pairs[i], sep, "", "");
  }

  /** The first part of `Serialize`: the label block, built by appending each tag's
      `key="value"` and a comma after every one but the last. */
  method BuildLabelBlock(keys: seq<string>, values: seq<string>) returns (labels: string)
    requires |values| >= |keys|
    ensures labels == LabelBlock(keys, values)
  {
    labels := "";
    var labelsLen := |keys|;
    if labelsLen > 0 {
      ghost var pairs := LabelPairs(keys, values);
      labels := "{";
      var i := 0;
      while i < labelsLen
        invariant 0 <= i <= labelsLen
        invariant labels == "{" + CommaTerminated(pairs, i)
      {
        ghost var before := labels;
        labels := labels + keys[i];
        labels := labels + "=";
        labels := labels + "\"";
        labels := labels + values[i];
        labels := labels + "\"";
        if i != labelsLen - 1 {
          labels := labels + ",";
          LabelStep(pairs, i, before, keys[i], values[i], ",", labels);
        } else {
          LabelStep(pairs, i, before, keys[i], values[i], "", labels);
        }
        i := i + 1;
      }
      CommaTerminatedJoin(pairs);
      labels := labels + "}";
    }
  }

  lemma LineTextColumns(buf: string, p: Point, i: nat, series: string, valued: string, stamped: string, line: string)
    requires WellFormed(p) && i < |p.fieldKeys| && !p.fieldValues[i].OtherValue?
    requires series == buf + (MetricName(p, i) + LabelBlock(p.tagKeys, p.tagValues) + " ")
    requires |valued| >= |series| && valued[..|series|] == series && valued[|series|..] == ValueText(p.fieldValues[i])
    requires |stamped| >= |valued| + 1 && stamped[..|valued| + 1] == valued + " "
    requires stamped[|valued| + 1..] == ValueText(Int64Value(TimestampMillis(p.timestampNanos)))
    requires line == stamped + "\n"
    ensures line == buf + LineText(p, i) + "\n"
  {
    var v := ValueText(p.fieldValues[i]);
    var ts := Decimal(TimestampMillis(p.timestampNanos));
    assert valued == valued[..|series|] + valued[|series|..];
    assert valued == series + v;
    assert stamped == stamped[..|valued| + 1] + stamped[|valued| + 1..];
    assert stamped == valued + " " + ts;
    var head := MetricName(p, i) + LabelBlock(p.tagKeys, p.tagValues);
    AppendPieces(buf, head, " ", v, " ", ts);
    assert LineText(p, i) == head + " " + v + " " + ts;
  }

  /** One pass of `Serialize`'s field loop: appends the line of field `i` to `buf`, or stops
      (the panic of `valueAppend`) at a value of an unsupported type. */
  method AppendFieldLine(buf: string, p: Point, i: nat, labels: string) returns (r: Option<string>)
    requires WellFormed(p) && i < |p.fieldKeys|
    requires labels == LabelBlock(p.tagKeys, p.tagValues)
    ensures r.None? <==> p.fieldValues[i].OtherValue?
    ensures r.Some? ==> r.value == buf + LineText(p, i) + "\n"
  {
    var line := buf + p.measurementName + "_" + p.fieldKeys[i];
    if |p.tagKeys| > 0 {
      line := line + labels;
    }
    line := line + " ";
    ghost var series := line;
    assert series == buf + (MetricName(p, i) + labels + " ");
    var withValue := ValueAppend(p.fieldValues[i], line);
    if withValue.None? {
      return None;
    }
    line := withValue.value + " ";
    var ms := TimestampMillis(p.timestampNanos);
    var withTimestamp := ValueAppend(Int64Value(ms), line);
    line := withTimestamp.value + "\n";
    LineTextColumns(buf, p, i, series, withValue.value, withTimestamp.value, line);
    r := Some(line);
  }

  /** One turn of the field loop: the line of a supported field extends the lines so far,
      which follow what the buffer held before the loop. */
  lemma LinesStep(p: Point, i: nat, prefix: string, buf: string, next: string)
    requires WellFormed(p) && i < |p.fieldKeys| && SupportedUpTo(p, i)
    requires !p.fieldValues[i].OtherValue?
    requires buf == prefix + Lines(p, i) && next == buf + LineText(p, i) + "\n"
    ensures SupportedUpTo(p, i + 1) && next == prefix + Lines(p, i + 1)
  {
    NewlineTerminated(prefix, Lines(p, i), LineText(p, i));
  }

  /** Regrouping: appending a line and a newline after a prefix and earlier lines.
      Stated over plain strings so that callers regroup without unfolding the functions that
      produce the pieces, which costs the solver far more. */
  lemma NewlineTerminated(prefix: string, before: string, line: string)
    ensures prefix + before + line + "\n" == prefix + (before + line + "\n")
  {
  }

  /** A field of unsupported type makes the whole point unsupported. */
  lemma UnsupportedField(p: Point, i: nat)
    requires WellFormed(p) && i < |p.fieldKeys| && p.fieldValues[i].OtherValue?
    ensures !Supported(p)
  {
  }

  /** The field loop of `Serialize`: appends the line of every field to `buf`, or stops (the
      panic of `valueAppend`) at the first value of an unsupported type. */
  method AppendLines(buf: string, p: Point, labels: string) returns (r: Option<string>)
    requires WellFormed(p) && labels == LabelBlock(p.tagKeys, p.tagValues)
    ensures r.None? <==> !Supported(p)
    ensures r.Some? ==> r.value == buf + Exposition(p)
  {
    var lines := buf;
    var i := 0;
    while i < |p.fieldKeys|
      invariant 0 <= i <= |p.fieldKeys|
      invariant SupportedUpTo(p, i)
      invariant lines == buf + Lines(p, i)
    {
      var next := AppendFieldLine(lines, p, i, labels);
      if next.None? {
        UnsupportedField(p, i);
        return None;
      }
      LinesStep(p, i, buf, lines, next.value);
      lines := next.value;
      i := i + 1;
    }
    r := Some(lines);
  }

  /** How `Serialize` ends: the writer's error, or the panic of `valueAppend`. */
  datatype Status = Written | WriteError | UnknownFieldType

  /** `Serialize`: writes the exposition of `p` to `w` in one write, which may deliver only
      a prefix, and returns the writer's error; a field value of an unsupported type panics
      before anything is written, and the scratch buffer taken from the pool is then lost.
      Otherwise the buffer goes back to the pool emptied. */
  method Serialize(p: Point, w: Writer, pool: ScratchPool) returns (status: Status)
    requires WellFormed(p) && pool.Valid()
    modifies w, pool
    ensures pool.Valid()
    ensures !Supported(p) ==>
              && status == UnknownFieldType
              && w.content == old(w.content) && w.plan == old(w.plan)
              && pool.free == if old(pool.free) == [] then [] else old(pool.free)[..|old(pool.free)| - 1]
    ensures Supported(p) ==>
              var outcome := NextOutcome(old(w.plan));
              && status == (if outcome.TakeThenFail? then WriteError else Written)
              && w.content == old(w.content) + Exposition(p)[..Taken(outcome, |Exposition(p)|)]
              && w.plan == AfterWrite(old(w.plan))
              && pool.free == if old(pool.free) == [] then [""] else old(pool.free)
  {
    var labelsLen := |p.tagKeys|;
    var labels := BuildLabelBlock(p.tagKeys, p.tagValues);

    var buf := pool.Get();
    var lines := AppendLines(buf, p, labels);
    if lines.None? {
      status := UnknownFieldType;
      return;
    }
    buf := lines.value;
    var _, failed := w.Write(buf);
    buf := buf[..0];
    pool.Put(buf);
    assert old(pool.free) != [] ==> old(pool.free)[..|old(pool.free)| - 1] + [""] == old(pool.free);
    status := if failed then WriteError else Written;
  }
}
