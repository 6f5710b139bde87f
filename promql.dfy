// PromQL query generation for the devops use cases
// (cmd/tsbs_generate_queries/databases/prometheus/devops.go).
//
// The selector text is built from the metric names and the host names; the host names and
// the time window, which the generator draws at random, are parameters here.

module PromQL {
  import opened GoText

  // ---------------------------------------------------------------------
  // Selector pieces
  // ---------------------------------------------------------------------

  /** The label matcher on `hostname`: nothing for no hosts, an equality for one host and a
      regular-expression alternative, hosts in order, for several. */
  function HostClause(hostnames: seq<string>): (r: string)
    ensures r == "" <==> hostnames == []
    ensures |hostnames| >= 2 ==>
              && |r| >= 12 && r[..11] == "hostname=~'" && r[|r| - 1] == '\''
              && r[11..|r| - 1] == Join(hostnames, "|")
  {
    if |hostnames| == 0 then ""
    else if |hostnames| == 1 then "hostname='" + hostnames[0] + "'"
    else "hostname=~'" + Join(hostnames, "|") + "'"
  }

  /** A host name carries no character that the alternative uses as a separator. */
  predicate PlainName(s: string)
  {
    '|' !in s
  }

  /** The host clause reads back: empty exactly for no hosts; one host appears verbatim
      between quotes; several hosts are the quoted alternative that splits at `|` into
      exactly the hosts given, in their order. */
  lemma HostClauseReadBack(hostnames: seq<string>)
    ensures HostClause(hostnames) == "" <==> hostnames == []
    ensures |hostnames| == 1 ==> HostClause(hostnames) == "hostname='" + hostnames[0] + "'"
    ensures |hostnames| >= 2 && (forall i :: 0 <= i < |hostnames| ==> PlainName(hostnames[i])) ==>
              var c := HostClause(hostnames);
              && c[..11] == "hostname=~'" && c[|c| - 1] == '\''
              && Split(c[11..|c| - 1], '|') == hostnames
  {
    if |hostnames| >= 2 && (forall i :: 0 <= i < |hostnames| ==> PlainName(hostnames[i])) {
      var joined := Join(hostnames, "|");
      var c := HostClause(hostnames);
      assert c == "hostname=~'" + joined + "'";
      assert c[11..|c| - 1] == joined;
      SplitJoin(hostnames, '|');
    }
  }

  /** Every metric name with the `cpu_` prefix of the measurement. */
  function CpuMetrics(metrics: seq<string>): (r: seq<string>)
    ensures |r| == |metrics|
    ensures forall i :: 0 <= i < |metrics| ==> r[i] == "cpu_" + metrics[i]
  {
    if metrics == [] then [] else ["cpu_" + metrics[0]] + CpuMetrics(metrics[1..])
  }

  /** One `agg(metric) by (__name__)` expression per metric, in order. */
  function SelectClausesAggMetrics(agg: string, metrics: seq<string>, hosts: seq<string>): (r: seq<string>)
    ensures |r| == |metrics|
    ensures forall i :: 0 <= i < |metrics| ==> r[i] == agg + "(" + metrics[i] + ") by (__name__)"
  {
    if metrics == [] then []
    else [agg + "(" + metrics[0] + ") by (__name__)"] + SelectClausesAggMetrics(agg, metrics[1..], hosts)
  }

  /** The host list plays no part in the aggregate expressions. */
  lemma SelectClausesAggMetricsIgnoresHosts(agg: string, metrics: seq<string>, hosts: seq<string>, others: seq<string>)
    ensures SelectClausesAggMetrics(agg, metrics, hosts) == SelectClausesAggMetrics(agg, metrics, others)
  {
  }

  /** The series selector: a single metric is named directly with the host clause in braces
      (empty braces when there are no hosts); several metrics are matched on `__name__`
      against the `%q`-quoted alternative of their names, followed by the host clause when
      there are hosts. An empty metric list is a caller error. */
  function SelectClause(metrics: seq<string>, hosts: seq<string>): (r: string)
    requires |metrics| > 0
    ensures |r| >= 5 && r[|r| - 1] == '}'
    ensures |metrics| == 1 ==> r[..4] == "cpu_"
    ensures |metrics| >= 2 ==> |r| >= 12 && r[..11] == "{__name__=~"
    ensures |r| > |HostClause(hosts)| && r[|r| - 1 - |HostClause(hosts)|..|r| - 1] == HostClause(hosts)
  {
    var metricsCPU := CpuMetrics(metrics);
    var metricsClause := Join(metricsCPU, "|");
    var hostClause := HostClause(hosts);
    if |metrics| == 1 then metricsCPU[0] + "{" + hostClause + "}"
    else if |hosts| > 0 then "{__name__=~" + Quote(metricsClause) + ", " + hostClause + "}"
    else "{__name__=~" + Quote(metricsClause) + "}"
  }

  /** A single metric is selected by name, with braces even when no host is given. */
  lemma SelectClauseSingle(metric: string, hosts: seq<string>)
    ensures SelectClause([metric], hosts) == "cpu_" + metric + "{" + HostClause(hosts) + "}"
    ensures hosts == [] ==> SelectClause([metric], hosts) == "cpu_" + metric + "{}"
  {
  }

  /** Several metrics and no hosts: the selector is only the `__name__` matcher on the
      `%q`-quoted alternative of the `cpu_`-prefixed names. */
  lemma SelectClauseManyNoHosts(metrics: seq<string>)
    requires |metrics| >= 2
    ensures SelectClause(metrics, []) == "{__name__=~" + Quote(Join(CpuMetrics(metrics), "|")) + "}"
  {
  }

  /** Several metrics and some hosts: the `__name__` matcher, then the host clause. */
  lemma SelectClauseManyHosts(metrics: seq<string>, hosts: seq<string>)
    requires |metrics| >= 2 && hosts != []
    ensures SelectClause(metrics, hosts)
            == "{__name__=~" + Quote(Join(CpuMetrics(metrics), "|")) + ", " + HostClause(hosts) + "}"
  {
  }

  /** The alternative inside the selector of several metrics reads back: the quoted text
      unquotes to it, and it splits at `|` into exactly the `cpu_`-prefixed names. When no
      character needs escaping, the quoted text is the alternative between double quotes. */
  lemma SelectClauseManyReadBack(metrics: seq<string>)
    requires |metrics| >= 2
    requires forall i :: 0 <= i < |metrics| ==> PlainName(metrics[i])
    ensures var alternative := Join(CpuMetrics(metrics), "|");
            && Unquote(Quote(alternative)) == Some(alternative)
            && Split(alternative, '|') == CpuMetrics(metrics)
            && ((forall k :: 0 <= k < |alternative| ==> QuotesAsItself(alternative[k])) ==>
                  Quote(alternative) == "\"" + alternative + "\"")
  {
    var names := CpuMetrics(metrics);
    var alternative := Join(names, "|");
    forall i | 0 <= i < |names|
      ensures '|' !in names[i]
    {
      assert names[i] == "cpu_" + metrics[i];
    }
    SplitJoin(names, '|');
    UnquoteQuote(alternative);
    if forall k :: 0 <= k < |alternative| ==> QuotesAsItself(alternative[k]) {
      QuotePlain(alternative);
    }
  }

  // ---------------------------------------------------------------------
  // The queries of the four use cases
  // ---------------------------------------------------------------------

  /** Maximum of each selected metric over the selected hosts. */
  function GroupByTimeQuery(metrics: seq<string>, hosts: seq<string>): string
    requires |metrics| > 0
  {
    "max(" + SelectClause(metrics, hosts) + ") by (__name__)"
  }

  /** The human label of GroupByTime; the host count is right-aligned in four columns, and
      the duration is given in its printed form. */
  function GroupByTimeLabel(numMetrics: int, nHosts: int, timeRange: string): string
  {
    LabelHead(numMetrics) + PadLeft(Decimal(nHosts), 4) + LabelTail(timeRange)
  }

  /** The text of the GroupByTime label before the host count. */
  function LabelHead(numMetrics: int): string
  {
    "Prometheus " + Decimal(numMetrics) + " cpu metric(s), random "
  }

  /** The text of the GroupByTime label after the host count. */
  function LabelTail(timeRange: string): string
  {
    " hosts, random " + timeRange + " by 1m"
  }

  lemma DecimalWidth(n: nat)
    requires n < 10000
    ensures |Decimal(n)| <= 4
  {
    if n >= 10 {
      assert |NatDigits(n)| == |NatDigits(n / 10)| + 1;
      var m := n / 10;
      assert m < 1000;
      if m >= 10 {
        assert |NatDigits(m)| == |NatDigits(m / 10)| + 1;
        var k := m / 10;
        assert k < 100;
        if k >= 10 {
          assert |NatDigits(k)| == |NatDigits(k / 10)| + 1;
          assert k / 10 < 10;
        }
      }
    }
  }

  /** `text` is `head`, then `d` right-aligned by spaces in a four-column field, then `tail`. */
  predicate RightAligned(text: string, head: string, d: string, tail: string)
  {
    && |d| <= 4
    && |text| == |head| + 4 + |tail|
    && text[..|head|] == head
    && (forall k :: |head| <= k < |head| + 4 - |d| ==> text[k] == ' ')
    && text[|head| + 4 - |d|..|head| + 4] == d
    && text[|head| + 4..] == tail
  }

  /** A four-column field holding `d` after leading spaces, between a head and a tail. */
  lemma PaddedField(head: string, d: string, padded: string, tail: string, text: string)
    requires |d| <= 4 && |padded| == 4 && padded[4 - |d|..] == d
    requires forall k :: 0 <= k < 4 - |d| ==> padded[k] == ' '
    requires text == head + padded + tail
    ensures RightAligned(text, head, d, tail)
  {
    var p := |head|;
    assert text[..p] == head;
    assert text[p..p + 4] == padded;
    assert text[p + 4..] == tail;
    forall k | p <= k < p + 4 - |d|
      ensures text[k] == ' '
    {
      assert text[k] == padded[k - p];
    }
    assert text[p + 4 - |d|..p + 4] == padded[4 - |d|..];
  }

  /** A host count below 10000 has at most four digits, which parse back to the count. */
  lemma HostCountDigits(nHosts: int)
    requires 0 <= nHosts < 10000
    ensures |Decimal(nHosts)| <= 4
    ensures IsDecimalText(Decimal(nHosts)) && ParseInt(Decimal(nHosts)) == nHosts
  {
    DecimalWidth(nHosts);
    DecimalRoundTrip(nHosts);
  }

  /** For fewer than 10000 hosts the host count occupies exactly four columns between the
      fixed head and tail: leading spaces, then its decimal digits. */
  lemma GroupByTimeLabelColumns(numMetrics: int, nHosts: int, timeRange: string)
    requires 0 <= nHosts < 10000
    ensures RightAligned(GroupByTimeLabel(numMetrics, nHosts, timeRange),
                         LabelHead(numMetrics), Decimal(nHosts), LabelTail(timeRange))
  {
    DecimalWidth(nHosts);
    PaddedField(LabelHead(numMetrics), Decimal(nHosts), PadLeft(Decimal(nHosts), 4), LabelTail(timeRange),
                GroupByTimeLabel(numMetrics, nHosts, timeRange));
  }

  /** Average of each selected metric per host, over all hosts. */
  function GroupByTimeAndPrimaryTagQuery(metrics: seq<string>): string
    requires |metrics| > 0
  {
    "avg(" + SelectClause(metrics, []) + ") by (hostname)"
  }

  /** The per-host average never filters on hosts: it has no host matcher at all. */
  lemma GroupByTimeAndPrimaryTagAllHosts(metrics: seq<string>)
    requires |metrics| > 0
    ensures |metrics| == 1 ==>
              GroupByTimeAndPrimaryTagQuery(metrics) == "avg(" + "cpu_" + metrics[0] + "{}" + ") by (hostname)"
    ensures |metrics| >= 2 ==>
              GroupByTimeAndPrimaryTagQuery(metrics)
              == "avg(" + "{__name__=~" + Quote(Join(CpuMetrics(metrics), "|")) + "}" + ") by (hostname)"
  {
    if |metrics| == 1 {
      assert metrics == [metrics[0]];
      SelectClauseSingle(metrics[0], []);
      Wrapped("avg(", "cpu_", metrics[0], "{}", ") by (hostname)");
    } else {
      Wrapped("avg(", "{__name__=~", Quote(Join(CpuMetrics(metrics), "|")), "}", ") by (hostname)");
    }
  }

  /** Regrouping a three-piece text inside a wrapper.
      Stated over plain strings so that callers regroup without unfolding the functions that
      produce the pieces, which costs the solver far more. */
  lemma Wrapped(open: string, x: string, y: string, z: string, close: string)
    ensures open + (x + y + z) + close == open + x + y + z + close
  {
  }

  /** Regrouping a quoted text inside a longer one.
      Stated over plain strings so that callers regroup without unfolding the functions that
      produce the pieces, which costs the solver far more. */
  lemma QuotedInside(open: string, quote: string, x: string, c1: string, c2: string)
    ensures open + (quote + x + quote) + c1 + c2 == open + quote + x + quote + c1 + c2
  {
  }

  /** Regrouping a quoted text followed by four pieces.
      Stated over plain strings so that callers regroup without unfolding the functions that
      produce the pieces, which costs the solver far more. */
  lemma QuotedInside4(open: string, quote: string, x: string, c1: string, c2: string, c3: string, c4: string)
    ensures open + (quote + x + quote) + c1 + c2 + c3 + c4 == open + quote + x + quote + c1 + c2 + c3 + c4
  {
  }

  /** Maximum of all CPU metrics over the selected hosts. */
  function MaxAllCPUQuery(metrics: seq<string>, hosts: seq<string>): string
    requires |metrics| > 0
  {
    "max(" + SelectClause(metrics, hosts) + ") by (__name__)"
  }

  /** Both maximum queries wrap the selector the same way, and the selector reads back from
      between `max(` and `) by (__name__)`. */
  lemma MaxQueryReadBack(metrics: seq<string>, hosts: seq<string>)
    requires |metrics| > 0
    ensures MaxAllCPUQuery(metrics, hosts) == GroupByTimeQuery(metrics, hosts)
    ensures var q := GroupByTimeQuery(metrics, hosts);
            && |q| == |SelectClause(metrics, hosts)| + 19
            && q[..4] == "max("
            && q[4..|q| - 15] == SelectClause(metrics, hosts)
            && q[|q| - 15..] == ") by (__name__)"
  {
    var sel := SelectClause(metrics, hosts);
    var q := GroupByTimeQuery(metrics, hosts);
    assert q == "max(" + sel + ") by (__name__)";
    assert |") by (__name__)"| == 15;
  }

  /** The metric names the high-CPU query selects: `cpu` and the pattern `.*`. */
  const HighCPUMetrics: seq<string> := ["cpu", ".*"]

  /** The selector over the high-CPU metric names, kept where it exceeds 90. */
  function HighCPUForHostsQuery(hosts: seq<string>): string
  {
    SelectClause(HighCPUMetrics, hosts) + " > 90"
  }

  /** The alternative of the high-CPU query: `cpu_cpu` or `cpu_.*`, needing no escapes. */
  lemma HighCPUAlternative()
    ensures var alternative := Join(CpuMetrics(HighCPUMetrics), "|");
            && alternative == "cpu_cpu" + "|" + "cpu_.*"
            && Split(alternative, '|') == ["cpu_cpu", "cpu_.*"]
            && Quote(alternative) == "\"" + alternative + "\""
  {
    var names := CpuMetrics(HighCPUMetrics);
    assert names[0] == "cpu_" + "cpu" == "cpu_cpu";
    assert names[1] == "cpu_" + ".*" == "cpu_.*";
    assert names == ["cpu_cpu", "cpu_.*"];
    var alternative := Join(names, "|");
    assert alternative == "cpu_cpu" + "|" + "cpu_.*" by {
      assert |names| == 2;
      assert alternative == names[0] + "|" + Join(names[1..], "|");
      assert names[1..] == ["cpu_.*"];
      assert Join(names[1..], "|") == "cpu_.*";
    }
    assert forall i :: 0 <= i < |HighCPUMetrics| ==> PlainName(HighCPUMetrics[i]);
    SelectClauseManyReadBack(HighCPUMetrics);
    PlainAlternative();
  }

  /** Every character of `cpu_cpu|cpu_.*` is one that `%q` leaves as it is. */
  lemma PlainAlternative()
    ensures var alternative := "cpu_cpu" + "|" + "cpu_.*";
            forall k :: 0 <= k < |alternative| ==> QuotesAsItself(alternative[k])
  {
  }

  /** The high-CPU query matches `__name__` against the quoted alternative of `cpu_cpu` and
      `cpu_.*`, restricts to the given hosts when there are any, and keeps the values above
      90. */
  lemma HighCPUForHostsText(hosts: seq<string>)
    ensures var alternative := "cpu_cpu" + "|" + "cpu_.*";
            && (hosts == [] ==>
                  HighCPUForHostsQuery(hosts) == "{__name__=~" + "\"" + alternative + "\"" + "}" + " > 90")
            && (hosts != [] ==>
                  HighCPUForHostsQuery(hosts)
                  == "{__name__=~" + "\"" + alternative + "\"" + ", " + HostClause(hosts) + "}" + " > 90")
  {
    HighCPUAlternative();
    var alternative := "cpu_cpu" + "|" + "cpu_.*";
    if hosts == [] {
      SelectClauseManyNoHosts(HighCPUMetrics);
      QuotedInside("{__name__=~", "\"", alternative, "}", " > 90");
    } else {
      SelectClauseManyHosts(HighCPUMetrics, hosts);
      QuotedInside4("{__name__=~", "\"", alternative, ", ", HostClause(hosts), "}", " > 90");
    }
  }

  // ---------------------------------------------------------------------
  // Filling in the HTTP query
  // ---------------------------------------------------------------------

  /** The random time window the generator draws: its bounds in nanoseconds since the epoch
      and the printed form of its start. */
  datatype Window = Window(startNanos: int, endNanos: int, startText: string)

  /** The whole state of an HTTP query, a request against the range-query endpoint. */
  datatype Request = Request(humanLabel: string, humanDescription: string, httpMethod: string,
                             path: string, body: Option<string>)

  /** Seconds since the epoch, as Go's integer division of nanoseconds gives them. */
  function UnixSeconds(nanos: int): int
  {
    GoDiv(nanos, 1_000_000_000)
  }

  /** The URL parameters of a range query, in the key order in which they are encoded. */
  function RangeParams(promQuery: string, step: string, window: Window): (r: seq<(string, string)>)
    ensures SortedKeys(r)
  {
    assert LexLess("end", "query") && LexLess("query", "start") && LexLess("start", "step");
    [("end", Decimal(UnixSeconds(window.endNanos))),
     ("query", promQuery),
     ("start", Decimal(UnixSeconds(window.startNanos))),
     ("step", step)]
  }

  /** What fillInQuery stores: a GET of the range-query endpoint with the URL-encoded
      parameters, no body, and a description naming the window's start. */
  function FilledRequest(step: string, humanLabel: string, promQuery: string, window: Window): Request
  {
    Request(humanLabel, humanLabel + ": " + window.startText, "GET",
            "/api/v1/query_range?" + ValuesEncode(RangeParams(promQuery, step, window)), None)
  }

  /** The request path reads back: after the endpoint prefix come exactly four `&`-separated
      fields `end`, `query`, `start`, `step`, whose values unescape to the bytes of the
      window's end second, the query text, the window's start second and the step; the
      request is a GET without a body. */
  lemma FilledRequestReadBack(step: string, humanLabel: string, promQuery: string, window: Window)
    ensures var r := FilledRequest(step, humanLabel, promQuery, window);
            && r.httpMethod == "GET" && r.body == None
            && r.path[..20] == "/api/v1/query_range?"
            && var fields := Split(r.path[20..], '&');
               && |fields| == 4
               && Split(fields[0], '=')[0] == "end"
               && Split(fields[1], '=')[0] == "query"
               && Split(fields[2], '=')[0] == "start"
               && Split(fields[3], '=')[0] == "step"
               && (forall i :: 0 <= i < 4 ==> |Split(fields[i], '=')| == 2)
               && QueryUnescape(Split(fields[0], '=')[1]) == Some(Utf8String(Decimal(UnixSeconds(window.endNanos))))
               && QueryUnescape(Split(fields[1], '=')[1]) == Some(Utf8String(promQuery))
               && QueryUnescape(Split(fields[2], '=')[1]) == Some(Utf8String(Decimal(UnixSeconds(window.startNanos))))
               && QueryUnescape(Split(fields[3], '=')[1]) == Some(Utf8String(step))
  {
    var pairs := RangeParams(promQuery, step, window);
    var r := FilledRequest(step, humanLabel, promQuery, window);
    assert r.path[20..] == ValuesEncode(pairs);
    ValuesEncodeReadBack(pairs);
    var fields := EncodePairs(pairs);
    forall i | 0 <= i < 4
      ensures Split(fields[i], '=')[0] == QueryEscape(pairs[i].0)
    {
      EscapedHasNoDelimiters(Utf8String(pairs[i].0));
      SplitAtFirstSeparator(QueryEscape(pairs[i].0), '=', QueryEscape(pairs[i].1));
    }
    KeyPlain("end");
    KeyPlain("query");
    KeyPlain("start");
    KeyPlain("step");
  }

  /** The parameter names are escaped as themselves. */
  lemma KeyPlain(key: string)
    requires key == "end" || key == "query" || key == "start" || key == "step"
    ensures QueryEscape(key) == key
  {
    QueryEscapePlain(key);
  }

  /** A query of the HTTP query generator. */
  class HttpQuery {
    var humanLabel: string
    var humanDescription: string
    var httpMethod: string
    var path: string
    var body: Option<string>

    function State(): Request
      reads this
    {
      Request(humanLabel, humanDescription, httpMethod, path, body)
    }

    /** An empty query. */
    constructor ()
      ensures State() == Request("", "", "", "", None)
    {
      humanLabel, humanDescription, httpMethod, path, body := "", "", "", "", None;
    }

    /** Stores the request for the given query text, step and window. */
    method FillInQuery(step: string, humanLabel: string, promQuery: string, window: Window)
      modifies this
      ensures State() == FilledRequest(step, humanLabel, promQuery, window)
    {
      var params := RangeParams(promQuery, step, window);
      this.humanLabel := humanLabel;
      this.humanDescription := humanLabel + ": " + window.startText;
      this.httpMethod := "GET";
      this.path := "/api/v1/query_range?" + ValuesEncode(params);
      this.body := None;
    }

    /** The maximum of the chosen metrics over the chosen hosts, stepped by the minute. */
    method GroupByTime(nHosts: int, numMetrics: int, timeRange: string,
                       metrics: seq<string>, hosts: seq<string>, window: Window)
      requires |metrics| > 0
      modifies this
      ensures State() == FilledRequest("60", GroupByTimeLabel(numMetrics, nHosts, timeRange),
                                       GroupByTimeQuery(metrics, hosts), window)
    {
      var selectClause := SelectClause(metrics, hosts);
      var text := GroupByTimeLabel(numMetrics, nHosts, timeRange);
      var q := "max(" + selectClause + ") by (__name__)";
      FillInQuery("60", text, q, window);
    }

    /** The per-host average of the chosen metrics, stepped by the hour. */
    method GroupByTimeAndPrimaryTag(text: string, metrics: seq<string>, window: Window)
      requires |metrics| > 0
      modifies this
      ensures State() == FilledRequest("3600", text, GroupByTimeAndPrimaryTagQuery(metrics), window)
    {
      var selectClause := SelectClause(metrics, []);
      var q := "avg(" + selectClause + ") by (hostname)";
      FillInQuery("3600", text, q, window);
    }

    /** The maximum of all CPU metrics over the chosen hosts, stepped by the minute. */
    method MaxAllCPU(text: string, metrics: seq<string>, hosts: seq<string>, window: Window)
      requires |metrics| > 0
      modifies this
      ensures State() == FilledRequest("60", text, MaxAllCPUQuery(metrics, hosts), window)
    {
      var selectClause := SelectClause(metrics, hosts);
      var q := "max(" + selectClause + ") by (__name__)";
      FillInQuery("60", text, q, window);
    }

    /** CPU series above 90 on the chosen hosts, stepped by the minute. */
    method HighCPUForHosts(text: string, hosts: seq<string>, window: Window)
      modifies this
      ensures State() == FilledRequest("60", text, HighCPUForHostsQuery(hosts), window)
    {
      var selectClause := SelectClause(HighCPUMetrics, hosts);
      var q := selectClause + " > 90";
      FillInQuery("60", text, q, window);
    }
  }
}
