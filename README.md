# Prometheus path of the Time Series Benchmark Suite, in Dafny

This project models the three text and byte transformations on the Prometheus path of the
benchmark suite, and proves properties of each.

- **Loader input framing** (`cmd/tsbs_load_prometheus/scan.go`, module `Frames` in `frames.dfy`).
  The loader reads a stream of frames. Each frame is an 8-byte unsigned big-endian length
  followed by that many payload bytes.
  - `Frames.Scanner` is a class that holds the reader and a reused buffer. The reader is every
    byte it will yield plus a cursor. The buffer is a backing `array` plus a length.
  - `Scanner.Scan` and `Scanner.Resize` are loops and in-place updates, proved against the
    reference reading `NextFrame` and the reference resizing `Resized`.
  - `Decoder.Decode` hands out the scanner's own storage.
  - `Batch` accumulates raw payloads.
  - `NextFrame` is proved to invert the frame encoder `EncodeFrame` (one frame, and a whole
    stream of frames).
- **Text exposition serializer** (`cmd/tsbs_generate_data/serialize/prometheus.go`, module
  `Exposition` in `exposition.dfy`). A point becomes one line per field:
  `<measurement>_<field>{k1="v1",...} <value> <milliseconds>\n`. The label block is absent
  when the point has no tags.
  - `BuildLabelBlock` and `Serialize` append piece by piece, as the source does. They are
    proved to produce the function `Exposition`.
  - Lemmas read that text back: lines, columns, labels and timestamp. Others pin the outputs
    of the four cases of prometheus_test.go, concrete values included, up to the timestamp
    column (see below).
  - The writer's behaviour is a parameter: each write may take a prefix of its buffer and fail.
- **PromQL query generation** (`cmd/tsbs_generate_queries/databases/prometheus/devops.go`,
  module `PromQL` in `promql.dfy`). It covers:
  - the host matcher;
  - the series selector, split by the number of metrics and hosts;
  - the four devops queries;
  - the HTTP range query that `fillInQuery` stores, as a class `HttpQuery` whose methods
    overwrite its fields.

  Lemmas read every piece back: the host list out of the matcher; the metric names out of the
  `%q`-quoted alternative; the four URL parameters out of the encoded request path.

Module `GoText` (`gotext.dfy`) holds the parts of Go's standard library these files call.
Each is paired with a property:
- `strings.Join`, undone by `strings.Split`;
- decimal rendering of integers, undone by a decimal reader;
- `%4d` padding, characterised by its length, leading spaces and kept digits;
- truncating integer division, characterised by its bounds for either sign;
- `%q`, undone by an unquoting reader;
- `url.QueryEscape`, undone by an unescaping reader;
- `url.Values.Encode`, read back key by key.

Two points where the model keeps a value open:
- The timestamp column is `UnixNano()` divided by 10^6 (prometheus.go:46), i.e. milliseconds
  rounded toward zero. The expected lines of prometheus_test.go:12-28 end in `1451606400`,
  which depends on test points defined outside the modelled files. The test-case lemmas
  therefore keep the timestamp as a parameter and state the column as
  `Decimal(TimestampMillis(nanos))`.
- The loader's `batch.Len` reports `serialize.PrometheusBatchSize` for every batch, whatever
  the batch holds (scan.go:55). That constant is declared outside the modelled files, so
  `Frames.PrometheusBatchSize` is declared without a value.

## Model

| member | source | states |
|---|---|---|
| Frames.UnmarshalUint64 | cmd/tsbs_load_prometheus/scan.go:68-74 | needs at least 8 bytes; the result is the big-endian value of the first eight bytes (later bytes play no part) and is below 2^64 |
| Frames.BigEndianOfEight | cmd/tsbs_load_prometheus/scan.go:72 | the OR of the eight shifted bytes equals the reference big-endian reading |
| Frames.UnmarshalEncode | cmd/tsbs_load_prometheus/scan.go:68-74 | decoding the 8-byte big-endian encoding of any u < 2^64, whatever bytes follow, gives u |
| Frames.EncodeUnmarshal | cmd/tsbs_load_prometheus/scan.go:68-74 | every 8-byte header is the encoding of its decoded value (the decoding is injective) |
| Frames.GoInt | cmd/tsbs_load_prometheus/scan.go:33 | `int(packetSize)` lies in the int64 range, is non-negative exactly for sizes below 2^63, and is congruent to the size modulo 2^64 |
| Frames.NextFrame | cmd/tsbs_load_prometheus/scan.go:23-39 | a frame read means the rest holds the header and the whole payload; a short body means the rest holds the header but fewer bytes than it declares |
| Frames.FrameRoundTrip | cmd/tsbs_load_prometheus/scan.go:23-39 | reading the frame written for a payload gives that payload exactly, whatever follows in the stream |
| Frames.FrameIsPrefix | cmd/tsbs_load_prometheus/scan.go:31-38 | every frame read is the encoding of its payload followed by the untouched rest of the stream |
| Frames.ReadAllWriteAll | cmd/tsbs_load_prometheus/scan.go:23-39 | reading frames one after another from a written stream yields every payload in order and stops cleanly at its end |
| Frames.ResizedKeepsPrefix | cmd/tsbs_load_prometheus/scan.go:76-81 | resizing keeps the bytes held below the new length, and the bytes it adds are zero |
| Frames.GrownCapacity | cmd/tsbs_load_prometheus/scan.go:78 | appending one byte to a full slice strictly grows its capacity, so the resize loop terminates |
| Frames.Scanner.ReadFull | cmd/tsbs_load_prometheus/scan.go:25 | Like `io.ReadFull`, it copies as many of the next n stream bytes as remain into the front of the destination, moves the reader past them and leaves the rest of the destination as it was, and it reports no error when all n bytes were there, EOF when none were and unexpected EOF when only some were. |
| Frames.Scanner.Resize | cmd/tsbs_load_prometheus/scan.go:76-81 | the buffer has length exactly n and capacity at least n; the same storage is kept when the capacity already sufficed and fresh storage is allocated otherwise; its contents are the reference resizing of the old storage |
| Frames.BodyRead | cmd/tsbs_load_prometheus/scan.go:34-38 | after the body read, a stream with at least the declared number of bytes past the header yields exactly those bytes as the frame, and a shorter one is a truncated body whose bytes lead the buffer |
| Frames.Scanner.ReadBody | cmd/tsbs_load_prometheus/scan.go:33-37 | after a header declaring `size` bytes the buffer has length `size`; the read succeeds exactly when a whole frame is next and the buffer is then its payload, otherwise the body was short, the bytes present lead the buffer and the reader is at the end of the stream; the storage is kept when it already holds `size` bytes and is otherwise either kept or freshly allocated |
| Frames.Scanner.Scan | cmd/tsbs_load_prometheus/scan.go:23-39 | succeeds exactly when a whole frame is next, and then the buffer is the payload and the reader has consumed 8 + size bytes; it logs exactly on a truncated header or body, not at a clean end; after a failed header read the buffer is untouched; every failure leaves the reader at the end of the stream; the storage is kept when it already holds the declared size and is otherwise either kept or freshly allocated |
| Frames.Decoder.Decode | cmd/tsbs_load_prometheus/scan.go:41-48 | nothing exactly when scanning fails; otherwise a point whose bytes are the next payload, sharing the scanner's storage (no copy), with the scanner's buffer emptied; the storage is kept when it already held the payload's length and is otherwise either kept or freshly allocated, so repeated calls reuse one buffer |
| Frames.Batch.Len | cmd/tsbs_load_prometheus/scan.go:54-56 | always the constant batch size, whatever was appended |
| Frames.Batch.Append | cmd/tsbs_load_prometheus/scan.go:58-60 | appends the point's bytes to the end of the buffer and leaves the earlier bytes unchanged |
| Frames.NewBatch | cmd/tsbs_load_prometheus/scan.go:64-66 | a new batch with an empty buffer |
| Exposition.IntegerValueText | cmd/tsbs_generate_data/serialize/prometheus.go:57-60 | an int or int64 value is written as plain decimal text with no fractional part that parses back to the same number |
| Exposition.ValueAppend | cmd/tsbs_generate_data/serialize/prometheus.go:55-67 | fails (the panic) exactly for an unsupported type; otherwise the buffer is kept as a prefix, and for an int or int64 the appended text is plain decimal that parses back to the value |
| Exposition.TimestampMillis | cmd/tsbs_generate_data/serialize/prometheus.go:46 | nanoseconds divided by 10^6 rounded toward zero, for either sign, and small enough to be rendered exactly |
| Exposition.LabelBlockLabels | cmd/tsbs_generate_data/serialize/prometheus.go:16-31 | the label block is empty exactly when there are no tags; otherwise it is braced and its inside splits at commas into each tag's `key="value"` in tag order |
| Exposition.LinesAsJoin | cmd/tsbs_generate_data/serialize/prometheus.go:34-48 | the output is the lines of the fields, in field order, each ended by a newline |
| Exposition.ExpositionLines | cmd/tsbs_generate_data/serialize/prometheus.go:34-48 | splitting the output at newlines gives exactly one line per field in field order, line i being field i's `series value timestamp` line, and an empty remainder; no fields means empty output |
| Exposition.LineColumns | cmd/tsbs_generate_data/serialize/prometheus.go:35-46 | a line splits at spaces into the series (metric name `measurement_field` plus the label block), the value and the timestamp; the timestamp parses back to the point's milliseconds on every line |
| Exposition.ExampleLabelBlock | cmd/tsbs_generate_data/serialize/prometheus_test.go:12 | the example tags give `{hostname="host_0",region="eu-west-1",datacenter="eu-west-1b"}` |
| Exposition.DefaultPointCase | cmd/tsbs_generate_data/serialize/prometheus_test.go:9-13 | the one-float-field point with the example tags gives `cpu_usage_guest_nice{...} 38.24311829 <ms>` and a newline |
| Exposition.IntPointCase | cmd/tsbs_generate_data/serialize/prometheus_test.go:14-17 | the int field 38 is written `38`, with no fractional part, inside the same line shape |
| Exposition.MultiFieldCase | cmd/tsbs_generate_data/serialize/prometheus_test.go:18-24 | the three-field point gives exactly the three expected lines with `5000000000`, `38` and `38.24311829`, up to the timestamp column |
| Exposition.MultiFieldExample | cmd/tsbs_generate_data/serialize/prometheus_test.go:19-24 | a three-field point (int64, int, float64) gives three lines in field order, each with the same full label block, the integers in plain decimal, and the same timestamp column |
| Exposition.NoTagsExample | cmd/tsbs_generate_data/serialize/prometheus_test.go:25-29 | a point without tags gives `cpu_usage_guest_nice 38.24311829 <ms>` and a newline, with no braces |
| Exposition.Writer.Write | cmd/tsbs_generate_data/serialize/prometheus.go:49 | the writer takes a prefix of the buffer, as many bytes as its next outcome allows, and reports an error on a failing outcome; fewer than all bytes taken always comes with an error; the outcome is consumed |
| Exposition.ScratchPool.Get | cmd/tsbs_generate_data/serialize/prometheus.go:33 | hands out an empty buffer, a kept one if there is any |
| Exposition.ScratchPool.Put | cmd/tsbs_generate_data/serialize/prometheus.go:50-51 | keeps an emptied buffer; every kept buffer stays empty |
| Exposition.CommaTerminatedJoin | cmd/tsbs_generate_data/serialize/prometheus.go:20-29 | appending each label with a comma after all but the last is joining the labels with commas |
| Exposition.BuildLabelBlock | cmd/tsbs_generate_data/serialize/prometheus.go:15-31 | the appended text is the label block: empty without tags, else braced comma-joined labels |
| Exposition.AppendFieldLine | cmd/tsbs_generate_data/serialize/prometheus.go:35-47 | stops exactly at a value of unsupported type; otherwise appends the field's line and a newline to the buffer |
| Exposition.AppendLines | cmd/tsbs_generate_data/serialize/prometheus.go:34-48 | stops exactly when some field has an unsupported type; otherwise the buffer is followed by the whole exposition |
| Exposition.Serialize | cmd/tsbs_generate_data/serialize/prometheus.go:14-53 | an unsupported value type ends it before anything is written, with the pooled buffer taken and not returned; otherwise one write delivers the prefix of the exposition the writer takes, its error is returned, and an empty buffer is back in the pool |
| PromQL.HostClause | cmd/tsbs_generate_queries/databases/prometheus/devops.go:29-37 | the clause is empty exactly when there are no hosts; for several hosts it is `hostname=~'`, the hosts joined with the vertical bar, then a closing quote |
| PromQL.HostClauseReadBack | cmd/tsbs_generate_queries/databases/prometheus/devops.go:29-37 | the host clause is empty exactly for no hosts; one host appears as `hostname='h'`; several hosts give `hostname=~'...'` whose inside splits at the vertical bar into exactly the hosts, in order |
| PromQL.CpuMetrics | cmd/tsbs_generate_queries/databases/prometheus/devops.go:52-55 | one name per metric, in order, each prefixed with `cpu_` |
| PromQL.SelectClausesAggMetrics | cmd/tsbs_generate_queries/databases/prometheus/devops.go:39-46 | as many expressions as metrics, element i being `agg(metrics[i]) by (__name__)` |
| PromQL.SelectClausesAggMetricsIgnoresHosts | cmd/tsbs_generate_queries/databases/prometheus/devops.go:39-46 | the host list has no effect on the expressions |
| PromQL.SelectClause | cmd/tsbs_generate_queries/databases/prometheus/devops.go:48-66 | the selector ends in `}` right after the host clause; it starts with `cpu_` for one metric and with the `{__name__=~` matcher for several |
| PromQL.SelectClauseSingle | cmd/tsbs_generate_queries/databases/prometheus/devops.go:59-61 | one metric gives `cpu_m{<host clause>}`, and `cpu_m{}` without hosts |
| PromQL.SelectClauseManyNoHosts | cmd/tsbs_generate_queries/databases/prometheus/devops.go:62-65 | several metrics and no hosts give only the `__name__` matcher on the quoted alternative |
| PromQL.SelectClauseManyHosts | cmd/tsbs_generate_queries/databases/prometheus/devops.go:62-64 | several metrics and some hosts give the `__name__` matcher, `, ` and the host clause in braces |
| PromQL.SelectClauseManyReadBack | cmd/tsbs_generate_queries/databases/prometheus/devops.go:52-65 | the quoted alternative unquotes to itself, splits at the vertical bar into exactly the `cpu_` names, and is merely wrapped in double quotes when no character needs escaping |
| PromQL.GroupByTimeLabelColumns | cmd/tsbs_generate_queries/databases/prometheus/devops.go:76 | for fewer than 10000 hosts the label is the fixed head, then a four-column field holding the host count right-aligned after leading spaces, then the fixed tail |
| PromQL.HostCountDigits | cmd/tsbs_generate_queries/databases/prometheus/devops.go:76 | a host count below 10000 prints as at most four digits, which parse back to the count |
| PromQL.GroupByTimeAndPrimaryTagAllHosts | cmd/tsbs_generate_queries/databases/prometheus/devops.go:86-90 | the per-host average has no host matcher: `avg(cpu_m{}) by (hostname)` for one metric, the bare `__name__` matcher for several |
| PromQL.MaxQueryReadBack | cmd/tsbs_generate_queries/databases/prometheus/devops.go:77 | the two maximum queries are the same text; the selector reads back from between `max(` and `) by (__name__)` |
| PromQL.HighCPUAlternative | cmd/tsbs_generate_queries/databases/prometheus/devops.go:121-123 | the high-CPU alternative is `cpu_cpu` or `cpu_.*` joined by a vertical bar, splits into those two names and needs no escapes |
| PromQL.HighCPUForHostsText | cmd/tsbs_generate_queries/databases/prometheus/devops.go:120-125 | the high-CPU query is the `__name__` matcher on that quoted alternative followed by ` > 90` without hosts and carries the host clause with hosts |
| PromQL.RangeParams | cmd/tsbs_generate_queries/databases/prometheus/devops.go:134-138 | the four parameters are listed in the key order the encoder sorts them into |
| PromQL.FilledRequestReadBack | cmd/tsbs_generate_queries/databases/prometheus/devops.go:130-146 | the request is a GET with no body; its path is the range-query endpoint and exactly four fields `end`, `query`, `start`, `step`, whose values unescape to the window's end second, the query, the window's start second and the step |
| PromQL.KeyPlain | cmd/tsbs_generate_queries/databases/prometheus/devops.go:135-138 | the four parameter names are escaped as themselves |
| PromQL.HttpQuery.constructor | cmd/tsbs_generate_queries/databases/prometheus/devops.go:24-27 | an empty query |
| PromQL.HttpQuery.FillInQuery | cmd/tsbs_generate_queries/databases/prometheus/devops.go:130-146 | the query's whole new state is the filled request for the step, label, query text and window |
| PromQL.HttpQuery.GroupByTime | cmd/tsbs_generate_queries/databases/prometheus/devops.go:72-80 | stores the maximum query with the padded label and a 60-second step |
| PromQL.HttpQuery.GroupByTimeAndPrimaryTag | cmd/tsbs_generate_queries/databases/prometheus/devops.go:86-93 | stores the per-host average query with a 3600-second step |
| PromQL.HttpQuery.MaxAllCPU | cmd/tsbs_generate_queries/databases/prometheus/devops.go:102-110 | stores the maximum query over the given hosts with a 60-second step |
| PromQL.HttpQuery.HighCPUForHosts | cmd/tsbs_generate_queries/databases/prometheus/devops.go:120-128 | stores the above-90 query with a 60-second step |
| GoText.SplitJoin | cmd/tsbs_generate_queries/databases/prometheus/devops.go:36 | a `strings.Join` on a one-character separator that no part contains is undone by splitting |
| GoText.DecimalRoundTrip | cmd/tsbs_generate_queries/databases/prometheus/devops.go:136-137 | decimal rendering produces canonical decimal text that parses back to the number |
| GoText.DecimalChars | cmd/tsbs_generate_data/serialize/prometheus.go:46 | a decimal rendering holds only digits and a leading minus sign |
| GoText.PadLeft | cmd/tsbs_generate_queries/databases/prometheus/devops.go:76 | `%4d`: the text right-aligned by leading spaces in a field of the width, never truncated |
| GoText.GoDiv | cmd/tsbs_generate_data/serialize/prometheus.go:46 | integer division truncating toward zero, for either sign of the dividend |
| GoText.UnquoteQuote | cmd/tsbs_generate_queries/databases/prometheus/devops.go:63-65 | `%q` loses nothing: unquoting its output gives the original text |
| GoText.QuotePlain | cmd/tsbs_generate_queries/databases/prometheus/devops.go:63-65 | text with nothing to escape is quoted by adding double quotes only |
| GoText.QueryEscapeRoundTrip | cmd/tsbs_generate_queries/databases/prometheus/devops.go:144 | unescaping `url.QueryEscape` gives back the UTF-8 bytes of the text |
| GoText.EscapedHasNoDelimiters | cmd/tsbs_generate_queries/databases/prometheus/devops.go:144 | an escaped component holds neither `&` nor `=` |
| GoText.QueryEscapePlain | cmd/tsbs_generate_queries/databases/prometheus/devops.go:135-138 | unreserved ASCII text is escaped as itself |
| GoText.EncodePairReadBack | cmd/tsbs_generate_queries/databases/prometheus/devops.go:144 | an encoded `key=value` holds no `&`, splits at `=` into the escaped key and value, and both unescape to the originals |
| GoText.ValuesEncodeReadBack | cmd/tsbs_generate_queries/databases/prometheus/devops.go:134-144 | the encoded parameters split at `&` into one field per key in key order, each reading back as its key and value |

## Left out

- Float rendering: `strconv.AppendFloat` of a float64 or float32 value (prometheus.go:61-64) is
  not modelled. Such a value carries the text it renders to.
- Exposition.ValueText: an int or int64 is rendered through float64, which is exact only up to
  2^53 in magnitude. `WellFormed` requires that bound of every integer field. Larger integers,
  which the source rounds, are not modelled.
- Frames.Scanner.Scan: requires that a header declaring 2^63 bytes or more is not next
  (`SizeFits`). For such a header the source's `int(packetSize)` is negative and `resize`
  panics. `GoInt` states the wrap-around.
- Frames.Scanner.ReadFull: the reader fails only by running out of bytes. Other I/O errors
  are not modelled, and neither is running out of memory in `resize`.
- Frames.Scanner.Resize: Go's exact `append` growth policy is not modelled. The model doubles
  the capacity, starting at 8. Every property above holds for any policy that grows by at least one.
- Exposition.Writer.Write: what each write does comes from a plan fixed when the writer is
  made, standing for the destination's behaviour. A destination that blocks or panics is not
  modelled.
- Frames.Decoder.Decode: the `*bufio.Reader` argument, which the source ignores, is left out.
  `load.NewPoint` is modelled as wrapping the buffer.
- `log.Printf` messages are reduced to a `logged` flag on `Scan`.
- `bytebufferpool` is modelled by a batch over an empty buffer. `scratchBufPool` is modelled
  by a pool of empty strings.
- GoText.QuoteRune: runes at or above 0x80 are written as themselves. Go's `%q` escapes the
  non-printable ones and invalid UTF-8.
- Byte slices (`[]byte` fields of the query, label and line buffers) are modelled as strings.
  A Dafny `string` stands for the UTF-8 encoding of its text.
- Random choices are parameters: the random hosts (`GetRandomHosts`), the random window
  (`RandWindow`, with its bounds and printed start), the metric lists (`GetCPUMetricsSlice`,
  `GetAllCPUMetrics`), and the human labels from `GetDoubleGroupByLabel`, `GetMaxAllLabel`
  and `GetHighCPULabel`. These live in code that is not part of this model.
- PromQL.GroupByTimeLabel: the printed form of the `time.Duration` is a parameter.
- `NewDevops` and the `Devops` wrapper are not modelled. `GenerateEmptyQuery` is modelled only
  as the `HttpQuery` constructor.
- The `main.go` files of the loader and the query runner (HTTP transport, flags, retries,
  latency) are not part of this model. Neither are the data generator's distributions or the
  query-type factories.
- GoText.ValuesEncode: only a query string with one value per key, given already in key order,
  is modelled. That is the only form `fillInQuery` builds.
