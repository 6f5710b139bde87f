/**
 * The pieces of Go's standard library that the Prometheus tools use to build
 * text: `strings.Join`, decimal rendering of integers (`strconv.FormatInt`,
 * and `strconv.AppendFloat` of an integral value), `fmt`'s `%4d` padding,
 * `%q` quoting (`strconv.Quote`) and the query-string encoding of
 * `url.Values.Encode` (`url.QueryEscape`).
 *
 * A Dafny `string` is Unicode text; the Go string it stands for holds the
 * UTF-8 encoding of that text. Joining, decimal rendering, quoting and query
 * escaping each come with a reference reader (Split, ParseInt, Unquote,
 * QueryUnescape) and a lemma that reading the rendering gives back what was
 * rendered. Padding is characterised by its length, its leading spaces and
 * the digits it keeps, and truncating division by its bounds.
 */
module GoText {

  datatype Option<+T> = None | Some(value: T)

  type byte = b: int | 0 <= b < 256

  // ---------------------------------------------------------------------
  // strings.Join and its reader strings.Split
  // ---------------------------------------------------------------------

  /** `strings.Join`: the parts in order, `sep` between neighbours, none after the last. */
  function Join(parts: seq<string>, sep: string): string
  {
    if |parts| == 0 then ""
    else if |parts| == 1 then parts[0]
    else parts[0] + sep + Join(parts[1..], sep)
  }

  /** `strings.Split` on a one-character separator. */
  function Split(s: string, sep: char): (r: seq<string>)
    ensures |r| >= 1
  {
    if s == [] then [""]
    else
      var rest := Split(s[1..], sep);
      if s[0] == sep then [""] + rest else [[s[0]] + rest[0]] + rest[1..]
  }

  /** A text without the separator splits into itself alone. */
  lemma {:induction false} SplitWithoutSeparator(a: string, sep: char)
    requires sep !in a
    ensures Split(a, sep) == [a]
  {
    if a != [] {
      SplitWithoutSeparator(a[1..], sep);
      assert [a[0]] + a[1..] == a;
    }
  }

  /** Splitting `a sep b`, where `a` has no separator, peels `a` off as the first piece. */
  lemma {:induction false} SplitAtFirstSeparator(a: string, sep: char, b: string)
    requires sep !in a
    ensures Split(a + [sep] + b, sep) == [a] + Split(b, sep)
  {
    if a == [] {
      assert (a + [sep] + b)[1..] == b;
    } else {
      assert (a + [sep] + b)[1..] == a[1..] + [sep] + b;
      SplitAtFirstSeparator(a[1..], sep, b);
      assert [a[0]] + a[1..] == a;
    }
  }

  /** Joining with a one-character separator that no part contains can be undone by Split. */
  lemma {:induction false} SplitJoin(parts: seq<string>, sep: char)
    requires |parts| >= 1
    requires forall i :: 0 <= i < |parts| ==> sep !in parts[i]
    ensures Split(Join(parts, [sep]), sep) == parts
  {
    if |parts| == 1 {
      SplitWithoutSeparator(parts[0], sep);
    } else {
      SplitJoin(parts[1..], sep);
      SplitAtFirstSeparator(parts[0], sep, Join(parts[1..], [sep]));
      assert [parts[0]] + parts[1..] == parts;
    }
  }

  /** Joining one more part adds the separator and the part at the end (none before a first part). */
  lemma {:induction false} JoinSnoc(parts: seq<string>, x: string, sep: string)
    ensures Join(parts + [x], sep) == if parts == [] then x else Join(parts, sep) + sep + x
  {
    if |parts| == 1 {
      assert (parts + [x])[1..] == [x];
    } else if |parts| > 1 {
      assert (parts + [x])[1..] == parts[1..] + [x];
      JoinSnoc(parts[1..], x, sep);
    }
  }

  /** Text made of newline-terminated lines is the join of the lines and a final empty part;
      one more line extends both alike. */
  lemma JoinTerminated(parts: seq<string>, x: string, sep: string)
    ensures Join(parts + [x] + [""], sep) == Join(parts + [""], sep) + x + sep
  {
    JoinSnoc(parts + [x], "", sep);
    JoinSnoc(parts, "", sep);
    JoinSnoc(parts, x, sep);
  }

  // ---------------------------------------------------------------------
  // Decimal integers: strconv.FormatInt(i, 10), fmt's %d, and
  // strconv.AppendFloat(float64(i), 'f', -1, 64) for |i| <= 2^53
  // ---------------------------------------------------------------------

  /** The largest magnitude below which every integer is exactly a float64. */
  const Float64ExactLimit: int := 0x20_0000_0000_0000

  predicate IsDigit(c: char) { '0' <= c <= '9' }

  function DigitChar(d: int): (c: char)
    requires 0 <= d < 10
    ensures IsDigit(c)
  {
    ('0' as int + d) as char
  }

  function DigitValue(c: char): (d: int)
    requires IsDigit(c)
    ensures 0 <= d < 10 && DigitChar(d) == c
  {
    c as int - '0' as int
  }

  /** The decimal digits of `n`, most significant first; "0" for zero, never a leading zero otherwise. */
  function NatDigits(n: nat): (s: string)
    ensures |s| >= 1
    ensures AllDigits(s)
    ensures s[0] == '0' ==> n == 0
  {
    if n < 10 then [DigitChar(n)] else NatDigits(n / 10) + [DigitChar(n % 10)]
  }

  /** Go's decimal rendering of an integer: a minus sign for negatives, then the digits. */
  function Decimal(i: int): string
  {
    if i < 0 then "-" + NatDigits(-i) else NatDigits(i)
  }

  predicate AllDigits(s: string)
  {
    forall k :: 0 <= k < |s| ==> IsDigit(s[k])
  }

  /** Digits without a leading zero, or the single digit zero. */
  predicate CanonicalDigits(s: string)
  {
    |s| >= 1 && AllDigits(s) && (s[0] == '0' ==> s == "0")
  }

  /** The shape every decimal rendering has: an optional minus sign before canonical digits, and no "-0". */
  predicate IsDecimalText(s: string)
  {
    if |s| > 0 && s[0] == '-' then CanonicalDigits(s[1..]) && s[1..] != "0" else CanonicalDigits(s)
  }

  /** Reads a run of digits, most significant first. */
  function ParseDigits(s: string): nat
    requires AllDigits(s)
  {
    if s == [] then 0 else ParseDigits(s[..|s| - 1]) * 10 + DigitValue(s[|s| - 1])
  }

  /** Reads back a decimal rendering. */
  function ParseInt(s: string): int
    requires IsDecimalText(s)
  {
    if |s| > 0 && s[0] == '-' then 0 - ParseDigits(s[1..]) else ParseDigits(s)
  }

  lemma {:induction false} ParseNatDigits(n: nat)
    ensures ParseDigits(NatDigits(n)) == n
  {
    if n >= 10 {
      var s := NatDigits(n);
      assert s[..|s| - 1] == NatDigits(n / 10);
      ParseNatDigits(n / 10);
    }
  }

  /** Decimal produces decimal text and ParseInt reads it back: the rendering is exact and injective. */
  lemma DecimalRoundTrip(i: int)
    ensures IsDecimalText(Decimal(i))
    ensures ParseInt(Decimal(i)) == i
  {
    var n: nat := if i < 0 then -i else i;
    ParseNatDigits(n);
    if i < 0 {
      assert Decimal(i)[1..] == NatDigits(n);
    }
  }

  /** A decimal rendering is plain ASCII: digits and possibly a leading minus sign. */
  lemma DecimalChars(i: int)
    ensures forall k :: 0 <= k < |Decimal(i)| ==> IsDigit(Decimal(i)[k]) || (k == 0 && i < 0 && Decimal(i)[k] == '-')
  {
    if i < 0 {
      var d := NatDigits(-i);
      assert forall k :: 1 <= k < |Decimal(i)| ==> Decimal(i)[k] == d[k - 1];
    }
  }

  /** fmt's `%<width>d`: the rendering right-aligned in a field of `width` by leading spaces. */
  function PadLeft(s: string, width: nat): (r: string)
    ensures |r| == if |s| >= width then |s| else width
    ensures r[|r| - |s|..] == s
    ensures forall k :: 0 <= k < |r| - |s| ==> r[k] == ' '
  {
    if |s| >= width then s else [' '] + PadLeft(s, width - 1)
  }

  /** Go's integer division, which truncates toward zero (Dafny's `/` rounds down). */
  function GoDiv(a: int, b: int): (q: int)
    requires b > 0
    ensures a >= 0 ==> q * b <= a < q * b + b
    ensures a < 0 ==> q * b - b < a <= q * b
  {
    if a >= 0 then a / b else -((-a) / b)
  }

  // ---------------------------------------------------------------------
  // %q: strconv.Quote
  // ---------------------------------------------------------------------

  function LowerHexDigit(d: int): (c: char)
    requires 0 <= d < 16
  {
    if d < 10 then ('0' as int + d) as char else ('a' as int + d - 10) as char
  }

  function UpperHexDigit(d: int): (c: char)
    requires 0 <= d < 16
  {
    if d < 10 then ('0' as int + d) as char else ('A' as int + d - 10) as char
  }

  /** The value of a hexadecimal digit of either case, if `c` is one. */
  function HexValue(c: char): (r: Option<int>)
    ensures r.Some? ==> 0 <= r.value < 16
  {
    if '0' <= c <= '9' then Some(c as int - '0' as int)
    else if 'a' <= c <= 'f' then Some(c as int - 'a' as int + 10)
    else if 'A' <= c <= 'F' then Some(c as int - 'A' as int + 10)
    else None
  }

  /** How `%q` writes one rune: the quote and backslash escaped, printable text as it is,
      the C escapes for the seven control characters that have one, `\xHH` for the rest.
      Runes above ASCII are written as they are (see README, Left out). */
  function QuoteRune(c: char): string
  {
    if c == '"' || c == '\\' then ['\\', c]
    else if ' ' <= c <= '~' || c as int >= 0x80 then [c]
    else if c as int == 7 then "\\a"
    else if c as int == 8 then "\\b"
    else if c as int == 12 then "\\f"
    else if c == '\n' then "\\n"
    else if c == '\r' then "\\r"
    else if c == '\t' then "\\t"
    else if c as int == 11 then "\\v"
    else ['\\', 'x', LowerHexDigit(c as int / 16), LowerHexDigit(c as int % 16)]
  }

  function QuoteBody(s: string): string
  {
    if s == [] then "" else QuoteRune(s[0]) + QuoteBody(s[1..])
  }

  /** `%q` applied to a string. */
  function Quote(s: string): string
  {
    "\"" + QuoteBody(s) + "\""
  }

  /** A rune `%q` writes as itself. */
  predicate QuotesAsItself(c: char)
  {
    c != '"' && c != '\\' && (' ' <= c <= '~' || c as int >= 0x80)
  }

  /** Text that `%q` does not alter: quoting only adds the surrounding double quotes. */
  lemma {:induction false} QuotePlain(s: string)
    requires forall k :: 0 <= k < |s| ==> QuotesAsItself(s[k])
    ensures Quote(s) == "\"" + s + "\""
  {
    QuoteBodyPlain(s);
  }

  lemma {:induction false} QuoteBodyPlain(s: string)
    requires forall k :: 0 <= k < |s| ==> QuotesAsItself(s[k])
    ensures QuoteBody(s) == s
  {
    if s != [] {
      QuoteBodyPlain(s[1..]);
      assert [s[0]] + s[1..] == s;
    }
  }

  function Cons(c: char, rest: Option<string>): Option<string>
  {
    if rest.Some? then Some([c] + rest.value) else None
  }

  /** Reads the inside of a quoted text back, undoing every escape QuoteRune writes. */
  function UnquoteBody(s: string): Option<string>
    decreases |s|
  {
    if s == [] then Some("")
    else if s[0] == '"' then None
    else if s[0] != '\\' then Cons(s[0], UnquoteBody(s[1..]))
    else if |s| < 2 then None
    else if s[1] == '"' || s[1] == '\\' then Cons(s[1], UnquoteBody(s[2..]))
    else if s[1] == 'a' then Cons(7 as char, UnquoteBody(s[2..]))
    else if s[1] == 'b' then Cons(8 as char, UnquoteBody(s[2..]))
    else if s[1] == 'f' then Cons(12 as char, UnquoteBody(s[2..]))
    else if s[1] == 'n' then Cons('\n', UnquoteBody(s[2..]))
    else if s[1] == 'r' then Cons('\r', UnquoteBody(s[2..]))
    else if s[1] == 't' then Cons('\t', UnquoteBody(s[2..]))
    else if s[1] == 'v' then Cons(11 as char, UnquoteBody(s[2..]))
    else if s[1] == 'x' && |s| >= 4 && HexValue(s[2]).Some? && HexValue(s[3]).Some? then
      Cons((HexValue(s[2]).value * 16 + HexValue(s[3]).value) as char, UnquoteBody(s[4..]))
    else None
  }

  /** Reads a `%q` rendering back. */
  function Unquote(s: string): Option<string>
  {
    if |s| >= 2 && s[0] == '"' && s[|s| - 1] == '"' then UnquoteBody(s[1..|s| - 1]) else None
  }

  lemma UnquoteRune(c: char, rest: string)
    ensures UnquoteBody(QuoteRune(c) + rest) == Cons(c, UnquoteBody(rest))
  {
    var q := QuoteRune(c);
    if |q| == 2 {
      assert (q + rest)[2..] == rest;
    } else if |q| == 4 {
      assert (q + rest)[4..] == rest;
      assert (c as int / 16) * 16 + c as int % 16 == c as int;
    } else {
      assert (q + rest)[1..] == rest;
    }
  }

  lemma {:induction false} UnquoteQuoteBody(s: string)
    ensures UnquoteBody(QuoteBody(s)) == Some(s)
  {
    if s != [] {
      UnquoteRune(s[0], QuoteBody(s[1..]));
      UnquoteQuoteBody(s[1..]);
      assert [s[0]] + s[1..] == s;
    }
  }

  /** `%q` loses nothing: reading the quoted text back gives the original. */
  lemma UnquoteQuote(s: string)
    ensures Unquote(Quote(s)) == Some(s)
  {
    var q := Quote(s);
    assert q[1..|q| - 1] == QuoteBody(s);
    UnquoteQuoteBody(s);
  }

  // ---------------------------------------------------------------------
  // url.QueryEscape over the UTF-8 bytes of a text
  // ---------------------------------------------------------------------

  /** The UTF-8 encoding of one Unicode scalar value. */
  function Utf8(c: char): (bs: seq<byte>)
    ensures 1 <= |bs| <= 4
    ensures |bs| == 1 <==> c as int < 0x80
    ensures |bs| == 1 ==> bs[0] == c as int
  {
    var v := c as int;
    if v < 0x80 then [v]
    else if v < 0x800 then [0xC0 + v / 0x40, 0x80 + v % 0x40]
    else if v < 0x1_0000 then [0xE0 + v / 0x1000, 0x80 + (v / 0x40) % 0x40, 0x80 + v % 0x40]
    else [0xF0 + v / 0x4_0000, 0x80 + (v / 0x1000) % 0x40, 0x80 + (v / 0x40) % 0x40, 0x80 + v % 0x40]
  }

  function Utf8String(s: string): seq<byte>
  {
    if s == [] then [] else Utf8(s[0]) + Utf8String(s[1..])
  }

  /** The bytes `url.QueryEscape` leaves as they are: ASCII letters, digits and `-_.~`. */
  predicate Unreserved(b: byte)
  {
    || ('A' as int <= b <= 'Z' as int)
    || ('a' as int <= b <= 'z' as int)
    || ('0' as int <= b <= '9' as int)
    || b == '-' as int || b == '_' as int || b == '.' as int || b == '~' as int
  }

  /** How `url.QueryEscape` writes one byte: as itself, a space as `+`, anything else as `%HH`. */
  function EscapeByte(b: byte): string
  {
    if Unreserved(b) then [b as char]
    else if b == ' ' as int then "+"
    else ['%', UpperHexDigit(b / 16), UpperHexDigit(b % 16)]
  }

  function EscapeBytes(bs: seq<byte>): string
  {
    if bs == [] then "" else EscapeByte(bs[0]) + EscapeBytes(bs[1..])
  }

  /** `url.QueryEscape`. */
  function QueryEscape(s: string): string
  {
    EscapeBytes(Utf8String(s))
  }

  function ConsByte(b: byte, rest: Option<seq<byte>>): Option<seq<byte>>
  {
    if rest.Some? then Some([b] + rest.value) else None
  }

  /** Reads an escaped query component back into bytes (`url.QueryUnescape`). */
  function QueryUnescape(t: string): Option<seq<byte>>
    decreases |t|
  {
    if t == [] then Some([])
    else if t[0] == '+' then ConsByte(' ' as int, QueryUnescape(t[1..]))
    else if t[0] == '%' then
      if |t| >= 3 && HexValue(t[1]).Some? && HexValue(t[2]).Some? then
        ConsByte(HexValue(t[1]).value * 16 + HexValue(t[2]).value, QueryUnescape(t[3..]))
      else None
    else if t[0] as int < 0x80 then ConsByte(t[0] as int, QueryUnescape(t[1..]))
    else None
  }

  lemma UnescapeByte(b: byte, rest: string)
    ensures QueryUnescape(EscapeByte(b) + rest) == ConsByte(b, QueryUnescape(rest))
  {
    var e := EscapeByte(b);
    if |e| == 3 {
      assert (e + rest)[3..] == rest;
      assert (b / 16) * 16 + b % 16 == b;
    } else {
      assert (e + rest)[1..] == rest;
    }
  }

  lemma {:induction false} UnescapeEscapeBytes(bs: seq<byte>)
    ensures QueryUnescape(EscapeBytes(bs)) == Some(bs)
  {
    if bs != [] {
      UnescapeByte(bs[0], EscapeBytes(bs[1..]));
      UnescapeEscapeBytes(bs[1..]);
      assert [bs[0]] + bs[1..] == bs;
    }
  }

  /** `url.QueryEscape` loses nothing: unescaping gives back the UTF-8 bytes of the text. */
  lemma QueryEscapeRoundTrip(s: string)
    ensures QueryUnescape(QueryEscape(s)) == Some(Utf8String(s))
  {
    UnescapeEscapeBytes(Utf8String(s));
  }

  /** An escaped component never holds the `&` and `=` that delimit the query string. */
  lemma {:induction false} EscapedHasNoDelimiters(bs: seq<byte>)
    ensures '&' !in EscapeBytes(bs) && '=' !in EscapeBytes(bs)
  {
    if bs != [] {
      EscapedHasNoDelimiters(bs[1..]);
    }
  }

  /** Text made only of unreserved ASCII characters is not altered by escaping. */
  lemma {:induction false} QueryEscapePlain(s: string)
    requires forall k :: 0 <= k < |s| ==> s[k] as int < 0x80 && Unreserved(s[k] as int)
    ensures QueryEscape(s) == s
  {
    if s != [] {
      QueryEscapePlain(s[1..]);
      assert [s[0]] + s[1..] == s;
    }
  }

  // ---------------------------------------------------------------------
  // url.Values.Encode
  // ---------------------------------------------------------------------

  /** Byte-wise order of texts, the order `url.Values.Encode` sorts its keys in. */
  predicate LexLess(a: string, b: string)
  {
    |b| > 0 && (|a| == 0 || a[0] < b[0] || (a[0] == b[0] && LexLess(a[1..], b[1..])))
  }

  predicate SortedKeys(pairs: seq<(string, string)>)
  {
    forall i :: 0 < i < |pairs| ==> LexLess(pairs[i - 1].0, pairs[i].0)
  }

  function EncodePair(kv: (string, string)): string
  {
    QueryEscape(kv.0) + "=" + QueryEscape(kv.1)
  }

  function EncodePairs(pairs: seq<(string, string)>): (r: seq<string>)
    ensures |r| == |pairs| && forall i :: 0 <= i < |pairs| ==> r[i] == EncodePair(pairs[i])
  {
    if pairs == [] then [] else [EncodePair(pairs[0])] + EncodePairs(pairs[1..])
  }

  /** `url.Values.Encode` of a set of keys with one value each, listed in key order:
      `key=value` for each, escaped, joined by `&`. */
  function ValuesEncode(pairs: seq<(string, string)>): string
    requires SortedKeys(pairs)
  {
    Join(EncodePairs(pairs), "&")
  }

  /** One encoded pair holds no '&', has exactly one '=', and both sides unescape to what was encoded. */
  lemma EncodePairReadBack(kv: (string, string))
    ensures '&' !in EncodePair(kv)
    ensures Split(EncodePair(kv), '=') == [QueryEscape(kv.0), QueryEscape(kv.1)]
    ensures QueryUnescape(QueryEscape(kv.0)) == Some(Utf8String(kv.0))
    ensures QueryUnescape(QueryEscape(kv.1)) == Some(Utf8String(kv.1))
  {
    var k := QueryEscape(kv.0);
    var v := QueryEscape(kv.1);
    EscapedHasNoDelimiters(Utf8String(kv.0));
    EscapedHasNoDelimiters(Utf8String(kv.1));
    assert EncodePair(kv) == k + "=" + v;
    SplitAtFirstSeparator(k, '=', v);
    SplitWithoutSeparator(v, '=');
    QueryEscapeRoundTrip(kv.0);
    QueryEscapeRoundTrip(kv.1);
  }

  /** The encoded query string reads back: it splits at `&` into one field per key, in key
      order; each field splits at `=` into key and value, and both unescape to the bytes of
      the original key and value. */
  lemma ValuesEncodeReadBack(pairs: seq<(string, string)>)
    requires SortedKeys(pairs) && |pairs| > 0
    ensures Split(ValuesEncode(pairs), '&') == EncodePairs(pairs)
    ensures forall i :: 0 <= i < |pairs| ==>
              var kv := Split(EncodePairs(pairs)[i], '=');
              && |kv| == 2
              && QueryUnescape(kv[0]) == Some(Utf8String(pairs[i].0))
              && QueryUnescape(kv[1]) == Some(Utf8String(pairs[i].1))
  {
    var fields := EncodePairs(pairs);
    forall i | 0 <= i < |fields|
      ensures '&' !in fields[i]
      ensures Split(fields[i], '=') == [QueryEscape(pairs[i].0), QueryEscape(pairs[i].1)]
      ensures QueryUnescape(QueryEscape(pairs[i].0)) == Some(Utf8String(pairs[i].0))
      ensures QueryUnescape(QueryEscape(pairs[i].1)) == Some(Utf8String(pairs[i].1))
    {
      EncodePairReadBack(pairs[i]);
    }
    SplitJoin(fields, '&');
  }
}
