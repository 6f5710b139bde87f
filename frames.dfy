/**
 * The binary input of the Prometheus loader (cmd/tsbs_load_prometheus/scan.go).
 *
 * The input is a stream of frames: an 8-byte unsigned big-endian length, then
 * exactly that many payload bytes. A `Scanner` pulls one frame at a time into a
 * reusable buffer, a `Decoder` hands the buffer out as a point without copying
 * it, and a `Batch` accumulates the raw payloads of the points it is given.
 *
 * The reader is the sequence of every byte it will ever yield plus a cursor;
 * a Go slice of bytes is its backing array (whose length is the slice's
 * capacity) plus a length.
 */
module Frames {
  import opened GoText

  const HeaderSize: nat := 8
  const Uint64Bound: nat := 0x1_0000_0000_0000_0000
  const Int64Bound: nat := 0x8000_0000_0000_0000

  /** The number of series the loader reports for every batch it sends
      (`serialize.PrometheusBatchSize`). Its declaration is not part of this model, so its
      value is left open. */
  const PrometheusBatchSize: int

  // ---------------------------------------------------------------------
  // Big-endian numbers
  // ---------------------------------------------------------------------

  function Pow256(n: nat): nat
  {
    if n == 0 then 1 else 256 * Pow256(n - 1)
  }

  /** Reference reading of a byte string as an unsigned big-endian number. */
  function BigEndian(s: seq<byte>): nat
  {
    if s == [] then 0 else BigEndian(s[..|s| - 1]) * 256 + s[|s| - 1]
  }

  /** The `n`-byte big-endian encoding of `u` (of `u` modulo 256^n when it does not fit). */
  function EncodeBigEndian(u: nat, n: nat): (s: seq<byte>)
    ensures |s| == n
  {
    if n == 0 then [] else EncodeBigEndian(u / 256, n - 1) + [u % 256]
  }

  lemma {:induction false} BigEndianBound(s: seq<byte>)
    ensures BigEndian(s) < Pow256(|s|)
  {
    if s != [] {
      BigEndianBound(s[..|s| - 1]);
    }
  }

  /** Decoding the encoding of a number that fits gives the number back. */
  lemma {:induction false} BigEndianOfEncoding(u: nat, n: nat)
    requires u < Pow256(n)
    ensures BigEndian(EncodeBigEndian(u, n)) == u
  {
    if n > 0 {
      var s := EncodeBigEndian(u, n);
      assert s[..n - 1] == EncodeBigEndian(u / 256, n - 1);
      assert u / 256 < Pow256(n - 1);
      BigEndianOfEncoding(u / 256, n - 1);
    }
  }

  /** Encoding the number a byte string denotes, at its own width, gives the bytes back. */
  lemma {:induction false} EncodingOfBigEndian(s: seq<byte>)
    ensures EncodeBigEndian(BigEndian(s), |s|) == s
  {
    if s != [] {
      var init := s[..|s| - 1];
      var v := BigEndian(s);
      assert v / 256 == BigEndian(init) && v % 256 == s[|s| - 1];
      EncodingOfBigEndian(init);
      assert init + [s[|s| - 1]] == s;
    }
  }

  /** The eight bytes shifted into their places: the source ORs them, and as their bit
      ranges are disjoint the OR is this sum. */
  function Word(s: seq<byte>): int
    requires |s| >= HeaderSize
  {
    s[7] as int + s[6] as int * 0x100 + s[5] as int * 0x1_0000 + s[4] as int * 0x100_0000
    + s[3] as int * 0x1_0000_0000 + s[2] as int * 0x100_0000_0000
    + s[1] as int * 0x1_0000_0000_0000 + s[0] as int * 0x100_0000_0000_0000
  }

  lemma BigEndianOfEight(s: seq<byte>)
    requires |s| == 8
    ensures BigEndian(s) == Word(s)
  {
    assert s[..1][..0] == [];
    assert BigEndian(s[..1]) == s[0];
    assert s[..2][..1] == s[..1];
    assert BigEndian(s[..2]) == BigEndian(s[..1]) * 256 + s[1];
    assert s[..3][..2] == s[..2];
    assert BigEndian(s[..3]) == BigEndian(s[..2]) * 256 + s[2];
    assert s[..4][..3] == s[..3];
    assert BigEndian(s[..4]) == BigEndian(s[..3]) * 256 + s[3];
    assert s[..5][..4] == s[..4];
    assert BigEndian(s[..5]) == BigEndian(s[..4]) * 256 + s[4];
    assert s[..6][..5] == s[..5];
    assert BigEndian(s[..6]) == BigEndian(s[..5]) * 256 + s[5];
    assert s[..7][..6] == s[..6];
    assert BigEndian(s[..7]) == BigEndian(s[..6]) * 256 + s[6];
    assert s[..7] == s[..|s| - 1];
    assert BigEndian(s) == BigEndian(s[..7]) * 256 + s[7];
  }

  /** `unmarshalUint64`: the first eight bytes read as an unsigned big-endian number;
      later bytes play no part. The source panics on fewer than eight bytes. */
  function UnmarshalUint64(src: seq<byte>): (u: nat)
    requires |src| >= HeaderSize
    ensures u == BigEndian(src[..HeaderSize])
    ensures u < Uint64Bound
  {
    BigEndianOfEight(src[..HeaderSize]);
    BigEndianBound(src[..HeaderSize]);
    assert Pow256(8) == Uint64Bound;
    Word(src)
  }

  /** The 8-byte header a writer puts in front of a payload of `u` bytes. */
  function EncodeUint64(u: nat): (s: seq<byte>)
    requires u < Uint64Bound
    ensures |s| == HeaderSize
  {
    EncodeBigEndian(u, HeaderSize)
  }

  /** `unmarshalUint64` inverts the 8-byte big-endian encoding, whatever follows it. */
  lemma UnmarshalEncode(u: nat, tail: seq<byte>)
    requires u < Uint64Bound
    ensures UnmarshalUint64(EncodeUint64(u) + tail) == u
  {
    assert (EncodeUint64(u) + tail)[..HeaderSize] == EncodeUint64(u);
    assert Pow256(8) == Uint64Bound;
    BigEndianOfEncoding(u, 8);
  }

  /** ... and the encoding inverts `unmarshalUint64`: every 8-byte header is the encoding of its value. */
  lemma EncodeUnmarshal(header: seq<byte>)
    requires |header| == HeaderSize
    ensures EncodeUint64(UnmarshalUint64(header)) == header
  {
    assert header[..HeaderSize] == header;
    EncodingOfBigEndian(header);
  }

  /** Go's `int(u)` for a uint64 on a 64-bit platform: values of 2^63 and above wrap to negatives. */
  function GoInt(u: nat): (i: int)
    requires u < Uint64Bound
    ensures -(Int64Bound as int) <= i < Int64Bound
    ensures i >= 0 <==> u < Int64Bound
    ensures i % Uint64Bound == u
  {
    if u < Int64Bound then u else u - Uint64Bound
  }

  // ---------------------------------------------------------------------
  // Frames as a specification
  // ---------------------------------------------------------------------

  /** What the unread rest of the stream holds next, as `scanner.scan` reads it. */
  datatype Next =
    | Frame(payload: seq<byte>)          // a header and its whole body
    | CleanEof                           // nothing left at all
    | ShortHeader                        // one to seven bytes left
    | ShortBody(size: nat)               // a header declaring `size` bytes, followed by fewer

  /** The reading of `rest` that `scan` performs. */
  function NextFrame(rest: seq<byte>): (n: Next)
    ensures n.Frame? ==> |rest| >= HeaderSize + |n.payload|
    ensures n.ShortBody? ==> HeaderSize <= |rest| < HeaderSize + n.size
  {
    if |rest| == 0 then CleanEof
    else if |rest| < HeaderSize then ShortHeader
    else
      var size := UnmarshalUint64(rest);
      if |rest| - HeaderSize >= size then Frame(rest[HeaderSize..HeaderSize + size])
      else ShortBody(size)
  }

  /** The body read of `scan`: `stored` is the backing array after `io.ReadFull` was asked
      for the declared `size` bytes and copied as many as `rest` still has after the header. */
  lemma BodyRead(rest: seq<byte>, size: nat, stored: seq<byte>)
    requires |rest| >= HeaderSize && UnmarshalUint64(rest) == size && |stored| >= size
    requires stored[..Min(size, |rest| - HeaderSize)] == rest[HeaderSize..][..Min(size, |rest| - HeaderSize)]
    ensures |rest| - HeaderSize >= size ==> NextFrame(rest) == Frame(stored[..size])
    ensures |rest| - HeaderSize < size ==>
              NextFrame(rest) == ShortBody(size) && stored[..size][..|rest| - HeaderSize] == rest[HeaderSize..]
  {
    if |rest| - HeaderSize >= size {
      assert rest[HeaderSize..][..size] == rest[HeaderSize..HeaderSize + size];
    } else {
      assert stored[..size][..|rest| - HeaderSize] == stored[..|rest| - HeaderSize];
    }
  }

  /** `int(packetSize)` must not be negative: a header declaring 2^63 bytes or more makes
      `resize` slice with a negative length, which panics. */
  predicate SizeFits(rest: seq<byte>)
  {
    |rest| >= HeaderSize ==> UnmarshalUint64(rest) < Int64Bound
  }

  /** The frame a producer writes for `payload`. */
  function EncodeFrame(payload: seq<byte>): (f: seq<byte>)
    requires |payload| < Uint64Bound
    ensures |f| == HeaderSize + |payload|
  {
    EncodeUint64(|payload|) + payload
  }

  /** Framing round trip: reading a frame written for `payload` gives `payload` exactly,
      whatever follows it in the stream. */
  lemma FrameRoundTrip(payload: seq<byte>, tail: seq<byte>)
    requires |payload| < Uint64Bound
    ensures NextFrame(EncodeFrame(payload) + tail) == Frame(payload)
  {
    var s := EncodeFrame(payload) + tail;
    assert s == EncodeUint64(|payload|) + (payload + tail);
    UnmarshalEncode(|payload|, payload + tail);
    assert s[HeaderSize..HeaderSize + |payload|] == payload;
  }

  /** Every frame read from a stream is a frame written for its payload: nothing else
      in the stream is consumed or reinterpreted. */
  lemma FrameIsPrefix(rest: seq<byte>)
    requires NextFrame(rest).Frame?
    ensures |NextFrame(rest).payload| < Uint64Bound
    ensures rest == EncodeFrame(NextFrame(rest).payload) + rest[HeaderSize + |NextFrame(rest).payload|..]
  {
    var p := NextFrame(rest).payload;
    var header := rest[..HeaderSize];
    assert UnmarshalUint64(rest) == UnmarshalUint64(header) by {
      assert header[..HeaderSize] == rest[..HeaderSize];
    }
    EncodeUnmarshal(header);
    assert rest == header + p + rest[HeaderSize + |p|..];
  }

  /** The payloads of the frames in `s`, read one after another until one is not a whole frame. */
  function ReadAll(s: seq<byte>): seq<seq<byte>>
    decreases |s|
  {
    match NextFrame(s)
    case Frame(p) => [p] + ReadAll(s[HeaderSize + |p|..])
    case _ => []
  }

  /** The stream a producer writes for a list of payloads. */
  function WriteAll(payloads: seq<seq<byte>>): seq<byte>
    requires forall i :: 0 <= i < |payloads| ==> |payloads[i]| < Uint64Bound
  {
    if payloads == [] then [] else EncodeFrame(payloads[0]) + WriteAll(payloads[1..])
  }

  /** Stream round trip: reading back a written stream yields every payload, in order,
      and reading stops cleanly at its end. */
  lemma {:induction false} ReadAllWriteAll(payloads: seq<seq<byte>>)
    requires forall i :: 0 <= i < |payloads| ==> |payloads[i]| < Uint64Bound
    ensures ReadAll(WriteAll(payloads)) == payloads
  {
    if payloads != [] {
      var p := payloads[0];
      var tail := WriteAll(payloads[1..]);
      FrameRoundTrip(p, tail);
      assert (EncodeFrame(p) + tail)[HeaderSize + |p|..] == tail;
      ReadAllWriteAll(payloads[1..]);
      assert [p] + payloads[1..] == payloads;
    }
  }

  // ---------------------------------------------------------------------
  // Go byte slices
  // ---------------------------------------------------------------------

  /** A byte slice starting at the beginning of its backing array. */
  datatype Slice = Slice(arr: array<byte>, len: nat)

  function Bytes(s: Slice): seq<byte>
    reads s.arr
    requires s.len <= s.arr.Length
  {
    s.arr[..s.len]
  }

  function Zeros(n: nat): (z: seq<byte>)
    ensures |z| == n && forall i :: 0 <= i < n ==> z[i] == 0
  {
    if n == 0 then [] else Zeros(n - 1) + [0]
  }

  /** What `resize(b, n)` holds when `storage` is the whole backing array of `b`:
      the storage's first `n` bytes, the part beyond it zeroed. */
  function Resized(storage: seq<byte>, n: nat): (r: seq<byte>)
    ensures |r| == n
  {
    if n <= |storage| then storage[..n] else storage + Zeros(n - |storage|)
  }

  /** Resizing keeps the bytes already held, up to the new length, and what it adds is zero. */
  lemma ResizedKeepsPrefix(storage: seq<byte>, n: nat)
    ensures forall k :: 0 <= k < Min(|storage|, n) ==> Resized(storage, n)[k] == storage[k]
    ensures forall k :: |storage| <= k < n ==> Resized(storage, n)[k] == 0
  {
    if n > |storage| {
      var r := Resized(storage, n);
      assert r == storage + Zeros(n - |storage|);
      assert forall k :: |storage| <= k < n ==> r[k] == Zeros(n - |storage|)[k - |storage|];
    }
  }

  /** The capacity `append` gives when one byte is appended to a full slice of capacity `c`:
      at least one more. */
  function GrownCapacity(c: nat): (r: nat)
    ensures r > c
  {
    if c == 0 then 8 else 2 * c
  }

  /** The payload of a decoded frame (`load.Point` wrapping the scanner's buffer). */
  datatype Point = Point(data: Slice)

  /** What `io.ReadFull` reports. */
  datatype ReadError = NoError | Eof | UnexpectedEof

  function Min(a: int, b: int): int { if a < b then a else b }

  // ---------------------------------------------------------------------
  // scanner
  // ---------------------------------------------------------------------

  class Scanner {
    /** Everything the reader `r` yields, and how much of it has been read. */
    var stream: seq<byte>
    var pos: nat
    /** `buf`: its backing array (whose length is `cap(buf)`) and `len(buf)`. */
    var storage: array<byte>
    var len: nat

    ghost predicate Valid()
      reads this
    {
      pos <= |stream| && len <= storage.Length
    }

    /** The part of the stream not read yet. */
    function Rest(): seq<byte>
      reads this
      requires pos <= |stream|
    {
      stream[pos..]
    }

    /** The contents of `buf`. */
    function Buf(): seq<byte>
      reads this, storage
      requires len <= storage.Length
    {
      storage[..len]
    }

    /** A scanner over `input` with a nil buffer. */
    constructor (input: seq<byte>)
      ensures Valid() && fresh(storage)
      ensures stream == input && pos == 0 && len == 0 && storage.Length == 0
    {
      stream := input;
      pos := 0;
      storage := new byte[0];
      len := 0;
    }

    /** `io.ReadFull(s.r, dst[:n])`: copies as much of the next `n` stream bytes as there are
        and advances the reader past them; an error unless all `n` were there, `io.EOF`
        when none was. */
    method ReadFull(dst: array<byte>, n: nat) returns (err: ReadError)
      requires Valid() && n <= dst.Length
      modifies this`pos, dst
      ensures Valid()
      ensures var k := Min(n, |old(Rest())|);
        && pos == old(pos) + k
        && dst[..k] == old(Rest())[..k]
        && dst[k..] == old(dst[k..])
        && err == (if k == n then NoError else if k == 0 then Eof else UnexpectedEof)
    {
      var k := Min(n, |stream| - pos);
      forall i | 0 <= i < k {
        dst[i] := stream[pos + i];
      }
      pos := pos + k;
      err := if k == n then NoError else if k == 0 then Eof else UnexpectedEof;
    }

    /** `s.buf = resize(s.buf, n)`: grows the backing array, one appended zero at a time,
        until its capacity reaches `n`, then takes the first `n` bytes. When the capacity
        already suffices the same storage is re-sliced. */
    method Resize(n: int)
      requires Valid() && n >= 0
      modifies this`storage, this`len
      ensures Valid() && len == n && storage.Length >= n
      ensures old(storage.Length) >= n ==> storage == old(storage)
      ensures old(storage.Length) < n ==> fresh(storage)
      ensures Buf() == Resized(old(storage[..]), n)
    {
      ghost var original := storage[..];
      while storage.Length < n
        invariant Valid()
        invariant storage.Length >= |original|
        invariant storage[..] == Resized(original, storage.Length)
        invariant storage == old(storage) || (fresh(storage) && |original| < n)
        decreases n - storage.Length
      {
        // append(b[:cap(b)], 0): a new, zeroed array holding the old bytes and one more zero.
        var c := storage.Length;
        var grown := new byte[GrownCapacity(c)](_ => 0);
        forall i | 0 <= i < c {
          grown[i] := storage[i];
        }
        assert grown[..] == Resized(original, grown.Length);
        storage := grown;
        len := c + 1;
      }
      len := n;
      assert storage[..n] == Resized(original, storage.Length)[..n];
    }

    /** The body half of `scan`, once the header of `whole` declared `size` bytes:
        `resize` the buffer to `size`, then `io.ReadFull` into it. */
    method ReadBody(ghost whole: seq<byte>, size: nat) returns (err: ReadError)
      requires Valid() && |whole| >= HeaderSize && Rest() == whole[HeaderSize..]
      requires UnmarshalUint64(whole) == size
      modifies this, storage
      ensures Valid() && stream == old(stream) && len == size
      ensures storage == old(storage) || fresh(storage)
      ensures old(storage.Length) >= size ==> storage == old(storage)
      ensures err == NoError <==> NextFrame(whole).Frame?
      ensures err == NoError ==> Buf() == NextFrame(whole).payload && pos == old(pos) + size
      ensures err != NoError ==>
                && pos == |stream|
                && NextFrame(whole) == ShortBody(size)
                && Buf()[..|whole| - HeaderSize] == whole[HeaderSize..]
    {
      Resize(size);
      err := ReadFull(storage, len);
      BodyRead(whole, len, storage[..]);
    }

    /** `scan`: reads one frame into `buf`. Fails, leaving `buf` alone, when the header is
        not complete, and logs unless the stream had simply ended; fails and logs when the
        body is short. Every failure leaves the reader at the end of the stream. */
    method Scan() returns (ok: bool, logged: bool)
      requires Valid() && SizeFits(Rest())
      modifies this, storage
      ensures Valid() && stream == old(stream)
      ensures storage == old(storage) || fresh(storage)
      ensures |old(Rest())| >= HeaderSize && old(storage.Length) >= UnmarshalUint64(old(Rest())) ==>
                storage == old(storage)
      ensures ok <==> NextFrame(old(Rest())).Frame?
      ensures logged <==> NextFrame(old(Rest())).ShortHeader? || NextFrame(old(Rest())).ShortBody?
      ensures ok ==> Buf() == NextFrame(old(Rest())).payload && pos == old(pos) + HeaderSize + len
      ensures !ok ==> pos == |stream|
      ensures NextFrame(old(Rest())).CleanEof? || NextFrame(old(Rest())).ShortHeader? ==>
                storage == old(storage) && len == old(len) && Buf() == old(Buf())
      ensures NextFrame(old(Rest())).ShortBody? ==>
                len == NextFrame(old(Rest())).size && Buf()[..|old(Rest())| - HeaderSize] == old(Rest())[HeaderSize..]
    {
      ghost var rest := Rest();
      var sizeBuf := new byte[HeaderSize](_ => 0);
      var err := ReadFull(sizeBuf, HeaderSize);
      if err != NoError {
        assert NextFrame(rest) == if err == Eof then CleanEof else ShortHeader;
        logged := err != Eof;
        ok := false;
        return;
      }
      assert sizeBuf[..] == rest[..HeaderSize];
      var packetSize := UnmarshalUint64(sizeBuf[..]);
      assert packetSize == UnmarshalUint64(rest) by {
        assert sizeBuf[..][..HeaderSize] == rest[..HeaderSize];
      }

      err := ReadBody(rest, GoInt(packetSize));
      if err != NoError {
        logged := true;
        ok := false;
        return;
      }
      ok, logged := true, false;
    }
  }

  // ---------------------------------------------------------------------
  // decoder, batch, factory
  // ---------------------------------------------------------------------

  class Decoder {
    const scanner: Scanner

    constructor (scanner: Scanner)
      ensures this.scanner == scanner
    {
      this.scanner := scanner;
    }

    /** `Decode`: nothing when `scan` fails; otherwise a point wrapping the payload in the
        scanner's own storage (not a copy), after which the scanner's buffer is emptied
        but keeps that storage, so the next frame overwrites the point's bytes. */
    method Decode() returns (p: Option<Point>)
      requires scanner.Valid() && SizeFits(scanner.Rest())
      modifies scanner, scanner.storage
      ensures scanner.Valid() && scanner.stream == old(scanner.stream)
      ensures scanner.storage == old(scanner.storage) || fresh(scanner.storage)
      ensures p.Some? && old(scanner.storage.Length) >= p.value.data.len ==> scanner.storage == old(scanner.storage)
      ensures p.None? <==> !NextFrame(old(scanner.Rest())).Frame?
      ensures p.Some? ==>
                && p.value.data.arr == scanner.storage
                && p.value.data.len <= scanner.storage.Length
                && Bytes(p.value.data) == NextFrame(old(scanner.Rest())).payload
                && scanner.len == 0
                && scanner.pos == old(scanner.pos) + HeaderSize + p.value.data.len
      ensures p.None? ==> scanner.pos == |scanner.stream|
    {
      var ok, _ := scanner.Scan();
      if !ok {
        return None;
      }
      p := Some(Point(Slice(scanner.storage, scanner.len)));
      scanner.len := 0;
    }
  }

  /** `batch`: the raw payloads of the points appended so far, in a pooled byte buffer. */
  class Batch {
    var data: seq<byte>

    constructor ()
      ensures data == []
    {
      data := [];
    }

    /** `Len`: the loader counts every batch as `PrometheusBatchSize` series, whatever it holds. */
    method Len() returns (n: int)
      ensures n == PrometheusBatchSize
    {
      n := PrometheusBatchSize;
    }

    /** `Append`: copies the point's bytes to the end of the buffer; what was there stays. */
    method Append(item: Point)
      requires item.data.len <= item.data.arr.Length
      modifies this
      ensures data == old(data) + Bytes(item.data)
      ensures data[..|old(data)|] == old(data)
    {
      data := data + item.data.arr[..item.data.len];
    }
  }

  /** `factory.New`: a batch over a buffer from the pool, which hands out empty buffers. */
  method NewBatch() returns (b: Batch)
    ensures fresh(b) && b.data == []
  {
    b := new Batch();
  }
}
