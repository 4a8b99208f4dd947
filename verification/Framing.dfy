/** utils.go: the two framers. `scanFields` is pushed a growing buffer by the receiver's scanner;
    `readMsgBytes` pulls a header and a body from a reader. */
module Framing {
  import opened Basics

  /** client.go installs this as the scanner's buffer limit (MAX_MSG_LEN). */
  const MAX_MSG_LEN: nat := 0xFFFFFF

  // ---------------------------------------------------------------- big-endian header

  function U32(h: Text): (n: nat)
    requires |h| == 4
    ensures n < 0x1_0000_0000
  {
    ((h[0] as int * 256 + h[1] as int) * 256 + h[2] as int) * 256 + h[3] as int
  }

  /** PutUint32(uint32(n)): the conversion keeps n modulo 2^32. */
  function PutU32(n: nat): (h: Text)
    ensures |h| == 4
  {
    [(n / 0x100_0000 % 256) as byte, (n / 0x1_0000 % 256) as byte, (n / 0x100 % 256) as byte, (n % 256) as byte]
  }

  /** Shifting by two or three bytes is shifting by one byte so often. */
  lemma {:induction false} ShiftedBytes(n: nat)
    ensures n / 0x1_0000 == n / 256 / 256 && n / 0x100_0000 == n / 256 / 256 / 256
  {
  }

  lemma LastByte(n: nat)
    ensures n == n / 256 * 256 + n % 256 && 0 <= n % 256 < 256
  {
  }

  /** The remainder is the only number in its range that differs from n by a multiple of 2^32. */
  lemma RemainderIs(n: nat, q: nat, m: nat)
    requires n == q * 0x1_0000_0000 + m && m < 0x1_0000_0000
    ensures n % 0x1_0000_0000 == m
  {
  }

  lemma HeaderValue(n: nat)
    ensures U32(PutU32(n)) == n % 0x1_0000_0000
  {
    var a := n / 256;
    var b := a / 256;
    var c := b / 256;
    ShiftedBytes(n);
    LastByte(n);
    LastByte(a);
    LastByte(b);
    LastByte(c);
    var m := ((c % 256 * 256 + b % 256) * 256 + a % 256) * 256 + n % 256;
    assert U32(PutU32(n)) == m;
    RemainderIs(n, c / 256, m);
  }

  /** The order of headers, byte by byte from the first, is the order of the lengths. */
  lemma HeaderOrder(g: Text, h: Text)
    requires |g| == 4 && |h| == 4
    ensures U32(g) < U32(h) <==> exists i :: 0 <= i < 4 && g[i] < h[i] && forall j :: 0 <= j < i ==> g[j] == h[j]
  {
    if U32(g) < U32(h) {
      var i := if g[0] != h[0] then 0 else if g[1] != h[1] then 1 else if g[2] != h[2] then 2 else 3;
      assert g[i] < h[i] && forall j :: 0 <= j < i ==> g[j] == h[j];
    }
  }

  // ---------------------------------------------------------------- scanFields

  datatype Scan = AtEof | NeedMore | Token(advance: nat, token: Text)

  /** The split function handed to the scanner. */
  function ScanFields(data: Text, atEof: bool): (r: Scan)
    ensures r.Token? ==> 4 <= r.advance <= |data| && |r.token| == r.advance - 4 && !atEof
    ensures r.NeedMore? ==> |data| < 4 || U32(data[..4]) + 4 > |data|
  {
    if atEof then AtEof
    else if |data| < 4 then NeedMore
    else
      var total := U32(data[..4]) + 4;
      if total > |data| then NeedMore else Token(total, data[4..total])
  }

  /** The complete frames at the front of a byte stream. */
  function Frames(stream: Text): seq<Text>
    decreases |stream|
  {
    match ScanFields(stream, false)
    case Token(n, t) => [t] + Frames(stream[n..])
    case _ => []
  }

  /** What remains of a stream once its complete frames are gone. */
  function Remainder(stream: Text): (r: Text)
    ensures ScanFields(r, false).NeedMore?
    decreases |stream|
  {
    match ScanFields(stream, false)
    case Token(n, _) => Remainder(stream[n..])
    case _ => stream
  }

  function FramedLength(frames: seq<Text>): nat {
    if frames == [] then 0 else 4 + |frames[0]| + FramedLength(frames[1..])
  }

  /** More data never changes a token that is already complete. */
  lemma ScanExtends(data: Text, more: Text)
    requires ScanFields(data, false).Token?
    ensures ScanFields(data + more, false) == ScanFields(data, false)
    ensures var n := ScanFields(data, false).advance; (data + more)[n..] == data[n..] + more
  {
    var n := ScanFields(data, false).advance;
    assert (data + more)[..4] == data[..4];
    assert (data + more)[4..n] == data[4..n];
  }

  /** Scanning can be cut anywhere: the frames of a+b are those of a, then those of what a left over plus b. */
  lemma {:induction false} FramesSplit(a: Text, b: Text)
    ensures Frames(a + b) == Frames(a) + Frames(Remainder(a) + b)
    ensures Remainder(a + b) == Remainder(Remainder(a) + b)
    decreases |a|
  {
    var r := ScanFields(a, false);
    if r.Token? {
      ScanExtends(a, b);
      FramesSplit(a[r.advance..], b);
    }
  }

  lemma {:induction false} ConsumedBytes(stream: Text)
    ensures |stream| == FramedLength(Frames(stream)) + |Remainder(stream)|
    ensures Remainder(stream) == stream[FramedLength(Frames(stream))..]
    decreases |stream|
  {
    var r := ScanFields(stream, false);
    if r.Token? {
      ConsumedBytes(stream[r.advance..]);
    }
  }

  /** A frame as the peer sends it. */
  function Framed(payload: Text): Text { PutU32(|payload|) + payload }

  lemma FramedHead(payload: Text, rest: Text)
    requires |payload| < 0x1_0000_0000
    ensures ScanFields(Framed(payload) + rest, false) == Token(4 + |payload|, payload)
    ensures (Framed(payload) + rest)[4 + |payload|..] == rest
  {
    HeaderValue(|payload|);
    var w := Framed(payload) + rest;
    assert w[..4] == PutU32(|payload|);
    assert w[4..4 + |payload|] == payload;
  }

  function Wire(payloads: seq<Text>): Text {
    if payloads == [] then [] else Framed(payloads[0]) + Wire(payloads[1..])
  }

  lemma FramedFirst(payload: Text, rest: Text)
    requires |payload| < 0x1_0000_0000
    ensures Frames(Framed(payload) + rest) == [payload] + Frames(rest)
    ensures Remainder(Framed(payload) + rest) == Remainder(rest)
  {
    FramedHead(payload, rest);
    hide Framed, ScanFields;
  }

  /** Scanning undoes framing. */
  lemma {:induction false} WireFrames(payloads: seq<Text>)
    requires forall f :: f in payloads ==> |f| < 0x1_0000_0000
    ensures Frames(Wire(payloads)) == payloads && Remainder(Wire(payloads)) == []
  {
    if payloads != [] {
      hide Framed, ScanFields;
      FramedFirst(payloads[0], Wire(payloads[1..]));
      WireFrames(payloads[1..]);
    }
  }

  // ---------------------------------------------------------------- any fragmentation of the stream

  /** The scanner fed chunk by chunk: the tokens it emits and the bytes left in its buffer. */
  function Feed(buf: Text, chunks: seq<Text>): (seq<Text>, Text)
    decreases |chunks|
  {
    if chunks == [] then ([], buf)
    else
      var now := buf + chunks[0];
      var later := Feed(Remainder(now), chunks[1..]);
      (Frames(now) + later.0, later.1)
  }

  /** Chunking independence: however the stream is cut up, the tokens are those of the whole stream at once. */
  lemma {:induction false} ChunkingIndependence(buf: Text, chunks: seq<Text>)
    requires ScanFields(buf, false).NeedMore?
    ensures Feed(buf, chunks) == (Frames(buf + Flatten(chunks)), Remainder(buf + Flatten(chunks)))
    decreases |chunks|
  {
    if chunks == [] {
      assert buf + Flatten(chunks) == buf;
    } else {
      var now := buf + chunks[0];
      ChunkingIndependence(Remainder(now), chunks[1..]);
      assert buf + Flatten(chunks) == now + Flatten(chunks[1..]);
      FramesSplit(now, Flatten(chunks[1..]));
    }
  }

  // ---------------------------------------------------------------- a scanner with a buffer limit

  predicate Fits(frame: Text, limit: nat) { |frame| + 4 <= limit }

  /** The frames a scanner whose buffer holds at most `limit` bytes hands out: all up to the first that does not fit. */
  function Deliverable(stream: Text, limit: nat): seq<Text>
    decreases |stream|
  {
    match ScanFields(stream, false)
    case Token(n, t) => if n <= limit then [t] + Deliverable(stream[n..], limit) else []
    case _ => []
  }

  function Undelivered(stream: Text, limit: nat): Text
    decreases |stream|
  {
    match ScanFields(stream, false)
    case Token(n, t) => if n <= limit then Undelivered(stream[n..], limit) else stream
    case _ => stream
  }

  /** The delivered frames are the longest prefix of the frames in which every frame fits. */
  lemma {:induction false} DeliverableIsFittingPrefix(stream: Text, limit: nat)
    ensures Deliverable(stream, limit) <= Frames(stream)
    ensures forall f :: f in Deliverable(stream, limit) ==> Fits(f, limit)
    ensures |Deliverable(stream, limit)| < |Frames(stream)|
            ==> !Fits(Frames(stream)[|Deliverable(stream, limit)|], limit)
    decreases |stream|
  {
    var r := ScanFields(stream, false);
    if r.Token? && r.advance <= limit {
      DeliverableIsFittingPrefix(stream[r.advance..], limit);
    }
  }

  /** Nothing is lost to the limit exactly when every frame fits it. */
  lemma LimitIsHarmless(stream: Text, limit: nat)
    ensures Deliverable(stream, limit) == Frames(stream) <==> forall f :: f in Frames(stream) ==> Fits(f, limit)
  {
    DeliverableIsFittingPrefix(stream, limit);
    var d, all := Deliverable(stream, limit), Frames(stream);
    if |d| < |all| {
      assert all[|d|] in all;
    }
  }

  /** Where bytes come from. A read returns any non-empty part of what was asked for, and the end of
      the stream is reported on its own, as a TCP socket does. */
  class Reader {
    var rest: Text

    constructor (stream: Text)
      ensures rest == stream
    {
      rest := stream;
    }

    method Read(n: nat) returns (chunk: Text, eof: bool)
      requires 0 < n
      modifies this
      ensures old(rest) == chunk + rest
      ensures eof <==> old(rest) == []
      ensures eof ==> chunk == []
      ensures !eof ==> 0 < |chunk| <= n
    {
      if rest == [] {
        return [], true;
      }
      var k: nat :| 1 <= k <= n && k <= |rest|;
      chunk, eof := rest[..k], false;
      rest := rest[k..];
    }
  }

  /** A complete token is delivered and gone. */
  lemma TokenTurn(buf: Text, wire: Text, limit: nat)
    requires ScanFields(buf, false).Token? && |buf| <= limit
    ensures var r := ScanFields(buf, false);
            && Deliverable(buf + wire, limit) == [r.token] + Deliverable(buf[r.advance..] + wire, limit)
            && Undelivered(buf + wire, limit) == Undelivered(buf[r.advance..] + wire, limit)
  {
    ScanExtends(buf, wire);
  }

  /** At the end of the stream nothing is delivered from an incomplete frame. */
  lemma LastTurn(buf: Text, limit: nat)
    requires !ScanFields(buf, false).Token?
    ensures Deliverable(buf, limit) == [] && Undelivered(buf, limit) == buf
  {
  }

  /** The receiver's scan loop over any reader: every frame that fits is delivered, in order, however the
      reads are cut, and the scan ends with "token too long" exactly when the limit's worth of bytes is
      left over. */
  method ScanAll(src: Reader, limit: nat) returns (frames: seq<Text>, tooLong: bool)
    modifies src
    ensures frames == Deliverable(old(src.rest), limit)
    ensures tooLong <==> |Undelivered(old(src.rest), limit)| >= limit
  {
    hide ScanFields, Deliverable, Undelivered;
    ghost var stream := src.rest;
    var buf: Text := [];
    frames, tooLong := [], false;
    assert buf + src.rest == stream;
    while true
      invariant |buf| <= limit
      invariant Deliverable(stream, limit) == frames + Deliverable(buf + src.rest, limit)
      invariant Undelivered(stream, limit) == Undelivered(buf + src.rest, limit)
      decreases |buf| + |src.rest|, |src.rest|
    {
      var r := ScanFields(buf, false);
      ghost var all := buf + src.rest;
      if r.Token? {
        TokenTurn(buf, src.rest, limit);
        frames, buf := frames + [r.token], buf[r.advance..];
      } else if |buf| == limit {
        OversizeHead(buf, src.rest);
        return frames, true;
      } else {
        var chunk, eof := src.Read(limit - |buf|);
        if eof {
          assert all == buf;
          LastTurn(buf, limit);
          return;
        }
        buf := buf + chunk;
        assert buf + src.rest == all;
      }
    }
  }

  /** A full buffer without a token means the head of the stream is a frame that does not fit, or too short to tell. */
  lemma OversizeHead(buf: Text, wire: Text)
    requires !ScanFields(buf, false).Token?
    ensures Deliverable(buf + wire, |buf|) == [] && Undelivered(buf + wire, |buf|) == buf + wire
  {
    if |buf| >= 4 {
      assert (buf + wire)[..4] == buf[..4];
    }
  }

  // ---------------------------------------------------------------- readMsgBytes

  /** Fill exactly n bytes by repeated partial reads (the loop that occurs twice in readMsgBytes). */
  method ReadExactly(src: Reader, n: nat) returns (r: Option<Text>)
    modifies src
    ensures r.Some? <==> |old(src.rest)| >= n
    ensures r.Some? ==> r.value == old(src.rest)[..n] && src.rest == old(src.rest)[n..]
    ensures r.None? ==> src.rest == []
  {
    var got: Text := [];
    while |got| < n
      invariant |got| <= n && old(src.rest) == got + src.rest
      decreases n - |got|
    {
      var chunk, eof := src.Read(n - |got|);
      if eof {
        return None;
      }
      got := got + chunk;
    }
    return Some(got);
  }

  method ReadMsgBytes(src: Reader) returns (r: Option<Text>)
    modifies src
    ensures var scan := ScanFields(old(src.rest), false);
            if scan.Token? then r == Some(scan.token) && src.rest == old(src.rest)[scan.advance..]
            else r.None? && src.rest == []
  {
    ghost var stream := src.rest;
    var sizeBytes := ReadExactly(src, 4);
    if sizeBytes.None? {
      return None;
    }
    var size := U32(sizeBytes.value);
    r := ReadExactly(src, size);
    if r.Some? {
      assert stream[4..][..size] == stream[4..4 + size];
    }
  }

  /** The pull framer refines the push framer: read until it fails, it yields the frames scanning yields. */
  method PullAll(src: Reader) returns (frames: seq<Text>)
    modifies src
    ensures frames == Frames(old(src.rest))
    ensures frames == Feed([], [old(src.rest)]).0
  {
    ghost var stream := src.rest;
    frames := [];
    var more := true;
    while more
      invariant Frames(stream) == if more then frames + Frames(src.rest) else frames
      decreases more, |src.rest|
    {
      ghost var before := src.rest;
      var r := ReadMsgBytes(src);
      if r.Some? {
        frames := frames + [r.value];
      } else {
        more := false;
      }
    }
    assert [] + stream == stream;
  }
}
