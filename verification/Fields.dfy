/** utils.go: how a field becomes text and how text becomes fields. Every field on the wire is text ended by a NUL. */
module Fields {
  import opened Basics
  import opened Framing

  const NUL: byte := 0

  // ---------------------------------------------------------------- integers (strconv, base 10, 64 bits)

  const INT64_MIN: int := -0x8000_0000_0000_0000
  const INT64_MAX: int := 0x7FFF_FFFF_FFFF_FFFF

  /** UNSETINT, the int64 that stands for "no value". */
  const UNSETINT: int := INT64_MAX

  newtype int64 = x: int | INT64_MIN <= x <= INT64_MAX

  const MINUS: byte := 45
  const PLUS: byte := 43

  predicate IsDigit(b: byte) { 48 <= b <= 57 }

  predicate AllDigits(t: Text) { forall i :: 0 <= i < |t| ==> IsDigit(t[i]) }

  function Digits(n: nat): (t: Text)
    ensures t != [] && AllDigits(t)
  {
    if n < 10 then [(48 + n) as byte] else Digits(n / 10) + [(48 + n % 10) as byte]
  }

  function DigitsValue(t: Text): nat
    requires AllDigits(t)
  {
    if t == [] then 0 else 10 * DigitsValue(t[..|t| - 1]) + (t[|t| - 1] - 48) as int
  }

  function FormatInt(i: int): Text { if i < 0 then [MINUS] + Digits(-i) else Digits(i) }

  /** ParseInt(s, 10, 64): an optional sign, then at least one digit, then a range check. */
  function ParseInt(t: Text): (r: Option<int>)
    ensures r.Some? ==> INT64_MIN <= r.value <= INT64_MAX
  {
    var signed := t != [] && (t[0] == MINUS || t[0] == PLUS);
    var body := if signed then t[1..] else t;
    if body == [] || !AllDigits(body) then None
    else
      var magnitude: int := DigitsValue(body);
      var v := if signed && t[0] == MINUS then -magnitude else magnitude;
      if INT64_MIN <= v <= INT64_MAX then Some(v) else None
  }

  lemma {:induction false} DigitsRoundTrip(n: nat)
    ensures DigitsValue(Digits(n)) == n
  {
    if n >= 10 {
      DigitsRoundTrip(n / 10);
      assert Digits(n)[..|Digits(n)| - 1] == Digits(n / 10);
    }
  }

  /** Every int64, the most negative one included, survives formatting and parsing. */
  lemma IntRoundTrip(i: int64)
    ensures ParseInt(FormatInt(i as int)) == Some(i as int)
    ensures FormatInt(i as int) != [] && NUL !in FormatInt(i as int)
  {
    hide Digits, DigitsValue;
    var n := i as int;
    if n < 0 {
      DigitsRoundTrip(-n);
      assert FormatInt(n)[1..] == Digits(-n);
    } else {
      DigitsRoundTrip(n);
    }
  }

  // ---------------------------------------------------------------- floats

  /** A float64, by its bit pattern. */
  newtype Float = x: int | 0 <= x < 0x1_0000_0000_0000_0000

  /** UNSETFLOAT, which is math.MaxFloat64. */
  const UNSETFLOAT: Float := 0x7FEF_FFFF_FFFF_FFFF
  const ZEROFLOAT: Float := 0

  /** f > 0.0: the sign bit is clear, the value is not zero and not a NaN. */
  predicate Positive(f: Float) { 0 < f <= 0x7FF0_0000_0000_0000 }

  /** strconv's float formatting ('g', 10 digits), parsing, and conversion to int64, of which nothing more is
      assumed than Valid. */
  datatype FloatCodec = FloatCodec(format: Float -> Text, parse: Text -> Option<Float>, truncate: Float -> int64)
  {
    ghost predicate Valid() { forall f: Float :: format(f) != [] && NUL !in format(f) }

    /** Ten digits are enough for this float. */
    predicate Exact(f: Float) { parse(format(f)) == Some(f) }
  }

  // ---------------------------------------------------------------- rendering a field

  datatype Field = FInt(i: int64) | FFloat(f: Float) | FStr(t: Text) | FBool(b: bool)

  function Render(fc: FloatCodec, f: Field): Text {
    match f
    case FInt(i) => FormatInt(i as int)
    case FFloat(x) => fc.format(x)
    case FStr(t) => t
    case FBool(b) => if b then [49] else [48]
  }

  function RenderAll(fc: FloatCodec, fs: seq<Field>): (ts: seq<Text>)
    ensures |ts| == |fs| && forall i :: 0 <= i < |fs| ==> ts[i] == Render(fc, fs[i])
  {
    seq(|fs|, i requires 0 <= i < |fs| => Render(fc, fs[i]))
  }

  /** A string field must not contain the separator; every other kind of field never does. */
  predicate NulFree(fs: seq<Field>) { forall i :: 0 <= i < |fs| && fs[i].FStr? ==> NUL !in fs[i].t }

  lemma RenderedNulFree(fc: FloatCodec, f: Field)
    requires fc.Valid() && NulFree([f])
    ensures NUL !in Render(fc, f)
  {
    if f.FInt? { IntRoundTrip(f.i); }
    assert [f][0] == f;
  }

  // ---------------------------------------------------------------- makeMsgBytes

  function Terminated(ts: seq<Text>): Text { if ts == [] then [] else ts[0] + [NUL] + Terminated(ts[1..]) }

  lemma {:induction false} TerminatedConcat(a: seq<Text>, b: seq<Text>)
    ensures Terminated(a + b) == Terminated(a) + Terminated(b)
  {
    if a == [] {
      assert a + b == b;
    } else {
      assert (a + b)[1..] == a[1..] + b;
      TerminatedConcat(a[1..], b);
    }
  }

  /** The message built so far, one more rendered and terminated field later. */
  lemma OneMoreField(ts: seq<Text>, k: nat)
    requires k < |ts|
    ensures Terminated(ts[..k + 1]) == Terminated(ts[..k]) + (ts[k] + [NUL])
  {
    assert ts[..k + 1] == ts[..k] + [ts[k]];
    TerminatedConcat(ts[..k], [ts[k]]);
    assert Terminated([ts[k]]) == ts[k] + [NUL] + [];
  }

  lemma PastHeader(before: Text, t: Text, msg: Text)
    requires |before| >= 4 && msg == before + t + [NUL]
    ensures msg[4..] == before[4..] + (t + [NUL])
  {
  }

  method MakeMsgBytes(fc: FloatCodec, fields: seq<Field>) returns (msg: Text)
    ensures msg == Framed(Terminated(RenderAll(fc, fields)))
  {
    ghost var ts := RenderAll(fc, fields);
    msg := [0, 0, 0, 0];
    for k := 0 to |fields|
      invariant |msg| >= 4 && msg[4..] == Terminated(ts[..k])
    {
      ghost var before := msg;
      match fields[k] {
        case FInt(i) => msg := msg + FormatInt(i as int);
        case FFloat(x) => msg := msg + fc.format(x);
        case FStr(t) => msg := msg + t;
        case FBool(b) => msg := msg + (if b then [49] else [48]);
      }
      assert msg == before + ts[k];
      msg := msg + [NUL];
      OneMoreField(ts, k);
      PastHeader(before, ts[k], msg);
    }
    assert ts[..|fields|] == ts;
    msg := PutU32(|msg| - 4) + msg[4..];
  }

  // ---------------------------------------------------------------- splitMsgBytes

  function FirstNul(data: Text): (k: nat)
    ensures k <= |data| && (forall j :: 0 <= j < k ==> data[j] != NUL) && (k < |data| ==> data[k] == NUL)
    decreases |data|
  {
    if data == [] || data[0] == NUL then 0 else 1 + FirstNul(data[1..])
  }

  /** bytes.Split at the separator: one piece more than there are separators. */
  function Split(data: Text): (r: seq<Text>)
    ensures r != []
    decreases |data|
  {
    var k := FirstNul(data);
    if k == |data| then [data] else [data[..k]] + Split(data[k + 1..])
  }

  function SplitMsgBytes(data: Text): seq<Text> { Split(data)[..|Split(data)| - 1] }

  lemma FirstNulOf(t: Text, rest: Text)
    requires NUL !in t
    ensures FirstNul(t + [NUL] + rest) == |t|
    ensures (t + [NUL] + rest)[..|t|] == t && (t + [NUL] + rest)[|t| + 1..] == rest
  {
    var d := t + [NUL] + rest;
    assert d[..|t|] == t && d[|t|] == NUL;
    assert forall j :: 0 <= j < |t| ==> d[j] == t[j] && t[j] in t;
  }

  /** Splitting undoes terminating, and an unterminated tail is dropped. */
  lemma {:induction false} SplitTerminated(ts: seq<Text>, tail: Text)
    requires (forall t :: t in ts ==> NUL !in t) && NUL !in tail
    ensures SplitMsgBytes(Terminated(ts) + tail) == ts
  {
    if ts == [] {
      assert Terminated(ts) + tail == tail;
      assert forall j :: 0 <= j < |tail| ==> tail[j] in tail;
    } else {
      var rest := Terminated(ts[1..]) + tail;
      assert Terminated(ts) + tail == ts[0] + [NUL] + rest;
      FirstNulOf(ts[0], rest);
      SplitTerminated(ts[1..], tail);
    }
  }

  /** Any buffer is the fields splitMsgBytes finds, each terminated, and an unterminated tail. */
  lemma {:induction false} SplitRebuilds(data: Text) returns (tail: Text)
    ensures data == Terminated(SplitMsgBytes(data)) + tail && NUL !in tail
    ensures forall t :: t in SplitMsgBytes(data) ==> NUL !in t
    decreases |data|
  {
    hide FirstNul;
    var k := FirstNul(data);
    if k == |data| {
      tail := data;
    } else {
      tail := SplitRebuilds(data[k + 1..]);
      assert SplitMsgBytes(data) == [data[..k]] + SplitMsgBytes(data[k + 1..]);
      assert data == data[..k] + [NUL] + data[k + 1..];
    }
  }

  // ---------------------------------------------------------------- handleEmpty

  function HandleEmptyInt(i: int64): Field { if i as int == UNSETINT then FStr([]) else FStr(FormatInt(i as int)) }

  function HandleEmptyFloat(fc: FloatCodec, f: Float): Field {
    if f == UNSETFLOAT then FStr([]) else FStr(fc.format(f))
  }

  // ---------------------------------------------------------------- what a field's text means to each reader

  function AsInt(t: Text): Result<int64> {
    if t == [] then Success(0)
    else match ParseInt(t) case Some(i) => Success(i as int64) case None => Panic
  }

  function AsIntUnset(t: Text): Result<int64> { if t == [] then Success(UNSETINT as int64) else AsInt(t) }

  function AsFloat(fc: FloatCodec, t: Text): Result<Float> {
    if t == [] then Success(ZEROFLOAT)
    else match fc.parse(t) case Some(f) => Success(f) case None => Panic
  }

  function AsFloatUnset(fc: FloatCodec, t: Text): Result<Float> {
    if t == [] then Success(UNSETFLOAT) else AsFloat(fc, t)
  }

  function AsBool(t: Text): bool { t != [48] && t != [] }

  /** An empty field is zero or false, and no value to the unset-aware readers; a single digit is itself. */
  lemma SmallTexts(fc: FloatCodec, d: byte)
    requires IsDigit(d)
    ensures AsInt([]) == Success(0) && AsIntUnset([]) == Success(0x7FFF_FFFF_FFFF_FFFF)
    ensures AsFloat(fc, []) == Success(0) && AsFloatUnset(fc, []) == Success(UNSETFLOAT) && !AsBool([])
    ensures AsInt([d]) == Success((d - 48) as int64) && (AsBool([d]) <==> d != 48)
  {
    assert DigitsValue([d]) == 10 * DigitsValue([]) + (d - 48) as int;
  }

  /** The unset encoding is faithful on every int64; read without the check it is faithful exactly on the others. */
  lemma UnsetIntRoundTrip(fc: FloatCodec, i: int64)
    ensures AsIntUnset(Render(fc, HandleEmptyInt(i))) == Success(i)
    ensures AsInt(Render(fc, HandleEmptyInt(i))) == Success(i) <==> i as int != UNSETINT
  {
    IntRoundTrip(i);
  }

  /** The same for floats that ten digits describe; UNSETFLOAT itself travels as the empty field. */
  lemma UnsetFloatRoundTrip(fc: FloatCodec, f: Float)
    requires fc.Valid() && (f == UNSETFLOAT || fc.Exact(f))
    ensures AsFloatUnset(fc, Render(fc, HandleEmptyFloat(fc, f))) == Success(f)
    ensures AsFloat(fc, Render(fc, HandleEmptyFloat(fc, f))) == Success(f) <==> f != UNSETFLOAT
  {
  }

  // ---------------------------------------------------------------- MsgBuffer

  lemma NothingTerminated(ts: seq<Text>)
    requires ts == []
    ensures Terminated(ts) == []
  {
  }

  lemma NoField(data: Text)
    requires NUL !in data
    ensures FirstNul(data) == |data|
  {
    assert forall j :: 0 <= j < |data| ==> data[j] in data;
  }

  /** Where the first field of a buffer ends. */
  lemma FrontField(ts: seq<Text>, tail: Text, data: Text)
    requires ts != [] && data == Terminated(ts) + tail && NUL !in ts[0]
    ensures FirstNul(data) == |ts[0]| < |data| && data[..|ts[0]|] == ts[0]
    ensures data[|ts[0]| + 1..] == Terminated(ts[1..]) + tail
  {
    hide FirstNul;
    var rest := Terminated(ts[1..]) + tail;
    assert data == ts[0] + [NUL] + rest;
    FirstNulOf(ts[0], rest);
  }

  /** A cursor over the bytes of one message. `fields` is the whole message split at its separators and `pos` the
      number of fields consumed. A reader that fails has panicked in Go. */
  class MsgBuffer {
    var rest: Text
    var bs: Text
    ghost var fields: seq<Text>
    ghost var pos: nat
    ghost var tail: Text

    ghost predicate Valid()
      reads this
    {
      && pos <= |fields| && (forall t :: t in fields ==> NUL !in t) && NUL !in tail
      && rest == Terminated(fields[pos..]) + tail
    }

    constructor (data: Text)
      ensures Valid() && rest == data && fields == SplitMsgBytes(data) && pos == 0
    {
      rest, bs, fields, pos := data, [], SplitMsgBytes(data), 0;
      ghost var after := SplitRebuilds(data);
      tail := after;
    }

    /** ReadBytes(NUL) and the removal of the NUL; without a separator everything is consumed and an error returned. */
    method NextField() returns (r: Result<Text>)
      requires Valid()
      modifies this
      ensures Valid() && fields == old(fields) && (old(tail) == [] ==> tail == [])
      ensures r == TextAt(fields, old(pos)) && pos == After(fields, old(pos))
    {
      var k := FirstNul(rest);
      hide FirstNul, Terminated;
      if pos < |fields| {
        FrontField(fields[pos..], tail, rest);
        assert fields[pos..][1..] == fields[pos + 1..];
      } else {
        NothingTerminated(fields[pos..]);
        NoField(rest);
      }
      if k == |rest| {
        bs, rest, tail := rest, [], [];
        NothingTerminated(fields[pos..]);
        return Panic;
      }
      bs, rest := rest[..k], rest[k + 1..];
      pos := pos + 1;
      return Success(bs);
    }

    method ReadString() returns (r: Result<Text>)
      requires Valid()
      modifies this
      ensures Valid() && fields == old(fields) && (old(tail) == [] ==> tail == [])
      ensures r == TextAt(fields, old(pos)) && pos == After(fields, old(pos))
    {
      r := NextField();
    }

    method ReadInt() returns (r: Result<int64>)
      requires Valid()
      modifies this
      ensures Valid() && fields == old(fields) && (old(tail) == [] ==> tail == [])
      ensures r == IntAt(fields, old(pos)) && pos == After(fields, old(pos))
    {
      var t :- NextField();
      if t == [] {
        return Success(0);
      }
      return AsInt(t);
    }

    method ReadIntCheckUnset() returns (r: Result<int64>)
      requires Valid()
      modifies this
      ensures Valid() && fields == old(fields) && (old(tail) == [] ==> tail == [])
      ensures r == IntUnsetAt(fields, old(pos)) && pos == After(fields, old(pos))
    {
      var t :- NextField();
      if t == [] {
        return Success(UNSETINT as int64);
      }
      return AsInt(t);
    }

    method ReadFloat(fc: FloatCodec) returns (r: Result<Float>)
      requires Valid()
      modifies this
      ensures Valid() && fields == old(fields) && (old(tail) == [] ==> tail == [])
      ensures r == FloatAt(fc, fields, old(pos)) && pos == After(fields, old(pos))
    {
      var t :- NextField();
      if t == [] {
        return Success(ZEROFLOAT);
      }
      return AsFloat(fc, t);
    }

    method ReadFloatCheckUnset(fc: FloatCodec) returns (r: Result<Float>)
      requires Valid()
      modifies this
      ensures Valid() && fields == old(fields) && (old(tail) == [] ==> tail == [])
      ensures r == FloatUnsetAt(fc, fields, old(pos)) && pos == After(fields, old(pos))
    {
      var t :- NextField();
      if t == [] {
        return Success(UNSETFLOAT);
      }
      return AsFloat(fc, t);
    }

    method ReadBool() returns (r: Result<bool>)
      requires Valid()
      modifies this
      ensures Valid() && fields == old(fields) && (old(tail) == [] ==> tail == [])
      ensures r == BoolAt(fields, old(pos)) && pos == After(fields, old(pos))
    {
      var t :- NextField();
      return Success(!(t == [48] || t == []));
    }
  }

  // what a reader returns at a position of the split message, and where the cursor is afterwards

  function After(ts: seq<Text>, pos: nat): nat { if pos < |ts| then pos + 1 else pos }

  function TextAt(ts: seq<Text>, pos: nat): Result<Text> { if pos < |ts| then Success(ts[pos]) else Panic }

  function IntAt(ts: seq<Text>, pos: nat): Result<int64> { if pos < |ts| then AsInt(ts[pos]) else Panic }

  function IntUnsetAt(ts: seq<Text>, pos: nat): Result<int64> { if pos < |ts| then AsIntUnset(ts[pos]) else Panic }

  function FloatAt(fc: FloatCodec, ts: seq<Text>, pos: nat): Result<Float> {
    if pos < |ts| then AsFloat(fc, ts[pos]) else Panic
  }

  function FloatUnsetAt(fc: FloatCodec, ts: seq<Text>, pos: nat): Result<Float> {
    if pos < |ts| then AsFloatUnset(fc, ts[pos]) else Panic
  }

  function BoolAt(ts: seq<Text>, pos: nat): Result<bool> { if pos < |ts| then Success(AsBool(ts[pos])) else Panic }

  /** Read a message to its end: the cursor sees exactly the fields splitMsgBytes finds, in order, then fails. */
  method DrainFields(data: Text) returns (seen: seq<Text>)
    ensures seen == SplitMsgBytes(data)
  {
    var m := new MsgBuffer(data);
    seen := [];
    var more := true;
    while more
      invariant m.Valid() && m.fields == SplitMsgBytes(data)
      invariant seen == m.fields[..m.pos] && (!more ==> m.pos == |m.fields|)
      decreases more, |m.fields| - m.pos
    {
      var t := m.ReadString();
      if t.Success? {
        seen := seen + [t.value];
      } else {
        more := false;
      }
    }
  }

  /** Does reading f's text back with the reader of its kind give f? */
  predicate ReadsBack(fc: FloatCodec, f: Field, t: Text) {
    match f
    case FInt(i) => AsInt(t) == Success(i)
    case FFloat(x) => AsFloat(fc, t) == Success(x)
    case FStr(s) => t == s
    case FBool(b) => AsBool(t) == b
  }

  /** A message splits into the fields it was made of. */
  lemma SplitsIntoFields(fc: FloatCodec, fs: seq<Field>)
    requires fc.Valid() && NulFree(fs)
    ensures SplitMsgBytes(Terminated(RenderAll(fc, fs))) == RenderAll(fc, fs)
  {
    hide Render, SplitMsgBytes, Terminated;
    var ts := RenderAll(fc, fs);
    forall t | t in ts ensures NUL !in t {
      var i :| 0 <= i < |ts| && ts[i] == t;
      RenderedNulFree(fc, fs[i]);
    }
    SplitTerminated(ts, []);
    assert Terminated(ts) + [] == Terminated(ts);
  }

  /** The round trip of a whole message: its header is the payload's length (up to the 32 bits there are for it), the
      payload splits into the rendered fields, and each is read back as the value written. */
  method MessageRoundTrip(fc: FloatCodec, fs: seq<Field>) returns (msg: Text)
    requires fc.Valid() && NulFree(fs)
    ensures |msg| >= 4 && U32(msg[..4]) == (|msg| - 4) % 0x1_0000_0000
    ensures SplitMsgBytes(msg[4..]) == RenderAll(fc, fs)
    ensures |msg| - 4 < 0x1_0000_0000 ==> Frames(msg) == [msg[4..]]
    ensures forall i :: 0 <= i < |fs| && (fs[i].FFloat? ==> fc.Exact(fs[i].f))
              ==> ReadsBack(fc, fs[i], SplitMsgBytes(msg[4..])[i])
  {
    msg := MakeMsgBytes(fc, fs);
    ghost var ts := RenderAll(fc, fs);
    HeaderValue(|Terminated(ts)|);
    assert msg[..4] == PutU32(|Terminated(ts)|) && msg[4..] == Terminated(ts);
    SplitsIntoFields(fc, fs);
    forall i | 0 <= i < |fs| && (fs[i].FFloat? ==> fc.Exact(fs[i].f)) ensures ReadsBack(fc, fs[i], ts[i]) {
      if fs[i].FInt? { IntRoundTrip(fs[i].i); }
    }
    if |msg| - 4 < 0x1_0000_0000 {
      FramedHead(msg[4..], []);
      assert Framed(msg[4..]) + [] == msg;
      assert Frames([]) == [];
    }
  }
}
