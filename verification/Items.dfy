/** Messages written field by field: an item is a value together with the way it is sent, and hence with the reader that
    its receiver has to use. */
module Items {
  import opened Basics
  import opened Fields
  import opened Cursor

  datatype Item = Str(t: Text) | Int(i: int64) | IntUnset(i: int64) | Num(f: Float) | NumUnset(f: Float) | Flag(b: bool)
  {
    function Sent(fc: FloatCodec): Field {
      match this
      case Str(t) => FStr(t)
      case Int(i) => FInt(i)
      case IntUnset(i) => HandleEmptyInt(i)
      case Num(f) => FFloat(f)
      case NumUnset(f) => HandleEmptyFloat(fc, f)
      case Flag(b) => FBool(b)
    }

    function Kind(): Kind {
      match this
      case Str(_) => KStr
      case Int(_) => KInt
      case IntUnset(_) => KIntUnset
      case Num(_) => KFloat
      case NumUnset(_) => KFloatUnset
      case Flag(_) => KBool
    }

    function Value(): (v: Value)
      ensures Typed(Kind(), v)
    {
      match this
      case Str(t) => VStr(t)
      case Int(i) => VInt(i)
      case IntUnset(i) => VInt(i)
      case Num(f) => VFloat(f)
      case NumUnset(f) => VFloat(f)
      case Flag(b) => VBool(b)
    }

    /** Ten digits describe it; UNSETFLOAT travels only as the empty field. */
    predicate Exact(fc: FloatCodec) {
      match this
      case Num(f) => fc.Exact(f)
      case NumUnset(f) => f == UNSETFLOAT || fc.Exact(f)
      case _ => true
    }
  }

  function Kinds(items: seq<Item>): (ks: seq<Kind>)
    ensures |ks| == |items| && forall i :: 0 <= i < |items| ==> ks[i] == items[i].Kind()
  {
    seq(|items|, i requires 0 <= i < |items| => items[i].Kind())
  }

  function Values(items: seq<Item>): (vs: seq<Value>)
    ensures |vs| == |items| && forall i :: 0 <= i < |items| ==> vs[i] == items[i].Value()
  {
    seq(|items|, i requires 0 <= i < |items| => items[i].Value())
  }

  function Sent(fc: FloatCodec, items: seq<Item>): (fs: seq<Field>)
    ensures |fs| == |items| && forall i :: 0 <= i < |items| ==> fs[i] == items[i].Sent(fc)
  {
    seq(|items|, i requires 0 <= i < |items| => items[i].Sent(fc))
  }

  ghost predicate AllExact(fc: FloatCodec, items: seq<Item>) { forall i :: 0 <= i < |items| ==> items[i].Exact(fc) }

  /** Items as a block of their kinds. */
  lemma ItemsAreBlock(fc: FloatCodec, items: seq<Item>)
    ensures TypedAll(Kinds(items), Values(items))
    ensures WriteBlock(fc, Kinds(items), Values(items)) == Sent(fc, items)
    ensures AllExact(fc, items) ==> SurvivesAll(fc, Kinds(items), Values(items))
  {
    hide HandleEmptyInt, HandleEmptyFloat;
  }

  /** Readers of the items' kinds find the values that were written. */
  lemma ItemsReadBack(fc: FloatCodec, items: seq<Item>, ts: seq<Text>, pos: nat)
    requires fc.Valid() && AllExact(fc, items) && Here(ts, pos, RenderAll(fc, Sent(fc, items)))
    ensures BlockAt(fc, Kinds(items), ts, pos) == Success(At(Values(items), pos + |items|))
  {
    ItemsAreBlock(fc, items);
    BlockReadsBack(fc, Kinds(items), Values(items), ts, pos);
  }

  lemma ItemsConcat(a: seq<Item>, b: seq<Item>)
    ensures Kinds(a + b) == Kinds(a) + Kinds(b) && Values(a + b) == Values(a) + Values(b)
  {
  }

  /** Items that are sent only from some version on, or only if some flag is set. */
  function If(on: bool, items: seq<Item>): (r: seq<Item>)
    ensures Kinds(r) == On(on, Kinds(items)) && |r| == Gate(on, |items|)
  {
    if on then items else []
  }

  // ---------------------------------------------------------------- lists of rows

  function RowValues(rows: seq<seq<Item>>): (vs: seq<seq<Value>>)
    ensures |vs| == |rows| && forall i :: 0 <= i < |rows| ==> vs[i] == Values(rows[i])
  {
    seq(|rows|, i requires 0 <= i < |rows| => Values(rows[i]))
  }

  function RowTexts(fc: FloatCodec, rows: seq<seq<Item>>): (gs: seq<seq<Text>>)
    ensures |gs| == |rows| && forall i :: 0 <= i < |rows| ==> gs[i] == RenderAll(fc, Sent(fc, rows[i]))
  {
    seq(|rows|, i requires 0 <= i < |rows| => RenderAll(fc, Sent(fc, rows[i])))
  }

  /** Rows of the same kinds whose floats ten digits describe. */
  ghost predicate Uniform(fc: FloatCodec, ks: seq<Kind>, rows: seq<seq<Item>>) {
    |rows| <= INT64_MAX && forall i :: 0 <= i < |rows| ==> Kinds(rows[i]) == ks && AllExact(fc, rows[i])
  }

  lemma RowsAreBlocks(fc: FloatCodec, ks: seq<Kind>, rows: seq<seq<Item>>)
    requires Uniform(fc, ks, rows)
    ensures Sound(fc, ks, RowValues(rows)) && BlockTexts(fc, ks, RowValues(rows)) == RowTexts(fc, rows)
  {
    hide WriteBlock, TypedAll, SurvivesAll, AllExact, RenderAll;
    forall i | 0 <= i < |rows|
      ensures TypedAll(ks, RowValues(rows)[i]) && SurvivesAll(fc, ks, RowValues(rows)[i])
      ensures WriteBlock(fc, ks, RowValues(rows)[i]) == Sent(fc, rows[i])
    {
      ItemsAreBlock(fc, rows[i]);
    }
  }

  // ---------------------------------------------------------------- picking values

  // The value read at an index; what was not read keeps Go's zero value.

  function IntOf(vs: seq<Value>, k: nat): int64 { if k < |vs| && vs[k].VInt? then vs[k].i else 0 }

  function TextOf(vs: seq<Value>, k: nat): Text { if k < |vs| && vs[k].VStr? then vs[k].t else [] }

  function FloatOf(vs: seq<Value>, k: nat): Float { if k < |vs| && vs[k].VFloat? then vs[k].f else ZEROFLOAT }

  function BoolOf(vs: seq<Value>, k: nat): bool { k < |vs| && vs[k].VBool? && vs[k].b }

  lemma {:induction false} DecodedEach(fc: FloatCodec, ks: seq<Kind>, ts: seq<Text>)
    requires |ks| == |ts| && DecodeAll(fc, ks, ts).Success?
    ensures forall k :: 0 <= k < |ks| ==> Decode(fc, ks[k], ts[k]) == Success(DecodeAll(fc, ks, ts).value[k])
    decreases |ks|
  {
    if ks != [] {
      hide Decode;
      DecodedEach(fc, ks[1..], ts[1..]);
      var vs := DecodeAll(fc, ks[1..], ts[1..]).value;
      forall k | 0 <= k < |ks| ensures Decode(fc, ks[k], ts[k]) == Success(DecodeAll(fc, ks, ts).value[k]) {
        if k > 0 { assert ks[k] == ks[1..][k - 1] && ts[k] == ts[1..][k - 1]; }
      }
    }
  }

  /** Each value of a block is what the reader of its kind finds at its place. */
  lemma BlockEach(fc: FloatCodec, ks: seq<Kind>, ts: seq<Text>, pos: nat)
    requires BlockAt(fc, ks, ts, pos).Success?
    ensures forall k :: 0 <= k < |ks| ==>
      Decode(fc, ks[k], ts[pos + k]) == Success(BlockAt(fc, ks, ts, pos).value.value[k])
  {
    hide Decode, DecodeAll;
    var run := ts[pos..pos + |ks|];
    DecodedEach(fc, ks, run);
    assert forall k :: 0 <= k < |ks| ==> run[k] == ts[pos + k];
  }

  /** A value of a block of known kind. */
  lemma Picked(fc: FloatCodec, ks: seq<Kind>, ts: seq<Text>, pos: nat, k: nat)
    requires BlockAt(fc, ks, ts, pos).Success? && k < |ks|
    ensures var vs := BlockAt(fc, ks, ts, pos).value.value;
            match ks[k]
            case KStr => TextAt(ts, pos + k) == Success(TextOf(vs, k))
            case KInt => IntAt(ts, pos + k) == Success(IntOf(vs, k))
            case KIntUnset => IntUnsetAt(ts, pos + k) == Success(IntOf(vs, k))
            case KFloat => FloatAt(fc, ts, pos + k) == Success(FloatOf(vs, k))
            case KFloatUnset => FloatUnsetAt(fc, ts, pos + k) == Success(FloatOf(vs, k))
            case KBool => BoolAt(ts, pos + k) == Success(BoolOf(vs, k))
  {
    BlockEach(fc, ks, ts, pos);
    hide BlockAt, AsInt, AsIntUnset, AsFloat, AsFloatUnset, AsBool;
  }

  /** Block number i of a list. */
  lemma {:induction false} BlockNumber(fc: FloatCodec, ks: seq<Kind>, n: nat, vss: seq<seq<Value>>, ts: seq<Text>,
                                       p: nat, end: nat, i: nat)
    requires BlocksAt(fc, ks, n, ts, p) == Success(At(vss, end)) && i < n
    ensures BlockAt(fc, ks, ts, p + i * |ks|) == Success(At(vss[i], p + i * |ks| + |ks|))
    decreases n
  {
    hide BlockAt;
    if i > 0 {
      BlockNumber(fc, ks, n - 1, vss[1..], ts, p + |ks|, end, i - 1);
      assert p + |ks| + (i - 1) * |ks| == p + i * |ks|;
    }
  }
}
