/** Runs, counted groups and typed blocks of fields: what the encoders append and the decoders' loops consume.
    A position in the list of fields stands for the message buffer's cursor. */
module Cursor {
  import opened Basics
  import opened Fields

  datatype At<+T> = At(value: T, next: nat)

  /** The fields `part` stand at position pos of ts. */
  predicate Here(ts: seq<Text>, pos: nat, part: seq<Text>) {
    pos + |part| <= |ts| && ts[pos..pos + |part|] == part
  }

  lemma HereSplit(ts: seq<Text>, pos: nat, a: seq<Text>, b: seq<Text>)
    ensures Here(ts, pos, a + b) <==> Here(ts, pos, a) && Here(ts, pos + |a|, b)
  {
    if Here(ts, pos, a + b) {
      assert ts[pos..pos + |a|] == ts[pos..pos + |a + b|][..|a|] == (a + b)[..|a|];
      assert ts[pos + |a|..pos + |a| + |b|] == ts[pos..pos + |a + b|][|a|..] == (a + b)[|a|..];
    }
    if Here(ts, pos, a) && Here(ts, pos + |a|, b) {
      assert ts[pos..pos + |a + b|] == ts[pos..pos + |a|] + ts[pos + |a|..pos + |a| + |b|];
    }
  }

  // ---------------------------------------------------------------- runs and counted groups of raw fields

  function TakeAt(n: nat, ts: seq<Text>, pos: nat): Result<At<seq<Text>>> {
    if pos + n <= |ts| then Success(At(ts[pos..pos + n], pos + n)) else Panic
  }

  /** n groups of `size` fields each. */
  function GroupsAt(size: nat, n: nat, ts: seq<Text>, pos: nat): (r: Result<At<seq<seq<Text>>>>)
    ensures r.Success? ==> |r.value.value| == n
    ensures r.Success? ==> forall i :: 0 <= i < n ==> |r.value.value[i]| == size
  {
    if n == 0 then Success(At([], pos))
    else
      var first :- TakeAt(size, ts, pos);
      var others :- GroupsAt(size, n - 1, ts, first.next);
      Success(At([first.value] + others.value, others.next))
  }

  /** The count of a list whose storage Go allocates before reading it: a negative capacity panics. */
  function CountAt(ts: seq<Text>, pos: nat): Result<At<nat>> {
    var n :- IntAt(ts, pos);
    if n < 0 then Panic else Success(At(n as nat, pos + 1))
  }

  /** A count field and that many groups. */
  function ListAt(size: nat, ts: seq<Text>, pos: nat): Result<At<seq<seq<Text>>>> {
    var n :- CountAt(ts, pos);
    GroupsAt(size, n.value, ts, n.next)
  }

  lemma TakeHere(part: seq<Text>, ts: seq<Text>, pos: nat)
    requires Here(ts, pos, part)
    ensures TakeAt(|part|, ts, pos) == Success(At(part, pos + |part|))
  {
  }

  lemma GroupsCons(size: nat, first: seq<Text>, others: seq<seq<Text>>, ts: seq<Text>, pos: nat, next: nat)
    requires TakeAt(size, ts, pos) == Success(At(first, pos + size))
    requires GroupsAt(size, |others|, ts, pos + size) == Success(At(others, next))
    ensures GroupsAt(size, |others| + 1, ts, pos) == Success(At([first] + others, next))
  {
  }

  lemma {:induction false} GroupsHere(size: nat, gs: seq<seq<Text>>, ts: seq<Text>, pos: nat)
    requires (forall i :: 0 <= i < |gs| ==> |gs[i]| == size) && Here(ts, pos, Flatten(gs))
    ensures GroupsAt(size, |gs|, ts, pos) == Success(At(gs, pos + |Flatten(gs)|))
    decreases |gs|
  {
    if gs != [] {
      var first, others := gs[0], gs[1..];
      var next := pos + |Flatten(gs)|;
      assert TakeAt(size, ts, pos) == Success(At(first, pos + size)) by {
        HereSplit(ts, pos, first, Flatten(others));
        TakeHere(first, ts, pos);
      }
      assert GroupsAt(size, |others|, ts, pos + size) == Success(At(others, next)) by {
        HereSplit(ts, pos, first, Flatten(others));
        GroupsHere(size, others, ts, pos + size);
      }
      GroupsCons(size, first, others, ts, pos, next);
      assert [first] + others == gs;
    }
  }

  /** What the encoder writes for a list: its length, then its items. */
  function Listed(gs: seq<seq<Text>>): seq<Text> { [FormatInt(|gs|)] + Flatten(gs) }

  lemma CountHere(n: nat, ts: seq<Text>, pos: nat)
    requires n <= INT64_MAX && pos < |ts| && ts[pos] == FormatInt(n)
    ensures CountAt(ts, pos) == Success(At(n, pos + 1))
  {
    IntRoundTrip(n as int64);
  }

  /** Reading a list the encoder wrote gives its items back and stops right behind them. */
  lemma ListHere(size: nat, gs: seq<seq<Text>>, ts: seq<Text>, pos: nat)
    requires (forall i :: 0 <= i < |gs| ==> |gs[i]| == size) && |gs| <= INT64_MAX && Here(ts, pos, Listed(gs))
    ensures ListAt(size, ts, pos) == Success(At(gs, pos + |Listed(gs)|))
  {
    HereSplit(ts, pos, [FormatInt(|gs|)], Flatten(gs));
    CountHere(|gs|, ts, pos);
    GroupsHere(size, gs, ts, pos + 1);
  }

  // ---------------------------------------------------------------- more fields never change what was read

  lemma TakeStable(n: nat, ts: seq<Text>, more: seq<Text>, pos: nat)
    requires TakeAt(n, ts, pos).Success?
    ensures TakeAt(n, ts + more, pos) == TakeAt(n, ts, pos)
  {
    assert (ts + more)[pos..pos + n] == ts[pos..pos + n];
  }

  lemma {:induction false} GroupsStable(size: nat, n: nat, ts: seq<Text>, more: seq<Text>, pos: nat)
    requires GroupsAt(size, n, ts, pos).Success?
    ensures GroupsAt(size, n, ts + more, pos) == GroupsAt(size, n, ts, pos)
    decreases n
  {
    if n > 0 {
      TakeStable(size, ts, more, pos);
      GroupsStable(size, n - 1, ts, more, pos + size);
    }
  }

  // ---------------------------------------------------------------- typed blocks

  /** Which reader a decoder uses for a field; the encoder's counterpart is WriteAs. */
  datatype Kind = KStr | KInt | KIntUnset | KFloat | KFloatUnset | KBool

  datatype Value = VStr(t: Text) | VInt(i: int64) | VFloat(f: Float) | VBool(b: bool)

  /** Reads that happen only from some version on, or only if some flag is set. */
  function On(on: bool, ks: seq<Kind>): (r: seq<Kind>)
    ensures |r| == Gate(on, |ks|)
  {
    if on then ks else []
  }

  function Decode(fc: FloatCodec, k: Kind, t: Text): Result<Value> {
    match k
    case KStr => Success(VStr(t))
    case KInt => (var i :- AsInt(t); Success(VInt(i)))
    case KIntUnset => (var i :- AsIntUnset(t); Success(VInt(i)))
    case KFloat => (var f :- AsFloat(fc, t); Success(VFloat(f)))
    case KFloatUnset => (var f :- AsFloatUnset(fc, t); Success(VFloat(f)))
    case KBool => Success(VBool(AsBool(t)))
  }

  function DecodeAll(fc: FloatCodec, ks: seq<Kind>, ts: seq<Text>): (r: Result<seq<Value>>)
    requires |ks| == |ts|
    ensures r.Success? ==> |r.value| == |ks|
  {
    if ks == [] then Success([])
    else
      var v :- Decode(fc, ks[0], ts[0]);
      var vs :- DecodeAll(fc, ks[1..], ts[1..]);
      Success([v] + vs)
  }

  /** A run of reads, one per kind. */
  function BlockAt(fc: FloatCodec, ks: seq<Kind>, ts: seq<Text>, pos: nat): (r: Result<At<seq<Value>>>)
    ensures r.Success? ==> r.value.next == pos + |ks| <= |ts| && |r.value.value| == |ks|
  {
    var run :- TakeAt(|ks|, ts, pos);
    var vs :- DecodeAll(fc, ks, run.value);
    Success(At(vs, run.next))
  }

  /** n such runs. */
  function BlocksAt(fc: FloatCodec, ks: seq<Kind>, n: nat, ts: seq<Text>, pos: nat): (r: Result<At<seq<seq<Value>>>>)
    ensures r.Success? ==> r.value.next == pos + n * |ks| && |r.value.value| == n
    ensures r.Success? ==> forall i :: 0 <= i < n ==> |r.value.value[i]| == |ks|
    decreases n
  {
    if n == 0 then Success(At([], pos))
    else
      var first :- BlockAt(fc, ks, ts, pos);
      var others :- BlocksAt(fc, ks, n - 1, ts, first.next);
      Success(At([first.value] + others.value, others.next))
  }

  function CountedAt(fc: FloatCodec, ks: seq<Kind>, ts: seq<Text>, pos: nat): (r: Result<At<seq<seq<Value>>>>)
    ensures r.Success? ==> r.value.next == pos + 1 + |r.value.value| * |ks|
  {
    var n :- CountAt(ts, pos);
    BlocksAt(fc, ks, n.value, ts, n.next)
  }

  lemma BlockStable(fc: FloatCodec, ks: seq<Kind>, ts: seq<Text>, more: seq<Text>, pos: nat)
    requires BlockAt(fc, ks, ts, pos).Success?
    ensures BlockAt(fc, ks, ts + more, pos) == BlockAt(fc, ks, ts, pos)
  {
    TakeStable(|ks|, ts, more, pos);
  }

  lemma {:induction false} BlocksStable(fc: FloatCodec, ks: seq<Kind>, n: nat, ts: seq<Text>, more: seq<Text>, pos: nat)
    requires BlocksAt(fc, ks, n, ts, pos).Success?
    ensures BlocksAt(fc, ks, n, ts + more, pos) == BlocksAt(fc, ks, n, ts, pos)
    decreases n
  {
    if n > 0 {
      BlockStable(fc, ks, ts, more, pos);
      BlocksStable(fc, ks, n - 1, ts, more, pos + |ks|);
    }
  }

  lemma CountedStable(fc: FloatCodec, ks: seq<Kind>, ts: seq<Text>, more: seq<Text>, pos: nat)
    requires CountedAt(fc, ks, ts, pos).Success?
    ensures CountedAt(fc, ks, ts + more, pos) == CountedAt(fc, ks, ts, pos)
  {
    BlocksStable(fc, ks, CountAt(ts, pos).value.value, ts, more, pos + 1);
  }

  // ---------------------------------------------------------------- writing a typed block

  predicate Typed(k: Kind, v: Value) {
    match k
    case KStr => v.VStr?
    case KBool => v.VBool?
    case KInt => v.VInt?
    case KIntUnset => v.VInt?
    case _ => v.VFloat?
  }

  predicate TypedAll(ks: seq<Kind>, vs: seq<Value>) {
    |ks| == |vs| && forall i :: 0 <= i < |ks| ==> Typed(ks[i], vs[i])
  }

  /** The field an encoder appends for a value: raw, or through handleEmpty for the unset-aware kinds. */
  function WriteAs(fc: FloatCodec, k: Kind, v: Value): Field
    requires Typed(k, v)
  {
    match k
    case KStr => FStr(v.t)
    case KBool => FBool(v.b)
    case KInt => FInt(v.i)
    case KIntUnset => HandleEmptyInt(v.i)
    case KFloat => FFloat(v.f)
    case KFloatUnset => HandleEmptyFloat(fc, v.f)
  }

  function WriteBlock(fc: FloatCodec, ks: seq<Kind>, vs: seq<Value>): (fs: seq<Field>)
    requires TypedAll(ks, vs)
    ensures |fs| == |ks|
  {
    seq(|ks|, i requires 0 <= i < |ks| => WriteAs(fc, ks[i], vs[i]))
  }

  /** Floats must survive ten-digit printing; UNSETFLOAT does only where handleEmpty is used. */
  predicate Survives(fc: FloatCodec, k: Kind, v: Value)
    requires Typed(k, v)
  {
    match k
    case KFloat => fc.Exact(v.f)
    case KFloatUnset => v.f == UNSETFLOAT || fc.Exact(v.f)
    case _ => true
  }

  predicate SurvivesAll(fc: FloatCodec, ks: seq<Kind>, vs: seq<Value>)
    requires TypedAll(ks, vs)
  {
    forall i :: 0 <= i < |ks| ==> Survives(fc, ks[i], vs[i])
  }

  lemma FieldReadsBack(fc: FloatCodec, k: Kind, v: Value)
    requires fc.Valid() && Typed(k, v) && Survives(fc, k, v)
    ensures Decode(fc, k, Render(fc, WriteAs(fc, k, v))) == Success(v)
  {
    match k
    case KInt => IntRoundTrip(v.i);
    case KIntUnset => UnsetIntRoundTrip(fc, v.i);
    case KFloatUnset => UnsetFloatRoundTrip(fc, v.f);
    case _ =>
  }

  lemma {:induction false} DecodesBack(fc: FloatCodec, ks: seq<Kind>, vs: seq<Value>)
    requires fc.Valid() && TypedAll(ks, vs) && SurvivesAll(fc, ks, vs)
    ensures DecodeAll(fc, ks, RenderAll(fc, WriteBlock(fc, ks, vs))) == Success(vs)
    decreases |ks|
  {
    if ks != [] {
      var ts := RenderAll(fc, WriteBlock(fc, ks, vs));
      FieldReadsBack(fc, ks[0], vs[0]);
      DecodesBack(fc, ks[1..], vs[1..]);
      assert ts[1..] == RenderAll(fc, WriteBlock(fc, ks[1..], vs[1..]));
      assert vs == [vs[0]] + vs[1..];
    }
  }

  /** A block that was written is read back equal by the readers of its kinds. */
  lemma BlockReadsBack(fc: FloatCodec, ks: seq<Kind>, vs: seq<Value>, ts: seq<Text>, pos: nat)
    requires fc.Valid() && TypedAll(ks, vs) && SurvivesAll(fc, ks, vs)
    requires Here(ts, pos, RenderAll(fc, WriteBlock(fc, ks, vs)))
    ensures BlockAt(fc, ks, ts, pos) == Success(At(vs, pos + |ks|))
  {
    DecodesBack(fc, ks, vs);
  }

  /** The texts of a list of blocks. */
  function BlockTexts(fc: FloatCodec, ks: seq<Kind>, blocks: seq<seq<Value>>): (gs: seq<seq<Text>>)
    requires forall i :: 0 <= i < |blocks| ==> TypedAll(ks, blocks[i])
    ensures |gs| == |blocks| && forall i :: 0 <= i < |gs| ==> gs[i] == RenderAll(fc, WriteBlock(fc, ks, blocks[i]))
  {
    seq(|blocks|, i requires 0 <= i < |blocks| => RenderAll(fc, WriteBlock(fc, ks, blocks[i])))
  }

  lemma BlocksCons(fc: FloatCodec, ks: seq<Kind>, first: seq<Value>, others: seq<seq<Value>>, ts: seq<Text>, pos: nat,
                   next: nat)
    requires BlockAt(fc, ks, ts, pos) == Success(At(first, pos + |ks|))
    requires BlocksAt(fc, ks, |others|, ts, pos + |ks|) == Success(At(others, next))
    ensures BlocksAt(fc, ks, |others| + 1, ts, pos) == Success(At([first] + others, next))
  {
    hide BlockAt;
  }

  ghost predicate Sound(fc: FloatCodec, ks: seq<Kind>, blocks: seq<seq<Value>>) {
    forall i :: 0 <= i < |blocks| ==> TypedAll(ks, blocks[i]) && SurvivesAll(fc, ks, blocks[i])
  }

  lemma {:induction false} BlocksReadBack(fc: FloatCodec, ks: seq<Kind>, blocks: seq<seq<Value>>, ts: seq<Text>,
                                          pos: nat)
    requires fc.Valid() && Sound(fc, ks, blocks)
    requires Here(ts, pos, Flatten(BlockTexts(fc, ks, blocks)))
    ensures BlocksAt(fc, ks, |blocks|, ts, pos)
            == Success(At(blocks, pos + |Flatten(BlockTexts(fc, ks, blocks))|))
    decreases |blocks|
  {
    hide Here, BlockTexts, Flatten, BlockAt, BlocksAt, TypedAll, SurvivesAll;
    if blocks == [] {
      NoBlocks(fc, ks, blocks, ts, pos);
    } else {
      BlocksSplit(fc, ks, blocks, ts, pos);
      BlocksReadBack(fc, ks, blocks[1..], ts, pos + |ks|);
      BlocksCons(fc, ks, blocks[0], blocks[1..], ts, pos, pos + |Flatten(BlockTexts(fc, ks, blocks))|);
      assert [blocks[0]] + blocks[1..] == blocks;
    }
  }

  lemma NoBlocks(fc: FloatCodec, ks: seq<Kind>, blocks: seq<seq<Value>>, ts: seq<Text>, pos: nat)
    requires blocks == []
    ensures BlocksAt(fc, ks, 0, ts, pos) == Success(At(blocks, pos + |Flatten(BlockTexts(fc, ks, blocks))|))
  {
  }

  /** The first block is read back, and the others stand behind it. */
  lemma BlocksSplit(fc: FloatCodec, ks: seq<Kind>, blocks: seq<seq<Value>>, ts: seq<Text>, pos: nat)
    requires fc.Valid() && blocks != [] && Sound(fc, ks, blocks)
    requires Here(ts, pos, Flatten(BlockTexts(fc, ks, blocks)))
    ensures Sound(fc, ks, blocks[1..]) && Here(ts, pos + |ks|, Flatten(BlockTexts(fc, ks, blocks[1..])))
    ensures |Flatten(BlockTexts(fc, ks, blocks))| == |ks| + |Flatten(BlockTexts(fc, ks, blocks[1..]))|
    ensures BlockAt(fc, ks, ts, pos) == Success(At(blocks[0], pos + |ks|))
  {
    var first := RenderAll(fc, WriteBlock(fc, ks, blocks[0]));
    hide Here, BlockTexts, RenderAll, WriteBlock, TypedAll, SurvivesAll, BlockAt;
    BlockTextsCons(fc, ks, blocks);
    HereSplit(ts, pos, first, Flatten(BlockTexts(fc, ks, blocks[1..])));
    BlockReadsBack(fc, ks, blocks[0], ts, pos);
  }

  lemma BlockTextsCons(fc: FloatCodec, ks: seq<Kind>, blocks: seq<seq<Value>>)
    requires blocks != [] && forall i :: 0 <= i < |blocks| ==> TypedAll(ks, blocks[i])
    ensures BlockTexts(fc, ks, blocks)
            == [RenderAll(fc, WriteBlock(fc, ks, blocks[0]))] + BlockTexts(fc, ks, blocks[1..])
  {
    hide RenderAll, WriteBlock, TypedAll;
  }

  /** Any number of items, count included, and the cursor exactly at their end. */
  lemma CountedReadsBack(fc: FloatCodec, ks: seq<Kind>, blocks: seq<seq<Value>>, ts: seq<Text>, pos: nat)
    requires fc.Valid() && Sound(fc, ks, blocks)
    requires |blocks| <= INT64_MAX && Here(ts, pos, Listed(BlockTexts(fc, ks, blocks)))
    ensures CountedAt(fc, ks, ts, pos) == Success(At(blocks, pos + |Listed(BlockTexts(fc, ks, blocks))|))
  {
    var gs := BlockTexts(fc, ks, blocks);
    HereSplit(ts, pos, [FormatInt(|gs|)], Flatten(gs));
    CountHere(|gs|, ts, pos);
    BlocksReadBack(fc, ks, blocks, ts, pos + 1);
  }

  // ---------------------------------------------------------------- the decoders' loops

  method ReadValue(fc: FloatCodec, m: MsgBuffer, k: Kind) returns (r: Result<Value>)
    requires m.Valid()
    modifies m
    ensures m.Valid() && m.fields == old(m.fields) && (old(m.tail) == [] ==> m.tail == [])
    ensures r == (if old(m.pos) < |m.fields| then Decode(fc, k, m.fields[old(m.pos)]) else Panic)
    ensures r.Success? ==> m.pos == old(m.pos) + 1
  {
    match k
    case KStr => var t :- m.ReadString(); return Success(VStr(t));
    case KInt => var i :- m.ReadInt(); return Success(VInt(i));
    case KIntUnset => var i :- m.ReadIntCheckUnset(); return Success(VInt(i));
    case KFloat => var f :- m.ReadFloat(fc); return Success(VFloat(f));
    case KFloatUnset => var f :- m.ReadFloatCheckUnset(fc); return Success(VFloat(f));
    case KBool => var b :- m.ReadBool(); return Success(VBool(b));
  }

  /** A straight run of readX calls. */
  method ReadBlock(fc: FloatCodec, m: MsgBuffer, ks: seq<Kind>) returns (r: Result<seq<Value>>)
    requires m.Valid()
    modifies m
    ensures m.Valid() && m.fields == old(m.fields) && (old(m.tail) == [] ==> m.tail == [])
    ensures var spec := BlockAt(fc, ks, m.fields, old(m.pos));
            if spec.Success? then r == Success(spec.value.value) && m.pos == spec.value.next else r.Panic?
  {
    var vs: seq<Value> := [];
    NothingRead(fc, ks, m.fields, m.pos);
    for i := 0 to |ks|
      invariant m.Valid() && m.fields == old(m.fields) && (old(m.tail) == [] ==> m.tail == [])
      invariant m.pos == old(m.pos) + i && |vs| == i
      invariant Prefixed(fc, ks, m.fields, old(m.pos), vs)
    {
      var v := ReadValue(fc, m, ks[i]);
      NextRead(fc, ks, m.fields, old(m.pos), vs);
      if v.Panic? {
        return Panic;
      }
      vs := vs + [v.value];
    }
    assert ks[|ks|..] == [];
    assert vs + [] == vs;
    return Success(vs);
  }

  /** vs are the first reads of a block: the whole block is vs and the block of the remaining kinds. */
  predicate Prefixed(fc: FloatCodec, ks: seq<Kind>, ts: seq<Text>, pos: nat, vs: seq<Value>) {
    && |vs| <= |ks| && pos + |vs| <= |ts|
    && var rest := BlockAt(fc, ks[|vs|..], ts, pos + |vs|);
       BlockAt(fc, ks, ts, pos)
           == (if rest.Success? then Success(At(vs + rest.value.value, rest.value.next)) else Panic)
  }

  lemma NothingRead(fc: FloatCodec, ks: seq<Kind>, ts: seq<Text>, pos: nat)
    requires pos <= |ts|
    ensures Prefixed(fc, ks, ts, pos, [])
  {
    assert ks[0..] == ks;
    var whole := BlockAt(fc, ks, ts, pos);
    if whole.Success? {
      assert [] + whole.value.value == whole.value.value;
    }
  }

  /** A block is its first read and the block of the others. */
  lemma FirstRead(fc: FloatCodec, ks: seq<Kind>, ts: seq<Text>, pos: nat)
    requires ks != []
    ensures BlockAt(fc, ks, ts, pos)
            == (if pos < |ts| && Decode(fc, ks[0], ts[pos]).Success? && BlockAt(fc, ks[1..], ts, pos + 1).Success?
                then Success(At([Decode(fc, ks[0], ts[pos]).value] + BlockAt(fc, ks[1..], ts, pos + 1).value.value,
                                pos + |ks|))
                else Panic)
  {
    hide Decode;
    if pos + |ks| <= |ts| {
      var run := ts[pos..pos + |ks|];
      assert run[0] == ts[pos] && run[1..] == ts[pos + 1..pos + |ks|];
    }
  }

  lemma NextRead(fc: FloatCodec, ks: seq<Kind>, ts: seq<Text>, pos: nat, vs: seq<Value>)
    requires |vs| < |ks| && Prefixed(fc, ks, ts, pos, vs)
    ensures var at := pos + |vs|;
            if at < |ts| && Decode(fc, ks[|vs|], ts[at]).Success?
            then Prefixed(fc, ks, ts, pos, vs + [Decode(fc, ks[|vs|], ts[at]).value])
            else BlockAt(fc, ks, ts, pos).Panic?
  {
    hide BlockAt, Decode;
    var at := pos + |vs|;
    var left := ks[|vs|..];
    assert left[0] == ks[|vs|] && left[1..] == ks[|vs| + 1..];
    FirstRead(fc, left, ts, at);
    if at < |ts| && Decode(fc, left[0], ts[at]).Success? && BlockAt(fc, left[1..], ts, at + 1).Success? {
      var v, others := Decode(fc, left[0], ts[at]).value, BlockAt(fc, left[1..], ts, at + 1).value.value;
      assert vs + ([v] + others) == (vs + [v]) + others;
    }
  }

  /** `n := readInt(); make(..., 0, n); for ; n > 0; n-- { ... }` over items of fixed shape. */
  method ReadCounted(fc: FloatCodec, m: MsgBuffer, ks: seq<Kind>) returns (r: Result<seq<seq<Value>>>)
    requires m.Valid()
    modifies m
    ensures m.Valid() && m.fields == old(m.fields) && (old(m.tail) == [] ==> m.tail == [])
    ensures var spec := CountedAt(fc, ks, m.fields, old(m.pos));
            if spec.Success? then r == Success(spec.value.value) && m.pos == spec.value.next else r.Panic?
  {
    hide BlockAt, BlocksAt;
    var n :- m.ReadInt();
    if n < 0 {
      return Panic;
    }
    ghost var whole := BlocksAt(fc, ks, n as nat, m.fields, m.pos);
    var items: seq<seq<Value>> := [];
    if whole.Success? {
      assert items + whole.value.value == whole.value.value;
    }
    while n > 0
      invariant m.Valid() && m.fields == old(m.fields) && (old(m.tail) == [] ==> m.tail == [])
      invariant 0 <= n
      invariant whole == Behind(items, BlocksAt(fc, ks, n as nat, m.fields, m.pos))
    {
      ghost var at := m.pos;
      var item := ReadBlock(fc, m, ks);
      ItemRead(fc, ks, n as nat, m.fields, at, items);
      if item.Panic? {
        return Panic;
      }
      items := items + [item.value];
      n := n - 1;
    }
    NoItems(fc, ks, m.fields, m.pos);
    assert items + [] == items;
    return Success(items);
  }

  lemma NoItems(fc: FloatCodec, ks: seq<Kind>, ts: seq<Text>, pos: nat)
    ensures BlocksAt(fc, ks, 0, ts, pos) == Success(At([], pos))
  {
  }

  lemma ItemRead(fc: FloatCodec, ks: seq<Kind>, n: nat, ts: seq<Text>, pos: nat, items: seq<seq<Value>>)
    requires n > 0
    ensures var item := BlockAt(fc, ks, ts, pos);
            Behind(items, BlocksAt(fc, ks, n, ts, pos))
            == (if item.Success? then Behind(items + [item.value.value], BlocksAt(fc, ks, n - 1, ts, item.value.next))
              else Panic)
  {
    var item := BlockAt(fc, ks, ts, pos);
    if item.Success? {
      var left := BlocksAt(fc, ks, n - 1, ts, item.value.next);
      if left.Success? {
        assert items + ([item.value.value] + left.value.value) == (items + [item.value.value]) + left.value.value;
      }
    }
  }

  /** The items read so far, put before what is still to be read. */
  function Behind<T>(items: seq<T>, rest: Result<At<seq<T>>>): Result<At<seq<T>>> {
    if rest.Success? then Success(At(items + rest.value.value, rest.value.next)) else Panic
  }

  lemma NothingBehind<T>(whole: Result<At<seq<T>>>)
    ensures Behind([], whole) == whole
  {
    if whole.Success? {
      assert [] + whole.value.value == whole.value.value;
    }
  }

  lemma NothingLeftOver(ts: seq<Text>, tail: Text, data: Text)
    requires data == Terminated(ts) && data == Terminated(ts) + tail
    ensures tail == []
  {
  }

  /** A whole message, written and read: the readers return the values written, and the buffer is empty afterwards. */
  method WriteThenRead(fc: FloatCodec, ks: seq<Kind>, vs: seq<Value>) returns (got: Result<seq<Value>>, left: Text)
    requires fc.Valid() && TypedAll(ks, vs) && SurvivesAll(fc, ks, vs) && NulFree(WriteBlock(fc, ks, vs))
    ensures got == Success(vs) && left == []
  {
    ghost var ts := RenderAll(fc, WriteBlock(fc, ks, vs));
    SplitsIntoFields(fc, WriteBlock(fc, ks, vs));
    hide RenderAll, WriteBlock, SplitMsgBytes, TypedAll, SurvivesAll, BlockAt;
    var msg := MakeMsgBytes(fc, WriteBlock(fc, ks, vs));
    assert msg[4..] == Terminated(ts);
    var m := new MsgBuffer(msg[4..]);
    assert m.fields[0..] == ts;
    NothingLeftOver(ts, m.tail, msg[4..]);
    BlockReadsBack(fc, ks, vs, ts, 0);
    got := ReadBlock(fc, m, ks);
    left := m.rest;
  }

  // ---------------------------------------------------------------- runs with gates

  lemma {:induction false} DecodeAppend(fc: FloatCodec, a: seq<Kind>, b: seq<Kind>, ts: seq<Text>, us: seq<Text>)
    requires |a| == |ts| && |b| == |us|
    ensures var x, y := DecodeAll(fc, a, ts), DecodeAll(fc, b, us);
            DecodeAll(fc, a + b, ts + us) == if x.Success? && y.Success? then Success(x.value + y.value) else Panic
  {
    if a == [] {
      assert a + b == b && ts + us == us;
      var y := DecodeAll(fc, b, us);
      assert y.Success? ==> [] + y.value == y.value;
    } else {
      assert (a + b)[1..] == a[1..] + b && (ts + us)[1..] == ts[1..] + us;
      DecodeAppend(fc, a[1..], b, ts[1..], us);
      var x, y := DecodeAll(fc, a[1..], ts[1..]), DecodeAll(fc, b, us);
      if Decode(fc, a[0], ts[0]).Success? && x.Success? && y.Success? {
        var v := Decode(fc, a[0], ts[0]).value;
        assert [v] + (x.value + y.value) == ([v] + x.value) + y.value;
      }
    }
  }

  /** A run is its front and what follows it. */
  lemma BlockAppend(fc: FloatCodec, a: seq<Kind>, b: seq<Kind>, ts: seq<Text>, pos: nat)
    ensures var x := BlockAt(fc, a, ts, pos);
            BlockAt(fc, a + b, ts, pos) == if x.Success? then Behind(x.value.value, BlockAt(fc, b, ts, x.value.next))
                else Panic
  {
    var p, q := pos + |a|, pos + |a| + |b|;
    if q <= |ts| {
      hide DecodeAll;
      DecodeAppend(fc, a, b, ts[pos..p], ts[p..q]);
      assert ts[pos..q] == ts[pos..p] + ts[p..q];
    }
  }

  lemma BehindBehind<T>(a: seq<T>, b: seq<T>, rest: Result<At<seq<T>>>)
    ensures Behind(a, Behind(b, rest)) == Behind(a + b, rest)
  {
    if rest.Success? {
      assert a + (b + rest.value.value) == (a + b) + rest.value.value;
    }
  }

  /** The next reads of a run of which vs has been read and `part + rest` is still to be read. */
  method ReadPart(fc: FloatCodec, m: MsgBuffer, vs: seq<Value>, part: seq<Kind>, ghost rest: seq<Kind>,
                  ghost whole: Result<At<seq<Value>>>) returns (r: Result<seq<Value>>)
    requires m.Valid() && whole == Behind(vs, BlockAt(fc, part + rest, m.fields, m.pos))
    modifies m
    ensures m.Valid() && m.fields == old(m.fields) && (old(m.tail) == [] ==> m.tail == [])
    ensures r.Success? ==> whole == Behind(r.value, BlockAt(fc, rest, m.fields, m.pos))
    ensures r.Panic? ==> whole.Panic?
  {
    BlockAppend(fc, part, rest, m.fields, m.pos);
    hide BlockAt;
    ghost var at := m.pos;
    var read :- ReadBlock(fc, m, part);
    BehindBehind(vs, read, BlockAt(fc, rest, m.fields, m.pos));
    return Success(vs + read);
  }

  /** Nothing is left to read. */
  lemma RunEnds(fc: FloatCodec, vs: seq<Value>, ts: seq<Text>, pos: nat)
    requires pos <= |ts|
    ensures Behind(vs, BlockAt(fc, [], ts, pos)) == Success(At(vs, pos))
  {
    assert vs + [] == vs;
  }
}
