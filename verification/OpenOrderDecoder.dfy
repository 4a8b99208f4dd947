/** decoder.go, processOpenOrder: the decoder itself, reading from a message buffer gate by gate and loop by loop,
    proved to read what OpenOrderAt says. */
module OpenOrderDecoder {
  import opened Basics
  import opened Fields
  import opened Cursor
  import opened Conditions
  import opened OrderLayout
  import opened Orders
  import opened OpenOrder
  import opened OpenOrderSheet
  import opened Versions

  method ReadVersion(dv: int, m: MsgBuffer) returns (r: Result<int>)
    requires m.Valid()
    modifies m
    ensures m.Valid() && m.fields == old(m.fields) && (old(m.tail) == [] ==> m.tail == [])
    ensures var spec := VersionAt(dv, m.fields, old(m.pos));
            if spec.Success? then r == Success(spec.value.value) && m.pos == spec.value.next else r.Panic?
  {
    if dv < ORDER_CONTAINER {
      var version :- m.ReadInt();
      return Success(version as int);
    } else {
      return Success(dv);
    }
  }

  method ReadTerms(fc: FloatCodec, dv: int, version: int, m: MsgBuffer) returns (r: Result<seq<Value>>)
    requires m.Valid()
    modifies m
    ensures m.Valid() && m.fields == old(m.fields) && (old(m.tail) == [] ==> m.tail == [])
    ensures var spec := BlockAt(fc, TermKinds(dv, version), m.fields, old(m.pos));
            if spec.Success? then r == Success(spec.value.value) && m.pos == spec.value.next else r.Panic?
  {
    ghost var whole := BlockAt(fc, TermKinds(dv, version), m.fields, m.pos);
    ghost var k5: seq<Kind> := [];
    ghost var k4 := [KStr, QuantityKind(dv)] + k5;
    ghost var k3 := On(version >= 32, [KStr]) + k4;
    ghost var k2 := VENUE_READS + k3;
    ghost var k1 := On(version >= 32, [KStr]) + k2;
    assert IDENTITY_READS + k1 == TermKinds(dv, version);
    NothingBehind(whole);
    hide BlockAt, Behind;
    var vs: seq<Value> := [];
    vs :- ReadPart(fc, m, vs, IDENTITY_READS, k1, whole);
    if version >= 32 {
      vs :- ReadPart(fc, m, vs, [KStr], k2, whole);
    } else {
      assert [] + k2 == k2;
    }
    vs :- ReadPart(fc, m, vs, VENUE_READS, k3, whole);
    if version >= 32 {
      vs :- ReadPart(fc, m, vs, [KStr], k4, whole);
    } else {
      assert [] + k4 == k4;
    }
    vs :- ReadPart(fc, m, vs, [KStr, QuantityKind(dv)], k5, whole);
    RunEnds(fc, vs, m.fields, m.pos);
    return Success(vs);
  }

  /** The last reads of the prices, of which vs has been read. */
  method ReadPriceBack(fc: FloatCodec, dv: int, version: int, m: MsgBuffer, before: seq<Value>,
                       ghost whole: Result<At<seq<Value>>>) returns (r: Result<seq<Value>>)
    requires m.Valid() && whole == Behind(before, BlockAt(fc, PriceBackKinds(dv, version), m.fields, m.pos))
    modifies m
    ensures m.Valid() && m.fields == old(m.fields) && (old(m.tail) == [] ==> m.tail == [])
    ensures if whole.Success? then r == Success(whole.value.value) && m.pos == whole.value.next else r.Panic?
  {
    ghost var k5: seq<Kind> := [];
    ghost var k4 := VOLATILITY_READS + k5;
    ghost var k3 := DISPLAY_READS + k4;
    ghost var k2 := BOX_READS + k3;
    ghost var k1 := ExemptKinds(dv, version) + k2;
    assert SHORT_SALE_READS + k1 == PriceBackKinds(dv, version);
    hide BlockAt, Behind, PriceBackKinds;
    var vs := before;
    vs :- ReadPart(fc, m, vs, SHORT_SALE_READS, k1, whole);
    vs :- ReadPart(fc, m, vs, ExemptKinds(dv, version), k2, whole);
    vs :- ReadPart(fc, m, vs, BOX_READS, k3, whole);
    vs :- ReadPart(fc, m, vs, DISPLAY_READS, k4, whole);
    vs :- ReadPart(fc, m, vs, VOLATILITY_READS, k5, whole);
    RunEnds(fc, vs, m.fields, m.pos);
    return Success(vs);
  }

  method ReadPrices(fc: FloatCodec, dv: int, version: int, m: MsgBuffer) returns (r: Result<seq<Value>>)
    requires m.Valid()
    modifies m
    ensures m.Valid() && m.fields == old(m.fields) && (old(m.tail) == [] ==> m.tail == [])
    ensures var spec := BlockAt(fc, PriceKinds(dv, version), m.fields, old(m.pos));
            if spec.Success? then r == Success(spec.value.value) && m.pos == spec.value.next else r.Panic?
  {
    ghost var whole := BlockAt(fc, PriceKinds(dv, version), m.fields, m.pos);
    ghost var back := PriceBackKinds(dv, version);
    ghost var k1 := On(dv >= MODELS_SUPPORT, [KStr]) + back;
    NothingBehind(whole);
    hide BlockAt, Behind, PriceBackKinds;
    var vs: seq<Value> := [];
    vs :- ReadPart(fc, m, vs, LimitKinds(version), ACCOUNT_READS + k1, whole);
    vs :- ReadPart(fc, m, vs, ACCOUNT_READS, k1, whole);
    if dv >= MODELS_SUPPORT {
      vs :- ReadPart(fc, m, vs, [KStr], back, whole);
    } else {
      assert [] + back == back;
    }
    r := ReadPriceBack(fc, dv, version, m, vs, whole);
  }

  method ReadDn(fc: FloatCodec, version: int, dnType: Text, m: MsgBuffer) returns (r: Result<seq<Value>>)
    requires m.Valid()
    modifies m
    ensures m.Valid() && m.fields == old(m.fields) && (old(m.tail) == [] ==> m.tail == [])
    ensures var spec := BlockAt(fc, DnKinds(version, dnType), m.fields, old(m.pos));
            if spec.Success? then r == Success(spec.value.value) && m.pos == spec.value.next else r.Panic?
  {
    ghost var whole := BlockAt(fc, DnKinds(version, dnType), m.fields, m.pos);
    ghost var k3: seq<Kind> := [];
    ghost var k2 := On(version >= 31 && dnType != [], DN_ORDER[4..]) + k3;
    ghost var k1 := On(version >= 27 && dnType != [], DN_ORDER[..4]) + k2;
    assert [KFloatUnset] + k1 == DnKinds(version, dnType);
    NothingBehind(whole);
    hide BlockAt, Behind;
    var vs: seq<Value> := [];
    vs :- ReadPart(fc, m, vs, [KFloatUnset], k1, whole);
    if version >= 27 && dnType != [] {
      vs :- ReadPart(fc, m, vs, DN_ORDER[..4], k2, whole);
    } else {
      assert [] + k2 == k2;
    }
    if version >= 31 && dnType != [] {
      vs :- ReadPart(fc, m, vs, DN_ORDER[4..], k3, whole);
    } else {
      assert [] + k3 == k3;
    }
    RunEnds(fc, vs, m.fields, m.pos);
    return Success(vs);
  }

  method ReadTrail(fc: FloatCodec, version: int, m: MsgBuffer) returns (r: Result<seq<Value>>)
    requires m.Valid()
    modifies m
    ensures m.Valid() && m.fields == old(m.fields) && (old(m.tail) == [] ==> m.tail == [])
    ensures var spec := BlockAt(fc, TrailKinds(version), m.fields, old(m.pos));
            if spec.Success? then r == Success(spec.value.value) && m.pos == spec.value.next else r.Panic?
  {
    ghost var whole := BlockAt(fc, TrailKinds(version), m.fields, m.pos);
    ghost var k3: seq<Kind> := [];
    ghost var k2 := [KFloatUnset, KIntUnset, KStr] + k3;
    ghost var k1 := On(version >= 30, [KFloatUnset]) + k2;
    assert [KBool, KInt, KFloatUnset] + k1 == TrailKinds(version);
    NothingBehind(whole);
    hide BlockAt, Behind;
    var vs: seq<Value> := [];
    vs :- ReadPart(fc, m, vs, [KBool, KInt, KFloatUnset], k1, whole);
    if version >= 30 {
      vs :- ReadPart(fc, m, vs, [KFloatUnset], k2, whole);
    } else {
      assert [] + k2 == k2;
    }
    vs :- ReadPart(fc, m, vs, [KFloatUnset, KIntUnset, KStr], k3, whole);
    RunEnds(fc, vs, m.fields, m.pos);
    return Success(vs);
  }

  method ReadFlags(fc: FloatCodec, version: int, m: MsgBuffer) returns (r: Result<seq<Value>>)
    requires m.Valid()
    modifies m
    ensures m.Valid() && m.fields == old(m.fields) && (old(m.tail) == [] ==> m.tail == [])
    ensures var spec := BlockAt(fc, FlagKinds(version), m.fields, old(m.pos));
            if spec.Success? then r == Success(spec.value.value) && m.pos == spec.value.next else r.Panic?
  {
    ghost var whole := BlockAt(fc, FlagKinds(version), m.fields, m.pos);
    ghost var k3: seq<Kind> := [];
    ghost var k2 := On(version >= 22, [KBool]) + k3;
    ghost var k1 := [KStr, KStr] + k2;
    assert On(version >= 25, [KBool]) + k1 == FlagKinds(version);
    NothingBehind(whole);
    hide BlockAt, Behind;
    var vs: seq<Value> := [];
    if version >= 25 {
      vs :- ReadPart(fc, m, vs, [KBool], k1, whole);
    } else {
      assert [] + k1 == k1;
    }
    vs :- ReadPart(fc, m, vs, [KStr, KStr], k2, whole);
    if version >= 22 {
      vs :- ReadPart(fc, m, vs, [KBool], k3, whole);
    } else {
      assert [] + k3 == k3;
    }
    RunEnds(fc, vs, m.fields, m.pos);
    return Success(vs);
  }

  method ReadState(fc: FloatCodec, dv: int, version: int, m: MsgBuffer) returns (r: Result<seq<Value>>)
    requires m.Valid()
    modifies m
    ensures m.Valid() && m.fields == old(m.fields) && (old(m.tail) == [] ==> m.tail == [])
    ensures var spec := BlockAt(fc, StateKinds(dv, version), m.fields, old(m.pos));
            if spec.Success? then r == Success(spec.value.value) && m.pos == spec.value.next else r.Panic?
  {
    ghost var whole := BlockAt(fc, StateKinds(dv, version), m.fields, m.pos);
    ghost var k5: seq<Kind> := [];
    ghost var k4 := On(version >= 34, [KBool, KBool]) + k5;
    ghost var k3 := COMMISSION_READS + k4;
    ghost var k2 := On(dv >= WHAT_IF_EXT_FIELDS, MARGIN_READS) + k3;
    ghost var k1 := [KBool, KStr] + k2;
    assert On(version >= 33, [KBool]) + k1 == StateKinds(dv, version);
    NothingBehind(whole);
    hide BlockAt, Behind;
    var vs: seq<Value> := [];
    if version >= 33 {
      vs :- ReadPart(fc, m, vs, [KBool], k1, whole);
    } else {
      assert [] + k1 == k1;
    }
    vs :- ReadPart(fc, m, vs, [KBool, KStr], k2, whole);
    if dv >= WHAT_IF_EXT_FIELDS {
      vs :- ReadPart(fc, m, vs, MARGIN_READS, k3, whole);
    } else {
      assert [] + k3 == k3;
    }
    vs :- ReadPart(fc, m, vs, COMMISSION_READS, k4, whole);
    if version >= 34 {
      vs :- ReadPart(fc, m, vs, [KBool, KBool], k5, whole);
    } else {
      assert [] + k5 == k5;
    }
    RunEnds(fc, vs, m.fields, m.pos);
    return Success(vs);
  }

  method ReadLatest(fc: FloatCodec, dv: int, m: MsgBuffer) returns (r: Result<seq<Value>>)
    requires m.Valid()
    modifies m
    ensures m.Valid() && m.fields == old(m.fields) && (old(m.tail) == [] ==> m.tail == [])
    ensures var spec := BlockAt(fc, LatestKinds(dv), m.fields, old(m.pos));
            if spec.Success? then r == Success(spec.value.value) && m.pos == spec.value.next else r.Panic?
  {
    ghost var whole := BlockAt(fc, LatestKinds(dv), m.fields, m.pos);
    ghost var k4: seq<Kind> := [];
    ghost var k3 := On(dv >= POST_TO_ATS, [KIntUnset]) + k4;
    ghost var k2 := On(dv >= DURATION, [KIntUnset]) + k3;
    ghost var k1 := On(dv >= PRICE_MGMT_ALGO, [KBool]) + k2;
    assert On(dv >= D_PEG_ORDERS, [KBool]) + k1 == LatestKinds(dv);
    NothingBehind(whole);
    hide BlockAt, Behind;
    var vs: seq<Value> := [];
    if dv >= D_PEG_ORDERS {
      vs :- ReadPart(fc, m, vs, [KBool], k1, whole);
    } else {
      assert [] + k1 == k1;
    }
    if dv >= PRICE_MGMT_ALGO {
      vs :- ReadPart(fc, m, vs, [KBool], k2, whole);
    } else {
      assert [] + k2 == k2;
    }
    if dv >= DURATION {
      vs :- ReadPart(fc, m, vs, [KIntUnset], k3, whole);
    } else {
      assert [] + k3 == k3;
    }
    if dv >= POST_TO_ATS {
      vs :- ReadPart(fc, m, vs, [KIntUnset], k4, whole);
    } else {
      assert [] + k4 == k4;
    }
    RunEnds(fc, vs, m.fields, m.pos);
    return Success(vs);
  }

  method ReadTail(fc: FloatCodec, dv: int, m: MsgBuffer) returns (r: Result<seq<Value>>)
    requires m.Valid()
    modifies m
    ensures m.Valid() && m.fields == old(m.fields) && (old(m.tail) == [] ==> m.tail == [])
    ensures var spec := BlockAt(fc, TailKinds(dv), m.fields, old(m.pos));
            if spec.Success? then r == Success(spec.value.value) && m.pos == spec.value.next else r.Panic?
  {
    ghost var whole := BlockAt(fc, TailKinds(dv), m.fields, m.pos);
    ghost var k4: seq<Kind> := LatestKinds(dv);
    ghost var k3 := On(dv >= ORDER_CONTAINER, [KBool]) + k4;
    ghost var k2 := On(dv >= AUTO_PRICE_FOR_HEDGE, [KBool]) + k3;
    ghost var k1 := On(dv >= CASH_QTY, [KFloat]) + k2;
    assert On(dv >= SOFT_DOLLAR_TIER, [KStr, KStr, KStr]) + k1 == TailKinds(dv);
    NothingBehind(whole);
    hide BlockAt;
    var vs: seq<Value> := [];
    if dv >= SOFT_DOLLAR_TIER {
      vs :- ReadPart(fc, m, vs, [KStr, KStr, KStr], k1, whole);
    } else {
      assert [] + k1 == k1;
    }
    if dv >= CASH_QTY {
      vs :- ReadPart(fc, m, vs, [KFloat], k2, whole);
    } else {
      assert [] + k2 == k2;
    }
    if dv >= AUTO_PRICE_FOR_HEDGE {
      vs :- ReadPart(fc, m, vs, [KBool], k3, whole);
    } else {
      assert [] + k3 == k3;
    }
    if dv >= ORDER_CONTAINER {
      vs :- ReadPart(fc, m, vs, [KBool], k4, whole);
    } else {
      assert [] + k4 == k4;
    }
    var later :- ReadLatest(fc, dv, m);
    return Success(vs + later);
  }

  method ReadHead(fc: FloatCodec, dv: int, m: MsgBuffer) returns (r: Result<Head>)
    requires m.Valid()
    modifies m
    ensures m.Valid() && m.fields == old(m.fields) && (old(m.tail) == [] ==> m.tail == [])
    ensures var spec := HeadAt(fc, dv, m.fields, old(m.pos));
            if spec.Success? then r == Success(spec.value.value) && m.pos == spec.value.next else r.Panic?
  {
    hide BlockAt, TermKinds, PriceKinds, VersionAt;
    var version :- ReadVersion(dv, m);
    var terms :- ReadTerms(fc, dv, version, m);
    var orderType :- m.ReadString();
    var prices :- ReadPrices(fc, dv, version, m);
    return Success(Head(version, terms, orderType, prices));
  }

  method ReadVol(fc: FloatCodec, version: int, m: MsgBuffer) returns (r: Result<Vol>)
    requires m.Valid()
    modifies m
    ensures m.Valid() && m.fields == old(m.fields) && (old(m.tail) == [] ==> m.tail == [])
    ensures var spec := VolAt(fc, version, m.fields, old(m.pos));
            if spec.Success? then r == Success(spec.value.value) && m.pos == spec.value.next else r.Panic?
  {
    hide BlockAt, DnKinds, TrailKinds;
    var dnType :- m.ReadString();
    var dn :- ReadDn(fc, version, dnType, m);
    var trail :- ReadTrail(fc, version, m);
    return Success(Vol(dnType, dn, trail));
  }

  method ReadList(fc: FloatCodec, on: bool, m: MsgBuffer, ks: seq<Kind>) returns (r: Result<seq<seq<Value>>>)
    requires m.Valid()
    modifies m
    ensures m.Valid() && m.fields == old(m.fields) && (old(m.tail) == [] ==> m.tail == [])
    ensures var spec := ListIfAt(fc, on, ks, m.fields, old(m.pos));
            if spec.Success? then r == Success(spec.value.value) && m.pos == spec.value.next else r.Panic?
  {
    hide CountedAt;
    if on {
      r := ReadCounted(fc, m, ks);
    } else {
      r := Success([]);
    }
  }

  method ReadGroups(fc: FloatCodec, version: int, m: MsgBuffer) returns (r: Result<Groups>)
    requires m.Valid()
    modifies m
    ensures m.Valid() && m.fields == old(m.fields) && (old(m.tail) == [] ==> m.tail == [])
    ensures var spec := ComboListsAt(fc, version, m.fields, old(m.pos));
            if spec.Success? then r == Success(spec.value.value) && m.pos == spec.value.next else r.Panic?
  {
    hide ListIfAt;
    var legs :- ReadList(fc, version >= 29, m, LEG);
    var prices :- ReadList(fc, version >= 29, m, LEG_PRICE);
    var routing :- ReadList(fc, version >= 26, m, TAG_VALUE);
    return Success(Groups(legs, prices, routing));
  }

  method ReadScaling(fc: FloatCodec, version: int, m: MsgBuffer) returns (r: Result<Scaling>)
    requires m.Valid()
    modifies m
    ensures m.Valid() && m.fields == old(m.fields) && (old(m.tail) == [] ==> m.tail == [])
    ensures var spec := ScalingAt(fc, version, m.fields, old(m.pos));
            if spec.Success? then r == Success(spec.value.value) && m.pos == spec.value.next else r.Panic?
  {
    hide BlockAt, AsFloatUnset;
    var sizes :- ReadBlock(fc, m, [KIntUnset, KIntUnset]);
    var increment :- m.ReadFloatCheckUnset(fc);
    var terms :- ReadBlock(fc, m, On(version >= 28 && IncrementOn(increment), SCALE_TERMS));
    return Success(Scaling(sizes, increment, terms));
  }

  method ReadHedging(fc: FloatCodec, version: int, m: MsgBuffer) returns (r: Result<Hedging>)
    requires m.Valid()
    modifies m
    ensures m.Valid() && m.fields == old(m.fields) && (old(m.tail) == [] ==> m.tail == [])
    ensures var spec := HedgingAt(fc, version, m.fields, old(m.pos));
            if spec.Success? then r == Success(spec.value.value) && m.pos == spec.value.next else r.Panic?
  {
    hide BlockAt;
    if version < 24 {
      return Success(Hedging([], []));
    }
    var kind :- m.ReadString();
    var param :- ReadBlock(fc, m, On(kind != [], [KStr]));
    return Success(Hedging(kind, param));
  }

  method ReadNeutral(fc: FloatCodec, version: int, m: MsgBuffer) returns (r: Result<Neutral>)
    requires m.Valid()
    modifies m
    ensures m.Valid() && m.fields == old(m.fields) && (old(m.tail) == [] ==> m.tail == [])
    ensures var spec := NeutralAt(fc, version, m.fields, old(m.pos));
            if spec.Success? then r == Success(spec.value.value) && m.pos == spec.value.next else r.Panic?
  {
    hide BlockAt;
    if version < 20 {
      return Success(Neutral(false, []));
    }
    var present :- m.ReadBool();
    var contract :- ReadBlock(fc, m, On(present, DN_CONTRACT));
    return Success(Neutral(present, contract));
  }

  method ReadAlgorithm(fc: FloatCodec, version: int, m: MsgBuffer) returns (r: Result<Algorithm>)
    requires m.Valid()
    modifies m
    ensures m.Valid() && m.fields == old(m.fields) && (old(m.tail) == [] ==> m.tail == [])
    ensures var spec := AlgorithmAt(fc, version, m.fields, old(m.pos));
            if spec.Success? then r == Success(spec.value.value) && m.pos == spec.value.next else r.Panic?
  {
    hide ListIfAt;
    if version < 21 {
      return Success(Algorithm([], []));
    }
    var strategy :- m.ReadString();
    var params :- ReadList(fc, strategy != [], m, TAG_VALUE);
    return Success(Algorithm(strategy, params));
  }

  method ReadCondition(fc: FloatCodec, m: MsgBuffer) returns (r: Result<Condition>)
    requires m.Valid()
    modifies m
    ensures m.Valid() && m.fields == old(m.fields) && (old(m.tail) == [] ==> m.tail == [])
    ensures var spec := ConditionAt(fc, m.fields, old(m.pos));
            if spec.Success? then r == Success(spec.value.value) && m.pos == spec.value.next else r.Panic?
  {
    hide BlockAt, NewCondition, ReadsOf;
    var t :- m.ReadInt();
    var c :- NewCondition(t);
    var lost :- ReadBlock(fc, m, ReadsOf(c)); // decode keeps the values in a copy of the receiver
    return Success(c);
  }

  method ReadConditions(fc: FloatCodec, n: nat, m: MsgBuffer) returns (r: Result<seq<Condition>>)
    requires m.Valid()
    modifies m
    ensures m.Valid() && m.fields == old(m.fields) && (old(m.tail) == [] ==> m.tail == [])
    ensures var spec := ConditionListAt(fc, n, m.fields, old(m.pos));
            if spec.Success? then r == Success(spec.value.value) && m.pos == spec.value.next else r.Panic?
  {
    hide *;
    ghost var whole := ConditionListAt(fc, n, m.fields, m.pos);
    var conditions: seq<Condition> := [];
    NothingBehind(whole);
    var left: nat := n;
    while left > 0
      invariant m.Valid() && m.fields == old(m.fields) && (old(m.tail) == [] ==> m.tail == [])
      invariant whole == Behind(conditions, ConditionListAt(fc, left, m.fields, m.pos))
    {
      ConditionRead(fc, left, m.fields, m.pos, conditions);
      var c := ReadCondition(fc, m);
      if c.Panic? {
        return Panic;
      }
      conditions := conditions + [c.value];
      left := left - 1;
    }
    NoneLeft(fc, conditions, m.fields, m.pos);
    return Success(conditions);
  }

  method ReadAdjusting(fc: FloatCodec, dv: int, orderType: Text, m: MsgBuffer) returns (r: Result<Adjusting>)
    requires m.Valid()
    modifies m
    ensures m.Valid() && m.fields == old(m.fields) && (old(m.tail) == [] ==> m.tail == [])
    ensures var spec := AdjustingAt(fc, dv, orderType, m.fields, old(m.pos));
            if spec.Success? then r == Success(spec.value.value) && m.pos == spec.value.next else r.Panic?
  {
    hide BlockAt, ConditionPartAt, On;
    if dv < PEGGED_TO_BENCHMARK {
      return Success(Adjusting([], [], [], []));
    }
    ghost var start := m.pos;
    AdjustingByParts(fc, dv, orderType, m.fields, start);
    hide AdjustingAt;
    var peg :- ReadBlock(fc, m, On(orderType == PEG_BENCH, PEG));
    var part :- ReadConditionPart(fc, m);
    var adjusted :- ReadBlock(fc, m, ADJUSTED_READS);
    return Success(Adjusting(peg, part.0, part.1, adjusted));
  }

  /** The count of the conditions, the conditions, and the two flags behind them if there are any. */
  function ConditionPartAt(fc: FloatCodec, ts: seq<Text>, pos: nat): Result<At<(seq<Condition>, seq<Value>)>> {
    var n :- CountAt(ts, pos);
    var conditions :- ConditionListAt(fc, n.value, ts, n.next);
    var flags :- BlockAt(fc, On(n.value > 0, [KBool, KBool]), ts, conditions.next);
    Success(At((conditions.value, flags.value), flags.next))
  }

  lemma AdjustingByParts(fc: FloatCodec, dv: int, orderType: Text, ts: seq<Text>, pos: nat)
    requires dv >= PEGGED_TO_BENCHMARK
    ensures AdjustingAt(fc, dv, orderType, ts, pos)
            == (var peg :- BlockAt(fc, On(orderType == PEG_BENCH, PEG), ts, pos);
                var part :- ConditionPartAt(fc, ts, peg.next);
                var adjusted :- BlockAt(fc, ADJUSTED_READS, ts, part.next);
                Success(At(Adjusting(peg.value, part.value.0, part.value.1, adjusted.value), adjusted.next)))
  {
    hide BlockAt, CountAt, ConditionListAt, On;
  }

  method ReadConditionPart(fc: FloatCodec, m: MsgBuffer) returns (r: Result<(seq<Condition>, seq<Value>)>)
    requires m.Valid()
    modifies m
    ensures m.Valid() && m.fields == old(m.fields) && (old(m.tail) == [] ==> m.tail == [])
    ensures var spec := ConditionPartAt(fc, m.fields, old(m.pos));
            if spec.Success? then r == Success(spec.value.value) && m.pos == spec.value.next else r.Panic?
  {
    hide BlockAt, ConditionListAt, On, AsInt;
    var n :- m.ReadInt();
    if n < 0 {
      return Panic;
    }
    var conditions :- ReadConditions(fc, n as nat, m);
    var flags :- ReadBlock(fc, m, On(n > 0, [KBool, KBool]));
    return Success((conditions, flags));
  }

  method ReadOpenOrder(fc: FloatCodec, dv: int, m: MsgBuffer) returns (r: Result<OpenOrder>)
    requires m.Valid()
    modifies m
    ensures m.Valid() && m.fields == old(m.fields) && (old(m.tail) == [] ==> m.tail == [])
    ensures var spec := OpenOrderAt(fc, dv, m.fields, old(m.pos));
            if spec.Success? then r == Success(spec.value.value) && m.pos == spec.value.next else r.Panic?
  {
    hide HeadAt, VolAt, ComboListsAt, ScalingAt, HedgingAt, BlockAt, NeutralAt, AlgorithmAt, AdjustingAt;
    hide FlagKinds, StateKinds, TailKinds;
    var head :- ReadHead(fc, dv, m);
    var version := head.version;
    var vol :- ReadVol(fc, version, m);
    var groups :- ReadGroups(fc, version, m);
    var scaling :- ReadScaling(fc, version, m);
    var hedging :- ReadHedging(fc, version, m);
    var flags :- ReadFlags(fc, version, m);
    var neutral :- ReadNeutral(fc, version, m);
    var algo :- ReadAlgorithm(fc, version, m);
    var state :- ReadState(fc, dv, version, m);
    var adjusting :- ReadAdjusting(fc, dv, head.orderType, m);
    var tail :- ReadTail(fc, dv, m);
    return Success(OpenOrder(head, vol, groups, scaling, hedging, flags, neutral, algo, state, adjusting, tail));
  }

  /** processOpenOrder on the message buffer: what is handed to the OpenOrder callback, or a panic. Each attribute is
      the field at its own position, understood by its own reader. */
  method ProcessOpenOrder(fc: FloatCodec, dv: int, m: MsgBuffer) returns (r: Result<Sheet>)
    requires m.Valid()
    modifies m
    ensures m.Valid() && m.fields == old(m.fields) && (old(m.tail) == [] ==> m.tail == [])
    ensures var spec := OpenOrderAt(fc, dv, m.fields, old(m.pos));
            if spec.Success? then r == Success(SheetOf(dv, spec.value.value)) && m.pos == spec.value.next else r.Panic?
    ensures r.Success? ==> SheetAt(fc, dv, r.value, m.fields, old(m.pos))
    ensures r.Success? ==> m.pos == TailStart(dv, r.value, old(m.pos)) + TailLength(dv)
  {
    hide OpenOrderAt, SheetOf, SheetAt, TailStart, TailLength;
    var x :- ReadOpenOrder(fc, dv, m);
    OpenOrderMeans(fc, dv, x, m.fields, old(m.pos), m.pos);
    return Success(SheetOf(dv, x));
  }
}
