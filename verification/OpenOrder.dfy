/** decoder.go, processOpenOrder: a decoder whose optional and repeated groups depend on the server version (dv), the
    message version and earlier fields. Runs of scalar reads are blocks whose kinds are lists with version gates. */
module OpenOrder {
  import opened Basics
  import opened Fields
  import opened Cursor
  import opened Conditions
  import opened OrderLayout
  import opened Orders
  import opened Versions

  // ---------------------------------------------------------------- the runs

  /** OrderID .. TotalQuantity. */
  function TermKinds(dv: int, version: int): seq<Kind> {
    IDENTITY_READS + (On(version >= 32, [KStr]) + (VENUE_READS + (On(version >= 32, [KStr])
    + [KStr, QuantityKind(dv)])))
  }

  /** OrderID .. Right. */
  const IDENTITY_READS: seq<Kind> := [KInt, KInt, KStr, KStr, KStr, KFloat, KStr]

  /** Exchange, Currency, LocalSymbol. */
  const VENUE_READS: seq<Kind> := [KStr, KStr, KStr]

  function QuantityKind(dv: int): Kind { if dv >= FRACTIONAL_POSITIONS then KFloat else KInt }

  /** LimitPrice .. VolatilityType. */
  function PriceKinds(dv: int, version: int): seq<Kind> {
    LimitKinds(version) + (ACCOUNT_READS + (On(dv >= MODELS_SUPPORT, [KStr]) + PriceBackKinds(dv, version)))
  }

  /** GoodTillDate .. VolatilityType. */
  function PriceBackKinds(dv: int, version: int): seq<Kind> {
    SHORT_SALE_READS + (ExemptKinds(dv, version) + (BOX_READS + (DISPLAY_READS + VOLATILITY_READS)))
  }

  function LimitKinds(version: int): seq<Kind> {
    [if version < 29 then KFloat else KFloatUnset, if version < 30 then KFloat else KFloatUnset]
  }

  /** TIF .. FAProfile. */
  const ACCOUNT_READS: seq<Kind> := [KStr, KStr, KStr, KStr, KInt, KStr, KInt, KInt, KBool, KBool, KFloat, KStr, KStr,
                                     KStr, KStr, KStr, KStr]

  /** GoodTillDate .. DesignatedLocation. */
  const SHORT_SALE_READS: seq<Kind> := [KStr, KStr, KFloatUnset, KStr, KInt, KStr]

  /** AuctionStrategy .. StockRangeUpper. */
  const BOX_READS: seq<Kind> := [KInt, KFloatUnset, KFloatUnset, KFloatUnset, KFloatUnset, KFloatUnset]

  /** DisplaySize .. OCAType. */
  const DISPLAY_READS: seq<Kind> := [KInt, KBool, KBool, KBool, KIntUnset, KInt]

  /** ETradeOnly .. VolatilityType. */
  const VOLATILITY_READS: seq<Kind> := [KBool, KBool, KFloatUnset, KInt, KInt, KFloatUnset, KInt]

  /** Server version 51 sends a field to skip; otherwise the exempt code comes with message version 23. */
  function ExemptKinds(dv: int, version: int): seq<Kind> {
    if dv == SSHORTX_OLD then [KStr] else On(version >= 23, [KInt])
  }

  /** DeltaNeutralAuxPrice and the delta-neutral order block. */
  function DnKinds(version: int, dnType: Text): seq<Kind> {
    [KFloatUnset] + (On(version >= 27 && dnType != [], DN_ORDER[..4])
        + On(version >= 31 && dnType != [], DN_ORDER[4..]))
  }

  /** ContinuousUpdate .. ComboLegsDescription. */
  function TrailKinds(version: int): seq<Kind> {
    [KBool, KInt, KFloatUnset] + (On(version >= 30, [KFloatUnset]) + [KFloatUnset, KIntUnset, KStr])
  }

  /** OptOutSmartRouting .. NotHeld. */
  function FlagKinds(version: int): seq<Kind> {
    On(version >= 25, [KBool]) + ([KStr, KStr] + On(version >= 22, [KBool]))
  }

  /** Solicited .. RandomizePrice. */
  function StateKinds(dv: int, version: int): seq<Kind> {
    On(version >= 33, [KBool]) + ([KBool, KStr] + (On(dv >= WHAT_IF_EXT_FIELDS, MARGIN_READS)
    + (COMMISSION_READS + On(version >= 34, [KBool, KBool]))))
  }

  const MARGIN_READS: seq<Kind> := [KStr, KStr, KStr, KStr, KStr, KStr]
  const COMMISSION_READS: seq<Kind> := [KStr, KStr, KStr, KFloatUnset, KFloatUnset, KFloatUnset, KStr, KStr]
  const ADJUSTED_READS: seq<Kind> := [KStr, KFloat, KFloat, KFloat, KFloat, KFloat, KFloat, KInt]

  /** SoftDollarTier .. PostToAts. */
  function TailKinds(dv: int): seq<Kind> {
    On(dv >= SOFT_DOLLAR_TIER, [KStr, KStr, KStr])
        + (On(dv >= CASH_QTY, [KFloat]) + (On(dv >= AUTO_PRICE_FOR_HEDGE, [KBool])
    + (On(dv >= ORDER_CONTAINER, [KBool]) + LatestKinds(dv))))
  }

  function LatestKinds(dv: int): seq<Kind> {
    On(dv >= D_PEG_ORDERS, [KBool]) + (On(dv >= PRICE_MGMT_ALGO, [KBool])
    + (On(dv >= DURATION, [KIntUnset]) + On(dv >= POST_TO_ATS, [KIntUnset])))
  }

  // ---------------------------------------------------------------- what is read, section by section

  datatype Head = Head(version: int, terms: seq<Value>, orderType: Text, prices: seq<Value>)

  datatype Vol = Vol(dnType: Text, dn: seq<Value>, trail: seq<Value>)

  datatype Groups = Groups(legs: seq<seq<Value>>, prices: seq<seq<Value>>, routing: seq<seq<Value>>)

  datatype Scaling = Scaling(sizes: seq<Value>, increment: Float, terms: seq<Value>)

  datatype Hedging = Hedging(kind: Text, param: seq<Value>)

  datatype Neutral = Neutral(present: bool, contract: seq<Value>)

  datatype Algorithm = Algorithm(strategy: Text, params: seq<seq<Value>>)

  datatype Adjusting = Adjusting(peg: seq<Value>, conditions: seq<Condition>, flags: seq<Value>, adjusted: seq<Value>)

  datatype OpenOrder = OpenOrder(head: Head, vol: Vol, groups: Groups, scaling: Scaling, hedging: Hedging,
                                 flags: seq<Value>, neutral: Neutral, algo: Algorithm, state: seq<Value>,
                                 adjusting: Adjusting, tail: seq<Value>)

  function VersionAt(dv: int, ts: seq<Text>, pos: nat): (r: Result<At<int>>)
    ensures r.Success? ==> r.value.next == pos + Gate(dv < ORDER_CONTAINER, 1)
  {
    if dv < ORDER_CONTAINER then (var v :- IntAt(ts, pos); Success(At(v as int, pos + 1))) else Success(At(dv, pos))
  }

  function HeadAt(fc: FloatCodec, dv: int, ts: seq<Text>, pos: nat): (r: Result<At<Head>>)
    ensures r.Success? ==> r.value.next == pos + HeadSize(dv, r.value.value.version)
  {
    var version :- VersionAt(dv, ts, pos);
    var terms :- BlockAt(fc, TermKinds(dv, version.value), ts, version.next);
    var orderType :- TextAt(ts, terms.next);
    var prices :- BlockAt(fc, PriceKinds(dv, version.value), ts, terms.next + 1);
    Success(At(Head(version.value, terms.value, orderType, prices.value), prices.next))
  }

  function HeadSize(dv: int, version: int): nat {
    57 + Gate(dv < ORDER_CONTAINER, 1) + Gate(version >= 32, 2) + Gate(dv >= MODELS_SUPPORT, 1)
    + Gate(dv == SSHORTX_OLD || version >= 23, 1)
  }

  function VolAt(fc: FloatCodec, version: int, ts: seq<Text>, pos: nat): (r: Result<At<Vol>>)
    ensures r.Success? ==> r.value.next == pos + VolSize(version, r.value.value.dnType != [])
  {
    var dnType :- TextAt(ts, pos);
    var dn :- BlockAt(fc, DnKinds(version, dnType), ts, pos + 1);
    var trail :- BlockAt(fc, TrailKinds(version), ts, dn.next);
    Success(At(Vol(dnType, dn.value, trail.value), trail.next))
  }

  function VolSize(version: int, dn: bool): nat {
    8 + Gate(version >= 27 && dn, 4) + Gate(version >= 31 && dn, 4) + Gate(version >= 30, 1)
  }

  function ListIfAt(fc: FloatCodec, on: bool, ks: seq<Kind>, ts: seq<Text>, pos: nat): (r: Result<At<seq<seq<Value>>>>)
    ensures r.Success? ==> r.value.next == pos + ListSize(on, |r.value.value|, |ks|)
    ensures r.Success? && !on ==> r.value.value == []
  {
    if on then CountedAt(fc, ks, ts, pos) else Success(At([], pos))
  }

  function ListSize(on: bool, n: nat, size: nat): nat { if on then 1 + n * size else 0 }

  function ComboListsAt(fc: FloatCodec, version: int, ts: seq<Text>, pos: nat): (r: Result<At<Groups>>)
    ensures r.Success? ==> var g := r.value.value;
                           r.value.next == pos + GroupsSize(version, |g.legs|, |g.prices|, |g.routing|)
  {
    var legs :- ListIfAt(fc, version >= 29, LEG, ts, pos);
    var prices :- ListIfAt(fc, version >= 29, LEG_PRICE, ts, legs.next);
    var routing :- ListIfAt(fc, version >= 26, TAG_VALUE, ts, prices.next);
    Success(At(Groups(legs.value, prices.value, routing.value), routing.next))
  }

  function GroupsSize(version: int, legs: nat, prices: nat, routing: nat): nat {
    ListSize(version >= 29, legs, 8) + ListSize(version >= 29, prices, 1) + ListSize(version >= 26, routing, 2)
  }

  function ScalingAt(fc: FloatCodec, version: int, ts: seq<Text>, pos: nat): (r: Result<At<Scaling>>)
    ensures r.Success? ==> r.value.next == pos + 3 + Gate(version >= 28 && IncrementOn(r.value.value.increment), 7)
  {
    var sizes :- BlockAt(fc, [KIntUnset, KIntUnset], ts, pos);
    var increment :- FloatUnsetAt(fc, ts, sizes.next);
    var terms :- BlockAt(fc, On(version >= 28 && IncrementOn(increment), SCALE_TERMS), ts, sizes.next + 1);
    Success(At(Scaling(sizes.value, increment, terms.value), terms.next))
  }

  function HedgingAt(fc: FloatCodec, version: int, ts: seq<Text>, pos: nat): (r: Result<At<Hedging>>)
    ensures r.Success? ==> r.value.next == pos + Gate(version >= 24, 1) + Gate(r.value.value.kind != [], 1)
  {
    if version < 24 then Success(At(Hedging([], []), pos))
    else
      var kind :- TextAt(ts, pos);
      var param :- BlockAt(fc, On(kind != [], [KStr]), ts, pos + 1);
      Success(At(Hedging(kind, param.value), param.next))
  }

  function NeutralAt(fc: FloatCodec, version: int, ts: seq<Text>, pos: nat): (r: Result<At<Neutral>>)
    ensures r.Success? ==> r.value.next == pos + Gate(version >= 20, 1) + Gate(r.value.value.present, 3)
  {
    if version < 20 then Success(At(Neutral(false, []), pos))
    else
      var present :- BoolAt(ts, pos);
      var contract :- BlockAt(fc, On(present, DN_CONTRACT), ts, pos + 1);
      Success(At(Neutral(present, contract.value), contract.next))
  }

  function AlgorithmAt(fc: FloatCodec, version: int, ts: seq<Text>, pos: nat): (r: Result<At<Algorithm>>)
    ensures r.Success? ==>
              r.value.next == pos + AlgorithmSize(version, r.value.value.strategy != [], |r.value.value.params|)
  {
    if version < 21 then Success(At(Algorithm([], []), pos))
    else
      var strategy :- TextAt(ts, pos);
      var params :- ListIfAt(fc, strategy != [], TAG_VALUE, ts, pos + 1);
      Success(At(Algorithm(strategy, params.value), params.next))
  }

  function AlgorithmSize(version: int, strategy: bool, params: nat): nat {
    Gate(version >= 21, 1) + ListSize(strategy, params, 2)
  }

  // ---------------------------------------------------------------- conditions

  /** n conditions: a type tag, a fresh condition for it, and decode's reads, whose values are lost. */
  function ConditionListAt(fc: FloatCodec, n: nat, ts: seq<Text>, pos: nat): Result<At<seq<Condition>>> {
    MadeAt(NewCondition, ReadsOf, fc, n, ts, pos)
  }

  function NewCondition(t: int64): Result<Condition> { var init :- InitOrderCondition(t); Success(init.0) }

  function ReadsOf(c: Condition): seq<Kind> { c.Reads() }

  /** The same for whatever is made for a tag and whatever is read for what was made. */
  function MadeAt<T>(make: int64 -> Result<T>, kinds: T -> seq<Kind>, fc: FloatCodec, n: nat, ts: seq<Text>, pos: nat)
    : Result<At<seq<T>>>
    decreases n
  {
    if n == 0 then Success(At([], pos))
    else
      var t :- IntAt(ts, pos);
      var made :- make(t);
      var body :- BlockAt(fc, kinds(made), ts, pos + 1);
      var others :- MadeAt(make, kinds, fc, n - 1, ts, body.next);
      Success(At([made] + others.value, others.next))
  }

  function MadeSize<T>(kinds: T -> seq<Kind>, ms: seq<T>): nat {
    if ms == [] then 0 else 1 + |kinds(ms[0])| + MadeSize(kinds, ms[1..])
  }

  function ConditionsSize(cs: seq<Condition>): nat { MadeSize(ReadsOf, cs) }

  lemma MadeSizeCons<T>(kinds: T -> seq<Kind>, made: T, others: seq<T>)
    ensures MadeSize(kinds, [made] + others) == 1 + |kinds(made)| + MadeSize(kinds, others)
  {
    assert ([made] + others)[1..] == others;
  }

  lemma {:induction false} MadeConsumes<T>(make: int64 -> Result<T>, kinds: T -> seq<Kind>, fc: FloatCodec, n: nat,
                                           ts: seq<Text>, pos: nat)
    requires MadeAt(make, kinds, fc, n, ts, pos).Success?
    ensures var r := MadeAt(make, kinds, fc, n, ts, pos).value;
        |r.value| == n && r.next == pos + MadeSize(kinds, r.value)
    decreases n
  {
    if n > 0 {
      hide BlockAt, IntAt, MadeSize;
      var made := make(IntAt(ts, pos).value).value;
      var at := pos + 1 + |kinds(made)|;
      MadeConsumes(make, kinds, fc, n - 1, ts, at);
      MadeSizeCons(kinds, made, MadeAt(make, kinds, fc, n - 1, ts, at).value.value);
    }
  }

  lemma {:induction false} MadeStable<T>(make: int64 -> Result<T>, kinds: T -> seq<Kind>, fc: FloatCodec, n: nat,
                                         ts: seq<Text>, more: seq<Text>, pos: nat)
    requires MadeAt(make, kinds, fc, n, ts, pos).Success?
    ensures MadeAt(make, kinds, fc, n, ts + more, pos) == MadeAt(make, kinds, fc, n, ts, pos)
    decreases n
  {
    if n > 0 {
      hide BlockAt, AsInt;
      var made := make(IntAt(ts, pos).value).value;
      BlockStable(fc, kinds(made), ts, more, pos + 1);
      MadeStable(make, kinds, fc, n - 1, ts, more, pos + 1 + |kinds(made)|);
    }
  }

  /** One turn of the loop: the condition made and where the next one starts. */
  function ConditionAt(fc: FloatCodec, ts: seq<Text>, pos: nat): Result<At<Condition>> {
    var t :- IntAt(ts, pos);
    var c :- NewCondition(t);
    var body :- BlockAt(fc, ReadsOf(c), ts, pos + 1);
    Success(At(c, body.next))
  }

  lemma NoneLeft(fc: FloatCodec, conditions: seq<Condition>, ts: seq<Text>, pos: nat)
    ensures Behind(conditions, ConditionListAt(fc, 0, ts, pos)) == Success(At(conditions, pos))
  {
    assert conditions + [] == conditions;
  }

  lemma ConditionRead(fc: FloatCodec, n: nat, ts: seq<Text>, pos: nat, before: seq<Condition>)
    requires n > 0
    ensures var c := ConditionAt(fc, ts, pos);
            Behind(before, ConditionListAt(fc, n, ts, pos))
            == (if c.Success? then Behind(before + [c.value.value], ConditionListAt(fc, n - 1, ts, c.value.next))
              else Panic)
  {
    hide BlockAt, NewCondition, ReadsOf, AsInt;
    var c := ConditionAt(fc, ts, pos);
    if c.Success? {
      var left := ConditionListAt(fc, n - 1, ts, c.value.next);
      if left.Success? {
        assert before + ([c.value.value] + left.value.value) == (before + [c.value.value]) + left.value.value;
      }
    }
  }

  function AdjustingAt(fc: FloatCodec, dv: int, orderType: Text, ts: seq<Text>, pos: nat): Result<At<Adjusting>> {
    if dv < PEGGED_TO_BENCHMARK then Success(At(Adjusting([], [], [], []), pos))
    else
      var peg :- BlockAt(fc, On(orderType == PEG_BENCH, PEG), ts, pos);
      var n :- CountAt(ts, peg.next);
      var conditions :- ConditionListAt(fc, n.value, ts, n.next);
      var flags :- BlockAt(fc, On(n.value > 0, [KBool, KBool]), ts, conditions.next);
      var adjusted :- BlockAt(fc, ADJUSTED_READS, ts, flags.next);
      Success(At(Adjusting(peg.value, conditions.value, flags.value, adjusted.value), adjusted.next))
  }

  function AdjustingSize(dv: int, orderType: Text, cs: seq<Condition>): nat {
    if dv < PEGGED_TO_BENCHMARK then 0 else 9 + Gate(orderType == PEG_BENCH, 5) + ConditionsSize(cs) + Gate(cs != [], 2)
  }

  lemma AdjustingConsumes(fc: FloatCodec, dv: int, orderType: Text, ts: seq<Text>, pos: nat)
    requires AdjustingAt(fc, dv, orderType, ts, pos).Success?
    ensures var r := AdjustingAt(fc, dv, orderType, ts, pos).value;
            r.next == pos + AdjustingSize(dv, orderType, r.value.conditions)
  {
    hide BlockAt, CountAt, MadeAt, MadeSize;
    if dv >= PEGGED_TO_BENCHMARK {
      var peg := BlockAt(fc, On(orderType == PEG_BENCH, PEG), ts, pos).value;
      var n := CountAt(ts, peg.next).value;
      CountIsOne(ts, peg.next);
      MadeConsumes(NewCondition, ReadsOf, fc, n.value, ts, n.next);
    }
  }

  lemma CountIsOne(ts: seq<Text>, pos: nat)
    ensures CountAt(ts, pos).Success? ==> CountAt(ts, pos).value.next == pos + 1
  {
  }

  // ---------------------------------------------------------------- the whole message

  function OpenOrderAt(fc: FloatCodec, dv: int, ts: seq<Text>, pos: nat): Result<At<OpenOrder>> {
    var head :- HeadAt(fc, dv, ts, pos);
    var version := head.value.version;
    var vol :- VolAt(fc, version, ts, head.next);
    var groups :- ComboListsAt(fc, version, ts, vol.next);
    var scaling :- ScalingAt(fc, version, ts, groups.next);
    var hedging :- HedgingAt(fc, version, ts, scaling.next);
    var flags :- BlockAt(fc, FlagKinds(version), ts, hedging.next);
    var neutral :- NeutralAt(fc, version, ts, flags.next);
    var algo :- AlgorithmAt(fc, version, ts, neutral.next);
    var state :- BlockAt(fc, StateKinds(dv, version), ts, algo.next);
    var adjusting :- AdjustingAt(fc, dv, head.value.orderType, ts, state.next);
    var tail :- BlockAt(fc, TailKinds(dv), ts, adjusting.next);
    Success(At(OpenOrder(head.value, vol.value, groups.value, scaling.value, hedging.value, flags.value, neutral.value,
                         algo.value, state.value, adjusting.value, tail.value), tail.next))
  }

  /** The list counts and presence flags that decide, with the two versions, how many fields there are. */
  datatype Shape = Shape(version: int, volatile: bool, legs: nat, prices: nat, routing: nat, scaled: bool, hedged: bool,
                         neutral: bool, algo: bool, params: nat, pegged: bool, conditions: nat, conditionFields: nat)

  function ShapeOf(x: OpenOrder): Shape {
    Shape(x.head.version, x.vol.dnType != [], |x.groups.legs|, |x.groups.prices|, |x.groups.routing|,
          IncrementOn(x.scaling.increment), x.hedging.kind != [], x.neutral.present, x.algo.strategy != [],
          |x.algo.params|,
          x.head.orderType == PEG_BENCH, |x.adjusting.conditions|, ConditionsSize(x.adjusting.conditions))
  }

  function ListsSize(s: Shape): nat {
    (if s.version >= 29 then 2 + 8 * s.legs + s.prices else 0) + (if s.version >= 26 then 1 + 2 * s.routing else 0)
    + (if s.algo then 1 + 2 * s.params else 0)
  }

  function FlagsSize(s: Shape): nat {
    Gate(s.version >= 27 && s.volatile, 4) + Gate(s.version >= 31 && s.volatile, 4)
    + Gate(s.version >= 28 && s.scaled, 7) + Gate(s.hedged, 1) + Gate(s.neutral, 3)
  }

  function VersionSize(version: int): nat {
    Gate(version >= 20, 1) + Gate(version >= 21, 1) + Gate(version >= 22, 1) + Gate(version >= 24, 1)
        + Gate(version >= 25, 1)
    + Gate(version >= 30, 1) + Gate(version >= 32, 2) + Gate(version >= 33, 1) + Gate(version >= 34, 2)
  }

  function ServerSize(dv: int, s: Shape): nat {
    Gate(dv < ORDER_CONTAINER, 1) + Gate(dv == SSHORTX_OLD || s.version >= 23, 1) + Gate(dv >= MODELS_SUPPORT, 1)
    + Gate(dv >= WHAT_IF_EXT_FIELDS, 6)
    + (if dv >= PEGGED_TO_BENCHMARK then 9 + Gate(s.pegged, 5) + s.conditionFields + Gate(s.conditions > 0, 2) else 0)
    + Gate(dv >= SOFT_DOLLAR_TIER, 3) + Gate(dv >= CASH_QTY, 1) + Gate(dv >= AUTO_PRICE_FOR_HEDGE, 1)
    + Gate(dv >= ORDER_CONTAINER, 1) + Gate(dv >= D_PEG_ORDERS, 1) + Gate(dv >= PRICE_MGMT_ALGO, 1)
    + Gate(dv >= DURATION, 1) + Gate(dv >= POST_TO_ATS, 1)
  }

  lemma TailCount(dv: int)
    ensures |TailKinds(dv)|
        == Gate(dv >= SOFT_DOLLAR_TIER, 3) + Gate(dv >= CASH_QTY, 1) + Gate(dv >= AUTO_PRICE_FOR_HEDGE, 1)
              + Gate(dv >= ORDER_CONTAINER, 1) + Gate(dv >= D_PEG_ORDERS, 1) + Gate(dv >= PRICE_MGMT_ALGO, 1)
              + Gate(dv >= DURATION, 1) + Gate(dv >= POST_TO_ATS, 1)
  {
    hide On;
  }

  lemma StateCount(dv: int, version: int)
    ensures |StateKinds(dv, version)|
            == 10 + Gate(version >= 33, 1) + Gate(dv >= WHAT_IF_EXT_FIELDS, 6) + Gate(version >= 34, 2)
    ensures |FlagKinds(version)| == 2 + Gate(version >= 25, 1) + Gate(version >= 22, 1)
  {
    hide On;
  }

  /** Where the sections of a message that can be read end. */
  lemma SectionEnds(fc: FloatCodec, dv: int, ts: seq<Text>, pos: nat)
    requires OpenOrderAt(fc, dv, ts, pos).Success?
    ensures var x, s := OpenOrderAt(fc, dv, ts, pos).value, ShapeOf(OpenOrderAt(fc, dv, ts, pos).value.value);
            x.next == pos + HeadSize(dv, s.version) + VolSize(s.version, s.volatile)
              + GroupsSize(s.version, s.legs, s.prices, s.routing) + 3 + Gate(s.version >= 28 && s.scaled, 7)
              + Gate(s.version >= 24, 1) + Gate(s.hedged, 1) + |FlagKinds(s.version)| + Gate(s.version >= 20, 1)
              + Gate(s.neutral, 3) + AlgorithmSize(s.version, s.algo, s.params) + |StateKinds(dv, s.version)|
              + AdjustingSize(dv, x.value.head.orderType, x.value.adjusting.conditions) + |TailKinds(dv)|
  {
    hide HeadAt, VolAt, ComboListsAt, ScalingAt, HedgingAt, BlockAt, NeutralAt, AlgorithmAt, AdjustingAt;
    hide HeadSize, VolSize, GroupsSize, AlgorithmSize, AdjustingSize, FlagKinds, StateKinds, TailKinds, IncrementOn;
    var head := HeadAt(fc, dv, ts, pos).value;
    var version := head.value.version;
    var vol := VolAt(fc, version, ts, head.next).value;
    var groups := ComboListsAt(fc, version, ts, vol.next).value;
    var scaling := ScalingAt(fc, version, ts, groups.next).value;
    var hedging := HedgingAt(fc, version, ts, scaling.next).value;
    var flags := BlockAt(fc, FlagKinds(version), ts, hedging.next).value;
    var neutral := NeutralAt(fc, version, ts, flags.next).value;
    var algo := AlgorithmAt(fc, version, ts, neutral.next).value;
    var state := BlockAt(fc, StateKinds(dv, version), ts, algo.next).value;
    AdjustingConsumes(fc, dv, head.value.orderType, ts, state.next);
  }

  lemma ListsAddUp(s: Shape)
    ensures GroupsSize(s.version, s.legs, s.prices, s.routing) + AlgorithmSize(s.version, s.algo, s.params)
            == ListsSize(s) + Gate(s.version >= 21, 1)
  {
  }

  lemma AdjustingAddsUp(dv: int, x: OpenOrder)
    ensures AdjustingSize(dv, x.head.orderType, x.adjusting.conditions)
            == (if dv >= PEGGED_TO_BENCHMARK
                then 9 + Gate(ShapeOf(x).pegged, 5) + ShapeOf(x).conditionFields + Gate(ShapeOf(x).conditions > 0, 2)
                    else 0)
  {
  }

  lemma SizesAddUp(dv: int, s: Shape, lists: nat, adjusting: nat)
    requires lists == GroupsSize(s.version, s.legs, s.prices, s.routing) + AlgorithmSize(s.version, s.algo, s.params)
    requires adjusting == if dv >= PEGGED_TO_BENCHMARK
                          then 9 + Gate(s.pegged, 5) + s.conditionFields + Gate(s.conditions > 0, 2) else 0
    ensures HeadSize(dv, s.version) + VolSize(s.version, s.volatile) + lists + 3 + Gate(s.version >= 28 && s.scaled, 7)
            + Gate(s.version >= 24, 1) + Gate(s.hedged, 1) + |FlagKinds(s.version)| + Gate(s.version >= 20, 1)
              + Gate(s.neutral, 3)
            + |StateKinds(dv, s.version)| + adjusting + |TailKinds(dv)|
            == 80 + ListsSize(s) + FlagsSize(s) + VersionSize(s.version) + ServerSize(dv, s)
  {
    hide FlagKinds, StateKinds, TailKinds, Gate, ListsSize, GroupsSize, AlgorithmSize;
    TailCount(dv);
    StateCount(dv, s.version);
    ListsAddUp(s);
  }

  /** What processOpenOrder consumes is a function of the two versions, the list counts and the presence flags. */
  lemma Consumption(fc: FloatCodec, dv: int, ts: seq<Text>, pos: nat)
    requires OpenOrderAt(fc, dv, ts, pos).Success?
    ensures var x, s := OpenOrderAt(fc, dv, ts, pos).value, ShapeOf(OpenOrderAt(fc, dv, ts, pos).value.value);
            x.next == pos + 80 + ListsSize(s) + FlagsSize(s) + VersionSize(s.version) + ServerSize(dv, s)
  {
    hide *;
    SectionEnds(fc, dv, ts, pos);
    var x := OpenOrderAt(fc, dv, ts, pos).value.value;
    var s := ShapeOf(x);
    AdjustingAddsUp(dv, x);
    SizesAddUp(dv, s, GroupsSize(s.version, s.legs, s.prices, s.routing) + AlgorithmSize(s.version, s.algo, s.params),
               AdjustingSize(dv, x.head.orderType, x.adjusting.conditions));
  }

  // ---------------------------------------------------------------- more fields never change what was read

  lemma FieldStable(ts: seq<Text>, more: seq<Text>, pos: nat)
    ensures pos < |ts| ==> pos < |ts + more| && (ts + more)[pos] == ts[pos]
  {
  }

  lemma HeadStable(fc: FloatCodec, dv: int, ts: seq<Text>, more: seq<Text>, pos: nat)
    requires HeadAt(fc, dv, ts, pos).Success?
    ensures HeadAt(fc, dv, ts + more, pos) == HeadAt(fc, dv, ts, pos)
  {
    hide BlockAt, TermKinds, PriceKinds, AsInt;
    FieldStable(ts, more, pos);
    var version := VersionAt(dv, ts, pos).value;
    BlockStable(fc, TermKinds(dv, version.value), ts, more, version.next);
    var terms := BlockAt(fc, TermKinds(dv, version.value), ts, version.next).value;
    FieldStable(ts, more, terms.next);
    BlockStable(fc, PriceKinds(dv, version.value), ts, more, terms.next + 1);
  }

  lemma VolStable(fc: FloatCodec, version: int, ts: seq<Text>, more: seq<Text>, pos: nat)
    requires VolAt(fc, version, ts, pos).Success?
    ensures VolAt(fc, version, ts + more, pos) == VolAt(fc, version, ts, pos)
  {
    hide BlockAt, DnKinds, TrailKinds;
    FieldStable(ts, more, pos);
    BlockStable(fc, DnKinds(version, ts[pos]), ts, more, pos + 1);
    var dn := BlockAt(fc, DnKinds(version, ts[pos]), ts, pos + 1).value;
    BlockStable(fc, TrailKinds(version), ts, more, dn.next);
  }

  lemma ListIfStable(fc: FloatCodec, on: bool, ks: seq<Kind>, ts: seq<Text>, more: seq<Text>, pos: nat)
    requires ListIfAt(fc, on, ks, ts, pos).Success?
    ensures ListIfAt(fc, on, ks, ts + more, pos) == ListIfAt(fc, on, ks, ts, pos)
  {
    hide CountedAt;
    if on { CountedStable(fc, ks, ts, more, pos); }
  }

  lemma GroupsStill(fc: FloatCodec, version: int, ts: seq<Text>, more: seq<Text>, pos: nat)
    requires ComboListsAt(fc, version, ts, pos).Success?
    ensures ComboListsAt(fc, version, ts + more, pos) == ComboListsAt(fc, version, ts, pos)
  {
    hide ListIfAt;
    ListIfStable(fc, version >= 29, LEG, ts, more, pos);
    var legs := ListIfAt(fc, version >= 29, LEG, ts, pos).value;
    ListIfStable(fc, version >= 29, LEG_PRICE, ts, more, legs.next);
    var prices := ListIfAt(fc, version >= 29, LEG_PRICE, ts, legs.next).value;
    ListIfStable(fc, version >= 26, TAG_VALUE, ts, more, prices.next);
  }

  lemma ScalingStable(fc: FloatCodec, version: int, ts: seq<Text>, more: seq<Text>, pos: nat)
    requires ScalingAt(fc, version, ts, pos).Success?
    ensures ScalingAt(fc, version, ts + more, pos) == ScalingAt(fc, version, ts, pos)
  {
    hide BlockAt, AsFloatUnset;
    BlockStable(fc, [KIntUnset, KIntUnset], ts, more, pos);
    FieldStable(ts, more, pos + 2);
    var increment := FloatUnsetAt(fc, ts, pos + 2).value;
    BlockStable(fc, On(version >= 28 && IncrementOn(increment), SCALE_TERMS), ts, more, pos + 3);
  }

  lemma HedgingStable(fc: FloatCodec, version: int, ts: seq<Text>, more: seq<Text>, pos: nat)
    requires HedgingAt(fc, version, ts, pos).Success?
    ensures HedgingAt(fc, version, ts + more, pos) == HedgingAt(fc, version, ts, pos)
  {
    hide BlockAt;
    if version >= 24 {
      FieldStable(ts, more, pos);
      BlockStable(fc, On(ts[pos] != [], [KStr]), ts, more, pos + 1);
    }
  }

  lemma NeutralStable(fc: FloatCodec, version: int, ts: seq<Text>, more: seq<Text>, pos: nat)
    requires NeutralAt(fc, version, ts, pos).Success?
    ensures NeutralAt(fc, version, ts + more, pos) == NeutralAt(fc, version, ts, pos)
  {
    hide BlockAt;
    if version >= 20 {
      FieldStable(ts, more, pos);
      BlockStable(fc, On(AsBool(ts[pos]), DN_CONTRACT), ts, more, pos + 1);
    }
  }

  lemma AlgorithmStable(fc: FloatCodec, version: int, ts: seq<Text>, more: seq<Text>, pos: nat)
    requires AlgorithmAt(fc, version, ts, pos).Success?
    ensures AlgorithmAt(fc, version, ts + more, pos) == AlgorithmAt(fc, version, ts, pos)
  {
    hide ListIfAt;
    if version >= 21 {
      FieldStable(ts, more, pos);
      ListIfStable(fc, ts[pos] != [], TAG_VALUE, ts, more, pos + 1);
    }
  }

  lemma AdjustingStable(fc: FloatCodec, dv: int, orderType: Text, ts: seq<Text>, more: seq<Text>, pos: nat)
    requires AdjustingAt(fc, dv, orderType, ts, pos).Success?
    ensures AdjustingAt(fc, dv, orderType, ts + more, pos) == AdjustingAt(fc, dv, orderType, ts, pos)
  {
    hide BlockAt, AsInt, MadeAt, On;
    if dv >= PEGGED_TO_BENCHMARK {
      BlockStable(fc, On(orderType == PEG_BENCH, PEG), ts, more, pos);
      var p := pos + |On(orderType == PEG_BENCH, PEG)|;
      FieldStable(ts, more, p);
      var n := CountAt(ts, p).value.value;
      MadeStable(NewCondition, ReadsOf, fc, n, ts, more, p + 1);
      var q := ConditionListAt(fc, n, ts, p + 1).value.next;
      BlockStable(fc, On(n > 0, [KBool, KBool]), ts, more, q);
      BlockStable(fc, ADJUSTED_READS, ts, more, q + |On(n > 0, [KBool, KBool])|);
    }
  }

  /** Appending any fields yields the same contract, order and state and leaves exactly those fields unread. */
  lemma PrefixStable(fc: FloatCodec, dv: int, ts: seq<Text>, more: seq<Text>, pos: nat)
    requires OpenOrderAt(fc, dv, ts, pos).Success?
    ensures OpenOrderAt(fc, dv, ts + more, pos) == OpenOrderAt(fc, dv, ts, pos)
    ensures OpenOrderAt(fc, dv, ts, pos).value.next == |ts|
            ==> (ts + more)[OpenOrderAt(fc, dv, ts + more, pos).value.next..] == more
  {
    hide HeadAt, VolAt, ComboListsAt, ScalingAt, HedgingAt, BlockAt, NeutralAt, AlgorithmAt, AdjustingAt;
    hide FlagKinds, StateKinds, TailKinds;
    HeadStable(fc, dv, ts, more, pos);
    var head := HeadAt(fc, dv, ts, pos).value;
    var version := head.value.version;
    VolStable(fc, version, ts, more, head.next);
    var vol := VolAt(fc, version, ts, head.next).value;
    GroupsStill(fc, version, ts, more, vol.next);
    var groups := ComboListsAt(fc, version, ts, vol.next).value;
    ScalingStable(fc, version, ts, more, groups.next);
    var scaling := ScalingAt(fc, version, ts, groups.next).value;
    HedgingStable(fc, version, ts, more, scaling.next);
    var hedging := HedgingAt(fc, version, ts, scaling.next).value;
    BlockStable(fc, FlagKinds(version), ts, more, hedging.next);
    var flags := BlockAt(fc, FlagKinds(version), ts, hedging.next).value;
    NeutralStable(fc, version, ts, more, flags.next);
    var neutral := NeutralAt(fc, version, ts, flags.next).value;
    AlgorithmStable(fc, version, ts, more, neutral.next);
    var algo := AlgorithmAt(fc, version, ts, neutral.next).value;
    BlockStable(fc, StateKinds(dv, version), ts, more, algo.next);
    var state := BlockAt(fc, StateKinds(dv, version), ts, algo.next).value;
    AdjustingStable(fc, dv, head.value.orderType, ts, more, state.next);
    var adjusting := AdjustingAt(fc, dv, head.value.orderType, ts, state.next).value;
    BlockStable(fc, TailKinds(dv), ts, more, adjusting.next);
  }
}
