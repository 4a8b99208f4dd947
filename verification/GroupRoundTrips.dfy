/** The groups that PlaceOrder writes and processOpenOrder reads: each is read back equal, for any number of items, and
    leaves the cursor exactly at its end. */
module GroupRoundTrips {
  import opened Basics
  import opened Fields
  import opened Cursor
  import opened Conditions
  import opened OrderLayout
  import opened Orders
  import opened OrderEncoding
  import opened Versions
  import OO = OpenOrder

  // ---------------------------------------------------------------- lists

  /** A list whose items are blocks of fixed kinds is read back by the counted loop. */
  lemma ListReadsBack(fc: FloatCodec, ks: seq<Kind>, blocks: seq<seq<Value>>, items: seq<seq<Field>>, ts: seq<Text>,
                      pos: nat)
    requires fc.Valid() && Sound(fc, ks, blocks) && |items| == |blocks| <= INT64_MAX
    requires forall i :: 0 <= i < |blocks| ==> items[i] == WriteBlock(fc, ks, blocks[i])
    requires Here(ts, pos, RenderAll(fc, ListFields(items)))
    ensures CountedAt(fc, ks, ts, pos) == Success(At(blocks, pos + |ListFields(items)|))
  {
    RenderList(fc, items);
    assert RenderEach(fc, items) == BlockTexts(fc, ks, blocks);
    hide Here, ListFields, BlockTexts, CountedAt, Listed;
    CountedReadsBack(fc, ks, blocks, ts, pos);
  }

  function PriceValues(prices: seq<Float>): seq<seq<Value>> {
    seq(|prices|, i requires 0 <= i < |prices| => [VFloat(prices[i])])
  }

  function TagValues(tvs: seq<TagValue>): seq<seq<Value>> {
    seq(|tvs|, i requires 0 <= i < |tvs| => [VStr(tvs[i].tag), VStr(tvs[i].value)])
  }

  function LegValues(legs: seq<Leg>): seq<seq<Value>> {
    seq(|legs|, i requires 0 <= i < |legs| => legs[i].Values())
  }

  lemma LegsReadBack(fc: FloatCodec, legs: seq<Leg>, ts: seq<Text>, pos: nat)
    requires fc.Valid() && |legs| <= INT64_MAX
    requires Here(ts, pos, RenderAll(fc, ListFields(LegFields(fc, legs))))
    ensures CountedAt(fc, LEG, ts, pos) == Success(At(LegValues(legs), pos + |ListFields(LegFields(fc, legs))|))
  {
    forall i | 0 <= i < |legs| ensures SurvivesAll(fc, LEG, legs[i].Values()) {
    }
    hide Here, ListFields, CountedAt, WriteBlock;
    ListReadsBack(fc, LEG, LegValues(legs), LegFields(fc, legs), ts, pos);
  }

  ghost predicate Printable(fc: FloatCodec, f: Float) { f == UNSETFLOAT || fc.Exact(f) }

  lemma PricesReadBack(fc: FloatCodec, prices: seq<Float>, ts: seq<Text>, pos: nat)
    requires fc.Valid() && |prices| <= INT64_MAX && (forall i :: 0 <= i < |prices| ==> Printable(fc, prices[i]))
    requires Here(ts, pos, RenderAll(fc, ListFields(PriceFields(fc, prices))))
    ensures CountedAt(fc, LEG_PRICE, ts, pos)
        == Success(At(PriceValues(prices), pos + |ListFields(PriceFields(fc, prices))|))
  {
    var blocks, items := PriceValues(prices), PriceFields(fc, prices);
    forall i | 0 <= i < |prices|
      ensures TypedAll(LEG_PRICE, blocks[i]) && SurvivesAll(fc, LEG_PRICE, blocks[i])
      ensures items[i] == WriteBlock(fc, LEG_PRICE, blocks[i])
    {
      assert Printable(fc, prices[i]);
    }
    hide Here, ListFields, CountedAt, WriteBlock;
    ListReadsBack(fc, LEG_PRICE, blocks, items, ts, pos);
  }

  lemma TagsReadBack(fc: FloatCodec, tvs: seq<TagValue>, ts: seq<Text>, pos: nat)
    requires fc.Valid() && |tvs| <= INT64_MAX
    requires Here(ts, pos, RenderAll(fc, ListFields(TagFields(tvs))))
    ensures CountedAt(fc, TAG_VALUE, ts, pos) == Success(At(TagValues(tvs), pos + |ListFields(TagFields(tvs))|))
  {
    var blocks, items := TagValues(tvs), TagFields(tvs);
    forall i | 0 <= i < |tvs|
      ensures TypedAll(TAG_VALUE, blocks[i]) && SurvivesAll(fc, TAG_VALUE, blocks[i])
      ensures items[i] == WriteBlock(fc, TAG_VALUE, blocks[i])
    {
    }
    hide Here, ListFields, CountedAt, WriteBlock;
    ListReadsBack(fc, TAG_VALUE, blocks, items, ts, pos);
  }

  /** Two adjacent pieces. */
  lemma PartsHere(fc: FloatCodec, a: seq<Field>, b: seq<Field>, ts: seq<Text>, pos: nat)
    ensures Here(ts, pos, RenderAll(fc, a + b))
            <==> Here(ts, pos, RenderAll(fc, a)) && Here(ts, pos + |a|, RenderAll(fc, b))
  {
    RenderConcat(fc, a, b);
    hide Here;
    HereSplit(ts, pos, RenderAll(fc, a), RenderAll(fc, b));
  }

  /** Combo legs, order combo legs and smart routing parameters. */
  lemma ComboReadsBack(fc: FloatCodec, version: int, c: Contract, o: Order, ts: seq<Text>, pos: nat)
    requires fc.Valid() && c.Valid() && o.Valid() && c.secType == BAG && version >= 29
    requires forall i :: 0 <= i < |o.orderComboLegs| ==> Printable(fc, o.orderComboLegs[i])
    requires Here(ts, pos, RenderAll(fc, ComboFields(fc, c, o)))
    ensures OO.ComboListsAt(fc, version, ts, pos)
            == Success(At(OO.Groups(LegValues(c.comboLegs), PriceValues(o.orderComboLegs), TagValues(o.smartRouting)),
                          pos + |ComboFields(fc, c, o)|))
  {
    hide Here, RenderAll, ListFields, CountedAt, LegValues, PriceValues, TagValues, Printable, TypedAll, WriteBlock;
    var a := ListFields(LegFields(fc, c.comboLegs));
    var b := ListFields(PriceFields(fc, o.orderComboLegs));
    var d := ListFields(TagFields(o.smartRouting));
    PartsHere(fc, a, b + d, ts, pos);
    PartsHere(fc, b, d, ts, pos + |a|);
    LegsReadBack(fc, c.comboLegs, ts, pos);
    PricesReadBack(fc, o.orderComboLegs, ts, pos + |a|);
    TagsReadBack(fc, o.smartRouting, ts, pos + |a| + |b|);
  }

  lemma TextHere(fc: FloatCodec, f: Field, ts: seq<Text>, pos: nat)
    requires Here(ts, pos, RenderAll(fc, [f]))
    ensures TextAt(ts, pos) == Success(Render(fc, f))
  {
    RenderOne(fc, f);
    OneHere(Render(fc, f), ts, pos);
  }

  /** Algo strategy and parameters. */
  lemma AlgoReadsBack(fc: FloatCodec, version: int, o: Order, ts: seq<Text>, pos: nat)
    requires fc.Valid() && o.Valid() && version >= 21
    requires Here(ts, pos, RenderAll(fc, [FStr(o.algoStrategy)]
                                         + (if o.algoStrategy == [] then [] else ListFields(TagFields(o.algoParams)))))
    ensures OO.AlgorithmAt(fc, version, ts, pos)
            == Success(At(OO.Algorithm(o.algoStrategy, if o.algoStrategy == [] then [] else TagValues(o.algoParams)),
                          pos + 1 + (if o.algoStrategy == [] then 0 else |ListFields(TagFields(o.algoParams))|)))
  {
    hide Here, RenderAll, ListFields, CountedAt, TagValues;
    var params := if o.algoStrategy == [] then [] else ListFields(TagFields(o.algoParams));
    PartsHere(fc, [FStr(o.algoStrategy)], params, ts, pos);
    TextHere(fc, FStr(o.algoStrategy), ts, pos);
    if o.algoStrategy != [] {
      TagsReadBack(fc, o.algoParams, ts, pos + 1);
    }
  }

  // ---------------------------------------------------------------- optional blocks

  lemma IfReadsBack(fc: FloatCodec, on: bool, ks: seq<Kind>, vs: seq<Value>, ts: seq<Text>, pos: nat)
    requires fc.Valid() && pos <= |ts|
    requires on ==> TypedAll(ks, vs) && SurvivesAll(fc, ks, vs) && Here(ts, pos, RenderAll(fc, WriteBlock(fc, ks, vs)))
    ensures BlockAt(fc, On(on, ks), ts, pos) == Success(At(if on then vs else [], pos + Gate(on, |ks|)))
  {
    if on {
      BlockReadsBack(fc, ks, vs, ts, pos);
    }
  }

  /** Hedge type and parameter. */
  lemma HedgeReadsBack(fc: FloatCodec, version: int, o: Order, ts: seq<Text>, pos: nat)
    requires fc.Valid() && version >= 24 && Here(ts, pos, RenderAll(fc, [FStr(o.hedgeType)] + HedgeParamFields(o)))
    ensures OO.HedgingAt(fc, version, ts, pos)
            == Success(At(OO.Hedging(o.hedgeType, if o.hedgeType != [] then [VStr(o.hedgeParam)] else []),
                          pos + 1 + |HedgeParamFields(o)|))
  {
    PartsHere(fc, [FStr(o.hedgeType)], HedgeParamFields(o), ts, pos);
    TextHere(fc, FStr(o.hedgeType), ts, pos);
    assert o.hedgeType != [] ==> HedgeParamFields(o) == WriteBlock(fc, [KStr], [VStr(o.hedgeParam)]);
    hide RenderAll, BlockAt, On, WriteBlock;
    IfReadsBack(fc, o.hedgeType != [], [KStr], [VStr(o.hedgeParam)], ts, pos + 1);
  }

  function NeutralValues(c: Contract): seq<Value> {
    if c.deltaNeutral.Some? then c.deltaNeutral.value.Values() else []
  }

  /** The delta-neutral contract, present or not. */
  lemma NeutralReadsBack(fc: FloatCodec, version: int, c: Contract, ts: seq<Text>, pos: nat)
    requires fc.Valid() && c.Valid() && version >= 20
    requires c.deltaNeutral.Some? ==> SurvivesAll(fc, DN_CONTRACT, c.deltaNeutral.value.Values())
    requires Here(ts, pos, RenderAll(fc, [FBool(c.deltaNeutral.Some?)] + DnContractFields(fc, c)))
    ensures OO.NeutralAt(fc, version, ts, pos)
            == Success(At(OO.Neutral(c.deltaNeutral.Some?, NeutralValues(c)),
                          pos + 1 + |DnContractFields(fc, c)|))
  {
    var present := c.deltaNeutral.Some?;
    PartsHere(fc, [FBool(present)], DnContractFields(fc, c), ts, pos);
    TextHere(fc, FBool(present), ts, pos);
    hide RenderAll, BlockAt, On, WriteBlock, TypedAll, SurvivesAll;
    IfReadsBack(fc, present, DN_CONTRACT, NeutralValues(c), ts, pos + 1);
  }

  /** The PEG BENCH block. */
  lemma PegReadsBack(fc: FloatCodec, o: Order, ts: seq<Text>, pos: nat)
    requires fc.Valid() && o.Valid() && (o.orderType == PEG_BENCH ==> SurvivesAll(fc, PEG, o.peg.Values()))
    requires Here(ts, pos, RenderAll(fc, PegFields(fc, o)))
    ensures BlockAt(fc, On(o.orderType == PEG_BENCH, PEG), ts, pos)
            == Success(At(if o.orderType == PEG_BENCH then o.peg.Values() else [], pos + |PegFields(fc, o)|))
  {
    hide RenderAll, BlockAt, On, WriteBlock, SurvivesAll;
    IfReadsBack(fc, o.orderType == PEG_BENCH, PEG, o.peg.Values(), ts, pos);
  }

  /** Scale sizes, increment and the terms that depend on it. */
  lemma ScaleReadsBack(fc: FloatCodec, version: int, o: Order, ts: seq<Text>, pos: nat)
    requires fc.Valid() && o.Valid() && version >= 28 && Printable(fc, o.scaleIncrement)
    requires Scaled(o) ==> SurvivesAll(fc, SCALE_TERMS, o.scaleTerms.Values())
    requires Here(ts, pos, RenderAll(fc, [HandleEmptyInt(o.scaleInit), HandleEmptyInt(o.scaleSubs)]
                                         + ([HandleEmptyFloat(fc, o.scaleIncrement)] + ScaleTermFields(fc, o))))
    ensures OO.ScalingAt(fc, version, ts, pos)
            == Success(At(OO.Scaling([VInt(o.scaleInit), VInt(o.scaleSubs)], o.scaleIncrement,
                                     if Scaled(o) then o.scaleTerms.Values() else []),
                          pos + 3 + |ScaleTermFields(fc, o)|))
  {
    var sizes, inc := [HandleEmptyInt(o.scaleInit), HandleEmptyInt(o.scaleSubs)],
      HandleEmptyFloat(fc, o.scaleIncrement);
    SizesReadBack(fc, o.scaleInit, o.scaleSubs, [inc] + ScaleTermFields(fc, o), ts, pos);
    hide RenderAll, BlockAt, On, WriteBlock, TypedAll, SurvivesAll;
    PartsHere(fc, [inc], ScaleTermFields(fc, o), ts, pos + 2);
    TextHere(fc, inc, ts, pos + 2);
    UnsetFloatRoundTrip(fc, o.scaleIncrement);
    IfReadsBack(fc, Scaled(o), SCALE_TERMS, o.scaleTerms.Values(), ts, pos + 3);
  }

  lemma SizesReadBack(fc: FloatCodec, init: int64, subs: int64, rest: seq<Field>, ts: seq<Text>, pos: nat)
    requires fc.Valid() && Here(ts, pos, RenderAll(fc, [HandleEmptyInt(init), HandleEmptyInt(subs)] + rest))
    ensures BlockAt(fc, [KIntUnset, KIntUnset], ts, pos) == Success(At([VInt(init), VInt(subs)], pos + 2))
    ensures Here(ts, pos + 2, RenderAll(fc, rest))
  {
    var sizes := [HandleEmptyInt(init), HandleEmptyInt(subs)];
    PartsHere(fc, sizes, rest, ts, pos);
    assert sizes == WriteBlock(fc, [KIntUnset, KIntUnset], [VInt(init), VInt(subs)]);
    BlockReadsBack(fc, [KIntUnset, KIntUnset], [VInt(init), VInt(subs)], ts, pos);
  }

  /** The delta-neutral order block: type, auxiliary price, and eight more fields if there is a type. */
  lemma DnOrderReadsBack(fc: FloatCodec, version: int, o: Order, ts: seq<Text>, pos: nat)
    requires fc.Valid() && o.Valid() && version >= 31 && Printable(fc, o.dnAuxPrice)
    requires Here(ts, pos, RenderAll(fc, [FStr(o.dnType)] + DnOrderFields(fc, o)))
    ensures TextAt(ts, pos) == Success(o.dnType)
    ensures BlockAt(fc, OO.DnKinds(version, o.dnType), ts, pos + 1)
            == Success(At([VFloat(o.dnAuxPrice)] + (if o.dnType != [] then o.dnOrder.Values() else []),
                          pos + 1 + |DnOrderFields(fc, o)|))
  {
    PartsHere(fc, [FStr(o.dnType)], DnOrderFields(fc, o), ts, pos);
    TextHere(fc, FStr(o.dnType), ts, pos);
    var ks := [KFloatUnset] + On(o.dnType != [], DN_ORDER);
    var vs := [VFloat(o.dnAuxPrice)] + (if o.dnType != [] then o.dnOrder.Values() else []);
    DnOrderIsBlock(fc, version, o, ks, vs);
    hide RenderAll, On, WriteBlock, TypedAll, SurvivesAll, Here, OO.DnKinds, DnOrderFields;
    BlockReadsBack(fc, ks, vs, ts, pos + 1);
  }

  lemma DnOrderIsBlock(fc: FloatCodec, version: int, o: Order, ks: seq<Kind>, vs: seq<Value>)
    requires o.Valid() && version >= 31 && Printable(fc, o.dnAuxPrice)
    requires ks == [KFloatUnset] + On(o.dnType != [], DN_ORDER)
    requires vs == [VFloat(o.dnAuxPrice)] + (if o.dnType != [] then o.dnOrder.Values() else [])
    ensures OO.DnKinds(version, o.dnType) == ks && TypedAll(ks, vs) && SurvivesAll(fc, ks, vs)
    ensures DnOrderFields(fc, o) == WriteBlock(fc, ks, vs)
  {
  }

  // ---------------------------------------------------------------- conditions

  /** What a condition writes, as a block of the kinds decode reads. */
  function ValuesOf(c: Condition): seq<Value> {
    match c
    case Plain(b) => BaseValues(b)
    case Operator(op) => OperatorValues(op)
    case Contract(cc) => ContractValues(cc)
    case Price(cc, price, tm) => ContractValues(cc) + [VFloat(price), VInt(tm)]
    case Time(op, time) => OperatorValues(op) + [VStr(time)]
    case Margin(op, percent) => OperatorValues(op) + [VFloat(percent)]
    case Execution(b, st, ex, sym) => BaseValues(b) + [VStr(st), VStr(ex), VStr(sym)]
    case Volume(cc, v) => ContractValues(cc) + [VInt(v)]
    case PercentChange(cc, p) => ContractValues(cc) + [VFloat(p)]
  }

  function BaseValues(b: OrderCondition): seq<Value> { [VStr(if b.isConjunction then A else O)] }

  function OperatorValues(op: OperatorCondition): seq<Value> { BaseValues(op.base) + [VBool(op.isMore)] }

  function ContractValues(cc: ContractCondition): seq<Value> {
    OperatorValues(cc.base) + [VInt(cc.conID), VStr(cc.exchange)]
  }

  lemma WriteConcat(fc: FloatCodec, ks: seq<Kind>, vs: seq<Value>, js: seq<Kind>, ws: seq<Value>)
    requires TypedAll(ks, vs) && TypedAll(js, ws)
    ensures TypedAll(ks + js, vs + ws)
    ensures WriteBlock(fc, ks + js, vs + ws) == WriteBlock(fc, ks, vs) + WriteBlock(fc, js, ws)
  {
    hide Typed;
  }

  lemma OperatorIsBlock(fc: FloatCodec, op: OperatorCondition)
    ensures TypedAll(BASE_READS, BaseValues(op.base))
    ensures BaseFields(op.base) == WriteBlock(fc, BASE_READS, BaseValues(op.base))
    ensures TypedAll(OPERATOR_READS, OperatorValues(op))
    ensures OperatorFields(op) == WriteBlock(fc, OPERATOR_READS, OperatorValues(op))
  {
  }

  lemma ContractIsBlock(fc: FloatCodec, cc: ContractCondition)
    ensures TypedAll(CONTRACT_READS, ContractValues(cc))
    ensures ContractFields(cc) == WriteBlock(fc, CONTRACT_READS, ContractValues(cc))
  {
    OperatorIsBlock(fc, cc.base);
    hide OperatorValues, OperatorFields, WriteBlock, TypedAll;
    TwoAreBlock(fc, KInt, VInt(cc.conID), KStr, VStr(cc.exchange));
    WriteConcat(fc, OPERATOR_READS, OperatorValues(cc.base), [KInt, KStr], [VInt(cc.conID), VStr(cc.exchange)]);
  }

  lemma OneIsBlock(fc: FloatCodec, k: Kind, v: Value)
    requires Typed(k, v)
    ensures TypedAll([k], [v]) && WriteBlock(fc, [k], [v]) == [WriteAs(fc, k, v)]
  {
    hide Typed, WriteAs;
  }

  lemma TwoAreBlock(fc: FloatCodec, k: Kind, v: Value, j: Kind, w: Value)
    requires Typed(k, v) && Typed(j, w)
    ensures TypedAll([k, j], [v, w]) && WriteBlock(fc, [k, j], [v, w]) == [WriteAs(fc, k, v), WriteAs(fc, j, w)]
  {
    hide Typed, WriteAs;
  }

  lemma ExecutionIsBlock(fc: FloatCodec, c: Condition)
    requires c.Execution?
    ensures TypedAll(c.Reads(), ValuesOf(c)) && c.ToFields() == WriteBlock(fc, c.Reads(), ValuesOf(c))
  {
  }

  lemma ConditionIsBlock(fc: FloatCodec, c: Condition)
    ensures TypedAll(c.Reads(), ValuesOf(c)) && c.ToFields() == WriteBlock(fc, c.Reads(), ValuesOf(c))
  {
    hide OperatorValues, OperatorFields, ContractValues, ContractFields, BaseValues, BaseFields, WriteBlock, TypedAll;
    match c
    case Plain(b) => OperatorIsBlock(fc, OperatorCondition(b, true));
    case Operator(op) => OperatorIsBlock(fc, op);
    case Contract(cc) => ContractIsBlock(fc, cc);
    case Price(cc, price, tm) =>
      ContractIsBlock(fc, cc);
      TwoAreBlock(fc, KFloat, VFloat(price), KInt, VInt(tm));
      WriteConcat(fc, CONTRACT_READS, ContractValues(cc), [KFloat, KInt], [VFloat(price), VInt(tm)]);
    case Time(op, time) =>
      OperatorIsBlock(fc, op);
      OneIsBlock(fc, KStr, VStr(time));
      WriteConcat(fc, OPERATOR_READS, OperatorValues(op), [KStr], [VStr(time)]);
    case Margin(op, percent) =>
      OperatorIsBlock(fc, op);
      OneIsBlock(fc, KFloat, VFloat(percent));
      WriteConcat(fc, OPERATOR_READS, OperatorValues(op), [KFloat], [VFloat(percent)]);
    case Execution(_, _, _, _) => ExecutionIsBlock(fc, c);
    case Volume(cc, v) =>
      ContractIsBlock(fc, cc);
      OneIsBlock(fc, KInt, VInt(v));
      WriteConcat(fc, CONTRACT_READS, ContractValues(cc), [KInt], [VInt(v)]);
    case PercentChange(cc, p) =>
      ContractIsBlock(fc, cc);
      OneIsBlock(fc, KFloat, VFloat(p));
      WriteConcat(fc, CONTRACT_READS, ContractValues(cc), [KFloat], [VFloat(p)]);
  }

  /** A condition whose tag names its shape and whose floats print exactly. */
  ghost predicate Decodable(fc: FloatCodec, c: Condition) {
    TagMatches(c) && TypedAll(c.Reads(), ValuesOf(c)) && SurvivesAll(fc, c.Reads(), ValuesOf(c))
  }

  /** The fresh condition its tag stands for. */
  function ZeroOf(c: Condition): Condition {
    var init := InitOrderCondition(c.CondType());
    if init.Success? then init.value.0 else c
  }

  function ZerosOf(cs: seq<Condition>): seq<Condition> {
    seq(|cs|, i requires 0 <= i < |cs| => ZeroOf(cs[i]))
  }

  lemma SameShapeSameReads(c: Condition)
    requires TagMatches(c)
    ensures OO.NewCondition(c.CondType()) == Success(ZeroOf(c)) && ZeroOf(c).Reads() == c.Reads()
  {
  }

  lemma ConditionMade(fc: FloatCodec, t: int64, c: Condition, vs: seq<Value>, ts: seq<Text>, pos: nat, next: nat)
    requires IntAt(ts, pos) == Success(t) && OO.NewCondition(t) == Success(c)
    requires BlockAt(fc, c.Reads(), ts, pos + 1) == Success(At(vs, next))
    ensures OO.ConditionAt(fc, ts, pos) == Success(At(c, next))
  {
    hide BlockAt, OO.NewCondition, AsInt;
  }

  lemma TagHere(fc: FloatCodec, t: int64, ts: seq<Text>, pos: nat)
    requires Here(ts, pos, RenderAll(fc, [FInt(t)]))
    ensures IntAt(ts, pos) == Success(t)
  {
    TextHere(fc, FInt(t), ts, pos);
    IntRoundTrip(t);
  }

  lemma DecodableParts(fc: FloatCodec, c: Condition)
    requires Decodable(fc, c)
    ensures TagMatches(c) && TypedAll(c.Reads(), ValuesOf(c)) && SurvivesAll(fc, c.Reads(), ValuesOf(c))
    ensures ConditionFields(c) == [FInt(c.CondType())] + c.ToFields() && |ConditionFields(c)| == 1 + |c.Reads()|
  {
    ConditionIsBlock(fc, c);
  }

  lemma ConditionReadsBack(fc: FloatCodec, c: Condition, ts: seq<Text>, pos: nat)
    requires fc.Valid() && Decodable(fc, c) && Here(ts, pos, RenderAll(fc, ConditionFields(c)))
    ensures OO.ConditionAt(fc, ts, pos) == Success(At(ZeroOf(c), pos + |ConditionFields(c)|))
  {
    hide *;
    DecodableParts(fc, c);
    SameShapeSameReads(c);
    ConditionIsBlock(fc, c);
    PartsHere(fc, [FInt(c.CondType())], c.ToFields(), ts, pos);
    TagHere(fc, c.CondType(), ts, pos);
    BlockReadsBack(fc, c.Reads(), ValuesOf(c), ts, pos + 1);
    ConditionMade(fc, c.CondType(), ZeroOf(c), ValuesOf(c), ts, pos, pos + |ConditionFields(c)|);
  }

  lemma ListStep(fc: FloatCodec, n: nat, ts: seq<Text>, pos: nat, c: Condition, next: nat, others: seq<Condition>,
                 end: nat)
    requires n > 0 && OO.ConditionAt(fc, ts, pos) == Success(At(c, next))
    requires OO.ConditionListAt(fc, n - 1, ts, next) == Success(At(others, end))
    ensures OO.ConditionListAt(fc, n, ts, pos) == Success(At([c] + others, end))
  {
    hide OO.ConditionAt, OO.ConditionListAt;
    OO.ConditionRead(fc, n, ts, pos, []);
    NothingBehind(OO.ConditionListAt(fc, n, ts, pos));
    assert [] + [c] == [c];
  }

  lemma ZerosCons(cs: seq<Condition>)
    requires cs != []
    ensures ZerosOf(cs) == [ZeroOf(cs[0])] + ZerosOf(cs[1..])
  {
    hide ZeroOf;
  }

  lemma ConditionsSplit(fc: FloatCodec, cs: seq<Condition>, ts: seq<Text>, pos: nat)
    requires cs != [] && Here(ts, pos, RenderAll(fc, AllConditionFields(cs)))
    ensures |AllConditionFields(cs)| == |ConditionFields(cs[0])| + |AllConditionFields(cs[1..])|
    ensures Here(ts, pos, RenderAll(fc, ConditionFields(cs[0])))
    ensures Here(ts, pos + |ConditionFields(cs[0])|, RenderAll(fc, AllConditionFields(cs[1..])))
  {
    hide RenderAll, ConditionFields, Here;
    PartsHere(fc, ConditionFields(cs[0]), AllConditionFields(cs[1..]), ts, pos);
  }

  ghost predicate AllDecodable(fc: FloatCodec, cs: seq<Condition>) {
    forall i :: 0 <= i < |cs| ==> Decodable(fc, cs[i])
  }

  lemma DecodableRest(fc: FloatCodec, cs: seq<Condition>)
    requires cs != [] && AllDecodable(fc, cs)
    ensures Decodable(fc, cs[0]) && AllDecodable(fc, cs[1..])
  {
    hide Decodable;
  }

  lemma NoConditions(fc: FloatCodec, cs: seq<Condition>, ts: seq<Text>, pos: nat)
    requires cs == []
    ensures OO.ConditionListAt(fc, 0, ts, pos) == Success(At(ZerosOf(cs), pos + |AllConditionFields(cs)|))
  {
    assert ZerosOf(cs) == [];
  }

  /** Any list of conditions that PlaceOrder writes is read by the loop with the cursor exactly at its end; what comes
      out are fresh conditions of the same shapes, for decode loses the values. */
  lemma {:induction false} ConditionsReadBack(fc: FloatCodec, cs: seq<Condition>, n: nat, ts: seq<Text>, pos: nat)
    requires fc.Valid() && n == |cs| && AllDecodable(fc, cs) && Here(ts, pos, RenderAll(fc, AllConditionFields(cs)))
    ensures OO.ConditionListAt(fc, n, ts, pos) == Success(At(ZerosOf(cs), pos + |AllConditionFields(cs)|))
    decreases n
  {
    hide *;
    if n == 0 {
      NoConditions(fc, cs, ts, pos);
    } else {
      var next := pos + |ConditionFields(cs[0])|;
      DecodableRest(fc, cs);
      ConditionsSplit(fc, cs, ts, pos);
      ConditionReadsBack(fc, cs[0], ts, pos);
      ConditionsReadBack(fc, cs[1..], n - 1, ts, next);
      ListStep(fc, n, ts, pos, ZeroOf(cs[0]), next, ZerosOf(cs[1..]), next + |AllConditionFields(cs[1..])|);
      ZerosCons(cs);
    }
  }

  // ---------------------------------------------------------------- what was decoded, sent again

  /** Each condition that the loop makes was made for some tag. */
  ghost predicate Fresh(c: Condition) { exists t :: OO.NewCondition(t) == Success(c) }

  lemma {:induction false} AllFresh(fc: FloatCodec, n: nat, ts: seq<Text>, pos: nat)
    requires OO.ConditionListAt(fc, n, ts, pos).Success?
    ensures forall c :: c in OO.ConditionListAt(fc, n, ts, pos).value.value ==> Fresh(c)
    decreases n
  {
    if n > 0 {
      var c := OO.ConditionAt(fc, ts, pos).value;
      assert OO.NewCondition(IntAt(ts, pos).value) == Success(c.value);
      hide BlockAt, OO.NewCondition, OO.ReadsOf, IntAt;
      AllFresh(fc, n - 1, ts, c.next);
      assert OO.ConditionListAt(fc, n, ts, pos).value.value
        == [c.value] + OO.ConditionListAt(fc, n - 1, ts, c.next).value.value;
    }
  }

  lemma DecodedAreFresh(fc: FloatCodec, dv: int, orderType: Text, ts: seq<Text>, pos: nat)
    requires OO.AdjustingAt(fc, dv, orderType, ts, pos).Success?
    ensures forall c :: c in OO.AdjustingAt(fc, dv, orderType, ts, pos).value.value.conditions ==> Fresh(c)
  {
    if dv >= PEGGED_TO_BENCHMARK {
      hide BlockAt, OO.ConditionListAt, Fresh;
      var peg := BlockAt(fc, On(orderType == PEG_BENCH, PEG), ts, pos).value;
      var n := CountAt(ts, peg.next).value;
      AllFresh(fc, n.value, ts, n.next);
    }
  }

  lemma FreshNeverFits(c: Condition)
    requires Fresh(c)
    ensures !TagFits(c)
  {
    var t :| OO.NewCondition(t) == Success(c);
    DecodedTagIsLost(t);
  }

  lemma AllDecodedFresh(rc: FloatCodec, dv: int, ts: seq<Text>, pos: nat)
    requires OO.OpenOrderAt(rc, dv, ts, pos).Success?
    ensures forall c :: c in OO.OpenOrderAt(rc, dv, ts, pos).value.value.adjusting.conditions ==> Fresh(c)
  {
    hide OO.HeadAt, OO.VolAt, OO.ComboListsAt, OO.ScalingAt, OO.HedgingAt, BlockAt, OO.NeutralAt, OO.AlgorithmAt;
    hide OO.AdjustingAt, OO.FlagKinds, OO.StateKinds, OO.TailKinds, Fresh;
    var x := OO.OpenOrderAt(rc, dv, ts, pos).value.value;
    var head := OO.HeadAt(rc, dv, ts, pos).value;
    var vol := OO.VolAt(rc, x.head.version, ts, head.next).value;
    var groups := OO.ComboListsAt(rc, x.head.version, ts, vol.next).value;
    var scaling := OO.ScalingAt(rc, x.head.version, ts, groups.next).value;
    var hedging := OO.HedgingAt(rc, x.head.version, ts, scaling.next).value;
    var flags := BlockAt(rc, OO.FlagKinds(x.head.version), ts, hedging.next).value;
    var neutral := OO.NeutralAt(rc, x.head.version, ts, flags.next).value;
    var algo := OO.AlgorithmAt(rc, x.head.version, ts, neutral.next).value;
    var state := BlockAt(rc, OO.StateKinds(dv, x.head.version), ts, algo.next).value;
    DecodedAreFresh(rc, dv, x.head.orderType, ts, state.next);
  }

  lemma FreshConditionsUnsendable(fc: FloatCodec, v: int, id: int64, c: Contract, o: Order)
    requires c.Valid() && o.Valid() && forall k :: k in o.conditions ==> Fresh(k)
    ensures ReadOrder(fc, v, RenderAll(fc, OrderFields(fc, v, id, c, o))) == Success(View(fc, v, id, c, o))
            <==> ScaleReadable(fc, o) && o.conditions == []
  {
    hide ReadOrder, RenderAll, OrderFields, View, Fresh, TagFits, ScaleReadable;
    PlaceOrderReadable(fc, v, id, c, o);
    if o.conditions != [] {
      assert o.conditions[0] in o.conditions;
      FreshNeverFits(o.conditions[0]);
    }
  }

  /** An order with the conditions of any open order that the decoder has read is readable, when sent again, exactly if
      its scale increment is and there are no conditions. */
  lemma DecodedConditionsUnsendable(rc: FloatCodec, dv: int, ts: seq<Text>, pos: nat, x: OO.OpenOrder, next: nat,
                                    fc: FloatCodec, v: int, id: int64, c: Contract, o: Order)
    requires OO.OpenOrderAt(rc, dv, ts, pos) == Success(At(x, next)) && o.conditions == x.adjusting.conditions
    requires c.Valid() && o.Valid()
    ensures ReadOrder(fc, v, RenderAll(fc, OrderFields(fc, v, id, c, o))) == Success(View(fc, v, id, c, o))
            <==> ScaleReadable(fc, o) && o.conditions == []
  {
    hide OO.OpenOrderAt, Fresh, ReadOrder, RenderAll, OrderFields, View;
    AllDecodedFresh(rc, dv, ts, pos);
    FreshConditionsUnsendable(fc, v, id, c, o);
  }
}
