/** The open-order decoder inverts its natural encoding: for every server version, message version, combination of flags
    and list lengths, the fields of an open order, written with their gates, flags and counts, are read back equal and
    consumed exactly. Conditions come back as fresh ones of their types. */
module OpenOrderRoundTrip {
  import opened Basics
  import opened Fields
  import opened Cursor
  import opened Conditions
  import opened OrderLayout
  import opened Orders
  import opened OrderEncoding
  import opened GroupRoundTrips
  import opened OpenOrder
  import opened Versions

  /** A block that its readers recover. */
  ghost predicate Fine(fc: FloatCodec, ks: seq<Kind>, vs: seq<Value>) { TypedAll(ks, vs) && SurvivesAll(fc, ks, vs) }

  ghost function Written(fc: FloatCodec, ks: seq<Kind>, vs: seq<Value>): (fs: seq<Field>)
    requires Fine(fc, ks, vs)
    ensures |fs| == |ks|
  {
    WriteBlock(fc, ks, vs)
  }

  lemma FineReadsBack(fc: FloatCodec, ks: seq<Kind>, vs: seq<Value>, ts: seq<Text>, pos: nat)
    requires fc.Valid() && Fine(fc, ks, vs) && Here(ts, pos, RenderAll(fc, Written(fc, ks, vs)))
    ensures BlockAt(fc, ks, ts, pos) == Success(At(vs, pos + |ks|))
  {
    BlockReadsBack(fc, ks, vs, ts, pos);
  }

  ghost predicate FineList(fc: FloatCodec, on: bool, ks: seq<Kind>, blocks: seq<seq<Value>>) {
    Sound(fc, ks, blocks) && |blocks| <= INT64_MAX && (!on ==> blocks == [])
  }

  function BlockFields(fc: FloatCodec, ks: seq<Kind>, blocks: seq<seq<Value>>): seq<seq<Field>>
    requires forall i :: 0 <= i < |blocks| ==> TypedAll(ks, blocks[i])
  {
    seq(|blocks|, i requires 0 <= i < |blocks| => WriteBlock(fc, ks, blocks[i]))
  }

  function ListIfFields(fc: FloatCodec, on: bool, ks: seq<Kind>, blocks: seq<seq<Value>>): seq<Field>
    requires |blocks| <= INT64_MAX && forall i :: 0 <= i < |blocks| ==> TypedAll(ks, blocks[i])
  {
    if on then ListFields(BlockFields(fc, ks, blocks)) else []
  }

  lemma ListIfReadsBack(fc: FloatCodec, on: bool, ks: seq<Kind>, blocks: seq<seq<Value>>, ts: seq<Text>, pos: nat)
    requires fc.Valid() && FineList(fc, on, ks, blocks)
    requires Here(ts, pos, RenderAll(fc, ListIfFields(fc, on, ks, blocks)))
    ensures ListIfAt(fc, on, ks, ts, pos) == Success(At(blocks, pos + |ListIfFields(fc, on, ks, blocks)|))
  {
    if on {
      hide Here, ListFields, RenderAll, WriteBlock, CountedAt;
      ListReadsBack(fc, ks, blocks, BlockFields(fc, ks, blocks), ts, pos);
    }
  }

  // ---------------------------------------------------------------- sections

  ghost predicate FineHead(fc: FloatCodec, dv: int, h: Head) {
    && (if dv < ORDER_CONTAINER then INT64_MIN <= h.version <= INT64_MAX else h.version == dv)
    && Fine(fc, TermKinds(dv, h.version), h.terms) && Fine(fc, PriceKinds(dv, h.version), h.prices)
  }

  ghost function HeadPart(fc: FloatCodec, dv: int, h: Head): seq<Field>
    requires FineHead(fc, dv, h)
  {
    VersionPart(dv, h.version) + (Written(fc, TermKinds(dv, h.version), h.terms)
    + ([FStr(h.orderType)] + Written(fc, PriceKinds(dv, h.version), h.prices)))
  }

  function VersionPart(dv: int, version: int): seq<Field>
    requires dv < ORDER_CONTAINER ==> INT64_MIN <= version <= INT64_MAX
  {
    if dv < ORDER_CONTAINER then [FInt(version as int64)] else []
  }

  lemma VersionReadsBack(fc: FloatCodec, dv: int, version: int, ts: seq<Text>, pos: nat)
    requires if dv < ORDER_CONTAINER then INT64_MIN <= version <= INT64_MAX else version == dv
    requires Here(ts, pos, RenderAll(fc, VersionPart(dv, version)))
    ensures VersionAt(dv, ts, pos) == Success(At(version, pos + |VersionPart(dv, version)|))
  {
    if dv < ORDER_CONTAINER {
      TagHere(fc, version as int64, ts, pos);
    }
  }

  lemma HeadReadsBack(fc: FloatCodec, dv: int, h: Head, ts: seq<Text>, pos: nat)
    requires fc.Valid() && FineHead(fc, dv, h) && Here(ts, pos, RenderAll(fc, HeadPart(fc, dv, h)))
    ensures HeadAt(fc, dv, ts, pos) == Success(At(h, pos + |HeadPart(fc, dv, h)|))
  {
    hide Here, RenderAll, BlockAt, TermKinds, PriceKinds, VersionAt, Fine, Written;
    var a, b := VersionPart(dv, h.version), Written(fc, TermKinds(dv, h.version), h.terms);
    var c, d := [FStr(h.orderType)], Written(fc, PriceKinds(dv, h.version), h.prices);
    PartsHere(fc, a, b + (c + d), ts, pos);
    PartsHere(fc, b, c + d, ts, pos + |a|);
    PartsHere(fc, c, d, ts, pos + |a| + |b|);
    VersionReadsBack(fc, dv, h.version, ts, pos);
    FineReadsBack(fc, TermKinds(dv, h.version), h.terms, ts, pos + |a|);
    TextHere(fc, FStr(h.orderType), ts, pos + |a| + |b|);
    FineReadsBack(fc, PriceKinds(dv, h.version), h.prices, ts, pos + |a| + |b| + 1);
  }

  ghost predicate FineVol(fc: FloatCodec, version: int, x: Vol) {
    Fine(fc, DnKinds(version, x.dnType), x.dn) && Fine(fc, TrailKinds(version), x.trail)
  }

  ghost function VolPart(fc: FloatCodec, version: int, x: Vol): seq<Field>
    requires FineVol(fc, version, x)
  {
    [FStr(x.dnType)] + (Written(fc, DnKinds(version, x.dnType), x.dn) + Written(fc, TrailKinds(version), x.trail))
  }

  lemma VolReadsBack(fc: FloatCodec, version: int, x: Vol, ts: seq<Text>, pos: nat)
    requires fc.Valid() && FineVol(fc, version, x) && Here(ts, pos, RenderAll(fc, VolPart(fc, version, x)))
    ensures VolAt(fc, version, ts, pos) == Success(At(x, pos + |VolPart(fc, version, x)|))
  {
    hide Here, RenderAll, BlockAt, DnKinds, TrailKinds, Fine, Written;
    var b, c := Written(fc, DnKinds(version, x.dnType), x.dn), Written(fc, TrailKinds(version), x.trail);
    PartsHere(fc, [FStr(x.dnType)], b + c, ts, pos);
    PartsHere(fc, b, c, ts, pos + 1);
    TextHere(fc, FStr(x.dnType), ts, pos);
    FineReadsBack(fc, DnKinds(version, x.dnType), x.dn, ts, pos + 1);
    FineReadsBack(fc, TrailKinds(version), x.trail, ts, pos + 1 + |b|);
  }

  ghost predicate FineGroups(fc: FloatCodec, version: int, x: Groups) {
    && FineList(fc, version >= 29, LEG, x.legs) && FineList(fc, version >= 29, LEG_PRICE, x.prices)
    && FineList(fc, version >= 26, TAG_VALUE, x.routing)
  }

  ghost function GroupsPart(fc: FloatCodec, version: int, x: Groups): seq<Field>
    requires FineGroups(fc, version, x)
  {
    ListIfFields(fc, version >= 29, LEG, x.legs) + (ListIfFields(fc, version >= 29, LEG_PRICE, x.prices)
    + ListIfFields(fc, version >= 26, TAG_VALUE, x.routing))
  }

  lemma GroupsReadBack(fc: FloatCodec, version: int, x: Groups, ts: seq<Text>, pos: nat)
    requires fc.Valid() && FineGroups(fc, version, x) && Here(ts, pos, RenderAll(fc, GroupsPart(fc, version, x)))
    ensures ComboListsAt(fc, version, ts, pos) == Success(At(x, pos + |GroupsPart(fc, version, x)|))
  {
    hide Here, RenderAll, ListIfAt, ListIfFields;
    var a, b := ListIfFields(fc, version >= 29, LEG, x.legs), ListIfFields(fc, version >= 29, LEG_PRICE, x.prices);
    var c := ListIfFields(fc, version >= 26, TAG_VALUE, x.routing);
    PartsHere(fc, a, b + c, ts, pos);
    PartsHere(fc, b, c, ts, pos + |a|);
    ListIfReadsBack(fc, version >= 29, LEG, x.legs, ts, pos);
    ListIfReadsBack(fc, version >= 29, LEG_PRICE, x.prices, ts, pos + |a|);
    ListIfReadsBack(fc, version >= 26, TAG_VALUE, x.routing, ts, pos + |a| + |b|);
  }

  function ScaleTermKinds(version: int, increment: Float): seq<Kind> {
    On(version >= 28 && IncrementOn(increment), SCALE_TERMS)
  }

  ghost predicate FineScaling(fc: FloatCodec, version: int, x: Scaling) {
    && Fine(fc, [KIntUnset, KIntUnset], x.sizes) && Printable(fc, x.increment)
    && Fine(fc, ScaleTermKinds(version, x.increment), x.terms)
  }

  ghost function ScalingPart(fc: FloatCodec, version: int, x: Scaling): seq<Field>
    requires FineScaling(fc, version, x)
  {
    Written(fc, [KIntUnset, KIntUnset], x.sizes) + ([HandleEmptyFloat(fc, x.increment)]
    + Written(fc, ScaleTermKinds(version, x.increment), x.terms))
  }

  lemma ScalingReadsBack(fc: FloatCodec, version: int, x: Scaling, ts: seq<Text>, pos: nat)
    requires fc.Valid() && FineScaling(fc, version, x) && Here(ts, pos, RenderAll(fc, ScalingPart(fc, version, x)))
    ensures ScalingAt(fc, version, ts, pos) == Success(At(x, pos + |ScalingPart(fc, version, x)|))
  {
    UnsetFloatRoundTrip(fc, x.increment);
    hide Here, RenderAll, BlockAt, Fine, On, AsFloatUnset, Written, ScaleTermKinds, HandleEmptyFloat;
    var inc := HandleEmptyFloat(fc, x.increment);
    var a, c := Written(fc, [KIntUnset, KIntUnset], x.sizes),
      Written(fc, ScaleTermKinds(version, x.increment), x.terms);
    PartsHere(fc, a, [inc] + c, ts, pos);
    PartsHere(fc, [inc], c, ts, pos + 2);
    FineReadsBack(fc, [KIntUnset, KIntUnset], x.sizes, ts, pos);
    TextHere(fc, inc, ts, pos + 2);
    FineReadsBack(fc, ScaleTermKinds(version, x.increment), x.terms, ts, pos + 3);
    ScalingJoins(fc, version, x, ts, pos, pos + 3 + |c|);
  }

  lemma ScalingJoins(fc: FloatCodec, version: int, x: Scaling, ts: seq<Text>, pos: nat, next: nat)
    requires BlockAt(fc, [KIntUnset, KIntUnset], ts, pos) == Success(At(x.sizes, pos + 2))
    requires FloatUnsetAt(fc, ts, pos + 2) == Success(x.increment)
    requires BlockAt(fc, ScaleTermKinds(version, x.increment), ts, pos + 3) == Success(At(x.terms, next))
    ensures ScalingAt(fc, version, ts, pos) == Success(At(x, next))
  {
    hide BlockAt, FloatUnsetAt, On;
  }

  ghost predicate FineHedging(fc: FloatCodec, version: int, x: Hedging) {
    if version < 24 then x == Hedging([], []) else Fine(fc, On(x.kind != [], [KStr]), x.param)
  }

  ghost function HedgingPart(fc: FloatCodec, version: int, x: Hedging): seq<Field>
    requires FineHedging(fc, version, x)
  {
    if version < 24 then [] else [FStr(x.kind)] + Written(fc, On(x.kind != [], [KStr]), x.param)
  }

  lemma HedgingReadsBack(fc: FloatCodec, version: int, x: Hedging, ts: seq<Text>, pos: nat)
    requires fc.Valid() && FineHedging(fc, version, x) && Here(ts, pos, RenderAll(fc, HedgingPart(fc, version, x)))
    ensures HedgingAt(fc, version, ts, pos) == Success(At(x, pos + |HedgingPart(fc, version, x)|))
  {
    hide Here, RenderAll, BlockAt, Fine, On, Written;
    if version >= 24 {
      PartsHere(fc, [FStr(x.kind)], Written(fc, On(x.kind != [], [KStr]), x.param), ts, pos);
      TextHere(fc, FStr(x.kind), ts, pos);
      FineReadsBack(fc, On(x.kind != [], [KStr]), x.param, ts, pos + 1);
    }
  }

  ghost predicate FineNeutral(fc: FloatCodec, version: int, x: Neutral) {
    if version < 20 then x == Neutral(false, []) else Fine(fc, On(x.present, DN_CONTRACT), x.contract)
  }

  ghost function NeutralPart(fc: FloatCodec, version: int, x: Neutral): seq<Field>
    requires FineNeutral(fc, version, x)
  {
    if version < 20 then [] else [FBool(x.present)] + Written(fc, On(x.present, DN_CONTRACT), x.contract)
  }

  lemma NeutralReadsBackWhole(fc: FloatCodec, version: int, x: Neutral, ts: seq<Text>, pos: nat)
    requires fc.Valid() && FineNeutral(fc, version, x) && Here(ts, pos, RenderAll(fc, NeutralPart(fc, version, x)))
    ensures NeutralAt(fc, version, ts, pos) == Success(At(x, pos + |NeutralPart(fc, version, x)|))
  {
    hide Here, RenderAll, BlockAt, Fine, On, Written;
    if version >= 20 {
      PartsHere(fc, [FBool(x.present)], Written(fc, On(x.present, DN_CONTRACT), x.contract), ts, pos);
      TextHere(fc, FBool(x.present), ts, pos);
      FineReadsBack(fc, On(x.present, DN_CONTRACT), x.contract, ts, pos + 1);
    }
  }

  ghost predicate FineAlgorithm(fc: FloatCodec, version: int, x: Algorithm) {
    if version < 21 then x == Algorithm([], []) else FineList(fc, x.strategy != [], TAG_VALUE, x.params)
  }

  ghost function AlgorithmPart(fc: FloatCodec, version: int, x: Algorithm): seq<Field>
    requires FineAlgorithm(fc, version, x)
  {
    if version < 21 then [] else [FStr(x.strategy)] + ListIfFields(fc, x.strategy != [], TAG_VALUE, x.params)
  }

  lemma AlgorithmReadsBack(fc: FloatCodec, version: int, x: Algorithm, ts: seq<Text>, pos: nat)
    requires fc.Valid() && FineAlgorithm(fc, version, x) && Here(ts, pos, RenderAll(fc, AlgorithmPart(fc, version, x)))
    ensures AlgorithmAt(fc, version, ts, pos) == Success(At(x, pos + |AlgorithmPart(fc, version, x)|))
  {
    hide Here, RenderAll, ListIfAt, ListIfFields;
    if version >= 21 {
      PartsHere(fc, [FStr(x.strategy)], ListIfFields(fc, x.strategy != [], TAG_VALUE, x.params), ts, pos);
      TextHere(fc, FStr(x.strategy), ts, pos);
      ListIfReadsBack(fc, x.strategy != [], TAG_VALUE, x.params, ts, pos + 1);
    }
  }

  /** cs are the conditions sent; what is read are fresh conditions of their types. */
  ghost predicate FineAdjusting(fc: FloatCodec, dv: int, orderType: Text, x: Adjusting, cs: seq<Condition>) {
    if dv < PEGGED_TO_BENCHMARK then x == Adjusting([], [], [], []) && cs == []
    else
      && AllDecodable(fc, cs) && |cs| <= INT64_MAX && x.conditions == ZerosOf(cs)
      && Fine(fc, On(orderType == PEG_BENCH, PEG), x.peg) && Fine(fc, On(|cs| > 0, [KBool, KBool]), x.flags)
      && Fine(fc, ADJUSTED_READS, x.adjusted)
  }

  ghost function AdjustingPart(fc: FloatCodec, dv: int, orderType: Text, x: Adjusting, cs: seq<Condition>): seq<Field>
    requires FineAdjusting(fc, dv, orderType, x, cs)
  {
    if dv < PEGGED_TO_BENCHMARK then []
    else
      Written(fc, On(orderType == PEG_BENCH, PEG), x.peg) + ([FInt(|cs| as int64)] + (AllConditionFields(cs)
      + (Written(fc, On(|cs| > 0, [KBool, KBool]), x.flags) + Written(fc, ADJUSTED_READS, x.adjusted))))
  }

  lemma AdjustingFound(fc: FloatCodec, dv: int, orderType: Text, x: Adjusting, n: nat, ts: seq<Text>, pos: nat, p: nat,
                       q: nat, r: nat, end: nat)
    requires dv >= PEGGED_TO_BENCHMARK && BlockAt(fc, On(orderType == PEG_BENCH, PEG), ts, pos) == Success(At(x.peg, p))
    requires CountAt(ts, p) == Success(At(n, p + 1))
    requires ConditionListAt(fc, n, ts, p + 1) == Success(At(x.conditions, q))
    requires BlockAt(fc, On(n > 0, [KBool, KBool]), ts, q) == Success(At(x.flags, r))
    requires BlockAt(fc, ADJUSTED_READS, ts, r) == Success(At(x.adjusted, end))
    ensures AdjustingAt(fc, dv, orderType, ts, pos) == Success(At(x, end))
  {
    hide BlockAt, On, CountAt, ConditionListAt;
  }

  lemma AdjustingSplit(fc: FloatCodec, dv: int, orderType: Text, x: Adjusting, cs: seq<Condition>, ts: seq<Text>,
                       pos: nat, p: nat, q: nat, r: nat)
    requires FineAdjusting(fc, dv, orderType, x, cs) && dv >= PEGGED_TO_BENCHMARK
    requires Here(ts, pos, RenderAll(fc, AdjustingPart(fc, dv, orderType, x, cs)))
    requires p == pos + |On(orderType == PEG_BENCH, PEG)| && q == p + 1 + |AllConditionFields(cs)|
    requires r == q + |On(|cs| > 0, [KBool, KBool])|
    ensures Here(ts, pos, RenderAll(fc, Written(fc, On(orderType == PEG_BENCH, PEG), x.peg)))
    ensures Here(ts, p, RenderAll(fc, [FInt(|cs| as int64)])) && Here(ts, p + 1, RenderAll(fc, AllConditionFields(cs)))
    ensures Here(ts, q, RenderAll(fc, Written(fc, On(|cs| > 0, [KBool, KBool]), x.flags)))
    ensures Here(ts, r, RenderAll(fc, Written(fc, ADJUSTED_READS, x.adjusted)))
    ensures pos + |AdjustingPart(fc, dv, orderType, x, cs)| == r + |ADJUSTED_READS|
  {
    hide Here, RenderAll, Fine, On, AllConditionFields, AllDecodable, ZerosOf, Written;
    var a, b, c := Written(fc, On(orderType == PEG_BENCH, PEG), x.peg), [FInt(|cs| as int64)], AllConditionFields(cs);
    var d, e := Written(fc, On(|cs| > 0, [KBool, KBool]), x.flags), Written(fc, ADJUSTED_READS, x.adjusted);
    PartsHere(fc, a, b + (c + (d + e)), ts, pos);
    PartsHere(fc, b, c + (d + e), ts, p);
    PartsHere(fc, c, d + e, ts, p + 1);
    PartsHere(fc, d, e, ts, q);
  }

  lemma FineParts(fc: FloatCodec, dv: int, orderType: Text, x: Adjusting, cs: seq<Condition>)
    requires FineAdjusting(fc, dv, orderType, x, cs) && dv >= PEGGED_TO_BENCHMARK
    ensures AllDecodable(fc, cs) && |cs| <= INT64_MAX && x.conditions == ZerosOf(cs)
    ensures Fine(fc, On(orderType == PEG_BENCH, PEG), x.peg) && Fine(fc, On(|cs| > 0, [KBool, KBool]), x.flags)
    ensures Fine(fc, ADJUSTED_READS, x.adjusted)
  {
    hide Fine, On, AllDecodable, ZerosOf;
  }

  lemma NothingAdjusted(fc: FloatCodec, dv: int, orderType: Text, x: Adjusting, cs: seq<Condition>, ts: seq<Text>,
                        pos: nat)
    requires FineAdjusting(fc, dv, orderType, x, cs) && dv < PEGGED_TO_BENCHMARK
    ensures AdjustingAt(fc, dv, orderType, ts, pos) == Success(At(x, pos + |AdjustingPart(fc, dv, orderType, x, cs)|))
  {
  }

  lemma AdjustingReadsBack(fc: FloatCodec, dv: int, orderType: Text, x: Adjusting, cs: seq<Condition>, ts: seq<Text>,
                           pos: nat)
    requires fc.Valid() && FineAdjusting(fc, dv, orderType, x, cs)
    requires Here(ts, pos, RenderAll(fc, AdjustingPart(fc, dv, orderType, x, cs)))
    ensures AdjustingAt(fc, dv, orderType, ts, pos) == Success(At(x, pos + |AdjustingPart(fc, dv, orderType, x, cs)|))
  {
    hide *;
    if dv < PEGGED_TO_BENCHMARK {
      NothingAdjusted(fc, dv, orderType, x, cs, ts, pos);
    } else {
      var n := |cs|;
      var p := pos + |On(orderType == PEG_BENCH, PEG)|;
      var q := p + 1 + |AllConditionFields(cs)|;
      var r := q + |On(n > 0, [KBool, KBool])|;
      FineParts(fc, dv, orderType, x, cs);
      AdjustingSplit(fc, dv, orderType, x, cs, ts, pos, p, q, r);
      FineReadsBack(fc, On(orderType == PEG_BENCH, PEG), x.peg, ts, pos);
      CountField(fc, n, ts, p);
      ConditionsReadBack(fc, cs, n, ts, p + 1);
      FineReadsBack(fc, On(n > 0, [KBool, KBool]), x.flags, ts, q);
      FineReadsBack(fc, ADJUSTED_READS, x.adjusted, ts, r);
      AdjustingFound(fc, dv, orderType, x, n, ts, pos, p, q, r, r + |ADJUSTED_READS|);
    }
  }

  lemma CountField(fc: FloatCodec, n: nat, ts: seq<Text>, pos: nat)
    requires n <= INT64_MAX && Here(ts, pos, RenderAll(fc, [FInt(n as int64)]))
    ensures CountAt(ts, pos) == Success(At(n, pos + 1))
  {
    TagHere(fc, n as int64, ts, pos);
  }

  // ---------------------------------------------------------------- the whole message

  ghost predicate FineOrder(fc: FloatCodec, dv: int, x: OpenOrder, cs: seq<Condition>) {
    var v := x.head.version;
    && FineHead(fc, dv, x.head) && FineVol(fc, v, x.vol) && FineGroups(fc, v, x.groups) && FineScaling(fc, v, x.scaling)
    && FineHedging(fc, v, x.hedging) && Fine(fc, FlagKinds(v), x.flags) && FineNeutral(fc, v, x.neutral)
    && FineAlgorithm(fc, v, x.algo) && Fine(fc, StateKinds(dv, v), x.state)
    && FineAdjusting(fc, dv, x.head.orderType, x.adjusting, cs) && Fine(fc, TailKinds(dv), x.tail)
  }

  /** The natural encoding: what an open order of that shape looks like on the wire. */
  ghost function OpenOrderFields(fc: FloatCodec, dv: int, x: OpenOrder, cs: seq<Condition>): seq<Field>
    requires FineOrder(fc, dv, x, cs)
  {
    FrontFields(fc, dv, x, cs) + BackFields(fc, dv, x, cs)
  }

  ghost function FrontFields(fc: FloatCodec, dv: int, x: OpenOrder, cs: seq<Condition>): seq<Field>
    requires FineOrder(fc, dv, x, cs)
  {
    var v := x.head.version;
    HeadPart(fc, dv, x.head) + (VolPart(fc, v, x.vol) + (GroupsPart(fc, v, x.groups) + (ScalingPart(fc, v, x.scaling)
    + (HedgingPart(fc, v, x.hedging) + Written(fc, FlagKinds(v), x.flags)))))
  }

  ghost function BackFields(fc: FloatCodec, dv: int, x: OpenOrder, cs: seq<Condition>): seq<Field>
    requires FineOrder(fc, dv, x, cs)
  {
    var v := x.head.version;
    NeutralPart(fc, v, x.neutral) + (AlgorithmPart(fc, v, x.algo) + (Written(fc, StateKinds(dv, v), x.state)
    + (AdjustingPart(fc, dv, x.head.orderType, x.adjusting, cs) + Written(fc, TailKinds(dv), x.tail))))
  }

  /** Where the sections in front stand. */
  lemma FrontHolds(fc: FloatCodec, dv: int, x: OpenOrder, cs: seq<Condition>, ts: seq<Text>, pos: nat)
      returns (p: nat, q: nat, r: nat, s: nat, t: nat)
    requires fc.Valid() && FineOrder(fc, dv, x, cs) && Here(ts, pos, RenderAll(fc, FrontFields(fc, dv, x, cs)))
    ensures HeadAt(fc, dv, ts, pos) == Success(At(x.head, p))
    ensures VolAt(fc, x.head.version, ts, p) == Success(At(x.vol, q))
    ensures ComboListsAt(fc, x.head.version, ts, q) == Success(At(x.groups, r))
    ensures ScalingAt(fc, x.head.version, ts, r) == Success(At(x.scaling, s))
    ensures HedgingAt(fc, x.head.version, ts, s) == Success(At(x.hedging, t))
    ensures BlockAt(fc, FlagKinds(x.head.version), ts, t) == Success(At(x.flags, pos + |FrontFields(fc, dv, x, cs)|))
  {
    var v := x.head.version;
    hide Here, RenderAll, HeadAt, VolAt, ComboListsAt, ScalingAt, HedgingAt, BlockAt, HeadPart, VolPart, GroupsPart,
      ScalingPart;
    hide HedgingPart, Written, FlagKinds, Fine, FineHead, FineVol, FineGroups, FineScaling, FineHedging, FineNeutral;
    hide FineAlgorithm, FineAdjusting;
    var a, b, c := HeadPart(fc, dv, x.head), VolPart(fc, v, x.vol), GroupsPart(fc, v, x.groups);
    var d := ScalingPart(fc, v, x.scaling);
    var e, f := HedgingPart(fc, v, x.hedging), Written(fc, FlagKinds(v), x.flags);
    p := pos + |a|;
    q := p + |b|;
    r := q + |c|;
    s := r + |d|;
    t := s + |e|;
    PartsHere(fc, a, b + (c + (d + (e + f))), ts, pos);
    PartsHere(fc, b, c + (d + (e + f)), ts, p);
    PartsHere(fc, c, d + (e + f), ts, q);
    PartsHere(fc, d, e + f, ts, r);
    PartsHere(fc, e, f, ts, s);
    HeadReadsBack(fc, dv, x.head, ts, pos);
    VolReadsBack(fc, v, x.vol, ts, p);
    GroupsReadBack(fc, v, x.groups, ts, q);
    ScalingReadsBack(fc, v, x.scaling, ts, r);
    HedgingReadsBack(fc, v, x.hedging, ts, s);
    FineReadsBack(fc, FlagKinds(v), x.flags, ts, t);
  }

  /** And those behind. */
  lemma BackHolds(fc: FloatCodec, dv: int, x: OpenOrder, cs: seq<Condition>, ts: seq<Text>, pos: nat)
      returns (p: nat, q: nat, r: nat, s: nat)
    requires fc.Valid() && FineOrder(fc, dv, x, cs) && Here(ts, pos, RenderAll(fc, BackFields(fc, dv, x, cs)))
    ensures NeutralAt(fc, x.head.version, ts, pos) == Success(At(x.neutral, p))
    ensures AlgorithmAt(fc, x.head.version, ts, p) == Success(At(x.algo, q))
    ensures BlockAt(fc, StateKinds(dv, x.head.version), ts, q) == Success(At(x.state, r))
    ensures AdjustingAt(fc, dv, x.head.orderType, ts, r) == Success(At(x.adjusting, s))
    ensures BlockAt(fc, TailKinds(dv), ts, s) == Success(At(x.tail, pos + |BackFields(fc, dv, x, cs)|))
  {
    var v := x.head.version;
    hide Here, RenderAll, NeutralAt, AlgorithmAt, AdjustingAt, BlockAt, NeutralPart, AlgorithmPart, AdjustingPart,
      Written;
    hide StateKinds, TailKinds, Fine, FineHead, FineVol, FineGroups, FineScaling, FineHedging, FineNeutral,
      FineAlgorithm;
    hide FineAdjusting;
    var a, b, c := NeutralPart(fc, v, x.neutral), AlgorithmPart(fc, v, x.algo), Written(fc, StateKinds(dv, v), x.state);
    var d, e := AdjustingPart(fc, dv, x.head.orderType, x.adjusting, cs), Written(fc, TailKinds(dv), x.tail);
    p := pos + |a|;
    q := p + |b|;
    r := q + |c|;
    s := r + |d|;
    PartsHere(fc, a, b + (c + (d + e)), ts, pos);
    PartsHere(fc, b, c + (d + e), ts, p);
    PartsHere(fc, c, d + e, ts, q);
    PartsHere(fc, d, e, ts, r);
    NeutralReadsBackWhole(fc, v, x.neutral, ts, pos);
    AlgorithmReadsBack(fc, v, x.algo, ts, p);
    FineReadsBack(fc, StateKinds(dv, v), x.state, ts, q);
    AdjustingReadsBack(fc, dv, x.head.orderType, x.adjusting, cs, ts, r);
    FineReadsBack(fc, TailKinds(dv), x.tail, ts, s);
  }

  lemma SectionsFound(fc: FloatCodec, dv: int, x: OpenOrder, ts: seq<Text>, pos: nat, p: nat, q: nat, r: nat, s: nat,
                      t: nat, u: nat, w: nat, y: nat, z: nat, a: nat, end: nat)
    requires HeadAt(fc, dv, ts, pos) == Success(At(x.head, p))
    requires VolAt(fc, x.head.version, ts, p) == Success(At(x.vol, q))
    requires ComboListsAt(fc, x.head.version, ts, q) == Success(At(x.groups, r))
    requires ScalingAt(fc, x.head.version, ts, r) == Success(At(x.scaling, s))
    requires HedgingAt(fc, x.head.version, ts, s) == Success(At(x.hedging, t))
    requires BlockAt(fc, FlagKinds(x.head.version), ts, t) == Success(At(x.flags, u))
    requires NeutralAt(fc, x.head.version, ts, u) == Success(At(x.neutral, w))
    requires AlgorithmAt(fc, x.head.version, ts, w) == Success(At(x.algo, y))
    requires BlockAt(fc, StateKinds(dv, x.head.version), ts, y) == Success(At(x.state, z))
    requires AdjustingAt(fc, dv, x.head.orderType, ts, z) == Success(At(x.adjusting, a))
    requires BlockAt(fc, TailKinds(dv), ts, a) == Success(At(x.tail, end))
    ensures OpenOrderAt(fc, dv, ts, pos) == Success(At(x, end))
  {
    hide HeadAt, VolAt, ComboListsAt, ScalingAt, HedgingAt, BlockAt, NeutralAt, AlgorithmAt, AdjustingAt;
    hide FlagKinds, StateKinds, TailKinds;
  }

  lemma FrontAndBack(fc: FloatCodec, dv: int, x: OpenOrder, cs: seq<Condition>)
    requires FineOrder(fc, dv, x, cs)
    ensures OpenOrderFields(fc, dv, x, cs) == FrontFields(fc, dv, x, cs) + BackFields(fc, dv, x, cs)
  {
    hide FineOrder, FrontFields, BackFields;
  }

  /** The decoder inverts the natural encoding and stops exactly at its end. */
  lemma OpenOrderReadsBack(fc: FloatCodec, dv: int, x: OpenOrder, cs: seq<Condition>, ts: seq<Text>, pos: nat)
    requires fc.Valid() && FineOrder(fc, dv, x, cs) && Here(ts, pos, RenderAll(fc, OpenOrderFields(fc, dv, x, cs)))
    ensures OpenOrderAt(fc, dv, ts, pos) == Success(At(x, pos + |OpenOrderFields(fc, dv, x, cs)|))
  {
    hide *;
    FrontAndBack(fc, dv, x, cs);
    var u := pos + |FrontFields(fc, dv, x, cs)|;
    PartsHere(fc, FrontFields(fc, dv, x, cs), BackFields(fc, dv, x, cs), ts, pos);
    var p, q, r, s, t := FrontHolds(fc, dv, x, cs, ts, pos);
    var w, y, z, a := BackHolds(fc, dv, x, cs, ts, u);
    SectionsFound(fc, dv, x, ts, pos, p, q, r, s, t, u, w, y, z, a, u + |BackFields(fc, dv, x, cs)|);
  }
}
