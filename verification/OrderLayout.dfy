/** The version-gated layout of a PLACE_ORDER message as the server sees it: a list of texts whose optional and
    repeated groups depend on the server version and on earlier texts. The reader below knows only the version. */
module OrderLayout {
  import opened Basics
  import opened Fields
  import opened Cursor
  import opened Conditions
  import opened Versions

  const BAG: Text := [66, 65, 71]
  const PEG_BENCH: Text := [80, 69, 71, 32, 66, 69, 78, 67, 72]

  // ---------------------------------------------------------------- sections

  /** Message, order and contract terms, up to the prices and the routing flags. */
  datatype Terms = Terms(head: seq<Text>, secType: Text, terms: seq<Text>, orderType: Text, routing: seq<Text>)

  /** Legs (8 fields each), leg prices and routing parameters of a BAG. */
  datatype Combo = Combo(legs: seq<seq<Text>>, prices: seq<seq<Text>>, routing: seq<seq<Text>>)

  datatype Volatility = Volatility(handling: seq<Text>, dnType: Text, dnOrder: seq<Text>)

  datatype Scale = Scale(sizes: seq<Text>, increment: Text, terms: seq<Text>, table: seq<Text>)

  datatype Hedge = Hedge(kind: Text, param: seq<Text>, flags: seq<Text>, hasDn: Text, dnContract: seq<Text>)

  datatype Algo = Algo(strategy: Text, params: seq<seq<Text>>, flags: seq<Text>)

  datatype Adjust = Adjust(peg: seq<Text>, conditions: seq<WireCondition>, conditionFlags: seq<Text>,
                           adjusted: seq<Text>, gated: seq<Text>)

  datatype WireOrder = WireOrder(terms: Terms, combo: Option<Combo>, vol: Volatility, scale: Scale, hedge: Hedge,
                                 algo: Algo, adjust: Adjust)

  function HeadLength(v: int): nat { 4 + Gate(v < ORDER_CONTAINER, 1) }

  function HandlingLength(v: int): nat { 29 + Gate(v >= MODELS_SUPPORT, 1) }

  function GatedLength(v: int): nat {
    Gate(v >= EXT_OPERATOR, 1) + Gate(v >= SOFT_DOLLAR_TIER, 2) + Gate(v >= CASH_QTY, 1) + Gate(v >= DECISION_MAKER, 2)
    + Gate(v >= MIFID_EXECUTION, 2) + Gate(v >= AUTO_PRICE_FOR_HEDGE, 1) + Gate(v >= ORDER_CONTAINER, 1)
    + Gate(v >= D_PEG_ORDERS, 1) + Gate(v >= PRICE_MGMT_ALGO, 1) + Gate(v >= DURATION, 1) + Gate(v >= POST_TO_ATS, 1)
  }

  /** The test for the scale block: the increment is set and positive. */
  predicate IncrementOn(f: Float) { f != UNSETFLOAT && Positive(f) }

  predicate ScaleOn(fc: FloatCodec, increment: Text) {
    var f := AsFloatUnset(fc, increment);
    f.Success? && IncrementOn(f.value)
  }

  // ---------------------------------------------------------------- the texts of each section

  function TermsTexts(t: Terms): seq<Text> {
    t.head + ([t.secType] + (t.terms + ([t.orderType] + t.routing)))
  }

  predicate TermsOk(v: int, t: Terms) { |t.head| == HeadLength(v) && |t.terms| == 13 && |t.routing| == 16 }

  function ComboTexts(c: Option<Combo>): seq<Text> {
    if c.None? then [] else Listed(c.value.legs) + (Listed(c.value.prices) + Listed(c.value.routing))
  }

  predicate Sized(n: nat, gs: seq<seq<Text>>) { |gs| <= INT64_MAX && forall i :: 0 <= i < |gs| ==> |gs[i]| == n }

  predicate ComboOk(secType: Text, c: Option<Combo>) {
    && (c.Some? <==> secType == BAG)
    && (c.Some? ==> Sized(8, c.value.legs) && Sized(1, c.value.prices) && Sized(2, c.value.routing))
  }

  function VolatilityTexts(x: Volatility): seq<Text> { x.handling + ([x.dnType] + x.dnOrder) }

  predicate VolatilityOk(v: int, x: Volatility) {
    |x.handling| == HandlingLength(v) && |x.dnOrder| == 1 + Gate(x.dnType != [], 8)
  }

  function ScaleTexts(x: Scale): seq<Text> { x.sizes + ([x.increment] + (x.terms + x.table)) }

  predicate ScaleOk(fc: FloatCodec, x: Scale) {
    |x.sizes| == 6 && |x.terms| == Gate(ScaleOn(fc, x.increment), 7) && |x.table| == 3
  }

  function HedgeTexts(x: Hedge): seq<Text> { [x.kind] + (x.param + (x.flags + ([x.hasDn] + x.dnContract))) }

  predicate HedgeOk(x: Hedge) {
    |x.param| == Gate(x.kind != [], 1) && |x.flags| == 4 && |x.dnContract| == Gate(AsBool(x.hasDn), 3)
  }

  function AlgoTexts(x: Algo): seq<Text> {
    [x.strategy] + ((if x.strategy == [] then [] else Listed(x.params)) + x.flags)
  }

  predicate AlgoOk(x: Algo) { Sized(2, x.params) && (x.strategy == [] ==> x.params == []) && |x.flags| == 6 }

  function AdjustTexts(x: Adjust): seq<Text> {
    x.peg + ([FormatInt(|x.conditions|)] + (WireTexts(x.conditions) + (x.conditionFlags + (x.adjusted + x.gated))))
  }

  predicate AdjustOk(v: int, orderType: Text, x: Adjust) {
    && |x.peg| == Gate(orderType == PEG_BENCH, 5) && |x.conditions| <= INT64_MAX
    && |x.conditionFlags| == Gate(x.conditions != [], 2) && |x.adjusted| == 7 && |x.gated| == GatedLength(v)
  }

  function OrderTexts(w: WireOrder): seq<Text> {
    TermsTexts(w.terms) + (ComboTexts(w.combo) + (VolatilityTexts(w.vol) + (ScaleTexts(w.scale)
      + (HedgeTexts(w.hedge) + (AlgoTexts(w.algo) + AdjustTexts(w.adjust))))))
  }

  predicate OrderOk(fc: FloatCodec, v: int, w: WireOrder) {
    && TermsOk(v, w.terms) && ComboOk(w.terms.secType, w.combo) && VolatilityOk(v, w.vol) && ScaleOk(fc, w.scale)
    && HedgeOk(w.hedge) && AlgoOk(w.algo) && AdjustOk(v, w.terms.orderType, w.adjust)
  }

  // ---------------------------------------------------------------- the reader, section by section

  function ReadTerms(v: int, ts: seq<Text>, pos: nat): Result<At<Terms>> {
    var head :- TakeAt(HeadLength(v), ts, pos);
    var secType :- TextAt(ts, head.next);
    var terms :- TakeAt(13, ts, head.next + 1);
    var orderType :- TextAt(ts, terms.next);
    var routing :- TakeAt(16, ts, terms.next + 1);
    Success(At(Terms(head.value, secType, terms.value, orderType, routing.value), routing.next))
  }

  function ReadCombo(secType: Text, ts: seq<Text>, pos: nat): Result<At<Option<Combo>>> {
    if secType != BAG then Success(At(None, pos))
    else
      var legs :- ListAt(8, ts, pos);
      var prices :- ListAt(1, ts, legs.next);
      var routing :- ListAt(2, ts, prices.next);
      Success(At(Some(Combo(legs.value, prices.value, routing.value)), routing.next))
  }

  function ReadVolatility(v: int, ts: seq<Text>, pos: nat): Result<At<Volatility>> {
    var handling :- TakeAt(HandlingLength(v), ts, pos);
    var dnType :- TextAt(ts, handling.next);
    var dnOrder :- TakeAt(1 + Gate(dnType != [], 8), ts, handling.next + 1);
    Success(At(Volatility(handling.value, dnType, dnOrder.value), dnOrder.next))
  }

  function ReadScale(fc: FloatCodec, ts: seq<Text>, pos: nat): Result<At<Scale>> {
    var sizes :- TakeAt(6, ts, pos);
    var increment :- TextAt(ts, sizes.next);
    var terms :- TakeAt(Gate(ScaleOn(fc, increment), 7), ts, sizes.next + 1);
    var table :- TakeAt(3, ts, terms.next);
    Success(At(Scale(sizes.value, increment, terms.value, table.value), table.next))
  }

  function ReadHedge(ts: seq<Text>, pos: nat): Result<At<Hedge>> {
    var kind :- TextAt(ts, pos);
    var param :- TakeAt(Gate(kind != [], 1), ts, pos + 1);
    var flags :- TakeAt(4, ts, param.next);
    var hasDn :- TextAt(ts, flags.next);
    var dnContract :- TakeAt(Gate(AsBool(hasDn), 3), ts, flags.next + 1);
    Success(At(Hedge(kind, param.value, flags.value, hasDn, dnContract.value), dnContract.next))
  }

  function ReadAlgo(ts: seq<Text>, pos: nat): Result<At<Algo>> {
    var strategy :- TextAt(ts, pos);
    var params :- if strategy == [] then Success(At([], pos + 1)) else ListAt(2, ts, pos + 1);
    var flags :- TakeAt(6, ts, params.next);
    Success(At(Algo(strategy, params.value, flags.value), flags.next))
  }

  function ReadAdjust(v: int, orderType: Text, ts: seq<Text>, pos: nat): Result<At<Adjust>> {
    var peg :- TakeAt(Gate(orderType == PEG_BENCH, 5), ts, pos);
    var n :- CountAt(ts, peg.next);
    var conditions :- ConditionsAt(n.value, ts, n.next);
    var flags :- TakeAt(Gate(n.value > 0, 2), ts, conditions.next);
    var adjusted :- TakeAt(7, ts, flags.next);
    var gated :- TakeAt(GatedLength(v), ts, adjusted.next);
    Success(At(Adjust(peg.value, conditions.value, flags.value, adjusted.value, gated.value), gated.next))
  }

  /** Read a whole order; it must end where the list of fields ends. */
  function ReadOrder(fc: FloatCodec, v: int, ts: seq<Text>): Result<WireOrder> {
    var terms :- ReadTerms(v, ts, 0);
    var combo :- ReadCombo(terms.value.secType, ts, terms.next);
    var vol :- ReadVolatility(v, ts, combo.next);
    var scale :- ReadScale(fc, ts, vol.next);
    var hedge :- ReadHedge(ts, scale.next);
    var algo :- ReadAlgo(ts, hedge.next);
    var adjust :- ReadAdjust(v, terms.value.orderType, ts, algo.next);
    if adjust.next != |ts| then Panic
    else Success(WireOrder(terms.value, combo.value, vol.value, scale.value, hedge.value, algo.value, adjust.value))
  }

  // ---------------------------------------------------------------- each section is read back

  lemma TermsHere(v: int, t: Terms, ts: seq<Text>, pos: nat)
    requires TermsOk(v, t) && Here(ts, pos, TermsTexts(t))
    ensures ReadTerms(v, ts, pos) == Success(At(t, pos + |TermsTexts(t)|))
  {
    var p := pos + |t.head|;
    HereSplit(ts, pos, t.head, [t.secType] + (t.terms + ([t.orderType] + t.routing)));
    HereSplit(ts, p, [t.secType], t.terms + ([t.orderType] + t.routing));
    HereSplit(ts, p + 1, t.terms, [t.orderType] + t.routing);
    HereSplit(ts, p + 14, [t.orderType], t.routing);
  }

  lemma ComboRead(secType: Text, c: Combo, ts: seq<Text>, pos: nat, p: nat, q: nat, next: nat)
    requires secType == BAG && ListAt(8, ts, pos) == Success(At(c.legs, p))
    requires ListAt(1, ts, p) == Success(At(c.prices, q)) && ListAt(2, ts, q) == Success(At(c.routing, next))
    ensures ReadCombo(secType, ts, pos) == Success(At(Some(c), next))
  {
  }

  lemma SizedListHere(n: nat, gs: seq<seq<Text>>, ts: seq<Text>, pos: nat)
    requires Sized(n, gs) && Here(ts, pos, Listed(gs))
    ensures ListAt(n, ts, pos) == Success(At(gs, pos + |Listed(gs)|))
  {
    ListHere(n, gs, ts, pos);
  }

  lemma ListsHere(c: Combo, ts: seq<Text>, pos: nat, p: nat, q: nat)
    requires Sized(8, c.legs) && Sized(1, c.prices) && Sized(2, c.routing)
    requires p == pos + |Listed(c.legs)| && q == p + |Listed(c.prices)|
    requires Here(ts, pos, Listed(c.legs)) && Here(ts, p, Listed(c.prices)) && Here(ts, q, Listed(c.routing))
    ensures ListAt(8, ts, pos) == Success(At(c.legs, p)) && ListAt(1, ts, p) == Success(At(c.prices, q))
    ensures ListAt(2, ts, q) == Success(At(c.routing, q + |Listed(c.routing)|))
  {
    hide *;
    SizedListHere(8, c.legs, ts, pos);
    SizedListHere(1, c.prices, ts, p);
    SizedListHere(2, c.routing, ts, q);
  }

  lemma ComboSplit(c: Combo, ts: seq<Text>, pos: nat, p: nat, q: nat)
    requires Here(ts, pos, ComboTexts(Some(c))) && p == pos + |Listed(c.legs)| && q == p + |Listed(c.prices)|
    ensures Here(ts, pos, Listed(c.legs)) && Here(ts, p, Listed(c.prices)) && Here(ts, q, Listed(c.routing))
    ensures pos + |ComboTexts(Some(c))| == q + |Listed(c.routing)|
  {
    hide Here, Listed;
    HereSplit(ts, pos, Listed(c.legs), Listed(c.prices) + Listed(c.routing));
    HereSplit(ts, p, Listed(c.prices), Listed(c.routing));
  }

  lemma BagSizes(c: Combo)
    requires ComboOk(BAG, Some(c))
    ensures Sized(8, c.legs) && Sized(1, c.prices) && Sized(2, c.routing)
  {
    hide Sized;
  }

  lemma BagHere(c: Combo, ts: seq<Text>, pos: nat)
    requires ComboOk(BAG, Some(c)) && Here(ts, pos, ComboTexts(Some(c)))
    ensures ReadCombo(BAG, ts, pos) == Success(At(Some(c), pos + |ComboTexts(Some(c))|))
  {
    var p := pos + |Listed(c.legs)|;
    var q := p + |Listed(c.prices)|;
    hide *;
    BagSizes(c);
    ComboSplit(c, ts, pos, p, q);
    ListsHere(c, ts, pos, p, q);
    ComboRead(BAG, c, ts, pos, p, q, q + |Listed(c.routing)|);
  }

  lemma ComboHere(secType: Text, c: Option<Combo>, ts: seq<Text>, pos: nat)
    requires ComboOk(secType, c) && Here(ts, pos, ComboTexts(c))
    ensures ReadCombo(secType, ts, pos) == Success(At(c, pos + |ComboTexts(c)|))
  {
    if c.Some? {
      hide ComboTexts, Here, ReadCombo, Sized;
      BagHere(c.value, ts, pos);
    }
  }

  lemma VolatilityHere(v: int, x: Volatility, ts: seq<Text>, pos: nat)
    requires VolatilityOk(v, x) && Here(ts, pos, VolatilityTexts(x))
    ensures ReadVolatility(v, ts, pos) == Success(At(x, pos + |VolatilityTexts(x)|))
  {
    HereSplit(ts, pos, x.handling, [x.dnType] + x.dnOrder);
    HereSplit(ts, pos + |x.handling|, [x.dnType], x.dnOrder);
  }

  lemma ScaleHere(fc: FloatCodec, x: Scale, ts: seq<Text>, pos: nat)
    requires ScaleOk(fc, x) && Here(ts, pos, ScaleTexts(x))
    ensures ReadScale(fc, ts, pos) == Success(At(x, pos + |ScaleTexts(x)|))
  {
    HereSplit(ts, pos, x.sizes, [x.increment] + (x.terms + x.table));
    HereSplit(ts, pos + 6, [x.increment], x.terms + x.table);
    HereSplit(ts, pos + 7, x.terms, x.table);
  }

  lemma HedgeSplit(x: Hedge, ts: seq<Text>, pos: nat, p: nat, q: nat)
    requires Here(ts, pos, HedgeTexts(x)) && p == pos + 1 + |x.param| && q == p + |x.flags|
    ensures Here(ts, pos, [x.kind]) && Here(ts, pos + 1, x.param) && Here(ts, p, x.flags)
    ensures Here(ts, q, [x.hasDn]) && Here(ts, q + 1, x.dnContract) && pos + |HedgeTexts(x)| == q + 1 + |x.dnContract|
  {
    hide Here;
    HereSplit(ts, pos, [x.kind], x.param + (x.flags + ([x.hasDn] + x.dnContract)));
    HereSplit(ts, pos + 1, x.param, x.flags + ([x.hasDn] + x.dnContract));
    HereSplit(ts, p, x.flags, [x.hasDn] + x.dnContract);
    HereSplit(ts, q, [x.hasDn], x.dnContract);
  }

  lemma OneHere(one: Text, ts: seq<Text>, pos: nat)
    requires Here(ts, pos, [one])
    ensures TextAt(ts, pos) == Success(one)
  {
  }

  lemma HedgeHere(x: Hedge, ts: seq<Text>, pos: nat)
    requires HedgeOk(x) && Here(ts, pos, HedgeTexts(x))
    ensures ReadHedge(ts, pos) == Success(At(x, pos + |HedgeTexts(x)|))
  {
    hide HedgeTexts, Here, TakeAt, TextAt;
    var p := pos + 1 + |x.param|;
    HedgeSplit(x, ts, pos, p, p + 4);
    OneHere(x.kind, ts, pos);
    TakeHere(x.param, ts, pos + 1);
    TakeHere(x.flags, ts, p);
    OneHere(x.hasDn, ts, p + 4);
    TakeHere(x.dnContract, ts, p + 5);
  }

  lemma AlgoRead(x: Algo, ts: seq<Text>, pos: nat, p: nat)
    requires TextAt(ts, pos) == Success(x.strategy) && TakeAt(6, ts, p) == Success(At(x.flags, p + 6))
    requires if x.strategy == [] then x.params == [] && p == pos + 1
        else ListAt(2, ts, pos + 1) == Success(At(x.params, p))
    ensures ReadAlgo(ts, pos) == Success(At(x, p + 6))
  {
  }

  lemma AlgoSplit(x: Algo, ts: seq<Text>, pos: nat) returns (p: nat)
    requires AlgoOk(x) && Here(ts, pos, AlgoTexts(x))
    ensures TextAt(ts, pos) == Success(x.strategy) && TakeAt(6, ts, p) == Success(At(x.flags, p + 6))
    ensures if x.strategy == [] then x.params == [] && p == pos + 1
            else Sized(2, x.params) && Here(ts, pos + 1, Listed(x.params)) && p == pos + 1 + |Listed(x.params)|
    ensures pos + |AlgoTexts(x)| == p + 6
  {
    hide Listed;
    var params := if x.strategy == [] then [] else Listed(x.params);
    p := pos + 1 + |params|;
    OneThenTwo(ts, pos, x.strategy, params, x.flags);
  }

  lemma OneThenTwo(ts: seq<Text>, pos: nat, one: Text, a: seq<Text>, b: seq<Text>)
    requires Here(ts, pos, [one] + (a + b))
    ensures TextAt(ts, pos) == Success(one) && Here(ts, pos + 1, a)
    ensures TakeAt(|b|, ts, pos + 1 + |a|) == Success(At(b, pos + 1 + |a| + |b|))
  {
    HereSplit(ts, pos, [one], a + b);
    HereSplit(ts, pos + 1, a, b);
    TakeHere(b, ts, pos + 1 + |a|);
  }

  lemma AlgoHere(x: Algo, ts: seq<Text>, pos: nat)
    requires AlgoOk(x) && Here(ts, pos, AlgoTexts(x))
    ensures ReadAlgo(ts, pos) == Success(At(x, pos + |AlgoTexts(x)|))
  {
    hide *;
    var p := AlgoSplit(x, ts, pos);
    if x.strategy != [] {
      SizedListHere(2, x.params, ts, pos + 1);
    }
    AlgoRead(x, ts, pos, p);
  }

  lemma AdjustRead(v: int, orderType: Text, x: Adjust, n: nat, ts: seq<Text>, pos: nat, p: nat, q: nat, r: nat)
    requires AdjustOk(v, orderType, x) && n == |x.conditions|
    requires TakeAt(|x.peg|, ts, pos) == Success(At(x.peg, p)) && CountAt(ts, p) == Success(At(n, p + 1))
    requires TakeAt(|x.conditionFlags|, ts, q) == Success(At(x.conditionFlags, r))
    requires TakeAt(|x.adjusted|, ts, r) == Success(At(x.adjusted, r + 7))
    requires TakeAt(|x.gated|, ts, r + 7) == Success(At(x.gated, r + 7 + |x.gated|))
    requires ConditionsAt(n, ts, p + 1).Success? && ConditionsAt(n, ts, p + 1).value.value == x.conditions
             ==> ConditionsAt(n, ts, p + 1).value.next == q
    ensures ReadAdjust(v, orderType, ts, pos) == Success(At(x, r + 7 + |x.gated|))
            <==> ConditionsAt(n, ts, p + 1) == Success(At(x.conditions, q))
  {
    hide ConditionsAt, CountAt, TakeAt;
  }

  lemma AdjustHere(v: int, orderType: Text, x: Adjust, ts: seq<Text>, pos: nat)
    requires AdjustOk(v, orderType, x) && Here(ts, pos, AdjustTexts(x))
    ensures ReadAdjust(v, orderType, ts, pos) == Success(At(x, pos + |AdjustTexts(x)|)) <==> AllFit(x.conditions)
  {
    hide *;
    AdjustSizes(v, orderType, x);
    var n, cs := |x.conditions|, WireTexts(x.conditions);
    var p := pos + |x.peg|;
    var q := p + 1 + |cs|;
    var r := q + |x.conditionFlags|;
    AdjustSplit(x, cs, ts, pos, p, q, r);
    TakeHere(x.peg, ts, pos);
    CountHere(n, ts, p);
    TakeHere(x.conditionFlags, ts, q);
    TakeHere(x.adjusted, ts, r);
    TakeHere(x.gated, ts, r + 7);
    ConditionsReadable(n, x.conditions, ts, p + 1);
    NextAfterConditions(n, x.conditions, ts, p + 1, q);
    AdjustRead(v, orderType, x, n, ts, pos, p, q, r);
  }

  lemma AdjustSizes(v: int, orderType: Text, x: Adjust)
    requires AdjustOk(v, orderType, x)
    ensures |x.adjusted| == 7 && |x.conditions| <= INT64_MAX
  {
  }

  lemma NextAfterConditions(n: nat, ws: seq<WireCondition>, ts: seq<Text>, pos: nat, q: nat)
    requires q == pos + |WireTexts(ws)|
    ensures ConditionsAt(n, ts, pos).Success? && ConditionsAt(n, ts, pos).value.value == ws
            ==> ConditionsAt(n, ts, pos).value.next == q
  {
    hide *;
    if ConditionsAt(n, ts, pos).Success? {
      ReadConditionsFit(n, ts, pos);
    }
  }

  lemma AdjustSplit(x: Adjust, cs: seq<Text>, ts: seq<Text>, pos: nat, p: nat, q: nat, r: nat)
    requires cs == WireTexts(x.conditions) && Here(ts, pos, AdjustTexts(x))
    requires p == pos + |x.peg| && q == p + 1 + |cs| && r == q + |x.conditionFlags|
    ensures Here(ts, pos, x.peg) && p < |ts| && ts[p] == FormatInt(|x.conditions|) && Here(ts, p + 1, cs)
    ensures Here(ts, q, x.conditionFlags) && Here(ts, r, x.adjusted) && Here(ts, r + |x.adjusted|, x.gated)
    ensures pos + |AdjustTexts(x)| == r + |x.adjusted| + |x.gated|
  {
    hide Here, WireTexts, FormatInt;
    var tail := x.conditionFlags + (x.adjusted + x.gated);
    assert AdjustTexts(x) == x.peg + ([FormatInt(|x.conditions|)] + (cs + tail));
    HereSplit(ts, pos, x.peg, [FormatInt(|x.conditions|)] + (cs + tail));
    HereSplit(ts, p, [FormatInt(|x.conditions|)], cs + tail);
    HereSplit(ts, p + 1, cs, tail);
    HereSplit(ts, q, x.conditionFlags, x.adjusted + x.gated);
    HereSplit(ts, r, x.adjusted, x.gated);
    CountText(|x.conditions|, ts, p);
  }

  lemma CountText(n: nat, ts: seq<Text>, p: nat)
    requires Here(ts, p, [FormatInt(n)])
    ensures p < |ts| && ts[p] == FormatInt(n)
  {
    hide FormatInt;
  }

  /** Where each section stands. */
  lemma SectionsHere(w: WireOrder, ts: seq<Text>, p: nat, q: nat, r: nat, s: nat, t: nat, u: nat)
    requires ts == OrderTexts(w)
    requires p == |TermsTexts(w.terms)| && q == p + |ComboTexts(w.combo)| && r == q + |VolatilityTexts(w.vol)|
    requires s == r + |ScaleTexts(w.scale)| && t == s + |HedgeTexts(w.hedge)| && u == t + |AlgoTexts(w.algo)|
    ensures Here(ts, 0, TermsTexts(w.terms)) && Here(ts, p, ComboTexts(w.combo)) && Here(ts, q, VolatilityTexts(w.vol))
    ensures Here(ts, r, ScaleTexts(w.scale)) && Here(ts, s, HedgeTexts(w.hedge)) && Here(ts, t, AlgoTexts(w.algo))
    ensures Here(ts, u, AdjustTexts(w.adjust)) && u + |AdjustTexts(w.adjust)| == |ts|
  {
    hide TermsTexts, ComboTexts, VolatilityTexts, ScaleTexts, HedgeTexts, AlgoTexts, AdjustTexts, Here;
    Split7(ts, TermsTexts(w.terms), ComboTexts(w.combo), VolatilityTexts(w.vol), ScaleTexts(w.scale),
           HedgeTexts(w.hedge), AlgoTexts(w.algo), AdjustTexts(w.adjust));
  }

  lemma Split7(ts: seq<Text>, a: seq<Text>, b: seq<Text>, c: seq<Text>, d: seq<Text>, e: seq<Text>, f: seq<Text>,
               g: seq<Text>)
    requires ts == a + (b + (c + (d + (e + (f + g)))))
    ensures Here(ts, 0, a) && Here(ts, |a|, b) && Here(ts, |a| + |b|, c) && Here(ts, |a| + |b| + |c|, d)
    ensures Here(ts, |a| + |b| + |c| + |d|, e) && Here(ts, |a| + |b| + |c| + |d| + |e|, f)
    ensures Here(ts, |a| + |b| + |c| + |d| + |e| + |f|, g)
  {
    HereSplit(ts, 0, a, b + (c + (d + (e + (f + g)))));
    HereSplit(ts, |a|, b, c + (d + (e + (f + g))));
    HereSplit(ts, |a| + |b|, c, d + (e + (f + g)));
    HereSplit(ts, |a| + |b| + |c|, d, e + (f + g));
    HereSplit(ts, |a| + |b| + |c| + |d|, e, f + g);
    HereSplit(ts, |a| + |b| + |c| + |d| + |e|, f, g);
  }

  lemma SectionsRead(fc: FloatCodec, v: int, w: WireOrder, ts: seq<Text>, p: nat, q: nat, r: nat, s: nat, t: nat,
                     u: nat)
    requires ReadTerms(v, ts, 0) == Success(At(w.terms, p))
    requires ReadCombo(w.terms.secType, ts, p) == Success(At(w.combo, q))
    requires ReadVolatility(v, ts, q) == Success(At(w.vol, r)) && ReadScale(fc, ts, r) == Success(At(w.scale, s))
    requires ReadHedge(ts, s) == Success(At(w.hedge, t)) && ReadAlgo(ts, t) == Success(At(w.algo, u))
    ensures ReadOrder(fc, v, ts) == Success(w)
            <==> ReadAdjust(v, w.terms.orderType, ts, u) == Success(At(w.adjust, |ts|))
  {
  }

  lemma FrontHere(v: int, w: WireOrder, ts: seq<Text>, p: nat, q: nat, r: nat)
    requires TermsOk(v, w.terms) && ComboOk(w.terms.secType, w.combo) && VolatilityOk(v, w.vol)
    requires Here(ts, 0, TermsTexts(w.terms)) && p == |TermsTexts(w.terms)|
    requires Here(ts, p, ComboTexts(w.combo)) && q == p + |ComboTexts(w.combo)|
    requires Here(ts, q, VolatilityTexts(w.vol)) && r == q + |VolatilityTexts(w.vol)|
    ensures ReadTerms(v, ts, 0) == Success(At(w.terms, p))
    ensures ReadCombo(w.terms.secType, ts, p) == Success(At(w.combo, q))
    ensures ReadVolatility(v, ts, q) == Success(At(w.vol, r))
  {
    hide *;
    TermsHere(v, w.terms, ts, 0);
    ComboHere(w.terms.secType, w.combo, ts, p);
    VolatilityHere(v, w.vol, ts, q);
  }

  lemma BackHere(fc: FloatCodec, w: WireOrder, ts: seq<Text>, r: nat, s: nat, t: nat, u: nat)
    requires ScaleOk(fc, w.scale) && HedgeOk(w.hedge) && AlgoOk(w.algo)
    requires Here(ts, r, ScaleTexts(w.scale)) && s == r + |ScaleTexts(w.scale)|
    requires Here(ts, s, HedgeTexts(w.hedge)) && t == s + |HedgeTexts(w.hedge)|
    requires Here(ts, t, AlgoTexts(w.algo)) && u == t + |AlgoTexts(w.algo)|
    ensures ReadScale(fc, ts, r) == Success(At(w.scale, s))
    ensures ReadHedge(ts, s) == Success(At(w.hedge, t)) && ReadAlgo(ts, t) == Success(At(w.algo, u))
  {
    hide *;
    ScaleHere(fc, w.scale, ts, r);
    HedgeHere(w.hedge, ts, s);
    AlgoHere(w.algo, ts, t);
  }

  lemma OkParts(fc: FloatCodec, v: int, w: WireOrder)
    requires OrderOk(fc, v, w)
    ensures TermsOk(v, w.terms) && ComboOk(w.terms.secType, w.combo) && VolatilityOk(v, w.vol) && ScaleOk(fc, w.scale)
    ensures HedgeOk(w.hedge) && AlgoOk(w.algo) && AdjustOk(v, w.terms.orderType, w.adjust)
  {
  }

  /** The layout is uniquely readable: from the version alone the reader recovers every field and every group of any
      order and consumes the whole list, exactly when every condition's type declares the fields written for it. */
  lemma OrderUniquelyReadable(fc: FloatCodec, v: int, w: WireOrder)
    requires OrderOk(fc, v, w)
    ensures ReadOrder(fc, v, OrderTexts(w)) == Success(w) <==> AllFit(w.adjust.conditions)
  {
    hide *;
    OkParts(fc, v, w);
    var ts := OrderTexts(w);
    var p := |TermsTexts(w.terms)|;
    var q := p + |ComboTexts(w.combo)|;
    var r := q + |VolatilityTexts(w.vol)|;
    var s := r + |ScaleTexts(w.scale)|;
    var t := s + |HedgeTexts(w.hedge)|;
    var u := t + |AlgoTexts(w.algo)|;
    SectionsHere(w, ts, p, q, r, s, t, u);
    FrontHere(v, w, ts, p, q, r);
    BackHere(fc, w, ts, r, s, t, u);
    AdjustHere(v, w.terms.orderType, w.adjust, ts, u);
    SectionsRead(fc, v, w, ts, p, q, r, s, t, u);
  }
}
