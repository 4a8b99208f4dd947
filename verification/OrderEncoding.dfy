/** What PlaceOrder sends is an instance of the order layout, so the reader that knows only the version recovers it;
    and no attribute that a guard protects is ever dropped silently. */
module OrderEncoding {
  import opened Basics
  import opened Framing
  import opened Fields
  import opened Cursor
  import opened Conditions
  import opened OrderLayout
  import opened Orders
  import opened Guards
  import opened Versions

  // ---------------------------------------------------------------- rendering piece by piece

  lemma RenderConcat(fc: FloatCodec, a: seq<Field>, b: seq<Field>)
    ensures RenderAll(fc, a + b) == RenderAll(fc, a) + RenderAll(fc, b)
  {
  }

  function RenderEach(fc: FloatCodec, items: seq<seq<Field>>): (gs: seq<seq<Text>>)
    ensures |gs| == |items| && forall i :: 0 <= i < |items| ==> gs[i] == RenderAll(fc, items[i])
  {
    seq(|items|, i requires 0 <= i < |items| => RenderAll(fc, items[i]))
  }

  lemma {:induction false} RenderFlatten(fc: FloatCodec, items: seq<seq<Field>>)
    ensures RenderAll(fc, Flatten(items)) == Flatten(RenderEach(fc, items))
  {
    if items != [] {
      hide RenderAll;
      RenderConcat(fc, items[0], Flatten(items[1..]));
      RenderFlatten(fc, items[1..]);
      assert RenderEach(fc, items) == [RenderAll(fc, items[0])] + RenderEach(fc, items[1..]);
    }
  }

  lemma RenderOne(fc: FloatCodec, f: Field)
    ensures RenderAll(fc, [f]) == [Render(fc, f)]
  {
  }

  lemma RenderList(fc: FloatCodec, items: seq<seq<Field>>)
    requires |items| <= INT64_MAX
    ensures RenderAll(fc, ListFields(items)) == Listed(RenderEach(fc, items))
  {
    hide RenderAll, FormatInt;
    RenderConcat(fc, [FInt(|items| as int64)], Flatten(items));
    RenderOne(fc, FInt(|items| as int64));
    RenderFlatten(fc, items);
  }

  lemma OnWireCons(fc: FloatCodec, cs: seq<Condition>)
    requires cs != []
    ensures WireTexts(AllOnWire(fc, cs))
            == [FormatInt(OnWire(fc, cs[0]).t as int)] + OnWire(fc, cs[0]).texts + WireTexts(AllOnWire(fc, cs[1..]))
  {
    hide OnWire, FormatInt;
    var ws := AllOnWire(fc, cs);
    assert ws[1..] == AllOnWire(fc, cs[1..]);
  }

  lemma NoneOnWire(fc: FloatCodec, cs: seq<Condition>)
    requires cs == []
    ensures RenderAll(fc, AllConditionFields(cs)) == WireTexts(AllOnWire(fc, cs)) == []
  {
  }

  lemma AllConditionsCons(cs: seq<Condition>)
    requires cs != []
    ensures AllConditionFields(cs) == ConditionFields(cs[0]) + AllConditionFields(cs[1..])
  {
  }

  lemma {:induction false} RenderConditions(fc: FloatCodec, cs: seq<Condition>)
    ensures RenderAll(fc, AllConditionFields(cs)) == WireTexts(AllOnWire(fc, cs))
  {
    hide *;
    if cs == [] {
      NoneOnWire(fc, cs);
    } else {
      OnWireCons(fc, cs);
      AllConditionsCons(cs);
      RenderCondition(fc, cs[0]);
      RenderConditions(fc, cs[1..]);
      RenderConcat(fc, ConditionFields(cs[0]), AllConditionFields(cs[1..]));
    }
  }

  lemma RenderCondition(fc: FloatCodec, c: Condition)
    ensures RenderAll(fc, ConditionFields(c)) == [FormatInt(OnWire(fc, c).t as int)] + OnWire(fc, c).texts
  {
    hide RenderAll, FormatInt;
    RenderConcat(fc, [FInt(c.CondType())], c.ToFields());
    RenderOne(fc, FInt(c.CondType()));
  }

  // ---------------------------------------------------------------- the order as the server should see it

  function TermsView(fc: FloatCodec, v: int, id: int64, c: Contract, o: Order): Terms
    requires c.Valid() && o.Valid()
  {
    Terms(RenderAll(fc, HeadFields(v, id, c)), c.secType, RenderAll(fc, TermFields(fc, c, o)), o.orderType,
          RenderAll(fc, RoutingFields(fc, o)))
  }

  function ComboView(fc: FloatCodec, c: Contract, o: Order): Option<Combo>
    requires c.Valid() && o.Valid()
  {
    if c.secType != BAG then None
    else Some(Combo(RenderEach(fc, LegFields(fc, c.comboLegs)), RenderEach(fc, PriceFields(fc, o.orderComboLegs)),
                    RenderEach(fc, TagFields(o.smartRouting))))
  }

  function VolatilityView(fc: FloatCodec, v: int, o: Order): Volatility
    requires o.Valid()
  {
    Volatility(RenderAll(fc, HandlingFields(fc, v, o)), o.dnType, RenderAll(fc, DnOrderFields(fc, o)))
  }

  function ScaleView(fc: FloatCodec, o: Order): Scale
    requires o.Valid()
  {
    Scale(RenderAll(fc, SizeFields(fc, o)), Render(fc, HandleEmptyFloat(fc, o.scaleIncrement)),
          RenderAll(fc, ScaleTermFields(fc, o)), RenderAll(fc, TableFields(o)))
  }

  function HedgeView(fc: FloatCodec, c: Contract, o: Order): Hedge
    requires c.Valid()
  {
    Hedge(o.hedgeType, RenderAll(fc, HedgeParamFields(o)), RenderAll(fc, FlagFields(o)),
          Render(fc, FBool(c.deltaNeutral.Some?)), RenderAll(fc, DnContractFields(fc, c)))
  }

  function AlgoView(fc: FloatCodec, o: Order): Algo
    requires o.Valid()
  {
    Algo(o.algoStrategy, if o.algoStrategy == [] then [] else RenderEach(fc, TagFields(o.algoParams)),
         RenderAll(fc, TailFields(o)))
  }

  function AdjustView(fc: FloatCodec, v: int, o: Order): Adjust
    requires o.Valid()
  {
    Adjust(RenderAll(fc, PegFields(fc, o)), AllOnWire(fc, o.conditions), RenderAll(fc, ConditionFlagFields(o)),
           RenderAll(fc, AdjustedFields(o)), RenderAll(fc, Gated(v, o, 0)))
  }

  function View(fc: FloatCodec, v: int, id: int64, c: Contract, o: Order): WireOrder
    requires c.Valid() && o.Valid()
  {
    WireOrder(TermsView(fc, v, id, c, o), ComboView(fc, c, o), VolatilityView(fc, v, o), ScaleView(fc, o),
              HedgeView(fc, c, o), AlgoView(fc, o), AdjustView(fc, v, o))
  }

  // ---------------------------------------------------------------- each section is rendered as laid out

  lemma TermsRendered(fc: FloatCodec, v: int, id: int64, c: Contract, o: Order)
    requires c.Valid() && o.Valid()
    ensures RenderAll(fc, TermsFields(fc, v, id, c, o)) == TermsTexts(TermsView(fc, v, id, c, o))
    ensures TermsOk(v, TermsView(fc, v, id, c, o))
  {
    hide RenderAll;
    var a, b, d := HeadFields(v, id, c), TermFields(fc, c, o), RoutingFields(fc, o);
    RenderConcat(fc, a, [FStr(c.secType)] + (b + ([FStr(o.orderType)] + d)));
    RenderConcat(fc, [FStr(c.secType)], b + ([FStr(o.orderType)] + d));
    RenderConcat(fc, b, [FStr(o.orderType)] + d);
    RenderConcat(fc, [FStr(o.orderType)], d);
    RenderOne(fc, FStr(c.secType));
    RenderOne(fc, FStr(o.orderType));
  }

  lemma ComboRendered(fc: FloatCodec, c: Contract, o: Order)
    requires c.Valid() && o.Valid()
    ensures RenderAll(fc, ComboFields(fc, c, o)) == ComboTexts(ComboView(fc, c, o))
    ensures ComboOk(c.secType, ComboView(fc, c, o))
  {
    hide RenderAll, Listed, ListFields;
    var a, b, d := LegFields(fc, c.comboLegs), PriceFields(fc, o.orderComboLegs), TagFields(o.smartRouting);
    RenderConcat(fc, ListFields(a), ListFields(b) + ListFields(d));
    RenderConcat(fc, ListFields(b), ListFields(d));
    RenderList(fc, a);
    RenderList(fc, b);
    RenderList(fc, d);
  }

  lemma VolatilityRendered(fc: FloatCodec, v: int, o: Order)
    requires o.Valid()
    ensures RenderAll(fc, VolatilityFields(fc, v, o)) == VolatilityTexts(VolatilityView(fc, v, o))
    ensures VolatilityOk(v, VolatilityView(fc, v, o))
  {
    hide RenderAll;
    RenderConcat(fc, HandlingFields(fc, v, o), [FStr(o.dnType)] + DnOrderFields(fc, o));
    RenderConcat(fc, [FStr(o.dnType)], DnOrderFields(fc, o));
    RenderOne(fc, FStr(o.dnType));
  }

  function IncrementText(fc: FloatCodec, o: Order): Text { Render(fc, HandleEmptyFloat(fc, o.scaleIncrement)) }

  /** A reader with codec rc sees from the increment, printed with fc, whether it is set and positive. */
  predicate ReadableBy(rc: FloatCodec, fc: FloatCodec, o: Order) {
    ScaleOn(rc, IncrementText(fc, o)) == IncrementOn(o.scaleIncrement)
  }

  /** The scale increment still says, once printed, whether it is set and positive. */
  predicate ScaleReadable(fc: FloatCodec, o: Order) { ReadableBy(fc, fc, o) }

  /** Ten digits being enough for the increment, or its being unset, suffices for that. */
  lemma PrintableIsReadable(fc: FloatCodec, o: Order)
    requires fc.Valid() && (o.scaleIncrement == UNSETFLOAT || fc.Exact(o.scaleIncrement))
    ensures ScaleReadable(fc, o)
  {
    UnsetFloatRoundTrip(fc, o.scaleIncrement);
  }

  lemma ScaleRendered(rc: FloatCodec, fc: FloatCodec, o: Order)
    requires o.Valid()
    ensures RenderAll(fc, ScaleFields(fc, o)) == ScaleTexts(ScaleView(fc, o))
    ensures ScaleOk(rc, ScaleView(fc, o)) <==> ReadableBy(rc, fc, o)
  {
    hide RenderAll, SizeFields;
    var inc := HandleEmptyFloat(fc, o.scaleIncrement);
    RenderConcat(fc, SizeFields(fc, o), [inc] + (ScaleTermFields(fc, o) + TableFields(o)));
    RenderConcat(fc, [inc], ScaleTermFields(fc, o) + TableFields(o));
    RenderConcat(fc, ScaleTermFields(fc, o), TableFields(o));
    RenderOne(fc, inc);
    SizeCount(fc, o);
  }

  lemma SizeCount(fc: FloatCodec, o: Order)
    requires o.Valid()
    ensures |SizeFields(fc, o)| == 6
  {
  }

  lemma HedgeRendered(fc: FloatCodec, c: Contract, o: Order)
    requires c.Valid()
    ensures RenderAll(fc, HedgeFields(fc, c, o)) == HedgeTexts(HedgeView(fc, c, o))
    ensures HedgeOk(HedgeView(fc, c, o))
  {
    hide RenderAll;
    var p, f, d, n := HedgeParamFields(o), FlagFields(o), FBool(c.deltaNeutral.Some?), DnContractFields(fc, c);
    RenderConcat(fc, [FStr(o.hedgeType)], p + (f + ([d] + n)));
    RenderConcat(fc, p, f + ([d] + n));
    RenderConcat(fc, f, [d] + n);
    RenderConcat(fc, [d], n);
    RenderOne(fc, FStr(o.hedgeType));
    RenderOne(fc, d);
  }

  lemma AlgoRendered(fc: FloatCodec, o: Order)
    requires o.Valid()
    ensures RenderAll(fc, AlgoFields(o)) == AlgoTexts(AlgoView(fc, o))
    ensures AlgoOk(AlgoView(fc, o))
  {
    hide RenderAll, Listed, ListFields;
    var tags := TagFields(o.algoParams);
    var params := if o.algoStrategy == [] then [] else ListFields(tags);
    RenderConcat(fc, [FStr(o.algoStrategy)], params + TailFields(o));
    RenderConcat(fc, params, TailFields(o));
    RenderOne(fc, FStr(o.algoStrategy));
    RenderList(fc, tags);
    RenderNone(fc);
  }

  lemma RenderNone(fc: FloatCodec)
    ensures RenderAll(fc, []) == []
  {
  }

  lemma AdjustRendered(fc: FloatCodec, v: int, o: Order)
    requires o.Valid()
    ensures RenderAll(fc, AdjustFields(fc, v, o)) == AdjustTexts(AdjustView(fc, v, o))
    ensures AdjustOk(v, o.orderType, AdjustView(fc, v, o))
  {
    GatedCount(v, o);
    hide RenderAll, AllConditionFields, AllOnWire, WireTexts, Gated, FormatInt, GatedLength;
    var a, cs, f := PegFields(fc, o), AllConditionFields(o.conditions), ConditionFlagFields(o);
    var b := AdjustedFields(o);
    var n, g := FInt(|o.conditions| as int64), Gated(v, o, 0);
    RenderConcat(fc, a, [n] + (cs + (f + (b + g))));
    RenderConcat(fc, [n], cs + (f + (b + g)));
    RenderConcat(fc, cs, f + (b + g));
    RenderConcat(fc, f, b + g);
    RenderConcat(fc, b, g);
    RenderOne(fc, n);
    RenderConditions(fc, o.conditions);
  }

  lemma OneGate(v: int, o: Order, k: nat)
    requires k < GATED
    ensures |Gated(v, o, k)| == Gate(v >= GATES[k], if k == 1 || k == 3 || k == 4 then 2 else 1) + |Gated(v, o, k + 1)|
    ensures |Gated(v, o, GATED)| == 0
  {
    hide GatedAttribute;
  }

  lemma GatedCount(v: int, o: Order)
    ensures |Gated(v, o, 0)| == GatedLength(v)
  {
    hide Gated, Gate;
    OneGate(v, o, 0);
    OneGate(v, o, 1);
    OneGate(v, o, 2);
    OneGate(v, o, 3);
    OneGate(v, o, 4);
    LaterGates(v, o);
  }

  lemma LaterGates(v: int, o: Order)
    ensures |Gated(v, o, 5)| == Gate(v >= AUTO_PRICE_FOR_HEDGE, 1) + Gate(v >= ORDER_CONTAINER, 1)
      + Gate(v >= D_PEG_ORDERS, 1) + Gate(v >= PRICE_MGMT_ALGO, 1) + Gate(v >= DURATION, 1) + Gate(v >= POST_TO_ATS, 1)
  {
    hide Gated, Gate;
    OneGate(v, o, 5);
    OneGate(v, o, 6);
    OneGate(v, o, 7);
    OneGate(v, o, 8);
    OneGate(v, o, 9);
    OneGate(v, o, 10);
  }

  /** The fields PlaceOrder appends, rendered, are the texts of the order as the server should see it. */
  lemma OrderRendered(rc: FloatCodec, fc: FloatCodec, v: int, id: int64, c: Contract, o: Order)
    requires c.Valid() && o.Valid()
    ensures RenderAll(fc, OrderFields(fc, v, id, c, o)) == OrderTexts(View(fc, v, id, c, o))
    ensures OrderOk(rc, v, View(fc, v, id, c, o)) <==> ReadableBy(rc, fc, o)
  {
    hide RenderAll, TermsFields, ComboFields, VolatilityFields, ScaleFields, HedgeFields, AlgoFields, AdjustFields;
    hide ComboView, VolatilityView, ScaleView, HedgeView, AlgoView, AdjustView;
    hide TermsTexts, ComboTexts, VolatilityTexts, ScaleTexts, HedgeTexts, AlgoTexts, AdjustTexts;
    hide TermsOk, VolatilityOk, ScaleOk, HedgeOk, AlgoOk, AdjustOk, ComboOk;
    TermsRendered(fc, v, id, c, o);
    ComboRendered(fc, c, o);
    VolatilityRendered(fc, v, o);
    ScaleRendered(rc, fc, o);
    HedgeRendered(fc, c, o);
    AlgoRendered(fc, o);
    AdjustRendered(fc, v, o);
    RenderSections(fc, TermsFields(fc, v, id, c, o), ComboFields(fc, c, o), VolatilityFields(fc, v, o),
                   ScaleFields(fc, o), HedgeFields(fc, c, o), AlgoFields(o), AdjustFields(fc, v, o));
  }

  lemma RenderSections(fc: FloatCodec, a: seq<Field>, b: seq<Field>, c: seq<Field>, d: seq<Field>, e: seq<Field>,
                       f: seq<Field>, g: seq<Field>)
    ensures RenderAll(fc, a + (b + (c + (d + (e + (f + g))))))
            == RenderAll(fc, a) + (RenderAll(fc, b) + (RenderAll(fc, c) + (RenderAll(fc, d)
               + (RenderAll(fc, e) + (RenderAll(fc, f) + RenderAll(fc, g))))))
  {
    hide RenderAll;
    RenderConcat(fc, f, g);
    RenderConcat(fc, e, f + g);
    RenderConcat(fc, d, e + (f + g));
    RenderConcat(fc, c, d + (e + (f + g)));
    RenderConcat(fc, b, c + (d + (e + (f + g))));
    RenderConcat(fc, a, b + (c + (d + (e + (f + g)))));
  }

  /** What PlaceOrder sends is uniquely readable: a reader that knows only the server version recovers every field and
      every group of the order and consumes the whole list, exactly when the scale increment is readable and every
      condition's type tag declares as many fields as the condition writes. */
  lemma PlaceOrderReadable(fc: FloatCodec, v: int, id: int64, c: Contract, o: Order)
    requires c.Valid() && o.Valid()
    ensures ReadOrder(fc, v, RenderAll(fc, OrderFields(fc, v, id, c, o))) == Success(View(fc, v, id, c, o))
            <==> ScaleReadable(fc, o) && forall i :: 0 <= i < |o.conditions| ==> TagFits(o.conditions[i])
  {
    ViewParts(fc, v, id, c, o);
    hide *;
    OrderRendered(fc, fc, v, id, c, o);
    ReadableMeans(fc, o);
    if ScaleReadable(fc, o) {
      OrderUniquelyReadable(fc, v, View(fc, v, id, c, o));
      FitMeansTagsFit(fc, o.conditions);
    } else {
      ReadScaleFits(fc, v, RenderAll(fc, OrderFields(fc, v, id, c, o)));
      ScaleRendered(fc, fc, o);
      ScaleSized(fc, o);
    }
  }

  lemma ReadableMeans(fc: FloatCodec, o: Order)
    ensures ScaleReadable(fc, o) <==> ReadableBy(fc, fc, o)
  {
  }

  lemma ViewParts(fc: FloatCodec, v: int, id: int64, c: Contract, o: Order)
    requires c.Valid() && o.Valid()
    ensures View(fc, v, id, c, o).adjust.conditions == AllOnWire(fc, o.conditions)
    ensures View(fc, v, id, c, o).scale == ScaleView(fc, o)
  {
  }

  /** Whatever the reader returns, its scale section has the fields that the increment it read asks for. */
  lemma ReadScaleFits(fc: FloatCodec, v: int, ts: seq<Text>)
    ensures var r := ReadOrder(fc, v, ts);
            r.Success? ==> |r.value.scale.terms| == Gate(ScaleOn(fc, r.value.scale.increment), 7)
  {
    hide ReadTerms, ReadCombo, ReadVolatility, ReadHedge, ReadAlgo, ReadAdjust, ScaleOn;
  }

  lemma ScaleSized(fc: FloatCodec, o: Order)
    requires o.Valid()
    ensures |ScaleView(fc, o).terms| == Gate(ScaleOn(fc, ScaleView(fc, o).increment), 7) <==> ScaleReadable(fc, o)
  {
    hide ScaleOn;
  }

  /** From the bytes on the socket back to the order: the message PlaceOrder submits is one frame, the frame splits into
      the rendered fields, and the reader recovers the order from them under just the same condition. */
  lemma ServerReadsOrder(fc: FloatCodec, v: int, id: int64, c: Contract, o: Order, payload: Text)
    requires c.Valid() && o.Valid() && fc.Valid() && NulFree(OrderFields(fc, v, id, c, o))
    requires payload == Terminated(RenderAll(fc, OrderFields(fc, v, id, c, o))) && |payload| < 0x1_0000_0000
    ensures Frames(Framed(payload)) == [payload] && Remainder(Framed(payload)) == []
    ensures ReadOrder(fc, v, SplitMsgBytes(payload)) == Success(View(fc, v, id, c, o))
            <==> ScaleReadable(fc, o) && forall i :: 0 <= i < |o.conditions| ==> TagFits(o.conditions[i])
  {
    hide *;
    OneFrame(payload);
    SplitsIntoFields(fc, OrderFields(fc, v, id, c, o));
    PlaceOrderReadable(fc, v, id, c, o);
  }

  lemma OneFrame(payload: Text)
    requires |payload| < 0x1_0000_0000
    ensures Frames(Framed(payload)) == [payload] && Remainder(Framed(payload)) == []
  {
    FramedFirst(payload, []);
    hide Framed;
    assert Framed(payload) + [] == Framed(payload) && Frames([]) == [] && Remainder([]) == [];
  }

  // ---------------------------------------------------------------- no silent loss

  /** The attributes that have both a guard and a version gate; DiscretionaryUpToLimitPrice has no guard. */
  datatype Guarded = Guarded(tradingClass: Text, table: (Text, Text, Text), algoID: Text, solicited: bool,
                             modelCode: Text, extOperator: Text, tier: (Text, Text), cashQty: Text,
                             decision: (Text, Text), execution: (Text, Text), dontUseAutoPrice: bool, isOms: bool,
                             usePriceMgmt: bool, duration: int64, postToAts: int64)

  function GuardedOf(fc: FloatCodec, c: Contract, o: Order): Guarded {
    Guarded(c.tradingClass, (o.scaleTable, o.activeStart, o.activeStop), o.algoID, o.solicited, o.modelCode,
            o.extOperator, (o.tierName, o.tierValue), fc.format(o.cashQty), (o.decisionMaker, o.decisionAlgo),
            (o.executionTrader, o.executionAlgo), o.dontUseAutoPrice, o.isOms, o.usePriceMgmt, o.duration, o.postToAts)
  }

  /** PlaceOrder takes the order without an error. */
  predicate Clean(v: int, c: Contract, o: Order) { !Refused(v, c, o) && !Warned(v, o) }

  /** Everything before the conditions is determined by the list of texts, whatever the condition tags are, and so
      are the gated attributes at its end. */
  lemma SameTextsSameFront(fc: FloatCodec, v: int, w: WireOrder, x: WireOrder)
    requires OrderOk(fc, v, w) && OrderOk(fc, v, x) && OrderTexts(w) == OrderTexts(x)
    ensures w.terms == x.terms && w.combo == x.combo && w.vol == x.vol && w.scale == x.scale && w.hedge == x.hedge
    ensures w.algo == x.algo && w.adjust.peg == x.adjust.peg && |w.adjust.conditions| == |x.adjust.conditions|
    ensures w.adjust.gated == x.adjust.gated
  {
    hide *;
    var ts := OrderTexts(w);
    var u := FrontRead(fc, v, w, ts);
    var t := FrontRead(fc, v, x, ts);
    PegFirst(w, v, fc, ts, u);
    PegFirst(x, v, fc, ts, t);
    GatedLast(w, v, fc, ts, u);
    GatedLast(x, v, fc, ts, t);
  }

  lemma FrontRead(fc: FloatCodec, v: int, w: WireOrder, ts: seq<Text>) returns (u: nat)
    requires OrderOk(fc, v, w) && ts == OrderTexts(w)
    ensures exists p, q, r, s, t ::
      && ReadTerms(v, ts, 0) == Success(At(w.terms, p)) && ReadCombo(w.terms.secType, ts, p) == Success(At(w.combo, q))
      && ReadVolatility(v, ts, q) == Success(At(w.vol, r)) && ReadScale(fc, ts, r) == Success(At(w.scale, s))
      && ReadHedge(ts, s) == Success(At(w.hedge, t)) && ReadAlgo(ts, t) == Success(At(w.algo, u))
    ensures Here(ts, u, AdjustTexts(w.adjust)) && u + |AdjustTexts(w.adjust)| == |ts|
  {
    hide *;
    OkParts(fc, v, w);
    var p := |TermsTexts(w.terms)|;
    var q := p + |ComboTexts(w.combo)|;
    var r := q + |VolatilityTexts(w.vol)|;
    var s := r + |ScaleTexts(w.scale)|;
    var t := s + |HedgeTexts(w.hedge)|;
    u := t + |AlgoTexts(w.algo)|;
    SectionsHere(w, ts, p, q, r, s, t, u);
    FrontHere(v, w, ts, p, q, r);
    BackHere(fc, w, ts, r, s, t, u);
  }

  /** The PEG BENCH block and the number of conditions open the last section. */
  lemma PegFirst(w: WireOrder, v: int, fc: FloatCodec, ts: seq<Text>, u: nat)
    requires OrderOk(fc, v, w) && Here(ts, u, AdjustTexts(w.adjust))
    ensures TakeAt(Gate(w.terms.orderType == PEG_BENCH, 5), ts, u) == Success(At(w.adjust.peg, u + |w.adjust.peg|))
    ensures CountAt(ts, u + |w.adjust.peg|) == Success(At(|w.adjust.conditions|, u + |w.adjust.peg| + 1))
  {
    assert AdjustOk(v, w.terms.orderType, w.adjust);
    assert |w.adjust.peg| == Gate(w.terms.orderType == PEG_BENCH, 5) && |w.adjust.conditions| <= INT64_MAX;
    hide *;
    var x := w.adjust;
    var cs := WireTexts(x.conditions);
    AdjustSplit(x, cs, ts, u, u + |x.peg|, u + |x.peg| + 1 + |cs|, u + |x.peg| + 1 + |cs| + |x.conditionFlags|);
    TakeHere(x.peg, ts, u);
    CountHere(|x.conditions|, ts, u + |x.peg|);
  }

  lemma GatedLast(w: WireOrder, v: int, fc: FloatCodec, ts: seq<Text>, u: nat)
    requires OrderOk(fc, v, w) && Here(ts, u, AdjustTexts(w.adjust)) && u + |AdjustTexts(w.adjust)| == |ts|
    ensures GatedLength(v) <= |ts| && w.adjust.gated == ts[|ts| - GatedLength(v)..]
  {
    assert |w.adjust.gated| == GatedLength(v);
    hide OrderOk, GatedLength, WireTexts, FormatInt;
    var x := w.adjust;
    var front := x.peg + ([FormatInt(|x.conditions|)] + (WireTexts(x.conditions) + (x.conditionFlags + x.adjusted)));
    assert AdjustTexts(x) == front + x.gated;
    HereSplit(ts, u, front, x.gated);
  }

  lemma SentLength(v: int, o: Order, p: Order, k: nat)
    requires k < GATED
    ensures |SentAt(v, o, k)| == |SentAt(v, p, k)|
  {
    hide GatedAttribute;
  }

  /** Equal gated texts mean equal texts for each attribute. */
  lemma {:induction false} GatedInjective(fc: FloatCodec, v: int, o: Order, p: Order, k: nat, i: nat)
    requires k <= i < GATED && RenderAll(fc, Gated(v, o, k)) == RenderAll(fc, Gated(v, p, k))
    ensures RenderAll(fc, SentAt(v, o, i)) == RenderAll(fc, SentAt(v, p, i))
    decreases i - k
  {
    var a, b, x, y := SentAt(v, o, k), SentAt(v, p, k), Gated(v, o, k + 1), Gated(v, p, k + 1);
    hide SentAt;
    SentLength(v, o, p, k);
    RenderConcat(fc, a, x);
    RenderConcat(fc, b, y);
    CancelFront(RenderAll(fc, a), RenderAll(fc, x), RenderAll(fc, b), RenderAll(fc, y));
    if k < i {
      GatedInjective(fc, v, o, p, k + 1, i);
    }
  }

  lemma CancelFront<T>(a: seq<T>, x: seq<T>, b: seq<T>, y: seq<T>)
    requires a + x == b + y && |a| == |b|
    ensures a == b && x == y
  {
    assert a == (a + x)[..|a|] && b == (b + y)[..|b|];
    assert x == (a + x)[|a|..] && y == (b + y)[|b|..];
  }

  /** Unset-aware integers are rendered injectively. */
  lemma SameTextSameInt(fc: FloatCodec, i: int64, j: int64)
    requires Render(fc, HandleEmptyInt(i)) == Render(fc, HandleEmptyInt(j))
    ensures i == j
  {
    UnsetIntRoundTrip(fc, i);
    UnsetIntRoundTrip(fc, j);
  }

  lemma SameFields(fc: FloatCodec, fs: seq<Field>, gs: seq<Field>)
    requires |fs| == |gs| && RenderAll(fc, fs) == RenderAll(fc, gs)
    ensures forall i :: 0 <= i < |fs| ==> Render(fc, fs[i]) == Render(fc, gs[i])
  {
    forall i | 0 <= i < |fs| ensures Render(fc, fs[i]) == Render(fc, gs[i]) {
      assert RenderAll(fc, fs)[i] == RenderAll(fc, gs)[i];
    }
  }

  /** The guarded attributes that every version from 103 sends in the middle of the message (the model code, from
      103, among them). */
  lemma MiddleKept(fc: FloatCodec, v: int, c: Contract, o: Order, d: Contract, p: Order)
    requires c.Valid() && o.Valid() && d.Valid() && p.Valid()
    requires RenderAll(fc, TermFields(fc, c, o)) == RenderAll(fc, TermFields(fc, d, p))
    requires RenderAll(fc, HandlingFields(fc, v, o)) == RenderAll(fc, HandlingFields(fc, v, p))
    requires RenderAll(fc, TableFields(o)) == RenderAll(fc, TableFields(p))
    requires RenderAll(fc, TailFields(o)) == RenderAll(fc, TailFields(p))
    ensures c.tradingClass == d.tradingClass && (v >= MODELS_SUPPORT ==> o.modelCode == p.modelCode)
    ensures o.scaleTable == p.scaleTable && o.activeStart == p.activeStart && o.activeStop == p.activeStop
    ensures o.algoID == p.algoID && o.solicited == p.solicited
  {
    TermKept(fc, c, o, d, p);
    HandlingKept(fc, v, o, p);
    SameFields(fc, TableFields(o), TableFields(p));
    SameFields(fc, TailFields(o), TailFields(p));
    assert Render(fc, TableFields(o)[0]) == Render(fc, TableFields(p)[0]);
    assert Render(fc, TableFields(o)[1]) == Render(fc, TableFields(p)[1]);
    assert Render(fc, TableFields(o)[2]) == Render(fc, TableFields(p)[2]);
    assert Render(fc, TailFields(o)[0]) == Render(fc, TailFields(p)[0]);
    assert Render(fc, TailFields(o)[3]) == Render(fc, TailFields(p)[3]);
  }

  lemma TermKept(fc: FloatCodec, c: Contract, o: Order, d: Contract, p: Order)
    requires c.Valid() && d.Valid() && RenderAll(fc, TermFields(fc, c, o)) == RenderAll(fc, TermFields(fc, d, p))
    ensures c.tradingClass == d.tradingClass
  {
    SameFields(fc, TermFields(fc, c, o), TermFields(fc, d, p));
    assert TermFields(fc, c, o)[8] == FStr(c.tradingClass) && TermFields(fc, d, p)[8] == FStr(d.tradingClass);
  }

  lemma HandlingKept(fc: FloatCodec, v: int, o: Order, p: Order)
    requires o.Valid() && p.Valid()
    requires RenderAll(fc, HandlingFields(fc, v, o)) == RenderAll(fc, HandlingFields(fc, v, p))
    ensures v >= MODELS_SUPPORT ==> o.modelCode == p.modelCode
  {
    SameFields(fc, HandlingFields(fc, v, o), HandlingFields(fc, v, p));
    if v >= MODELS_SUPPORT {
      assert HandlingFields(fc, v, o)[8] == FStr(o.modelCode) && HandlingFields(fc, v, p)[8] == FStr(p.modelCode);
    }
  }

  /** One field of one attribute that is sent. */
  lemma GateKept(fc: FloatCodec, v: int, o: Order, p: Order, i: nat, j: nat)
    requires RenderAll(fc, Gated(v, o, 0)) == RenderAll(fc, Gated(v, p, 0))
    requires i < GATED && j < |SentAt(v, o, i)|
    ensures j < |SentAt(v, p, i)| && Render(fc, SentAt(v, o, i)[j]) == Render(fc, SentAt(v, p, i)[j])
  {
    hide SentAt, Gated, RenderAll;
    SentLength(v, o, p, i);
    GatedInjective(fc, v, o, p, 0, i);
    SameFields(fc, SentAt(v, o, i), SentAt(v, p, i));
  }

  lemma NamesKept(fc: FloatCodec, v: int, o: Order, p: Order)
    requires RenderAll(fc, Gated(v, o, 0)) == RenderAll(fc, Gated(v, p, 0))
    ensures v >= EXT_OPERATOR ==> o.extOperator == p.extOperator
    ensures v >= SOFT_DOLLAR_TIER ==> o.tierName == p.tierName && o.tierValue == p.tierValue
    ensures v >= CASH_QTY ==> fc.format(o.cashQty) == fc.format(p.cashQty)
    ensures v >= DECISION_MAKER ==> o.decisionMaker == p.decisionMaker && o.decisionAlgo == p.decisionAlgo
    ensures v >= MIFID_EXECUTION ==> o.executionTrader == p.executionTrader && o.executionAlgo == p.executionAlgo
  {
    hide RenderAll, Gated;
    if v >= EXT_OPERATOR { GateKept(fc, v, o, p, 0, 0); }
    if v >= SOFT_DOLLAR_TIER { GateKept(fc, v, o, p, 1, 0); }
    if v >= SOFT_DOLLAR_TIER { GateKept(fc, v, o, p, 1, 1); }
    if v >= CASH_QTY { GateKept(fc, v, o, p, 2, 0); }
    if v >= DECISION_MAKER { GateKept(fc, v, o, p, 3, 0); }
    if v >= DECISION_MAKER { GateKept(fc, v, o, p, 3, 1); }
    if v >= MIFID_EXECUTION { GateKept(fc, v, o, p, 4, 0); }
    if v >= MIFID_EXECUTION { GateKept(fc, v, o, p, 4, 1); }
  }

  lemma FlagsKept(fc: FloatCodec, v: int, o: Order, p: Order)
    requires RenderAll(fc, Gated(v, o, 0)) == RenderAll(fc, Gated(v, p, 0))
    ensures v >= AUTO_PRICE_FOR_HEDGE ==> o.dontUseAutoPrice == p.dontUseAutoPrice
    ensures v >= ORDER_CONTAINER ==> o.isOms == p.isOms
    ensures v >= PRICE_MGMT_ALGO ==> o.usePriceMgmt == p.usePriceMgmt
    ensures v >= DURATION ==> o.duration == p.duration
    ensures v >= POST_TO_ATS ==> o.postToAts == p.postToAts
  {
    hide RenderAll, Gated, FormatInt;
    if v >= AUTO_PRICE_FOR_HEDGE { GateKept(fc, v, o, p, 5, 0); }
    if v >= ORDER_CONTAINER { GateKept(fc, v, o, p, 6, 0); }
    if v >= PRICE_MGMT_ALGO { GateKept(fc, v, o, p, 8, 0); }
    if v >= DURATION { GateKept(fc, v, o, p, 9, 0); }
    if v >= POST_TO_ATS { GateKept(fc, v, o, p, 10, 0); }
    if v >= DURATION { SameTextSameInt(fc, o.duration, p.duration); }
    if v >= POST_TO_ATS { SameTextSameInt(fc, o.postToAts, p.postToAts); }
  }

  /** Printing does not confuse an increment that is set and positive with one that is not. */
  predicate IncrementsApart(fc: FloatCodec, o: Order, p: Order) {
    IncrementText(fc, o) == IncrementText(fc, p) ==> IncrementOn(o.scaleIncrement) == IncrementOn(p.scaleIncrement)
  }

  /** A reader's codec that tells just the two increments apart. */
  function Deciding(fc: FloatCodec, o: Order, p: Order): FloatCodec {
    fc.(parse := t =>
      if || (t == IncrementText(fc, o) && IncrementOn(o.scaleIncrement))
         || (t == IncrementText(fc, p) && IncrementOn(p.scaleIncrement))
      then Some(1) else Some(ZEROFLOAT))
  }

  lemma Decides(fc: FloatCodec, o: Order, p: Order)
    requires fc.Valid() && IncrementsApart(fc, o, p)
    ensures ReadableBy(Deciding(fc, o, p), fc, o) && ReadableBy(Deciding(fc, o, p), fc, p)
  {
  }

  /** Equal fields for two orders mean equal fields for each part of them that is not behind the conditions. */
  lemma SamePartsSent(fc: FloatCodec, v: int, id: int64, c: Contract, o: Order, od: int64, d: Contract, p: Order)
    requires c.Valid() && o.Valid() && d.Valid() && p.Valid() && fc.Valid() && IncrementsApart(fc, o, p)
    requires RenderAll(fc, OrderFields(fc, v, id, c, o)) == RenderAll(fc, OrderFields(fc, v, od, d, p))
    ensures RenderAll(fc, TermFields(fc, c, o)) == RenderAll(fc, TermFields(fc, d, p))
    ensures RenderAll(fc, HandlingFields(fc, v, o)) == RenderAll(fc, HandlingFields(fc, v, p))
    ensures RenderAll(fc, TableFields(o)) == RenderAll(fc, TableFields(p))
    ensures RenderAll(fc, TailFields(o)) == RenderAll(fc, TailFields(p))
    ensures RenderAll(fc, Gated(v, o, 0)) == RenderAll(fc, Gated(v, p, 0))
  {
    hide RenderAll, OrderFields, TermFields, HandlingFields, TableFields, TailFields, Gated;
    hide OrderOk, OrderTexts, IncrementsApart;
    var rc := Deciding(fc, o, p);
    Decides(fc, o, p);
    hide Deciding, ReadableBy;
    OrderRendered(rc, fc, v, id, c, o);
    OrderRendered(rc, fc, v, od, d, p);
    SameTextsSameFront(rc, v, View(fc, v, id, c, o), View(fc, v, od, d, p));
  }

  /** No silent loss: two orders that PlaceOrder takes without an error at the same server version and that differ in a
      guarded attribute (up to ten digits of the cash quantity) are sent as different fields, however their floats
      print, as long as printing tells a positive scale increment from others. */
  lemma NoSilentLoss(fc: FloatCodec, v: int, id: int64, c: Contract, o: Order, od: int64, d: Contract, p: Order)
    requires c.Valid() && o.Valid() && d.Valid() && p.Valid() && v >= PEGGED_TO_BENCHMARK
    requires Clean(v, c, o) && Clean(v, d, p) && fc.Valid() && IncrementsApart(fc, o, p)
    requires RenderAll(fc, OrderFields(fc, v, id, c, o)) == RenderAll(fc, OrderFields(fc, v, od, d, p))
    ensures GuardedOf(fc, c, o) == GuardedOf(fc, d, p)
  {
    hide RenderAll, OrderFields, TermFields, HandlingFields, TableFields, TailFields, Gated;
    SamePartsSent(fc, v, id, c, o, od, d, p);
    MiddleKept(fc, v, c, o, d, p);
    NamesKept(fc, v, o, p);
    FlagsKept(fc, v, o, p);
  }

  // ---------------------------------------------------------------- no refusal without a reason

  /** The order without the attribute that guard number k is about. */
  function Without(o: Order, k: nat): Order {
    o.(modelCode := if k == 18 then [] else o.modelCode, extOperator := if k == 19 then [] else o.extOperator,
       tierName := if k == 20 then [] else o.tierName, tierValue := if k == 20 then [] else o.tierValue,
       cashQty := if k == 21 then UNSETFLOAT else o.cashQty,
       decisionMaker := if k == 22 then [] else o.decisionMaker,
       decisionAlgo := if k == 22 then [] else o.decisionAlgo,
       executionTrader := if k == 23 then [] else o.executionTrader,
       executionAlgo := if k == 23 then [] else o.executionAlgo, dontUseAutoPrice := k != 24 && o.dontUseAutoPrice,
       isOms := k != 25 && o.isOms, usePriceMgmt := k != 26 && o.usePriceMgmt,
       duration := if k == 27 then UNSET else o.duration, postToAts := if k == 28 then UNSET else o.postToAts)
  }

  /** Only that attribute differs. */
  lemma WithoutKeeps(o: Order, k: nat)
    ensures var p := Without(o, k);
            && p.action == o.action && p.totalQuantity == o.totalQuantity && p.orderType == o.orderType
            && p.limitPrice == o.limitPrice && p.auxPrice == o.auxPrice && p.routing == o.routing
            && p.orderComboLegs == o.orderComboLegs && p.smartRouting == o.smartRouting && p.handling == o.handling
            && p.shortSaleSlot == o.shortSaleSlot && p.designatedLocation == o.designatedLocation
            && p.exemptCode == o.exemptCode && p.clearing == o.clearing && p.auction == o.auction
            && p.dnType == o.dnType && p.dnAuxPrice == o.dnAuxPrice && p.dnOrder == o.dnOrder
            && (k != 18 ==> p.modelCode == o.modelCode) && (k == 18 ==> p.modelCode == [])
  {
  }

  lemma WithoutKeepsScale(o: Order, k: nat)
    ensures var p := Without(o, k);
            && p.pegged == o.pegged && p.trailingPercent == o.trailingPercent && p.scaleInit == o.scaleInit
            && p.scaleSubs == o.scaleSubs && p.scaleIncrement == o.scaleIncrement && p.scaleTerms == o.scaleTerms
            && p.scaleTable == o.scaleTable && p.activeStart == o.activeStart && p.activeStop == o.activeStop
            && p.hedgeType == o.hedgeType && p.hedgeParam == o.hedgeParam && p.optOut == o.optOut
            && p.clearingAccount == o.clearingAccount && p.clearingIntent == o.clearingIntent && p.notHeld == o.notHeld
            && p.algoStrategy == o.algoStrategy && p.algoParams == o.algoParams && p.algoID == o.algoID
            && p.whatIf == o.whatIf && p.miscOptions == o.miscOptions && p.solicited == o.solicited
            && p.randomizeSize == o.randomizeSize && p.randomizePrice == o.randomizePrice && p.peg == o.peg
            && p.conditions == o.conditions && p.ignoreRth == o.ignoreRth && p.cancelOrder == o.cancelOrder
            && p.adjusted == o.adjusted && p.discretionaryUpToLimit == o.discretionaryUpToLimit
  {
  }

  lemma WithoutKeepsGated(o: Order, k: nat)
    ensures var p := Without(o, k);
            && p.extOperator == (if k == 19 then [] else o.extOperator)
            && p.tierName == (if k == 20 then [] else o.tierName)
            && p.tierValue == (if k == 20 then [] else o.tierValue)
            && p.cashQty == (if k == 21 then UNSETFLOAT else o.cashQty)
            && p.decisionMaker == (if k == 22 then [] else o.decisionMaker)
            && p.decisionAlgo == (if k == 22 then [] else o.decisionAlgo)
            && p.executionTrader == (if k == 23 then [] else o.executionTrader)
            && p.executionAlgo == (if k == 23 then [] else o.executionAlgo)
            && p.dontUseAutoPrice == (k != 24 && o.dontUseAutoPrice) && p.isOms == (k != 25 && o.isOms)
            && p.usePriceMgmt == (k != 26 && o.usePriceMgmt)
            && p.duration == (if k == 27 then UNSET else o.duration)
            && p.postToAts == (if k == 28 then UNSET else o.postToAts)
  {
  }

  /** The guard of the attribute, from 102 on. */
  lemma LateGuard(v: int, c: Contract, o: Order, k: nat)
    requires c.Valid() && o.Valid() && v >= PEGGED_TO_BENCHMARK && k < GUARDS && Applies(v, c, o, k)
    ensures k >= 18 && (k == 18 ==> v < MODELS_SUPPORT && o.modelCode != [])
    ensures k >= 19 ==> v < GATES[if k <= 25 then k - 19 else k - 18]
    ensures k == 19 ==> o.extOperator != []
    ensures k == 20 ==> o.tierName != [] || o.tierValue != []
    ensures k == 21 ==> o.cashQty != UNSETFLOAT
    ensures k == 22 ==> o.decisionMaker != [] || o.decisionAlgo != []
    ensures k == 23 ==> o.executionTrader != [] || o.executionAlgo != []
    ensures (k == 24 ==> o.dontUseAutoPrice) && (k == 25 ==> o.isOms) && (k == 26 ==> o.usePriceMgmt)
    ensures (k == 27 ==> o.duration != UNSET) && (k == 28 ==> o.postToAts != UNSET)
  {
    hide NeutralIdsSet, NeutralOpenCloseSet, ScaleParametersSet, LegExempt, LegPriced;
  }

  /** What is left out makes no difference behind its gate. */
  lemma WithoutAt(v: int, o: Order, k: nat, j: nat)
    requires 18 <= k < GUARDS && (k >= 19 ==> v < GATES[if k <= 25 then k - 19 else k - 18]) && j < GATED
    ensures SentAt(v, Without(o, k), j) == SentAt(v, o, j)
  {
    WithoutKeepsGated(o, k);
    WithoutKeepsScale(o, k);
    hide Without, HandleEmptyInt;
  }

  lemma {:induction false} WithoutGated(v: int, o: Order, k: nat, j: nat)
    requires 18 <= k < GUARDS && (k >= 19 ==> v < GATES[if k <= 25 then k - 19 else k - 18]) && j <= GATED
    ensures Gated(v, Without(o, k), j) == Gated(v, o, j)
    decreases GATED - j
  {
    hide SentAt, Without;
    if j < GATED {
      WithoutAt(v, o, k, j);
      WithoutGated(v, o, k, j + 1);
    }
  }

  lemma WithoutPasses(v: int, c: Contract, o: Order, k: nat)
    requires c.Valid() && o.Valid() && 18 <= k < GUARDS && Without(o, k).Valid()
    ensures !Applies(v, c, Without(o, k), k)
  {
    WithoutKeeps(o, k);
    WithoutKeepsGated(o, k);
    hide Without, NeutralIdsSet, NeutralOpenCloseSet, ScaleParametersSet, LegExempt, LegPriced;
  }

  lemma WithoutFront(fc: FloatCodec, v: int, id: int64, c: Contract, o: Order, k: nat)
    requires c.Valid() && o.Valid() && k >= 18 && (k == 18 ==> v < MODELS_SUPPORT)
    ensures var p := Without(o, k);
            && p.Valid() && TermsFields(fc, v, id, c, p) == TermsFields(fc, v, id, c, o)
            && ComboFields(fc, c, p) == ComboFields(fc, c, o)
            && VolatilityFields(fc, v, p) == VolatilityFields(fc, v, o)
  {
    WithoutKeeps(o, k);
    WithoutKeepsScale(o, k);
    hide Without, HandleEmptyFloat, HandleEmptyInt, ListFields, LegFields, PriceFields, TagFields, WriteBlock;
  }

  lemma WithoutBack(fc: FloatCodec, v: int, id: int64, c: Contract, o: Order, k: nat)
    requires c.Valid() && o.Valid() && Without(o, k).Valid()
    ensures var p := Without(o, k);
            && ScaleFields(fc, p) == ScaleFields(fc, o) && HedgeFields(fc, c, p) == HedgeFields(fc, c, o)
            && AlgoFields(p) == AlgoFields(o) && PegFields(fc, p) == PegFields(fc, o) && p.conditions == o.conditions
            && ConditionFlagFields(p) == ConditionFlagFields(o) && AdjustedFields(p) == AdjustedFields(o)
  {
    WithoutKeeps(o, k);
    WithoutKeepsScale(o, k);
    hide Without, HandleEmptyFloat, HandleEmptyInt, ListFields, TagFields, MiscText, WriteBlock;
  }

  /** From version 102 on a guard applies only to what would not have been sent: without the attribute it is about,
      which the order does set, the message is the same and that guard lets it pass. */
  lemma GuardedIsNotSent(fc: FloatCodec, v: int, id: int64, c: Contract, o: Order, k: nat)
    requires c.Valid() && o.Valid() && v >= PEGGED_TO_BENCHMARK && k < GUARDS && Applies(v, c, o, k)
    ensures Without(o, k).Valid() && Without(o, k) != o && !Applies(v, c, Without(o, k), k)
    ensures OrderFields(fc, v, id, c, Without(o, k)) == OrderFields(fc, v, id, c, o)
  {
    LateGuard(v, c, o, k);
    WithoutKeeps(o, k);
    WithoutKeepsGated(o, k);
    WithoutFront(fc, v, id, c, o, k);
    WithoutBack(fc, v, id, c, o, k);
    WithoutPasses(v, c, o, k);
    WithoutGated(v, o, k, 0);
    hide Applies, Without, Gated, TermsFields, ComboFields, VolatilityFields, ScaleFields, HedgeFields, AlgoFields;
    hide PegFields, ConditionFlagFields, AdjustedFields, AllConditionFields;
  }
}
