/** What the server finds where: whatever the reader returns for an order that PlaceOrder sent, each field says the
    attribute that belongs at its position. The positions and the readers are spelled out; that the lists of fields are
    the right ones is what is proved. */
module OrderMeaning {
  import opened Basics
  import opened Fields
  import opened Cursor
  import opened Conditions
  import opened OrderLayout
  import opened Orders
  import opened OrderEncoding
  import opened Versions

  // ---------------------------------------------------------------- a text says a value

  predicate IntText(t: Text, i: int64) { AsInt(t) == Success(i) }

  /** The empty text if there is no value. */
  predicate IntOrNone(t: Text, i: int64) { AsIntUnset(t) == Success(i) && (t == [] <==> i as int == UNSETINT) }

  predicate FloatText(fc: FloatCodec, t: Text, f: Float) {
    t == fc.format(f) && (fc.Exact(f) ==> AsFloat(fc, t) == Success(f))
  }

  predicate FloatOrNone(fc: FloatCodec, t: Text, f: Float) {
    && (t == [] <==> f == UNSETFLOAT) && (f != UNSETFLOAT ==> t == fc.format(f))
    && (f == UNSETFLOAT || fc.Exact(f) ==> AsFloatUnset(fc, t) == Success(f))
  }

  predicate Flag(t: Text, b: bool) { (t == [48] || t == [49]) && AsBool(t) == b }

  // ---------------------------------------------------------------- what the writers make of a value

  lemma IntSaid(fc: FloatCodec, t: Text, i: int64)
    requires t == Render(fc, FInt(i))
    ensures IntText(t, i)
  {
    IntRoundTrip(i);
  }

  lemma IntOrNoneSaid(fc: FloatCodec, t: Text, i: int64)
    requires t == Render(fc, HandleEmptyInt(i))
    ensures IntOrNone(t, i)
  {
    IntRoundTrip(i);
  }

  lemma FloatSaid(fc: FloatCodec, t: Text, f: Float)
    requires fc.Valid() && t == Render(fc, FFloat(f))
    ensures FloatText(fc, t, f)
  {
  }

  lemma FloatOrNoneSaid(fc: FloatCodec, t: Text, f: Float)
    requires fc.Valid() && t == Render(fc, HandleEmptyFloat(fc, f))
    ensures FloatOrNone(fc, t, f)
  {
  }

  lemma TextSaid(fc: FloatCodec, t: Text, s: Text)
    requires t == Render(fc, FStr(s))
    ensures t == s
  {
  }

  lemma FlagSaid(fc: FloatCodec, t: Text, b: bool)
    requires t == Render(fc, FBool(b))
    ensures Flag(t, b)
  {
  }

  // ---------------------------------------------------------------- the sections the reader sees

  /** The fields PlaceOrder sent, read with the codec they were printed with. */
  ghost predicate Received(fc: FloatCodec, v: int, id: int64, c: Contract, o: Order, w: WireOrder) {
    && c.Valid() && o.Valid() && fc.Valid() && v >= PEGGED_TO_BENCHMARK
    && ReadOrder(fc, v, RenderAll(fc, OrderFields(fc, v, id, c, o))) == Success(w)
  }

  /** The sections of a readable list, one after the other. */
  lemma Sections(fc: FloatCodec, v: int, ts: seq<Text>, w: WireOrder) returns (p: nat, q: nat, r: nat, s: nat, t: nat,
                                                                              u: nat)
    requires ReadOrder(fc, v, ts) == Success(w)
    ensures ReadTerms(v, ts, 0) == Success(At(w.terms, p))
    ensures ReadCombo(w.terms.secType, ts, p) == Success(At(w.combo, q))
    ensures ReadVolatility(v, ts, q) == Success(At(w.vol, r)) && ReadScale(fc, ts, r) == Success(At(w.scale, s))
    ensures ReadHedge(ts, s) == Success(At(w.hedge, t)) && ReadAlgo(ts, t) == Success(At(w.algo, u))
    ensures ReadAdjust(v, w.terms.orderType, ts, u) == Success(At(w.adjust, |ts|))
  {
    hide ReadTerms, ReadCombo, ReadVolatility, ReadScale, ReadHedge, ReadAlgo, ReadAdjust;
    p := ReadTerms(v, ts, 0).value.next;
    q := ReadCombo(w.terms.secType, ts, p).value.next;
    r := ReadVolatility(v, ts, q).value.next;
    s := ReadScale(fc, ts, r).value.next;
    t := ReadHedge(ts, s).value.next;
    u := ReadAlgo(ts, t).value.next;
  }

  /** The increment does not depend on how it is understood. */
  lemma SameIncrement(fc: FloatCodec, rc: FloatCodec, ts: seq<Text>, pos: nat, x: Scale, y: Scale, s: nat, t: nat)
    requires ReadScale(fc, ts, pos) == Success(At(x, s)) && ReadScale(rc, ts, pos) == Success(At(y, t))
    ensures x.sizes == y.sizes && x.increment == y.increment
  {
    hide ScaleOn;
  }

  /** Up to the scale increment the reader sees the order that was sent, whatever the increment and the conditions. */
  lemma FrontSeen(fc: FloatCodec, v: int, id: int64, c: Contract, o: Order, w: WireOrder)
    requires Received(fc, v, id, c, o, w)
    ensures w.terms == TermsView(fc, v, id, c, o) && w.combo == ComboView(fc, c, o)
    ensures w.vol == VolatilityView(fc, v, o)
    ensures w.scale.sizes == ScaleView(fc, o).sizes && w.scale.increment == ScaleView(fc, o).increment
  {
    var ts, x := RenderAll(fc, OrderFields(fc, v, id, c, o)), View(fc, v, id, c, o);
    var rc := Deciding(fc, o, o);
    Decides(fc, o, o);
    hide RenderAll, OrderFields, Deciding, ReadableBy, OrderOk, OrderTexts, ReadOrder, ReadTerms, ReadCombo;
    hide ReadVolatility, ReadScale, ReadHedge, ReadAlgo, ReadAdjust, TermsView, ComboView, VolatilityView, ScaleView;
    hide HedgeView, AlgoView, AdjustView, AdjustTexts, Here;
    OrderRendered(rc, fc, v, id, c, o);
    var u := FrontRead(rc, v, x, ts);
    var p, q, r, s, t, l := Sections(fc, v, ts, w);
    assert ReadScale(rc, ts, r).Success? && ReadScale(rc, ts, r).value.value == x.scale;
    SameIncrement(fc, rc, ts, r, w.scale, x.scale, s, ReadScale(rc, ts, r).value.next);
  }

  /** With a readable increment, so it does up to the last section. */
  lemma BackSeen(fc: FloatCodec, v: int, id: int64, c: Contract, o: Order, w: WireOrder) returns (ts: seq<Text>, u: nat)
    requires Received(fc, v, id, c, o, w) && ScaleReadable(fc, o)
    ensures w.scale == ScaleView(fc, o) && w.hedge == HedgeView(fc, c, o) && w.algo == AlgoView(fc, o)
    ensures ReadAdjust(v, o.orderType, ts, u) == Success(At(w.adjust, |ts|))
    ensures OrderOk(fc, v, View(fc, v, id, c, o))
    ensures Here(ts, u, AdjustTexts(AdjustView(fc, v, o))) && u + |AdjustTexts(AdjustView(fc, v, o))| == |ts|
  {
    ts := RenderAll(fc, OrderFields(fc, v, id, c, o));
    var x := View(fc, v, id, c, o);
    assert x.terms.orderType == o.orderType;
    ReadableMeans(fc, o);
    hide RenderAll, OrderFields, ReadableBy, OrderOk, OrderTexts, ReadOrder, ReadTerms, ReadCombo, ScaleReadable;
    hide ReadVolatility, ReadScale, ReadHedge, ReadAlgo, ReadAdjust, TermsView, ComboView, VolatilityView, ScaleView;
    hide HedgeView, AlgoView, AdjustView, AdjustTexts, Here;
    OrderRendered(fc, fc, v, id, c, o);
    u := FrontRead(fc, v, x, ts);
    var p, q, r, s, t, l := Sections(fc, v, ts, w);
  }

  /** The last section around its conditions: what stands in front of them, and what ends the list. */
  predicate Around(v: int, orderType: Text, x: Adjust, ts: seq<Text>, pos: nat) {
    var g, f := GatedLength(v), |x.conditionFlags|;
    && g + 7 + f <= |ts| && x.gated == ts[|ts| - g..] && x.adjusted == ts[|ts| - g - 7..|ts| - g]
    && x.conditionFlags == ts[|ts| - g - 7 - f..|ts| - g - 7] && f == Gate(x.conditions != [], 2)
    && TakeAt(Gate(orderType == PEG_BENCH, 5), ts, pos) == Success(At(x.peg, pos + |x.peg|))
    && CountAt(ts, pos + |x.peg|) == Success(At(|x.conditions|, pos + |x.peg| + 1))
  }

  lemma SameFrame(v: int, orderType: Text, x: Adjust, y: Adjust, ts: seq<Text>, pos: nat)
    requires Around(v, orderType, x, ts, pos) && Around(v, orderType, y, ts, pos)
    ensures x.peg == y.peg && |x.conditions| == |y.conditions| && x.conditionFlags == y.conditionFlags
    ensures x.adjusted == y.adjusted && x.gated == y.gated
  {
    hide TakeAt, CountAt, GatedLength;
  }

  lemma AdjustFromEnd(v: int, orderType: Text, x: Adjust, ts: seq<Text>, pos: nat)
    requires ReadAdjust(v, orderType, ts, pos) == Success(At(x, |ts|))
    ensures Around(v, orderType, x, ts, pos)
  {
    hide ConditionsAt, GatedLength;
    var peg := TakeAt(Gate(orderType == PEG_BENCH, 5), ts, pos).value;
    var n := CountAt(ts, peg.next).value;
    ReadConditionsFit(n.value, ts, n.next);
  }

  lemma AdjustWritten(v: int, orderType: Text, x: Adjust, ts: seq<Text>, pos: nat)
    requires AdjustOk(v, orderType, x) && Here(ts, pos, AdjustTexts(x)) && pos + |AdjustTexts(x)| == |ts|
    ensures Around(v, orderType, x, ts, pos)
  {
    hide GatedLength, WireTexts, FormatInt;
    var cs := WireTexts(x.conditions);
    AdjustSplit(x, cs, ts, pos, pos + |x.peg|, pos + |x.peg| + 1 + |cs|, pos + |x.peg| + 1 + |cs| + |x.conditionFlags|);
    CountHere(|x.conditions|, ts, pos + |x.peg|);
  }

  /** With a readable increment the last section is seen as well, except for what the conditions are read as. */
  lemma AdjustSeen(fc: FloatCodec, v: int, id: int64, c: Contract, o: Order, w: WireOrder)
    requires Received(fc, v, id, c, o, w) && ScaleReadable(fc, o)
    ensures var x := AdjustView(fc, v, o);
            && w.adjust.peg == x.peg && |w.adjust.conditions| == |o.conditions|
            && w.adjust.conditionFlags == x.conditionFlags && w.adjust.adjusted == x.adjusted
            && w.adjust.gated == x.gated
  {
    var x := View(fc, v, id, c, o);
    assert x.terms.orderType == o.orderType && x.adjust == AdjustView(fc, v, o);
    assert |x.adjust.conditions| == |o.conditions|;
    hide *;
    var ts, u := BackSeen(fc, v, id, c, o, w);
    OkParts(fc, v, x);
    AdjustFromEnd(v, o.orderType, w.adjust, ts, u);
    AdjustWritten(v, o.orderType, x.adjust, ts, u);
    SameFrame(v, o.orderType, w.adjust, x.adjust, ts, u);
  }

  /** The message ID, its version below 145, and the order and the contract it is about. */
  predicate HeadSay(fc: FloatCodec, v: int, id: int64, c: Contract, h: seq<Text>) {
    var m := if v < 145 then 1 else 0;
    && |h| == 4 + m && IntText(h[0], 3) && (v < 145 ==> IntText(h[1], 45))
    && IntText(h[1 + m], id) && IntText(h[2 + m], c.contractID) && h[3 + m] == c.symbol
  }

  lemma HeadSaid(fc: FloatCodec, v: int, id: int64, c: Contract, h: seq<Text>)
    requires h == RenderAll(fc, HeadFields(v, id, c))
    ensures HeadSay(fc, v, id, c, h)
  {
    hide IntText, FormatInt;
    var m := if v < 145 then 1 else 0;
    IntSaid(fc, h[0], 3);
    if v < 145 { IntSaid(fc, h[1], 45); }
    IntSaid(fc, h[1 + m], id);
    IntSaid(fc, h[2 + m], c.contractID);
  }

  /** Expiry .. TotalQuantity. */
  predicate TermsSay(fc: FloatCodec, c: Contract, o: Order, t: seq<Text>) {
    && |t| == 13 && t[0] == c.terms.expiry && FloatText(fc, t[1], c.terms.strike) && t[2] == c.terms.right
    && t[3] == c.terms.multiplier && t[4] == c.terms.exchange && t[5] == c.terms.primaryExchange
    && t[6] == c.terms.currency && t[7] == c.terms.localSymbol && t[8] == c.tradingClass && t[9] == c.secIDType
    && t[10] == c.secID && t[11] == o.action && FloatText(fc, t[12], o.totalQuantity)
  }

  lemma TermsSaid(fc: FloatCodec, c: Contract, o: Order, t: seq<Text>)
    requires c.Valid() && fc.Valid() && t == RenderAll(fc, TermFields(fc, c, o))
    ensures TermsSay(fc, c, o, t)
  {
    hide Render, RenderAll;
    hide IntText, IntOrNone, FloatText, FloatOrNone, Flag, HandleEmptyInt, HandleEmptyFloat, FormatInt;
    TextSaid(fc, t[0], c.terms.expiry);
    FloatSaid(fc, t[1], c.terms.strike);
    TextSaid(fc, t[2], c.terms.right);
    TextSaid(fc, t[3], c.terms.multiplier);
    TextSaid(fc, t[4], c.terms.exchange);
    TextSaid(fc, t[5], c.terms.primaryExchange);
    TextSaid(fc, t[6], c.terms.currency);
    TextSaid(fc, t[7], c.terms.localSymbol);
    TextSaid(fc, t[8], c.tradingClass);
    TextSaid(fc, t[9], c.secIDType);
    TextSaid(fc, t[10], c.secID);
    TextSaid(fc, t[11], o.action);
    FloatSaid(fc, t[12], o.totalQuantity);
  }

  /** LimitPrice .. Hidden. */
  predicate RoutingSay(fc: FloatCodec, o: Order, r: seq<Text>) {
    && |r| == 16 && FloatOrNone(fc, r[0], o.limitPrice) && FloatOrNone(fc, r[1], o.auxPrice) && r[2] == o.routing.tif
    && r[3] == o.routing.ocaGroup && r[4] == o.routing.account && r[5] == o.routing.openClose
    && IntText(r[6], o.routing.origin) && r[7] == o.routing.orderRef && Flag(r[8], o.routing.transmit)
    && IntText(r[9], o.routing.parentID) && Flag(r[10], o.routing.blockOrder) && Flag(r[11], o.routing.sweepToFill)
    && IntText(r[12], o.routing.displaySize) && IntText(r[13], o.routing.triggerMethod)
    && Flag(r[14], o.routing.outsideRth) && Flag(r[15], o.routing.hidden)
  }

  lemma RoutingSaid(fc: FloatCodec, o: Order, r: seq<Text>)
    requires o.Valid() && fc.Valid() && r == RenderAll(fc, RoutingFields(fc, o))
    ensures RoutingSay(fc, o, r)
  {
    hide Render, RenderAll;
    hide IntText, IntOrNone, FloatText, FloatOrNone, Flag, HandleEmptyInt, HandleEmptyFloat, FormatInt;
    FloatOrNoneSaid(fc, r[0], o.limitPrice);
    FloatOrNoneSaid(fc, r[1], o.auxPrice);
    TextSaid(fc, r[2], o.routing.tif);
    TextSaid(fc, r[3], o.routing.ocaGroup);
    TextSaid(fc, r[4], o.routing.account);
    TextSaid(fc, r[5], o.routing.openClose);
    IntSaid(fc, r[6], o.routing.origin);
    TextSaid(fc, r[7], o.routing.orderRef);
    FlagSaid(fc, r[8], o.routing.transmit);
    IntSaid(fc, r[9], o.routing.parentID);
    FlagSaid(fc, r[10], o.routing.blockOrder);
    FlagSaid(fc, r[11], o.routing.sweepToFill);
    IntSaid(fc, r[12], o.routing.displaySize);
    IntSaid(fc, r[13], o.routing.triggerMethod);
    FlagSaid(fc, r[14], o.routing.outsideRth);
    FlagSaid(fc, r[15], o.routing.hidden);
  }

  /** A combo leg. */
  predicate LegSay(fc: FloatCodec, leg: Leg, t: seq<Text>) {
    && |t| == 8 && IntText(t[0], leg.contractID) && IntText(t[1], leg.ratio) && t[2] == leg.action
    && t[3] == leg.exchange && IntText(t[4], leg.openClose) && IntText(t[5], leg.shortSaleSlot)
    && t[6] == leg.designatedLocation && IntText(t[7], leg.exemptCode)
  }

  lemma LegSaid(fc: FloatCodec, leg: Leg, t: seq<Text>)
    requires fc.Valid() && t == RenderAll(fc, WriteBlock(fc, LEG, leg.Values()))
    ensures LegSay(fc, leg, t)
  {
    hide Render, RenderAll;
    hide IntText, IntOrNone, FloatText, FloatOrNone, Flag, HandleEmptyInt, HandleEmptyFloat, FormatInt;
    IntSaid(fc, t[0], leg.contractID);
    IntSaid(fc, t[1], leg.ratio);
    TextSaid(fc, t[2], leg.action);
    TextSaid(fc, t[3], leg.exchange);
    IntSaid(fc, t[4], leg.openClose);
    IntSaid(fc, t[5], leg.shortSaleSlot);
    TextSaid(fc, t[6], leg.designatedLocation);
    IntSaid(fc, t[7], leg.exemptCode);
  }

  /** DiscretionaryAmount .. FAProfile, behind a field that is always empty, and the model code from 103. */
  predicate AccountSay(fc: FloatCodec, v: int, o: Order, h: seq<Text>) {
    && |h| == 8 + (if v >= 103 then 1 else 0) && h[0] == [] && FloatText(fc, h[1], o.handling.discretionaryAmount)
    && h[2] == o.handling.goodAfterTime && h[3] == o.handling.goodTillDate && h[4] == o.handling.faGroup
    && h[5] == o.handling.faMethod && h[6] == o.handling.faPercentage && h[7] == o.handling.faProfile
  }

  lemma AccountSaid(fc: FloatCodec, v: int, o: Order, h: seq<Text>)
    requires fc.Valid() && h == RenderAll(fc, AccountFields(fc, v, o))
    ensures AccountSay(fc, v, o, h)
  {
    hide Render, RenderAll;
    hide IntText, IntOrNone, FloatText, FloatOrNone, Flag, HandleEmptyInt, HandleEmptyFloat, FormatInt;
    TextSaid(fc, h[0], []);
    FloatSaid(fc, h[1], o.handling.discretionaryAmount);
    TextSaid(fc, h[2], o.handling.goodAfterTime);
    TextSaid(fc, h[3], o.handling.goodTillDate);
    TextSaid(fc, h[4], o.handling.faGroup);
    TextSaid(fc, h[5], o.handling.faMethod);
    TextSaid(fc, h[6], o.handling.faPercentage);
    TextSaid(fc, h[7], o.handling.faProfile);
  }

  /** ShortSaleSlot .. PercentOffset. */
  predicate ShortSaleSay(fc: FloatCodec, o: Order, h: seq<Text>) {
    && |h| == 9 && IntText(h[0], o.shortSaleSlot) && h[1] == o.designatedLocation && IntText(h[2], o.exemptCode)
    && IntText(h[3], o.clearing.ocaType) && h[4] == o.clearing.rule80A && h[5] == o.clearing.settlingFirm
    && Flag(h[6], o.clearing.allOrNone) && IntOrNone(h[7], o.clearing.minQty)
    && FloatOrNone(fc, h[8], o.clearing.percentOffset)
  }

  lemma ShortSaleSaid(fc: FloatCodec, o: Order, h: seq<Text>)
    requires fc.Valid() && h == RenderAll(fc, ShortSaleFields(fc, o))
    ensures ShortSaleSay(fc, o, h)
  {
    hide Render, RenderAll;
    hide IntText, IntOrNone, FloatText, FloatOrNone, Flag, HandleEmptyInt, HandleEmptyFloat, FormatInt;
    IntSaid(fc, h[0], o.shortSaleSlot);
    TextSaid(fc, h[1], o.designatedLocation);
    IntSaid(fc, h[2], o.exemptCode);
    IntSaid(fc, h[3], o.clearing.ocaType);
    TextSaid(fc, h[4], o.clearing.rule80A);
    TextSaid(fc, h[5], o.clearing.settlingFirm);
    FlagSaid(fc, h[6], o.clearing.allOrNone);
    IntOrNoneSaid(fc, h[7], o.clearing.minQty);
    FloatOrNoneSaid(fc, h[8], o.clearing.percentOffset);
  }

  /** Three constants, then AuctionStrategy .. VolatilityType. */
  predicate AuctionSay(fc: FloatCodec, o: Order, h: seq<Text>) {
    && |h| == 12 && Flag(h[0], false) && Flag(h[1], false) && FloatOrNone(fc, h[2], UNSETFLOAT)
    && IntText(h[3], o.auction.strategy) && FloatOrNone(fc, h[4], o.auction.startingPrice)
    && FloatOrNone(fc, h[5], o.auction.stockRefPrice) && FloatOrNone(fc, h[6], o.auction.delta)
    && FloatOrNone(fc, h[7], o.auction.stockRangeLower) && FloatOrNone(fc, h[8], o.auction.stockRangeUpper)
    && Flag(h[9], o.auction.overridePercentage) && FloatOrNone(fc, h[10], o.auction.volatility)
    && IntOrNone(h[11], o.auction.volatilityType)
  }

  lemma AuctionSaid(fc: FloatCodec, o: Order, h: seq<Text>)
    requires fc.Valid() && h == RenderAll(fc, AuctionFields(fc, o))
    ensures AuctionSay(fc, o, h)
  {
    hide Render, RenderAll;
    hide IntText, IntOrNone, FloatText, FloatOrNone, Flag, HandleEmptyInt, HandleEmptyFloat, FormatInt;
    FlagSaid(fc, h[0], false);
    FlagSaid(fc, h[1], false);
    FloatOrNoneSaid(fc, h[2], UNSETFLOAT);
    IntSaid(fc, h[3], o.auction.strategy);
    FloatOrNoneSaid(fc, h[4], o.auction.startingPrice);
    FloatOrNoneSaid(fc, h[5], o.auction.stockRefPrice);
    FloatOrNoneSaid(fc, h[6], o.auction.delta);
    FloatOrNoneSaid(fc, h[7], o.auction.stockRangeLower);
    FloatOrNoneSaid(fc, h[8], o.auction.stockRangeUpper);
    FlagSaid(fc, h[9], o.auction.overridePercentage);
    FloatOrNoneSaid(fc, h[10], o.auction.volatility);
    IntOrNoneSaid(fc, h[11], o.auction.volatilityType);
  }

  /** The delta-neutral order block. */
  predicate NeutralSay(fc: FloatCodec, d: NeutralOrder, t: seq<Text>) {
    && |t| == 8 && IntText(t[0], d.contractID) && t[1] == d.settlingFirm && t[2] == d.clearingAccount
    && t[3] == d.clearingIntent && t[4] == d.openClose && Flag(t[5], d.shortSale) && IntText(t[6], d.shortSaleSlot)
    && t[7] == d.designatedLocation
  }

  lemma NeutralSaid(fc: FloatCodec, d: NeutralOrder, t: seq<Text>)
    requires fc.Valid() && t == RenderAll(fc, WriteBlock(fc, DN_ORDER, d.Values()))
    ensures NeutralSay(fc, d, t)
  {
    hide Render, RenderAll;
    hide IntText, IntOrNone, FloatText, FloatOrNone, Flag, HandleEmptyInt, HandleEmptyFloat, FormatInt;
    IntSaid(fc, t[0], d.contractID);
    TextSaid(fc, t[1], d.settlingFirm);
    TextSaid(fc, t[2], d.clearingAccount);
    TextSaid(fc, t[3], d.clearingIntent);
    TextSaid(fc, t[4], d.openClose);
    FlagSaid(fc, t[5], d.shortSale);
    IntSaid(fc, t[6], d.shortSaleSlot);
    TextSaid(fc, t[7], d.designatedLocation);
  }

  /** ContinuousUpdate .. ScaleSubsLevelSize. */
  predicate SizesSay(fc: FloatCodec, o: Order, t: seq<Text>) {
    && |t| == 6 && Flag(t[0], o.pegged.continuousUpdate) && IntOrNone(t[1], o.pegged.referencePriceType)
    && FloatOrNone(fc, t[2], o.pegged.trailStopPrice) && FloatOrNone(fc, t[3], o.trailingPercent)
    && IntOrNone(t[4], o.scaleInit) && IntOrNone(t[5], o.scaleSubs)
  }

  lemma SizesSaid(fc: FloatCodec, o: Order, t: seq<Text>)
    requires o.Valid() && fc.Valid() && t == RenderAll(fc, SizeFields(fc, o))
    ensures SizesSay(fc, o, t)
  {
    hide Render, RenderAll;
    hide IntText, IntOrNone, FloatText, FloatOrNone, Flag, HandleEmptyInt, HandleEmptyFloat, FormatInt;
    FlagSaid(fc, t[0], o.pegged.continuousUpdate);
    IntOrNoneSaid(fc, t[1], o.pegged.referencePriceType);
    FloatOrNoneSaid(fc, t[2], o.pegged.trailStopPrice);
    FloatOrNoneSaid(fc, t[3], o.trailingPercent);
    IntOrNoneSaid(fc, t[4], o.scaleInit);
    IntOrNoneSaid(fc, t[5], o.scaleSubs);
  }

  /** ScalePriceAdjustValue .. ScaleRandomPercent. */
  predicate ScaleTermsSay(fc: FloatCodec, x: ScaleTerms, t: seq<Text>) {
    && |t| == 7 && FloatOrNone(fc, t[0], x.priceAdjustValue) && IntOrNone(t[1], x.priceAdjustInterval)
    && FloatOrNone(fc, t[2], x.profitOffset) && Flag(t[3], x.autoReset) && IntOrNone(t[4], x.initPosition)
    && IntOrNone(t[5], x.initFillQty) && Flag(t[6], x.randomPercent)
  }

  lemma ScaleTermsSaid(fc: FloatCodec, x: ScaleTerms, t: seq<Text>)
    requires fc.Valid() && t == RenderAll(fc, WriteBlock(fc, SCALE_TERMS, x.Values()))
    ensures ScaleTermsSay(fc, x, t)
  {
    hide Render, RenderAll;
    hide IntText, IntOrNone, FloatText, FloatOrNone, Flag, HandleEmptyInt, HandleEmptyFloat, FormatInt;
    FloatOrNoneSaid(fc, t[0], x.priceAdjustValue);
    IntOrNoneSaid(fc, t[1], x.priceAdjustInterval);
    FloatOrNoneSaid(fc, t[2], x.profitOffset);
    FlagSaid(fc, t[3], x.autoReset);
    IntOrNoneSaid(fc, t[4], x.initPosition);
    IntOrNoneSaid(fc, t[5], x.initFillQty);
    FlagSaid(fc, t[6], x.randomPercent);
  }

  /** OptOutSmartRouting .. NotHeld. */
  predicate FlagsSay(fc: FloatCodec, o: Order, t: seq<Text>) {
    && |t| == 4 && Flag(t[0], o.optOut) && t[1] == o.clearingAccount && t[2] == o.clearingIntent
    && Flag(t[3], o.notHeld)
  }

  lemma FlagsSaid(fc: FloatCodec, o: Order, t: seq<Text>)
    requires fc.Valid() && t == RenderAll(fc, FlagFields(o))
    ensures FlagsSay(fc, o, t)
  {
    hide Render, RenderAll;
    hide IntText, IntOrNone, FloatText, FloatOrNone, Flag, HandleEmptyInt, HandleEmptyFloat, FormatInt;
    FlagSaid(fc, t[0], o.optOut);
    TextSaid(fc, t[1], o.clearingAccount);
    TextSaid(fc, t[2], o.clearingIntent);
    FlagSaid(fc, t[3], o.notHeld);
  }

  /** The delta-neutral contract. */
  predicate DeltaNeutralSay(fc: FloatCodec, d: DeltaNeutral, t: seq<Text>) {
    && |t| == 3 && IntText(t[0], d.contractID) && FloatText(fc, t[1], d.delta) && FloatText(fc, t[2], d.price)
  }

  lemma DeltaNeutralSaid(fc: FloatCodec, d: DeltaNeutral, t: seq<Text>)
    requires fc.Valid() && t == RenderAll(fc, WriteBlock(fc, DN_CONTRACT, d.Values()))
    ensures DeltaNeutralSay(fc, d, t)
  {
    hide Render, RenderAll;
    hide IntText, IntOrNone, FloatText, FloatOrNone, Flag, HandleEmptyInt, HandleEmptyFloat, FormatInt;
    IntSaid(fc, t[0], d.contractID);
    FloatSaid(fc, t[1], d.delta);
    FloatSaid(fc, t[2], d.price);
  }

  /** tag=value; for each option. */
  function MiscPieces(tvs: seq<TagValue>): seq<Text> {
    seq(|tvs|, i requires 0 <= i < |tvs| => tvs[i].tag + [61] + tvs[i].value + [59])
  }

  lemma {:induction false} MiscJoined(tvs: seq<TagValue>)
    ensures MiscText(tvs) == Flatten(MiscPieces(tvs))
  {
    if tvs != [] {
      MiscJoined(tvs[1..]);
      assert MiscPieces(tvs)[1..] == MiscPieces(tvs[1..]);
    }
  }

  /** AlgoID .. RandomizePrice. */
  predicate TailSay(fc: FloatCodec, o: Order, t: seq<Text>) {
    && |t| == 6 && t[0] == o.algoID && Flag(t[1], o.whatIf) && t[2] == Flatten(MiscPieces(o.miscOptions))
    && Flag(t[3], o.solicited) && Flag(t[4], o.randomizeSize) && Flag(t[5], o.randomizePrice)
  }

  lemma TailSaid(fc: FloatCodec, o: Order, t: seq<Text>)
    requires fc.Valid() && t == RenderAll(fc, TailFields(o))
    ensures TailSay(fc, o, t)
  {
    hide Render, RenderAll;
    hide IntText, IntOrNone, FloatText, FloatOrNone, Flag, HandleEmptyInt, HandleEmptyFloat, FormatInt;
    MiscJoined(o.miscOptions);
    TextSaid(fc, t[0], o.algoID);
    FlagSaid(fc, t[1], o.whatIf);
    TextSaid(fc, t[2], Flatten(MiscPieces(o.miscOptions)));
    FlagSaid(fc, t[3], o.solicited);
    FlagSaid(fc, t[4], o.randomizeSize);
    FlagSaid(fc, t[5], o.randomizePrice);
  }

  /** The PEG BENCH block. */
  predicate BenchmarkSay(fc: FloatCodec, x: Benchmark, t: seq<Text>) {
    && |t| == 5 && IntText(t[0], x.contractID) && Flag(t[1], x.isDecrease) && FloatText(fc, t[2], x.changeAmount)
    && FloatText(fc, t[3], x.referenceChange) && t[4] == x.exchangeID
  }

  lemma BenchmarkSaid(fc: FloatCodec, x: Benchmark, t: seq<Text>)
    requires fc.Valid() && t == RenderAll(fc, WriteBlock(fc, PEG, x.Values()))
    ensures BenchmarkSay(fc, x, t)
  {
    hide Render, RenderAll;
    hide IntText, IntOrNone, FloatText, FloatOrNone, Flag, HandleEmptyInt, HandleEmptyFloat, FormatInt;
    IntSaid(fc, t[0], x.contractID);
    FlagSaid(fc, t[1], x.isDecrease);
    FloatSaid(fc, t[2], x.changeAmount);
    FloatSaid(fc, t[3], x.referenceChange);
    TextSaid(fc, t[4], x.exchangeID);
  }

  /** AdjustedOrderType .. AdjustableTrailingUnit. */
  predicate AdjustedSay(fc: FloatCodec, o: Order, t: seq<Text>) {
    && |t| == 7 && t[0] == o.adjusted.orderType && FloatText(fc, t[1], o.adjusted.triggerPrice)
    && FloatText(fc, t[2], o.adjusted.limitPriceOffset) && FloatText(fc, t[3], o.adjusted.stopPrice)
    && FloatText(fc, t[4], o.adjusted.stopLimitPrice) && FloatText(fc, t[5], o.adjusted.trailingAmount)
    && IntText(t[6], o.adjusted.trailingUnit)
  }

  lemma AdjustedSaid(fc: FloatCodec, o: Order, t: seq<Text>)
    requires fc.Valid() && t == RenderAll(fc, AdjustedFields(o))
    ensures AdjustedSay(fc, o, t)
  {
    hide Render, RenderAll;
    hide IntText, IntOrNone, FloatText, FloatOrNone, Flag, HandleEmptyInt, HandleEmptyFloat, FormatInt;
    TextSaid(fc, t[0], o.adjusted.orderType);
    FloatSaid(fc, t[1], o.adjusted.triggerPrice);
    FloatSaid(fc, t[2], o.adjusted.limitPriceOffset);
    FloatSaid(fc, t[3], o.adjusted.stopPrice);
    FloatSaid(fc, t[4], o.adjusted.stopLimitPrice);
    FloatSaid(fc, t[5], o.adjusted.trailingAmount);
    IntSaid(fc, t[6], o.adjusted.trailingUnit);
  }

  // ---------------------------------------------------------------- attributes behind gates

  /** The first k attributes of the end of the message. */
  function FirstGated(o: Order, k: nat): seq<Field>
    requires k <= GATED
  {
    if k == 0 then [] else FirstGated(o, k - 1) + GatedAttribute(o, k - 1)
  }

  /** A gate stands behind all gates that open earlier. */
  function Offset(k: nat): nat {
    if k == 0 then 0 else Offset(k - 1) + (if k == 2 || k == 4 || k == 5 then 2 else 1)
  }

  lemma OpenGate(v: int, o: Order, k: nat)
    requires k < GATED && v >= GATES[k]
    ensures Gated(v, o, k) == GatedAttribute(o, k) + Gated(v, o, k + 1)
  {
    hide GatedAttribute;
    assert Gated(v, o, k) == SentAt(v, o, k) + Gated(v, o, k + 1);
  }

  lemma {:induction false} EarlierGates(v: int, o: Order, k: nat)
    requires k <= GATED && forall j :: 0 <= j < k ==> v >= GATES[j]
    ensures Gated(v, o, 0) == FirstGated(o, k) + Gated(v, o, k) && |FirstGated(o, k)| == Offset(k)
  {
    hide Gated, GatedAttribute;
    if k > 0 {
      EarlierGates(v, o, k - 1);
      assert v >= GATES[k - 1];
      OpenGate(v, o, k - 1);
    }
  }

  lemma GatesRise(v: int, k: nat)
    requires k < GATED && v >= GATES[k]
    ensures forall j :: 0 <= j < k ==> v >= GATES[j]
  {
  }

  lemma GateSaid(fc: FloatCodec, v: int, o: Order, k: nat, j: nat, g: seq<Text>)
    requires k < GATED && v >= GATES[k] && g == RenderAll(fc, Gated(v, o, 0)) && j < |GatedAttribute(o, k)|
    ensures Offset(k) + j < |g| && g[Offset(k) + j] == Render(fc, GatedAttribute(o, k)[j])
  {
    GatesRise(v, k);
    EarlierGates(v, o, k);
    OpenGate(v, o, k);
    hide Gated, GatedAttribute, Render;
  }

  /** The attributes of the end of the message, each from the version on that takes it. */
  predicate GatedSay(fc: FloatCodec, v: int, o: Order, g: seq<Text>) {
    && (v >= 105 ==> |g| > 0 && g[0] == o.extOperator)
    && (v >= 106 ==> |g| > 2 && g[1] == o.tierName && g[2] == o.tierValue)
    && (v >= 111 ==> |g| > 3 && FloatText(fc, g[3], o.cashQty))
    && MifidSay(v, o, g) && LatestSay(v, o, g)
  }

  predicate MifidSay(v: int, o: Order, g: seq<Text>) {
    && (v >= 138 ==> |g| > 5 && g[4] == o.decisionMaker && g[5] == o.decisionAlgo)
    && (v >= 139 ==> |g| > 7 && g[6] == o.executionTrader && g[7] == o.executionAlgo)
    && (v >= 141 ==> |g| > 8 && Flag(g[8], o.dontUseAutoPrice))
  }

  predicate LatestSay(v: int, o: Order, g: seq<Text>) {
    && (v >= 145 ==> |g| > 9 && Flag(g[9], o.isOms))
    && (v >= 148 ==> |g| > 10 && Flag(g[10], o.discretionaryUpToLimit))
    && (v >= 151 ==> |g| > 11 && Flag(g[11], o.usePriceMgmt))
    && (v >= 158 ==> |g| > 12 && IntOrNone(g[12], o.duration))
    && (v >= 160 ==> |g| > 13 && IntOrNone(g[13], o.postToAts))
  }

  lemma LatestSaid(fc: FloatCodec, v: int, o: Order, g: seq<Text>)
    requires g == RenderAll(fc, Gated(v, o, 0))
    ensures LatestSay(v, o, g)
  {
    hide Gated, RenderAll, Render, Flag, IntOrNone, HandleEmptyInt;
    if v >= 145 { GateSaid(fc, v, o, 6, 0, g); FlagSaid(fc, g[9], o.isOms); }
    if v >= 148 { GateSaid(fc, v, o, 7, 0, g); FlagSaid(fc, g[10], o.discretionaryUpToLimit); }
    if v >= 151 { GateSaid(fc, v, o, 8, 0, g); FlagSaid(fc, g[11], o.usePriceMgmt); }
    if v >= 158 { GateSaid(fc, v, o, 9, 0, g); IntOrNoneSaid(fc, g[12], o.duration); }
    if v >= 160 { GateSaid(fc, v, o, 10, 0, g); IntOrNoneSaid(fc, g[13], o.postToAts); }
  }

  lemma MifidSaid(fc: FloatCodec, v: int, o: Order, g: seq<Text>)
    requires g == RenderAll(fc, Gated(v, o, 0))
    ensures MifidSay(v, o, g)
  {
    hide Gated, RenderAll, Render, Flag;
    if v >= 138 { GateSaid(fc, v, o, 3, 0, g); TextSaid(fc, g[4], o.decisionMaker); }
    if v >= 138 { GateSaid(fc, v, o, 3, 1, g); TextSaid(fc, g[5], o.decisionAlgo); }
    if v >= 139 { GateSaid(fc, v, o, 4, 0, g); TextSaid(fc, g[6], o.executionTrader); }
    if v >= 139 { GateSaid(fc, v, o, 4, 1, g); TextSaid(fc, g[7], o.executionAlgo); }
    if v >= 141 { GateSaid(fc, v, o, 5, 0, g); FlagSaid(fc, g[8], o.dontUseAutoPrice); }
  }

  lemma GatedSaid(fc: FloatCodec, v: int, o: Order, g: seq<Text>)
    requires g == RenderAll(fc, Gated(v, o, 0)) && fc.Valid()
    ensures GatedSay(fc, v, o, g)
  {
    hide Gated, RenderAll, Render, FloatText, MifidSay, LatestSay;
    MifidSaid(fc, v, o, g);
    LatestSaid(fc, v, o, g);
    if v >= 105 { GateSaid(fc, v, o, 0, 0, g); TextSaid(fc, g[0], o.extOperator); }
    if v >= 106 { GateSaid(fc, v, o, 1, 0, g); TextSaid(fc, g[1], o.tierName); }
    if v >= 106 { GateSaid(fc, v, o, 1, 1, g); TextSaid(fc, g[2], o.tierValue); }
    if v >= 111 { GateSaid(fc, v, o, 2, 0, g); FloatSaid(fc, g[3], o.cashQty); }
  }

  // ---------------------------------------------------------------- conditions

  /** A condition on the wire, by its shape: "a" for a conjunction and "o" otherwise, and what the shape adds. */
  predicate ConditionSay(fc: FloatCodec, c: Condition, x: WireCondition) {
    var t := x.texts;
    && x.t == c.CondType() && |t| > 0 && t[0] == (if c.Base().isConjunction then [97] else [111])
    && match c
       case Plain(_) => |t| == 1
       case Operator(op) => |t| == 2 && Flag(t[1], op.isMore)
       case Contract(cc) => |t| == 4 && ContractSay(cc, t)
       case Price(cc, price, trigger) =>
         |t| == 6 && ContractSay(cc, t) && FloatText(fc, t[4], price) && IntText(t[5], trigger)
       case Time(op, time) => |t| == 3 && Flag(t[1], op.isMore) && t[2] == time
       case Margin(op, percent) => |t| == 3 && Flag(t[1], op.isMore) && FloatText(fc, t[2], percent)
       case Execution(_, secType, exchange, symbol) =>
         |t| == 4 && t[1] == secType && t[2] == exchange && t[3] == symbol
       case Volume(cc, volume) => |t| == 5 && ContractSay(cc, t) && IntText(t[4], volume)
       case PercentChange(cc, percent) => |t| == 5 && ContractSay(cc, t) && FloatText(fc, t[4], percent)
  }

  predicate ContractSay(cc: ContractCondition, t: seq<Text>)
    requires |t| >= 4
  {
    Flag(t[1], cc.base.isMore) && IntText(t[2], cc.conID) && t[3] == cc.exchange
  }

  lemma ContractSaid(fc: FloatCodec, cc: ContractCondition, t: seq<Text>)
    requires |t| >= 4 && t[..4] == RenderAll(fc, ContractFields(cc))
    ensures t[0] == (if cc.base.base.isConjunction then [97] else [111]) && ContractSay(cc, t)
  {
    hide Flag, IntText, FormatInt;
    var u := t[..4];
    FlagSaid(fc, u[1], cc.base.isMore);
    IntSaid(fc, u[2], cc.conID);
  }

  lemma ConditionSaid(fc: FloatCodec, c: Condition)
    requires fc.Valid()
    ensures ConditionSay(fc, c, OnWire(fc, c))
  {
    var t := RenderAll(fc, c.ToFields());
    if c.Contract? || c.Price? || c.Volume? || c.PercentChange? {
      assert t[..4] == RenderAll(fc, ContractFields(c.cc));
      ContractSaid(fc, c.cc, t);
    }
    hide Flag, IntText, FloatText, FormatInt, ContractSay, ContractFields;
    if c.Operator? || c.Time? || c.Margin? { FlagSaid(fc, t[1], c.op.isMore); }
    match c
    case Price(_, price, trigger) =>
      FloatSaid(fc, t[4], price);
      IntSaid(fc, t[5], trigger);
    case Margin(_, percent) => FloatSaid(fc, t[2], percent);
    case Volume(_, volume) => IntSaid(fc, t[4], volume);
    case PercentChange(_, percent) => FloatSaid(fc, t[4], percent);
    case _ =>
  }

  // ---------------------------------------------------------------- sections

  predicate TermSectionSays(fc: FloatCodec, v: int, id: int64, c: Contract, o: Order, x: Terms) {
    && HeadSay(fc, v, id, c, x.head) && x.secType == c.secType && TermsSay(fc, c, o, x.terms)
    && x.orderType == o.orderType && RoutingSay(fc, o, x.routing)
  }

  lemma TermSectionSaid(fc: FloatCodec, v: int, id: int64, c: Contract, o: Order)
    requires c.Valid() && o.Valid() && fc.Valid()
    ensures TermSectionSays(fc, v, id, c, o, TermsView(fc, v, id, c, o))
  {
    hide HeadSay, TermsSay, RoutingSay, HeadFields, TermFields, RoutingFields, RenderAll;
    HeadSaid(fc, v, id, c, RenderAll(fc, HeadFields(v, id, c)));
    TermsSaid(fc, c, o, RenderAll(fc, TermFields(fc, c, o)));
    RoutingSaid(fc, o, RenderAll(fc, RoutingFields(fc, o)));
  }

  /** A BAG has its legs, leg prices and routing parameters, one group each; anything else has none. */
  predicate ComboSays(fc: FloatCodec, c: Contract, o: Order, x: Option<Combo>) {
    if c.secType != [66, 65, 71] then x.None?
    else
      && x.Some? && |x.value.legs| == |c.comboLegs| && |x.value.prices| == |o.orderComboLegs|
      && |x.value.routing| == |o.smartRouting|
      && (forall i :: 0 <= i < |c.comboLegs| ==> LegSay(fc, c.comboLegs[i], x.value.legs[i]))
      && (forall i :: 0 <= i < |o.orderComboLegs| ==> PriceSay(fc, o.orderComboLegs[i], x.value.prices[i]))
      && TagsSay(o.smartRouting, x.value.routing)
  }

  predicate PriceSay(fc: FloatCodec, price: Float, t: seq<Text>) { |t| == 1 && FloatOrNone(fc, t[0], price) }

  predicate TagsSay(tvs: seq<TagValue>, ts: seq<seq<Text>>) {
    |ts| == |tvs| && forall i :: 0 <= i < |tvs| ==> ts[i] == [tvs[i].tag, tvs[i].value]
  }

  lemma TagsSaid(fc: FloatCodec, tvs: seq<TagValue>)
    ensures TagsSay(tvs, RenderEach(fc, TagFields(tvs)))
  {
  }

  lemma ComboSaid(fc: FloatCodec, c: Contract, o: Order)
    requires c.Valid() && o.Valid() && fc.Valid()
    ensures ComboSays(fc, c, o, ComboView(fc, c, o))
  {
    hide LegSay, PriceSay, TagsSay;
    TagsSaid(fc, o.smartRouting);
    forall i | 0 <= i < |c.comboLegs|
      ensures LegSay(fc, c.comboLegs[i], RenderEach(fc, LegFields(fc, c.comboLegs))[i])
    {
      LegSaid(fc, c.comboLegs[i], RenderAll(fc, WriteBlock(fc, LEG, c.comboLegs[i].Values())));
    }
    forall i | 0 <= i < |o.orderComboLegs|
      ensures PriceSay(fc, o.orderComboLegs[i], RenderEach(fc, PriceFields(fc, o.orderComboLegs))[i])
    {
      PriceSaid(fc, o.orderComboLegs[i], RenderAll(fc, [HandleEmptyFloat(fc, o.orderComboLegs[i])]));
    }
  }

  lemma PriceSaid(fc: FloatCodec, price: Float, t: seq<Text>)
    requires fc.Valid() && t == RenderAll(fc, [HandleEmptyFloat(fc, price)])
    ensures PriceSay(fc, price, t)
  {
    FloatOrNoneSaid(fc, t[0], price);
  }

  predicate HandlingSays(fc: FloatCodec, v: int, o: Order, h: seq<Text>) {
    var k := if v >= 103 then 1 else 0;
    && |h| == 29 + k && AccountSay(fc, v, o, h[..8 + k]) && ShortSaleSay(fc, o, h[8 + k..17 + k])
    && AuctionSay(fc, o, h[17 + k..])
  }

  lemma ThreeParts<T>(a: seq<T>, b: seq<T>, c: seq<T>)
    ensures var s := a + (b + c);
            s[..|a|] == a && s[|a|..|a| + |b|] == b && s[|a| + |b|..] == c
  {
  }

  lemma HandlingFieldsAre(fc: FloatCodec, v: int, o: Order)
    requires o.Valid()
    ensures HandlingFields(fc, v, o) == AccountFields(fc, v, o) + (ShortSaleFields(fc, o) + AuctionFields(fc, o))
    ensures |AccountFields(fc, v, o)| == 8 + (if v >= 103 then 1 else 0)
    ensures |ShortSaleFields(fc, o)| == 9 && |AuctionFields(fc, o)| == 12
  {
  }

  lemma HandlingJoin(fc: FloatCodec, v: int, o: Order, a: seq<Text>, b: seq<Text>, c: seq<Text>)
    requires AccountSay(fc, v, o, a) && ShortSaleSay(fc, o, b) && AuctionSay(fc, o, c)
    requires |a| == 8 + (if v >= 103 then 1 else 0) && |b| == 9 && |c| == 12
    ensures HandlingSays(fc, v, o, a + (b + c))
  {
    hide AccountSay, ShortSaleSay, AuctionSay;
    ThreeParts(a, b, c);
  }

  lemma HandlingSaid(fc: FloatCodec, v: int, o: Order)
    requires o.Valid() && fc.Valid()
    ensures HandlingSays(fc, v, o, RenderAll(fc, HandlingFields(fc, v, o)))
  {
    hide *;
    var a, b, c := AccountFields(fc, v, o), ShortSaleFields(fc, o), AuctionFields(fc, o);
    HandlingFieldsAre(fc, v, o);
    RenderConcat(fc, a, b + c);
    RenderConcat(fc, b, c);
    AccountSaid(fc, v, o, RenderAll(fc, a));
    ShortSaleSaid(fc, o, RenderAll(fc, b));
    AuctionSaid(fc, o, RenderAll(fc, c));
    HandlingJoin(fc, v, o, RenderAll(fc, a), RenderAll(fc, b), RenderAll(fc, c));
  }

  predicate VolatilitySays(fc: FloatCodec, v: int, o: Order, x: Volatility) {
    HandlingSays(fc, v, o, x.handling) && x.dnType == o.dnType && NeutralOrderSays(fc, o, x.dnOrder)
  }

  lemma VolatilitySaid(fc: FloatCodec, v: int, o: Order)
    requires o.Valid() && fc.Valid()
    ensures VolatilitySays(fc, v, o, VolatilityView(fc, v, o))
  {
    hide HandlingSays, HandlingFields, NeutralOrderSays, DnOrderFields, RenderAll;
    HandlingSaid(fc, v, o);
    NeutralOrderSaid(fc, o);
  }

  predicate NeutralOrderSays(fc: FloatCodec, o: Order, t: seq<Text>) {
    && |t| == (if o.dnType == [] then 1 else 9) && FloatOrNone(fc, t[0], o.dnAuxPrice)
    && (o.dnType != [] ==> NeutralSay(fc, o.dnOrder, t[1..]))
  }

  lemma NeutralOrderSaid(fc: FloatCodec, o: Order)
    requires o.Valid() && fc.Valid()
    ensures NeutralOrderSays(fc, o, RenderAll(fc, DnOrderFields(fc, o)))
  {
    var aux, block := HandleEmptyFloat(fc, o.dnAuxPrice), WriteBlock(fc, DN_ORDER, o.dnOrder.Values());
    hide FloatOrNone, HandleEmptyFloat, NeutralSay, RenderAll, WriteBlock;
    RenderConcat(fc, [aux], block);
    RenderOne(fc, aux);
    FloatOrNoneSaid(fc, Render(fc, aux), o.dnAuxPrice);
    NeutralSaid(fc, o.dnOrder, RenderAll(fc, block));
    assert RenderAll(fc, [aux] + block)[1..] == RenderAll(fc, block);
    assert [aux] + [] == [aux];
  }

  predicate ScaleSays(fc: FloatCodec, o: Order, x: Scale) {
    && SizesSay(fc, o, x.sizes) && FloatOrNone(fc, x.increment, o.scaleIncrement)
    && (if o.scaleIncrement != UNSETFLOAT && Positive(o.scaleIncrement) then ScaleTermsSay(fc, o.scaleTerms, x.terms)
        else x.terms == [])
    && x.table == [o.scaleTable, o.activeStart, o.activeStop]
  }

  lemma ScaleSaid(fc: FloatCodec, o: Order)
    requires o.Valid() && fc.Valid()
    ensures ScaleSays(fc, o, ScaleView(fc, o))
  {
    assert RenderAll(fc, TableFields(o)) == [o.scaleTable, o.activeStart, o.activeStop];
    hide SizesSay, FloatOrNone, ScaleTermsSay, SizeFields, HandleEmptyFloat, RenderAll, WriteBlock, TableFields;
    SizesSaid(fc, o, RenderAll(fc, SizeFields(fc, o)));
    FloatOrNoneSaid(fc, Render(fc, HandleEmptyFloat(fc, o.scaleIncrement)), o.scaleIncrement);
    ScaleTermsSaid(fc, o.scaleTerms, RenderAll(fc, WriteBlock(fc, SCALE_TERMS, o.scaleTerms.Values())));
    RenderNone(fc);
  }

  predicate HedgeSays(fc: FloatCodec, c: Contract, o: Order, x: Hedge) {
    && x.kind == o.hedgeType && x.param == (if o.hedgeType == [] then [] else [o.hedgeParam])
    && FlagsSay(fc, o, x.flags)
    && Flag(x.hasDn, c.deltaNeutral.Some?)
    && (if c.deltaNeutral.Some? then DeltaNeutralSay(fc, c.deltaNeutral.value, x.dnContract) else x.dnContract == [])
  }

  lemma HedgeSaid(fc: FloatCodec, c: Contract, o: Order)
    requires c.Valid() && fc.Valid()
    ensures HedgeSays(fc, c, o, HedgeView(fc, c, o))
  {
    hide FlagsSay, DeltaNeutralSay, FlagFields, RenderAll, WriteBlock;
    FlagsSaid(fc, o, RenderAll(fc, FlagFields(o)));
    FlagSaid(fc, Render(fc, FBool(c.deltaNeutral.Some?)), c.deltaNeutral.Some?);
    RenderNone(fc);
    RenderOne(fc, FStr(o.hedgeParam));
    if c.deltaNeutral.Some? {
      var d := c.deltaNeutral.value;
      DeltaNeutralSaid(fc, d, RenderAll(fc, WriteBlock(fc, DN_CONTRACT, d.Values())));
    }
  }

  predicate AlgoSays(fc: FloatCodec, o: Order, x: Algo) {
    && x.strategy == o.algoStrategy && TagsSay(if o.algoStrategy == [] then [] else o.algoParams, x.params)
    && TailSay(fc, o, x.flags)
  }

  lemma AlgoSaid(fc: FloatCodec, o: Order)
    requires o.Valid() && fc.Valid()
    ensures AlgoSays(fc, o, AlgoView(fc, o))
  {
    TagsSaid(fc, o.algoParams);
    hide TailSay, TailFields, RenderAll, RenderEach;
    TailSaid(fc, o, RenderAll(fc, TailFields(o)));
  }

  /** All of the last section but the conditions themselves. */
  predicate AdjustSays(fc: FloatCodec, v: int, o: Order, x: Adjust) {
    && (if o.orderType == [80, 69, 71, 32, 66, 69, 78, 67, 72] then BenchmarkSay(fc, o.peg, x.peg) else x.peg == [])
    && |x.conditions| == |o.conditions| && ConditionFlagsSay(o, x.conditionFlags)
    && AdjustedSay(fc, o, x.adjusted) && GatedSay(fc, v, o, x.gated)
  }

  predicate ConditionFlagsSay(o: Order, t: seq<Text>) {
    if o.conditions == [] then t == [] else |t| == 2 && Flag(t[0], o.ignoreRth) && Flag(t[1], o.cancelOrder)
  }

  lemma AdjustSaid(fc: FloatCodec, v: int, o: Order)
    requires o.Valid() && fc.Valid()
    ensures AdjustSays(fc, v, o, AdjustView(fc, v, o))
  {
    assert ConditionFlagsSay(o, RenderAll(fc, ConditionFlagFields(o)));
    hide BenchmarkSay, ConditionFlagsSay, AdjustedSay, GatedSay, ConditionFlagFields, AdjustedFields, Gated, RenderAll;
    hide WriteBlock, OnWire;
    BenchmarkSaid(fc, o.peg, RenderAll(fc, WriteBlock(fc, PEG, o.peg.Values())));
    AdjustedSaid(fc, o, RenderAll(fc, AdjustedFields(o)));
    GatedSaid(fc, v, o, RenderAll(fc, Gated(v, o, 0)));
    RenderNone(fc);
  }

  // ---------------------------------------------------------------- the message

  /** Up to the scale increment, each field says the attribute that belongs there, whatever the increment and the
      conditions are. */
  lemma FrontMeans(fc: FloatCodec, v: int, id: int64, c: Contract, o: Order, w: WireOrder)
    requires Received(fc, v, id, c, o, w)
    ensures TermSectionSays(fc, v, id, c, o, w.terms) && ComboSays(fc, c, o, w.combo)
    ensures VolatilitySays(fc, v, o, w.vol) && SizesSay(fc, o, w.scale.sizes)
    ensures FloatOrNone(fc, w.scale.increment, o.scaleIncrement)
  {
    ReceivedParts(fc, v, id, c, o, w);
    hide *;
    FrontSeen(fc, v, id, c, o, w);
    TermSectionSaid(fc, v, id, c, o);
    ComboSaid(fc, c, o);
    VolatilitySaid(fc, v, o);
    ScaleSaid(fc, o);
    ScaleParts(fc, o, ScaleView(fc, o));
  }

  lemma ReceivedParts(fc: FloatCodec, v: int, id: int64, c: Contract, o: Order, w: WireOrder)
    requires Received(fc, v, id, c, o, w)
    ensures c.Valid() && o.Valid() && fc.Valid()
  {
  }

  lemma ScaleParts(fc: FloatCodec, o: Order, x: Scale)
    requires ScaleSays(fc, o, x)
    ensures SizesSay(fc, o, x.sizes) && FloatOrNone(fc, x.increment, o.scaleIncrement)
  {
  }

  /** Behind it so does every field to the end of the message, as long as printing has not changed whether the
      increment is set and positive; only what stands for the conditions depends on their tags. */
  lemma BackMeans(fc: FloatCodec, v: int, id: int64, c: Contract, o: Order, w: WireOrder)
    requires Received(fc, v, id, c, o, w) && ScaleReadable(fc, o)
    ensures ScaleSays(fc, o, w.scale) && HedgeSays(fc, c, o, w.hedge) && AlgoSays(fc, o, w.algo)
    ensures AdjustSays(fc, v, o, w.adjust)
  {
    ReceivedParts(fc, v, id, c, o, w);
    hide *;
    var ts, u := BackSeen(fc, v, id, c, o, w);
    AdjustSeen(fc, v, id, c, o, w);
    ScaleSaid(fc, o);
    HedgeSaid(fc, c, o);
    AlgoSaid(fc, o);
    AdjustSaid(fc, v, o);
    SameAdjustSays(fc, v, o, AdjustView(fc, v, o), w.adjust);
  }

  lemma SameAdjustSays(fc: FloatCodec, v: int, o: Order, x: Adjust, y: Adjust)
    requires AdjustSays(fc, v, o, x) && y.peg == x.peg && |y.conditions| == |o.conditions|
    requires y.conditionFlags == x.conditionFlags && y.adjusted == x.adjusted && y.gated == x.gated
    ensures AdjustSays(fc, v, o, y)
  {
  }

  /** And if every tag declares the number of fields its condition writes, each condition is seen as well. */
  lemma ConditionsMean(fc: FloatCodec, v: int, id: int64, c: Contract, o: Order, w: WireOrder)
    requires Received(fc, v, id, c, o, w) && ScaleReadable(fc, o)
    requires forall i :: 0 <= i < |o.conditions| ==> TagFits(o.conditions[i])
    ensures |w.adjust.conditions| == |o.conditions|
    ensures forall i :: 0 <= i < |o.conditions| ==> ConditionSay(fc, o.conditions[i], w.adjust.conditions[i])
  {
    hide ReadOrder, RenderAll, OrderFields, View, ScaleReadable, TagFits, ConditionSay, OnWire;
    PlaceOrderReadable(fc, v, id, c, o);
    ViewParts(fc, v, id, c, o);
    forall i | 0 <= i < |o.conditions| ensures ConditionSay(fc, o.conditions[i], w.adjust.conditions[i]) {
      ConditionSaid(fc, o.conditions[i]);
    }
  }
}
