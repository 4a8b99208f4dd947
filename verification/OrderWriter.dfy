/** client.go, PlaceOrder: the list of fields grown by appends, gate by gate, and proved to be the fields of the order
    (OrderFields) for every version that gets a message at all. Below that version the same appends run, but what they
    build is never sent. */
module OrderWriter {
  import opened Basics
  import opened Fields
  import opened Cursor
  import opened Conditions
  import opened OrderLayout
  import opened Orders
  import opened Versions

  /** The fields so far, one more item later. */
  lemma FlattenSnoc<T>(items: seq<seq<T>>, i: nat)
    requires i < |items|
    ensures Flatten(items[..i + 1]) == Flatten(items[..i]) + items[i]
  {
    assert items[..i + 1] == items[..i] + [items[i]];
    FlattenConcat(items[..i], [items[i]]);
    assert Flatten([items[i]]) == items[i] + Flatten([]);
  }

  method AppendHead(v: int, id: int64, c: Contract, before: seq<Field>) returns (fields: seq<Field>)
    ensures v >= PEGGED_TO_BENCHMARK ==> fields == before + HeadFields(v, id, c)
  {
    var version: int64 := if v < NOT_HELD then 27 else 45;
    fields := before + [FInt(3)];
    if v < ORDER_CONTAINER {
      fields := fields + [FInt(version)];
    }
    fields := fields + [FInt(id)];
    if v >= PLACE_ORDER_CONID {
      fields := fields + [FInt(c.contractID)];
    }
    fields := fields + [FStr(c.symbol)];
  }

  method AppendContract(fc: FloatCodec, v: int, c: Contract, o: Order, before: seq<Field>) returns (fields: seq<Field>)
    requires c.Valid()
    ensures v >= PEGGED_TO_BENCHMARK ==> fields == before + ([FStr(c.secType)] + TermFields(fc, c, o))
  {
    var t := c.terms;
    fields := before + [FStr(c.secType), FStr(t.expiry), FFloat(t.strike), FStr(t.right), FStr(t.multiplier),
                        FStr(t.exchange), FStr(t.primaryExchange), FStr(t.currency), FStr(t.localSymbol)];
    if v >= TRADING_CLASS {
      fields := fields + [FStr(c.tradingClass)];
    }
    if v >= SEC_ID_TYPE {
      fields := fields + [FStr(c.secIDType), FStr(c.secID)];
    }
    fields := fields + [FStr(o.action)];
    if v >= FRACTIONAL_POSITIONS {
      fields := fields + [FFloat(o.totalQuantity)];
    } else {
      fields := fields + [FInt(fc.truncate(o.totalQuantity))];
    }
  }

  method AppendRouting(fc: FloatCodec, v: int, o: Order, before: seq<Field>) returns (fields: seq<Field>)
    requires o.Valid()
    ensures v >= PEGGED_TO_BENCHMARK ==> fields == before + RoutingFields(fc, o)
  {
    var limit := PriceField(fc, v < ORDER_COMBO_LEGS_PRICE, o.limitPrice);
    var aux := PriceField(fc, v < TRAILING_PERCENT, o.auxPrice);
    hide HandleEmptyFloat;
    var r := o.routing;
    fields := before + [limit, aux, FStr(r.tif), FStr(r.ocaGroup), FStr(r.account), FStr(r.openClose), FInt(r.origin),
                        FStr(r.orderRef), FBool(r.transmit), FInt(r.parentID), FBool(r.blockOrder),
                        FBool(r.sweepToFill), FInt(r.displaySize), FInt(r.triggerMethod), FBool(r.outsideRth),
                        FBool(r.hidden)];
  }

  method AppendTerms(fc: FloatCodec, v: int, id: int64, c: Contract, o: Order, before: seq<Field>)
    returns (fields: seq<Field>)
    requires c.Valid() && o.Valid()
    ensures v >= PEGGED_TO_BENCHMARK ==> fields == before + TermsFields(fc, v, id, c, o)
  {
    hide HeadFields, TermFields, RoutingFields;
    fields := AppendHead(v, id, c, before);
    fields := AppendContract(fc, v, c, o, fields);
    fields := fields + [FStr(o.orderType)];
    fields := AppendRouting(fc, v, o, fields);
  }

  /** Old versions take an unset price as zero. */
  method PriceField(fc: FloatCodec, zeroed: bool, price: Float) returns (field: Field)
    ensures field == if zeroed then FFloat(if price != UNSETFLOAT then price else ZEROFLOAT)
        else HandleEmptyFloat(fc, price)
  {
    if zeroed {
      if price != UNSETFLOAT {
        field := FFloat(price);
      } else {
        field := FFloat(ZEROFLOAT);
      }
    } else {
      field := HandleEmptyFloat(fc, price);
    }
  }

  method AppendLegs(fc: FloatCodec, v: int, legs: seq<Leg>, before: seq<Field>) returns (fields: seq<Field>)
    requires |legs| <= INT64_MAX
    ensures v >= PEGGED_TO_BENCHMARK ==> fields == before + ListFields(LegFields(fc, legs))
  {
    ghost var items := LegFields(fc, legs);
    fields := before + [FInt(|legs| as int64)];
    for i := 0 to |legs|
      invariant v >= PEGGED_TO_BENCHMARK ==> fields == before + [FInt(|legs| as int64)] + Flatten(items[..i])
    {
      var leg := legs[i];
      fields := fields + [FInt(leg.contractID), FInt(leg.ratio), FStr(leg.action), FStr(leg.exchange),
                          FInt(leg.openClose), FInt(leg.shortSaleSlot), FStr(leg.designatedLocation)];
      if v >= SSHORTX_OLD {
        fields := fields + [FInt(leg.exemptCode)];
      }
      assert items[i] == [FInt(leg.contractID), FInt(leg.ratio), FStr(leg.action), FStr(leg.exchange),
                          FInt(leg.openClose), FInt(leg.shortSaleSlot), FStr(leg.designatedLocation)]
                         + [FInt(leg.exemptCode)];
      FlattenSnoc(items, i);
    }
    assert items[..|legs|] == items;
  }

  method AppendPrices(fc: FloatCodec, prices: seq<Float>, before: seq<Field>) returns (fields: seq<Field>)
    requires |prices| <= INT64_MAX
    ensures fields == before + ListFields(PriceFields(fc, prices))
  {
    ghost var items := PriceFields(fc, prices);
    fields := before + [FInt(|prices| as int64)];
    for i := 0 to |prices|
      invariant fields == before + [FInt(|prices| as int64)] + Flatten(items[..i])
    {
      fields := fields + [HandleEmptyFloat(fc, prices[i])];
      FlattenSnoc(items, i);
    }
    assert items[..|prices|] == items;
  }

  method AppendTags(tvs: seq<TagValue>, before: seq<Field>) returns (fields: seq<Field>)
    requires |tvs| <= INT64_MAX
    ensures fields == before + ListFields(TagFields(tvs))
  {
    ghost var items := TagFields(tvs);
    fields := before + [FInt(|tvs| as int64)];
    for i := 0 to |tvs|
      invariant fields == before + [FInt(|tvs| as int64)] + Flatten(items[..i])
    {
      fields := fields + [FStr(tvs[i].tag), FStr(tvs[i].value)];
      FlattenSnoc(items, i);
    }
    assert items[..|tvs|] == items;
  }

  method AppendCombo(fc: FloatCodec, v: int, c: Contract, o: Order, before: seq<Field>) returns (fields: seq<Field>)
    requires c.Valid() && o.Valid()
    ensures v >= PEGGED_TO_BENCHMARK ==> fields == before + ComboFields(fc, c, o)
  {
    hide ListFields, LegFields, PriceFields, TagFields;
    fields := before;
    if c.secType == BAG {
      fields := AppendLegs(fc, v, c.comboLegs, fields);
    }
    if v >= ORDER_COMBO_LEGS_PRICE && c.secType == BAG {
      fields := AppendPrices(fc, o.orderComboLegs, fields);
    }
    if v >= SMART_COMBO_ROUTING && c.secType == BAG {
      fields := AppendTags(o.smartRouting, fields);
    }
  }

  method AppendAccount(fc: FloatCodec, v: int, o: Order, before: seq<Field>) returns (fields: seq<Field>)
    ensures fields == before + AccountFields(fc, v, o)
  {
    var h := o.handling;
    fields := before + [FStr([]), FFloat(h.discretionaryAmount), FStr(h.goodAfterTime), FStr(h.goodTillDate),
                        FStr(h.faGroup), FStr(h.faMethod), FStr(h.faPercentage), FStr(h.faProfile)];
    if v >= MODELS_SUPPORT {
      fields := fields + [FStr(o.modelCode)];
    }
  }

  method AppendShortSale(fc: FloatCodec, v: int, o: Order, before: seq<Field>) returns (fields: seq<Field>)
    ensures v >= PEGGED_TO_BENCHMARK ==> fields == before + ShortSaleFields(fc, o)
  {
    hide HandleEmptyFloat, HandleEmptyInt;
    var c := o.clearing;
    fields := before + [FInt(o.shortSaleSlot), FStr(o.designatedLocation)];
    if v >= SSHORTX_OLD {
      fields := fields + [FInt(o.exemptCode)];
    }
    fields := fields + [FInt(c.ocaType), FStr(c.rule80A), FStr(c.settlingFirm), FBool(c.allOrNone),
                        HandleEmptyInt(c.minQty), HandleEmptyFloat(fc, c.percentOffset)];
  }

  method AppendHandling(fc: FloatCodec, v: int, o: Order, before: seq<Field>) returns (fields: seq<Field>)
    requires o.Valid()
    ensures v >= PEGGED_TO_BENCHMARK ==> fields == before + HandlingFields(fc, v, o)
  {
    hide AccountFields, ShortSaleFields, HandleEmptyFloat, HandleEmptyInt;
    fields := AppendAccount(fc, v, o, before);
    fields := AppendShortSale(fc, v, o, fields);
    var a := o.auction;
    fields := fields + [FBool(false), FBool(false), HandleEmptyFloat(fc, UNSETFLOAT), FInt(a.strategy),
                        HandleEmptyFloat(fc, a.startingPrice), HandleEmptyFloat(fc, a.stockRefPrice),
                        HandleEmptyFloat(fc, a.delta), HandleEmptyFloat(fc, a.stockRangeLower),
                        HandleEmptyFloat(fc, a.stockRangeUpper), FBool(a.overridePercentage),
                        HandleEmptyFloat(fc, a.volatility), HandleEmptyInt(a.volatilityType)];
  }

  method AppendVolatility(fc: FloatCodec, v: int, o: Order, before: seq<Field>) returns (fields: seq<Field>)
    requires o.Valid()
    ensures v >= PEGGED_TO_BENCHMARK ==> fields == before + VolatilityFields(fc, v, o)
  {
    hide HandlingFields;
    fields := AppendHandling(fc, v, o, before);
    var d := o.dnOrder;
    fields := fields + [FStr(o.dnType), HandleEmptyFloat(fc, o.dnAuxPrice)];
    if v >= DELTA_NEUTRAL_CONID && o.dnType != [] {
      fields := fields + [FInt(d.contractID), FStr(d.settlingFirm), FStr(d.clearingAccount), FStr(d.clearingIntent)];
    }
    if v >= DELTA_NEUTRAL_OPEN_CLOSE && o.dnType != [] {
      fields := fields + [FStr(d.openClose), FBool(d.shortSale), FInt(d.shortSaleSlot), FStr(d.designatedLocation)];
    }
    assert WriteBlock(fc, DN_ORDER, d.Values())
      == [FInt(d.contractID), FStr(d.settlingFirm), FStr(d.clearingAccount), FStr(d.clearingIntent)]
         + [FStr(d.openClose), FBool(d.shortSale), FInt(d.shortSaleSlot), FStr(d.designatedLocation)];
  }

  lemma ScaleBlock(fc: FloatCodec, o: Order)
    ensures var t := o.scaleTerms;
            WriteBlock(fc, SCALE_TERMS, t.Values())
            == [HandleEmptyFloat(fc, t.priceAdjustValue), HandleEmptyInt(t.priceAdjustInterval),
                HandleEmptyFloat(fc, t.profitOffset), FBool(t.autoReset), HandleEmptyInt(t.initPosition),
                HandleEmptyInt(t.initFillQty), FBool(t.randomPercent)]
  {
    hide HandleEmptyFloat, HandleEmptyInt;
  }

  method AppendSizes(fc: FloatCodec, v: int, o: Order, before: seq<Field>) returns (fields: seq<Field>)
    requires o.Valid()
    ensures v >= PEGGED_TO_BENCHMARK ==> fields == before + SizeFields(fc, o)
  {
    hide HandleEmptyFloat, HandleEmptyInt;
    var p := o.pegged;
    fields := before + [FBool(p.continuousUpdate), HandleEmptyInt(p.referencePriceType),
                        HandleEmptyFloat(fc, p.trailStopPrice)];
    if v >= TRAILING_PERCENT {
      fields := fields + [HandleEmptyFloat(fc, o.trailingPercent)];
    }
    if v >= SCALE_ORDERS2 {
      fields := fields + [HandleEmptyInt(o.scaleInit), HandleEmptyInt(o.scaleSubs)];
    } else {
      fields := fields + [FStr([]), HandleEmptyInt(o.scaleInit)];
    }
  }

  method AppendScale(fc: FloatCodec, v: int, o: Order, before: seq<Field>) returns (fields: seq<Field>)
    requires o.Valid()
    ensures v >= PEGGED_TO_BENCHMARK ==> fields == before + ScaleFields(fc, o)
  {
    hide WriteBlock, SizeFields, HandleEmptyFloat, HandleEmptyInt;
    ScaleBlock(fc, o);
    var t := o.scaleTerms;
    fields := AppendSizes(fc, v, o, before);
    fields := fields + [HandleEmptyFloat(fc, o.scaleIncrement)];
    if v >= SCALE_ORDERS3 && o.scaleIncrement != UNSETFLOAT && Positive(o.scaleIncrement) {
      fields := fields + [HandleEmptyFloat(fc, t.priceAdjustValue), HandleEmptyInt(t.priceAdjustInterval),
                          HandleEmptyFloat(fc, t.profitOffset), FBool(t.autoReset), HandleEmptyInt(t.initPosition),
                          HandleEmptyInt(t.initFillQty), FBool(t.randomPercent)];
    }
    if v >= SCALE_TABLE {
      fields := fields + [FStr(o.scaleTable), FStr(o.activeStart), FStr(o.activeStop)];
    }
  }

  lemma NeutralBlock(fc: FloatCodec, d: DeltaNeutral)
    ensures WriteBlock(fc, DN_CONTRACT, d.Values()) == [FInt(d.contractID), FFloat(d.delta), FFloat(d.price)]
  {
  }

  method AppendHedge(fc: FloatCodec, v: int, c: Contract, o: Order, before: seq<Field>) returns (fields: seq<Field>)
    requires c.Valid() && o.Valid()
    ensures v >= PEGGED_TO_BENCHMARK ==> fields == before + HedgeFields(fc, c, o)
  {
    hide WriteBlock, HedgeParamFields, FlagFields;
    fields := AppendHedgeFlags(v, o, before);
    if v >= DELTA_NEUTRAL {
      if c.deltaNeutral.Some? {
        var d := c.deltaNeutral.value;
        fields := fields + [FBool(true), FInt(d.contractID), FFloat(d.delta), FFloat(d.price)];
        NeutralBlock(fc, d);
      } else {
        fields := fields + [FBool(false)];
      }
    }
  }

  method AppendHedgeFlags(v: int, o: Order, before: seq<Field>) returns (fields: seq<Field>)
    ensures v >= PEGGED_TO_BENCHMARK
        ==> fields == before + ([FStr(o.hedgeType)] + (HedgeParamFields(o) + FlagFields(o)))
  {
    fields := before;
    if v >= HEDGE_ORDERS {
      fields := fields + [FStr(o.hedgeType)];
      if o.hedgeType != [] {
        fields := fields + [FStr(o.hedgeParam)];
      }
    }
    assert v >= PEGGED_TO_BENCHMARK ==> fields == before + ([FStr(o.hedgeType)] + HedgeParamFields(o));
    hide HedgeParamFields;
    if v >= OPT_OUT_SMART_ROUTING {
      fields := fields + [FBool(o.optOut)];
    }
    if v >= PTA_ORDERS {
      fields := fields + [FStr(o.clearingAccount), FStr(o.clearingIntent)];
    }
    if v >= NOT_HELD {
      fields := fields + [FBool(o.notHeld)];
    }
  }

  method AppendTail(v: int, o: Order, before: seq<Field>) returns (fields: seq<Field>)
    ensures v >= PEGGED_TO_BENCHMARK ==> fields == before + TailFields(o)
  {
    hide MiscText;
    fields := before;
    if v >= ALGO_ID {
      fields := fields + [FStr(o.algoID)];
    }
    fields := fields + [FBool(o.whatIf)];
    if v >= LINKING {
      var misc := MiscBuffer(o.miscOptions);
      fields := fields + [FStr(misc)];
    }
    if v >= ORDER_SOLICITED {
      fields := fields + [FBool(o.solicited)];
    }
    if v >= RANDOMIZE {
      fields := fields + [FBool(o.randomizeSize), FBool(o.randomizePrice)];
    }
  }

  method AppendAlgo(v: int, o: Order, before: seq<Field>) returns (fields: seq<Field>)
    requires o.Valid()
    ensures v >= PEGGED_TO_BENCHMARK ==> fields == before + AlgoFields(o)
  {
    hide ListFields, TagFields, TailFields;
    fields := before;
    if v >= ALGO_ORDERS {
      fields := fields + [FStr(o.algoStrategy)];
      if o.algoStrategy != [] {
        fields := AppendTags(o.algoParams, fields);
      }
    }
    fields := AppendTail(v, o, fields);
  }

  lemma {:induction false} MiscSnoc(tvs: seq<TagValue>, tv: TagValue)
    ensures MiscText(tvs + [tv]) == MiscText(tvs) + (tv.tag + [61] + tv.value + [59])
  {
    if tvs == [] {
      assert tvs + [tv] == [tv];
    } else {
      assert (tvs + [tv])[1..] == tvs[1..] + [tv];
      MiscSnoc(tvs[1..], tv);
    }
  }

  method MiscBuffer(tvs: seq<TagValue>) returns (buffer: Text)
    ensures buffer == MiscText(tvs)
  {
    buffer := [];
    for i := 0 to |tvs|
      invariant buffer == MiscText(tvs[..i])
    {
      MiscSnoc(tvs[..i], tvs[i]);
      assert tvs[..i + 1] == tvs[..i] + [tvs[i]];
      ghost var start := buffer;
      buffer := buffer + tvs[i].tag;
      buffer := buffer + [61];
      buffer := buffer + tvs[i].value;
      buffer := buffer + [59];
      assert buffer == start + (tvs[i].tag + [61] + tvs[i].value + [59]);
    }
    assert tvs[..|tvs|] == tvs;
  }

  lemma {:induction false} ConditionsSnoc(cs: seq<Condition>, c: Condition)
    ensures AllConditionFields(cs + [c]) == AllConditionFields(cs) + ConditionFields(c)
  {
    hide ConditionFields;
    if cs == [] {
      assert cs + [c] == [c];
      assert AllConditionFields([c]) == ConditionFields(c) + AllConditionFields([]);
    } else {
      assert (cs + [c])[1..] == cs[1..] + [c];
      ConditionsSnoc(cs[1..], c);
    }
  }

  method AppendCondition(c: Condition, before: seq<Field>) returns (fields: seq<Field>)
    ensures fields == before + ConditionFields(c)
  {
    fields := before + [FInt(c.CondType())];
    ghost var rest := c.ToFields();
    fields := fields + c.ToFields();
    assert fields == before + ([FInt(c.CondType())] + rest);
  }

  method AppendConditions(cs: seq<Condition>, before: seq<Field>) returns (fields: seq<Field>)
    requires |cs| <= INT64_MAX
    ensures fields == before + ([FInt(|cs| as int64)] + AllConditionFields(cs))
  {
    hide ConditionFields;
    fields := before + [FInt(|cs| as int64)];
    for i := 0 to |cs|
      invariant fields == before + [FInt(|cs| as int64)] + AllConditionFields(cs[..i])
    {
      ConditionsSnoc(cs[..i], cs[i]);
      assert cs[..i + 1] == cs[..i] + [cs[i]];
      fields := AppendCondition(cs[i], fields);
    }
    assert cs[..|cs|] == cs;
  }

  lemma PegBlock(fc: FloatCodec, o: Order)
    ensures var p := o.peg;
            WriteBlock(fc, PEG, p.Values())
            == [FInt(p.contractID), FBool(p.isDecrease), FFloat(p.changeAmount), FFloat(p.referenceChange),
                FStr(p.exchangeID)]
  {
  }

  method AppendPegged(fc: FloatCodec, o: Order, before: seq<Field>) returns (fields: seq<Field>)
    requires o.Valid()
    ensures fields == before + (PegFields(fc, o) + ([FInt(|o.conditions| as int64)] + (AllConditionFields(o.conditions)
                      + (ConditionFlagFields(o) + AdjustedFields(o)))))
  {
    hide WriteBlock, AllConditionFields;
    PegBlock(fc, o);
    fields := before;
    if o.orderType == PEG_BENCH {
      var p := o.peg;
      fields := fields + [FInt(p.contractID), FBool(p.isDecrease), FFloat(p.changeAmount), FFloat(p.referenceChange),
                          FStr(p.exchangeID)];
    }
    assert fields == before + PegFields(fc, o);
    fields := AppendConditions(o.conditions, fields);
    ghost var flags := ConditionFlagFields(o);
    if |o.conditions| > 0 {
      fields := fields + [FBool(o.ignoreRth), FBool(o.cancelOrder)];
    }
    var a := o.adjusted;
    fields := fields + [FStr(a.orderType), FFloat(a.triggerPrice), FFloat(a.limitPriceOffset), FFloat(a.stopPrice),
                        FFloat(a.stopLimitPrice), FFloat(a.trailingAmount), FInt(a.trailingUnit)];
    Rebracket(before, PegFields(fc, o), [FInt(|o.conditions| as int64)], AllConditionFields(o.conditions), flags,
              AdjustedFields(o));
  }

  lemma Rebracket<T>(a: seq<T>, b: seq<T>, c: seq<T>, d: seq<T>, e: seq<T>, f: seq<T>)
    ensures a + b + (c + d) + e + f == a + (b + (c + (d + (e + f))))
  {
  }

  method AppendAdjust(fc: FloatCodec, v: int, o: Order, before: seq<Field>) returns (fields: seq<Field>)
    requires o.Valid() && v >= PEGGED_TO_BENCHMARK
    ensures fields == before + AdjustFields(fc, v, o)
  {
    hide WriteBlock, AllConditionFields, Gated;
    hide PegFields, ConditionFlagFields;
    fields := AppendPegged(fc, o, before);
    ghost var all := fields + Gated(v, o, 0);
    fields := AppendTier(v, o, fields, all);
    fields := AppendMifid(v, o, fields, all);
    fields := AppendFlags(v, o, fields, all);
    fields := AppendLast(v, o, fields, all);
  }

  /** What has been appended and what is still to come make up the whole; so they do behind one more gate. */
  lemma NextGate(v: int, o: Order, k: nat, fields: seq<Field>, all: seq<Field>)
    requires k < GATED && all == fields + Gated(v, o, k)
    ensures all == fields + (if v >= GATES[k] then GatedAttribute(o, k) else []) + Gated(v, o, k + 1)
  {
    hide GatedAttribute;
    assert Gated(v, o, k) == SentAt(v, o, k) + Gated(v, o, k + 1);
  }

  lemma NoMoreGates(v: int, o: Order)
    ensures Gated(v, o, GATED) == []
  {
  }

  method AppendTier(v: int, o: Order, before: seq<Field>, ghost all: seq<Field>) returns (fields: seq<Field>)
    requires all == before + Gated(v, o, 0)
    ensures all == fields + Gated(v, o, 3)
  {
    hide Gated;
    fields := before;
    NextGate(v, o, 0, fields, all);
    if v >= EXT_OPERATOR {
      fields := fields + [FStr(o.extOperator)];
    }
    NextGate(v, o, 1, fields, all);
    if v >= SOFT_DOLLAR_TIER {
      fields := fields + [FStr(o.tierName), FStr(o.tierValue)];
    }
    NextGate(v, o, 2, fields, all);
    if v >= CASH_QTY {
      fields := fields + [FFloat(o.cashQty)];
    }
  }

  method AppendMifid(v: int, o: Order, before: seq<Field>, ghost all: seq<Field>) returns (fields: seq<Field>)
    requires all == before + Gated(v, o, 3)
    ensures all == fields + Gated(v, o, 6)
  {
    hide Gated;
    fields := before;
    NextGate(v, o, 3, fields, all);
    if v >= DECISION_MAKER {
      fields := fields + [FStr(o.decisionMaker), FStr(o.decisionAlgo)];
    }
    NextGate(v, o, 4, fields, all);
    if v >= MIFID_EXECUTION {
      fields := fields + [FStr(o.executionTrader), FStr(o.executionAlgo)];
    }
    NextGate(v, o, 5, fields, all);
    if v >= AUTO_PRICE_FOR_HEDGE {
      fields := fields + [FBool(o.dontUseAutoPrice)];
    }
  }

  method AppendFlags(v: int, o: Order, before: seq<Field>, ghost all: seq<Field>) returns (fields: seq<Field>)
    requires all == before + Gated(v, o, 6)
    ensures all == fields + Gated(v, o, 9)
  {
    hide Gated;
    fields := before;
    NextGate(v, o, 6, fields, all);
    if v >= ORDER_CONTAINER {
      fields := fields + [FBool(o.isOms)];
    }
    NextGate(v, o, 7, fields, all);
    if v >= D_PEG_ORDERS {
      fields := fields + [FBool(o.discretionaryUpToLimit)];
    }
    NextGate(v, o, 8, fields, all);
    if v >= PRICE_MGMT_ALGO {
      fields := fields + [FBool(o.usePriceMgmt)];
    }
  }

  method AppendLast(v: int, o: Order, before: seq<Field>, ghost all: seq<Field>) returns (fields: seq<Field>)
    requires all == before + Gated(v, o, 9)
    ensures fields == all
  {
    hide Gated;
    fields := before;
    NextGate(v, o, 9, fields, all);
    if v >= DURATION {
      fields := fields + [HandleEmptyInt(o.duration)];
    }
    NextGate(v, o, 10, fields, all);
    if v >= POST_TO_ATS {
      fields := fields + [HandleEmptyInt(o.postToAts)];
    }
    NoMoreGates(v, o);
  }

  /** The whole body of PlaceOrder behind its guards. */
  method BuildFields(fc: FloatCodec, v: int, id: int64, c: Contract, o: Order) returns (fields: Option<seq<Field>>)
    requires c.Valid() && o.Valid()
    ensures fields == if v >= PEGGED_TO_BENCHMARK then Some(OrderFields(fc, v, id, c, o)) else None
  {
    hide TermsFields, ComboFields, VolatilityFields, ScaleFields, HedgeFields, AlgoFields, AdjustFields;
    var fs := AppendTerms(fc, v, id, c, o, []);
    fs := AppendCombo(fc, v, c, o, fs);
    fs := AppendVolatility(fc, v, o, fs);
    fs := AppendScale(fc, v, o, fs);
    fs := AppendHedge(fc, v, c, o, fs);
    fs := AppendAlgo(v, o, fs);
    if v < PEGGED_TO_BENCHMARK {
      return None;
    }
    fs := AppendAdjust(fc, v, o, fs);
    Regroup(TermsFields(fc, v, id, c, o), ComboFields(fc, c, o), VolatilityFields(fc, v, o), ScaleFields(fc, o),
            HedgeFields(fc, c, o), AlgoFields(o), AdjustFields(fc, v, o));
    return Some(fs);
  }

  lemma Regroup(a: seq<Field>, b: seq<Field>, c: seq<Field>, d: seq<Field>, e: seq<Field>, f: seq<Field>, g: seq<Field>)
    ensures [] + a + b + c + d + e + f + g == a + (b + (c + (d + (e + (f + g)))))
  {
  }
}
