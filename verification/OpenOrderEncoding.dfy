/** An open order written field by field, from its named attributes, is read back attribute by attribute: the success
    direction of OpenOrderSheet. What is written says nothing of the lists of kinds that the decoder reads by. */
module OpenOrderEncoding {
  import opened Basics
  import opened Fields
  import opened Cursor
  import opened Conditions
  import opened GroupRoundTrips
  import opened Items
  import opened OpenOrder
  import opened OpenOrderRoundTrip
  import opened OpenOrderSheet
  import opened OrderLayout
  import opened Orders
  import opened Versions

  // ---------------------------------------------------------------- blocks without gates

  function IdentityItems(x: Identity): (r: seq<Item>)
    ensures Kinds(r) == IDENTITY_READS
  {
    [Int(x.orderID), Int(x.contractID), Str(x.symbol), Str(x.secType), Str(x.expiry), Num(x.strike), Str(x.right)]
  }

  lemma IdentityBack(x: Identity)
    ensures IdentityOf(Values(IdentityItems(x))) == x
  {
  }

  function VenueItems(x: Venue): (r: seq<Item>)
    ensures Kinds(r) == VENUE_READS
  {
    [Str(x.exchange), Str(x.currency), Str(x.localSymbol)]
  }

  lemma VenueBack(x: Venue)
    ensures VenueOf(Values(VenueItems(x))) == x
  {
  }

  function AccountItems(x: Account, skipped: Text): (r: seq<Item>)
    ensures Kinds(r) == ACCOUNT_READS
  {
    [Str(x.tif), Str(x.ocaGroup), Str(x.account), Str(x.openClose), Int(x.origin), Str(x.orderRef), Int(x.clientID),
     Int(x.permID), Flag(x.outsideRth), Flag(x.hidden), Num(x.discretionaryAmount), Str(x.goodAfterTime),
     Str(skipped), Str(x.faGroup), Str(x.faMethod), Str(x.faPercentage), Str(x.faProfile)]
  }

  lemma AccountBack(x: Account, skipped: Text)
    ensures AccountOf(Values(AccountItems(x, skipped))) == x
  {
  }

  function ShortSaleItems(x: ShortSale): (r: seq<Item>)
    ensures Kinds(r) == SHORT_SALE_READS
  {
    [Str(x.goodTillDate), Str(x.rule80A), NumUnset(x.percentOffset), Str(x.settlingFirm), Int(x.shortSaleSlot),
     Str(x.designatedLocation)]
  }

  lemma ShortSaleBack(x: ShortSale)
    ensures ShortSaleOf(Values(ShortSaleItems(x))) == x
  {
  }

  function BoxItems(x: Box): (r: seq<Item>)
    ensures Kinds(r) == BOX_READS
  {
    [Int(x.auctionStrategy), NumUnset(x.startingPrice), NumUnset(x.stockRefPrice), NumUnset(x.delta),
     NumUnset(x.stockRangeLower), NumUnset(x.stockRangeUpper)]
  }

  lemma BoxBack(x: Box)
    ensures BoxOf(Values(BoxItems(x))) == x
  {
  }

  function DisplayItems(x: Display): (r: seq<Item>)
    ensures Kinds(r) == DISPLAY_READS
  {
    [Int(x.displaySize), Flag(x.blockOrder), Flag(x.sweepToFill), Flag(x.allOrNone), IntUnset(x.minQty),
     Int(x.ocaType)]
  }

  lemma DisplayBack(x: Display)
    ensures DisplayOf(Values(DisplayItems(x))) == x
  {
  }

  function VolTermsItems(x: VolTerms): (r: seq<Item>)
    ensures Kinds(r) == VOLATILITY_READS
  {
    [Flag(x.eTradeOnly), Flag(x.firmQuoteOnly), NumUnset(x.nbboPriceCap), Int(x.parentID), Int(x.triggerMethod),
     NumUnset(x.volatility), Int(x.volatilityType)]
  }

  lemma VolTermsBack(x: VolTerms)
    ensures VolTermsOf(Values(VolTermsItems(x))) == x
  {
  }

  function MarginsItems(x: Margins): (r: seq<Item>)
    ensures Kinds(r) == MARGIN_READS
  {
    [Str(x.initBefore), Str(x.maintBefore), Str(x.equityBefore), Str(x.initChange), Str(x.maintChange),
     Str(x.equityChange)]
  }

  lemma MarginsBack(x: Margins)
    ensures MarginsOf(Values(MarginsItems(x))) == x
  {
  }

  function CommissionsItems(x: Commissions): (r: seq<Item>)
    ensures Kinds(r) == COMMISSION_READS
  {
    [Str(x.initAfter), Str(x.maintAfter), Str(x.equityAfter), NumUnset(x.commission), NumUnset(x.minCommission),
     NumUnset(x.maxCommission), Str(x.currency), Str(x.warning)]
  }

  lemma CommissionsBack(x: Commissions)
    ensures CommissionsOf(Values(CommissionsItems(x))) == x
  {
  }

  function AdjustedTermsItems(x: AdjustedTerms): (r: seq<Item>)
    ensures Kinds(r) == ADJUSTED_READS
  {
    [Str(x.orderType), Num(x.triggerPrice), Num(x.trailStopPrice), Num(x.limitPriceOffset), Num(x.stopPrice),
     Num(x.stopLimitPrice), Num(x.trailingAmount), Int(x.trailingUnit)]
  }

  lemma AdjustedTermsBack(x: AdjustedTerms)
    ensures AdjustedTermsOf(Values(AdjustedTermsItems(x))) == x
  {
  }

  function TrailItems(x: Trail): (r: seq<Item>)
    ensures Kinds(r) == [KBool, KInt, KFloatUnset]
  {
    [Flag(x.continuousUpdate), Int(x.referencePriceType), NumUnset(x.trailStopPrice)]
  }

  lemma TrailBack(x: Trail)
    ensures TrailOf(Values(TrailItems(x))) == x
  {
  }

  function BasisItems(x: Basis): (r: seq<Item>)
    ensures Kinds(r) == [KFloatUnset, KIntUnset, KStr]
  {
    [NumUnset(x.basisPoints), IntUnset(x.basisPointsType), Str(x.comboLegsDescription)]
  }

  lemma BasisBack(x: Basis)
    ensures BasisOf(Values(BasisItems(x))) == x
  {
  }

  function NeutralClearingItems(x: NeutralClearing): (r: seq<Item>)
    ensures Kinds(r) == DN_ORDER[..4]
  {
    [Int(x.contractID), Str(x.settlingFirm), Str(x.clearingAccount), Str(x.clearingIntent)]
  }

  lemma NeutralClearingBack(x: NeutralClearing)
    ensures NeutralClearingOf(Values(NeutralClearingItems(x))) == x
  {
  }

  function NeutralShortSaleItems(x: NeutralShortSale): (r: seq<Item>)
    ensures Kinds(r) == DN_ORDER[4..]
  {
    [Str(x.openClose), Flag(x.shortSale), Int(x.shortSaleSlot), Str(x.designatedLocation)]
  }

  lemma NeutralShortSaleBack(x: NeutralShortSale)
    ensures NeutralShortSaleOf(Values(NeutralShortSaleItems(x))) == x
  {
  }

  function LegRowItems(x: Leg): (r: seq<Item>)
    ensures Kinds(r) == LEG
  {
    [Int(x.contractID), Int(x.ratio), Str(x.action), Str(x.exchange), Int(x.openClose), Int(x.shortSaleSlot),
     Str(x.designatedLocation), Int(x.exemptCode)]
  }

  lemma LegRowBack(x: Leg)
    ensures LegRowOf(Values(LegRowItems(x))) == x
  {
  }

  function ScaleRowItems(x: ScaleTerms): (r: seq<Item>)
    ensures Kinds(r) == SCALE_TERMS
  {
    [NumUnset(x.priceAdjustValue), IntUnset(x.priceAdjustInterval), NumUnset(x.profitOffset), Flag(x.autoReset),
     IntUnset(x.initPosition), IntUnset(x.initFillQty), Flag(x.randomPercent)]
  }

  lemma ScaleRowBack(x: ScaleTerms)
    ensures ScaleRowOf(Values(ScaleRowItems(x))) == x
  {
  }

  function NeutralRowItems(x: DeltaNeutral): (r: seq<Item>)
    ensures Kinds(r) == DN_CONTRACT
  {
    [Int(x.contractID), Num(x.delta), Num(x.price)]
  }

  lemma NeutralRowBack(x: DeltaNeutral)
    ensures NeutralRowOf(Values(NeutralRowItems(x))) == x
  {
  }

  function PegRowItems(x: Benchmark): (r: seq<Item>)
    ensures Kinds(r) == PEG
  {
    [Int(x.contractID), Flag(x.isDecrease), Num(x.changeAmount), Num(x.referenceChange), Str(x.exchangeID)]
  }

  lemma PegRowBack(x: Benchmark)
    ensures PegRowOf(Values(PegRowItems(x))) == x
  {
  }

  function TagRowItems(x: TagValue): (r: seq<Item>)
    ensures Kinds(r) == TAG_VALUE
  {
    [Str(x.tag), Str(x.value)]
  }

  lemma TagRowBack(x: TagValue)
    ensures TagRowOf(Values(TagRowItems(x))) == x
  {
  }

  // ---------------------------------------------------------------- parts of a list

  lemma FirstPart(a: seq<Value>, b: seq<Value>)
    ensures Part(a + b, 0, |a|) == a
  {
  }

  lemma LaterPart(a: seq<Value>, b: seq<Value>, k: nat, n: nat)
    ensures Part(a + b, |a| + k, n) == Part(b, k, n)
  {
    if k + n <= |b| {
      assert (a + b)[|a| + k..|a| + k + n] == b[k..k + n];
    }
  }

  lemma WholePart(a: seq<Value>)
    ensures Part(a, 0, |a|) == a
  {
  }

  lemma TwoParts(a: seq<Item>, b: seq<Item>)
    ensures var vs := Values(a + b);
            && Part(vs, 0, |a|) == Values(a) && Part(vs, |a|, |b|) == Values(b)
    ensures Kinds(a + b) == Kinds(a) + Kinds(b)
  {
    hide *;
    ItemsConcat(a, b);
    FirstPart(Values(a), Values(b));
    LaterPart(Values(a), Values(b), 0, |b|);
    WholePart(Values(b));
  }

  lemma ThreeParts(a: seq<Item>, b: seq<Item>, c: seq<Item>)
    ensures var vs := Values(a + (b + c));
            && Part(vs, 0, |a|) == Values(a) && Part(vs, |a|, |b|) == Values(b)
            && Part(vs, |a| + |b|, |c|) == Values(c)
    ensures Kinds(a + (b + c)) == Kinds(a) + (Kinds(b) + Kinds(c))
  {
    hide *;
    var r := b + c;
    TwoParts(b, c);
    ItemsConcat(a, r);
    FirstPart(Values(a), Values(r));
    LaterPart(Values(a), Values(r), 0, |b|);
    LaterPart(Values(a), Values(r), |b|, |c|);
  }

  lemma FourParts(a: seq<Item>, b: seq<Item>, c: seq<Item>, d: seq<Item>)
    ensures var vs := Values(a + (b + (c + d)));
            && Part(vs, 0, |a|) == Values(a) && Part(vs, |a|, |b|) == Values(b)
            && Part(vs, |a| + |b|, |c|) == Values(c) && Part(vs, |a| + |b| + |c|, |d|) == Values(d)
    ensures Kinds(a + (b + (c + d))) == Kinds(a) + (Kinds(b) + (Kinds(c) + Kinds(d)))
  {
    hide *;
    var r := b + (c + d);
    ThreeParts(b, c, d);
    ItemsConcat(a, r);
    FirstPart(Values(a), Values(r));
    LaterPart(Values(a), Values(r), 0, |b|);
    LaterPart(Values(a), Values(r), |b|, |c|);
    LaterPart(Values(a), Values(r), |b| + |c|, |d|);
  }

  lemma FiveParts(a: seq<Item>, b: seq<Item>, c: seq<Item>, d: seq<Item>, e: seq<Item>)
    ensures var vs := Values(a + (b + (c + (d + e))));
            && Part(vs, 0, |a|) == Values(a) && Part(vs, |a|, |b|) == Values(b)
            && Part(vs, |a| + |b|, |c|) == Values(c) && Part(vs, |a| + |b| + |c|, |d|) == Values(d)
            && Part(vs, |a| + |b| + |c| + |d|, |e|) == Values(e)
    ensures Kinds(a + (b + (c + (d + e)))) == Kinds(a) + (Kinds(b) + (Kinds(c) + (Kinds(d) + Kinds(e))))
  {
    hide *;
    var r := b + (c + (d + e));
    FourParts(b, c, d, e);
    ItemsConcat(a, r);
    FirstPart(Values(a), Values(r));
    LaterPart(Values(a), Values(r), 0, |b|);
    LaterPart(Values(a), Values(r), |b|, |c|);
    LaterPart(Values(a), Values(r), |b| + |c|, |d|);
    LaterPart(Values(a), Values(r), |b| + |c| + |d|, |e|);
  }

  lemma SixParts(a: seq<Item>, b: seq<Item>, c: seq<Item>, d: seq<Item>, e: seq<Item>, f: seq<Item>)
    ensures var vs := Values(a + (b + (c + (d + (e + f)))));
            && Part(vs, 0, |a|) == Values(a) && Part(vs, |a|, |b|) == Values(b)
            && Part(vs, |a| + |b|, |c|) == Values(c) && Part(vs, |a| + |b| + |c|, |d|) == Values(d)
            && Part(vs, |a| + |b| + |c| + |d|, |e|) == Values(e)
            && Part(vs, |a| + |b| + |c| + |d| + |e|, |f|) == Values(f)
    ensures Kinds(a + (b + (c + (d + (e + f)))))
            == Kinds(a) + (Kinds(b) + (Kinds(c) + (Kinds(d) + (Kinds(e) + Kinds(f)))))
  {
    hide *;
    var r := b + (c + (d + (e + f)));
    FiveParts(b, c, d, e, f);
    ItemsConcat(a, r);
    FirstPart(Values(a), Values(r));
    LaterPart(Values(a), Values(r), 0, |b|);
    LaterPart(Values(a), Values(r), |b|, |c|);
    LaterPart(Values(a), Values(r), |b| + |c|, |d|);
    LaterPart(Values(a), Values(r), |b| + |c| + |d|, |e|);
    LaterPart(Values(a), Values(r), |b| + |c| + |d| + |e|, |f|);
  }

  lemma SevenParts(a: seq<Item>, b: seq<Item>, c: seq<Item>, d: seq<Item>, e: seq<Item>, f: seq<Item>, g: seq<Item>)
    ensures var vs := Values(a + (b + (c + (d + (e + (f + g))))));
            && Part(vs, 0, |a|) == Values(a) && Part(vs, |a|, |b|) == Values(b)
            && Part(vs, |a| + |b|, |c|) == Values(c) && Part(vs, |a| + |b| + |c|, |d|) == Values(d)
            && Part(vs, |a| + |b| + |c| + |d|, |e|) == Values(e)
            && Part(vs, |a| + |b| + |c| + |d| + |e|, |f|) == Values(f)
            && Part(vs, |a| + |b| + |c| + |d| + |e| + |f|, |g|) == Values(g)
    ensures Kinds(a + (b + (c + (d + (e + (f + g))))))
            == Kinds(a) + (Kinds(b) + (Kinds(c) + (Kinds(d) + (Kinds(e) + (Kinds(f) + Kinds(g))))))
  {
    hide *;
    var r := b + (c + (d + (e + (f + g))));
    SixParts(b, c, d, e, f, g);
    ItemsConcat(a, r);
    FirstPart(Values(a), Values(r));
    LaterPart(Values(a), Values(r), 0, |b|);
    LaterPart(Values(a), Values(r), |b|, |c|);
    LaterPart(Values(a), Values(r), |b| + |c|, |d|);
    LaterPart(Values(a), Values(r), |b| + |c| + |d|, |e|);
    LaterPart(Values(a), Values(r), |b| + |c| + |d| + |e|, |f|);
    LaterPart(Values(a), Values(r), |b| + |c| + |d| + |e| + |f|, |g|);
  }

  lemma EightParts(a: seq<Item>, b: seq<Item>, c: seq<Item>, d: seq<Item>, e: seq<Item>, f: seq<Item>, g: seq<Item>,
                   h: seq<Item>)
    ensures var vs := Values(a + (b + (c + (d + (e + (f + (g + h)))))));
            && Part(vs, 0, |a|) == Values(a) && Part(vs, |a|, |b|) == Values(b)
            && Part(vs, |a| + |b|, |c|) == Values(c) && Part(vs, |a| + |b| + |c|, |d|) == Values(d)
            && Part(vs, |a| + |b| + |c| + |d|, |e|) == Values(e)
            && Part(vs, |a| + |b| + |c| + |d| + |e|, |f|) == Values(f)
            && Part(vs, |a| + |b| + |c| + |d| + |e| + |f|, |g|) == Values(g)
            && Part(vs, |a| + |b| + |c| + |d| + |e| + |f| + |g|, |h|) == Values(h)
    ensures Kinds(a + (b + (c + (d + (e + (f + (g + h)))))))
            == Kinds(a) + (Kinds(b) + (Kinds(c) + (Kinds(d) + (Kinds(e) + (Kinds(f) + (Kinds(g) + Kinds(h)))))))
  {
    hide *;
    var r := b + (c + (d + (e + (f + (g + h)))));
    SevenParts(b, c, d, e, f, g, h);
    ItemsConcat(a, r);
    FirstPart(Values(a), Values(r));
    LaterPart(Values(a), Values(r), 0, |b|);
    LaterPart(Values(a), Values(r), |b|, |c|);
    LaterPart(Values(a), Values(r), |b| + |c|, |d|);
    LaterPart(Values(a), Values(r), |b| + |c| + |d|, |e|);
    LaterPart(Values(a), Values(r), |b| + |c| + |d| + |e|, |f|);
    LaterPart(Values(a), Values(r), |b| + |c| + |d| + |e| + |f|, |g|);
    LaterPart(Values(a), Values(r), |b| + |c| + |d| + |e| + |f| + |g|, |h|);
  }

  /** A value behind a gate, or Go's zero value. */
  lemma GateBack(on: bool, item: Item)
    ensures var vs := Values(If(on, [item]));
            match item
            case Str(t) => TextOf(vs, 0) == if on then t else []
            case Int(i) => IntOf(vs, 0) == if on then i else 0
            case Flag(b) => BoolOf(vs, 0) == (on && b)
            case NumUnset(f) => FloatOf(vs, 0) == if on then f else ZEROFLOAT
            case _ => true
  {
  }

  /** Items of the decoder's kinds, as a block. */
  lemma FineItems(fc: FloatCodec, ks: seq<Kind>, items: seq<Item>)
    requires Kinds(items) == ks && AllExact(fc, items)
    ensures Fine(fc, ks, Values(items)) && Written(fc, ks, Values(items)) == Sent(fc, items)
  {
    ItemsAreBlock(fc, items);
    hide Kinds, Values, Sent, WriteBlock, TypedAll, SurvivesAll;
  }

  // ---------------------------------------------------------------- terms

  function QuantityItem(q: Quantity): Item { match q case Shares(f) => Num(f) case Whole(n) => Int(n) }

  function OpenTermsItems(version: int, x: OpenTerms): seq<Item> {
    IdentityItems(x.identity) + (If(version >= 32, [Str(x.multiplier)]) + (VenueItems(x.venue)
    + (If(version >= 32, [Str(x.tradingClass)]) + [Str(x.action), QuantityItem(x.quantity)])))
  }

  /** Of the kind the server version sends, and without what the message version does not send. */
  predicate NaturalTerms(dv: int, version: int, x: OpenTerms) {
    (dv >= 101 <==> x.quantity.Shares?) && (version < 32 ==> x.multiplier == [] && x.tradingClass == [])
  }

  lemma OpenTermsKinds(dv: int, version: int, x: OpenTerms)
    requires NaturalTerms(dv, version, x)
    ensures Kinds(OpenTermsItems(version, x)) == TermKinds(dv, version)
  {
    assert Kinds([Str(x.action), QuantityItem(x.quantity)]) == [KStr, QuantityKind(dv)];
    assert Kinds([Str(x.multiplier)]) == [KStr] && Kinds([Str(x.tradingClass)]) == [KStr];
    TermKindsAre(dv, version);
    hide Kinds, Values, If, IdentityItems, VenueItems, TermKinds, On, QuantityItem;
    FiveParts(IdentityItems(x.identity), If(version >= 32, [Str(x.multiplier)]), VenueItems(x.venue),
              If(version >= 32, [Str(x.tradingClass)]), [Str(x.action), QuantityItem(x.quantity)]);
  }

  lemma TermItemsAre(version: int, x: OpenTerms)
    ensures OpenTermsItems(version, x)
            == IdentityItems(x.identity) + (If(version >= 32, [Str(x.multiplier)]) + (VenueItems(x.venue)
               + (If(version >= 32, [Str(x.tradingClass)]) + [Str(x.action), QuantityItem(x.quantity)])))
    ensures |IdentityItems(x.identity)| == 7 && |VenueItems(x.venue)| == 3
    ensures |If(version >= 32, [Str(x.multiplier)])| == Gate(version >= 32, 1)
    ensures |If(version >= 32, [Str(x.tradingClass)])| == Gate(version >= 32, 1)
  {
    hide If, Gate, Kinds;
  }

  lemma OpenTermsParts(version: int, x: OpenTerms)
    ensures var vs, m := Values(OpenTermsItems(version, x)), Gate(version >= 32, 1);
            && Part(vs, 0, 7) == Values(IdentityItems(x.identity))
            && Part(vs, 7, m) == Values(If(version >= 32, [Str(x.multiplier)]))
            && Part(vs, 7 + m, 3) == Values(VenueItems(x.venue))
            && Part(vs, 10 + m, m) == Values(If(version >= 32, [Str(x.tradingClass)]))
            && Part(vs, 10 + 2 * m, 2) == Values([Str(x.action), QuantityItem(x.quantity)])
  {
    hide *;
    TermItemsAre(version, x);
    FiveParts(IdentityItems(x.identity), If(version >= 32, [Str(x.multiplier)]), VenueItems(x.venue),
              If(version >= 32, [Str(x.tradingClass)]), [Str(x.action), QuantityItem(x.quantity)]);
  }

  lemma ActionBack(dv: int, x: OpenTerms)
    requires dv >= 101 <==> x.quantity.Shares?
    ensures var vs := Values([Str(x.action), QuantityItem(x.quantity)]);
            TextOf(vs, 0) == x.action && QuantityOf(dv, vs, 1) == x.quantity
  {
  }

  lemma OpenTermsBack(dv: int, version: int, x: OpenTerms)
    requires NaturalTerms(dv, version, x)
    ensures OpenTermsOf(dv, version, Values(OpenTermsItems(version, x))) == x
  {
    hide Kinds, Values, If, OpenTermsItems, IdentityItems, VenueItems, IdentityOf, VenueOf, QuantityOf, TextOf, Part;
    hide QuantityItem, Gate;
    OpenTermsParts(version, x);
    IdentityBack(x.identity);
    GateBack(version >= 32, Str(x.multiplier));
    VenueBack(x.venue);
    GateBack(version >= 32, Str(x.tradingClass));
    ActionBack(dv, x);
  }

  // ---------------------------------------------------------------- prices

  /** The two texts that the decoder skips: the shares allocation, and the field of server version 51. */
  datatype Skipped = Skipped(shares: Text, exempt: Text)

  function LimitItems(version: int, limit: Float, aux: Float): seq<Item> {
    [if version < 29 then Num(limit) else NumUnset(limit), if version < 30 then Num(aux) else NumUnset(aux)]
  }

  function ExemptItems(dv: int, version: int, code: int64, skipped: Text): seq<Item> {
    if dv == 51 then [Str(skipped)] else If(version >= 23, [Int(code)])
  }

  function OpenPricesItems(dv: int, version: int, x: OpenPrices, skipped: Skipped): seq<Item> {
    LimitItems(version, x.limitPrice, x.auxPrice) + (AccountItems(x.account, skipped.shares)
    + (If(dv >= 103, [Str(x.modelCode)]) + (ShortSaleItems(x.shortSale)
    + (ExemptItems(dv, version, x.exemptCode, skipped.exempt) + (BoxItems(x.box) + (DisplayItems(x.display)
    + VolTermsItems(x.volatility)))))))
  }

  predicate NaturalPrices(dv: int, version: int, x: OpenPrices) {
    (dv < 103 ==> x.modelCode == []) && (dv == 51 || version < 23 ==> x.exemptCode == 0)
  }

  lemma ExemptKindsAre(dv: int, version: int, code: int64, skipped: Text)
    ensures Kinds(ExemptItems(dv, version, code, skipped)) == ExemptKinds(dv, version)
  {
  }

  lemma ExemptBack(dv: int, version: int, code: int64, skipped: Text)
    requires dv == 51 || version < 23 ==> code == 0
    ensures IntOf(Values(ExemptItems(dv, version, code, skipped)), 0) == code
  {
  }

  lemma LimitsBack(version: int, limit: Float, aux: Float)
    ensures Kinds(LimitItems(version, limit, aux)) == LimitKinds(version)
    ensures var vs := Values(LimitItems(version, limit, aux));
            FloatOf(vs, 0) == limit && FloatOf(vs, 1) == aux
  {
  }

  lemma OpenPricesParts(dv: int, version: int, x: OpenPrices, skipped: Skipped)
    requires NaturalPrices(dv, version, x)
    ensures Kinds(OpenPricesItems(dv, version, x, skipped)) == PriceKinds(dv, version)
    ensures var vs, m := Values(OpenPricesItems(dv, version, x, skipped)), Gate(dv >= 103, 1);
            var e := m + |ExemptKinds(dv, version)|;
            && Part(vs, 0, 2) == Values(LimitItems(version, x.limitPrice, x.auxPrice))
            && Part(vs, 2, 17) == Values(AccountItems(x.account, skipped.shares))
            && Part(vs, 19, m) == Values(If(dv >= 103, [Str(x.modelCode)]))
            && Part(vs, 19 + m, 6) == Values(ShortSaleItems(x.shortSale))
            && Part(vs, 25 + m, e - m) == Values(ExemptItems(dv, version, x.exemptCode, skipped.exempt))
            && Part(vs, 25 + e, 6) == Values(BoxItems(x.box)) && Part(vs, 31 + e, 6) == Values(DisplayItems(x.display))
            && Part(vs, 37 + e, 7) == Values(VolTermsItems(x.volatility))
  {
    hide *;
    LimitsBack(version, x.limitPrice, x.auxPrice);
    ExemptKindsAre(dv, version, x.exemptCode, skipped.exempt);
    PriceKindsAre(dv, version);
    PriceBackKindsAre(dv, version);
    PriceItemsAre(dv, version, x, skipped);
    EightParts(LimitItems(version, x.limitPrice, x.auxPrice), AccountItems(x.account, skipped.shares),
               If(dv >= 103, [Str(x.modelCode)]), ShortSaleItems(x.shortSale),
               ExemptItems(dv, version, x.exemptCode, skipped.exempt), BoxItems(x.box), DisplayItems(x.display),
               VolTermsItems(x.volatility));
  }

  lemma PriceItemsAre(dv: int, version: int, x: OpenPrices, skipped: Skipped)
    ensures OpenPricesItems(dv, version, x, skipped)
            == LimitItems(version, x.limitPrice, x.auxPrice) + (AccountItems(x.account, skipped.shares)
               + (If(dv >= 103, [Str(x.modelCode)]) + (ShortSaleItems(x.shortSale)
               + (ExemptItems(dv, version, x.exemptCode, skipped.exempt) + (BoxItems(x.box) + (DisplayItems(x.display)
               + VolTermsItems(x.volatility)))))))
    ensures |LimitItems(version, x.limitPrice, x.auxPrice)| == 2 && |AccountItems(x.account, skipped.shares)| == 17
    ensures Kinds(If(dv >= 103, [Str(x.modelCode)])) == On(dv >= MODELS_SUPPORT, [KStr])
    ensures |If(dv >= 103, [Str(x.modelCode)])| == Gate(dv >= 103, 1) && |ShortSaleItems(x.shortSale)| == 6
    ensures |BoxItems(x.box)| == 6 && |DisplayItems(x.display)| == 6 && |VolTermsItems(x.volatility)| == 7
    ensures Kinds(AccountItems(x.account, skipped.shares)) == ACCOUNT_READS
    ensures Kinds(ShortSaleItems(x.shortSale)) == SHORT_SALE_READS && Kinds(BoxItems(x.box)) == BOX_READS
    ensures Kinds(DisplayItems(x.display)) == DISPLAY_READS && Kinds(VolTermsItems(x.volatility)) == VOLATILITY_READS
  {
    assert Kinds([Str(x.modelCode)]) == [KStr];
    hide If, Gate, ExemptItems;
  }

  lemma PriceBackKindsAre(dv: int, version: int)
    ensures PriceBackKinds(dv, version)
            == SHORT_SALE_READS + (ExemptKinds(dv, version) + (BOX_READS + (DISPLAY_READS + VOLATILITY_READS)))
  {
  }

  lemma OpenPricesBack(dv: int, version: int, x: OpenPrices, skipped: Skipped)
    requires NaturalPrices(dv, version, x)
    ensures OpenPricesOf(dv, version, Values(OpenPricesItems(dv, version, x, skipped))) == x
  {
    hide Kinds, Values, If, Part, Gate, OpenPricesItems, LimitItems, AccountItems, ShortSaleItems, ExemptItems;
    hide BoxItems, DisplayItems, VolTermsItems, PriceKinds, LimitKinds, ExemptKinds, AccountOf, ShortSaleOf, BoxOf;
    hide DisplayOf, VolTermsOf, IntOf, FloatOf, TextOf;
    OpenPricesParts(dv, version, x, skipped);
    LimitsBack(version, x.limitPrice, x.auxPrice);
    AccountBack(x.account, skipped.shares);
    GateBack(dv >= 103, Str(x.modelCode));
    ShortSaleBack(x.shortSale);
    ExemptBack(dv, version, x.exemptCode, skipped.exempt);
    BoxBack(x.box);
    DisplayBack(x.display);
    VolTermsBack(x.volatility);
  }

  // ---------------------------------------------------------------- volatility

  function DnItems(version: int, x: OpenVol): seq<Item> {
    [NumUnset(x.dnAuxPrice)] + (If(version >= 27 && x.dnType != [], NeutralClearingItems(x.dnClearing))
                                + If(version >= 31 && x.dnType != [], NeutralShortSaleItems(x.dnShortSale)))
  }

  function TrailPartItems(version: int, x: OpenVol): seq<Item> {
    TrailItems(x.trail) + (If(version >= 30, [NumUnset(x.trailingPercent)]) + BasisItems(x.basis))
  }

  predicate NaturalVol(version: int, x: OpenVol) {
    && (version < 27 || x.dnType == [] ==> x.dnClearing == NeutralClearing(0, [], [], []))
    && (version < 31 || x.dnType == [] ==> x.dnShortSale == NeutralShortSale([], false, 0, []))
    && (version < 30 ==> x.trailingPercent == ZEROFLOAT)
  }

  /** The block of an open order with these attributes. */
  function FlatVol(version: int, x: OpenVol): Vol {
    Vol(x.dnType, Values(DnItems(version, x)), Values(TrailPartItems(version, x)))
  }

  lemma DnBack(version: int, x: OpenVol)
    ensures Kinds(DnItems(version, x)) == DnKinds(version, x.dnType)
    ensures var vs, a := Values(DnItems(version, x)), |On(version >= 27 && x.dnType != [], DN_ORDER[..4])|;
            var b := |On(version >= 31 && x.dnType != [], DN_ORDER[4..])|;
            && Part(vs, 0, 1) == [VFloat(x.dnAuxPrice)]
            && Part(vs, 1, a) == Values(If(version >= 27 && x.dnType != [], NeutralClearingItems(x.dnClearing)))
            && Part(vs, 1 + a, b) == Values(If(version >= 31 && x.dnType != [], NeutralShortSaleItems(x.dnShortSale)))
  {
    var first := If(version >= 27 && x.dnType != [], NeutralClearingItems(x.dnClearing));
    var second := If(version >= 31 && x.dnType != [], NeutralShortSaleItems(x.dnShortSale));
    assert Kinds([NumUnset(x.dnAuxPrice)]) == [KFloatUnset];
    assert Values([NumUnset(x.dnAuxPrice)]) == [VFloat(x.dnAuxPrice)];
    DnKindsAre(version, x.dnType);
    hide Kinds, Values, If, Part, NeutralClearingItems, NeutralShortSaleItems, DnKinds, On, Gate;
    ThreeParts([NumUnset(x.dnAuxPrice)], first, second);
  }

  lemma TrailPartBack(version: int, x: OpenVol)
    ensures Kinds(TrailPartItems(version, x)) == TrailKinds(version)
    ensures var vs, t := Values(TrailPartItems(version, x)), Gate(version >= 30, 1);
            && Part(vs, 0, 3) == Values(TrailItems(x.trail))
            && Part(vs, 3, t) == Values(If(version >= 30, [NumUnset(x.trailingPercent)]))
            && Part(vs, 3 + t, 3) == Values(BasisItems(x.basis))
  {
    assert Kinds([NumUnset(x.trailingPercent)]) == [KFloatUnset];
    assert |TrailItems(x.trail)| == 3 && |BasisItems(x.basis)| == 3;
    TrailKindsAre(version);
    hide Kinds, Values, If, Part, TrailItems, BasisItems, TrailKinds, On, Gate;
    ThreeParts(TrailItems(x.trail), If(version >= 30, [NumUnset(x.trailingPercent)]), BasisItems(x.basis));
  }

  lemma HalvesBack(on: bool, more: bool, x: OpenVol)
    requires !on ==> x.dnClearing == NeutralClearing(0, [], [], [])
    requires !more ==> x.dnShortSale == NeutralShortSale([], false, 0, [])
    ensures NeutralClearingOf(Values(If(on, NeutralClearingItems(x.dnClearing)))) == x.dnClearing
    ensures NeutralShortSaleOf(Values(If(more, NeutralShortSaleItems(x.dnShortSale)))) == x.dnShortSale
  {
    if on { NeutralClearingBack(x.dnClearing); }
    if more { NeutralShortSaleBack(x.dnShortSale); }
  }

  lemma OpenVolBack(version: int, x: OpenVol)
    requires NaturalVol(version, x)
    ensures OpenVolOf(version, FlatVol(version, x)) == x
  {
    hide Kinds, Values, If, Part, Gate, On, DnItems, TrailPartItems, NeutralClearingItems, NeutralShortSaleItems;
    hide TrailItems, BasisItems, NeutralClearingOf, NeutralShortSaleOf, TrailOf, BasisOf;
    DnBack(version, x);
    TrailPartBack(version, x);
    HalvesBack(version >= 27 && x.dnType != [], version >= 31 && x.dnType != [], x);
    TrailBack(x.trail);
    GateBack(version >= 30, NumUnset(x.trailingPercent));
    BasisBack(x.basis);
  }

  // ---------------------------------------------------------------- flags

  function OpenFlagsItems(version: int, x: OpenFlags): seq<Item> {
    If(version >= 25, [Flag(x.optOut)]) + ([Str(x.clearingAccount), Str(x.clearingIntent)]
    + If(version >= 22, [Flag(x.notHeld)]))
  }

  predicate NaturalFlags(version: int, x: OpenFlags) {
    (version < 25 ==> !x.optOut) && (version < 22 ==> !x.notHeld)
  }

  lemma OpenFlagsBack(version: int, x: OpenFlags)
    requires NaturalFlags(version, x)
    ensures Kinds(OpenFlagsItems(version, x)) == FlagKinds(version)
    ensures OpenFlagsOf(version, Values(OpenFlagsItems(version, x))) == x
  {
    var clearing := [Str(x.clearingAccount), Str(x.clearingIntent)];
    assert Kinds(clearing) == [KStr, KStr] && Kinds([Flag(x.optOut)]) == [KBool] && Kinds([Flag(x.notHeld)]) == [KBool];
    assert TextOf(Values(clearing), 0) == x.clearingAccount && TextOf(Values(clearing), 1) == x.clearingIntent;
    FlagKindsAre(version);
    hide Kinds, Values, If, Part, Gate, On, FlagKinds, TextOf, BoolOf;
    ThreeParts(If(version >= 25, [Flag(x.optOut)]), clearing, If(version >= 22, [Flag(x.notHeld)]));
    GateBack(version >= 25, Flag(x.optOut));
    GateBack(version >= 22, Flag(x.notHeld));
  }

  // ---------------------------------------------------------------- the order state

  function OpenStateItems(dv: int, version: int, x: OpenState): seq<Item> {
    If(version >= 33, [Flag(x.solicited)]) + ([Flag(x.whatIf), Str(x.status)]
    + (If(dv >= 142, MarginsItems(x.margins)) + (CommissionsItems(x.commissions)
    + If(version >= 34, [Flag(x.randomizeSize), Flag(x.randomizePrice)]))))
  }

  predicate NaturalState(dv: int, version: int, x: OpenState) {
    && (version < 33 ==> !x.solicited) && (version < 34 ==> !x.randomizeSize && !x.randomizePrice)
    && (dv < 142 ==> x.margins == Margins([], [], [], [], [], []))
  }

  lemma StatePieces(dv: int, version: int, x: OpenState)
    requires NaturalState(dv, version, x)
    ensures var vs := Values([Flag(x.whatIf), Str(x.status)]);
            BoolOf(vs, 0) == x.whatIf && TextOf(vs, 1) == x.status
    ensures var vs := Values(If(version >= 34, [Flag(x.randomizeSize), Flag(x.randomizePrice)]));
            BoolOf(vs, 0) == x.randomizeSize && BoolOf(vs, 1) == x.randomizePrice
    ensures MarginsOf(Values(If(dv >= 142, MarginsItems(x.margins)))) == x.margins
    ensures Kinds([Flag(x.whatIf), Str(x.status)]) == [KBool, KStr] && Kinds([Flag(x.solicited)]) == [KBool]
    ensures Kinds([Flag(x.randomizeSize), Flag(x.randomizePrice)]) == [KBool, KBool]
  {
    if dv >= 142 { MarginsBack(x.margins); }
    hide MarginsItems;
  }

  lemma StateItemsAre(dv: int, version: int, x: OpenState)
    ensures OpenStateItems(dv, version, x)
            == If(version >= 33, [Flag(x.solicited)]) + ([Flag(x.whatIf), Str(x.status)]
               + (If(dv >= 142, MarginsItems(x.margins)) + (CommissionsItems(x.commissions)
               + If(version >= 34, [Flag(x.randomizeSize), Flag(x.randomizePrice)]))))
    ensures |If(version >= 33, [Flag(x.solicited)])| == Gate(version >= 33, 1)
    ensures |If(dv >= 142, MarginsItems(x.margins))| == Gate(dv >= WHAT_IF_EXT_FIELDS, 6)
    ensures |CommissionsItems(x.commissions)| == 8
    ensures |If(version >= 34, [Flag(x.randomizeSize), Flag(x.randomizePrice)])| == Gate(version >= 34, 2)
    ensures Kinds(MarginsItems(x.margins)) == MARGIN_READS && Kinds(CommissionsItems(x.commissions)) == COMMISSION_READS
    ensures WHAT_IF_EXT_FIELDS == 142
  {
    hide If, Gate, Kinds;
  }

  lemma OpenStateParts(dv: int, version: int, x: OpenState)
    requires NaturalState(dv, version, x)
    ensures Kinds(OpenStateItems(dv, version, x)) == StateKinds(dv, version)
    ensures var vs, a, r := Values(OpenStateItems(dv, version, x)), Gate(version >= 33, 1), Gate(version >= 34, 2);
            var m := a + Gate(dv >= WHAT_IF_EXT_FIELDS, 6);
            && Part(vs, 0, a) == Values(If(version >= 33, [Flag(x.solicited)]))
            && Part(vs, a, 2) == Values([Flag(x.whatIf), Str(x.status)])
            && Part(vs, a + 2, m - a) == Values(If(dv >= 142, MarginsItems(x.margins)))
            && Part(vs, m + 2, 8) == Values(CommissionsItems(x.commissions))
            && Part(vs, m + 10, r) == Values(If(version >= 34, [Flag(x.randomizeSize), Flag(x.randomizePrice)]))
  {
    hide *;
    StateItemsAre(dv, version, x);
    StatePieces(dv, version, x);
    StateKindsAre(dv, version);
    FiveParts(If(version >= 33, [Flag(x.solicited)]), [Flag(x.whatIf), Str(x.status)],
              If(dv >= 142, MarginsItems(x.margins)), CommissionsItems(x.commissions),
              If(version >= 34, [Flag(x.randomizeSize), Flag(x.randomizePrice)]));
  }

  lemma OpenStateBack(dv: int, version: int, x: OpenState)
    requires NaturalState(dv, version, x)
    ensures OpenStateOf(dv, version, Values(OpenStateItems(dv, version, x))) == x
  {
    hide Kinds, Values, If, Part, Gate, StateKinds, OpenStateItems, TextOf, BoolOf, MarginsItems, MarginsOf;
    hide CommissionsItems, CommissionsOf;
    OpenStateParts(dv, version, x);
    StatePieces(dv, version, x);
    GateBack(version >= 33, Flag(x.solicited));
    CommissionsBack(x.commissions);
  }

  // ---------------------------------------------------------------- the tail

  /** Each gate opens later than those in front of it, so what is sent is a front piece. */
  function OpenTailItems(dv: int, x: OpenTail): seq<Item> { AllTailItems(x)[..TailLength(dv)] }

  function AllTailItems(x: OpenTail): (r: seq<Item>)
    ensures Kinds(r) == ALL_TAIL
  {
    [Str(x.tierName), Str(x.tierValue), Str(x.tierDisplay), Num(x.cashQty), Flag(x.dontUseAutoPrice), Flag(x.isOms),
     Flag(x.discretionaryUpToLimit), Flag(x.usePriceMgmt), IntUnset(x.duration), IntUnset(x.postToAts)]
  }

  predicate NaturalTail(dv: int, x: OpenTail) {
    && (dv < 106 ==> x.tierName == [] && x.tierValue == [] && x.tierDisplay == [])
    && (dv < 111 ==> x.cashQty == ZEROFLOAT) && (dv < 141 ==> !x.dontUseAutoPrice) && (dv < 145 ==> !x.isOms)
    && (dv < 148 ==> !x.discretionaryUpToLimit) && (dv < 151 ==> !x.usePriceMgmt) && (dv < 158 ==> x.duration == 0)
    && (dv < 160 ==> x.postToAts == 0)
  }

  lemma OpenTailBack(dv: int, x: OpenTail)
    requires NaturalTail(dv, x)
    ensures Kinds(OpenTailItems(dv, x)) == TailKinds(dv)
    ensures OpenTailOf(dv, Values(OpenTailItems(dv, x))) == x
  {
    TailKindsAre(dv);
    hide TailKinds, Kinds, Values, NaturalTail, OpenTailOf, AllTailItems;
    assert Kinds(AllTailItems(x)[..TailLength(dv)]) == ALL_TAIL[..TailLength(dv)];
    TailPicked(dv, x, Values(OpenTailItems(dv, x)));
  }

  lemma TailPicked(dv: int, x: OpenTail, vs: seq<Value>)
    requires NaturalTail(dv, x) && vs == Values(AllTailItems(x)[..TailLength(dv)])
    ensures OpenTailOf(dv, vs) == x
  {
    hide Kinds, Values, AllTailItems, NaturalTail, OpenTailOf;
    AllTailValues(x);
    assert vs == Values(AllTailItems(x))[..TailLength(dv)];
    TailEach(dv, x, Values(AllTailItems(x)), vs);
  }

  lemma TailEach(dv: int, x: OpenTail, all: seq<Value>, vs: seq<Value>)
    requires NaturalTail(dv, x) && |all| == 10 && vs == all[..TailLength(dv)]
    requires all[0] == VStr(x.tierName) && all[1] == VStr(x.tierValue) && all[2] == VStr(x.tierDisplay)
    requires all[3] == VFloat(x.cashQty) && all[4] == VBool(x.dontUseAutoPrice) && all[5] == VBool(x.isOms)
    requires all[6] == VBool(x.discretionaryUpToLimit) && all[7] == VBool(x.usePriceMgmt)
    requires all[8] == VInt(x.duration) && all[9] == VInt(x.postToAts)
    ensures OpenTailOf(dv, vs) == x
  {
  }

  lemma AllTailValues(x: OpenTail)
    ensures Values(AllTailItems(x))
            == [VStr(x.tierName), VStr(x.tierValue), VStr(x.tierDisplay), VFloat(x.cashQty), VBool(x.dontUseAutoPrice),
                VBool(x.isOms), VBool(x.discretionaryUpToLimit), VBool(x.usePriceMgmt), VInt(x.duration),
                VInt(x.postToAts)]
  {
    hide Kinds;
  }

  // ---------------------------------------------------------------- lists

  function LegRows(legs: seq<Leg>): (rows: seq<seq<Item>>)
    ensures |rows| == |legs| && forall i :: 0 <= i < |legs| ==> rows[i] == LegRowItems(legs[i])
  {
    seq(|legs|, i requires 0 <= i < |legs| => LegRowItems(legs[i]))
  }

  function PriceRows(prices: seq<Float>): (rows: seq<seq<Item>>)
    ensures |rows| == |prices| && forall i :: 0 <= i < |prices| ==> rows[i] == [NumUnset(prices[i])]
  {
    seq(|prices|, i requires 0 <= i < |prices| => [NumUnset(prices[i])])
  }

  function TagRows(tvs: seq<TagValue>): (rows: seq<seq<Item>>)
    ensures |rows| == |tvs| && forall i :: 0 <= i < |tvs| ==> rows[i] == [Str(tvs[i].tag), Str(tvs[i].value)]
  {
    seq(|tvs|, i requires 0 <= i < |tvs| => [Str(tvs[i].tag), Str(tvs[i].value)])
  }

  /** A count and the rows, if the list is sent at all. */
  function RowsFields(fc: FloatCodec, on: bool, rows: seq<seq<Item>>): seq<Field>
    requires |rows| <= INT64_MAX
  {
    if on then ListFields(SentEach(fc, rows)) else []
  }

  function SentEach(fc: FloatCodec, rows: seq<seq<Item>>): (fss: seq<seq<Field>>)
    ensures |fss| == |rows| && forall i :: 0 <= i < |rows| ==> fss[i] == Sent(fc, rows[i])
  {
    seq(|rows|, i requires 0 <= i < |rows| => Sent(fc, rows[i]))
  }

  lemma RowsFine(fc: FloatCodec, on: bool, ks: seq<Kind>, rows: seq<seq<Item>>)
    requires Uniform(fc, ks, rows) && (!on ==> rows == [])
    ensures FineList(fc, on, ks, RowValues(rows))
    ensures ListIfFields(fc, on, ks, RowValues(rows)) == RowsFields(fc, on, rows)
  {
    hide WriteBlock, TypedAll, SurvivesAll, AllExact, ListFields;
    forall i | 0 <= i < |rows|
      ensures TypedAll(ks, RowValues(rows)[i]) && SurvivesAll(fc, ks, RowValues(rows)[i])
      ensures WriteBlock(fc, ks, RowValues(rows)[i]) == Sent(fc, rows[i])
    {
      ItemsAreBlock(fc, rows[i]);
    }
    assert BlockFields(fc, ks, RowValues(rows)) == SentEach(fc, rows);
  }

  lemma LegsBack(fc: FloatCodec, legs: seq<Leg>)
    requires |legs| <= INT64_MAX
    ensures Uniform(fc, LEG, LegRows(legs)) && LegsOf(RowValues(LegRows(legs))) == legs
  {
    hide LegRowOf, Kinds, Values, AllExact;
    forall i | 0 <= i < |legs|
      ensures AllExact(fc, LegRows(legs)[i]) && LegRowOf(RowValues(LegRows(legs))[i]) == legs[i]
    {
      LegRowBack(legs[i]);
      LegIsExact(fc, legs[i]);
    }
    hide LegRowItems;
  }

  lemma LegIsExact(fc: FloatCodec, leg: Leg)
    ensures AllExact(fc, LegRowItems(leg))
  {
  }

  lemma PricesBack(fc: FloatCodec, prices: seq<Float>)
    requires |prices| <= INT64_MAX && forall i :: 0 <= i < |prices| ==> Printable(fc, prices[i])
    ensures Uniform(fc, LEG_PRICE, PriceRows(prices)) && PricesOf(RowValues(PriceRows(prices))) == prices
  {
    forall i | 0 <= i < |prices| ensures AllExact(fc, PriceRows(prices)[i]) {
      assert Printable(fc, prices[i]);
    }
  }

  lemma TagsBack(fc: FloatCodec, tvs: seq<TagValue>)
    requires |tvs| <= INT64_MAX
    ensures Uniform(fc, TAG_VALUE, TagRows(tvs)) && TagsOf(RowValues(TagRows(tvs))) == tvs
  {
  }

  ghost predicate NaturalGroups(fc: FloatCodec, version: int, x: OpenGroups) {
    && |x.legs| <= INT64_MAX && |x.prices| <= INT64_MAX && |x.routing| <= INT64_MAX
    && (version < 29 ==> x.legs == [] && x.prices == []) && (version < 26 ==> x.routing == [])
    && forall i :: 0 <= i < |x.prices| ==> Printable(fc, x.prices[i])
  }

  function GroupsFields(fc: FloatCodec, version: int, x: OpenGroups): seq<Field>
    requires |x.legs| <= INT64_MAX && |x.prices| <= INT64_MAX && |x.routing| <= INT64_MAX
  {
    RowsFields(fc, version >= 29, LegRows(x.legs)) + (RowsFields(fc, version >= 29, PriceRows(x.prices))
    + RowsFields(fc, version >= 26, TagRows(x.routing)))
  }

  function FlatGroups(x: OpenGroups): Groups {
    Groups(RowValues(LegRows(x.legs)), RowValues(PriceRows(x.prices)), RowValues(TagRows(x.routing)))
  }

  lemma OpenGroupsBack(fc: FloatCodec, version: int, x: OpenGroups)
    requires NaturalGroups(fc, version, x)
    ensures FineGroups(fc, version, FlatGroups(x)) && OpenGroupsOf(FlatGroups(x)) == x
    ensures GroupsPart(fc, version, FlatGroups(x)) == GroupsFields(fc, version, x)
  {
    LegsBack(fc, x.legs);
    PricesBack(fc, x.prices);
    TagsBack(fc, x.routing);
    hide FineList, Uniform, RowValues, ListIfFields, RowsFields, LegsOf, PricesOf, TagsOf, LegRows, PriceRows, TagRows;
    RowsFine(fc, version >= 29, LEG, LegRows(x.legs));
    RowsFine(fc, version >= 29, LEG_PRICE, PriceRows(x.prices));
    RowsFine(fc, version >= 26, TAG_VALUE, TagRows(x.routing));
  }

  // ---------------------------------------------------------------- scale, hedge, delta-neutral contract, algo

  function SizeItems(version: int, x: OpenScale): seq<Item> {
    if version >= 20 then [IntUnset(x.initSize), IntUnset(x.subsSize)]
    else [IntUnset(x.components), IntUnset(x.initSize)]
  }

  predicate ScaleSent(version: int, x: OpenScale) {
    version >= 28 && x.increment != UNSETFLOAT && Positive(x.increment)
  }

  function ScaleTermItems(version: int, x: OpenScale): seq<Item> { If(ScaleSent(version, x), ScaleRowItems(x.terms)) }

  ghost predicate NaturalScale(fc: FloatCodec, version: int, x: OpenScale) {
    && (if version >= 20 then x.components == 0 else x.subsSize == 0)
    && (!ScaleSent(version, x) ==> x.terms == ScaleTerms(0, 0, 0, false, 0, 0, false))
    && Printable(fc, x.increment) && AllExact(fc, ScaleTermItems(version, x))
  }

  function ScaleFieldsOf(fc: FloatCodec, version: int, x: OpenScale): seq<Field> {
    Sent(fc, SizeItems(version, x)) + ([HandleEmptyFloat(fc, x.increment)] + Sent(fc, ScaleTermItems(version, x)))
  }

  function FlatScale(version: int, x: OpenScale): Scaling {
    Scaling(Values(SizeItems(version, x)), x.increment, Values(ScaleTermItems(version, x)))
  }

  lemma SizesBack(fc: FloatCodec, version: int, x: OpenScale)
    ensures Kinds(SizeItems(version, x)) == [KIntUnset, KIntUnset] && AllExact(fc, SizeItems(version, x))
    ensures var vs := Values(SizeItems(version, x));
            IntOf(vs, 0) == (if version >= 20 then x.initSize else x.components)
            && IntOf(vs, 1) == (if version >= 20 then x.subsSize else x.initSize)
  {
  }

  lemma ScaleTermsBack(version: int, x: OpenScale)
    requires !ScaleSent(version, x) ==> x.terms == ScaleTerms(0, 0, 0, false, 0, 0, false)
    ensures Kinds(ScaleTermItems(version, x)) == ScaleTermKinds(version, x.increment)
    ensures ScaleRowOf(Values(ScaleTermItems(version, x))) == x.terms
  {
    if ScaleSent(version, x) {
      ScaleRowBack(x.terms);
    }
  }

  lemma OpenScaleBack(fc: FloatCodec, version: int, x: OpenScale)
    requires NaturalScale(fc, version, x)
    ensures FineScaling(fc, version, FlatScale(version, x)) && OpenScaleOf(version, FlatScale(version, x)) == x
    ensures ScalingPart(fc, version, FlatScale(version, x)) == ScaleFieldsOf(fc, version, x)
  {
    hide SizeItems, ScaleTermItems, Values, Kinds, Fine, Written, ScaleTermKinds, ScaleRowOf, AllExact, Sent, IntOf;
    SizesBack(fc, version, x);
    ScaleTermsBack(version, x);
    FineItems(fc, [KIntUnset, KIntUnset], SizeItems(version, x));
    FineItems(fc, ScaleTermKinds(version, x.increment), ScaleTermItems(version, x));
  }

  predicate NaturalHedge(version: int, kind: Text, param: Text) {
    (version < 24 ==> kind == []) && (kind == [] ==> param == [])
  }

  function HedgeFieldsOf(version: int, kind: Text, param: Text): seq<Field> {
    if version < 24 then [] else [FStr(kind)] + (if kind != [] then [FStr(param)] else [])
  }

  function FlatHedge(kind: Text, param: Text): Hedging { Hedging(kind, Values(If(kind != [], [Str(param)]))) }

  lemma HedgeBack(fc: FloatCodec, version: int, kind: Text, param: Text)
    requires NaturalHedge(version, kind, param)
    ensures FineHedging(fc, version, FlatHedge(kind, param)) && TextOf(FlatHedge(kind, param).param, 0) == param
    ensures HedgingPart(fc, version, FlatHedge(kind, param)) == HedgeFieldsOf(version, kind, param)
  {
    var items := If(kind != [], [Str(param)]);
    assert Kinds([Str(param)]) == [KStr] && AllExact(fc, items);
    assert Sent(fc, items) == if kind != [] then [FStr(param)] else [];
    FineItems(fc, On(kind != [], [KStr]), items);
    GateBack(kind != [], Str(param));
    hide If, On, Values, Kinds, Sent, Fine, Written, AllExact;
  }

  ghost predicate NaturalNeutral(fc: FloatCodec, version: int, x: Option<DeltaNeutral>) {
    (version < 20 ==> x.None?) && (x.Some? ==> AllExact(fc, NeutralRowItems(x.value)))
  }

  function NeutralItems(x: Option<DeltaNeutral>): seq<Item> { if x.Some? then NeutralRowItems(x.value) else [] }

  function NeutralFieldsOf(fc: FloatCodec, version: int, x: Option<DeltaNeutral>): seq<Field> {
    if version < 20 then [] else [FBool(x.Some?)] + Sent(fc, NeutralItems(x))
  }

  function FlatNeutral(x: Option<DeltaNeutral>): Neutral { Neutral(x.Some?, Values(NeutralItems(x))) }

  lemma NeutralBack(fc: FloatCodec, version: int, x: Option<DeltaNeutral>)
    requires NaturalNeutral(fc, version, x)
    ensures FineNeutral(fc, version, FlatNeutral(x)) && OpenNeutralOf(FlatNeutral(x)) == x
    ensures NeutralPart(fc, version, FlatNeutral(x)) == NeutralFieldsOf(fc, version, x)
  {
    if x.Some? { NeutralRowBack(x.value); }
    assert Kinds(NeutralItems(x)) == On(x.Some?, DN_CONTRACT) && AllExact(fc, NeutralItems(x));
    FineItems(fc, On(x.Some?, DN_CONTRACT), NeutralItems(x));
    assert x.None? ==> Values(NeutralItems(x)) == [];
    hide NeutralRowItems, Kinds, Values, Sent, Fine, Written, AllExact, On, NeutralRowOf;
  }

  predicate NaturalAlgo(version: int, strategy: Text, params: seq<TagValue>) {
    (version < 21 ==> strategy == []) && (strategy == [] ==> params == []) && |params| <= INT64_MAX
  }

  function AlgoFieldsOf(fc: FloatCodec, version: int, strategy: Text, params: seq<TagValue>): seq<Field>
    requires |params| <= INT64_MAX
  {
    if version < 21 then [] else [FStr(strategy)] + RowsFields(fc, strategy != [], TagRows(params))
  }

  function FlatAlgo(strategy: Text, params: seq<TagValue>): Algorithm {
    Algorithm(strategy, RowValues(TagRows(params)))
  }

  lemma AlgoBack(fc: FloatCodec, version: int, strategy: Text, params: seq<TagValue>)
    requires NaturalAlgo(version, strategy, params)
    ensures FineAlgorithm(fc, version, FlatAlgo(strategy, params))
    ensures TagsOf(FlatAlgo(strategy, params).params) == params
    ensures AlgorithmPart(fc, version, FlatAlgo(strategy, params)) == AlgoFieldsOf(fc, version, strategy, params)
  {
    TagsBack(fc, params);
    assert params == [] ==> TagRows(params) == [] && RowValues(TagRows(params)) == [];
    hide FineList, Uniform, RowValues, ListIfFields, RowsFields, TagsOf, TagRows;
    RowsFine(fc, strategy != [], TAG_VALUE, TagRows(params));
  }

  // ---------------------------------------------------------------- PEG BENCH, conditions, adjusted order

  function PegItems(orderType: Text, x: OpenAdjusting): seq<Item> { If(orderType == PEG_BENCH, PegRowItems(x.peg)) }

  function ConditionFlagItems(x: OpenAdjusting): seq<Item> {
    If(x.conditions != [], [Flag(x.ignoreRth), Flag(x.cancelOrder)])
  }

  /** cs are the conditions sent; what is read are fresh ones of their types. */
  ghost predicate NaturalAdjusting(fc: FloatCodec, dv: int, orderType: Text, x: OpenAdjusting, cs: seq<Condition>) {
    if dv < 102 then
      && x == OpenAdjusting(Benchmark(0, false, 0, 0, []), [], false, false, AdjustedTerms([], 0, 0, 0, 0, 0, 0, 0))
      && cs == []
    else
      && AllDecodable(fc, cs) && |cs| <= INT64_MAX && x.conditions == ZerosOf(cs)
      && (orderType != PEG_BENCH ==> x.peg == Benchmark(0, false, 0, 0, []))
      && (x.conditions == [] ==> !x.ignoreRth && !x.cancelOrder)
      && AllExact(fc, PegItems(orderType, x)) && AllExact(fc, AdjustedTermsItems(x.adjusted))
  }

  function AdjustingFieldsOf(fc: FloatCodec, dv: int, orderType: Text, x: OpenAdjusting, cs: seq<Condition>): seq<Field>
    requires |cs| <= INT64_MAX
  {
    if dv < 102 then []
    else Sent(fc, PegItems(orderType, x)) + ([FInt(|cs| as int64)] + (AllConditionFields(cs)
         + (Sent(fc, ConditionFlagItems(x)) + Sent(fc, AdjustedTermsItems(x.adjusted)))))
  }

  function FlatAdjusting(dv: int, orderType: Text, x: OpenAdjusting): Adjusting {
    if dv < 102 then Adjusting([], [], [], [])
    else Adjusting(Values(PegItems(orderType, x)), x.conditions, Values(ConditionFlagItems(x)),
                   Values(AdjustedTermsItems(x.adjusted)))
  }

  lemma AdjustingPieces(fc: FloatCodec, dv: int, orderType: Text, x: OpenAdjusting, cs: seq<Condition>)
    requires NaturalAdjusting(fc, dv, orderType, x, cs) && dv >= 102
    ensures Kinds(PegItems(orderType, x)) == On(orderType == PEG_BENCH, PEG)
    ensures PegRowOf(Values(PegItems(orderType, x))) == x.peg
    ensures Kinds(ConditionFlagItems(x)) == On(|cs| > 0, [KBool, KBool]) && AllExact(fc, ConditionFlagItems(x))
    ensures BoolOf(Values(ConditionFlagItems(x)), 0) == x.ignoreRth
    ensures BoolOf(Values(ConditionFlagItems(x)), 1) == x.cancelOrder
  {
    if orderType == PEG_BENCH { PegRowBack(x.peg); }
    hide AllDecodable, ZeroOf, AllExact, PegRowItems;
    assert AllExact(fc, ConditionFlagItems(x)) by { FlagsExact(fc, x); }
    assert Kinds([Flag(x.ignoreRth), Flag(x.cancelOrder)]) == [KBool, KBool];
  }

  lemma FlagsExact(fc: FloatCodec, x: OpenAdjusting)
    ensures AllExact(fc, ConditionFlagItems(x))
  {
  }

  lemma AdjustingBack(fc: FloatCodec, dv: int, orderType: Text, x: OpenAdjusting, cs: seq<Condition>)
    requires NaturalAdjusting(fc, dv, orderType, x, cs)
    ensures FineAdjusting(fc, dv, orderType, FlatAdjusting(dv, orderType, x), cs) && |cs| <= INT64_MAX
    ensures OpenAdjustingOf(FlatAdjusting(dv, orderType, x)) == x
    ensures AdjustingPart(fc, dv, orderType, FlatAdjusting(dv, orderType, x), cs)
            == AdjustingFieldsOf(fc, dv, orderType, x, cs)
  {
    if dv >= 102 {
      hide Kinds, Values, Sent, AllExact, PegItems, ConditionFlagItems, AdjustedTermsItems, Fine, Written, On, PegRowOf;
      hide AdjustedTermsOf, BoolOf, AllDecodable, ZerosOf, AllConditionFields;
      AdjustingPieces(fc, dv, orderType, x, cs);
      AdjustedTermsBack(x.adjusted);
      FineItems(fc, On(orderType == PEG_BENCH, PEG), PegItems(orderType, x));
      FineItems(fc, On(|cs| > 0, [KBool, KBool]), ConditionFlagItems(x));
      FineItems(fc, ADJUSTED_READS, AdjustedTermsItems(x.adjusted));
    }
  }

  // ---------------------------------------------------------------- the whole order

  /** The attributes that neither version sends have Go's zero values, floats that are sent have ten digits, and the
      lists' lengths are Go ints. */
  ghost predicate Natural(fc: FloatCodec, dv: int, s: Sheet, cs: seq<Condition>, skipped: Skipped) {
    NaturalFront(fc, dv, s, skipped) && NaturalBack(fc, dv, s, cs)
  }

  ghost predicate NaturalFront(fc: FloatCodec, dv: int, s: Sheet, skipped: Skipped) {
    var v := s.version;
    && (if dv < 145 then INT64_MIN <= v <= INT64_MAX else v == dv)
    && NaturalTerms(dv, v, s.terms) && AllExact(fc, OpenTermsItems(v, s.terms))
    && NaturalPrices(dv, v, s.prices) && AllExact(fc, OpenPricesItems(dv, v, s.prices, skipped))
    && NaturalVol(v, s.vol) && AllExact(fc, DnItems(v, s.vol)) && AllExact(fc, TrailPartItems(v, s.vol))
    && NaturalGroups(fc, v, s.groups) && NaturalScale(fc, v, s.scale) && NaturalHedge(v, s.hedgeType, s.hedgeParam)
    && NaturalFlags(v, s.flags)
  }

  ghost predicate NaturalBack(fc: FloatCodec, dv: int, s: Sheet, cs: seq<Condition>) {
    var v := s.version;
    && NaturalNeutral(fc, v, s.neutral) && NaturalAlgo(v, s.algoStrategy, s.algoParams)
    && NaturalState(dv, v, s.state) && AllExact(fc, OpenStateItems(dv, v, s.state))
    && NaturalAdjusting(fc, dv, s.orderType, s.adjusting, cs) && |cs| <= INT64_MAX
    && NaturalTail(dv, s.tail) && AllExact(fc, OpenTailItems(dv, s.tail))
  }

  /** The message, field by field. */
  ghost function SheetFields(fc: FloatCodec, dv: int, s: Sheet, cs: seq<Condition>, skipped: Skipped): seq<Field>
    requires Natural(fc, dv, s, cs, skipped)
  {
    SheetFrontFields(fc, dv, s, skipped) + SheetBackFields(fc, dv, s, cs)
  }

  ghost function SheetFrontFields(fc: FloatCodec, dv: int, s: Sheet, skipped: Skipped): seq<Field>
    requires NaturalFront(fc, dv, s, skipped)
  {
    var v := s.version;
    HeadFieldsOf(fc, dv, s, skipped) + (VolFieldsOf(fc, v, s.vol) + (GroupsFields(fc, v, s.groups)
    + (ScaleFieldsOf(fc, v, s.scale) + (HedgeFieldsOf(v, s.hedgeType, s.hedgeParam)
    + Sent(fc, OpenFlagsItems(v, s.flags))))))
  }

  function HeadFieldsOf(fc: FloatCodec, dv: int, s: Sheet, skipped: Skipped): seq<Field>
    requires dv < 145 ==> INT64_MIN <= s.version <= INT64_MAX
  {
    (if dv < 145 then [FInt(s.version as int64)] else []) + (Sent(fc, OpenTermsItems(s.version, s.terms))
    + ([FStr(s.orderType)] + Sent(fc, OpenPricesItems(dv, s.version, s.prices, skipped))))
  }

  function VolFieldsOf(fc: FloatCodec, version: int, x: OpenVol): seq<Field> {
    [FStr(x.dnType)] + (Sent(fc, DnItems(version, x)) + Sent(fc, TrailPartItems(version, x)))
  }

  ghost function SheetBackFields(fc: FloatCodec, dv: int, s: Sheet, cs: seq<Condition>): seq<Field>
    requires NaturalBack(fc, dv, s, cs)
  {
    var v := s.version;
    NeutralFieldsOf(fc, v, s.neutral) + (AlgoFieldsOf(fc, v, s.algoStrategy, s.algoParams)
    + (Sent(fc, OpenStateItems(dv, v, s.state)) + (AdjustingFieldsOf(fc, dv, s.orderType, s.adjusting, cs)
    + Sent(fc, OpenTailItems(dv, s.tail)))))
  }

  function FlatHead(dv: int, s: Sheet, skipped: Skipped): Head {
    Head(s.version, Values(OpenTermsItems(s.version, s.terms)), s.orderType,
         Values(OpenPricesItems(dv, s.version, s.prices, skipped)))
  }

  function Flat(dv: int, s: Sheet, skipped: Skipped): OpenOrder {
    var v := s.version;
    OpenOrder(FlatHead(dv, s, skipped), FlatVol(v, s.vol), FlatGroups(s.groups), FlatScale(v, s.scale),
              FlatHedge(s.hedgeType, s.hedgeParam), Values(OpenFlagsItems(v, s.flags)), FlatNeutral(s.neutral),
              FlatAlgo(s.algoStrategy, s.algoParams), Values(OpenStateItems(dv, v, s.state)),
              FlatAdjusting(dv, s.orderType, s.adjusting), Values(OpenTailItems(dv, s.tail)))
  }

  lemma HeadBack(fc: FloatCodec, dv: int, s: Sheet, skipped: Skipped)
    requires NaturalFront(fc, dv, s, skipped)
    ensures FineHead(fc, dv, FlatHead(dv, s, skipped))
    ensures HeadPart(fc, dv, FlatHead(dv, s, skipped)) == HeadFieldsOf(fc, dv, s, skipped)
    ensures OpenTermsOf(dv, s.version, FlatHead(dv, s, skipped).terms) == s.terms
    ensures OpenPricesOf(dv, s.version, FlatHead(dv, s, skipped).prices) == s.prices
  {
    hide Kinds, Values, Sent, AllExact, OpenTermsItems, OpenPricesItems, TermKinds, PriceKinds, Fine, Written;
    hide NaturalTerms, NaturalPrices, OpenTermsOf, OpenPricesOf, NaturalVol, NaturalGroups, NaturalScale, NaturalHedge;
    hide NaturalFlags, DnItems, TrailPartItems;
    var v := s.version;
    OpenTermsKinds(dv, v, s.terms);
    OpenTermsBack(dv, v, s.terms);
    OpenPricesParts(dv, v, s.prices, skipped);
    OpenPricesBack(dv, v, s.prices, skipped);
    FineItems(fc, TermKinds(dv, v), OpenTermsItems(v, s.terms));
    FineItems(fc, PriceKinds(dv, v), OpenPricesItems(dv, v, s.prices, skipped));
  }

  lemma VolBack(fc: FloatCodec, version: int, x: OpenVol)
    requires NaturalVol(version, x) && AllExact(fc, DnItems(version, x)) && AllExact(fc, TrailPartItems(version, x))
    ensures FineVol(fc, version, FlatVol(version, x)) && OpenVolOf(version, FlatVol(version, x)) == x
    ensures VolPart(fc, version, FlatVol(version, x)) == VolFieldsOf(fc, version, x)
  {
    hide Kinds, Values, Sent, AllExact, DnItems, TrailPartItems, DnKinds, TrailKinds, Fine, Written, OpenVolOf, Part;
    hide NaturalVol;
    OpenVolBack(version, x);
    DnBack(version, x);
    TrailPartBack(version, x);
    FineItems(fc, DnKinds(version, x.dnType), DnItems(version, x));
    FineItems(fc, TrailKinds(version), TrailPartItems(version, x));
  }

  lemma FrontFlat(fc: FloatCodec, dv: int, s: Sheet, cs: seq<Condition>, skipped: Skipped)
    requires Natural(fc, dv, s, cs, skipped) && FineOrder(fc, dv, Flat(dv, s, skipped), cs)
    ensures FrontFields(fc, dv, Flat(dv, s, skipped), cs) == SheetFrontFields(fc, dv, s, skipped)
  {
    var v := s.version;
    hide NaturalTerms, NaturalPrices, NaturalVol, NaturalGroups, NaturalScale, NaturalHedge, NaturalFlags, NaturalBack;
    hide Kinds, Values, Sent, AllExact, FlatHead, FlatVol, FlatGroups, FlatScale, FlatHedge, FlatNeutral, FlatAlgo;
    hide FlatAdjusting, FineHead, FineVol, FineGroups, FineScaling, FineHedging, FineNeutral, FineAlgorithm, Fine;
    hide FineAdjusting, HeadPart, VolPart, GroupsPart, ScalingPart, HedgingPart, Written, HeadFieldsOf, VolFieldsOf;
    hide GroupsFields, ScaleFieldsOf, HedgeFieldsOf, OpenFlagsItems, FlagKinds, StateKinds, TailKinds;
    HeadBack(fc, dv, s, skipped);
    VolBack(fc, v, s.vol);
    OpenGroupsBack(fc, v, s.groups);
    OpenScaleBack(fc, v, s.scale);
    HedgeBack(fc, v, s.hedgeType, s.hedgeParam);
    FlagsFine(fc, v, s.flags);
    FlatParts(dv, s, skipped);
  }

  lemma FlagsFine(fc: FloatCodec, version: int, x: OpenFlags)
    requires NaturalFlags(version, x)
    ensures Fine(fc, FlagKinds(version), Values(OpenFlagsItems(version, x)))
    ensures Written(fc, FlagKinds(version), Values(OpenFlagsItems(version, x))) == Sent(fc, OpenFlagsItems(version, x))
  {
    assert AllExact(fc, OpenFlagsItems(version, x));
    OpenFlagsBack(version, x);
    hide OpenFlagsItems, FlagKinds, Values, Kinds, Sent, Fine, Written, AllExact, OpenFlagsOf;
    FineItems(fc, FlagKinds(version), OpenFlagsItems(version, x));
  }

  lemma FlatParts(dv: int, s: Sheet, skipped: Skipped)
    ensures var x, v := Flat(dv, s, skipped), s.version;
            && x.head == FlatHead(dv, s, skipped) && x.head.version == v && x.head.orderType == s.orderType
            && x.vol == FlatVol(v, s.vol) && x.groups == FlatGroups(s.groups) && x.scaling == FlatScale(v, s.scale)
            && x.hedging == FlatHedge(s.hedgeType, s.hedgeParam) && x.flags == Values(OpenFlagsItems(v, s.flags))
            && x.neutral == FlatNeutral(s.neutral) && x.algo == FlatAlgo(s.algoStrategy, s.algoParams)
            && x.state == Values(OpenStateItems(dv, v, s.state))
            && x.adjusting == FlatAdjusting(dv, s.orderType, s.adjusting)
            && x.tail == Values(OpenTailItems(dv, s.tail))
  {
  }

  lemma StateFine(fc: FloatCodec, dv: int, version: int, x: OpenState)
    requires NaturalState(dv, version, x) && AllExact(fc, OpenStateItems(dv, version, x))
    ensures var items := OpenStateItems(dv, version, x);
            && Fine(fc, StateKinds(dv, version), Values(items))
            && Written(fc, StateKinds(dv, version), Values(items)) == Sent(fc, items)
  {
    hide OpenStateItems, StateKinds, Values, Kinds, Sent, Fine, Written, AllExact;
    OpenStateParts(dv, version, x);
    FineItems(fc, StateKinds(dv, version), OpenStateItems(dv, version, x));
  }

  lemma TailFine(fc: FloatCodec, dv: int, x: OpenTail)
    requires NaturalTail(dv, x) && AllExact(fc, OpenTailItems(dv, x))
    ensures Fine(fc, TailKinds(dv), Values(OpenTailItems(dv, x)))
    ensures Written(fc, TailKinds(dv), Values(OpenTailItems(dv, x))) == Sent(fc, OpenTailItems(dv, x))
  {
    hide OpenTailItems, TailKinds, Values, Kinds, Sent, Fine, Written, AllExact;
    OpenTailBack(dv, x);
    FineItems(fc, TailKinds(dv), OpenTailItems(dv, x));
  }

  lemma BackFlat(fc: FloatCodec, dv: int, s: Sheet, cs: seq<Condition>, skipped: Skipped)
    requires Natural(fc, dv, s, cs, skipped) && FineOrder(fc, dv, Flat(dv, s, skipped), cs)
    ensures BackFields(fc, dv, Flat(dv, s, skipped), cs) == SheetBackFields(fc, dv, s, cs)
  {
    var v := s.version;
    hide NaturalNeutral, NaturalAlgo, NaturalState, NaturalAdjusting, NaturalTail, NaturalFront;
    hide Kinds, Values, Sent, AllExact, FlatHead, FlatVol, FlatGroups, FlatScale, FlatHedge, FlatNeutral, FlatAlgo;
    hide FlatAdjusting, FineHead, FineVol, FineGroups, FineScaling, FineHedging, FineNeutral, FineAlgorithm, Fine;
    hide FineAdjusting, NeutralPart, AlgorithmPart, AdjustingPart, Written, NeutralFieldsOf, AlgoFieldsOf;
    hide AdjustingFieldsOf, OpenStateItems, OpenTailItems, FlagKinds, StateKinds, TailKinds;
    NeutralBack(fc, v, s.neutral);
    AlgoBack(fc, v, s.algoStrategy, s.algoParams);
    StateFine(fc, dv, v, s.state);
    AdjustingBack(fc, dv, s.orderType, s.adjusting, cs);
    TailFine(fc, dv, s.tail);
    FlatParts(dv, s, skipped);
  }

  lemma FlatIsFine(fc: FloatCodec, dv: int, s: Sheet, cs: seq<Condition>, skipped: Skipped)
    requires Natural(fc, dv, s, cs, skipped)
    ensures FineOrder(fc, dv, Flat(dv, s, skipped), cs)
  {
    var v := s.version;
    hide NaturalTerms, NaturalPrices, NaturalVol, NaturalGroups, NaturalScale, NaturalHedge, NaturalFlags;
    hide NaturalNeutral, NaturalAlgo, NaturalState, NaturalAdjusting, NaturalTail;
    hide Kinds, Values, Sent, AllExact, FlatHead, FlatVol, FlatGroups, FlatScale, FlatHedge, FlatNeutral, FlatAlgo;
    hide FlatAdjusting, FineHead, FineVol, FineGroups, FineScaling, FineHedging, FineNeutral, FineAlgorithm, Fine;
    hide FineAdjusting, FlagKinds, StateKinds, TailKinds, Written, HeadPart, VolPart, GroupsPart, ScalingPart;
    hide HedgingPart, NeutralPart, AlgorithmPart, AdjustingPart;
    HeadBack(fc, dv, s, skipped);
    VolBack(fc, v, s.vol);
    OpenGroupsBack(fc, v, s.groups);
    OpenScaleBack(fc, v, s.scale);
    HedgeBack(fc, v, s.hedgeType, s.hedgeParam);
    FlagsFine(fc, v, s.flags);
    NeutralBack(fc, v, s.neutral);
    AlgoBack(fc, v, s.algoStrategy, s.algoParams);
    StateFine(fc, dv, v, s.state);
    AdjustingBack(fc, dv, s.orderType, s.adjusting, cs);
    TailFine(fc, dv, s.tail);
    FlatParts(dv, s, skipped);
  }

  lemma FrontIsSheet(fc: FloatCodec, dv: int, s: Sheet, skipped: Skipped, x: OpenOrder, y: Sheet)
    requires NaturalFront(fc, dv, s, skipped) && x == Flat(dv, s, skipped) && y == SheetOf(dv, x)
    ensures y.version == s.version && y.terms == s.terms && y.orderType == s.orderType && y.prices == s.prices
    ensures y.vol == s.vol && y.groups == s.groups && y.scale == s.scale && y.hedgeType == s.hedgeType
    ensures y.hedgeParam == s.hedgeParam && y.flags == s.flags
  {
    NaturalFrontParts(fc, dv, s, skipped);
    hide *;
    var v := s.version;
    FlatParts(dv, s, skipped);
    FlatKinds(v, s);
    OpenOrderSheet.SheetHead(dv, x);
    OpenOrderSheet.SheetFront(dv, x);
    HeadBack(fc, dv, s, skipped);
    VolBack(fc, v, s.vol);
    OpenGroupsBack(fc, v, s.groups);
    OpenScaleBack(fc, v, s.scale);
    HedgeBack(fc, v, s.hedgeType, s.hedgeParam);
    OpenFlagsBack(v, s.flags);
  }

  lemma NaturalFrontParts(fc: FloatCodec, dv: int, s: Sheet, skipped: Skipped)
    requires NaturalFront(fc, dv, s, skipped)
    ensures var v := s.version;
            && NaturalVol(v, s.vol) && AllExact(fc, DnItems(v, s.vol)) && AllExact(fc, TrailPartItems(v, s.vol))
            && NaturalGroups(fc, v, s.groups) && NaturalScale(fc, v, s.scale)
            && NaturalHedge(v, s.hedgeType, s.hedgeParam) && NaturalFlags(v, s.flags)
  {
  }

  lemma FlatKinds(version: int, s: Sheet)
    ensures FlatHedge(s.hedgeType, s.hedgeParam).kind == s.hedgeType
    ensures FlatAlgo(s.algoStrategy, s.algoParams).strategy == s.algoStrategy
  {
  }

  lemma BackIsSheet(fc: FloatCodec, dv: int, s: Sheet, cs: seq<Condition>, skipped: Skipped, x: OpenOrder, y: Sheet)
    requires NaturalBack(fc, dv, s, cs) && x == Flat(dv, s, skipped) && y == SheetOf(dv, x)
    ensures y.neutral == s.neutral && y.algoStrategy == s.algoStrategy && y.algoParams == s.algoParams
    ensures y.state == s.state && y.adjusting == s.adjusting && y.tail == s.tail
  {
    NaturalBackParts(fc, dv, s, cs);
    hide *;
    var v := s.version;
    FlatParts(dv, s, skipped);
    FlatKinds(v, s);
    OpenOrderSheet.SheetBack(dv, x);
    NeutralBack(fc, v, s.neutral);
    AlgoBack(fc, v, s.algoStrategy, s.algoParams);
    OpenStateBack(dv, v, s.state);
    AdjustingBack(fc, dv, s.orderType, s.adjusting, cs);
    OpenTailBack(dv, s.tail);
  }

  lemma NaturalBackParts(fc: FloatCodec, dv: int, s: Sheet, cs: seq<Condition>)
    requires NaturalBack(fc, dv, s, cs)
    ensures var v := s.version;
            && NaturalNeutral(fc, v, s.neutral) && NaturalAlgo(v, s.algoStrategy, s.algoParams)
            && NaturalState(dv, v, s.state) && NaturalAdjusting(fc, dv, s.orderType, s.adjusting, cs)
            && NaturalTail(dv, s.tail)
  {
  }

  /** The attributes come back from their values. */
  lemma FlatIsSheet(fc: FloatCodec, dv: int, s: Sheet, cs: seq<Condition>, skipped: Skipped)
    requires Natural(fc, dv, s, cs, skipped)
    ensures SheetOf(dv, Flat(dv, s, skipped)) == s
  {
    hide NaturalFront, NaturalBack, Flat, SheetOf;
    FrontIsSheet(fc, dv, s, skipped, Flat(dv, s, skipped), SheetOf(dv, Flat(dv, s, skipped)));
    BackIsSheet(fc, dv, s, cs, skipped, Flat(dv, s, skipped), SheetOf(dv, Flat(dv, s, skipped)));
  }

  lemma FlatIsWritten(fc: FloatCodec, dv: int, s: Sheet, cs: seq<Condition>, skipped: Skipped)
    requires Natural(fc, dv, s, cs, skipped) && FineOrder(fc, dv, Flat(dv, s, skipped), cs)
    ensures OpenOrderFields(fc, dv, Flat(dv, s, skipped), cs) == SheetFields(fc, dv, s, cs, skipped)
  {
    hide FineOrder, NaturalFront, NaturalBack, Flat, FrontFields, BackFields, SheetFrontFields, SheetBackFields;
    FrontAndBack(fc, dv, Flat(dv, s, skipped), cs);
    FrontFlat(fc, dv, s, cs, skipped);
    BackFlat(fc, dv, s, cs, skipped);
  }

  /** Any open order, for any server and message version, flags and lists, written field by field from its attributes is
      read, the decoder stops exactly at its end, and the callback gets the attributes that were written. */
  lemma SheetReadsBack(fc: FloatCodec, dv: int, s: Sheet, cs: seq<Condition>, skipped: Skipped, ts: seq<Text>, pos: nat)
    requires fc.Valid() && Natural(fc, dv, s, cs, skipped)
    requires Here(ts, pos, RenderAll(fc, SheetFields(fc, dv, s, cs, skipped)))
    ensures OpenOrderAt(fc, dv, ts, pos)
            == Success(At(Flat(dv, s, skipped), pos + |SheetFields(fc, dv, s, cs, skipped)|))
    ensures SheetOf(dv, Flat(dv, s, skipped)) == s
  {
    hide *;
    FlatIsFine(fc, dv, s, cs, skipped);
    FlatIsSheet(fc, dv, s, cs, skipped);
    FlatIsWritten(fc, dv, s, cs, skipped);
    OpenOrderReadsBack(fc, dv, Flat(dv, s, skipped), cs, ts, pos);
  }
}
