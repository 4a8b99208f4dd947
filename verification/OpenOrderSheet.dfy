/** processOpenOrder, attribute by attribute: which field of the message each attribute of the decoded order is, and
    with which reader. The positions are spelled out, for both versions, every flag and every list length. */
module OpenOrderSheet {
  import opened Basics
  import opened Fields
  import opened Cursor
  import opened Conditions
  import opened Items
  import opened OrderLayout
  import opened Orders
  import opened OpenOrder
  import opened Versions

  // ---------------------------------------------------------------- blocks without gates

  /** OrderID .. Right. */
  datatype Identity = Identity(orderID: int64, contractID: int64, symbol: Text, secType: Text, expiry: Text,
                               strike: Float, right: Text)

  function IdentityOf(vs: seq<Value>): Identity {
    Identity(IntOf(vs, 0), IntOf(vs, 1), TextOf(vs, 2), TextOf(vs, 3), TextOf(vs, 4), FloatOf(vs, 5), TextOf(vs, 6))
  }

  /** What is read at position p. */
  predicate IdentityAt(fc: FloatCodec, x: Identity, ts: seq<Text>, p: nat) {
    && IntAt(ts, p) == Success(x.orderID) && IntAt(ts, p + 1) == Success(x.contractID)
    && TextAt(ts, p + 2) == Success(x.symbol) && TextAt(ts, p + 3) == Success(x.secType)
    && TextAt(ts, p + 4) == Success(x.expiry) && FloatAt(fc, ts, p + 5) == Success(x.strike)
    && TextAt(ts, p + 6) == Success(x.right)
  }

  lemma IdentityRead(fc: FloatCodec, vs: seq<Value>, ts: seq<Text>, p: nat, end: nat)
    requires BlockAt(fc, IDENTITY_READS, ts, p) == Success(At(vs, end))
    ensures IdentityAt(fc, IdentityOf(vs), ts, p)
  {
    hide BlockAt, IntAt, IntUnsetAt, FloatAt, FloatUnsetAt, TextAt, BoolAt, IntOf, FloatOf, TextOf, BoolOf;
    Picked(fc, IDENTITY_READS, ts, p, 0);
    Picked(fc, IDENTITY_READS, ts, p, 1);
    Picked(fc, IDENTITY_READS, ts, p, 2);
    Picked(fc, IDENTITY_READS, ts, p, 3);
    Picked(fc, IDENTITY_READS, ts, p, 4);
    Picked(fc, IDENTITY_READS, ts, p, 5);
    Picked(fc, IDENTITY_READS, ts, p, 6);
  }

  /** Exchange, Currency, LocalSymbol. */
  datatype Venue = Venue(exchange: Text, currency: Text, localSymbol: Text)

  function VenueOf(vs: seq<Value>): Venue {
    Venue(TextOf(vs, 0), TextOf(vs, 1), TextOf(vs, 2))
  }

  /** What is read at position p. */
  predicate VenueAt(fc: FloatCodec, x: Venue, ts: seq<Text>, p: nat) {
    && TextAt(ts, p) == Success(x.exchange) && TextAt(ts, p + 1) == Success(x.currency)
    && TextAt(ts, p + 2) == Success(x.localSymbol)
  }

  lemma VenueRead(fc: FloatCodec, vs: seq<Value>, ts: seq<Text>, p: nat, end: nat)
    requires BlockAt(fc, VENUE_READS, ts, p) == Success(At(vs, end))
    ensures VenueAt(fc, VenueOf(vs), ts, p)
  {
    hide BlockAt, IntAt, IntUnsetAt, FloatAt, FloatUnsetAt, TextAt, BoolAt, IntOf, FloatOf, TextOf, BoolOf;
    Picked(fc, VENUE_READS, ts, p, 0);
    Picked(fc, VENUE_READS, ts, p, 1);
    Picked(fc, VENUE_READS, ts, p, 2);
  }

  /** TIF .. FAProfile; the shares allocation is skipped. */
  datatype Account = Account(tif: Text, ocaGroup: Text, account: Text, openClose: Text, origin: int64,
                             orderRef: Text, clientID: int64, permID: int64, outsideRth: bool, hidden: bool,
                             discretionaryAmount: Float, goodAfterTime: Text, faGroup: Text, faMethod: Text,
                             faPercentage: Text, faProfile: Text)

  function AccountOf(vs: seq<Value>): Account {
    Account(TextOf(vs, 0), TextOf(vs, 1), TextOf(vs, 2), TextOf(vs, 3), IntOf(vs, 4), TextOf(vs, 5), IntOf(vs, 6),
            IntOf(vs, 7), BoolOf(vs, 8), BoolOf(vs, 9), FloatOf(vs, 10), TextOf(vs, 11), TextOf(vs, 13),
            TextOf(vs, 14), TextOf(vs, 15), TextOf(vs, 16))
  }

  /** What is read at position p. */
  predicate AccountAt(fc: FloatCodec, x: Account, ts: seq<Text>, p: nat) {
    && TextAt(ts, p) == Success(x.tif) && TextAt(ts, p + 1) == Success(x.ocaGroup)
    && TextAt(ts, p + 2) == Success(x.account) && TextAt(ts, p + 3) == Success(x.openClose)
    && IntAt(ts, p + 4) == Success(x.origin) && TextAt(ts, p + 5) == Success(x.orderRef)
    && IntAt(ts, p + 6) == Success(x.clientID) && IntAt(ts, p + 7) == Success(x.permID)
    && BoolAt(ts, p + 8) == Success(x.outsideRth) && BoolAt(ts, p + 9) == Success(x.hidden)
    && FloatAt(fc, ts, p + 10) == Success(x.discretionaryAmount) && TextAt(ts, p + 11) == Success(x.goodAfterTime)
    && TextAt(ts, p + 13) == Success(x.faGroup) && TextAt(ts, p + 14) == Success(x.faMethod)
    && TextAt(ts, p + 15) == Success(x.faPercentage) && TextAt(ts, p + 16) == Success(x.faProfile)
  }

  lemma AccountRead(fc: FloatCodec, vs: seq<Value>, ts: seq<Text>, p: nat, end: nat)
    requires BlockAt(fc, ACCOUNT_READS, ts, p) == Success(At(vs, end))
    ensures AccountAt(fc, AccountOf(vs), ts, p)
  {
    hide BlockAt, IntAt, IntUnsetAt, FloatAt, FloatUnsetAt, TextAt, BoolAt, IntOf, FloatOf, TextOf, BoolOf;
    Picked(fc, ACCOUNT_READS, ts, p, 0);
    Picked(fc, ACCOUNT_READS, ts, p, 1);
    Picked(fc, ACCOUNT_READS, ts, p, 2);
    Picked(fc, ACCOUNT_READS, ts, p, 3);
    Picked(fc, ACCOUNT_READS, ts, p, 4);
    Picked(fc, ACCOUNT_READS, ts, p, 5);
    Picked(fc, ACCOUNT_READS, ts, p, 6);
    Picked(fc, ACCOUNT_READS, ts, p, 7);
    Picked(fc, ACCOUNT_READS, ts, p, 8);
    Picked(fc, ACCOUNT_READS, ts, p, 9);
    Picked(fc, ACCOUNT_READS, ts, p, 10);
    Picked(fc, ACCOUNT_READS, ts, p, 11);
    Picked(fc, ACCOUNT_READS, ts, p, 13);
    Picked(fc, ACCOUNT_READS, ts, p, 14);
    Picked(fc, ACCOUNT_READS, ts, p, 15);
    Picked(fc, ACCOUNT_READS, ts, p, 16);
  }

  /** GoodTillDate .. DesignatedLocation. */
  datatype ShortSale = ShortSale(goodTillDate: Text, rule80A: Text, percentOffset: Float, settlingFirm: Text,
                                 shortSaleSlot: int64, designatedLocation: Text)

  function ShortSaleOf(vs: seq<Value>): ShortSale {
    ShortSale(TextOf(vs, 0), TextOf(vs, 1), FloatOf(vs, 2), TextOf(vs, 3), IntOf(vs, 4), TextOf(vs, 5))
  }

  /** What is read at position p. */
  predicate ShortSaleAt(fc: FloatCodec, x: ShortSale, ts: seq<Text>, p: nat) {
    && TextAt(ts, p) == Success(x.goodTillDate) && TextAt(ts, p + 1) == Success(x.rule80A)
    && FloatUnsetAt(fc, ts, p + 2) == Success(x.percentOffset) && TextAt(ts, p + 3) == Success(x.settlingFirm)
    && IntAt(ts, p + 4) == Success(x.shortSaleSlot) && TextAt(ts, p + 5) == Success(x.designatedLocation)
  }

  lemma ShortSaleRead(fc: FloatCodec, vs: seq<Value>, ts: seq<Text>, p: nat, end: nat)
    requires BlockAt(fc, SHORT_SALE_READS, ts, p) == Success(At(vs, end))
    ensures ShortSaleAt(fc, ShortSaleOf(vs), ts, p)
  {
    hide BlockAt, IntAt, IntUnsetAt, FloatAt, FloatUnsetAt, TextAt, BoolAt, IntOf, FloatOf, TextOf, BoolOf;
    Picked(fc, SHORT_SALE_READS, ts, p, 0);
    Picked(fc, SHORT_SALE_READS, ts, p, 1);
    Picked(fc, SHORT_SALE_READS, ts, p, 2);
    Picked(fc, SHORT_SALE_READS, ts, p, 3);
    Picked(fc, SHORT_SALE_READS, ts, p, 4);
    Picked(fc, SHORT_SALE_READS, ts, p, 5);
  }

  /** AuctionStrategy .. StockRangeUpper. */
  datatype Box = Box(auctionStrategy: int64, startingPrice: Float, stockRefPrice: Float, delta: Float,
                     stockRangeLower: Float, stockRangeUpper: Float)

  function BoxOf(vs: seq<Value>): Box {
    Box(IntOf(vs, 0), FloatOf(vs, 1), FloatOf(vs, 2), FloatOf(vs, 3), FloatOf(vs, 4), FloatOf(vs, 5))
  }

  /** What is read at position p. */
  predicate BoxAt(fc: FloatCodec, x: Box, ts: seq<Text>, p: nat) {
    && IntAt(ts, p) == Success(x.auctionStrategy) && FloatUnsetAt(fc, ts, p + 1) == Success(x.startingPrice)
    && FloatUnsetAt(fc, ts, p + 2) == Success(x.stockRefPrice) && FloatUnsetAt(fc, ts, p + 3) == Success(x.delta)
    && FloatUnsetAt(fc, ts, p + 4) == Success(x.stockRangeLower)
    && FloatUnsetAt(fc, ts, p + 5) == Success(x.stockRangeUpper)
  }

  lemma BoxRead(fc: FloatCodec, vs: seq<Value>, ts: seq<Text>, p: nat, end: nat)
    requires BlockAt(fc, BOX_READS, ts, p) == Success(At(vs, end))
    ensures BoxAt(fc, BoxOf(vs), ts, p)
  {
    hide BlockAt, IntAt, IntUnsetAt, FloatAt, FloatUnsetAt, TextAt, BoolAt, IntOf, FloatOf, TextOf, BoolOf;
    Picked(fc, BOX_READS, ts, p, 0);
    Picked(fc, BOX_READS, ts, p, 1);
    Picked(fc, BOX_READS, ts, p, 2);
    Picked(fc, BOX_READS, ts, p, 3);
    Picked(fc, BOX_READS, ts, p, 4);
    Picked(fc, BOX_READS, ts, p, 5);
  }

  /** DisplaySize .. OCAType. */
  datatype Display = Display(displaySize: int64, blockOrder: bool, sweepToFill: bool, allOrNone: bool, minQty: int64,
                             ocaType: int64)

  function DisplayOf(vs: seq<Value>): Display {
    Display(IntOf(vs, 0), BoolOf(vs, 1), BoolOf(vs, 2), BoolOf(vs, 3), IntOf(vs, 4), IntOf(vs, 5))
  }

  /** What is read at position p. */
  predicate DisplayAt(fc: FloatCodec, x: Display, ts: seq<Text>, p: nat) {
    && IntAt(ts, p) == Success(x.displaySize) && BoolAt(ts, p + 1) == Success(x.blockOrder)
    && BoolAt(ts, p + 2) == Success(x.sweepToFill) && BoolAt(ts, p + 3) == Success(x.allOrNone)
    && IntUnsetAt(ts, p + 4) == Success(x.minQty) && IntAt(ts, p + 5) == Success(x.ocaType)
  }

  lemma DisplayRead(fc: FloatCodec, vs: seq<Value>, ts: seq<Text>, p: nat, end: nat)
    requires BlockAt(fc, DISPLAY_READS, ts, p) == Success(At(vs, end))
    ensures DisplayAt(fc, DisplayOf(vs), ts, p)
  {
    hide BlockAt, IntAt, IntUnsetAt, FloatAt, FloatUnsetAt, TextAt, BoolAt, IntOf, FloatOf, TextOf, BoolOf;
    Picked(fc, DISPLAY_READS, ts, p, 0);
    Picked(fc, DISPLAY_READS, ts, p, 1);
    Picked(fc, DISPLAY_READS, ts, p, 2);
    Picked(fc, DISPLAY_READS, ts, p, 3);
    Picked(fc, DISPLAY_READS, ts, p, 4);
    Picked(fc, DISPLAY_READS, ts, p, 5);
  }

  /** ETradeOnly .. VolatilityType. */
  datatype VolTerms = VolTerms(eTradeOnly: bool, firmQuoteOnly: bool, nbboPriceCap: Float, parentID: int64,
                               triggerMethod: int64, volatility: Float, volatilityType: int64)

  function VolTermsOf(vs: seq<Value>): VolTerms {
    VolTerms(BoolOf(vs, 0), BoolOf(vs, 1), FloatOf(vs, 2), IntOf(vs, 3), IntOf(vs, 4), FloatOf(vs, 5), IntOf(vs, 6))
  }

  /** What is read at position p. */
  predicate VolTermsAt(fc: FloatCodec, x: VolTerms, ts: seq<Text>, p: nat) {
    && BoolAt(ts, p) == Success(x.eTradeOnly) && BoolAt(ts, p + 1) == Success(x.firmQuoteOnly)
    && FloatUnsetAt(fc, ts, p + 2) == Success(x.nbboPriceCap) && IntAt(ts, p + 3) == Success(x.parentID)
    && IntAt(ts, p + 4) == Success(x.triggerMethod) && FloatUnsetAt(fc, ts, p + 5) == Success(x.volatility)
    && IntAt(ts, p + 6) == Success(x.volatilityType)
  }

  lemma VolTermsRead(fc: FloatCodec, vs: seq<Value>, ts: seq<Text>, p: nat, end: nat)
    requires BlockAt(fc, VOLATILITY_READS, ts, p) == Success(At(vs, end))
    ensures VolTermsAt(fc, VolTermsOf(vs), ts, p)
  {
    hide BlockAt, IntAt, IntUnsetAt, FloatAt, FloatUnsetAt, TextAt, BoolAt, IntOf, FloatOf, TextOf, BoolOf;
    Picked(fc, VOLATILITY_READS, ts, p, 0);
    Picked(fc, VOLATILITY_READS, ts, p, 1);
    Picked(fc, VOLATILITY_READS, ts, p, 2);
    Picked(fc, VOLATILITY_READS, ts, p, 3);
    Picked(fc, VOLATILITY_READS, ts, p, 4);
    Picked(fc, VOLATILITY_READS, ts, p, 5);
    Picked(fc, VOLATILITY_READS, ts, p, 6);
  }

  /** The margins before the order and their changes. */
  datatype Margins = Margins(initBefore: Text, maintBefore: Text, equityBefore: Text, initChange: Text,
                             maintChange: Text, equityChange: Text)

  function MarginsOf(vs: seq<Value>): Margins {
    Margins(TextOf(vs, 0), TextOf(vs, 1), TextOf(vs, 2), TextOf(vs, 3), TextOf(vs, 4), TextOf(vs, 5))
  }

  /** What is read at position p. */
  predicate MarginsAt(fc: FloatCodec, x: Margins, ts: seq<Text>, p: nat) {
    && TextAt(ts, p) == Success(x.initBefore) && TextAt(ts, p + 1) == Success(x.maintBefore)
    && TextAt(ts, p + 2) == Success(x.equityBefore) && TextAt(ts, p + 3) == Success(x.initChange)
    && TextAt(ts, p + 4) == Success(x.maintChange) && TextAt(ts, p + 5) == Success(x.equityChange)
  }

  lemma MarginsRead(fc: FloatCodec, vs: seq<Value>, ts: seq<Text>, p: nat, end: nat)
    requires BlockAt(fc, MARGIN_READS, ts, p) == Success(At(vs, end))
    ensures MarginsAt(fc, MarginsOf(vs), ts, p)
  {
    hide BlockAt, IntAt, IntUnsetAt, FloatAt, FloatUnsetAt, TextAt, BoolAt, IntOf, FloatOf, TextOf, BoolOf;
    Picked(fc, MARGIN_READS, ts, p, 0);
    Picked(fc, MARGIN_READS, ts, p, 1);
    Picked(fc, MARGIN_READS, ts, p, 2);
    Picked(fc, MARGIN_READS, ts, p, 3);
    Picked(fc, MARGIN_READS, ts, p, 4);
    Picked(fc, MARGIN_READS, ts, p, 5);
  }

  /** InitialMarginAfter .. WarningText. */
  datatype Commissions = Commissions(initAfter: Text, maintAfter: Text, equityAfter: Text, commission: Float,
                                     minCommission: Float, maxCommission: Float, currency: Text, warning: Text)

  function CommissionsOf(vs: seq<Value>): Commissions {
    Commissions(TextOf(vs, 0), TextOf(vs, 1), TextOf(vs, 2), FloatOf(vs, 3), FloatOf(vs, 4), FloatOf(vs, 5),
                TextOf(vs, 6), TextOf(vs, 7))
  }

  /** What is read at position p. */
  predicate CommissionsAt(fc: FloatCodec, x: Commissions, ts: seq<Text>, p: nat) {
    && TextAt(ts, p) == Success(x.initAfter) && TextAt(ts, p + 1) == Success(x.maintAfter)
    && TextAt(ts, p + 2) == Success(x.equityAfter) && FloatUnsetAt(fc, ts, p + 3) == Success(x.commission)
    && FloatUnsetAt(fc, ts, p + 4) == Success(x.minCommission)
    && FloatUnsetAt(fc, ts, p + 5) == Success(x.maxCommission) && TextAt(ts, p + 6) == Success(x.currency)
    && TextAt(ts, p + 7) == Success(x.warning)
  }

  lemma CommissionsRead(fc: FloatCodec, vs: seq<Value>, ts: seq<Text>, p: nat, end: nat)
    requires BlockAt(fc, COMMISSION_READS, ts, p) == Success(At(vs, end))
    ensures CommissionsAt(fc, CommissionsOf(vs), ts, p)
  {
    hide BlockAt, IntAt, IntUnsetAt, FloatAt, FloatUnsetAt, TextAt, BoolAt, IntOf, FloatOf, TextOf, BoolOf;
    Picked(fc, COMMISSION_READS, ts, p, 0);
    Picked(fc, COMMISSION_READS, ts, p, 1);
    Picked(fc, COMMISSION_READS, ts, p, 2);
    Picked(fc, COMMISSION_READS, ts, p, 3);
    Picked(fc, COMMISSION_READS, ts, p, 4);
    Picked(fc, COMMISSION_READS, ts, p, 5);
    Picked(fc, COMMISSION_READS, ts, p, 6);
    Picked(fc, COMMISSION_READS, ts, p, 7);
  }

  /** AdjustedOrderType .. AdjustableTrailingUnit. */
  datatype AdjustedTerms = AdjustedTerms(orderType: Text, triggerPrice: Float, trailStopPrice: Float,
                                         limitPriceOffset: Float, stopPrice: Float, stopLimitPrice: Float,
                                         trailingAmount: Float, trailingUnit: int64)

  function AdjustedTermsOf(vs: seq<Value>): AdjustedTerms {
    AdjustedTerms(TextOf(vs, 0), FloatOf(vs, 1), FloatOf(vs, 2), FloatOf(vs, 3), FloatOf(vs, 4), FloatOf(vs, 5),
                  FloatOf(vs, 6), IntOf(vs, 7))
  }

  /** What is read at position p. */
  predicate AdjustedTermsAt(fc: FloatCodec, x: AdjustedTerms, ts: seq<Text>, p: nat) {
    && TextAt(ts, p) == Success(x.orderType) && FloatAt(fc, ts, p + 1) == Success(x.triggerPrice)
    && FloatAt(fc, ts, p + 2) == Success(x.trailStopPrice) && FloatAt(fc, ts, p + 3) == Success(x.limitPriceOffset)
    && FloatAt(fc, ts, p + 4) == Success(x.stopPrice) && FloatAt(fc, ts, p + 5) == Success(x.stopLimitPrice)
    && FloatAt(fc, ts, p + 6) == Success(x.trailingAmount) && IntAt(ts, p + 7) == Success(x.trailingUnit)
  }

  lemma AdjustedTermsRead(fc: FloatCodec, vs: seq<Value>, ts: seq<Text>, p: nat, end: nat)
    requires BlockAt(fc, ADJUSTED_READS, ts, p) == Success(At(vs, end))
    ensures AdjustedTermsAt(fc, AdjustedTermsOf(vs), ts, p)
  {
    hide BlockAt, IntAt, IntUnsetAt, FloatAt, FloatUnsetAt, TextAt, BoolAt, IntOf, FloatOf, TextOf, BoolOf;
    Picked(fc, ADJUSTED_READS, ts, p, 0);
    Picked(fc, ADJUSTED_READS, ts, p, 1);
    Picked(fc, ADJUSTED_READS, ts, p, 2);
    Picked(fc, ADJUSTED_READS, ts, p, 3);
    Picked(fc, ADJUSTED_READS, ts, p, 4);
    Picked(fc, ADJUSTED_READS, ts, p, 5);
    Picked(fc, ADJUSTED_READS, ts, p, 6);
    Picked(fc, ADJUSTED_READS, ts, p, 7);
  }

  /** ContinuousUpdate, ReferencePriceType, TrailStopPrice. */
  datatype Trail = Trail(continuousUpdate: bool, referencePriceType: int64, trailStopPrice: Float)

  function TrailOf(vs: seq<Value>): Trail {
    Trail(BoolOf(vs, 0), IntOf(vs, 1), FloatOf(vs, 2))
  }

  /** What is read at position p. */
  predicate TrailAt(fc: FloatCodec, x: Trail, ts: seq<Text>, p: nat) {
    && BoolAt(ts, p) == Success(x.continuousUpdate) && IntAt(ts, p + 1) == Success(x.referencePriceType)
    && FloatUnsetAt(fc, ts, p + 2) == Success(x.trailStopPrice)
  }

  lemma TrailRead(fc: FloatCodec, vs: seq<Value>, ts: seq<Text>, p: nat, end: nat)
    requires BlockAt(fc, [KBool, KInt, KFloatUnset], ts, p) == Success(At(vs, end))
    ensures TrailAt(fc, TrailOf(vs), ts, p)
  {
    hide BlockAt, IntAt, IntUnsetAt, FloatAt, FloatUnsetAt, TextAt, BoolAt, IntOf, FloatOf, TextOf, BoolOf;
    Picked(fc, [KBool, KInt, KFloatUnset], ts, p, 0);
    Picked(fc, [KBool, KInt, KFloatUnset], ts, p, 1);
    Picked(fc, [KBool, KInt, KFloatUnset], ts, p, 2);
  }

  /** BasisPoints, BasisPointsType, ComboLegsDescription. */
  datatype Basis = Basis(basisPoints: Float, basisPointsType: int64, comboLegsDescription: Text)

  function BasisOf(vs: seq<Value>): Basis {
    Basis(FloatOf(vs, 0), IntOf(vs, 1), TextOf(vs, 2))
  }

  /** What is read at position p. */
  predicate BasisAt(fc: FloatCodec, x: Basis, ts: seq<Text>, p: nat) {
    && FloatUnsetAt(fc, ts, p) == Success(x.basisPoints) && IntUnsetAt(ts, p + 1) == Success(x.basisPointsType)
    && TextAt(ts, p + 2) == Success(x.comboLegsDescription)
  }

  lemma BasisRead(fc: FloatCodec, vs: seq<Value>, ts: seq<Text>, p: nat, end: nat)
    requires BlockAt(fc, [KFloatUnset, KIntUnset, KStr], ts, p) == Success(At(vs, end))
    ensures BasisAt(fc, BasisOf(vs), ts, p)
  {
    hide BlockAt, IntAt, IntUnsetAt, FloatAt, FloatUnsetAt, TextAt, BoolAt, IntOf, FloatOf, TextOf, BoolOf;
    Picked(fc, [KFloatUnset, KIntUnset, KStr], ts, p, 0);
    Picked(fc, [KFloatUnset, KIntUnset, KStr], ts, p, 1);
    Picked(fc, [KFloatUnset, KIntUnset, KStr], ts, p, 2);
  }

  /** DeltaNeutralContractID .. DeltaNeutralClearingIntent. */
  datatype NeutralClearing = NeutralClearing(contractID: int64, settlingFirm: Text, clearingAccount: Text,
                                             clearingIntent: Text)

  function NeutralClearingOf(vs: seq<Value>): NeutralClearing {
    NeutralClearing(IntOf(vs, 0), TextOf(vs, 1), TextOf(vs, 2), TextOf(vs, 3))
  }

  /** What is read at position p. */
  predicate NeutralClearingAt(fc: FloatCodec, x: NeutralClearing, ts: seq<Text>, p: nat) {
    && IntAt(ts, p) == Success(x.contractID) && TextAt(ts, p + 1) == Success(x.settlingFirm)
    && TextAt(ts, p + 2) == Success(x.clearingAccount) && TextAt(ts, p + 3) == Success(x.clearingIntent)
  }

  lemma NeutralClearingRead(fc: FloatCodec, vs: seq<Value>, ts: seq<Text>, p: nat, end: nat)
    requires BlockAt(fc, DN_ORDER[..4], ts, p) == Success(At(vs, end))
    ensures NeutralClearingAt(fc, NeutralClearingOf(vs), ts, p)
  {
    hide BlockAt, IntAt, IntUnsetAt, FloatAt, FloatUnsetAt, TextAt, BoolAt, IntOf, FloatOf, TextOf, BoolOf;
    Picked(fc, DN_ORDER[..4], ts, p, 0);
    Picked(fc, DN_ORDER[..4], ts, p, 1);
    Picked(fc, DN_ORDER[..4], ts, p, 2);
    Picked(fc, DN_ORDER[..4], ts, p, 3);
  }

  /** DeltaNeutralOpenClose .. DeltaNeutralDesignatedLocation. */
  datatype NeutralShortSale = NeutralShortSale(openClose: Text, shortSale: bool, shortSaleSlot: int64,
                                               designatedLocation: Text)

  function NeutralShortSaleOf(vs: seq<Value>): NeutralShortSale {
    NeutralShortSale(TextOf(vs, 0), BoolOf(vs, 1), IntOf(vs, 2), TextOf(vs, 3))
  }

  /** What is read at position p. */
  predicate NeutralShortSaleAt(fc: FloatCodec, x: NeutralShortSale, ts: seq<Text>, p: nat) {
    && TextAt(ts, p) == Success(x.openClose) && BoolAt(ts, p + 1) == Success(x.shortSale)
    && IntAt(ts, p + 2) == Success(x.shortSaleSlot) && TextAt(ts, p + 3) == Success(x.designatedLocation)
  }

  lemma NeutralShortSaleRead(fc: FloatCodec, vs: seq<Value>, ts: seq<Text>, p: nat, end: nat)
    requires BlockAt(fc, DN_ORDER[4..], ts, p) == Success(At(vs, end))
    ensures NeutralShortSaleAt(fc, NeutralShortSaleOf(vs), ts, p)
  {
    hide BlockAt, IntAt, IntUnsetAt, FloatAt, FloatUnsetAt, TextAt, BoolAt, IntOf, FloatOf, TextOf, BoolOf;
    Picked(fc, DN_ORDER[4..], ts, p, 0);
    Picked(fc, DN_ORDER[4..], ts, p, 1);
    Picked(fc, DN_ORDER[4..], ts, p, 2);
    Picked(fc, DN_ORDER[4..], ts, p, 3);
  }

  /** A combo leg. */
  function LegRowOf(vs: seq<Value>): Leg {
    Leg(IntOf(vs, 0), IntOf(vs, 1), TextOf(vs, 2), TextOf(vs, 3), IntOf(vs, 4), IntOf(vs, 5), TextOf(vs, 6),
        IntOf(vs, 7))
  }

  /** What is read at position p. */
  predicate LegRowAt(fc: FloatCodec, x: Leg, ts: seq<Text>, p: nat) {
    && IntAt(ts, p) == Success(x.contractID) && IntAt(ts, p + 1) == Success(x.ratio)
    && TextAt(ts, p + 2) == Success(x.action) && TextAt(ts, p + 3) == Success(x.exchange)
    && IntAt(ts, p + 4) == Success(x.openClose) && IntAt(ts, p + 5) == Success(x.shortSaleSlot)
    && TextAt(ts, p + 6) == Success(x.designatedLocation) && IntAt(ts, p + 7) == Success(x.exemptCode)
  }

  lemma LegRowRead(fc: FloatCodec, vs: seq<Value>, ts: seq<Text>, p: nat, end: nat)
    requires BlockAt(fc, LEG, ts, p) == Success(At(vs, end))
    ensures LegRowAt(fc, LegRowOf(vs), ts, p)
  {
    hide BlockAt, IntAt, IntUnsetAt, FloatAt, FloatUnsetAt, TextAt, BoolAt, IntOf, FloatOf, TextOf, BoolOf;
    Picked(fc, LEG, ts, p, 0);
    Picked(fc, LEG, ts, p, 1);
    Picked(fc, LEG, ts, p, 2);
    Picked(fc, LEG, ts, p, 3);
    Picked(fc, LEG, ts, p, 4);
    Picked(fc, LEG, ts, p, 5);
    Picked(fc, LEG, ts, p, 6);
    Picked(fc, LEG, ts, p, 7);
  }

  /** ScalePriceAdjustValue .. ScaleRandomPercent. */
  function ScaleRowOf(vs: seq<Value>): ScaleTerms {
    ScaleTerms(FloatOf(vs, 0), IntOf(vs, 1), FloatOf(vs, 2), BoolOf(vs, 3), IntOf(vs, 4), IntOf(vs, 5), BoolOf(vs, 6))
  }

  /** What is read at position p. */
  predicate ScaleRowAt(fc: FloatCodec, x: ScaleTerms, ts: seq<Text>, p: nat) {
    && FloatUnsetAt(fc, ts, p) == Success(x.priceAdjustValue)
    && IntUnsetAt(ts, p + 1) == Success(x.priceAdjustInterval)
    && FloatUnsetAt(fc, ts, p + 2) == Success(x.profitOffset) && BoolAt(ts, p + 3) == Success(x.autoReset)
    && IntUnsetAt(ts, p + 4) == Success(x.initPosition) && IntUnsetAt(ts, p + 5) == Success(x.initFillQty)
    && BoolAt(ts, p + 6) == Success(x.randomPercent)
  }

  lemma ScaleRowRead(fc: FloatCodec, vs: seq<Value>, ts: seq<Text>, p: nat, end: nat)
    requires BlockAt(fc, SCALE_TERMS, ts, p) == Success(At(vs, end))
    ensures ScaleRowAt(fc, ScaleRowOf(vs), ts, p)
  {
    hide BlockAt, IntAt, IntUnsetAt, FloatAt, FloatUnsetAt, TextAt, BoolAt, IntOf, FloatOf, TextOf, BoolOf;
    Picked(fc, SCALE_TERMS, ts, p, 0);
    Picked(fc, SCALE_TERMS, ts, p, 1);
    Picked(fc, SCALE_TERMS, ts, p, 2);
    Picked(fc, SCALE_TERMS, ts, p, 3);
    Picked(fc, SCALE_TERMS, ts, p, 4);
    Picked(fc, SCALE_TERMS, ts, p, 5);
    Picked(fc, SCALE_TERMS, ts, p, 6);
  }

  /** The delta-neutral contract. */
  function NeutralRowOf(vs: seq<Value>): DeltaNeutral {
    DeltaNeutral(IntOf(vs, 0), FloatOf(vs, 1), FloatOf(vs, 2))
  }

  /** What is read at position p. */
  predicate NeutralRowAt(fc: FloatCodec, x: DeltaNeutral, ts: seq<Text>, p: nat) {
    && IntAt(ts, p) == Success(x.contractID) && FloatAt(fc, ts, p + 1) == Success(x.delta)
    && FloatAt(fc, ts, p + 2) == Success(x.price)
  }

  lemma NeutralRowRead(fc: FloatCodec, vs: seq<Value>, ts: seq<Text>, p: nat, end: nat)
    requires BlockAt(fc, DN_CONTRACT, ts, p) == Success(At(vs, end))
    ensures NeutralRowAt(fc, NeutralRowOf(vs), ts, p)
  {
    hide BlockAt, IntAt, IntUnsetAt, FloatAt, FloatUnsetAt, TextAt, BoolAt, IntOf, FloatOf, TextOf, BoolOf;
    Picked(fc, DN_CONTRACT, ts, p, 0);
    Picked(fc, DN_CONTRACT, ts, p, 1);
    Picked(fc, DN_CONTRACT, ts, p, 2);
  }

  /** The PEG BENCH block. */
  function PegRowOf(vs: seq<Value>): Benchmark {
    Benchmark(IntOf(vs, 0), BoolOf(vs, 1), FloatOf(vs, 2), FloatOf(vs, 3), TextOf(vs, 4))
  }

  /** What is read at position p. */
  predicate PegRowAt(fc: FloatCodec, x: Benchmark, ts: seq<Text>, p: nat) {
    && IntAt(ts, p) == Success(x.contractID) && BoolAt(ts, p + 1) == Success(x.isDecrease)
    && FloatAt(fc, ts, p + 2) == Success(x.changeAmount) && FloatAt(fc, ts, p + 3) == Success(x.referenceChange)
    && TextAt(ts, p + 4) == Success(x.exchangeID)
  }

  lemma PegRowRead(fc: FloatCodec, vs: seq<Value>, ts: seq<Text>, p: nat, end: nat)
    requires BlockAt(fc, PEG, ts, p) == Success(At(vs, end))
    ensures PegRowAt(fc, PegRowOf(vs), ts, p)
  {
    hide BlockAt, IntAt, IntUnsetAt, FloatAt, FloatUnsetAt, TextAt, BoolAt, IntOf, FloatOf, TextOf, BoolOf;
    Picked(fc, PEG, ts, p, 0);
    Picked(fc, PEG, ts, p, 1);
    Picked(fc, PEG, ts, p, 2);
    Picked(fc, PEG, ts, p, 3);
    Picked(fc, PEG, ts, p, 4);
  }

  /** A tag and its value. */
  function TagRowOf(vs: seq<Value>): TagValue {
    TagValue(TextOf(vs, 0), TextOf(vs, 1))
  }

  /** What is read at position p. */
  predicate TagRowAt(fc: FloatCodec, x: TagValue, ts: seq<Text>, p: nat) {
    && TextAt(ts, p) == Success(x.tag) && TextAt(ts, p + 1) == Success(x.value)
  }

  lemma TagRowRead(fc: FloatCodec, vs: seq<Value>, ts: seq<Text>, p: nat, end: nat)
    requires BlockAt(fc, TAG_VALUE, ts, p) == Success(At(vs, end))
    ensures TagRowAt(fc, TagRowOf(vs), ts, p)
  {
    hide BlockAt, IntAt, IntUnsetAt, FloatAt, FloatUnsetAt, TextAt, BoolAt, IntOf, FloatOf, TextOf, BoolOf;
    Picked(fc, TAG_VALUE, ts, p, 0);
    Picked(fc, TAG_VALUE, ts, p, 1);
  }

  // ---------------------------------------------------------------- parts of a block

  /** n values from some index on. */
  function Part(vs: seq<Value>, from: nat, n: nat): seq<Value> { if from + n <= |vs| then vs[from..from + n] else [] }

  /** The values from index k on are those of the kinds from there on; so they are behind the next part. */
  lemma NextPart(fc: FloatCodec, vs: seq<Value>, k: nat, a: seq<Kind>, b: seq<Kind>, ts: seq<Text>, p: nat, end: nat)
    requires k <= |vs| && BlockAt(fc, a + b, ts, p + k) == Success(At(vs[k..], end))
    ensures BlockAt(fc, a, ts, p + k) == Success(At(Part(vs, k, |a|), p + k + |a|)) && k + |a| <= |vs|
    ensures BlockAt(fc, b, ts, p + k + |a|) == Success(At(vs[k + |a|..], end))
  {
    BlockAppend(fc, a, b, ts, p + k);
    hide BlockAt;
    var left := vs[k..];
    assert vs[k..k + |a|] == left[..|a|] && vs[k + |a|..] == left[|a|..];
  }

  lemma LastPart(fc: FloatCodec, vs: seq<Value>, k: nat, a: seq<Kind>, ts: seq<Text>, p: nat, end: nat)
    requires k <= |vs| && BlockAt(fc, a, ts, p + k) == Success(At(vs[k..], end))
    ensures BlockAt(fc, a, ts, p + k) == Success(At(Part(vs, k, |a|), end)) && k + |a| == |vs|
  {
    assert vs[k..k + |a|] == vs[k..];
  }

  // A value that is read only if a gate is open, and is Go's zero value otherwise.

  predicate TextGate(on: bool, t: Text, ts: seq<Text>, p: nat) { if on then TextAt(ts, p) == Success(t) else t == [] }

  predicate IntGate(on: bool, i: int64, ts: seq<Text>, p: nat) { if on then IntAt(ts, p) == Success(i) else i == 0 }

  predicate FlagGate(on: bool, b: bool, ts: seq<Text>, p: nat) { if on then BoolAt(ts, p) == Success(b) else !b }

  predicate FloatUnsetGate(fc: FloatCodec, on: bool, f: Float, ts: seq<Text>, p: nat) {
    if on then FloatUnsetAt(fc, ts, p) == Success(f) else f == ZEROFLOAT
  }

  lemma GateRead(fc: FloatCodec, on: bool, k: Kind, vs: seq<Value>, ts: seq<Text>, p: nat, end: nat)
    requires BlockAt(fc, On(on, [k]), ts, p) == Success(At(vs, end))
    ensures match k
            case KStr => TextGate(on, TextOf(vs, 0), ts, p)
            case KInt => IntGate(on, IntOf(vs, 0), ts, p)
            case KBool => FlagGate(on, BoolOf(vs, 0), ts, p)
            case KFloatUnset => FloatUnsetGate(fc, on, FloatOf(vs, 0), ts, p)
            case _ => true
  {
    hide IntAt, FloatUnsetAt, TextAt, BoolAt;
    if on { Picked(fc, [k], ts, p, 0); }
  }

  // ---------------------------------------------------------------- terms

  /** The number of units: a float from 101 on, an integer before. */
  datatype Quantity = Shares(f: Float) | Whole(n: int64)

  /** OrderID .. TotalQuantity. */
  datatype OpenTerms = OpenTerms(identity: Identity, multiplier: Text, venue: Venue, tradingClass: Text, action: Text,
                                 quantity: Quantity)

  function OpenTermsOf(dv: int, version: int, vs: seq<Value>): OpenTerms {
    var m := Gate(version >= 32, 1);
    OpenTerms(IdentityOf(Part(vs, 0, 7)), TextOf(Part(vs, 7, m), 0), VenueOf(Part(vs, 7 + m, 3)),
              TextOf(Part(vs, 10 + m, m), 0), TextOf(Part(vs, 10 + 2 * m, 2), 0),
              QuantityOf(dv, Part(vs, 10 + 2 * m, 2), 1))
  }

  function QuantityOf(dv: int, vs: seq<Value>, k: nat): Quantity {
    if dv >= FRACTIONAL_POSITIONS then Shares(FloatOf(vs, k)) else Whole(IntOf(vs, k))
  }

  predicate OpenTermsAt(fc: FloatCodec, dv: int, version: int, x: OpenTerms, ts: seq<Text>, p: nat) {
    var m := Gate(version >= 32, 1);
    && IdentityAt(fc, x.identity, ts, p)
    && TextGate(version >= 32, x.multiplier, ts, p + 7)
    && VenueAt(fc, x.venue, ts, p + 7 + m)
    && TextGate(version >= 32, x.tradingClass, ts, p + 10 + m)
    && TextAt(ts, p + 10 + 2 * m) == Success(x.action) && QuantityAt(fc, dv, x.quantity, ts, p + 11 + 2 * m)
  }

  /** From 101 on a float, before that an integer. */
  predicate QuantityAt(fc: FloatCodec, dv: int, q: Quantity, ts: seq<Text>, p: nat) {
    if dv >= 101 then q.Shares? && FloatAt(fc, ts, p) == Success(q.f) else q.Whole? && IntAt(ts, p) == Success(q.n)
  }

  predicate ActionAt(fc: FloatCodec, dv: int, vs: seq<Value>, ts: seq<Text>, p: nat) {
    TextAt(ts, p) == Success(TextOf(vs, 0)) && QuantityAt(fc, dv, QuantityOf(dv, vs, 1), ts, p + 1)
  }

  lemma ActionRead(fc: FloatCodec, dv: int, vs: seq<Value>, ts: seq<Text>, p: nat, end: nat)
    requires BlockAt(fc, [KStr, QuantityKind(dv)], ts, p) == Success(At(vs, end))
    ensures ActionAt(fc, dv, vs, ts, p)
  {
    hide BlockAt, IntAt, FloatAt, TextAt, IntOf, FloatOf, TextOf;
    Picked(fc, [KStr, QuantityKind(dv)], ts, p, 0);
    Picked(fc, [KStr, QuantityKind(dv)], ts, p, 1);
  }

  lemma TermKindsAre(dv: int, version: int)
    ensures var gate := On(version >= 32, [KStr]);
            && TermKinds(dv, version) == IDENTITY_READS + (gate + (VENUE_READS + (gate + [KStr, QuantityKind(dv)])))
            && |gate| == Gate(version >= 32, 1) && |IDENTITY_READS| == 7 && |VENUE_READS| == 3
  {
    hide On, QuantityKind;
  }

  lemma TermParts(fc: FloatCodec, dv: int, version: int, vs: seq<Value>, ts: seq<Text>, p: nat, end: nat)
    requires BlockAt(fc, TermKinds(dv, version), ts, p) == Success(At(vs, end))
    ensures var m, gate := Gate(version >= 32, 1), On(version >= 32, [KStr]);
            && BlockAt(fc, IDENTITY_READS, ts, p) == Success(At(Part(vs, 0, 7), p + 7))
            && BlockAt(fc, gate, ts, p + 7) == Success(At(Part(vs, 7, m), p + 7 + m))
            && BlockAt(fc, VENUE_READS, ts, p + 7 + m) == Success(At(Part(vs, 7 + m, 3), p + 10 + m))
            && BlockAt(fc, gate, ts, p + 10 + m) == Success(At(Part(vs, 10 + m, m), p + 10 + 2 * m))
            && BlockAt(fc, [KStr, QuantityKind(dv)], ts, p + 10 + 2 * m) == Success(At(Part(vs, 10 + 2 * m, 2), end))
  {
    hide *;
    var m, gate, action := Gate(version >= 32, 1), On(version >= 32, [KStr]), [KStr, QuantityKind(dv)];
    assert vs[0..] == vs;
    TermKindsAre(dv, version);
    NextPart(fc, vs, 0, IDENTITY_READS, gate + (VENUE_READS + (gate + action)), ts, p, end);
    NextPart(fc, vs, 7, gate, VENUE_READS + (gate + action), ts, p, end);
    NextPart(fc, vs, 7 + m, VENUE_READS, gate + action, ts, p, end);
    NextPart(fc, vs, 10 + m, gate, action, ts, p, end);
    LastPart(fc, vs, 10 + 2 * m, action, ts, p, end);
  }

  lemma TermsJoin(fc: FloatCodec, dv: int, version: int, vs: seq<Value>, ts: seq<Text>, p: nat, m: nat)
    requires m == Gate(version >= 32, 1) && IdentityAt(fc, IdentityOf(Part(vs, 0, 7)), ts, p)
    requires TextGate(version >= 32, TextOf(Part(vs, 7, m), 0), ts, p + 7)
    requires VenueAt(fc, VenueOf(Part(vs, 7 + m, 3)), ts, p + 7 + m)
    requires TextGate(version >= 32, TextOf(Part(vs, 10 + m, m), 0), ts, p + 10 + m)
    requires ActionAt(fc, dv, Part(vs, 10 + 2 * m, 2), ts, p + 10 + 2 * m)
    ensures OpenTermsAt(fc, dv, version, OpenTermsOf(dv, version, vs), ts, p)
  {
    hide IdentityAt, IdentityOf, VenueAt, VenueOf, QuantityAt, QuantityOf, TextOf, TextAt, Part, Gate;
  }

  lemma OpenTermsRead(fc: FloatCodec, dv: int, version: int, vs: seq<Value>, ts: seq<Text>, p: nat, end: nat)
    requires BlockAt(fc, TermKinds(dv, version), ts, p) == Success(At(vs, end))
    ensures OpenTermsAt(fc, dv, version, OpenTermsOf(dv, version, vs), ts, p)
  {
    hide *;
    var m := Gate(version >= 32, 1);
    TermParts(fc, dv, version, vs, ts, p, end);
    IdentityRead(fc, Part(vs, 0, 7), ts, p, p + 7);
    GateRead(fc, version >= 32, KStr, Part(vs, 7, m), ts, p + 7, p + 7 + m);
    VenueRead(fc, Part(vs, 7 + m, 3), ts, p + 7 + m, p + 10 + m);
    GateRead(fc, version >= 32, KStr, Part(vs, 10 + m, m), ts, p + 10 + m, p + 10 + 2 * m);
    ActionRead(fc, dv, Part(vs, 10 + 2 * m, 2), ts, p + 10 + 2 * m, end);
    TermsJoin(fc, dv, version, vs, ts, p, m);
  }

  // ---------------------------------------------------------------- prices

  /** LimitPrice .. VolatilityType. */
  datatype OpenPrices = OpenPrices(limitPrice: Float, auxPrice: Float, account: Account, modelCode: Text,
                                   shortSale: ShortSale, exemptCode: int64, box: Box, display: Display,
                                   volatility: VolTerms)

  function OpenPricesOf(dv: int, version: int, vs: seq<Value>): OpenPrices {
    var m := Gate(dv >= MODELS_SUPPORT, 1);
    var e := m + |ExemptKinds(dv, version)|;
    OpenPrices(FloatOf(Part(vs, 0, 2), 0), FloatOf(Part(vs, 0, 2), 1), AccountOf(Part(vs, 2, 17)),
               TextOf(Part(vs, 19, m), 0), ShortSaleOf(Part(vs, 19 + m, 6)), IntOf(Part(vs, 25 + m, e - m), 0),
               BoxOf(Part(vs, 25 + e, 6)), DisplayOf(Part(vs, 31 + e, 6)), VolTermsOf(Part(vs, 37 + e, 7)))
  }

  predicate OpenPricesAt(fc: FloatCodec, dv: int, version: int, x: OpenPrices, ts: seq<Text>, p: nat) {
    var m := Gate(dv >= 103, 1);
    var e := m + Gate(dv == 51 || version >= 23, 1);
    && LimitsAt(fc, version, x.limitPrice, x.auxPrice, ts, p)
    && AccountAt(fc, x.account, ts, p + 2) && TextGate(dv >= 103, x.modelCode, ts, p + 19)
    && ShortSaleAt(fc, x.shortSale, ts, p + 19 + m)
    && IntGate(dv != 51 && version >= 23, x.exemptCode, ts, p + 25 + m)
    && BoxAt(fc, x.box, ts, p + 25 + e) && DisplayAt(fc, x.display, ts, p + 31 + e)
    && VolTermsAt(fc, x.volatility, ts, p + 37 + e)
  }

  /** Unset-aware from message version 29, respectively 30. */
  predicate LimitsAt(fc: FloatCodec, version: int, limit: Float, aux: Float, ts: seq<Text>, p: nat) {
    && (if version < 29 then FloatAt(fc, ts, p) else FloatUnsetAt(fc, ts, p)) == Success(limit)
    && (if version < 30 then FloatAt(fc, ts, p + 1) else FloatUnsetAt(fc, ts, p + 1)) == Success(aux)
  }

  lemma LimitsRead(fc: FloatCodec, version: int, vs: seq<Value>, ts: seq<Text>, p: nat, end: nat)
    requires BlockAt(fc, LimitKinds(version), ts, p) == Success(At(vs, end))
    ensures LimitsAt(fc, version, FloatOf(vs, 0), FloatOf(vs, 1), ts, p)
  {
    hide BlockAt, FloatAt, FloatUnsetAt, FloatOf;
    Picked(fc, LimitKinds(version), ts, p, 0);
    Picked(fc, LimitKinds(version), ts, p, 1);
  }

  lemma ExemptRead(fc: FloatCodec, dv: int, version: int, vs: seq<Value>, ts: seq<Text>, p: nat, end: nat)
    requires BlockAt(fc, ExemptKinds(dv, version), ts, p) == Success(At(vs, end))
    ensures IntGate(dv != 51 && version >= 23, IntOf(vs, 0), ts, p)
  {
    if dv == SSHORTX_OLD {
    } else {
      GateRead(fc, version >= 23, KInt, vs, ts, p, end);
    }
  }

  lemma PriceKindsAre(dv: int, version: int)
    ensures PriceKinds(dv, version) == LimitKinds(version)
            + (ACCOUNT_READS + (On(dv >= MODELS_SUPPORT, [KStr]) + PriceBackKinds(dv, version)))
    ensures |LimitKinds(version)| == 2 && |ACCOUNT_READS| == 17
    ensures |On(dv >= MODELS_SUPPORT, [KStr])| == Gate(dv >= MODELS_SUPPORT, 1)
  {
    hide On, ExemptKinds;
  }

  lemma PriceFront(fc: FloatCodec, dv: int, version: int, vs: seq<Value>, ts: seq<Text>, p: nat, m: nat, end: nat)
    requires BlockAt(fc, PriceKinds(dv, version), ts, p) == Success(At(vs, end)) && m == Gate(dv >= MODELS_SUPPORT, 1)
    ensures BlockAt(fc, LimitKinds(version), ts, p) == Success(At(Part(vs, 0, 2), p + 2))
    ensures BlockAt(fc, ACCOUNT_READS, ts, p + 2) == Success(At(Part(vs, 2, 17), p + 19))
    ensures BlockAt(fc, On(dv >= MODELS_SUPPORT, [KStr]), ts, p + 19) == Success(At(Part(vs, 19, m), p + 19 + m))
    ensures 19 + m <= |vs| && BlockAt(fc, PriceBackKinds(dv, version), ts, p + 19 + m) == Success(At(vs[19 + m..], end))
  {
    hide *;
    var model, back := On(dv >= MODELS_SUPPORT, [KStr]), PriceBackKinds(dv, version);
    assert vs[0..] == vs;
    PriceKindsAre(dv, version);
    NextPart(fc, vs, 0, LimitKinds(version), ACCOUNT_READS + (model + back), ts, p, end);
    NextPart(fc, vs, 2, ACCOUNT_READS, model + back, ts, p, end);
    NextPart(fc, vs, 19, model, back, ts, p, end);
  }

  lemma PriceBack(fc: FloatCodec, dv: int, version: int, vs: seq<Value>, ts: seq<Text>, p: nat, k: nat, e: nat,
                  end: nat)
    requires k <= |vs| && BlockAt(fc, PriceBackKinds(dv, version), ts, p + k) == Success(At(vs[k..], end))
    requires e == |ExemptKinds(dv, version)|
    ensures BlockAt(fc, SHORT_SALE_READS, ts, p + k) == Success(At(Part(vs, k, 6), p + k + 6))
    ensures BlockAt(fc, ExemptKinds(dv, version), ts, p + k + 6) == Success(At(Part(vs, k + 6, e), p + k + 6 + e))
    ensures BlockAt(fc, BOX_READS, ts, p + k + 6 + e) == Success(At(Part(vs, k + 6 + e, 6), p + k + 12 + e))
    ensures BlockAt(fc, DISPLAY_READS, ts, p + k + 12 + e) == Success(At(Part(vs, k + 12 + e, 6), p + k + 18 + e))
    ensures BlockAt(fc, VOLATILITY_READS, ts, p + k + 18 + e) == Success(At(Part(vs, k + 18 + e, 7), end))
  {
    var exempt := ExemptKinds(dv, version);
    hide BlockAt, Part, ExemptKinds;
    var last := DISPLAY_READS + VOLATILITY_READS;
    NextPart(fc, vs, k, SHORT_SALE_READS, exempt + (BOX_READS + last), ts, p, end);
    NextPart(fc, vs, k + 6, exempt, BOX_READS + last, ts, p, end);
    NextPart(fc, vs, k + 6 + e, BOX_READS, last, ts, p, end);
    NextPart(fc, vs, k + 12 + e, DISPLAY_READS, VOLATILITY_READS, ts, p, end);
    LastPart(fc, vs, k + 18 + e, VOLATILITY_READS, ts, p, end);
  }

  lemma PricesJoin(fc: FloatCodec, dv: int, version: int, vs: seq<Value>, ts: seq<Text>, p: nat, m: nat, e: nat)
    requires m == Gate(dv >= MODELS_SUPPORT, 1) && e == m + |ExemptKinds(dv, version)|
    requires LimitsAt(fc, version, FloatOf(Part(vs, 0, 2), 0), FloatOf(Part(vs, 0, 2), 1), ts, p)
    requires AccountAt(fc, AccountOf(Part(vs, 2, 17)), ts, p + 2)
    requires TextGate(dv >= MODELS_SUPPORT, TextOf(Part(vs, 19, m), 0), ts, p + 19)
    requires ShortSaleAt(fc, ShortSaleOf(Part(vs, 19 + m, 6)), ts, p + 19 + m)
    requires IntGate(dv != 51 && version >= 23, IntOf(Part(vs, 25 + m, e - m), 0), ts, p + 25 + m)
    requires BoxAt(fc, BoxOf(Part(vs, 25 + e, 6)), ts, p + 25 + e)
    requires DisplayAt(fc, DisplayOf(Part(vs, 31 + e, 6)), ts, p + 31 + e)
    requires VolTermsAt(fc, VolTermsOf(Part(vs, 37 + e, 7)), ts, p + 37 + e)
    ensures OpenPricesAt(fc, dv, version, OpenPricesOf(dv, version, vs), ts, p)
  {
    hide LimitsAt, AccountAt, AccountOf, TextGate, ShortSaleAt, ShortSaleOf, IntGate, BoxAt, BoxOf, DisplayAt;
    hide DisplayOf, VolTermsAt, VolTermsOf, IntOf, FloatOf, TextOf, Part;
  }

  lemma OpenPricesRead(fc: FloatCodec, dv: int, version: int, vs: seq<Value>, ts: seq<Text>, p: nat, end: nat)
    requires BlockAt(fc, PriceKinds(dv, version), ts, p) == Success(At(vs, end))
    ensures OpenPricesAt(fc, dv, version, OpenPricesOf(dv, version, vs), ts, p)
  {
    hide *;
    var m := Gate(dv >= MODELS_SUPPORT, 1);
    var e := m + |ExemptKinds(dv, version)|;
    PriceFront(fc, dv, version, vs, ts, p, m, end);
    PriceBack(fc, dv, version, vs, ts, p, 19 + m, e - m, end);
    LimitsRead(fc, version, Part(vs, 0, 2), ts, p, p + 2);
    AccountRead(fc, Part(vs, 2, 17), ts, p + 2, p + 19);
    GateRead(fc, dv >= MODELS_SUPPORT, KStr, Part(vs, 19, m), ts, p + 19, p + 19 + m);
    ShortSaleRead(fc, Part(vs, 19 + m, 6), ts, p + 19 + m, p + 25 + m);
    ExemptRead(fc, dv, version, Part(vs, 25 + m, e - m), ts, p + 25 + m, p + 25 + e);
    BoxRead(fc, Part(vs, 25 + e, 6), ts, p + 25 + e, p + 31 + e);
    DisplayRead(fc, Part(vs, 31 + e, 6), ts, p + 31 + e, p + 37 + e);
    VolTermsRead(fc, Part(vs, 37 + e, 7), ts, p + 37 + e, end);
    PricesJoin(fc, dv, version, vs, ts, p, m, e);
  }

  // ---------------------------------------------------------------- volatility

  /** DeltaNeutralOrderType .. ComboLegsDescription. */
  datatype OpenVol = OpenVol(dnType: Text, dnAuxPrice: Float, dnClearing: NeutralClearing,
                             dnShortSale: NeutralShortSale, trail: Trail, trailingPercent: Float, basis: Basis)

  function OpenVolOf(version: int, x: Vol): OpenVol {
    var a := |On(version >= 27 && x.dnType != [], DN_ORDER[..4])|;
    var b := |On(version >= 31 && x.dnType != [], DN_ORDER[4..])|;
    var t := Gate(version >= 30, 1);
    OpenVol(x.dnType, FloatOf(Part(x.dn, 0, 1), 0), NeutralClearingOf(Part(x.dn, 1, a)),
            NeutralShortSaleOf(Part(x.dn, 1 + a, b)), TrailOf(Part(x.trail, 0, 3)), FloatOf(Part(x.trail, 3, t), 0),
            BasisOf(Part(x.trail, 3 + t, 3)))
  }

  /** Two groups of four from message versions 27 and 31 on, if there is a delta-neutral order type. */
  predicate OpenVolAt(fc: FloatCodec, version: int, x: OpenVol, ts: seq<Text>, p: nat) {
    var a := Gate(version >= 27 && x.dnType != [], 4);
    var b := a + Gate(version >= 31 && x.dnType != [], 4);
    && TextAt(ts, p) == Success(x.dnType) && FloatUnsetAt(fc, ts, p + 1) == Success(x.dnAuxPrice)
    && NeutralClearingGate(fc, version >= 27 && x.dnType != [], x.dnClearing, ts, p + 2)
    && NeutralShortSaleGate(fc, version >= 31 && x.dnType != [], x.dnShortSale, ts, p + 2 + a)
    && OpenTrailAt(fc, version, x, ts, p + 2 + b)
  }

  predicate NeutralClearingGate(fc: FloatCodec, on: bool, x: NeutralClearing, ts: seq<Text>, p: nat) {
    if on then NeutralClearingAt(fc, x, ts, p) else x == NeutralClearing(0, [], [], [])
  }

  predicate NeutralShortSaleGate(fc: FloatCodec, on: bool, x: NeutralShortSale, ts: seq<Text>, p: nat) {
    if on then NeutralShortSaleAt(fc, x, ts, p) else x == NeutralShortSale([], false, 0, [])
  }

  predicate OpenTrailAt(fc: FloatCodec, version: int, x: OpenVol, ts: seq<Text>, p: nat) {
    && TrailAt(fc, x.trail, ts, p) && FloatUnsetGate(fc, version >= 30, x.trailingPercent, ts, p + 3)
    && BasisAt(fc, x.basis, ts, p + 3 + Gate(version >= 30, 1))
  }

  lemma DnKindsAre(version: int, dnType: Text)
    ensures DnKinds(version, dnType)
            == [KFloatUnset] + (On(version >= 27 && dnType != [], DN_ORDER[..4])
                                + On(version >= 31 && dnType != [], DN_ORDER[4..]))
    ensures |On(version >= 27 && dnType != [], DN_ORDER[..4])| == Gate(version >= 27 && dnType != [], 4)
    ensures |On(version >= 31 && dnType != [], DN_ORDER[4..])| == Gate(version >= 31 && dnType != [], 4)
  {
    hide On, Gate;
  }

  lemma DnHalves(fc: FloatCodec, on: bool, more: bool, vs: seq<Value>, ws: seq<Value>, ts: seq<Text>, p: nat, q: nat,
                 end: nat)
    requires BlockAt(fc, On(on, DN_ORDER[..4]), ts, p) == Success(At(vs, q))
    requires BlockAt(fc, On(more, DN_ORDER[4..]), ts, q) == Success(At(ws, end))
    ensures NeutralClearingGate(fc, on, NeutralClearingOf(vs), ts, p)
    ensures NeutralShortSaleGate(fc, more, NeutralShortSaleOf(ws), ts, q)
  {
    hide BlockAt, NeutralClearingAt, NeutralShortSaleAt;
    if on { NeutralClearingRead(fc, vs, ts, p, q); }
    if more { NeutralShortSaleRead(fc, ws, ts, q, end); }
  }

  lemma AuxRead(fc: FloatCodec, vs: seq<Value>, ts: seq<Text>, p: nat, end: nat)
    requires BlockAt(fc, [KFloatUnset], ts, p) == Success(At(vs, end))
    ensures FloatUnsetAt(fc, ts, p) == Success(FloatOf(vs, 0))
  {
    Picked(fc, [KFloatUnset], ts, p, 0);
  }

  lemma DnRead(fc: FloatCodec, version: int, dnType: Text, vs: seq<Value>, ts: seq<Text>, p: nat, a: nat, b: nat,
               end: nat)
    requires BlockAt(fc, DnKinds(version, dnType), ts, p) == Success(At(vs, end))
    requires a == |On(version >= 27 && dnType != [], DN_ORDER[..4])|
    requires b == |On(version >= 31 && dnType != [], DN_ORDER[4..])|
    ensures FloatUnsetAt(fc, ts, p) == Success(FloatOf(Part(vs, 0, 1), 0))
    ensures NeutralClearingGate(fc, version >= 27 && dnType != [], NeutralClearingOf(Part(vs, 1, a)), ts, p + 1)
    ensures NeutralShortSaleGate(fc, version >= 31 && dnType != [], NeutralShortSaleOf(Part(vs, 1 + a, b)), ts,
                                 p + 1 + a)
  {
    hide BlockAt, DnKinds, On, Gate, Part, NeutralClearingGate, NeutralClearingOf, NeutralShortSaleGate;
    hide NeutralShortSaleOf, FloatUnsetAt, FloatOf;
    var on, more := version >= 27 && dnType != [], version >= 31 && dnType != [];
    var first, second := On(on, DN_ORDER[..4]), On(more, DN_ORDER[4..]);
    assert vs[0..] == vs;
    DnKindsAre(version, dnType);
    NextPart(fc, vs, 0, [KFloatUnset], first + second, ts, p, end);
    NextPart(fc, vs, 1, first, second, ts, p, end);
    LastPart(fc, vs, 1 + a, second, ts, p, end);
    AuxRead(fc, Part(vs, 0, 1), ts, p, p + 1);
    DnHalves(fc, on, more, Part(vs, 1, a), Part(vs, 1 + a, b), ts, p + 1, p + 1 + a, end);
  }

  lemma TrailKindsAre(version: int)
    ensures TrailKinds(version)
            == [KBool, KInt, KFloatUnset] + (On(version >= 30, [KFloatUnset]) + [KFloatUnset, KIntUnset, KStr])
    ensures |On(version >= 30, [KFloatUnset])| == Gate(version >= 30, 1)
  {
    hide On, Gate;
  }

  lemma OpenTrailRead(fc: FloatCodec, version: int, x: OpenVol, vs: seq<Value>, ts: seq<Text>, p: nat, t: nat, end: nat)
    requires BlockAt(fc, TrailKinds(version), ts, p) == Success(At(vs, end)) && t == Gate(version >= 30, 1)
    requires x.trail == TrailOf(Part(vs, 0, 3)) && x.trailingPercent == FloatOf(Part(vs, 3, t), 0)
    requires x.basis == BasisOf(Part(vs, 3 + t, 3))
    ensures OpenTrailAt(fc, version, x, ts, p)
  {
    hide BlockAt, TrailKinds, On, Gate, Part, TrailAt, TrailOf, FloatUnsetGate, FloatOf, BasisAt, BasisOf;
    var percent, basis := On(version >= 30, [KFloatUnset]), [KFloatUnset, KIntUnset, KStr];
    assert vs[0..] == vs;
    TrailKindsAre(version);
    NextPart(fc, vs, 0, [KBool, KInt, KFloatUnset], percent + basis, ts, p, end);
    NextPart(fc, vs, 3, percent, basis, ts, p, end);
    LastPart(fc, vs, 3 + t, basis, ts, p, end);
    TrailRead(fc, Part(vs, 0, 3), ts, p, p + 3);
    GateRead(fc, version >= 30, KFloatUnset, Part(vs, 3, t), ts, p + 3, p + 3 + t);
    BasisRead(fc, Part(vs, 3 + t, 3), ts, p + 3 + t, end);
  }

  lemma OpenVolRead(fc: FloatCodec, version: int, x: Vol, ts: seq<Text>, p: nat, end: nat)
    requires VolAt(fc, version, ts, p) == Success(At(x, end))
    ensures OpenVolAt(fc, version, OpenVolOf(version, x), ts, p)
  {
    hide BlockAt, DnKinds, TrailKinds, On, Part, TrailAt, TrailOf, FloatOf, BasisAt, BasisOf, NeutralClearingGate;
    hide NeutralClearingOf, NeutralShortSaleGate, NeutralShortSaleOf, OpenTrailAt, FloatUnsetAt, Gate, VolSize;
    DnKindsAre(version, x.dnType);
    var a := |On(version >= 27 && x.dnType != [], DN_ORDER[..4])|;
    var b := |On(version >= 31 && x.dnType != [], DN_ORDER[4..])|;
    DnRead(fc, version, x.dnType, x.dn, ts, p + 1, a, b, p + 2 + a + b);
    OpenTrailRead(fc, version, OpenVolOf(version, x), x.trail, ts, p + 2 + a + b, Gate(version >= 30, 1), end);
  }

  // ---------------------------------------------------------------- flags

  /** OptOutSmartRouting .. NotHeld. */
  datatype OpenFlags = OpenFlags(optOut: bool, clearingAccount: Text, clearingIntent: Text, notHeld: bool)

  function OpenFlagsOf(version: int, vs: seq<Value>): OpenFlags {
    var a, b := Gate(version >= 25, 1), Gate(version >= 22, 1);
    OpenFlags(BoolOf(Part(vs, 0, a), 0), TextOf(Part(vs, a, 2), 0), TextOf(Part(vs, a, 2), 1),
              BoolOf(Part(vs, a + 2, b), 0))
  }

  predicate OpenFlagsAt(fc: FloatCodec, version: int, x: OpenFlags, ts: seq<Text>, p: nat) {
    var a := Gate(version >= 25, 1);
    && FlagGate(version >= 25, x.optOut, ts, p) && TextAt(ts, p + a) == Success(x.clearingAccount)
    && TextAt(ts, p + a + 1) == Success(x.clearingIntent) && FlagGate(version >= 22, x.notHeld, ts, p + a + 2)
  }

  lemma FlagKindsAre(version: int)
    ensures FlagKinds(version) == On(version >= 25, [KBool]) + ([KStr, KStr] + On(version >= 22, [KBool]))
    ensures |On(version >= 25, [KBool])| == Gate(version >= 25, 1)
    ensures |On(version >= 22, [KBool])| == Gate(version >= 22, 1)
  {
    hide On, Gate;
  }

  lemma OpenFlagsRead(fc: FloatCodec, version: int, vs: seq<Value>, ts: seq<Text>, p: nat, end: nat)
    requires BlockAt(fc, FlagKinds(version), ts, p) == Success(At(vs, end))
    ensures OpenFlagsAt(fc, version, OpenFlagsOf(version, vs), ts, p)
  {
    hide BlockAt, FlagKinds, On, Gate, Part, FlagGate, BoolOf, TextOf, TextAt;
    var a, b := Gate(version >= 25, 1), Gate(version >= 22, 1);
    var opt, held := On(version >= 25, [KBool]), On(version >= 22, [KBool]);
    assert vs[0..] == vs;
    FlagKindsAre(version);
    NextPart(fc, vs, 0, opt, [KStr, KStr] + held, ts, p, end);
    NextPart(fc, vs, a, [KStr, KStr], held, ts, p, end);
    LastPart(fc, vs, a + 2, held, ts, p, end);
    GateRead(fc, version >= 25, KBool, Part(vs, 0, a), ts, p, p + a);
    Picked(fc, [KStr, KStr], ts, p + a, 0);
    Picked(fc, [KStr, KStr], ts, p + a, 1);
    GateRead(fc, version >= 22, KBool, Part(vs, a + 2, b), ts, p + a + 2, end);
  }

  // ---------------------------------------------------------------- the order state

  /** Solicited .. RandomizePrice. */
  datatype OpenState = OpenState(solicited: bool, whatIf: bool, status: Text, margins: Margins,
                                 commissions: Commissions, randomizeSize: bool, randomizePrice: bool)

  function OpenStateOf(dv: int, version: int, vs: seq<Value>): OpenState {
    var a, r := Gate(version >= 33, 1), Gate(version >= 34, 2);
    var m := a + Gate(dv >= WHAT_IF_EXT_FIELDS, 6);
    OpenState(BoolOf(Part(vs, 0, a), 0), BoolOf(Part(vs, a, 2), 0), TextOf(Part(vs, a, 2), 1),
              MarginsOf(Part(vs, a + 2, m - a)), CommissionsOf(Part(vs, m + 2, 8)), BoolOf(Part(vs, m + 10, r), 0),
              BoolOf(Part(vs, m + 10, r), 1))
  }

  predicate OpenStateAt(fc: FloatCodec, dv: int, version: int, x: OpenState, ts: seq<Text>, p: nat) {
    var a := Gate(version >= 33, 1);
    var m := a + Gate(dv >= 142, 6);
    && FlagGate(version >= 33, x.solicited, ts, p) && BoolAt(ts, p + a) == Success(x.whatIf)
    && TextAt(ts, p + a + 1) == Success(x.status) && MarginsGate(fc, dv >= 142, x.margins, ts, p + a + 2)
    && CommissionsAt(fc, x.commissions, ts, p + m + 2)
    && FlagGate(version >= 34, x.randomizeSize, ts, p + m + 10)
    && FlagGate(version >= 34, x.randomizePrice, ts, p + m + 11)
  }

  predicate MarginsGate(fc: FloatCodec, on: bool, x: Margins, ts: seq<Text>, p: nat) {
    if on then MarginsAt(fc, x, ts, p) else x == Margins([], [], [], [], [], [])
  }

  lemma MarginsGateRead(fc: FloatCodec, on: bool, vs: seq<Value>, ts: seq<Text>, p: nat, end: nat)
    requires BlockAt(fc, On(on, MARGIN_READS), ts, p) == Success(At(vs, end))
    ensures MarginsGate(fc, on, MarginsOf(vs), ts, p)
  {
    hide MarginsAt;
    if on { MarginsRead(fc, vs, ts, p, end); }
  }

  /** Two flags behind one gate. */
  lemma FlagsGateRead(fc: FloatCodec, on: bool, vs: seq<Value>, ts: seq<Text>, p: nat, end: nat)
    requires BlockAt(fc, On(on, [KBool, KBool]), ts, p) == Success(At(vs, end))
    ensures FlagGate(on, BoolOf(vs, 0), ts, p) && FlagGate(on, BoolOf(vs, 1), ts, p + 1)
  {
    hide BoolAt;
    if on {
      Picked(fc, [KBool, KBool], ts, p, 0);
      Picked(fc, [KBool, KBool], ts, p, 1);
    }
  }

  lemma StatusRead(fc: FloatCodec, vs: seq<Value>, ts: seq<Text>, p: nat, end: nat)
    requires BlockAt(fc, [KBool, KStr], ts, p) == Success(At(vs, end))
    ensures BoolAt(ts, p) == Success(BoolOf(vs, 0)) && TextAt(ts, p + 1) == Success(TextOf(vs, 1))
  {
    Picked(fc, [KBool, KStr], ts, p, 0);
    Picked(fc, [KBool, KStr], ts, p, 1);
  }

  lemma StateKindsAre(dv: int, version: int)
    ensures StateKinds(dv, version) == On(version >= 33, [KBool]) + ([KBool, KStr]
            + (On(dv >= WHAT_IF_EXT_FIELDS, MARGIN_READS) + (COMMISSION_READS + On(version >= 34, [KBool, KBool]))))
    ensures |On(version >= 33, [KBool])| == Gate(version >= 33, 1) && |COMMISSION_READS| == 8
    ensures |On(dv >= WHAT_IF_EXT_FIELDS, MARGIN_READS)| == Gate(dv >= WHAT_IF_EXT_FIELDS, 6)
    ensures |On(version >= 34, [KBool, KBool])| == Gate(version >= 34, 2)
  {
    hide On, Gate;
  }

  lemma StateParts(fc: FloatCodec, dv: int, version: int, vs: seq<Value>, ts: seq<Text>, p: nat, a: nat, m: nat, r: nat,
                   end: nat)
    requires BlockAt(fc, StateKinds(dv, version), ts, p) == Success(At(vs, end))
    requires a == Gate(version >= 33, 1) && m == a + Gate(dv >= WHAT_IF_EXT_FIELDS, 6) && r == Gate(version >= 34, 2)
    ensures BlockAt(fc, On(version >= 33, [KBool]), ts, p) == Success(At(Part(vs, 0, a), p + a))
    ensures BlockAt(fc, [KBool, KStr], ts, p + a) == Success(At(Part(vs, a, 2), p + a + 2))
    ensures BlockAt(fc, On(dv >= WHAT_IF_EXT_FIELDS, MARGIN_READS), ts, p + a + 2)
            == Success(At(Part(vs, a + 2, m - a), p + m + 2))
    ensures BlockAt(fc, COMMISSION_READS, ts, p + m + 2) == Success(At(Part(vs, m + 2, 8), p + m + 10))
    ensures BlockAt(fc, On(version >= 34, [KBool, KBool]), ts, p + m + 10) == Success(At(Part(vs, m + 10, r), end))
  {
    hide *;
    var solicited, margins := On(version >= 33, [KBool]), On(dv >= WHAT_IF_EXT_FIELDS, MARGIN_READS);
    var random := On(version >= 34, [KBool, KBool]);
    assert vs[0..] == vs;
    StateKindsAre(dv, version);
    NextPart(fc, vs, 0, solicited, [KBool, KStr] + (margins + (COMMISSION_READS + random)), ts, p, end);
    NextPart(fc, vs, a, [KBool, KStr], margins + (COMMISSION_READS + random), ts, p, end);
    NextPart(fc, vs, a + 2, margins, COMMISSION_READS + random, ts, p, end);
    NextPart(fc, vs, m + 2, COMMISSION_READS, random, ts, p, end);
    LastPart(fc, vs, m + 10, random, ts, p, end);
  }

  lemma StateJoin(fc: FloatCodec, dv: int, version: int, vs: seq<Value>, ts: seq<Text>, p: nat, a: nat, m: nat, r: nat)
    requires a == Gate(version >= 33, 1) && m == a + Gate(dv >= WHAT_IF_EXT_FIELDS, 6) && r == Gate(version >= 34, 2)
    requires FlagGate(version >= 33, BoolOf(Part(vs, 0, a), 0), ts, p)
    requires BoolAt(ts, p + a) == Success(BoolOf(Part(vs, a, 2), 0))
    requires TextAt(ts, p + a + 1) == Success(TextOf(Part(vs, a, 2), 1))
    requires MarginsGate(fc, dv >= WHAT_IF_EXT_FIELDS, MarginsOf(Part(vs, a + 2, m - a)), ts, p + a + 2)
    requires CommissionsAt(fc, CommissionsOf(Part(vs, m + 2, 8)), ts, p + m + 2)
    requires FlagGate(version >= 34, BoolOf(Part(vs, m + 10, r), 0), ts, p + m + 10)
    requires FlagGate(version >= 34, BoolOf(Part(vs, m + 10, r), 1), ts, p + m + 10 + 1)
    ensures OpenStateAt(fc, dv, version, OpenStateOf(dv, version, vs), ts, p)
  {
    hide FlagGate, BoolAt, BoolOf, TextAt, TextOf, MarginsGate, MarginsOf, CommissionsAt, CommissionsOf, Part, Gate;
  }

  lemma OpenStateRead(fc: FloatCodec, dv: int, version: int, vs: seq<Value>, ts: seq<Text>, p: nat, end: nat)
    requires BlockAt(fc, StateKinds(dv, version), ts, p) == Success(At(vs, end))
    ensures OpenStateAt(fc, dv, version, OpenStateOf(dv, version, vs), ts, p)
  {
    hide *;
    var a, r := Gate(version >= 33, 1), Gate(version >= 34, 2);
    var m := a + Gate(dv >= WHAT_IF_EXT_FIELDS, 6);
    StateParts(fc, dv, version, vs, ts, p, a, m, r, end);
    GateRead(fc, version >= 33, KBool, Part(vs, 0, a), ts, p, p + a);
    StatusRead(fc, Part(vs, a, 2), ts, p + a, p + a + 2);
    MarginsGateRead(fc, dv >= WHAT_IF_EXT_FIELDS, Part(vs, a + 2, m - a), ts, p + a + 2, p + m + 2);
    CommissionsRead(fc, Part(vs, m + 2, 8), ts, p + m + 2, p + m + 10);
    FlagsGateRead(fc, version >= 34, Part(vs, m + 10, r), ts, p + m + 10, end);
    StateJoin(fc, dv, version, vs, ts, p, a, m, r);
  }

  // ---------------------------------------------------------------- the tail

  /** SoftDollarTier .. PostToAts. */
  datatype OpenTail = OpenTail(tierName: Text, tierValue: Text, tierDisplay: Text, cashQty: Float,
                               dontUseAutoPrice: bool, isOms: bool, discretionaryUpToLimit: bool,
                               usePriceMgmt: bool, duration: int64, postToAts: int64)

  function OpenTailOf(dv: int, vs: seq<Value>): OpenTail {
    OpenTail(TextOf(vs, 0), TextOf(vs, 1), TextOf(vs, 2), FloatOf(vs, 3), BoolOf(vs, 4), BoolOf(vs, 5), BoolOf(vs, 6),
             BoolOf(vs, 7), IntOf(vs, 8), IntOf(vs, 9))
  }

  /** Each gate opens later than those in front of it. */
  predicate OpenTailAt(fc: FloatCodec, dv: int, x: OpenTail, ts: seq<Text>, p: nat) {
    && TextGate(dv >= 106, x.tierName, ts, p) && TextGate(dv >= 106, x.tierValue, ts, p + 1)
    && TextGate(dv >= 106, x.tierDisplay, ts, p + 2)
    && (if dv >= 111 then FloatAt(fc, ts, p + 3) == Success(x.cashQty) else x.cashQty == ZEROFLOAT)
    && FlagGate(dv >= 141, x.dontUseAutoPrice, ts, p + 4) && FlagGate(dv >= 145, x.isOms, ts, p + 5)
    && FlagGate(dv >= 148, x.discretionaryUpToLimit, ts, p + 6) && FlagGate(dv >= 151, x.usePriceMgmt, ts, p + 7)
    && IntUnsetGate(dv >= 158, x.duration, ts, p + 8) && IntUnsetGate(dv >= 160, x.postToAts, ts, p + 9)
  }

  predicate IntUnsetGate(on: bool, i: int64, ts: seq<Text>, p: nat) {
    if on then IntUnsetAt(ts, p) == Success(i) else i == 0
  }

  /** All ten reads. */
  const ALL_TAIL: seq<Kind> := [KStr, KStr, KStr, KFloat, KBool, KBool, KBool, KBool, KIntUnset, KIntUnset]

  function TailLength(dv: int): nat {
    if dv < 106 then 0 else if dv < 111 then 3 else if dv < 141 then 4 else if dv < 145 then 5 else if dv < 148 then 6
    else if dv < 151 then 7 else if dv < 158 then 8 else if dv < 160 then 9 else 10
  }

  lemma LatestKindsAre(dv: int)
    ensures TailLength(dv) <= 6 ==> LatestKinds(dv) == []
    ensures TailLength(dv) >= 6 ==> LatestKinds(dv) == ALL_TAIL[6..TailLength(dv)]
  {
  }

  /** So what is read is always a front piece of all of them. */
  lemma TailKindsAre(dv: int)
    ensures TailKinds(dv) == ALL_TAIL[..TailLength(dv)]
  {
    LatestKindsAre(dv);
    hide LatestKinds;
  }

  lemma OpenTailRead(fc: FloatCodec, dv: int, vs: seq<Value>, ts: seq<Text>, p: nat, end: nat)
    requires BlockAt(fc, TailKinds(dv), ts, p) == Success(At(vs, end))
    ensures OpenTailAt(fc, dv, OpenTailOf(dv, vs), ts, p)
  {
    TailKindsAre(dv);
    var ks := TailKinds(dv);
    hide BlockAt, TailKinds, IntUnsetAt, FloatAt, TextAt, BoolAt;
    if dv >= 106 { Picked(fc, ks, ts, p, 0); Picked(fc, ks, ts, p, 1); Picked(fc, ks, ts, p, 2); }
    if dv >= 111 { Picked(fc, ks, ts, p, 3); }
    if dv >= 141 { Picked(fc, ks, ts, p, 4); }
    if dv >= 145 { Picked(fc, ks, ts, p, 5); }
    if dv >= 148 { Picked(fc, ks, ts, p, 6); }
    if dv >= 151 { Picked(fc, ks, ts, p, 7); }
    if dv >= 158 { Picked(fc, ks, ts, p, 8); }
    if dv >= 160 { Picked(fc, ks, ts, p, 9); }
  }

  // ---------------------------------------------------------------- lists

  function LegsOf(vss: seq<seq<Value>>): seq<Leg> { seq(|vss|, i requires 0 <= i < |vss| => LegRowOf(vss[i])) }

  function TagsOf(vss: seq<seq<Value>>): seq<TagValue> { seq(|vss|, i requires 0 <= i < |vss| => TagRowOf(vss[i])) }

  function PricesOf(vss: seq<seq<Value>>): seq<Float> { seq(|vss|, i requires 0 <= i < |vss| => FloatOf(vss[i], 0)) }

  /** The count, and eight fields a leg behind it. */
  predicate LegsAt(fc: FloatCodec, on: bool, legs: seq<Leg>, ts: seq<Text>, p: nat) {
    if !on then legs == []
    else CountAt(ts, p) == Success(At(|legs|, p + 1))
         && forall i :: 0 <= i < |legs| ==> LegRowAt(fc, legs[i], ts, p + 1 + i * 8)
  }

  /** The count and the prices. */
  predicate LegPricesAt(fc: FloatCodec, on: bool, prices: seq<Float>, ts: seq<Text>, p: nat) {
    if !on then prices == []
    else CountAt(ts, p) == Success(At(|prices|, p + 1))
         && forall i :: 0 <= i < |prices| ==> FloatUnsetAt(fc, ts, p + 1 + i) == Success(prices[i])
  }

  /** The count, and a tag and a value each. */
  predicate TagsAt(fc: FloatCodec, on: bool, tvs: seq<TagValue>, ts: seq<Text>, p: nat) {
    if !on then tvs == []
    else CountAt(ts, p) == Success(At(|tvs|, p + 1))
         && forall i :: 0 <= i < |tvs| ==> TagRowAt(fc, tvs[i], ts, p + 1 + i * 2)
  }

  lemma CountRead(fc: FloatCodec, ks: seq<Kind>, vss: seq<seq<Value>>, ts: seq<Text>, p: nat, end: nat)
    requires CountedAt(fc, ks, ts, p) == Success(At(vss, end))
    ensures CountAt(ts, p) == Success(At(|vss|, p + 1))
    ensures BlocksAt(fc, ks, |vss|, ts, p + 1) == Success(At(vss, end))
  {
    hide BlocksAt, AsInt;
  }

  lemma LegsRead(fc: FloatCodec, on: bool, vss: seq<seq<Value>>, ts: seq<Text>, p: nat, end: nat)
    requires ListIfAt(fc, on, LEG, ts, p) == Success(At(vss, end))
    ensures LegsAt(fc, on, LegsOf(vss), ts, p)
  {
    hide CountedAt, BlocksAt, BlockAt, CountAt, LegRowAt, LegRowOf;
    if on {
      CountRead(fc, LEG, vss, ts, p, end);
      forall i | 0 <= i < |vss| ensures LegRowAt(fc, LegsOf(vss)[i], ts, p + 1 + i * 8) {
        BlockNumber(fc, LEG, |vss|, vss, ts, p + 1, end, i);
        LegRowRead(fc, vss[i], ts, p + 1 + i * 8, p + 1 + i * 8 + 8);
      }
    }
  }

  lemma LegPricesRead(fc: FloatCodec, on: bool, vss: seq<seq<Value>>, ts: seq<Text>, p: nat, end: nat)
    requires ListIfAt(fc, on, LEG_PRICE, ts, p) == Success(At(vss, end))
    ensures LegPricesAt(fc, on, PricesOf(vss), ts, p)
  {
    hide CountedAt, BlocksAt, BlockAt, CountAt, FloatUnsetAt, FloatOf;
    if on {
      CountRead(fc, LEG_PRICE, vss, ts, p, end);
      forall i | 0 <= i < |vss| ensures FloatUnsetAt(fc, ts, p + 1 + i) == Success(PricesOf(vss)[i]) {
        BlockNumber(fc, LEG_PRICE, |vss|, vss, ts, p + 1, end, i);
        AuxRead(fc, vss[i], ts, p + 1 + i, p + 1 + i + 1);
      }
    }
  }

  lemma TagsRead(fc: FloatCodec, on: bool, vss: seq<seq<Value>>, ts: seq<Text>, p: nat, end: nat)
    requires ListIfAt(fc, on, TAG_VALUE, ts, p) == Success(At(vss, end))
    ensures TagsAt(fc, on, TagsOf(vss), ts, p)
  {
    hide CountedAt, BlocksAt, BlockAt, CountAt, TagRowAt, TagRowOf;
    if on {
      CountRead(fc, TAG_VALUE, vss, ts, p, end);
      forall i | 0 <= i < |vss| ensures TagRowAt(fc, TagsOf(vss)[i], ts, p + 1 + i * 2) {
        BlockNumber(fc, TAG_VALUE, |vss|, vss, ts, p + 1, end, i);
        TagRowRead(fc, vss[i], ts, p + 1 + i * 2, p + 1 + i * 2 + 2);
      }
    }
  }

  datatype OpenGroups = OpenGroups(legs: seq<Leg>, prices: seq<Float>, routing: seq<TagValue>)

  function OpenGroupsOf(x: Groups): OpenGroups { OpenGroups(LegsOf(x.legs), PricesOf(x.prices), TagsOf(x.routing)) }

  predicate OpenGroupsAt(fc: FloatCodec, version: int, x: OpenGroups, ts: seq<Text>, p: nat) {
    var q := p + ListSize(version >= 29, |x.legs|, 8);
    && LegsAt(fc, version >= 29, x.legs, ts, p) && LegPricesAt(fc, version >= 29, x.prices, ts, q)
    && TagsAt(fc, version >= 26, x.routing, ts, q + ListSize(version >= 29, |x.prices|, 1))
  }

  lemma OpenGroupsRead(fc: FloatCodec, version: int, x: Groups, ts: seq<Text>, p: nat, end: nat)
    requires ComboListsAt(fc, version, ts, p) == Success(At(x, end))
    ensures OpenGroupsAt(fc, version, OpenGroupsOf(x), ts, p)
  {
    hide ListIfAt, LegsAt, LegPricesAt, TagsAt, LegRowOf, TagRowOf, FloatOf, GroupsSize;
    var q := p + ListSize(version >= 29, |x.legs|, 8);
    var r := q + ListSize(version >= 29, |x.prices|, 1);
    hide ListSize;
    LegsRead(fc, version >= 29, x.legs, ts, p, q);
    LegPricesRead(fc, version >= 29, x.prices, ts, q, r);
    TagsRead(fc, version >= 26, x.routing, ts, r, end);
  }

  // ---------------------------------------------------------------- scale, hedge, delta-neutral contract, algo

  /** Up to message version 19 a number of components and one level size, from 20 on two level sizes. */
  datatype OpenScale = OpenScale(components: int64, initSize: int64, subsSize: int64, increment: Float,
                                 terms: ScaleTerms)

  function OpenScaleOf(version: int, x: Scaling): OpenScale {
    OpenScale(if version >= 20 then 0 else IntOf(x.sizes, 0), IntOf(x.sizes, if version >= 20 then 0 else 1),
              if version >= 20 then IntOf(x.sizes, 1) else 0, x.increment, ScaleRowOf(x.terms))
  }

  predicate OpenScaleAt(fc: FloatCodec, version: int, x: OpenScale, ts: seq<Text>, p: nat) {
    && IntUnsetAt(ts, p) == Success(if version >= 20 then x.initSize else x.components)
    && IntUnsetAt(ts, p + 1) == Success(if version >= 20 then x.subsSize else x.initSize)
    && (if version >= 20 then x.components == 0 else x.subsSize == 0)
    && FloatUnsetAt(fc, ts, p + 2) == Success(x.increment)
    && (if version >= 28 && x.increment != UNSETFLOAT && Positive(x.increment) then ScaleRowAt(fc, x.terms, ts, p + 3)
        else x.terms == ScaleTerms(0, 0, 0, false, 0, 0, false))
  }

  lemma OpenScaleRead(fc: FloatCodec, version: int, x: Scaling, ts: seq<Text>, p: nat, end: nat)
    requires ScalingAt(fc, version, ts, p) == Success(At(x, end))
    ensures OpenScaleAt(fc, version, OpenScaleOf(version, x), ts, p)
  {
    hide BlockAt, IntUnsetAt, FloatUnsetAt, ScaleRowAt;
    Picked(fc, [KIntUnset, KIntUnset], ts, p, 0);
    Picked(fc, [KIntUnset, KIntUnset], ts, p, 1);
    if version >= 28 && IncrementOn(x.increment) {
      ScaleRowRead(fc, x.terms, ts, p + 3, end);
    } else {
      assert x.terms == [];
    }
  }

  predicate OpenHedgeAt(version: int, kind: Text, param: Text, ts: seq<Text>, p: nat) {
    TextGate(version >= 24, kind, ts, p) && TextGate(kind != [], param, ts, p + 1)
  }

  lemma OpenHedgeRead(fc: FloatCodec, version: int, x: Hedging, ts: seq<Text>, p: nat, end: nat)
    requires HedgingAt(fc, version, ts, p) == Success(At(x, end))
    ensures OpenHedgeAt(version, x.kind, TextOf(x.param, 0), ts, p)
  {
    hide BlockAt, TextAt, On;
    if version >= 24 {
      GateRead(fc, x.kind != [], KStr, x.param, ts, p + 1, end);
    }
  }

  function OpenNeutralOf(x: Neutral): Option<DeltaNeutral> {
    if x.present then Some(NeutralRowOf(x.contract)) else None
  }

  predicate OpenNeutralAt(fc: FloatCodec, version: int, x: Option<DeltaNeutral>, ts: seq<Text>, p: nat) {
    && FlagGate(version >= 20, x.Some?, ts, p)
    && (x.Some? ==> NeutralRowAt(fc, x.value, ts, p + 1))
  }

  lemma OpenNeutralRead(fc: FloatCodec, version: int, x: Neutral, ts: seq<Text>, p: nat, end: nat)
    requires NeutralAt(fc, version, ts, p) == Success(At(x, end))
    ensures OpenNeutralAt(fc, version, OpenNeutralOf(x), ts, p)
  {
    hide BlockAt, BoolAt, NeutralRowAt, NeutralRowOf;
    if x.present {
      NeutralRowRead(fc, x.contract, ts, p + 1, end);
    }
  }

  predicate OpenAlgoAt(fc: FloatCodec, version: int, strategy: Text, params: seq<TagValue>, ts: seq<Text>, p: nat) {
    TextGate(version >= 21, strategy, ts, p) && TagsAt(fc, strategy != [], params, ts, p + 1)
  }

  lemma OpenAlgoRead(fc: FloatCodec, version: int, x: Algorithm, ts: seq<Text>, p: nat, end: nat)
    requires AlgorithmAt(fc, version, ts, p) == Success(At(x, end))
    ensures OpenAlgoAt(fc, version, x.strategy, TagsOf(x.params), ts, p)
  {
    hide ListIfAt, TextAt, TagsOf;
    if version >= 21 {
      TagsRead(fc, x.strategy != [], x.params, ts, p + 1, end);
    } else {
      NoTags();
    }
  }

  lemma NoTags()
    ensures TagsOf([]) == []
  {
  }

  // ---------------------------------------------------------------- PEG BENCH, conditions, adjusted order

  datatype OpenAdjusting = OpenAdjusting(peg: Benchmark, conditions: seq<Condition>, ignoreRth: bool, cancelOrder: bool,
                                         adjusted: AdjustedTerms)

  function OpenAdjustingOf(x: Adjusting): OpenAdjusting {
    OpenAdjusting(PegRowOf(x.peg), x.conditions, BoolOf(x.flags, 0), BoolOf(x.flags, 1), AdjustedTermsOf(x.adjusted))
  }

  /** Nothing of it before server version 102. */
  predicate OpenAdjustingAt(fc: FloatCodec, dv: int, orderType: Text, x: OpenAdjusting, ts: seq<Text>, p: nat) {
    if dv < 102 then
      x == OpenAdjusting(Benchmark(0, false, 0, 0, []), [], false, false, AdjustedTerms([], 0, 0, 0, 0, 0, 0, 0))
    else
      var q := p + Gate(orderType == PEG_BENCH, 5);
      var r := q + 1 + ConditionsSize(x.conditions);
      && PegGate(fc, orderType == PEG_BENCH, x.peg, ts, p)
      && CountAt(ts, q) == Success(At(|x.conditions|, q + 1)) && MadeOf(x.conditions, ts, q + 1)
      && FlagGate(x.conditions != [], x.ignoreRth, ts, r) && FlagGate(x.conditions != [], x.cancelOrder, ts, r + 1)
      && AdjustedTermsAt(fc, x.adjusted, ts, r + Gate(x.conditions != [], 2))
  }

  predicate PegGate(fc: FloatCodec, on: bool, x: Benchmark, ts: seq<Text>, p: nat) {
    if on then PegRowAt(fc, x, ts, p) else x == Benchmark(0, false, 0, 0, [])
  }

  /** Each condition is the fresh one that the tag in front of it stands for. */
  predicate MadeOf(cs: seq<Condition>, ts: seq<Text>, p: nat) {
    cs == [] || (IntAt(ts, p).Success? && NewCondition(IntAt(ts, p).value) == Success(cs[0])
                 && MadeOf(cs[1..], ts, p + 1 + |ReadsOf(cs[0])|))
  }

  lemma MadeStep(fc: FloatCodec, n: nat, cs: seq<Condition>, ts: seq<Text>, p: nat, end: nat)
    requires n > 0 && ConditionListAt(fc, n, ts, p) == Success(At(cs, end))
    ensures cs != [] && IntAt(ts, p).Success? && NewCondition(IntAt(ts, p).value) == Success(cs[0])
    ensures ConditionListAt(fc, n - 1, ts, p + 1 + |ReadsOf(cs[0])|) == Success(At(cs[1..], end))
  {
    hide BlockAt, IntAt, NewCondition, ReadsOf;
  }

  lemma {:induction false} MadeOfRead(fc: FloatCodec, n: nat, cs: seq<Condition>, ts: seq<Text>, p: nat, end: nat)
    requires ConditionListAt(fc, n, ts, p) == Success(At(cs, end))
    ensures MadeOf(cs, ts, p)
    decreases n
  {
    hide *;
    if n > 0 {
      MadeStep(fc, n, cs, ts, p, end);
      MadeOfRead(fc, n - 1, cs[1..], ts, p + 1 + |ReadsOf(cs[0])|, end);
      MadeOfCons(cs, ts, p);
    } else {
      NoneMade(fc, ts, p);
      NoneIsMade(ts, p);
    }
  }

  lemma MadeOfCons(cs: seq<Condition>, ts: seq<Text>, p: nat)
    requires cs != [] && IntAt(ts, p).Success? && NewCondition(IntAt(ts, p).value) == Success(cs[0])
    requires MadeOf(cs[1..], ts, p + 1 + |ReadsOf(cs[0])|)
    ensures MadeOf(cs, ts, p)
  {
    hide IntAt, NewCondition, ReadsOf;
  }

  lemma NoneIsMade(ts: seq<Text>, p: nat)
    ensures MadeOf([], ts, p)
  {
  }

  lemma NoneMade(fc: FloatCodec, ts: seq<Text>, p: nat)
    ensures ConditionListAt(fc, 0, ts, p) == Success(At([], p))
  {
  }

  lemma PegGateRead(fc: FloatCodec, on: bool, vs: seq<Value>, ts: seq<Text>, p: nat, end: nat)
    requires BlockAt(fc, On(on, PEG), ts, p) == Success(At(vs, end))
    ensures PegGate(fc, on, PegRowOf(vs), ts, p) && end == p + Gate(on, 5)
  {
    hide BlockAt, PegRowAt;
    if on { PegRowRead(fc, vs, ts, p, end); }
  }

  lemma AdjustingParts(fc: FloatCodec, dv: int, orderType: Text, x: Adjusting, ts: seq<Text>, p: nat, end: nat)
      returns (q: nat, r: nat, f: nat)
    requires dv >= PEGGED_TO_BENCHMARK && AdjustingAt(fc, dv, orderType, ts, p) == Success(At(x, end))
    ensures BlockAt(fc, On(orderType == PEG_BENCH, PEG), ts, p) == Success(At(x.peg, q))
    ensures CountAt(ts, q) == Success(At(|x.conditions|, q + 1))
    ensures ConditionListAt(fc, |x.conditions|, ts, q + 1) == Success(At(x.conditions, r))
    ensures r == q + 1 + ConditionsSize(x.conditions)
    ensures BlockAt(fc, On(x.conditions != [], [KBool, KBool]), ts, r) == Success(At(x.flags, f))
    ensures BlockAt(fc, ADJUSTED_READS, ts, f) == Success(At(x.adjusted, end))
  {
    hide BlockAt, MadeAt, CountAt, MadeSize, On;
    q := BlockAt(fc, On(orderType == PEG_BENCH, PEG), ts, p).value.next;
    var n := CountAt(ts, q).value.value;
    CountIsOne(ts, q);
    r := ConditionListAt(fc, n, ts, q + 1).value.next;
    f := BlockAt(fc, On(n > 0, [KBool, KBool]), ts, r).value.next;
    MadeConsumes(NewCondition, ReadsOf, fc, n, ts, q + 1);
  }

  lemma FlagsGateEnd(fc: FloatCodec, on: bool, vs: seq<Value>, ts: seq<Text>, p: nat, end: nat)
    requires BlockAt(fc, On(on, [KBool, KBool]), ts, p) == Success(At(vs, end))
    ensures end == p + Gate(on, 2)
  {
  }

  lemma AdjustingJoin(fc: FloatCodec, dv: int, orderType: Text, x: Adjusting, ts: seq<Text>, p: nat, q: nat, r: nat)
    requires dv >= PEGGED_TO_BENCHMARK && q == p + Gate(orderType == PEG_BENCH, 5)
    requires r == q + 1 + ConditionsSize(x.conditions) && PegGate(fc, orderType == PEG_BENCH, PegRowOf(x.peg), ts, p)
    requires CountAt(ts, q) == Success(At(|x.conditions|, q + 1)) && MadeOf(x.conditions, ts, q + 1)
    requires FlagGate(x.conditions != [], BoolOf(x.flags, 0), ts, r)
    requires FlagGate(x.conditions != [], BoolOf(x.flags, 1), ts, r + 1)
    requires AdjustedTermsAt(fc, AdjustedTermsOf(x.adjusted), ts, r + Gate(x.conditions != [], 2))
    ensures OpenAdjustingAt(fc, dv, orderType, OpenAdjustingOf(x), ts, p)
  {
    hide CountAt, PegGate, PegRowOf, FlagGate, BoolOf, AdjustedTermsAt, AdjustedTermsOf, MadeOf, ConditionsSize, Gate;
  }

  lemma NoAdjusting(fc: FloatCodec, dv: int, orderType: Text, x: Adjusting, ts: seq<Text>, p: nat, end: nat)
    requires dv < PEGGED_TO_BENCHMARK && AdjustingAt(fc, dv, orderType, ts, p) == Success(At(x, end))
    ensures OpenAdjustingAt(fc, dv, orderType, OpenAdjustingOf(x), ts, p)
  {
  }

  lemma OpenAdjustingRead(fc: FloatCodec, dv: int, orderType: Text, x: Adjusting, ts: seq<Text>, p: nat, end: nat)
    requires AdjustingAt(fc, dv, orderType, ts, p) == Success(At(x, end))
    ensures OpenAdjustingAt(fc, dv, orderType, OpenAdjustingOf(x), ts, p)
  {
    hide *;
    if dv < PEGGED_TO_BENCHMARK {
      NoAdjusting(fc, dv, orderType, x, ts, p, end);
    } else {
      var q, r, f := AdjustingParts(fc, dv, orderType, x, ts, p, end);
      PegGateRead(fc, orderType == PEG_BENCH, x.peg, ts, p, q);
      MadeOfRead(fc, |x.conditions|, x.conditions, ts, q + 1, r);
      FlagsGateRead(fc, x.conditions != [], x.flags, ts, r, f);
      FlagsGateEnd(fc, x.conditions != [], x.flags, ts, r, f);
      AdjustedTermsRead(fc, x.adjusted, ts, f, end);
      AdjustingJoin(fc, dv, orderType, x, ts, p, q, r);
    }
  }

  // ---------------------------------------------------------------- the whole order

  /** What the OpenOrder callback gets: contract, order and order state. */
  datatype Sheet = Sheet(version: int, terms: OpenTerms, orderType: Text, prices: OpenPrices, vol: OpenVol,
                         groups: OpenGroups, scale: OpenScale, hedgeType: Text, hedgeParam: Text, flags: OpenFlags,
                         neutral: Option<DeltaNeutral>, algoStrategy: Text, algoParams: seq<TagValue>,
                         state: OpenState, adjusting: OpenAdjusting, tail: OpenTail) {
    /** TrailStopPrice is assigned twice from server version 102 on. */
    function TrailStopPrice(dv: int): Float {
      if dv >= PEGGED_TO_BENCHMARK then adjusting.adjusted.trailStopPrice else vol.trail.trailStopPrice
    }
  }

  function SheetOf(dv: int, x: OpenOrder): Sheet {
    var v := x.head.version;
    Sheet(v, OpenTermsOf(dv, v, x.head.terms), x.head.orderType, OpenPricesOf(dv, v, x.head.prices),
          OpenVolOf(v, x.vol), OpenGroupsOf(x.groups), OpenScaleOf(v, x.scaling), x.hedging.kind,
          TextOf(x.hedging.param, 0), OpenFlagsOf(v, x.flags), OpenNeutralOf(x.neutral), x.algo.strategy,
          TagsOf(x.algo.params), OpenStateOf(dv, v, x.state), OpenAdjustingOf(x.adjusting), OpenTailOf(dv, x.tail))
  }

  // Where the sections start.

  function VolStart(dv: int, s: Sheet, pos: nat): nat { pos + HeadSize(dv, s.version) }

  function GroupsStart(dv: int, s: Sheet, pos: nat): nat {
    VolStart(dv, s, pos) + VolSize(s.version, s.vol.dnType != [])
  }

  function ScaleStart(dv: int, s: Sheet, pos: nat): nat {
    GroupsStart(dv, s, pos) + GroupsSize(s.version, |s.groups.legs|, |s.groups.prices|, |s.groups.routing|)
  }

  function HedgeStart(dv: int, s: Sheet, pos: nat): nat {
    ScaleStart(dv, s, pos) + 3 + Gate(s.version >= 28 && IncrementOn(s.scale.increment), 7)
  }

  function FlagsStart(dv: int, s: Sheet, pos: nat): nat {
    HedgeStart(dv, s, pos) + Gate(s.version >= 24, 1) + Gate(s.hedgeType != [], 1)
  }

  function NeutralStart(dv: int, s: Sheet, pos: nat): nat {
    FlagsStart(dv, s, pos) + 2 + Gate(s.version >= 25, 1) + Gate(s.version >= 22, 1)
  }

  function AlgoStart(dv: int, s: Sheet, pos: nat): nat {
    NeutralStart(dv, s, pos) + Gate(s.version >= 20, 1) + Gate(s.neutral.Some?, 3)
  }

  function StateStart(dv: int, s: Sheet, pos: nat): nat {
    AlgoStart(dv, s, pos) + AlgorithmSize(s.version, s.algoStrategy != [], |s.algoParams|)
  }

  function AdjustStart(dv: int, s: Sheet, pos: nat): nat {
    StateStart(dv, s, pos) + 10 + Gate(s.version >= 33, 1) + Gate(dv >= WHAT_IF_EXT_FIELDS, 6)
        + Gate(s.version >= 34, 2)
  }

  function TailStart(dv: int, s: Sheet, pos: nat): nat {
    AdjustStart(dv, s, pos) + AdjustingSize(dv, s.orderType, s.adjusting.conditions)
  }

  predicate HeadShown(fc: FloatCodec, dv: int, s: Sheet, ts: seq<Text>, pos: nat) {
    var p := pos + Gate(dv < 145, 1);
    var q := p + 12 + 2 * Gate(s.version >= 32, 1);
    && (if dv < 145 then IntAt(ts, pos).Success? && IntAt(ts, pos).value as int == s.version else s.version == dv)
    && OpenTermsAt(fc, dv, s.version, s.terms, ts, p) && TextAt(ts, q) == Success(s.orderType)
    && OpenPricesAt(fc, dv, s.version, s.prices, ts, q + 1)
  }

  /** Every attribute is what its reader finds at its position. */
  predicate SheetAt(fc: FloatCodec, dv: int, s: Sheet, ts: seq<Text>, pos: nat) {
    && HeadShown(fc, dv, s, ts, pos)
    && OpenVolAt(fc, s.version, s.vol, ts, VolStart(dv, s, pos))
    && OpenGroupsAt(fc, s.version, s.groups, ts, GroupsStart(dv, s, pos))
    && OpenScaleAt(fc, s.version, s.scale, ts, ScaleStart(dv, s, pos))
    && OpenHedgeAt(s.version, s.hedgeType, s.hedgeParam, ts, HedgeStart(dv, s, pos))
    && OpenFlagsAt(fc, s.version, s.flags, ts, FlagsStart(dv, s, pos))
    && OpenNeutralAt(fc, s.version, s.neutral, ts, NeutralStart(dv, s, pos))
    && OpenAlgoAt(fc, s.version, s.algoStrategy, s.algoParams, ts, AlgoStart(dv, s, pos))
    && OpenStateAt(fc, dv, s.version, s.state, ts, StateStart(dv, s, pos))
    && OpenAdjustingAt(fc, dv, s.orderType, s.adjusting, ts, AdjustStart(dv, s, pos))
    && OpenTailAt(fc, dv, s.tail, ts, TailStart(dv, s, pos))
  }

  lemma HeadKindsCount(dv: int, version: int)
    ensures |TermKinds(dv, version)| == 12 + 2 * Gate(version >= 32, 1)
  {
    TermKindsAre(dv, version);
    hide TermKinds, Gate;
  }

  lemma HeadParts(fc: FloatCodec, dv: int, h: Head, ts: seq<Text>, pos: nat, p: nat, q: nat, end: nat)
    requires HeadAt(fc, dv, ts, pos) == Success(At(h, end)) && p == pos + Gate(dv < ORDER_CONTAINER, 1)
    requires q == p + |TermKinds(dv, h.version)|
    ensures VersionAt(dv, ts, pos) == Success(At(h.version, p)) && TextAt(ts, q) == Success(h.orderType)
    ensures BlockAt(fc, TermKinds(dv, h.version), ts, p) == Success(At(h.terms, q))
    ensures BlockAt(fc, PriceKinds(dv, h.version), ts, q + 1) == Success(At(h.prices, end))
  {
    hide BlockAt, TermKinds, PriceKinds, VersionAt, TextAt, HeadSize, Gate;
  }

  lemma HeadJoin(fc: FloatCodec, dv: int, x: OpenOrder, ts: seq<Text>, pos: nat, p: nat, q: nat)
    requires VersionAt(dv, ts, pos) == Success(At(x.head.version, p)) && TextAt(ts, q) == Success(x.head.orderType)
    requires p == pos + Gate(dv < ORDER_CONTAINER, 1) && q == p + 12 + 2 * Gate(x.head.version >= 32, 1)
    requires OpenTermsAt(fc, dv, x.head.version, OpenTermsOf(dv, x.head.version, x.head.terms), ts, p)
    requires OpenPricesAt(fc, dv, x.head.version, OpenPricesOf(dv, x.head.version, x.head.prices), ts, q + 1)
    ensures HeadShown(fc, dv, SheetOf(dv, x), ts, pos)
  {
    SheetHead(dv, x);
    hide SheetOf, OpenTermsAt, OpenTermsOf, OpenPricesAt, OpenPricesOf, TextAt, AsInt, Gate;
  }

  lemma HeadRead(fc: FloatCodec, dv: int, x: OpenOrder, ts: seq<Text>, pos: nat, end: nat)
    requires HeadAt(fc, dv, ts, pos) == Success(At(x.head, end))
    ensures HeadShown(fc, dv, SheetOf(dv, x), ts, pos)
  {
    hide *;
    var v := x.head.version;
    HeadKindsCount(dv, v);
    var p := pos + Gate(dv < ORDER_CONTAINER, 1);
    var q := p + |TermKinds(dv, v)|;
    HeadParts(fc, dv, x.head, ts, pos, p, q, end);
    OpenTermsRead(fc, dv, v, x.head.terms, ts, p, q);
    OpenPricesRead(fc, dv, v, x.head.prices, ts, q + 1, end);
    HeadJoin(fc, dv, x, ts, pos, p, q);
  }

  lemma SheetHead(dv: int, x: OpenOrder)
    ensures var s, v := SheetOf(dv, x), x.head.version;
            && s.version == v && s.orderType == x.head.orderType && s.terms == OpenTermsOf(dv, v, x.head.terms)
            && s.prices == OpenPricesOf(dv, v, x.head.prices)
  {
  }

  lemma SheetFront(dv: int, x: OpenOrder)
    ensures var s, v := SheetOf(dv, x), x.head.version;
            && s.version == v && s.vol == OpenVolOf(v, x.vol) && s.vol.dnType == x.vol.dnType
            && s.groups == OpenGroupsOf(x.groups) && |s.groups.legs| == |x.groups.legs|
            && |s.groups.prices| == |x.groups.prices| && |s.groups.routing| == |x.groups.routing|
            && s.scale == OpenScaleOf(v, x.scaling) && s.scale.increment == x.scaling.increment
            && s.hedgeType == x.hedging.kind && s.hedgeParam == TextOf(x.hedging.param, 0)
            && s.flags == OpenFlagsOf(v, x.flags)
  {
  }

  lemma SheetBack(dv: int, x: OpenOrder)
    ensures var s, v := SheetOf(dv, x), x.head.version;
            && s.version == v && s.orderType == x.head.orderType
            && s.neutral == OpenNeutralOf(x.neutral) && s.neutral.Some? == x.neutral.present
            && s.algoStrategy == x.algo.strategy && s.algoParams == TagsOf(x.algo.params)
            && |s.algoParams| == |x.algo.params| && s.state == OpenStateOf(dv, v, x.state)
            && s.adjusting == OpenAdjustingOf(x.adjusting) && s.adjusting.conditions == x.adjusting.conditions
            && s.tail == OpenTailOf(dv, x.tail)
  {
  }

  lemma FlagsCount(version: int)
    ensures |FlagKinds(version)| == 2 + Gate(version >= 25, 1) + Gate(version >= 22, 1)
  {
    StateCount(0, version);
  }

  /** The sections of a message that can be read, one after the other. */
  lemma FrontRead(fc: FloatCodec, dv: int, x: OpenOrder, ts: seq<Text>, pos: nat, end: nat)
      returns (p: nat, q: nat, r: nat, s: nat, t: nat, u: nat)
    requires OpenOrderAt(fc, dv, ts, pos) == Success(At(x, end))
    ensures HeadAt(fc, dv, ts, pos) == Success(At(x.head, p))
    ensures VolAt(fc, x.head.version, ts, p) == Success(At(x.vol, q))
    ensures ComboListsAt(fc, x.head.version, ts, q) == Success(At(x.groups, r))
    ensures ScalingAt(fc, x.head.version, ts, r) == Success(At(x.scaling, s))
    ensures HedgingAt(fc, x.head.version, ts, s) == Success(At(x.hedging, t))
    ensures BlockAt(fc, FlagKinds(x.head.version), ts, t) == Success(At(x.flags, u))
    ensures BackAt(fc, dv, x, ts, u, end)
  {
    hide HeadAt, VolAt, ComboListsAt, ScalingAt, HedgingAt, BlockAt, NeutralAt, AlgorithmAt, AdjustingAt;
    hide FlagKinds, StateKinds, TailKinds;
    var v := x.head.version;
    p := HeadAt(fc, dv, ts, pos).value.next;
    q := VolAt(fc, v, ts, p).value.next;
    r := ComboListsAt(fc, v, ts, q).value.next;
    s := ScalingAt(fc, v, ts, r).value.next;
    t := HedgingAt(fc, v, ts, s).value.next;
    u := BlockAt(fc, FlagKinds(v), ts, t).value.next;
  }

  predicate BackAt(fc: FloatCodec, dv: int, x: OpenOrder, ts: seq<Text>, pos: nat, end: nat) {
    var v := x.head.version;
    var neutral := NeutralAt(fc, v, ts, pos);
    neutral.Success? && neutral.value.value == x.neutral
    && var algo := AlgorithmAt(fc, v, ts, neutral.value.next);
       algo.Success? && algo.value.value == x.algo
       && var state := BlockAt(fc, StateKinds(dv, v), ts, algo.value.next);
          state.Success? && state.value.value == x.state
          && var adjusting := AdjustingAt(fc, dv, x.head.orderType, ts, state.value.next);
             adjusting.Success? && adjusting.value.value == x.adjusting
             && BlockAt(fc, TailKinds(dv), ts, adjusting.value.next) == Success(At(x.tail, end))
  }

  lemma FrontEnds(fc: FloatCodec, dv: int, x: OpenOrder, s: Sheet, ts: seq<Text>, pos: nat, p: nat, q: nat, r: nat,
                  t: nat, u: nat, w: nat)
    requires s == SheetOf(dv, x) && HeadAt(fc, dv, ts, pos) == Success(At(x.head, p))
    requires VolAt(fc, s.version, ts, p) == Success(At(x.vol, q))
    requires ComboListsAt(fc, s.version, ts, q) == Success(At(x.groups, r))
    requires ScalingAt(fc, s.version, ts, r) == Success(At(x.scaling, t))
    requires HedgingAt(fc, s.version, ts, t) == Success(At(x.hedging, u))
    requires BlockAt(fc, FlagKinds(s.version), ts, u) == Success(At(x.flags, w))
    ensures p == VolStart(dv, s, pos) && q == GroupsStart(dv, s, pos) && r == ScaleStart(dv, s, pos)
    ensures t == HedgeStart(dv, s, pos) && u == FlagsStart(dv, s, pos) && w == NeutralStart(dv, s, pos)
  {
    SheetFront(dv, x);
    FlagsCount(s.version);
    hide SheetOf, HeadAt, VolAt, ComboListsAt, ScalingAt, HedgingAt, BlockAt, HeadSize, VolSize, GroupsSize, FlagKinds;
    hide IncrementOn, Gate;
  }

  /** The sections in front, where they start. */
  lemma FrontFound(fc: FloatCodec, dv: int, x: OpenOrder, s: Sheet, ts: seq<Text>, pos: nat, end: nat)
    requires OpenOrderAt(fc, dv, ts, pos) == Success(At(x, end)) && s == SheetOf(dv, x)
    ensures HeadAt(fc, dv, ts, pos) == Success(At(x.head, VolStart(dv, s, pos)))
    ensures VolAt(fc, s.version, ts, VolStart(dv, s, pos)) == Success(At(x.vol, GroupsStart(dv, s, pos)))
    ensures ComboListsAt(fc, s.version, ts, GroupsStart(dv, s, pos)) == Success(At(x.groups, ScaleStart(dv, s, pos)))
    ensures ScalingAt(fc, s.version, ts, ScaleStart(dv, s, pos)) == Success(At(x.scaling, HedgeStart(dv, s, pos)))
    ensures HedgingAt(fc, s.version, ts, HedgeStart(dv, s, pos)) == Success(At(x.hedging, FlagsStart(dv, s, pos)))
    ensures BlockAt(fc, FlagKinds(s.version), ts, FlagsStart(dv, s, pos))
            == Success(At(x.flags, NeutralStart(dv, s, pos)))
    ensures BackAt(fc, dv, x, ts, NeutralStart(dv, s, pos), end)
  {
    SheetHead(dv, x);
    hide *;
    var p, q, r, t, u, w := FrontRead(fc, dv, x, ts, pos, end);
    FrontEnds(fc, dv, x, s, ts, pos, p, q, r, t, u, w);
  }

  lemma BackEnds(fc: FloatCodec, dv: int, x: OpenOrder, s: Sheet, ts: seq<Text>, pos: nat, p: nat, q: nat, r: nat)
    requires s == SheetOf(dv, x) && NeutralAt(fc, s.version, ts, NeutralStart(dv, s, pos)) == Success(At(x.neutral, p))
    requires AlgorithmAt(fc, s.version, ts, p) == Success(At(x.algo, q))
    requires BlockAt(fc, StateKinds(dv, s.version), ts, q) == Success(At(x.state, r))
    ensures p == AlgoStart(dv, s, pos) && q == StateStart(dv, s, pos) && r == AdjustStart(dv, s, pos)
  {
    SheetBack(dv, x);
    StateCount(dv, s.version);
    hide SheetOf, NeutralAt, AlgorithmAt, BlockAt, StateKinds, FlagKinds, AlgorithmSize, NeutralStart, Gate;
  }

  lemma AdjustEnds(fc: FloatCodec, dv: int, x: OpenOrder, s: Sheet, ts: seq<Text>, pos: nat, t: nat)
    requires s == SheetOf(dv, x)
    requires AdjustingAt(fc, dv, s.orderType, ts, AdjustStart(dv, s, pos)) == Success(At(x.adjusting, t))
    ensures t == TailStart(dv, s, pos)
  {
    SheetBack(dv, x);
    AdjustingConsumes(fc, dv, s.orderType, ts, AdjustStart(dv, s, pos));
    hide SheetOf, AdjustingAt, AdjustingSize, AdjustStart;
  }

  /** And those behind. */
  lemma BackFound(fc: FloatCodec, dv: int, x: OpenOrder, s: Sheet, ts: seq<Text>, pos: nat, end: nat)
    requires s == SheetOf(dv, x) && BackAt(fc, dv, x, ts, NeutralStart(dv, s, pos), end)
    ensures NeutralAt(fc, s.version, ts, NeutralStart(dv, s, pos)) == Success(At(x.neutral, AlgoStart(dv, s, pos)))
    ensures AlgorithmAt(fc, s.version, ts, AlgoStart(dv, s, pos)) == Success(At(x.algo, StateStart(dv, s, pos)))
    ensures BlockAt(fc, StateKinds(dv, s.version), ts, StateStart(dv, s, pos))
            == Success(At(x.state, AdjustStart(dv, s, pos)))
    ensures AdjustingAt(fc, dv, s.orderType, ts, AdjustStart(dv, s, pos))
            == Success(At(x.adjusting, TailStart(dv, s, pos)))
    ensures BlockAt(fc, TailKinds(dv), ts, TailStart(dv, s, pos)) == Success(At(x.tail, end))
  {
    SheetHead(dv, x);
    hide SheetOf, NeutralAt, AlgorithmAt, BlockAt, AdjustingAt, StateKinds, TailKinds, NeutralStart, AlgoStart;
    hide StateStart, AdjustStart, TailStart;
    var v := x.head.version;
    var p := NeutralAt(fc, v, ts, NeutralStart(dv, s, pos)).value.next;
    var q := AlgorithmAt(fc, v, ts, p).value.next;
    var r := BlockAt(fc, StateKinds(dv, v), ts, q).value.next;
    var t := AdjustingAt(fc, dv, x.head.orderType, ts, r).value.next;
    BackEnds(fc, dv, x, s, ts, pos, p, q, r);
    AdjustEnds(fc, dv, x, s, ts, pos, t);
  }

  /** What any open order that can be read means, for every server version: each attribute handed to the callback is the
      field at its own position, understood by its own reader. */
  lemma OpenOrderMeans(fc: FloatCodec, dv: int, x: OpenOrder, ts: seq<Text>, pos: nat, end: nat)
    requires OpenOrderAt(fc, dv, ts, pos) == Success(At(x, end))
    ensures SheetAt(fc, dv, SheetOf(dv, x), ts, pos)
    ensures end == TailStart(dv, SheetOf(dv, x), pos) + TailLength(dv)
  {
    hide *;
    var s := SheetOf(dv, x);
    var v := s.version;
    SheetHead(dv, x);
    SheetFront(dv, x);
    SheetBack(dv, x);
    FrontFound(fc, dv, x, s, ts, pos, end);
    BackFound(fc, dv, x, s, ts, pos, end);
    HeadRead(fc, dv, x, ts, pos, VolStart(dv, s, pos));
    OpenVolRead(fc, v, x.vol, ts, VolStart(dv, s, pos), GroupsStart(dv, s, pos));
    OpenGroupsRead(fc, v, x.groups, ts, GroupsStart(dv, s, pos), ScaleStart(dv, s, pos));
    OpenScaleRead(fc, v, x.scaling, ts, ScaleStart(dv, s, pos), HedgeStart(dv, s, pos));
    OpenHedgeRead(fc, v, x.hedging, ts, HedgeStart(dv, s, pos), FlagsStart(dv, s, pos));
    OpenFlagsRead(fc, v, x.flags, ts, FlagsStart(dv, s, pos), NeutralStart(dv, s, pos));
    OpenNeutralRead(fc, v, x.neutral, ts, NeutralStart(dv, s, pos), AlgoStart(dv, s, pos));
    OpenAlgoRead(fc, v, x.algo, ts, AlgoStart(dv, s, pos), StateStart(dv, s, pos));
    OpenStateRead(fc, dv, v, x.state, ts, StateStart(dv, s, pos), AdjustStart(dv, s, pos));
    OpenAdjustingRead(fc, dv, s.orderType, x.adjusting, ts, AdjustStart(dv, s, pos), TailStart(dv, s, pos));
    OpenTailRead(fc, dv, x.tail, ts, TailStart(dv, s, pos), end);
    TailKindsAre(dv);
    SheetJoin(fc, dv, s, ts, pos);
    TailEnds(fc, dv, x.tail, ts, TailStart(dv, s, pos), end);
  }

  lemma TailEnds(fc: FloatCodec, dv: int, vs: seq<Value>, ts: seq<Text>, p: nat, end: nat)
    requires BlockAt(fc, TailKinds(dv), ts, p) == Success(At(vs, end))
    ensures end == p + TailLength(dv)
  {
    TailKindsAre(dv);
    hide BlockAt, TailKinds;
  }

  lemma SheetJoin(fc: FloatCodec, dv: int, s: Sheet, ts: seq<Text>, pos: nat)
    requires HeadShown(fc, dv, s, ts, pos)
    requires OpenVolAt(fc, s.version, s.vol, ts, VolStart(dv, s, pos))
    requires OpenGroupsAt(fc, s.version, s.groups, ts, GroupsStart(dv, s, pos))
    requires OpenScaleAt(fc, s.version, s.scale, ts, ScaleStart(dv, s, pos))
    requires OpenHedgeAt(s.version, s.hedgeType, s.hedgeParam, ts, HedgeStart(dv, s, pos))
    requires OpenFlagsAt(fc, s.version, s.flags, ts, FlagsStart(dv, s, pos))
    requires OpenNeutralAt(fc, s.version, s.neutral, ts, NeutralStart(dv, s, pos))
    requires OpenAlgoAt(fc, s.version, s.algoStrategy, s.algoParams, ts, AlgoStart(dv, s, pos))
    requires OpenStateAt(fc, dv, s.version, s.state, ts, StateStart(dv, s, pos))
    requires OpenAdjustingAt(fc, dv, s.orderType, s.adjusting, ts, AdjustStart(dv, s, pos))
    requires OpenTailAt(fc, dv, s.tail, ts, TailStart(dv, s, pos))
    ensures SheetAt(fc, dv, s, ts, pos)
  {
    hide HeadShown, OpenVolAt, OpenGroupsAt, OpenScaleAt, OpenHedgeAt, OpenFlagsAt, OpenNeutralAt, OpenAlgoAt;
    hide OpenStateAt, OpenAdjustingAt, OpenTailAt, VolStart, GroupsStart, ScaleStart, HedgeStart, FlagsStart;
    hide NeutralStart, AlgoStart, StateStart, AdjustStart, TailStart;
  }
}
