/** client.go: contracts, orders and the fields PlaceOrder appends for them. */
module Orders {
  import opened Basics
  import opened Fields
  import opened Cursor
  import opened Conditions
  import opened OrderLayout
  import opened Versions

  // ---------------------------------------------------------------- contracts and orders

  // Runs of scalar attributes are records. Those that open orders share are typed blocks as well, of the kinds beside
  // them.

  /** Expiry .. LocalSymbol. */
  datatype ContractTerms = ContractTerms(expiry: Text, strike: Float, right: Text, multiplier: Text, exchange: Text,
                                         primaryExchange: Text, currency: Text, localSymbol: Text)

  const LEG: seq<Kind> := [KInt, KInt, KStr, KStr, KInt, KInt, KStr, KInt]

  /** ContractID .. ExemptCode of a combo leg. */
  datatype Leg = Leg(contractID: int64, ratio: int64, action: Text, exchange: Text, openClose: int64,
                     shortSaleSlot: int64, designatedLocation: Text, exemptCode: int64) {
    function Values(): (r: seq<Value>)
      ensures TypedAll(LEG, r)
    {
      [VInt(contractID), VInt(ratio), VStr(action), VStr(exchange), VInt(openClose), VInt(shortSaleSlot),
       VStr(designatedLocation), VInt(exemptCode)]
    }
  }

  const LEG_PRICE: seq<Kind> := [KFloatUnset]
  const TAG_VALUE: seq<Kind> := [KStr, KStr]

  /** TIF .. Hidden. */
  datatype Routing = Routing(tif: Text, ocaGroup: Text, account: Text, openClose: Text, origin: int64,
                             orderRef: Text, transmit: bool, parentID: int64, blockOrder: bool, sweepToFill: bool,
                             displaySize: int64, triggerMethod: int64, outsideRth: bool, hidden: bool)

  /** DiscretionaryAmount .. FAProfile. */
  datatype Handling = Handling(discretionaryAmount: Float, goodAfterTime: Text, goodTillDate: Text, faGroup: Text,
                               faMethod: Text, faPercentage: Text, faProfile: Text)

  /** OCAType .. PercentOffset. */
  datatype Clearing = Clearing(ocaType: int64, rule80A: Text, settlingFirm: Text, allOrNone: bool, minQty: int64,
                               percentOffset: Float)

  /** AuctionStrategy .. VolatilityType. */
  datatype Auction = Auction(strategy: int64, startingPrice: Float, stockRefPrice: Float, delta: Float,
                             stockRangeLower: Float, stockRangeUpper: Float, overridePercentage: bool,
                             volatility: Float, volatilityType: int64)

  const DN_ORDER: seq<Kind> := [KInt, KStr, KStr, KStr, KStr, KBool, KInt, KStr]

  /** DeltaNeutralContractID .. DeltaNeutralDesignatedLocation. */
  datatype NeutralOrder = NeutralOrder(contractID: int64, settlingFirm: Text, clearingAccount: Text,
                                       clearingIntent: Text, openClose: Text, shortSale: bool, shortSaleSlot: int64,
                                       designatedLocation: Text) {
    function Values(): (r: seq<Value>)
      ensures TypedAll(DN_ORDER, r)
    {
      [VInt(contractID), VStr(settlingFirm), VStr(clearingAccount), VStr(clearingIntent), VStr(openClose),
       VBool(shortSale), VInt(shortSaleSlot), VStr(designatedLocation)]
    }
  }

  /** ContinuousUpdate, ReferencePriceType, TrailStopPrice. */
  datatype Pegged = Pegged(continuousUpdate: bool, referencePriceType: int64, trailStopPrice: Float)

  const SCALE_TERMS: seq<Kind> := [KFloatUnset, KIntUnset, KFloatUnset, KBool, KIntUnset, KIntUnset, KBool]

  /** ScalePriceAdjustValue .. ScaleRandomPercent. */
  datatype ScaleTerms = ScaleTerms(priceAdjustValue: Float, priceAdjustInterval: int64, profitOffset: Float,
                                   autoReset: bool, initPosition: int64, initFillQty: int64, randomPercent: bool) {
    function Values(): (r: seq<Value>)
      ensures TypedAll(SCALE_TERMS, r)
    {
      [VFloat(priceAdjustValue), VInt(priceAdjustInterval), VFloat(profitOffset), VBool(autoReset),
       VInt(initPosition), VInt(initFillQty), VBool(randomPercent)]
    }
  }

  const DN_CONTRACT: seq<Kind> := [KInt, KFloat, KFloat]

  /** The delta-neutral contract. */
  datatype DeltaNeutral = DeltaNeutral(contractID: int64, delta: Float, price: Float) {
    function Values(): (r: seq<Value>)
      ensures TypedAll(DN_CONTRACT, r)
    {
      [VInt(contractID), VFloat(delta), VFloat(price)]
    }
  }

  const PEG: seq<Kind> := [KInt, KBool, KFloat, KFloat, KStr]

  /** ReferenceContractID .. ReferenceExchangeID. */
  datatype Benchmark = Benchmark(contractID: int64, isDecrease: bool, changeAmount: Float, referenceChange: Float,
                                 exchangeID: Text) {
    function Values(): (r: seq<Value>)
      ensures TypedAll(PEG, r)
    {
      [VInt(contractID), VBool(isDecrease), VFloat(changeAmount), VFloat(referenceChange), VStr(exchangeID)]
    }
  }

  /** AdjustedOrderType .. AdjustableTrailingUnit. */
  datatype Adjusted = Adjusted(orderType: Text, triggerPrice: Float, limitPriceOffset: Float, stopPrice: Float,
                               stopLimitPrice: Float, trailingAmount: Float, trailingUnit: int64)

  datatype TagValue = TagValue(tag: Text, value: Text)

  /** The lengths of its lists are Go ints. */
  datatype Contract = Contract(
    contractID: int64, symbol: Text, secType: Text, terms: ContractTerms, tradingClass: Text, secIDType: Text,
    secID: Text, comboLegs: seq<Leg>, deltaNeutral: Option<DeltaNeutral>)
  {
    ghost predicate Valid() { |comboLegs| <= INT64_MAX }
  }

  datatype Order = Order(
    action: Text, totalQuantity: Float, orderType: Text, limitPrice: Float, auxPrice: Float, routing: Routing,
    orderComboLegs: seq<Float>, smartRouting: seq<TagValue>, handling: Handling, modelCode: Text,
    shortSaleSlot: int64, designatedLocation: Text, exemptCode: int64, clearing: Clearing, auction: Auction,
    dnType: Text, dnAuxPrice: Float, dnOrder: NeutralOrder, pegged: Pegged, trailingPercent: Float,
    scaleInit: int64, scaleSubs: int64, scaleIncrement: Float, scaleTerms: ScaleTerms,
    scaleTable: Text, activeStart: Text, activeStop: Text, hedgeType: Text, hedgeParam: Text, optOut: bool,
    clearingAccount: Text, clearingIntent: Text, notHeld: bool, algoStrategy: Text, algoParams: seq<TagValue>,
    algoID: Text, whatIf: bool, miscOptions: seq<TagValue>, solicited: bool, randomizeSize: bool, randomizePrice: bool,
    peg: Benchmark, conditions: seq<Condition>, ignoreRth: bool, cancelOrder: bool, adjusted: Adjusted,
    extOperator: Text, tierName: Text, tierValue: Text, cashQty: Float, decisionMaker: Text, decisionAlgo: Text,
    executionTrader: Text, executionAlgo: Text, dontUseAutoPrice: bool, isOms: bool, discretionaryUpToLimit: bool,
    usePriceMgmt: bool, duration: int64, postToAts: int64)
  {
    ghost predicate Valid() {
      && |orderComboLegs| <= INT64_MAX && |smartRouting| <= INT64_MAX && |algoParams| <= INT64_MAX
      && |conditions| <= INT64_MAX
    }
  }

  const UNSET: int64 := UNSETINT as int64

  // ---------------------------------------------------------------- what is sent, piece by piece

  function HeadFields(v: int, id: int64, c: Contract): seq<Field> {
    [FInt(3)] + (if v < ORDER_CONTAINER then [FInt(45)] else []) + [FInt(id), FInt(c.contractID), FStr(c.symbol)]
  }

  function TermFields(fc: FloatCodec, c: Contract, o: Order): seq<Field>
    requires c.Valid()
  {
    var t := c.terms;
    [FStr(t.expiry), FFloat(t.strike), FStr(t.right), FStr(t.multiplier), FStr(t.exchange), FStr(t.primaryExchange),
     FStr(t.currency), FStr(t.localSymbol), FStr(c.tradingClass), FStr(c.secIDType), FStr(c.secID), FStr(o.action),
     FFloat(o.totalQuantity)]
  }

  function RoutingFields(fc: FloatCodec, o: Order): seq<Field>
    requires o.Valid()
  {
    var r := o.routing;
    [HandleEmptyFloat(fc, o.limitPrice), HandleEmptyFloat(fc, o.auxPrice), FStr(r.tif), FStr(r.ocaGroup),
     FStr(r.account), FStr(r.openClose), FInt(r.origin), FStr(r.orderRef), FBool(r.transmit), FInt(r.parentID),
     FBool(r.blockOrder), FBool(r.sweepToFill), FInt(r.displaySize), FInt(r.triggerMethod), FBool(r.outsideRth),
     FBool(r.hidden)]
  }

  function TermsFields(fc: FloatCodec, v: int, id: int64, c: Contract, o: Order): seq<Field>
    requires c.Valid() && o.Valid()
  {
    HeadFields(v, id, c) + ([FStr(c.secType)] + (TermFields(fc, c, o) + ([FStr(o.orderType)] + RoutingFields(fc, o))))
  }

  function ListFields(items: seq<seq<Field>>): seq<Field>
    requires |items| <= INT64_MAX
  {
    [FInt(|items| as int64)] + Flatten(items)
  }

  function LegFields(fc: FloatCodec, legs: seq<Leg>): seq<seq<Field>> {
    seq(|legs|, i requires 0 <= i < |legs| => WriteBlock(fc, LEG, legs[i].Values()))
  }

  function PriceFields(fc: FloatCodec, prices: seq<Float>): seq<seq<Field>> {
    seq(|prices|, i requires 0 <= i < |prices| => [HandleEmptyFloat(fc, prices[i])])
  }

  function TagFields(tvs: seq<TagValue>): seq<seq<Field>> {
    seq(|tvs|, i requires 0 <= i < |tvs| => [FStr(tvs[i].tag), FStr(tvs[i].value)])
  }

  function ComboFields(fc: FloatCodec, c: Contract, o: Order): seq<Field>
    requires c.Valid() && o.Valid()
  {
    if c.secType != BAG then []
    else ListFields(LegFields(fc, c.comboLegs))
         + (ListFields(PriceFields(fc, o.orderComboLegs)) + ListFields(TagFields(o.smartRouting)))
  }

  function HandlingFields(fc: FloatCodec, v: int, o: Order): seq<Field>
    requires o.Valid()
  {
    AccountFields(fc, v, o) + (ShortSaleFields(fc, o) + AuctionFields(fc, o))
  }

  function AccountFields(fc: FloatCodec, v: int, o: Order): seq<Field> {
    var h := o.handling;
    [FStr([]), FFloat(h.discretionaryAmount), FStr(h.goodAfterTime), FStr(h.goodTillDate), FStr(h.faGroup),
     FStr(h.faMethod), FStr(h.faPercentage), FStr(h.faProfile)]
        + (if v >= MODELS_SUPPORT then [FStr(o.modelCode)] else [])
  }

  function ShortSaleFields(fc: FloatCodec, o: Order): seq<Field> {
    var c := o.clearing;
    [FInt(o.shortSaleSlot), FStr(o.designatedLocation), FInt(o.exemptCode), FInt(c.ocaType), FStr(c.rule80A),
     FStr(c.settlingFirm), FBool(c.allOrNone), HandleEmptyInt(c.minQty), HandleEmptyFloat(fc, c.percentOffset)]
  }

  function AuctionFields(fc: FloatCodec, o: Order): seq<Field> {
    var a := o.auction;
    [FBool(false), FBool(false), HandleEmptyFloat(fc, UNSETFLOAT), FInt(a.strategy),
     HandleEmptyFloat(fc, a.startingPrice), HandleEmptyFloat(fc, a.stockRefPrice), HandleEmptyFloat(fc, a.delta),
     HandleEmptyFloat(fc, a.stockRangeLower), HandleEmptyFloat(fc, a.stockRangeUpper), FBool(a.overridePercentage),
     HandleEmptyFloat(fc, a.volatility), HandleEmptyInt(a.volatilityType)]
  }

  function DnOrderFields(fc: FloatCodec, o: Order): seq<Field>
    requires o.Valid()
  {
    [HandleEmptyFloat(fc, o.dnAuxPrice)] + (if o.dnType != [] then WriteBlock(fc, DN_ORDER, o.dnOrder.Values()) else [])
  }

  function VolatilityFields(fc: FloatCodec, v: int, o: Order): seq<Field>
    requires o.Valid()
  {
    HandlingFields(fc, v, o) + ([FStr(o.dnType)] + DnOrderFields(fc, o))
  }

  function SizeFields(fc: FloatCodec, o: Order): seq<Field>
    requires o.Valid()
  {
    var p := o.pegged;
    [FBool(p.continuousUpdate), HandleEmptyInt(p.referencePriceType), HandleEmptyFloat(fc, p.trailStopPrice),
     HandleEmptyFloat(fc, o.trailingPercent), HandleEmptyInt(o.scaleInit), HandleEmptyInt(o.scaleSubs)]
  }

  predicate Scaled(o: Order) { IncrementOn(o.scaleIncrement) }

  function ScaleTermFields(fc: FloatCodec, o: Order): seq<Field>
    requires o.Valid()
  {
    if Scaled(o) then WriteBlock(fc, SCALE_TERMS, o.scaleTerms.Values()) else []
  }

  function TableFields(o: Order): seq<Field> { [FStr(o.scaleTable), FStr(o.activeStart), FStr(o.activeStop)] }

  function ScaleFields(fc: FloatCodec, o: Order): seq<Field>
    requires o.Valid()
  {
    SizeFields(fc, o) + ([HandleEmptyFloat(fc, o.scaleIncrement)] + (ScaleTermFields(fc, o) + TableFields(o)))
  }

  function HedgeParamFields(o: Order): seq<Field> { if o.hedgeType != [] then [FStr(o.hedgeParam)] else [] }

  function FlagFields(o: Order): seq<Field> {
    [FBool(o.optOut), FStr(o.clearingAccount), FStr(o.clearingIntent), FBool(o.notHeld)]
  }

  function DnContractFields(fc: FloatCodec, c: Contract): seq<Field>
    requires c.Valid()
  {
    if c.deltaNeutral.Some? then WriteBlock(fc, DN_CONTRACT, c.deltaNeutral.value.Values()) else []
  }

  function HedgeFields(fc: FloatCodec, c: Contract, o: Order): seq<Field>
    requires c.Valid()
  {
    [FStr(o.hedgeType)] + (HedgeParamFields(o)
      + (FlagFields(o) + ([FBool(c.deltaNeutral.Some?)] + DnContractFields(fc, c))))
  }

  function MiscText(tvs: seq<TagValue>): Text {
    if tvs == [] then [] else tvs[0].tag + [61] + tvs[0].value + [59] + MiscText(tvs[1..])
  }

  function TailFields(o: Order): seq<Field> {
    [FStr(o.algoID), FBool(o.whatIf), FStr(MiscText(o.miscOptions)), FBool(o.solicited), FBool(o.randomizeSize),
     FBool(o.randomizePrice)]
  }

  function AlgoFields(o: Order): seq<Field>
    requires o.Valid()
  {
    [FStr(o.algoStrategy)]
        + ((if o.algoStrategy == [] then [] else ListFields(TagFields(o.algoParams))) + TailFields(o))
  }

  function PegFields(fc: FloatCodec, o: Order): seq<Field>
    requires o.Valid()
  {
    if o.orderType == PEG_BENCH then WriteBlock(fc, PEG, o.peg.Values()) else []
  }

  function AllConditionFields(cs: seq<Condition>): seq<Field> {
    if cs == [] then [] else ConditionFields(cs[0]) + AllConditionFields(cs[1..])
  }

  function ConditionFields(c: Condition): seq<Field> { [FInt(c.CondType())] + c.ToFields() }

  function ConditionFlagFields(o: Order): seq<Field> {
    if o.conditions != [] then [FBool(o.ignoreRth), FBool(o.cancelOrder)] else []
  }

  const GATED := 11

  /** The version from which each of the attributes at the end of the message is sent. */
  const GATES: seq<int> := [EXT_OPERATOR, SOFT_DOLLAR_TIER, CASH_QTY, DECISION_MAKER, MIFID_EXECUTION,
                            AUTO_PRICE_FOR_HEDGE, ORDER_CONTAINER, D_PEG_ORDERS, PRICE_MGMT_ALGO, DURATION, POST_TO_ATS]

  function GatedAttribute(o: Order, k: nat): (fs: seq<Field>)
    requires k < GATED
    ensures |fs| == if k == 1 || k == 3 || k == 4 then 2 else 1
  {
    match k
    case 0 => [FStr(o.extOperator)]
    case 1 => [FStr(o.tierName), FStr(o.tierValue)]
    case 2 => [FFloat(o.cashQty)]
    case 3 => [FStr(o.decisionMaker), FStr(o.decisionAlgo)]
    case 4 => [FStr(o.executionTrader), FStr(o.executionAlgo)]
    case 5 => [FBool(o.dontUseAutoPrice)]
    case 6 => [FBool(o.isOms)]
    case 7 => [FBool(o.discretionaryUpToLimit)]
    case 8 => [FBool(o.usePriceMgmt)]
    case 9 => [HandleEmptyInt(o.duration)]
    case _ => [HandleEmptyInt(o.postToAts)]
  }

  /** The attributes from number k on that the version takes. */
  function Gated(v: int, o: Order, k: nat): seq<Field>
    requires k <= GATED
    decreases GATED - k
  {
    if k == GATED then [] else SentAt(v, o, k) + Gated(v, o, k + 1)
  }

  function SentAt(v: int, o: Order, k: nat): seq<Field>
    requires k < GATED
  {
    if v >= GATES[k] then GatedAttribute(o, k) else []
  }

  function AdjustedFields(o: Order): seq<Field> {
    var a := o.adjusted;
    [FStr(a.orderType), FFloat(a.triggerPrice), FFloat(a.limitPriceOffset), FFloat(a.stopPrice),
     FFloat(a.stopLimitPrice), FFloat(a.trailingAmount), FInt(a.trailingUnit)]
  }

  function AdjustFields(fc: FloatCodec, v: int, o: Order): seq<Field>
    requires o.Valid()
  {
    PegFields(fc, o) + ([FInt(|o.conditions| as int64)] + (AllConditionFields(o.conditions)
      + (ConditionFlagFields(o) + (AdjustedFields(o) + Gated(v, o, 0)))))
  }

  /** Everything PlaceOrder sends for an order, for server versions from 102. */
  function OrderFields(fc: FloatCodec, v: int, id: int64, c: Contract, o: Order): seq<Field>
    requires c.Valid() && o.Valid()
  {
    TermsFields(fc, v, id, c, o) + (ComboFields(fc, c, o) + (VolatilityFields(fc, v, o) + (ScaleFields(fc, o)
      + (HedgeFields(fc, c, o) + (AlgoFields(o) + AdjustFields(fc, v, o))))))
  }
}
