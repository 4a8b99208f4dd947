/** client.go: the guards at the head of PlaceOrder, what they refuse, and which attribute their error is about. */
module Guards {
  import opened Basics
  import opened Fields
  import opened OrderLayout
  import opened Orders
  import opened Versions

  /** What PlaceOrder's guards are about, in their order. */
  datatype Attribute =
    | NeutralContract | ScaleSubs | AlgoOrder | HeldFlag | SecurityId | ContractId | ExemptCode | HedgeOrder | OptOut
    | NeutralIds | NeutralOpenClose | ScaleParameters | LegPrices | TrailingPercent
    | TradingClass | ScaleTable | AlgoId | Solicited | ModelCode | ExtOperator | Tier | CashQty | DecisionMaker
    | Executor | AutoPrice | OmsContainer | PriceMgmt | Duration | PostToAts

  const GUARDS := 29

  /** The attribute that guard number k is about. */
  function Guard(k: nat): Attribute {
    match k
    case 0 => NeutralContract case 1 => ScaleSubs case 2 => AlgoOrder case 3 => HeldFlag case 4 => SecurityId
    case 5 => ContractId case 6 => ExemptCode case 7 => HedgeOrder case 8 => OptOut case 9 => NeutralIds
    case 10 => NeutralOpenClose case 11 => ScaleParameters case 12 => LegPrices case 13 => TrailingPercent
    case 14 => TradingClass case 15 => ScaleTable case 16 => AlgoId case 17 => Solicited case 18 => ModelCode
    case 19 => ExtOperator case 20 => Tier case 21 => CashQty case 22 => DecisionMaker case 23 => Executor
    case 24 => AutoPrice case 25 => OmsContainer case 26 => PriceMgmt case 27 => Duration case _ => PostToAts
  }

  function Rank(a: Attribute): (k: nat)
    ensures k < GUARDS && Guard(k) == a
  {
    match a
    case NeutralContract => 0 case ScaleSubs => 1 case AlgoOrder => 2 case HeldFlag => 3 case SecurityId => 4
    case ContractId => 5 case ExemptCode => 6 case HedgeOrder => 7 case OptOut => 8 case NeutralIds => 9
    case NeutralOpenClose => 10 case ScaleParameters => 11 case LegPrices => 12 case TrailingPercent => 13
    case TradingClass => 14 case ScaleTable => 15 case AlgoId => 16 case Solicited => 17 case ModelCode => 18
    case ExtOperator => 19 case Tier => 20 case CashQty => 21 case DecisionMaker => 22 case Executor => 23
    case AutoPrice => 24 case OmsContainer => 25 case PriceMgmt => 26 case Duration => 27 case PostToAts => 28
  }

  predicate LegExempt(c: Contract)
    requires c.Valid()
  {
    exists i :: 0 <= i < |c.comboLegs| && c.comboLegs[i].exemptCode != -1
  }

  predicate LegPriced(o: Order) { exists i :: 0 <= i < |o.orderComboLegs| && o.orderComboLegs[i] != UNSETFLOAT }

  predicate NeutralIdsSet(o: Order)
    requires o.Valid()
  {
    || o.dnOrder.contractID > 0 || o.dnOrder.settlingFirm != [] || o.dnOrder.clearingAccount != []
    || o.dnOrder.clearingIntent != []
  }

  predicate NeutralOpenCloseSet(o: Order)
    requires o.Valid()
  {
    || o.dnOrder.openClose != [] || o.dnOrder.shortSale || o.dnOrder.shortSaleSlot > 0
    || o.dnOrder.designatedLocation != []
  }

  predicate ScaleParametersSet(o: Order)
    requires o.Valid()
  {
    && Scaled(o)
    && (|| o.scaleTerms.priceAdjustValue != UNSETFLOAT || o.scaleTerms.priceAdjustInterval != UNSET
        || o.scaleTerms.profitOffset != UNSETFLOAT || o.scaleTerms.autoReset || o.scaleTerms.initPosition != UNSET
        || o.scaleTerms.initFillQty != UNSET || o.scaleTerms.randomPercent)
  }

  /** Guard number k: the order sets its attribute and the server version cannot take it. */
  predicate Applies(v: int, c: Contract, o: Order, k: nat)
    requires c.Valid() && o.Valid()
  {
    match k
    case 0 => v < DELTA_NEUTRAL && c.deltaNeutral.Some?
    case 1 => v < SCALE_ORDERS2 && o.scaleSubs != UNSET
    case 2 => v < ALGO_ORDERS && o.algoStrategy != []
    case 3 => v < NOT_HELD && o.notHeld
    case 4 => v < SEC_ID_TYPE && (c.secType != [] || c.secID != [])
    case 5 => v < PLACE_ORDER_CONID && c.contractID != UNSET && c.contractID > 0
    case 6 => v < SSHORTX && (o.exemptCode != -1 || LegExempt(c))
    case 7 => v < HEDGE_ORDERS && o.hedgeType != []
    case 8 => v < OPT_OUT_SMART_ROUTING && o.optOut
    case 9 => v < DELTA_NEUTRAL_CONID && NeutralIdsSet(o)
    case 10 => v < DELTA_NEUTRAL_OPEN_CLOSE && NeutralOpenCloseSet(o)
    case 11 => v < SCALE_ORDERS3 && ScaleParametersSet(o)
    case 12 => v < ORDER_COMBO_LEGS_PRICE && c.secType == BAG && LegPriced(o)
    case 13 => v < TRAILING_PERCENT && o.trailingPercent != UNSETFLOAT
    case 14 => v < TRADING_CLASS && c.tradingClass != []
    case 15 => v < SCALE_TABLE && (o.scaleTable != [] || o.activeStart != [] || o.activeStop != [])
    case 16 => v < ALGO_ID && o.algoID != []
    case 17 => v < ORDER_SOLICITED && o.solicited
    case 18 => v < MODELS_SUPPORT && o.modelCode != []
    case 19 => v < EXT_OPERATOR && o.extOperator != []
    case 20 => v < SOFT_DOLLAR_TIER && (o.tierName != [] || o.tierValue != [])
    case 21 => v < CASH_QTY && o.cashQty != UNSETFLOAT
    case 22 => v < DECISION_MAKER && (o.decisionMaker != [] || o.decisionAlgo != [])
    case 23 => v < MIFID_EXECUTION && (o.executionTrader != [] || o.executionAlgo != [])
    case 24 => v < AUTO_PRICE_FOR_HEDGE && o.dontUseAutoPrice
    case 25 => v < ORDER_CONTAINER && o.isOms
    case 26 => v < PRICE_MGMT_ALGO && o.usePriceMgmt
    case 27 => v < DURATION && o.duration != UNSET
    case _ => v < POST_TO_ATS && o.postToAts != UNSET
  }

  predicate Violated(v: int, c: Contract, o: Order, a: Attribute)
    requires c.Valid() && o.Valid()
  {
    Applies(v, c, o, Rank(a))
  }

  /** What the switch reports before version 66, where its cases fall through into the bodies of the next ones. */
  function OldComplaint(v: int, c: Contract, o: Order): Attribute
    requires c.Valid() && o.Valid()
  {
    if Applies(v, c, o, 0) then NeutralContract
    else if Applies(v, c, o, 1) then ScaleSubs
    else if Applies(v, c, o, 2) then AlgoOrder
    else if Applies(v, c, o, 3) then HeldFlag
    else if Applies(v, c, o, 4) then SecurityId
    else if Applies(v, c, o, 5) then ContractId
    else if Applies(v, c, o, 6) then ExemptCode
    else if v < SSHORTX || Applies(v, c, o, 7) then HedgeOrder
    else if Applies(v, c, o, 8) then OptOut
    else if Applies(v, c, o, 9) then NeutralIds
    else if NeutralOpenCloseSet(o) then NeutralOpenClose
    else if ScaleParametersSet(o) then ScaleParameters
    else if LegPriced(o) then LegPrices
    else TrailingPercent
  }

  /** The first of the guards from number k on that the order violates. */
  function FirstViolated(v: int, c: Contract, o: Order, k: nat): Option<Attribute>
    requires c.Valid() && o.Valid() && k <= GUARDS
    decreases GUARDS - k
  {
    if k == GUARDS then None
    else if Applies(v, c, o, k) then Some(Guard(k))
    else FirstViolated(v, c, o, k + 1)
  }

  /** The one error PlaceOrder reports, if any. */
  function Complaint(v: int, c: Contract, o: Order): Option<Attribute>
    requires c.Valid() && o.Valid()
  {
    if v < DELTA_NEUTRAL_OPEN_CLOSE then Some(OldComplaint(v, c, o)) else FirstViolated(v, c, o, 0)
  }

  /** An attribute is set that this server version (66 or later) cannot take. */
  predicate Unsupported(v: int, c: Contract, o: Order) {
    || (v < TRADING_CLASS && c.tradingClass != [])
    || (v < SCALE_TABLE && (o.scaleTable != [] || o.activeStart != [] || o.activeStop != []))
    || (v < ALGO_ID && o.algoID != []) || (v < ORDER_SOLICITED && o.solicited)
    || (v < MODELS_SUPPORT && o.modelCode != []) || UnsupportedLater(v, o)
  }

  predicate UnsupportedLater(v: int, o: Order) {
    || (v < EXT_OPERATOR && o.extOperator != [])
    || (v < SOFT_DOLLAR_TIER && (o.tierName != [] || o.tierValue != []))
    || (v < CASH_QTY && o.cashQty != UNSETFLOAT)
    || (v < DECISION_MAKER && (o.decisionMaker != [] || o.decisionAlgo != []))
    || (v < MIFID_EXECUTION && (o.executionTrader != [] || o.executionAlgo != []))
    || UnsupportedLast(v, o)
  }

  predicate UnsupportedLast(v: int, o: Order) {
    || (v < AUTO_PRICE_FOR_HEDGE && o.dontUseAutoPrice)
    || (v < ORDER_CONTAINER && o.isOms) || (v < PRICE_MGMT_ALGO && o.usePriceMgmt)
  }

  /** PlaceOrder reports an error and gives up: always before version 66, whatever the order. */
  predicate Refused(v: int, c: Contract, o: Order) { v < DELTA_NEUTRAL_OPEN_CLOSE || Unsupported(v, c, o) }

  /** PlaceOrder reports an error but goes on. */
  predicate Warned(v: int, o: Order) {
    (v < DURATION && o.duration != UNSET) || (v < POST_TO_ATS && o.postToAts != UNSET)
  }

  lemma {:induction false} FirstIsFirst(v: int, c: Contract, o: Order, k: nat)
    requires c.Valid() && o.Valid() && k <= GUARDS
    ensures var a := FirstViolated(v, c, o, k);
            && (a.None? ==> forall i :: k <= i < GUARDS ==> !Applies(v, c, o, i))
            && (a.Some? ==> exists j :: k <= j < GUARDS && a.value == Guard(j) && Applies(v, c, o, j)
                                       && forall i :: k <= i < j ==> !Applies(v, c, o, i))
    decreases GUARDS - k
  {
    hide Applies, Guard;
    if k < GUARDS && !Applies(v, c, o, k) {
      FirstIsFirst(v, c, o, k + 1);
    }
  }

  lemma GuardRank(k: nat)
    requires k < GUARDS
    ensures Rank(Guard(k)) == k
  {
  }

  /** From version 66 on the error is about the first attribute, in the guards' order, that the order sets and the
      version cannot take. */
  lemma ComplaintIsFirst(v: int, c: Contract, o: Order)
    requires c.Valid() && o.Valid() && v >= DELTA_NEUTRAL_OPEN_CLOSE
    ensures var a := Complaint(v, c, o);
            if a.None? then forall b :: !Violated(v, c, o, b)
            else Violated(v, c, o, a.value) && forall b :: Rank(b) < Rank(a.value) ==> !Violated(v, c, o, b)
  {
    hide Applies, Guard, Rank, FirstViolated;
    FirstIsFirst(v, c, o, 0);
    if Complaint(v, c, o).Some? {
      var j :| 0 <= j < GUARDS && Complaint(v, c, o).value == Guard(j) && Applies(v, c, o, j)
               && forall i :: 0 <= i < j ==> !Applies(v, c, o, i);
      GuardRank(j);
    }
  }

  /** One of the first ten guards applies, up to the hedge guard only before version 52. */
  predicate EarlyApplies(v: int, c: Contract, o: Order)
    requires c.Valid() && o.Valid()
  {
    exists k :: 0 <= k < (if v < SSHORTX then 8 else 10) && Applies(v, c, o, k)
  }

  /** The case that control falls into after the first ten guards is the one that applies. */
  predicate LateApplies(v: int, c: Contract, o: Order)
    requires c.Valid() && o.Valid()
  {
    && v >= SSHORTX
    && if NeutralOpenCloseSet(o) then true
       else if ScaleParametersSet(o) then v < SCALE_ORDERS3
       else if LegPriced(o) then v < ORDER_COMBO_LEGS_PRICE && c.secType == BAG
       else v < TRAILING_PERCENT && o.trailingPercent != UNSETFLOAT
  }

  /** From version 66 on every error is about an attribute that the order sets and the version cannot take. Before, this
      is so exactly when control does not fall through into the body of a guard that does not apply. */
  lemma ComplaintHonest(v: int, c: Contract, o: Order)
    requires c.Valid() && o.Valid() && Complaint(v, c, o).Some?
    ensures Violated(v, c, o, Complaint(v, c, o).value)
            <==> v >= DELTA_NEUTRAL_OPEN_CLOSE || EarlyApplies(v, c, o) || LateApplies(v, c, o)
  {
    if v >= DELTA_NEUTRAL_OPEN_CLOSE {
      ComplaintIsFirst(v, c, o);
    } else {
      hide FirstViolated;
      if EarlyApplies(v, c, o) {
        var k :| 0 <= k < (if v < SSHORTX then 8 else 10) && Applies(v, c, o, k);
        assert k == 0 || k == 1 || k == 2 || k == 3 || k == 4 || k == 5 || k == 6 || k == 7 || k == 8 || k == 9;
      }
    }
  }

  /** There is an error exactly if the order is refused or warned about. */
  lemma ComplaintMeansError(v: int, c: Contract, o: Order)
    requires c.Valid() && o.Valid()
    ensures Complaint(v, c, o).Some? <==> Refused(v, c, o) || Warned(v, o)
  {
    if v >= DELTA_NEUTRAL_OPEN_CLOSE {
      FirstIsFirst(v, c, o, 0);
      NewGuards(v, c, o);
      hide FirstViolated, Applies, Guard;
    }
  }

  lemma NewGuards(v: int, c: Contract, o: Order)
    requires c.Valid() && o.Valid() && v >= DELTA_NEUTRAL_OPEN_CLOSE
    ensures (exists k :: 0 <= k < GUARDS && Applies(v, c, o, k)) <==> Unsupported(v, c, o) || Warned(v, o)
  {
    hide NeutralIdsSet, NeutralOpenCloseSet, ScaleParametersSet, LegExempt, LegPriced;
    if Unsupported(v, c, o) || Warned(v, o) {
      var k := SomeApplies(v, c, o);
    }
  }

  lemma SomeApplies(v: int, c: Contract, o: Order) returns (k: nat)
    requires c.Valid() && o.Valid() && (Unsupported(v, c, o) || Warned(v, o))
    ensures k < GUARDS && Applies(v, c, o, k)
  {
    hide NeutralIdsSet, NeutralOpenCloseSet, ScaleParametersSet, LegExempt, LegPriced;
    if v < TRADING_CLASS && c.tradingClass != [] {
      k := 14;
    } else if v < SCALE_TABLE && (o.scaleTable != [] || o.activeStart != [] || o.activeStop != []) {
      k := 15;
    } else if v < ALGO_ID && o.algoID != [] {
      k := 16;
    } else if v < ORDER_SOLICITED && o.solicited {
      k := 17;
    } else if v < MODELS_SUPPORT && o.modelCode != [] {
      k := 18;
    } else {
      k := SomeLaterApplies(v, c, o);
    }
  }

  lemma SomeLaterApplies(v: int, c: Contract, o: Order) returns (k: nat)
    requires c.Valid() && o.Valid() && (UnsupportedLater(v, o) || Warned(v, o))
    ensures k < GUARDS && Applies(v, c, o, k)
  {
    hide NeutralIdsSet, NeutralOpenCloseSet, ScaleParametersSet, LegExempt, LegPriced;
    if v < EXT_OPERATOR && o.extOperator != [] {
      k := 19;
    } else if v < SOFT_DOLLAR_TIER && (o.tierName != [] || o.tierValue != []) {
      k := 20;
    } else if v < CASH_QTY && o.cashQty != UNSETFLOAT {
      k := 21;
    } else if v < DECISION_MAKER && (o.decisionMaker != [] || o.decisionAlgo != []) {
      k := 22;
    } else if v < MIFID_EXECUTION && (o.executionTrader != [] || o.executionAlgo != []) {
      k := 23;
    } else {
      k := SomeLastApplies(v, c, o);
    }
  }

  lemma SomeLastApplies(v: int, c: Contract, o: Order) returns (k: nat)
    requires c.Valid() && o.Valid() && (UnsupportedLast(v, o) || Warned(v, o))
    ensures k < GUARDS && Applies(v, c, o, k)
  {
    hide NeutralIdsSet, NeutralOpenCloseSet, ScaleParametersSet, LegExempt, LegPriced;
    if v < AUTO_PRICE_FOR_HEDGE && o.dontUseAutoPrice {
      k := 24;
    } else if v < ORDER_CONTAINER && o.isOms {
      k := 25;
    } else if v < PRICE_MGMT_ALGO && o.usePriceMgmt {
      k := 26;
    } else if v < DURATION && o.duration != UNSET {
      k := 27;
    } else {
      k := 28;
    }
  }
}
