/** orderCondition.go: the condition hierarchy, what each condition writes, and what reading one consumes. */
module Conditions {
  import opened Basics
  import opened Fields
  import opened Cursor

  datatype OrderCondition = OrderCondition(conditionType: int64, isConjunction: bool)
  datatype OperatorCondition = OperatorCondition(base: OrderCondition, isMore: bool)
  datatype ContractCondition = ContractCondition(base: OperatorCondition, conID: int64, exchange: Text)

  /** Everything that satisfies the OrderConditioner interface, the embedded base structs included. */
  datatype Condition =
    | Plain(base: OrderCondition)
    | Operator(op: OperatorCondition)
    | Contract(cc: ContractCondition)
    | Price(cc: ContractCondition, price: Float, triggerMethod: int64)
    | Time(op: OperatorCondition, time: Text)
    | Margin(op: OperatorCondition, percent: Float)
    | Execution(base: OrderCondition, secType: Text, exchange: Text, symbol: Text)
    | Volume(cc: ContractCondition, volume: int64)
    | PercentChange(cc: ContractCondition, changePercent: Float)
  {
    function Base(): OrderCondition {
      match this
      case Plain(b) => b
      case Execution(b, _, _, _) => b
      case Operator(op) => op.base
      case Time(op, _) => op.base
      case Margin(op, _) => op.base
      case Contract(cc) => cc.base.base
      case Price(cc, _, _) => cc.base.base
      case Volume(cc, _) => cc.base.base
      case PercentChange(cc, _) => cc.base.base
    }

    function CondType(): int64 { Base().conditionType }

    /** setCondType has a value receiver: it changes a copy. */
    function SetCondType(t: int64): Condition { this }

    function ToFields(): seq<Field> {
      match this
      case Plain(b) => BaseFields(b)
      case Operator(op) => OperatorFields(op)
      case Contract(cc) => ContractFields(cc)
      case Price(cc, price, tm) => ContractFields(cc) + [FFloat(price), FInt(tm)]
      case Time(op, time) => OperatorFields(op) + [FStr(time)]
      case Margin(op, percent) => OperatorFields(op) + [FFloat(percent)]
      case Execution(b, st, ex, sym) => BaseFields(b) + [FStr(st), FStr(ex), FStr(sym)]
      case Volume(cc, v) => ContractFields(cc) + [FInt(v)]
      case PercentChange(cc, p) => ContractFields(cc) + [FFloat(p)]
    }

    /** The readers decode calls, in order; the values go to a copy of the receiver and are lost. */
    function Reads(): seq<Kind> {
      match this
      case Plain(_) => BASE_READS
      case Operator(_) => OPERATOR_READS
      case Contract(_) => CONTRACT_READS
      case Price(_, _, _) => CONTRACT_READS + [KFloat, KInt]
      case Time(_, _) => OPERATOR_READS + [KStr]
      case Margin(_, _) => OPERATOR_READS + [KFloat]
      case Execution(_, _, _, _) => BASE_READS + [KStr, KStr, KStr]
      case Volume(_, _) => CONTRACT_READS + [KInt]
      case PercentChange(_, _) => CONTRACT_READS + [KFloat]
    }
  }

  const BASE_READS := [KStr]
  const OPERATOR_READS := BASE_READS + [KBool]
  const CONTRACT_READS := OPERATOR_READS + [KInt, KStr]

  const A: Text := [97]
  const O: Text := [111]

  function BaseFields(b: OrderCondition): seq<Field> { [FStr(if b.isConjunction then A else O)] }

  function OperatorFields(op: OperatorCondition): seq<Field> { BaseFields(op.base) + [FBool(op.isMore)] }

  function ContractFields(cc: ContractCondition): seq<Field> {
    OperatorFields(cc.base) + [FInt(cc.conID), FStr(cc.exchange)]
  }

  const ZERO := OrderCondition(0, false)
  const ZERO_OP := OperatorCondition(ZERO, false)
  const ZERO_CC := ContractCondition(ZERO_OP, 0, [])

  /** A fresh condition of the type on the wire and the number of fields declared for it; other types panic. */
  function InitOrderCondition(t: int64): Result<(Condition, nat)> {
    match t
    case 1 => Success((Price(ZERO_CC, ZEROFLOAT, 0).SetCondType(1), 6))
    case 3 => Success((Time(ZERO_OP, []).SetCondType(3), 3))
    case 4 => Success((Margin(ZERO_OP, ZEROFLOAT).SetCondType(4), 3))
    case 5 => Success((Execution(ZERO, [], [], []).SetCondType(5), 4))
    case 6 => Success((Volume(ZERO_CC, 0).SetCondType(6), 5))
    case 7 => Success((PercentChange(ZERO_CC, ZEROFLOAT).SetCondType(7), 5))
    case _ => Panic
  }

  predicate SameShape(a: Condition, b: Condition) {
    a.Plain? == b.Plain? && a.Operator? == b.Operator? && a.Contract? == b.Contract? && a.Price? == b.Price?
    && a.Time? == b.Time? && a.Margin? == b.Margin? && a.Execution? == b.Execution? && a.Volume? == b.Volume?
    && a.PercentChange? == b.PercentChange?
  }

  /** The type tag names the condition's own shape. */
  predicate TagMatches(c: Condition) {
    InitOrderCondition(c.CondType()).Success? && SameShape(InitOrderCondition(c.CondType()).value.0, c)
  }

  /** The type tag declares as many fields as the condition writes. */
  predicate TagFits(c: Condition) {
    InitOrderCondition(c.CondType()).Success? && InitOrderCondition(c.CondType()).value.1 == |c.ToFields()|
  }

  /** For every type on the wire, decode consumes as many fields as are declared, and as many as a condition of
      that shape writes; a matching tag therefore fits. */
  lemma SizesAgree(t: int64, c: Condition)
    requires InitOrderCondition(t).Success? && SameShape(InitOrderCondition(t).value.0, c)
    ensures |InitOrderCondition(t).value.0.Reads()| == InitOrderCondition(t).value.1 == |c.ToFields()|
    ensures c.CondType() == t ==> TagFits(c)
  {
  }

  /** Which shape each tag on the wire stands for, and with which readers its fields are read. */
  lemma ShapeOfTag(t: int64)
    ensures InitOrderCondition(t).Success? <==> t in {1, 3, 4, 5, 6, 7}
    ensures InitOrderCondition(t).Success? ==>
              var c := InitOrderCondition(t).value.0;
              && (t == 1 ==> c.Price? && c.Reads() == [KStr, KBool, KInt, KStr, KFloat, KInt])
              && (t == 3 ==> c.Time? && c.Reads() == [KStr, KBool, KStr])
              && (t == 4 ==> c.Margin? && c.Reads() == [KStr, KBool, KFloat])
              && (t == 5 ==> c.Execution? && c.Reads() == [KStr, KStr, KStr, KStr])
              && (t == 6 ==> c.Volume? && c.Reads() == [KStr, KBool, KInt, KStr, KInt])
              && (t == 7 ==> c.PercentChange? && c.Reads() == [KStr, KBool, KInt, KStr, KFloat])
  {
  }

  /** Decoding forgets the tag: a condition made from the wire has type 0, so written back it is never readable. */
  lemma DecodedTagIsLost(t: int64)
    ensures InitOrderCondition(t).Success? ==> !TagFits(InitOrderCondition(t).value.0)
  {
  }

  // ---------------------------------------------------------------- lists of conditions

  /** A condition on the wire: its type and the texts of its fields. */
  datatype WireCondition = WireCondition(t: int64, texts: seq<Text>)

  function OnWire(fc: FloatCodec, c: Condition): WireCondition {
    WireCondition(c.CondType(), RenderAll(fc, c.ToFields()))
  }

  function AllOnWire(fc: FloatCodec, cs: seq<Condition>): (ws: seq<WireCondition>)
    ensures |ws| == |cs| && forall i :: 0 <= i < |cs| ==> ws[i] == OnWire(fc, cs[i])
  {
    seq(|cs|, i requires 0 <= i < |cs| => OnWire(fc, cs[i]))
  }

  function WireTexts(ws: seq<WireCondition>): seq<Text> {
    if ws == [] then [] else [FormatInt(ws[0].t as int)] + ws[0].texts + WireTexts(ws[1..])
  }

  /** The number of fields declared for a type, if it is one. */
  function Declared(t: int64): Result<nat> { var init :- InitOrderCondition(t); Success(init.1) }

  predicate Fits(w: WireCondition) { Declared(w.t) == Success(|w.texts|) }

  /** n conditions, each read by the size its type declares. */
  function ConditionsAt(n: nat, ts: seq<Text>, pos: nat): Result<At<seq<WireCondition>>> {
    TaggedAt(AsInt, Declared, n, ts, pos)
  }

  // Tagged groups, whatever the tags are and whatever sizes they stand for.

  function TaggedAt(tag: Text -> Result<int64>, size: int64 -> Result<nat>, n: nat, ts: seq<Text>, pos: nat)
    : Result<At<seq<WireCondition>>>
  {
    if n == 0 then Success(At([], pos))
    else
      var t :- if pos < |ts| then tag(ts[pos]) else Panic;
      var k :- size(t);
      var run :- TakeAt(k, ts, pos + 1);
      var others :- TaggedAt(tag, size, n - 1, ts, run.next);
      Success(At([WireCondition(t, run.value)] + others.value, others.next))
  }

  lemma TaggedCons(tag: Text -> Result<int64>, size: int64 -> Result<nat>, n: nat, ws: seq<WireCondition>,
                   ts: seq<Text>, pos: nat, at: nat, next: nat)
    requires n == |ws| > 0 && at == pos + 1 + |ws[0].texts|
    requires pos < |ts| && tag(ts[pos]) == Success(ws[0].t) && size(ws[0].t) == Success(|ws[0].texts|)
    requires TakeAt(|ws[0].texts|, ts, pos + 1) == Success(At(ws[0].texts, at))
    requires TaggedAt(tag, size, n - 1, ts, at) == Success(At(ws[1..], next))
    ensures TaggedAt(tag, size, n, ts, pos) == Success(At(ws, next))
  {
    assert ws == [ws[0]] + ws[1..];
  }

  lemma NoneTagged(tag: Text -> Result<int64>, size: int64 -> Result<nat>, ts: seq<Text>, pos: nat)
    ensures TaggedAt(tag, size, 0, ts, pos) == Success(At([], pos))
  {
  }

  lemma TaggedSplit(w: WireCondition, others: seq<Text>, ts: seq<Text>, pos: nat)
    requires Here(ts, pos, [FormatInt(w.t as int)] + w.texts + others)
    ensures pos < |ts| && ts[pos] == FormatInt(w.t as int)
    ensures TakeAt(|w.texts|, ts, pos + 1) == Success(At(w.texts, pos + 1 + |w.texts|))
    ensures Here(ts, pos + 1 + |w.texts|, others)
  {
    HereSplit(ts, pos, [FormatInt(w.t as int)] + w.texts, others);
    HereSplit(ts, pos, [FormatInt(w.t as int)], w.texts);
    TakeHere(w.texts, ts, pos + 1);
  }

  predicate Known(tag: Text -> Result<int64>, size: int64 -> Result<nat>, w: WireCondition) {
    tag(FormatInt(w.t as int)) == Success(w.t) && size(w.t) == Success(|w.texts|)
  }

  lemma {:induction false} TaggedHere(tag: Text -> Result<int64>, size: int64 -> Result<nat>, n: nat,
                                      ws: seq<WireCondition>, ts: seq<Text>, pos: nat)
    requires n == |ws|
    requires forall i :: 0 <= i < |ws| ==> Known(tag, size, ws[i])
    requires Here(ts, pos, WireTexts(ws))
    ensures TaggedAt(tag, size, n, ts, pos) == Success(At(ws, pos + |WireTexts(ws)|))
    decreases n
  {
    hide TaggedAt, TakeAt;
    if n == 0 {
      NoneTagged(tag, size, ts, pos);
    } else {
      var w, others := ws[0], ws[1..];
      var at := pos + 1 + |w.texts|;
      TaggedSplit(w, WireTexts(others), ts, pos);
      TaggedHere(tag, size, n - 1, others, ts, at);
      TaggedCons(tag, size, n, ws, ts, pos, at, at + |WireTexts(others)|);
    }
  }

  /** Whatever is read has as many fields as its tag stands for, and the cursor moves by just the fields read. */
  lemma {:induction false} TaggedConsumed(tag: Text -> Result<int64>, size: int64 -> Result<nat>, n: nat, ts: seq<Text>,
                                          pos: nat)
    requires TaggedAt(tag, size, n, ts, pos).Success?
    ensures var r := TaggedAt(tag, size, n, ts, pos).value;
            && |r.value| == n && r.next == pos + |WireTexts(r.value)|
            && forall i :: 0 <= i < n ==> size(r.value[i].t) == Success(|r.value[i].texts|)
    decreases n
  {
    if n > 0 {
      var t := tag(ts[pos]).value;
      var k := size(t).value;
      TaggedConsumed(tag, size, n - 1, ts, pos + 1 + k);
      var w, others := WireCondition(t, ts[pos + 1..pos + 1 + k]),
        TaggedAt(tag, size, n - 1, ts, pos + 1 + k).value.value;
      assert TaggedAt(tag, size, n, ts, pos).value.value == [w] + others && ([w] + others)[1..] == others;
    }
  }

  lemma {:induction false} TaggedStable(tag: Text -> Result<int64>, size: int64 -> Result<nat>, n: nat, ts: seq<Text>,
                                        more: seq<Text>, pos: nat)
    requires TaggedAt(tag, size, n, ts, pos).Success?
    ensures TaggedAt(tag, size, n, ts + more, pos) == TaggedAt(tag, size, n, ts, pos)
    decreases n
  {
    if n > 0 {
      var k := size(tag(ts[pos]).value).value;
      TakeStable(k, ts, more, pos + 1);
      TaggedStable(tag, size, n - 1, ts, more, pos + 1 + k);
    }
  }

  lemma FitsIsKnown(w: WireCondition)
    ensures Known(AsInt, Declared, w) <==> Fits(w)
  {
    IntRoundTrip(w.t);
  }

  ghost predicate AllFit(ws: seq<WireCondition>) { forall i :: 0 <= i < |ws| ==> Fits(ws[i]) }

  lemma ReadConditionsFit(n: nat, ts: seq<Text>, pos: nat)
    requires ConditionsAt(n, ts, pos).Success?
    ensures var r := ConditionsAt(n, ts, pos).value;
        |r.value| == n && r.next == pos + |WireTexts(r.value)| && AllFit(r.value)
  {
    TaggedConsumed(AsInt, Declared, n, ts, pos);
  }

  /** Written conditions are recovered, with the cursor right behind the last, exactly when every type on the wire
      declares as many fields as were written for it. */
  lemma ConditionsReadable(n: nat, ws: seq<WireCondition>, ts: seq<Text>, pos: nat)
    requires n == |ws| && Here(ts, pos, WireTexts(ws))
    ensures ConditionsAt(n, ts, pos) == Success(At(ws, pos + |WireTexts(ws)|)) <==> AllFit(ws)
  {
    if AllFit(ws) {
      forall i | 0 <= i < |ws| ensures Known(AsInt, Declared, ws[i]) {
        FitsIsKnown(ws[i]);
      }
      TaggedHere(AsInt, Declared, n, ws, ts, pos);
    } else if ConditionsAt(n, ts, pos) == Success(At(ws, pos + |WireTexts(ws)|)) {
      ReadConditionsFit(n, ts, pos);
    }
  }

  /** For the conditions of an order this means: every tag declares the number of fields its condition writes. */
  lemma FitMeansTagsFit(fc: FloatCodec, cs: seq<Condition>)
    ensures AllFit(AllOnWire(fc, cs)) <==> forall i :: 0 <= i < |cs| ==> TagFits(cs[i])
  {
    var ws := AllOnWire(fc, cs);
    forall i | 0 <= i < |cs| ensures Fits(ws[i]) <==> TagFits(cs[i]) {
      assert ws[i] == OnWire(fc, cs[i]);
    }
  }
}
