/** Safety of the lifecycle over every run: one ordered teardown, worker isolation, in-order delivery,
    request conservation, and what becomes of the recorded error. */
module Teardown {
  import opened Basics
  import opened Framing
  import opened Lifecycle
  import opened Footprints

  // ---------------------------------------------------------------- teardown and isolation

  function Live(s: State): nat {
    (if s.recv.RExited? then 0 else 1) + (if s.dec.DExited? then 0 else 1) + (if s.req.QExited? then 0 else 1)
  }

  /** How many teardown events the holder of the once-body has brought about. */
  function Progress(pc: CallPc, termClosed: bool): nat {
    match pc
    case CSignalling => if termClosed then 1 else 0
    case CClosing => 1
    case CWaiting => 2
    case CNotifying => 3
    case CResetting(_) => 4
    case CReleasing(_) => 5
    case _ => 6
  }

  predicate InBody(pc: CallPc) {
    pc.CSignalling? || pc.CClosing? || pc.CWaiting? || pc.CNotifying? || pc.CResetting? || pc.CReleasing?
        || pc.CFinishing?
  }

  predicate Left(pc: CallPc) { pc.CReading? || pc.CReturned? || pc.CPanicked? }

  /** How far the teardown of the epoch has come. */
  function Phase(s: State): nat {
    match s.once
    case Idle => if s.ic.shutdownOnce then 1 else 0
    case Running(i) => if i < |s.calls| then Progress(s.calls[i], s.ic.shutdownOnce) else 0
    case Finished => 6
  }

  ghost predicate CallsOk(s: State) {
    && (s.once.Running? ==> s.once.who < |s.calls| && InBody(s.calls[s.once.who]))
    && (forall j :: 0 <= j < |s.calls| && !(s.once.Running? && s.once.who == j) ==> !InBody(s.calls[j]))
    && (!s.once.Finished? ==> forall j :: 0 <= j < |s.calls| ==> !Left(s.calls[j]))
  }

  ghost predicate TeardownOk(s: State) {
    && CallsOk(s)
    && s.trace == TEARDOWN[..Phase(s)]
    && (s.swapped <==> Phase(s) >= 5)
    && (s.ic.doneClosed <==> Phase(s) >= 6) && s.ic.doneOnce == s.ic.doneClosed
    && (s.ic.shutdownOnce <==> Phase(s) >= 1)
    && s.ic.termClosed == (s.ic.shutdownOnce && !s.swapped)
    && s.ic.wg == Live(s)
    && (Phase(s) >= 3 ==> Live(s) == 0)
    && (s.ic.sockOpen <==> Phase(s) < 2)
    && !s.ic.crashed
  }

  /** t differs from s at most in the data that flows, not in what the teardown depends on. */
  predicate SameTeardown(s: State, t: State) {
    && t.calls == s.calls && t.once == s.once && t.trace == s.trace && t.swapped == s.swapped && Live(t) == Live(s)
    && t.ic.doneClosed == s.ic.doneClosed && t.ic.doneOnce == s.ic.doneOnce && t.ic.shutdownOnce == s.ic.shutdownOnce
    && t.ic.termClosed == s.ic.termClosed && t.ic.wg == s.ic.wg && t.ic.sockOpen == s.ic.sockOpen
    && t.ic.crashed == s.ic.crashed
  }

  lemma TeardownKept(s: State, t: State)
    requires TeardownOk(s) && SameTeardown(s, t)
    ensures TeardownOk(t)
  {
  }

  lemma TeardownNewCall(s: State, t: State)
    requires TeardownOk(s) && SameTeardown(s.(calls := s.calls + [CEntering]), t)
    ensures TeardownOk(t)
  {
  }

  predicate SameProgress(s: State, t: State) {
    && t.once == s.once && t.swapped == s.swapped && t.ic.doneClosed == s.ic.doneClosed
    && t.ic.doneOnce == s.ic.doneOnce
    && t.ic.sockOpen == s.ic.sockOpen
  }

  /** A worker can signal shutdown from its recover block, or leave the WaitGroup as its last step. */
  lemma TeardownWorker(s: State, signals: bool, leaves: bool, t: State)
    requires TeardownOk(s) && SignalPart(s, signals, leaves, t) && SameProgress(s, t) && t.calls == s.calls
    requires Live(s) == Live(t) + (if leaves then 1 else 0) && Live(s) > 0
    ensures TeardownOk(t)
  {
    if !signals || leaves {
      assert Phase(t) == Phase(s);
    } else {
      assert Phase(t) == Max(Phase(s), 1);
    }
  }

  lemma TeardownRecv(s: State, a: RecvAct, t: State)
    requires TeardownOk(s) && RecvStep(s, a) == Some(t)
    ensures TeardownOk(t)
  {
    RecvPrinted(s, a, ScanFields(s.buf, false), t);
    var u := t.(calls := s.calls);
    assert Live(s) == Live(u) + (if a.RecvLeave? then 1 else 0);
    hide RecvScanned, RecvOwn, Live, Records;
    TeardownWorker(s, a.RecvSignal?, a.RecvLeave?, u);
    hide TeardownOk, SignalPart;
    if t.calls == s.calls {
      assert u == t;
    } else {
      TeardownNewCall(u, t);
    }
  }

  lemma TeardownDec(s: State, a: DecAct, t: State)
    requires TeardownOk(s) && DecStep(s, a) == Some(t)
    ensures TeardownOk(t)
  {
    DecPrinted(s, a, t);
    hide DecStep, TeardownOk, Records;
    TeardownWorker(s, a.DecSignal?, a.DecLeave?, t);
  }

  lemma TeardownReq(s: State, a: ReqAct, t: State)
    requires TeardownOk(s) && ReqStep(s, a) == Some(t)
    ensures TeardownOk(t)
  {
    ReqPrinted(s, a, t);
    hide ReqStep, TeardownOk, Records;
    TeardownWorker(s, a.ReqSignal?, a.ReqLeave?, t);
  }

  lemma TeardownSignal(s: State, i: nat, t: State)
    requires i < |s.calls| && TeardownOk(s) && CallStep(s, i, CallSignal) == Some(t)
    ensures TeardownOk(t)
  {
  }

  lemma TeardownBody(s: State, i: nat, a: CallAct, t: State)
    requires a.CallClose? || a.CallWait? || a.CallNotify?
    requires i < |s.calls| && TeardownOk(s) && CallStep(s, i, a) == Some(t)
    ensures TeardownOk(t)
  {
  }

  lemma TeardownDefers(s: State, i: nat, a: CallAct, t: State)
    requires a.CallReset? || a.CallRelease? || a.CallFinish?
    requires i < |s.calls| && TeardownOk(s) && CallStep(s, i, a) == Some(t)
    ensures TeardownOk(t)
  {
  }

  lemma TeardownCall(s: State, i: nat, a: CallAct, t: State)
    requires i < |s.calls| && TeardownOk(s) && CallStep(s, i, a) == Some(t)
    ensures TeardownOk(t)
  {
    match a
    case CallEnter =>
    case CallRead =>
    case CallSignal => TeardownSignal(s, i, t);
    case CallReset => TeardownDefers(s, i, a, t);
    case CallRelease => TeardownDefers(s, i, a, t);
    case CallFinish => TeardownDefers(s, i, a, t);
    case _ => TeardownBody(s, i, a, t);
  }

  lemma TeardownStep(s: State, a: Action, t: State)
    requires TeardownOk(s) && Step(s, a) == Some(t)
    ensures TeardownOk(t)
  {
    match a
    case Recv(r) => TeardownRecv(s, r, t);
    case Dec(d) => TeardownDec(s, d, t);
    case Req(q) => TeardownReq(s, q, t);
    case Call(i, c) => TeardownCall(s, i, c, t);
    case Enq(i, e) => EnqFramed(s, i, e, t); TeardownKept(s, t);
    case NewCall => TeardownNewCall(s, t);
    case _ => TeardownKept(s, t);
  }

  // ---------------------------------------------------------------- delivery

  /** Until reset, every complete frame of the stream is in exactly one place, in order: interpreted, in msgChan,
      held by the receiver, or still to be scanned. */
  ghost predicate DeliveryOk(s: State, stream: Text) {
    && |s.buf| <= MAX_MSG_LEN && |s.ic.msgChan| <= MSG_CAP
    && (!s.swapped ==> Frames(stream) == s.interpreted + s.ic.msgChan + Flight(s.recv) + Frames(s.buf + s.wire))
    && s.interpreted <= Frames(stream)
  }

  /** Reset waits for the workers. */
  lemma LiveBeforeReset(s: State)
    requires TeardownOk(s) && Live(s) > 0
    ensures !s.swapped
  {
  }

  lemma DeliveryRecv(s: State, a: RecvAct, t: State, stream: Text)
    requires TeardownOk(s) && DeliveryOk(s, stream) && RecvStep(s, a) == Some(t)
    ensures DeliveryOk(t, stream)
  {
    hide RecvScanned, SignalPart, Records, TeardownOk, DeliveryOk, Frames;
    RecvPrinted(s, a, ScanFields(s.buf, false), t);
    LiveBeforeReset(s);
    hide Live;
    match a
    case RecvRead(k) => DeliveryRead(s, k, t, stream);
    case RecvToken => DeliveryToken(s, t, stream);
    case RecvSend => DeliverySend(s, t, stream);
    case _ => DeliveryIdle(s, t, stream);
  }

  /** Outside its scan loop the receiver neither holds a frame nor moves data. */
  lemma DeliveryIdle(s: State, t: State, stream: Text)
    requires DeliveryOk(s, stream) && SameDelivery(s, t.(recv := s.recv)) && Flight(t.recv) == Flight(s.recv)
    ensures DeliveryOk(t, stream)
  {
    hide Frames;
  }

  lemma DeliveryRead(s: State, k: nat, t: State, stream: Text)
    requires DeliveryOk(s, stream) && t.swapped == s.swapped && t.interpreted == s.interpreted
    requires RecvOwn(s, RecvRead(k), ScanFields(s.buf, false), t)
    ensures DeliveryOk(t, stream)
  {
    assert t.buf + t.wire == s.buf + s.wire;
  }

  lemma DeliverySend(s: State, t: State, stream: Text)
    requires DeliveryOk(s, stream) && !s.swapped && !t.swapped && t.interpreted == s.interpreted
    requires RecvOwn(s, RecvSend, ScanFields(s.buf, false), t)
    ensures DeliveryOk(t, stream)
  {
    assert s.interpreted + (s.ic.msgChan + Flight(s.recv)) == s.interpreted + s.ic.msgChan + Flight(s.recv);
  }

  lemma DeliveryToken(s: State, t: State, stream: Text)
    requires DeliveryOk(s, stream) && !s.swapped && !t.swapped && s.recv.RScanning? && t.interpreted == s.interpreted
    requires RecvOwn(s, RecvToken, ScanFields(s.buf, false), t)
    ensures DeliveryOk(t, stream)
  {
    ScanExtends(s.buf, s.wire);
    var m := ScanFields(s.buf, false).token;
    assert Frames(s.buf + s.wire) == [m] + Frames(t.buf + t.wire);
  }

  lemma DeliveryTake(s: State, t: State, stream: Text)
    requires DeliveryOk(s, stream) && !s.swapped && DecFrame(s, t) && DecOwn(s, DecTake, t)
    ensures DeliveryOk(t, stream)
  {
    hide Frames;
    var c := s.ic.msgChan;
    assert s.interpreted + c == s.interpreted + [c[0]] + c[1..];
    assert Frames(stream) == t.interpreted + (t.ic.msgChan + Flight(t.recv) + Frames(t.buf + t.wire));
  }

  lemma DeliveryDec(s: State, a: DecAct, t: State, stream: Text)
    requires TeardownOk(s) && DeliveryOk(s, stream) && DecStep(s, a) == Some(t)
    ensures DeliveryOk(t, stream)
  {
    DecPrinted(s, a, t);
    hide DecStep, SignalPart, Records;
    LiveBeforeReset(s);
    hide TeardownOk;
    if a.DecTake? {
      DeliveryTake(s, t, stream);
    } else {
      DeliveryKept(s, t, stream);
    }
  }

  predicate SameDelivery(s: State, t: State) {
    && t.buf == s.buf && t.wire == s.wire && t.recv == s.recv && t.interpreted == s.interpreted
    && (t.swapped || !s.swapped) && (t.ic.msgChan == s.ic.msgChan || (t.swapped && t.ic.msgChan == []))
  }

  lemma DeliveryKept(s: State, t: State, stream: Text)
    requires DeliveryOk(s, stream) && SameDelivery(s, t)
    ensures DeliveryOk(t, stream)
  {
  }

  lemma DeliveryReq(s: State, a: ReqAct, t: State)
    requires ReqStep(s, a) == Some(t)
    ensures SameDelivery(s, t)
  {
    ReqFramed(s, a, t);
    hide ReqStep;
  }

  lemma DeliveryCall(s: State, i: nat, a: CallAct, t: State)
    requires i < |s.calls| && CallStep(s, i, a) == Some(t)
    ensures SameDelivery(s, t)
  {
  }

  lemma DeliveryStep(s: State, a: Action, t: State, stream: Text)
    requires TeardownOk(s) && DeliveryOk(s, stream) && Step(s, a) == Some(t)
    ensures DeliveryOk(t, stream)
  {
    match a
    case Recv(r) => DeliveryRecv(s, r, t, stream);
    case Dec(d) => DeliveryDec(s, d, t, stream);
    case Req(q) => DeliveryReq(s, q, t); DeliveryKept(s, t, stream);
    case Call(i, c) => DeliveryCall(s, i, c, t); DeliveryKept(s, t, stream);
    case Enq(i, e) => EnqFramed(s, i, e, t); DeliveryKept(s, t, stream);
    case _ => DeliveryKept(s, t, stream);
  }

  // ---------------------------------------------------------------- requests

  function InHand(pc: ReqPc): seq<Text> {
    match pc
    case QChecking(r) => [r]
    case QRejecting(r) => [r]
    case QWriting(r) => [r]
    case _ => []
  }

  /** This epoch's request channel, wherever reset has left it. */
  function EpochReq(s: State): seq<Text> { if s.swapped then s.oldReq else s.ic.reqChan }

  /** Every request this epoch accepted is processed, in the requester's hands or in the channel, in FIFO order;
      and the requester never meets a client that is not connected. */
  ghost predicate RequestsOk(s: State) {
    && s.accepted == Requests(s.processed) + InHand(s.req) + EpochReq(s)
    && (forall o :: o in s.processed ==> !o.Rejected?)
    && !s.req.QRejecting? && !s.req.QRecovering? && !s.req.QSignalling?
    && s.ic.connected == !s.swapped
    && |s.ic.reqChan| <= REQ_CAP && |s.oldReq| <= REQ_CAP && |s.ic.errChan| <= ERR_CAP
    && (forall i :: 0 <= i < |s.enqs| && s.enqs[i].ESelecting? && s.enqs[i].late ==> s.swapped)
  }

  predicate SameRequests(s: State, t: State) {
    && t.accepted == s.accepted && t.processed == s.processed && t.req == s.req && EpochReq(t) == EpochReq(s)
    && t.enqs == s.enqs && (s.swapped ==> t.swapped)
    && t.ic.connected == !t.swapped && |t.ic.reqChan| <= REQ_CAP && |t.oldReq| <= REQ_CAP && |t.ic.errChan| <= ERR_CAP
  }

  lemma RequestsKept(s: State, t: State)
    requires RequestsOk(s) && SameRequests(s, t)
    ensures RequestsOk(t)
  {
  }

  /** The requester moves requests along the line without losing, repeating or reordering any. */
  lemma RequestsReq(s: State, a: ReqAct, t: State)
    requires TeardownOk(s) && RequestsOk(s) && ReqStep(s, a) == Some(t)
    ensures RequestsOk(t)
  {
    ReqPrinted(s, a, t);
    hide ReqStep, SignalPart, Records;
    LiveBeforeReset(s);
    hide TeardownOk;
    match a
    case ReqTake => RequestsTake(s, t);
    case ReqWrite(ok) => RequestsWrite(s, ok, t);
    case _ =>
  }

  lemma RequestsTake(s: State, t: State)
    requires RequestsOk(s) && !s.swapped && ReqFrame(s, t) && ReqOwn(s, ReqTake, t)
    ensures RequestsOk(t)
  {
    assert s.accepted == Requests(s.processed) + EpochReq(s);
    assert t.accepted == Requests(t.processed) + ([s.ic.reqChan[0]] + EpochReq(t));
  }

  lemma RequestsWrite(s: State, ok: bool, t: State)
    requires RequestsOk(s) && ReqFrame(s, t) && ReqOwn(s, ReqWrite(ok), t)
    ensures RequestsOk(t)
  {
    assert s.accepted == Requests(s.processed) + [s.req.r] + EpochReq(s);
    assert Requests(t.processed) == Requests(s.processed) + [s.req.r];
  }

  lemma RequestsEnq(s: State, i: nat, a: EnqAct, t: State)
    requires i < |s.enqs| && RequestsOk(s) && EnqStep(s, i, a) == Some(t)
    ensures RequestsOk(t)
  {
    if a.EnqSend? && !s.enqs[i].late {
      assert t.accepted == Requests(t.processed) + InHand(t.req) + EpochReq(t);
    }
  }

  /** What the receiver and the decoder leave alone. */
  predicate RequestsUntouched(s: State, t: State) {
    && t.accepted == s.accepted && t.processed == s.processed && t.req == s.req && t.enqs == s.enqs
    && t.swapped == s.swapped && t.oldReq == s.oldReq && t.ic.reqChan == s.ic.reqChan
    && t.ic.connected == s.ic.connected
    && |t.ic.errChan| <= |s.ic.errChan|
  }

  lemma RequestsRecv(s: State, a: RecvAct, t: State)
    requires RecvStep(s, a) == Some(t)
    ensures RequestsUntouched(s, t)
  {
    RecvFramed(s, a, ScanFields(s.buf, false), t);
    hide RecvScanned;
  }

  lemma RequestsDec(s: State, a: DecAct, t: State)
    requires DecStep(s, a) == Some(t)
    ensures RequestsUntouched(s, t)
  {
    DecPrinted(s, a, t);
    hide DecStep, SignalPart, Records;
  }

  lemma RequestsCall(s: State, i: nat, a: CallAct, t: State)
    requires i < |s.calls| && TeardownOk(s) && RequestsOk(s) && CallStep(s, i, a) == Some(t)
    ensures SameRequests(s, t)
  {
  }

  lemma RequestsStep(s: State, a: Action, t: State)
    requires TeardownOk(s) && RequestsOk(s) && Step(s, a) == Some(t)
    ensures RequestsOk(t)
  {
    match a
    case Req(q) => RequestsReq(s, q, t);
    case Enq(i, e) => RequestsEnq(s, i, e, t);
    case Recv(r) => RequestsRecv(s, r, t); RequestsKept(s, t);
    case Dec(d) => RequestsDec(s, d, t); RequestsKept(s, t);
    case Call(i, c) => RequestsCall(s, i, c, t); RequestsKept(s, t);
    case NewEnq(m) =>
    case _ => RequestsKept(s, t);
  }

  // ---------------------------------------------------------------- the recorded error

  /** Up to reset the client holds the first error recorded; from reset on it holds none, and that is what every
      Disconnect call and every LoopUntilDone call returns. */
  ghost predicate ErrorOk(s: State) {
    && s.ic.err == (if s.swapped then None else s.firstErr)
    && s.ic.errOnce == s.firstErr.Some?
    && (forall j :: 0 <= j < |s.calls| && s.calls[j].CReturned? ==> s.calls[j].r.None?)
    && (forall j :: 0 <= j < |s.loops| && s.loops[j].LReturned? ==> s.loops[j].r.None?)
    && (forall j :: 0 <= j < |s.loops| && !s.loops[j].LWaiting? ==> s.ic.doneClosed)
  }

  /** A worker records at most one error, and never touches the callers; the receiver can start one. */
  lemma ErrorWorker(s: State, e: Option<Err>, t: State)
    requires TeardownOk(s) && Live(s) > 0 && ErrorOk(s) && Records(s, e, t)
    requires t.swapped == s.swapped && t.loops == s.loops && t.ic.doneClosed == s.ic.doneClosed
    requires t.calls == s.calls || t.calls == s.calls + [CEntering]
    ensures ErrorOk(t)
  {
  }

  lemma ErrorRecv(s: State, a: RecvAct, t: State)
    requires TeardownOk(s) && ErrorOk(s) && RecvStep(s, a) == Some(t)
    ensures ErrorOk(t)
  {
    RecvPrinted(s, a, ScanFields(s.buf, false), t);
    assert Live(s) > 0;
    hide RecvScanned, SignalPart, Records, RecvOwn, TeardownOk, ErrorOk;
    ErrorWorker(s, RecvError(s, a), t);
  }

  lemma ErrorDec(s: State, a: DecAct, t: State)
    requires TeardownOk(s) && ErrorOk(s) && DecStep(s, a) == Some(t)
    ensures ErrorOk(t)
  {
    DecPrinted(s, a, t);
    hide DecStep, SignalPart, Records, TeardownOk, ErrorOk;
    ErrorWorker(s, if a.DecRecover? then Some(DecPanicked) else None, t);
  }

  lemma ErrorReq(s: State, a: ReqAct, t: State)
    requires TeardownOk(s) && ErrorOk(s) && ReqStep(s, a) == Some(t)
    ensures ErrorOk(t)
  {
    ReqPrinted(s, a, t);
    hide ReqStep, SignalPart, Records, TeardownOk, ErrorOk;
    ErrorWorker(s, if a.ReqRecover? then Some(ReqPanicked) else None, t);
  }

  /** A call returns what the client holds, which is nil by then. */
  lemma ErrorRead(s: State, i: nat, t: State)
    requires i < |s.calls| && TeardownOk(s) && ErrorOk(s) && CallStep(s, i, CallRead) == Some(t)
    ensures ErrorOk(t)
  {
    assert Left(s.calls[i]) && s.swapped;
    hide TeardownOk;
  }

  lemma ErrorClose(s: State, i: nat, fails: bool, t: State)
    requires i < |s.calls| && TeardownOk(s) && ErrorOk(s) && CallStep(s, i, CallClose(fails)) == Some(t)
    ensures ErrorOk(t)
  {
    assert InBody(s.calls[i]) && Phase(s) == 1 && !s.swapped;
    hide TeardownOk;
  }

  lemma ErrorCall(s: State, i: nat, a: CallAct, t: State)
    requires i < |s.calls| && TeardownOk(s) && ErrorOk(s) && CallStep(s, i, a) == Some(t)
    ensures ErrorOk(t)
  {
    match a
    case CallRead => ErrorRead(s, i, t);
    case CallClose(fails) => ErrorClose(s, i, fails, t);
    case _ => hide TeardownOk;
  }

  lemma ErrorLoop(s: State, i: nat, a: LoopAct, t: State)
    requires i < |s.loops| && TeardownOk(s) && ErrorOk(s) && LoopStep(s, i, a) == Some(t)
    ensures ErrorOk(t)
  {
  }

  lemma ErrorStep(s: State, a: Action, t: State)
    requires TeardownOk(s) && ErrorOk(s) && Step(s, a) == Some(t)
    ensures ErrorOk(t)
  {
    match a
    case Recv(r) => ErrorRecv(s, r, t);
    case Dec(d) => ErrorDec(s, d, t);
    case Req(q) => ErrorReq(s, q, t);
    case Call(i, c) => ErrorCall(s, i, c, t);
    case Loop(i, l) => ErrorLoop(s, i, l, t);
    case Enq(i, e) => EnqFramed(s, i, e, t);
    case _ =>
  }

  // ---------------------------------------------------------------- every run

  ghost predicate Inv(s: State, stream: Text) {
    TeardownOk(s) && DeliveryOk(s, stream) && RequestsOk(s) && ErrorOk(s)
  }

  lemma InitInv(s: State, stream: Text)
    requires Init(s, stream)
    ensures Inv(s, stream)
  {
    assert s.interpreted <= Frames(stream) by {
      assert Frames(stream) == s.interpreted + (s.ic.msgChan + Flight(s.recv) + Frames(s.buf + s.wire));
    }
    assert Requests(s.processed) == [];
  }

  lemma InvStep(s: State, a: Action, t: State, stream: Text)
    requires Inv(s, stream) && Step(s, a) == Some(t)
    ensures Inv(t, stream)
  {
    TeardownStep(s, a, t);
    DeliveryStep(s, a, t, stream);
    RequestsStep(s, a, t);
    ErrorStep(s, a, t);
  }

  lemma {:induction false} InvRun(s: State, acts: seq<Action>, t: State, stream: Text)
    requires Inv(s, stream) && Run(s, acts) == Some(t)
    ensures Inv(t, stream)
    decreases |acts|
  {
    if acts != [] {
      var u := Step(s, acts[0]).value;
      InvStep(s, acts[0], u, stream);
      InvRun(u, acts[1..], t, stream);
    }
  }

  // ---------------------------------------------------------------- what every run guarantees

  /** The teardown events of an epoch happen in one order, each at most once; no channel is closed twice and the
      WaitGroup never goes negative; whoever gets out of Disconnect or LoopUntilDone gets out after the last event. */
  lemma OrderedTeardown(s0: State, stream: Text, acts: seq<Action>, t: State)
    requires Init(s0, stream) && Run(s0, acts) == Some(t)
    ensures t.trace <= TEARDOWN && !t.ic.crashed
    ensures forall j :: 0 <= j < |t.calls| && Left(t.calls[j]) ==> t.trace == TEARDOWN
    ensures forall j :: 0 <= j < |t.loops| && !t.loops[j].LWaiting? ==> t.trace == TEARDOWN
  {
    InitInv(s0, stream);
    InvRun(s0, acts, t, stream);
  }

  /** Once Disconnect has seen the workers go, and so whenever it runs reset, no worker can take another step. */
  lemma WorkerIsolation(s0: State, stream: Text, acts: seq<Action>, t: State)
    requires Init(s0, stream) && Run(s0, acts) == Some(t)
    requires t.swapped || WorkersExited in t.trace
    ensures t.recv.RExited? && t.dec.DExited? && t.req.QExited?
    ensures forall a: Action :: a.Recv? || a.Dec? || a.Req? ==> Step(t, a).None?
  {
    InitInv(s0, stream);
    InvRun(s0, acts, t, stream);
    WorkersGone(t);
    hide Inv, Init, Step;
    forall a: Action | a.Recv? || a.Dec? || a.Req? ensures Step(t, a).None? {
      ExitedWorkersRest(t, a);
    }
  }

  lemma WorkersGone(t: State)
    requires TeardownOk(t) && (t.swapped || WorkersExited in t.trace)
    ensures t.recv.RExited? && t.dec.DExited? && t.req.QExited?
  {
    assert Phase(t) >= 3;
  }

  lemma ExitedWorkersRest(t: State, a: Action)
    requires t.recv.RExited? && t.dec.DExited? && t.req.QExited? && (a.Recv? || a.Dec? || a.Req?)
    ensures Step(t, a).None?
  {
  }

  /** The messages handed to interpret, first by the handshake and then by the decoder, are always a prefix of the
      stream's frames: in order, none skipped, none twice. Until reset, the frames not yet interpreted are the ones
      in msgChan, then the one the receiver holds, then those still to be scanned. */
  lemma DeliveredInOrder(s0: State, stream: Text, acts: seq<Action>, t: State)
    requires Init(s0, stream) && Run(s0, acts) == Some(t)
    ensures s0.interpreted <= t.interpreted <= Frames(stream)
    ensures !t.swapped ==>
              Frames(stream) == t.interpreted + t.ic.msgChan + Flight(t.recv) + Frames(t.buf + t.wire)
  {
    InitInv(s0, stream);
    InvRun(s0, acts, t, stream);
    InterpretedGrows(s0, acts, t);
  }

  lemma {:induction false} InterpretedGrows(s: State, acts: seq<Action>, t: State)
    requires Run(s, acts) == Some(t)
    ensures s.interpreted <= t.interpreted
    decreases |acts|
  {
    if acts != [] {
      var u := Step(s, acts[0]).value;
      assert s.interpreted <= u.interpreted by {
        match acts[0]
        case Req(q) => DeliveryReq(s, q, u);
        case Call(i, c) => DeliveryCall(s, i, c, u);
        case Enq(i, e) => EnqFramed(s, i, e, u);
        case Recv(r) => RecvFramed(s, r, ScanFields(s.buf, false), u);
        case Dec(d) => DecOwns(s, d, u);
        case _ =>
      }
      InterpretedGrows(u, acts[1..], t);
    }
  }

  /** The requests accepted in an epoch are, in FIFO order, those written, those whose write failed, the one in the
      requester's hands and those still in the channel; the requester never drops one as "not connected". */
  lemma RequestConservation(s0: State, stream: Text, acts: seq<Action>, t: State)
    requires Init(s0, stream) && Run(s0, acts) == Some(t)
    ensures t.accepted == Requests(t.processed) + InHand(t.req) + EpochReq(t)
    ensures forall o :: o in t.processed ==> o.Written? || o.Failed?
  {
    InitInv(s0, stream);
    InvRun(s0, acts, t, stream);
  }

  /** A call to enqueue can be stuck only on a full channel whose signal is open; one that starts after reset is
      refused. */
  lemma EnqueueBlocks(s0: State, stream: Text, acts: seq<Action>, t: State, i: nat)
    requires Init(s0, stream) && Run(s0, acts) == Some(t) && i < |t.enqs| && !t.enqs[i].EAccepted?
    requires !t.enqs[i].ERejected?
    ensures (forall e :: Step(t, Enq(i, e)).None?)
            <==> t.enqs[i].ESelecting? && |Target(t, t.enqs[i].late)| == REQ_CAP && !SignalSeen(t, t.enqs[i].late)
    ensures t.swapped && t.enqs[i].EChecking? ==> Step(t, Enq(i, EnqCheck)).value.enqs[i].ERejected?
    ensures t.swapped && t.enqs[i].ESelecting? && !t.enqs[i].late ==> SignalSeen(t, false)
  {
    InitInv(s0, stream);
    InvRun(s0, acts, t, stream);
    EnqueueMoves(t, i);
    EnqueueSees(t, stream, i);
    hide Init, Inv;
  }

  /** What the invariant says about a parked call: the channels are not overfull, and reset comes after the signal. */
  lemma EnqueueSees(t: State, stream: Text, i: nat)
    requires Inv(t, stream) && i < |t.enqs|
    ensures |t.ic.reqChan| <= REQ_CAP && |t.oldReq| <= REQ_CAP
    ensures t.swapped ==> !t.ic.connected && t.ic.shutdownOnce
  {
    hide DeliveryOk, ErrorOk;
  }

  /** When each step of an enqueue call is enabled. */
  lemma EnqueueMoves(t: State, i: nat)
    requires i < |t.enqs|
    ensures Step(t, Enq(i, EnqCheck)).Some? <==> t.enqs[i].EChecking?
    ensures Step(t, Enq(i, EnqCapture)).Some? <==> t.enqs[i].ECapturing?
    ensures Step(t, Enq(i, EnqSend)).Some? <==> t.enqs[i].ESelecting? && |Target(t, t.enqs[i].late)| < REQ_CAP
    ensures Step(t, Enq(i, EnqTerm)).Some? <==> t.enqs[i].ESelecting? && SignalSeen(t, t.enqs[i].late)
  {
  }

  /** Disconnect and LoopUntilDone promise the recorded error, but reset clears it first: whatever a worker
      recorded, every one of these calls returns nil. */
  lemma ErrorNeverReturned(s0: State, stream: Text, acts: seq<Action>, t: State)
    requires Init(s0, stream) && Run(s0, acts) == Some(t)
    ensures forall j :: 0 <= j < |t.calls| && t.calls[j].CReturned? ==> t.calls[j].r.None?
    ensures forall j :: 0 <= j < |t.loops| && t.loops[j].LReturned? ==> t.loops[j].r.None?
    ensures !t.swapped ==> t.ic.err == t.firstErr
  {
    InitInv(s0, stream);
    InvRun(s0, acts, t, stream);
  }

  /** Once the client's error is set no run replaces it: it stays as it is up to reset, and from reset on it is nil. */
  lemma FirstErrorWins(s: State, stream: Text, acts: seq<Action>, t: State)
    requires Inv(s, stream) && s.ic.err.Some? && Run(s, acts) == Some(t)
    ensures t.ic.err == if t.swapped then None else s.ic.err
  {
    InvRun(s, acts, t, stream);
    HistoryKept(s, acts, t);
  }

  lemma {:induction false} HistoryKept(s: State, acts: seq<Action>, t: State)
    requires s.firstErr.Some? && Run(s, acts) == Some(t)
    ensures t.firstErr == s.firstErr
    decreases |acts|
  {
    if acts != [] {
      var u := Step(s, acts[0]).value;
      FirstErrorKept(s, acts[0], u);
      HistoryKept(u, acts[1..], t);
    }
  }

  lemma FirstErrorKept(s: State, a: Action, t: State)
    requires s.firstErr.Some? && Step(s, a) == Some(t)
    ensures t.firstErr == s.firstErr
  {
    match a
    case Recv(r) => RecvRecords(s, r, ScanFields(s.buf, false), t);
    case Dec(d) => DecRecords(s, d, t);
    case Req(q) => ReqRecords(s, q, t);
    case Enq(i, e) => EnqFramed(s, i, e, t);
    case _ =>
  }

  // ---------------------------------------------------------------- a run in which an error is lost

  function Fresh(msgs: seq<Text>, held: RecvPc): State {
    State(Fields(true, true, [], [], msgs, false, false, false, false, false, None, 3, false),
          [], [], held, DSelecting, QSelecting, [], Idle, [], [], false, [], [], [], [], [], None)
  }

  lemma {:induction false} RunOn(s: State, a: seq<Action>, t: State, b: seq<Action>, u: State)
    requires Run(s, a) == Some(t) && Run(t, b) == Some(u)
    ensures Run(s, a + b) == Some(u)
    decreases |a|
  {
    if a == [] {
      assert a + b == b;
    } else {
      assert (a + b)[1..] == a[1..] + b;
      RunOn(Step(s, a[0]).value, a[1..], t, b, u);
    }
  }

  lemma Run4(s: State, a: Action, b: Action, c: Action, d: Action) returns (t: State)
    requires Step(s, a).Some? && Step(Step(s, a).value, b).Some?
    requires Step(Step(Step(s, a).value, b).value, c).Some?
    requires Step(Step(Step(Step(s, a).value, b).value, c).value, d).Some?
    ensures Run(s, [a, b, c, d]) == Some(t) && t == Step(Step(Step(Step(s, a).value, b).value, c).value, d).value
  {
    var s1 := Step(s, a).value;
    var s2 := Step(s1, b).value;
    var s3 := Step(s2, c).value;
    t := Step(s3, d).value;
    assert Run(t, []) == Some(t);
    assert Run(s3, [d]) == Some(t);
    assert [c, d][1..] == [d] && Run(s2, [c, d]) == Some(t);
    assert [b, c, d][1..] == [c, d] && Run(s1, [b, c, d]) == Some(t);
    assert [a, b, c, d][1..] == [b, c, d];
  }

  const FAILING := [NewLoop, Recv(RecvFail), Recv(RecvAfter), Recv(RecvDefer)]
  const CLOSING := [Recv(RecvLeave), Call(0, CallEnter), Call(0, CallSignal), Call(0, CallClose(false))]
  const LEAVING := [Dec(DecTerm), Dec(DecLeave), Req(ReqTerm), Req(ReqLeave)]
  const WRAPPING_UP := [Call(0, CallWait), Call(0, CallNotify(false)), Call(0, CallReset), Call(0, CallRelease)]
  const RETURNING := [Call(0, CallFinish), Call(0, CallRead), Loop(0, LoopWake), Loop(0, LoopRead)]

  function Failed0(): State {
    var s := Fresh([], RScanning);
    s.(ic := s.ic.(err := Some(ScannerError), errOnce := true), firstErr := Some(ScannerError),
       loops := [LWaiting], calls := [CEntering], recv := RLeaving)
  }

  function Closed0(): State {
    var s := Failed0();
    s.(ic := s.ic.(wg := 2, termClosed := true, shutdownOnce := true, sockOpen := false), recv := RExited,
       once := Running(0), calls := [CWaiting], trace := [SignalClosed, SocketClosed])
  }

  function Reset0(): State {
    var s := Closed0();
    s.(ic := s.ic.(wg := 0, connected := false, termClosed := false, err := None, doneClosed := true, doneOnce := true),
       dec := DExited, req := QExited, swapped := true, calls := [CFinishing(false)], trace := TEARDOWN)
  }

  lemma ErrorRecorded()
    ensures Run(Fresh([], RScanning), FAILING) == Some(Failed0())
  {
    var s := Fresh([], RScanning);
    var s1 := s.(loops := [LWaiting]);
    var s2 := s1.(recv := RStopped(Some(ScannerError)));
    var s3 := s2.(ic := s.ic.(err := Some(ScannerError), errOnce := true), firstErr := Some(ScannerError),
                  recv := RDeferred);
    assert s.loops + [LWaiting] == [LWaiting] && s.calls + [CEntering] == [CEntering];
    assert Step(s, NewLoop) == Some(s1);
    assert Step(s1, Recv(RecvFail)) == Some(s2);
    assert Step(s2, Recv(RecvAfter)) == Some(s3);
    assert Step(s3, Recv(RecvDefer)) == Some(Failed0());
    var t := Run4(s, NewLoop, Recv(RecvFail), Recv(RecvAfter), Recv(RecvDefer));
  }

  lemma SocketClosedNext()
    ensures Run(Failed0(), CLOSING) == Some(Closed0())
  {
    var t := Run4(Failed0(), Recv(RecvLeave), Call(0, CallEnter), Call(0, CallSignal), Call(0, CallClose(false)));
    assert t.calls == [CWaiting] && t.trace == [SignalClosed, SocketClosed];
  }

  lemma WorkersLeave()
    ensures Run(Closed0(), LEAVING) == Some(Closed0().(ic := Closed0().ic.(wg := 0), dec := DExited, req := QExited))
  {
    var t := Run4(Closed0(), Dec(DecTerm), Dec(DecLeave), Req(ReqTerm), Req(ReqLeave));
  }

  lemma TornDown(s: State)
    requires s == Closed0().(ic := Closed0().ic.(wg := 0), dec := DExited, req := QExited)
    ensures Run(s, WRAPPING_UP) == Some(Reset0())
  {
    var t := Run4(s, Call(0, CallWait), Call(0, CallNotify(false)), Call(0, CallReset), Call(0, CallRelease));
    assert t.calls == [CFinishing(false)] && t.trace == TEARDOWN;
  }

  lemma NilReturned() returns (t: State)
    ensures Run(Reset0(), RETURNING) == Some(t)
    ensures t.firstErr == Some(ScannerError) && t.loops == [LReturned(None)] && t.calls == [CReturned(None)]
  {
    t := Run4(Reset0(), Call(0, CallFinish), Call(0, CallRead), Loop(0, LoopWake), Loop(0, LoopRead));
  }

  /** The socket fails, the receiver records the error and starts the teardown, and Disconnect and LoopUntilDone return
      nil. */
  lemma ErrorLostWitness() returns (acts: seq<Action>, t: State)
    ensures Init(Fresh([], RScanning), []) && Run(Fresh([], RScanning), acts) == Some(t)
    ensures t.firstErr == Some(ScannerError) && t.loops == [LReturned(None)] && t.calls == [CReturned(None)]
  {
    var s0, s1, s2 := Fresh([], RScanning), Failed0(), Closed0();
    var s3 := s2.(ic := s2.ic.(wg := 0), dec := DExited, req := QExited);
    ErrorRecorded();
    SocketClosedNext();
    WorkersLeave();
    TornDown(s3);
    t := NilReturned();
    RunOn(s0, FAILING, s1, CLOSING, s2);
    RunOn(s0, FAILING + CLOSING, s2, LEAVING, s3);
    RunOn(s0, FAILING + CLOSING + LEAVING, s3, WRAPPING_UP, Reset0());
    RunOn(s0, FAILING + CLOSING + LEAVING + WRAPPING_UP, Reset0(), RETURNING, t);
    acts := FAILING + CLOSING + LEAVING + WRAPPING_UP + RETURNING;
  }
}
