/** What one step of each worker changes. The proofs about runs use these footprints instead of the steps. */
module Footprints {
  import opened Basics
  import opened Framing
  import opened Lifecycle

  // ---------------------------------------------------------------- signal and error

  predicate SameSignal(s: State, t: State) {
    && t.ic.termClosed == s.ic.termClosed && t.ic.shutdownOnce == s.ic.shutdownOnce && t.trace == s.trace
    && t.ic.crashed == s.ic.crashed
  }

  /** signalShutdown: its Once, and the channel that is closed under it. */
  predicate Signalled(s: State, t: State) {
    && t.ic.shutdownOnce && t.ic.termClosed == (s.ic.termClosed || !s.ic.shutdownOnce)
    && t.ic.crashed == (s.ic.crashed || (!s.ic.shutdownOnce && s.ic.termClosed))
    && t.trace == (if s.ic.shutdownOnce then s.trace else s.trace + [SignalClosed])
  }

  /** wg.Done(). */
  predicate LeftGroup(s: State, t: State) {
    && t.ic.termClosed == s.ic.termClosed && t.ic.shutdownOnce == s.ic.shutdownOnce && t.trace == s.trace
    && t.ic.wg == (if s.ic.wg == 0 then 0 else s.ic.wg - 1) && t.ic.crashed == (s.ic.crashed || s.ic.wg == 0)
  }

  /** A step that signals, one that leaves the WaitGroup, and any other. */
  predicate SignalPart(s: State, signals: bool, leaves: bool, t: State) {
    if leaves then LeftGroup(s, t)
    else t.ic.wg == s.ic.wg && (if signals then Signalled(s, t) else SameSignal(s, t))
  }

  predicate SameError(s: State, t: State) {
    && t.ic.err == s.ic.err && t.ic.errOnce == s.ic.errOnce && t.firstErr == s.firstErr
  }

  /** The error a step records, if any: the client keeps the first. */
  predicate Records(s: State, e: Option<Err>, t: State) {
    if e.None? then SameError(s, t)
    else
      && t.ic.errOnce && t.ic.err == (if s.ic.errOnce then s.ic.err else e)
      && t.firstErr == (if s.firstErr.None? then e else s.firstErr)
  }

  // ---------------------------------------------------------------- the receiver

  function RecvError(s: State, a: RecvAct): Option<Err> {
    match a
    case RecvAfter => if s.recv.RStopped? then Inspected(s) else None
    case RecvReport(panics) => if panics then None else Some(BadLength)
    case RecvRecover => Some(RecvPanicked)
    case _ => None
  }

  /** All that the receiver can change. */
  predicate RecvFrame(s: State, t: State) { RecvFields(s.ic, t.ic) && RecvOuter(s, t) }

  predicate RecvOuter(s: State, t: State) {
    && t.dec == s.dec && t.req == s.req && t.once == s.once && t.enqs == s.enqs && t.loops == s.loops
    && t.swapped == s.swapped && t.oldReq == s.oldReq && t.interpreted == s.interpreted && t.accepted == s.accepted
    && t.processed == s.processed
  }

  predicate RecvFields(f: Fields, g: Fields) {
    && g.connected == f.connected && g.sockOpen == f.sockOpen && g.reqChan == f.reqChan && g.errChan == f.errChan
    && g.doneClosed == f.doneClosed && g.doneOnce == f.doneOnce
  }

  /** The receiver's own place and data: the three steps of its loop, and all the others. */
  predicate RecvOwn(s: State, a: RecvAct, scan: Scan, t: State)
    requires scan.Token? ==> scan.advance <= |s.buf|
  {
    match a
    case RecvRead(k) =>
      && s.recv.RScanning? && scan.NeedMore? && s.ic.sockOpen && 1 <= k <= |s.wire| && |s.buf| + k <= MAX_MSG_LEN
      && t.recv == s.recv && t.buf == s.buf + s.wire[..k] && t.wire == s.wire[k..] && t.ic.msgChan == s.ic.msgChan
    case RecvToken =>
      && s.recv.RScanning? && scan.Token? && t.recv == RSending(scan.token) && t.buf == s.buf[scan.advance..]
      && t.wire == s.wire && t.ic.msgChan == s.ic.msgChan
    case RecvSend =>
      && s.recv.RSending? && t.recv == RScanning && |s.ic.msgChan| < MSG_CAP
      && t.ic.msgChan == s.ic.msgChan + [s.recv.m] && t.buf == s.buf && t.wire == s.wire
    case _ =>
      && t.buf == s.buf && t.wire == s.wire && t.ic.msgChan == s.ic.msgChan && !s.recv.RSending? && !t.recv.RSending?
      && !t.recv.RScanning?
      && RecvPlace(t.recv) < RecvPlace(s.recv) && (t.recv.RExited? <==> a.RecvLeave?) && !s.recv.RExited?
      && (s.recv.RScanning? ==> scan.NeedMore?)
  }

  /** How far the receiver is from its exit. */
  function RecvPlace(pc: RecvPc): nat {
    match pc
    case RScanning => 7
    case RSending(_) => 12
    case RStopped(_) => 6
    case RReporting => 5
    case RRecovering => 4
    case RSignalling => 3
    case RDeferred => 2
    case RLeaving => 1
    case RExited => 0
  }

  /** Where each step behind the scan loop leads. */
  predicate RecvMoves(s: State, a: RecvAct, scan: Scan, t: State) {
    match a
    case RecvTooLong => t.recv == RStopped(Some(BadLength)) && scan.NeedMore? && |s.buf| >= MAX_MSG_LEN
    case RecvEof => t.recv == RStopped(None) && scan.NeedMore? && s.wire == []
    case RecvFail => t.recv == RStopped(Some(ScannerError))
    case RecvAfter =>
      s.recv.RStopped?
      && t.recv == (if !s.ic.termClosed && s.recv.why == Some(BadLength) then RReporting else RDeferred)
    case RecvReport(panics) => s.recv.RReporting? && t.recv == (if panics then RRecovering else RDeferred)
    case RecvRecover => s.recv.RRecovering? && t.recv.RSignalling?
    case RecvSignal => s.recv.RSignalling? && t.recv.RLeaving?
    case RecvDefer => s.recv.RDeferred? && t.recv.RLeaving?
    case RecvLeave => s.recv.RLeaving? && t.recv.RExited?
    case _ => true
  }

  lemma RecvMoved(s: State, a: RecvAct, scan: Scan, t: State)
    requires scan.Token? ==> scan.advance <= |s.buf|
    requires RecvScanned(s, a, scan) == Some(t)
    ensures RecvMoves(s, a, scan, t)
  {
  }

  predicate RecvPrint(s: State, a: RecvAct, scan: Scan, t: State)
    requires scan.Token? ==> scan.advance <= |s.buf|
  {
    && RecvFrame(s, t) && t.calls == (if a.RecvDefer? && !s.ic.termClosed then s.calls + [CEntering] else s.calls)
    && SignalPart(s, a.RecvSignal?, a.RecvLeave?, t) && Records(s, RecvError(s, a), t) && RecvOwn(s, a, scan, t)
  }

  lemma RecvOuterFramed(s: State, a: RecvAct, scan: Scan, t: State)
    requires scan.Token? ==> scan.advance <= |s.buf|
    requires RecvScanned(s, a, scan) == Some(t)
    ensures RecvOuter(s, t)
  {
  }

  lemma RecvFieldsScanning(s: State, a: RecvAct, scan: Scan, t: State)
    requires scan.Token? ==> scan.advance <= |s.buf|
    requires RecvScanned(s, a, scan) == Some(t) && (a.RecvRead? || a.RecvToken? || a.RecvSend?)
    ensures RecvFields(s.ic, t.ic)
  {
  }

  lemma RecvFieldsStopping(s: State, a: RecvAct, scan: Scan, t: State)
    requires scan.Token? ==> scan.advance <= |s.buf|
    requires RecvScanned(s, a, scan) == Some(t) && (a.RecvTooLong? || a.RecvEof? || a.RecvFail? || a.RecvDefer?)
    ensures RecvFields(s.ic, t.ic)
  {
  }

  lemma RecvFieldsRecording(s: State, a: RecvAct, scan: Scan, t: State)
    requires scan.Token? ==> scan.advance <= |s.buf|
    requires RecvScanned(s, a, scan) == Some(t) && (a.RecvAfter? || a.RecvReport? || a.RecvRecover?)
    ensures RecvFields(s.ic, t.ic)
  {
  }

  lemma RecvFieldsEnding(s: State, a: RecvAct, scan: Scan, t: State)
    requires scan.Token? ==> scan.advance <= |s.buf|
    requires RecvScanned(s, a, scan) == Some(t) && (a.RecvSignal? || a.RecvLeave?)
    ensures RecvFields(s.ic, t.ic)
  {
  }

  lemma RecvFieldsFramed(s: State, a: RecvAct, scan: Scan, t: State)
    requires scan.Token? ==> scan.advance <= |s.buf|
    requires RecvScanned(s, a, scan) == Some(t)
    ensures RecvFields(s.ic, t.ic)
  {
    hide RecvScanned, RecvFields;
    if a.RecvRead? || a.RecvToken? || a.RecvSend? {
      RecvFieldsScanning(s, a, scan, t);
    } else if a.RecvTooLong? || a.RecvEof? || a.RecvFail? || a.RecvDefer? {
      RecvFieldsStopping(s, a, scan, t);
    } else if a.RecvAfter? || a.RecvReport? || a.RecvRecover? {
      RecvFieldsRecording(s, a, scan, t);
    } else {
      RecvFieldsEnding(s, a, scan, t);
    }
  }

  lemma RecvFramed(s: State, a: RecvAct, scan: Scan, t: State)
    requires scan.Token? ==> scan.advance <= |s.buf|
    requires RecvScanned(s, a, scan) == Some(t)
    ensures RecvFrame(s, t)
  {
    hide RecvScanned, RecvFields, RecvOuter;
    RecvOuterFramed(s, a, scan, t);
    RecvFieldsFramed(s, a, scan, t);
  }

  lemma RecvCalls(s: State, a: RecvAct, scan: Scan, t: State)
    requires scan.Token? ==> scan.advance <= |s.buf|
    requires RecvScanned(s, a, scan) == Some(t)
    ensures t.calls == (if a.RecvDefer? && !s.ic.termClosed then s.calls + [CEntering] else s.calls)
  {
  }

  lemma RecvSignals(s: State, a: RecvAct, scan: Scan, t: State)
    requires scan.Token? ==> scan.advance <= |s.buf|
    requires RecvScanned(s, a, scan) == Some(t)
    ensures SignalPart(s, a.RecvSignal?, a.RecvLeave?, t)
  {
  }

  lemma RecvRecords(s: State, a: RecvAct, scan: Scan, t: State)
    requires scan.Token? ==> scan.advance <= |s.buf|
    requires RecvScanned(s, a, scan) == Some(t)
    ensures Records(s, RecvError(s, a), t)
  {
  }

  lemma RecvOwns(s: State, a: RecvAct, scan: Scan, t: State)
    requires scan.Token? ==> scan.advance <= |s.buf|
    requires RecvScanned(s, a, scan) == Some(t)
    ensures RecvOwn(s, a, scan, t)
  {
  }

  lemma RecvPrinted(s: State, a: RecvAct, scan: Scan, t: State)
    requires scan.Token? ==> scan.advance <= |s.buf|
    requires RecvScanned(s, a, scan) == Some(t)
    ensures RecvPrint(s, a, scan, t)
  {
    RecvFramed(s, a, scan, t);
    RecvCalls(s, a, scan, t);
    RecvSignals(s, a, scan, t);
    RecvRecords(s, a, scan, t);
    RecvOwns(s, a, scan, t);
    hide RecvScanned, RecvFrame, SignalPart, Records, RecvOwn, RecvError;
  }

  // ---------------------------------------------------------------- the decoder

  /** All that the decoder can change. */
  predicate DecFrame(s: State, t: State) { DecFields(s.ic, t.ic) && DecOuter(s, t) }

  predicate DecOuter(s: State, t: State) {
    && t.wire == s.wire && t.buf == s.buf && t.recv == s.recv && t.req == s.req && t.calls == s.calls
    && t.once == s.once && t.enqs == s.enqs && t.loops == s.loops && t.swapped == s.swapped && t.oldReq == s.oldReq
    && t.accepted == s.accepted && t.processed == s.processed
  }

  predicate DecFields(f: Fields, g: Fields) {
    && g.connected == f.connected && g.sockOpen == f.sockOpen && g.reqChan == f.reqChan
    && g.doneClosed == f.doneClosed && g.doneOnce == f.doneOnce
  }

  predicate DecOwn(s: State, a: DecAct, t: State) {
    && (if a.DecTake? then
          && s.ic.msgChan != [] && t.ic.msgChan == s.ic.msgChan[1..]
          && t.interpreted == s.interpreted + [s.ic.msgChan[0]]
          && s.dec.DSelecting? && t.dec.DInterpreting?
        else t.ic.msgChan == s.ic.msgChan && t.interpreted == s.interpreted)
    && (if a.DecErr? then s.ic.errChan != [] && t.ic.errChan == s.ic.errChan[1..] && s.dec.DSelecting? && t.dec == s.dec
        else t.ic.errChan == s.ic.errChan)
    && (a.DecTake? || a.DecErr? || DecPlace(t.dec) < DecPlace(s.dec)) && (t.dec.DExited? <==> a.DecLeave?)
    && !s.dec.DExited?
  }

  /** Where each step of the decoder leads. */
  predicate DecMoves(s: State, a: DecAct, t: State) {
    match a
    case DecTake => s.dec.DSelecting? && s.ic.msgChan != [] && t.dec == DInterpreting(s.ic.msgChan[0])
    case DecErr => s.dec.DSelecting? && t.dec.DSelecting?
    case DecTerm => s.dec.DSelecting? && s.ic.termClosed && t.dec.DLeaving?
    case DecDone(panics) => s.dec.DInterpreting? && t.dec == (if panics then DRecovering else DSelecting)
    case DecRecover => s.dec.DRecovering? && t.dec.DSignalling?
    case DecSignal => s.dec.DSignalling? && t.dec.DLeaving?
    case DecLeave => s.dec.DLeaving? && t.dec.DExited?
  }

  lemma DecMoved(s: State, a: DecAct, t: State)
    requires DecStep(s, a) == Some(t)
    ensures DecMoves(s, a, t)
  {
  }

  predicate DecPrint(s: State, a: DecAct, t: State) {
    && DecFrame(s, t) && SignalPart(s, a.DecSignal?, a.DecLeave?, t)
    && Records(s, if a.DecRecover? then Some(DecPanicked) else None, t) && DecOwn(s, a, t)
  }

  function DecPlace(pc: DecPc): nat {
    match pc
    case DSelecting => 4
    case DInterpreting(_) => 7
    case DRecovering => 3
    case DSignalling => 2
    case DLeaving => 1
    case DExited => 0
  }

  lemma DecOuterFramed(s: State, a: DecAct, t: State)
    requires DecStep(s, a) == Some(t)
    ensures DecOuter(s, t)
  {
  }

  lemma DecFieldsSelecting(s: State, a: DecAct, t: State)
    requires DecStep(s, a) == Some(t) && (a.DecTake? || a.DecErr? || a.DecTerm? || a.DecDone?)
    ensures DecFields(s.ic, t.ic)
  {
  }

  lemma DecFieldsEnding(s: State, a: DecAct, t: State)
    requires DecStep(s, a) == Some(t) && (a.DecRecover? || a.DecSignal? || a.DecLeave?)
    ensures DecFields(s.ic, t.ic)
  {
  }

  lemma DecFieldsFramed(s: State, a: DecAct, t: State)
    requires DecStep(s, a) == Some(t)
    ensures DecFields(s.ic, t.ic)
  {
    hide DecStep, DecFields;
    if a.DecTake? || a.DecErr? || a.DecTerm? || a.DecDone? {
      DecFieldsSelecting(s, a, t);
    } else {
      DecFieldsEnding(s, a, t);
    }
  }

  lemma DecFramed(s: State, a: DecAct, t: State)
    requires DecStep(s, a) == Some(t)
    ensures DecFrame(s, t)
  {
    hide DecStep, DecFields, DecOuter;
    DecOuterFramed(s, a, t);
    DecFieldsFramed(s, a, t);
  }

  lemma DecSignals(s: State, a: DecAct, t: State)
    requires DecStep(s, a) == Some(t)
    ensures SignalPart(s, a.DecSignal?, a.DecLeave?, t)
  {
  }

  lemma DecRecords(s: State, a: DecAct, t: State)
    requires DecStep(s, a) == Some(t)
    ensures Records(s, if a.DecRecover? then Some(DecPanicked) else None, t)
  {
  }

  lemma DecOwns(s: State, a: DecAct, t: State)
    requires DecStep(s, a) == Some(t)
    ensures DecOwn(s, a, t)
  {
  }

  lemma DecPrinted(s: State, a: DecAct, t: State)
    requires DecStep(s, a) == Some(t)
    ensures DecPrint(s, a, t)
  {
    DecFramed(s, a, t);
    DecSignals(s, a, t);
    DecRecords(s, a, t);
    DecOwns(s, a, t);
    hide DecStep, DecFrame, SignalPart, Records, DecOwn;
  }

  // ---------------------------------------------------------------- the requester

  /** All that the requester can change. */
  predicate ReqFrame(s: State, t: State) { ReqFields(s.ic, t.ic) && ReqOuter(s, t) }

  predicate ReqOuter(s: State, t: State) {
    && t.wire == s.wire && t.buf == s.buf && t.recv == s.recv && t.dec == s.dec && t.calls == s.calls
    && t.once == s.once && t.enqs == s.enqs && t.loops == s.loops && t.swapped == s.swapped && t.oldReq == s.oldReq
    && t.interpreted == s.interpreted && t.accepted == s.accepted
  }

  predicate ReqFields(f: Fields, g: Fields) {
    && g.connected == f.connected && g.sockOpen == f.sockOpen && g.msgChan == f.msgChan
    && g.doneClosed == f.doneClosed && g.doneOnce == f.doneOnce
  }

  predicate SameQueues(s: State, t: State) { t.ic.reqChan == s.ic.reqChan && t.ic.errChan == s.ic.errChan }

  /** Where a request goes. */
  predicate ReqOwn(s: State, a: ReqAct, t: State) {
    match a
    case ReqTake =>
      && s.req.QSelecting? && s.ic.reqChan != [] && t.req == QChecking(s.ic.reqChan[0])
      && t.ic.reqChan == s.ic.reqChan[1..]
      && t.processed == s.processed && t.ic.errChan == s.ic.errChan
    case ReqCheck =>
      && s.req.QChecking? && t.req == (if s.ic.connected then QWriting(s.req.r) else QRejecting(s.req.r))
      && SameQueues(s, t) && t.processed == s.processed
    case ReqReject(panics) =>
      && s.req.QRejecting? && t.req == (if panics then QRecovering else QSelecting) && SameQueues(s, t)
      && t.processed == s.processed + [Rejected(s.req.r)]
    case ReqWrite(ok) =>
      && s.req.QWriting? && t.req == (if ok then QSelecting else QReporting) && SameQueues(s, t)
      && t.processed == s.processed + [if ok then Written(s.req.r) else Failed(s.req.r)]
    case ReqReport =>
      && s.req.QReporting? && t.req.QSelecting? && |s.ic.errChan| < ERR_CAP
      && t.ic.errChan == s.ic.errChan + [WriteFailed]
      && t.ic.reqChan == s.ic.reqChan && t.processed == s.processed
    case _ =>
      && SameQueues(s, t) && t.processed == s.processed && (t.req.QExited? <==> a.ReqLeave?) && !s.req.QExited?
      && (if a.ReqTerm? then s.req.QSelecting? && s.ic.termClosed && t.req.QLeaving?
          else if a.ReqRecover? then s.req.QRecovering? && t.req.QSignalling?
          else if a.ReqSignal? then s.req.QSignalling? && t.req.QLeaving?
          else s.req.QLeaving?)
  }

  predicate ReqPrint(s: State, a: ReqAct, t: State) {
    && ReqFrame(s, t) && SignalPart(s, a.ReqSignal?, a.ReqLeave?, t)
    && Records(s, if a.ReqRecover? then Some(ReqPanicked) else None, t) && ReqOwn(s, a, t)
  }

  lemma ReqOuterFramed(s: State, a: ReqAct, t: State)
    requires ReqStep(s, a) == Some(t)
    ensures ReqOuter(s, t)
  {
  }

  lemma ReqFieldsSelecting(s: State, a: ReqAct, t: State)
    requires ReqStep(s, a) == Some(t) && (a.ReqTake? || a.ReqTerm? || a.ReqReport?)
    ensures ReqFields(s.ic, t.ic)
  {
  }

  lemma ReqFieldsHandling(s: State, a: ReqAct, t: State)
    requires ReqStep(s, a) == Some(t) && (a.ReqCheck? || a.ReqReject? || a.ReqWrite?)
    ensures ReqFields(s.ic, t.ic)
  {
  }

  lemma ReqFieldsEnding(s: State, a: ReqAct, t: State)
    requires ReqStep(s, a) == Some(t) && (a.ReqRecover? || a.ReqSignal? || a.ReqLeave?)
    ensures ReqFields(s.ic, t.ic)
  {
  }

  lemma ReqFieldsFramed(s: State, a: ReqAct, t: State)
    requires ReqStep(s, a) == Some(t)
    ensures ReqFields(s.ic, t.ic)
  {
    hide ReqStep, ReqFields;
    if a.ReqTake? || a.ReqTerm? || a.ReqReport? {
      ReqFieldsSelecting(s, a, t);
    } else if a.ReqCheck? || a.ReqReject? || a.ReqWrite? {
      ReqFieldsHandling(s, a, t);
    } else {
      ReqFieldsEnding(s, a, t);
    }
  }

  lemma ReqFramed(s: State, a: ReqAct, t: State)
    requires ReqStep(s, a) == Some(t)
    ensures ReqFrame(s, t)
  {
    hide ReqStep, ReqFields, ReqOuter;
    ReqOuterFramed(s, a, t);
    ReqFieldsFramed(s, a, t);
  }

  lemma ReqSignals(s: State, a: ReqAct, t: State)
    requires ReqStep(s, a) == Some(t)
    ensures SignalPart(s, a.ReqSignal?, a.ReqLeave?, t)
  {
  }

  lemma ReqRecords(s: State, a: ReqAct, t: State)
    requires ReqStep(s, a) == Some(t)
    ensures Records(s, if a.ReqRecover? then Some(ReqPanicked) else None, t)
  {
  }

  lemma ReqOwns(s: State, a: ReqAct, t: State)
    requires ReqStep(s, a) == Some(t)
    ensures ReqOwn(s, a, t)
  {
  }

  lemma ReqPrinted(s: State, a: ReqAct, t: State)
    requires ReqStep(s, a) == Some(t)
    ensures ReqPrint(s, a, t)
  {
    ReqFramed(s, a, t);
    ReqSignals(s, a, t);
    ReqRecords(s, a, t);
    ReqOwns(s, a, t);
    hide ReqStep, ReqFrame, SignalPart, Records, ReqOwn;
  }

  // ---------------------------------------------------------------- the callers

  /** All that a Disconnect call can change. */
  predicate CallFrame(s: State, t: State) {
    && t.wire == s.wire && t.buf == s.buf && t.recv == s.recv && t.dec == s.dec && t.req == s.req && t.enqs == s.enqs
    && t.loops == s.loops && t.interpreted == s.interpreted && t.accepted == s.accepted && t.processed == s.processed
    && |t.calls| == |s.calls| && (t.ic.sockOpen ==> s.ic.sockOpen)
  }

  lemma CallFramed(s: State, i: nat, a: CallAct, t: State)
    requires i < |s.calls| && CallStep(s, i, a) == Some(t)
    ensures CallFrame(s, t)
  {
  }

  /** What each step of Disconnect makes of the shared fields. */
  lemma CallWrites(s: State, i: nat, a: CallAct, t: State)
    requires i < |s.calls| && CallStep(s, i, a) == Some(t)
    ensures t.ic == match a
              case CallSignal => s.ic.SignalShutdown()
              case CallClose(fails) => s.ic.SetErr(if fails then Some(CloseFailed) else None).(sockOpen := false)
              case CallReset => s.ic.Reset()
              case CallRelease => s.ic.SignalDone()
              case _ => s.ic
  {
  }

  /** All that an enqueue call can change. */
  predicate EnqFrame(s: State, t: State) {
    && t.wire == s.wire && t.buf == s.buf && t.recv == s.recv && t.dec == s.dec && t.req == s.req
    && t.calls == s.calls && t.once == s.once && t.loops == s.loops && t.swapped == s.swapped && t.trace == s.trace
    && t.interpreted == s.interpreted && t.processed == s.processed && t.firstErr == s.firstErr
    && EnqFields(s.ic, t.ic)
  }

  predicate EnqFields(f: Fields, g: Fields) { g == f.(reqChan := g.reqChan) }

  lemma EnqFramed(s: State, i: nat, a: EnqAct, t: State)
    requires i < |s.enqs| && EnqStep(s, i, a) == Some(t)
    ensures EnqFrame(s, t)
  {
    if a.EnqSend? {
      assert EnqFields(s.ic, t.ic);
    } else {
      assert t.ic == s.ic;
    }
  }
}
