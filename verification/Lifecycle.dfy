/** client.go: one connection epoch as a step machine. The concurrent phase starts when Run has spawned its
    workers; every goroutine has a program counter and every interleaving of their atomic steps is a run. */
module Lifecycle {
  import opened Basics
  import opened Framing

  const REQ_CAP := 10
  const ERR_CAP := 10
  const MSG_CAP := 100

  // ---------------------------------------------------------------- the client's fields

  datatype Err = CloseFailed | BadLength | ScannerError | WriteFailed | RecvPanicked | DecPanicked | ReqPanicked

  /** The fields of IbClient that goroutines share. `crashed` records a Go run-time fault: closing a closed
      channel or a negative WaitGroup counter. */
  datatype Fields = Fields(
    connected: bool, sockOpen: bool,
    reqChan: seq<Text>, errChan: seq<Err>, msgChan: seq<Text>,
    termClosed: bool, doneClosed: bool,
    shutdownOnce: bool, doneOnce: bool, errOnce: bool,
    err: Option<Err>, wg: nat, crashed: bool)
  {
    /** Close terminatedSignal, unless its Once has run. */
    function SignalShutdown(): Fields {
      this.(termClosed := termClosed || !shutdownOnce, crashed := crashed || (termClosed && !shutdownOnce),
            shutdownOnce := true)
    }

    /** Close done, unless its Once has run. */
    function SignalDone(): Fields {
      this.(doneClosed := doneClosed || !doneOnce, crashed := crashed || (doneClosed && !doneOnce), doneOnce := true)
    }

    /** Record an error, unless one has been recorded; nil is ignored. */
    function SetErr(e: Option<Err>): Fields {
      this.(err := if e.None? || errOnce then err else e, errOnce := errOnce || e.Some?)
    }

    function WgDone(): Fields { this.(wg := if wg == 0 then 0 else wg - 1, crashed := crashed || wg == 0) }

    /** Fresh connection, channels and WaitGroup; `done` and the Onces stay, they are renewed by Connect. */
    function Reset(): Fields {
      this.(connected := false, sockOpen := false, reqChan := [], errChan := [], msgChan := [],
            termClosed := false, err := None, wg := 0)
    }
  }

  /** What a new client and a completed teardown leave behind. */
  predicate Quiet(f: Fields) {
    && !f.connected && f.reqChan == [] && f.errChan == [] && f.msgChan == []
    && !f.termClosed && f.err.None? && f.wg == 0 && !f.crashed
  }

  /** A fresh epoch: the socket is open, nothing is signalled, recorded, waiting or running, and no Once has run. */
  predicate FreshEpoch(f: Fields) {
    && Quiet(f) && f.sockOpen && !f.doneClosed && !f.shutdownOnce && !f.doneOnce && !f.errOnce
  }

  // ---------------------------------------------------------------- program counters

  datatype RecvPc = RScanning | RSending(m: Text) | RStopped(why: Option<Err>) | RReporting
                  | RRecovering | RSignalling | RDeferred | RLeaving | RExited

  datatype DecPc = DSelecting | DInterpreting(m: Text) | DRecovering | DSignalling | DLeaving | DExited

  datatype ReqPc = QSelecting | QChecking(r: Text) | QRejecting(r: Text) | QWriting(r: Text) | QReporting
                 | QRecovering | QSignalling | QLeaving | QExited

  /** A Disconnect call. `p` remembers that the ConnectionClosed callback panicked: the remaining defers still run. */
  datatype CallPc = CEntering | CSignalling | CClosing | CWaiting | CNotifying | CResetting(p: bool)
                  | CReleasing(p: bool) | CFinishing(p: bool) | CReading | CReturned(r: Option<Err>) | CPanicked

  /** An enqueue call; `late` tells whether it captured the channels installed by reset, not those of this epoch. */
  datatype EnqPc = EChecking(m: Text) | ECapturing(m: Text) | ESelecting(m: Text, late: bool) | EAccepted | ERejected

  datatype LoopPc = LWaiting | LReading | LReturned(r: Option<Err>)

  datatype Once = Idle | Running(who: nat) | Finished

  // ---------------------------------------------------------------- history

  datatype Event = SignalClosed | SocketClosed | WorkersExited | NotifiedClosed | ResetRun | DoneClosed

  const TEARDOWN: seq<Event> := [SignalClosed, SocketClosed, WorkersExited, NotifiedClosed, ResetRun, DoneClosed]

  datatype Outcome = Written(r: Text) | Failed(r: Text) | Rejected(r: Text)

  function Requests(os: seq<Outcome>): seq<Text> {
    seq(|os|, i requires 0 <= i < |os| => os[i].r)
  }

  datatype State = State(
    ic: Fields,
    wire: Text, buf: Text,
    recv: RecvPc, dec: DecPc, req: ReqPc,
    calls: seq<CallPc>, once: Once, enqs: seq<EnqPc>, loops: seq<LoopPc>,
    swapped: bool, oldReq: seq<Text>,
    trace: seq<Event>, interpreted: seq<Text>, accepted: seq<Text>, processed: seq<Outcome>, firstErr: Option<Err>)
  {
    function SetErr(e: Option<Err>): State {
      this.(ic := ic.SetErr(e), firstErr := if firstErr.None? then e else firstErr)
    }

    function SignalShutdown(): State {
      this.(ic := ic.SignalShutdown(), trace := if ic.shutdownOnce then trace else trace + [SignalClosed])
    }
  }

  // ---------------------------------------------------------------- goReceive

  datatype RecvAct = RecvRead(k: nat) | RecvToken | RecvTooLong | RecvEof | RecvFail | RecvSend | RecvAfter
                   | RecvReport(panics: bool) | RecvRecover | RecvSignal | RecvDefer | RecvLeave

  function RecvStep(s: State, a: RecvAct): Option<State> { RecvScanned(s, a, ScanFields(s.buf, false)) }

  /** The receiver's step, given what the split function says about its buffer. */
  function RecvScanned(s: State, a: RecvAct, scan: Scan): Option<State>
    requires scan.Token? ==> scan.advance <= |s.buf|
  {
    match a
    case RecvRead(k) =>
      if s.recv.RScanning? && scan.NeedMore? && s.ic.sockOpen && 1 <= k <= |s.wire| && |s.buf| + k <= MAX_MSG_LEN then
        Some(s.(buf := s.buf + s.wire[..k], wire := s.wire[k..]))
      else None
    case RecvToken =>
      if s.recv.RScanning? && scan.Token? then Some(s.(buf := s.buf[scan.advance..], recv := RSending(scan.token)))
      else None
    case RecvTooLong =>
      if s.recv.RScanning? && scan.NeedMore? && |s.buf| >= MAX_MSG_LEN then Some(s.(recv := RStopped(Some(BadLength))))
      else None
    case RecvEof =>
      if s.recv.RScanning? && scan.NeedMore? && |s.buf| < MAX_MSG_LEN && s.ic.sockOpen && s.wire == [] then
        Some(s.(recv := RStopped(None)))
      else None
    case RecvFail =>
      if s.recv.RScanning? && scan.NeedMore? && |s.buf| < MAX_MSG_LEN then
        Some(s.(recv := RStopped(Some(ScannerError))))
      else None
    case RecvSend =>
      if s.recv.RSending? && |s.ic.msgChan| < MSG_CAP then
        Some(s.(ic := s.ic.(msgChan := s.ic.msgChan + [s.recv.m]), recv := RScanning))
      else None
    case RecvAfter =>
      if s.recv.RStopped? then
        var reports := !s.ic.termClosed && s.recv.why == Some(BadLength);
        Some(s.SetErr(Inspected(s)).(recv := if reports then RReporting else RDeferred))
      else None
    case RecvReport(panics) =>
      if s.recv.RReporting? then
        Some(s.SetErr(if panics then None else Some(BadLength)).(recv := if panics then RRecovering else RDeferred))
      else None
    case RecvRecover => if s.recv.RRecovering? then Some(s.SetErr(Some(RecvPanicked)).(recv := RSignalling)) else None
    case RecvSignal => if s.recv.RSignalling? then Some(s.SignalShutdown().(recv := RLeaving)) else None
    case RecvDefer =>
      if s.recv.RDeferred? then
        Some(s.(recv := RLeaving, calls := if s.ic.termClosed then s.calls else s.calls + [CEntering]))
      else None
    case RecvLeave => if s.recv.RLeaving? then Some(s.(ic := s.ic.WgDone(), recv := RExited)) else None
  }

  /** What the receiver records right after its loop: a scanner error, unless shutdown was signalled. A frame that is
      too long is reported to the wrapper first. */
  function Inspected(s: State): Option<Err>
    requires s.recv.RStopped?
  {
    if s.ic.termClosed || s.recv.why == Some(BadLength) then None else s.recv.why
  }

  // ---------------------------------------------------------------- goDecode

  datatype DecAct = DecTake | DecErr | DecTerm | DecDone(panics: bool) | DecRecover | DecSignal | DecLeave

  function DecStep(s: State, a: DecAct): Option<State> {
    match a
    case DecTake =>
      if s.dec.DSelecting? && s.ic.msgChan != [] then
        var m := s.ic.msgChan[0];
        Some(s.(ic := s.ic.(msgChan := s.ic.msgChan[1..]), dec := DInterpreting(m), interpreted := s.interpreted + [m]))
      else None
    case DecErr =>
      if s.dec.DSelecting? && s.ic.errChan != [] then Some(s.(ic := s.ic.(errChan := s.ic.errChan[1..]))) else None
    case DecTerm => if s.dec.DSelecting? && s.ic.termClosed then Some(s.(dec := DLeaving)) else None
    case DecDone(panics) =>
      if s.dec.DInterpreting? then Some(s.(dec := if panics then DRecovering else DSelecting)) else None
    case DecRecover => if s.dec.DRecovering? then Some(s.SetErr(Some(DecPanicked)).(dec := DSignalling)) else None
    case DecSignal => if s.dec.DSignalling? then Some(s.SignalShutdown().(dec := DLeaving)) else None
    case DecLeave => if s.dec.DLeaving? then Some(s.(ic := s.ic.WgDone(), dec := DExited)) else None
  }

  // ---------------------------------------------------------------- goRequest

  datatype ReqAct = ReqTake | ReqTerm | ReqCheck | ReqReject(panics: bool) | ReqWrite(ok: bool) | ReqReport
                  | ReqRecover | ReqSignal | ReqLeave

  function ReqStep(s: State, a: ReqAct): Option<State> {
    match a
    case ReqTake =>
      if s.req.QSelecting? && s.ic.reqChan != [] then
        Some(s.(ic := s.ic.(reqChan := s.ic.reqChan[1..]), req := QChecking(s.ic.reqChan[0])))
      else None
    case ReqTerm => if s.req.QSelecting? && s.ic.termClosed then Some(s.(req := QLeaving)) else None
    case ReqCheck =>
      if s.req.QChecking? then
        Some(s.(req := if s.ic.connected then QWriting(s.req.r) else QRejecting(s.req.r)))
      else None
    case ReqReject(panics) =>
      if s.req.QRejecting? then
        Some(s.(processed := s.processed + [Rejected(s.req.r)], req := if panics then QRecovering else QSelecting))
      else None
    case ReqWrite(ok) =>
      if s.req.QWriting? then
        Some(s.(processed := s.processed + [if ok then Written(s.req.r) else Failed(s.req.r)],
                req := if ok then QSelecting else QReporting))
      else None
    case ReqReport =>
      if s.req.QReporting? && |s.ic.errChan| < ERR_CAP then
        Some(s.(ic := s.ic.(errChan := s.ic.errChan + [WriteFailed]), req := QSelecting))
      else None
    case ReqRecover => if s.req.QRecovering? then Some(s.SetErr(Some(ReqPanicked)).(req := QSignalling)) else None
    case ReqSignal => if s.req.QSignalling? then Some(s.SignalShutdown().(req := QLeaving)) else None
    case ReqLeave => if s.req.QLeaving? then Some(s.(ic := s.ic.WgDone(), req := QExited)) else None
  }

  // ---------------------------------------------------------------- Disconnect

  datatype CallAct = CallEnter | CallSignal | CallClose(fails: bool) | CallWait | CallNotify(panics: bool) | CallReset
                   | CallRelease | CallFinish | CallRead

  function CallStep(s: State, i: nat, a: CallAct): Option<State>
    requires i < |s.calls|
  {
    var pc := s.calls[i];
    match a
    case CallEnter =>
      if !pc.CEntering? then None
      else if s.once.Idle? then Some(s.(once := Running(i), calls := s.calls[i := CSignalling]))
      else if s.once.Finished? then Some(s.(calls := s.calls[i := CReading]))
      else None
    case CallSignal => if pc.CSignalling? then Some(s.SignalShutdown().(calls := s.calls[i := CClosing])) else None
    case CallClose(fails) =>
      if pc.CClosing? then
        var t := s.SetErr(if fails then Some(CloseFailed) else None);
        Some(t.(ic := t.ic.(sockOpen := false), trace := t.trace + [SocketClosed], calls := t.calls[i := CWaiting]))
      else None
    case CallWait =>
      if pc.CWaiting? && s.ic.wg == 0 then
        Some(s.(trace := s.trace + [WorkersExited], calls := s.calls[i := CNotifying]))
      else None
    case CallNotify(panics) =>
      if pc.CNotifying? then Some(s.(trace := s.trace + [NotifiedClosed], calls := s.calls[i := CResetting(panics)]))
      else None
    case CallReset =>
      if pc.CResetting? then
        Some(s.(ic := s.ic.Reset(), swapped := true, oldReq := s.ic.reqChan,
                trace := s.trace + [ResetRun], calls := s.calls[i := CReleasing(pc.p)]))
      else None
    case CallRelease =>
      if pc.CReleasing? then
        Some(s.(ic := s.ic.SignalDone(), trace := if s.ic.doneOnce then s.trace else s.trace + [DoneClosed],
                calls := s.calls[i := CFinishing(pc.p)]))
      else None
    case CallFinish =>
      if pc.CFinishing? then Some(s.(once := Finished, calls := s.calls[i := if pc.p then CPanicked else CReading]))
      else None
    case CallRead => if pc.CReading? then Some(s.(calls := s.calls[i := CReturned(s.ic.err)])) else None
  }

  // ---------------------------------------------------------------- enqueue and LoopUntilDone

  datatype EnqAct = EnqCheck | EnqCapture | EnqSend | EnqTerm

  function EnqStep(s: State, i: nat, a: EnqAct): Option<State>
    requires i < |s.enqs|
  {
    var pc := s.enqs[i];
    match a
    case EnqCheck =>
      if pc.EChecking? then
        Some(s.(enqs := s.enqs[i := if s.ic.connected then ECapturing(pc.m) else ERejected]))
      else None
    case EnqCapture =>
      if pc.ECapturing? then Some(s.(enqs := s.enqs[i := ESelecting(pc.m, s.swapped)])) else None
    case EnqSend =>
      if pc.ESelecting? && |Target(s, pc.late)| < REQ_CAP then
        Some(s.(enqs := s.enqs[i := EAccepted], accepted := if pc.late then s.accepted else s.accepted + [pc.m],
                ic := s.ic.(reqChan := if pc.late || !s.swapped then s.ic.reqChan + [pc.m] else s.ic.reqChan),
                oldReq := if pc.late || !s.swapped then s.oldReq else s.oldReq + [pc.m]))
      else None
    case EnqTerm =>
      if pc.ESelecting? && SignalSeen(s, pc.late) then Some(s.(enqs := s.enqs[i := ERejected])) else None
  }

  /** The request channel a parked enqueue call captured, and whether the signal it captured is closed. */
  function Target(s: State, late: bool): seq<Text> { if late || !s.swapped then s.ic.reqChan else s.oldReq }

  predicate SignalSeen(s: State, late: bool) { if late || !s.swapped then s.ic.termClosed else s.ic.shutdownOnce }

  datatype LoopAct = LoopWake | LoopRead

  function LoopStep(s: State, i: nat, a: LoopAct): Option<State>
    requires i < |s.loops|
  {
    match a
    case LoopWake => if s.loops[i].LWaiting? && s.ic.doneClosed then Some(s.(loops := s.loops[i := LReading])) else None
    case LoopRead => if s.loops[i].LReading? then Some(s.(loops := s.loops[i := LReturned(s.ic.err)])) else None
  }

  // ---------------------------------------------------------------- the whole system

  datatype Action = Recv(r: RecvAct) | Dec(d: DecAct) | Req(q: ReqAct)
                  | Call(i: nat, c: CallAct) | Enq(i: nat, e: EnqAct) | Loop(i: nat, l: LoopAct)
                  | NewCall | NewEnq(m: Text) | NewLoop

  function Step(s: State, a: Action): Option<State> {
    match a
    case Recv(r) => RecvStep(s, r)
    case Dec(d) => DecStep(s, d)
    case Req(q) => ReqStep(s, q)
    case Call(i, c) => if i < |s.calls| then CallStep(s, i, c) else None
    case Enq(i, e) => if i < |s.enqs| then EnqStep(s, i, e) else None
    case Loop(i, l) => if i < |s.loops| then LoopStep(s, i, l) else None
    case NewCall => Some(s.(calls := s.calls + [CEntering]))
    case NewEnq(m) => Some(s.(enqs := s.enqs + [EChecking(m)]))
    case NewLoop => Some(s.(loops := s.loops + [LWaiting]))
  }

  /** The state a sequence of actions leads to, if each is enabled in its turn. */
  function Run(s: State, acts: seq<Action>): Option<State>
    decreases |acts|
  {
    if acts == [] then Some(s)
    else match Step(s, acts[0])
      case Some(t) => Run(t, acts[1..])
      case None => None
  }

  function Flight(pc: RecvPc): seq<Text> { if pc.RSending? then [pc.m] else [] }

  /** Run has just spawned the requester and the decoder; the receiver is still in its scan loop, and what the
      handshake interpreted, what waits in msgChan and what is still to be scanned make up the stream. */
  ghost predicate Init(s: State, stream: Text) {
    && s.ic.connected && s.ic.sockOpen && s.ic.wg == 3 && !s.ic.crashed
    && !s.ic.termClosed && !s.ic.doneClosed && !s.ic.shutdownOnce && !s.ic.doneOnce && !s.ic.errOnce && s.ic.err.None?
    && |s.ic.reqChan| <= REQ_CAP && s.ic.errChan == [] && |s.ic.msgChan| <= MSG_CAP && |s.buf| <= MAX_MSG_LEN
    && (s.recv.RScanning? || s.recv.RSending?) && s.dec.DSelecting? && s.req.QSelecting?
    && s.calls == [] && s.once.Idle? && s.enqs == [] && s.loops == []
    && !s.swapped && s.oldReq == [] && s.trace == [] && s.processed == [] && s.firstErr.None?
    && s.accepted == s.ic.reqChan
    && Frames(stream) == s.interpreted + s.ic.msgChan + Flight(s.recv) + Frames(s.buf + s.wire)
  }
}
