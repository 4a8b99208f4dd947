/** How the workers leave: a callback that panics ends its worker with an error and a shutdown, no worker leaves
    without a teardown under way, and the recorded error is the one that happened. */
module Exits {
  import opened Basics
  import opened Framing
  import opened Lifecycle
  import opened Footprints
  import opened Teardown

  // ---------------------------------------------------------------- what never goes back

  /** The signal's Once and the recorded error stay, and nobody but a worker moves that worker. */
  predicate Onward(s: State, a: Action, t: State) {
    && (s.ic.shutdownOnce ==> t.ic.shutdownOnce) && (s.firstErr.Some? ==> t.firstErr == s.firstErr)
    && (!a.Recv? ==> t.recv == s.recv && t.buf == s.buf && t.wire == s.wire) && |t.calls| >= |s.calls|
    && (!a.Dec? ==> t.dec == s.dec && t.interpreted == s.interpreted) && (!a.Req? ==> t.req == s.req)
  }

  lemma OnwardRecv(s: State, a: RecvAct, t: State)
    requires RecvStep(s, a) == Some(t)
    ensures Onward(s, Recv(a), t)
  {
    RecvPrinted(s, a, ScanFields(s.buf, false), t);
    hide RecvScanned, RecvOwn;
  }

  lemma OnwardDec(s: State, a: DecAct, t: State)
    requires DecStep(s, a) == Some(t)
    ensures Onward(s, Dec(a), t)
  {
    DecPrinted(s, a, t);
    hide DecStep, DecOwn;
  }

  lemma OnwardReq(s: State, a: ReqAct, t: State)
    requires ReqStep(s, a) == Some(t)
    ensures Onward(s, Req(a), t)
  {
    ReqPrinted(s, a, t);
    hide ReqStep, ReqOwn;
  }

  lemma CallCauses(s: State, i: nat, c: CallAct, t: State)
    requires i < |s.calls| && CallStep(s, i, c) == Some(t)
    ensures t.firstErr == if c == CallClose(true) && s.firstErr.None? then Some(CloseFailed) else s.firstErr
  {
  }

  lemma CallKeepsShutdown(s: State, i: nat, a: CallAct, t: State)
    requires i < |s.calls| && CallStep(s, i, a) == Some(t)
    ensures s.ic.shutdownOnce ==> t.ic.shutdownOnce
  {
    CallWrites(s, i, a, t);
    hide CallStep;
  }

  lemma CallOnward(s: State, i: nat, a: CallAct, t: State)
    requires i < |s.calls| && CallStep(s, i, a) == Some(t)
    ensures (s.ic.shutdownOnce ==> t.ic.shutdownOnce) && (s.firstErr.Some? ==> t.firstErr == s.firstErr)
  {
    hide CallStep;
    CallKeepsShutdown(s, i, a, t);
    CallCauses(s, i, a, t);
  }

  lemma OnwardStep(s: State, a: Action, t: State)
    requires Step(s, a) == Some(t)
    ensures Onward(s, a, t)
  {
    match a
    case Recv(r) => OnwardRecv(s, r, t);
    case Dec(d) => OnwardDec(s, d, t);
    case Req(q) => OnwardReq(s, q, t);
    case Call(i, c) => CallFramed(s, i, c, t); CallOnward(s, i, c, t);
    case Enq(i, e) => EnqFramed(s, i, e, t);
    case _ =>
  }

  // ---------------------------------------------------------------- a callback that panics in the decoder

  /** A decoder that has recovered from a panic is on its way out, and records it and signals shutdown before it is
      gone. */
  predicate DecoderFailed(s: State) {
    || s.dec.DRecovering?
    || (s.firstErr.Some? && (s.dec.DSignalling? || (s.ic.shutdownOnce && (s.dec.DLeaving? || s.dec.DExited?))))
  }

  lemma DecoderFailedDec(s: State, a: DecAct, t: State)
    requires DecoderFailed(s) && DecStep(s, a) == Some(t)
    ensures DecoderFailed(t) && t.interpreted == s.interpreted
  {
    DecPrinted(s, a, t);
    DecMoved(s, a, t);
    hide DecStep;
  }

  lemma DecoderFailedStep(s: State, a: Action, t: State)
    requires DecoderFailed(s) && Step(s, a) == Some(t)
    ensures DecoderFailed(t) && t.interpreted == s.interpreted
  {
    OnwardStep(s, a, t);
    if a.Dec? {
      DecoderFailedDec(s, a.d, t);
    }
    hide Step;
  }

  lemma {:induction false} DecoderFailedRun(s: State, acts: seq<Action>, t: State)
    requires DecoderFailed(s) && Run(s, acts) == Some(t)
    ensures DecoderFailed(t) && t.interpreted == s.interpreted
    decreases |acts|
  {
    hide DecoderFailed;
    if acts != [] {
      var u := Step(s, acts[0]).value;
      DecoderFailedStep(s, acts[0], u);
      DecoderFailedRun(u, acts[1..], t);
    }
  }

  /** A callback panics while the decoder interprets a message: whatever happens then, the decoder interprets nothing
      more, is never back in its select, and is gone only when an error is recorded and shutdown is signalled. */
  lemma DecoderPanicEnds(s: State, u: State, acts: seq<Action>, t: State)
    requires Step(s, Dec(DecDone(true))) == Some(u) && Run(u, acts) == Some(t)
    ensures t.interpreted == u.interpreted && !t.dec.DSelecting? && !t.dec.DInterpreting?
    ensures t.dec.DExited? ==> t.ic.shutdownOnce && t.firstErr.Some?
  {
    DecMoved(s, DecDone(true), u);
    DecoderFailedRun(u, acts, t);
    hide Run;
  }

  // ---------------------------------------------------------------- a callback that panics in the receiver

  predicate ReceiverFailed(s: State) {
    || s.recv.RRecovering?
    || (s.firstErr.Some? && (s.recv.RSignalling? || (s.ic.shutdownOnce && (s.recv.RLeaving? || s.recv.RExited?))))
  }

  lemma ReceiverFailedRecv(s: State, a: RecvAct, t: State)
    requires ReceiverFailed(s) && RecvStep(s, a) == Some(t)
    ensures ReceiverFailed(t) && t.calls == s.calls && t.buf == s.buf && t.wire == s.wire
  {
    RecvPrinted(s, a, ScanFields(s.buf, false), t);
    RecvMoved(s, a, ScanFields(s.buf, false), t);
    hide RecvScanned;
  }

  lemma ReceiverFailedStep(s: State, a: Action, t: State)
    requires ReceiverFailed(s) && Step(s, a) == Some(t)
    ensures ReceiverFailed(t) && t.buf == s.buf && t.wire == s.wire
  {
    OnwardStep(s, a, t);
    if a.Recv? {
      ReceiverFailedRecv(s, a.r, t);
    }
    hide Step;
  }

  lemma {:induction false} ReceiverFailedRun(s: State, acts: seq<Action>, t: State)
    requires ReceiverFailed(s) && Run(s, acts) == Some(t)
    ensures ReceiverFailed(t) && t.buf == s.buf && t.wire == s.wire
    decreases |acts|
  {
    hide ReceiverFailed;
    if acts != [] {
      var u := Step(s, acts[0]).value;
      ReceiverFailedStep(s, acts[0], u);
      ReceiverFailedRun(u, acts[1..], t);
    }
  }

  /** The Error callback panics while the receiver reports a frame that is too long: it scans no more, starts no
      Disconnect of its own, and is gone only when an error is recorded and shutdown is signalled. */
  lemma ReceiverPanicEnds(s: State, u: State, acts: seq<Action>, t: State)
    requires Step(s, Recv(RecvReport(true))) == Some(u) && Run(u, acts) == Some(t)
    ensures t.buf == u.buf && t.wire == u.wire
    ensures t.recv.RRecovering? || t.recv.RSignalling? || t.recv.RLeaving? || t.recv.RExited?
    ensures Step(t, Recv(RecvDefer)).None?
    ensures t.recv.RExited? ==> t.ic.shutdownOnce && t.firstErr.Some?
  {
    RecvMoved(s, RecvReport(true), ScanFields(s.buf, false), u);
    ReceiverFailedRun(u, acts, t);
    hide Run;
  }

  // ---------------------------------------------------------------- a scan that fails

  /** A failed scan has been recorded, or is about to be. */
  predicate ScanReported(s: State) { s.recv.RReporting? || s.recv.RRecovering? || s.firstErr.Some? }

  lemma ScanReportedStep(s: State, a: Action, t: State)
    requires ScanReported(s) && Step(s, a) == Some(t)
    ensures ScanReported(t)
  {
    OnwardStep(s, a, t);
    if a.Recv? {
      RecvMoved(s, a.r, ScanFields(s.buf, false), t);
      RecvRecords(s, a.r, ScanFields(s.buf, false), t);
      RecvOwns(s, a.r, ScanFields(s.buf, false), t);
    }
    hide Step, RecvStep, RecvScanned;
  }

  lemma {:induction false} ScanReportedRun(s: State, acts: seq<Action>, t: State)
    requires ScanReported(s) && Run(s, acts) == Some(t)
    ensures ScanReported(t)
    decreases |acts|
  {
    hide ScanReported;
    if acts != [] {
      var u := Step(s, acts[0]).value;
      ScanReportedStep(s, acts[0], u);
      ScanReportedRun(u, acts[1..], t);
    }
  }

  /** A scanner error or a frame that is too long, met before shutdown is signalled, is recorded before the receiver is
      gone, whatever its callback does. */
  lemma ScanFailureRecorded(s: State, u: State, acts: seq<Action>, t: State)
    requires s.recv.RStopped? && s.recv.why.Some? && !s.ic.termClosed
    requires Step(s, Recv(RecvAfter)) == Some(u) && Run(u, acts) == Some(t)
    ensures t.recv.RExited? ==> t.firstErr.Some?
  {
    RecvMoved(s, RecvAfter, ScanFields(s.buf, false), u);
    RecvRecords(s, RecvAfter, ScanFields(s.buf, false), u);
    ScanReportedRun(u, acts, t);
    hide Run;
  }

  // ---------------------------------------------------------------- a callback that panics in Disconnect

  /** The rest of a once-body whose callback panicked, or did not. */
  predicate InDefers(pc: CallPc, panicked: bool) {
    match pc
    case CResetting(p) => p == panicked
    case CReleasing(p) => p == panicked
    case CFinishing(p) => p == panicked
    case CPanicked => panicked
    case CReading => !panicked
    case CReturned(_) => !panicked
    case _ => false
  }

  lemma InDefersCall(s: State, i: nat, panicked: bool, j: nat, c: CallAct, t: State)
    requires i < |s.calls| && j < |s.calls| && InDefers(s.calls[i], panicked) && CallStep(s, j, c) == Some(t)
    ensures |t.calls| == |s.calls| && InDefers(t.calls[i], panicked)
  {
  }

  lemma InDefersStep(s: State, i: nat, panicked: bool, a: Action, t: State)
    requires i < |s.calls| && InDefers(s.calls[i], panicked) && Step(s, a) == Some(t)
    ensures i < |t.calls| && InDefers(t.calls[i], panicked)
  {
    match a
    case Recv(r) => RecvCalls(s, r, ScanFields(s.buf, false), t);
    case Dec(d) => DecFramed(s, d, t);
    case Req(q) => ReqFramed(s, q, t);
    case Call(j, c) => InDefersCall(s, i, panicked, j, c, t);
    case Enq(j, e) => EnqFramed(s, j, e, t);
    case _ =>
  }

  lemma {:induction false} InDefersRun(s: State, i: nat, panicked: bool, acts: seq<Action>, t: State)
    requires i < |s.calls| && InDefers(s.calls[i], panicked) && Run(s, acts) == Some(t)
    ensures i < |t.calls| && InDefers(t.calls[i], panicked)
    decreases |acts|
  {
    hide InDefers;
    if acts != [] {
      var u := Step(s, acts[0]).value;
      InDefersStep(s, i, panicked, acts[0], u);
      InDefersRun(u, i, panicked, acts[1..], t);
    }
  }

  lemma Notified(s: State, i: nat, panics: bool, u: State)
    requires i < |s.calls| && CallStep(s, i, CallNotify(panics)) == Some(u)
    ensures i < |u.calls| && u.calls[i] == CResetting(panics)
  {
  }

  /** Reset and the closing of done are deferred, so they run although ConnectionClosed panics; but the call then
      panics on its caller and never returns. If the callback returns, the call does not panic. */
  lemma CallPanicPropagates(s: State, i: nat, panics: bool, u: State, acts: seq<Action>, t: State)
    requires Step(s, Call(i, CallNotify(panics))) == Some(u) && Run(u, acts) == Some(t)
    ensures i < |t.calls| && (panics ==> !t.calls[i].CReturned? && !t.calls[i].CReading?)
    ensures !panics ==> !t.calls[i].CPanicked?
  {
    Notified(s, i, panics, u);
    InDefersRun(u, i, panics, acts, t);
    hide Run, Step;
  }

  // ---------------------------------------------------------------- causes

  /** An action that can bring this error about. */
  predicate Causes(a: Action, e: Err) {
    match e
    case CloseFailed => a.Call? && a.c == CallClose(true)
    case BadLength => a == Recv(RecvTooLong)
    case ScannerError => a == Recv(RecvFail)
    case RecvPanicked => a == Recv(RecvReport(true))
    case DecPanicked => a == Dec(DecDone(true))
    case _ => false
  }

  predicate Caused(acts: seq<Action>, e: Err) { exists a :: a in acts && Causes(a, e) }

  /** Where an error is recorded or about to be, its cause is among the actions. */
  predicate Accounted(s: State, acts: seq<Action>) {
    && (s.firstErr.Some? ==> Caused(acts, s.firstErr.value))
    && (s.recv.RStopped? && s.recv.why.Some? ==> Caused(acts, s.recv.why.value))
    && (s.recv.RReporting? ==> Caused(acts, BadLength)) && (s.recv.RRecovering? ==> Caused(acts, RecvPanicked))
    && (s.dec.DRecovering? ==> Caused(acts, DecPanicked))
    && !s.req.QRejecting? && !s.req.QRecovering? && !s.req.QSignalling?
  }

  lemma CausedMore(acts: seq<Action>, a: Action, e: Err)
    ensures Caused(acts, e) ==> Caused(acts + [a], e)
    ensures Causes(a, e) ==> Caused(acts + [a], e)
  {
    if Caused(acts, e) {
      var b :| b in acts && Causes(b, e);
      assert b in acts + [a];
    }
    assert a in acts + [a];
  }

  lemma StillCaused(acts: seq<Action>, a: Action)
    ensures forall e :: Caused(acts, e) ==> Caused(acts + [a], e)
    ensures forall e :: Causes(a, e) ==> Caused(acts + [a], e)
  {
    hide Caused, Causes;
    forall e ensures (Caused(acts, e) ==> Caused(acts + [a], e)) && (Causes(a, e) ==> Caused(acts + [a], e)) {
      CausedMore(acts, a, e);
    }
  }

  lemma AccountedRecv(s: State, before: seq<Action>, a: RecvAct, t: State)
    requires Accounted(s, before) && RecvStep(s, a) == Some(t)
    ensures Accounted(t, before + [Recv(a)])
  {
    StillCaused(before, Recv(a));
    RecvPrinted(s, a, ScanFields(s.buf, false), t);
    RecvMoved(s, a, ScanFields(s.buf, false), t);
    hide RecvScanned, Caused, SignalPart;
  }

  lemma AccountedDec(s: State, before: seq<Action>, a: DecAct, t: State)
    requires Accounted(s, before) && DecStep(s, a) == Some(t)
    ensures Accounted(t, before + [Dec(a)])
  {
    StillCaused(before, Dec(a));
    DecPrinted(s, a, t);
    DecMoved(s, a, t);
    hide DecStep, Caused, SignalPart;
  }

  lemma AccountedReq(s: State, before: seq<Action>, a: ReqAct, t: State)
    requires RequestsOk(s) && RequestsOk(t) && Accounted(s, before) && ReqStep(s, a) == Some(t)
    ensures Accounted(t, before + [Req(a)])
  {
    StillCaused(before, Req(a));
    ReqPrinted(s, a, t);
    hide ReqStep, Caused, SignalPart;
  }

  lemma AccountedCall(s: State, before: seq<Action>, i: nat, c: CallAct, t: State)
    requires Accounted(s, before) && i < |s.calls| && CallStep(s, i, c) == Some(t)
    ensures Accounted(t, before + [Call(i, c)])
  {
    StillCaused(before, Call(i, c));
    CallFramed(s, i, c, t);
    CallCauses(s, i, c, t);
    hide CallStep, Caused;
  }

  lemma AccountedOther(s: State, before: seq<Action>, a: Action, t: State)
    requires Accounted(s, before) && Step(s, a) == Some(t) && !a.Recv? && !a.Dec? && !a.Req? && !a.Call?
    ensures Accounted(t, before + [a])
  {
    StillCaused(before, a);
    if a.Enq? { EnqFramed(s, a.i, a.e, t); }
    hide EnqStep, Caused;
  }

  lemma InvRequests(s: State, stream: Text)
    requires Inv(s, stream)
    ensures RequestsOk(s)
  {
  }

  lemma AccountedStep(s: State, before: seq<Action>, a: Action, t: State, stream: Text)
    requires Inv(s, stream) && Accounted(s, before) && Step(s, a) == Some(t)
    ensures Accounted(t, before + [a])
  {
    InvStep(s, a, t, stream);
    InvRequests(s, stream);
    InvRequests(t, stream);
    hide Inv, Accounted, RequestsOk, RecvStep, DecStep, ReqStep, CallStep, EnqStep, LoopStep;
    match a
    case Recv(r) => AccountedRecv(s, before, r, t);
    case Dec(d) => AccountedDec(s, before, d, t);
    case Req(q) => AccountedReq(s, before, q, t);
    case Call(i, c) => AccountedCall(s, before, i, c, t);
    case _ => AccountedOther(s, before, a, t);
  }

  lemma {:induction false} AccountedRun(s: State, before: seq<Action>, acts: seq<Action>, t: State, stream: Text)
    requires Inv(s, stream) && Accounted(s, before) && Run(s, acts) == Some(t)
    ensures Accounted(t, before + acts)
    decreases |acts|
  {
    hide Inv, Accounted;
    if acts == [] {
      assert before + acts == before;
    } else {
      var u := Step(s, acts[0]).value;
      InvStep(s, acts[0], u, stream);
      AccountedStep(s, before, acts[0], u, stream);
      AccountedRun(u, before + [acts[0]], acts[1..], t, stream);
      assert before + [acts[0]] + acts[1..] == before + acts;
    }
  }

  /** The recorded error is one that has happened: a close that failed, a frame too long, a scanner error, or a panic
      of a callback in the receiver or in the decoder. */
  lemma ErrorHasCause(s0: State, stream: Text, acts: seq<Action>, t: State)
    requires Init(s0, stream) && Run(s0, acts) == Some(t) && t.firstErr.Some?
    ensures exists a :: a in acts && Causes(a, t.firstErr.value)
  {
    InitInv(s0, stream);
    hide Inv, Run;
    AccountedRun(s0, [], acts, t, stream);
    assert [] + acts == acts && Caused(acts, t.firstErr.value);
  }

  // ---------------------------------------------------------------- who leaves, and when

  /** Workers that leave do so under a signalled shutdown, or, the receiver, with a Disconnect call started. */
  predicate Escorted(s: State) {
    && (s.recv.RLeaving? || s.recv.RExited? ==> s.ic.shutdownOnce || s.calls != [])
    && (s.dec.DLeaving? || s.dec.DExited? ==> s.ic.shutdownOnce)
    && (s.req.QLeaving? || s.req.QExited? ==> s.ic.shutdownOnce)
  }

  lemma EscortedStep(s: State, a: Action, t: State)
    requires TeardownOk(s) && Escorted(s) && Step(s, a) == Some(t)
    ensures Escorted(t)
  {
    OnwardStep(s, a, t);
    assert s.ic.termClosed ==> s.ic.shutdownOnce;
    hide TeardownOk;
    match a
    case Recv(r) => EscortedRecv(s, r, t);
    case Dec(d) => DecMoved(s, d, t); DecSignals(s, d, t); hide DecStep;
    case Req(q) => ReqOwns(s, q, t); ReqSignals(s, q, t); hide ReqStep;
    case _ => hide Step;
  }

  lemma EscortedRecv(s: State, a: RecvAct, t: State)
    requires Escorted(s) && (s.ic.termClosed ==> s.ic.shutdownOnce) && Onward(s, Recv(a), t)
    requires RecvStep(s, a) == Some(t)
    ensures Escorted(t)
  {
    RecvPrinted(s, a, ScanFields(s.buf, false), t);
    RecvMoved(s, a, ScanFields(s.buf, false), t);
    hide RecvScanned;
  }

  lemma {:induction false} EscortedRun(s: State, acts: seq<Action>, t: State, stream: Text)
    requires Inv(s, stream) && Escorted(s) && Run(s, acts) == Some(t)
    ensures Escorted(t)
    decreases |acts|
  {
    hide Escorted, TeardownOk, DeliveryOk, RequestsOk, ErrorOk;
    if acts != [] {
      var u := Step(s, acts[0]).value;
      InvStep(s, acts[0], u, stream);
      EscortedStep(s, acts[0], u);
      EscortedRun(u, acts[1..], t, stream);
    }
  }

  /** No worker leaves the others behind: a decoder or requester that is gone has seen shutdown signalled, a receiver
      that is gone has, or has started a Disconnect. */
  lemma NobodyLeavesAlone(s0: State, stream: Text, acts: seq<Action>, t: State)
    requires Init(s0, stream) && Run(s0, acts) == Some(t)
    ensures t.dec.DExited? || t.req.QExited? ==> t.ic.shutdownOnce
    ensures t.recv.RExited? ==> t.ic.shutdownOnce || t.calls != []
  {
    InitInv(s0, stream);
    EscortedRun(s0, acts, t, stream);
    hide Inv, Run;
  }

  // ---------------------------------------------------------------- why the scan ended

  /** What is known about the bytes while the receiver stands behind its scan loop. */
  predicate ScanEnded(s: State) {
    s.recv.RStopped? ==>
      && (s.recv.why.None? ==> s.wire == [] && ScanFields(s.buf, false).NeedMore?)
      && (s.recv.why == Some(BadLength) ==> |s.buf| >= MAX_MSG_LEN && ScanFields(s.buf, false).NeedMore?)
  }

  lemma ScanEndedStep(s: State, a: Action, t: State)
    requires ScanEnded(s) && Step(s, a) == Some(t)
    ensures ScanEnded(t)
  {
    OnwardStep(s, a, t);
    if a.Recv? {
      RecvMoved(s, a.r, ScanFields(s.buf, false), t);
      RecvOwns(s, a.r, ScanFields(s.buf, false), t);
    }
    hide Step, RecvStep, RecvScanned, ScanFields;
  }

  lemma {:induction false} ScanEndedRun(s: State, acts: seq<Action>, t: State)
    requires ScanEnded(s) && Run(s, acts) == Some(t)
    ensures ScanEnded(t)
    decreases |acts|
  {
    hide ScanEnded;
    if acts != [] {
      var u := Step(s, acts[0]).value;
      ScanEndedStep(s, acts[0], u);
      ScanEndedRun(u, acts[1..], t);
    }
  }

  lemma NothingMore(buf: Text, wire: Text)
    requires ScanFields(buf, false).NeedMore?
    ensures wire == [] ==> Frames(buf + wire) == []
    ensures |buf| >= MAX_MSG_LEN ==> |buf| >= 4 && U32(buf[..4]) + 4 > |buf|
  {
    if wire == [] {
      assert buf + wire == buf;
    }
    hide U32;
  }

  lemma DeliveredSoFar(t: State, stream: Text)
    requires TeardownOk(t) && DeliveryOk(t, stream) && t.recv.RStopped?
    ensures Frames(stream) == t.interpreted + t.ic.msgChan + Frames(t.buf + t.wire)
  {
    LiveBeforeReset(t);
    hide Frames, TeardownOk;
    assert t.interpreted + t.ic.msgChan + [] == t.interpreted + t.ic.msgChan;
  }

  /** When the scan ends without an error every complete frame of the stream has been delivered: it is interpreted or
      waits in msgChan. When it ends because a frame is too long, what has been delivered are the frames before that
      one, and its length does not fit the buffer. */
  lemma ScanEndsHonestly(s0: State, stream: Text, acts: seq<Action>, t: State)
    requires Init(s0, stream) && Run(s0, acts) == Some(t) && t.recv.RStopped?
    ensures t.recv.why.None? ==> Frames(stream) == t.interpreted + t.ic.msgChan
    ensures t.recv.why == Some(BadLength) ==>
      && Frames(stream) == t.interpreted + t.ic.msgChan + Frames(t.buf + t.wire)
      && |t.buf| >= 4 && U32(t.buf[..4]) + 4 > MAX_MSG_LEN
  {
    hide TeardownOk, DeliveryOk, RequestsOk, ErrorOk, Run, Frames, ScanFields, U32;
    InitInv(s0, stream);
    InvRun(s0, acts, t, stream);
    DeliveredSoFar(t, stream);
    ScanEndedRun(s0, acts, t);
    hide Init, Inv;
    if ScanFields(t.buf, false).NeedMore? {
      NothingMore(t.buf, t.wire);
    }
  }
}
