/** Progress once the signal and the socket are closed: the workers' steps are bounded, and whether they can all
    get out is decided by how much room the two channels without a shutdown branch have. */
module Shutdown {
  import opened Basics
  import opened Framing
  import opened Lifecycle
  import opened Footprints
  import opened Teardown

  predicate IsWorker(a: Action) { a.Recv? || a.Dec? || a.Req? }

  predicate AllWorkers(acts: seq<Action>) { forall i :: 0 <= i < |acts| ==> IsWorker(acts[i]) }

  /** The signal and the socket are closed. */
  predicate Closed(s: State) { s.ic.termClosed && !s.ic.sockOpen }

  /** Closed after Run, and the client has not been reset. */
  predicate ShutDown(s: State) { Closed(s) && s.ic.connected }

  // ---------------------------------------------------------------- a bound on the workers' remaining steps

  function ReqRank(pc: ReqPc): nat {
    match pc
    case QSelecting => 4
    case QChecking(_) => 11
    case QRejecting(_) => 10
    case QWriting(_) => 10
    case QReporting => 9
    case QRecovering => 3
    case QSignalling => 2
    case QLeaving => 1
    case QExited => 0
  }

  function Measure(s: State): nat {
    10 * |s.buf| + 4 * |s.ic.msgChan| + 8 * |s.ic.reqChan| + 4 * |s.ic.errChan|
    + RecvPlace(s.recv) + DecPlace(s.dec) + ReqRank(s.req)
  }

  lemma RecvDescends(s: State, a: RecvAct, t: State)
    requires (Closed(s) || !a.RecvRead?) && RecvStep(s, a) == Some(t)
    ensures Measure(t) < Measure(s) && (Closed(s) ==> Closed(t)) && t.ic.connected == s.ic.connected
  {
    RecvPrinted(s, a, ScanFields(s.buf, false), t);
    hide RecvScanned, Records, DecPlace, ReqRank;
  }

  lemma DecDescends(s: State, a: DecAct, t: State)
    requires ShutDown(s) && DecStep(s, a) == Some(t)
    ensures Measure(t) < Measure(s) && ShutDown(t)
  {
    DecPrinted(s, a, t);
    hide DecStep, Records, RecvPlace, ReqRank;
  }

  lemma ReqDescends(s: State, a: ReqAct, t: State)
    requires ShutDown(s) && ReqStep(s, a) == Some(t)
    ensures Measure(t) < Measure(s) && ShutDown(t)
  {
    ReqPrinted(s, a, t);
    hide ReqStep, Records, RecvPlace, DecPlace;
  }

  /** After shutdown every worker step, whatever branch its select takes, brings the workers closer to their end. */
  lemma WorkerDescends(s: State, a: Action, t: State)
    requires ShutDown(s) && IsWorker(a) && Step(s, a) == Some(t)
    ensures Measure(t) < Measure(s) && ShutDown(t)
  {
    match a
    case Recv(r) => RecvDescends(s, r, t);
    case Dec(d) => DecDescends(s, d, t);
    case Req(q) => ReqDescends(s, q, t);
    case _ =>
  }

  // ---------------------------------------------------------------- who can move

  predicate RecvBlocked(s: State) { s.recv.RSending? && |s.ic.msgChan| >= MSG_CAP }

  predicate ReqBlocked(s: State) { s.req.QReporting? && |s.ic.errChan| >= ERR_CAP }

  function RecvNext(s: State): RecvAct {
    match s.recv
    case RScanning =>
      if ScanFields(s.buf, false).Token? then RecvToken
      else if |s.buf| >= MAX_MSG_LEN then RecvTooLong else RecvFail
    case RSending(_) => RecvSend
    case RStopped(_) => RecvAfter
    case RReporting => RecvReport(false)
    case RRecovering => RecvRecover
    case RSignalling => RecvSignal
    case RDeferred => RecvDefer
    case _ => RecvLeave
  }

  function DecNext(s: State): DecAct {
    match s.dec
    case DSelecting => DecTerm
    case DInterpreting(_) => DecDone(false)
    case DRecovering => DecRecover
    case DSignalling => DecSignal
    case _ => DecLeave
  }

  function ReqNext(s: State): ReqAct {
    match s.req
    case QSelecting => ReqTerm
    case QChecking(_) => ReqCheck
    case QRejecting(_) => ReqReject(false)
    case QWriting(_) => ReqWrite(true)
    case QReporting => ReqReport
    case QRecovering => ReqRecover
    case QSignalling => ReqSignal
    case _ => ReqLeave
  }

  lemma ReceiverMoves(s: State)
    ensures Step(s, Recv(RecvNext(s))).Some? <==> !s.recv.RExited? && !RecvBlocked(s)
  {
  }

  lemma NextSteps(s: State)
    requires ShutDown(s)
    ensures Step(s, Recv(RecvNext(s))).Some? <==> !s.recv.RExited? && !RecvBlocked(s)
    ensures Step(s, Dec(DecNext(s))).Some? <==> !s.dec.DExited?
    ensures Step(s, Req(ReqNext(s))).Some? <==> !s.req.QExited? && !ReqBlocked(s)
  {
  }

  lemma IdleReceiver(s: State, r: RecvAct)
    requires s.recv.RExited? || RecvBlocked(s)
    ensures Step(s, Recv(r)).None?
  {
  }

  lemma IdleRequester(s: State, q: ReqAct)
    requires s.req.QExited? || ReqBlocked(s)
    ensures Step(s, Req(q)).None?
  {
  }

  /** After shutdown a live worker always has an enabled step, except exactly a receiver at a full msgChan and a
      requester at a full errChan. */
  lemma LiveWorkerMoves(s: State)
    requires ShutDown(s)
    ensures (exists r :: Step(s, Recv(r)).Some?) <==> !s.recv.RExited? && !RecvBlocked(s)
    ensures (exists d :: Step(s, Dec(d)).Some?) <==> !s.dec.DExited?
    ensures (exists q :: Step(s, Req(q)).Some?) <==> !s.req.QExited? && !ReqBlocked(s)
  {
    NextSteps(s);
    hide *;
    if s.recv.RExited? || RecvBlocked(s) {
      forall r ensures Step(s, Recv(r)).None? { IdleReceiver(s, r); }
    }
    if s.dec.DExited? {
      forall d ensures Step(s, Dec(d)).None? { IdleDecoder(s, d); }
    }
    if s.req.QExited? || ReqBlocked(s) {
      forall q ensures Step(s, Req(q)).None? { IdleRequester(s, q); }
    }
  }

  lemma IdleDecoder(s: State, d: DecAct)
    requires s.dec.DExited?
    ensures Step(s, Dec(d)).None?
  {
  }

  // ---------------------------------------------------------------- room

  /** Frames the receiver will still push into msgChan: no read succeeds on a closed socket, so only buffered ones. */
  function PendingFrames(s: State): nat {
    if s.recv.RScanning? || s.recv.RSending? then |Flight(s.recv)| + |Frames(s.buf)| else 0
  }

  /** Requests the requester may still try to write, each of which can fail and be reported to errChan. */
  function PendingWrites(s: State): nat {
    match s.req
    case QSelecting => |s.ic.reqChan|
    case QChecking(_) => |s.ic.reqChan| + 1
    case QWriting(_) => |s.ic.reqChan| + 1
    case QReporting => |s.ic.reqChan| + 1
    case _ => 0
  }

  predicate Room(s: State) {
    PendingFrames(s) + |s.ic.msgChan| <= MSG_CAP && PendingWrites(s) + |s.ic.errChan| <= ERR_CAP
  }

  /** Nobody is left to drain the channel a worker is blocked on. */
  predicate Stuck(s: State) { s.dec.DExited? && (RecvBlocked(s) || ReqBlocked(s)) }

  /** On a closed socket the frames to come are bounded by those at hand. */
  lemma RecvKeepsRoom(s: State, a: RecvAct, t: State)
    requires !s.ic.sockOpen && RecvStep(s, a) == Some(t)
    ensures PendingFrames(t) + |t.ic.msgChan| <= PendingFrames(s) + |s.ic.msgChan|
    ensures t.ic.sockOpen == s.ic.sockOpen && t.req == s.req && t.ic.errChan == s.ic.errChan
    ensures t.ic.reqChan == s.ic.reqChan
  {
    RecvPrinted(s, a, ScanFields(s.buf, false), t);
    hide RecvScanned, Records, SignalPart;
  }

  lemma DecKeepsRoom(s: State, a: DecAct, t: State)
    requires DecStep(s, a) == Some(t)
    ensures PendingFrames(t) == PendingFrames(s) && |t.ic.msgChan| <= |s.ic.msgChan|
    ensures t.ic.sockOpen == s.ic.sockOpen && t.req == s.req && |t.ic.errChan| <= |s.ic.errChan|
    ensures t.ic.reqChan == s.ic.reqChan
  {
    DecPrinted(s, a, t);
    hide DecStep, Frames, Records, SignalPart;
  }

  lemma ReqKeepsRoom(s: State, a: ReqAct, t: State)
    requires ShutDown(s) && !s.req.QRejecting? && ReqStep(s, a) == Some(t)
    ensures PendingFrames(t) == PendingFrames(s) && t.ic.msgChan == s.ic.msgChan
    ensures PendingWrites(t) + |t.ic.errChan| <= PendingWrites(s) + |s.ic.errChan| && !t.req.QRejecting?
  {
    ReqPrinted(s, a, t);
    hide ReqStep, Frames, Records, SignalPart;
  }

  lemma WorkerKeepsRoom(s: State, a: Action, t: State)
    requires ShutDown(s) && Room(s) && !s.req.QRejecting? && IsWorker(a) && Step(s, a) == Some(t)
    ensures Room(t) && !t.req.QRejecting?
  {
    match a
    case Recv(r) => RecvKeepsRoom(s, r, t);
    case Dec(d) => DecKeepsRoom(s, d, t);
    case Req(q) => ReqKeepsRoom(s, q, t);
    case _ =>
  }

  /** With room, the workers take at most Measure(s) more steps however they are scheduled, never block for good,
      and when none of them can step any more the WaitGroup is at zero and Disconnect goes on. */
  lemma {:induction false} RoomEmptiesWaitGroup(s: State, stream: Text, acts: seq<Action>, t: State)
    requires Inv(s, stream) && ShutDown(s) && Room(s)
    requires AllWorkers(acts) && Run(s, acts) == Some(t)
    ensures |acts| + Measure(t) <= Measure(s) && !Stuck(t)
    ensures (forall a :: IsWorker(a) ==> Step(t, a).None?) ==> t.ic.wg == 0
    decreases |acts|
  {
    if acts == [] {
      NextSteps(s);
      assert !RecvBlocked(s) && !ReqBlocked(s);
      if forall a :: IsWorker(a) ==> Step(t, a).None? {
        assert Step(t, Recv(RecvNext(t))).None? && Step(t, Dec(DecNext(t))).None? && Step(t, Req(ReqNext(t))).None?;
      }
    } else {
      var u := Step(s, acts[0]).value;
      WorkerDescends(s, acts[0], u);
      WorkerKeepsRoom(s, acts[0], u);
      InvStep(s, acts[0], u, stream);
      RoomEmptiesWaitGroup(u, stream, acts[1..], t);
    }
  }

  // ---------------------------------------------------------------- without room

  /** Some schedule of the workers alone ends in a stuck state. */
  ghost predicate CanStick(s: State) {
    exists acts :: AllWorkers(acts) && Run(s, acts).Some? && Stuck(Run(s, acts).value)
  }

  predicate SameButDecoder(s: State, t: State) {
    && t.recv == s.recv && t.req == s.req && t.buf == s.buf && t.ic.msgChan == s.ic.msgChan
    && t.ic.errChan == s.ic.errChan && t.ic.reqChan == s.ic.reqChan && t.swapped == s.swapped
  }

  lemma DecoderMayLeave(s: State, t: State)
    requires ShutDown(s) && !s.dec.DExited? && Step(s, Dec(DecNext(s))) == Some(t)
    ensures SameButDecoder(s, t)
  {
    DecPrinted(s, DecNext(s), t);
    hide DecStep, Records, SignalPart;
  }

  /** The decoder can leave without taking anything more from the channels. */
  lemma {:induction false} DecoderLeaves(s: State) returns (acts: seq<Action>, t: State)
    requires ShutDown(s)
    ensures AllWorkers(acts) && Run(s, acts) == Some(t) && ShutDown(t) && t.dec.DExited? && SameButDecoder(s, t)
    decreases Measure(s)
  {
    if s.dec.DExited? {
      acts, t := [], s;
    } else {
      var a := Dec(DecNext(s));
      NextSteps(s);
      var u := Step(s, a).value;
      WorkerDescends(s, a, u);
      DecoderMayLeave(s, u);
      var more;
      more, t := DecoderLeaves(u);
      acts := [a] + more;
      assert acts[1..] == more;
    }
  }

  /** One step of a receiver that still has frames to push. */
  lemma ReceiverPushes(s: State, t: State)
    requires PendingFrames(s) > 0 && Step(s, Recv(RecvNext(s))) == Some(t)
    ensures PendingFrames(t) + |t.ic.msgChan| == PendingFrames(s) + |s.ic.msgChan| && t.dec == s.dec
  {
    RecvPrinted(s, RecvNext(s), ScanFields(s.buf, false), t);
    hide RecvScanned, Records, SignalPart;
  }

  lemma {:induction false} ReceiverSticks(s: State) returns (acts: seq<Action>)
    requires Closed(s) && s.dec.DExited? && |s.ic.msgChan| <= MSG_CAP
    requires PendingFrames(s) + |s.ic.msgChan| > MSG_CAP
    ensures AllWorkers(acts) && Run(s, acts).Some? && Stuck(Run(s, acts).value)
    decreases Measure(s)
  {
    if RecvBlocked(s) {
      return [];
    }
    var a := Recv(RecvNext(s));
    ReceiverMoves(s);
    var u := Step(s, a).value;
    RecvDescends(s, RecvNext(s), u);
    ReceiverPushes(s, u);
    RecvKeepsRoom(s, RecvNext(s), u);
    var more := ReceiverSticks(u);
    acts := [a] + more;
    assert acts[1..] == more;
  }

  /** The requester's choice that keeps every pending write a failing one. */
  function FailingReq(s: State): ReqAct {
    match s.req
    case QSelecting => ReqTake
    case QChecking(_) => ReqCheck
    case QWriting(_) => ReqWrite(false)
    case _ => ReqReport
  }

  lemma RequesterFails(s: State) returns (t: State)
    requires ShutDown(s) && !ReqBlocked(s) && PendingWrites(s) > 0
    ensures Step(s, Req(FailingReq(s))) == Some(t)
    ensures PendingWrites(t) + |t.ic.errChan| == PendingWrites(s) + |s.ic.errChan| && t.dec == s.dec
    ensures |t.ic.errChan| <= Max(|s.ic.errChan|, ERR_CAP)
  {
    t := Step(s, Req(FailingReq(s))).value;
  }

  lemma {:induction false} RequesterSticks(s: State) returns (acts: seq<Action>)
    requires ShutDown(s) && s.dec.DExited? && |s.ic.errChan| <= ERR_CAP
    requires PendingWrites(s) + |s.ic.errChan| > ERR_CAP
    ensures AllWorkers(acts) && Run(s, acts).Some? && Stuck(Run(s, acts).value)
    decreases Measure(s)
  {
    if ReqBlocked(s) {
      return [];
    }
    var u := RequesterFails(s);
    var a := Req(FailingReq(s));
    WorkerDescends(s, a, u);
    var more := RequesterSticks(u);
    acts := [a] + more;
    assert acts[1..] == more;
  }

  lemma NoRoomCanStick(s: State, stream: Text)
    requires Inv(s, stream) && ShutDown(s) && !Room(s)
    ensures CanStick(s)
  {
    var acts, t := DecoderLeaves(s);
    var more: seq<Action>;
    if PendingFrames(s) + |s.ic.msgChan| > MSG_CAP {
      more := ReceiverSticks(t);
    } else {
      more := RequesterSticks(t);
    }
    var u := Run(t, more).value;
    RunOn(s, acts, t, more, u);
    assert AllWorkers(acts + more) && Run(s, acts + more) == Some(u);
  }

  /** The exact condition if no request is enqueued any more: after shutdown the workers of a reachable state, left to
      themselves, can get stuck if and only if the frames still buffered and in msgChan exceed its capacity, or the
      pending writes and errChan exceed the latter's. */
  lemma SticksExactlyWithoutRoom(s0: State, stream: Text, before: seq<Action>, s: State)
    requires Init(s0, stream) && Run(s0, before) == Some(s) && ShutDown(s)
    ensures CanStick(s) <==> !Room(s)
  {
    InitInv(s0, stream);
    InvRun(s0, before, s, stream);
    if Room(s) {
      forall acts | AllWorkers(acts) && Run(s, acts).Some? ensures !Stuck(Run(s, acts).value) {
        RoomEmptiesWaitGroup(s, stream, acts, Run(s, acts).value);
      }
    } else {
      NoRoomCanStick(s, stream);
    }
  }

  // ---------------------------------------------------------------- whatever anybody does

  /** Some run of the whole system ends in a stuck state. */
  ghost predicate CanEverStick(s: State) {
    exists acts :: Run(s, acts).Some? && Stuck(Run(s, acts).value)
  }

  /** The requester can still take a request, or report that it could not be written. */
  predicate InLoop(pc: ReqPc) { pc.QSelecting? || pc.QChecking? || pc.QRejecting? || pc.QWriting? || pc.QReporting? }

  /** Nothing will ever block: the frames at hand fit msgChan, and the requester is past its loop. */
  predicate Safe(s: State) {
    !s.ic.sockOpen && PendingFrames(s) + |s.ic.msgChan| <= MSG_CAP && !InLoop(s.req)
  }

  lemma SafeReq(s: State, a: ReqAct, t: State)
    requires Safe(s) && ReqStep(s, a) == Some(t)
    ensures Safe(t)
  {
    ReqPrinted(s, a, t);
    hide ReqStep, Frames, Records, SignalPart;
  }

  lemma SafeCall(s: State, i: nat, a: CallAct, t: State)
    requires i < |s.calls| && Safe(s) && CallStep(s, i, a) == Some(t)
    ensures Safe(t)
  {
    CallFramed(s, i, a, t);
    DeliveryCall(s, i, a, t);
    hide CallStep, Frames;
  }

  lemma SafeStep(s: State, a: Action, t: State)
    requires Safe(s) && Step(s, a) == Some(t)
    ensures Safe(t)
  {
    match a
    case Recv(r) => RecvKeepsRoom(s, r, t);
    case Dec(d) => DecKeepsRoom(s, d, t);
    case Req(q) => SafeReq(s, q, t);
    case Call(i, c) => SafeCall(s, i, c, t);
    case Enq(i, e) => EnqFramed(s, i, e, t);
    case _ =>
  }

  lemma {:induction false} SafeNeverSticks(s: State, acts: seq<Action>, t: State)
    requires Safe(s) && Run(s, acts) == Some(t)
    ensures !Stuck(t)
    decreases |acts|
  {
    if acts != [] {
      var u := Step(s, acts[0]).value;
      SafeStep(s, acts[0], u);
      SafeNeverSticks(u, acts[1..], t);
    }
  }

  /** A request gets into the empty channel although the signal is closed: select may choose either branch. */
  lemma AcceptsAnother(s: State, m: Text) returns (acts: seq<Action>, t: State)
    requires ShutDown(s) && !s.swapped && s.ic.reqChan == []
    ensures Run(s, acts) == Some(t) && ShutDown(t) && t.ic.reqChan == [m]
    ensures t.ic.errChan == s.ic.errChan && t.req == s.req && t.dec == s.dec && t.swapped == s.swapped
  {
    var i := |s.enqs|;
    acts := [NewEnq(m), Enq(i, EnqCheck), Enq(i, EnqCapture), Enq(i, EnqSend)];
    var s1 := Step(s, NewEnq(m)).value;
    var s2 := Step(s1, Enq(i, EnqCheck)).value;
    assert s2.enqs[i] == ECapturing(m) && s2 == s.(enqs := s2.enqs);
    var s3 := Step(s2, Enq(i, EnqCapture)).value;
    assert s3.enqs[i] == ESelecting(m, false) && s3 == s.(enqs := s3.enqs);
    hide Run;
    t := Run4(s, NewEnq(m), Enq(i, EnqCheck), Enq(i, EnqCapture), Enq(i, EnqSend));
  }

  function LoopRank(s: State): nat {
    match s.req
    case QSelecting => if s.ic.reqChan == [] then 4 else 3
    case QChecking(_) => 2
    case QWriting(_) => 1
    case _ => 0
  }

  /** With requests to come, each of whose writes fails, a requester in its loop fills errChan and gets stuck on it. */
  lemma {:induction false} RequesterFillsErrors(s: State) returns (acts: seq<Action>)
    requires ShutDown(s) && !s.swapped && s.dec.DExited? && InLoop(s.req) && !s.req.QRejecting?
    requires |s.ic.errChan| <= ERR_CAP
    ensures Run(s, acts).Some? && Stuck(Run(s, acts).value)
    decreases ERR_CAP - |s.ic.errChan|, LoopRank(s)
  {
    if ReqBlocked(s) {
      return [];
    }
    var first, u;
    if s.req.QSelecting? && s.ic.reqChan == [] {
      first, u := AcceptsAnother(s, []);
    } else {
      first, u := [Req(FailingReq(s))], Step(s, Req(FailingReq(s))).value;
      assert Run(u, []) == Some(u);
    }
    var more := RequesterFillsErrors(u);
    RunOn(s, first, u, more, Run(u, more).value);
    acts := first + more;
  }

  /** The exact condition, whatever anybody does: after shutdown a reachable state can still lead to a stuck one if and
      only if the frames at hand do not fit msgChan, or the requester has not left its loop. */
  lemma SticksExactly(s0: State, stream: Text, before: seq<Action>, s: State)
    requires Init(s0, stream) && Run(s0, before) == Some(s) && ShutDown(s)
    ensures CanEverStick(s) <==> PendingFrames(s) + |s.ic.msgChan| > MSG_CAP || InLoop(s.req)
  {
    InitInv(s0, stream);
    InvRun(s0, before, s, stream);
    if Safe(s) {
      forall acts | Run(s, acts).Some? ensures !Stuck(Run(s, acts).value) {
        SafeNeverSticks(s, acts, Run(s, acts).value);
      }
    } else {
      var acts, t := DecoderLeaves(s);
      var more: seq<Action>;
      if PendingFrames(s) + |s.ic.msgChan| > MSG_CAP {
        more := ReceiverSticks(t);
      } else {
        more := RequesterFillsErrors(t);
      }
      RunOn(s, acts, t, more, Run(t, more).value);
    }
  }

  // ---------------------------------------------------------------- stuck is for ever

  lemma StuckStays(s: State, stream: Text, a: Action, t: State)
    requires Inv(s, stream) && ShutDown(s) && Stuck(s) && Step(s, a) == Some(t)
    ensures ShutDown(t) && Stuck(t)
  {
    match a
    case Recv(r) => StuckRecv(s, r, t);
    case Dec(_) =>
    case Req(q) => StuckReq(s, q, t);
    case Call(i, c) => StuckCall(s, i, c);
    case Enq(i, e) => EnqFramed(s, i, e, t);
    case _ =>
  }

  lemma StuckRecv(s: State, a: RecvAct, t: State)
    requires ShutDown(s) && Stuck(s) && RecvStep(s, a) == Some(t)
    ensures ShutDown(t) && Stuck(t)
  {
    RecvPrinted(s, a, ScanFields(s.buf, false), t);
    hide RecvScanned, Records;
  }

  lemma StuckReq(s: State, a: ReqAct, t: State)
    requires ShutDown(s) && Stuck(s) && ReqStep(s, a) == Some(t)
    ensures ShutDown(t) && Stuck(t)
  {
    ReqPrinted(s, a, t);
    hide ReqStep, Records;
  }

  /** In a stuck state no Disconnect call can take a step: one waits for the WaitGroup, the others for that one. */
  lemma StuckCall(s: State, i: nat, a: CallAct)
    requires i < |s.calls| && TeardownOk(s) && ShutDown(s) && Stuck(s)
    ensures CallStep(s, i, a).None?
  {
  }

  /** From a stuck state, whatever anybody does, the WaitGroup never reaches zero: the teardown stops after closing
      the socket, `done` stays open, and no Disconnect call ever returns. */
  lemma {:induction false} StuckForever(s: State, stream: Text, acts: seq<Action>, t: State)
    requires Inv(s, stream) && ShutDown(s) && Stuck(s) && Run(s, acts) == Some(t)
    ensures t.ic.wg > 0 && !t.ic.doneClosed && t.trace == [SignalClosed, SocketClosed]
    ensures forall j :: 0 <= j < |t.calls| ==> !Left(t.calls[j])
    decreases |acts|
  {
    if acts == [] {
      assert Phase(s) == 2;
    } else {
      var u := Step(s, acts[0]).value;
      InvStep(s, acts[0], u, stream);
      StuckStays(s, stream, acts[0], u);
      StuckForever(u, stream, acts[1..], t);
    }
  }

  /** It does happen: a hundred messages wait, the receiver holds one more, and Disconnect is called. */
  lemma DisconnectCanHang(m: Text) returns (s0: State, stream: Text, acts: seq<Action>, s: State)
    requires |m| < 0x1_0000_0000
    ensures Init(s0, stream) && Run(s0, acts) == Some(s) && ShutDown(s) && Stuck(s)
  {
    var waiting := seq(MSG_CAP, i => m);
    s0 := Fresh(waiting, RSending(m));
    stream := Wire(waiting + [m]);
    WireFrames(waiting + [m]);
    assert Frames([]) == [] && s0.buf + s0.wire == [];
    assert Frames(stream) == s0.interpreted + s0.ic.msgChan + Flight(s0.recv) + Frames(s0.buf + s0.wire);
    var a := [NewCall, Call(0, CallEnter), Call(0, CallSignal), Call(0, CallClose(false))];
    var t := Run4(s0, NewCall, Call(0, CallEnter), Call(0, CallSignal), Call(0, CallClose(false)));
    assert t.recv == s0.recv && t.dec == s0.dec && t.ic.msgChan == waiting && ShutDown(t);
    var b, u := DecoderLeaves(t);
    RunOn(s0, a, t, b, u);
    acts, s := a + b, u;
  }
}
