/** Whether a failed handshake returns: its deferred Disconnect waits for the receiver, and nobody drains msgChan. */
module HandshakeWait {
  import opened Basics
  import opened Framing
  import Fields
  import opened Lifecycle
  import opened Footprints
  import opened Teardown
  import opened Shutdown
  import opened Confirmation
  import opened Handshake

  /** The frames that the receiver has at hand fit msgChan together with those already there. */
  predicate HasSpace(s: State) { PendingFrames(s) + |s.ic.msgChan| <= MSG_CAP }

  ghost predicate CanReturn(h: Shake) {
    exists acts :: HRun(h, acts).Some? && HRun(h, acts).value.pc.PReturned?
  }

  // ---------------------------------------------------------------- without room

  /** With more frames at hand than fit, the receiver stays in its loop and pushes. */
  lemma ReceiverKeepsFrames(s: State, a: RecvAct, t: State)
    requires !HasSpace(s) && |s.ic.msgChan| <= MSG_CAP && RecvStep(s, a) == Some(t)
    ensures !HasSpace(t)
  {
    RecvPrinted(s, a, ScanFields(s.buf, false), t);
    hide RecvScanned, SignalPart, Records;
  }

  lemma OverfullOther(s: State, b: Action, t: State, stream: Text)
    requires MachineOk(s) && DeliveryOk(s, stream) && !HasSpace(s) && (b.Recv? || b.Call? || b.NewCall?)
        && Step(s, b) == Some(t)
    ensures !HasSpace(t)
  {
    match b
    case Recv(r) => ReceiverKeepsFrames(s, r, t);
    case Call(i, c) =>
      CallFramed(s, i, c, t);
      DeliveryCall(s, i, c, t);
      TeardownCall(s, i, c, t);
      assert Live(t) > 0;
      LiveBeforeReset(t);
    case _ =>
  }

  /** The receiver is alive, so nobody has got out of Disconnect. */
  lemma OverfullWaits(h: Shake, all: Text)
    requires Sound(h, all) && h.pc.PDisconnecting? && !HasSpace(h.s)
    ensures HStep(h, Leave).None?
  {
    assert Live(h.s) > 0 && Phase(h.s) < 3;
    assert !Left(h.s.calls[h.pc.call]);
  }

  lemma OverfullStep(h: Shake, a: Act, t: Shake, all: Text)
    requires Sound(h, all) && h.pc.PDisconnecting? && !HasSpace(h.s) && HStep(h, a) == Some(t)
    ensures t.pc.PDisconnecting? && !HasSpace(t.s)
  {
    match a
    case Other(b) => OverfullOther(h.s, b, t.s, Rest(all));
    case _ => OverfullWaits(h, all);
  }

  lemma {:induction false} OverfullRun(h: Shake, acts: seq<Act>, t: Shake, all: Text)
    requires Sound(h, all) && h.pc.PDisconnecting? && !HasSpace(h.s) && HRun(h, acts) == Some(t)
    ensures t.pc.PDisconnecting?
    decreases |acts|
  {
    hide Sound, HasSpace;
    if acts != [] {
      var u := HStep(h, acts[0]).value;
      SoundStep(h, acts[0], u, all);
      OverfullStep(h, acts[0], u, all);
      OverfullRun(u, acts[1..], t, all);
    }
  }

  // ---------------------------------------------------------------- with room

  /** The step of a call inside the once-body, if it does not have to wait. */
  function NextInBody(pc: CallPc): CallAct {
    match pc
    case CSignalling => CallSignal
    case CClosing => CallClose(false)
    case CWaiting => CallWait
    case CNotifying => CallNotify(false)
    case CResetting(_) => CallReset
    case CReleasing(_) => CallRelease
    case _ => CallFinish
  }

  /** How many steps of calls are left on that way. */
  function Steps(s: State, i: nat): nat
    requires i < |s.calls|
  {
    match s.once
    case Idle => 11
    case Running(j) =>
      if j >= |s.calls| then 0
      else (match s.calls[j]
            case CSignalling => 10
            case CClosing => 9
            case CWaiting => 8
            case CNotifying => 7
            case CResetting(_) => 6
            case CReleasing(_) => 5
            case _ => 4)
    case Finished => if s.calls[i].CEntering? then 3 else if s.calls[i].CReading? then 2 else 1
  }

  /** The holder of the Once takes its next step. */
  lemma HolderMoves(s: State, i: nat, c: CallAct) returns (t: State)
    requires MachineOk(s) && i < |s.calls| && s.once.Running? && HasSpace(s)
    requires (s.calls[s.once.who].CWaiting? ==> s.recv.RExited?) && c == NextInBody(s.calls[s.once.who])
    ensures CallStep(s, s.once.who, c) == Some(t) && HasSpace(t) && i < |t.calls| && Steps(t, i) < Steps(s, i)
  {
    var j := s.once.who;
    t := CallStep(s, j, c).value;
    CallFramed(s, j, c, t);
    DeliveryCall(s, j, c, t);
  }

  /** Once nobody holds the Once, the handshake's own call goes through. */
  lemma OwnCallMoves(s: State, i: nat, c: CallAct) returns (t: State)
    requires MachineOk(s) && i < |s.calls| && !s.once.Running? && HasSpace(s)
    requires if s.once.Idle? || s.calls[i].CEntering? then c == CallEnter else c == CallRead && s.calls[i].CReading?
    ensures CallStep(s, i, c) == Some(t) && HasSpace(t) && i < |t.calls| && Steps(t, i) < Steps(s, i)
  {
    if s.once.Idle? {
      assert !InBody(s.calls[i]) && !Left(s.calls[i]);
    }
    t := CallStep(s, i, c).value;
  }

  /** With the socket closed, the receiver that is waited for has a step, which brings it closer to its end. */
  lemma ReceiverEnds(s: State, i: nat) returns (t: State)
    requires MachineOk(s) && i < |s.calls| && s.once.Running? && s.calls[s.once.who].CWaiting? && !s.recv.RExited?
    requires HasSpace(s)
    ensures Step(s, Recv(RecvNext(s))) == Some(t) && HasSpace(t) && i < |t.calls| && Steps(t, i) == Steps(s, i)
    ensures Measure(t) < Measure(s)
  {
    assert Phase(s) == 2 && Closed(s) && !s.swapped;
    ReceiverMoves(s);
    assert !RecvBlocked(s);
    t := Step(s, Recv(RecvNext(s))).value;
    RecvDescends(s, RecvNext(s), t);
    RecvKeepsRoom(s, RecvNext(s), t);
    RecvPrinted(s, RecvNext(s), ScanFields(s.buf, false), t);
    hide RecvScanned, RecvStep, SignalPart, Records, RecvOwn, MachineOk, Measure;
  }

  /** What a step of the wait has to do for it to end: keep room, and come closer. */
  ghost predicate Closer(h: Shake, t: Shake)
    requires h.pc.PDisconnecting? && h.pc.call < |h.s.calls|
  {
    && t.pc == h.pc && h.pc.call < |t.s.calls| && HasSpace(t.s)
    && (Steps(t.s, h.pc.call) < Steps(h.s, h.pc.call)
        || (Steps(t.s, h.pc.call) == Steps(h.s, h.pc.call) && Measure(t.s) < Measure(h.s)))
  }

  lemma OtherStep(h: Shake, b: Action, u: State)
    requires Listened(h.pc) && (b.Recv? || b.Call? || b.NewCall?) && Step(h.s, b) == Some(u)
    ensures HStep(h, Other(b)) == Some(h.(s := u))
  {
  }

  lemma HolderComesCloser(h: Shake) returns (a: Act, t: Shake)
    requires MachineOk(h.s) && h.pc.PDisconnecting? && h.pc.call < |h.s.calls| && h.s.once.Running? && HasSpace(h.s)
    ensures HStep(h, a) == Some(t) && Closer(h, t)
  {
    var s, i := h.s, h.pc.call;
    var j := s.once.who;
    assert j < |s.calls| && InBody(s.calls[j]);
    hide MachineOk, HStep, HasSpace, Measure, CallStep, RecvNext;
    if s.calls[j].CWaiting? && !s.recv.RExited? {
      var u := ReceiverEnds(s, i);
      OtherStep(h, Recv(RecvNext(s)), u);
      a, t := Other(Recv(RecvNext(s))), h.(s := u);
    } else {
      var c := NextInBody(s.calls[j]);
      var u := HolderMoves(s, i, c);
      OtherStep(h, Call(j, c), u);
      a, t := Other(Call(j, c)), h.(s := u);
    }
  }

  lemma OwnCallComesCloser(h: Shake) returns (a: Act, t: Shake)
    requires MachineOk(h.s) && h.pc.PDisconnecting? && h.pc.call < |h.s.calls| && !h.s.once.Running? && HasSpace(h.s)
    ensures HStep(h, a) == Some(t) && (t.pc.PReturned? || Closer(h, t))
  {
    var s, i := h.s, h.pc.call;
    assert !InBody(s.calls[i]) && (s.once.Idle? ==> !Left(s.calls[i]));
    hide MachineOk, HasSpace, Measure, CallStep;
    if s.calls[i].CReturned? || s.calls[i].CPanicked? {
      a, t := Leave, HStep(h, Leave).value;
    } else {
      var c := if s.calls[i].CEntering? then CallEnter else CallRead;
      var u := OwnCallMoves(s, i, c);
      OtherStep(h, Call(i, c), u);
      a, t := Other(Call(i, c)), h.(s := u);
    }
  }

  /** As long as the frames at hand fit, the handshake's wait can be brought to its end. */
  lemma {:induction false} ReachesReturn(h: Shake, all: Text) returns (acts: seq<Act>)
    requires Sound(h, all) && h.pc.PDisconnecting? && HasSpace(h.s)
    ensures HRun(h, acts).Some? && HRun(h, acts).value.pc.PReturned?
    decreases if h.pc.call < |h.s.calls| then Steps(h.s, h.pc.call) else 0, Measure(h.s)
  {
    hide MachineOk, Delivers, Ends, HasSpace, Measure, HStep;
    var a, t;
    if h.s.once.Running? {
      a, t := HolderComesCloser(h);
    } else {
      a, t := OwnCallComesCloser(h);
    }
    SoundStep(h, a, t, all);
    var more: seq<Act> := [];
    if !t.pc.PReturned? {
      more := ReachesReturn(t, all);
    }
    acts := [a] + more;
    assert acts[1..] == more;
  }

  // ---------------------------------------------------------------- the exact condition

  /** A handshake that has failed can return from its Disconnect if and only if the frames that the receiver has at hand
      fit msgChan together with those already there. */
  lemma ReturnsExactlyWithRoom(all: Text, before: seq<Act>, h: Shake)
    requires HRun(Begin(all), before) == Some(h) && h.pc.PDisconnecting?
    ensures CanReturn(h) <==> PendingFrames(h.s) + |h.s.ic.msgChan| <= MSG_CAP
  {
    hide Sound, HRun;
    BeginSound(all);
    SoundRun(Begin(all), before, h, all);
    if HasSpace(h.s) {
      var acts := ReachesReturn(h, all);
    } else {
      forall acts | HRun(h, acts).Some? ensures !HRun(h, acts).value.pc.PReturned? {
        OverfullRun(h, acts, HRun(h, acts).value, all);
      }
    }
  }

  // ---------------------------------------------------------------- once the socket is closed

  lemma RoomLasts(s: State, b: Action, t: State)
    requires !s.ic.sockOpen && HasSpace(s) && (b.Recv? || b.Call? || b.NewCall?) && Step(s, b) == Some(t)
    ensures !t.ic.sockOpen && HasSpace(t)
  {
    match b
    case Recv(r) =>
      hide RecvStep;
      RecvKeepsRoom(s, r, t);
    case Call(i, c) =>
      CallFramed(s, i, c, t);
      DeliveryCall(s, i, c, t);
      hide CallStep, Frames;
    case _ =>
  }

  lemma RoomLastsStep(h: Shake, a: Act, t: Shake)
    requires h.pc.PDisconnecting? && !h.s.ic.sockOpen && HasSpace(h.s) && HStep(h, a) == Some(t)
    ensures !t.s.ic.sockOpen && HasSpace(t.s) && (t.pc.PDisconnecting? || t.pc.PReturned?)
  {
    hide Step, HasSpace;
    if a.Other? {
      RoomLasts(h.s, a.a, t.s);
    }
  }

  lemma ReturnedStays(h: Shake, a: Act, t: Shake)
    requires HStep(h, a) == Some(t) && h.pc.PReturned?
    ensures t.pc == h.pc
  {
    hide Step;
  }

  /** Once the teardown has closed the socket, room is never lost: whatever happens then, the handshake has returned or
      still can. */
  lemma {:induction false} WaitNeverBlocks(h: Shake, acts: seq<Act>, t: Shake, all: Text)
    requires Sound(h, all) && HRun(h, acts) == Some(t)
    requires h.pc.PReturned? || (h.pc.PDisconnecting? && !h.s.ic.sockOpen && HasSpace(h.s))
    ensures t.pc.PReturned? || CanReturn(t)
    decreases |acts|
  {
    hide MachineOk, Delivers, Ends, HasSpace, HStep;
    if acts != [] {
      var u := HStep(h, acts[0]).value;
      SoundStep(h, acts[0], u, all);
      if h.pc.PReturned? {
        ReturnedStays(h, acts[0], u);
      } else {
        RoomLastsStep(h, acts[0], u);
      }
      WaitNeverBlocks(u, acts[1..], t, all);
    } else if !h.pc.PReturned? {
      var more := ReachesReturn(h, all);
    }
  }

  /** A failed handshake that does return has torn the client down completely: it is ready for the next Connect. */
  lemma FailedLeavesQuiet(all: Text, acts: seq<Act>, h: Shake)
    requires HRun(Begin(all), acts) == Some(h) && h.pc.PReturned? && h.arrivals != [] && !h.pc.r.Nil?
    ensures Quiet(h.s.ic) && h.s.ic.doneClosed && h.s.trace == TEARDOWN
  {
    hide Ends, Delivers, HRun;
    BeginSound(all);
    SoundRun(Begin(all), acts, h, all);
    assert Phase(h.s) == 6 && h.s.swapped;
  }
}
