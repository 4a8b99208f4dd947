/** client.go: HandShake as a machine beside the receiver that it starts. The decoder and the requester do not exist
    before Run, which their exited program counters stand for; the confirm loop takes the messages in their place. */
module Handshake {
  import opened Basics
  import opened Framing
  import Fields
  import opened Lifecycle
  import opened Footprints
  import opened Teardown
  import opened Shutdown
  import opened Confirmation

  datatype Pc = PSending | PScanning | PStarting | PListening(ids: seq<int>) | PInterpreting(m: Text, ids: seq<int>)
              | PDisconnecting(call: nat, why: Ending) | PReturned(r: Return)

  /** `info` is the server-info frame once it has been read, `arrivals` what the loop's select has given so far. */
  datatype Shake = Shake(s: State, pc: Pc, info: Option<Text>, arrivals: seq<Arrival>)

  datatype Act = SendHead(ok: bool) | ReadInfo(r: RecvAct) | SendStart(ok: bool) | Take | Interpret(panics: bool)
               | GiveUp | Leave | Other(a: Action)

  /** After Connect: the socket is open, the peer will send these bytes, and nothing has happened yet. */
  function Begin(all: Text): Shake {
    var s := Fresh([], RExited);
    Shake(s.(ic := s.ic.(connected := false, wg := 0), wire := all, dec := DExited, req := QExited), PSending, None, [])
  }

  // ---------------------------------------------------------------- steps

  function HStep(h: Shake, a: Act): Option<Shake> {
    match a
    case SendHead(ok) => if h.pc.PSending? then Some(h.(pc := if ok then PScanning else PReturned(Unsent))) else None
    case ReadInfo(r) => if h.pc.PScanning? then InfoStep(h, r) else None
    case SendStart(ok) => if h.pc.PStarting? && h.info.Some? then Some(Started(h, h.info.value, ok)) else None
    case Take => if h.pc.PListening? && h.s.ic.msgChan != [] then Some(Taken(h, h.pc.ids)) else None
    case Interpret(panics) => if h.pc.PInterpreting? then Some(Interpreted(h, h.pc.m, h.pc.ids, panics)) else None
    case GiveUp =>
      if h.pc.PListening? then
        Some(TearDown(h.(s := h.s.(ic := h.s.ic.(connected := false)), arrivals := h.arrivals + [Abort]), Aborted))
      else None
    case Leave => if h.pc.PDisconnecting? && h.pc.call < |h.s.calls| then Resumed(h, h.s.calls[h.pc.call]) else None
    case Other(b) =>
      if Listened(h.pc) && (b.Recv? || b.Call? || b.NewCall?) then
        match Step(h.s, b) case Some(t) => Some(h.(s := t)) case None => None
      else None
  }

  /** One step of the scanner that HandShake itself calls once; the receiver goes on with the same scanner. */
  function InfoStep(h: Shake, r: RecvAct): Option<Shake> {
    match RecvStep(h.s.(recv := RScanning), r)
    case None => None
    case Some(t) =>
      var s := t.(recv := RExited);
      match t.recv
      case RScanning => Some(h.(s := s))
      case RSending(m) => Some(h.(s := s, info := Some(m), pc := PStarting))
      case RStopped(why) => Some(h.(s := s, pc := PReturned(if why.None? then Nil else Unread)))
      case _ => None
  }

  /** The version and the connection time are the first two fields of the frame; then the receiver is started. */
  function Started(h: Shake, info: Text, ok: bool): Shake {
    if |Fields.SplitMsgBytes(info)| < 2 then h.(pc := PReturned(Unwound))
    else if !ok then h.(pc := PReturned(Unsent))
    else h.(s := h.s.(ic := h.s.ic.(wg := h.s.ic.wg + 1), recv := RScanning),
            pc := PListening([NEXT_VALID_ID, MANAGED_ACCTS]))
  }

  function Taken(h: Shake, ids: seq<int>): Shake
    requires h.s.ic.msgChan != []
  {
    var m := h.s.ic.msgChan[0];
    var s := h.s.(ic := h.s.ic.(msgChan := h.s.ic.msgChan[1..]), interpreted := h.s.interpreted + [m]);
    if Fields.SplitMsgBytes(m) == [] then TearDown(h.(s := s, arrivals := h.arrivals + [Message(m, false)]), Panicked)
    else h.(s := s, pc := PInterpreting(m, ids))
  }

  function Interpreted(h: Shake, m: Text, ids: seq<int>, panics: bool): Shake {
    var u := h.(arrivals := h.arrivals + [Message(m, panics)]);
    if panics || Fields.SplitMsgBytes(m) == [] then TearDown(u, Panicked)
    else
      var left := Without(ids, MsgId(m));
      if left == [] then u.(s := u.s.(ic := u.s.ic.(connected := true)), pc := PReturned(Nil))
      else u.(pc := PListening(left))
  }

  /** The deferred Disconnect is one more call, which may find the Once taken. */
  function TearDown(h: Shake, why: Ending): Shake {
    h.(s := h.s.(calls := h.s.calls + [CEntering]), pc := PDisconnecting(|h.s.calls|, why))
  }

  function Resumed(h: Shake, call: CallPc): Option<Shake>
    requires h.pc.PDisconnecting?
  {
    match call
    case CReturned(_) => Some(h.(pc := PReturned(if h.pc.why.Aborted? then AlreadyConnected else Unwound)))
    case CPanicked => Some(h.(pc := PReturned(Unwound)))
    case _ => None
  }

  predicate Listened(pc: Pc) { pc.PListening? || pc.PInterpreting? || pc.PDisconnecting? || pc.PReturned? }

  function HRun(h: Shake, acts: seq<Act>): Option<Shake>
    decreases |acts|
  {
    if acts == [] then Some(h)
    else match HStep(h, acts[0])
      case Some(t) => HRun(t, acts[1..])
      case None => None
  }

  // ---------------------------------------------------------------- the shared state

  /** Before Run there are no requests. */
  predicate Bare(s: State) {
    && s.ic.reqChan == [] && s.ic.errChan == [] && s.oldReq == [] && s.accepted == [] && s.processed == []
    && s.enqs == [] && s.loops == []
  }

  predicate InScan(pc: RecvPc) { pc.RScanning? || pc.RSending? }

  ghost predicate MachineOk(s: State) {
    && s.dec.DExited? && s.req.QExited? && TeardownOk(s) && ErrorOk(s) && Bare(s)
    && (InScan(s.recv) && s.once.Idle? ==> s.trace == [] && s.firstErr.None?) && (s.swapped ==> s.ic.msgChan == [])
  }

  lemma MachineRecv(s: State, a: RecvAct, t: State)
    requires MachineOk(s) && RecvStep(s, a) == Some(t)
    ensures MachineOk(t) && t.interpreted == s.interpreted && |t.calls| >= |s.calls|
    ensures t.ic.connected == s.ic.connected && t.swapped == s.swapped && t.ic.doneClosed == s.ic.doneClosed
  {
    TeardownRecv(s, a, t);
    ErrorRecv(s, a, t);
    RecvPrinted(s, a, ScanFields(s.buf, false), t);
    LiveBeforeReset(s);
    hide RecvScanned, TeardownOk, ErrorOk;
  }

  lemma BareCall(s: State, i: nat, a: CallAct, t: State)
    requires i < |s.calls| && Bare(s) && CallStep(s, i, a) == Some(t)
    ensures Bare(t)
  {
  }

  lemma CallHistory(s: State, i: nat, a: CallAct, t: State)
    requires i < |s.calls| && CallStep(s, i, a) == Some(t)
    ensures t.once.Idle? ==> s.once.Idle? && !a.CallEnter?
    ensures s.ic.connected || s.swapped ==> t.ic.connected || t.swapped
    ensures t.ic.connected ==> s.ic.connected
    ensures s.ic.doneClosed ==> t.ic.doneClosed
    ensures if t.swapped && !s.swapped then t.ic.msgChan == [] else t.ic.msgChan == s.ic.msgChan || t.ic.msgChan == []
  {
  }

  /** While nobody has entered the once-body, every call is about to. */
  lemma OnlyEntering(s: State, i: nat, a: CallAct)
    requires i < |s.calls| && CallsOk(s) && s.once.Idle? && !a.CallEnter?
    ensures CallStep(s, i, a).None?
  {
    assert !InBody(s.calls[i]) && !Left(s.calls[i]);
  }

  lemma MachineCall(s: State, i: nat, a: CallAct, t: State)
    requires i < |s.calls| && MachineOk(s) && CallStep(s, i, a) == Some(t)
    ensures MachineOk(t) && t.interpreted == s.interpreted && |t.calls| >= |s.calls|
    ensures s.ic.connected || s.swapped ==> t.ic.connected || t.swapped
    ensures t.ic.connected ==> s.ic.connected
    ensures s.ic.doneClosed ==> t.ic.doneClosed
  {
    TeardownCall(s, i, a, t);
    ErrorCall(s, i, a, t);
    CallFramed(s, i, a, t);
    BareCall(s, i, a, t);
    CallHistory(s, i, a, t);
    if s.once.Idle? && !a.CallEnter? {
      OnlyEntering(s, i, a);
    }
    hide CallStep, TeardownOk, ErrorOk, Bare;
  }

  lemma MachineNewCall(s: State)
    requires MachineOk(s)
    ensures MachineOk(s.(calls := s.calls + [CEntering]))
  {
    TeardownNewCall(s, s.(calls := s.calls + [CEntering]));
  }

  lemma MachineStep(s: State, a: Action, t: State)
    requires MachineOk(s) && (a.Recv? || a.Call? || a.NewCall?) && Step(s, a) == Some(t)
    ensures MachineOk(t) && t.interpreted == s.interpreted && |t.calls| >= |s.calls|
    ensures s.ic.connected || s.swapped ==> t.ic.connected || t.swapped
    ensures t.ic.connected ==> s.ic.connected
    ensures s.ic.doneClosed ==> t.ic.doneClosed
  {
    match a
    case Recv(r) => MachineRecv(s, r, t);
    case Call(i, c) => MachineCall(s, i, c, t);
    case _ => MachineNewCall(s);
  }

  // ---------------------------------------------------------------- every run

  /** The bytes behind the first frame. */
  function Rest(all: Text): Text {
    match ScanFields(all, false) case Token(n, _) => all[n..] case _ => []
  }

  predicate GotInfo(info: Text, all: Text) { ScanFields(all, false).Token? && info == ScanFields(all, false).token }

  /** Until the receiver starts, only bytes have moved. */
  ghost predicate Silent(s: State, all: Text) {
    s == Begin(all).s.(buf := s.buf, wire := s.wire) && |s.buf| <= MAX_MSG_LEN
  }

  /** The receiver delivers the frames behind the server info; what the loop has taken are the arrivals, in order, and
      perhaps one more. */
  ghost predicate Delivers(s: State, arrivals: seq<Arrival>, held: seq<Text>, all: Text) {
    DeliveryOk(s, Rest(all)) && s.interpreted == Texts(arrivals) + held
  }

  /** The message the loop has taken but not yet interpreted. */
  function Held(pc: Pc): seq<Text> { if pc.PInterpreting? then [pc.m] else [] }

  /** How each return comes about. */
  ghost predicate ReturnsAs(r: Return, arrivals: seq<Arrival>, s: State) {
    if arrivals == [] then r.Unsent? || r.Unwound?
    else match r
      case Nil => Ends(arrivals, Confirmed, |arrivals|) && (s.ic.connected || s.swapped)
      case AlreadyConnected => Ends(arrivals, Aborted, |arrivals|) && s.ic.doneClosed
      case Unwound => (Ends(arrivals, Panicked, |arrivals|) || Ends(arrivals, Aborted, |arrivals|)) && s.ic.doneClosed
      case _ => false
  }

  ghost predicate Placed(h: Shake, all: Text) {
    match h.pc
    case PListening(ids) => h.info.Some? && Listening(h.arrivals, ids)
    case PInterpreting(m, ids) => h.info.Some? && Listening(h.arrivals, ids) && Fields.SplitMsgBytes(m) != []
    case PDisconnecting(i, why) => h.info.Some? && i < |h.s.calls| && Fails(why) && Ends(h.arrivals, why, |h.arrivals|)
    case PReturned(r) =>
      if h.info.Some? then ReturnsAs(r, h.arrivals, h.s)
      else h.arrivals == [] && (r.Nil? || r.Unread? || r.Unsent?) && (r.Nil? ==> Frames(all) == [])
    case _ =>
      && Silent(h.s, all) && h.arrivals == [] && h.info.Some? == h.pc.PStarting?
      && (h.info.None? ==> h.s.buf + h.s.wire == all)
  }

  ghost predicate Sound(h: Shake, all: Text) {
    && MachineOk(h.s) && (h.s.ic.connected ==> h.pc == PReturned(Nil)) && Placed(h, all)
    && (h.info.Some? ==> GotInfo(h.info.value, all) && Delivers(h.s, h.arrivals, Held(h.pc), all))
  }

  lemma BeginSound(all: Text)
    ensures Sound(Begin(all), all)
  {
    assert Begin(all).s.calls == [] && TEARDOWN[..0] == [];
  }

  lemma SilentOk(s: State, all: Text)
    requires Silent(s, all)
    ensures MachineOk(s) && !s.ic.connected
  {
    assert s.calls == [] && TEARDOWN[..0] == [];
  }

  lemma SilentDelivers(s: State, all: Text)
    requires Silent(s, all) && s.buf + s.wire == Rest(all)
    ensures Delivers(s, [], [], all)
  {
    hide Frames, ScanFields;
    assert s.interpreted == Texts([]) + [];
    assert Frames(s.buf + s.wire) == [] + [] + [] + Frames(s.buf + s.wire);
  }

  /** What the scanner says about its buffer it also says about the whole stream. */
  lemma InfoIsFirst(s: State, all: Text)
    requires s.buf + s.wire == all && ScanFields(s.buf, false).Token?
    ensures GotInfo(ScanFields(s.buf, false).token, all)
    ensures s.buf[ScanFields(s.buf, false).advance..] + s.wire == Rest(all)
  {
    ScanExtends(s.buf, s.wire);
  }

  lemma InfoFrame(s: State, r: RecvAct, t: State, all: Text)
    requires Silent(s, all) && RecvStep(s.(recv := RScanning), r) == Some(t)
    ensures Silent(t.(recv := RExited), all)
    ensures t.recv.RScanning? ==> t.buf + t.wire == s.buf + s.wire
    ensures t.recv.RSending? ==> ScanFields(s.buf, false).Token? && t.recv.m == ScanFields(s.buf, false).token
                                 && t.buf == s.buf[ScanFields(s.buf, false).advance..] && t.wire == s.wire
    ensures t.recv == RStopped(None) ==> ScanFields(s.buf, false).NeedMore? && s.wire == []
  {
    assert r.RecvRead? ==> t.buf + t.wire == s.buf + s.wire;
  }

  /** Before the receiver starts, a state is sound if its bytes are where they belong. */
  lemma SoundEarly(h: Shake, all: Text)
    requires Silent(h.s, all) && h.arrivals == []
    requires match h.pc
             case PScanning => h.info.None? && h.s.buf + h.s.wire == all
             case PStarting => h.info.Some? && GotInfo(h.info.value, all) && h.s.buf + h.s.wire == Rest(all)
             case PReturned(r) => h.info.None? && (r.Unread? || (r.Nil? && Frames(all) == []))
             case _ => false
    ensures Sound(h, all)
  {
    SilentOk(h.s, all);
    hide MachineOk, Silent, GotInfo, Frames, Rest;
    if h.pc.PStarting? {
      SilentDelivers(h.s, all);
    }
  }

  lemma SoundInfo(h: Shake, r: RecvAct, t: Shake, all: Text)
    requires Silent(h.s, all) && h.s.buf + h.s.wire == all && h.arrivals == [] && h.info.None? && h.pc.PScanning?
    requires InfoStep(h, r) == Some(t)
    ensures Sound(t, all)
  {
    var u := RecvStep(h.s.(recv := RScanning), r).value;
    hide Sound, Silent, RecvStep, GotInfo;
    InfoFrame(h.s, r, u, all);
    if u.recv.RSending? {
      InfoIsFirst(h.s, all);
    } else if u.recv == RStopped(None) {
      assert h.s.buf == all;
    }
    SoundEarly(t, all);
  }

  lemma Spawned(s: State, all: Text, t: State)
    requires Silent(s, all) && t == s.(ic := s.ic.(wg := s.ic.wg + 1), recv := RScanning)
    ensures MachineOk(t) && !t.ic.connected && Flight(t.recv) == Flight(s.recv)
  {
    SilentOk(s, all);
    assert Live(t) == 1 && Phase(t) == 0;
    hide Live, Phase;
  }

  lemma SoundStart(h: Shake, ok: bool, t: Shake, all: Text)
    requires Sound(h, all) && h.pc.PStarting? && t == Started(h, h.info.value, ok)
    ensures Sound(t, all)
  {
    hide MachineOk, Silent, GotInfo, Fields.SplitMsgBytes;
    if t.pc.PListening? {
      Spawned(h.s, all, t.s);
      NothingHeard();
      assert h.arrivals == [];
      hide Listening, Frames, Rest, Texts;
    } else {
      hide Delivers;
    }
  }

  /** t differs from s only in what the confirm loop may change. */
  predicate LoopFrame(s: State, t: State) {
    && t == s.(ic := t.ic, interpreted := t.interpreted)
    && t.ic == s.ic.(msgChan := t.ic.msgChan, connected := t.ic.connected) && |t.ic.msgChan| <= |s.ic.msgChan|
  }

  lemma MachineLoop(s: State, t: State)
    requires MachineOk(s) && LoopFrame(s, t)
    ensures MachineOk(t)
  {
    TeardownKept(s, t);
    hide TeardownOk;
  }

  /** One more message leaves msgChan. */
  lemma DeliversTaken(s: State, arrivals: seq<Arrival>, m: Text, t: State, all: Text)
    requires Delivers(s, arrivals, [], all) && LoopFrame(s, t) && !s.swapped
    requires s.ic.msgChan == [m] + t.ic.msgChan && t.interpreted == s.interpreted + [m]
    ensures Delivers(t, arrivals, [m], all)
  {
    hide Frames, Texts, Rest;
    assert s.interpreted + s.ic.msgChan == t.interpreted + t.ic.msgChan;
    assert Frames(Rest(all)) == t.interpreted + (t.ic.msgChan + Flight(t.recv) + Frames(t.buf + t.wire));
  }

  /** The message in hand becomes the last arrival. */
  lemma DeliversArrival(s: State, arrivals: seq<Arrival>, a: Arrival, t: State, all: Text)
    requires Delivers(s, arrivals, if a.Message? then [a.m] else [], all)
    requires SameDelivery(s, t)
    ensures Delivers(t, arrivals + [a], [], all)
  {
    DeliveryKept(s, t, Rest(all));
    hide DeliveryOk, Rest;
    assert (arrivals + [a])[..|arrivals|] == arrivals;
  }

  /** A failing handshake turns to its deferred Disconnect. */
  lemma SoundTearDown(h: Shake, a: Arrival, why: Ending, t: Shake, all: Text)
    requires MachineOk(h.s) && !h.s.ic.connected && h.info.Some? && GotInfo(h.info.value, all)
    requires Delivers(h.s, h.arrivals, if a.Message? then [a.m] else [], all)
    requires Fails(why) && Ends(h.arrivals + [a], why, |h.arrivals| + 1)
    requires t == TearDown(h.(arrivals := h.arrivals + [a]), why)
    ensures Sound(t, all)
  {
    hide MachineOk, Ends, Delivers, GotInfo, Silent, Frames, Listening;
    MachineNewCall(h.s);
    DeliversArrival(h.s, h.arrivals, a, t.s, all);
  }

  lemma GaveUp(h: Shake, t: Shake)
    requires h.pc.PListening? && !h.s.ic.connected && HStep(h, GiveUp) == Some(t)
    ensures t == TearDown(h.(arrivals := h.arrivals + [Abort]), Aborted)
  {
  }

  lemma SoundGiveUp(h: Shake, t: Shake, all: Text)
    requires Sound(h, all) && h.pc.PListening? && HStep(h, GiveUp) == Some(t)
    ensures Sound(t, all)
  {
    GaveUp(h, t);
    hide HStep, MachineOk, Ends, Delivers, GotInfo, Silent, Frames;
    Turn(h.arrivals, h.pc.ids, Abort);
    hide Listening;
    SoundTearDown(h, Abort, Aborted, t, all);
  }

  lemma SoundTake(h: Shake, ids: seq<int>, m: Text, u: Shake, all: Text)
    requires MachineOk(h.s) && !h.s.ic.connected && h.info.Some? && GotInfo(h.info.value, all)
    requires Delivers(h.s, h.arrivals, [], all) && Listening(h.arrivals, ids)
    requires h.s.ic.msgChan != [] && m == h.s.ic.msgChan[0]
    requires u == h.(s := h.s.(ic := h.s.ic.(msgChan := h.s.ic.msgChan[1..]), interpreted := h.s.interpreted + [m]))
    ensures MachineOk(u.s) && Delivers(u.s, h.arrivals, [m], all)
  {
    assert !h.s.swapped;
    MachineLoop(h.s, u.s);
    hide MachineOk, Delivers;
    DeliversTaken(h.s, h.arrivals, m, u.s, all);
  }

  lemma SoundTaken(h: Shake, t: Shake, all: Text)
    requires Sound(h, all) && h.pc.PListening? && h.s.ic.msgChan != [] && t == Taken(h, h.pc.ids)
    ensures Sound(t, all)
  {
    hide MachineOk, Ends, Delivers, GotInfo, Listening;
    var m := h.s.ic.msgChan[0];
    var u := h.(s := h.s.(ic := h.s.ic.(msgChan := h.s.ic.msgChan[1..]), interpreted := h.s.interpreted + [m]));
    SoundTake(h, h.pc.ids, m, u, all);
    if Fields.SplitMsgBytes(m) == [] {
      Turn(h.arrivals, h.pc.ids, Message(m, false));
      SoundTearDown(u, Message(m, false), Panicked, t, all);
    }
  }

  lemma SoundPanic(h: Shake, t: Shake, all: Text)
    requires Sound(h, all) && h.pc.PInterpreting? && t == Interpreted(h, h.pc.m, h.pc.ids, true)
    ensures Sound(t, all)
  {
    hide MachineOk, Ends, Delivers, GotInfo, Silent, Frames;
    Turn(h.arrivals, h.pc.ids, Message(h.pc.m, true));
    hide Listening, Fields.SplitMsgBytes;
    SoundTearDown(h, Message(h.pc.m, true), Panicked, t, all);
  }

  lemma SoundGoesOn(h: Shake, m: Text, ids: seq<int>, t: Shake, all: Text)
    requires MachineOk(h.s) && !h.s.ic.connected && h.info.Some? && GotInfo(h.info.value, all)
    requires Delivers(h.s, h.arrivals, [m], all) && Listening(h.arrivals + [Message(m, false)], ids)
    requires t == h.(arrivals := h.arrivals + [Message(m, false)], pc := PListening(ids))
    ensures Sound(t, all)
  {
    hide MachineOk, Ends, Delivers, GotInfo, Silent, Frames, Listening, Fields.SplitMsgBytes;
    DeliversArrival(h.s, h.arrivals, Message(m, false), t.s, all);
  }

  lemma SoundConfirmed(h: Shake, m: Text, t: Shake, all: Text)
    requires MachineOk(h.s) && h.info.Some? && GotInfo(h.info.value, all) && Delivers(h.s, h.arrivals, [m], all)
    requires Ends(h.arrivals + [Message(m, false)], Confirmed, |h.arrivals| + 1)
    requires t == h.(s := h.s.(ic := h.s.ic.(connected := true)), arrivals := h.arrivals + [Message(m, false)],
                     pc := PReturned(Nil))
    ensures Sound(t, all)
  {
    hide MachineOk, Ends, Delivers, GotInfo, Silent, Frames, Listening, Fields.SplitMsgBytes;
    MachineLoop(h.s, t.s);
    DeliversArrival(h.s, h.arrivals, Message(m, false), t.s, all);
    assert t.arrivals != [] && ReturnsAs(Nil, t.arrivals, t.s);
  }

  lemma SoundInterpret(h: Shake, t: Shake, all: Text)
    requires Sound(h, all) && h.pc.PInterpreting? && t == Interpreted(h, h.pc.m, h.pc.ids, false)
    ensures Sound(t, all)
  {
    hide MachineOk, Ends, Delivers, GotInfo, Silent, Frames, MsgId, Fields.SplitMsgBytes;
    Turn(h.arrivals, h.pc.ids, Message(h.pc.m, false));
    hide Listening, Without;
    var left := Without(h.pc.ids, MsgId(h.pc.m));
    if left == [] {
      SoundConfirmed(h, h.pc.m, t, all);
    } else {
      SoundGoesOn(h, h.pc.m, left, t, all);
    }
  }

  lemma SoundLeave(h: Shake, t: Shake, all: Text)
    requires Sound(h, all) && HStep(h, Leave) == Some(t)
    ensures Sound(t, all)
  {
    assert h.s.ic.doneClosed by {
      assert Left(h.s.calls[h.pc.call]);
    }
    assert h.arrivals != [];
    hide MachineOk, Ends, Delivers, GotInfo, Silent, Frames;
  }

  lemma DeliversOther(s: State, arrivals: seq<Arrival>, held: seq<Text>, b: Action, t: State, all: Text)
    requires MachineOk(s) && Delivers(s, arrivals, held, all) && (b.Recv? || b.Call? || b.NewCall?)
        && Step(s, b) == Some(t)
    ensures Delivers(t, arrivals, held, all)
  {
    MachineStep(s, b, t);
    DeliveryStep(s, b, t, Rest(all));
    hide MachineOk, DeliveryOk, Step;
  }

  lemma OtherMoved(h: Shake, b: Action, t: Shake)
    requires HStep(h, Other(b)) == Some(t)
    ensures t == h.(s := t.s) && Listened(h.pc) && (b.Recv? || b.Call? || b.NewCall?) && Step(h.s, b) == Some(t.s)
  {
  }

  lemma SoundOther(h: Shake, b: Action, t: Shake, all: Text)
    requires Sound(h, all) && HStep(h, Other(b)) == Some(t)
    ensures Sound(t, all)
  {
    OtherMoved(h, b, t);
    hide HStep, Step, MachineOk, Ends, Listening, Delivers, GotInfo, Silent, Frames, Fields.SplitMsgBytes;
    MachineStep(h.s, b, t.s);
    if h.info.Some? {
      DeliversOther(h.s, h.arrivals, Held(h.pc), b, t.s, all);
    }
  }

  lemma SoundStep(h: Shake, a: Act, t: Shake, all: Text)
    requires Sound(h, all) && HStep(h, a) == Some(t)
    ensures Sound(t, all)
  {
    match a
    case ReadInfo(r) => SoundInfo(h, r, t, all);
    case SendStart(ok) => SoundStart(h, ok, t, all);
    case Take => SoundTaken(h, t, all);
    case Interpret(panics) =>
      if panics {
        SoundPanic(h, t, all);
      } else {
        SoundInterpret(h, t, all);
      }
    case GiveUp => SoundGiveUp(h, t, all);
    case Leave => SoundLeave(h, t, all);
    case Other(b) => SoundOther(h, b, t, all);
    case SendHead(ok) => hide MachineOk, Silent;
  }

  lemma {:induction false} SoundRun(h: Shake, acts: seq<Act>, t: Shake, all: Text)
    requires Sound(h, all) && HRun(h, acts) == Some(t)
    ensures Sound(t, all)
    decreases |acts|
  {
    hide Sound;
    if acts != [] {
      var u := HStep(h, acts[0]).value;
      SoundStep(h, acts[0], u, all);
      SoundRun(u, acts[1..], t, all);
    }
  }

  // ---------------------------------------------------------------- delivery, and how a handshake ends

  /** From the first byte on: the frames the peer sends are the server info, then the messages the confirm loop has
      taken, in order, then those in msgChan, the one the receiver holds, and those still to be scanned. */
  lemma HandshakeDelivers(all: Text, acts: seq<Act>, h: Shake)
    requires HRun(Begin(all), acts) == Some(h) && h.info.Some?
    ensures Frames(all) == [h.info.value] + Frames(Rest(all))
    ensures h.s.interpreted == Texts(h.arrivals) + Held(h.pc) <= Frames(Rest(all))
    ensures !h.s.swapped ==>
      Frames(Rest(all)) == h.s.interpreted + h.s.ic.msgChan + Flight(h.s.recv) + Frames(h.s.buf + h.s.wire)
  {
    BeginSound(all);
    SoundRun(Begin(all), acts, h, all);
    hide MachineOk, Placed, HRun, U32;
  }

  lemma PlacedMeans(h: Shake, all: Text)
    requires Placed(h, all)
    ensures h.pc.PListening? || h.pc.PInterpreting? ==> Ends(h.arrivals, Waiting, |h.arrivals|)
    ensures h.pc.PDisconnecting? ==> Ends(h.arrivals, h.pc.why, |h.arrivals|)
    ensures h.pc == PReturned(AlreadyConnected) ==> Ends(h.arrivals, Aborted, |h.arrivals|)
    ensures h.pc == PReturned(Nil) && h.info.Some? ==> Ends(h.arrivals, Confirmed, |h.arrivals|)
    ensures h.pc == PReturned(Nil) && h.info.None? ==> Frames(all) == []
  {
    hide Ends, Silent, Frames, Fields.SplitMsgBytes;
    if h.pc.PListening? || h.pc.PInterpreting? {
      ListeningWaits(h.arrivals, h.pc.ids);
    }
  }

  /** The loop is where the messages it has taken put it. */
  lemma LoopFollows(all: Text, acts: seq<Act>, h: Shake)
    requires HRun(Begin(all), acts) == Some(h)
    ensures h.pc.PListening? || h.pc.PInterpreting? ==> Ends(h.arrivals, Waiting, |h.arrivals|)
    ensures h.pc.PDisconnecting? ==> Ends(h.arrivals, h.pc.why, |h.arrivals|)
    ensures h.pc == PReturned(AlreadyConnected) ==> Ends(h.arrivals, Aborted, |h.arrivals|)
  {
    hide Ends, Frames, HRun, Placed, MachineOk;
    BeginSound(all);
    SoundRun(Begin(all), acts, h, all);
    PlacedMeans(h, all);
  }

  /** HandShake has met the end of the stream when it read the server info. */
  predicate MetEof(h: Shake) { h.pc == PReturned(Nil) && h.info.None? }

  lemma EofStep(h: Shake, a: Act, t: Shake, all: Text)
    requires Sound(h, all) && HStep(h, a) == Some(t)
    ensures MetEof(t) <==> MetEof(h) || a == ReadInfo(RecvEof)
  {
    hide Step, MachineOk, Silent, Delivers, Frames, Listening;
  }

  lemma {:induction false} EofRun(h: Shake, acts: seq<Act>, t: Shake, all: Text)
    requires Sound(h, all) && HRun(h, acts) == Some(t)
    ensures MetEof(t) <==> MetEof(h) || ReadInfo(RecvEof) in acts
    decreases |acts|
  {
    hide Sound, MetEof;
    if acts != [] {
      var u := HStep(h, acts[0]).value;
      SoundStep(h, acts[0], u, all);
      EofStep(h, acts[0], u, all);
      EofRun(u, acts[1..], t, all);
    }
  }

  lemma ConfirmedOnly(h: Shake, r: Return, all: Text)
    requires Placed(h, all) && h.pc == PReturned(r)
    ensures r.Nil? && h.info.Some? ==> Ends(h.arrivals, Confirmed, |h.arrivals|)
    ensures Ends(h.arrivals, Confirmed, |h.arrivals|) ==> r.Nil? && h.info.Some?
  {
    if Ends(h.arrivals, Confirmed, |h.arrivals|) {
      assert h.arrivals != [];
      hide Frames, Seen;
      if r.AlreadyConnected? {
        EndsOnce(h.arrivals, Confirmed, |h.arrivals|, Aborted, |h.arrivals|);
      } else if Ends(h.arrivals, Panicked, |h.arrivals|) {
        EndsOnce(h.arrivals, Confirmed, |h.arrivals|, Panicked, |h.arrivals|);
      } else if Ends(h.arrivals, Aborted, |h.arrivals|) {
        EndsOnce(h.arrivals, Confirmed, |h.arrivals|, Aborted, |h.arrivals|);
      }
    }
  }

  /** The action that makes HandShake return so; `info` is the server info if it was read. */
  predicate Gives(info: Option<Text>, a: Act, r: Return) {
    match r
    case Unsent =>
      a == SendHead(false)
      || (a == SendStart(false) && info.Some? && |Fields.SplitMsgBytes(info.value)| >= 2)
    case Unread => a == ReadInfo(RecvFail) || a == ReadInfo(RecvTooLong)
    case Nil => a == ReadInfo(RecvEof) || a == Interpret(false)
    case AlreadyConnected => a == Leave
    case Unwound =>
      a == Leave || (a.SendStart? && info.Some? && |Fields.SplitMsgBytes(info.value)| < 2)
  }

  lemma GivesStep(h: Shake, a: Act, t: Shake)
    requires HStep(h, a) == Some(t)
    ensures !h.pc.PReturned? && t.pc.PReturned? ==> Gives(t.info, a, t.pc.r)
    ensures h.pc.PReturned? ==> t.pc == h.pc && t.info == h.info
  {
    hide Step, Fields.SplitMsgBytes, MsgId, Without;
  }

  lemma {:induction false} StaysReturned(h: Shake, acts: seq<Act>, t: Shake)
    requires HRun(h, acts) == Some(t) && h.pc.PReturned?
    ensures t.pc == h.pc && t.info == h.info
    decreases |acts|
  {
    hide HStep;
    if acts != [] {
      GivesStep(h, acts[0], HStep(h, acts[0]).value);
      StaysReturned(HStep(h, acts[0]).value, acts[1..], t);
    }
  }

  lemma {:induction false} GivesRun(h: Shake, acts: seq<Act>, t: Shake)
    requires HRun(h, acts) == Some(t) && !h.pc.PReturned? && t.pc.PReturned?
    ensures exists a :: a in acts && Gives(t.info, a, t.pc.r)
    decreases |acts|
  {
    hide HStep, Gives;
    var u := HStep(h, acts[0]).value;
    GivesStep(h, acts[0], u);
    if u.pc.PReturned? {
      StaysReturned(u, acts[1..], t);
      assert acts[0] in acts;
    } else {
      GivesRun(u, acts[1..], t);
    }
  }

  /** Whatever HandShake returns, the run has a step that accounts for it. */
  lemma ReturnHasCause(all: Text, acts: seq<Act>, h: Shake)
    requires HRun(Begin(all), acts) == Some(h) && h.pc.PReturned?
    ensures exists a :: a in acts && Gives(h.info, a, h.pc.r)
  {
    GivesRun(Begin(all), acts, h);
  }

  /** HandShake promises nil for a confirmed connection. It returns nil exactly if the loop has confirmed it, or if
      reading the server info met the end of the stream: scanner.Err() is nil there. */
  lemma ReturnsNilExactly(all: Text, acts: seq<Act>, h: Shake)
    requires HRun(Begin(all), acts) == Some(h) && h.pc.PReturned?
    ensures h.pc.r.Nil? <==> Ends(h.arrivals, Confirmed, |h.arrivals|) || ReadInfo(RecvEof) in acts
    ensures ReadInfo(RecvEof) in acts ==> Frames(all) == []
  {
    hide Ends, Frames, HRun, MachineOk, Placed;
    BeginSound(all);
    SoundRun(Begin(all), acts, h, all);
    EofRun(Begin(all), acts, h, all);
    ConfirmedOnly(h, h.pc.r, all);
    PlacedMeans(h, all);
  }

  // ---------------------------------------------------------------- where Run starts

  /** Run has spawned the requester and the decoder. */
  function AfterRun(s: State): State {
    s.(ic := s.ic.(wg := s.ic.wg + 2), dec := DSelecting, req := QSelecting)
  }

  lemma RunTeardown(s: State)
    requires MachineOk(s)
    ensures TeardownOk(AfterRun(s)) <==> Phase(s) < 3
  {
    var t := AfterRun(s);
    assert Phase(t) == Phase(s) && Live(t) == Live(s) + 2;
    assert CallsOk(t);
  }

  lemma ExitedInTrace(s: State)
    requires TeardownOk(s)
    ensures WorkersExited in s.trace <==> Phase(s) >= 3
  {
    if Phase(s) >= 3 {
      assert s.trace[2] == WorkersExited;
    }
  }

  lemma RunRequests(s: State)
    requires MachineOk(s) && Phase(s) < 3 && (s.ic.connected || s.swapped)
    ensures RequestsOk(AfterRun(s)) && ErrorOk(AfterRun(s))
  {
    assert s.ic.connected == !s.swapped;
    hide Phase, Live, CallsOk;
    assert Requests([]) == [];
  }

  lemma RunDelivery(s: State, stream: Text)
    requires DeliveryOk(s, stream)
    ensures DeliveryOk(AfterRun(s), stream)
  {
    hide Frames;
  }

  /** Run on a confirmed connection starts the machine of the running client in its invariant, exactly if no Disconnect
      call has yet passed its wait for the receiver. */
  lemma RunKeepsInvariant(all: Text, acts: seq<Act>, h: Shake)
    requires HRun(Begin(all), acts) == Some(h) && h.pc == PReturned(Nil) && h.info.Some?
    ensures Inv(AfterRun(h.s), Rest(all)) <==> WorkersExited !in h.s.trace
  {
    hide Ends, HRun, Phase, Live, TeardownOk, DeliveryOk, RequestsOk, ErrorOk, AfterRun, Frames;
    BeginSound(all);
    SoundRun(Begin(all), acts, h, all);
    assert h.s.ic.connected || h.s.swapped;
    RunTeardown(h.s);
    ExitedInTrace(h.s);
    if Phase(h.s) < 3 {
      RunRequests(h.s);
      RunDelivery(h.s, Rest(all));
    }
  }

  /** A receiver in its loop, and nobody else: nothing has been signalled or recorded. */
  lemma QuietScan(s: State)
    requires MachineOk(s) && InScan(s.recv) && s.calls == []
    ensures s.once.Idle? && !s.swapped && Phase(s) == 0 && s.trace == [] && s.firstErr.None?
  {
  }

  lemma RunInit(s: State, stream: Text)
    requires MachineOk(s) && DeliveryOk(s, stream) && s.ic.connected && InScan(s.recv) && s.calls == []
    ensures Init(AfterRun(s), stream)
  {
    QuietScan(s);
    assert s.ic.wg == 1 && s.ic.sockOpen && !s.ic.shutdownOnce;
    hide Frames, Phase, Live, CallsOk;
  }

  /** With the receiver still in its loop and no Disconnect call around, that is where the machine's runs start: the
      handshake and the receiver have delivered the frames just as Init says. */
  lemma RunStarts(all: Text, acts: seq<Act>, h: Shake)
    requires HRun(Begin(all), acts) == Some(h) && h.pc == PReturned(Nil) && h.info.Some?
    requires InScan(h.s.recv) && h.s.calls == []
    ensures Init(AfterRun(h.s), Rest(all))
  {
    hide Ends, HRun, MachineOk, DeliveryOk, Init;
    BeginSound(all);
    SoundRun(Begin(all), acts, h, all);
    QuietScan(h.s);
    RunInit(h.s, Rest(all));
  }
}
