/** Two runs of the handshake: one that never returns, and one that returns nil from a client that is torn down. */
module HandshakeWitness {
  import opened Basics
  import opened Framing
  import Fields
  import opened Lifecycle
  import opened Footprints
  import opened Teardown
  import opened Shutdown
  import opened Confirmation
  import opened Handshake
  import opened HandshakeWait

  // ---------------------------------------------------------------- runs put together

  lemma {:induction false} HRunOn(h: Shake, a: seq<Act>, t: Shake, b: seq<Act>, u: Shake)
    requires HRun(h, a) == Some(t) && HRun(t, b) == Some(u)
    ensures HRun(h, a + b) == Some(u)
    decreases |a|
  {
    if a == [] {
      assert a + b == b;
    } else {
      assert (a + b)[1..] == a[1..] + b;
      HRunOn(HStep(h, a[0]).value, a[1..], t, b, u);
    }
  }

  lemma HRunOne(h: Shake, a: Act, t: Shake)
    requires HStep(h, a) == Some(t)
    ensures HRun(h, [a]) == Some(t)
  {
    assert HRun(t, []) == Some(t);
  }

  /** The server info and all that follows it come in one read. */
  lemma ReadsAtOnce(info: Text, rest: Text) returns (acts: seq<Act>, h: Shake)
    requires |info| < 0x1_0000_0000 && |Framed(info) + rest| <= MAX_MSG_LEN
    ensures HRun(Begin(Framed(info) + rest), acts) == Some(h) && h.pc == PStarting && h.info == Some(info)
    ensures h.s == Begin([]).s.(buf := rest)
  {
    var all := Framed(info) + rest;
    FramedHead(info, rest);
    var h0 := Begin(all);
    var h1 := h0.(pc := PScanning);
    var h2 := h1.(s := h1.s.(buf := all, wire := []));
    assert all[..|all|] == all && all[|all|..] == [] && [] + all == all;
    h := h2.(s := h2.s.(buf := rest), pc := PStarting, info := Some(info));
    HRunOne(h0, SendHead(true), h1);
    HRunOne(h1, ReadInfo(RecvRead(|all|)), h2);
    HRunOne(h2, ReadInfo(RecvToken), h);
    HRunOn(h0, [SendHead(true)], h1, [ReadInfo(RecvRead(|all|))], h2);
    HRunOn(h0, [SendHead(true)] + [ReadInfo(RecvRead(|all|))], h2, [ReadInfo(RecvToken)], h);
    acts := [SendHead(true)] + [ReadInfo(RecvRead(|all|))] + [ReadInfo(RecvToken)];
  }

  lemma ListensTo(h: Shake, info: Text, rest: Text) returns (t: Shake)
    requires h.pc.PStarting? && h.info == Some(info) && |Fields.SplitMsgBytes(info)| >= 2
    requires h.s == Begin([]).s.(buf := rest)
    ensures HStep(h, SendStart(true)) == Some(t) && t.pc == PListening([NEXT_VALID_ID, MANAGED_ACCTS])
    ensures t.info.Some? && t.s == h.s.(ic := h.s.ic.(wg := 1), recv := RScanning)
  {
    hide Fields.SplitMsgBytes;
    t := Started(h, info, true);
  }

  // ---------------------------------------------------------------- a handshake that hangs

  lemma FillStep(s: State, t: State)
    requires |s.ic.msgChan| <= MSG_CAP && !HasSpace(s) && !RecvBlocked(s) && RecvStep(s, RecvNext(s)) == Some(t)
    ensures |t.ic.msgChan| <= MSG_CAP && !HasSpace(t) && Measure(t) < Measure(s)
  {
    assert !RecvNext(s).RecvRead?;
    RecvDescends(s, RecvNext(s), t);
    ReceiverPushes(s, t);
    RecvOwns(s, RecvNext(s), ScanFields(s.buf, false), t);
    hide RecvScanned, Measure, Frames;
  }

  /** While the loop is busy or waits for its turn, the receiver fills msgChan. */
  lemma {:induction false} ReceiverFills(h: Shake) returns (acts: seq<Act>, t: Shake)
    requires h.pc.PListening? && |h.s.ic.msgChan| <= MSG_CAP && !HasSpace(h.s)
    ensures HRun(h, acts) == Some(t) && t.pc == h.pc && RecvBlocked(t.s) && !HasSpace(t.s)
    decreases Measure(h.s)
  {
    if RecvBlocked(h.s) {
      return [], h;
    }
    assert !h.s.recv.RExited?;
    hide RecvStep, Measure, HasSpace, RecvNext, RecvBlocked, HStep;
    ReceiverMoves(h.s);
    var s := Step(h.s, Recv(RecvNext(h.s))).value;
    FillStep(h.s, s);
    OtherStep(h, Recv(RecvNext(h.s)), s);
    var more;
    more, t := ReceiverFills(h.(s := s));
    acts := [Other(Recv(RecvNext(h.s)))] + more;
    assert acts[1..] == more;
  }

  /** It does happen: messages flood in, the receiver fills msgChan and holds one more, and then the loop gives up. */
  lemma HandshakeCanHang(info: Text, m: Text) returns (all: Text, acts: seq<Act>, h: Shake)
    requires |Fields.SplitMsgBytes(info)| >= 2 && |Wire([info] + seq(MSG_CAP + 1, _ => m))| <= MAX_MSG_LEN
    ensures HRun(Begin(all), acts) == Some(h) && h.pc.PDisconnecting? && h.pc.why.Aborted? && !CanReturn(h)
  {
    var flood := seq(MSG_CAP + 1, _ => m);
    assert ([info] + flood)[1..] == flood && flood[1..][0] == m;
    all := Wire([info] + flood);
    assert all == Framed(info) + Wire(flood) && Wire(flood) == Framed(m) + Wire(flood[1..]);
    WireFrames(flood);
    var a, h1 := ReadsAtOnce(info, Wire(flood));
    var h2 := ListensTo(h1, info, Wire(flood));
    assert PendingFrames(h2.s) == |flood| && h2.s.ic.msgChan == [];
    assert !HasSpace(h2.s);
    hide Wire, HStep, HRun, Frames, HasSpace, Begin, Fields.SplitMsgBytes;
    HRunOne(h1, SendStart(true), h2);
    HRunOn(Begin(all), a, h1, [SendStart(true)], h2);
    var b, h3 := ReceiverFills(h2);
    HRunOn(Begin(all), a + [SendStart(true)], h2, b, h3);
    h := GivesUp(h3);
    HRunOne(h3, GiveUp, h);
    HRunOn(Begin(all), a + [SendStart(true)] + b, h3, [GiveUp], h);
    acts := a + [SendStart(true)] + b + [GiveUp];
    ReturnsExactlyWithRoom(all, acts, h);
  }

  lemma GivesUp(h: Shake) returns (t: Shake)
    requires h.pc.PListening? && !HasSpace(h.s)
    ensures HStep(h, GiveUp) == Some(t) && t.pc.PDisconnecting? && t.pc.why.Aborted? && !HasSpace(t.s)
  {
    t := HStep(h, GiveUp).value;
  }

  // ---------------------------------------------------------------- nil from a client that has been torn down

  function Lifted(acts: seq<Action>): seq<Act> { seq(|acts|, i requires 0 <= i < |acts| => Other(acts[i])) }

  /** A run of the receiver and of calls is a run beside the handshake. */
  lemma {:induction false} LiftedRun(h: Shake, acts: seq<Action>, u: State)
    requires Listened(h.pc) && Run(h.s, acts) == Some(u)
    requires forall i :: 0 <= i < |acts| ==> acts[i].Recv? || acts[i].Call? || acts[i].NewCall?
    ensures HRun(h, Lifted(acts)) == Some(h.(s := u))
    decreases |acts|
  {
    if acts != [] {
      var s := Step(h.s, acts[0]).value;
      OtherStep(h, acts[0], s);
      LiftedRun(h.(s := s), acts[1..], u);
      assert Lifted(acts)[1..] == Lifted(acts[1..]);
    }
  }

  const DELIVERING := [Recv(RecvToken), Recv(RecvSend), Recv(RecvToken), Recv(RecvSend)]
  const ENDING := [Recv(RecvEof), Recv(RecvAfter), Recv(RecvDefer), Recv(RecvLeave)]
  const SHUTTING := [Call(0, CallEnter), Call(0, CallSignal), Call(0, CallClose(false)), Call(0, CallWait)]
  const RESETTING := [Call(0, CallNotify(false)), Call(0, CallReset), Call(0, CallRelease), Call(0, CallFinish)]

  lemma WireOfTwo(a: Text, b: Text)
    ensures Wire([a, b]) == Framed(a) + Framed(b) && Wire([b]) == Framed(b) + []
  {
    assert [a, b][1..] == [b] && [b][1..] == [];
    assert Wire([b]) == Framed(b) + Wire([]);
  }

  lemma DeliversOne(s: State, m: Text, rest: Text)
    requires s.recv.RScanning? && s.buf == Framed(m) + rest && |m| < 0x1_0000_0000 && |s.ic.msgChan| < MSG_CAP
    ensures var t := s.(buf := rest, recv := RSending(m));
            && Step(s, Recv(RecvToken)) == Some(t)
            && Step(t, Recv(RecvSend)) == Some(s.(buf := rest, ic := s.ic.(msgChan := s.ic.msgChan + [m])))
  {
    FramedHead(m, rest);
  }

  lemma DeliversTwo(s: State, a: Text, b: Text) returns (t: State)
    requires s.recv.RScanning? && s.buf == Wire([a, b]) && s.ic.msgChan == []
    requires |a| < 0x1_0000_0000 && |b| < 0x1_0000_0000
    ensures Run(s, DELIVERING) == Some(t) && t == s.(buf := [], ic := s.ic.(msgChan := [a, b]))
  {
    WireOfTwo(a, b);
    DeliversOne(s, a, Framed(b));
    var u := s.(buf := Framed(b), ic := s.ic.(msgChan := [] + [a]));
    assert Framed(b) == Framed(b) + [];
    DeliversOne(u, b, []);
    assert [] + [a] + [b] == [a, b];
    hide Run, Step, Wire, Framed;
    t := Run4(s, Recv(RecvToken), Recv(RecvSend), Recv(RecvToken), Recv(RecvSend));
  }

  /** The peer has closed the stream: the receiver starts the teardown and leaves. */
  lemma ReceiverGivesUp(s: State) returns (t: State)
    requires s.recv.RScanning? && s.buf == [] && s.wire == [] && s.ic.sockOpen && !s.ic.termClosed && s.calls == []
    requires s.ic.wg == 1 && s.once.Idle? && s.trace == []
    ensures Run(s, ENDING) == Some(t) && t.calls == [CEntering] && t.once.Idle? && t.ic.wg == 0 && t.trace == []
    ensures t.ic.shutdownOnce == s.ic.shutdownOnce
  {
    hide Run;
    t := Run4(s, Recv(RecvEof), Recv(RecvAfter), Recv(RecvDefer), Recv(RecvLeave));
  }

  lemma CallShuts(s: State) returns (t: State)
    requires s.calls == [CEntering] && s.once.Idle? && s.ic.wg == 0 && s.trace == [] && !s.ic.shutdownOnce
    ensures Run(s, SHUTTING) == Some(t) && t.calls == [CNotifying] && WorkersExited in t.trace && t.once == Running(0)
  {
    hide Run;
    t := Run4(s, Call(0, CallEnter), Call(0, CallSignal), Call(0, CallClose(false)), Call(0, CallWait));
  }

  lemma CallResets(s: State) returns (t: State)
    requires s.calls == [CNotifying] && WorkersExited in s.trace && s.once == Running(0)
    ensures Run(s, RESETTING) == Some(t) && t.swapped && WorkersExited in t.trace
  {
    hide Run;
    t := Run4(s, Call(0, CallNotify(false)), Call(0, CallReset), Call(0, CallRelease), Call(0, CallFinish));
  }

  lemma TearsDown(h: Shake, u: State, v: State, w: State) returns (acts: seq<Act>)
    requires Listened(h.pc) && Run(h.s, ENDING) == Some(u) && Run(u, SHUTTING) == Some(v)
    requires Run(v, RESETTING) == Some(w)
    ensures HRun(h, acts) == Some(h.(s := w))
  {
    hide Run, HRun, Step;
    LiftedRun(h, ENDING, u);
    LiftedRun(h.(s := u), SHUTTING, v);
    LiftedRun(h.(s := v), RESETTING, w);
    HRunOn(h, Lifted(ENDING), h.(s := u), Lifted(SHUTTING), h.(s := v));
    HRunOn(h, Lifted(ENDING) + Lifted(SHUTTING), h.(s := v), Lifted(RESETTING), h.(s := w));
    acts := Lifted(ENDING) + Lifted(SHUTTING) + Lifted(RESETTING);
  }

  /** While the loop is busy with its second message, the peer closes the stream and the teardown runs to its end. */
  lemma TornDownMeanwhile(h: Shake) returns (acts: seq<Act>, t: Shake)
    requires h.pc.PInterpreting? && h.s.recv.RScanning? && h.s.buf == [] && h.s.wire == [] && h.s.ic.sockOpen
    requires !h.s.ic.termClosed && !h.s.ic.shutdownOnce && h.s.calls == [] && h.s.ic.wg == 1 && h.s.once.Idle?
    requires h.s.trace == [] && !h.s.swapped
    ensures HRun(h, acts) == Some(t) && t == h.(s := t.s) && t.s.swapped && WorkersExited in t.s.trace
  {
    hide Run, HRun, Step, ENDING, SHUTTING, RESETTING;
    var u := ReceiverGivesUp(h.s);
    var v := CallShuts(u);
    var w := CallResets(v);
    acts := TearsDown(h, u, v, w);
    t := h.(s := w);
  }

  /** Both IDs have been taken, the second not yet interpreted. */
  lemma TakesTwo(h: Shake, a: Text, b: Text) returns (t: Shake)
    requires h.pc == PListening([NEXT_VALID_ID, MANAGED_ACCTS]) && h.s.ic.msgChan == [a, b]
    requires Fields.SplitMsgBytes(a) != [] && MsgId(a) == NEXT_VALID_ID && Fields.SplitMsgBytes(b) != []
    ensures HRun(h, [Take] + [Interpret(false)] + [Take]) == Some(t) && t.pc == PInterpreting(b, [MANAGED_ACCTS])
    ensures t == h.(s := t.s, pc := t.pc, arrivals := t.arrivals)
    ensures t.s == h.s.(ic := h.s.ic.(msgChan := []), interpreted := t.s.interpreted)
  {
    hide Fields.SplitMsgBytes, MsgId;
    assert [a, b][1..] == [b] && [b][1..] == [];
    assert Without([NEXT_VALID_ID, MANAGED_ACCTS], NEXT_VALID_ID) == [MANAGED_ACCTS];
    var h1 := HStep(h, Take).value;
    var h2 := HStep(h1, Interpret(false)).value;
    t := HStep(h2, Take).value;
    hide HStep, HRun;
    HRunOne(h, Take, h1);
    HRunOne(h1, Interpret(false), h2);
    HRunOne(h2, Take, t);
    HRunOn(h, [Take], h1, [Interpret(false)], h2);
    HRunOn(h, [Take] + [Interpret(false)], h2, [Take], t);
  }

  lemma ConfirmsLate(h: Shake, b: Text) returns (t: Shake)
    requires h.pc == PInterpreting(b, [MANAGED_ACCTS]) && Fields.SplitMsgBytes(b) != [] && MsgId(b) == MANAGED_ACCTS
    ensures HStep(h, Interpret(false)) == Some(t) && t.pc == PReturned(Nil) && t.info == h.info
    ensures t.s == h.s.(ic := h.s.ic.(connected := true))
  {
    hide Fields.SplitMsgBytes, MsgId;
    assert Without([MANAGED_ACCTS], MANAGED_ACCTS) == [];
    t := HStep(h, Interpret(false)).value;
  }

  /** It does happen: the stream ends behind the two messages that confirm the connection, the receiver tears the client
      down while the loop interprets the second, and HandShake marks the new connection as connected and returns nil.
      The workers of a Run that follows are not those of the machine. */
  lemma NilFromTornDown(info: Text, a: Text, b: Text) returns (all: Text, acts: seq<Act>, h: Shake)
    requires |Fields.SplitMsgBytes(info)| >= 2 && |Wire([info, a, b])| <= MAX_MSG_LEN
    requires Fields.SplitMsgBytes(a) != [] && MsgId(a) == NEXT_VALID_ID
    requires Fields.SplitMsgBytes(b) != [] && MsgId(b) == MANAGED_ACCTS
    ensures HRun(Begin(all), acts) == Some(h) && h.pc == PReturned(Nil) && h.s.ic.connected && h.s.swapped
    ensures !Inv(AfterRun(h.s), Rest(all))
  {
    hide Fields.SplitMsgBytes, MsgId, HStep, Inv, Sound;
    assert [info, a, b][1..] == [a, b];
    assert Wire([info, a, b]) == Framed(info) + Wire([a, b]);
    WireOfTwo(a, b);
    all := Framed(info) + Wire([a, b]);
    var x, h1 := ReadsAtOnce(info, Wire([a, b]));
    var h2 := ListensTo(h1, info, Wire([a, b]));
    var s := DeliversTwo(h2.s, a, b);
    hide Wire, HRun, Run, Framed;
    LiftedRun(h2, DELIVERING, s);
    var h3 := h2.(s := s);
    var h4 := TakesTwo(h3, a, b);
    var y, h5 := TornDownMeanwhile(h4);
    h := ConfirmsLate(h5, b);
    HRunOne(h1, SendStart(true), h2);
    HRunOne(h5, Interpret(false), h);
    var z := [Take] + [Interpret(false)] + [Take];
    HRunOn(Begin(all), x, h1, [SendStart(true)], h2);
    HRunOn(Begin(all), x + [SendStart(true)], h2, Lifted(DELIVERING), h3);
    HRunOn(Begin(all), x + [SendStart(true)] + Lifted(DELIVERING), h3, z, h4);
    HRunOn(Begin(all), x + [SendStart(true)] + Lifted(DELIVERING) + z, h4, y, h5);
    HRunOn(Begin(all), x + [SendStart(true)] + Lifted(DELIVERING) + z + y, h5, [Interpret(false)], h);
    acts := x + [SendStart(true)] + Lifted(DELIVERING) + z + y + [Interpret(false)];
    RunKeepsInvariant(all, acts, h);
  }
}
