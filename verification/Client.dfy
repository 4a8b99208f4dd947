/** client.go: the client object and the operations that run on its caller's goroutine. What other goroutines do in
    between is the business of Lifecycle, whose record of shared fields is the abstract state here. */
module Client {
  import opened Basics
  import opened Framing
  import opened Confirmation
  import opened Fields
  import opened OrderLayout
  import opened Orders
  import opened Guards
  import opened OrderWriter
  import opened Versions
  import L = Lifecycle
  import H = Handshake
  import Teardown

  const NO_VALID_ID: int64 := -1
  const ALREADY_CONNECTED: int64 := 501
  const CONNECT_FAIL: int64 := 502
  const UPDATE_TWS: int64 := 503
  const NOT_CONNECTED: int64 := 504

  datatype ConnState = Disconnected | Connecting | Connected

  /** An UPDATE_TWS error names the attribute that its message is about. */
  datatype Callback = Error(id: int64, code: int64, about: Option<Attribute>) | ConnectAck | ConnectionClosed

  // ---------------------------------------------------------------- what the operations do to the shared fields

  /** The first half of a teardown: the signal and the socket. */
  function Closed(f: L.Fields, closeFails: bool): L.Fields {
    f.SignalShutdown().SetErr(if closeFails then Some(L.CloseFailed) else None).(sockOpen := false)
  }

  /** The whole teardown by one caller that is alone. */
  function TornDown(f: L.Fields, closeFails: bool): L.Fields { Closed(f, closeFails).Reset().SignalDone() }

  /** A successful Connect: the socket is open, the client not yet confirmed, `done` and the Onces are fresh. The
      channels, the signal and the WaitGroup stay as they are. */
  function Reconnected(f: L.Fields): L.Fields {
    f.(connected := false, sockOpen := true, doneClosed := false, shutdownOnce := false, doneOnce := false,
       errOnce := false)
  }

  /** The first teardown of an epoch leaves the client quiet, so that the next Connect starts a fresh epoch; nothing
      is closed twice on the way exactly when the epoch's signal matches its Once and its done channel is open. */
  lemma TeardownLeavesQuiet(f: L.Fields, closeFails: bool)
    requires !f.crashed && (f.doneOnce ==> f.doneClosed)
    ensures L.Quiet(TornDown(f, closeFails)) <==> (f.termClosed ==> f.shutdownOnce) && (f.doneClosed ==> f.doneOnce)
    ensures TornDown(f, closeFails).doneClosed
    ensures L.FreshEpoch(Reconnected(TornDown(f, closeFails))) <==> L.Quiet(TornDown(f, closeFails))
    ensures L.FreshEpoch(f) ==> L.Quiet(TornDown(f, closeFails))
  {
  }

  function Closing(closeFails: bool): seq<L.Action> {
    [L.Call(0, L.CallEnter), L.Call(0, L.CallSignal), L.Call(0, L.CallClose(closeFails)), L.Call(0, L.CallWait)]
  }

  const WRAPPING_UP := [L.Call(0, L.CallNotify(false)), L.Call(0, L.CallReset), L.Call(0, L.CallRelease),
                        L.Call(0, L.CallFinish)]

  /** A fresh epoch is where the handshake's machine begins. */
  lemma FreshIsBegin(f: L.Fields, all: Text)
    ensures L.FreshEpoch(f) <==> f == H.Begin(all).s.ic
  {
  }

  /** One call, alone, about to enter the once-body of an epoch whose workers are gone. */
  predicate Alone(s: L.State) {
    s.calls == [L.CEntering] && s.once.Idle? && s.ic.wg == 0 && s.trace == [] && !s.ic.shutdownOnce && !s.ic.doneOnce
  }

  lemma MachineCloses(s: L.State, closeFails: bool) returns (t: L.State)
    requires Alone(s)
    ensures L.Run(s, Closing(closeFails)) == Some(t) && t.ic == Closed(s.ic, closeFails) && !t.ic.doneOnce
    ensures t.calls == [L.CNotifying] && t.trace == L.TEARDOWN[..3] && t.once == L.Running(0)
  {
    hide L.Run;
    t := Teardown.Run4(s, L.Call(0, L.CallEnter), L.Call(0, L.CallSignal), L.Call(0, L.CallClose(closeFails)),
                       L.Call(0, L.CallWait));
  }

  lemma MachineWrapsUp(s: L.State) returns (t: L.State)
    requires s.calls == [L.CNotifying] && s.trace == L.TEARDOWN[..3] && s.once == L.Running(0) && !s.ic.doneOnce
    ensures L.Run(s, WRAPPING_UP) == Some(t) && t.ic == s.ic.Reset().SignalDone()
    ensures t.calls == [L.CReading] && t.trace == L.TEARDOWN && t.ic.err.None?
  {
    hide L.Run;
    t := Teardown.Run4(s, L.Call(0, L.CallNotify(false)), L.Call(0, L.CallReset), L.Call(0, L.CallRelease),
                       L.Call(0, L.CallFinish));
  }

  lemma ReturnsNil(s: L.State)
    requires s.calls == [L.CReading] && s.ic.err.None?
    ensures L.Step(s, L.Call(0, L.CallRead)) == Some(s.(calls := [L.CReturned(None)]))
  {
    assert s.calls[0 := L.CReturned(None)] == [L.CReturned(None)];
  }

  /** The machine agrees: a Disconnect call that finds the workers gone, run to its end without interruption, leaves
      the shared fields just so, brings about the teardown's events in order, and returns nil. */
  lemma MachineTearsDown(s: L.State, closeFails: bool) returns (t: L.State)
    requires Alone(s)
    ensures L.Run(s, Closing(closeFails) + WRAPPING_UP) == Some(t)
    ensures t.ic == TornDown(s.ic, closeFails) && t.trace == L.TEARDOWN
    ensures L.Step(t, L.Call(0, L.CallRead)) == Some(t.(calls := [L.CReturned(None)]))
  {
    hide L.Run, L.Step, Closing;
    var u := MachineCloses(s, closeFails);
    t := MachineWrapsUp(u);
    ReturnsNil(t);
    Teardown.RunOn(s, Closing(closeFails), u, WRAPPING_UP, t);
  }

  // ---------------------------------------------------------------- the client

  datatype Enqueued = Accepted | TurnedAway | Blocked

  /** What the one Scan call for the server info comes to. */
  datatype ServerInfo = Frame(m: Text) | EndOfStream | Unreadable

  /** A HandShake call returns, waits for more arrivals, or waits in Disconnect for a receiver that cannot go on. */
  datatype Fate = Returns(r: Return) | Listens | Hangs

  /** What comes of a loop that ended so, with that many frames in msgChan or in the receiver's hands. */
  function FateOf(e: Ending, frames: nat): Fate {
    match e
    case Confirmed => Returns(Nil)
    case Waiting => Listens
    case _ => if frames > L.MSG_CAP then Hangs else Returns(if e.Aborted? then AlreadyConnected else Unwound)
  }

  /** The handshake gets as far as starting the receiver. */
  predicate Starts(headSent: bool, info: ServerInfo, startSent: bool) {
    headSent && info.Frame? && |SplitMsgBytes(info.m)| >= 2 && startSent
  }

  class IbClient {
    var state: ConnState
    var sockOpen: bool
    var reqChan: seq<Text>
    var errChan: seq<L.Err>
    var msgChan: seq<Text>
    var terminatedSignal: bool // closed?
    var done: Option<bool> // nil before the first Connect, then: closed?
    var shutdownOnce: bool
    var doneOnce: bool
    var errOnce: bool
    var disconnectOnce: bool
    var err: Option<L.Err>
    var wg: nat
    var crashed: bool // a channel was closed twice, or a nil one
    var serverVersion: int
    var callbacks: seq<Callback> // what the wrapper was called with
    var interpreted: seq<Text> // what the decoder was given
    var submitted: seq<Text> // what enqueue was given

    /** The shared fields. */
    function View(): L.Fields
      reads `state, `sockOpen, `reqChan, `errChan, `msgChan, `terminatedSignal, `done
      reads `shutdownOnce, `doneOnce, `errOnce, `err, `wg, `crashed
    {
      L.Fields(state.Connected?, sockOpen, reqChan, errChan, msgChan, terminatedSignal, done == Some(true),
               shutdownOnce, doneOnce, errOnce, err, wg, crashed)
    }

    /** A new client is quiet: NewIbClient runs reset. */
    constructor ()
      ensures L.Quiet(View()) && done.None? && !disconnectOnce && !shutdownOnce && callbacks == []
      ensures serverVersion == -1
    {
      state, sockOpen, reqChan, errChan, msgChan := Disconnected, false, [], [], [];
      terminatedSignal, done, err, wg, crashed := false, None, None, 0, false;
      shutdownOnce, doneOnce, errOnce, disconnectOnce := false, false, false, false;
      serverVersion, callbacks, interpreted, submitted := -1, [], [], [];
    }

    method SignalShutdown()
      modifies `terminatedSignal, `shutdownOnce, `crashed
      ensures View() == old(View()).SignalShutdown()
    {
      if !shutdownOnce {
        shutdownOnce := true;
        if terminatedSignal {
          crashed := true;
        }
        terminatedSignal := true;
      }
    }

    /** The first error of the epoch is kept; nil is ignored. */
    method SetErr(e: Option<L.Err>)
      modifies `err, `errOnce
      ensures View() == old(View()).SetErr(e)
    {
      if e.None? {
        return;
      }
      if !errOnce {
        errOnce := true;
        err := e;
      }
    }

    method CloseSocket()
      modifies `sockOpen
      ensures View() == old(View()).(sockOpen := false)
    {
      sockOpen := false;
    }

    /** Closing `done` once; a nil channel cannot be closed. */
    method SignalDone()
      modifies `done, `doneOnce, `crashed
      ensures old(done).Some? ==> done.Some? && View() == old(View()).SignalDone()
      ensures old(done).None? ==> done.None? && (!old(doneOnce) ==> crashed)
    {
      if !doneOnce {
        doneOnce := true;
        match done
        case None => crashed := true;
        case Some(closed) =>
          crashed := crashed || closed;
          done := Some(true);
      }
    }

    method NewConnection()
      modifies `state, `sockOpen, `serverVersion
      ensures state.Disconnected? && !sockOpen && serverVersion == -1
    {
      state, sockOpen, serverVersion := Disconnected, false, -1;
    }

    method NewChannels()
      modifies `reqChan, `errChan, `msgChan, `terminatedSignal
      ensures reqChan == [] && errChan == [] && msgChan == [] && !terminatedSignal
    {
      reqChan, errChan, msgChan := [], [], [];
      terminatedSignal := false;
    }

    method NewOnces()
      modifies `doneOnce, `shutdownOnce, `disconnectOnce, `errOnce
      ensures !doneOnce && !shutdownOnce && !disconnectOnce && !errOnce
    {
      doneOnce, shutdownOnce, disconnectOnce, errOnce := false, false, false, false;
    }

    method Reset()
      modifies `state, `sockOpen, `reqChan, `errChan, `msgChan, `terminatedSignal, `wg, `err, `serverVersion
      ensures View() == old(View()).Reset() && serverVersion == -1 && state.Disconnected? && err.None?
    {
      NewConnection();
      NewChannels();
      wg := 0;
      err := None;
    }

    method StartEpoch()
      modifies `sockOpen, `done, `doneOnce, `shutdownOnce, `disconnectOnce, `errOnce
      ensures !disconnectOnce && done == Some(false)
      ensures !old(state).Connected? ==> View() == Reconnected(old(View()))
    {
      sockOpen := true;
      done := Some(false);
      NewOnces();
    }

    /** A successful Connect starts a fresh epoch exactly when the client was quiet (its connection state aside); a
        failed one resets the client and leaves `done` and the Onces as they were. */
    method Connect(dials: bool) returns (r: Option<int64>)
      modifies this
      ensures submitted == old(submitted) && interpreted == old(interpreted)
      ensures dials ==> r.None? && callbacks == old(callbacks)
      ensures dials ==> !disconnectOnce && done == Some(false) && state.Connecting?
      ensures dials ==> View() == Reconnected(old(View()))
      ensures dials ==> (L.FreshEpoch(View()) <==> L.Quiet(old(View()).(connected := false)))
      ensures !dials ==> r == Some(CONNECT_FAIL)
      ensures !dials ==> callbacks == old(callbacks) + [Error(NO_VALID_ID, CONNECT_FAIL, None)]
      ensures !dials ==> View() == old(View()).Reset() && done == old(done) && disconnectOnce == old(disconnectOnce)
    {
      SetConnecting();
      hide View;
      if !dials {
        FailDial();
        return Some(CONNECT_FAIL);
      }
      StartEpoch();
      return None;
    }

    method FailDial()
      modifies `state, `sockOpen, `reqChan, `errChan, `msgChan, `terminatedSignal, `wg, `err, `serverVersion, `callbacks
      ensures View() == old(View()).Reset() && callbacks == old(callbacks) + [Error(NO_VALID_ID, CONNECT_FAIL, None)]
    {
      callbacks := callbacks + [Error(NO_VALID_ID, CONNECT_FAIL, None)];
      Reset();
    }

    method SetConnecting()
      modifies `state
      ensures state.Connecting? && View() == old(View()).(connected := false)
    {
      state := Connecting;
    }

    method CloseDown(closeFails: bool)
      modifies `terminatedSignal, `shutdownOnce, `crashed, `err, `errOnce, `sockOpen
      ensures View() == Closed(old(View()), closeFails)
    {
      hide View;
      SignalShutdown();
      SetErr(if closeFails then Some(L.CloseFailed) else None);
      CloseSocket();
    }

    method WrapUp()
      modifies this
      ensures err.None? && callbacks == old(callbacks) + [ConnectionClosed] && serverVersion == -1
      ensures interpreted == old(interpreted) && submitted == old(submitted) && disconnectOnce == old(disconnectOnce)
      ensures old(done).Some? ==> done.Some? && View() == old(View()).Reset().SignalDone()
      ensures old(done).None? && !old(doneOnce) ==> crashed
    {
      hide View;
      callbacks := callbacks + [ConnectionClosed];
      Reset();
      SignalDone();
    }

    /** Disconnect by one caller, at the moment wg.Wait lets it through. The first call of an epoch tears it down and
        loses the recorded error; any other changes nothing. Before the first Connect `done` is nil and closing it is
        a fault. */
    method Disconnect(closeFails: bool) returns (r: Option<L.Err>)
      requires wg == 0
      modifies this
      ensures r == err && disconnectOnce && interpreted == old(interpreted) && submitted == old(submitted)
      ensures old(disconnectOnce) ==> View() == old(View()) && callbacks == old(callbacks) && done == old(done)
      ensures !old(disconnectOnce) ==> r.None? && callbacks == old(callbacks) + [ConnectionClosed]
      ensures !old(disconnectOnce) ==> serverVersion == -1
      ensures !old(disconnectOnce) && old(done).Some? ==> done.Some? && View() == TornDown(old(View()), closeFails)
      ensures !old(disconnectOnce) && old(done).None? && !old(doneOnce) ==> crashed
    {
      hide View, Closed;
      if !disconnectOnce {
        disconnectOnce := true;
        CloseDown(closeFails);
        WrapUp();
      }
      return err;
    }

    /** Hand a request to goRequest. It blocks only while the channel is full and the signal open; `signalFirst`
        resolves the select when both branches are enabled. */
    method Enqueue(msg: Text, signalFirst: bool) returns (r: Enqueued)
      modifies `reqChan, `callbacks, `submitted
      ensures submitted == old(submitted) + [msg]
      ensures r.Blocked? <==> state.Connected? && |old(reqChan)| >= L.REQ_CAP && !terminatedSignal
      ensures r.Accepted? <==> state.Connected? && |old(reqChan)| < L.REQ_CAP && !(terminatedSignal && signalFirst)
      ensures reqChan == if r.Accepted? then old(reqChan) + [msg] else old(reqChan)
      ensures callbacks == if r.TurnedAway? then old(callbacks) + [Error(NO_VALID_ID, NOT_CONNECTED, None)]
          else old(callbacks)
    {
      submitted := submitted + [msg];
      if !state.Connected? {
        callbacks := callbacks + [Error(NO_VALID_ID, NOT_CONNECTED, None)];
        return TurnedAway;
      }
      if |reqChan| < L.REQ_CAP && !(terminatedSignal && signalFirst) {
        reqChan := reqChan + [msg];
        return Accepted;
      } else if terminatedSignal {
        callbacks := callbacks + [Error(NO_VALID_ID, NOT_CONNECTED, None)];
        return TurnedAway;
      }
      return Blocked;
    }

    /** The confirm loop: messages are interpreted once each, in order, and the list of missing IDs always is the two
        IDs minus those seen, so that the connection is confirmed at the shortest prefix with both. */
    method Confirm(arrivals: seq<Arrival>) returns (outcome: Ending, n: nat)
      modifies `state, `callbacks, `interpreted
      ensures Ends(arrivals, outcome, n)
      ensures interpreted == old(interpreted) + Reaching(arrivals[..n])
      ensures outcome.Confirmed? ==> state.Connected? && callbacks == old(callbacks) + [ConnectAck]
      ensures outcome.Aborted? ==> state.Disconnected?
      ensures outcome.Aborted? ==> callbacks == old(callbacks) + [Error(NO_VALID_ID, ALREADY_CONNECTED, None)]
      ensures outcome.Waiting? || outcome.Panicked? ==> state == old(state) && callbacks == old(callbacks)
    {
      hide AllPlain, Seen, Reaching, Missing, Plain, MsgId, SplitMsgBytes;
      NothingSeen(arrivals);
      var ids := [NEXT_VALID_ID, MANAGED_ACCTS];
      n := 0;
      while n < |arrivals|
        invariant n <= |arrivals| && AllPlain(arrivals[..n]) && ids == Missing(Seen(arrivals[..n])) != []
        invariant state == old(state) && callbacks == old(callbacks)
        invariant interpreted == old(interpreted) + Reaching(arrivals[..n])
      {
        ids, outcome := Hear(arrivals[n], ids, Seen(arrivals[..n]));
        OneMoreReaches(arrivals, n);
        if Plain(arrivals[n]) {
          OneMoreSeen(arrivals, n);
        }
        n := n + 1;
        if !outcome.Waiting? {
          return;
        }
      }
      assert arrivals[..n] == arrivals;
      return Waiting, n;
    }

    /** The body of the confirm loop. */
    method Hear(a: Arrival, ids: seq<int>, ghost seen: set<int>) returns (left: seq<int>, outcome: Ending)
      requires ids == Missing(seen) != []
      modifies `state, `callbacks, `interpreted
      ensures a.Abort? ==> outcome.Aborted?
      ensures a.Message? && !Plain(a) ==> outcome.Panicked?
      ensures Plain(a) ==> left == Missing(seen + {MsgId(a.m)}) && outcome == if left == [] then Confirmed else Waiting
      ensures outcome.Confirmed? ==> state.Connected? && callbacks == old(callbacks) + [ConnectAck]
      ensures outcome.Aborted? ==> state.Disconnected?
      ensures outcome.Aborted? ==> callbacks == old(callbacks) + [Error(NO_VALID_ID, ALREADY_CONNECTED, None)]
      ensures outcome.Waiting? || outcome.Panicked? ==> state == old(state) && callbacks == old(callbacks)
      ensures interpreted == old(interpreted) + (if a.Message? && SplitMsgBytes(a.m) != [] then [a.m] else [])
    {
      hide SplitMsgBytes, ParseInt;
      left := ids;
      match a
      case Abort =>
        state := Disconnected;
        callbacks := callbacks + [Error(NO_VALID_ID, ALREADY_CONNECTED, None)];
        return left, Aborted;
      case Message(m, panics) =>
        var f := SplitMsgBytes(m);
        if f == [] {
          return left, Panicked;
        }
        var id := MsgId(m);
        interpreted := interpreted + [m];
        if panics {
          return left, Panicked;
        }
        for i := 0 to |ids|
          invariant forall k :: 0 <= k < i ==> ids[k] != id
        {
          if id == ids[i] {
            Removed(seen, id, i);
            left := ids[..i] + ids[i + 1..];
            break;
          }
        }
        if id !in ids {
          Kept(seen, id);
        }
        if left == [] {
          state := Connected;
          callbacks := callbacks + [ConnectAck];
          return left, Confirmed;
        }
        return left, Waiting;
    }

    /** HandShake from a fresh epoch, as far as the arrivals go. When the loop has ended, `waiting` is in msgChan and
        `pending` are the frames that the receiver has at hand. A connection that is not confirmed is torn down, for
        which its receiver has to get rid of these frames; that leaves the client quiet, ready for the next Connect. */
    method HandShake(headSent: bool, info: ServerInfo, startSent: bool, arrivals: seq<Arrival>, waiting: seq<Text>,
                     pending: seq<Text>, closeFails: bool)
      returns (fate: Fate, e: Ending, n: nat)
      requires L.FreshEpoch(View()) && done == Some(false) && !disconnectOnce && |waiting| <= L.MSG_CAP
      modifies this
      ensures var starts := Starts(headSent, info, startSent);
        && (fate == Returns(Nil) <==> (starts && e.Confirmed?) || (headSent && info.EndOfStream?))
        && (fate.Listens? <==> starts && e.Waiting?)
        && (fate.Hangs? <==> starts && Fails(e) && |waiting| + |pending| > L.MSG_CAP)
        && (fate == Returns(AlreadyConnected) <==> starts && e.Aborted? && !fate.Hangs?)
        && (fate == Returns(Unsent) <==>
              !headSent || (info.Frame? && |SplitMsgBytes(info.m)| >= 2 && !startSent))
        && (fate == Returns(Unread) <==> headSent && info.Unreadable?)
        && (fate == Returns(Unwound) <==>
              (headSent && info.Frame? && |SplitMsgBytes(info.m)| < 2) || (starts && e.Panicked? && !fate.Hangs?))
        && (starts ==> Ends(arrivals, e, n) && interpreted == old(interpreted) + Reaching(arrivals[..n]))
        && (!starts ==> View() == old(View()) && callbacks == old(callbacks) && interpreted == old(interpreted))
        && (starts && !Fails(e) ==>
              && View() == old(View()).(connected := e.Confirmed?, wg := 1, msgChan := waiting)
              && serverVersion == MsgId(info.m))
        && (!starts && headSent && info.Frame? && |SplitMsgBytes(info.m)| >= 2 ==> serverVersion == MsgId(info.m))
        && (!headSent || !info.Frame? || |SplitMsgBytes(info.m)| < 2 ==> serverVersion == old(serverVersion))
        && (starts && e.Confirmed? ==> callbacks == old(callbacks) + [ConnectAck])
        && (starts && e.Waiting? ==> callbacks == old(callbacks))
        && (starts && e.Aborted? ==>
              callbacks == old(callbacks) + [Error(NO_VALID_ID, ALREADY_CONNECTED, None)]
                           + (if fate.Hangs? then [] else [ConnectionClosed]))
        && (starts && e.Panicked? ==>
              callbacks == old(callbacks) + (if fate.Hangs? then [] else [ConnectionClosed]))
        && (fate.Hangs? ==>
              && |View().msgChan| == L.MSG_CAP && View().wg == 1 && View().termClosed && !View().sockOpen
              && !View().doneClosed)
        && (starts && Fails(e) && !fate.Hangs? ==> L.Quiet(View()) && View().doneClosed && serverVersion == -1)
    {
      assert !state.Connected? && wg == 0;
      hide SplitMsgBytes, MsgId, Ends, Reaching, View;
      e, n := Waiting, 0;
      if !headSent {
        return Returns(Unsent), e, n;
      }
      match info
      case EndOfStream => return Returns(Nil), e, n;
      case Unreadable => return Returns(Unread), e, n;
      case Frame(m) =>
        var serverInfo := SplitMsgBytes(m);
        if |serverInfo| < 2 {
          return Returns(Unwound), e, n;
        }
        serverVersion := MsgId(m);
        if !startSent {
          return Returns(Unsent), e, n;
        }
        fate, e, n := Listen(arrivals, waiting, pending, closeFails);
    }

    /** The confirm loop, and the deferred Disconnect if it fails. */
    method Listen(arrivals: seq<Arrival>, waiting: seq<Text>, pending: seq<Text>, closeFails: bool)
      returns (fate: Fate, e: Ending, n: nat)
      requires L.FreshEpoch(View()) && done == Some(false) && !disconnectOnce && |waiting| <= L.MSG_CAP
      modifies this
      ensures fate == FateOf(e, |waiting| + |pending|) && Ends(arrivals, e, n)
      ensures interpreted == old(interpreted) + Reaching(arrivals[..n])
      ensures e.Confirmed? ==> callbacks == old(callbacks) + [ConnectAck]
      ensures e.Waiting? ==> callbacks == old(callbacks)
      ensures e.Aborted? ==> callbacks == old(callbacks) + [Error(NO_VALID_ID, ALREADY_CONNECTED, None)]
                                          + (if fate.Hangs? then [] else [ConnectionClosed])
      ensures e.Panicked? ==> callbacks == old(callbacks) + (if fate.Hangs? then [] else [ConnectionClosed])
      ensures !Fails(e) ==> View() == old(View()).(connected := e.Confirmed?, wg := 1, msgChan := waiting)
      ensures !Fails(e) ==> serverVersion == old(serverVersion)
      ensures fate.Hangs? ==>
        View() == Closed(old(View()).(wg := 1), closeFails).(msgChan := (waiting + pending)[..L.MSG_CAP])
      ensures Fails(e) && !fate.Hangs? ==> L.Quiet(View()) && View().doneClosed && serverVersion == -1
    {
      assert !state.Connected?;
      hide View, Ends, Reaching, Closed;
      e, n := Await(arrivals, waiting);
      if Fails(e) {
        var gone := Abandon(closeFails, pending);
        return if !gone then Hangs else Returns(if e.Aborted? then AlreadyConnected else Unwound), e, n;
      }
      return if e.Confirmed? then Returns(Nil) else Listens, e, n;
    }

    /** Start the receiver and confirm. */
    method Await(arrivals: seq<Arrival>, waiting: seq<Text>) returns (e: Ending, n: nat)
      requires !state.Connected?
      modifies `wg, `state, `callbacks, `interpreted, `msgChan
      ensures Ends(arrivals, e, n) && interpreted == old(interpreted) + Reaching(arrivals[..n])
      ensures e.Confirmed? ==> callbacks == old(callbacks) + [ConnectAck]
      ensures e.Aborted? ==> callbacks == old(callbacks) + [Error(NO_VALID_ID, ALREADY_CONNECTED, None)]
      ensures e.Waiting? || e.Panicked? ==> callbacks == old(callbacks)
      ensures View() == old(View()).(connected := e.Confirmed?, wg := old(wg) + 1, msgChan := waiting)
    {
      hide Ends, Reaching;
      wg := wg + 1;
      e, n := Confirm(arrivals);
      msgChan := waiting;
    }

    /** The deferred Disconnect of a handshake whose receiver is the only worker. */
    method Abandon(closeFails: bool, pending: seq<Text>) returns (gone: bool)
      requires wg == 1 && |msgChan| <= L.MSG_CAP && done.Some? && !disconnectOnce
      modifies this
      ensures gone <==> |old(msgChan)| + |pending| <= L.MSG_CAP
      ensures interpreted == old(interpreted)
      ensures gone ==> View() == TornDown(old(View()), closeFails)
      ensures gone ==> callbacks == old(callbacks) + [ConnectionClosed] && serverVersion == -1
      ensures !gone ==> callbacks == old(callbacks)
      ensures !gone ==> View() == Closed(old(View()), closeFails).(msgChan := (old(msgChan) + pending)[..L.MSG_CAP])
    {
      hide View, Closed;
      disconnectOnce := true;
      CloseDown(closeFails);
      gone := AwaitReceiver(pending);
      if gone {
        WrapUp();
      }
    }

    /** wg.Wait while the closed socket ends the receiver's scan: it pushes what it has at hand, and leaves. */
    method AwaitReceiver(pending: seq<Text>) returns (gone: bool)
      requires wg == 1 && |msgChan| <= L.MSG_CAP
      modifies `wg, `msgChan
      ensures gone <==> |old(msgChan)| + |pending| <= L.MSG_CAP
      ensures gone ==> View() == old(View()).(wg := 0, msgChan := old(msgChan) + pending)
      ensures !gone ==> View() == old(View()).(msgChan := (old(msgChan) + pending)[..L.MSG_CAP])
    {
      for i := 0 to |pending|
        invariant wg == 1 && |old(msgChan)| + i <= L.MSG_CAP && msgChan == old(msgChan) + pending[..i]
      {
        if |msgChan| >= L.MSG_CAP {
          return false;
        }
        msgChan := msgChan + [pending[i]];
      }
      wg := wg - 1;
      return true;
    }

    /** Run starts the requester and the decoder on a confirmed connection only. */
    method Run() returns (r: Option<int64>)
      modifies `wg, `callbacks
      ensures View() == if state.Connected? then old(View()).(wg := old(wg) + 2) else old(View())
      ensures state.Connected? ==> r.None? && callbacks == old(callbacks)
      ensures !state.Connected? ==>
        r == Some(NOT_CONNECTED) && callbacks == old(callbacks) + [Error(NO_VALID_ID, NOT_CONNECTED, None)]
    {
      if !state.Connected? {
        callbacks := callbacks + [Error(NO_VALID_ID, NOT_CONNECTED, None)];
        return Some(NOT_CONNECTED);
      }
      wg := wg + 2;
      return None;
    }

    method UpdateTws(id: int64, a: Attribute)
      modifies `callbacks
      ensures callbacks == old(callbacks) + [Error(id, UPDATE_TWS, Some(a))]
    {
      callbacks := callbacks + [Error(id, UPDATE_TWS, Some(a))];
    }

    /** The guards up to the leg exemption, before version 52. Without a hit, control falls through into the body of the
        hedge guard. */
    method CheckOldest(id: int64, c: Contract, o: Order) returns (stop: bool)
      requires c.Valid() && o.Valid()
      modifies `callbacks
      ensures serverVersion < SSHORTX ==> stop
      ensures stop ==> serverVersion < SSHORTX
      ensures var a := Some(OldComplaint(serverVersion, c, o));
              callbacks == old(callbacks) + (if stop then [Error(id, UPDATE_TWS, a)] else [])
    {
      var v := serverVersion;
      stop := true;
      if v < DELTA_NEUTRAL && c.deltaNeutral.Some? {
        UpdateTws(id, NeutralContract);
      } else if v < SCALE_ORDERS2 && o.scaleSubs != UNSET {
        UpdateTws(id, ScaleSubs);
      } else if v < ALGO_ORDERS && o.algoStrategy != [] {
        UpdateTws(id, AlgoOrder);
      } else if v < NOT_HELD && o.notHeld {
        UpdateTws(id, HeldFlag);
      } else if v < SEC_ID_TYPE && (c.secType != [] || c.secID != []) {
        UpdateTws(id, SecurityId);
      } else if v < PLACE_ORDER_CONID && c.contractID != UNSET && c.contractID > 0 {
        UpdateTws(id, ContractId);
      } else if v < SSHORTX && o.exemptCode != -1 {
        UpdateTws(id, ExemptCode);
      } else if v < SSHORTX {
        for i := 0 to |c.comboLegs|
          invariant callbacks == old(callbacks) && forall k :: 0 <= k < i ==> c.comboLegs[k].exemptCode == -1
        {
          if c.comboLegs[i].exemptCode != -1 {
            UpdateTws(id, ExemptCode);
            return;
          }
        }
        UpdateTws(id, HedgeOrder);
      } else {
        stop := false;
      }
    }

    /** All the guards before version 66. The last five cases fall through into one another: the first that matches is
        entered, and control runs through the bodies of those after it. */
    method CheckOld(id: int64, c: Contract, o: Order) returns (stop: bool)
      requires c.Valid() && o.Valid()
      modifies `callbacks
      ensures stop <==> serverVersion < DELTA_NEUTRAL_OPEN_CLOSE
      ensures var a := Some(OldComplaint(serverVersion, c, o));
              callbacks == old(callbacks) + (if stop then [Error(id, UPDATE_TWS, a)] else [])
    {
      var v := serverVersion;
      stop := CheckOldest(id, c, o);
      if stop {
        return;
      }
      if v < HEDGE_ORDERS && o.hedgeType != [] {
        UpdateTws(id, HedgeOrder);
        return true;
      }
      if v < OPT_OUT_SMART_ROUTING && o.optOut {
        UpdateTws(id, OptOut);
        return true;
      }
      var entry := if v < DELTA_NEUTRAL_CONID then 0
                   else if v < DELTA_NEUTRAL_OPEN_CLOSE then 1
                   else if v < SCALE_ORDERS3 then 2
                   else if v < ORDER_COMBO_LEGS_PRICE && c.secType == BAG then 3
                   else if v < TRAILING_PERCENT && o.trailingPercent != UNSETFLOAT then 4
                   else 5;
      if entry == 5 {
        return false;
      }
      if entry == 0 && NeutralIdsSet(o) {
        UpdateTws(id, NeutralIds);
        return true;
      }
      if entry <= 1 && NeutralOpenCloseSet(o) {
        UpdateTws(id, NeutralOpenClose);
        return true;
      }
      if entry <= 2 && ScaleParametersSet(o) {
        UpdateTws(id, ScaleParameters);
        return true;
      }
      if entry <= 3 {
        for i := 0 to |o.orderComboLegs|
          invariant callbacks == old(callbacks) && forall k :: 0 <= k < i ==> o.orderComboLegs[k] == UNSETFLOAT
        {
          if o.orderComboLegs[i] != UNSETFLOAT {
            UpdateTws(id, LegPrices);
            return true;
          }
        }
      }
      UpdateTws(id, TrailingPercent);
      return true;
    }

    /** The guards from version 66 on, in order: first those up to the model code. */
    method CheckNew(id: int64, c: Contract, o: Order) returns (stop: bool)
      requires c.Valid() && o.Valid() && serverVersion >= DELTA_NEUTRAL_OPEN_CLOSE
      modifies `callbacks
      ensures stop <==> Unsupported(serverVersion, c, o)
      ensures var a := FirstViolated(serverVersion, c, o, 0);
              callbacks == old(callbacks) + (if a.Some? then [Error(id, UPDATE_TWS, a)] else [])
    {
      var v := serverVersion;
      ghost var a := FirstViolated(v, c, o, 0);
      OldGuardsPass(v, c, o);
      NextGuards5(v, c, o, 14);
      hide FirstViolated;
      stop := true;
      if v < TRADING_CLASS && c.tradingClass != [] {
        UpdateTws(id, TradingClass);
      } else if v < SCALE_TABLE && (o.scaleTable != [] || o.activeStart != [] || o.activeStop != []) {
        UpdateTws(id, ScaleTable);
      } else if v < ALGO_ID && o.algoID != [] {
        UpdateTws(id, AlgoId);
      } else if v < ORDER_SOLICITED && o.solicited {
        UpdateTws(id, Solicited);
      } else if v < MODELS_SUPPORT && o.modelCode != [] {
        UpdateTws(id, ModelCode);
      } else {
        stop := CheckNewer(id, c, o);
      }
    }

    method CheckNewer(id: int64, c: Contract, o: Order) returns (stop: bool)
      requires c.Valid() && o.Valid()
      modifies `callbacks
      ensures stop <==> UnsupportedLater(serverVersion, o)
      ensures var a := FirstViolated(serverVersion, c, o, 19);
              callbacks == old(callbacks) + (if a.Some? then [Error(id, UPDATE_TWS, a)] else [])
    {
      var v := serverVersion;
      ghost var a := FirstViolated(v, c, o, 19);
      NextGuards5(v, c, o, 19);
      hide FirstViolated;
      stop := true;
      if v < EXT_OPERATOR && o.extOperator != [] {
        UpdateTws(id, ExtOperator);
      } else if v < SOFT_DOLLAR_TIER && (o.tierName != [] || o.tierValue != []) {
        UpdateTws(id, Tier);
      } else if v < CASH_QTY && o.cashQty != UNSETFLOAT {
        UpdateTws(id, CashQty);
      } else if v < DECISION_MAKER && (o.decisionMaker != [] || o.decisionAlgo != []) {
        UpdateTws(id, DecisionMaker);
      } else if v < MIFID_EXECUTION && (o.executionTrader != [] || o.executionAlgo != []) {
        UpdateTws(id, Executor);
      } else {
        stop := CheckNewest(id, c, o);
      }
    }

    /** The last two guards report without returning. */
    method CheckNewest(id: int64, c: Contract, o: Order) returns (stop: bool)
      requires c.Valid() && o.Valid()
      modifies `callbacks
      ensures stop <==> UnsupportedLast(serverVersion, o)
      ensures var a := FirstViolated(serverVersion, c, o, 24);
              callbacks == old(callbacks) + (if a.Some? then [Error(id, UPDATE_TWS, a)] else [])
    {
      var v := serverVersion;
      ghost var a := FirstViolated(v, c, o, 24);
      NextGuards5(v, c, o, 24);
      NoMoreGuards(v, c, o);
      hide FirstViolated;
      stop := true;
      if v < AUTO_PRICE_FOR_HEDGE && o.dontUseAutoPrice {
        UpdateTws(id, AutoPrice);
      } else if v < ORDER_CONTAINER && o.isOms {
        UpdateTws(id, OmsContainer);
      } else if v < PRICE_MGMT_ALGO && o.usePriceMgmt {
        UpdateTws(id, PriceMgmt);
      } else {
        stop := false;
        if v < DURATION && o.duration != UNSET {
          UpdateTws(id, Duration);
        } else if v < POST_TO_ATS && o.postToAts != UNSET {
          UpdateTws(id, PostToAts);
        }
      }
    }

    /** The whole switch: it stops exactly the refused orders and reports at most one error, about the attribute whose
        guard is the first to apply. */
    method Check(id: int64, c: Contract, o: Order) returns (stop: bool)
      requires c.Valid() && o.Valid()
      modifies `callbacks
      ensures stop <==> Refused(serverVersion, c, o)
      ensures var a := Complaint(serverVersion, c, o);
              callbacks == old(callbacks) + (if a.Some? then [Error(id, UPDATE_TWS, a)] else [])
    {
      hide OldComplaint, FirstViolated, Unsupported;
      stop := CheckOld(id, c, o);
      if !stop {
        stop := CheckNew(id, c, o);
      }
    }

    /** PlaceOrder classified for every version and order. A refused order (before version 66: every order) makes
        exactly one Error callback and sends nothing. From 66 to 101 nothing is sent and at most one Error is raised.
        From 102 exactly one message goes to enqueue if and only if the order is not refused: the order's fields,
        framed. */
    method PlaceOrder(fc: FloatCodec, id: int64, c: Contract, o: Order, signalFirst: bool)
      returns (sent: Option<Enqueued>)
      requires c.Valid() && o.Valid()
      modifies `callbacks, `reqChan, `submitted
      ensures sent.Some? <==> serverVersion >= PEGGED_TO_BENCHMARK && !Refused(serverVersion, c, o)
      ensures sent.Some? ==>
                submitted == old(submitted)
                    + [Framed(Terminated(RenderAll(fc, OrderFields(fc, serverVersion, id, c, o))))]
      ensures sent.None? ==> submitted == old(submitted)
      ensures reqChan == if sent == Some(Accepted) then old(reqChan) + submitted[|old(submitted)|..] else old(reqChan)
      ensures callbacks == old(callbacks)
                + (if Complaint(serverVersion, c, o).Some? then [Error(id, UPDATE_TWS, Complaint(serverVersion, c, o))]
                  else [])
                + (if sent == Some(TurnedAway) then [Error(NO_VALID_ID, NOT_CONNECTED, None)] else [])
    {
      hide Refused, Complaint, OrderFields;
      var stop := Check(id, c, o);
      if stop {
        return None;
      }
      var fields := BuildFields(fc, serverVersion, id, c, o);
      if fields.None? {
        return None;
      }
      var msg := MakeMsgBytes(fc, fields.value);
      var r := Enqueue(msg, signalFirst);
      return Some(r);
    }
  }

  /** From version 66 on none of the first fourteen guards applies. */
  lemma OldGuardsPass(v: int, c: Contract, o: Order)
    requires c.Valid() && o.Valid() && v >= DELTA_NEUTRAL_OPEN_CLOSE
    ensures FirstViolated(v, c, o, 0) == FirstViolated(v, c, o, 14)
  {
    forall k | 0 <= k < 14 ensures !Applies(v, c, o, k) {
      hide NeutralIdsSet, NeutralOpenCloseSet, ScaleParametersSet, LegExempt, LegPriced;
    }
    hide Applies, Guard;
    assert FirstViolated(v, c, o, 0) == FirstViolated(v, c, o, 2) == FirstViolated(v, c, o, 4);
    assert FirstViolated(v, c, o, 4) == FirstViolated(v, c, o, 6) == FirstViolated(v, c, o, 8);
    assert FirstViolated(v, c, o, 8) == FirstViolated(v, c, o, 10) == FirstViolated(v, c, o, 12);
    assert FirstViolated(v, c, o, 12) == FirstViolated(v, c, o, 14);
  }

  function OneGuard(v: int, c: Contract, o: Order, k: nat, later: Option<Attribute>): Option<Attribute>
    requires c.Valid() && o.Valid()
  {
    if Applies(v, c, o, k) then Some(Guard(k)) else later
  }

  lemma NextGuards5(v: int, c: Contract, o: Order, k: nat)
    requires c.Valid() && o.Valid() && k + 5 <= GUARDS
    ensures FirstViolated(v, c, o, k)
            == OneGuard(v, c, o, k, OneGuard(v, c, o, k + 1, OneGuard(v, c, o, k + 2, OneGuard(v, c, o, k + 3,
                 OneGuard(v, c, o, k + 4, FirstViolated(v, c, o, k + 5))))))
  {
    hide Applies, Guard;
    assert FirstViolated(v, c, o, k + 3)
      == OneGuard(v, c, o, k + 3, OneGuard(v, c, o, k + 4, FirstViolated(v, c, o, k + 5)));
    assert FirstViolated(v, c, o, k + 1)
      == OneGuard(v, c, o, k + 1, OneGuard(v, c, o, k + 2, FirstViolated(v, c, o, k + 3)));
  }

  lemma NoMoreGuards(v: int, c: Contract, o: Order)
    requires c.Valid() && o.Valid()
    ensures FirstViolated(v, c, o, GUARDS) == None
  {
  }
}
