/** Runs that go wrong: a frame of a handle goes out in a later generation because its send task
    starts too late, or because the reconnect loop works over a live session; a reply crosses
    sessions, an operation is admitted after close, and a request is numbered too early. */
module StaleHandles {
  import opened Options
  import M = Multiplexers
  import opened Connections
  import opened ConnectionRuns

  lemma RunUnfolds(c: Conn, es: seq<Event>, e: Event)
    ensures Run(c, es + [e]) == Apply(Run(c, es), e)
  {
    assert (es + [e])[..|es|] == es;
  }

  lemma RunOfFour(c: Conn, e0: Event, e1: Event, e2: Event, e3: Event)
    ensures Run(c, [e0, e1, e2, e3]) == Apply(Apply(Apply(Apply(c, e0), e1), e2), e3)
  {
    RunUnfolds(c, [], e0);
    RunUnfolds(c, [e0], e1);
    RunUnfolds(c, [e0, e1], e2);
    RunUnfolds(c, [e0, e1, e2], e3);
    assert Run(c, []) == c;
    hide Run, Apply;
    assert [] + [e0] == [e0] && [e0] + [e1] == [e0, e1] && [e0, e1] + [e2] == [e0, e1, e2];
    assert [e0, e1, e2] + [e3] == [e0, e1, e2, e3];
  }

  lemma RunOfThree(c: Conn, e0: Event, e1: Event, e2: Event)
    ensures Run(c, [e0, e1, e2]) == Apply(Apply(Apply(c, e0), e1), e2)
  {
    RunUnfolds(c, [], e0);
    RunUnfolds(c, [e0], e1);
    RunUnfolds(c, [e0, e1], e2);
    assert Run(c, []) == c;
    hide Run, Apply;
    assert [] + [e0] == [e0] && [e0] + [e1] == [e0, e1] && [e0, e1] + [e2] == [e0, e1, e2];
  }

  lemma {:induction false} RunAppends(c: Conn, es: seq<Event>, fs: seq<Event>)
    ensures Run(c, es + fs) == Run(Run(c, es), fs)
    decreases |fs|
  {
    if fs == [] {
      assert es + fs == es;
    } else {
      var front := fs[..|fs| - 1];
      RunAppends(c, es, front);
      assert es + fs == (es + front) + [fs[|fs| - 1]];
      RunUnfolds(c, es + front, fs[|fs| - 1]);
    }
  }

  const OPENING := [Open(false), Dialed, Hello(0), HandshakeDone]

  const FIRST_MUX := M.Mux(true, true, 1, 1, map[], [], [])

  const SESSION_ONE := Conn(Authenticated, false, false, 1, Some(0), 1, 2, 3, {}, Some(0), {0}, NoAuth, NoAttempt,
                            FIRST_MUX, [], [0], {0}, [], [], [], [])

  lemma SessionOneOpens()
    ensures Run(Init(), OPENING) == SESSION_ONE
  {
    RunOfFour(Init(), Open(false), Dialed, Hello(0), HandshakeDone);
    hide Run;
    var c := Apply(Apply(Init(), Open(false)), Dialed);
    assert c == Conn(Authenticating, false, false, 0, Some(0), 1, 1, 2, {}, Some(0), {0}, Pending,
                     Handshake(0, false), M.Init(), [], [], {}, [], [], [], []);
    var d := Apply(c, Hello(0));
    assert d.hello == {0} && d.sessions == [];
  }

  // ----- A send task that starts late -----

  const LATE_SEND := [BeginOp(Request, Some(1), false), Lost, Open(false), StartSend(0)]
  const REOPENING := [PutFrame(0), Dialed, Hello(1), HandshakeDone]

  const ASKED := M.Request(1, 1, M.Open, false, false, M.InFlight, M.NoInterrupt, M.Sending, false, None, M.Kept)

  const STARTING_OP := Op(Request, Some(1), Starting, 1, Some(0))

  const STARTED := SESSION_ONE.(mux := M.Mux(true, true, 1, 2, map[1 := 0], [ASKED], []), ops := [STARTING_OP], admitted := [0])

  const LOST := STARTED.(state := Disconnected, transport := None, closedGates := {2},
                         mux := M.Mux(false, false, 1, 2, map[], [ASKED.(future := M.Failed)], []))

  const LATE := LOST.(state := Connecting, transport := Some(1), transports := 2, gate := 3, gates := 4,
                      attempt := Dialing(1, false), ops := [STARTING_OP.(stage := Captured(1))], lookups := [(0, 1)])

  /** Were a send task to take its first step only after the next attempt has installed its
      transport, a frame of a handle of generation 1 would go out in generation 2: the fence
      rests on the order in which tasks start. */
  lemma LateSendTaskBreaksTheFence()
    ensures var c := Run(Init(), OPENING + LATE_SEND + REOPENING);
      c.wire == [(0, 1)] && |c.ops| == 1 && c.ops[0].handle == Some(1) && c.sessions == [0, 1]
  {
    RunAppends(Init(), OPENING + LATE_SEND, REOPENING);
    RunAppends(Init(), OPENING, LATE_SEND);
    SessionOneOpens();
    LateSendCaptures();
    LateSendReopens();
    hide Run;
  }

  lemma LateSendCaptures()
    ensures Run(SESSION_ONE, LATE_SEND) == LATE
  {
    RunOfFour(SESSION_ONE, BeginOp(Request, Some(1), false), Lost, Open(false), StartSend(0));
    LateSendStarts();
    LateSendLoses();
    LateSendFindsSecond();
    hide Run, Apply;
  }

  lemma LateSendStarts()
    ensures Apply(SESSION_ONE, BeginOp(Request, Some(1), false)) == STARTED
  {
    assert M.Enter(FIRST_MUX) == STARTED.mux;
  }

  lemma LateSendLoses()
    ensures Apply(STARTED, Lost) == LOST
  {
    assert M.DisconnectStep(STARTED.mux).requests == [ASKED.(future := M.Failed)];
    assert M.DisconnectStep(STARTED.mux) == LOST.mux;
  }

  lemma LateSendFindsSecond()
    ensures Apply(Apply(LOST, Open(false)), StartSend(0)) == LATE
  {
  }

  lemma LateSendReopens()
    ensures var c := Run(LATE, REOPENING);
      c.wire == [(0, 1)] && |c.ops| == 1 && c.ops[0].handle == Some(1) && c.sessions == [0, 1]
  {
    RunOfFour(LATE, PutFrame(0), Dialed, Hello(1), HandshakeDone);
    hide Run;
    var c := Apply(LATE, PutFrame(0));
    assert c.wire == [(0, 1)] && c.ops == [STARTING_OP.(stage := Sent(1))];
    var d := Apply(c, Dialed);
    assert d.attempt == Handshake(1, false) && d.transport == Some(1) && d.receiver == Some(1) && 1 in d.receiving;
    assert d.ops == c.ops && d.wire == c.wire && d.sessions == [0] && d.auth == Pending && !d.mux.version && !d.closed;
  }

  // ----- A reconnect loop over a live session -----

  const SECOND_SESSION := [Lost, Open(false), Dialed, Hello(1)]

  function LoopStarts(kind: Kind): seq<Event> {
    [HandshakeDone, BeginOp(kind, Some(2), true), ReconnectPause, Open(true)]
  }

  const LOOP_FAILS := [Dialed, Hello(2), AttemptFails(false), FailureSettled]
  const LOOP_REOPENS := [Open(true), Dialed, Hello(3), Admit(0)]
  const FRAME_GOES_OUT := [StartSend(0), PutFrame(0), HandshakeDone, RestoreDone]

  const SHAKEN := Conn(Authenticating, false, false, 1, Some(1), 2, 4, 5, {2}, Some(1), {0, 1}, Accepted,
                       Handshake(1, false), M.Mux(false, true, 1, 1, map[], [], []), [], [0], {0, 1}, [], [], [], [])

  const PARKED_OP := Op(Request, Some(2), Parked(4), 0, None)
  const PARKED_SEND := PARKED_OP.(kind := OneWay(false))

  const OVER_LIVE := SHAKEN.(state := Reconnecting, generation := 2, transport := Some(2), transports := 3, gate := 5,
                             gates := 6, auth := NoAuth, attempt := Dialing(2, true),
                             mux := M.Mux(true, true, 2, 1, map[], [], []), ops := [PARKED_OP], sessions := [0, 1])

  const FAILED := OVER_LIVE.(state := Disconnected, transport := None, receiver := Some(2), auth := Refused,
                             attempt := NoAttempt, mux := M.Mux(false, false, 2, 1, map[], [], []))

  const REQUESTED := M.Request(2, 1, M.Open, false, false, M.InFlight, M.NoInterrupt, M.Sending, false, None, M.Kept)

  const ADMITTED := FAILED.(state := Authenticating, transport := Some(3), transports := 4, gate := 7, gates := 8,
                            receiver := Some(3), receiving := {0, 1, 3}, auth := Accepted,
                            attempt := Handshake(3, true), hello := {0, 1, 3},
                            mux := M.Mux(false, true, 2, 2, map[1 := 0], [REQUESTED], []),
                            ops := [PARKED_OP.(stage := Starting, issuedIn := 2, request := Some(0))], admitted := [0])

  /** The clean-up of a lost connection starts the reconnect loop last, whatever the state is
      by then.  When the user has reconnected meanwhile, the loop opens a transport over the
      live session and replaces its gate without closing it; the broker's HELLO is refused as
      a repetition, the loop tries once more, and an operation parked in the abandoned gate
      goes out on the new transport: a frame of a handle of generation 2 in generation 3. */
  lemma ReconnectOverALiveSessionBreaksTheFence()
    ensures var c := Run(Init(), OPENING + SECOND_SESSION + LoopStarts(Request) + LOOP_FAILS + LOOP_REOPENS + FRAME_GOES_OUT);
      && c.wire == [(0, 3)] && |c.ops| == 1 && c.ops[0].handle == Some(2) && c.sessions == [0, 1, 3]
      && c.state == Authenticated
  {
    RunAppends(Init(), OPENING + SECOND_SESSION + LoopStarts(Request) + LOOP_FAILS + LOOP_REOPENS, FRAME_GOES_OUT);
    EarlyRequest();
    FrameGoesOut();
    hide Run;
  }

  /** Before that, the request is numbered although no session is up: its entry is in the
      table without one. */
  lemma EarlyRequest()
    ensures Run(Init(), OPENING + SECOND_SESSION + LoopStarts(Request) + LOOP_FAILS + LOOP_REOPENS) == ADMITTED
    ensures !ADMITTED.mux.connected && ADMITTED.mux.table == map[1 := 0]
  {
    RunAppends(Init(), OPENING + SECOND_SESSION + LoopStarts(Request) + LOOP_FAILS, LOOP_REOPENS);
    RunAppends(Init(), OPENING + SECOND_SESSION + LoopStarts(Request), LOOP_FAILS);
    LoopWorksOverLive(Request);
    assert OVER_LIVE.(ops := [PARKED_OP]) == OVER_LIVE;
    LoopFails();
    LoopReopens();
    hide Run;
  }

  lemma LoopWorksOverLive(kind: Kind)
    ensures Run(Init(), OPENING + SECOND_SESSION + LoopStarts(kind)) == OVER_LIVE.(ops := [PARKED_OP.(kind := kind)])
  {
    RunAppends(Init(), OPENING + SECOND_SESSION, LoopStarts(kind));
    RunAppends(Init(), OPENING, SECOND_SESSION);
    SessionOneOpens();
    SecondSessionShakes();
    LoopStartsOverLive(kind);
    hide Run;
  }

  /** When the broker answers that frame before the handshake is over, the reply of generation
      3's transport resolves a request of session 2. */
  lemma ReplyCrossesSessions(payload: M.Payload)
    ensures var es := OPENING + SECOND_SESSION + LoopStarts(Request) + LOOP_FAILS + LOOP_REOPENS;
      var c := Run(Init(), es + [StartSend(0), PutFrame(0), ReplyFrame(3, 1, payload, true)]);
      && |c.mux.requests| == 1 && c.mux.requests[0].session == 2
      && c.mux.requests[0].future == M.Resolved(payload)
      && c.resolved == [(0, 3)] && c.sessions == [0, 1] && !IsolationKept(c)
  {
    var reply := ReplyFrame(3, 1, payload, true);
    RunAppends(Init(), OPENING + SECOND_SESSION + LoopStarts(Request) + LOOP_FAILS + LOOP_REOPENS,
               [StartSend(0), PutFrame(0), reply]);
    EarlyRequest();
    RunOfThree(ADMITTED, StartSend(0), PutFrame(0), reply);
    FrameIsPut();
    FrameIsAnswered(payload);
    hide Run, Apply;
  }

  lemma FrameIsAnswered(payload: M.Payload)
    ensures var c := Apply(SENT, ReplyFrame(3, 1, payload, true));
      && |c.mux.requests| == 1 && c.mux.requests[0].session == 2
      && c.mux.requests[0].future == M.Resolved(payload)
      && c.resolved == [(0, 3)] && c.sessions == [0, 1] && !IsolationKept(c)
  {
    var c := Apply(SENT, ReplyFrame(3, 1, payload, true));
    assert c.resolved == [(0, 3)] && c.sessions == [0, 1] && |c.mux.requests| == 1 && c.mux.requests[0].session == 2;
    assert !OwnReply(c, c.resolved[0]);
  }

  /** A one-way send parked in the abandoned gate is admitted after `close`, which closes only
      the gate of the attempt, and takes that attempt's transport. */
  lemma ClosedConnectionAdmits()
    ensures var es := OPENING + SECOND_SESSION + LoopStarts(OneWay(false));
      var c, d := Run(Init(), es + [CloseBegins]), Run(Init(), es + [CloseBegins] + [Admit(0)]);
      && c.closed && c.admitted == [] && ParkedOpen(c, 0)
      && d.closed && d.admitted == [0] && d.lookups == [(0, 2)]
  {
    var es := OPENING + SECOND_SESSION + LoopStarts(OneWay(false));
    LoopWorksOverLive(OneWay(false));
    RunUnfolds(Init(), es, CloseBegins);
    RunUnfolds(Init(), es + [CloseBegins], Admit(0));
    hide Run;
    CloseLeavesTheGate();
    hide Apply;
  }

  lemma CloseLeavesTheGate()
    ensures var c := Apply(OVER_LIVE.(ops := [PARKED_SEND]), CloseBegins);
      var d := Apply(c, Admit(0));
      && c.closed && c.admitted == [] && ParkedOpen(c, 0)
      && d.closed && d.admitted == [0] && d.lookups == [(0, 2)]
  {
    var c := Apply(OVER_LIVE.(ops := [PARKED_SEND]), CloseBegins);
    assert c.ops == [PARKED_SEND] && c.closedGates == {2, 5} && c.transport == Some(2);
  }

  lemma SecondSessionShakes()
    ensures Run(SESSION_ONE, SECOND_SESSION) == SHAKEN
  {
    RunOfFour(SESSION_ONE, Lost, Open(false), Dialed, Hello(1));
    hide Run;
    SecondSessionDials();
    hide Apply, SESSION_ONE;
    SecondSessionHears();
  }

  const DIALED_AGAIN := SHAKEN.(gate := 3, gates := 4, auth := Pending, mux := SHAKEN.mux.(version := false), hello := {0})

  lemma SecondSessionHears()
    ensures Apply(DIALED_AGAIN, Hello(1)) == SHAKEN
  {
  }

  lemma SecondSessionDials()
    ensures Apply(Apply(Apply(SESSION_ONE, Lost), Open(false)), Dialed) == DIALED_AGAIN
  {
    assert M.DisconnectStep(FIRST_MUX) == SHAKEN.mux.(version := false);
    var c := Apply(SESSION_ONE, Lost);
    assert c == SESSION_ONE.(state := Disconnected, transport := None, closedGates := {2}, mux := SHAKEN.mux.(version := false));
  }

  lemma LoopStartsOverLive(kind: Kind)
    ensures Run(SHAKEN, LoopStarts(kind)) == OVER_LIVE.(ops := [PARKED_OP.(kind := kind)])
  {
    RunOfFour(SHAKEN, HandshakeDone, BeginOp(kind, Some(2), true), ReconnectPause, Open(true));
    hide Run;
    var c := Apply(SHAKEN, HandshakeDone);
    assert c == SHAKEN.(state := Authenticated, generation := 2, auth := NoAuth, attempt := NoAttempt,
                        mux := OVER_LIVE.mux, sessions := [0, 1]);
    var d := Apply(c, BeginOp(kind, Some(2), true));
    assert d == c.(ops := [PARKED_OP.(kind := kind)]);
  }

  lemma LoopFails()
    ensures Run(OVER_LIVE, LOOP_FAILS) == FAILED
  {
    RunOfFour(OVER_LIVE, Dialed, Hello(2), AttemptFails(false), FailureSettled);
    hide Run;
    assert M.DisconnectStep(OVER_LIVE.mux) == FAILED.mux;
    var c := Apply(OVER_LIVE, Dialed);
    assert c == OVER_LIVE.(state := Authenticating, receiver := Some(2), receiving := {0, 1, 2}, auth := Pending,
                           attempt := Handshake(2, true));
    var d := Apply(c, Hello(2));
    assert d == c.(receiving := {0, 1}, auth := Refused);
  }

  lemma LoopReopens()
    ensures Run(FAILED, LOOP_REOPENS) == ADMITTED
  {
    RunOfFour(FAILED, Open(true), Dialed, Hello(3), Admit(0));
    hide Run;
    var c := Apply(Apply(FAILED, Open(true)), Dialed);
    assert c == FAILED.(state := Authenticating, transport := Some(3), transports := 4, gate := 6, gates := 7,
                        receiver := Some(3), receiving := {0, 1, 3}, auth := Pending, attempt := Handshake(3, true));
    var d := Apply(c, Hello(3));
    assert d == c.(mux := c.mux.(version := true), gate := 7, gates := 8, hello := {0, 1, 3}, auth := Accepted);
    AbandonedGateAdmits(d);
  }

  lemma AbandonedGateAdmits(d: Conn)
    requires d == ADMITTED.(mux := FAILED.mux.(version := true), ops := [PARKED_OP], admitted := [])
    ensures Apply(d, Admit(0)) == ADMITTED
  {
    assert M.Enter(FAILED.mux.(version := true)) == ADMITTED.mux;
  }

  const SENT := ADMITTED.(ops := [PARKED_OP.(stage := Sent(3), issuedIn := 2, request := Some(0))], lookups := [(0, 3)],
                          wire := [(0, 3)], mux := M.Mux(false, true, 2, 2, map[1 := 0], [REQUESTED.(transmitted := true)], []))

  lemma FrameIsPut()
    ensures Apply(Apply(ADMITTED, StartSend(0)), PutFrame(0)) == SENT
  {
    var c := Apply(ADMITTED, StartSend(0));
    assert c == ADMITTED.(ops := [ADMITTED.ops[0].(stage := Captured(3))], lookups := [(0, 3)]);
    assert M.TransmitStep(ADMITTED.mux, 0).requests == [REQUESTED.(transmitted := true)];
  }

  lemma LoopAuthenticates()
    ensures var c := Apply(Apply(SENT, HandshakeDone), RestoreDone);
      && c.wire == [(0, 3)] && |c.ops| == 1 && c.ops[0].handle == Some(2) && c.sessions == [0, 1, 3]
      && c.state == Authenticated
  {
    var c := Apply(SENT, HandshakeDone);
    assert c.attempt == Restoring(3) && c.transport == Some(3) && c.receiver == Some(3) && 3 in c.receiving && !c.closed;
    assert c.state == Authenticating && c.sessions == [0, 1, 3] && c.ops == SENT.ops && c.wire == SENT.wire;
  }

  lemma FrameGoesOut()
    ensures var c := Run(ADMITTED, FRAME_GOES_OUT);
      && c.wire == [(0, 3)] && |c.ops| == 1 && c.ops[0].handle == Some(2) && c.sessions == [0, 1, 3]
      && c.state == Authenticated
  {
    RunOfFour(ADMITTED, StartSend(0), PutFrame(0), HandshakeDone, RestoreDone);
    FrameIsPut();
    LoopAuthenticates();
    hide Run, Apply;
  }
}
