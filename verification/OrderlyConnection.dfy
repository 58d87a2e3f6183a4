/** Runs of the connection in which attempts, reconnect loop and broker keep to an order, and
    what such runs never do. */
module OrderlyConnections {
  import opened Options
  import M = Multiplexers
  import opened Connections
  import opened ConnectionRuns
  import opened MultiplexerUse

  // ----- Orderly runs -----

  ghost predicate NoneStarting(c: Conn) {
    forall o :: 0 <= o < |c.ops| ==> c.ops[o].stage != Starting
  }

  /** What an orderly run asks of each event: an attempt starts only with no session up and
      no send task still to take its first step (asyncio starts tasks in the order they were
      created); the reconnect loop changes the state only with no session up and no attempt
      under way; only `close` cancels an attempt while it restores; and the broker answers
      only requests that it was sent. */
  ghost predicate Orderly(c: Conn, e: Event) {
    match e
    case Open(_) => !c.mux.connected && NoneStarting(c)
    case ReconnectPause => !c.mux.connected && c.attempt == NoAttempt
    case ReconnectExhausted => !c.mux.connected && c.attempt == NoAttempt
    case AttemptFails(_) => c.attempt.Restoring? ==> c.closed
    case ReplyFrame(_, id, _, _) =>
      id in c.mux.table && c.mux.table[id] < |c.mux.requests| ==> c.mux.requests[c.mux.table[id]].transmitted
    case _ => true
  }

  ghost predicate OrderlyRun(es: seq<Event>) {
    es == [] || (OrderlyRun(es[..|es| - 1]) && Orderly(Run(Init(), es[..|es| - 1]), es[|es| - 1]))
  }

  /** While a session is up its transport is installed, and the state is AUTHENTICATED or an
      attempt is restoring; a restore that lost its session finds gate and version gone. */
  ghost predicate Session(c: Conn) {
    && (c.mux.connected ==>
          && c.mux.version && OnItsOwnHello(c) && c.auth == NoAuth
          && (if c.attempt == NoAttempt then c.state == Authenticated
              else c.attempt.Restoring? && c.state == Authenticating))
    && (c.state == Authenticated ==> c.mux.connected)
    && (c.restoring && !c.mux.connected && !c.closed ==> c.transport == None && c.gate in c.closedGates && !c.mux.version)
    && (c.attempt.Handshake? ==>
          && c.auth != NoAuth && c.receiver == Some(c.attempt.transport)
          && (c.auth == Accepted ==> c.mux.version || c.transport == None || c.closed)
          && (c.state == Authenticating || c.state == Disconnected || c.closed))
  }

  lemma AttemptKeepsSession(c: Conn)
    requires Control(c) && Session(c)
    ensures Session(HandshakeDoneStep(c)) && Session(RestoreDoneStep(c))
  {
  }

  lemma OpenKeepsSession(c: Conn, reconnect: bool)
    requires Control(c) && Session(c) && !c.mux.connected
    ensures Session(OpenStep(c, reconnect))
  {
  }

  lemma DialedKeepsSession(c: Conn)
    requires Control(c) && Session(c)
    ensures Session(DialedStep(c))
  {
  }

  lemma AttemptFailsKeepsSession(c: Conn, rejected: bool)
    requires Control(c) && Session(c)
    ensures Session(AttemptFailsStep(c, rejected))
  {
  }

  lemma SettlingKeepsSession(c: Conn)
    requires Control(c) && Session(c)
    ensures Session(FailureSettledStep(c)) && Session(RejectionSettledStep(c)) && Session(AttemptDroppedStep(c))
  {
  }

  lemma PauseKeepsSession(c: Conn, state: State)
    requires Session(c) && !c.mux.connected && c.attempt == NoAttempt && (state == Reconnecting || state == Disconnected)
    ensures Session(SetState(c, state))
  {
  }

  lemma LossKeepsSession(c: Conn)
    requires Control(c) && Session(c)
    ensures Session(LostStep(c)) && Session(CloseBeginsStep(c))
  {
  }

  lemma ReceiveRaisesKeepsSession(c: Conn, t: TransportNo)
    requires Control(c) && Session(c)
    ensures Session(ReceiveRaisesStep(c, t)) && Session(ReceiverReturnsStep(c, t))
  {
  }

  lemma HelloKeepsSession(c: Conn, t: TransportNo)
    requires Control(c) && Session(c)
    ensures Session(HelloStep(c, t))
  {
    ReceiveRaisesKeepsSession(c, t);
    hide ReceiveRaisesStep, ReceiverReturnsStep;
  }

  lemma DetachKeepsSession(c: Conn)
    requires Control(c) && Session(c)
    ensures Session(CloseDetachesStep(c))
  {
  }

  lemma OrderlyKeepsSession(c: Conn, e: Event)
    requires Control(c) && Session(c) && Orderly(c, e) && !IsOperation(e)
    requires e.ReplyFrame? ==> !(Reads(c, e.t) && e.id in c.mux.table)
    ensures Session(Apply(c, e))
  {
    hide Control, Session, OpenStep, DialedStep, HandshakeDoneStep, RestoreDoneStep, AttemptFailsStep;
    hide FailureSettledStep, RejectionSettledStep, AttemptDroppedStep, HelloStep, ReceiveRaisesStep;
    hide ReceiverReturnsStep, LostStep, CloseBeginsStep, CloseDetachesStep, SetState;
    match e {
      case Open(reconnect) => OpenKeepsSession(c, reconnect);
      case Dialed => DialedKeepsSession(c);
      case HandshakeDone => AttemptKeepsSession(c);
      case RestoreDone => AttemptKeepsSession(c);
      case AttemptFails(rejected) => AttemptFailsKeepsSession(c, rejected);
      case FailureSettled => SettlingKeepsSession(c);
      case RejectionSettled => SettlingKeepsSession(c);
      case AttemptDropped => SettlingKeepsSession(c);
      case ReconnectPause => PauseKeepsSession(c, Reconnecting);
      case ReconnectExhausted => PauseKeepsSession(c, Disconnected);
      case Hello(t) => HelloKeepsSession(c, t);
      case ReceiveRaises(t) => ReceiveRaisesKeepsSession(c, t);
      case ReceiverReturns(t) => ReceiveRaisesKeepsSession(c, t);
      case ReplyFrame(t, id, payload, final) => ReceiveRaisesKeepsSession(c, t);
      case Lost => LossKeepsSession(c);
      case CloseBegins => LossKeepsSession(c);
      case CloseDetaches => DetachKeepsSession(c);
      case _ =>
    }
  }

  lemma SameControlKeepsSession(c: Conn, d: Conn)
    requires Session(c) && SameControl(c, d) && d.mux.connected == c.mux.connected
    ensures Session(d)
  {
  }

  /** An operation that gets past `_ensure_authenticated` finds the session up, or a gate and
      a multiplexer that both refuse. */
  lemma UsableMeansUp(c: Conn)
    requires Session(c) && Usable(c)
    ensures c.mux.connected || (c.gate in c.closedGates && !c.mux.version)
  {
  }

  // ----- The stages of operations in orderly runs -----

  /** The operation was issued in a generation, and its handle is of that generation. */
  predicate Issued(c: Conn, op: Op) {
    1 <= op.issuedIn <= |c.sessions| && (op.handle.Some? ==> op.handle.value == op.issuedIn)
  }

  ghost predicate StageInv(c: Conn, op: Op) {
    match op.stage
    case Parked(g) =>
      && g < c.gates
      && (g !in c.closedGates ==>
            c.mux.connected && g == c.gate && (op.handle.Some? ==> op.handle.value == c.generation))
    case Starting => Issued(c, op) && AbsentOr(c, c.sessions[op.issuedIn - 1])
    case _ => true
  }

  ghost predicate Stages(c: Conn) {
    forall o :: 0 <= o < |c.ops| ==> StageInv(c, c.ops[o])
  }

  /** Gates may be added or closed and the transport may go, but a gate that stays open keeps
      its session, and no send task is to look up a new transport. */
  ghost predicate Beside(c: Conn, d: Conn) {
    && d.ops == c.ops && d.generation == c.generation && d.sessions == c.sessions
    && c.gates <= d.gates && c.closedGates <= d.closedGates
    && (c.mux.connected ==> (d.mux.connected && d.gate == c.gate) || c.gate in d.closedGates)
    && (d.transport == c.transport || d.transport == None || NoneStarting(c))
  }

  lemma BesideKeepsStages(c: Conn, d: Conn)
    requires Stages(c) && Beside(c, d)
    ensures Stages(d)
  {
    forall o | 0 <= o < |d.ops|
      ensures StageInv(d, d.ops[o])
    {
      assert StageInv(c, c.ops[o]);
    }
  }

  lemma EstablishKeepsStages(c: Conn, d: Conn, t: TransportNo)
    requires Stages(c) && !c.mux.connected && c.transport == Some(t) && t !in c.sessions
    requires d.ops == c.ops && d.sessions == c.sessions + [t] && d.transport == c.transport
    requires d.gates == c.gates && d.closedGates == c.closedGates
    ensures Stages(d)
  {
    forall o | 0 <= o < |d.ops|
      ensures StageInv(d, d.ops[o])
    {
      assert StageInv(c, c.ops[o]);
    }
  }

  lemma OpenIsBeside(c: Conn, reconnect: bool)
    requires !c.mux.connected && NoneStarting(c)
    ensures Beside(c, OpenStep(c, reconnect))
  {
  }

  lemma LossIsBeside(c: Conn)
    ensures Beside(c, LostStep(c)) && Beside(c, CloseBeginsStep(c)) && Beside(c, CloseDetachesStep(c))
  {
  }

  lemma DownIsBeside(c: Conn, rejected: bool)
    requires !c.mux.connected
    ensures Beside(c, AttemptFailsStep(c, rejected))
  {
  }

  lemma QuietIsBeside(c: Conn, e: Event)
    requires e.Dialed? || e.FailureSettled? || e.RejectionSettled? || e.AttemptDropped? || e.ReconnectPause?
      || e.ReconnectExhausted?
    ensures Beside(c, Apply(c, e))
  {
    if e.FailureSettled? || e.RejectionSettled? {
      SettlingIsBeside(c, e);
      hide Apply;
    } else if e.ReconnectPause? || e.ReconnectExhausted? {
      assert Apply(c, e) == c.(state := Apply(c, e).state);
      hide Apply;
    }
  }

  lemma SettlingIsBeside(c: Conn, e: Event)
    requires e.FailureSettled? || e.RejectionSettled?
    ensures Beside(c, Apply(c, e))
  {
    var d := Apply(c, e);
    assert d == c.(state := d.state, closed := d.closed, closedGates := d.closedGates, attempt := d.attempt);
    hide Apply;
  }

  lemma ReceivingIsBeside(c: Conn, t: TransportNo)
    requires c.mux.connected ==> c.mux.version
    ensures Beside(c, ReceiverReturnsStep(c, t)) && Beside(c, ReceiveRaisesStep(c, t)) && Beside(c, HelloStep(c, t))
  {
    LossIsBeside(c.(receiving := c.receiving - {t}));
    hide LostStep;
  }

  lemma HandshakeKeepsStages(c: Conn)
    requires Control(c) && Session(c) && Stages(c)
    ensures Stages(HandshakeDoneStep(c))
  {
    if c.attempt.Handshake? && c.auth == Accepted {
      var t, d := c.attempt.transport, c.(auth := NoAuth);
      assert !c.mux.connected;
      hide Stages;
      if Owns(d, t) {
        EstablishKeepsStages(c, HandshakeDoneStep(c), t);
      } else {
        assert Beside(c, Abort(d, t, false));
        BesideKeepsStages(c, Abort(d, t, false));
      }
    }
  }

  /** While its session is up, a restoring attempt still owns the connection. */
  lemma RestoringOwns(c: Conn)
    requires Control(c) && Session(c) && c.attempt.Restoring? && c.mux.connected
    ensures Owns(c, c.attempt.transport)
  {
  }

  lemma RestoreIsBeside(c: Conn)
    requires Control(c) && Session(c)
    ensures Beside(c, RestoreDoneStep(c))
  {
    if c.attempt.Restoring? && c.mux.connected {
      RestoringOwns(c);
    }
  }

  lemma FailingIsBeside(c: Conn, rejected: bool)
    requires Control(c) && Session(c) && (c.attempt.Restoring? ==> c.closed)
    ensures Beside(c, AttemptFailsStep(c, rejected))
  {
    if c.mux.connected {
      assert AttemptFailsStep(c, rejected) == c;
    } else {
      DownIsBeside(c, rejected);
    }
  }

  lemma OrderlyKeepsStages(c: Conn, e: Event)
    requires Control(c) && Session(c) && Stages(c) && Orderly(c, e) && !IsOperation(e)
    requires e.ReplyFrame? ==> !(Reads(c, e.t) && e.id in c.mux.table)
    ensures Stages(Apply(c, e))
  {
    assert c.mux.connected ==> c.mux.version;
    hide Control, Session, Stages, Beside, OpenStep, DialedStep, HandshakeDoneStep, RestoreDoneStep;
    hide AttemptFailsStep, HelloStep, ReceiveRaisesStep, ReceiverReturnsStep, LostStep, CloseBeginsStep;
    hide CloseDetachesStep;
    match e {
      case Open(reconnect) => OpenIsBeside(c, reconnect);
      case HandshakeDone => HandshakeKeepsStages(c);
      case RestoreDone => RestoreIsBeside(c);
      case AttemptFails(rejected) => FailingIsBeside(c, rejected);
      case Hello(t) => ReceivingIsBeside(c, t);
      case ReceiveRaises(t) => ReceivingIsBeside(c, t);
      case ReceiverReturns(t) => ReceivingIsBeside(c, t);
      case ReplyFrame(t, id, payload, final) => ReceivingIsBeside(c, t);
      case Lost => LossIsBeside(c);
      case CloseBegins => LossIsBeside(c);
      case CloseDetaches => LossIsBeside(c);
      case _ => QuietIsBeside(c, e);
    }
    if !e.HandshakeDone? {
      BesideKeepsStages(c, Apply(c, e));
    }
  }

  // ----- Operations in orderly runs -----

  lemma IssueKeepsStages(c: Conn, o: OpNo)
    requires Control(c) && Session(c) && Stages(c) && o < |c.ops|
    requires c.mux.connected || (c.ops[o].kind == Request && !c.mux.version)
    requires c.ops[o].handle.Some? ==> c.ops[o].handle.value == c.generation
    ensures Stages(Issue(c, o))
  {
    var d := Issue(c, o);
    IssueMoves(c, o);
    hide Issue;
    if c.mux.connected {
      assert CurrentTransport(c, c.transport.value);
    }
    forall p | 0 <= p < |d.ops|
      ensures StageInv(d, d.ops[p])
    {
      assert StageInv(c, c.ops[p]);
    }
  }

  /** What issuing operation `o` changes. */
  predicate Moves(c: Conn, d: Conn, o: OpNo) {
    && o < |c.ops| == |d.ops|
    && d == c.(mux := d.mux, ops := d.ops, lookups := d.lookups, admitted := d.admitted)
    && d.ops == c.ops[o := d.ops[o]] && d.ops[o].handle == c.ops[o].handle && !d.ops[o].stage.Parked?
    && (d.ops[o].stage == Starting ==> d.ops[o].issuedIn == c.generation && c.mux.version)
    && d.mux.connected == c.mux.connected
  }

  lemma EnlistMoves(c: Conn, o: OpNo)
    requires o < |c.ops|
    ensures Moves(c, EndOf(c, o), o) && (c.mux.version ==> Moves(c, Enlist(c, o), o))
  {
  }

  lemma SendOneWayMoves(c: Conn, o: OpNo, correlated: bool)
    requires o < |c.ops|
    ensures Moves(c, SendOneWay(c, o, correlated), o)
  {
  }

  lemma IssueMoves(c: Conn, o: OpNo)
    requires o < |c.ops|
    ensures Moves(c, Issue(c, o), o)
  {
    var let := c.(admitted := c.admitted + [o]);
    EnlistMoves(let, o);
    SendOneWayMoves(let, o, c.ops[o].kind.OneWay? && c.ops[o].kind.correlated);
    hide Enlist, SendOneWay, EndOf;
  }

  lemma NewOpKeepsStages(c: Conn, op: Op)
    requires Stages(c) && StageInv(c, op)
    ensures Stages(AddOp(c, op))
  {
    var d := AddOp(c, op);
    forall o | 0 <= o < |d.ops|
      ensures StageInv(d, d.ops[o])
    {
      assert o < |c.ops| ==> StageInv(c, c.ops[o]);
    }
  }

  /** Session and stages together. */
  ghost predicate Tidy(c: Conn) {
    Session(c) && Stages(c)
  }

  lemma IssueKeepsTidy(c: Conn, o: OpNo)
    requires Control(c) && Tidy(c) && o < |c.ops|
    requires c.mux.connected || (c.ops[o].kind == Request && !c.mux.version)
    requires c.ops[o].handle.Some? ==> c.ops[o].handle.value == c.generation
    ensures Tidy(Issue(c, o))
  {
    IssueKeepsStages(c, o);
    IssueMoves(c, o);
    IssueSameControl(c, o);
    hide Stages, Session, Issue, Control;
    SameControlKeepsSession(c, Issue(c, o));
  }

  lemma AddOpKeepsTidy(c: Conn, op: Op)
    requires Control(c) && Tidy(c) && StageInv(c, op)
    ensures Control(AddOp(c, op)) && Tidy(AddOp(c, op))
  {
    NewOpKeepsStages(c, op);
    hide Stages, Session, Control;
    SameControlKeepsSession(c, AddOp(c, op));
    SameControlKeeps(c, AddOp(c, op));
  }

  lemma BeginKeepsTidy(c: Conn, kind: Kind, handle: Option<nat>, waits: bool)
    requires Control(c) && Tidy(c)
    ensures Tidy(BeginOpStep(c, kind, handle, waits)) && Tidy(BeginUngatedStep(c))
  {
    if Usable(c) {
      UsableMeansUp(c);
      var op, u := Op(kind, handle, Parked(c.gate), 0, None), Op(Request, None, Ended, 0, None);
      assert c.gate < c.gates;
      assert StageInv(c, u) && (MayBegin(c, handle) ==> StageInv(c, op));
      hide Tidy, Control, Issue, StageInv;
      AddOpKeepsTidy(c, u);
      IssueKeepsTidy(AddOp(c, u), |c.ops|);
      if MayBegin(c, handle) {
        AddOpKeepsTidy(c, op);
        if !waits {
          IssueKeepsTidy(AddOp(c, op), |c.ops|);
        }
      }
    }
  }

  lemma AdmitKeepsTidy(c: Conn, o: OpNo)
    requires Control(c) && Tidy(c)
    ensures Tidy(AdmitStep(c, o))
  {
    if ParkedOpen(c, o) {
      assert StageInv(c, c.ops[o]);
      hide Tidy, Control, Issue;
      IssueKeepsTidy(c, o);
    }
  }

  /** One operation's stage changes, to one that asks for nothing. */
  lemma StageMoves(c: Conn, d: Conn, o: OpNo, op: Op)
    requires Tidy(c) && o < |c.ops| && (op.stage.Captured? || op.stage.Sent? || op.stage.Ended?)
    requires d == c.(ops := c.ops[o := op], mux := d.mux, lookups := d.lookups, wire := d.wire)
    requires SameControl(c, d) && d.mux.connected == c.mux.connected
    ensures Tidy(d)
  {
    SameControlKeepsSession(c, d);
    hide Session;
    forall p | 0 <= p < |d.ops|
      ensures StageInv(d, d.ops[p])
    {
      assert StageInv(c, c.ops[p]);
    }
  }

  lemma NewMuxKeepsTidy(c: Conn, m: M.Mux)
    requires Tidy(c) && SameControl(c, c.(mux := m)) && m.connected == c.mux.connected
    ensures Tidy(c.(mux := m))
  {
    var d := c.(mux := m);
    SameControlKeepsSession(c, d);
    hide Session;
    forall p | 0 <= p < |d.ops|
      ensures StageInv(d, d.ops[p])
    {
      assert StageInv(c, c.ops[p]);
    }
  }

  lemma SendingKeepsTidy(c: Conn, o: OpNo)
    requires Tidy(c)
    ensures Tidy(StartSendStep(c, o)) && Tidy(EndOpStep(c, o)) && Tidy(PutFrameStep(c, o))
  {
    if o < |c.ops| {
      SendingSameControl(c, o);
      hide Tidy, SameControl;
      if StartSendStep(c, o) != c { StageMoves(c, StartSendStep(c, o), o, StartSendStep(c, o).ops[o]); }
      if EndOpStep(c, o) != c { StageMoves(c, EndOpStep(c, o), o, EndOpStep(c, o).ops[o]); }
      if PutFrameStep(c, o) != c { StageMoves(c, PutFrameStep(c, o), o, PutFrameStep(c, o).ops[o]); }
    }
  }

  /** Send results and the callers' own steps leave the multiplexer connected or not. */
  lemma CallersLeaveConnected(m: M.Mux, e: M.Event)
    requires e.Interrupted? || e.ResumeSend? || e.ResumeAwait? || e.SendDone?
    ensures M.Apply(m, e).connected == m.connected
  {
  }

  lemma CompletingKeepsTidy(c: Conn, o: OpNo, result: M.Send, e: M.Event)
    requires Tidy(c)
    ensures Tidy(SendDoneStep(c, o, result)) && Tidy(CallerStep(c, e))
  {
    CompletingSameControl(c, o, result, e);
    if e.Interrupted? || e.ResumeSend? || e.ResumeAwait? {
      CallersLeaveConnected(c.mux, e);
      hide Tidy, SameControl, M.Apply;
      NewMuxKeepsTidy(c, M.Apply(c.mux, e));
    }
    SendDoneKeepsTidy(c, o, result);
  }

  lemma SendDoneKeepsTidy(c: Conn, o: OpNo, result: M.Send)
    requires Tidy(c)
    ensures Tidy(SendDoneStep(c, o, result))
  {
    CompletingSameControl(c, o, result, M.Connect);
    if o < |c.ops| && c.ops[o].request.Some? {
      var e := M.SendDone(c.ops[o].request.value, result);
      var m := M.SendDoneStep(c.mux, c.ops[o].request.value, result);
      assert M.Apply(c.mux, e) == m;
      CallersLeaveConnected(c.mux, e);
      hide Tidy, SameControl, M.Apply, M.SendDoneStep;
      var d := SendDoneStep(c, o, result);
      if d != c {
        if c.ops[o].stage.Captured? {
          StageMoves(c, d, o, d.ops[o]);
        } else {
          NewMuxKeepsTidy(c, m);
        }
      }
    }
  }

  lemma DispatchLeavesConnected(m: M.Mux, id: nat, payload: M.Payload, final: bool)
    requires id in m.table
    ensures Dispatch(m, id, payload, final).connected == m.connected
  {
  }

  lemma DispatchKeepsTidy(c: Conn, t: TransportNo, id: nat, payload: M.Payload, final: bool)
    requires Tidy(c) && Reads(c, t) && id in c.mux.table
    ensures Tidy(ReplyFrameStep(c, t, id, payload, final))
  {
    var m, d := Dispatch(c.mux, id, payload, final), ReplyFrameStep(c, t, id, payload, final);
    DispatchingSameControl(c, t, id, payload, final);
    DispatchLeavesConnected(c.mux, id, payload, final);
    assert d == c.(mux := m, resolved := d.resolved);
    hide Dispatch, ReplyFrameStep;
    NewMuxKeepsTidy(c, m) by { assert SameControl(c, c.(mux := m)); }
    TidyIgnoresResolved(c.(mux := m), d);
  }

  lemma TidyIgnoresResolved(c: Conn, d: Conn)
    requires Tidy(c) && d == c.(resolved := d.resolved)
    ensures Tidy(d)
  {
    assert SameControl(c, d);
    SameControlKeepsSession(c, d);
    hide Session;
    forall p | 0 <= p < |d.ops|
      ensures StageInv(d, d.ops[p])
    {
      assert StageInv(c, c.ops[p]);
    }
  }

  lemma TidyKept(c: Conn, e: Event)
    requires Control(c) && Tidy(c) && Orderly(c, e)
    ensures Tidy(Apply(c, e))
  {
    if e.ReplyFrame? && Reads(c, e.t) && e.id in c.mux.table {
      hide Tidy, Control, ReplyFrameStep;
      DispatchKeepsTidy(c, e.t, e.id, e.payload, e.final);
    } else if !IsOperation(e) {
      hide Session, Stages, Control, Apply;
      OrderlyKeepsSession(c, e);
      OrderlyKeepsStages(c, e);
    } else {
      OperationsKeepTidy(c, e);
    }
  }

  lemma OperationsKeepTidy(c: Conn, e: Event)
    requires Control(c) && Tidy(c) && IsOperation(e)
    ensures Tidy(Apply(c, e))
  {
    hide Tidy, Control, BeginOpStep, BeginUngatedStep, AdmitStep, StartSendStep, EndOpStep, PutFrameStep;
    hide SendDoneStep, CallerStep;
    match e {
      case BeginOp(kind, handle, waits) => BeginKeepsTidy(c, kind, handle, waits);
      case BeginUngated => BeginKeepsTidy(c, Request, None, false);
      case Admit(o) => AdmitKeepsTidy(c, o);
      case StartSend(o) => SendingKeepsTidy(c, o);
      case EndOp(o) => SendingKeepsTidy(c, o);
      case PutFrame(o) => SendingKeepsTidy(c, o);
      case SendDone(o, result) => CompletingKeepsTidy(c, o, result, M.Connect);
      case Caller(f) => CompletingKeepsTidy(c, 0, M.InFlight, f);
      case _ =>
    }
  }

  // ----- What orderly runs keep apart -----

  /** Orderly runs never misuse the multiplexer. */
  lemma OrderlyUse(c: Conn, e: Event)
    requires Control(c) && Tidy(c) && M.Reachable(c.mux) && Orderly(c, e)
    ensures !Misuses(c, e)
  {
    M.ReachableKeepsInv(c.mux);
    hide M.Inv, M.Reachable;
    if NumbersRequest(c, e) {
      if e.Admit? {
        assert StageInv(c, c.ops[e.o]);
      } else {
        UsableMeansUp(c);
      }
    }
  }

  lemma TidyHasNoStaleLookup(c: Conn, e: Event)
    requires Control(c) && Records(c) && Tidy(c)
    ensures !StaleLookup(c, e)
  {
    var o := NewLookup(c, e);
    if o.Some? && o.value < |c.ops| && c.ops[o.value].handle.Some? {
      assert StageInv(c, c.ops[o.value]);
      if e.StartSend? {
        OwnTransportExactly(c, c.ops[o.value].handle.value);
      }
    }
  }

  lemma TidyHasNoStrayReply(c: Conn, e: Event)
    requires Control(c) && Tidy(c) && M.Reachable(c.mux)
    ensures !StrayReply(c, e)
  {
    var r := NewResolution(c, e);
    if r.Some? && r.value < |c.mux.requests| {
      DispatchIsReply(c.mux, e.id, e.payload, e.final);
    }
  }

  lemma {:induction false} OrderlyRunKeeps(es: seq<Event>)
    requires OrderlyRun(es)
    ensures var c := Run(Init(), es);
      Control(c) && Records(c) && Tidy(c) && FenceKept(c) && IsolationKept(c) && M.Reachable(c.mux)
    decreases |es|
  {
    RunKeepsRecords(es);
    if es == [] {
      FreshIsReachable();
    } else {
      var c, e := Run(Init(), es[..|es| - 1]), es[|es| - 1];
      OrderlyRunKeeps(es[..|es| - 1]);
      hide Control, Records, Tidy, FenceKept, IsolationKept, StaleLookup, StrayReply, Orderly, Apply, Misuses, M.Reachable;
      OrderlyUse(c, e);
      UseStep(c, e);
      TidyKept(c, e);
      TidyHasNoStaleLookup(c, e);
      TidyHasNoStrayReply(c, e);
      FenceStep(c, e);
      IsolationStep(c, e);
    }
  }

  /** Reachable by an orderly run. */
  ghost predicate Reachable(c: Conn) {
    exists es :: OrderlyRun(es) && Run(Init(), es) == c
  }

  lemma ReachableKeeps(c: Conn)
    requires Reachable(c)
    ensures Control(c) && Records(c) && Tidy(c) && FenceKept(c) && IsolationKept(c) && M.Reachable(c.mux)
    ensures ReachableAnyhow(c)
  {
    var es :| OrderlyRun(es) && Run(Init(), es) == c;
    OrderlyRunKeeps(es);
    hide Control, Records, Tidy, FenceKept, IsolationKept, Run, OrderlyRun;
  }

  /** `t` is the transport of generation `h` and of no other. */
  predicate TransportOfOnly(c: Conn, h: nat, t: TransportNo) {
    && 1 <= h <= c.generation == |c.sessions|
    && c.sessions[h - 1] == t
    && forall k :: 0 <= k < |c.sessions| && k != h - 1 ==> c.sessions[k] != t
  }

  /** In orderly runs an operation of a handle made in generation `h` only ever puts its
      frame on the transport of generation `h`, which is the transport of no other
      generation, however long it was parked in a gate meanwhile. */
  lemma HandlesAreFenced(c: Conn, i: nat, h: nat)
    requires Reachable(c) && i < |c.wire|
    requires c.wire[i].0 < |c.ops| && c.ops[c.wire[i].0].handle == Some(h)
    ensures TransportOfOnly(c, h, c.wire[i].1)
  {
    hide Reachable, Tidy, Attempts, IsolationKept, ReachableAnyhow;
    ReachableKeeps(c);
    assert c.wire[i] in c.lookups;
    var k :| 0 <= k < |c.lookups| && c.lookups[k] == c.wire[i];
    assert OwnLookup(c, c.lookups[k]);
  }

  /** Orderly runs use the multiplexer as its own theorems assume: its state is one that
      `Multiplexers` reaches. */
  lemma DrivesItsMultiplexer(c: Conn)
    requires Reachable(c)
    ensures M.Reachable(c.mux) && c.mux.session == c.generation
  {
    hide Reachable, Attempts, Records, FenceKept, IsolationKept, ReachableAnyhow, M.Reachable;
    ReachableKeeps(c);
  }

  /** In orderly runs a frame of one session's transport resolves only requests issued in
      that session; a caller waiting for its reply has its entry in the table of the session
      that is up, or was evicted from it; and while no session is up the table is empty. */
  lemma SessionsAreIsolated(c: Conn)
    requires Reachable(c)
    ensures IsolationKept(c)
    ensures forall r :: 0 <= r < |c.mux.requests| && M.Waiting(c.mux.requests[r]) ==>
      (c.mux.requests[r].dropped != M.Evicted <==> M.InTable(c.mux, r))
    ensures forall r: M.RequestNo :: M.InTable(c.mux, r) ==> c.mux.connected && c.mux.requests[r].session == c.generation
    ensures !c.mux.connected ==> c.mux.table == map[]
  {
    hide Reachable, M.Reachable, IsolationKept;
    ReachableKeeps(c);
    M.ReachableKeepsInv(c.mux);
    forall r | 0 <= r < |c.mux.requests| && M.Waiting(c.mux.requests[r])
      ensures c.mux.requests[r].dropped != M.Evicted <==> M.InTable(c.mux, r)
    {
      M.WaitingIsInTableUnlessEvicted(c.mux, r);
    }
    forall r: M.RequestNo | M.InTable(c.mux, r)
      ensures c.mux.connected && c.mux.requests[r].session == c.generation
    {
      assert M.Live(c.mux, c.mux.table[c.mux.requests[r].id]);
    }
  }

  /** After an orderly run that ends closed, no operation ever gets past admission, whatever
      follows. */
  lemma ClosedAdmitsNobody(c: Conn, es: seq<Event>)
    requires Reachable(c) && c.closed
    ensures Run(c, es).admitted == c.admitted
  {
    hide Reachable, Records, FenceKept, IsolationKept, M.Reachable, ReachableAnyhow;
    ReachableKeeps(c);
    assert forall o :: 0 <= o < |c.ops| ==> StageInv(c, c.ops[o]);
    assert !c.mux.connected;
    assert forall o: OpNo :: !ParkedOpen(c, o);
    hide Tidy, Control;
    NobodyParkedNobodyAdmitted(c, es);
  }
}
