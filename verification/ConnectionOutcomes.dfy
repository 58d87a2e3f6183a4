/** What the connection comes to, told from the events: when it is closed, what a loss takes
    down, and that attempts, requests and replies go through when nothing is in their way. */
module ConnectionOutcomes {
  import opened Options
  import M = Multiplexers
  import opened Connections
  import opened ConnectionRuns

  // ----- Exactly when the connection is closed -----

  /** The attempt fails because the broker rejected its authentication. */
  predicate FailsAsRejected(c: Conn, e: Event) {
    e == AttemptFails(true) && (c.attempt.Dialing? || c.attempt.Handshake?)
  }

  /** An attempt has failed as rejected and has neither been settled nor, the connection being
      closed, been dropped since. */
  predicate RejectionPending(es: seq<Event>)
    decreases |es|, 0
  {
    es != [] &&
      var c, e, earlier := Run(Init(), es[..|es| - 1]), es[|es| - 1], es[..|es| - 1];
      || FailsAsRejected(c, e)
      || (RejectionPending(earlier) && !e.FailureSettled? && !(e.AttemptDropped? && ClosedBy(earlier)))
  }

  /** The run has a `close`, or settles an attempt that failed as rejected. */
  predicate ClosedBy(es: seq<Event>)
    decreases |es|, 0
  {
    es != [] &&
      var e, earlier := es[|es| - 1], es[..|es| - 1];
      ClosedBy(earlier) || e.CloseBegins? || (e.FailureSettled? && RejectionPending(earlier))
  }

  predicate SettlingRejection(c: Conn) {
    c.attempt.Failing? && c.attempt.rejected
  }

  lemma ClosingStep(c: Conn, e: Event)
    ensures Apply(c, e).closed <==> c.closed || e.CloseBegins? || (e.FailureSettled? && SettlingRejection(c))
    ensures SettlingRejection(Apply(c, e))
      <==> FailsAsRejected(c, e)
           || (SettlingRejection(c) && !e.FailureSettled? && !(e.AttemptDropped? && c.closed))
  {
    if IsOperation(e) {
      OperationsSameControl(c, e);
      hide Apply;
    }
  }

  /** Exactly when the connection is closed: over every run, if and only if `close` was called
      or an attempt the broker rejected was settled. */
  lemma {:induction false} ClosedExactly(es: seq<Event>)
    ensures Run(Init(), es).closed <==> ClosedBy(es)
    ensures SettlingRejection(Run(Init(), es)) <==> RejectionPending(es)
    decreases |es|
  {
    if es != [] {
      ClosedExactly(es[..|es| - 1]);
      hide Apply, SettlingRejection, FailsAsRejected;
      ClosingStep(Run(Init(), es[..|es| - 1]), es[|es| - 1]);
    }
  }

  /** While a rejection is being settled the connection is closed and the attempt's gate is. */
  predicate Rejected(c: Conn) {
    c.attempt.Rejecting? ==> c.closed && c.gate in c.closedGates
  }

  lemma RejectedStep(c: Conn, e: Event)
    requires Rejected(c)
    ensures Rejected(Apply(c, e))
  {
    if IsOperation(e) {
      OperationsSameControl(c, e);
      hide Apply;
    }
  }

  lemma {:induction false} RunKeepsRejected(es: seq<Event>)
    ensures Rejected(Run(Init(), es))
    decreases |es|
  {
    if es != [] {
      RunKeepsRejected(es[..|es| - 1]);
      hide Apply, Rejected;
      RejectedStep(Run(Init(), es[..|es| - 1]), es[|es| - 1]);
    }
  }

  /** A rejected attempt closes the connection and its own gate as soon as it is settled, and
      ends in CLOSED, where no attempt starts any more. */
  lemma RejectionCloses(c: Conn, reconnect: bool)
    requires ReachableAnyhow(c)
    ensures var d := Apply(c, FailureSettled);
      SettlingRejection(c) ==> d.closed && d.gate in d.closedGates && d.attempt == Rejecting
    ensures var d := Apply(c, RejectionSettled);
      c.attempt == Rejecting ==>
        && d.closed && d.state == Closed && d.gate in d.closedGates && d.attempt == NoAttempt
        && Apply(d, Open(reconnect)) == d
  {
    var es :| Run(Init(), es) == c;
    RunKeepsRejected(es);
    hide Run, ReachableAnyhow;
  }

  /** Any other failed attempt leaves the connection open and DISCONNECTED, ready for the
      next one. */
  lemma OtherFailuresDisconnect(c: Conn)
    requires c.attempt.Failing? && !c.attempt.rejected && !c.closed
    ensures var d := Apply(c, FailureSettled); !d.closed && d.state == Disconnected && d.attempt == NoAttempt
  {
  }

  /** The first step of `close`: CLOSED, its gate shut, no session, and nobody left in the
      table. */
  lemma CloseCloses(c: Conn)
    requires !c.closed
    ensures var d := Apply(c, CloseBegins);
      && d.closed && d.state == Closed && d.gate in d.closedGates && d.gate == c.gate
      && !d.mux.connected && !d.mux.version && d.mux.table == map[]
  {
  }

  // ----- What a loss takes down -----

  /** The session is over: its gate is shut, its transport detached, and nobody is left in
      the table. */
  predicate TornDown(c: Conn, d: Conn) {
    && d.state == Disconnected && d.transport == None && c.gate in d.closedGates
    && !d.mux.connected && !d.mux.version && d.mux.table == map[]
  }

  /** A failed read or a second HELLO of the installed transport, and a failed send, each end
      an authenticated session at once. */
  lemma LossTearsDown(c: Conn, t: TransportNo)
    requires ReachableAnyhow(c) && c.state == Authenticated && c.transport == Some(t)
    ensures TornDown(c, Apply(c, Lost)) && TornDown(c, Apply(c, ReceiveRaises(t)))
    ensures c.mux.version ==> TornDown(c, Apply(c, Hello(t)))
  {
    AuthenticatedOnItsOwnHello(c);
    hide ReachableAnyhow;
  }

  /** While an attempt authenticates, a failed read refuses it and tears nothing down; after
      that, or while it restores, a loss is a loss unless the connection is already down. */
  lemma LossDuringAnAttempt(c: Conn, t: TransportNo)
    requires !c.closed && t in c.receiving
    ensures c.state == Authenticating && c.auth == Pending ==>
      Apply(c, ReceiveRaises(t)) == c.(receiving := c.receiving - {t}, auth := Refused)
    ensures
      && c.state !in {Disconnected, Reconnecting, Closed} && c.transport == Some(t)
      && !(c.state == Authenticating && c.auth != NoAuth)
      ==> TornDown(c, Apply(c, ReceiveRaises(t)))
  {
  }

  // ----- Things go through -----

  /** An attempt whose transport is dialled, whose HELLO arrives and whose handshake ends,
      from any state without an attempt, a session or a negotiated version. */
  function Opening(c: Conn, reconnect: bool): Conn {
    var t := c.transports;
    var shaken := Apply(Apply(Apply(Apply(c, Open(reconnect)), Dialed), Hello(t)), HandshakeDone);
    if reconnect then Apply(shaken, RestoreDone) else shaken
  }

  lemma Dials(c: Conn, reconnect: bool)
    requires Control(c) && !c.closed && c.attempt == NoAttempt && !c.mux.version
    ensures var d, t := Apply(Apply(c, Open(reconnect)), Dialed), c.transports;
      && !d.closed && d.attempt == Handshake(t, reconnect) && d.transport == Some(t) && d.receiver == Some(t)
      && t in d.receiving && d.auth == Pending && d.state == Authenticating && d.mux == c.mux
      && d.generation == c.generation && d.sessions == c.sessions && d.gates == c.gates + 1
      && d.closedGates == c.closedGates && d.hello == c.hello && !d.restoring && d.ops == c.ops
  {
  }

  lemma Shakes(c: Conn, t: TransportNo, reconnect: bool)
    requires !c.closed && c.attempt == Handshake(t, reconnect) && c.transport == Some(t) && c.receiver == Some(t)
    requires t in c.receiving && c.auth == Pending && c.state == Authenticating && !c.mux.version
    requires forall g :: g in c.closedGates ==> g < c.gates
    ensures var d := Apply(Apply(c, Hello(t)), HandshakeDone);
      && !d.closed && d.transport == Some(t) && d.receiver == Some(t) && t in d.receiving && d.auth == NoAuth
      && d.generation == c.generation + 1 && d.sessions == c.sessions + [t]
      && d.mux.connected && d.mux.version && d.mux.nextId == 1 && d.mux.session == c.mux.session + 1
      && d.gate !in d.closedGates && d.ops == c.ops
      && (if reconnect then d.attempt == Restoring(t) && d.restoring && d.state == Authenticating
          else d.attempt == NoAttempt && d.state == Authenticated)
  {
  }

  /** Every attempt that meets no failure ends AUTHENTICATED, one generation on, on its own
      transport, with an open gate and ids from 1. */
  lemma AttemptsSucceed(c: Conn, reconnect: bool)
    requires ReachableAnyhow(c) && !c.closed && c.attempt == NoAttempt && !c.mux.version
    ensures var d := Opening(c, reconnect);
      && d.state == Authenticated && d.attempt == NoAttempt && !d.restoring
      && d.transport == Some(c.transports)
      && d.generation == c.generation + 1 && d.sessions == c.sessions + [c.transports]
      && d.mux.connected && d.mux.version && d.mux.nextId == 1 && d.gate !in d.closedGates
  {
    ReachableKeepsRecords(c);
    Dials(c, reconnect);
    var dialed := Apply(Apply(c, Open(reconnect)), Dialed);
    hide Apply, ReachableAnyhow;
    Shakes(dialed, c.transports, reconnect);
    var shaken := Apply(Apply(dialed, Hello(c.transports)), HandshakeDone);
    if reconnect {
      Restores(shaken, c.transports);
    }
  }

  lemma Restores(c: Conn, t: TransportNo)
    requires c.attempt == Restoring(t) && Owns(c, t)
    ensures Apply(c, RestoreDone) == c.(restoring := false, attempt := NoAttempt, state := Authenticated)
  {
  }

  /** A request that may begin, with an open and free gate, is put on the installed transport
      under the next id, and its entry waits for the reply. */
  lemma RequestsGoOut(c: Conn, handle: Option<nat>, t: TransportNo)
    requires MayBegin(c, handle) && M.CanAllocate(c.mux) && c.transport == Some(t)
    ensures var o, r := |c.ops|, |c.mux.requests|;
      var d := Apply(Apply(Apply(c, BeginOp(Request, handle, false)), StartSend(o)), PutFrame(o));
      && d.wire == c.wire + [(o, t)] && |d.ops| == o + 1
      && |d.mux.requests| == r + 1 && d.mux.requests[r].transmitted && d.mux.requests[r].id == c.mux.nextId
      && c.mux.nextId in d.mux.table && d.mux.table[c.mux.nextId] == r
  {
    var o, r := |c.ops|, |c.mux.requests|;
    var begun := Apply(c, BeginOp(Request, handle, false));
    assert begun.ops[o].stage == Starting && begun.ops[o].request == Some(r) && begun.transport == Some(t);
    assert begun.mux == M.Enter(c.mux) && begun.wire == c.wire && |begun.ops| == o + 1;
    assert begun.mux.requests[r] == M.FreshRequest(c.mux);
    var started := Apply(begun, StartSend(o));
    assert started == begun.(ops := started.ops, lookups := started.lookups) && |started.ops| == o + 1;
    assert started.ops[o].stage == Captured(t) && started.ops[o].request == Some(r);
  }

  /** A parked operation whose gate is open is let through and goes the same way. */
  lemma ParkedRequestsGoOn(c: Conn, o: OpNo)
    requires ParkedOpen(c, o) && c.ops[o].kind == Request && M.CanAllocate(c.mux)
    ensures var d := Apply(c, Admit(o));
      && |d.ops| == |c.ops| && d.ops[o].stage == Starting && d.ops[o].request == Some(|c.mux.requests|)
      && d.mux == M.Enter(c.mux) && d.admitted == c.admitted + [o]
  {
  }

  /** A final frame of the installed transport resolves the caller its id finds. */
  lemma RepliesResolve(c: Conn, t: TransportNo, id: nat, payload: M.Payload)
    requires Reads(c, t) && FindsCaller(c.mux, id, true)
    ensures var d, r := Apply(c, ReplyFrame(t, id, payload, true)), c.mux.table[id];
      && |d.mux.requests| == |c.mux.requests|
      && d.mux.requests[r].future == M.Resolved(payload) && d.mux.requests[r].answer == Some(payload)
      && id !in d.mux.table && d.resolved == c.resolved + [(r, t)]
  {
  }

  // ----- What else an event does to the attempt and its transport -----

  /** An attempt that fails, whatever it was doing, and one that finds it no longer owns the
      connection: the multiplexer is unplugged, only its own transport is removed, and the
      attempt cleans up. */
  predicate TakenDown(c: Conn, d: Conn, t: TransportNo, rejected: bool) {
    && d.attempt == Failing(t, rejected) && !d.restoring
    && d.transport == (if c.transport == Some(t) then None else c.transport)
    && !d.mux.connected && !d.mux.version && d.mux.table == map[]
    && d.generation == c.generation && d.closed == c.closed && d.state == c.state && d.closedGates == c.closedGates
  }

  lemma FailedAttemptsAreTakenDown(c: Conn, rejected: bool)
    ensures c.attempt.Dialing? || c.attempt.Handshake? ==>
      TakenDown(c, Apply(c, AttemptFails(rejected)), c.attempt.transport, rejected)
    ensures c.attempt.Restoring? ==> TakenDown(c, Apply(c, AttemptFails(rejected)), c.attempt.transport, false)
    ensures c.attempt.Handshake? && c.auth == Accepted && !Owns(c, c.attempt.transport) ==>
      TakenDown(c, Apply(c, HandshakeDone), c.attempt.transport, false)
    ensures c.attempt.Restoring? && !Owns(c, c.attempt.transport) ==>
      TakenDown(c, Apply(c, RestoreDone), c.attempt.transport, false)
  {
  }

  /** A receive task whose transport is no longer installed, or whose connection is closed,
      ends when it next looks, and changes nothing else. */
  lemma StaleReceiversStop(c: Conn, t: TransportNo, id: nat, payload: M.Payload, final: bool)
    requires c.closed || c.transport != Some(t)
    ensures var ended := c.(receiving := c.receiving - {t});
      && Apply(c, ReceiverReturns(t)) == ended && Apply(c, Hello(t)) == ended
      && Apply(c, ReplyFrame(t, id, payload, final)) == ended
  {
  }

  /** A reply nobody asked for is a failure of the receive task. */
  lemma UnknownRepliesAreFailures(c: Conn, t: TransportNo, id: nat, payload: M.Payload, final: bool)
    requires Reads(c, t) && id !in c.mux.table
    ensures Apply(c, ReplyFrame(t, id, payload, final)) == Apply(c, ReceiveRaises(t))
    ensures t !in Apply(c, ReceiveRaises(t)).receiving
  {
  }

  /** The remaining steps of the lifecycle. */
  lemma LifecycleGoesOn(c: Conn, reconnect: bool)
    ensures c.closed ==> Apply(c, CloseDetaches) == c.(transport := None)
    ensures !c.closed ==> Apply(c, ReconnectPause) == c.(state := Reconnecting)
    ensures !c.closed ==> Apply(c, ReconnectExhausted) == c.(state := Disconnected)
    ensures !c.closed && c.attempt == NoAttempt ==>
      Apply(c, Open(reconnect)).state == (if reconnect then Reconnecting else Connecting)
    ensures c.closed ==> Apply(c, ReconnectPause) == c && Apply(c, ReconnectExhausted) == c
  {
  }

  // ----- What an event does to operations -----

  /** Where an operation of this kind stands once it is let through. */
  function LetThrough(c: Conn, kind: Kind): Stage {
    match kind
    case Request => if c.mux.version && c.mux.nextId <= M.LAST_ID then Starting else Ended
    case OneWay(correlated) =>
      if c.transport == None || (correlated && c.mux.nextId > M.LAST_ID) then Ended else Captured(c.transport.value)
  }

  /** Where operation `o` stands after the event. */
  function NextStage(c: Conn, op: Op, o: OpNo, e: Event): Stage {
    match op.stage
    case Parked(gate) =>
      if e == Admit(o) && gate !in c.closedGates then LetThrough(c, op.kind) else if e == EndOp(o) then Ended else op.stage
    case Starting =>
      if e != StartSend(o) then op.stage
      else if c.transport == None then Ended else Captured(c.transport.value)
    case Captured(t) =>
      if e == PutFrame(o) then Sent(t)
      else if e == EndOp(o) && op.kind.OneWay? then Ended
      else if e.SendDone? && e.o == o && op.request.Some? && e.result != M.Delivered then Ended
      else op.stage
    case _ => op.stage
  }

  /** Every event moves every operation exactly as its own stage says, and nothing else. */
  lemma StagesFollow(c: Conn, e: Event, o: OpNo)
    requires o < |c.ops|
    ensures var d := Apply(c, e);
      && o < |d.ops| && d.ops[o].stage == NextStage(c, c.ops[o], o, e)
      && d.ops[o].kind == c.ops[o].kind && d.ops[o].handle == c.ops[o].handle
  {
    if e.Admit? || e.BeginOp? || e.BeginUngated? {
      BeginningMoves(c, e, o);
    } else if !IsOperation(e) {
      OthersMoveNobody(c, e);
    } else {
      SendingMoves(c, e, o);
    }
    hide Apply;
  }

  lemma BeginningMoves(c: Conn, e: Event, o: OpNo)
    requires o < |c.ops| && (e.Admit? || e.BeginOp? || e.BeginUngated?)
    ensures var d := Apply(c, e);
      && o < |d.ops| && d.ops[o].stage == NextStage(c, c.ops[o], o, e)
      && d.ops[o].kind == c.ops[o].kind && d.ops[o].handle == c.ops[o].handle
  {
    if e.Admit? {
      AdmittingMoves(c, e.o, o);
      hide AdmitStep, NextStage;
    } else {
      var op := if e.BeginOp? then Op(e.kind, e.handle, Parked(c.gate), 0, None) else Op(Request, None, Ended, 0, None);
      IssueMovesOne(AddOp(c, op), |c.ops|, o);
      hide Issue, LetThrough;
    }
  }

  lemma AdmittingMoves(c: Conn, i: OpNo, o: OpNo)
    requires o < |c.ops|
    ensures var d := AdmitStep(c, i);
      && o < |d.ops| && d.ops[o].stage == NextStage(c, c.ops[o], o, Admit(i))
      && d.ops[o].kind == c.ops[o].kind && d.ops[o].handle == c.ops[o].handle
  {
    if i < |c.ops| { IssueMovesOne(c, i, o); }
    hide Issue, LetThrough;
  }

  lemma SendingMoves(c: Conn, e: Event, o: OpNo)
    requires o < |c.ops| && (e.StartSend? || e.PutFrame? || e.SendDone? || e.EndOp? || e.Caller?)
    ensures var d := Apply(c, e);
      && o < |d.ops| && d.ops[o].stage == NextStage(c, c.ops[o], o, e)
      && d.ops[o].kind == c.ops[o].kind && d.ops[o].handle == c.ops[o].handle
  {
    hide M.TransmitStep, M.SendDoneStep, M.Apply;
    if e.SendDone? {
      ResultMoves(c, e.o, e.result, o);
      hide SendDoneStep;
    }
  }

  lemma ResultMoves(c: Conn, i: OpNo, result: M.Send, o: OpNo)
    requires o < |c.ops|
    ensures var d := SendDoneStep(c, i, result);
      && o < |d.ops| && d.ops[o].stage == NextStage(c, c.ops[o], o, SendDone(i, result))
      && d.ops[o].kind == c.ops[o].kind && d.ops[o].handle == c.ops[o].handle
  {
    hide M.SendDoneStep;
  }

  lemma IssueMovesOne(c: Conn, i: OpNo, o: OpNo)
    requires i < |c.ops| && o < |c.ops|
    ensures var d := Issue(c, i);
      && |d.ops| == |c.ops| && (o != i ==> d.ops[o] == c.ops[o])
      && d.ops[i].stage == LetThrough(c, c.ops[i].kind)
      && d.ops[i].kind == c.ops[i].kind && d.ops[i].handle == c.ops[i].handle
      && (d.ops[i].stage == Starting ==> d.ops[i].request == Some(|c.mux.requests|))
      && d.wire == c.wire
  {
    hide M.Enter, M.OneWayStep;
    if c.ops[i].kind == Request {
      var d := Issue(c, i);
      assert d.ops == c.ops[i := d.ops[i]] && d.wire == c.wire;
    } else {
      OneWayMovesOne(c.(admitted := c.admitted + [i]), i, c.ops[i].kind.correlated);
      hide SendOneWay;
    }
  }

  lemma OneWayMovesOne(c: Conn, i: OpNo, correlated: bool)
    requires i < |c.ops|
    ensures var d := SendOneWay(c, i, correlated);
      && d.ops == c.ops[i := d.ops[i]] && d.wire == c.wire
      && d.ops[i].kind == c.ops[i].kind && d.ops[i].handle == c.ops[i].handle
      && d.ops[i].stage == (if c.transport == None then Ended else Captured(c.transport.value))
  {
    hide M.OneWayStep;
  }

  lemma OthersMoveNobody(c: Conn, e: Event)
    requires !IsOperation(e)
    ensures Apply(c, e).ops == c.ops && Apply(c, e).wire == c.wire && Apply(c, e).admitted == c.admitted
  {
    hide M.DisconnectStep, M.Restart, M.NegotiateStep, Dispatch, FindsCaller;
    match e {
      case Hello(t) => ReceivingMovesNobody(c, t);
      case ReceiveRaises(t) => ReceivingMovesNobody(c, t);
      case ReplyFrame(t, _, _, _) => ReceivingMovesNobody(c, t);
      case _ =>
    }
    hide HelloStep, ReceiveRaisesStep;
  }

  lemma ReceivingMovesNobody(c: Conn, t: TransportNo)
    ensures var d := HelloStep(c, t); d.ops == c.ops && d.wire == c.wire && d.admitted == c.admitted
    ensures var d := ReceiveRaisesStep(c, t); d.ops == c.ops && d.wire == c.wire && d.admitted == c.admitted
  {
    hide M.DisconnectStep, M.NegotiateStep;
  }

  /** What `request` and `send` ask before they let an operation begin. */
  lemma BeginsExactly(c: Conn, kind: Kind, handle: Option<nat>, waits: bool)
    ensures |Apply(c, BeginOp(kind, handle, waits)).ops| == |c.ops| + 1
      <==> && !c.closed && (c.state == Authenticated || c.restoring) && c.gate !in c.closedGates
           && (handle == None || handle.value == c.generation)
    ensures |Apply(c, BeginOp(kind, handle, waits)).ops| == |c.ops| + 1 ==>
      Apply(c, BeginOp(kind, handle, waits)).ops[|c.ops|].handle == handle
  {
    var n := AddOp(c, Op(kind, handle, Parked(c.gate), 0, None));
    IssueMovesOne(n, |c.ops|, |c.ops|);
    hide Issue;
  }

  /** What an operation that begins is: parked if the gate is full, and let through if not. */
  lemma NewOperationsFollow(c: Conn, kind: Kind, handle: Option<nat>, waits: bool)
    requires MayBegin(c, handle)
    ensures var d := Apply(c, BeginOp(kind, handle, waits));
      && |d.ops| == |c.ops| + 1 && d.ops[|c.ops|].kind == kind && d.ops[|c.ops|].handle == handle
      && d.ops[|c.ops|].stage == (if waits then Parked(c.gate) else LetThrough(c, kind))
  {
    var n := AddOp(c, Op(kind, handle, Parked(c.gate), 0, None));
    IssueMovesOne(n, |c.ops|, |c.ops|);
    hide Issue;
  }

  /** A frame is on the wire exactly if its operation put it there, on the transport it took. */
  lemma FramesFollow(c: Conn, e: Event)
    ensures Apply(c, e).wire ==
      c.wire + (if e.PutFrame? && e.o < |c.ops| && c.ops[e.o].stage.Captured? then [(e.o, c.ops[e.o].stage.transport)]
                else [])
  {
    assert c.wire + [] == c.wire;
    if e.Admit? && e.o < |c.ops| {
      IssueMovesOne(c, e.o, e.o);
      hide Issue;
    } else if e.BeginOp? {
      IssueMovesOne(AddOp(c, Op(e.kind, e.handle, Parked(c.gate), 0, None)), |c.ops|, |c.ops|);
      hide Issue;
    } else if e.BeginUngated? {
      IssueMovesOne(AddOp(c, Op(Request, None, Ended, 0, None)), |c.ops|, |c.ops|);
      hide Issue;
    } else if !IsOperation(e) {
      OthersMoveNobody(c, e);
      hide Apply;
    }
  }

  /** The send results and the callers' own steps reach the multiplexer. */
  lemma SendResultsReachTheMultiplexer(c: Conn, o: OpNo, result: M.Send)
    requires o < |c.ops| && c.ops[o].request.Some? && c.ops[o].stage != Starting
    requires result == M.Delivered ==> c.ops[o].stage.Sent?
    ensures Apply(c, SendDone(o, result)).mux == M.Apply(c.mux, M.SendDone(c.ops[o].request.value, result))
  {
  }

  lemma CallersReachTheMultiplexer(c: Conn, e: M.Event)
    requires e.Interrupted? || e.ResumeSend? || e.ResumeAwait?
    ensures Apply(c, Caller(e)) == c.(mux := M.Apply(c.mux, e))
  {
  }
}
