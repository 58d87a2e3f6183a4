/** What every run of the connection keeps, and exactly when handles and sessions stay fenced
    off from each other. */
module ConnectionRuns {
  import opened Options
  import M = Multiplexers
  import opened Connections

  // ----- What every run keeps -----

  predicate CurrentTransport(c: Conn, t: TransportNo) {
    1 <= c.generation == |c.sessions| && c.sessions[c.generation - 1] == t
  }

  /** The transport of the latest generation is installed, its own HELLO was accepted and its
      receive task is running. */
  predicate OnItsOwnHello(c: Conn) {
    && !c.closed && c.transport.Some? && CurrentTransport(c, c.transport.value)
    && c.transport.value in c.hello && c.transport.value in c.receiving && c.receiver == c.transport
  }

  ghost predicate Numbers(c: Conn) {
    && c.generation == |c.sessions| == c.mux.session
    && c.gate < c.gates
    && (forall g :: g in c.closedGates ==> g < c.gates)
    && (c.transport.Some? ==> c.transport.value < c.transports)
    && (forall i :: 0 <= i < |c.sessions| ==> c.sessions[i] < c.transports)
    && (forall i, j :: 0 <= i < j < |c.sessions| ==> c.sessions[i] != c.sessions[j])
    && (forall t :: t in c.hello ==> t < c.transports)
    && (forall t :: t in c.receiving ==> t < c.transports)
  }

  /** An attempt that is dialling or shaking hands has installed its own transport. */
  predicate Replaced(c: Conn) {
    c.attempt.Dialing? || c.attempt.Handshake?
  }

  predicate AbsentOr(c: Conn, t: TransportNo) {
    c.transport == None || c.transport == Some(t)
  }

  ghost predicate Attempts(c: Conn) {
    && c.restoring == c.attempt.Restoring?
    && (c.closed ==> !c.mux.version && c.state != Authenticated)
    && (!c.mux.version ==> c.mux.table == map[])
    && (c.state == Authenticated ==> c.attempt == NoAttempt && OnItsOwnHello(c))
    && match c.attempt
       case NoAttempt => c.transport == None || CurrentTransport(c, c.transport.value)
       case Restoring(t) => CurrentTransport(c, t) && AbsentOr(c, t) && t in c.hello
       case Dialing(t, _) => t < c.transports && t !in c.sessions && AbsentOr(c, t)
       case Handshake(t, _) =>
         && t < c.transports && t !in c.sessions && AbsentOr(c, t)
         && (c.auth == Accepted ==> t in c.hello)
       case Failing(_, _) => c.transport == None && !c.mux.version
       case Rejecting => c.transport == None && c.closed
  }

  ghost predicate Control(c: Conn) {
    Numbers(c) && Attempts(c)
  }

  lemma OpenKeepsControl(c: Conn, reconnect: bool)
    requires Control(c)
    ensures Control(OpenStep(c, reconnect))
  {
  }

  lemma DialedKeepsControl(c: Conn)
    requires Control(c)
    ensures Control(DialedStep(c))
  {
  }

  lemma AbortKeepsControl(c: Conn, t: TransportNo, rejected: bool)
    requires Control(c)
    requires c.attempt.Dialing? || c.attempt.Handshake? || c.attempt.Restoring?
    requires t == c.attempt.transport
    ensures Control(Abort(c, t, rejected))
  {
  }

  lemma EstablishKeepsNumbers(c: Conn, t: TransportNo)
    requires Numbers(c) && t < c.transports && t !in c.sessions
    ensures Numbers(Establish(c, t)) && CurrentTransport(Establish(c, t), t)
  {
  }

  lemma HandshakeDoneKeepsControl(c: Conn)
    requires Control(c)
    ensures Control(HandshakeDoneStep(c))
  {
    if c.attempt.Handshake? && c.auth == Accepted {
      var t, d := c.attempt.transport, c.(auth := NoAuth);
      assert Control(d);
      if Owns(d, t) {
        EstablishKeepsNumbers(d, t);
      } else {
        AbortKeepsControl(d, t, false);
      }
    }
  }

  lemma RestoreDoneKeepsControl(c: Conn)
    requires Control(c)
    ensures Control(RestoreDoneStep(c))
  {
    if c.attempt.Restoring? && !Owns(c, c.attempt.transport) {
      AbortKeepsControl(c, c.attempt.transport, false);
    }
  }

  lemma AttemptFailsKeepsControl(c: Conn, rejected: bool)
    requires Control(c)
    ensures Control(AttemptFailsStep(c, rejected))
  {
    if c.attempt.Dialing? || c.attempt.Handshake? {
      AbortKeepsControl(c, c.attempt.transport, rejected);
    } else if c.attempt.Restoring? {
      AbortKeepsControl(c, c.attempt.transport, false);
    }
  }

  lemma FailureSettledKeepsControl(c: Conn)
    requires Control(c)
    ensures Control(FailureSettledStep(c))
  {
    assert Numbers(FailureSettledStep(c));
  }

  lemma EndedAttemptKeepsControl(c: Conn)
    requires Control(c)
    ensures Control(RejectionSettledStep(c)) && Control(AttemptDroppedStep(c))
  {
    assert Numbers(RejectionSettledStep(c)) && Numbers(AttemptDroppedStep(c));
  }

  lemma SetStateKeepsControl(c: Conn, state: State)
    requires Control(c) && state != Authenticated
    ensures Control(SetState(c, state))
  {
  }

  lemma ReceiverReturnsKeepsControl(c: Conn, t: TransportNo)
    requires Control(c)
    ensures Control(ReceiverReturnsStep(c, t))
  {
  }

  lemma LostKeepsControl(c: Conn)
    requires Numbers(c) && (c.state != Authenticated ==> Control(c))
    requires c.state == Authenticated ==> c.attempt == NoAttempt && !c.restoring && !c.closed
    ensures Control(LostStep(c))
  {
    var d := LostStep(c);
    assert Numbers(d);
    assert d == c || (d.transport == None && !d.mux.version && d.mux.table == map[] && d.state != Authenticated);
  }

  lemma ReceiveRaisesKeepsControl(c: Conn, t: TransportNo)
    requires Control(c)
    ensures Control(ReceiveRaisesStep(c, t))
  {
    ReceiverReturnsKeepsControl(c, t);
    if Reads(c, t) {
      var d := c.(receiving := c.receiving - {t});
      assert Numbers(d);
      if c.state == Authenticating && c.auth != NoAuth {
        RefusalKeepsControl(c, d);
      } else {
        LostKeepsControl(d);
      }
      hide LostStep, Numbers, Attempts;
    }
  }

  lemma RefusalKeepsControl(c: Conn, d: Conn)
    requires Control(c) && c.state == Authenticating && Numbers(d) && d == c.(receiving := d.receiving)
    ensures Control(d.(auth := if c.auth == Pending then Refused else c.auth))
  {
  }

  lemma HelloKeepsControl(c: Conn, t: TransportNo)
    requires Control(c)
    ensures Control(HelloStep(c, t))
  {
    ReceiverReturnsKeepsControl(c, t);
    ReceiveRaisesKeepsControl(c, t);
  }

  lemma CloseKeepsControl(c: Conn)
    requires Control(c)
    ensures Control(CloseBeginsStep(c)) && Control(CloseDetachesStep(c))
  {
    assert Numbers(CloseBeginsStep(c)) && Numbers(CloseDetachesStep(c));
  }

  /** Steps that leave the lifecycle alone, and the correlation table empty while there is no
      negotiated version. */
  predicate SameControl(c: Conn, d: Conn) {
    && d == c.(ops := d.ops, mux := d.mux, lookups := d.lookups, wire := d.wire, resolved := d.resolved,
               admitted := d.admitted)
    && d.mux.session == c.mux.session && d.mux.version == c.mux.version
    && (!c.mux.version && c.mux.table == map[] ==> d.mux.table == map[])
  }

  lemma SameControlKeeps(c: Conn, d: Conn)
    requires Control(c) && SameControl(c, d)
    ensures Control(d)
  {
  }

  lemma EnlistSameControl(c: Conn, o: OpNo)
    requires o < |c.ops| && c.mux.version
    ensures SameControl(c, Enlist(c, o))
  {
  }

  lemma SendOneWaySameControl(c: Conn, o: OpNo, correlated: bool)
    requires o < |c.ops|
    ensures SameControl(c, EndOf(c, o)) && SameControl(c, SendOneWay(c, o, correlated))
  {
  }

  lemma IssueSameControl(c: Conn, o: OpNo)
    requires o < |c.ops|
    ensures SameControl(c, Issue(c, o))
  {
    var let := c.(admitted := c.admitted + [o]);
    SendOneWaySameControl(let, o, c.ops[o].kind.OneWay? && c.ops[o].kind.correlated);
    if c.mux.version {
      EnlistSameControl(let, o);
    }
    hide Enlist, SendOneWay, EndOf;
  }

  lemma BeginningSameControl(c: Conn, kind: Kind, handle: Option<nat>, waits: bool)
    ensures SameControl(c, BeginOpStep(c, kind, handle, waits)) && SameControl(c, BeginUngatedStep(c))
  {
    var n := AddOp(c, Op(kind, handle, Parked(c.gate), 0, None));
    IssueSameControl(n, |c.ops|);
    var u := AddOp(c, Op(Request, None, Ended, 0, None));
    IssueSameControl(u, |c.ops|);
    hide Issue;
  }

  lemma SendingSameControl(c: Conn, o: OpNo)
    ensures SameControl(c, StartSendStep(c, o)) && SameControl(c, PutFrameStep(c, o)) && SameControl(c, EndOpStep(c, o))
  {
  }

  lemma CompletingSameControl(c: Conn, o: OpNo, result: M.Send, e: M.Event)
    ensures SameControl(c, SendDoneStep(c, o, result)) && SameControl(c, CallerStep(c, e))
  {
    if e.Interrupted? || e.ResumeSend? || e.ResumeAwait? {
      CallersKeepSession(c.mux, e);
    }
    if o < |c.ops| && c.ops[o].request.Some? {
      SendResultsKeepSession(c.mux, c.ops[o].request.value, result);
    }
    hide M.Apply, M.SendDoneStep;
  }

  lemma CallersKeepSession(m: M.Mux, e: M.Event)
    requires e.Interrupted? || e.ResumeSend? || e.ResumeAwait?
    ensures var n := M.Apply(m, e);
      n.session == m.session && n.version == m.version && (m.table == map[] ==> n.table == map[])
  {
    match e {
      case Interrupted(r, cause) => assert M.InterruptStep(m, r, cause).table == m.table;
      case ResumeSend(r) =>
      case ResumeAwait(r) => assert M.ResumeAwaitStep(m, r).table == m.table;
    }
  }

  lemma SendResultsKeepSession(m: M.Mux, r: M.RequestNo, result: M.Send)
    ensures var n := M.SendDoneStep(m, r, result);
      n.session == m.session && n.version == m.version && n.table == m.table
  {
  }

  lemma DispatchingSameControl(c: Conn, t: TransportNo, id: nat, payload: M.Payload, final: bool)
    requires Reads(c, t) && id in c.mux.table
    ensures SameControl(c, ReplyFrameStep(c, t, id, payload, final))
  {
  }

  predicate IsOperation(e: Event) {
    e.BeginOp? || e.BeginUngated? || e.Admit? || e.StartSend? || e.PutFrame? || e.SendDone? || e.EndOp? || e.Caller?
  }

  lemma OperationsSameControl(c: Conn, e: Event)
    requires IsOperation(e)
    ensures SameControl(c, Apply(c, e))
  {
    hide Issue, SameControl, BeginOpStep, BeginUngatedStep, StartSendStep, PutFrameStep, EndOpStep;
    hide SendDoneStep, CallerStep;
    match e {
      case BeginOp(kind, handle, waits) => BeginningSameControl(c, kind, handle, waits);
      case BeginUngated => BeginningSameControl(c, Request, None, false);
      case Admit(o) => AdmitSameControl(c, o);
      case StartSend(o) => SendingSameControl(c, o);
      case PutFrame(o) => SendingSameControl(c, o);
      case EndOp(o) => SendingSameControl(c, o);
      case SendDone(o, result) => CompletingSameControl(c, o, result, M.Connect);
      case Caller(f) => CompletingSameControl(c, 0, M.InFlight, f);
      case _ =>
    }
  }

  lemma AdmitSameControl(c: Conn, o: OpNo)
    ensures SameControl(c, AdmitStep(c, o))
  {
    if ParkedOpen(c, o) {
      IssueSameControl(c, o);
    }
    hide Issue;
  }

  lemma ControlKept(c: Conn, e: Event)
    requires Control(c)
    ensures Control(Apply(c, e))
  {
    hide Control, SameControl;
    match e {
      case Open(reconnect) => OpenKeepsControl(c, reconnect);
      case Dialed => DialedKeepsControl(c);
      case HandshakeDone => HandshakeDoneKeepsControl(c);
      case RestoreDone => RestoreDoneKeepsControl(c);
      case AttemptFails(rejected) => AttemptFailsKeepsControl(c, rejected);
      case FailureSettled => FailureSettledKeepsControl(c);
      case RejectionSettled => EndedAttemptKeepsControl(c);
      case AttemptDropped => EndedAttemptKeepsControl(c);
      case ReconnectPause => SetStateKeepsControl(c, Reconnecting);
      case ReconnectExhausted => SetStateKeepsControl(c, Disconnected);
      case Hello(t) => HelloKeepsControl(c, t);
      case ReceiveRaises(t) => ReceiveRaisesKeepsControl(c, t);
      case ReceiverReturns(t) => ReceiverReturnsKeepsControl(c, t);
      case Lost => AnyLossKeepsControl(c);
      case CloseBegins => CloseKeepsControl(c);
      case CloseDetaches => CloseKeepsControl(c);
      case ReplyFrame(t, id, payload, final) => ReplyFrameKeepsControl(c, t, id, payload, final);
      case _ =>
        OperationsSameControl(c, e);
        SameControlKeeps(c, Apply(c, e));
    }
  }

  lemma AnyLossKeepsControl(c: Conn)
    requires Control(c)
    ensures Control(LostStep(c))
  {
    LostKeepsControl(c);
  }

  lemma ReplyFrameKeepsControl(c: Conn, t: TransportNo, id: nat, payload: M.Payload, final: bool)
    requires Control(c)
    ensures Control(ReplyFrameStep(c, t, id, payload, final))
  {
    hide Control, SameControl;
    ReceiveRaisesKeepsControl(c, t);
    ReceiverReturnsKeepsControl(c, t);
    if Reads(c, t) && id in c.mux.table {
      DispatchingSameControl(c, t, id, payload, final);
      SameControlKeeps(c, ReplyFrameStep(c, t, id, payload, final));
    }
  }

  lemma {:induction false} RunKeepsControl(c: Conn, es: seq<Event>)
    requires Control(c)
    ensures Control(Run(c, es))
    decreases |es|
  {
    if es != [] {
      RunKeepsControl(c, es[..|es| - 1]);
      ControlKept(Run(c, es[..|es| - 1]), es[|es| - 1]);
    }
  }

  // ----- Lookups and resolutions -----

  predicate TakesTransport(c: Conn, kind: Kind) {
    kind.OneWay? && (kind.correlated ==> c.mux.nextId <= M.LAST_ID) && c.transport.Some?
  }

  /** The operation that takes the installed transport in this event. */
  function NewLookup(c: Conn, e: Event): Option<OpNo> {
    match e
    case StartSend(o) => if o < |c.ops| && c.ops[o].stage == Starting && c.transport.Some? then Some(o) else None
    case Admit(o) => if ParkedOpen(c, o) && TakesTransport(c, c.ops[o].kind) then Some(o) else None
    case BeginOp(kind, handle, waits) =>
      if MayBegin(c, handle) && !waits && TakesTransport(c, kind) then Some(|c.ops|) else None
    case _ => None
  }

  /** The request that a frame resolves in this event. */
  function NewResolution(c: Conn, e: Event): Option<M.RequestNo> {
    if e.ReplyFrame? && Reads(c, e.t) && FindsCaller(c.mux, e.id, e.final) then Some(c.mux.table[e.id]) else None
  }

  /** The requests of `m` are all there, each in its own session. */
  predicate RequestsStay(m: M.Mux, n: M.Mux) {
    |m.requests| <= |n.requests| && forall r :: 0 <= r < |m.requests| ==> n.requests[r].session == m.requests[r].session
  }

  predicate OpsStay(c: Conn, d: Conn) {
    |c.ops| <= |d.ops| && forall o :: 0 <= o < |c.ops| ==> d.ops[o].handle == c.ops[o].handle
  }

  ghost predicate Records(c: Conn) {
    && (forall o :: 0 <= o < |c.ops| && c.ops[o].handle.Some? ==> 1 <= c.ops[o].handle.value <= c.generation)
    && (c.ops != [] ==> 1 <= c.generation)
    && (forall r :: 0 <= r < |c.mux.requests| ==> 1 <= c.mux.requests[r].session <= c.generation)
    && (forall i :: 0 <= i < |c.lookups| ==> c.lookups[i].0 < |c.ops|)
    && (forall i :: 0 <= i < |c.resolved| ==> c.resolved[i].0 < |c.mux.requests|)
    && (forall i :: 0 <= i < |c.wire| ==> c.wire[i] in c.lookups)
    && (forall o :: 0 <= o < |c.ops| && c.ops[o].stage.Captured? ==> (o, c.ops[o].stage.transport) in c.lookups)
  }

  /** What an event that is no operation leaves alone. */
  ghost predicate Unlogged(c: Conn, d: Conn) {
    && d.ops == c.ops && d.lookups == c.lookups && d.wire == c.wire && d.resolved == c.resolved
    && c.sessions <= d.sessions && c.generation <= d.generation
    && |d.mux.requests| == |c.mux.requests| && RequestsStay(c.mux, d.mux)
  }

  lemma UnpluggedStays(m: M.Mux)
    ensures |M.DisconnectStep(m).requests| == |m.requests| && RequestsStay(m, M.DisconnectStep(m))
  {
  }

  lemma LossUnlogged(c: Conn)
    ensures Unlogged(c, LostStep(c)) && Unlogged(c, CloseBeginsStep(c))
  {
    UnpluggedStays(c.mux);
    hide M.DisconnectStep;
  }

  lemma AbortUnlogged(c: Conn, d: Conn, t: TransportNo, rejected: bool)
    requires d == c.(auth := d.auth)
    ensures Unlogged(c, Abort(d, t, rejected))
  {
    UnpluggedStays(c.mux);
    hide M.DisconnectStep, RequestsStay;
  }

  lemma EstablishUnlogged(c: Conn, d: Conn, t: TransportNo)
    requires d == c.(auth := d.auth)
    ensures Unlogged(c, Establish(d, t))
  {
  }

  lemma AttemptUnlogged(c: Conn, rejected: bool)
    ensures Unlogged(c, HandshakeDoneStep(c)) && Unlogged(c, RestoreDoneStep(c)) && Unlogged(c, AttemptFailsStep(c, rejected))
  {
    if c.attempt.Dialing? || c.attempt.Handshake? || c.attempt.Restoring? {
      var t, d := c.attempt.transport, c.(auth := NoAuth);
      AbortUnlogged(c, d, t, false);
      AbortUnlogged(c, c, t, rejected);
      AbortUnlogged(c, c, t, false);
      EstablishUnlogged(c, d, t);
    }
    hide Abort, Establish, RequestsStay;
  }

  lemma OpenUnlogged(c: Conn, reconnect: bool)
    ensures Unlogged(c, OpenStep(c, reconnect)) && Unlogged(c, DialedStep(c))
  {
  }

  lemma QuietUnlogged(c: Conn, e: Event)
    requires e.Open? || e.Dialed? || e.FailureSettled? || e.RejectionSettled? || e.AttemptDropped? || e.ReconnectPause?
      || e.ReconnectExhausted? || e.CloseDetaches?
    ensures Unlogged(c, Apply(c, e))
  {
    OpenUnlogged(c, e.Open? && e.reconnect);
    hide OpenStep, DialedStep, RequestsStay;
    assert RequestsStay(c.mux, c.mux) by { RequestsStayThere(c.mux); }
  }

  lemma RequestsStayThere(m: M.Mux)
    ensures RequestsStay(m, m)
  {
  }

  lemma ReceivingUnlogged(c: Conn, t: TransportNo)
    ensures Unlogged(c, ReceiveRaisesStep(c, t)) && Unlogged(c, HelloStep(c, t)) && Unlogged(c, ReceiverReturnsStep(c, t))
  {
    LossUnlogged(c.(receiving := c.receiving - {t}));
    hide LostStep;
  }

  lemma OthersUnlogged(c: Conn, e: Event)
    requires !IsOperation(e) && (e.ReplyFrame? ==> !(Reads(c, e.t) && e.id in c.mux.table))
    ensures Unlogged(c, Apply(c, e)) && NewLookup(c, e) == None && NewResolution(c, e) == None
  {
    hide Unlogged, LostStep, HelloStep, ReceiveRaisesStep, ReceiverReturnsStep, HandshakeDoneStep, RestoreDoneStep;
    hide AttemptFailsStep, CloseBeginsStep;
    match e {
      case HandshakeDone => AttemptUnlogged(c, false);
      case RestoreDone => AttemptUnlogged(c, false);
      case AttemptFails(rejected) => AttemptUnlogged(c, rejected);
      case Hello(t) => ReceivingUnlogged(c, t);
      case ReceiveRaises(t) => ReceivingUnlogged(c, t);
      case ReceiverReturns(t) => ReceivingUnlogged(c, t);
      case ReplyFrame(t, id, payload, final) => ReceivingUnlogged(c, t);
      case Lost => LossUnlogged(c);
      case CloseBegins => LossUnlogged(c);
      case _ => QuietUnlogged(c, e);
    }
  }

  lemma UnloggedKeepsRecords(c: Conn, d: Conn)
    requires Records(c) && Unlogged(c, d)
    ensures Records(d)
  {
  }

  /** What an operation does to the records. */
  ghost predicate Logged(c: Conn, d: Conn, lookup: Option<OpNo>) {
    && OpsStay(c, d) && RequestsStay(c.mux, d.mux)
    && d.sessions == c.sessions && d.generation == c.generation && d.resolved == c.resolved
    && d.lookups == c.lookups + (if lookup.Some? && c.transport.Some? then [(lookup.value, c.transport.value)] else [])
    && (lookup.Some? ==> lookup.value < |d.ops| && c.transport.Some?)
  }

  lemma EnlistLogs(c: Conn, o: OpNo)
    requires o < |c.ops|
    ensures Logged(c, Enlist(c, o), None) && |Enlist(c, o).ops| == |c.ops|
    ensures Logged(c, EndOf(c, o), None) && |EndOf(c, o).ops| == |c.ops|
  {
    assert c.lookups + [] == c.lookups;
  }

  lemma SendOneWayLogs(c: Conn, o: OpNo, correlated: bool)
    requires o < |c.ops|
    ensures Logged(c, SendOneWay(c, o, correlated), if c.transport.Some? then Some(o) else None)
    ensures |SendOneWay(c, o, correlated).ops| == |c.ops|
  {
    assert c.lookups + [] == c.lookups;
  }

  lemma IssueLogs(c: Conn, o: OpNo)
    requires o < |c.ops|
    ensures Logged(c, Issue(c, o), if TakesTransport(c, c.ops[o].kind) then Some(o) else None)
    ensures |Issue(c, o).ops| == |c.ops|
  {
    var let := c.(admitted := c.admitted + [o]);
    EnlistLogs(let, o);
    SendOneWayLogs(let, o, c.ops[o].kind.OneWay? && c.ops[o].kind.correlated);
    hide Enlist, SendOneWay, EndOf, OpsStay, RequestsStay;
  }

  lemma EndKeepsRecords(c: Conn, o: OpNo)
    requires Records(c) && o < |c.ops|
    ensures Records(EndOf(c, o))
  {
  }

  lemma EnlistKeepsRecords(c: Conn, o: OpNo)
    requires c.mux.session == c.generation && 1 <= c.generation && Records(c) && o < |c.ops|
    ensures Records(Enlist(c, o))
  {
  }

  lemma CaptureKeepsRecords(c: Conn, o: OpNo)
    requires Records(c) && o < |c.ops| && c.transport.Some?
    ensures Records(Capture(c, o))
  {
    var d := Capture(c, o);
    assert d.lookups[|c.lookups|] == (o, c.transport.value);
    assert forall l :: l in c.lookups ==> l in d.lookups;
  }

  lemma SendOneWayKeepsRecords(c: Conn, o: OpNo, correlated: bool)
    requires Records(c) && o < |c.ops|
    ensures Records(SendOneWay(c, o, correlated))
  {
    var numbered := SetOp(c, o, c.ops[o].(issuedIn := c.generation))
                      .(mux := if correlated then M.OneWayStep(c.mux) else c.mux);
    assert Records(numbered);
    hide Records;
    if c.transport.Some? {
      CaptureKeepsRecords(numbered, o);
    } else {
      EndKeepsRecords(numbered, o);
    }
  }

  lemma IssueKeepsRecords(c: Conn, o: OpNo)
    requires c.mux.session == c.generation && 1 <= c.generation && Records(c) && o < |c.ops|
    ensures Records(Issue(c, o))
  {
    var let := c.(admitted := c.admitted + [o]);
    assert Records(let);
    hide Records, Enlist, SendOneWay, EndOf;
    EndKeepsRecords(let, o);
    EnlistKeepsRecords(let, o);
    SendOneWayKeepsRecords(let, o, c.ops[o].kind.OneWay? && c.ops[o].kind.correlated);
  }

  lemma AddOpKeepsRecords(c: Conn, op: Op)
    requires Records(c) && 1 <= c.generation && (op.handle.Some? ==> op.handle.value == c.generation) && !op.stage.Captured?
    ensures Records(AddOp(c, op))
  {
  }

  lemma UsableHasSession(c: Conn)
    requires Control(c) && Usable(c)
    ensures 1 <= c.generation && !Replaced(c)
  {
  }

  lemma BeginKeepsRecords(c: Conn, kind: Kind, handle: Option<nat>, waits: bool)
    requires Control(c) && Records(c)
    ensures Records(BeginOpStep(c, kind, handle, waits)) && Records(BeginUngatedStep(c))
  {
    if Usable(c) {
      UsableHasSession(c);
      var op, u := Op(kind, handle, Parked(c.gate), 0, None), Op(Request, None, Ended, 0, None);
      hide Records, Control, Issue;
      AddOpKeepsRecords(c, u);
      IssueKeepsRecords(AddOp(c, u), |c.ops|);
      if MayBegin(c, handle) {
        AddOpKeepsRecords(c, op);
        IssueKeepsRecords(AddOp(c, op), |c.ops|);
      }
    }
  }

  lemma BeginLogs(c: Conn, kind: Kind, handle: Option<nat>, waits: bool)
    ensures Logged(c, BeginOpStep(c, kind, handle, waits), NewLookup(c, BeginOp(kind, handle, waits)))
    ensures Logged(c, BeginUngatedStep(c), None)
  {
    BeginUngatedLogs(c);
    var op := Op(kind, handle, Parked(c.gate), 0, None);
    IssueLogs(AddOp(c, op), |c.ops|);
    hide Issue, BeginUngatedStep;
    assert forall o :: 0 <= o < |c.ops| ==> AddOp(c, op).ops[o] == c.ops[o];
    assert c.lookups + [] == c.lookups;
  }

  lemma BeginUngatedLogs(c: Conn)
    ensures Logged(c, BeginUngatedStep(c), None)
  {
    var op := Op(Request, None, Ended, 0, None);
    IssueLogs(AddOp(c, op), |c.ops|);
    hide Issue;
    assert forall o :: 0 <= o < |c.ops| ==> AddOp(c, op).ops[o] == c.ops[o];
    assert c.lookups + [] == c.lookups;
  }

  lemma CaptureLogs(c: Conn, o: OpNo)
    requires o < |c.ops| && c.transport.Some?
    ensures Logged(c, Capture(c, o), Some(o))
  {
  }

  lemma StartSendLogs(c: Conn, o: OpNo)
    ensures Logged(c, StartSendStep(c, o), NewLookup(c, StartSend(o)))
  {
    NothingLogs(c);
    if o < |c.ops| {
      EnlistLogs(c, o);
      if c.transport.Some? {
        CaptureLogs(c, o);
      }
    }
    hide Logged, Capture, EndOf;
  }

  lemma NothingLogs(c: Conn)
    ensures Logged(c, c, None)
  {
    assert c.lookups + [] == c.lookups;
  }

  lemma SendingLogs(c: Conn, o: OpNo)
    ensures Logged(c, PutFrameStep(c, o), None) && Logged(c, EndOpStep(c, o), None)
  {
    assert c.lookups + [] == c.lookups;
  }

  lemma SendingKeepsRecords(c: Conn, o: OpNo)
    requires Records(c)
    ensures Records(StartSendStep(c, o)) && Records(EndOpStep(c, o))
  {
    if o < |c.ops| {
      hide Records;
      EndKeepsRecords(c, o);
      if c.transport.Some? {
        CaptureKeepsRecords(c, o);
      }
      hide EndOf, Capture;
    }
  }

  lemma PutFrameKeepsRecords(c: Conn, o: OpNo)
    requires Records(c)
    ensures Records(PutFrameStep(c, o))
  {
  }

  /** The multiplexer's own steps add no request. */
  lemma CallersAddNone(m: M.Mux, e: M.Event)
    requires e.Interrupted? || e.ResumeSend? || e.ResumeAwait? || e.SendDone?
    ensures |M.Apply(m, e).requests| == |m.requests| && RequestsStay(m, M.Apply(m, e))
  {
    M.StepSettles(m, e);
  }

  lemma CompletingLogs(c: Conn, o: OpNo, result: M.Send, e: M.Event)
    ensures Logged(c, SendDoneStep(c, o, result), None) && Logged(c, CallerStep(c, e), None)
    ensures Records(c) ==> Records(SendDoneStep(c, o, result)) && Records(CallerStep(c, e))
  {
    if e.Interrupted? || e.ResumeSend? || e.ResumeAwait? {
      CallersAddNone(c.mux, e);
      hide M.Apply;
      NewMuxLogs(c, M.Apply(c.mux, e));
    } else {
      NewMuxLogs(c, c.mux);
    }
    SendDoneLogs(c, o, result);
    hide Records, Logged, SendDoneStep;
  }

  lemma NewMuxLogs(c: Conn, m: M.Mux)
    requires |m.requests| == |c.mux.requests| && RequestsStay(c.mux, m)
    ensures Logged(c, c.(mux := m), None) && (Records(c) ==> Records(c.(mux := m)))
  {
    assert c.lookups + [] == c.lookups;
  }

  lemma SendDoneLogs(c: Conn, o: OpNo, result: M.Send)
    ensures Logged(c, SendDoneStep(c, o, result), None)
    ensures Records(c) ==> Records(SendDoneStep(c, o, result))
  {
    if o < |c.ops| && c.ops[o].request.Some? {
      var m := M.SendDoneStep(c.mux, c.ops[o].request.value, result);
      CallersAddNone(c.mux, M.SendDone(c.ops[o].request.value, result));
      NewMuxLogs(c, m);
      EndedLogs(c, o, m);
      hide M.SendDoneStep, Records, Logged, EndOf;
    }
    NewMuxLogs(c, c.mux);
  }

  lemma EndedLogs(c: Conn, o: OpNo, m: M.Mux)
    requires o < |c.ops| && |m.requests| == |c.mux.requests| && RequestsStay(c.mux, m)
    ensures Logged(c, EndOf(c, o).(mux := m), None) && (Records(c) ==> Records(EndOf(c, o).(mux := m)))
  {
    assert c.lookups + [] == c.lookups;
    if Records(c) {
      EndKeepsRecords(c, o);
      NewMuxLogs(EndOf(c, o), m);
    }
  }

  lemma AdmitLogs(c: Conn, o: OpNo)
    ensures Logged(c, AdmitStep(c, o), NewLookup(c, Admit(o)))
    ensures c.mux.session == c.generation && Records(c) ==> Records(AdmitStep(c, o))
  {
    assert c.lookups + [] == c.lookups;
    if ParkedOpen(c, o) {
      IssueLogs(c, o);
      if c.mux.session == c.generation && Records(c) {
        IssueKeepsRecords(c, o);
      }
    }
    hide Issue;
  }

  lemma OperationsLogged(c: Conn, e: Event)
    requires IsOperation(e)
    ensures Logged(c, Apply(c, e), NewLookup(c, e)) && NewResolution(c, e) == None
  {
    hide Logged, BeginOpStep, BeginUngatedStep, StartSendStep, PutFrameStep, EndOpStep;
    hide SendDoneStep, CallerStep, AdmitStep, Records;
    match e {
      case BeginOp(kind, handle, waits) => BeginLogs(c, kind, handle, waits);
      case BeginUngated => BeginLogs(c, Request, None, false);
      case Admit(o) => AdmitLogs(c, o);
      case StartSend(o) => StartSendLogs(c, o);
      case PutFrame(o) => SendingLogs(c, o);
      case EndOp(o) => SendingLogs(c, o);
      case SendDone(o, result) => CompletingLogs(c, o, result, M.Connect);
      case Caller(f) => CompletingLogs(c, 0, M.InFlight, f);
      case _ =>
    }
  }

  lemma OperationsKeepRecords(c: Conn, e: Event)
    requires Control(c) && IsOperation(e) && Records(c)
    ensures Records(Apply(c, e))
  {
    assert c.mux.session == c.generation;
    hide Logged, Records, Control, BeginOpStep, BeginUngatedStep, AdmitStep;
    match e {
      case BeginOp(kind, handle, waits) => BeginKeepsRecords(c, kind, handle, waits);
      case BeginUngated => BeginKeepsRecords(c, Request, None, false);
      case Admit(o) => AdmitLogs(c, o);
      case _ => SendingsKeepRecords(c, e);
    }
  }

  lemma SendingsKeepRecords(c: Conn, e: Event)
    requires Records(c)
    requires e.StartSend? || e.PutFrame? || e.EndOp? || e.SendDone? || e.Caller?
    ensures Records(Apply(c, e))
  {
    hide Logged, Records, StartSendStep, PutFrameStep, EndOpStep, SendDoneStep, CallerStep, NewLookup;
    match e {
      case StartSend(o) => SendingKeepsRecords(c, o);
      case PutFrame(o) => PutFrameKeepsRecords(c, o);
      case EndOp(o) => SendingKeepsRecords(c, o);
      case SendDone(o, result) => CompletingLogs(c, o, result, M.Connect);
      case Caller(f) => CompletingLogs(c, 0, M.InFlight, f);
    }
  }

  /** What a dispatched frame does to the records. */
  lemma DispatchLogs(c: Conn, t: TransportNo, id: nat, payload: M.Payload, final: bool)
    requires Reads(c, t) && id in c.mux.table
    ensures var d, r := ReplyFrameStep(c, t, id, payload, final), NewResolution(c, ReplyFrame(t, id, payload, final));
      && d == c.(mux := d.mux, resolved := d.resolved)
      && |d.mux.requests| == |c.mux.requests| && RequestsStay(c.mux, d.mux)
      && d.resolved == c.resolved + (if r.Some? then [(r.value, t)] else [])
  {
    assert c.resolved + [] == c.resolved;
  }

  lemma DispatchKeepsRecords(c: Conn, t: TransportNo, id: nat, payload: M.Payload, final: bool)
    requires Records(c) && Reads(c, t) && id in c.mux.table
    ensures Records(ReplyFrameStep(c, t, id, payload, final))
  {
    DispatchLogs(c, t, id, payload, final);
    hide ReplyFrameStep;
  }

  lemma RecordsKept(c: Conn, e: Event)
    requires Control(c) && Records(c)
    ensures Records(Apply(c, e))
  {
    hide Control, Records, Logged, Unlogged;
    if IsOperation(e) {
      OperationsKeepRecords(c, e);
    } else if e.ReplyFrame? && Reads(c, e.t) && e.id in c.mux.table {
      DispatchKeepsRecords(c, e.t, e.id, e.payload, e.final);
    } else {
      OthersUnlogged(c, e);
      hide Apply;
      UnloggedKeepsRecords(c, Apply(c, e));
    }
  }

  // ----- Exactly when handles and sessions stay fenced off -----

  /** The lookup found the transport of the generation of the operation's handle. */
  predicate OwnLookup(c: Conn, l: (OpNo, TransportNo)) {
    l.0 < |c.ops| && (c.ops[l.0].handle.Some? ==>
      1 <= c.ops[l.0].handle.value <= |c.sessions| && c.sessions[c.ops[l.0].handle.value - 1] == l.1)
  }

  /** Every operation of a handle that took a transport took that of its own generation. */
  predicate FenceKept(c: Conn) {
    forall i :: 0 <= i < |c.lookups| ==> OwnLookup(c, c.lookups[i])
  }

  /** In this event an operation looks the transport up although the generation has moved on
      since its handle was made, or an attempt has installed its own transport. */
  predicate StaleLookup(c: Conn, e: Event) {
    var o := NewLookup(c, e);
    o.Some? && o.value < |c.ops| && c.ops[o.value].handle.Some?
    && (c.ops[o.value].handle.value != c.generation || Replaced(c))
  }

  /** The frame came from the transport of the session in which the request was issued. */
  predicate OwnReply(c: Conn, l: (M.RequestNo, TransportNo)) {
    && l.0 < |c.mux.requests| && 1 <= c.mux.requests[l.0].session <= |c.sessions|
    && c.sessions[c.mux.requests[l.0].session - 1] == l.1
  }

  predicate IsolationKept(c: Conn) {
    forall i :: 0 <= i < |c.resolved| ==> OwnReply(c, c.resolved[i])
  }

  /** In this event a frame resolves a request although a later session has begun since the
      request was issued, or an attempt has installed its own transport. */
  predicate StrayReply(c: Conn, e: Event) {
    var r := NewResolution(c, e);
    r.Some? && r.value < |c.mux.requests| && (c.mux.requests[r.value].session != c.generation || Replaced(c))
  }

  /** Where the installed transport stands, given what every run keeps. */
  lemma InstalledTransport(c: Conn)
    requires Control(c) && c.transport.Some? && 1 <= c.generation
    ensures !Replaced(c) ==> CurrentTransport(c, c.transport.value)
    ensures Replaced(c) ==> c.transport.value !in c.sessions
  {
  }

  /** An earlier generation's transport is not the one installed now, and the present one's
      is, unless an attempt has replaced it. */
  lemma OwnTransportExactly(c: Conn, h: nat)
    requires Control(c) && c.transport.Some? && 1 <= h <= c.generation
    ensures c.sessions[h - 1] == c.transport.value <==> h == c.generation && !Replaced(c)
  {
    InstalledTransport(c);
    hide Attempts;
  }

  lemma NewLookupIsAdded(c: Conn, d: Conn, o: Option<OpNo>)
    requires Records(c) && c.generation == |c.sessions| && Logged(c, d, o)
    ensures FenceKept(d) <==> FenceKept(c) && (o.Some? ==> OwnLookup(d, (o.value, c.transport.value)))
  {
    forall i | 0 <= i < |c.lookups|
      ensures d.lookups[i] == c.lookups[i] && (OwnLookup(d, d.lookups[i]) <==> OwnLookup(c, c.lookups[i]))
    {
    }
    if o.Some? {
      assert d.lookups[|c.lookups|] == (o.value, c.transport.value);
    }
  }

  /** The handle of an operation that looks the transport up. */
  lemma LookupHandle(c: Conn, e: Event)
    requires Control(c) && Records(c) && NewLookup(c, e).Some? && OpsStay(c, Apply(c, e))
    requires NewLookup(c, e).value < |Apply(c, e).ops|
    ensures var o := NewLookup(c, e).value;
      && (o < |c.ops| ==> Apply(c, e).ops[o].handle == c.ops[o].handle)
      && (o >= |c.ops| && Apply(c, e).ops[o].handle.Some? ==>
            Apply(c, e).ops[o].handle.value == c.generation >= 1 && !Replaced(c))
  {
    if e.BeginOp? {
      UsableHasSession(c);
      BeginHandle(c, e.kind, e.handle);
    }
    hide Apply;
  }

  lemma BeginHandle(c: Conn, kind: Kind, handle: Option<nat>)
    requires MayBegin(c, handle)
    ensures |BeginOpStep(c, kind, handle, false).ops| == |c.ops| + 1
    ensures BeginOpStep(c, kind, handle, false).ops[|c.ops|].handle == handle
  {
  }

  /** One event keeps the fence exactly if it is no stale lookup. */
  lemma FenceStep(c: Conn, e: Event)
    requires Control(c) && Records(c)
    ensures FenceKept(Apply(c, e)) <==> FenceKept(c) && !StaleLookup(c, e)
  {
    var d := Apply(c, e);
    assert c.generation == |c.sessions|;
    if IsOperation(e) {
      OperationsLogged(c, e);
      hide Control, Apply;
      NewLookupIsAdded(c, d, NewLookup(c, e));
      if NewLookup(c, e).Some? {
        LookupHandle(c, e);
        LookupIsOwn(c, d, e);
      }
    } else if e.ReplyFrame? && Reads(c, e.t) && e.id in c.mux.table {
      DispatchLogs(c, e.t, e.id, e.payload, e.final);
      hide Control, Apply;
      assert FenceKept(d) <==> FenceKept(c);
    } else {
      OthersUnlogged(c, e);
      hide Control, Apply;
      UnloggedKeepsFence(c, d);
    }
  }

  lemma LookupIsOwn(c: Conn, d: Conn, e: Event)
    requires Control(c) && Records(c) && NewLookup(c, e).Some? && c.transport.Some? && d.sessions == c.sessions
    requires NewLookup(c, e).value < |d.ops|
    requires var o := NewLookup(c, e).value;
      && (o < |c.ops| ==> d.ops[o].handle == c.ops[o].handle)
      && (o >= |c.ops| && d.ops[o].handle.Some? ==> d.ops[o].handle.value == c.generation >= 1 && !Replaced(c))
    ensures OwnLookup(d, (NewLookup(c, e).value, c.transport.value)) <==> !StaleLookup(c, e)
  {
    var o := NewLookup(c, e).value;
    if d.ops[o].handle.Some? {
      OwnTransportExactly(c, d.ops[o].handle.value);
    }
  }

  lemma UnloggedKeepsFence(c: Conn, d: Conn)
    requires Records(c) && c.generation == |c.sessions| && Unlogged(c, d)
    ensures FenceKept(d) <==> FenceKept(c)
    ensures IsolationKept(d) <==> IsolationKept(c)
  {
    forall i | 0 <= i < |c.lookups| ensures OwnLookup(d, d.lookups[i]) <==> OwnLookup(c, c.lookups[i]) {}
    forall i | 0 <= i < |c.resolved| ensures OwnReply(d, d.resolved[i]) <==> OwnReply(c, c.resolved[i]) {}
  }

  /** One event keeps sessions apart exactly if it is no stray reply. */
  lemma IsolationStep(c: Conn, e: Event)
    requires Control(c) && Records(c)
    ensures IsolationKept(Apply(c, e)) <==> IsolationKept(c) && !StrayReply(c, e)
  {
    var d := Apply(c, e);
    assert c.generation == |c.sessions|;
    if IsOperation(e) {
      OperationsLogged(c, e);
      hide Control, Apply;
      OperationsKeepIsolation(c, d, NewLookup(c, e));
    } else if e.ReplyFrame? && Reads(c, e.t) && e.id in c.mux.table {
      DispatchLogs(c, e.t, e.id, e.payload, e.final);
      hide Apply;
      NewResolutionIsAdded(c, d, e.t, NewResolution(c, e));
      if NewResolution(c, e).Some? {
        OwnTransportExactly(c, c.mux.requests[NewResolution(c, e).value].session);
      }
    } else {
      OthersUnlogged(c, e);
      hide Control, Apply;
      UnloggedKeepsFence(c, d);
    }
  }

  lemma OperationsKeepIsolation(c: Conn, d: Conn, o: Option<OpNo>)
    requires Records(c) && Logged(c, d, o)
    ensures IsolationKept(d) <==> IsolationKept(c)
  {
    forall i | 0 <= i < |c.resolved| ensures OwnReply(d, d.resolved[i]) <==> OwnReply(c, c.resolved[i]) {}
  }

  lemma NewResolutionIsAdded(c: Conn, d: Conn, t: TransportNo, r: Option<M.RequestNo>)
    requires Records(c) && d == c.(mux := d.mux, resolved := d.resolved)
    requires |d.mux.requests| == |c.mux.requests| && RequestsStay(c.mux, d.mux)
    requires d.resolved == c.resolved + (if r.Some? then [(r.value, t)] else [])
    ensures IsolationKept(d) <==> IsolationKept(c) && (r.Some? ==> OwnReply(c, (r.value, t)))
  {
    forall i | 0 <= i < |c.resolved|
      ensures d.resolved[i] == c.resolved[i] && (OwnReply(d, d.resolved[i]) <==> OwnReply(c, c.resolved[i]))
    {
    }
    if r.Some? {
      assert d.resolved[|c.resolved|] == (r.value, t);
      assert OwnReply(d, (r.value, t)) <==> OwnReply(c, (r.value, t));
    }
  }

  predicate NoStaleLookups(es: seq<Event>) {
    es == [] || (NoStaleLookups(es[..|es| - 1]) && !StaleLookup(Run(Init(), es[..|es| - 1]), es[|es| - 1]))
  }

  predicate NoStrayReplies(es: seq<Event>) {
    es == [] || (NoStrayReplies(es[..|es| - 1]) && !StrayReply(Run(Init(), es[..|es| - 1]), es[|es| - 1]))
  }

  lemma {:induction false} RunKeepsRecords(es: seq<Event>)
    ensures Control(Run(Init(), es)) && Records(Run(Init(), es))
    decreases |es|
  {
    if es != [] {
      RunKeepsRecords(es[..|es| - 1]);
      hide Control, Records;
      ControlKept(Run(Init(), es[..|es| - 1]), es[|es| - 1]);
      RecordsKept(Run(Init(), es[..|es| - 1]), es[|es| - 1]);
    }
  }

  /** Exactly when the fence is kept: over every run whatsoever, each operation of a handle
      took the transport of its handle's generation if and only if no operation of a handle
      looked the transport up after the generation had moved on or while an attempt had its
      own transport installed. */
  lemma {:induction false} FenceKeptExactly(es: seq<Event>)
    ensures FenceKept(Run(Init(), es)) <==> NoStaleLookups(es)
    decreases |es|
  {
    if es != [] {
      FenceKeptExactly(es[..|es| - 1]);
      RunKeepsRecords(es[..|es| - 1]);
      hide Control, Records, FenceKept, StaleLookup, Apply;
      FenceStep(Run(Init(), es[..|es| - 1]), es[|es| - 1]);
    }
  }

  /** Exactly when sessions stay apart: over every run whatsoever, each request was resolved
      by a frame of the transport of its own session if and only if no frame resolved a
      request after a later session had begun or while an attempt had its own transport
      installed. */
  lemma {:induction false} IsolationKeptExactly(es: seq<Event>)
    ensures IsolationKept(Run(Init(), es)) <==> NoStrayReplies(es)
    decreases |es|
  {
    if es != [] {
      IsolationKeptExactly(es[..|es| - 1]);
      RunKeepsRecords(es[..|es| - 1]);
      hide Control, Records, IsolationKept, StrayReply, Apply;
      IsolationStep(Run(Init(), es[..|es| - 1]), es[|es| - 1]);
    }
  }

  // ----- Lifecycle -----

  /** Reachable by any run. */
  ghost predicate ReachableAnyhow(c: Conn) {
    exists es :: Run(Init(), es) == c
  }

  lemma ReachableKeepsRecords(c: Conn)
    requires ReachableAnyhow(c)
    ensures Control(c) && Records(c)
  {
    var es :| Run(Init(), es) == c;
    RunKeepsRecords(es);
  }

  /** A HELLO is newly accepted exactly when the installed transport's own receive task reads
      it in an open connection that has not negotiated. */
  lemma HelloIsReadFromTheInstalledTransport(c: Conn, e: Event, t: TransportNo)
    requires t !in c.hello
    ensures t in Apply(c, e).hello <==> e == Hello(t) && Reads(c, t) && !c.mux.version
  {
    if IsOperation(e) {
      hide Apply;
      OperationsSameControl(c, e);
    } else if e.AttemptFails? || e.FailureSettled? || e.RejectionSettled? || e.AttemptDropped? {
      AttemptKeepsHello(c, e);
    }
  }

  lemma AttemptKeepsHello(c: Conn, e: Event)
    requires e.AttemptFails? || e.FailureSettled? || e.RejectionSettled? || e.AttemptDropped?
    ensures Apply(c, e).hello == c.hello
  {
  }

  /** In every reachable state that is AUTHENTICATED, the installed transport is that of the
      latest generation, its own HELLO was accepted and its receive task is running. */
  lemma AuthenticatedOnItsOwnHello(c: Conn)
    requires ReachableAnyhow(c) && c.state == Authenticated
    ensures OnItsOwnHello(c)
  {
    hide ReachableAnyhow;
    ReachableKeepsRecords(c);
  }

  /** One event after close: nothing is numbered, and only a caller parked in a gate that was
      left open gets past admission. */
  lemma ClosedStep(c: Conn, e: Event)
    requires Control(c) && c.closed
    ensures Apply(c, e).closed && |Apply(c, e).mux.requests| == |c.mux.requests|
    ensures (forall o :: !ParkedOpen(c, o)) ==>
      Apply(c, e).admitted == c.admitted && forall o :: !ParkedOpen(Apply(c, e), o)
  {
    if e.Caller? {
      ClosedCaller(c, e.e);
    } else if e.SendDone? || e.PutFrame? || e.StartSend? || e.EndOp? {
      ClosedSending(c, e);
    } else {
      ClosedOtherwise(c, e);
    }
  }

  lemma ClosedCaller(c: Conn, e: M.Event)
    ensures |CallerStep(c, e).mux.requests| == |c.mux.requests| && CallerStep(c, e) == c.(mux := CallerStep(c, e).mux)
    ensures forall o :: ParkedOpen(CallerStep(c, e), o) ==> ParkedOpen(c, o)
  {
    if e.Interrupted? || e.ResumeSend? || e.ResumeAwait? {
      CallersAddNone(c.mux, e);
    }
    hide M.Apply;
  }

  lemma ClosedSending(c: Conn, e: Event)
    requires e.SendDone? || e.PutFrame? || e.StartSend? || e.EndOp?
    ensures Apply(c, e).closed == c.closed && |Apply(c, e).mux.requests| == |c.mux.requests|
    ensures Apply(c, e).admitted == c.admitted && forall o :: ParkedOpen(Apply(c, e), o) ==> ParkedOpen(c, o)
  {
    if e.SendDone? {
      ClosedSendDone(c, e.o, e.result);
    }
    hide SendDoneStep;
  }

  lemma ClosedSendDone(c: Conn, o: OpNo, result: M.Send)
    ensures var d := SendDoneStep(c, o, result);
      && d.closed == c.closed && |d.mux.requests| == |c.mux.requests| && d.admitted == c.admitted
      && forall p :: ParkedOpen(d, p) ==> ParkedOpen(c, p)
  {
  }

  lemma ClosedOtherwise(c: Conn, e: Event)
    requires Control(c) && c.closed && !(e.Caller? || e.SendDone? || e.PutFrame? || e.StartSend? || e.EndOp?)
    ensures Apply(c, e).closed && |Apply(c, e).mux.requests| == |c.mux.requests|
    ensures (forall o :: !ParkedOpen(c, o)) ==>
      Apply(c, e).admitted == c.admitted && forall o :: !ParkedOpen(Apply(c, e), o)
  {
    if forall o :: !ParkedOpen(c, o) {
      var d := Apply(c, e);
      assert d.ops == c.ops && c.closedGates <= d.closedGates;
      hide Apply;
      forall o ensures !ParkedOpen(d, o) {
        assert !ParkedOpen(c, o);
      }
    }
  }

  /** Once `_closed` is set, by `close` or by a rejected authentication, no later step of any
      task clears it, makes the state AUTHENTICATED or numbers a request. */
  lemma {:induction false} ClosedIsFinal(c: Conn, es: seq<Event>)
    requires ReachableAnyhow(c) && c.closed
    ensures var d := Run(c, es);
      d.closed && d.state != Authenticated && d.mux.table == map[] && |d.mux.requests| == |c.mux.requests|
    decreases |es|
  {
    ReachableKeepsRecords(c);
    RunKeepsControl(c, es);
    if es != [] {
      ClosedIsFinal(c, es[..|es| - 1]);
      RunKeepsControl(c, es[..|es| - 1]);
      hide Apply;
      ClosedStep(Run(c, es[..|es| - 1]), es[|es| - 1]);
    }
  }

  lemma {:induction false} NobodyParkedNobodyAdmitted(c: Conn, es: seq<Event>)
    requires Control(c) && c.closed && forall o :: !ParkedOpen(c, o)
    ensures Run(c, es).admitted == c.admitted && Run(c, es).closed && forall o :: !ParkedOpen(Run(c, es), o)
    decreases |es|
  {
    if es != [] {
      NobodyParkedNobodyAdmitted(c, es[..|es| - 1]);
      RunKeepsControl(c, es[..|es| - 1]);
      hide Apply, Control, ParkedOpen;
      ClosedStep(Run(c, es[..|es| - 1]), es[|es| - 1]);
    }
  }

  /** Exactly when a closed connection still lets an operation past admission: if and only if
      one is parked in a gate that was left open. */
  lemma ClosedAdmitsExactly(c: Conn)
    requires ReachableAnyhow(c) && c.closed
    ensures (exists es :: Run(c, es).admitted != c.admitted) <==> exists o :: ParkedOpen(c, o)
  {
    ReachableKeepsRecords(c);
    hide Control, Records, Run, ReachableAnyhow;
    if o :| ParkedOpen(c, o) {
      ParkedIsAdmitted(c, o);
    } else {
      forall es ensures Run(c, es).admitted == c.admitted {
        NobodyParkedNobodyAdmitted(c, es);
      }
    }
  }

  lemma ParkedIsAdmitted(c: Conn, o: OpNo)
    requires ParkedOpen(c, o)
    ensures Run(c, [Admit(o)]).admitted != c.admitted
  {
    var es := [Admit(o)];
    assert es[..0] == [] && Run(c, es[..0]) == c;
    assert Run(c, es) == Apply(c, Admit(o));
    hide Run;
    IssueAdmits(c, o);
    hide Issue;
  }

  lemma IssueAdmits(c: Conn, o: OpNo)
    requires o < |c.ops|
    ensures Issue(c, o).admitted == c.admitted + [o] != c.admitted
  {
    assert |c.admitted + [o]| == |c.admitted| + 1;
  }
}
