/** The connection's life: open attempts, HELLO, sessions, loss, restore and close, with the
    operations of clients and handles running beside them.

    One event is the code between two suspension points of one task.  Transports, admission
    gates and operations are numbered in the order they are made.  What happens inside a
    gate is `RequestGates`; here a gate only matters for being open or closed.  Requests,
    correlation ids and replies are those of `Multiplexers`, whose state is part of the
    connection's.

    Open attempts do not overlap (`Open` waits for the attempt under way).  Nothing else is
    assumed here; `OrderlyConnections.Orderly` names what some theorems assume of a run. */
module Connections {
  import opened Options
  import M = Multiplexers

  type TransportNo = nat
  type GateNo = nat
  type OpNo = nat

  datatype State = Disconnected | Connecting | Connected | Authenticating | Authenticated | Reconnecting | Closed

  /** Where the open attempt stands.  `Failing` and `Rejecting` are the two waits of its
      clean-up. */
  datatype Attempt =
    | NoAttempt
    | Dialing(transport: TransportNo, reconnect: bool)
    | Handshake(transport: TransportNo, reconnect: bool)
    | Restoring(transport: TransportNo)
    | Failing(transport: TransportNo, rejected: bool)
    | Rejecting

  /** The `_auth_error` future. */
  datatype Auth = NoAuth | Pending | Accepted | Refused

  datatype Kind = Request | OneWay(correlated: bool)

  /** `Starting`: a request is in the correlation table and its send task has not taken its
      first step, which is when it looks up the installed transport. */
  datatype Stage =
    | Parked(gate: GateNo)
    | Starting
    | Captured(transport: TransportNo)
    | Sent(transport: TransportNo)
    | Ended

  /** `handle` is the generation of the transaction or response writer the operation belongs
      to, `request` its number in the multiplexer. */
  datatype Op = Op(kind: Kind, handle: Option<nat>, stage: Stage, issuedIn: nat, request: Option<M.RequestNo>)

  /** `sessions[g - 1]` is the transport of generation `g`; `hello` holds the transports whose
      HELLO was accepted; `receiving` the transports whose receive task has not ended.
      `lookups`, `wire`, `resolved` and `admitted` record which operation took which
      transport, put a frame on which, which request was resolved by a frame of which, and
      which operations were let past admission. */
  datatype Conn = Conn(
    state: State, closed: bool, restoring: bool, generation: nat,
    transport: Option<TransportNo>, transports: nat,
    gate: GateNo, gates: nat, closedGates: set<GateNo>,
    receiver: Option<TransportNo>, receiving: set<TransportNo>, auth: Auth, attempt: Attempt,
    mux: M.Mux, ops: seq<Op>,
    sessions: seq<TransportNo>, hello: set<TransportNo>,
    lookups: seq<(OpNo, TransportNo)>, wire: seq<(OpNo, TransportNo)>,
    resolved: seq<(M.RequestNo, TransportNo)>, admitted: seq<OpNo>)

  datatype Event =
    | Open(reconnect: bool)
    | Dialed
    | HandshakeDone
    | RestoreDone
    | AttemptFails(rejected: bool)
    | FailureSettled
    | RejectionSettled
    | AttemptDropped
    | ReconnectPause
    | ReconnectExhausted
    | Hello(t: TransportNo)
    | ReceiveRaises(t: TransportNo)
    | ReceiverReturns(t: TransportNo)
    | ReplyFrame(t: TransportNo, id: nat, payload: M.Payload, final: bool)
    | Lost
    | CloseBegins
    | CloseDetaches
    | BeginOp(kind: Kind, handle: Option<nat>, waits: bool)
    | BeginUngated
    | Admit(o: OpNo)
    | StartSend(o: OpNo)
    | PutFrame(o: OpNo)
    | SendDone(o: OpNo, result: M.Send)
    | EndOp(o: OpNo)
    | Caller(e: M.Event)

  function Init(): Conn {
    Conn(Disconnected, false, false, 0, None, 0, 0, 1, {}, None, {}, NoAuth, NoAttempt,
         M.Init(), [], [], {}, [], [], [], [])
  }

  // ----- Pieces shared by several steps -----

  function SetState(c: Conn, state: State): Conn {
    if c.closed && state != Closed then c else c.(state := state)
  }

  /** `Multiplexer.set_disconnected`. */
  function Unplug(c: Conn): Conn {
    c.(mux := M.DisconnectStep(c.mux))
  }

  function CloseGate(c: Conn): Conn {
    c.(closedGates := c.closedGates + {c.gate})
  }

  function NewGate(c: Conn): Conn {
    c.(gate := c.gates, gates := c.gates + 1)
  }

  // ----- The open attempt -----

  function OpenStep(c: Conn, reconnect: bool): Conn {
    if c.closed || c.attempt != NoAttempt then c
    else SetState(NewGate(c).(transport := Some(c.transports), transports := c.transports + 1,
                              attempt := Dialing(c.transports, reconnect)),
                  if reconnect then Reconnecting else Connecting)
  }

  function DialedStep(c: Conn): Conn {
    if !c.attempt.Dialing? then c
    else
      var t := c.attempt.transport;
      SetState(SetState(c, Connected), Authenticating)
        .(auth := Pending, receiver := Some(t), receiving := c.receiving + {t},
          attempt := Handshake(t, c.attempt.reconnect))
  }

  /** `_assert_transport_owner`. */
  predicate Owns(c: Conn, t: TransportNo) {
    !c.closed && c.transport == Some(t) && c.receiver == Some(t) && t in c.receiving && c.state != Disconnected
  }

  /** The clean-up of a failed attempt, up to its first wait. */
  function Abort(c: Conn, t: TransportNo, rejected: bool): Conn {
    Unplug(c).(transport := if c.transport == Some(t) then None else c.transport,
               restoring := false, attempt := Failing(t, rejected))
  }

  function Establish(c: Conn, t: TransportNo): Conn {
    c.(generation := c.generation + 1, sessions := c.sessions + [t], mux := M.Restart(c.mux))
  }

  function HandshakeDoneStep(c: Conn): Conn {
    if !c.attempt.Handshake? || c.auth != Accepted then c
    else
      var t, d := c.attempt.transport, c.(auth := NoAuth);
      if !Owns(d, t) then Abort(d, t, false)
      else if c.attempt.reconnect then Establish(d, t).(restoring := true, attempt := Restoring(t))
      else SetState(Establish(d, t).(attempt := NoAttempt), Authenticated)
  }

  function RestoreDoneStep(c: Conn): Conn {
    if !c.attempt.Restoring? then c
    else if !Owns(c, c.attempt.transport) then Abort(c, c.attempt.transport, false)
    else SetState(c.(restoring := false, attempt := NoAttempt), Authenticated)
  }

  /** An error, a timeout, or a cancellation of the attempt. */
  function AttemptFailsStep(c: Conn, rejected: bool): Conn {
    if c.attempt.Dialing? || c.attempt.Handshake? then Abort(c, c.attempt.transport, rejected)
    else if c.attempt.Restoring? then Abort(c, c.attempt.transport, false)
    else c
  }

  function FailureSettledStep(c: Conn): Conn {
    if !c.attempt.Failing? then c
    else if c.attempt.rejected then CloseGate(c.(closed := true, attempt := Rejecting))
    else SetState(c.(attempt := NoAttempt), Disconnected)
  }

  function RejectionSettledStep(c: Conn): Conn {
    if !c.attempt.Rejecting? then c else SetState(c.(attempt := NoAttempt), Closed)
  }

  /** `close` cancels the attempt while it is cleaning up. */
  function AttemptDroppedStep(c: Conn): Conn {
    if c.closed && (c.attempt.Failing? || c.attempt.Rejecting?) then c.(attempt := NoAttempt) else c
  }

  // ----- The receive task -----

  /** The check around `transport.receive()`: the task of a transport that is no longer
      installed returns without looking at the frame. */
  predicate Reads(c: Conn, t: TransportNo) {
    t in c.receiving && !c.closed && c.transport == Some(t)
  }

  function HelloStep(c: Conn, t: TransportNo): Conn {
    if !Reads(c, t) then ReceiverReturnsStep(c, t)
    else if c.mux.version then ReceiveRaisesStep(c, t)
    else NewGate(c).(mux := M.NegotiateStep(c.mux), hello := c.hello + {t},
                     auth := if c.auth == Pending then Accepted else c.auth)
  }

  function ReceiverReturnsStep(c: Conn, t: TransportNo): Conn {
    if c.closed || c.transport != Some(t) then c.(receiving := c.receiving - {t}) else c
  }

  /** A malformed or rejecting frame, or a failed read: the task ends.  While some attempt
      authenticates the failure is that attempt's, whichever transport it came from. */
  function ReceiveRaisesStep(c: Conn, t: TransportNo): Conn {
    if t !in c.receiving then c
    else
      var ended := c.(receiving := c.receiving - {t});
      if c.state == Authenticating && c.auth != NoAuth
      then ended.(auth := if c.auth == Pending then Refused else c.auth)
      else if !c.closed && c.transport == Some(t) then LostStep(ended)
      else ended
  }

  /** A reply finds its caller. */
  predicate Resolves(q: M.Request) {
    !q.tombstone && q.future == M.Open
  }

  /** `dispatch_correlated`, with the answer of the request recorded. */
  function Dispatch(m: M.Mux, id: nat, payload: M.Payload, final: bool): M.Mux
    requires id in m.table
  {
    var d, r := M.DispatchFrame(m, id, payload, final), m.table[id];
    if final && r < |d.requests| then M.Set(d, r, d.requests[r].(answer := Some(payload))) else d
  }

  /** The request that a frame with this id resolves. */
  predicate FindsCaller(m: M.Mux, id: nat, final: bool) {
    final && id in m.table && m.table[id] < |m.requests| && Resolves(m.requests[m.table[id]])
  }

  function ReplyFrameStep(c: Conn, t: TransportNo, id: nat, payload: M.Payload, final: bool): Conn {
    if !Reads(c, t) then ReceiverReturnsStep(c, t)
    else if id !in c.mux.table then ReceiveRaisesStep(c, t)
    else c.(mux := Dispatch(c.mux, id, payload, final),
            resolved := if FindsCaller(c.mux, id, final) then c.resolved + [(c.mux.table[id], t)] else c.resolved)
  }

  // ----- Loss and close -----

  /** `_connection_lost`, up to its first wait. */
  function LostStep(c: Conn): Conn {
    if c.state == Disconnected || c.state == Reconnecting || c.state == Closed then c
    else SetState(CloseGate(Unplug(c)), Disconnected).(transport := None)
  }

  function CloseBeginsStep(c: Conn): Conn {
    if c.closed then c else Unplug(CloseGate(SetState(c.(closed := true), Closed)))
  }

  function CloseDetachesStep(c: Conn): Conn {
    if c.closed then c.(transport := None) else c
  }

  // ----- Operations -----

  /** `_ensure_authenticated`. */
  predicate Usable(c: Conn) {
    !c.closed && (c.state == Authenticated || c.restoring)
  }

  function AddOp(c: Conn, op: Op): Conn {
    c.(ops := c.ops + [op])
  }

  function SetOp(c: Conn, o: OpNo, op: Op): Conn
    requires o < |c.ops|
  {
    c.(ops := c.ops[o := op])
  }

  function Enlist(c: Conn, o: OpNo): Conn
    requires o < |c.ops|
  {
    SetOp(c, o, c.ops[o].(stage := Starting, issuedIn := c.generation, request := Some(|c.mux.requests|)))
      .(mux := M.Enter(c.mux))
  }

  /** The operation takes the installed transport. */
  function Capture(c: Conn, o: OpNo): Conn
    requires o < |c.ops| && c.transport.Some?
  {
    SetOp(c, o, c.ops[o].(stage := Captured(c.transport.value)))
      .(lookups := c.lookups + [(o, c.transport.value)])
  }

  function EndOf(c: Conn, o: OpNo): Conn
    requires o < |c.ops|
  {
    SetOp(c, o, c.ops[o].(stage := Ended))
  }

  /** A one-way send takes an id if it needs one, and then the transport. */
  function SendOneWay(c: Conn, o: OpNo, correlated: bool): Conn
    requires o < |c.ops|
  {
    var numbered := SetOp(c, o, c.ops[o].(issuedIn := c.generation))
                      .(mux := if correlated then M.OneWayStep(c.mux) else c.mux);
    if c.transport == None then EndOf(numbered, o) else Capture(numbered, o)
  }

  /** What an admitted operation does before its next suspension point: a request takes an
      id and creates its send task, a one-way send looks up the transport itself. */
  function Issue(c: Conn, o: OpNo): Conn
    requires o < |c.ops|
  {
    var let := c.(admitted := c.admitted + [o]);
    match c.ops[o].kind
    case Request => if !M.CanAllocate(c.mux) then EndOf(let, o) else Enlist(let, o)
    case OneWay(correlated) =>
      if correlated && c.mux.nextId > M.LAST_ID then EndOf(let, o) else SendOneWay(let, o, correlated)
  }

  predicate MayBegin(c: Conn, handle: Option<nat>) {
    (handle.Some? ==> handle.value == c.generation) && Usable(c) && c.gate !in c.closedGates
  }

  /** `request` or `send`, for a handle after its generation check; `waits` says whether the
      gate is full. */
  function BeginOpStep(c: Conn, kind: Kind, handle: Option<nat>, waits: bool): Conn {
    if !MayBegin(c, handle) then c
    else
      var n := AddOp(c, Op(kind, handle, Parked(c.gate), 0, None));
      if waits then n else Issue(n, |c.ops|)
  }

  /** `request_without_admission`. */
  function BeginUngatedStep(c: Conn): Conn {
    if !Usable(c) then c else Issue(AddOp(c, Op(Request, None, Ended, 0, None)), |c.ops|)
  }

  predicate ParkedOpen(c: Conn, o: OpNo) {
    o < |c.ops| && c.ops[o].stage.Parked? && c.ops[o].stage.gate !in c.closedGates
  }

  function AdmitStep(c: Conn, o: OpNo): Conn {
    if ParkedOpen(c, o) then Issue(c, o) else c
  }

  function StartSendStep(c: Conn, o: OpNo): Conn {
    if o >= |c.ops| || c.ops[o].stage != Starting then c
    else if c.transport == None then EndOf(c, o)
    else Capture(c, o)
  }

  function PutFrameStep(c: Conn, o: OpNo): Conn {
    if o >= |c.ops| || !c.ops[o].stage.Captured? then c
    else
      var op, t := c.ops[o], c.ops[o].stage.transport;
      SetOp(c, o, op.(stage := Sent(t)))
        .(wire := c.wire + [(o, t)],
          mux := if op.request.Some? then M.TransmitStep(c.mux, op.request.value) else c.mux)
  }

  /** The send task of a request completes; it reports success only if the frame is out. */
  function SendDoneStep(c: Conn, o: OpNo, result: M.Send): Conn {
    if o >= |c.ops| || c.ops[o].request == None || c.ops[o].stage == Starting then c
    else if result == M.Delivered && !c.ops[o].stage.Sent? then c
    else
      (if c.ops[o].stage.Captured? then EndOf(c, o) else c)
        .(mux := M.SendDoneStep(c.mux, c.ops[o].request.value, result))
  }

  /** An operation that nobody sends for any more: parked, or a one-way send that failed. */
  function EndOpStep(c: Conn, o: OpNo): Conn {
    if o < |c.ops| && (c.ops[o].stage.Parked? || (c.ops[o].stage.Captured? && c.ops[o].kind.OneWay?))
    then EndOf(c, o) else c
  }

  /** The caller of a request is cancelled or times out, or its task goes on. */
  function CallerStep(c: Conn, e: M.Event): Conn {
    if e.Interrupted? || e.ResumeSend? || e.ResumeAwait? then c.(mux := M.Apply(c.mux, e)) else c
  }

  function Apply(c: Conn, e: Event): Conn {
    match e
    case Open(reconnect) => OpenStep(c, reconnect)
    case Dialed => DialedStep(c)
    case HandshakeDone => HandshakeDoneStep(c)
    case RestoreDone => RestoreDoneStep(c)
    case AttemptFails(rejected) => AttemptFailsStep(c, rejected)
    case FailureSettled => FailureSettledStep(c)
    case RejectionSettled => RejectionSettledStep(c)
    case AttemptDropped => AttemptDroppedStep(c)
    case ReconnectPause => SetState(c, Reconnecting)
    case ReconnectExhausted => SetState(c, Disconnected)
    case Hello(t) => HelloStep(c, t)
    case ReceiveRaises(t) => ReceiveRaisesStep(c, t)
    case ReceiverReturns(t) => ReceiverReturnsStep(c, t)
    case ReplyFrame(t, id, payload, final) => ReplyFrameStep(c, t, id, payload, final)
    case Lost => LostStep(c)
    case CloseBegins => CloseBeginsStep(c)
    case CloseDetaches => CloseDetachesStep(c)
    case BeginOp(kind, handle, waits) => BeginOpStep(c, kind, handle, waits)
    case BeginUngated => BeginUngatedStep(c)
    case Admit(o) => AdmitStep(c, o)
    case StartSend(o) => StartSendStep(c, o)
    case PutFrame(o) => PutFrameStep(c, o)
    case SendDone(o, result) => SendDoneStep(c, o, result)
    case EndOp(o) => EndOpStep(c, o)
    case Caller(e) => CallerStep(c, e)
  }

  function Run(c: Conn, es: seq<Event>): Conn {
    if es == [] then c else Apply(Run(c, es[..|es| - 1]), es[|es| - 1])
  }

  // ----- The connection object -----

  class Connection {
    var state: State
    var closed: bool
    var restoring: bool
    var generation: nat
    var transport: Option<TransportNo>
    var transports: nat
    var gate: GateNo
    var gates: nat
    var closedGates: set<GateNo>
    var receiveTask: Option<TransportNo>
    var receiving: set<TransportNo>
    var authError: Auth
    var attempt: Attempt
    var multiplexer: M.Mux
    var ops: seq<Op>
    ghost var sessions: seq<TransportNo>
    ghost var hello: set<TransportNo>
    ghost var lookups: seq<(OpNo, TransportNo)>
    ghost var wire: seq<(OpNo, TransportNo)>
    ghost var resolved: seq<(M.RequestNo, TransportNo)>
    ghost var admitted: seq<OpNo>

    ghost function Model(): Conn
      reads this
    {
      Conn(state, closed, restoring, generation, transport, transports, gate, gates, closedGates, receiveTask,
           receiving, authError, attempt, multiplexer, ops, sessions, hello, lookups, wire, resolved, admitted)
    }

    constructor ()
      ensures Model() == Init()
    {
      state, closed, restoring, generation, transport, transports := Disconnected, false, false, 0, None, 0;
      gate, gates, closedGates, receiveTask, receiving := 0, 1, {}, None, {};
      authError, attempt, multiplexer, ops := NoAuth, NoAttempt, M.Init(), [];
      sessions, hello, lookups, wire, resolved, admitted := [], {}, [], [], [], [];
    }

    method ChangeState(to: State)
      modifies this`state
      ensures Model() == SetState(old(Model()), to)
    {
      if !closed || to == Closed {
        state := to;
      }
    }

    /** `set_disconnected`, whose loop is `Multiplexers.Multiplexer.SetDisconnected`. */
    method UnplugMultiplexer()
      modifies this`multiplexer
      ensures Model() == Unplug(old(Model()))
    {
      multiplexer := M.DisconnectStep(multiplexer);
    }

    method RenewGate()
      modifies this`gate, this`gates
      ensures Model() == NewGate(old(Model()))
    {
      gate, gates := gates, gates + 1;
    }

    method CloseOwnGate()
      modifies this`closedGates
      ensures Model() == CloseGate(old(Model()))
    {
      closedGates := closedGates + {gate};
    }

    /** `_open_and_authenticate` up to `transport.connect()`. */
    method StartAttempt(reconnect: bool)
      requires attempt == NoAttempt
      modifies this
      ensures Model() == OpenStep(old(Model()), reconnect)
    {
      if closed {
        return;
      }
      hide SetState, NewGate;
      RenewGate();
      InstallTransport(reconnect);
      ChangeState(if reconnect then Reconnecting else Connecting);
    }

    method InstallTransport(reconnect: bool)
      modifies this`transport, this`transports, this`attempt
      ensures Model() == old(Model()).(transport := Some(old(transports)), transports := old(transports) + 1,
                                       attempt := Dialing(old(transports), reconnect))
    {
      transport, attempt, transports := Some(transports), Dialing(transports, reconnect), transports + 1;
    }

    method TransportConnected()
      requires attempt.Dialing?
      modifies this
      ensures Model() == DialedStep(old(Model()))
    {
      ChangeState(Connected);
      ChangeState(Authenticating);
      hide SetState;
      CreateReceiveTask(attempt.transport, attempt.reconnect);
    }

    method CreateReceiveTask(t: TransportNo, reconnect: bool)
      modifies this`authError, this`receiveTask, this`receiving, this`attempt
      ensures Model() == old(Model()).(auth := Pending, receiver := Some(t), receiving := old(receiving) + {t},
                                       attempt := Handshake(t, reconnect))
    {
      authError, receiveTask, receiving, attempt := Pending, Some(t), receiving + {t}, Handshake(t, reconnect);
    }

    method AbortAttempt(t: TransportNo, rejected: bool)
      modifies this
      ensures Model() == Abort(old(Model()), t, rejected)
    {
      UnplugMultiplexer();
      if transport == Some(t) {
        transport := None;
      }
      restoring, attempt := false, Failing(t, rejected);
    }

    /** From the accepted HELLO to the restore, or straight to AUTHENTICATED when there is
        nothing to restore. */
    method FinishHandshake()
      requires attempt.Handshake? && authError == Accepted
      modifies this
      ensures Model() == HandshakeDoneStep(old(Model()))
    {
      var t := attempt.transport;
      authError := NoAuth;
      if closed || transport != Some(t) || receiveTask != Some(t) || t !in receiving || state == Disconnected {
        AbortAttempt(t, false);
        return;
      }
      hide Establish, SetState;
      StartSession(t);
      EnterSession(t);
    }

    method EnterSession(t: TransportNo)
      requires attempt.Handshake?
      modifies this`restoring, this`attempt, this`state
      ensures Model() == (if old(attempt).reconnect
                          then old(Model()).(restoring := true, attempt := Restoring(t))
                          else SetState(old(Model()).(attempt := NoAttempt), Authenticated))
    {
      if attempt.reconnect {
        restoring, attempt := true, Restoring(t);
      } else {
        attempt := NoAttempt;
        ChangeState(Authenticated);
      }
    }

    method StartSession(t: TransportNo)
      modifies this`generation, this`sessions, this`multiplexer
      ensures Model() == Establish(old(Model()), t)
    {
      generation, sessions, multiplexer := generation + 1, sessions + [t], M.Restart(multiplexer);
    }

    method FinishRestore()
      requires attempt.Restoring?
      modifies this
      ensures Model() == RestoreDoneStep(old(Model()))
    {
      var t := attempt.transport;
      if closed || transport != Some(t) || receiveTask != Some(t) || t !in receiving || state == Disconnected {
        AbortAttempt(t, false);
        return;
      }
      restoring, attempt := false, NoAttempt;
      ChangeState(Authenticated);
    }

    /** The end of the clean-up of a failed attempt: a rejected authentication closes the
        client for good. */
    method SettleFailure()
      requires attempt.Failing?
      modifies this
      ensures Model() == FailureSettledStep(old(Model()))
    {
      if attempt.rejected {
        closed, closedGates, attempt := true, closedGates + {gate}, Rejecting;
      } else {
        attempt := NoAttempt;
        ChangeState(Disconnected);
      }
    }

    method ConnectionLost()
      modifies this
      ensures Model() == LostStep(old(Model()))
    {
      if state == Disconnected || state == Reconnecting || state == Closed {
        return;
      }
      UnplugMultiplexer();
      CloseOwnGate();
      ChangeState(Disconnected);
      transport := None;
    }

    /** The receive task of `t` returns once its transport is no longer the installed one. */
    method StopReceiving(t: TransportNo)
      modifies this`receiving
      ensures Model() == ReceiverReturnsStep(old(Model()), t)
    {
      if closed || transport != Some(t) {
        receiving := receiving - {t};
      }
    }

    /** The exception path of `_receive_loop`. */
    method ReceiveFailed(t: TransportNo)
      modifies this
      ensures Model() == ReceiveRaisesStep(old(Model()), t)
    {
      if t !in receiving {
        return;
      }
      receiving := receiving - {t};
      if state == Authenticating && authError != NoAuth {
        if authError == Pending {
          authError := Refused;
        }
      } else if !closed && transport == Some(t) {
        ConnectionLost();
      }
    }

    /** A HELLO frame: a second one in a session is refused, an accepted one brings a fresh
        admission gate with the negotiated limits. */
    method AcceptHello(t: TransportNo)
      modifies this
      ensures Model() == HelloStep(old(Model()), t)
    {
      if t !in receiving || closed || transport != Some(t) {
        StopReceiving(t);
      } else if multiplexer.version {
        ReceiveFailed(t);
      } else {
        RenewGate();
        hide NewGate;
        multiplexer, hello := M.NegotiateStep(multiplexer), hello + {t};
        if authError == Pending {
          authError := Accepted;
        }
      }
    }

    method DispatchReply(t: TransportNo, id: nat, payload: M.Payload, final: bool)
      modifies this
      ensures Model() == ReplyFrameStep(old(Model()), t, id, payload, final)
    {
      if t !in receiving || closed || transport != Some(t) {
        StopReceiving(t);
      } else if id !in multiplexer.table {
        ReceiveFailed(t);
      } else {
        resolved := if FindsCaller(multiplexer, id, final) then resolved + [(multiplexer.table[id], t)] else resolved;
        multiplexer := Dispatch(multiplexer, id, payload, final);
      }
    }

    /** `_close` up to its first wait. */
    method Close()
      modifies this
      ensures Model() == CloseBeginsStep(old(Model()))
    {
      if closed {
        return;
      }
      closed := true;
      ChangeState(Closed);
      CloseOwnGate();
      UnplugMultiplexer();
    }

    method EndOperation(o: OpNo)
      requires o < |ops|
      modifies this`ops
      ensures Model() == EndOf(old(Model()), o)
    {
      ops := ops[o := ops[o].(stage := Ended)];
    }

    /** `_issue_request` up to its first wait. */
    method IssueRequest(o: OpNo)
      requires o < |ops|
      modifies this`ops, this`multiplexer
      ensures Model() == Enlist(old(Model()), o)
    {
      ops := ops[o := ops[o].(stage := Starting, issuedIn := generation, request := Some(|multiplexer.requests|))];
      multiplexer := M.Enter(multiplexer);
    }

    method TakeTransport(o: OpNo)
      requires o < |ops| && transport.Some?
      modifies this`ops, this`lookups
      ensures Model() == Capture(old(Model()), o)
    {
      lookups := lookups + [(o, transport.value)];
      ops := ops[o := ops[o].(stage := Captured(transport.value))];
    }

    method StartOneWay(o: OpNo, needsId: bool)
      requires o < |ops|
      modifies this`ops, this`multiplexer, this`lookups
      ensures Model() == SendOneWay(old(Model()), o, needsId)
    {
      ops := ops[o := ops[o].(issuedIn := generation)];
      if needsId {
        multiplexer := M.OneWayStep(multiplexer);
      }
      hide EndOf, Capture;
      if transport == None {
        EndOperation(o);
      } else {
        TakeTransport(o);
      }
    }

    method IssueAdmitted(o: OpNo)
      requires o < |ops|
      modifies this
      ensures Model() == Issue(old(Model()), o)
    {
      admitted := admitted + [o];
      hide EndOf, Enlist, SendOneWay;
      match ops[o].kind {
        case Request =>
          if !M.CanAllocate(multiplexer) {
            EndOperation(o);
          } else {
            IssueRequest(o);
          }
        case OneWay(needsId) =>
          if needsId && multiplexer.nextId > M.LAST_ID {
            EndOperation(o);
          } else {
            StartOneWay(o, needsId);
          }
      }
    }

    /** `request` or `send`, for a handle after its generation check. */
    method BeginOperation(kind: Kind, handle: Option<nat>, gateIsFull: bool)
      modifies this
      ensures Model() == BeginOpStep(old(Model()), kind, handle, gateIsFull)
    {
      if handle.Some? && handle.value != generation {
        return;
      }
      if closed || (state != Authenticated && !restoring) || gate in closedGates {
        return;
      }
      var o := |ops|;
      ops := ops + [Op(kind, handle, Parked(gate), 0, None)];
      if !gateIsFull {
        IssueAdmitted(o);
      }
    }

    /** `_send_frame`: the first step of a send task, which looks up the transport. */
    method LookUpTransport(o: OpNo)
      requires o < |ops| && ops[o].stage == Starting
      modifies this`ops, this`lookups
      ensures Model() == StartSendStep(old(Model()), o)
    {
      if transport == None {
        EndOperation(o);
      } else {
        TakeTransport(o);
      }
    }

    /** `_send_frame` under the write lock. */
    method WriteFrame(o: OpNo)
      requires o < |ops| && ops[o].stage.Captured?
      modifies this`ops, this`wire, this`multiplexer
      ensures Model() == PutFrameStep(old(Model()), o)
    {
      wire := wire + [(o, ops[o].stage.transport)];
      if ops[o].request.Some? {
        multiplexer := M.TransmitStep(multiplexer, ops[o].request.value);
      }
      ops := ops[o := ops[o].(stage := Sent(ops[o].stage.transport))];
    }
  }
}
