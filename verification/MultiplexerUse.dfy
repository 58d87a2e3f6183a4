/** How the connection drives its multiplexer, and exactly when it keeps to what the
    multiplexer's own theorems assume. */
module MultiplexerUse {
  import opened Options
  import M = Multiplexers
  import opened Connections
  import opened ConnectionRuns

  // ----- What each event does to the multiplexer -----

  /** The event lets a request go on to take an id. */
  predicate NumbersRequest(c: Conn, e: Event) {
    match e
    case BeginOp(kind, handle, waits) => kind == Request && MayBegin(c, handle) && !waits
    case BeginUngated => Usable(c)
    case Admit(o) => ParkedOpen(c, o) && c.ops[o].kind == Request
    case _ => false
  }

  /** The event begins a session. */
  predicate BeginsSession(c: Conn, e: Event) {
    e.HandshakeDone? && c.attempt.Handshake? && c.auth == Accepted
    && Owns(c.(auth := NoAuth), c.attempt.transport)
  }

  predicate Dispatches(c: Conn, e: Event) {
    e.ReplyFrame? && Reads(c, e.t) && e.id in c.mux.table
  }

  /** A request takes an id although no session is up, a session begins over the entries of
      another, or a request that was never sent is answered. */
  predicate Misuses(c: Conn, e: Event) {
    || (NumbersRequest(c, e) && M.CanAllocate(c.mux) && !c.mux.connected)
    || (BeginsSession(c, e) && c.mux.table != map[])
    || (Dispatches(c, e) && e.final && c.mux.table[e.id] < |c.mux.requests|
        && !c.mux.requests[c.mux.table[e.id]].transmitted)
  }

  lemma IssueMovesMux(c: Conn, o: OpNo)
    requires o < |c.ops|
    ensures var m := Issue(c, o).mux;
      if c.ops[o].kind == Request then m == M.IssueStep(c.mux) else m == c.mux || m == M.OneWayStep(c.mux)
  {
    hide M.OneWayStep, M.Enter;
  }

  lemma BeginningMovesMux(c: Conn, e: Event)
    requires e.BeginOp? || e.BeginUngated? || e.Admit?
    ensures var m := Apply(c, e).mux;
      if NumbersRequest(c, e) then m == M.IssueStep(c.mux) else m == c.mux || m == M.OneWayStep(c.mux)
  {
    match e {
      case BeginOp(kind, handle, waits) =>
        IssueMovesMux(AddOp(c, Op(kind, handle, Parked(c.gate), 0, None)), |c.ops|);
      case BeginUngated => IssueMovesMux(AddOp(c, Op(Request, None, Ended, 0, None)), |c.ops|);
      case Admit(o) => if o < |c.ops| { IssueMovesMux(c, o); }
    }
    hide Issue, M.IssueStep, M.OneWayStep;
  }

  /** What the lifecycle does: nothing, a disconnect, a HELLO, or a new session. */
  lemma LifecycleMovesMux(c: Conn, e: Event)
    requires !IsOperation(e) && !Dispatches(c, e)
    ensures var m := Apply(c, e).mux;
      if BeginsSession(c, e) then m == M.Restart(c.mux)
      else m == c.mux || m == M.DisconnectStep(c.mux) || m == M.NegotiateStep(c.mux)
  {
    hide M.DisconnectStep, M.Restart, M.NegotiateStep;
    if e.AttemptFails? || e.HandshakeDone? || e.RestoreDone? {
      AttemptsMoveMux(c, e);
      hide Apply;
    } else if e.ReplyFrame? || e.Hello? || e.ReceiveRaises? || e.ReceiverReturns? {
      ReceivingMovesMux(c, e);
      hide Apply;
    }
  }

  lemma ReceivingMovesMux(c: Conn, e: Event)
    requires e.ReplyFrame? || e.Hello? || e.ReceiveRaises? || e.ReceiverReturns?
    requires !Dispatches(c, e)
    ensures var m := Apply(c, e).mux; m == c.mux || m == M.DisconnectStep(c.mux) || m == M.NegotiateStep(c.mux)
  {
    hide M.DisconnectStep, M.NegotiateStep;
  }

  lemma AttemptsMoveMux(c: Conn, e: Event)
    requires e.AttemptFails? || e.HandshakeDone? || e.RestoreDone?
    ensures var m := Apply(c, e).mux;
      if BeginsSession(c, e) then m == M.Restart(c.mux) else m == c.mux || m == M.DisconnectStep(c.mux)
  {
    hide M.DisconnectStep, M.Restart;
  }

  /** A dispatched frame is a reply the multiplexer's broker may send. */
  lemma DispatchIsReply(m: M.Mux, id: nat, payload: M.Payload, final: bool)
    requires M.Reachable(m) && id in m.table
    ensures m.table[id] < |m.requests| && m.requests[m.table[id]].session == m.session && m.connected
    ensures m.requests[m.table[id]].transmitted ==>
      Dispatch(m, id, payload, final) == M.Apply(m, M.Reply(m.table[id], payload, final))
  {
    hide M.Reachable;
    M.ReachableKeepsInv(m);
    var r := m.table[id];
    assert M.Live(m, r) && m.requests[r].id == id;
    assert M.InTable(m, r) && (m.requests[r].transmitted ==> M.MayAnswer(m, r));
    hide M.WholeInv, M.Inv;
  }

  // ----- Exactly when it keeps to the multiplexer's assumptions -----

  lemma ReachableMultiplexer(m: M.Mux)
    ensures M.Reachable(m) ==> M.OwnEntries(m)
    ensures M.Reachable(m) ==> forall r :: 0 <= r < |m.requests| && m.requests[r].answer.Some? ==> m.requests[r].transmitted
  {
    hide M.Reachable;
    if M.Reachable(m) {
      M.ReachableKeepsInv(m);
      assert forall r :: 0 <= r < |m.requests| ==> M.RequestInv(m, m.requests[r]);
    }
  }

  lemma GoesOn(m: M.Mux, e: M.Event)
    requires M.Reachable(m)
    ensures M.Reachable(M.Apply(m, e)) <==> !M.Untimely(m, e)
  {
    if M.Untimely(m, e) {
      M.ReachableKeepsInv(m);
      M.UntimelyLosesOwnEntries(m, e);
      hide M.Apply, M.Untimely;
      ReachableMultiplexer(M.Apply(m, e));
    } else {
      var es :| M.TimelyRun(es) && M.Run(M.Init(), es) == m;
      M.RunUnfolds(M.Init(), es, e);
      assert (es + [e])[..|es|] == es;
      hide M.Apply, M.Untimely;
      assert M.TimelyRun(es + [e]);
    }
  }

  /** One event other than a reply keeps the multiplexer reachable exactly if it misuses it
      in neither of the first two ways. */
  lemma OthersUse(c: Conn, e: Event)
    requires M.Reachable(c.mux) && !IsOperation(e) && !Dispatches(c, e)
    ensures M.Reachable(Apply(c, e).mux) <==> !Misuses(c, e)
  {
    LifecycleMovesMux(c, e);
    assert M.Apply(c.mux, M.Disconnect) == M.DisconnectStep(c.mux) && M.Apply(c.mux, M.Connect) == M.Restart(c.mux);
    assert M.Apply(c.mux, M.Negotiate) == M.NegotiateStep(c.mux);
    hide M.Reachable, Apply, M.Apply, M.DisconnectStep, M.Restart, M.NegotiateStep, BeginsSession;
    GoesOn(c.mux, M.Disconnect);
    GoesOn(c.mux, M.Connect);
    GoesOn(c.mux, M.Negotiate);
  }

  lemma BeginningUses(c: Conn, e: Event)
    requires M.Reachable(c.mux) && (e.BeginOp? || e.BeginUngated? || e.Admit?)
    ensures M.Reachable(Apply(c, e).mux) <==> !Misuses(c, e)
  {
    BeginningMovesMux(c, e);
    assert M.Apply(c.mux, M.Issue) == M.IssueStep(c.mux) && M.Apply(c.mux, M.OneWay) == M.OneWayStep(c.mux);
    hide M.Reachable, Apply, M.Apply, M.IssueStep, M.OneWayStep, NumbersRequest, M.CanAllocate;
    GoesOn(c.mux, M.Issue);
    GoesOn(c.mux, M.OneWay);
  }

  lemma SendingUses(c: Conn, e: Event)
    requires M.Reachable(c.mux)
    requires e.StartSend? || e.PutFrame? || e.EndOp? || e.SendDone? || e.Caller?
    ensures M.Reachable(Apply(c, e).mux)
  {
    match e {
      case PutFrame(o) =>
        if o < |c.ops| && c.ops[o].request.Some? { GoesOn(c.mux, M.Transmit(c.ops[o].request.value)); }
      case SendDone(o, result) =>
        if o < |c.ops| && c.ops[o].request.Some? { GoesOn(c.mux, M.SendDone(c.ops[o].request.value, result)); }
      case Caller(f) => GoesOn(c.mux, f);
      case _ =>
    }
    hide M.Reachable, M.TransmitStep, M.SendDoneStep;
  }

  /** A final answer to a request that was never sent is one no reachable multiplexer has. */
  lemma UnaskedAnswer(m: M.Mux, id: nat, payload: M.Payload)
    requires M.Reachable(m) && id in m.table
    requires m.table[id] < |m.requests| && !m.requests[m.table[id]].transmitted
    ensures !M.Reachable(Dispatch(m, id, payload, true))
  {
    var d, r := Dispatch(m, id, payload, true), m.table[id];
    assert r < |d.requests| && d.requests[r].answer.Some? && !d.requests[r].transmitted;
    hide Dispatch, M.Reachable;
    ReachableMultiplexer(d);
  }

  lemma DispatchUses(c: Conn, e: Event)
    requires M.Reachable(c.mux) && Dispatches(c, e)
    ensures M.Reachable(Apply(c, e).mux) <==> !Misuses(c, e)
  {
    var m, r := c.mux, c.mux.table[e.id];
    DispatchIsReply(m, e.id, e.payload, e.final);
    assert Apply(c, e).mux == Dispatch(m, e.id, e.payload, e.final);
    assert !e.final ==> Dispatch(m, e.id, e.payload, e.final) == m;
    hide M.Reachable, Apply, Dispatch;
    if m.requests[r].transmitted {
      GoesOn(m, M.Reply(r, e.payload, e.final));
      hide M.Apply;
    } else if e.final {
      UnaskedAnswer(m, e.id, e.payload);
    }
  }

  /** One event leaves the multiplexer in a state of its own making exactly if it does not
      misuse it. */
  lemma UseStep(c: Conn, e: Event)
    requires M.Reachable(c.mux)
    ensures M.Reachable(Apply(c, e).mux) <==> !Misuses(c, e)
  {
    if Dispatches(c, e) {
      DispatchUses(c, e);
    } else if !IsOperation(e) {
      OthersUse(c, e);
    } else if e.BeginOp? || e.BeginUngated? || e.Admit? {
      BeginningUses(c, e);
    } else {
      SendingUses(c, e);
    }
    hide M.Reachable, Apply, M.CanAllocate, MayBegin, Usable, ParkedOpen, BeginsSession;
  }

  ghost predicate AlwaysReachable(es: seq<Event>) {
    es == [] || (AlwaysReachable(es[..|es| - 1]) && M.Reachable(Run(Init(), es).mux))
  }

  predicate NeverMisused(es: seq<Event>) {
    es == [] || (NeverMisused(es[..|es| - 1]) && !Misuses(Run(Init(), es[..|es| - 1]), es[|es| - 1]))
  }

  lemma FreshIsReachable()
    ensures M.Reachable(M.Init())
  {
    var none: seq<M.Event> := [];
    assert M.TimelyRun(none) && M.Run(M.Init(), none) == M.Init();
  }

  /** Exactly when the multiplexer's theorems hold of the connection's: over every run, the
      multiplexer is at every point in a state it reaches by timely runs of its own if and
      only if no request takes an id while no session is up, no session begins over entries
      of another, and no request is answered that was never sent. */
  lemma {:induction false} DrivenExactly(es: seq<Event>)
    ensures AlwaysReachable(es) <==> NeverMisused(es)
    ensures AlwaysReachable(es) ==> M.Reachable(Run(Init(), es).mux)
    decreases |es|
  {
    FreshIsReachable();
    if es != [] {
      var c := Run(Init(), es[..|es| - 1]);
      DrivenExactly(es[..|es| - 1]);
      hide M.Reachable, Apply, Misuses;
      if M.Reachable(c.mux) {
        UseStep(c, es[|es| - 1]);
      }
    }
  }
}
