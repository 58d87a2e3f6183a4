/** What becomes of a request, told from the events of the run and not from the steps: its
    records follow the events, its outcome follows the records, and a task whose outcome is
    settled gets it when it next runs. */
module RequestOutcomes {
  import opened Options
  import opened Multiplexers

  // ----- The events that matter to one request -----

  /** The caller is cancelled, or its response timeout fires, which counts only while the
      reply is awaited. */
  predicate Interrupts(m: Mux, e: Event, r: RequestNo) {
    && e.Interrupted? && e.r == r && r < |m.requests| && e.cause != NoInterrupt
    && !m.requests[r].phase.Finished? && (m.requests[r].phase == Sending ==> e.cause == ByCaller)
  }

  /** The send reports its result; success only if the frame went out. */
  predicate Reports(m: Mux, e: Event, r: RequestNo) {
    && e.SendDone? && e.r == r && r < |m.requests| && e.result != InFlight
    && (e.result == Delivered ==> m.requests[r].transmitted)
  }

  predicate Answers(m: Mux, e: Event, r: RequestNo) {
    e.Reply? && e.r == r && e.final && MayAnswer(m, r)
  }

  /** The request's entry is in the table with its caller behind it. */
  predicate Listens(m: Mux, r: RequestNo) {
    InTable(m, r) && !m.requests[r].tombstone
  }

  /** What the run has said about a request. */
  datatype Record = Record(interrupt: Interrupt, transmitted: bool, send: Send, answer: Option<Payload>, future: Future)

  /** What is said about request `r` after `e`: what was said first stands. */
  function Hear(told: Record, m: Mux, e: Event, r: RequestNo): Record {
    Record(
      if told.interrupt == NoInterrupt && Interrupts(m, e, r) then e.cause else told.interrupt,
      told.transmitted || (e == Transmit(r) && r < |m.requests| && told.send == InFlight),
      if told.send == InFlight && Reports(m, e, r) then e.result else told.send,
      if told.answer == None && Answers(m, e, r) then Some(e.payload) else told.answer,
      if told.future != Open then told.future
      else if Answers(m, e, r) && Listens(m, r) then Resolved(e.payload)
      else if e.Disconnect? && Listens(m, r) then Failed
      else if told.interrupt == NoInterrupt && Interrupts(m, e, r) && m.requests[r].phase == Awaiting then Cancelled
      else Open)
  }

  const SILENCE := Record(NoInterrupt, false, InFlight, None, Open)

  function Told(es: seq<Event>, r: RequestNo): Record {
    if es == [] then SILENCE
    else Hear(Told(es[..|es| - 1], r), Run(Init(), es[..|es| - 1]), es[|es| - 1], r)
  }

  function Recorded(q: Request): Record {
    Record(q.interrupt, q.transmitted, q.send, q.answer, q.future)
  }

  // ----- Records follow the events -----

  lemma NobodyHears(m: Mux, e: Event, r: RequestNo)
    requires |m.requests| <= r
    ensures Hear(SILENCE, m, e, r) == SILENCE
    ensures r < |Apply(m, e).requests| ==> Recorded(Apply(m, e).requests[r]) == SILENCE
  {
  }

  lemma ReplyIsHeard(m: Mux, r: RequestNo, payload: Payload, final: bool, i: RequestNo)
    requires WholeInv(m) && i < |m.requests|
    ensures i < |ReplyStep(m, r, payload, final).requests|
    ensures Recorded(ReplyStep(m, r, payload, final).requests[i])
         == Hear(Recorded(m.requests[i]), m, Reply(r, payload, final), i)
  {
    if MayAnswer(m, r) && final {
      FinalAnswer(m, r, payload);
      hide ReplyStep, Table, Ids, Requests, NobodyStranded, Rejections;
    }
  }

  lemma ForgettingIsQuiet(m: Mux, r: RequestNo, outcome: Outcome, i: RequestNo)
    requires i < |m.requests| && r < |m.requests|
    ensures i < |Forget(m, r, outcome).requests|
    ensures Recorded(Forget(m, r, outcome).requests[i]) == Recorded(m.requests[i])
  {
  }

  lemma ResumedSendIsQuiet(m: Mux, r: RequestNo, i: RequestNo)
    requires i < |m.requests|
    ensures i < |ResumeSendStep(m, r).requests|
    ensures Recorded(ResumeSendStep(m, r).requests[i]) == Recorded(m.requests[i])
  {
    if r < |m.requests| && m.requests[r].phase == Sending && SendMustBeForgotten(m.requests[r]) {
      ForgettingIsQuiet(m, r, FailureOutcome(m.requests[r].interrupt, m.requests[r].send.why), i);
      hide Recorded;
    }
    hide Forget;
  }

  lemma ResumedAwaitIsQuiet(m: Mux, r: RequestNo, i: RequestNo)
    requires i < |m.requests|
    ensures i < |ResumeAwaitStep(m, r).requests|
    ensures Recorded(ResumeAwaitStep(m, r).requests[i]) == Recorded(m.requests[i])
  {
  }

  lemma SendingIsHeard(m: Mux, e: Event, i: RequestNo)
    requires i < |m.requests| && RequestInv(m, m.requests[i])
    requires e.Transmit? || e.SendDone?
    ensures i < |Apply(m, e).requests|
    ensures Recorded(Apply(m, e).requests[i]) == Hear(Recorded(m.requests[i]), m, e, i)
  {
  }

  lemma InterruptIsHeard(m: Mux, r: RequestNo, cause: Interrupt, i: RequestNo)
    requires i < |m.requests|
    ensures i < |InterruptStep(m, r, cause).requests|
    ensures Recorded(InterruptStep(m, r, cause).requests[i])
         == Hear(Recorded(m.requests[i]), m, Interrupted(r, cause), i)
  {
    if r == i {
      assert InterruptStep(m, r, cause).requests[i] ==
        if !Interrupts(m, Interrupted(r, cause), i) || m.requests[i].interrupt != NoInterrupt then m.requests[i]
        else m.requests[i].(interrupt := cause,
                            future := if m.requests[i].phase == Awaiting && m.requests[i].future == Open then Cancelled
                                      else m.requests[i].future);
    }
    hide InterruptStep;
  }

  lemma HeardStep(m: Mux, e: Event, i: RequestNo)
    requires WholeInv(m) && i < |m.requests|
    ensures i < |Apply(m, e).requests|
    ensures Recorded(Apply(m, e).requests[i]) == Hear(Recorded(m.requests[i]), m, e, i)
  {
    assert RequestInv(m, m.requests[i]);
    hide WholeInv, RequestInv;
    match e {
      case Reply(r, payload, final) => ReplyIsHeard(m, r, payload, final, i);
      case ResumeSend(r) => ResumedSendIsQuiet(m, r, i);
      case ResumeAwait(r) => ResumedAwaitIsQuiet(m, r, i);
      case Transmit(_) => SendingIsHeard(m, e, i);
      case SendDone(_, _) => SendingIsHeard(m, e, i);
      case Interrupted(r, cause) => InterruptIsHeard(m, r, cause, i);
      case _ =>
    }
    hide ReplyStep, ResumeSendStep, ResumeAwaitStep, TransmitStep, SendDoneStep, InterruptStep;
  }

  /** Over every timely run, what a request records is what the run has said about it: its
      first interruption, whether it was transmitted, the result its send reported, its first
      final reply, and what came to its caller first of reply, disconnect and cancellation. */
  lemma {:induction false} RecordsFollowTheRun(es: seq<Event>, r: RequestNo)
    requires TimelyRun(es)
    ensures var m := Run(Init(), es);
      if r < |m.requests| then Recorded(m.requests[r]) == Told(es, r) else Told(es, r) == SILENCE
    decreases |es|
  {
    if es != [] {
      var m, e := Run(Init(), es[..|es| - 1]), es[|es| - 1];
      RecordsFollowTheRun(es[..|es| - 1], r);
      RunKeepsInv(es[..|es| - 1]);
      hide Apply, WholeInv, Hear, Recorded;
      if r < |m.requests| {
        HeardStep(m, e, r);
      } else {
        NobodyHears(m, e, r);
      }
    }
  }

  // ----- Outcomes follow the records -----

  /** A finished request was cancelled if its caller was, timed out if its response timeout
      fired, raised if its send failed or the session was lost, and otherwise returned the
      reply its future was resolved with. */
  lemma OutcomeFollowsRecords(m: Mux, r: RequestNo)
    requires Reachable(m) && r < |m.requests| && m.requests[r].phase.Finished?
    ensures var q := m.requests[r];
      && (q.interrupt == ByCaller ==> q.phase.outcome == WasCancelled)
      && (q.interrupt == ByTimeout ==> q.phase.outcome == TimedOut)
      && (q.interrupt == NoInterrupt && q.send.SendFailed? ==>
            q.phase.outcome == (if q.send.why == BuiltinTimeout then TimedOut else Raised))
      && (q.interrupt == NoInterrupt && !q.send.SendFailed? ==>
            && q.send == Delivered
            && (q.future.Resolved? || q.future == Failed)
            && (q.future.Resolved? ==> q.phase.outcome == Returned(q.future.payload))
            && (q.future == Failed ==> q.phase.outcome == Raised))
  {
    hide Reachable;
    ReachableKeepsInv(m);
    assert RequestInv(m, m.requests[r]);
  }

  /** The same, from the run alone: an uninterrupted request that was delivered and heard its
      reply first returns it, and so on. */
  lemma OutcomeFollowsTheRun(es: seq<Event>, r: RequestNo)
    requires TimelyRun(es) && r < |Run(Init(), es).requests| && Run(Init(), es).requests[r].phase.Finished?
    ensures var outcome, told := Run(Init(), es).requests[r].phase.outcome, Told(es, r);
      outcome ==
        if told.interrupt == ByCaller then WasCancelled
        else if told.interrupt == ByTimeout then TimedOut
        else if told.send.SendFailed? then (if told.send.why == BuiltinTimeout then TimedOut else Raised)
        else if told.future.Resolved? then Returned(told.future.payload)
        else Raised
  {
    RecordsFollowTheRun(es, r);
    assert Reachable(Run(Init(), es));
    OutcomeFollowsRecords(Run(Init(), es), r);
    hide Run, Told, Reachable;
  }

  // ----- Tasks go on -----

  /** A waiting task finishes the next time it runs if and only if it was interrupted or its
      future is no longer open. */
  lemma AwaitEndsExactly(m: Mux, r: RequestNo)
    requires r < |m.requests| && m.requests[r].phase == Awaiting
    ensures r < |Apply(m, ResumeAwait(r)).requests|
    ensures Apply(m, ResumeAwait(r)).requests[r].phase.Finished?
      <==> m.requests[r].interrupt != NoInterrupt || m.requests[r].future != Open
  {
  }

  /** A sending task goes on the next time it runs if and only if its send is over; it then
      awaits the reply if the frame went out and nobody cancelled it, and is finished
      otherwise. */
  lemma SendEndsExactly(m: Mux, r: RequestNo)
    requires r < |m.requests| && m.requests[r].phase == Sending
    ensures var n := Apply(m, ResumeSend(r));
      && r < |n.requests|
      && (n.requests[r].phase != Sending <==> m.requests[r].send != InFlight)
      && (n.requests[r].phase == Awaiting <==> m.requests[r].send == Delivered && m.requests[r].interrupt == NoInterrupt)
  {
  }

  /** So a caller that awaits its reply, and neither was cancelled nor timed out nor lost its
      entry, returns the reply the broker sends it. */
  lemma AnsweredCallerReturns(m: Mux, r: RequestNo, payload: Payload)
    requires Reachable(m) && MayAnswer(m, r) && m.requests[r].dropped == Kept
    requires m.requests[r].phase == Awaiting && m.requests[r].interrupt == NoInterrupt && m.requests[r].future == Open
    ensures var n := Apply(Apply(m, Reply(r, payload, true)), ResumeAwait(r));
      r < |n.requests| && n.requests[r].phase == Finished(Returned(payload))
  {
    var d := Apply(m, Reply(r, payload, true));
    ReplyReachesItsCaller(m, r, payload);
    ReachableKeepsInv(m);
    FinalAnswer(m, r, payload);
    assert d.requests[r].phase == Awaiting && d.requests[r].interrupt == NoInterrupt;
    hide Reachable, ReplyStep;
  }

  // ----- Correlation ids -----

  /** A request is new only when it is issued, and takes the next id of its session. */
  lemma NewRequestsTakeTheNextId(m: Mux, e: Event)
    ensures |m.requests| <= |Apply(m, e).requests|
    ensures |m.requests| < |Apply(m, e).requests| <==> e.Issue? && m.version && m.nextId <= LAST_ID
    ensures |m.requests| < |Apply(m, e).requests| ==>
      && |Apply(m, e).requests| == |m.requests| + 1
      && Apply(m, e).requests[|m.requests|].id == m.nextId
      && Apply(m, e).requests[|m.requests|].session == m.session
      && Apply(m, e).requests[|m.requests|].phase == Sending
  {
    if e.ResumeSend? {
      ResumeSendSettles(m, e.r);
    } else if e.Reply? {
      AnsweringAddsNobody(m, e.r, e.payload, e.final);
    }
    hide ResumeSendStep, ReplyStep, Settled;
  }

  lemma AnsweringAddsNobody(m: Mux, r: RequestNo, payload: Payload, final: bool)
    ensures |ReplyStep(m, r, payload, final).requests| == |m.requests|
  {
  }

  /** How many ids have been taken since the last session began. */
  function Taken(es: seq<Event>): nat {
    if es == [] then 0
    else
      var taken, m, e := Taken(es[..|es| - 1]), Run(Init(), es[..|es| - 1]), es[|es| - 1];
      if e.Connect? then 0
      else if taken < LAST_ID && ((e.Issue? && m.version) || e.OneWay?) then taken + 1
      else taken
  }

  /** Ids are taken one after the other, by requests and one-way frames alike, from 1 on in
      every session. */
  lemma {:induction false} IdsAreTakenInTurn(es: seq<Event>)
    ensures Run(Init(), es).nextId == Taken(es) + 1
    decreases |es|
  {
    if es != [] {
      IdsAreTakenInTurn(es[..|es| - 1]);
      var m, e := Run(Init(), es[..|es| - 1]), es[|es| - 1];
      assert e.Reply? ==> ReplyStep(m, e.r, e.payload, e.final).nextId == m.nextId;
      hide ReplyStep;
    }
  }
}
