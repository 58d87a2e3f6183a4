/** What becomes of an RPC call, told from the events of the run and not from the steps: which
    frames were received, what the call failed with, whether the broker was asked to cancel,
    and how it answered; and that reads go on through what is there. */
module RpcHistories {
  import opened Options
  import opened RpcCalls

  // ----- What a run says about one call -----

  /** `deadline` and `late` say whether the call has a deadline and whether it has passed. */
  datatype Record<F> = Record(
    pending: bool, cancelling: bool, deadline: bool, late: bool, received: seq<F>, terminal: bool,
    fault: Option<Error>, drained: bool, asked: bool, future: Future)

  function Unknown<F>(): Record<F> {
    Record(false, false, false, false, [], false, None, false, false, Open)
  }

  /** The event makes the consumer give the call up: it closes or cancels it, or stops
      waiting, or its deadline is noticed. */
  predicate GivesUp<F>(cl: Client<F>, e: Event<F>, k: CallNo, late: bool) {
    Held(cl, k) &&
      match e
      case Cancel(j) => j == k
      case WaitIsCancelled(j) => j == k && cl.calls[k].waiting
      case Expire(j) => j == k && late
      case Ask(j) => j == k && late && !cl.calls[k].waiting
      case WaitTimesOut(j) => j == k && late && cl.calls[k].waiting
      case _ => false
  }

  function Settle(future: Future, outcome: Outcome): Future {
    if future == Open then Settled(outcome) else future
  }

  /** The numbers by which the broker reports what became of a cancellation. */
  const REPORTS: seq<Outcome> :=
    [QueuedRemoved, Forwarded, WorkerUnsupported, AlreadyTerminal, UnknownOrUnauthorized, ForwardingFailed]

  /** The answer that an event gives to a cancellation under way. */
  function CancelAnswer<F>(e: Event<F>, k: CallNo): Option<Outcome> {
    match e
    case Lifecycle(j, value) => if j == k && 1 <= value <= |REPORTS| then Some(REPORTS[value - 1]) else None
    case TimerFires(j) => if j == k then Some(Unconfirmed) else None
    case CancellationFailed(j, connection) =>
      if j != k then None else if connection then Some(ConnectionClosed) else Some(Unconfirmed)
    case Disconnect => Some(ConnectionClosed)
    case _ => None
  }

  /** What happens to a pending call. */
  function HearPending<F>(told: Record<F>, cl: Client<F>, e: Event<F>, k: CallNo): Record<F>
    requires k < |cl.calls|
  {
    var over := told.(pending := false);
    match e
    case Response(j, frame, end) =>
      var heard := told.(received := told.received + [frame]);
      if j != k then told
      else if |cl.calls[k].queue| >= cl.calls[k].capacity then
        heard.(pending := false, fault := Some(Backpressure), drained := true, future := Settle(told.future, NotRequested))
      else if end then heard.(pending := false, terminal := true, future := Settle(told.future, NotRequested))
      else heard
    case TerminalError(j, code) =>
      if j != k then told else over.(fault := Some(Remote(code)), future := Settle(told.future, NotRequested))
    case RequestFailed(j) => if j == k && cl.calls[k].stage == Sending then over else told
    case Disconnect => over.(fault := Some(ConnectionDown), future := Settle(told.future, ConnectionClosed))
    case _ =>
      if !GivesUp(cl, e, k, told.late) then told
      else if told.future == Open then over.(drained := true, asked := true, cancelling := true)
      else over.(drained := true)
  }

  function Hear<F>(told: Record<F>, cl: Client<F>, e: Event<F>, k: CallNo): Record<F> {
    if e.OpenCall? then
      if k == |cl.calls| then Unknown().(pending := true, deadline := e.hasDeadline) else told
    else if k >= |cl.calls| then told
    else if e.DeadlinePasses? && e.k == k then told.(late := told.late || told.deadline)
    else if e.AwaiterIsCancelled? && e.k == k then
      if Held(cl, k) && told.future == Open then told.(future := AwaiterCancelled) else told
    else if told.pending then HearPending(told, cl, e, k)
    else if told.cancelling && CancelAnswer(e, k).Some? then
      told.(cancelling := false, future := Settle(told.future, CancelAnswer(e, k).value))
    else told
  }

  function Heard<F>(capacity: nat, es: seq<Event<F>>, k: CallNo): Record<F> {
    if es == [] then Unknown()
    else Hear(Heard(capacity, es[..|es| - 1], k), Run(Init(capacity), es[..|es| - 1]), es[|es| - 1], k)
  }

  // ----- The calls' own records follow it -----

  function Recorded<F>(cl: Client<F>, k: CallNo): Record<F>
    requires k < |cl.calls|
  {
    var c := cl.calls[k];
    Record(k in cl.pending, k in cl.cancelling, c.hasDeadline, c.late, c.received, c.terminal,
           c.fault, c.drained, c.asked, c.future)
  }

  lemma TakingIsQuiet<F>(c: Call<F>)
    requires c.queue != []
    ensures var d := Take(c);
      && d.hasDeadline == c.hasDeadline && d.late == c.late && d.received == c.received && d.terminal == c.terminal
      && d.fault == c.fault && d.drained == c.drained && d.asked == c.asked && d.future == c.future
  {
    var d := Take(c);
    if c.queue[0].Frame? {
      assert d == c.(queue := d.queue, waiting := false, seen := d.seen);
    } else {
      assert d == c.(queue := d.queue, waiting := false, seen := d.seen, closed := true, failure := d.failure);
    }
    hide Take;
  }

  lemma OthersAreQuiet<F(!new)>(cl: Client<F>, e: Event<F>, k: CallNo)
    requires k < |cl.calls| && !e.OpenCall? && !e.Disconnect? && e.k != k
    ensures k < |Apply(cl, e).calls| && Recorded(Apply(cl, e), k) == Recorded(cl, k)
  {
    hide Recorded, Take, PushStep, FailStep, CancelStep, SettleStep, AskStep, TimeOut, ExpireStep;
    match e {
      case Response(j, frame, end) => if j < |cl.calls| { PushingIsQuiet(cl, j, frame, end, k); }
      case TerminalError(j, code) => if j < |cl.calls| { FailingIsQuiet(cl, j, Remote(code), true, k); }
      case Lifecycle(j, value) =>
        if LifecycleOutcome(value).Some? { SettlingIsQuiet(cl, j, LifecycleOutcome(value).value, k); }
      case TimerFires(j) => SettlingIsQuiet(cl, j, Unconfirmed, k);
      case CancellationFailed(j, connection) =>
        SettlingIsQuiet(cl, j, if connection then ConnectionClosed else Unconfirmed, k);
      case Cancel(j) => if j < |cl.calls| { CancellingIsQuiet(cl, j, k); }
      case Expire(j) => if j < |cl.calls| { CancellingIsQuiet(cl, j, k); }
      case Ask(j) => if j < |cl.calls| { AskingIsQuiet(cl, j, k); }
      case WaitTimesOut(j) => if j < |cl.calls| { CancellingIsQuiet(cl, j, k); }
      case WaitIsCancelled(j) =>
        if j < |cl.calls| {
          var waited := Set(cl, j, cl.calls[j].(waiting := false));
          CancellingIsQuiet(waited, j, k);
          SettingIsQuiet(cl, j, cl.calls[j].(waiting := false), k);
        }
      case Wake(j) => if j < |cl.calls| && cl.calls[j].queue != [] { SettingIsQuiet(cl, j, Take(cl.calls[j]), k); }
      case _ => NotingIsQuiet(cl, e, k);
    }
  }

  lemma SettingIsQuiet<F(!new)>(cl: Client<F>, j: CallNo, c: Call<F>, k: CallNo)
    requires j < |cl.calls| && k < |cl.calls| && j != k
    ensures Recorded(Set(cl, j, c), k) == Recorded(cl, k)
  {
  }

  lemma PushingIsQuiet<F(!new)>(cl: Client<F>, j: CallNo, frame: F, end: bool, k: CallNo)
    requires j < |cl.calls| && k < |cl.calls| && j != k
    ensures k < |PushStep(cl, j, frame, end).calls|
    ensures Recorded(PushStep(cl, j, frame, end), k) == Recorded(cl, k)
  {
    hide Resolve, FailedCall;
  }

  lemma FailingIsQuiet<F(!new)>(cl: Client<F>, j: CallNo, error: Error, preserve: bool, k: CallNo)
    requires j < |cl.calls| && k < |cl.calls| && j != k
    ensures var d := FailStep(cl, j, error, preserve);
      && k < |d.calls| && Recorded(d, k) == Recorded(cl, k)
      && Recorded(d.(pending := cl.pending - {j}), k) == Recorded(cl, k)
  {
    hide Resolve, FailedCall;
  }

  lemma SettlingIsQuiet<F(!new)>(cl: Client<F>, j: CallNo, outcome: Outcome, k: CallNo)
    requires k < |cl.calls| && j != k
    ensures k < |SettleStep(cl, j, outcome).calls|
    ensures Recorded(SettleStep(cl, j, outcome), k) == Recorded(cl, k)
  {
    hide Resolve;
  }

  lemma CancellingIsQuiet<F(!new)>(cl: Client<F>, j: CallNo, k: CallNo)
    requires j < |cl.calls| && k < |cl.calls| && j != k
    ensures k < |CancelStep(cl, j).calls| && Recorded(CancelStep(cl, j), k) == Recorded(cl, k)
    ensures k < |TimeOut(cl, j).calls| && Recorded(TimeOut(cl, j), k) == Recorded(cl, k)
    ensures k < |ExpireStep(cl, j).calls| && Recorded(ExpireStep(cl, j), k) == Recorded(cl, k)
  {
    hide ClosedCall;
  }

  lemma AskingIsQuiet<F(!new)>(cl: Client<F>, j: CallNo, k: CallNo)
    requires j < |cl.calls| && k < |cl.calls| && j != k
    ensures k < |AskStep(cl, j).calls| && Recorded(AskStep(cl, j), k) == Recorded(cl, k)
  {
    hide TimeOut, Take;
    var d := AskStep(cl, j);
    if d == TimeOut(cl, j) {
      CancellingIsQuiet(cl, j, k);
    } else if d != cl {
      assert d == Set(cl, j, d.calls[j]);
      SettingIsQuiet(cl, j, d.calls[j], k);
    }
    hide AskStep, Set;
  }

  lemma NotingIsQuiet<F(!new)>(cl: Client<F>, e: Event<F>, k: CallNo)
    requires k < |cl.calls|
    requires e.RequestSent? || e.RequestFailed? || e.DeadlinePasses? || e.AwaiterIsCancelled?
    requires e.k != k
    ensures k < |Apply(cl, e).calls| && Recorded(Apply(cl, e), k) == Recorded(cl, k)
  {
  }

  lemma PushIsHeard<F(!new)>(cl: Client<F>, frame: F, end: bool, k: CallNo)
    requires Inv(cl) && k < |cl.calls|
    ensures var d := Apply(cl, Response(k, frame, end));
      k < |d.calls| && Recorded(d, k) == Hear(Recorded(cl, k), cl, Response(k, frame, end), k)
  {
    assert CallInv(cl, k);
    hide Inv, Delivery, Telling;
  }

  lemma FailureIsHeard<F(!new)>(cl: Client<F>, code: nat, k: CallNo)
    requires Inv(cl) && k < |cl.calls|
    ensures var d := Apply(cl, TerminalError(k, code));
      k < |d.calls| && Recorded(d, k) == Hear(Recorded(cl, k), cl, TerminalError(k, code), k)
  {
    assert CallInv(cl, k);
    hide Inv, Delivery, Telling;
  }

  lemma GivingUpIsHeard<F(!new)>(cl: Client<F>, e: Event<F>, k: CallNo)
    requires Inv(cl) && k < |cl.calls|
    requires e == Cancel(k) || e == Expire(k) || e == WaitIsCancelled(k) || e == WaitTimesOut(k)
    ensures k < |Apply(cl, e).calls| && Recorded(Apply(cl, e), k) == Hear(Recorded(cl, k), cl, e, k)
  {
    assert CallInv(cl, k);
    hide Inv, Delivery, Telling;
  }

  lemma ReadingIsHeard<F(!new)>(cl: Client<F>, e: Event<F>, k: CallNo)
    requires Inv(cl) && k < |cl.calls| && (e == Ask(k) || e == Wake(k))
    ensures k < |Apply(cl, e).calls| && Recorded(Apply(cl, e), k) == Hear(Recorded(cl, k), cl, e, k)
  {
    assert CallInv(cl, k);
    if cl.calls[k].queue != [] { TakingIsQuiet(cl.calls[k]); }
    hide Inv, Delivery, Telling, Take;
  }

  lemma AnswerIsHeard<F(!new)>(cl: Client<F>, e: Event<F>, k: CallNo)
    requires Inv(cl) && k < |cl.calls| && (e.Lifecycle? || e.TimerFires? || e.CancellationFailed?) && e.k == k
    ensures k < |Apply(cl, e).calls| && Recorded(Apply(cl, e), k) == Hear(Recorded(cl, k), cl, e, k)
  {
    assert CallInv(cl, k);
    AnswerSettles(cl, e, k);
    hide Inv, CallInv, Apply, CancelAnswer;
  }

  lemma AnswerSettles<F(!new)>(cl: Client<F>, e: Event<F>, k: CallNo)
    requires (e.Lifecycle? || e.TimerFires? || e.CancellationFailed?) && e.k == k
    requires k < |cl.calls| && Ledger(cl, k)
    ensures var d, told := Apply(cl, e), Recorded(cl, k);
      && k < |d.calls|
      && Recorded(d, k) ==
           (if told.cancelling && CancelAnswer(e, k).Some?
            then told.(cancelling := false, future := Settle(told.future, CancelAnswer(e, k).value)) else told)
      && !(told.pending && told.cancelling)
  {
    SettlingIsHeard(cl, k, if CancelAnswer(e, k).Some? then CancelAnswer(e, k).value else Unconfirmed);
    hide SettleStep, Recorded;
  }

  lemma SettlingIsHeard<F(!new)>(cl: Client<F>, k: CallNo, outcome: Outcome)
    requires k < |cl.calls|
    ensures var d, told := SettleStep(cl, k, outcome), Recorded(cl, k);
      && k < |d.calls|
      && Recorded(d, k) == if told.cancelling then told.(cancelling := false, future := Settle(told.future, outcome))
                           else told
  {
  }

  lemma DisconnectIsHeard<F(!new)>(cl: Client<F>, k: CallNo)
    requires Inv(cl) && k < |cl.calls|
    ensures var d := Apply(cl, Disconnect);
      k < |d.calls| && Recorded(d, k) == Hear(Recorded(cl, k), cl, Disconnect, k)
  {
    assert CallInv(cl, k);
    assert DisconnectStep(cl).calls[k] == DisconnectedCall(cl, k);
    hide Inv, Delivery, Telling;
  }

  lemma RecordsAreHeard<F(!new)>(cl: Client<F>, e: Event<F>, k: CallNo)
    requires Inv(cl) && k < |cl.calls|
    requires e == RequestSent(k) || e == RequestFailed(k) || e == DeadlinePasses(k) || e == AwaiterIsCancelled(k)
    ensures k < |Apply(cl, e).calls| && Recorded(Apply(cl, e), k) == Hear(Recorded(cl, k), cl, e, k)
  {
    assert CallInv(cl, k);
    hide Inv, Delivery, Telling;
  }

  lemma HeardStep<F(!new)>(cl: Client<F>, e: Event<F>, k: CallNo)
    requires Inv(cl) && k < |cl.calls|
    ensures k < |Apply(cl, e).calls| && Recorded(Apply(cl, e), k) == Hear(Recorded(cl, k), cl, e, k)
  {
    if e.OpenCall? {
      assert Recorded(Apply(cl, e), k) == Recorded(cl, k);
    } else if e.Disconnect? {
      DisconnectIsHeard(cl, k);
    } else if e.k != k {
      OthersAreQuiet(cl, e, k);
      assert Hear(Recorded(cl, k), cl, e, k) == Recorded(cl, k);
    } else {
      hide Apply, Hear, Inv;
      match e {
        case Response(_, frame, end) => PushIsHeard(cl, frame, end, k);
        case TerminalError(_, code) => FailureIsHeard(cl, code, k);
        case Cancel(_) => GivingUpIsHeard(cl, e, k);
        case Expire(_) => GivingUpIsHeard(cl, e, k);
        case WaitIsCancelled(_) => GivingUpIsHeard(cl, e, k);
        case WaitTimesOut(_) => GivingUpIsHeard(cl, e, k);
        case Ask(_) => ReadingIsHeard(cl, e, k);
        case Wake(_) => ReadingIsHeard(cl, e, k);
        case Lifecycle(_, _) => AnswerIsHeard(cl, e, k);
        case TimerFires(_) => AnswerIsHeard(cl, e, k);
        case CancellationFailed(_, _) => AnswerIsHeard(cl, e, k);
        case _ => RecordsAreHeard(cl, e, k);
      }
    }
  }

  lemma NewCallIsHeard<F(!new)>(cl: Client<F>, e: Event<F>, k: CallNo)
    requires Inv(cl) && |cl.calls| <= k
    ensures if k < |Apply(cl, e).calls| then Recorded(Apply(cl, e), k) == Hear(Unknown(), cl, e, k)
            else Hear(Unknown<F>(), cl, e, k) == Unknown()
  {
    if !e.OpenCall? {
      NobodyNew(cl, e);
    }
  }

  lemma NobodyNew<F(!new)>(cl: Client<F>, e: Event<F>)
    requires !e.OpenCall?
    ensures |Apply(cl, e).calls| == |cl.calls|
  {
    hide Take, FailedCall, ClosedCall, Resolve;
  }

  /** Over every run, what a call records is what the run has said about it: it is pending from
      its opening until it ends, fails or is given up; the frames it received are those of the
      responses that came while it was pending, in order; its error is the one that ended it;
      the broker was asked to cancel it if it was given up before its outcome was known; and
      that outcome is the first one the run gives. */
  lemma {:induction false} RecordsFollowTheRun<F(!new)>(capacity: nat, es: seq<Event<F>>, k: CallNo)
    requires 1 <= capacity
    ensures var cl := Run(Init<F>(capacity), es);
      if k < |cl.calls| then Recorded(cl, k) == Heard(capacity, es, k) else Heard(capacity, es, k) == Unknown()
    decreases |es|
  {
    if es != [] {
      var cl, e := Run(Init<F>(capacity), es[..|es| - 1]), es[|es| - 1];
      RecordsFollowTheRun(capacity, es[..|es| - 1], k);
      RunKeepsInv<F>(Init(capacity), es[..|es| - 1]);
      hide Apply, Inv, Hear, Recorded;
      if k < |cl.calls| {
        HeardStep(cl, e, k);
      } else {
        NewCallIsHeard(cl, e, k);
      }
    }
  }

  // ----- What the consumer gets -----

  /** The consumer gets a prefix of the frames that came for its call while it was pending, in
      order.  As long as no read timed out, and unless the call was given up or fell behind,
      it is told of an end or an error only after all of them, of an error only if that ended
      the call, and then once. */
  lemma ConsumersGetTheirResponses<F(!new)>(capacity: nat, es: seq<Event<F>>, k: CallNo)
    requires 1 <= capacity && k < |Run(Init<F>(capacity), es).calls|
    ensures var c, told := Run(Init<F>(capacity), es).calls[k], Heard(capacity, es, k);
      && Frames(c.seen) <= told.received
      && (!ReadTimedOut(c) ==>
            && (RpcCalls.Told(c) && !told.drained ==> Frames(c.seen) == told.received)
            && (forall i, j :: 0 <= i < j < |c.seen| && !c.seen[i].Yielded? ==> c.seen[j] == Ended)
            && (forall e :: Raised(e) in c.seen ==> told.fault == Some(e))
            && (RpcCalls.Told(c) && told.fault.Some? ==> Raised(told.fault.value) in c.seen))
  {
    var cl := Run(Init<F>(capacity), es);
    RecordsFollowTheRun(capacity, es, k);
    assert Reachable(cl);
    FramesInOrder(cl, k);
    if !ReadTimedOut(cl.calls[k]) {
      NothingBufferedIsLost(cl, k);
    }
    hide Run, Reachable, Heard, Frames, RpcCalls.Told, ReadTimedOut;
  }

  /** A read goes on: made in time with a frame buffered, and also when it waited for one, it
      yields the next frame that was received and not yet yielded. */
  lemma ReadsYieldTheNextFrame<F(!new)>(cl: Client<F>, k: CallNo)
    requires Reachable(cl) && Held(cl, k) && !cl.calls[k].drained
    requires |Frames(cl.calls[k].seen)| < |cl.calls[k].received|
    ensures var c := cl.calls[k]; var next := c.seen + [Yielded(c.received[|Frames(c.seen)|])];
      && (!c.waiting && !c.late ==> k < |Apply(cl, Ask(k)).calls| && Apply(cl, Ask(k)).calls[k].seen == next)
      && (c.waiting ==> k < |Apply(cl, Wake(k)).calls| && Apply(cl, Wake(k)).calls[k].seen == next)
  {
    ReachableKeepsInv(cl, k);
    hide Reachable, Telling;
    var c := cl.calls[k];
    assert c.received == Frames(c.seen) + Buffered(c.queue);
    assert c.queue == [] ==> Buffered(c.queue) == [];
    NextIsBuffered(c.queue);
    assert Buffered(c.queue)[0] == c.received[|Frames(c.seen)|];
    hide Frames, Buffered;
  }

  lemma NextIsBuffered<F>(queue: seq<Item<F>>)
    requires queue != [] && Buffered(queue) != []
    requires forall i :: 0 <= i < |queue| - 1 ==> queue[i].Frame?
    ensures queue[0].Frame? && Buffered(queue)[0] == queue[0].frame
  {
    BufferedSplits(queue);
    assert |queue| > 1 ==> queue[0].Frame?;
    assert |queue| == 1 ==> queue[1..] == [] && Buffered(queue[1..]) == [];
  }

  /** A read that finds nothing buffered waits while the call is open and in time; once the
      call is over it tells the error that ended it, once, and then the end. */
  lemma ReadsTellTheEnd<F(!new)>(cl: Client<F>, k: CallNo)
    requires Reachable(cl) && Held(cl, k) && !cl.calls[k].waiting && !cl.calls[k].drained
    requires |Frames(cl.calls[k].seen)| == |cl.calls[k].received| && !ReadTimedOut(cl.calls[k])
    requires !cl.calls[k].late || (cl.calls[k].terminal && cl.calls[k].fault == None)
    ensures var c, d := cl.calls[k], Apply(cl, Ask(k));
      && k < |d.calls|
      && (!c.closed && !c.terminal ==> d.calls[k] == c.(waiting := true))
      && (c.closed || c.terminal ==>
            d.calls[k].seen == c.seen + [if c.fault.Some? && Raised(c.fault.value) !in c.seen
                                         then Raised(c.fault.value) else Ended])
  {
    ReachableKeepsInv(cl, k);
    hide Reachable;
    var c := cl.calls[k];
    assert c.received == Frames(c.seen) + Buffered(c.queue);
    assert Buffered(c.queue) == [];
    NothingLeft(c.queue);
    hide Frames;
    if c.queue != [] {
      assert c.queue[0] in c.queue;
    }
  }

  lemma NothingLeft<F>(queue: seq<Item<F>>)
    requires Buffered(queue) == [] && forall i :: 0 <= i < |queue| - 1 ==> queue[i].Frame?
    ensures queue == [] || (|queue| == 1 && !queue[0].Frame?)
  {
    if queue != [] {
      BufferedSplits(queue);
    }
  }
}
