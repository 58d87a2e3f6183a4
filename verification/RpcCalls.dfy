/** The caller's side of RPC: streamed response frames, deadlines, best-effort remote
    cancellation and its outcome.

    Calls are numbered in the order they are opened; the number stands for the call's random
    16-byte correlation key.  One event is the code between two suspension points.  A call
    has one consumer, which asks for one frame at a time. */
module RpcCalls {
  import opened Options

  type CallNo = nat

  datatype Error = Remote(code: nat) | ConnectionDown | Backpressure | TimedOut

  datatype Item<F> = Frame(frame: F) | Fault(error: Error) | EndMark

  /** What the consumer's requests came to. */
  datatype Seen<F> = Yielded(frame: F) | Raised(error: Error) | Ended

  datatype Outcome =
    | NotRequested
    | ConnectionClosed
    | QueuedRemoved
    | Forwarded
    | WorkerUnsupported
    | AlreadyTerminal
    | UnknownOrUnauthorized
    | ForwardingFailed
    | Unconfirmed

  /** The `_cancellation` future.  A task that awaits it directly and is cancelled cancels
      the future itself. */
  datatype Future = Open | Settled(outcome: Outcome) | AwaiterCancelled

  /** `NotSent`: the request frame could not be sent, and `open_call` raised. */
  datatype Stage = Sending | Returned | NotSent

  /** `received`, `seen`, `drained`, `fault` and `asked` record the run: the frames that
      arrived for the call, what its consumer saw, whether buffered frames were thrown away,
      the error the call failed with, and whether the broker was asked to cancel. */
  datatype Call<F> = Call(
    capacity: nat, stage: Stage, queue: seq<Item<F>>, closed: bool, terminal: bool, failure: Option<Error>,
    future: Future, hasDeadline: bool, late: bool, waiting: bool,
    received: seq<F>, seen: seq<Seen<F>>, drained: bool, fault: Option<Error>, asked: bool)

  /** `pending`, `cancelling` and `timers` are the calls in `_pending`, in
      `_pending_cancellations`, and with a live grace timer. */
  datatype Client<F> = Client(
    capacity: nat, calls: seq<Call<F>>, pending: set<CallNo>, cancelling: set<CallNo>, timers: set<CallNo>)

  datatype Event<F> =
    | OpenCall(hasDeadline: bool)
    | RequestSent(k: CallNo)
    | RequestFailed(k: CallNo)
    | Response(k: CallNo, frame: F, end: bool)
    | TerminalError(k: CallNo, code: nat)
    | Lifecycle(k: CallNo, value: nat)
    | TimerFires(k: CallNo)
    | CancellationFailed(k: CallNo, connection: bool)
    | DeadlinePasses(k: CallNo)
    | Expire(k: CallNo)
    | Cancel(k: CallNo)
    | AwaiterIsCancelled(k: CallNo)
    | Ask(k: CallNo)
    | Wake(k: CallNo)
    | WaitTimesOut(k: CallNo)
    | WaitIsCancelled(k: CallNo)
    | Disconnect

  function Init<F>(capacity: nat): Client<F> {
    Client(capacity, [], {}, {}, {})
  }

  // ----- One call -----

  function NewCall<F>(capacity: nat, hasDeadline: bool): Call<F> {
    Call(capacity, Sending, [], false, false, None, Open, hasDeadline, false, false, [], [], false, None, false)
  }

  function Resolve<F>(c: Call<F>, outcome: Outcome): Call<F> {
    if c.future == Open then c.(future := Settled(outcome)) else c
  }

  /** `fail`: the error goes behind what is buffered, or beside it when the buffer is full. */
  function FailedCall<F>(c: Call<F>, error: Error, preserve: bool): Call<F> {
    var d := c.(closed := true, fault := Some(error), queue := if preserve then c.queue else [],
                drained := c.drained || !preserve);
    if |d.queue| < c.capacity then d.(queue := d.queue + [Fault(error)], failure := None)
    else d.(failure := Some(error))
  }

  function FailureOutcome(error: Error): Outcome {
    if error == ConnectionDown then ConnectionClosed else NotRequested
  }

  /** `_close_and_cancel` on an open call: what is buffered is thrown away. */
  function ClosedCall<F>(c: Call<F>): Call<F> {
    c.(closed := true, queue := [EndMark], drained := true)
  }

  /** The consumer takes the next item of the queue. */
  function Take<F>(c: Call<F>): Call<F>
    requires c.queue != []
  {
    var d := c.(queue := c.queue[1..], waiting := false);
    match c.queue[0]
    case Frame(frame) => d.(seen := c.seen + [Yielded(frame)])
    case Fault(error) => d.(closed := true, failure := None, seen := c.seen + [Raised(error)])
    case EndMark =>
      if c.failure.Some?
      then d.(closed := true, failure := None, seen := c.seen + [Raised(c.failure.value)])
      else d.(closed := true, seen := c.seen + [Ended])
  }

  // ----- The atomic steps -----

  function Set<F>(cl: Client<F>, k: CallNo, c: Call<F>): Client<F>
    requires k < |cl.calls|
  {
    cl.(calls := cl.calls[k := c])
  }

  /** `fail` on the call, with `_finish_call`. */
  function FailStep<F>(cl: Client<F>, k: CallNo, error: Error, preserve: bool): Client<F>
    requires k < |cl.calls|
  {
    if cl.calls[k].closed then cl
    else Set(cl, k, Resolve(FailedCall(cl.calls[k], error, preserve), FailureOutcome(error)))
           .(pending := cl.pending - {k})
  }

  function PushStep<F>(cl: Client<F>, k: CallNo, frame: F, end: bool): Client<F>
    requires k < |cl.calls|
  {
    var c := cl.calls[k];
    if c.closed then cl
    else if |c.queue| >= c.capacity then
      FailStep(Set(cl, k, c.(received := c.received + [frame])), k, Backpressure, false)
    else
      var d := c.(queue := c.queue + [Frame(frame)], received := c.received + [frame]);
      if end then Set(cl, k, Resolve(d.(terminal := true), NotRequested)).(pending := cl.pending - {k})
      else Set(cl, k, d)
  }

  /** `_close_and_cancel` up to its first wait: the broker is asked to cancel, unless the
      call's outcome is already known. */
  function CancelStep<F>(cl: Client<F>, k: CallNo): Client<F>
    requires k < |cl.calls|
  {
    var c := cl.calls[k];
    if c.terminal || c.closed then cl
    else if c.future != Open || k in cl.cancelling then Set(cl, k, ClosedCall(c)).(pending := cl.pending - {k})
    else
      Set(cl, k, ClosedCall(c).(asked := true))
        .(pending := cl.pending - {k}, cancelling := cl.cancelling + {k}, timers := cl.timers + {k})
  }

  function SettleStep<F>(cl: Client<F>, k: CallNo, outcome: Outcome): Client<F> {
    if k !in cl.cancelling || k >= |cl.calls| then cl
    else Set(cl, k, Resolve(cl.calls[k], outcome)).(cancelling := cl.cancelling - {k}, timers := cl.timers - {k})
  }

  function LifecycleOutcome(value: nat): Option<Outcome> {
    match value
    case 1 => Some(QueuedRemoved)
    case 2 => Some(Forwarded)
    case 3 => Some(WorkerUnsupported)
    case 4 => Some(AlreadyTerminal)
    case 5 => Some(UnknownOrUnauthorized)
    case 6 => Some(ForwardingFailed)
    case _ => None
  }

  /** `__anext__` up to its first wait. */
  function AskStep<F>(cl: Client<F>, k: CallNo): Client<F>
    requires k < |cl.calls|
  {
    var c := cl.calls[k];
    if c.waiting then cl
    else if c.failure.Some? && c.queue == [] then
      Set(cl, k, c.(failure := None, seen := c.seen + [Raised(c.failure.value)]))
    else if (c.closed || c.terminal) && c.queue == [] then Set(cl, k, c.(seen := c.seen + [Ended]))
    else if c.late then TimeOut(cl, k)
    else if c.queue == [] then Set(cl, k, c.(waiting := true))
    else Set(cl, k, Take(c))
  }

  /** The consumer gives up at the deadline. */
  function TimeOut<F>(cl: Client<F>, k: CallNo): Client<F>
    requires k < |cl.calls|
  {
    var d := CancelStep(cl, k);
    if k >= |d.calls| then d
    else Set(d, k, d.calls[k].(waiting := false, seen := d.calls[k].seen + [Raised(TimedOut)]))
  }

  /** The task that watches the deadline. */
  function ExpireStep<F>(cl: Client<F>, k: CallNo): Client<F>
    requires k < |cl.calls|
  {
    var c := cl.calls[k];
    if !c.late || c.closed || c.terminal then cl
    else CancelStep(Set(cl, k, c.(failure := Some(TimedOut))), k)
  }

  /** `_disconnect`: every pending call fails, every unconfirmed cancellation is settled. */
  function DisconnectedCall<F>(cl: Client<F>, k: CallNo): Call<F>
    requires k < |cl.calls|
  {
    var c := cl.calls[k];
    var failed := if k in cl.pending && !c.closed
                  then Resolve(FailedCall(c, ConnectionDown, true), FailureOutcome(ConnectionDown)) else c;
    if k in cl.cancelling then Resolve(failed, ConnectionClosed) else failed
  }

  function DisconnectStep<F>(cl: Client<F>): Client<F> {
    cl.(calls := seq(|cl.calls|, k requires 0 <= k < |cl.calls| => DisconnectedCall(cl, k)),
        pending := {}, cancelling := {}, timers := {})
  }

  function OpenStep<F>(cl: Client<F>, hasDeadline: bool): Client<F> {
    cl.(calls := cl.calls + [NewCall(cl.capacity, hasDeadline)], pending := cl.pending + {|cl.calls|})
  }

  predicate Held<F>(cl: Client<F>, k: CallNo) {
    k < |cl.calls| && cl.calls[k].stage == Returned
  }

  function Apply<F>(cl: Client<F>, e: Event<F>): Client<F> {
    match e
    case OpenCall(hasDeadline) => OpenStep(cl, hasDeadline)
    case RequestSent(k) =>
      if k < |cl.calls| && cl.calls[k].stage == Sending then Set(cl, k, cl.calls[k].(stage := Returned)) else cl
    case RequestFailed(k) =>
      if k < |cl.calls| && cl.calls[k].stage == Sending
      then Set(cl, k, cl.calls[k].(stage := NotSent)).(pending := cl.pending - {k}) else cl
    case Response(k, frame, end) => if k in cl.pending && k < |cl.calls| then PushStep(cl, k, frame, end) else cl
    case TerminalError(k, code) =>
      if k in cl.pending && k < |cl.calls| then FailStep(cl, k, Remote(code), true).(pending := cl.pending - {k})
      else cl
    case Lifecycle(k, value) =>
      if LifecycleOutcome(value).Some? then SettleStep(cl, k, LifecycleOutcome(value).value) else cl
    case TimerFires(k) => if k in cl.timers then SettleStep(cl, k, Unconfirmed) else cl
    case CancellationFailed(k, connection) => SettleStep(cl, k, if connection then ConnectionClosed else Unconfirmed)
    case DeadlinePasses(k) =>
      if k < |cl.calls| && cl.calls[k].hasDeadline then Set(cl, k, cl.calls[k].(late := true)) else cl
    case Expire(k) => if Held(cl, k) then ExpireStep(cl, k) else cl
    case Cancel(k) => if Held(cl, k) then CancelStep(cl, k) else cl
    case AwaiterIsCancelled(k) =>
      if Held(cl, k) && cl.calls[k].future == Open then Set(cl, k, cl.calls[k].(future := AwaiterCancelled)) else cl
    case Ask(k) => if Held(cl, k) then AskStep(cl, k) else cl
    case Wake(k) =>
      if Held(cl, k) && cl.calls[k].waiting && cl.calls[k].queue != [] then Set(cl, k, Take(cl.calls[k])) else cl
    case WaitTimesOut(k) =>
      if Held(cl, k) && cl.calls[k].waiting && cl.calls[k].late then TimeOut(cl, k) else cl
    case WaitIsCancelled(k) =>
      if Held(cl, k) && cl.calls[k].waiting
      then CancelStep(Set(cl, k, cl.calls[k].(waiting := false)), k) else cl
    case Disconnect => DisconnectStep(cl)
  }

  function Run<F>(cl: Client<F>, es: seq<Event<F>>): Client<F> {
    if es == [] then cl else Apply(Run(cl, es[..|es| - 1]), es[|es| - 1])
  }

  // ----- What a run keeps -----

  /** The frames still buffered, in order. */
  function Buffered<F>(queue: seq<Item<F>>): seq<F> {
    if queue == [] then []
    else (if queue[0].Frame? then [queue[0].frame] else []) + Buffered(queue[1..])
  }

  /** The frames the consumer got, in order. */
  function Frames<F>(seen: seq<Seen<F>>): seq<F> {
    if seen == [] then []
    else
      var last := seen[|seen| - 1];
      Frames(seen[..|seen| - 1]) + (if last.Yielded? then [last.frame] else [])
  }

  /** The consumer was told of the end or of an error. */
  predicate Told<F>(c: Call<F>) {
    exists i :: 0 <= i < |c.seen| && !c.seen[i].Yielded?
  }

  ghost predicate Delivery<F(!new)>(c: Call<F>) {
    && 1 <= c.capacity
    && |c.queue| <= c.capacity
    && (forall i :: 0 <= i < |c.queue| - 1 ==> c.queue[i].Frame?)
    && (!c.closed ==> forall i :: 0 <= i < |c.queue| ==> c.queue[i].Frame?)
    && (c.drained ==> c.closed)
    && (if c.drained then Frames(c.seen) <= c.received && Buffered(c.queue) == []
        else c.received == Frames(c.seen) + Buffered(c.queue))
    && (c.failure.Some? ==> c.closed)
  }

  /** Open: neither closed nor ended by a terminal frame. */
  predicate IsOpen<F>(c: Call<F>) {
    !c.closed && !c.terminal
  }

  /** A read of the call timed out. */
  predicate ReadTimedOut<F>(c: Call<F>) {
    exists i :: 0 <= i < |c.seen| && c.seen[i] == Raised(TimedOut)
  }

  /** How the end of a call is kept for its consumer. */
  ghost predicate Standing<F(!new)>(c: Call<F>) {
    && (c.fault.Some? ==> c.closed && c.fault.value != TimedOut)
    && (forall e :: Fault(e) in c.queue ==> c.fault == Some(e))
    && (EndMark in c.queue ==> c.fault == None && c.drained)
    && (c.closed && c.fault == None ==> c.drained)
    && (c.failure.Some? ==> c.failure == c.fault || (c.failure == Some(TimedOut) && c.drained && c.late))
    && (ReadTimedOut(c) ==> c.late)
    && (c.waiting && c.queue == [] ==> IsOpen(c))
  }

  /** As long as no read timed out: once told, the consumer has nothing left to read; it was
      told of an error only if the call failed with it, and a call that failed tells it. */
  ghost predicate Story<F(!new)>(c: Call<F>) {
    !ReadTimedOut(c) ==>
      && (Told(c) ==> c.queue == [] && c.failure == None && !IsOpen(c))
      && (forall i, j :: 0 <= i < j < |c.seen| && !c.seen[i].Yielded? ==> c.seen[j] == Ended)
      && (forall e :: Raised(e) in c.seen ==> c.fault == Some(e))
      && (c.fault.Some? ==>
            c.failure == c.fault || Fault(c.fault.value) in c.queue || Raised(c.fault.value) in c.seen)
  }

  /** When a read timed out and nothing was thrown away, something is still buffered, on an
      ended call past its deadline. */
  ghost predicate Withheld<F(!new)>(c: Call<F>) {
    ReadTimedOut(c) && !c.drained ==> c.queue != [] && !IsOpen(c) && !c.waiting
  }

  ghost predicate Telling<F(!new)>(c: Call<F>) {
    Standing(c) && Story(c) && Withheld(c)
  }

  ghost predicate Ledger<F(!new)>(cl: Client<F>, k: CallNo)
    requires k < |cl.calls|
  {
    var c := cl.calls[k];
    && (k in cl.timers <==> k in cl.cancelling)
    && (k in cl.pending ==> !c.closed && !c.terminal && k !in cl.cancelling && !c.asked && c.stage != NotSent)
    && (k in cl.cancelling ==> c.asked && c.closed && c.stage == Returned)
    && (k in cl.pending || k in cl.cancelling ==> !c.future.Settled?)
    && (c.stage != NotSent && k !in cl.pending && k !in cl.cancelling ==> c.future != Open)
    && (c.stage != NotSent && !c.closed && !c.terminal ==> k in cl.pending)
    && (c.future == AwaiterCancelled ==> c.stage == Returned)
    && (c.future.Settled? && c.future.outcome == NotRequested ==> !c.asked)
    && (c.future.Settled? && !c.asked ==> c.future.outcome == NotRequested || c.future.outcome == ConnectionClosed)
  }

  ghost predicate CallInv<F(!new)>(cl: Client<F>, k: CallNo)
    requires k < |cl.calls|
  {
    Ledger(cl, k) && Delivery(cl.calls[k]) && Telling(cl.calls[k])
  }

  ghost predicate Inv<F(!new)>(cl: Client<F>) {
    && 1 <= cl.capacity
    && (forall k :: k in cl.pending || k in cl.cancelling || k in cl.timers ==> k < |cl.calls|)
    && (forall k :: 0 <= k < |cl.calls| ==> CallInv(cl, k))
  }

  // ----- One call -----

  lemma {:induction false} BufferedAppends<F>(queue: seq<Item<F>>, item: Item<F>)
    ensures Buffered(queue + [item]) == Buffered(queue) + Buffered([item])
    decreases |queue|
  {
    if queue == [] {
      assert queue + [item] == [item] && Buffered(queue) == [];
    } else {
      var rest := queue[1..];
      BufferedAppends(rest, item);
      assert (queue + [item])[1..] == rest + [item] && (queue + [item])[0] == queue[0];
      hide Buffered;
      var head := if queue[0].Frame? then [queue[0].frame] else [];
      assert Buffered(queue) == head + Buffered(rest) by { BufferedSplits(queue); }
      assert Buffered(queue + [item]) == head + Buffered(rest + [item]) by { BufferedSplits(queue + [item]); }
      assert head + (Buffered(rest) + Buffered([item])) == (head + Buffered(rest)) + Buffered([item]);
    }
  }

  lemma BufferedSplits<F>(queue: seq<Item<F>>)
    requires queue != []
    ensures Buffered(queue) == (if queue[0].Frame? then [queue[0].frame] else []) + Buffered(queue[1..])
  {
  }

  lemma BufferedOfOne<F>(item: Item<F>)
    ensures Buffered([item]) == if item.Frame? then [item.frame] else []
  {
    assert [item][1..] == [];
  }

  lemma FramesAppend<F>(seen: seq<Seen<F>>, s: Seen<F>)
    ensures Frames(seen + [s]) == Frames(seen) + (if s.Yielded? then [s.frame] else [])
  {
    assert (seen + [s])[..|seen|] == seen;
  }

  lemma PushedKeeps<F(!new)>(c: Call<F>, frame: F, end: bool)
    requires Delivery(c) && Telling(c) && IsOpen(c) && |c.queue| < c.capacity
    ensures var d := c.(queue := c.queue + [Frame(frame)], received := c.received + [frame], terminal := end);
      Delivery(d) && Telling(d)
  {
    BufferedAppends(c.queue, Frame(frame));
    BufferedOfOne(Frame(frame));
  }

  lemma FailedKeeps<F(!new)>(c: Call<F>, error: Error, preserve: bool)
    requires Delivery(c) && Telling(c) && IsOpen(c) && error != TimedOut
    ensures Delivery(FailedCall(c, error, preserve)) && Telling(FailedCall(c, error, preserve))
  {
    FailedKeepsDelivery(c, error, preserve);
    FailedKeepsTelling(c, error, preserve);
  }

  lemma FailedKeepsDelivery<F(!new)>(c: Call<F>, error: Error, preserve: bool)
    requires Delivery(c) && IsOpen(c)
    ensures Delivery(FailedCall(c, error, preserve))
  {
    BufferedAppends(c.queue, Fault(error));
    BufferedOfOne<F>(Fault(error));
    var d := FailedCall(c, error, preserve);
    hide Buffered, Frames;
    assert Frames(c.seen) <= c.received;
    if !preserve {
      assert d.queue == [Fault(error)];
    } else {
      assert Buffered(c.queue) + [] == Buffered(c.queue);
    }
  }

  lemma FailedKeepsTelling<F(!new)>(c: Call<F>, error: Error, preserve: bool)
    requires Telling(c) && IsOpen(c) && Delivery(c) && error != TimedOut
    ensures Telling(FailedCall(c, error, preserve))
  {
    hide Buffered, Frames;
    assert !ReadTimedOut(c) && !Told(c);
    FailedQueue(c, error, preserve);
    hide FailedCall;
  }

  /** Where the error of a failing call is kept. */
  lemma FailedQueue<F(!new)>(c: Call<F>, error: Error, preserve: bool)
    requires forall i :: 0 <= i < |c.queue| ==> c.queue[i].Frame?
    ensures var d := FailedCall(c, error, preserve);
      && d == c.(closed := true, fault := Some(error), queue := d.queue, failure := d.failure,
                 drained := c.drained || !preserve)
      && (forall e :: Fault(e) in d.queue ==> e == error) && EndMark !in d.queue
      && (d.failure == None ==> Fault(error) in d.queue) && (d.failure.Some? ==> d.failure == Some(error))
  {
    var d, kept := FailedCall(c, error, preserve), if preserve then c.queue else [];
    assert d.queue == kept + (if |kept| < c.capacity then [Fault(error)] else []);
    hide FailedCall;
    assert forall x :: x in kept ==> x.Frame?;
    assert forall x :: x in d.queue ==> x in kept || x == Fault(error);
  }

  lemma ClosedKeeps<F(!new)>(c: Call<F>)
    requires Delivery(c) && Telling(c) && IsOpen(c)
    ensures Delivery(ClosedCall(c)) && Telling(ClosedCall(c))
  {
    assert Buffered(ClosedCall(c).queue) == [];
  }

  lemma TakeKeepsDelivery<F(!new)>(c: Call<F>)
    requires Delivery(c) && c.queue != []
    ensures Delivery(Take(c))
  {
    BufferedSplits(c.queue);
    if c.queue[0].Frame? {
      TakeFrameKeepsDelivery(c);
    } else {
      TakeLastKeepsDelivery(c);
    }
  }

  lemma TakeFrameKeepsDelivery<F(!new)>(c: Call<F>)
    requires Delivery(c) && c.queue != [] && c.queue[0].Frame?
    ensures Delivery(Take(c))
  {
    var d, head, rest := Take(c), [c.queue[0].frame], Buffered(c.queue[1..]);
    FramesAppend(c.seen, Yielded(c.queue[0].frame));
    BufferedSplits(c.queue);
    hide Buffered, Frames;
    assert Buffered(c.queue)[0] == c.queue[0].frame;
    assert Frames(c.seen) + (head + rest) == (Frames(c.seen) + head) + rest;
    assert forall i :: 0 <= i < |d.queue| ==> d.queue[i] == c.queue[i + 1];
  }

  lemma TakeLastKeepsDelivery<F(!new)>(c: Call<F>)
    requires Delivery(c) && c.queue != [] && !c.queue[0].Frame?
    ensures Delivery(Take(c))
  {
    hide Buffered, Frames;
    var d, told := Take(c), Take(c).seen[|c.seen|];
    assert |c.queue| == 1 && d.queue == [] && c.queue == [c.queue[0]] && c.closed;
    assert d.seen == c.seen + [told] && !told.Yielded?;
    FramesAppend(c.seen, told);
    BufferedOfOne(c.queue[0]);
    NothingBuffered<F>();
    assert Frames(c.seen) + [] == Frames(c.seen);
  }

  lemma NothingBuffered<F>()
    ensures Buffered<F>([]) == []
  {
  }

  lemma TakeKeepsTelling<F(!new)>(c: Call<F>)
    requires Delivery(c) && Telling(c) && c.queue != [] && (c.waiting || !c.late)
    ensures Telling(Take(c))
  {
    hide Buffered, Frames;
    assert ReadTimedOut(c) ==> c.drained;
    if c.queue[0].Frame? {
      TakenFrameKeepsTelling(c);
    } else {
      TakenLastKeepsTelling(c);
    }
  }

  lemma TakenFrameKeepsTelling<F(!new)>(c: Call<F>)
    requires Delivery(c) && Telling(c) && c.queue != [] && c.queue[0].Frame?
    requires ReadTimedOut(c) ==> c.drained
    ensures Telling(Take(c))
  {
    BufferedSplits(c.queue);
    hide Buffered, Frames;
    var d := Take(c);
    assert !c.drained && !ReadTimedOut(c) && !Told(c);
    assert forall i :: 0 <= i < |c.seen| ==> d.seen[i] == c.seen[i];
    assert forall i :: 0 <= i < |d.seen| ==> d.seen[i].Yielded?;
    assert forall item :: item in d.queue ==> item in c.queue;
    assert c.fault.Some? && Fault(c.fault.value) in c.queue ==> Fault(c.fault.value) in d.queue;
  }

  lemma TakenLastKeepsTelling<F(!new)>(c: Call<F>)
    requires Delivery(c) && Telling(c) && c.queue != [] && !c.queue[0].Frame?
    requires ReadTimedOut(c) ==> c.drained
    ensures Telling(Take(c))
  {
    hide Buffered, Frames;
    var d := Take(c);
    assert |c.queue| == 1 && d.queue == [] && c.closed && d.failure == None && d.fault == c.fault && d.late == c.late;
    assert c.queue[0] in c.queue && d.drained == c.drained && !d.waiting;
    SeenStays(c, d);
    if !ReadTimedOut(c) {
      TakenLastKeepsStory(c);
    }
    hide Take, Story;
  }

  lemma TakenLastKeepsStory<F(!new)>(c: Call<F>)
    requires Delivery(c) && Telling(c) && c.queue != [] && !c.queue[0].Frame? && !ReadTimedOut(c)
    ensures Story(Take(c))
  {
    hide Buffered, Frames;
    var d := Take(c);
    assert |c.queue| == 1 && d.queue == [] && c.closed && d.failure == None && d.fault == c.fault;
    assert c.queue[0] in c.queue && d.seen[|c.seen|] in d.seen;
    assert !Told(c) && forall i :: 0 <= i < |c.seen| ==> c.seen[i].Yielded? && d.seen[i] == c.seen[i];
  }

  /** The consumer is told something that is not a frame. */
  lemma ToldKeepsDelivery<F(!new)>(c: Call<F>, s: Seen<F>, d: Call<F>)
    requires Delivery(c) && !s.Yielded?
    requires d == c.(seen := c.seen + [s], failure := d.failure, waiting := d.waiting)
    requires d.failure.Some? ==> c.failure.Some?
    ensures Delivery(d)
  {
    FramesAppend(c.seen, s);
  }

  /** The consumer of a call with nothing buffered is told of the stored failure. */
  lemma FailureToldKeeps<F(!new)>(c: Call<F>)
    requires Delivery(c) && Telling(c) && c.queue == [] && c.failure.Some?
    ensures var d := c.(failure := None, seen := c.seen + [Raised(c.failure.value)]);
      Delivery(d) && Telling(d)
  {
    var d, n := c.(failure := None, seen := c.seen + [Raised(c.failure.value)]), |c.seen|;
    ToldKeepsDelivery(c, Raised(c.failure.value), d);
    hide Delivery;
    assert d.seen[n] == Raised(c.failure.value) && forall i :: 0 <= i < n ==> d.seen[i] == c.seen[i];
    assert ReadTimedOut(c) ==> c.drained;
    SeenStays(c, d);
  }

  lemma EndToldKeeps<F(!new)>(c: Call<F>)
    requires Delivery(c) && Telling(c) && c.queue == [] && c.failure == None && !IsOpen(c)
    ensures var d := c.(seen := c.seen + [Ended]);
      Delivery(d) && Telling(d)
  {
    var d, n := c.(seen := c.seen + [Ended]), |c.seen|;
    ToldKeepsDelivery(c, Ended, d);
    hide Delivery;
    assert d.seen[n] == Ended && forall i :: 0 <= i < n ==> d.seen[i] == c.seen[i];
    assert forall s :: s in c.seen ==> s in d.seen;
    SeenStays(c, d);
  }

  lemma SeenStays<F>(c: Call<F>, d: Call<F>)
    requires c.seen <= d.seen
    ensures ReadTimedOut(c) ==> ReadTimedOut(d)
    ensures Told(c) ==> Told(d)
    ensures |d.seen| == |c.seen| + 1 ==> (ReadTimedOut(d) ==> ReadTimedOut(c) || d.seen[|c.seen|] == Raised(TimedOut))
    ensures |d.seen| == |c.seen| + 1 ==> (Told(d) ==> Told(c) || !d.seen[|c.seen|].Yielded?)
  {
    if ReadTimedOut(c) {
      var i :| 0 <= i < |c.seen| && c.seen[i] == Raised(TimedOut);
      assert d.seen[i] == Raised(TimedOut);
    }
    if Told(c) {
      var i :| 0 <= i < |c.seen| && !c.seen[i].Yielded?;
      assert !d.seen[i].Yielded?;
    }
  }

  /** Resolving the outcome and other bookkeeping fields leave delivery alone; only an open
      call can start to wait. */
  lemma BookkeepingKeeps<F(!new)>(c: Call<F>, d: Call<F>)
    requires d == c.(stage := d.stage, future := d.future, waiting := d.waiting, asked := d.asked,
                     hasDeadline := d.hasDeadline, late := d.late)
    requires c.late ==> d.late
    requires d.waiting ==> c.waiting || IsOpen(c)
    ensures Delivery(c) ==> Delivery(d)
    ensures Delivery(c) && Telling(c) ==> Telling(d)
  {
  }

  // ----- All calls -----

  /** Membership of every call but `k` is as before. */
  ghost predicate OthersStay<F(!new)>(cl: Client<F>, d: Client<F>, k: CallNo) {
    && d.capacity == cl.capacity
    && (forall j :: j != k ==> (j in d.pending <==> j in cl.pending))
    && (forall j :: j != k ==> (j in d.cancelling <==> j in cl.cancelling))
    && (forall j :: j != k ==> (j in d.timers <==> j in cl.timers))
  }

  lemma OneCallKeepsInv<F(!new)>(cl: Client<F>, d: Client<F>, k: CallNo)
    requires Inv(cl) && k < |cl.calls| == |d.calls| && OthersStay(cl, d, k)
    requires forall j :: 0 <= j < |cl.calls| && j != k ==> d.calls[j] == cl.calls[j]
    requires CallInv(d, k)
    ensures Inv(d)
  {
    forall j | 0 <= j < |d.calls|
      ensures CallInv(d, j)
    {
      if j != k {
        assert CallInv(cl, j);
        hide Delivery, Telling;
      }
    }
  }

  lemma OpenKeepsInv<F(!new)>(cl: Client<F>, hasDeadline: bool)
    requires Inv(cl)
    ensures Inv(OpenStep(cl, hasDeadline))
  {
    var d := OpenStep(cl, hasDeadline);
    forall j | 0 <= j < |d.calls|
      ensures CallInv(d, j)
    {
      if j < |cl.calls| {
        assert CallInv(cl, j);
        hide Delivery, Telling;
      }
    }
  }

  lemma FailKeepsInv<F(!new)>(cl: Client<F>, k: CallNo, error: Error, preserve: bool)
    requires Inv(cl) && k in cl.pending && k < |cl.calls| && error != TimedOut
    ensures Inv(FailStep(cl, k, error, preserve))
  {
    assert CallInv(cl, k);
    FailedKeeps(cl.calls[k], error, preserve);
    FailKeepsLedger(cl, k, error, preserve);
    hide Inv, Delivery, Telling, FailedCall, Ledger;
    BookkeepingKeeps(FailedCall(cl.calls[k], error, preserve), FailStep(cl, k, error, preserve).calls[k]);
    OneCallKeepsInv(cl, FailStep(cl, k, error, preserve), k);
  }

  lemma FailKeepsLedger<F(!new)>(cl: Client<F>, k: CallNo, error: Error, preserve: bool)
    requires k < |cl.calls| && Ledger(cl, k) && k in cl.pending
    ensures Ledger(FailStep(cl, k, error, preserve), k) && !cl.calls[k].closed
  {
  }

  lemma OverflowKeepsDelivery<F(!new)>(c: Call<F>, frame: F)
    requires Delivery(c) && Telling(c) && IsOpen(c)
    ensures var d := FailedCall(c.(received := c.received + [frame]), Backpressure, false);
      Delivery(d) && Telling(d)
  {
    FailedKeeps(c, Backpressure, false);
    var d := FailedCall(c.(received := c.received + [frame]), Backpressure, false);
    assert d == FailedCall(c, Backpressure, false).(received := c.received + [frame]);
  }

  lemma PushKeepsInv<F(!new)>(cl: Client<F>, k: CallNo, frame: F, end: bool)
    requires Inv(cl) && k in cl.pending && k < |cl.calls|
    ensures Inv(PushStep(cl, k, frame, end))
  {
    var c, d := cl.calls[k], PushStep(cl, k, frame, end);
    assert CallInv(cl, k);
    PushedCallKeeps(cl, k, frame, end);
    hide Inv, Delivery, Telling;
    OneCallKeepsInv(cl, d, k);
  }

  lemma PushedCallKeeps<F(!new)>(cl: Client<F>, k: CallNo, frame: F, end: bool)
    requires k in cl.pending && k < |cl.calls| && CallInv(cl, k)
    ensures Delivery(PushStep(cl, k, frame, end).calls[k]) && Telling(PushStep(cl, k, frame, end).calls[k])
  {
    var c, d := cl.calls[k], PushStep(cl, k, frame, end);
    if |c.queue| >= c.capacity {
      OverflowKeepsDelivery(c, frame);
      hide Delivery, Telling;
      BookkeepingKeeps(FailedCall(c.(received := c.received + [frame]), Backpressure, false), d.calls[k]);
    } else {
      PushedKeeps(c, frame, end);
      hide Delivery, Telling;
      BookkeepingKeeps(c.(queue := c.queue + [Frame(frame)], received := c.received + [frame], terminal := end), d.calls[k]);
    }
  }

  lemma CancelKeepsInv<F(!new)>(cl: Client<F>, k: CallNo)
    requires Inv(cl) && Held(cl, k)
    ensures Inv(CancelStep(cl, k))
  {
    var c, d := cl.calls[k], CancelStep(cl, k);
    if IsOpen(c) {
      assert CallInv(cl, k);
      ClosedKeeps(c);
      hide Inv, Delivery, Telling;
      BookkeepingKeeps(ClosedCall(c), d.calls[k]);
      OneCallKeepsInv(cl, d, k);
    }
  }

  lemma SettleKeepsInv<F(!new)>(cl: Client<F>, k: CallNo, outcome: Outcome)
    requires Inv(cl) && outcome != NotRequested
    ensures Inv(SettleStep(cl, k, outcome))
  {
    if k in cl.cancelling && k < |cl.calls| {
      assert CallInv(cl, k);
      hide Inv, Delivery, Telling;
      BookkeepingKeeps(cl.calls[k], SettleStep(cl, k, outcome).calls[k]);
      OneCallKeepsInv(cl, SettleStep(cl, k, outcome), k);
    }
  }

  /** A change of one call that its entry in the ledger does not see. */
  lemma InPlaceKeepsInv<F(!new)>(cl: Client<F>, k: CallNo, d: Call<F>)
    requires Inv(cl) && k < |cl.calls| && Delivery(d) && Telling(d)
    requires d.stage == cl.calls[k].stage && d.future == cl.calls[k].future && d.asked == cl.calls[k].asked
    requires d.terminal == cl.calls[k].terminal && d.closed == cl.calls[k].closed
    ensures Inv(Set(cl, k, d))
  {
    assert CallInv(cl, k);
    hide Inv, Delivery, Telling;
    OneCallKeepsInv(cl, Set(cl, k, d), k);
  }

  lemma TakeKeepsInv<F(!new)>(cl: Client<F>, k: CallNo)
    requires Inv(cl) && k < |cl.calls| && cl.calls[k].queue != [] && (cl.calls[k].waiting || !cl.calls[k].late)
    ensures Inv(Set(cl, k, Take(cl.calls[k])))
  {
    assert CallInv(cl, k);
    TakeKeepsDelivery(cl.calls[k]);
    TakeKeepsTelling(cl.calls[k]);
    InPlaceKeepsInv(cl, k, Take(cl.calls[k])) by { TakeLeavesLedger(cl.calls[k]); }
  }

  lemma TakeLeavesLedger<F(!new)>(c: Call<F>)
    requires Delivery(c) && c.queue != []
    ensures var d := Take(c);
      d.stage == c.stage && d.future == c.future && d.asked == c.asked &&
      d.terminal == c.terminal && d.closed == c.closed
  {
  }

  lemma CancelLeavesLate<F(!new)>(cl: Client<F>, k: CallNo)
    requires k < |cl.calls|
    ensures var d := CancelStep(cl, k);
      |d.calls| == |cl.calls| && d.calls[k].late == cl.calls[k].late && d.calls[k].failure == cl.calls[k].failure
  {
  }

  /** A read times out on a call that is drained, or has ended with something buffered. */
  lemma TimeoutToldKeeps<F(!new)>(c: Call<F>)
    requires Delivery(c) && Telling(c) && c.late && (c.drained || (c.queue != [] && !IsOpen(c)))
    ensures var d := c.(waiting := false, seen := c.seen + [Raised(TimedOut)]);
      Delivery(d) && Telling(d)
  {
    var d, n := c.(waiting := false, seen := c.seen + [Raised(TimedOut)]), |c.seen|;
    ToldKeepsDelivery(c, Raised(TimedOut), d);
    hide Delivery;
    assert d.seen[n] == Raised(TimedOut);
  }

  lemma CancelCloses<F(!new)>(cl: Client<F>, k: CallNo)
    requires k < |cl.calls| && IsOpen(cl.calls[k])
    ensures CancelStep(cl, k).calls[k] == ClosedCall(cl.calls[k]).(asked := CancelStep(cl, k).calls[k].asked)
  {
  }

  lemma CancelDrains<F(!new)>(cl: Client<F>, k: CallNo)
    requires k < |cl.calls| && IsOpen(cl.calls[k])
    ensures CancelStep(cl, k).calls[k].drained
  {
  }

  lemma TimeOutKeepsInv<F(!new)>(cl: Client<F>, k: CallNo)
    requires Inv(cl) && Held(cl, k) && cl.calls[k].late
    requires cl.calls[k].queue == [] ==> IsOpen(cl.calls[k])
    ensures Inv(TimeOut(cl, k))
  {
    var d := CancelStep(cl, k);
    CancelKeepsInv(cl, k);
    CancelLeavesLate(cl, k);
    if IsOpen(cl.calls[k]) {
      CancelDrains(cl, k);
    } else {
      assert d == cl;
    }
    assert CallInv(d, k);
    var c := d.calls[k].(waiting := false, seen := d.calls[k].seen + [Raised(TimedOut)]);
    hide CancelStep, Inv, Delivery, Telling;
    TimeoutToldKeeps(d.calls[k]);
    InPlaceKeepsInv(d, k, c);
  }

  lemma ExpireKeepsInv<F(!new)>(cl: Client<F>, k: CallNo)
    requires Inv(cl) && Held(cl, k)
    ensures Inv(ExpireStep(cl, k))
  {
    var c := cl.calls[k];
    if c.late && IsOpen(c) {
      var d := CancelStep(cl, k);
      CancelKeepsInv(cl, k);
      var e := d.calls[k].(failure := Some(TimedOut));
      assert CallInv(cl, k) && CallInv(d, k);
      CancelCloses(cl, k);
      assert c.failure == None && c.fault == None;
      ExpiredKeeps(d.calls[k]);
      hide Inv, Delivery, Telling;
      InPlaceKeepsInv(d, k, e);
      assert Set(d, k, e) == ExpireStep(cl, k);
    }
  }

  lemma ExpiredKeeps<F(!new)>(c: Call<F>)
    requires Delivery(c) && Telling(c) && c.late && c.drained && c.failure == None && c.fault == None && c.queue == [EndMark]
    ensures Delivery(c.(failure := Some(TimedOut))) && Telling(c.(failure := Some(TimedOut)))
  {
    hide Frames, Buffered;
    if !ReadTimedOut(c) {
      assert !Told(c);
    }
  }

  lemma AskKeepsInv<F(!new)>(cl: Client<F>, k: CallNo)
    requires Inv(cl) && Held(cl, k)
    ensures Inv(AskStep(cl, k))
  {
    var c := cl.calls[k];
    assert CallInv(cl, k);
    hide Inv, CallInv, Delivery, Telling;
    if !c.waiting {
      if c.queue == [] && (c.failure.Some? || !IsOpen(c)) {
        if c.failure.Some? { FailureToldKeeps(c); } else { EndToldKeeps(c); }
        InPlaceKeepsInv(cl, k, AskStep(cl, k).calls[k]);
      } else if c.late {
        TimeOutKeepsInv(cl, k);
      } else if c.queue == [] {
        BookkeepingKeeps(c, c.(waiting := true));
        InPlaceKeepsInv(cl, k, c.(waiting := true));
      } else {
        TakeKeepsInv(cl, k);
      }
    }
  }

  lemma DisconnectedKeeps<F(!new)>(cl: Client<F>, k: CallNo)
    requires k < |cl.calls| && CallInv(cl, k)
    ensures CallInv(DisconnectStep(cl), k)
  {
    var c, d := cl.calls[k], DisconnectStep(cl);
    DisconnectedLedger(cl, k);
    assert k in cl.pending ==> IsOpen(c);
    assert d.calls[k] == DisconnectedCall(cl, k);
    hide Ledger, Delivery, Telling, DisconnectStep;
    if k in cl.pending {
      FailedKeeps(c, ConnectionDown, true);
      BookkeepingKeeps(FailedCall(c, ConnectionDown, true), d.calls[k]);
    } else {
      BookkeepingKeeps(c, d.calls[k]);
    }
  }

  lemma DisconnectedLedger<F(!new)>(cl: Client<F>, k: CallNo)
    requires k < |cl.calls| && Ledger(cl, k)
    ensures Ledger(DisconnectStep(cl), k)
  {
    assert DisconnectStep(cl).calls[k] == DisconnectedCall(cl, k);
  }

  lemma DisconnectKeepsInv<F(!new)>(cl: Client<F>)
    requires Inv(cl)
    ensures Inv(DisconnectStep(cl))
  {
    forall k | 0 <= k < |cl.calls|
      ensures CallInv(DisconnectStep(cl), k)
    {
      DisconnectedKeeps(cl, k);
    }
    hide CallInv, DisconnectedCall;
  }

  /** Events that leave what is buffered, closed or told alone. */
  lemma RecordKeepsInv<F(!new)>(cl: Client<F>, e: Event<F>)
    requires Inv(cl)
    requires e.RequestSent? || e.RequestFailed? || e.DeadlinePasses? || e.AwaiterIsCancelled?
    ensures Inv(Apply(cl, e))
  {
    var d := Apply(cl, e);
    RecordChangesOneCall(cl, e);
    if e.k < |cl.calls| {
      assert CallInv(cl, e.k);
      RecordKeepsLedger(cl, e);
      hide Inv, Delivery, Telling, Ledger, Apply, OthersStay;
      BookkeepingKeeps(cl.calls[e.k], d.calls[e.k]);
      OneCallKeepsInv(cl, d, e.k);
    }
  }

  lemma RecordChangesOneCall<F(!new)>(cl: Client<F>, e: Event<F>)
    requires e.RequestSent? || e.RequestFailed? || e.DeadlinePasses? || e.AwaiterIsCancelled?
    ensures var d := Apply(cl, e);
      if e.k >= |cl.calls| then d == cl
      else
        && |d.calls| == |cl.calls| && OthersStay(cl, d, e.k)
        && (forall j :: 0 <= j < |cl.calls| && j != e.k ==> d.calls[j] == cl.calls[j])
        && (cl.calls[e.k].late ==> d.calls[e.k].late)
        && d.calls[e.k] == cl.calls[e.k].(stage := d.calls[e.k].stage, future := d.calls[e.k].future,
                                          late := d.calls[e.k].late)
  {
  }

  lemma RecordKeepsLedger<F(!new)>(cl: Client<F>, e: Event<F>)
    requires e.RequestSent? || e.RequestFailed? || e.DeadlinePasses? || e.AwaiterIsCancelled?
    requires e.k < |cl.calls| && Ledger(cl, e.k)
    ensures Ledger(Apply(cl, e), e.k)
  {
  }

  lemma ApplyKeepsInv<F(!new)>(cl: Client<F>, e: Event<F>)
    requires Inv(cl)
    ensures Inv(Apply(cl, e))
  {
    hide Inv;
    match e {
      case OpenCall(hasDeadline) => OpenKeepsInv(cl, hasDeadline);
      case Response(k, frame, end) =>
        if k in cl.pending && k < |cl.calls| { PushKeepsInv(cl, k, frame, end); }
      case TerminalError(k, code) =>
        if k in cl.pending && k < |cl.calls| { TerminalErrorKeepsInv(cl, k, code); }
      case Lifecycle(k, value) =>
        if LifecycleOutcome(value).Some? { SettleKeepsInv(cl, k, LifecycleOutcome(value).value); }
      case TimerFires(k) => SettleKeepsInv(cl, k, Unconfirmed);
      case CancellationFailed(k, connection) =>
        SettleKeepsInv(cl, k, if connection then ConnectionClosed else Unconfirmed);
      case Expire(k) => if Held(cl, k) { ExpireKeepsInv(cl, k); }
      case Cancel(k) => if Held(cl, k) { CancelKeepsInv(cl, k); }
      case Ask(k) => if Held(cl, k) { AskKeepsInv(cl, k); }
      case Wake(k) => if Held(cl, k) && cl.calls[k].waiting && cl.calls[k].queue != [] { TakeKeepsInv(cl, k); }
      case WaitTimesOut(k) => if Held(cl, k) && cl.calls[k].waiting && cl.calls[k].late { WaitTimesOutKeepsInv(cl, k); }
      case WaitIsCancelled(k) => if Held(cl, k) { WaitIsCancelledKeepsInv(cl, k); }
      case Disconnect => DisconnectKeepsInv(cl);
      case _ => RecordKeepsInv(cl, e);
    }
  }

  lemma WaitTimesOutKeepsInv<F(!new)>(cl: Client<F>, k: CallNo)
    requires Inv(cl) && Held(cl, k) && cl.calls[k].waiting && cl.calls[k].late
    ensures Inv(TimeOut(cl, k))
  {
    assert CallInv(cl, k);
    hide Inv, TimeOut;
    TimeOutKeepsInv(cl, k);
  }

  lemma TerminalErrorKeepsInv<F(!new)>(cl: Client<F>, k: CallNo, code: nat)
    requires Inv(cl) && k in cl.pending && k < |cl.calls|
    ensures Inv(FailStep(cl, k, Remote(code), true).(pending := cl.pending - {k}))
  {
    assert CallInv(cl, k);
    hide Inv;
    FailKeepsInv(cl, k, Remote(code), true);
  }

  lemma WaitIsCancelledKeepsInv<F(!new)>(cl: Client<F>, k: CallNo)
    requires Inv(cl) && Held(cl, k)
    ensures Inv(CancelStep(Set(cl, k, cl.calls[k].(waiting := false)), k))
  {
    var d := cl.calls[k].(waiting := false);
    assert CallInv(cl, k);
    BookkeepingKeeps(cl.calls[k], d);
    hide Inv, Delivery, Telling;
    InPlaceKeepsInv(cl, k, d);
    CancelKeepsInv(Set(cl, k, d), k);
  }

  lemma {:induction false} RunKeepsInv<F(!new)>(cl: Client<F>, es: seq<Event<F>>)
    requires Inv(cl)
    ensures Inv(Run(cl, es))
    decreases |es|
  {
    if es != [] {
      RunKeepsInv(cl, es[..|es| - 1]);
      ApplyKeepsInv(Run(cl, es[..|es| - 1]), es[|es| - 1]);
    }
  }

  ghost predicate Reachable<F(!new)>(cl: Client<F>) {
    exists capacity, es :: 1 <= capacity && Run(Init<F>(capacity), es) == cl
  }

  lemma ReachableKeepsInv<F(!new)>(cl: Client<F>, k: CallNo)
    requires Reachable(cl) && k < |cl.calls|
    ensures CallInv(cl, k)
  {
    var capacity, es :| 1 <= capacity && Run(Init<F>(capacity), es) == cl;
    RunKeepsInv<F>(Init(capacity), es);
    hide CallInv;
  }

  // ----- Outcomes -----

  /** In how many of the three places a call is: pending, being cancelled, outcome known. */
  function Places<F>(cl: Client<F>, k: CallNo): nat
    requires k < |cl.calls|
  {
    (if k in cl.pending then 1 else 0) + (if k in cl.cancelling then 1 else 0)
    + (if cl.calls[k].future != Open then 1 else 0)
  }

  /** Every call that `open_call` returned is in exactly one place, if and only if its
      cancellation future was not cancelled from outside while the call was still pending or
      being cancelled.  A call being cancelled has a live timer, and no other call has. */
  lemma OutcomeLedger<F(!new)>(cl: Client<F>, k: CallNo)
    requires Reachable(cl) && Held(cl, k)
    ensures 1 <= Places(cl, k)
    ensures Places(cl, k) == 1
      <==> !(cl.calls[k].future == AwaiterCancelled && (k in cl.pending || k in cl.cancelling))
    ensures k in cl.timers <==> k in cl.cancelling
  {
    hide Reachable;
    ReachableKeepsInv(cl, k);
  }

  /** The event cancels a task that awaits the cancellation future of an unsettled call. */
  predicate CancelsAwaiter<F(==)>(cl: Client<F>, e: Event<F>, k: CallNo) {
    e == AwaiterIsCancelled(k) && Held(cl, k) && cl.calls[k].future == Open
  }

  predicate OncePlaced<F>(cl: Client<F>, k: CallNo) {
    Held(cl, k) ==> Places(cl, k) == 1
  }

  /** At every point of the run at which its caller holds it, the call is in one place. */
  predicate AlwaysInOnePlace<F>(capacity: nat, es: seq<Event<F>>, k: CallNo) {
    es == [] || (AlwaysInOnePlace(capacity, es[..|es| - 1], k) && OncePlaced(Run(Init(capacity), es), k))
  }

  predicate NoAwaiterCancelled<F(==)>(capacity: nat, es: seq<Event<F>>, k: CallNo) {
    es == [] || (NoAwaiterCancelled(capacity, es[..|es| - 1], k) &&
                 !CancelsAwaiter(Run(Init(capacity), es[..|es| - 1]), es[|es| - 1], k))
  }

  /** Over every run: a call is at all times in exactly one of pending, being cancelled and
      outcome known, if and only if no task awaiting its cancellation future is cancelled
      before the call is settled. */
  lemma {:induction false} OnePlaceExactly<F(!new)>(capacity: nat, es: seq<Event<F>>, k: CallNo)
    requires 1 <= capacity
    ensures AlwaysInOnePlace(capacity, es, k) <==> NoAwaiterCancelled(capacity, es, k)
    ensures AlwaysInOnePlace(capacity, es, k) ==> OncePlaced(Run(Init(capacity), es), k)
    decreases |es|
  {
    if es != [] {
      var cl, e := Run(Init(capacity), es[..|es| - 1]), es[|es| - 1];
      OnePlaceExactly(capacity, es[..|es| - 1], k);
      RunKeepsInv<F>(Init(capacity), es[..|es| - 1]);
      RunKeepsInv<F>(Init(capacity), es);
      hide Apply, Inv, OncePlaced, CancelsAwaiter;
      if OncePlaced(cl, k) {
        OnePlaceStep(cl, e, k);
      }
    }
  }

  lemma OnePlaceStep<F(!new)>(cl: Client<F>, e: Event<F>, k: CallNo)
    requires Inv(cl) && Inv(Apply(cl, e)) && OncePlaced(cl, k)
    ensures OncePlaced(Apply(cl, e), k) <==> !CancelsAwaiter(cl, e, k)
  {
    var d := Apply(cl, e);
    if k < |d.calls| { assert CallInv(d, k); }
    if k < |cl.calls| {
      assert CallInv(cl, k);
      CancelledOnlyByItsAwaiter(cl, e, k);
      hide Apply, Inv, Delivery, Telling;
    } else if k < |d.calls| {
      NewCallsAreOpen(cl, e, k);
    }
  }

  lemma NewCallsAreOpen<F(!new)>(cl: Client<F>, e: Event<F>, k: CallNo)
    requires |cl.calls| <= k < |Apply(cl, e).calls|
    ensures Apply(cl, e).calls[k].stage != Returned
  {
  }

  /** The cancellation future is not cancelled, and a call whose future was cancelled is not
      put back into a place. */
  predicate LeftAlone<F>(cl: Client<F>, d: Client<F>, k: CallNo)
    requires k < |cl.calls| && k < |d.calls|
  {
    && (d.calls[k].future == cl.calls[k].future || d.calls[k].future.Settled?)
    && (cl.calls[k].future != Open && k !in cl.pending && k !in cl.cancelling ==> k !in d.pending && k !in d.cancelling)
  }

  /** Only cancelling its own awaiter cancels a call's cancellation future. */
  lemma CancelledOnlyByItsAwaiter<F(!new)>(cl: Client<F>, e: Event<F>, k: CallNo)
    requires k < |cl.calls|
    ensures k < |Apply(cl, e).calls|
    ensures CancelsAwaiter(cl, e, k) ==>
      Apply(cl, e) == Set(cl, k, cl.calls[k].(future := AwaiterCancelled))
    ensures !CancelsAwaiter(cl, e, k) ==> LeftAlone(cl, Apply(cl, e), k)
  {
    if !CancelsAwaiter(cl, e, k) {
      hide PushStep, FailStep, CancelStep, SettleStep, AskStep, TimeOut, ExpireStep, DisconnectStep, Take;
      match e {
        case Response(j, frame, end) => if j < |cl.calls| { PushLeavesAlone(cl, j, frame, end, k); }
        case TerminalError(j, code) => if j < |cl.calls| { FailLeavesAlone(cl, j, Remote(code), true, k); }
        case Disconnect => DisconnectLeavesAlone(cl, k);
        case Lifecycle(j, value) =>
          if LifecycleOutcome(value).Some? { SettleLeavesAlone(cl, j, LifecycleOutcome(value).value, k); }
        case TimerFires(j) => SettleLeavesAlone(cl, j, Unconfirmed, k);
        case CancellationFailed(j, connection) =>
          SettleLeavesAlone(cl, j, if connection then ConnectionClosed else Unconfirmed, k);
        case Cancel(j) => if j < |cl.calls| { CancelLeavesAlone(cl, j, k); }
        case Expire(j) => if j < |cl.calls| { ExpireLeavesAlone(cl, j, k); }
        case WaitIsCancelled(j) =>
          if j < |cl.calls| { CancelLeavesAlone(Set(cl, j, cl.calls[j].(waiting := false)), j, k); }
        case WaitTimesOut(j) => if j < |cl.calls| { TimeOutLeavesAlone(cl, j, k); }
        case Ask(j) => if j < |cl.calls| { AskLeavesAlone(cl, j, k); }
        case Wake(j) => if j < |cl.calls| && cl.calls[j].queue != [] { TakeKeepsOutcome(cl.calls[j]); }
        case _ =>
      }
    }
  }

  lemma FailLeavesAlone<F(!new)>(cl: Client<F>, j: CallNo, error: Error, preserve: bool, k: CallNo)
    requires j < |cl.calls| && k < |cl.calls|
    ensures var d := FailStep(cl, j, error, preserve);
      |d.calls| == |cl.calls| && LeftAlone(cl, d, k)
  {
    FailedKeepsFuture(cl.calls[j], error, preserve);
    hide FailedCall;
  }

  lemma FailedKeepsFuture<F>(c: Call<F>, error: Error, preserve: bool)
    ensures FailedCall(c, error, preserve).future == c.future
  {
  }

  lemma PushLeavesAlone<F(!new)>(cl: Client<F>, j: CallNo, frame: F, end: bool, k: CallNo)
    requires j < |cl.calls| && k < |cl.calls|
    ensures var d := PushStep(cl, j, frame, end);
      |d.calls| == |cl.calls| && LeftAlone(cl, d, k)
  {
    FailLeavesAlone(Set(cl, j, cl.calls[j].(received := cl.calls[j].received + [frame])), j, Backpressure, false, k);
    hide FailStep;
  }

  lemma SettleLeavesAlone<F(!new)>(cl: Client<F>, j: CallNo, outcome: Outcome, k: CallNo)
    requires k < |cl.calls|
    ensures var d := SettleStep(cl, j, outcome);
      |d.calls| == |cl.calls| && LeftAlone(cl, d, k)
  {
  }

  lemma CancelLeavesAlone<F(!new)>(cl: Client<F>, j: CallNo, k: CallNo)
    requires j < |cl.calls| && k < |cl.calls|
    ensures var d := CancelStep(cl, j);
      |d.calls| == |cl.calls| && LeftAlone(cl, d, k)
  {
  }

  lemma ExpireLeavesAlone<F(!new)>(cl: Client<F>, j: CallNo, k: CallNo)
    requires j < |cl.calls| && k < |cl.calls|
    ensures var d := ExpireStep(cl, j);
      |d.calls| == |cl.calls| && LeftAlone(cl, d, k)
  {
    CancelLeavesAlone(Set(cl, j, cl.calls[j].(failure := Some(TimedOut))), j, k);
    hide CancelStep;
  }

  lemma TimeOutLeavesAlone<F(!new)>(cl: Client<F>, j: CallNo, k: CallNo)
    requires j < |cl.calls| && k < |cl.calls|
    ensures var d := TimeOut(cl, j);
      |d.calls| == |cl.calls| && LeftAlone(cl, d, k)
  {
    CancelLeavesAlone(cl, j, k);
    hide CancelStep;
  }

  lemma AskLeavesAlone<F(!new)>(cl: Client<F>, j: CallNo, k: CallNo)
    requires j < |cl.calls| && k < |cl.calls|
    ensures var d := AskStep(cl, j);
      |d.calls| == |cl.calls| && LeftAlone(cl, d, k)
  {
    TimeOutLeavesAlone(cl, j, k);
    if cl.calls[j].queue != [] {
      TakeKeepsOutcome(cl.calls[j]);
    }
    hide TimeOut, Take;
  }

  lemma DisconnectLeavesAlone<F(!new)>(cl: Client<F>, k: CallNo)
    requires k < |cl.calls|
    ensures var d := DisconnectStep(cl);
      |d.calls| == |cl.calls| && LeftAlone(cl, d, k)
  {
    assert DisconnectStep(cl).calls[k] == DisconnectedCall(cl, k);
    hide DisconnectStep, FailedCall;
    FailedKeepsFuture(cl.calls[k], ConnectionDown, true);
    assert DisconnectStep(cl).pending == {} && DisconnectStep(cl).cancelling == {} by { DisconnectEmpties(cl); }
  }

  lemma DisconnectEmpties<F>(cl: Client<F>)
    ensures DisconnectStep(cl).pending == {} && DisconnectStep(cl).cancelling == {}
    ensures |DisconnectStep(cl).calls| == |cl.calls|
  {
  }

  /** What an outcome tells: `not_requested` only if the broker was never asked to cancel,
      and without having asked only that or a closed connection. */
  lemma OutcomeTellsWhetherAsked<F(!new)>(cl: Client<F>, k: CallNo)
    requires Reachable(cl) && Held(cl, k) && cl.calls[k].future.Settled?
    ensures cl.calls[k].future.outcome == NotRequested ==> !cl.calls[k].asked
    ensures !cl.calls[k].asked ==>
      cl.calls[k].future.outcome == NotRequested || cl.calls[k].future.outcome == ConnectionClosed
  {
    hide Reachable;
    ReachableKeepsInv(cl, k);
  }

  lemma OutcomeStays<F(!new)>(cl: Client<F>, e: Event<F>, k: CallNo)
    requires k < |cl.calls| && cl.calls[k].future != Open
    ensures k < |Apply(cl, e).calls| && Apply(cl, e).calls[k].future == cl.calls[k].future
  {
    match e {
      case Response(j, frame, end) =>
        if j < |cl.calls| { PushKeepsOutcome(cl, j, frame, end, k); }
      case Cancel(_) => CancelEventsKeepOutcome(cl, e, k);
      case Expire(_) => CancelEventsKeepOutcome(cl, e, k);
      case WaitIsCancelled(_) => CancelEventsKeepOutcome(cl, e, k);
      case WaitTimesOut(_) => CancelEventsKeepOutcome(cl, e, k);
      case Ask(j) =>
        if j < |cl.calls| { AskKeepsOutcome(cl, j, k); }
      case Disconnect => DisconnectKeepsOutcome(cl, k);
      case _ => OtherEventsKeepOutcome(cl, e, k);
    }
  }

  lemma PushKeepsOutcome<F>(cl: Client<F>, j: CallNo, frame: F, end: bool, k: CallNo)
    requires j < |cl.calls| && k < |cl.calls| && cl.calls[k].future != Open
    ensures var d := PushStep(cl, j, frame, end);
      k < |d.calls| && d.calls[k].future == cl.calls[k].future
  {
  }

  lemma CancelKeepsOutcome<F>(cl: Client<F>, j: CallNo, k: CallNo)
    requires j < |cl.calls| && k < |cl.calls|
    ensures var d := CancelStep(cl, j);
      |d.calls| == |cl.calls| && d.calls[k].future == cl.calls[k].future
  {
  }

  lemma TimeOutKeepsOutcome<F>(cl: Client<F>, j: CallNo, k: CallNo)
    requires j < |cl.calls| && k < |cl.calls|
    ensures var d := TimeOut(cl, j);
      |d.calls| == |cl.calls| && d.calls[k].future == cl.calls[k].future
  {
    hide CancelStep;
    CancelKeepsOutcome(cl, j, k);
    CancelKeepsOutcome(cl, j, j);
  }

  lemma CancelEventsKeepOutcome<F(!new)>(cl: Client<F>, e: Event<F>, k: CallNo)
    requires e.Cancel? || e.Expire? || e.WaitIsCancelled? || e.WaitTimesOut?
    requires k < |cl.calls|
    ensures k < |Apply(cl, e).calls| && Apply(cl, e).calls[k].future == cl.calls[k].future
  {
    hide CancelStep, TimeOut;
    if e.k < |cl.calls| {
      var c := cl.calls[e.k];
      CancelKeepsOutcome(cl, e.k, k);
      TimeOutKeepsOutcome(cl, e.k, k);
      CancelKeepsOutcome(Set(cl, e.k, c.(failure := Some(TimedOut))), e.k, k);
      CancelKeepsOutcome(Set(cl, e.k, c.(waiting := false)), e.k, k);
    }
  }

  lemma TakeKeepsOutcome<F>(c: Call<F>)
    requires c.queue != []
    ensures Take(c).future == c.future
  {
  }

  lemma AskKeepsOutcome<F>(cl: Client<F>, j: CallNo, k: CallNo)
    requires j < |cl.calls| && k < |cl.calls|
    ensures var d := AskStep(cl, j);
      k < |d.calls| && d.calls[k].future == cl.calls[k].future
  {
    TimeOutKeepsOutcome(cl, j, k);
    if cl.calls[j].queue != [] {
      TakeKeepsOutcome(cl.calls[j]);
    }
    hide TimeOut, Take;
  }

  lemma DisconnectKeepsOutcome<F>(cl: Client<F>, k: CallNo)
    requires k < |cl.calls| && cl.calls[k].future != Open
    ensures DisconnectStep(cl).calls[k].future == cl.calls[k].future
  {
    hide FailedCall;
    assert DisconnectStep(cl).calls[k] == DisconnectedCall(cl, k);
    FailureLeavesOutcome(cl.calls[k]);
  }

  lemma FailureLeavesOutcome<F>(c: Call<F>)
    ensures FailedCall(c, ConnectionDown, true).future == c.future
  {
  }

  lemma SettlingKeepsOutcome<F>(cl: Client<F>, j: CallNo, outcome: Outcome, k: CallNo)
    requires k < |cl.calls| && cl.calls[k].future != Open
    ensures var d := SettleStep(cl, j, outcome);
      k < |d.calls| && d.calls[k].future == cl.calls[k].future
  {
  }

  lemma FailingKeepsOutcome<F>(cl: Client<F>, j: CallNo, error: Error, k: CallNo)
    requires j < |cl.calls| && k < |cl.calls| && cl.calls[k].future != Open
    ensures var d := FailStep(cl, j, error, true);
      k < |d.calls| && d.calls[k].future == cl.calls[k].future
  {
  }

  lemma OtherEventsKeepOutcome<F(!new)>(cl: Client<F>, e: Event<F>, k: CallNo)
    requires !e.Response? && !e.Cancel? && !e.Expire? && !e.WaitIsCancelled? && !e.WaitTimesOut? && !e.Ask?
    requires !e.Disconnect? && k < |cl.calls| && cl.calls[k].future != Open
    ensures k < |Apply(cl, e).calls| && Apply(cl, e).calls[k].future == cl.calls[k].future
  {
    hide SettleStep, FailStep, Take;
    match e {
      case TerminalError(j, code) => if j < |cl.calls| { FailingKeepsOutcome(cl, j, Remote(code), k); }
      case Lifecycle(j, value) =>
        if LifecycleOutcome(value).Some? { SettlingKeepsOutcome(cl, j, LifecycleOutcome(value).value, k); }
      case TimerFires(j) => SettlingKeepsOutcome(cl, j, Unconfirmed, k);
      case CancellationFailed(j, connection) =>
        SettlingKeepsOutcome(cl, j, if connection then ConnectionClosed else Unconfirmed, k);
      case Wake(j) => if j < |cl.calls| && cl.calls[j].queue != [] { TakeKeepsOutcome(cl.calls[j]); }
      case _ =>
    }
  }

  /** A known outcome never changes, whatever happens afterwards. */
  lemma {:induction false} OutcomesAreFinal<F(!new)>(cl: Client<F>, es: seq<Event<F>>, k: CallNo)
    requires k < |cl.calls| && cl.calls[k].future != Open
    ensures k < |Run(cl, es).calls| && Run(cl, es).calls[k].future == cl.calls[k].future
    decreases |es|
  {
    if es != [] {
      OutcomesAreFinal(cl, es[..|es| - 1], k);
      OutcomeStays(Run(cl, es[..|es| - 1]), es[|es| - 1], k);
    }
  }

  /** Closing an open call asks the broker to cancel it exactly when nobody has cancelled
      its cancellation future. */
  lemma CancelAsksExactly<F(!new)>(cl: Client<F>, k: CallNo)
    requires Reachable(cl) && Held(cl, k) && IsOpen(cl.calls[k])
    ensures CancelStep(cl, k).calls[k].asked <==> cl.calls[k].future != AwaiterCancelled
    ensures k in CancelStep(cl, k).cancelling <==> cl.calls[k].future != AwaiterCancelled
    ensures k !in CancelStep(cl, k).pending
  {
    hide Reachable;
    ReachableKeepsInv(cl, k);
  }

  lemma RunUnfolds<F>(cl: Client<F>, es: seq<Event<F>>, e: Event<F>)
    ensures Run(cl, es + [e]) == Apply(Run(cl, es), e)
  {
    assert (es + [e])[..|es|] == es;
  }

  /** A task that awaits `call.cancellation` and is cancelled silences a later `cancel`: the
      call is closed and forgotten, and the broker is never asked. */
  lemma CancelledAwaiterSilencesCancel<F(!new)>()
    ensures var es: seq<Event<F>> := [OpenCall(false), RequestSent(0), AwaiterIsCancelled(0), Cancel(0)];
      var cl := Run(Init(1), es);
      Held(cl, 0) && cl.calls[0].closed && !cl.calls[0].asked && cl.pending == {} && cl.cancelling == {}
  {
    var cl: Client<F> := Init(1);
    RunOfFour(cl, OpenCall(false), RequestSent(0), AwaiterIsCancelled(0), Cancel(0));
    SilencedSteps(cl);
    hide Run, Apply;
  }

  lemma RunOfFour<F>(cl: Client<F>, e0: Event<F>, e1: Event<F>, e2: Event<F>, e3: Event<F>)
    ensures Run(cl, [e0, e1, e2, e3]) == Apply(Apply(Apply(Apply(cl, e0), e1), e2), e3)
  {
    var none: seq<Event<F>> := [];
    assert Run(cl, none) == cl;
    RunUnfolds(cl, none, e0);
    RunUnfolds(cl, [e0], e1);
    RunUnfolds(cl, [e0, e1], e2);
    RunUnfolds(cl, [e0, e1, e2], e3);
    hide Run, Apply;
    assert none + [e0] == [e0] && [e0] + [e1] == [e0, e1] && [e0, e1] + [e2] == [e0, e1, e2];
    assert [e0, e1, e2] + [e3] == [e0, e1, e2, e3];
  }

  lemma SilencedSteps<F(!new)>(cl: Client<F>)
    requires cl == Init(1)
    ensures var d := Apply(Apply(Apply(Apply(cl, OpenCall(false)), RequestSent(0)), AwaiterIsCancelled(0)), Cancel(0));
      Held(d, 0) && d.calls[0].closed && !d.calls[0].asked && d.pending == {} && d.cancelling == {}
  {
    var c := NewCall<F>(1, false);
    var begun := OpenStep(cl, false);
    assert begun == Client(1, [c], {0}, {}, {});
    var returned := Apply(begun, RequestSent(0));
    assert returned == Client(1, [c.(stage := Returned)], {0}, {}, {});
    var silenced := Apply(returned, AwaiterIsCancelled(0));
    assert silenced == Client(1, [c.(stage := Returned, future := AwaiterCancelled)], {0}, {}, {});
  }

  // ----- Frames -----

  /** The consumer gets a prefix of the frames received for its call, in order. */
  lemma FramesInOrder<F(!new)>(cl: Client<F>, k: CallNo)
    requires Reachable(cl) && k < |cl.calls|
    ensures Frames(cl.calls[k].seen) <= cl.calls[k].received
  {
    hide Reachable, Frames, Buffered;
    ReachableKeepsInv(cl, k);
  }

  /** As long as no read of the call timed out, and unless buffered frames were thrown away,
      the consumer is told of the end or of an error only after every received frame; it is
      told of an error only if the call failed with it, and then once, before any end. */
  lemma NothingBufferedIsLost<F(!new)>(cl: Client<F>, k: CallNo)
    requires Reachable(cl) && k < |cl.calls| && !ReadTimedOut(cl.calls[k])
    ensures var c := cl.calls[k];
      && (Told(c) && !c.drained ==> Frames(c.seen) == c.received)
      && (forall i, j :: 0 <= i < j < |c.seen| && !c.seen[i].Yielded? ==> c.seen[j] == Ended)
      && (forall e :: Raised(e) in c.seen ==> c.fault == Some(e))
      && (Told(c) && c.fault.Some? ==> Raised(c.fault.value) in c.seen)
  {
    hide Reachable;
    ReachableKeepsInv(cl, k);
    var c := cl.calls[k];
    assert Told(c) ==> Buffered(c.queue) == [];
    hide Frames;
    assert Frames(c.seen) + [] == Frames(c.seen);
  }

  /** Exactly when frames are withheld: of a call whose frames were not thrown away, something
      is still buffered after the consumer was told of an end or an error if and only if a
      read timed out; what is buffered is what was received and not yielded. */
  lemma LateReadsWithholdExactly<F(!new)>(cl: Client<F>, k: CallNo)
    requires Reachable(cl) && k < |cl.calls| && !cl.calls[k].drained
    ensures Told(cl.calls[k]) && cl.calls[k].queue != [] <==> ReadTimedOut(cl.calls[k])
    ensures cl.calls[k].received == Frames(cl.calls[k].seen) + Buffered(cl.calls[k].queue)
  {
    hide Reachable, Frames, Buffered;
    ReachableKeepsInv(cl, k);
  }

  /** A read of a call whose frames are not thrown away times out exactly if it happens past
      the deadline with something buffered: at once for a new read, and for one that was
      waiting if the timeout gets ahead of the item. */
  lemma ReadTimesOutExactly<F(!new)>(cl: Client<F>, k: CallNo, e: Event<F>)
    requires Reachable(cl) && Held(cl, k) && k < |Apply(cl, e).calls| && !Apply(cl, e).calls[k].drained
    requires e == Ask(k) || e == Wake(k) || e == WaitTimesOut(k)
    ensures Apply(cl, e).calls[k].seen == cl.calls[k].seen + [Raised(TimedOut)]
      <==> cl.calls[k].late && cl.calls[k].queue != []
           && ((e == Ask(k) && !cl.calls[k].waiting) || (e == WaitTimesOut(k) && cl.calls[k].waiting))
  {
    hide Reachable, Frames, Buffered;
    ReachableKeepsInv(cl, k);
    var c := cl.calls[k];
    if e == Ask(k) && !c.waiting {
      NewReadTimesOutExactly(cl, k);
    } else {
      if c.queue != [] { TakeTells(c); }
      hide AskStep, Take;
      assert c.seen != c.seen + [Raised(TimedOut)];
      if e == WaitTimesOut(k) && c.waiting && c.late && c.queue == [] {
        CancelDrains(cl, k);
      }
    }
  }

  lemma NewReadTimesOutExactly<F(!new)>(cl: Client<F>, k: CallNo)
    requires k < |cl.calls| && CallInv(cl, k) && !cl.calls[k].waiting
    requires k < |AskStep(cl, k).calls| && !AskStep(cl, k).calls[k].drained
    ensures AskStep(cl, k).calls[k].seen == cl.calls[k].seen + [Raised(TimedOut)]
      <==> cl.calls[k].late && cl.calls[k].queue != []
  {
    hide Frames, Buffered;
    var c := cl.calls[k];
    if c.queue != [] { TakeTells(c); }
    hide Take;
    assert c.seen != c.seen + [Raised(TimedOut)];
    assert (c.seen + [Ended])[|c.seen|] != (c.seen + [Raised(TimedOut)])[|c.seen|];
    assert c.failure.Some? ==>
      (c.seen + [Raised(c.failure.value)])[|c.seen|] == Raised(c.failure.value);
    if IsOpen(c) && c.late {
      CancelDrains(cl, k);
    }
  }

  /** What is taken from the queue of a call that is not drained is no timeout. */
  lemma TakeTells<F(!new)>(c: Call<F>)
    requires Delivery(c) && Telling(c) && c.queue != []
    ensures !c.drained ==> Take(c).seen != c.seen + [Raised(TimedOut)]
    ensures Take(c).drained == c.drained
  {
    hide Frames, Buffered;
    assert c.queue[0] in c.queue;
    assert Take(c).seen[|c.seen|] == (c.seen + [Take(c).seen[|c.seen|]])[|c.seen|];
  }

  /** What a late reader sees: once the deadline has passed and no read is waiting, the call
      never yields another frame, whatever happens. */
  lemma {:induction false} LateReaderSeesNoFrame<F(!new)>(cl: Client<F>, es: seq<Event<F>>, k: CallNo)
    requires k < |cl.calls| && cl.calls[k].late && !cl.calls[k].waiting
    ensures var d := Run(cl, es);
      k < |d.calls| && d.calls[k].late && !d.calls[k].waiting && Frames(d.calls[k].seen) == Frames(cl.calls[k].seen)
    decreases |es|
  {
    if es != [] {
      LateReaderSeesNoFrame(cl, es[..|es| - 1], k);
      hide Apply, Frames;
      LateStep(Run(cl, es[..|es| - 1]), es[|es| - 1], k);
    }
  }

  lemma LateStep<F(!new)>(cl: Client<F>, e: Event<F>, k: CallNo)
    requires k < |cl.calls| && cl.calls[k].late && !cl.calls[k].waiting
    ensures var d := Apply(cl, e);
      k < |d.calls| && d.calls[k].late && !d.calls[k].waiting && Frames(d.calls[k].seen) == Frames(cl.calls[k].seen)
  {
    match e {
      case Ask(j) => if j < |cl.calls| { LateAsk(cl, j, k); }
      case Response(j, frame, end) => if j < |cl.calls| { LatePush(cl, j, frame, end, k); }
      case TerminalError(j, code) => if j < |cl.calls| { LateFail(cl, j, Remote(code), true, k); }
      case Disconnect => LateDisconnect(cl, k);
      case Cancel(j) => LateCancel(cl, e, k);
      case Expire(j) => LateCancel(cl, e, k);
      case WaitIsCancelled(j) => LateCancel(cl, e, k);
      case WaitTimesOut(j) => if j < |cl.calls| { LateTimeOut(cl, j, k); }
      case _ => LateOther(cl, e, k);
    }
  }

  /** The call still waits for nothing past its deadline, and saw nothing new. */
  predicate SameReader<F(==)>(c: Call<F>, d: Call<F>) {
    d.late == c.late && d.waiting == c.waiting && d.seen == c.seen
  }

  lemma FailedSameReader<F(!new)>(c: Call<F>, error: Error, preserve: bool)
    ensures SameReader(c, FailedCall(c, error, preserve))
  {
  }

  lemma LateFail<F(!new)>(cl: Client<F>, j: CallNo, error: Error, preserve: bool, k: CallNo)
    requires j < |cl.calls| && k < |cl.calls|
    ensures var d := FailStep(cl, j, error, preserve);
      k < |d.calls| && SameReader(cl.calls[k], d.calls[k])
  {
    FailedSameReader(cl.calls[j], error, preserve);
    hide FailedCall;
  }

  lemma LatePush<F(!new)>(cl: Client<F>, j: CallNo, frame: F, end: bool, k: CallNo)
    requires j < |cl.calls| && k < |cl.calls|
    ensures var d := PushStep(cl, j, frame, end);
      k < |d.calls| && SameReader(cl.calls[k], d.calls[k])
  {
    LateFail(Set(cl, j, cl.calls[j].(received := cl.calls[j].received + [frame])), j, Backpressure, false, k);
    hide FailStep;
  }

  lemma LateDisconnect<F(!new)>(cl: Client<F>, k: CallNo)
    requires k < |cl.calls|
    ensures SameReader(cl.calls[k], DisconnectStep(cl).calls[k])
  {
    assert DisconnectStep(cl).calls[k] == DisconnectedCall(cl, k);
    hide DisconnectStep, FailedCall;
    FailedSameReader(cl.calls[k], ConnectionDown, true);
  }

  lemma CancelSameReader<F(!new)>(cl: Client<F>, j: CallNo, k: CallNo)
    requires j < |cl.calls| && k < |cl.calls|
    ensures |CancelStep(cl, j).calls| == |cl.calls| && SameReader(cl.calls[k], CancelStep(cl, j).calls[k])
  {
  }

  lemma LateCancel<F(!new)>(cl: Client<F>, e: Event<F>, k: CallNo)
    requires e.Cancel? || e.Expire? || e.WaitIsCancelled?
    requires k < |cl.calls| && !cl.calls[k].waiting
    ensures k < |Apply(cl, e).calls| && SameReader(cl.calls[k], Apply(cl, e).calls[k])
  {
    if e.k < |cl.calls| {
      var c := cl.calls[e.k];
      CancelSameReader(cl, e.k, k);
      CancelSameReader(Set(cl, e.k, c.(failure := Some(TimedOut))), e.k, k);
      CancelSameReader(Set(cl, e.k, c.(waiting := false)), e.k, k);
    }
    hide CancelStep;
  }

  lemma LateTimeOut<F(!new)>(cl: Client<F>, j: CallNo, k: CallNo)
    requires j < |cl.calls| && k < |cl.calls| && !cl.calls[k].waiting
    ensures var d := TimeOut(cl, j);
      && k < |d.calls| && d.calls[k].late == cl.calls[k].late && !d.calls[k].waiting
      && (j != k ==> d.calls[k].seen == cl.calls[k].seen)
      && Frames(d.calls[k].seen) == Frames(cl.calls[k].seen)
  {
    CancelSameReader(cl, j, k);
    CancelSameReader(cl, j, j);
    FramesAppend(cl.calls[k].seen, Raised(TimedOut));
    hide CancelStep, Frames;
    assert Frames(cl.calls[k].seen) + [] == Frames(cl.calls[k].seen);
  }

  lemma LateAsk<F(!new)>(cl: Client<F>, j: CallNo, k: CallNo)
    requires j < |cl.calls| && k < |cl.calls| && cl.calls[k].late && !cl.calls[k].waiting
    ensures var d := AskStep(cl, j);
      k < |d.calls| && d.calls[k].late && !d.calls[k].waiting && Frames(d.calls[k].seen) == Frames(cl.calls[k].seen)
  {
    LateTimeOut(cl, j, k);
    if j == k {
      LateTold(cl.calls[k]);
    }
    hide TimeOut, Frames, Take;
  }

  lemma LateTold<F(!new)>(c: Call<F>)
    ensures Frames(c.seen + [Ended]) == Frames(c.seen)
    ensures c.failure.Some? ==> Frames(c.seen + [Raised(c.failure.value)]) == Frames(c.seen)
  {
    FramesAppend(c.seen, Ended);
    if c.failure.Some? {
      FramesAppend(c.seen, Raised(c.failure.value));
    }
    hide Frames;
    assert Frames(c.seen) + [] == Frames(c.seen);
  }

  lemma LateOther<F(!new)>(cl: Client<F>, e: Event<F>, k: CallNo)
    requires e.OpenCall? || e.RequestSent? || e.RequestFailed? || e.Lifecycle? || e.TimerFires? || e.CancellationFailed?
      || e.DeadlinePasses? || e.AwaiterIsCancelled? || e.Wake?
    requires k < |cl.calls| && cl.calls[k].late && !cl.calls[k].waiting
    ensures k < |Apply(cl, e).calls| && SameReader(cl.calls[k], Apply(cl, e).calls[k])
  {
    hide Take;
  }

  /** A call completed in time and read late: its consumer is told of a timeout at every read
      and never gets the frame that is there. */
  lemma LateReaderLosesACompleteCall<F(!new)>(frame: F)
    ensures var es := [OpenCall(true), RequestSent(0), Response(0, frame, true), DeadlinePasses(0), Ask(0), Ask(0)];
      var c := Run(Init(1), es).calls;
      && |c| == 1 && c[0].seen == [Raised(TimedOut), Raised(TimedOut)] && c[0].queue == [Frame(frame)]
      && !c[0].drained && c[0].future == Settled(NotRequested)
  {
    var cl: Client<F> := Init(1);
    RunOfFour(cl, OpenCall(true), RequestSent(0), Response(0, frame, true), DeadlinePasses(0));
    var es: seq<Event<F>> := [OpenCall(true), RequestSent(0), Response(0, frame, true), DeadlinePasses(0)];
    RunUnfolds(cl, es, Ask(0));
    RunUnfolds(cl, es + [Ask(0)], Ask(0));
    assert es + [Ask(0)] + [Ask(0)]
        == [OpenCall(true), RequestSent(0), Response(0, frame, true), DeadlinePasses(0), Ask(0), Ask(0)];
    hide Run;
    LateCompleteCall(frame);
    LateAsks(Client(1, [LateCall(frame)], {}, {}, {}));
    hide Apply;
  }

  function LateCall<F>(frame: F): Call<F> {
    NewCall(1, true).(stage := Returned, queue := [Frame(frame)], received := [frame], terminal := true,
                      future := Settled(NotRequested), late := true)
  }

  lemma LateCompleteCall<F(!new)>(frame: F)
    ensures Apply(Apply(Apply(Apply(Init<F>(1), OpenCall(true)), RequestSent(0)), Response(0, frame, true)), DeadlinePasses(0))
      == Client(1, [LateCall(frame)], {}, {}, {})
  {
    var begun: Client<F> := Apply(Init(1), OpenCall(true));
    assert begun == Client(1, [NewCall(1, true)], {0}, {}, {});
    var returned := Apply(begun, RequestSent(0));
    assert returned == Client(1, [NewCall(1, true).(stage := Returned)], {0}, {}, {});
    var answered := Apply(returned, Response(0, frame, true));
    assert returned.pending - {0} == {};
    assert |answered.calls| == 1 && answered.calls[0].queue == [Frame(frame)] && answered.calls[0].received == [frame];
    assert answered.calls == [LateCall(frame).(late := false)];
    assert answered == Client(1, [LateCall(frame).(late := false)], {}, {}, {});
  }

  lemma LateAsks<F(!new)>(cl: Client<F>)
    requires |cl.calls| == 1 && cl.calls[0].late && cl.calls[0].terminal && cl.calls[0].queue != []
    requires !cl.calls[0].waiting && cl.calls[0].stage == Returned && cl.calls[0].seen == []
    ensures var d := Apply(Apply(cl, Ask(0)), Ask(0));
      d.calls == [cl.calls[0].(seen := [Raised(TimedOut), Raised(TimedOut)])]
  {
    LateAskTold(cl);
    LateAskTold(Apply(cl, Ask(0)));
    hide Apply;
    var told: seq<Seen<F>> := [];
    assert told + [Raised(TimedOut)] + [Raised(TimedOut)] == [Raised(TimedOut), Raised(TimedOut)];
  }

  lemma LateAskTold<F(!new)>(cl: Client<F>)
    requires |cl.calls| == 1 && cl.calls[0].late && cl.calls[0].terminal && cl.calls[0].queue != []
    requires !cl.calls[0].waiting && cl.calls[0].stage == Returned
    ensures Apply(cl, Ask(0)).calls == [cl.calls[0].(seen := cl.calls[0].seen + [Raised(TimedOut)])]
  {
    assert CancelStep(cl, 0) == cl;
    hide CancelStep;
    assert TimeOut(cl, 0).calls[0] == cl.calls[0].(seen := cl.calls[0].seen + [Raised(TimedOut)]);
  }

  /** Buffered frames are thrown away only when the call is cancelled, when its deadline has
      passed, or when the consumer has fallen behind. */
  lemma OnlyGivingUpDropsFrames<F(!new)>(cl: Client<F>, e: Event<F>, k: CallNo)
    requires k < |cl.calls| && k < |Apply(cl, e).calls|
    requires !cl.calls[k].drained && Apply(cl, e).calls[k].drained
    ensures e == Cancel(k) || e == WaitIsCancelled(k)
      || (cl.calls[k].late && (e == Expire(k) || e == Ask(k) || e == WaitTimesOut(k)))
      || (e.Response? && e.k == k && |cl.calls[k].queue| >= cl.calls[k].capacity)
  {
    hide AskStep, TimeOut, ExpireStep, PushStep, FailStep, DisconnectedCall, Take, SettleStep;
    match e {
      case Ask(j) => if j < |cl.calls| { AskingDropsNothingInTime(cl, j, k); }
      case WaitTimesOut(j) => if j < |cl.calls| { GivingUpDropsNothingElse(cl, j, k); }
      case Expire(j) => if j < |cl.calls| { GivingUpDropsNothingElse(cl, j, k); }
      case Response(j, frame, end) => if j < |cl.calls| { PushDropsOnlyWhenFull(cl, j, frame, end, k); }
      case TerminalError(j, code) => if j < |cl.calls| { FailDropsNothing(cl, j, Remote(code), k); }
      case Disconnect => DisconnectDropsNothing(cl, k);
      case _ => TakingDropsNothing(cl, e, k);
    }
  }

  lemma GivingUpDropsNothingElse<F>(cl: Client<F>, j: CallNo, k: CallNo)
    requires j < |cl.calls| && k < |cl.calls| && !cl.calls[k].drained
    ensures k < |ExpireStep(cl, j).calls| && (ExpireStep(cl, j).calls[k].drained ==> j == k && cl.calls[k].late)
    ensures k < |TimeOut(cl, j).calls| && (TimeOut(cl, j).calls[k].drained ==> j == k)
  {
  }

  lemma PushDropsOnlyWhenFull<F>(cl: Client<F>, j: CallNo, frame: F, end: bool, k: CallNo)
    requires j < |cl.calls| && k < |cl.calls| && !cl.calls[k].drained
    ensures var d := PushStep(cl, j, frame, end);
      k < |d.calls| && (d.calls[k].drained ==> j == k && |cl.calls[k].queue| >= cl.calls[k].capacity)
  {
  }

  lemma FailDropsNothing<F>(cl: Client<F>, j: CallNo, error: Error, k: CallNo)
    requires j < |cl.calls| && k < |cl.calls| && !cl.calls[k].drained
    ensures var d := FailStep(cl, j, error, true);
      k < |d.calls| && !d.calls[k].drained
  {
  }

  lemma DisconnectDropsNothing<F>(cl: Client<F>, k: CallNo)
    requires k < |cl.calls| && !cl.calls[k].drained
    ensures !DisconnectStep(cl).calls[k].drained
  {
    assert DisconnectStep(cl).calls[k] == DisconnectedCall(cl, k);
    assert !FailedCall(cl.calls[k], ConnectionDown, true).drained;
    hide DisconnectStep, FailedCall;
  }

  lemma AskingDropsNothingInTime<F>(cl: Client<F>, j: CallNo, k: CallNo)
    requires j < |cl.calls| && k < |cl.calls| && !cl.calls[k].drained
    ensures k < |AskStep(cl, j).calls| && (AskStep(cl, j).calls[k].drained ==> j == k && cl.calls[k].late)
  {
  }

  lemma TakingDropsNothing<F(!new)>(cl: Client<F>, e: Event<F>, k: CallNo)
    requires k < |cl.calls| && !cl.calls[k].drained
    ensures e.Wake? || e.Lifecycle? || e.TimerFires? || e.CancellationFailed? ==>
      k < |Apply(cl, e).calls| && !Apply(cl, e).calls[k].drained
  {
  }

  // ----- The client object -----

  class RPCClient<F> {
    const capacity: nat
    var calls: seq<Call<F>>
    var pending: set<CallNo>
    var pendingCancellations: set<CallNo>
    var timers: set<CallNo>

    ghost function Model(): Client<F>
      reads this
    {
      Client(capacity, calls, pending, pendingCancellations, timers)
    }

    constructor (capacity: nat)
      ensures Model() == Init(capacity)
    {
      this.capacity := capacity;
      calls, pending, pendingCancellations, timers := [], {}, {}, {};
    }

    /** `open_call` up to sending the request frame. */
    method OpenCall(hasDeadline: bool) returns (k: CallNo)
      modifies this
      ensures Model() == OpenStep(old(Model()), hasDeadline)
      ensures k == |old(calls)|
    {
      k := |calls|;
      calls, pending := calls + [NewCall(capacity, hasDeadline)], pending + {k};
    }

    method FinishCall(k: CallNo, outcome: Outcome)
      requires k < |calls|
      modifies this`calls, this`pending
      ensures Model() == Set(old(Model()), k, Resolve(old(calls)[k], outcome)).(pending := old(pending) - {k})
    {
      pending := pending - {k};
      if calls[k].future == Open {
        calls := calls[k := calls[k].(future := Settled(outcome))];
      }
    }

    method Fail(k: CallNo, error: Error, preserveBuffered: bool)
      requires k < |calls|
      modifies this`calls, this`pending
      ensures Model() == FailStep(old(Model()), k, error, preserveBuffered)
    {
      if calls[k].closed {
        return;
      }
      MarkFailed(k, error, preserveBuffered);
      hide FailedCall, Resolve;
      FinishCall(k, FailureOutcome(error));
    }

    method MarkFailed(k: CallNo, error: Error, preserveBuffered: bool)
      requires k < |calls|
      modifies this`calls
      ensures Model() == Set(old(Model()), k, FailedCall(old(calls)[k], error, preserveBuffered))
    {
      var c := calls[k].(closed := true, fault := Some(error));
      if !preserveBuffered {
        c := c.(queue := [], drained := true);
      }
      if |c.queue| < c.capacity {
        calls := calls[k := c.(queue := c.queue + [Fault(error)], failure := None)];
      } else {
        calls := calls[k := c.(failure := Some(error))];
      }
    }

    /** A response frame for a pending call. */
    method Push(k: CallNo, frame: F, end: bool)
      requires k < |calls|
      modifies this`calls, this`pending
      ensures Model() == PushStep(old(Model()), k, frame, end)
    {
      var c := calls[k];
      if c.closed {
        return;
      }
      calls := calls[k := c.(received := c.received + [frame])];
      if |c.queue| >= c.capacity {
        Fail(k, Backpressure, false);
        return;
      }
      calls := calls[k := calls[k].(queue := c.queue + [Frame(frame)])];
      if end {
        calls := calls[k := calls[k].(terminal := true)];
        FinishCall(k, NotRequested);
      }
    }

    /** `_close_and_cancel`, with `_abandon_call`, up to sending the cancellation frame. */
    method CloseAndCancel(k: CallNo) returns (asks: bool)
      requires k < |calls|
      modifies this
      ensures Model() == CancelStep(old(Model()), k)
      ensures asks <==> k in pendingCancellations && k !in old(pendingCancellations)
    {
      asks := false;
      var c := calls[k];
      if c.terminal || c.closed {
        return;
      }
      calls := calls[k := c.(closed := true, queue := [EndMark], drained := true)];
      pending := pending - {k};
      if c.future != Open || k in pendingCancellations {
        return;
      }
      pendingCancellations, timers := pendingCancellations + {k}, timers + {k};
      calls := calls[k := calls[k].(asked := true)];
      asks := true;
    }

    method SettleCancellation(k: CallNo, outcome: Outcome)
      requires k < |calls|
      modifies this
      ensures Model() == SettleStep(old(Model()), k, outcome)
    {
      if k !in pendingCancellations {
        return;
      }
      pendingCancellations, timers := pendingCancellations - {k}, timers - {k};
      if calls[k].future == Open {
        calls := calls[k := calls[k].(future := Settled(outcome))];
      }
    }

    /** `__anext__` up to its first wait. */
    method Next(k: CallNo)
      requires k < |calls| && !calls[k].waiting
      modifies this
      ensures Model() == AskStep(old(Model()), k)
    {
      var c := calls[k];
      if c.failure.Some? && c.queue == [] {
        calls := calls[k := c.(failure := None, seen := c.seen + [Raised(c.failure.value)])];
      } else if (c.closed || c.terminal) && c.queue == [] {
        calls := calls[k := c.(seen := c.seen + [Ended])];
      } else if c.late {
        var _ := CloseAndCancel(k);
        calls := calls[k := calls[k].(waiting := false, seen := calls[k].seen + [Raised(TimedOut)])];
      } else if c.queue == [] {
        calls := calls[k := c.(waiting := true)];
      } else {
        calls := calls[k := Take(c)];
      }
    }

    /** `_disconnect`: both loops. */
    method Disconnect()
      modifies this
      ensures Model() == DisconnectStep(old(Model()))
    {
      ghost var before := Model();
      FailPending();
      ghost var failed := calls;
      var left := pendingCancellations;
      while left != {}
        invariant left <= pendingCancellations == before.cancelling
        invariant |calls| == |failed| == |before.calls| && pending == {}
        invariant forall k :: 0 <= k < |calls| ==>
          calls[k] == if k in pendingCancellations && k !in left then Resolve(failed[k], ConnectionClosed) else failed[k]
        decreases left
      {
        var k :| k in left;
        left := left - {k};
        if k < |calls| && calls[k].future == Open {
          calls := calls[k := calls[k].(future := Settled(ConnectionClosed))];
        }
      }
      pendingCancellations, timers := {}, {};
      assert calls == DisconnectStep(before).calls;
    }

    method FailPending()
      modifies this`calls, this`pending
      ensures |calls| == |old(calls)| && pending == {}
      ensures forall k :: 0 <= k < |calls| ==>
        calls[k] == if k in old(pending) && !old(calls)[k].closed
                    then Resolve(FailedCall(old(calls)[k], ConnectionDown, true), ConnectionClosed)
                    else old(calls)[k]
    {
      ghost var before := Model();
      var left := pending;
      hide FailedCall, Resolve;
      while left != {}
        invariant left <= before.pending && |calls| == |before.calls|
        invariant forall k :: 0 <= k < |calls| ==>
          calls[k] == if k in before.pending && k !in left && !before.calls[k].closed
                      then Resolve(FailedCall(before.calls[k], ConnectionDown, true), ConnectionClosed)
                      else before.calls[k]
        decreases left
      {
        var k :| k in left;
        left := left - {k};
        if k < |calls| {
          Fail(k, ConnectionDown, true);
        }
      }
      pending := {};
    }
  }
}
