/** A bounded local subscription consumer: a queue fed by `push`, ended by `fail` or
    `finish`, and read by one task. */
module AsyncSubscriptions {

  datatype Item<T> = Value(value: T) | Error(error: string) | EndOfStream

  datatype Output<T> = Yielded(value: T) | Raised(error: string) | Stopped

  /** `accepted`, `outputs` and `yielded` record the run: the pushes the queue took, what
      the reader got, and how many of those were items. */
  datatype Subscription<T> = Subscription(
    capacity: nat, queue: seq<Item<T>>, closed: bool,
    accepted: seq<T>, outputs: seq<Output<T>>, yielded: nat)

  datatype Event<T> = PushItem(value: T) | FailWith(error: string) | FinishNow | ReadNext

  const BACKPRESSURE := "Subscription consumer fell behind"

  function New<T>(capacity: nat): Subscription<T> {
    Subscription(capacity, [], false, [], [], 0)
  }

  // ----- The atomic steps -----

  function Fail<T>(s: Subscription<T>, error: string): Subscription<T> {
    if s.closed then s else s.(closed := true, queue := [Error(error)])
  }

  function Finish<T>(s: Subscription<T>): Subscription<T> {
    if s.closed then s else s.(closed := true, queue := [EndOfStream])
  }

  function Push<T>(s: Subscription<T>, value: T): Subscription<T> {
    if s.closed then s
    else if |s.queue| < s.capacity then
      s.(queue := s.queue + [Value(value)], accepted := s.accepted + [value])
    else Fail(s, BACKPRESSURE)
  }

  /** `__anext__`; with nothing queued on an open subscription the reader stays suspended. */
  function Next<T>(s: Subscription<T>): Subscription<T> {
    if s.queue == [] then
      if s.closed then s.(outputs := s.outputs + [Stopped]) else s
    else
      var popped := s.(queue := s.queue[1..]);
      match s.queue[0]
      case Value(v) => popped.(outputs := s.outputs + [Yielded(v)], yielded := s.yielded + 1)
      case Error(error) => popped.(closed := true, outputs := s.outputs + [Raised(error)])
      case EndOfStream => popped.(outputs := s.outputs + [Stopped])
  }

  function Apply<T>(s: Subscription<T>, e: Event<T>): Subscription<T> {
    match e
    case PushItem(v) => Push(s, v)
    case FailWith(error) => Fail(s, error)
    case FinishNow => Finish(s)
    case ReadNext => Next(s)
  }

  function Run<T>(s: Subscription<T>, es: seq<Event<T>>): Subscription<T> {
    if es == [] then s else Apply(Run(s, es[..|es| - 1]), es[|es| - 1])
  }

  // ----- What a run keeps -----

  /** The first `n` outputs are the first `n` accepted items; after them comes at most one
      error, and then only the end. */
  ghost predicate InOrder<T(!new)>(outputs: seq<Output<T>>, accepted: seq<T>, n: nat) {
    && n <= |accepted| && n <= |outputs|
    && (forall i :: 0 <= i < n ==> outputs[i] == Yielded(accepted[i]))
    && (forall i :: n < i < |outputs| ==> outputs[i] == Stopped)
    && (n < |outputs| ==> outputs[n].Raised? || outputs[n] == Stopped)
  }

  ghost predicate Inv<T(!new)>(s: Subscription<T>) {
    && 1 <= s.capacity
    && InOrder(s.outputs, s.accepted, s.yielded)
    && (!s.closed ==>
          && |s.outputs| == s.yielded
          && |s.queue| == |s.accepted| - s.yielded
          && forall i :: 0 <= i < |s.queue| ==> s.queue[i] == Value(s.accepted[s.yielded + i]))
    && (s.closed ==> s.queue == [] || (|s.queue| == 1 && !s.queue[0].Value? && |s.outputs| == s.yielded))
  }

  lemma ApplyKeepsInv<T(!new)>(s: Subscription<T>, e: Event<T>)
    requires Inv(s)
    ensures Inv(Apply(s, e))
  {
  }

  lemma {:induction false} RunKeepsInv<T(!new)>(s: Subscription<T>, es: seq<Event<T>>)
    requires Inv(s)
    ensures Inv(Run(s, es))
  {
    if es != [] {
      RunKeepsInv(s, es[..|es| - 1]);
      ApplyKeepsInv(Run(s, es[..|es| - 1]), es[|es| - 1]);
    }
  }

  /** Over every interleaving of pushes, failures, ends and reads, the reader gets a prefix
      of the accepted items in order, then at most one error, then only the end; and while
      the subscription is open, everything accepted and not yet read is still queued. */
  lemma ReaderSeesAPrefix<T(!new)>(capacity: nat, es: seq<Event<T>>)
    requires 1 <= capacity
    ensures var s := Run(New(capacity), es);
      && InOrder(s.outputs, s.accepted, s.yielded)
      && (!s.closed ==> |s.queue| + s.yielded == |s.accepted| && |s.outputs| == s.yielded)
  {
    RunKeepsInv(New<T>(capacity), es);
  }

  /** Nothing follows the end: once the reader got an error or the end, every later read of
      the same subscription stops. */
  lemma {:induction false} EndIsFinal<T(!new)>(s: Subscription<T>, es: seq<Event<T>>)
    requires Inv(s) && s.yielded < |s.outputs|
    ensures Run(s, es).yielded == s.yielded && Run(s, es).accepted == s.accepted
    ensures |s.outputs| <= |Run(s, es).outputs|
    ensures forall i :: |s.outputs| <= i < |Run(s, es).outputs| ==> Run(s, es).outputs[i] == Stopped
    ensures Inv(Run(s, es)) && Run(s, es).closed && Run(s, es).queue == []
  {
    if es != [] {
      EndIsFinal(s, es[..|es| - 1]);
      ApplyKeepsInv(Run(s, es[..|es| - 1]), es[|es| - 1]);
    }
  }

  // ----- What the run says -----

  /** What was accepted: the items pushed before the consumer ended, up to `capacity` ahead of
      its reader.  And what ended it, if anything has: the first failure, finish, or item
      there was no room for. */
  function Accepted<T>(capacity: nat, es: seq<Event<T>>): seq<T> {
    if es == [] then []
    else
      var earlier, e, accepted := es[..|es| - 1], es[|es| - 1], Accepted(capacity, es[..|es| - 1]);
      if e.PushItem? && Ending(capacity, earlier) == NotEnded && |accepted| < Run(New(capacity), earlier).yielded + capacity
      then accepted + [e.value] else accepted
  }

  datatype End = NotEnded | ByFailure(error: string) | ByFinish

  function Ending<T>(capacity: nat, es: seq<Event<T>>): End {
    if es == [] then NotEnded
    else
      var earlier, e := es[..|es| - 1], es[|es| - 1];
      if Ending(capacity, earlier) != NotEnded then Ending(capacity, earlier)
      else
        match e
        case PushItem(_) =>
          if |Accepted(capacity, earlier)| < Run(New(capacity), earlier).yielded + capacity then NotEnded
          else ByFailure(BACKPRESSURE)
        case FailWith(error) => ByFailure(error)
        case FinishNow => ByFinish
        case ReadNext => NotEnded
  }

  /** How an ended consumer is told. */
  function Telling<T>(end: End): Output<T> {
    if end.ByFailure? then Raised(end.error) else Stopped
  }

  function LastItem<T>(end: End): Item<T> {
    if end.ByFailure? then Error(end.error) else EndOfStream
  }

  /** Over every run: the consumer accepted what the run says, is closed exactly if something
      ended it, and has told its reader after the items, or is about to tell it, exactly what
      ended it. */
  lemma {:induction false} EndsAsTheRunSays<T(!new)>(capacity: nat, es: seq<Event<T>>)
    requires 1 <= capacity
    ensures var s, end := Run(New(capacity), es), Ending(capacity, es);
      && s.accepted == Accepted(capacity, es)
      && (s.closed <==> end != NotEnded)
      && (s.closed && |s.outputs| == s.yielded ==> s.queue == [LastItem(end)])
      && (s.closed && |s.outputs| > s.yielded ==> s.queue == [] && s.outputs[s.yielded] == Telling(end))
    decreases |es|
  {
    if es != [] {
      EndsAsTheRunSays(capacity, es[..|es| - 1]);
      RunKeepsInv(New<T>(capacity), es[..|es| - 1]);
      RunKeepsCapacity(New<T>(capacity), es[..|es| - 1]);
    }
  }

  lemma {:induction false} RunKeepsCapacity<T(!new)>(s: Subscription<T>, es: seq<Event<T>>)
    ensures Run(s, es).capacity == s.capacity
  {
    if es != [] { RunKeepsCapacity(s, es[..|es| - 1]); }
  }

  /** A read goes on: it yields the next accepted item, or once the consumer has ended tells
      what ended it and from then on stops; only on an open consumer with nothing left it
      waits. */
  lemma ReadsGoOn<T(!new)>(capacity: nat, es: seq<Event<T>>)
    requires 1 <= capacity
    ensures var s, end := Run(New(capacity), es), Ending(capacity, es);
      Next(s).outputs == s.outputs +
        if end == NotEnded then (if s.yielded < |s.accepted| then [Yielded(s.accepted[s.yielded])] else [])
        else if |s.outputs| == s.yielded then [Telling(end)]
        else [Stopped]
  {
    EndsAsTheRunSays(capacity, es);
    RunKeepsInv(New<T>(capacity), es);
    var s := Run(New(capacity), es);
    assert s.outputs + [] == s.outputs;
    hide Run, Ending, Accepted;
  }

  // ----- The consumer object -----

  class AsyncSubscription<T> {
    const capacity: nat
    var queue: seq<Item<T>>
    var closed: bool
    ghost var accepted: seq<T>
    ghost var outputs: seq<Output<T>>
    ghost var yielded: nat

    ghost function Model(): Subscription<T>
      reads this
    {
      Subscription(capacity, queue, closed, accepted, outputs, yielded)
    }

    constructor (capacity: nat)
      ensures Model() == New(capacity)
    {
      this.capacity := capacity;
      queue, closed, accepted, outputs, yielded := [], false, [], [], 0;
    }

    method Drain()
      modifies this`queue
      ensures queue == []
    {
      while queue != []
        decreases |queue|
      {
        queue := queue[1..];
      }
    }

    method FailWith(error: string)
      modifies this
      ensures Model() == Fail(old(Model()), error)
    {
      if closed {
        return;
      }
      closed := true;
      Drain();
      queue := [Error(error)];
    }

    method FinishNow()
      modifies this
      ensures Model() == Finish(old(Model()))
    {
      if closed {
        return;
      }
      closed := true;
      Drain();
      queue := [EndOfStream];
    }

    /** Whether the queue took the item. */
    method PushItem(value: T) returns (taken: bool)
      modifies this
      ensures Model() == Push(old(Model()), value)
      ensures taken <==> !closed
    {
      if closed {
        return false;
      }
      if |queue| < capacity {
        queue, accepted := queue + [Value(value)], accepted + [value];
        return true;
      }
      FailWith(BACKPRESSURE);
      return false;
    }

    /** One read that does not have to wait. */
    method ReadNext() returns (o: Output<T>)
      requires closed || queue != []
      modifies this
      ensures Model() == Next(old(Model()))
      ensures outputs == old(outputs) + [o]
    {
      if queue == [] {
        o := Stopped;
      } else {
        var item := queue[0];
        queue := queue[1..];
        match item {
          case Value(v) =>
            o, yielded := Yielded(v), yielded + 1;
          case Error(error) =>
            closed := true;
            o := Raised(error);
          case EndOfStream =>
            o := Stopped;
        }
      }
      outputs := outputs + [o];
    }
  }
}
