/** One wire subscription per registration, shared by any number of local consumers.

    Every operation that talks to the broker holds the registry's lock from its start to
    its end, so at most one is under way: `operation`.  `publish` needs no lock. */
module SubscriptionRegistries {
  import opened AsyncSubscriptions

  type ConsumerNo = nat

  datatype Wire = Wire(subId: nat, members: set<ConsumerNo>)

  /** How far a consumer's `aclose` has come: it waits for the registry's lock, was cancelled
      while it waited, or has left the registration.  The source's `_wire_closed` is set in
      all but the first. */
  datatype ClosePhase = NotAsked | Waiting | GivenUp | Left

  /** `since` is the length of the registry's log when the consumer was attached. */
  datatype Consumer<T> = Consumer(
    registration: string, subscription: Subscription<T>, close: ClosePhase, since: nat)

  /** The last wire request of a registration, and whether the broker acknowledged it.  After
      a failed unsubscribe the broker's side is `Doubtful`: it may or may not be sending. */
  datatype WireState = SubscribeSent | Live | UnsubscribeSent | Unsubscribed | Doubtful

  datatype Operation =
    | Idle
    | Subscribing(registration: string, cancelled: bool)
    | Undoing(registration: string, subId: nat)
    | Closing(registration: string, consumer: ConsumerNo)
    | Restoring(todo: seq<string>)

  /** `log`, `wire` and `used` record the run: what was published for which registration,
      the state of each registration's wire subscription, and the broker ids seen. */
  datatype Registry<T> = Registry(
    capacity: nat, byRegistration: map<string, Wire>, byId: map<nat, string>,
    consumers: seq<Consumer<T>>, pending: seq<(nat, T)>, operation: Operation,
    wire: map<string, WireState>, used: set<nat>, log: seq<(string, T)>)

  datatype Event<T> =
    | Subscribe(registration: string)
    | CancelSubscribe
    | SubscribeAcked(subId: nat)
    | SubscribeFailed
    | UndoAcked
    | UndoFailed
    | AskClose(c: ConsumerNo)
    | CancelClose(c: ConsumerNo)
    | CloseConsumer(c: ConsumerNo)
    | UnsubscribeAcked
    | UnsubscribeFailed
    | Publish(subId: nat, item: T)
    | Restore(order: seq<string>)
    | RestoreAcked(subId: nat)
    | RestoreFailed(error: string)
    | RestoreCancelled
    | Read(c: ConsumerNo)

  function Init<T>(capacity: nat): Registry<T> {
    Registry(capacity, map[], map[], [], [], Idle, map[], {}, [])
  }

  // ----- Delivery -----

  function PushTo<T>(consumers: seq<Consumer<T>>, members: set<ConsumerNo>, item: T): (r: seq<Consumer<T>>)
    ensures |r| == |consumers|
  {
    seq(|consumers|, c requires 0 <= c < |consumers| =>
      if c in members then consumers[c].(subscription := Push(consumers[c].subscription, item)) else consumers[c])
  }

  function Refused<T>(consumers: seq<Consumer<T>>, members: set<ConsumerNo>): set<ConsumerNo> {
    set c | c in members && c < |consumers| && consumers[c].subscription.closed
  }

  /** `deque(maxlen = capacity)` drops its oldest element when full. */
  function AppendBounded<A>(queue: seq<A>, a: A, capacity: nat): seq<A> {
    if |queue| + 1 > capacity then (queue + [a])[|queue| + 1 - capacity..] else queue + [a]
  }

  /** One item handed to every member of a registration. */
  function Deliver<T>(r: Registry<T>, registration: string, item: T): Registry<T>
    requires registration in r.byRegistration
  {
    r.(consumers := PushTo(r.consumers, r.byRegistration[registration].members, item),
       log := r.log + [(registration, item)])
  }

  function PublishStep<T>(r: Registry<T>, subId: nat, item: T): Registry<T> {
    if subId !in r.byId then r.(pending := AppendBounded(r.pending, (subId, item), r.capacity))
    else if r.byId[subId] !in r.byRegistration then r
    else
      var d, registration := Deliver(r, r.byId[subId], item), r.byId[subId];
      var w := d.byRegistration[registration];
      d.(byRegistration := d.byRegistration[registration :=
           w.(members := w.members - Refused(d.consumers, w.members))])
  }

  /** Early notifications: the buffered items for `subId`, in order. */
  function Early<T>(pending: seq<(nat, T)>, subId: nat): seq<T> {
    if pending == [] then []
    else (if pending[0].0 == subId then [pending[0].1] else []) + Early(pending[1..], subId)
  }

  function Others<T>(pending: seq<(nat, T)>, subId: nat): seq<(nat, T)> {
    if pending == [] then []
    else (if pending[0].0 == subId then [] else [pending[0]]) + Others(pending[1..], subId)
  }

  function DeliverAll<T>(r: Registry<T>, registration: string, items: seq<T>): (r': Registry<T>)
    requires registration in r.byRegistration
    ensures r' == r.(consumers := r'.consumers, log := r'.log)
    decreases |items|
  {
    if items == [] then r else DeliverAll(Deliver(r, registration, items[0]), registration, items[1..])
  }

  function Flush<T>(r: Registry<T>, registration: string): Registry<T>
    requires registration in r.byRegistration
  {
    var subId := r.byRegistration[registration].subId;
    DeliverAll(r, registration, Early(r.pending, subId)).(pending := Others(r.pending, subId))
  }

  // ----- Operations -----

  function Attach<T>(r: Registry<T>, registration: string): Registry<T>
    requires registration in r.byRegistration
  {
    var w, c := r.byRegistration[registration], |r.consumers|;
    Flush(r.(consumers := r.consumers + [Consumer(registration, New(r.capacity), NotAsked, |r.log|)],
             byRegistration := r.byRegistration[registration := w.(members := w.members + {c})]),
          registration)
  }

  function Register<T>(r: Registry<T>, registration: string, subId: nat, state: WireState): Registry<T> {
    r.(byRegistration := r.byRegistration[registration := Wire(subId, {})],
       byId := r.byId[subId := registration], operation := Idle, wire := r.wire[registration := state])
  }

  function SubscribeStep<T>(r: Registry<T>, registration: string): Registry<T> {
    if r.operation != Idle then r
    else if registration in r.byRegistration then Attach(r, registration)
    else r.(operation := Subscribing(registration, false), wire := r.wire[registration := SubscribeSent])
  }

  function SubscribeAckedStep<T>(r: Registry<T>, subId: nat): Registry<T> {
    if !r.operation.Subscribing? || subId in r.used then r
    else
      var registration, seen := r.operation.registration, r.(used := r.used + {subId});
      if r.operation.cancelled then
        seen.(operation := Undoing(registration, subId), wire := r.wire[registration := UnsubscribeSent])
      else Attach(Register(seen, registration, subId, Live), registration)
  }

  function SetSubscription<T>(r: Registry<T>, c: ConsumerNo, s: Subscription<T>): Registry<T>
    requires c < |r.consumers|
  {
    r.(consumers := r.consumers[c := r.consumers[c].(subscription := s)])
  }

  function SetClose<T>(r: Registry<T>, c: ConsumerNo, phase: ClosePhase): Registry<T>
    requires c < |r.consumers|
  {
    r.(consumers := r.consumers[c := r.consumers[c].(close := phase)])
  }

  /** The first `aclose` of a consumer; any other returns at once. */
  function AskCloseStep<T>(r: Registry<T>, c: ConsumerNo): Registry<T> {
    if c < |r.consumers| && r.consumers[c].close == NotAsked then SetClose(r, c, Waiting) else r
  }

  /** Cancelled while it waits for the lock, `aclose` finishes the consumer and leaves it a
      member of its registration. */
  function CancelCloseStep<T>(r: Registry<T>, c: ConsumerNo): Registry<T> {
    if c < |r.consumers| && r.consumers[c].close == Waiting
    then SetSubscription(SetClose(r, c, GivenUp), c, Finish(r.consumers[c].subscription)) else r
  }

  /** `aclose` from taking the lock on: leave the registration, and unsubscribe if it was
      the last consumer.  The consumer itself is finished once that is over. */
  function CloseStep<T>(r: Registry<T>, c: ConsumerNo): Registry<T> {
    if r.operation != Idle || c >= |r.consumers| || r.consumers[c].close != Waiting then r
    else
      var registration := r.consumers[c].registration;
      var leaving := SetClose(r, c, Left);
      if registration !in r.byRegistration then
        SetSubscription(leaving, c, Finish(r.consumers[c].subscription))
      else
        var w := r.byRegistration[registration];
        var left := leaving.(byRegistration := r.byRegistration[registration := w.(members := w.members - {c})]);
        if w.members - {c} != {} then SetSubscription(left, c, Finish(r.consumers[c].subscription))
        else left.(operation := Closing(registration, c), wire := r.wire[registration := UnsubscribeSent])
  }

  function Unregister<T>(r: Registry<T>, registration: string): Registry<T> {
    if registration !in r.byRegistration then r
    else r.(byId := r.byId - {r.byRegistration[registration].subId},
            byRegistration := r.byRegistration - {registration})
  }

  function CloseDone<T>(r: Registry<T>, acked: bool): Registry<T> {
    if !r.operation.Closing? || r.operation.consumer >= |r.consumers| then r
    else
      var registration, c := r.operation.registration, r.operation.consumer;
      var done := if acked then Unregister(r, registration).(wire := r.wire[registration := Unsubscribed])
                  else r.(wire := r.wire[registration := Doubtful]);
      SetSubscription(done.(operation := Idle), c, Finish(r.consumers[c].subscription))
  }

  /** One registration of `restore`: its new id, or `None` when the resubscribe failed and
      the registration is dropped. */
  function Rekey(byRegistration: map<string, Wire>, byId: map<nat, string>, registration: string,
                 answer: Answer): (map<string, Wire>, map<nat, string>)
  {
    if registration !in byRegistration then (byRegistration, byId)
    else
      var w := byRegistration[registration];
      match answer
      case NewId(subId) =>
        (byRegistration[registration := w.(subId := subId)], (byId - {w.subId})[subId := registration])
      case Dropped => (byRegistration - {registration}, byId - {w.subId})
  }

  datatype Answer = NewId(subId: nat) | Dropped

  function NextRestore<T>(r: Registry<T>, todo: seq<string>): Registry<T> {
    if todo == [] then r.(operation := Idle)
    else r.(operation := Restoring(todo), wire := r.wire[todo[0] := SubscribeSent])
  }

  predicate IsListing(order: seq<string>, keys: set<string>) {
    && (forall i :: 0 <= i < |order| ==> order[i] in keys)
    && (forall k :: k in keys ==> k in order)
    && (forall i, j :: 0 <= i < j < |order| ==> order[i] != order[j])
  }

  function RestoreStep<T>(r: Registry<T>, order: seq<string>): Registry<T> {
    if r.operation != Idle || !IsListing(order, r.byRegistration.Keys) then r else NextRestore(r, order)
  }

  function RestoreAckedStep<T>(r: Registry<T>, subId: nat): Registry<T> {
    if !r.operation.Restoring? || r.operation.todo == [] || subId in r.used then r
    else
      var registration, todo := r.operation.todo[0], r.operation.todo[1..];
      if registration !in r.byRegistration then r
      else
        var keyed := Rekey(r.byRegistration, r.byId, registration, NewId(subId));
        NextRestore(Flush(r.(byRegistration := keyed.0, byId := keyed.1, used := r.used + {subId},
                             wire := r.wire[registration := Live]), registration), todo)
  }

  function FailMembers<T>(consumers: seq<Consumer<T>>, members: set<ConsumerNo>, error: string): (r: seq<Consumer<T>>)
    ensures |r| == |consumers|
  {
    seq(|consumers|, c requires 0 <= c < |consumers| =>
      if c in members then consumers[c].(subscription := Fail(consumers[c].subscription, error)) else consumers[c])
  }

  /** `fail_registration`. */
  function RestoreFailedStep<T>(r: Registry<T>, error: string): Registry<T> {
    if !r.operation.Restoring? || r.operation.todo == [] then r
    else
      var registration, todo := r.operation.todo[0], r.operation.todo[1..];
      if registration !in r.byRegistration then r
      else
        var keyed := Rekey(r.byRegistration, r.byId, registration, Dropped);
        NextRestore(
          r.(byRegistration := keyed.0, byId := keyed.1, wire := r.wire[registration := Unsubscribed],
             consumers := FailMembers(r.consumers, r.byRegistration[registration].members, error)), todo)
  }

  function Apply<T>(r: Registry<T>, e: Event<T>): Registry<T> {
    match e
    case Subscribe(registration) => SubscribeStep(r, registration)
    case CancelSubscribe =>
      if r.operation.Subscribing? then r.(operation := r.operation.(cancelled := true)) else r
    case SubscribeAcked(subId) => SubscribeAckedStep(r, subId)
    case SubscribeFailed =>
      if r.operation.Subscribing?
      then r.(operation := Idle, wire := r.wire[r.operation.registration := Unsubscribed]) else r
    case UndoAcked =>
      if r.operation.Undoing?
      then r.(operation := Idle, wire := r.wire[r.operation.registration := Unsubscribed]) else r
    case UndoFailed =>
      if r.operation.Undoing? then Register(r, r.operation.registration, r.operation.subId, Doubtful) else r
    case AskClose(c) => AskCloseStep(r, c)
    case CancelClose(c) => CancelCloseStep(r, c)
    case CloseConsumer(c) => CloseStep(r, c)
    case UnsubscribeAcked => CloseDone(r, true)
    case UnsubscribeFailed => CloseDone(r, false)
    case Publish(subId, item) => PublishStep(r, subId, item)
    case Restore(order) => RestoreStep(r, order)
    case RestoreAcked(subId) => RestoreAckedStep(r, subId)
    case RestoreFailed(error) => RestoreFailedStep(r, error)
    case RestoreCancelled => if r.operation.Restoring? then r.(operation := Idle) else r
    case Read(c) =>
      if c < |r.consumers| then SetSubscription(r, c, Next(r.consumers[c].subscription)) else r
  }

  function Run<T>(r: Registry<T>, es: seq<Event<T>>): Registry<T> {
    if es == [] then r else Apply(Run(r, es[..|es| - 1]), es[|es| - 1])
  }

  // ----- What a run keeps -----

  /** The two dictionaries are inverse to each other. */
  ghost predicate Inverse(byRegistration: map<string, Wire>, byId: map<nat, string>) {
    && (forall g :: g in byRegistration ==> byRegistration[g].subId in byId && byId[byRegistration[g].subId] == g)
    && (forall id :: id in byId ==> byId[id] in byRegistration && byRegistration[byId[id]].subId == id)
  }

  ghost predicate FreshIds<T(!new)>(r: Registry<T>) {
    && (forall id :: id in r.byId ==> id in r.used)
    && (r.operation.Undoing? ==> r.operation.subId in r.used && r.operation.subId !in r.byId)
  }

  ghost predicate Operations<T(!new)>(r: Registry<T>) {
    match r.operation
    case Idle => true
    case Subscribing(g, _) => g !in r.byRegistration
    case Undoing(g, _) => g !in r.byRegistration
    case Closing(g, c) =>
      && g in r.byRegistration && r.byRegistration[g].members == {}
      && c < |r.consumers| && r.consumers[c].registration == g && r.consumers[c].close == Left
    case Restoring(todo) =>
      && todo != []
      && (forall i :: 0 <= i < |todo| ==> todo[i] in r.byRegistration)
      && (forall i, j :: 0 <= i < j < |todo| ==> todo[i] != todo[j])
  }

  /** The registration has neither an unsubscribe under way nor an acknowledged one. */
  predicate Served<T>(r: Registry<T>, g: string) {
    g in r.wire && r.wire[g] != UnsubscribeSent && r.wire[g] != Unsubscribed
  }

  ghost predicate WireInv<T(!new)>(r: Registry<T>) {
    forall g :: g in r.byRegistration ==>
      Served(r, g) || (r.operation.Closing? && r.operation.registration == g)
  }

  predicate Joined<T>(r: Registry<T>, g: string, c: ConsumerNo) {
    g in r.byRegistration && c in r.byRegistration[g].members
  }

  predicate Attached<T>(r: Registry<T>, c: ConsumerNo)
    requires c < |r.consumers|
  {
    Joined(r, r.consumers[c].registration, c)
  }

  ghost predicate Members<T(!new)>(r: Registry<T>) {
    && (forall g: string, c: ConsumerNo {:trigger Joined(r, g, c)} :: Joined(r, g, c) ==>
          c < |r.consumers| && r.consumers[c].registration == g && r.consumers[c].close != Left)
    && (forall c :: 0 <= c < |r.consumers| && !r.consumers[c].subscription.closed && r.consumers[c].close != Left ==>
          Attached(r, c))
  }

  ghost predicate Control<T(!new)>(r: Registry<T>) {
    Inverse(r.byRegistration, r.byId) && FreshIds(r) && Operations(r) && WireInv(r) && Members(r)
  }

  function For<T>(log: seq<(string, T)>, registration: string): seq<T> {
    if log == [] then []
    else
      var last := log[|log| - 1];
      For(log[..|log| - 1], registration) + (if last.0 == registration then [last.1] else [])
  }

  /** What a consumer accepted is a prefix of what was published for its registration since
      it was attached, and all of it while the consumer is open. */
  ghost predicate Delivered<T(!new)>(log: seq<(string, T)>, c: Consumer<T>) {
    && c.since <= |log|
    && c.subscription.accepted <= For(log[c.since..], c.registration)
    && (!c.subscription.closed && c.close != Left ==>
          c.subscription.accepted == For(log[c.since..], c.registration))
    && AsyncSubscriptions.Inv(c.subscription)
  }

  ghost predicate Delivery<T(!new)>(r: Registry<T>) {
    forall i :: 0 <= i < |r.consumers| ==> Delivered(r.log, r.consumers[i])
  }

  ghost predicate Inv<T(!new)>(r: Registry<T>) {
    1 <= r.capacity && Control(r) && Delivery(r)
  }

  // ----- Delivery keeps it -----

  lemma ForExtends<T(!new)>(log: seq<(string, T)>, since: nat, e: (string, T), registration: string)
    requires since <= |log|
    ensures For((log + [e])[since..], registration)
            == For(log[since..], registration) + (if e.0 == registration then [e.1] else [])
  {
    assert (log + [e])[since..] == log[since..] + [e];
    assert (log[since..] + [e])[..|log| - since] == log[since..];
  }

  /** A consumer's record after one more published item. */
  lemma OneMoreItem<T(!new)>(log: seq<(string, T)>, c: Consumer<T>, registration: string, item: T, member: bool)
    requires Delivered(log, c)
    requires member ==> c.registration == registration && c.close != Left
    requires !member && c.registration == registration ==> c.subscription.closed || c.close == Left
    ensures Delivered(log + [(registration, item)],
              if member then c.(subscription := Push(c.subscription, item)) else c)
  {
    ForExtends(log, c.since, (registration, item), c.registration);
    var f := For(log[c.since..], c.registration);
    assert c.subscription.accepted <= f + [item];
    assert f + [] == f;
    if member {
      ApplyKeepsInv(c.subscription, PushItem(item));
    }
  }

  lemma DeliverKeepsDelivery<T(!new)>(r: Registry<T>, g: string, item: T)
    requires Members(r) && Delivery(r) && g in r.byRegistration
    ensures Delivery(Deliver(r, g, item))
  {
    var members, r' := r.byRegistration[g].members, Deliver(r, g, item);
    forall i | 0 <= i < |r'.consumers|
      ensures Delivered(r'.log, r'.consumers[i])
    {
      assert i in members ==> Joined(r, g, i);
      assert r.consumers[i].registration == g ==> (Attached(r, i) <==> i in members);
      OneMoreItem(r.log, r.consumers[i], g, item, i in members);
    }
  }

  lemma DeliverKeepsMembers<T(!new)>(r: Registry<T>, g: string, item: T)
    requires Members(r) && g in r.byRegistration
    ensures Members(Deliver(r, g, item))
  {
    var r' := Deliver(r, g, item);
    forall h, c: ConsumerNo | Joined(r', h, c)
      ensures c < |r'.consumers| && r'.consumers[c].registration == h && r'.consumers[c].close != Left
    {
      assert Joined(r, h, c);
    }
    forall c | 0 <= c < |r'.consumers| && !r'.consumers[c].subscription.closed && r'.consumers[c].close != Left
      ensures Attached(r', c)
    {
      assert Attached(r, c);
    }
  }

  lemma {:induction false} DeliverAllKeeps<T(!new)>(r: Registry<T>, g: string, items: seq<T>)
    requires Members(r) && Delivery(r) && g in r.byRegistration
    ensures Members(DeliverAll(r, g, items)) && Delivery(DeliverAll(r, g, items))
    ensures |DeliverAll(r, g, items).consumers| == |r.consumers|
    ensures forall i :: 0 <= i < |r.consumers| ==>
      && DeliverAll(r, g, items).consumers[i].registration == r.consumers[i].registration
      && DeliverAll(r, g, items).consumers[i].close == r.consumers[i].close
    decreases |items|
  {
    if items != [] {
      hide Members, Delivery;
      DeliverKeepsMembers(r, g, items[0]);
      DeliverKeepsDelivery(r, g, items[0]);
      DeliverAllKeeps(Deliver(r, g, items[0]), g, items[1..]);
    }
  }

  /** `Members` looks at nothing but the consumers and the registrations. */
  lemma MembersIgnoresTheRest<T(!new)>(r: Registry<T>, r': Registry<T>)
    requires Members(r) && r'.consumers == r.consumers && r'.byRegistration == r.byRegistration
    ensures Members(r')
  {
    forall h, c: ConsumerNo | Joined(r', h, c)
      ensures c < |r'.consumers| && r'.consumers[c].registration == h && r'.consumers[c].close != Left
    {
      assert Joined(r, h, c);
    }
    assert forall c :: 0 <= c < |r.consumers| && Attached(r, c) ==> Attached(r', c);
  }

  lemma FlushKeepsInv<T(!new)>(r: Registry<T>, g: string)
    requires Inv(r) && g in r.byRegistration
    ensures Inv(Flush(r, g))
  {
    var items := Early(r.pending, r.byRegistration[g].subId);
    DeliverAllKeeps(r, g, items);
    var d := DeliverAll(r, g, items);
    assert Operations(d) by {
      if d.operation.Closing? { assert d.consumers[d.operation.consumer].registration == d.operation.registration; }
    }
    MembersIgnoresTheRest(d, Flush(r, g));
  }

  // ----- Every event keeps it -----

  lemma DeliveryIgnoresTheRest<T(!new)>(r: Registry<T>, r': Registry<T>)
    requires Delivery(r) && r'.consumers == r.consumers && r'.log == r.log
    ensures Delivery(r')
  {
  }

  lemma AttachKeepsInv<T(!new)>(r: Registry<T>, g: string)
    requires Inv(r) && r.operation == Idle && g in r.byRegistration
    ensures Inv(Attach(r, g))
  {
    var w, c := r.byRegistration[g], |r.consumers|;
    var newcomer := Consumer(g, New(r.capacity), NotAsked, |r.log|);
    var a := r.(consumers := r.consumers + [newcomer],
                byRegistration := r.byRegistration[g := w.(members := w.members + {c})]);
    assert r.log[|r.log|..] == [];
    assert Delivered(r.log, newcomer);
    assert Inverse(a.byRegistration, a.byId);
    JoinKeepsMembers(r, g, newcomer);
    FlushKeepsInv(a, g);
  }

  lemma JoinKeepsMembers<T(!new)>(r: Registry<T>, g: string, newcomer: Consumer<T>)
    requires Members(r) && g in r.byRegistration && newcomer.registration == g && newcomer.close != Left
    ensures var w := r.byRegistration[g];
      Members(r.(consumers := r.consumers + [newcomer],
                 byRegistration := r.byRegistration[g := w.(members := w.members + {|r.consumers|})]))
  {
    var w := r.byRegistration[g];
    var a := r.(consumers := r.consumers + [newcomer],
                byRegistration := r.byRegistration[g := w.(members := w.members + {|r.consumers|})]);
    forall h, c: ConsumerNo | Joined(a, h, c)
      ensures c < |a.consumers| && a.consumers[c].registration == h && a.consumers[c].close != Left
    {
      assert Joined(r, h, c) || (h == g && c == |r.consumers|);
    }
    forall c | 0 <= c < |a.consumers| && !a.consumers[c].subscription.closed && a.consumers[c].close != Left
      ensures Attached(a, c)
    {
      assert c < |r.consumers| ==> Attached(r, c);
    }
  }

  lemma RegisterKeepsInv<T(!new)>(r: Registry<T>, g: string, subId: nat, state: WireState)
    requires Inv(r) && g !in r.byRegistration && subId !in r.byId && subId in r.used
    requires r.operation.Subscribing? || r.operation.Undoing?
    requires state == Live || state == Doubtful
    ensures Inv(Register(r, g, subId, state))
  {
    var r' := Register(r, g, subId, state);
    forall h, c: ConsumerNo | Joined(r', h, c)
      ensures Joined(r, h, c)
    {
    }
    assert forall c :: 0 <= c < |r.consumers| && Attached(r, c) ==> Attached(r', c);
    DeliveryIgnoresTheRest(r, r');
  }

  lemma SubscribeKeepsInv<T(!new)>(r: Registry<T>, g: string)
    requires Inv(r)
    ensures Inv(SubscribeStep(r, g))
  {
    if r.operation == Idle {
      if g in r.byRegistration {
        AttachKeepsInv(r, g);
      } else {
        MembersIgnoresTheRest(r, SubscribeStep(r, g));
      }
    }
  }

  lemma SubscribeAckedKeepsInv<T(!new)>(r: Registry<T>, subId: nat)
    requires Inv(r)
    ensures Inv(SubscribeAckedStep(r, subId))
  {
    if r.operation.Subscribing? && subId !in r.used {
      var g, seen := r.operation.registration, r.(used := r.used + {subId});
      MembersIgnoresTheRest(r, seen);
      if r.operation.cancelled {
        MembersIgnoresTheRest(r, SubscribeAckedStep(r, subId));
      } else {
        RegisterKeepsInv(seen, g, subId, Live);
        AttachKeepsInv(Register(seen, g, subId, Live), g);
      }
    }
  }

  /** Ending an operation that registered nothing. */
  lemma GiveUpKeepsInv<T(!new)>(r: Registry<T>)
    requires Inv(r) && (r.operation.Subscribing? || r.operation.Undoing?)
    ensures Inv(r.(operation := Idle, wire := r.wire[r.operation.registration := Unsubscribed]))
  {
    MembersIgnoresTheRest(r, r.(operation := Idle, wire := r.wire[r.operation.registration := Unsubscribed]));
  }

  /** Changing one consumer that keeps its registration and that nobody relies on for
      delivery, or whose subscription only moved its reader on. */
  lemma SetKeepsMembers<T(!new)>(r: Registry<T>, c: ConsumerNo, n: Consumer<T>)
    requires Members(r) && c < |r.consumers|
    requires n.registration == r.consumers[c].registration && (n.close == Left <==> r.consumers[c].close == Left)
    requires !n.subscription.closed ==> !r.consumers[c].subscription.closed
    ensures Members(r.(consumers := r.consumers[c := n]))
  {
    var r' := r.(consumers := r.consumers[c := n]);
    forall h, d: ConsumerNo | Joined(r', h, d)
      ensures d < |r'.consumers| && r'.consumers[d].registration == h && r'.consumers[d].close != Left
    {
      assert Joined(r, h, d);
    }
    forall d | 0 <= d < |r'.consumers| && !r'.consumers[d].subscription.closed && r'.consumers[d].close != Left
      ensures Attached(r', d)
    {
      assert Attached(r, d);
    }
  }

  lemma SetKeepsInv<T(!new)>(r: Registry<T>, c: ConsumerNo, n: Consumer<T>)
    requires Inv(r) && c < |r.consumers|
    requires n.registration == r.consumers[c].registration && (n.close == Left <==> r.consumers[c].close == Left)
    requires !n.subscription.closed ==> !r.consumers[c].subscription.closed
    requires Delivered(r.log, n)
    ensures Inv(r.(consumers := r.consumers[c := n]))
  {
    SetKeepsMembers(r, c, n);
    hide Delivered, Members, Inverse;
  }

  lemma FinishOneKeepsInv<T(!new)>(r: Registry<T>, c: ConsumerNo)
    requires Inv(r) && c < |r.consumers|
    ensures Inv(SetSubscription(r, c, Finish(r.consumers[c].subscription)))
  {
    ApplyKeepsInv(r.consumers[c].subscription, FinishNow);
    SetKeepsInv(r, c, r.consumers[c].(subscription := Finish(r.consumers[c].subscription)));
  }

  lemma ReadKeepsInv<T(!new)>(r: Registry<T>, c: ConsumerNo)
    requires Inv(r) && c < |r.consumers|
    ensures Inv(SetSubscription(r, c, Next(r.consumers[c].subscription)))
  {
    ApplyKeepsInv(r.consumers[c].subscription, ReadNext);
    SetKeepsInv(r, c, r.consumers[c].(subscription := Next(r.consumers[c].subscription)));
  }

  /** A consumer leaving: marked as closed on the wire and no longer a member. */
  function Leave<T>(r: Registry<T>, c: ConsumerNo): Registry<T>
    requires c < |r.consumers|
  {
    var g := r.consumers[c].registration;
    var leaving := SetClose(r, c, Left);
    if g !in r.byRegistration then leaving
    else
      var w := r.byRegistration[g];
      leaving.(byRegistration := r.byRegistration[g := w.(members := w.members - {c})])
  }

  lemma AskCloseKeepsInv<T(!new)>(r: Registry<T>, c: ConsumerNo)
    requires Inv(r)
    ensures Inv(AskCloseStep(r, c))
  {
    if c < |r.consumers| && r.consumers[c].close == NotAsked {
      assert Delivered(r.log, r.consumers[c]);
      SetKeepsInv(r, c, r.consumers[c].(close := Waiting));
    }
  }

  lemma CancelCloseKeepsInv<T(!new)>(r: Registry<T>, c: ConsumerNo)
    requires Inv(r)
    ensures Inv(CancelCloseStep(r, c))
  {
    if c < |r.consumers| && r.consumers[c].close == Waiting {
      assert Delivered(r.log, r.consumers[c]);
      SetKeepsInv(r, c, r.consumers[c].(close := GivenUp));
      hide Inv;
      FinishOneKeepsInv(SetClose(r, c, GivenUp), c);
    }
  }

  lemma LeaveKeepsMembers<T(!new)>(r: Registry<T>, c: ConsumerNo)
    requires Members(r) && c < |r.consumers|
    ensures Members(Leave(r, c))
  {
    var r' := Leave(r, c);
    forall h, d: ConsumerNo | Joined(r', h, d)
      ensures d < |r'.consumers| && r'.consumers[d].registration == h && r'.consumers[d].close != Left
    {
      assert Joined(r, h, d);
    }
    forall d | 0 <= d < |r'.consumers| && !r'.consumers[d].subscription.closed && r'.consumers[d].close != Left
      ensures Attached(r', d)
    {
      assert Attached(r, d);
    }
  }

  lemma LeaveKeepsInv<T(!new)>(r: Registry<T>, c: ConsumerNo)
    requires Inv(r) && r.operation == Idle && c < |r.consumers|
    ensures Inv(Leave(r, c))
  {
    LeaveKeepsMembers(r, c);
    assert Delivered(r.log, r.consumers[c]);
    hide Members;
  }

  lemma CloseKeepsInv<T(!new)>(r: Registry<T>, c: ConsumerNo)
    requires Inv(r)
    ensures Inv(CloseStep(r, c))
  {
    if r.operation == Idle && c < |r.consumers| && r.consumers[c].close == Waiting {
      LeaveKeepsInv(r, c);
      var g, left := r.consumers[c].registration, Leave(r, c);
      if g in r.byRegistration && r.byRegistration[g].members - {c} == {} {
        StartClosingKeepsInv(left, g, c);
      } else {
        hide Inv;
        FinishOneKeepsInv(left, c);
      }
    }
  }

  lemma StartClosingKeepsInv<T(!new)>(r: Registry<T>, g: string, c: ConsumerNo)
    requires Inv(r) && r.operation == Idle && g in r.byRegistration && r.byRegistration[g].members == {}
    requires c < |r.consumers| && r.consumers[c].registration == g && r.consumers[c].close == Left
    ensures Inv(r.(operation := Closing(g, c), wire := r.wire[g := UnsubscribeSent]))
  {
    var r' := r.(operation := Closing(g, c), wire := r.wire[g := UnsubscribeSent]);
    MembersIgnoresTheRest(r, r');
    DeliveryIgnoresTheRest(r, r');
    hide Members, Delivery;
  }

  lemma UnregisterEmptyKeepsMembers<T(!new)>(r: Registry<T>, g: string)
    requires Members(r) && g in r.byRegistration && r.byRegistration[g].members == {}
    ensures Members(Unregister(r, g))
  {
    var r' := Unregister(r, g);
    forall h, c: ConsumerNo | Joined(r', h, c)
      ensures Joined(r, h, c)
    {
    }
    forall c | 0 <= c < |r.consumers| && Attached(r, c)
      ensures Attached(r', c)
    {
    }
  }

  lemma UnregisterKeepsInverse(byRegistration: map<string, Wire>, byId: map<nat, string>, g: string)
    requires Inverse(byRegistration, byId) && g in byRegistration
    ensures Inverse(byRegistration - {g}, byId - {byRegistration[g].subId})
  {
  }

  lemma CloseDoneKeepsInv<T(!new)>(r: Registry<T>, acked: bool)
    requires Inv(r)
    ensures Inv(CloseDone(r, acked))
  {
    if r.operation.Closing? {
      var g, c := r.operation.registration, r.operation.consumer;
      var done := (if acked then Unregister(r, g).(wire := r.wire[g := Unsubscribed])
                   else r.(wire := r.wire[g := Doubtful])).(operation := Idle);
      if acked {
        UnregisterEmptyKeepsMembers(r, g);
        UnregisterKeepsInverse(r.byRegistration, r.byId, g);
        MembersIgnoresTheRest(Unregister(r, g), done);
      } else {
        MembersIgnoresTheRest(r, done);
      }
      DeliveryIgnoresTheRest(r, done);
      assert Inv(done);
      hide Inv;
      FinishOneKeepsInv(done, c);
    }
  }

  lemma DropRefusedKeepsInv<T(!new)>(r: Registry<T>, g: string)
    requires Inv(r) && g in r.byRegistration
    ensures var w := r.byRegistration[g];
      Inv(r.(byRegistration := r.byRegistration[g := w.(members := w.members - Refused(r.consumers, w.members))]))
  {
    var w := r.byRegistration[g];
    var r' := r.(byRegistration := r.byRegistration[g := w.(members := w.members - Refused(r.consumers, w.members))]);
    forall h, c: ConsumerNo | Joined(r', h, c)
      ensures Joined(r, h, c)
    {
    }
    forall c | 0 <= c < |r.consumers| && !r.consumers[c].subscription.closed && r.consumers[c].close != Left
      ensures Attached(r', c)
    {
      assert Attached(r, c);
    }
    DeliveryIgnoresTheRest(r, r');
    hide Delivery;
  }

  lemma DeliverKeepsInv<T(!new)>(r: Registry<T>, g: string, item: T)
    requires Inv(r) && g in r.byRegistration
    ensures Inv(Deliver(r, g, item))
  {
    DeliverKeepsMembers(r, g, item);
    DeliverKeepsDelivery(r, g, item);
    hide Members, Delivery;
  }

  lemma PublishKeepsInv<T(!new)>(r: Registry<T>, subId: nat, item: T)
    requires Inv(r)
    ensures Inv(PublishStep(r, subId, item))
  {
    if subId !in r.byId {
      MembersIgnoresTheRest(r, PublishStep(r, subId, item));
      DeliveryIgnoresTheRest(r, PublishStep(r, subId, item));
      hide Members, Delivery;
    } else {
      var g := r.byId[subId];
      assert g in r.byRegistration;
      DeliverKeepsInv(r, g, item);
      DropRefusedKeepsInv(Deliver(r, g, item), g);
    }
  }

  lemma NextRestoreKeepsInv<T(!new)>(r: Registry<T>, todo: seq<string>)
    requires Inv(r) && (r.operation == Idle || r.operation.Restoring?)
    requires forall i :: 0 <= i < |todo| ==> todo[i] in r.byRegistration
    requires forall i, j :: 0 <= i < j < |todo| ==> todo[i] != todo[j]
    ensures Inv(NextRestore(r, todo))
  {
    MembersIgnoresTheRest(r, NextRestore(r, todo));
    DeliveryIgnoresTheRest(r, NextRestore(r, todo));
    hide Members, Delivery;
  }

  lemma RekeyKeepsInverse(byRegistration: map<string, Wire>, byId: map<nat, string>, g: string, subId: nat)
    requires Inverse(byRegistration, byId) && g in byRegistration && subId !in byId
    ensures Inverse(Rekey(byRegistration, byId, g, NewId(subId)).0, Rekey(byRegistration, byId, g, NewId(subId)).1)
  {
  }

  function Rekeyed<T>(r: Registry<T>, g: string, subId: nat): Registry<T> {
    var keyed := Rekey(r.byRegistration, r.byId, g, NewId(subId));
    r.(byRegistration := keyed.0, byId := keyed.1, used := r.used + {subId}, wire := r.wire[g := Live])
  }

  lemma RekeyedKeepsInv<T(!new)>(r: Registry<T>, g: string, subId: nat)
    requires Inv(r) && r.operation.Restoring? && g in r.byRegistration && subId !in r.used
    ensures Inv(Rekeyed(r, g, subId))
  {
    var r' := Rekeyed(r, g, subId);
    RekeyKeepsInverse(r.byRegistration, r.byId, g, subId);
    forall h, c: ConsumerNo | Joined(r', h, c)
      ensures Joined(r, h, c)
    {
    }
    assert forall c :: 0 <= c < |r.consumers| && Attached(r, c) ==> Attached(r', c);
    DeliveryIgnoresTheRest(r, r');
    hide Delivery, Inverse;
  }

  lemma RestoreAckedKeepsInv<T(!new)>(r: Registry<T>, subId: nat)
    requires Inv(r)
    ensures Inv(RestoreAckedStep(r, subId))
  {
    if r.operation.Restoring? && subId !in r.used {
      var g, todo := r.operation.todo[0], r.operation.todo[1..];
      RekeyedKeepsInv(r, g, subId);
      FlushKeepsInv(Rekeyed(r, g, subId), g);
      NextRestoreKeepsInv(Flush(Rekeyed(r, g, subId), g), todo);
      hide Inv;
    }
  }

  lemma FailMembersDelivers<T(!new)>(r: Registry<T>, members: set<ConsumerNo>, error: string)
    requires Delivery(r)
    ensures Delivery(r.(consumers := FailMembers(r.consumers, members, error)))
  {
    var r' := r.(consumers := FailMembers(r.consumers, members, error));
    forall i | 0 <= i < |r'.consumers|
      ensures Delivered(r'.log, r'.consumers[i])
    {
      assert Delivered(r.log, r.consumers[i]);
      ApplyKeepsInv(r.consumers[i].subscription, FailWith(error));
    }
  }

  function Failed<T>(r: Registry<T>, g: string, error: string): Registry<T>
    requires g in r.byRegistration
  {
    var keyed := Rekey(r.byRegistration, r.byId, g, Dropped);
    r.(byRegistration := keyed.0, byId := keyed.1, wire := r.wire[g := Unsubscribed],
       consumers := FailMembers(r.consumers, r.byRegistration[g].members, error))
  }

  lemma FailedKeepsMembers<T(!new)>(r: Registry<T>, g: string, error: string)
    requires Members(r) && g in r.byRegistration
    ensures Members(Failed(r, g, error))
  {
    var r' := Failed(r, g, error);
    forall h, c: ConsumerNo | Joined(r', h, c)
      ensures c < |r'.consumers| && r'.consumers[c].registration == h && r'.consumers[c].close != Left
    {
      assert Joined(r, h, c);
    }
    forall c | 0 <= c < |r'.consumers| && !r'.consumers[c].subscription.closed && r'.consumers[c].close != Left
      ensures Attached(r', c)
    {
      assert Attached(r, c);
    }
  }

  lemma FailedKeepsInv<T(!new)>(r: Registry<T>, g: string, error: string)
    requires Inv(r) && r.operation.Restoring? && r.operation.todo[0] == g
    ensures Inv(Failed(r, g, error).(operation := Idle))
  {
    var r' := Failed(r, g, error).(operation := Idle);
    FailedKeepsMembers(r, g, error);
    MembersIgnoresTheRest(Failed(r, g, error), r');
    UnregisterKeepsInverse(r.byRegistration, r.byId, g);
    FailMembersDelivers(r, r.byRegistration[g].members, error);
    DeliveryIgnoresTheRest(r.(consumers := r'.consumers), r');
    hide Members, Delivery, Inverse;
  }

  lemma RestoreFailedKeepsInv<T(!new)>(r: Registry<T>, error: string)
    requires Inv(r)
    ensures Inv(RestoreFailedStep(r, error))
  {
    if r.operation.Restoring? {
      var g, todo := r.operation.todo[0], r.operation.todo[1..];
      FailedKeepsInv(r, g, error);
      assert forall i :: 0 <= i < |todo| ==> todo[i] == r.operation.todo[i + 1];
      NextRestoreKeepsInv(Failed(r, g, error).(operation := Idle), todo);
      hide Inv;
    }
  }

  lemma RestoreCancelledKeepsInv<T(!new)>(r: Registry<T>)
    requires Inv(r) && r.operation.Restoring?
    ensures Inv(r.(operation := Idle))
  {
    MembersIgnoresTheRest(r, r.(operation := Idle));
  }

  lemma StepKeepsInv<T(!new)>(r: Registry<T>, e: Event<T>)
    requires Inv(r)
    ensures Inv(Apply(r, e))
  {
    match e {
      case Subscribe(g) => SubscribeKeepsInv(r, g);
      case CancelSubscribe => MembersIgnoresTheRest(r, Apply(r, e));
      case SubscribeAcked(subId) => SubscribeAckedKeepsInv(r, subId);
      case SubscribeFailed => if r.operation.Subscribing? { GiveUpKeepsInv(r); }
      case UndoAcked => if r.operation.Undoing? { GiveUpKeepsInv(r); }
      case UndoFailed =>
        if r.operation.Undoing? { RegisterKeepsInv(r, r.operation.registration, r.operation.subId, Doubtful); }
      case AskClose(c) => AskCloseKeepsInv(r, c);
      case CancelClose(c) => CancelCloseKeepsInv(r, c);
      case CloseConsumer(c) => CloseKeepsInv(r, c);
      case UnsubscribeAcked => CloseDoneKeepsInv(r, true);
      case UnsubscribeFailed => CloseDoneKeepsInv(r, false);
      case Publish(subId, item) => PublishKeepsInv(r, subId, item);
      case Restore(order) =>
        if r.operation == Idle && IsListing(order, r.byRegistration.Keys) { NextRestoreKeepsInv(r, order); }
      case RestoreAcked(subId) => RestoreAckedKeepsInv(r, subId);
      case RestoreFailed(error) => RestoreFailedKeepsInv(r, error);
      case RestoreCancelled => if r.operation.Restoring? { RestoreCancelledKeepsInv(r); }
      case Read(c) => if c < |r.consumers| { ReadKeepsInv(r, c); }
    }
  }

  // ----- Over whole runs -----

  lemma {:induction false} RunKeepsInv<T(!new)>(capacity: nat, es: seq<Event<T>>)
    requires 1 <= capacity
    ensures Inv(Run(Init<T>(capacity), es))
  {
    if es != [] {
      RunKeepsInv(capacity, es[..|es| - 1]);
      StepKeepsInv(Run(Init<T>(capacity), es[..|es| - 1]), es[|es| - 1]);
    }
  }

  ghost predicate Reachable<T(!new)>(r: Registry<T>) {
    exists capacity, es :: 1 <= capacity && Run(Init<T>(capacity), es) == r
  }

  lemma ReachableKeepsInv<T(!new)>(r: Registry<T>)
    requires Reachable(r)
    ensures Inv(r)
  {
    var capacity, es :| 1 <= capacity && Run(Init<T>(capacity), es) == r;
    RunKeepsInv<T>(capacity, es);
  }

  /** In every reachable state, given fresh broker ids, the two dictionaries are inverse, and
      a registration with a consumer has neither an unsubscribe under way nor one
      acknowledged since its last subscribe; every open consumer that has not left its
      registration is one of them. */
  lemma SharedWireSubscriptions<T(!new)>(r: Registry<T>)
    requires Reachable(r)
    ensures Inverse(r.byRegistration, r.byId)
    ensures forall g :: g in r.byRegistration && r.byRegistration[g].members != {} ==> Served(r, g)
    ensures forall c :: 0 <= c < |r.consumers| && !r.consumers[c].subscription.closed && r.consumers[c].close != Left ==>
      Attached(r, c) && Served(r, r.consumers[c].registration)
  {
    hide Reachable;
    ReachableKeepsInv(r);
    forall c | 0 <= c < |r.consumers| && !r.consumers[c].subscription.closed && r.consumers[c].close != Left
      ensures Attached(r, c) && Served(r, r.consumers[c].registration)
    {
      assert Attached(r, c) && Joined(r, r.consumers[c].registration, c);
    }
  }

  /** What a consumer's reader got is a prefix, in publication order, of what was published
      for its registration since it was attached, then at most one error, then the end; and
      an open consumer has been handed all of it, once each. */
  lemma ReadersSeeTheirPublications<T(!new)>(r: Registry<T>, c: ConsumerNo)
    requires Reachable(r) && c < |r.consumers|
    ensures r.consumers[c].since <= |r.log|
    ensures var s, published := r.consumers[c].subscription, For(r.log[r.consumers[c].since..], r.consumers[c].registration);
      && s.yielded <= |published|
      && InOrder(s.outputs, published, s.yielded)
      && (!s.closed && r.consumers[c].close != Left ==> s.accepted == published)
  {
    hide Reachable;
    ReachableKeepsInv(r);
    assert Delivered(r.log, r.consumers[c]);
  }

  // ----- Restoring with ids that may repeat -----

  function RestoreAll(byRegistration: map<string, Wire>, byId: map<nat, string>, order: seq<string>,
                      answers: seq<Answer>): (map<string, Wire>, map<nat, string>)
    requires |order| == |answers|
    decreases |order|
  {
    if order == [] then (byRegistration, byId)
    else
      var keyed := Rekey(byRegistration, byId, order[0], answers[0]);
      RestoreAll(keyed.0, keyed.1, order[1..], answers[1..])
  }

  /** Some registration is given the id that one processed after it still has. */
  ghost predicate Collision(byRegistration: map<string, Wire>, order: seq<string>, answers: seq<Answer>)
    requires |order| == |answers|
    requires forall i :: 0 <= i < |order| ==> order[i] in byRegistration
  {
    exists i, j :: 0 <= i < j < |order| && answers[i] == NewId(byRegistration[order[j]].subId)
  }

  ghost predicate DistinctAnswers(answers: seq<Answer>) {
    forall i, j :: 0 <= i < j < |answers| && answers[i].NewId? ==> answers[i] != answers[j]
  }

  /** The outcome of each registration is its own answer, whatever the ids. */
  lemma {:induction false} RestoreKeepsSurvivors(
    byRegistration: map<string, Wire>, byId: map<nat, string>, order: seq<string>, answers: seq<Answer>)
    requires |order| == |answers|
    requires forall i :: 0 <= i < |order| ==> order[i] in byRegistration
    requires forall i, j :: 0 <= i < j < |order| ==> order[i] != order[j]
    ensures var restored := RestoreAll(byRegistration, byId, order, answers).0;
      && restored.Keys <= byRegistration.Keys
      && (forall g :: g in byRegistration && g !in order ==> g in restored && restored[g] == byRegistration[g])
      && (forall i :: 0 <= i < |order| ==>
            match answers[i]
            case NewId(subId) =>
              order[i] in restored && restored[order[i]] == byRegistration[order[i]].(subId := subId)
            case Dropped => order[i] !in restored)
    decreases |order|
  {
    if order != [] {
      var keyed := Rekey(byRegistration, byId, order[0], answers[0]);
      var rest, later := order[1..], answers[1..];
      assert order == [order[0]] + rest && answers == [answers[0]] + later;
      assert forall i :: 0 <= i < |rest| ==> rest[i] == order[i + 1];
      assert order[0] !in rest;
      RestoreKeepsSurvivors(keyed.0, keyed.1, rest, later);
      forall i | 0 <= i < |order|
        ensures match answers[i]
                case NewId(subId) =>
                  order[i] in RestoreAll(keyed.0, keyed.1, rest, later).0
                  && RestoreAll(keyed.0, keyed.1, rest, later).0[order[i]] == byRegistration[order[i]].(subId := subId)
                case Dropped => order[i] !in RestoreAll(keyed.0, keyed.1, rest, later).0
      {
        if i > 0 {
          assert order[i] == rest[i - 1] && answers[i] == later[i - 1];
        }
      }
    }
  }

  /** Every new id is unused, or held by a registration already processed or being
      processed. */
  ghost predicate Safe(byRegistration: map<string, Wire>, order: seq<string>, answers: seq<Answer>)
    requires |order| == |answers|
  {
    forall i, g :: 0 <= i < |order| && g in byRegistration && g !in order[..i + 1] ==>
      answers[i] != NewId(byRegistration[g].subId)
  }

  lemma SafeForTheRest(byRegistration: map<string, Wire>, byId: map<nat, string>, order: seq<string>,
                       answers: seq<Answer>)
    requires |order| == |answers| && order != [] && order[0] in byRegistration
    requires DistinctAnswers(answers) && Safe(byRegistration, order, answers)
    ensures DistinctAnswers(answers[1..])
    ensures Safe(Rekey(byRegistration, byId, order[0], answers[0]).0, order[1..], answers[1..])
  {
    var keyed := Rekey(byRegistration, byId, order[0], answers[0]).0;
    var rest, later := order[1..], answers[1..];
    forall i, g | 0 <= i < |rest| && g in keyed && g !in rest[..i + 1]
      ensures later[i] != NewId(keyed[g].subId)
    {
      assert order[..i + 2] == [order[0]] + rest[..i + 1];
      assert later[i] == answers[i + 1];
      if g == order[0] {
        assert answers[0] != answers[i + 1];
      } else {
        assert g !in order[..i + 2];
      }
    }
    assert forall i :: 0 <= i < |later| ==> later[i] == answers[i + 1];
  }

  /** Without collisions each step keeps the dictionaries inverse. */
  lemma {:induction false} RestoreWithoutCollision(
    byRegistration: map<string, Wire>, byId: map<nat, string>, order: seq<string>, answers: seq<Answer>)
    requires |order| == |answers| && Inverse(byRegistration, byId)
    requires forall i :: 0 <= i < |order| ==> order[i] in byRegistration
    requires forall i, j :: 0 <= i < j < |order| ==> order[i] != order[j]
    requires DistinctAnswers(answers) && Safe(byRegistration, order, answers)
    ensures Inverse(RestoreAll(byRegistration, byId, order, answers).0,
                    RestoreAll(byRegistration, byId, order, answers).1)
    decreases |order|
  {
    if order != [] {
      var keyed := Rekey(byRegistration, byId, order[0], answers[0]);
      HeadKeepsInverse(byRegistration, byId, order, answers);
      SafeForTheRest(byRegistration, byId, order, answers);
      assert forall i :: 0 <= i < |order[1..]| ==> order[1..][i] == order[i + 1];
      hide Inverse, Safe, DistinctAnswers;
      RestoreWithoutCollision(keyed.0, keyed.1, order[1..], answers[1..]);
    }
  }

  lemma HeadKeepsInverse(byRegistration: map<string, Wire>, byId: map<nat, string>, order: seq<string>,
                         answers: seq<Answer>)
    requires |order| == |answers| && order != [] && order[0] in byRegistration
    requires Inverse(byRegistration, byId) && Safe(byRegistration, order, answers)
    ensures Inverse(Rekey(byRegistration, byId, order[0], answers[0]).0,
                    Rekey(byRegistration, byId, order[0], answers[0]).1)
  {
    if answers[0].NewId? {
      var n := answers[0].subId;
      assert order[..1] == [order[0]];
      assert n in byId ==> byId[n] in byRegistration && byId[n] in order[..1];
      RekeyKeepsInverseAgain(byRegistration, byId, order[0], n);
    } else {
      UnregisterKeepsInverse(byRegistration, byId, order[0]);
    }
  }

  lemma RekeyKeepsInverseAgain(byRegistration: map<string, Wire>, byId: map<nat, string>, g: string, subId: nat)
    requires Inverse(byRegistration, byId) && g in byRegistration
    requires subId in byId ==> subId == byRegistration[g].subId
    ensures Inverse(Rekey(byRegistration, byId, g, NewId(subId)).0, Rekey(byRegistration, byId, g, NewId(subId)).1)
  {
  }

  /** An id nobody is given any more, and that is absent or about to be popped, ends absent. */
  lemma {:induction false} LostIdStaysLost(
    byRegistration: map<string, Wire>, byId: map<nat, string>, order: seq<string>, answers: seq<Answer>, id: nat)
    requires |order| == |answers|
    requires forall i :: 0 <= i < |order| ==> order[i] in byRegistration
    requires forall i, j :: 0 <= i < j < |order| ==> order[i] != order[j]
    requires forall i :: 0 <= i < |answers| ==> answers[i] != NewId(id)
    requires id !in byId || exists j :: 0 <= j < |order| && byRegistration[order[j]].subId == id
    ensures id !in RestoreAll(byRegistration, byId, order, answers).1
    decreases |order|
  {
    if order != [] {
      var keyed := Rekey(byRegistration, byId, order[0], answers[0]);
      assert forall i :: 0 <= i < |order[1..]| ==>
        order[1..][i] == order[i + 1] && keyed.0[order[i + 1]] == byRegistration[order[i + 1]];
      if id in keyed.1 {
        var j :| 0 <= j < |order| && byRegistration[order[j]].subId == id;
        assert 0 < j && keyed.0[order[1..][j - 1]].subId == id;
      }
      LostIdStaysLost(keyed.0, keyed.1, order[1..], answers[1..], id);
    }
  }

  /** A collision loses the mapping of the registration that was given the id first. */
  lemma {:induction false} RestoreWithCollision(
    byRegistration: map<string, Wire>, byId: map<nat, string>, order: seq<string>, answers: seq<Answer>,
    i: nat, j: nat)
    requires |order| == |answers|
    requires forall k :: 0 <= k < |order| ==> order[k] in byRegistration
    requires forall k, l :: 0 <= k < l < |order| ==> order[k] != order[l]
    requires DistinctAnswers(answers)
    requires i < j < |order| && answers[i] == NewId(byRegistration[order[j]].subId)
    ensures answers[i].subId !in RestoreAll(byRegistration, byId, order, answers).1
    decreases |order|
  {
    var keyed := Rekey(byRegistration, byId, order[0], answers[0]);
    var rest, later := order[1..], answers[1..];
    assert forall k :: 0 <= k < |rest| ==>
      rest[k] == order[k + 1] && later[k] == answers[k + 1] && keyed.0[rest[k]] == byRegistration[order[k + 1]];
    if i == 0 {
      assert keyed.0[rest[j - 1]].subId == answers[0].subId;
      LostIdStaysLost(keyed.0, keyed.1, rest, later, answers[0].subId);
    } else {
      RestoreWithCollision(keyed.0, keyed.1, rest, later, i - 1, j - 1);
    }
  }

  /** `restore` over all registrations, given pairwise distinct new ids: afterwards `_by_id`
      maps exactly the new ids to the surviving registrations if and only if no registration
      was given an id that one processed after it still had. */
  lemma RestoreRekeysExactly(
    byRegistration: map<string, Wire>, byId: map<nat, string>, order: seq<string>, answers: seq<Answer>)
    requires |order| == |answers| && Inverse(byRegistration, byId) && DistinctAnswers(answers)
    requires IsListing(order, byRegistration.Keys)
    ensures Inverse(RestoreAll(byRegistration, byId, order, answers).0,
                    RestoreAll(byRegistration, byId, order, answers).1)
            <==> !Collision(byRegistration, order, answers)
  {
    if Collision(byRegistration, order, answers) {
      var i, j :| 0 <= i < j < |order| && answers[i] == NewId(byRegistration[order[j]].subId);
      RestoreWithCollision(byRegistration, byId, order, answers, i, j);
      RestoreKeepsSurvivors(byRegistration, byId, order, answers);
    } else {
      forall i, g | 0 <= i < |order| && g in byRegistration && g !in order[..i + 1]
        ensures answers[i] != NewId(byRegistration[g].subId)
      {
        assert forall k :: 0 <= k <= i ==> order[k] in order[..i + 1];
        var j :| 0 <= j < |order| && order[j] == g;
      }
      RestoreWithoutCollision(byRegistration, byId, order, answers);
    }
  }

  // ----- The registry object -----

  /** One round of the loop in `_flush_pending`. */
  lemma FlushOne<T>(r: Registry<T>, registration: string, pending: seq<(nat, T)>, subId: nat,
                    retained: seq<(nat, T)>)
    requires registration in r.byRegistration && pending != []
    ensures DeliverAll(r, registration, Early(pending, subId))
         == DeliverAll(if pending[0].0 == subId then Deliver(r, registration, pending[0].1) else r, registration,
                       Early(pending[1..], subId))
    ensures retained + Others(pending, subId)
         == (if pending[0].0 == subId then retained else retained + [pending[0]]) + Others(pending[1..], subId)
  {
    if pending[0].0 == subId {
      assert Early(pending, subId)[0] == pending[0].1;
      assert Early(pending, subId)[1..] == Early(pending[1..], subId);
    } else {
      assert Early(pending, subId) == Early(pending[1..], subId);
    }
  }

  class SubscriptionRegistry<T> {
    const capacity: nat
    var byRegistration: map<string, Wire>
    var byId: map<nat, string>
    var consumers: seq<Consumer<T>>
    var pendingNotifications: seq<(nat, T)>
    var operation: Operation
    ghost var wire: map<string, WireState>
    ghost var used: set<nat>
    var log: seq<(string, T)>

    ghost function Model(): Registry<T>
      reads this
    {
      Registry(capacity, byRegistration, byId, consumers, pendingNotifications, operation, wire, used, log)
    }

    constructor (capacity: nat)
      ensures Model() == Init(capacity)
    {
      this.capacity := capacity;
      byRegistration, byId, consumers, pendingNotifications := map[], map[], [], [];
      operation, wire, used, log := Idle, map[], {}, [];
    }

    method PushToMembers(registration: string, item: T)
      requires registration in byRegistration
      modifies this`consumers, this`log
      ensures Model() == Deliver(old(Model()), registration, item)
    {
      var members := byRegistration[registration].members;
      ghost var before := consumers;
      var left := members;
      while left != {}
        invariant left <= members
        invariant consumers == PushTo(before, members - left, item) && log == old(log)
        decreases left
      {
        var c :| c in left;
        left := left - {c};
        if c < |consumers| {
          consumers := consumers[c := consumers[c].(subscription := Push(consumers[c].subscription, item))];
        }
      }
      assert members - left == members;
      assert consumers == PushTo(before, members, item);
      log := log + [(registration, item)];
    }

    method PublishItem(subId: nat, item: T)
      modifies this
      ensures Model() == PublishStep(old(Model()), subId, item)
    {
      if subId !in byId {
        pendingNotifications := pendingNotifications + [(subId, item)];
        if |pendingNotifications| > capacity {
          pendingNotifications := pendingNotifications[|pendingNotifications| - capacity..];
        }
        return;
      }
      var registration := byId[subId];
      if registration !in byRegistration {
        return;
      }
      PushToMembers(registration, item);
      var w := byRegistration[registration];
      var dead := set c | c in w.members && c < |consumers| && consumers[c].subscription.closed;
      byRegistration := byRegistration[registration := w.(members := w.members - dead)];
    }

    method FlushPending(registration: string)
      requires registration in byRegistration
      modifies this
      ensures Model() == Flush(old(Model()), registration)
    {
      var subId := byRegistration[registration].subId;
      var retained: seq<(nat, T)> := [];
      ghost var all, before := pendingNotifications, Model();
      hide Early, Others, DeliverAll;
      while pendingNotifications != []
        invariant Model() == before.(consumers := consumers, pending := pendingNotifications, log := log)
        invariant DeliverAll(before.(consumers := consumers, log := log), registration,
                             Early(pendingNotifications, subId))
               == DeliverAll(before, registration, Early(all, subId))
        invariant retained + Others(pendingNotifications, subId) == Others(all, subId)
        decreases |pendingNotifications|
      {
        var n := pendingNotifications[0];
        FlushOne(before.(consumers := consumers, log := log), registration, pendingNotifications, subId, retained);
        pendingNotifications := pendingNotifications[1..];
        if n.0 == subId {
          PushToMembers(registration, n.1);
        } else {
          retained := retained + [n];
        }
      }
      pendingNotifications := retained;
    }

    /** `subscribe` up to its first await, once it has the lock. */
    method BeginSubscribe(registration: string)
      requires operation == Idle
      modifies this
      ensures Model() == SubscribeStep(old(Model()), registration)
    {
      if registration in byRegistration {
        AddConsumer(registration);
      } else {
        operation := Subscribing(registration, false);
        wire := wire[registration := SubscribeSent];
      }
    }

    method AddConsumer(registration: string)
      requires registration in byRegistration
      modifies this
      ensures Model() == Attach(old(Model()), registration)
    {
      var w := byRegistration[registration];
      byRegistration := byRegistration[registration := w.(members := w.members + {|consumers|})];
      consumers := consumers + [Consumer(registration, New(capacity), NotAsked, |log|)];
      FlushPending(registration);
    }

    /** The broker acknowledged the subscribe: register and attach, or undo it if the caller
        was cancelled meanwhile. */
    method WireSubscribed(subId: nat)
      requires operation.Subscribing? && subId !in used
      modifies this
      ensures Model() == SubscribeAckedStep(old(Model()), subId)
    {
      var registration := operation.registration;
      used := used + {subId};
      if operation.cancelled {
        operation := Undoing(registration, subId);
        wire := wire[registration := UnsubscribeSent];
      } else {
        byRegistration := byRegistration[registration := Wire(subId, {})];
        byId := byId[subId := registration];
        operation, wire := Idle, wire[registration := Live];
        AddConsumer(registration);
      }
    }

    /** A cancelled subscribe has asked the broker to undo it.  When that fails the
        registration is kept, because the broker may still be sending. */
    method WireUndone(acked: bool)
      requires operation.Undoing?
      modifies this
      ensures Model() == (if acked
                          then old(Model()).(operation := Idle,
                                             wire := old(wire)[old(operation).registration := Unsubscribed])
                          else Register(old(Model()), old(operation).registration, old(operation).subId, Doubtful))
    {
      var registration, subId := operation.registration, operation.subId;
      if acked {
        wire := wire[registration := Unsubscribed];
      } else {
        byRegistration := byRegistration[registration := Wire(subId, {})];
        byId := byId[subId := registration];
        wire := wire[registration := Doubtful];
      }
      operation := Idle;
    }

    /** `aclose` up to the registry's lock. */
    method AskToClose(c: ConsumerNo)
      requires c < |consumers|
      modifies this
      ensures Model() == AskCloseStep(old(Model()), c)
    {
      if consumers[c].close == NotAsked {
        consumers := consumers[c := consumers[c].(close := Waiting)];
      }
    }

    /** The `finally` of an `aclose` cancelled while it waits for the lock. */
    method GiveUpClosing(c: ConsumerNo)
      requires c < |consumers| && consumers[c].close == Waiting
      modifies this
      ensures Model() == CancelCloseStep(old(Model()), c)
    {
      consumers := consumers[c := consumers[c].(close := GivenUp)];
      consumers := consumers[c := consumers[c].(subscription := Finish(consumers[c].subscription))];
    }

    /** `aclose` once it has the lock. */
    method BeginClose(c: ConsumerNo)
      requires operation == Idle && c < |consumers|
      modifies this
      ensures Model() == CloseStep(old(Model()), c)
    {
      if consumers[c].close != Waiting {
        return;
      }
      var registration := consumers[c].registration;
      consumers := consumers[c := consumers[c].(close := Left)];
      if registration in byRegistration {
        var w := byRegistration[registration];
        byRegistration := byRegistration[registration := w.(members := w.members - {c})];
        if w.members - {c} == {} {
          operation, wire := Closing(registration, c), wire[registration := UnsubscribeSent];
          return;
        }
      }
      consumers := consumers[c := consumers[c].(subscription := Finish(consumers[c].subscription))];
    }

    method WireUnsubscribed(acked: bool)
      requires operation.Closing? && operation.consumer < |consumers|
      modifies this
      ensures Model() == CloseDone(old(Model()), acked)
    {
      var registration, c := operation.registration, operation.consumer;
      if acked {
        if registration in byRegistration {
          byId := byId - {byRegistration[registration].subId};
          byRegistration := byRegistration - {registration};
        }
        wire := wire[registration := Unsubscribed];
      } else {
        wire := wire[registration := Doubtful];
      }
      operation := Idle;
      consumers := consumers[c := consumers[c].(subscription := Finish(consumers[c].subscription))];
    }

    method FailRegistration(registration: string, error: string)
      requires registration in byRegistration
      modifies this
      ensures Model() == Failed(old(Model()), registration, error)
    {
      var w := byRegistration[registration];
      byRegistration := byRegistration - {registration};
      byId := byId - {w.subId};
      wire := wire[registration := Unsubscribed];
      ghost var before, mid := consumers, Model();
      var left := w.members;
      while left != {}
        invariant left <= w.members
        invariant consumers == FailMembers(before, w.members - left, error)
        invariant Model() == mid.(consumers := consumers)
        decreases left
      {
        var c :| c in left;
        left := left - {c};
        if c < |consumers| {
          consumers := consumers[c := consumers[c].(subscription := Fail(consumers[c].subscription, error))];
        }
      }
      assert w.members - left == w.members;
      assert consumers == FailMembers(before, w.members, error);
    }

    /** One registration of the loop in `restore`, once the broker has answered. */
    method RestoreOne(answer: Answer, error: string)
      requires operation.Restoring? && operation.todo != [] && operation.todo[0] in byRegistration
      requires answer.NewId? ==> answer.subId !in used
      modifies this
      ensures Model() == (match answer
                          case NewId(subId) => RestoreAckedStep(old(Model()), subId)
                          case Dropped => RestoreFailedStep(old(Model()), error))
    {
      var registration, todo := operation.todo[0], operation.todo[1..];
      match answer {
        case Dropped =>
          FailRegistration(registration, error);
        case NewId(subId) =>
          var w := byRegistration[registration];
          byRegistration := byRegistration[registration := w.(subId := subId)];
          byId := (byId - {w.subId})[subId := registration];
          used, wire := used + {subId}, wire[registration := Live];
          FlushPending(registration);
      }
      if todo == [] {
        operation := Idle;
      } else {
        operation, wire := Restoring(todo), wire[todo[0] := SubscribeSent];
      }
    }
  }
}
