/** What is published to whom, told from the events of the run and not from the registry's own
    steps: which broker id each registration goes by, which notifications are early, and
    which items each registration was published. */
module Publications {
  import A = AsyncSubscriptions
  import opened SubscriptionRegistries

  // ----- What a run says -----

  /** `ids` is the broker id each registration was last given, `early` the notifications whose
      id nobody goes by yet. */
  datatype History<T> = History(operation: Operation, ids: map<string, nat>, early: seq<(nat, T)>)

  function LastOf<A>(s: seq<A>, n: nat): seq<A> {
    if |s| <= n then s else s[|s| - n..]
  }

  /** The items that came under `id`, in order. */
  function ItemsOf<T>(early: seq<(nat, T)>, id: nat): seq<T> {
    if early == [] then []
    else
      var last := early[|early| - 1];
      ItemsOf(early[..|early| - 1], id) + (if last.0 == id then [last.1] else [])
  }

  /** What came under other ids, in order. */
  function Except<T>(early: seq<(nat, T)>, id: nat): seq<(nat, T)> {
    if early == [] then []
    else
      var last := early[|early| - 1];
      Except(early[..|early| - 1], id) + (if last.0 == id then [] else [last])
  }

  function Named<T>(h: History<T>, g: string, id: nat): History<T> {
    h.(ids := h.ids[g := id])
  }

  /** The early notifications under the id of `g` are handed over. */
  function Claimed<T>(h: History<T>, g: string): History<T>
    requires g in h.ids
  {
    h.(early := Except(h.early, h.ids[g]))
  }

  /** A resubscribe is over and the next one, if any, begins. */
  function Onward(todo: seq<string>): Operation {
    if |todo| <= 1 then Idle else Restoring(todo[1..])
  }

  predicate IsLast<T>(r: Registry<T>, c: ConsumerNo) {
    c < |r.consumers| && r.consumers[c].close == Waiting && r.consumers[c].registration in r.byRegistration
    && r.byRegistration[r.consumers[c].registration].members <= {c}
  }

  /** Events of an operation that is under way, and of one that begins. */
  function Hear<T>(h: History<T>, r: Registry<T>, e: Event<T>): History<T> {
    match h.operation
    case Idle =>
      (match e
       case Subscribe(g) => if g in h.ids then Claimed(h, g) else h.(operation := Subscribing(g, false))
       case CloseConsumer(c) =>
         if IsLast(r, c) then h.(operation := Closing(r.consumers[c].registration, c)) else h
       case Restore(order) =>
         if order != [] && IsListing(order, h.ids.Keys) then h.(operation := Restoring(order)) else h
       case Publish(id, item) => HearItem(h, id, item, r.capacity)
       case _ => h)
    case Subscribing(g, cancelled) =>
      (match e
       case CancelSubscribe => h.(operation := Subscribing(g, true))
       case SubscribeFailed => h.(operation := Idle)
       case SubscribeAcked(id) =>
         if id in r.used then h
         else if cancelled then h.(operation := Undoing(g, id))
         else Claimed(Named(h, g, id), g).(operation := Idle)
       case Publish(id, item) => HearItem(h, id, item, r.capacity)
       case _ => h)
    case Undoing(g, id) =>
      (match e
       case UndoAcked => h.(operation := Idle)
       case UndoFailed => Named(h, g, id).(operation := Idle)
       case Publish(id', item) => HearItem(h, id', item, r.capacity)
       case _ => h)
    case Closing(g, c) =>
      (match e
       case UnsubscribeAcked => h.(ids := h.ids - {g}, operation := Idle)
       case UnsubscribeFailed => h.(operation := Idle)
       case Publish(id, item) => HearItem(h, id, item, r.capacity)
       case _ => h)
    case Restoring(todo) =>
      (match e
       case RestoreAcked(id) =>
         if todo == [] || id in r.used then h
         else Claimed(Named(h, todo[0], id), todo[0]).(operation := Onward(todo))
       case RestoreFailed(_) => if todo == [] then h else h.(ids := h.ids - {todo[0]}, operation := Onward(todo))
       case RestoreCancelled => h.(operation := Idle)
       case Publish(id, item) => HearItem(h, id, item, r.capacity)
       case _ => h)
  }

  /** A notification under an id nobody goes by is kept, the oldest giving way. */
  function HearItem<T>(h: History<T>, id: nat, item: T, capacity: nat): History<T> {
    if id in h.ids.Values then h else h.(early := LastOf(h.early + [(id, item)], capacity))
  }

  function Heard<T>(capacity: nat, es: seq<Event<T>>): History<T> {
    if es == [] then History(Idle, map[], [])
    else Hear(Heard(capacity, es[..|es| - 1]), Run(Init(capacity), es[..|es| - 1]), es[|es| - 1])
  }

  /** What the event publishes to `g`: an item under the id it goes by, or the early items
      under the id it is given, or goes by when somebody subscribes. */
  function Brings<T>(h: History<T>, r: Registry<T>, e: Event<T>, g: string): seq<T> {
    match e
    case Publish(id, item) => if g in h.ids && h.ids[g] == id then [item] else []
    case Subscribe(g') => if g' == g && h.operation == Idle && g in h.ids then ItemsOf(h.early, h.ids[g]) else []
    case SubscribeAcked(id) =>
      if h.operation == Subscribing(g, false) && id !in r.used then ItemsOf(h.early, id) else []
    case RestoreAcked(id) =>
      if h.operation.Restoring? && h.operation.todo != [] && h.operation.todo[0] == g && id !in r.used
      then ItemsOf(h.early, id) else []
    case _ => []
  }

  function Published<T>(capacity: nat, es: seq<Event<T>>, g: string): seq<T> {
    if es == [] then []
    else
      var earlier := es[..|es| - 1];
      Published(capacity, earlier, g) + Brings(Heard(capacity, earlier), Run(Init(capacity), earlier), es[|es| - 1], g)
  }

  // ----- The registry follows it -----

  ghost predicate Follows<T(!new)>(r: Registry<T>, h: History<T>) {
    && r.operation == h.operation && r.pending == h.early
    && r.byRegistration.Keys == h.ids.Keys
    && (forall g :: g in h.ids ==> r.byRegistration[g].subId == h.ids[g])
  }

  /** The event adds exactly what it brings to what each registration was published. */
  ghost predicate Publishes<T(!new)>(r: Registry<T>, d: Registry<T>, h: History<T>, e: Event<T>) {
    forall g :: For(d.log, g) == For(r.log, g) + Brings(h, r, e, g)
  }

  lemma {:induction false} EarlyIsItemsOf<T>(early: seq<(nat, T)>, id: nat)
    ensures Early(early, id) == ItemsOf(early, id) && Others(early, id) == Except(early, id)
    decreases |early|
  {
    if early != [] {
      var front, last := early[..|early| - 1], early[|early| - 1];
      assert early == front + [last];
      EarlyIsItemsOf(front, id);
      EarlyAppends(front, last, id);
    }
  }

  lemma {:induction false} EarlyAppends<T>(early: seq<(nat, T)>, n: (nat, T), id: nat)
    ensures Early(early + [n], id) == Early(early, id) + (if n.0 == id then [n.1] else [])
    ensures Others(early + [n], id) == Others(early, id) + (if n.0 == id then [] else [n])
    decreases |early|
  {
    if early == [] {
      assert early + [n] == [n] && [n][1..] == [];
    } else {
      assert (early + [n])[1..] == early[1..] + [n] && (early + [n])[0] == early[0];
      EarlyAppends(early[1..], n, id);
    }
  }

  lemma ForAppends<T(!new)>(log: seq<(string, T)>, g: string, item: T, h: string)
    ensures For(log + [(g, item)], h) == For(log, h) + (if g == h then [item] else [])
  {
    assert (log + [(g, item)])[..|log|] == log;
  }

  lemma {:induction false} DeliverAllPublishes<T(!new)>(r: Registry<T>, g: string, items: seq<T>, h: string)
    requires g in r.byRegistration
    ensures For(DeliverAll(r, g, items).log, h) == For(r.log, h) + (if g == h then items else [])
    decreases |items|
  {
    if items != [] {
      ForAppends(r.log, g, items[0], h);
      DeliverAllPublishes(Deliver(r, g, items[0]), g, items[1..], h);
      assert items == [items[0]] + items[1..];
    }
  }

  /** What a flush does. */
  lemma FlushFollows<T(!new)>(r: Registry<T>, g: string)
    requires g in r.byRegistration
    ensures var f, id := Flush(r, g), r.byRegistration[g].subId;
      && f == r.(consumers := f.consumers, log := f.log, pending := Except(r.pending, id))
      && forall h :: For(f.log, h) == For(r.log, h) + (if g == h then ItemsOf(r.pending, id) else [])
  {
    var id := r.byRegistration[g].subId;
    EarlyIsItemsOf(r.pending, id);
    forall h ensures For(Flush(r, g).log, h) == For(r.log, h) + (if g == h then ItemsOf(r.pending, id) else []) {
      DeliverAllPublishes(r, g, Early(r.pending, id), h);
    }
  }

  lemma AttachFollows<T(!new)>(r: Registry<T>, g: string)
    requires g in r.byRegistration
    ensures var a, w := Attach(r, g), r.byRegistration[g];
      && a == r.(consumers := a.consumers, log := a.log, pending := Except(r.pending, w.subId),
                 byRegistration := r.byRegistration[g := w.(members := w.members + {|r.consumers|})])
      && forall h :: For(a.log, h) == For(r.log, h) + (if g == h then ItemsOf(r.pending, w.subId) else [])
  {
    var w := r.byRegistration[g];
    FlushFollows(r.(consumers := r.consumers + [Consumer(g, A.New(r.capacity), NotAsked, |r.log|)],
                    byRegistration := r.byRegistration[g := w.(members := w.members + {|r.consumers|})]), g);
    hide Flush, Except, ItemsOf;
  }

  lemma NothingPublished<T(!new)>(r: Registry<T>, d: Registry<T>, h: History<T>, e: Event<T>)
    requires d.log == r.log && forall g :: Brings(h, r, e, g) == []
    ensures Publishes(r, d, h, e)
  {
    assert forall g :: For(r.log, g) + [] == For(r.log, g);
  }

  /** A consumer joins, and what is early under the id is handed over. */
  lemma JoinFollows<T(!new)>(r: Registry<T>, h: History<T>, g: string)
    requires Follows(r, h) && g in r.byRegistration
    ensures Follows(Attach(r, g), Claimed(h, g))
    ensures forall k :: For(Attach(r, g).log, k) == For(r.log, k) + (if g == k then ItemsOf(h.early, h.ids[g]) else [])
  {
    AttachFollows(r, g);
    hide Attach, For, ItemsOf, Except;
  }

  lemma SubscribeFollows<T(!new)>(r: Registry<T>, h: History<T>, g: string)
    requires Operations(r) && Follows(r, h)
    ensures Follows(SubscribeStep(r, g), Hear(h, r, Subscribe(g)))
    ensures Publishes(r, SubscribeStep(r, g), h, Subscribe(g))
  {
    if r.operation == Idle && g in r.byRegistration {
      JoinFollows(r, h, g);
      assert forall k :: For(r.log, k) + [] == For(r.log, k);
    } else {
      NothingPublished(r, SubscribeStep(r, g), h, Subscribe(g));
    }
    hide Attach, For, ItemsOf, Except, Claimed;
  }

  lemma AckFollows<T(!new)>(r: Registry<T>, h: History<T>, id: nat)
    requires Operations(r) && Follows(r, h)
    ensures Follows(SubscribeAckedStep(r, id), Hear(h, r, SubscribeAcked(id)))
    ensures Publishes(r, SubscribeAckedStep(r, id), h, SubscribeAcked(id))
  {
    if r.operation.Subscribing? && id !in r.used && !r.operation.cancelled {
      NamingFollows(r, h, id);
    } else {
      NothingPublished(r, SubscribeAckedStep(r, id), h, SubscribeAcked(id));
    }
    hide Attach, For, ItemsOf, Except;
  }

  lemma NamingFollows<T(!new)>(r: Registry<T>, h: History<T>, id: nat)
    requires Follows(r, h) && r.operation.Subscribing? && !r.operation.cancelled && id !in r.used
    ensures Follows(SubscribeAckedStep(r, id), Hear(h, r, SubscribeAcked(id)))
    ensures Publishes(r, SubscribeAckedStep(r, id), h, SubscribeAcked(id))
  {
    var g := r.operation.registration;
    var registered, named := Register(r.(used := r.used + {id}), g, id, Live), Named(h, g, id).(operation := Idle);
    assert Follows(registered, named);
    JoinFollows(registered, named, g);
    assert SubscribeAckedStep(r, id) == Attach(registered, g);
    assert Hear(h, r, SubscribeAcked(id)) == Claimed(named, g);
    assert forall k :: For(r.log, k) + [] == For(r.log, k);
    hide Attach, For, ItemsOf, Except, Follows, Claimed, SubscribeAckedStep, Hear;
  }

  /** `_by_id` names the registration that goes by an id. */
  lemma IdsAreKnown<T(!new)>(r: Registry<T>, h: History<T>, id: nat)
    requires Inverse(r.byRegistration, r.byId) && Follows(r, h)
    ensures id in r.byId <==> id in h.ids.Values
    ensures forall g :: g in h.ids && h.ids[g] == id <==> id in r.byId && r.byId[id] == g
  {
    forall g ensures g in h.ids && h.ids[g] == id <==> id in r.byId && r.byId[id] == g {
      assert g in h.ids ==> r.byRegistration[g].subId in r.byId;
    }
    if id in r.byId { assert h.ids[r.byId[id]] == id; }
  }

  lemma PublishShape<T>(r: Registry<T>, id: nat, item: T)
    ensures var d := PublishStep(r, id, item);
      if id !in r.byId then d == r.(pending := LastOf(r.pending + [(id, item)], r.capacity))
      else if r.byId[id] !in r.byRegistration then d == r
      else
        && d.log == r.log + [(r.byId[id], item)] && d.pending == r.pending && d.operation == r.operation
        && d.byRegistration.Keys == r.byRegistration.Keys
        && forall g :: g in r.byRegistration ==> d.byRegistration[g].subId == r.byRegistration[g].subId
  {
  }

  lemma PublishFollows<T(!new)>(r: Registry<T>, h: History<T>, id: nat, item: T)
    requires Inverse(r.byRegistration, r.byId) && Follows(r, h)
    ensures Follows(PublishStep(r, id, item), Hear(h, r, Publish(id, item)))
    ensures Publishes(r, PublishStep(r, id, item), h, Publish(id, item))
  {
    IdsAreKnown(r, h, id);
    assert id in r.byId ==> r.byId[id] in r.byRegistration;
    hide *;
    ItemIsHeard(r, h, id, item);
    PublishAdds(r, h, id, item);
  }

  lemma ItemIsHeard<T(!new)>(r: Registry<T>, h: History<T>, id: nat, item: T)
    requires Follows(r, h) && (id in r.byId <==> id in h.ids.Values)
    requires id in r.byId ==> r.byId[id] in r.byRegistration
    ensures Follows(PublishStep(r, id, item), Hear(h, r, Publish(id, item)))
  {
    PublishShape(r, id, item);
    assert Hear(h, r, Publish(id, item)) == HearItem(h, id, item, r.capacity);
    hide PublishStep, Hear, LastOf;
  }

  lemma PublishAdds<T(!new)>(r: Registry<T>, h: History<T>, id: nat, item: T)
    requires forall g :: g in h.ids && h.ids[g] == id <==> id in r.byId && r.byId[id] == g
    requires id in r.byId ==> r.byId[id] in r.byRegistration
    ensures Publishes(r, PublishStep(r, id, item), h, Publish(id, item))
  {
    var d := PublishStep(r, id, item);
    PublishShape(r, id, item);
    hide PublishStep;
    forall g
      ensures For(d.log, g) == For(r.log, g) + Brings(h, r, Publish(id, item), g)
    {
      if id in r.byId {
        ForAppends(r.log, r.byId[id], item, g);
      }
      assert For(r.log, g) + [] == For(r.log, g);
      hide For;
    }
  }

  lemma RestoringFollows<T(!new)>(r: Registry<T>, h: History<T>, e: Event<T>)
    requires Operations(r) && Follows(r, h)
    requires e.RestoreAcked? || e.RestoreFailed?
    ensures Follows(Apply(r, e), Hear(h, r, e)) && Publishes(r, Apply(r, e), h, e)
  {
    if e.RestoreAcked? && r.operation.Restoring? && e.subId !in r.used {
      FlushFollows(Rekeyed(r, r.operation.todo[0], e.subId), r.operation.todo[0]);
      assert forall k :: For(r.log, k) + [] == For(r.log, k);
    } else {
      NothingPublished(r, Apply(r, e), h, e);
    }
    hide Flush, For, ItemsOf, Except, FailMembers;
  }

  lemma ClosingFollows<T(!new)>(r: Registry<T>, h: History<T>, e: Event<T>)
    requires Operations(r) && Follows(r, h)
    requires e.CloseConsumer? || e.UnsubscribeAcked? || e.UnsubscribeFailed?
    ensures Follows(Apply(r, e), Hear(h, r, e)) && Publishes(r, Apply(r, e), h, e)
  {
    NothingPublished(r, Apply(r, e), h, e);
    if e.CloseConsumer? {
      CloseFollows(r, h, e.c);
      hide CloseStep;
    }
    hide For, Publishes;
  }

  lemma CloseFollows<T(!new)>(r: Registry<T>, h: History<T>, c: ConsumerNo)
    requires Operations(r) && Follows(r, h)
    ensures Follows(CloseStep(r, c), Hear(h, r, CloseConsumer(c)))
  {
    if c < |r.consumers| && r.consumers[c].registration in r.byRegistration {
      var members := r.byRegistration[r.consumers[c].registration].members;
      assert members - {c} == {} <==> members <= {c};
    }
  }

  lemma FollowsStep<T(!new)>(r: Registry<T>, h: History<T>, e: Event<T>)
    requires Inv(r) && Follows(r, h)
    ensures Follows(Apply(r, e), Hear(h, r, e)) && Publishes(r, Apply(r, e), h, e)
  {
    match e {
      case Subscribe(g) => SubscribeFollows(r, h, g);
      case SubscribeAcked(id) => AckFollows(r, h, id);
      case Publish(id, item) => PublishFollows(r, h, id, item);
      case RestoreAcked(_) => RestoringFollows(r, h, e);
      case RestoreFailed(_) => RestoringFollows(r, h, e);
      case CloseConsumer(_) => ClosingFollows(r, h, e);
      case UnsubscribeAcked => ClosingFollows(r, h, e);
      case UnsubscribeFailed => ClosingFollows(r, h, e);
      case _ => OthersFollow(r, h, e);
    }
    hide Apply, Hear, Inv, Follows, Publishes;
  }

  lemma OthersFollow<T(!new)>(r: Registry<T>, h: History<T>, e: Event<T>)
    requires Operations(r) && Follows(r, h)
    requires e.CancelSubscribe? || e.SubscribeFailed? || e.UndoAcked? || e.UndoFailed? || e.AskClose? || e.CancelClose?
      || e.Restore? || e.RestoreCancelled? || e.Read?
    ensures Follows(Apply(r, e), Hear(h, r, e)) && Publishes(r, Apply(r, e), h, e)
  {
    NothingPublished(r, Apply(r, e), h, e);
    hide For, Publishes;
  }

  /** Over every run: the registry does one operation at a time and goes through it event by
      event; each registration goes by the id it was last given; notifications under an id
      nobody goes by wait, as many as there is room for; and each registration was published
      exactly the items that came under the id it went by, and the early ones that waited
      under an id when it was given it or somebody joined, in order. */
  lemma {:induction false} RegistryFollowsTheRun<T(!new)>(capacity: nat, es: seq<Event<T>>)
    requires 1 <= capacity
    ensures var r, h := Run(Init<T>(capacity), es), Heard(capacity, es);
      && r.operation == h.operation && r.pending == h.early && r.byRegistration.Keys == h.ids.Keys
      && (forall g :: g in h.ids ==> r.byRegistration[g].subId == h.ids[g])
      && (forall g :: For(r.log, g) == Published(capacity, es, g))
    decreases |es|
  {
    if es != [] {
      var r, h := Run(Init<T>(capacity), es[..|es| - 1]), Heard(capacity, es[..|es| - 1]);
      RegistryFollowsTheRun(capacity, es[..|es| - 1]);
      RunKeepsInv<T>(capacity, es[..|es| - 1]);
      assert Follows(r, h);
      hide Inv, Apply, Hear, For, Brings;
      FollowsStep(r, h, es[|es| - 1]);
    }
  }

  // ----- The consumers follow it -----

  function PushAll<T>(s: A.Subscription<T>, items: seq<T>): A.Subscription<T>
    decreases |items|
  {
    if items == [] then s else PushAll(A.Push(s, items[0]), items[1..])
  }

  /** What a consumer is handed, unless it has left. */
  function Feed<T>(q: Consumer<T>, items: seq<T>): Consumer<T> {
    if q.close == Left then q else q.(subscription := PushAll(q.subscription, items))
  }

  function Ended<T>(q: Consumer<T>): Consumer<T> {
    q.(subscription := A.Finish(q.subscription))
  }

  /** What the event does to consumer `c`: its closing and reading, the failure of its
      registration's resubscribe, and what is published to its registration. */
  function HearConsumer<T>(q: Consumer<T>, h: History<T>, r: Registry<T>, e: Event<T>, c: ConsumerNo): Consumer<T> {
    match e
    case AskClose(d) => if d == c && q.close == NotAsked then q.(close := Waiting) else q
    case CancelClose(d) => if d == c && q.close == Waiting then Ended(q.(close := GivenUp)) else q
    case CloseConsumer(d) =>
      if d != c || h.operation != Idle || q.close != Waiting then q
      else if IsLast(r, c) then q.(close := Left)
      else Ended(q.(close := Left))
    case UnsubscribeAcked => if h.operation.Closing? && h.operation.consumer == c then Ended(q) else q
    case UnsubscribeFailed => if h.operation.Closing? && h.operation.consumer == c then Ended(q) else q
    case RestoreFailed(error) =>
      if h.operation.Restoring? && h.operation.todo != [] && h.operation.todo[0] == q.registration && q.close != Left
      then q.(subscription := A.Fail(q.subscription, error)) else q
    case Read(d) => if d == c then q.(subscription := A.Next(q.subscription)) else q
    case _ => Feed(q, Brings(h, r, e, q.registration))
  }

  /** The registration that somebody joins. */
  function Joins<T>(h: History<T>, r: Registry<T>, e: Event<T>): seq<string> {
    match e
    case Subscribe(g) => if h.operation == Idle && g in h.ids then [g] else []
    case SubscribeAcked(id) =>
      if h.operation.Subscribing? && !h.operation.cancelled && id !in r.used then [h.operation.registration] else []
    case _ => []
  }

  function Newcomer<T>(h: History<T>, r: Registry<T>, e: Event<T>, g: string): Consumer<T> {
    Feed(Consumer(g, A.New(r.capacity), NotAsked, |r.log|), Brings(h, r, e, g))
  }

  function HearConsumers<T>(cs: seq<Consumer<T>>, h: History<T>, r: Registry<T>, e: Event<T>): seq<Consumer<T>> {
    seq(|cs|, c requires 0 <= c < |cs| => HearConsumer(cs[c], h, r, e, c))
    + (if Joins(h, r, e) == [] then [] else [Newcomer(h, r, e, Joins(h, r, e)[0])])
  }

  function Consumers<T>(capacity: nat, es: seq<Event<T>>): seq<Consumer<T>> {
    if es == [] then []
    else
      var earlier := es[..|es| - 1];
      HearConsumers(Consumers(capacity, earlier), Heard(capacity, earlier), Run(Init(capacity), earlier), es[|es| - 1])
  }

  lemma FeedOne<T(!new)>(q: Consumer<T>, item: T, items: seq<T>)
    ensures Feed(Feed(q, [item]), items) == Feed(q, [item] + items)
  {
    assert ([item] + items)[1..] == items && [item][1..] == [];
    assert PushAll(q.subscription, [item]) == A.Push(q.subscription, item) by {
      assert PushAll(A.Push(q.subscription, item), []) == A.Push(q.subscription, item);
    }
  }

  lemma DeliverFeeds<T(!new)>(r: Registry<T>, g: string, item: T, c: ConsumerNo)
    requires Members(r) && g in r.byRegistration && c < |r.consumers|
    ensures |Deliver(r, g, item).consumers| == |r.consumers|
    ensures Deliver(r, g, item).consumers[c]
         == (if r.consumers[c].registration == g then Feed(r.consumers[c], [item]) else r.consumers[c])
  {
    var q := r.consumers[c];
    assert [item][1..] == [];
    assert PushAll(q.subscription, [item]) == A.Push(q.subscription, item) by {
      assert PushAll(A.Push(q.subscription, item), []) == A.Push(q.subscription, item);
    }
    if c in r.byRegistration[g].members {
      assert Joined(r, g, c);
    } else if q.registration == g && q.close != Left {
      assert !Attached(r, c);
    }
  }

  lemma {:induction false} DeliverAllFeeds<T(!new)>(r: Registry<T>, g: string, items: seq<T>, c: ConsumerNo)
    requires Members(r) && g in r.byRegistration && c < |r.consumers|
    ensures |DeliverAll(r, g, items).consumers| == |r.consumers|
    ensures DeliverAll(r, g, items).consumers[c]
         == (if r.consumers[c].registration == g then Feed(r.consumers[c], items) else r.consumers[c])
    decreases |items|
  {
    if items != [] {
      DeliverKeepsMembers(r, g, items[0]);
      DeliverFeeds(r, g, items[0], c);
      DeliverAllFeeds(Deliver(r, g, items[0]), g, items[1..], c);
      FeedOne(r.consumers[c], items[0], items[1..]);
      assert items == [items[0]] + items[1..];
      hide Members, Deliver;
    }
  }

  /** A flush hands the early items to the members, and nobody else. */
  lemma FlushFeeds<T(!new)>(r: Registry<T>, g: string, c: ConsumerNo)
    requires Members(r) && g in r.byRegistration && c < |r.consumers|
    ensures |Flush(r, g).consumers| == |r.consumers|
    ensures Flush(r, g).consumers[c]
         == (if r.consumers[c].registration == g
             then Feed(r.consumers[c], ItemsOf(r.pending, r.byRegistration[g].subId)) else r.consumers[c])
  {
    EarlyIsItemsOf(r.pending, r.byRegistration[g].subId);
    DeliverAllFeeds(r, g, Early(r.pending, r.byRegistration[g].subId), c);
    hide Members, DeliverAll, Feed;
  }

  lemma AttachFeeds<T(!new)>(r: Registry<T>, g: string, c: ConsumerNo)
    requires Members(r) && g in r.byRegistration && c <= |r.consumers|
    ensures |Attach(r, g).consumers| == |r.consumers| + 1
    ensures var items, newcomer := ItemsOf(r.pending, r.byRegistration[g].subId), Consumer(g, A.New(r.capacity), NotAsked, |r.log|);
      Attach(r, g).consumers[c] ==
        (if c == |r.consumers| then Feed(newcomer, items)
         else if r.consumers[c].registration == g then Feed(r.consumers[c], items) else r.consumers[c])
  {
    var w, newcomer := r.byRegistration[g], Consumer(g, A.New(r.capacity), NotAsked, |r.log|);
    JoinKeepsMembers(r, g, newcomer);
    var joined := r.(consumers := r.consumers + [newcomer],
                     byRegistration := r.byRegistration[g := w.(members := w.members + {|r.consumers|})]);
    FlushFeeds(joined, g, c);
    assert Attach(r, g) == Flush(joined, g);
    hide Members, Flush, Feed, ItemsOf, Attach;
  }

  ghost predicate FollowsAt<T(!new)>(r: Registry<T>, h: History<T>, e: Event<T>, c: ConsumerNo)
    requires c < |r.consumers|
  {
    c < |Apply(r, e).consumers| && Apply(r, e).consumers[c] == HearConsumer(r.consumers[c], h, r, e, c)
  }

  /** Who joins: the number of consumers grows by them, and they are handed what is early. */
  ghost predicate JoinsAs<T(!new)>(r: Registry<T>, h: History<T>, e: Event<T>) {
    var joins, d := Joins(h, r, e), Apply(r, e);
    if joins == [] then |d.consumers| == |r.consumers|
    else |d.consumers| == |r.consumers| + 1 && d.consumers[|r.consumers|] == Newcomer(h, r, e, joins[0])
  }

  lemma FeedNothing<T(!new)>(q: Consumer<T>)
    ensures Feed(q, []) == q
  {
  }

  lemma SubscribeFeeds<T(!new)>(r: Registry<T>, h: History<T>, g: string)
    requires Members(r) && Operations(r) && Follows(r, h)
    ensures JoinsAs(r, h, Subscribe(g))
    ensures forall c :: 0 <= c < |r.consumers| ==> FollowsAt(r, h, Subscribe(g), c)
  {
    if r.operation == Idle && g in r.byRegistration {
      AttachFeeds(r, g, |r.consumers|);
    }
    forall c | 0 <= c < |r.consumers|
      ensures FollowsAt(r, h, Subscribe(g), c)
    {
      FeedNothing(r.consumers[c]);
      if r.operation == Idle && g in r.byRegistration {
        AttachFeeds(r, g, c);
      }
      hide Attach, Feed, ItemsOf, Members;
    }
    hide Attach, Feed, ItemsOf, Members, FollowsAt;
  }

  lemma AckFeeds<T(!new)>(r: Registry<T>, h: History<T>, id: nat)
    requires Inv(r) && Follows(r, h)
    ensures JoinsAs(r, h, SubscribeAcked(id))
    ensures forall c :: 0 <= c < |r.consumers| ==> FollowsAt(r, h, SubscribeAcked(id), c)
  {
    if r.operation.Subscribing? && id !in r.used && !r.operation.cancelled {
      NamingFeeds(r, h, id);
    } else {
      forall c | 0 <= c < |r.consumers|
        ensures FollowsAt(r, h, SubscribeAcked(id), c)
      {
        FeedNothing(r.consumers[c]);
        hide Feed, Inv;
      }
      hide Feed, Inv;
    }
  }

  lemma NamingFeeds<T(!new)>(r: Registry<T>, h: History<T>, id: nat)
    requires Inv(r) && Follows(r, h) && r.operation.Subscribing? && !r.operation.cancelled && id !in r.used
    ensures JoinsAs(r, h, SubscribeAcked(id))
    ensures forall c :: 0 <= c < |r.consumers| ==> FollowsAt(r, h, SubscribeAcked(id), c)
  {
    var g, seen := r.operation.registration, r.(used := r.used + {id});
    MembersIgnoresTheRest(r, seen);
    assert Inv(seen);
    RegisterKeepsInv(seen, g, id, Live);
    var registered := Register(seen, g, id, Live);
    assert registered.consumers == r.consumers && registered.pending == h.early && registered.byRegistration[g].subId == id;
    assert Apply(r, SubscribeAcked(id)) == Attach(registered, g);
    hide Apply, Register;
    AttachFeeds(registered, g, |r.consumers|);
    hide Attach, Feed, ItemsOf, Inv;
    forall c | 0 <= c < |r.consumers|
      ensures FollowsAt(r, h, SubscribeAcked(id), c)
    {
      FeedNothing(r.consumers[c]);
      AttachFeeds(registered, g, c);
    }
    hide FollowsAt;
  }

  lemma PublishFeeds<T(!new)>(r: Registry<T>, h: History<T>, id: nat, item: T, c: ConsumerNo)
    requires Inverse(r.byRegistration, r.byId) && Members(r) && Follows(r, h) && c < |r.consumers|
    ensures FollowsAt(r, h, Publish(id, item), c) && |PublishStep(r, id, item).consumers| == |r.consumers|
  {
    IdsAreKnown(r, h, id);
    FeedNothing(r.consumers[c]);
    if id in r.byId {
      DeliverFeeds(r, r.byId[id], item, c);
      assert PublishStep(r, id, item).consumers == Deliver(r, r.byId[id], item).consumers;
    }
    hide Feed, Deliver, Members, Inverse, Follows;
  }

  lemma RestoreFeeds<T(!new)>(r: Registry<T>, h: History<T>, id: nat, c: ConsumerNo)
    requires Inv(r) && Follows(r, h) && c < |r.consumers|
    ensures FollowsAt(r, h, RestoreAcked(id), c) && |RestoreAckedStep(r, id).consumers| == |r.consumers|
  {
    FeedNothing(r.consumers[c]);
    if r.operation.Restoring? && id !in r.used {
      var g := r.operation.todo[0];
      RekeyedKeepsInv(r, g, id);
      FlushFeeds(Rekeyed(r, g, id), g, c);
      assert RestoreAckedStep(r, id).consumers == Flush(Rekeyed(r, g, id), g).consumers;
      assert Rekeyed(r, g, id).consumers == r.consumers && Rekeyed(r, g, id).pending == h.early;
      assert Rekeyed(r, g, id).byRegistration[g].subId == id;
      assert Apply(r, RestoreAcked(id)) == RestoreAckedStep(r, id);
      hide Flush, Rekeyed, Inv, Feed, ItemsOf, Apply, RestoreAckedStep;
    }
    hide Feed;
  }

  lemma RestoreFailsMembers<T(!new)>(r: Registry<T>, h: History<T>, error: string, c: ConsumerNo)
    requires Operations(r) && Members(r) && Follows(r, h) && c < |r.consumers|
    ensures FollowsAt(r, h, RestoreFailed(error), c) && |RestoreFailedStep(r, error).consumers| == |r.consumers|
  {
    if r.operation.Restoring? {
      var g, q := r.operation.todo[0], r.consumers[c];
      if c in r.byRegistration[g].members {
        assert Joined(r, g, c);
      } else if q.registration == g && q.close != Left {
        assert !Attached(r, c);
      }
    }
    hide Members;
  }

  lemma ClosingFeeds<T(!new)>(r: Registry<T>, h: History<T>, e: Event<T>, c: ConsumerNo)
    requires Operations(r) && Follows(r, h) && c < |r.consumers|
    requires e.CloseConsumer? || e.UnsubscribeAcked? || e.UnsubscribeFailed?
    ensures FollowsAt(r, h, e, c) && |Apply(r, e).consumers| == |r.consumers|
  {
    if e.CloseConsumer? && e.c < |r.consumers| && r.consumers[e.c].registration in r.byRegistration {
      var members := r.byRegistration[r.consumers[e.c].registration].members;
      assert members - {e.c} == {} <==> members <= {e.c};
    }
  }

  lemma QuietFeeds<T(!new)>(r: Registry<T>, h: History<T>, e: Event<T>, c: ConsumerNo)
    requires Operations(r) && Follows(r, h) && c < |r.consumers|
    requires e.CancelSubscribe? || e.SubscribeFailed? || e.UndoAcked? || e.UndoFailed? || e.AskClose? || e.CancelClose?
      || e.Restore? || e.RestoreCancelled? || e.Read?
    ensures FollowsAt(r, h, e, c) && |Apply(r, e).consumers| == |r.consumers|
  {
    FeedNothing(r.consumers[c]);
    hide Feed;
  }

  lemma NobodyJoins<T(!new)>(r: Registry<T>, h: History<T>, e: Event<T>)
    requires Inv(r) && Follows(r, h) && !e.Subscribe? && !e.SubscribeAcked?
    ensures JoinsAs(r, h, e)
  {
    match e {
      case RestoreAcked(id) =>
        if r.operation.Restoring? && id !in r.used {
          FlushShape(Rekeyed(r, r.operation.todo[0], id), r.operation.todo[0]);
          hide Flush;
        }
      case _ =>
    }
    hide Inverse, FreshIds, WireInv, Members, Delivery;
  }

  lemma {:induction false} DeliverAllShape<T(!new)>(r: Registry<T>, g: string, items: seq<T>)
    requires g in r.byRegistration
    ensures |DeliverAll(r, g, items).consumers| == |r.consumers|
    decreases |items|
  {
    if items != [] { DeliverAllShape(Deliver(r, g, items[0]), g, items[1..]); }
  }

  lemma FlushShape<T(!new)>(r: Registry<T>, g: string)
    requires g in r.byRegistration
    ensures |Flush(r, g).consumers| == |r.consumers|
  {
    DeliverAllShape(r, g, Early(r.pending, r.byRegistration[g].subId));
  }

  lemma ConsumersStep<T(!new)>(r: Registry<T>, h: History<T>, e: Event<T>)
    requires Inv(r) && Follows(r, h)
    ensures Apply(r, e).consumers == HearConsumers(r.consumers, h, r, e)
  {
    if e.Subscribe? {
      SubscribeFeeds(r, h, e.registration);
    } else if e.SubscribeAcked? {
      AckFeeds(r, h, e.subId);
    } else {
      NobodyJoins(r, h, e);
      forall c | 0 <= c < |r.consumers|
        ensures FollowsAt(r, h, e, c)
      {
        match e {
          case Publish(id, item) => PublishFeeds(r, h, id, item, c);
          case RestoreAcked(id) => RestoreFeeds(r, h, id, c);
          case RestoreFailed(error) => RestoreFailsMembers(r, h, error, c);
          case CloseConsumer(_) => ClosingFeeds(r, h, e, c);
          case UnsubscribeAcked => ClosingFeeds(r, h, e, c);
          case UnsubscribeFailed => ClosingFeeds(r, h, e, c);
          case _ => QuietFeeds(r, h, e, c);
        }
      }
    }
    hide FollowsAt, JoinsAs, Inv, Follows;
    AllFollow(r, h, e);
    hide HearConsumers;
  }

  lemma AllFollow<T(!new)>(r: Registry<T>, h: History<T>, e: Event<T>)
    requires JoinsAs(r, h, e) && forall c :: 0 <= c < |r.consumers| ==> FollowsAt(r, h, e, c)
    ensures Apply(r, e).consumers == HearConsumers(r.consumers, h, r, e)
  {
    var d := Apply(r, e).consumers;
    hide Apply, HearConsumer, Newcomer;
    assert forall c :: 0 <= c < |r.consumers| ==> FollowsAt(r, h, e, c) ==> d[c] == HearConsumer(r.consumers[c], h, r, e, c);
  }

  /** Over every run: a consumer for each subscribe that was let join, in order; each holds
      what the queue of a fresh consumer holds after being pushed what was published to its
      registration from then on until it leaves, failed if its registration could not be
      restored, finished when its close is through or given up, and read as it was read. */
  lemma {:induction false} ConsumersFollowTheRun<T(!new)>(capacity: nat, es: seq<Event<T>>)
    requires 1 <= capacity
    ensures Run(Init<T>(capacity), es).consumers == Consumers(capacity, es)
    decreases |es|
  {
    if es != [] {
      var r, h, e := Run(Init<T>(capacity), es[..|es| - 1]), Heard(capacity, es[..|es| - 1]), es[|es| - 1];
      ConsumersFollowTheRun(capacity, es[..|es| - 1]);
      RegistryFollowsTheRun(capacity, es[..|es| - 1]);
      RunKeepsInv<T>(capacity, es[..|es| - 1]);
      assert Follows(r, h);
      hide Inv, Apply, Follows, HearConsumers, Heard;
      ConsumersStep(r, h, e);
    }
  }
}
