/** The lease observer's tasks, its subscription, the connection and the broker together,
    under an arbitrary schedule. */
module LeaseObserverRuns {
  import opened LeaseObservers
  import opened Options

  type Inventory = seq<LeaseListItem>

  /** What the broker sends, in order, on one connection.  `version` is the inventory a LIST
      page was cut from. */
  datatype Message =
    | Notify(route: string)
    | Page(pass: nat, items: seq<LeaseListItem>, next: Option<nat>, version: nat)
    | SubscribeAck

  datatype Subscription = NotAttached | Open | Broken | Ended

  datatype QueueItem = Note(route: string) | Failure | End

  /** The LIST request a pass is waiting for. */
  datatype Request = Asked | Answered | Arrived(items: seq<LeaseListItem>, next: Option<nat>, version: nat)

  /** Where the bootstrap task is suspended: on `_invalidate`, on `_subscription_ready`
      before or inside `_bootstrap` (an event that was set wakes its waiter even if it is
      cleared again first), in a LIST request, or in a backoff sleep. */
  datatype Bootstrap =
    | Parked
    | AwaitingSubscription(woken: bool)
    | AwaitingInPass(woken: bool)
    | Listing(pass: nat, generation: nat, notifications: nat, listed: seq<LeaseListItem>,
              offset: nat, request: Request)
    | BackingOff
    | RetryingLater
    | Stopped

  datatype Consumer = Iterating | ClosingOld | Resubscribing | Attaching | Finished

  /** `history` is every inventory the broker has had, the current one last.  `synced` is
      false from a disconnect until the observer's reconnect handler has run.
      `builtGeneration` and `builtNotifications` are the generations the installed view's
      LIST pass started from. */
  datatype World = World(
    observer: Observer, bootstrap: Bootstrap, consumer: Consumer,
    subscription: Subscription, queue: seq<QueueItem>, capacity: nat,
    channel: seq<Message>, history: seq<Inventory>, wireSubscribed: bool, synced: bool,
    passes: nat, builtGeneration: nat, builtNotifications: nat)

  datatype Event =
    // the broker and the connection
    | Change(inventory: Inventory, route: string)
    | Answer(size: nat)
    | WireSubscribe
    | WireUnsubscribe
    | Disconnect
    | Restored
    | ReconnectHandler
    // the receive loop and the subscription registry
    | Receive
    | AttachShared
    | BreakSubscription
    | EndSubscription
    // the observer's tasks
    | ConsumerStep
    | OldClosed
    | ConsumerAttached
    | BootstrapStep
    | PassFails
    | ReconcileTick
    | Close

  function Init(inventory: Inventory, capacity: nat): World {
    World(Fresh(), Parked, Attaching, Open, [], capacity, [], [inventory], true, true, 0, 0, 0)
  }

  function Version(w: World): int {
    |w.history| - 1
  }

  /** The undelivered notifications. */
  function Notifies(c: seq<Message>): nat {
    if c == [] then 0 else (if c[0].Notify? then 1 else 0) + Notifies(c[1..])
  }

  // ----- Steps of the broker and the connection -----

  /** While subscribed, every inventory change emits a notification. */
  function ChangeStep(w: World, inventory: Inventory, route: string): World {
    w.(history := w.history + [inventory],
       channel := if w.wireSubscribed then w.channel + [Notify(route)] else w.channel)
  }

  /** One LIST page: `size` items from the requested offset on, with a cursor if any are
      left; an offset past the end gives the last, empty page. */
  function PageOf(inventory: Inventory, offset: nat, size: nat): (seq<LeaseListItem>, Option<nat>) {
    if offset > |inventory| then ([], None)
    else if offset + size < |inventory| then (inventory[offset..offset + size], Some(offset + size))
    else (inventory[offset..], None)
  }

  function AnswerStep(w: World, size: nat): World {
    if w.bootstrap.Listing? && w.bootstrap.request == Asked && w.history != [] then
      var page := PageOf(w.history[|w.history| - 1], w.bootstrap.offset, size);
      w.(channel := w.channel + [Page(w.bootstrap.pass, page.0, page.1, |w.history| - 1)],
         bootstrap := w.bootstrap.(request := Answered))
    else w
  }

  /** The registry holds a wire subscription while a consumer is attached. */
  function WireUnsubscribeStep(w: World): World {
    if w.subscription == Open then w else w.(wireSubscribed := false)
  }

  function DisconnectStep(w: World): World {
    w.(channel := [], wireSubscribed := false, synced := false)
  }

  /** Reconnect listeners run in registration order: the registry restored its wire
      subscriptions, or failed them, before the observer's own handler runs. */
  function ReconnectStep(w: World): World {
    if w.subscription == Open && !w.wireSubscribed then w
    else w.(observer := Reconnected(w.observer), synced := true)
  }

  // ----- Steps of the receive loop and the registry -----

  function Break(w: World): World {
    if w.subscription == Open
    then w.(observer := SubscriptionFailed(w.observer), subscription := Broken, queue := [Failure])
    else w
  }

  /** `AsyncSubscription.push`: the observer's hook runs first, a full queue fails it. */
  function Push(w: World, route: string): World {
    if w.subscription != Open then w
    else
      var noted := w.(observer := Noted(w.observer));
      if |w.queue| < w.capacity then noted.(queue := w.queue + [Note(route)]) else Break(noted)
  }

  function Attach(w: World): World {
    if w.consumer == Resubscribing && w.wireSubscribed && w.subscription != Open && w.subscription != Ended
    then w.(consumer := Attaching, subscription := Open, queue := [])
    else w
  }

  function ReceiveStep(w: World): World {
    if w.channel == [] then w
    else
      var m, popped := w.channel[0], w.(channel := w.channel[1..]);
      match m
      case Notify(route) => Push(popped, route)
      case SubscribeAck => Attach(popped)
      case Page(pass, items, next, version) =>
        if w.bootstrap.Listing? && w.bootstrap.pass == pass && w.bootstrap.request == Answered
        then popped.(bootstrap := w.bootstrap.(request := Arrived(items, next, version)))
        else popped
  }

  function EndStep(w: World): World {
    if w.subscription == Open then w.(subscription := Ended, queue := [End]) else w
  }

  // ----- Steps of the observer's tasks -----

  /** Setting `_subscription_ready` releases the task waiting on it. */
  function Wake(b: Bootstrap): Bootstrap {
    match b
    case AwaitingSubscription(_) => AwaitingSubscription(true)
    case AwaitingInPass(_) => AwaitingInPass(true)
    case _ => b
  }

  function ConsumerFails(w: World): World {
    w.(observer := if w.observer.subscriptionReady then SubscriptionFailed(w.observer) else w.observer,
       consumer := ClosingOld)
  }

  function ConsumerEnds(w: World): World {
    w.(observer := EndedCleanly(w.observer), consumer := Finished)
  }

  function ConsumeStep(w: World): World {
    if w.consumer != Iterating || w.queue == [] then w
    else
      var popped := w.(queue := w.queue[1..]);
      match w.queue[0]
      case Note(route) => popped.(observer := Consumed(w.observer, route))
      case Failure => ConsumerFails(popped)
      case End => ConsumerEnds(popped)
  }

  /** The task that awaited the subscription resumes; a subscription that broke or ended
      meanwhile is noticed in the same step, because its queue is not empty. */
  function ConsumerAttachedStep(w: World): World {
    if w.consumer != Attaching then w
    else
      var attached := w.(observer := Subscribed(w.observer), bootstrap := Wake(w.bootstrap), consumer := Iterating);
      match w.subscription
      case Broken => ConsumerFails(attached.(queue := []))
      case Ended => ConsumerEnds(attached.(queue := []))
      case _ => attached
  }

  function BeginPass(w: World): World {
    w.(bootstrap := Listing(w.passes, w.observer.subscriptionGeneration, w.observer.notifications, [], 0, Asked),
       passes := w.passes + 1)
  }

  function AwaitThenList(w: World): World {
    if w.observer.subscriptionReady then BeginPass(w) else w.(bootstrap := AwaitingInPass(false))
  }

  function EndPass(w: World, items: seq<LeaseListItem>): World
    requires w.bootstrap.Listing?
  {
    var b := w.bootstrap;
    var ended := w.(observer := PassEnded(w.observer, ToView(b.listed + items), b.generation, b.notifications));
    if Raced(w.observer, b.generation, b.notifications) then ended.(bootstrap := BackingOff)
    else ended.(bootstrap := Parked, builtGeneration := b.generation, builtNotifications := b.notifications)
  }

  function BootstrapTaskStep(w: World): World {
    match w.bootstrap
    case Parked =>
      if !w.observer.invalidate then w
      else if w.observer.closed then w.(bootstrap := Stopped)
      else if w.observer.subscriptionReady then BeginPass(w.(observer := EnterBootstrap(w.observer)))
      else w.(observer := w.observer.(invalidate := false), bootstrap := AwaitingSubscription(false))
    case AwaitingSubscription(woken) =>
      if woken then AwaitThenList(w.(observer := EnterBootstrap(w.observer))) else w
    case AwaitingInPass(woken) => if woken then BeginPass(w) else w
    case Listing(pass, generation, notifications, listed, offset, request) =>
      if !request.Arrived? then w
      else if request.next.Some? then
        w.(bootstrap := w.bootstrap.(listed := listed + request.items, offset := request.next.value, request := Asked))
      else EndPass(w, request.items)
    case BackingOff => AwaitThenList(w)
    case RetryingLater => w.(observer := w.observer.(invalidate := true), bootstrap := Parked)
    case Stopped => w
  }

  function PassFailsStep(w: World): World {
    if w.bootstrap.Listing? then w.(observer := PassFailed(w.observer), bootstrap := RetryingLater) else w
  }

  function CloseStep(w: World): World {
    w.(observer := Closed(w.observer), bootstrap := Stopped, consumer := Finished)
  }

  function Apply(w: World, e: Event): World {
    match e
    case Change(inventory, route) => ChangeStep(w, inventory, route)
    case Answer(size) => AnswerStep(w, size)
    case WireSubscribe => w.(wireSubscribed := true, channel := w.channel + [SubscribeAck])
    case WireUnsubscribe => WireUnsubscribeStep(w)
    case Disconnect => DisconnectStep(w)
    case Restored => w.(wireSubscribed := true)
    case ReconnectHandler => ReconnectStep(w)
    case Receive => ReceiveStep(w)
    case AttachShared => Attach(w)
    case BreakSubscription => Break(w)
    case EndSubscription => EndStep(w)
    case ConsumerStep => ConsumeStep(w)
    case OldClosed => if w.consumer == ClosingOld then w.(consumer := Resubscribing) else w
    case ConsumerAttached => ConsumerAttachedStep(w)
    case BootstrapStep => BootstrapTaskStep(w)
    case PassFails => PassFailsStep(w)
    case ReconcileTick => if w.observer.closed then w else w.(observer := Reconciled(w.observer))
    case Close => CloseStep(w)
  }

  function Run(w: World, es: seq<Event>): World {
    if es == [] then w else Apply(Run(w, es[..|es| - 1]), es[|es| - 1])
  }

  // ----- What a run keeps -----

  ghost predicate ReadyAndSteady(w: World) {
    w.observer.ready && w.observer.mode == Steady
  }

  /** What the observer knows of a view it calls ready; a steady one is as fresh as it can
      know. */
  ghost predicate Freshness(w: World) {
    w.observer.ready ==>
      && w.observer.subscriptionReady
      && (w.subscription == Open || w.subscription == Ended)
      && w.observer.subscriptionGeneration == w.builtGeneration
      && w.builtNotifications <= w.observer.notifications
      && (w.observer.mode == Steady ==> w.observer.notifications == w.builtNotifications)
  }

  ghost predicate NoLostWakeUp(w: World) {
    && (w.bootstrap == Parked && !w.observer.invalidate ==> ReadyAndSteady(w) || w.consumer == Finished)
    && (w.bootstrap == AwaitingSubscription(false) || w.bootstrap == AwaitingInPass(false) ==>
          !w.observer.subscriptionReady)
  }

  ghost predicate OnlyNotes(queue: seq<QueueItem>) {
    forall i :: 0 <= i < |queue| ==> queue[i].Note?
  }

  ghost predicate Tasks(w: World) {
    && (w.observer.mode == Steady ==> w.bootstrap == Parked || w.bootstrap == Stopped || w.bootstrap.AwaitingSubscription?)
    && (w.observer.subscriptionReady ==>
          && (w.consumer == Iterating || w.consumer == Finished)
          && (w.subscription == Open || w.subscription == Ended))
    && (w.subscription == Open ==> OnlyNotes(w.queue))
    && (w.subscription == Broken && w.consumer == Iterating ==> w.queue == [Failure])
    && (w.subscription == Ended && w.consumer == Iterating ==> w.queue == [End])
    && (w.subscription == Ended || w.subscription == Open ==>
          w.consumer == Iterating || w.consumer == Attaching || w.consumer == Finished)
    && (w.consumer == Attaching ==> !w.observer.subscriptionReady && w.subscription != NotAttached)
  }

  ghost predicate Wire(w: World) {
    w.synced && w.subscription == Open ==> w.wireSubscribed
  }

  ghost predicate Generations(w: World) {
    w.bootstrap.Listing? ==>
      && w.bootstrap.pass < w.passes
      && w.bootstrap.generation <= w.observer.subscriptionGeneration
      && w.bootstrap.notifications <= w.observer.notifications
  }

  ghost predicate Control(w: World) {
    Tasks(w) && Freshness(w) && NoLostWakeUp(w) && Wire(w) && Generations(w)
  }

  /** The broker's version as of the last delivered notification. */
  function Reported(w: World): int {
    Version(w) - Notifies(w.channel)
  }

  /** A pass that nothing has raced yet: it can still be installed. */
  ghost predicate Unraced(w: World) {
    && w.bootstrap.Listing?
    && w.synced
    && w.subscription == Open
    && w.observer.subscriptionReady
    && w.observer.subscriptionGeneration == w.bootstrap.generation
    && w.observer.notifications == w.bootstrap.notifications
  }

  ghost predicate Trusted(w: World) {
    w.observer.ready && w.synced && w.subscription == Open
  }

  /** The broker's version that many delivered notifications ago as have been counted since
      the start of the pass that built the view. */
  function Shown(w: World): int {
    Reported(w) - (w.observer.notifications - w.builtNotifications)
  }

  /** The page continues a listing of `inventory` that has reached `offset`. */
  ghost predicate Fits(inventory: Inventory, offset: nat, items: seq<LeaseListItem>, next: Option<nat>) {
    offset <= |inventory| ==>
      if next == None then inventory[..offset] + items == inventory
      else next.value <= |inventory| && inventory[..offset] + items == inventory[..next.value]
  }

  ghost predicate Awaited(w: World, m: Message) {
    m.Page? && w.bootstrap.Listing? && m.pass == w.bootstrap.pass
  }

  ghost predicate PageInv(w: World, i: nat)
    requires i < |w.channel| && Awaited(w, w.channel[i])
  {
    var m := w.channel[i];
    && w.bootstrap.request == Answered
    && m.version < |w.history|
    && Fits(w.history[m.version], w.bootstrap.offset, m.items, m.next)
    && (Unraced(w) ==> m.version + Notifies(w.channel[i..]) == Version(w))
  }

  ghost predicate Pages(w: World) {
    && (forall i :: 0 <= i < |w.channel| && w.channel[i].Page? ==> w.channel[i].pass < w.passes)
    && (forall i :: 0 <= i < |w.channel| && Awaited(w, w.channel[i]) ==> PageInv(w, i))
    && (forall i, j :: 0 <= i < j < |w.channel| && Awaited(w, w.channel[i]) ==> !Awaited(w, w.channel[j]))
  }

  ghost predicate Counted(w: World) {
    w.history != [] && 0 <= Reported(w)
  }

  /** What an unraced pass has listed is a prefix of the last reported inventory. */
  ghost predicate PassInv(w: World)
    requires Counted(w)
  {
    Unraced(w) ==>
      var inventory, b := w.history[Reported(w)], w.bootstrap;
      && b.offset <= |inventory|
      && b.listed == inventory[..b.offset]
      && (b.request.Arrived? ==> Fits(inventory, b.offset, b.request.items, b.request.next))
  }

  ghost predicate ViewInv(w: World)
    requires Counted(w)
  {
    Trusted(w) ==>
      && 0 <= Shown(w) <= Reported(w)
      && w.observer.view == ToView(w.history[Shown(w)])
  }

  ghost predicate Data(w: World) {
    Counted(w) && Pages(w) && PassInv(w) && ViewInv(w)
  }

  ghost predicate Inv(w: World) {
    Control(w) && Data(w)
  }

  // ----- Control: every event keeps it -----

  lemma ControlKept(w: World, e: Event)
    requires Control(w)
    ensures Control(Apply(w, e))
  {
    match e {
      case Receive => ReceiveKeepsControl(w);
      case ConsumerStep => ConsumeKeepsControl(w);
      case ConsumerAttached => AttachedKeepsControl(w);
      case BootstrapStep => BootstrapKeepsControl(w);
      case _ =>
    }
  }

  lemma PushKeepsControl(w: World, route: string)
    requires Control(w)
    ensures Control(Push(w, route))
  {
    assert OnlyNotes(w.queue) ==> OnlyNotes(w.queue + [Note(route)]);
    hide OnlyNotes;
    var noted := w.(observer := Noted(w.observer));
    assert Control(noted);
    BreakKeepsControl(noted);
  }

  lemma BreakKeepsControl(w: World)
    requires Control(w)
    ensures Control(Break(w))
  {
    hide OnlyNotes;
  }

  lemma ReceiveKeepsControl(w: World)
    requires Control(w)
    ensures Control(ReceiveStep(w))
  {
    if w.channel != [] && w.channel[0].Notify? {
      var popped := w.(channel := w.channel[1..]);
      assert Control(popped);
      PushKeepsControl(popped, w.channel[0].route);
    }
  }

  lemma ConsumeKeepsControl(w: World)
    requires Control(w)
    ensures Control(ConsumeStep(w))
  {
    if w.consumer == Iterating && w.queue != [] {
      assert OnlyNotes(w.queue) ==> w.queue[0].Note? && OnlyNotes(w.queue[1..]);
      hide OnlyNotes;
      match w.queue[0] {
        case Note(route) => NoteConsumedKeepsControl(w);
        case Failure => FailureConsumedKeepsControl(w);
        case End => EndConsumedKeepsControl(w);
      }
    }
  }

  lemma NoteConsumedKeepsControl(w: World)
    requires Control(w) && w.consumer == Iterating && w.queue != [] && w.queue[0].Note?
    requires OnlyNotes(w.queue) ==> OnlyNotes(w.queue[1..])
    ensures Control(ConsumeStep(w))
  {
    hide OnlyNotes;
  }

  lemma FailureConsumedKeepsControl(w: World)
    requires Control(w) && w.consumer == Iterating && w.queue != [] && w.queue[0].Failure?
    requires !OnlyNotes(w.queue)
    ensures Control(ConsumeStep(w))
  {
    hide OnlyNotes;
  }

  lemma EndConsumedKeepsControl(w: World)
    requires Control(w) && w.consumer == Iterating && w.queue != [] && w.queue[0].End?
    requires !OnlyNotes(w.queue)
    ensures Control(ConsumeStep(w))
  {
    hide OnlyNotes;
  }

  lemma AttachedKeepsControl(w: World)
    requires Control(w)
    ensures Control(ConsumerAttachedStep(w))
  {
  }

  lemma BootstrapKeepsControl(w: World)
    requires Control(w)
    ensures Control(BootstrapTaskStep(w))
  {
    hide OnlyNotes, ToView;
    if w.bootstrap.Listing? && w.bootstrap.request.Arrived? && w.bootstrap.request.next == None {
      EndPassKeepsControl(w, w.bootstrap.request.items);
    }
  }

  lemma EndPassKeepsControl(w: World, items: seq<LeaseListItem>)
    requires Control(w) && w.bootstrap.Listing?
    ensures Control(EndPass(w, items))
  {
    hide OnlyNotes, ToView;
  }

  // ----- Data: every event keeps it -----

  lemma {:induction false} NotifiesConcat(a: seq<Message>, b: seq<Message>)
    ensures Notifies(a + b) == Notifies(a) + Notifies(b)
  {
    if a == [] {
      assert a + b == b;
    } else {
      assert (a + b)[1..] == a[1..] + b;
      NotifiesConcat(a[1..], b);
    }
  }

  /** Events that move neither the channel nor the broker, and neither extend a pass nor
      revive one. */
  lemma QuietKeepsData(w: World, w': World)
    requires Data(w)
    requires w'.channel == w.channel && w'.history == w.history && w'.passes == w.passes
    requires w'.bootstrap == w.bootstrap || !w'.bootstrap.Listing?
    requires Unraced(w') ==> Unraced(w)
    requires Trusted(w') ==>
      && Trusted(w) && w'.observer.view == w.observer.view
      && w'.observer.notifications == w.observer.notifications && w'.builtNotifications == w.builtNotifications
    ensures Data(w')
  {
    forall i | 0 <= i < |w'.channel| && Awaited(w', w'.channel[i])
      ensures PageInv(w', i)
    {
      assert PageInv(w, i);
    }
  }

  lemma BeginPassKeepsData(w: World)
    requires Data(w) && (Trusted(BeginPass(w)) ==> Trusted(w))
    ensures Data(BeginPass(w))
  {
    var w' := BeginPass(w);
    assert forall i :: 0 <= i < |w'.channel| ==> !Awaited(w', w'.channel[i]);
  }

  lemma ContinuePassKeepsData(w: World)
    requires Data(w) && w.bootstrap.Listing? && w.bootstrap.request.Arrived? && w.bootstrap.request.next.Some?
    ensures Data(BootstrapTaskStep(w))
  {
    NothingAwaited(w);
    var w' := BootstrapTaskStep(w);
    assert forall i :: 0 <= i < |w.channel| ==> w'.channel[i] == w.channel[i] && !Awaited(w', w'.channel[i]);
  }

  lemma NothingAwaited(w: World)
    requires Pages(w) && w.bootstrap.Listing? && w.bootstrap.request != Answered
    ensures forall i :: 0 <= i < |w.channel| ==> !Awaited(w, w.channel[i])
  {
    assert forall i :: 0 <= i < |w.channel| && Awaited(w, w.channel[i]) ==> PageInv(w, i);
  }

  lemma EndPassKeepsData(w: World)
    requires Data(w) && w.bootstrap.Listing? && w.bootstrap.request.Arrived? && w.bootstrap.request.next == None
    ensures Data(EndPass(w, w.bootstrap.request.items))
  {
    var w' := EndPass(w, w.bootstrap.request.items);
    assert Trusted(w') && !Raced(w.observer, w.bootstrap.generation, w.bootstrap.notifications) ==> Unraced(w);
    assert Unraced(w) ==> w.bootstrap.listed + w.bootstrap.request.items == w.history[Reported(w)];
  }

  lemma BootstrapKeepsData(w: World)
    requires Control(w) && Data(w)
    ensures Data(BootstrapTaskStep(w))
  {
    hide Pages, PassInv, ViewInv, OnlyNotes;
    var w' := BootstrapTaskStep(w);
    if w.bootstrap.Listing? && w.bootstrap.request.Arrived? {
      if w.bootstrap.request.next.Some? {
        ContinuePassKeepsData(w);
      } else {
        EndPassKeepsData(w);
      }
    } else if w'.bootstrap.Listing? && !w.bootstrap.Listing? {
      var before := if w.bootstrap == Parked || w.bootstrap.AwaitingSubscription?
                    then w.(observer := EnterBootstrap(w.observer)) else w;
      QuietKeepsData(w, before);
      BeginPassKeepsData(before);
      assert w' == BeginPass(before);
    } else {
      QuietBootstrapKeepsData(w);
    }
  }

  lemma QuietBootstrapKeepsData(w: World)
    requires Control(w) && Data(w)
    requires w.bootstrap.Listing? ==> !w.bootstrap.request.Arrived?
    requires BootstrapTaskStep(w).bootstrap.Listing? ==> w.bootstrap.Listing?
    ensures Data(BootstrapTaskStep(w))
  {
    hide Pages, PassInv, ViewInv, OnlyNotes, ToView;
    QuietKeepsData(w, BootstrapTaskStep(w));
  }

  lemma ChangeKeepsData(w: World, inventory: Inventory, route: string)
    requires Control(w) && Data(w)
    ensures Data(ChangeStep(w, inventory, route))
  {
    var w' := ChangeStep(w, inventory, route);
    NotifiesConcat(w.channel, [Notify(route)]);
    forall i | 0 <= i < |w'.channel| && Awaited(w', w'.channel[i])
      ensures PageInv(w', i)
    {
      assert i < |w.channel| && Awaited(w, w.channel[i]) && PageInv(w, i);
      if w.wireSubscribed {
        assert w'.channel[i..] == w.channel[i..] + [Notify(route)];
        NotifiesConcat(w.channel[i..], [Notify(route)]);
      }
    }
  }

  lemma PageFits(inventory: Inventory, offset: nat, size: nat)
    ensures var page := PageOf(inventory, offset, size); Fits(inventory, offset, page.0, page.1)
  {
    if offset <= |inventory| {
      if offset + size < |inventory| {
        assert inventory[..offset] + inventory[offset..offset + size] == inventory[..offset + size];
      } else {
        assert inventory[..offset] + inventory[offset..] == inventory;
      }
    }
  }

  lemma AnswerKeepsData(w: World, size: nat)
    requires Control(w) && Data(w)
    ensures Data(AnswerStep(w, size))
  {
    if w.bootstrap.Listing? && w.bootstrap.request == Asked {
      var w' := AnswerStep(w, size);
      var n := |w.channel|;
      PageFits(w.history[|w.history| - 1], w.bootstrap.offset, size);
      NotifiesConcat(w.channel, [w'.channel[n]]);
      assert w'.channel[n..] == [w'.channel[n]];
      NothingAwaited(w);
      assert forall i :: 0 <= i < |w.channel| ==> w'.channel[i] == w.channel[i] && !Awaited(w', w'.channel[i]);
      assert PageInv(w', n);
    }
  }

  lemma AckKeepsData(w: World)
    requires Data(w)
    ensures Data(w.(wireSubscribed := true, channel := w.channel + [SubscribeAck]))
  {
    var w' := w.(wireSubscribed := true, channel := w.channel + [SubscribeAck]);
    NotifiesConcat(w.channel, [SubscribeAck]);
    assert forall i :: 0 <= i < |w.channel| ==> w'.channel[i] == w.channel[i];
    forall i | 0 <= i < |w'.channel| && Awaited(w', w'.channel[i])
      ensures PageInv(w', i)
    {
      assert i < |w.channel| && Awaited(w, w.channel[i]) && PageInv(w, i);
      assert w'.channel[i..] == w.channel[i..] + [SubscribeAck];
      NotifiesConcat(w.channel[i..], [SubscribeAck]);
    }
    hide Fits, PassInv, ToView;
  }

  /** A delivered notification is counted by an attached observer, so it races every pass,
      clears readiness of a steady view and adds one to the lag of another ready one. */
  lemma PushIsCounted(w: World, route: string)
    requires Control(w)
    ensures !Unraced(Push(w, route))
    ensures var w' := Push(w, route);
      && w'.channel == w.channel && w'.history == w.history && w'.passes == w.passes && w'.bootstrap == w.bootstrap
      && (Trusted(w') ==>
            && Trusted(w) && w'.observer.view == w.observer.view && w'.builtNotifications == w.builtNotifications
            && w'.observer.notifications == w.observer.notifications + 1)
  {
    hide OnlyNotes;
  }

  lemma NotifyKeepsPages(w: World, w': World)
    requires Pages(w) && w.channel != [] && w'.channel == w.channel[1..]
    requires w'.history == w.history && w'.passes == w.passes && w'.bootstrap == w.bootstrap && !Unraced(w')
    ensures Pages(w')
  {
    assert forall i :: 0 <= i < |w'.channel| ==> w'.channel[i] == w.channel[i + 1];
    forall i | 0 <= i < |w'.channel| && Awaited(w', w'.channel[i])
      ensures PageInv(w', i)
    {
      assert Awaited(w, w.channel[i + 1]) && PageInv(w, i + 1);
    }
  }

  lemma NotifyKeepsData(w: World)
    requires Control(w) && Data(w) && w.channel != [] && w.channel[0].Notify?
    ensures Data(ReceiveStep(w))
  {
    var popped := w.(channel := w.channel[1..]);
    var w' := Push(popped, w.channel[0].route);
    assert Control(popped);
    hide Control;
    PushIsCounted(popped, w.channel[0].route);
    NotifyKeepsPages(w, w');
    assert ReceiveStep(w) == w';
    assert Notifies(w.channel) == 1 + Notifies(w'.channel);
    assert Trusted(w') ==> Trusted(w) && Shown(w') == Shown(w);
    hide Pages, Push;
  }

  /** Dropping a message that is not a notification. */
  lemma PopKeepsData(w: World)
    requires Data(w) && w.channel != [] && !w.channel[0].Notify? && !Awaited(w, w.channel[0])
    ensures Data(w.(channel := w.channel[1..]))
  {
    var w' := w.(channel := w.channel[1..]);
    forall i | 0 <= i < |w'.channel| && Awaited(w', w'.channel[i])
      ensures PageInv(w', i)
    {
      assert Awaited(w, w.channel[i + 1]) && PageInv(w, i + 1);
      assert w'.channel[i..] == w.channel[i + 1..];
    }
    assert forall i, j :: 0 <= i < j < |w'.channel| && Awaited(w', w'.channel[i]) ==>
      w'.channel[i] == w.channel[i + 1] && w'.channel[j] == w.channel[j + 1];
  }

  lemma PageArrives(w: World)
    requires Data(w) && w.channel != [] && Awaited(w, w.channel[0])
    ensures Data(ReceiveStep(w))
  {
    var w' := ReceiveStep(w);
    assert PageInv(w, 0);
    assert w.channel[0..] == w.channel;
    forall i | 0 <= i < |w'.channel|
      ensures !Awaited(w', w'.channel[i])
    {
      assert w'.channel[i] == w.channel[i + 1];
    }
  }

  lemma ReceiveKeepsData(w: World)
    requires Control(w) && Data(w)
    ensures Data(ReceiveStep(w))
  {
    if w.channel != [] {
      if w.channel[0].Notify? {
        NotifyKeepsData(w);
      } else if Awaited(w, w.channel[0]) {
        PageArrives(w);
      } else {
        var popped := w.(channel := w.channel[1..]);
        PopKeepsData(w);
        hide Pages, PassInv, ViewInv;
        if w.channel[0].SubscribeAck? {
          QuietKeepsData(popped, Attach(popped));
        }
      }
    }
  }

  lemma DisconnectKeepsData(w: World)
    requires Data(w)
    ensures Data(DisconnectStep(w))
  {
  }

  lemma ConsumerEventKeepsData(w: World, e: Event)
    requires Control(w) && Data(w)
    requires e.ConsumerStep? || e.OldClosed? || e.ConsumerAttached?
    ensures Data(Apply(w, e))
  {
    hide Pages, PassInv, ViewInv, OnlyNotes;
    QuietKeepsData(w, Apply(w, e));
  }

  lemma TaskEventKeepsData(w: World, e: Event)
    requires Control(w) && Data(w)
    requires e.PassFails? || e.ReconcileTick? || e.Close?
    ensures Data(Apply(w, e))
  {
    hide Pages, PassInv, ViewInv, OnlyNotes;
    QuietKeepsData(w, Apply(w, e));
  }

  lemma DataKept(w: World, e: Event)
    requires Control(w) && Data(w)
    ensures Data(Apply(w, e))
  {
    hide Pages, PassInv, ViewInv, OnlyNotes;
    match e {
      case Change(inventory, route) => ChangeKeepsData(w, inventory, route);
      case Answer(size) => AnswerKeepsData(w, size);
      case WireSubscribe => AckKeepsData(w);
      case Disconnect => DisconnectKeepsData(w);
      case Receive => ReceiveKeepsData(w);
      case BootstrapStep => BootstrapKeepsData(w);
      case ConsumerStep => ConsumerEventKeepsData(w, e);
      case OldClosed => ConsumerEventKeepsData(w, e);
      case ConsumerAttached => ConsumerEventKeepsData(w, e);
      case PassFails => TaskEventKeepsData(w, e);
      case ReconcileTick => TaskEventKeepsData(w, e);
      case Close => TaskEventKeepsData(w, e);
      case _ => QuietKeepsData(w, Apply(w, e));
    }
  }

  // ----- Over whole runs -----

  lemma {:induction false} RunKeepsInv(inventory: Inventory, capacity: nat, es: seq<Event>)
    ensures Inv(Run(Init(inventory, capacity), es))
  {
    if es != [] {
      var w, e := Run(Init(inventory, capacity), es[..|es| - 1]), es[|es| - 1];
      RunKeepsInv(inventory, capacity, es[..|es| - 1]);
      hide Control, Data;
      ControlKept(w, e);
      DataKept(w, e);
    }
  }

  ghost predicate Reachable(w: World) {
    exists inventory, capacity, es :: Run(Init(inventory, capacity), es) == w
  }

  lemma ReachableKeepsInv(w: World)
    requires Reachable(w)
    ensures Inv(w)
  {
    var inventory, capacity, es :| Run(Init(inventory, capacity), es) == w;
    RunKeepsInv(inventory, capacity, es);
  }

  /** End to end: in every reachable state in which the observer is ready, its subscription
      is attached and its reconnect handler has run for this broker session, the view is an
      inventory the broker has had: the one as of the last delivered notification, less as
      many as have been counted since the LIST pass that built the view.  None have been when
      the observer is steady, so then a view that is not the current inventory has a
      notification still undelivered. */
  lemma ViewIsTheReportedInventory(w: World)
    requires Reachable(w)
    ensures w.observer.ready && w.synced && w.subscription == Open ==>
        && 0 <= Shown(w) <= Reported(w) < |w.history|
        && w.observer.view == ToView(w.history[Shown(w)])
        && (w.observer.mode == Steady ==> Shown(w) == Reported(w))
        && (w.observer.mode == Steady && Notifies(w.channel) == 0 ==>
              w.observer.view == ToView(w.history[|w.history| - 1]))
  {
    hide Reachable;
    ReachableKeepsInv(w);
    hide Pages, PassInv, Tasks, NoLostWakeUp, Wire, Generations, ToView;
  }

  /** Freshness: in every reachable state in which the observer is ready and steady, the
      subscription is attached or was ended by a permanent close, and neither counter has
      moved since the start of the LIST pass that built the view. */
  lemma ReadyAndSteadyIsFresh(w: World)
    requires Reachable(w)
    ensures w.observer.ready && w.observer.mode == Steady ==>
        && w.observer.subscriptionReady
        && (w.subscription == Open || w.subscription == Ended)
        && w.observer.notifications == w.builtNotifications
        && w.observer.subscriptionGeneration == w.builtGeneration
  {
    ReachableKeepsInv(w);
  }

  /** No lost wake-up: in every reachable state, a bootstrap task parked with nothing to do
      means a ready and steady observer, unless its subscription ended or it is closed; and
      a task waiting unwoken for the subscription means there is none. */
  lemma ParkedMeansReadyAndSteady(w: World)
    requires Reachable(w)
    ensures
      && (w.bootstrap == Parked && !w.observer.invalidate ==>
            (w.observer.ready && w.observer.mode == Steady) || w.consumer == Finished)
      && (w.bootstrap == AwaitingSubscription(false) || w.bootstrap == AwaitingInPass(false) ==>
            !w.observer.subscriptionReady)
  {
    ReachableKeepsInv(w);
  }

  // ----- Readiness alone is not freshness -----

  const HELD := LeaseListItem("lease://r/a/b", "owner", 1, "now", 60, 0)

  const STALE_RUN: seq<Event> :=
    [ConsumerAttached, BootstrapStep, ReconcileTick, Answer(1), Receive, BootstrapStep,
     BootstrapStep, Change([HELD], HELD.route), Receive]

  /** A tick during a pass schedules another one; that pass enters buffering without
      clearing readiness, and a change delivered then leaves the observer ready with a view
      that differs from the inventory although nothing is undelivered. */
  lemma ReadyAloneIsNotFresh()
    ensures var w := Run(Init([], 4), STALE_RUN);
      && w.observer.ready && w.synced && w.subscription == Open && w.channel == []
      && w.history == [[], [HELD]] && w.observer.view != ToView([HELD])
  {
    var es, w := STALE_RUN, Init([], 4);
    SecondPassBuffers();
    RunTakes(w, es, 7);
    RunTakes(w, es, 8);
    assert es[..9] == es;
    hide Run;
    assert HELD.route in ToView([HELD]);
  }

  lemma SecondPassBuffers()
    ensures var w := Run(Init([], 4), STALE_RUN[..7]);
      && w == Init([], 4).(observer := w.observer, bootstrap := w.bootstrap, consumer := Iterating,
                           passes := w.passes, builtGeneration := 1)
      && w.observer == Observer(map[], true, false, Buffering, [], 0, false, true, 1)
  {
    FirstPassInstalls();
    RunTakes(Init([], 4), STALE_RUN, 6);
  }

  lemma FirstPassAsks()
    ensures var w := Run(Init([], 4), STALE_RUN[..3]);
      && w == Init([], 4).(observer := w.observer, bootstrap := Listing(0, 1, 0, [], 0, Asked),
                           consumer := Iterating, passes := 1)
      && w.observer == Observer(map[], false, false, Buffering, [], 0, true, true, 1)
  {
    var es, w := STALE_RUN, Init([], 4);
    RunTakes(w, es, 0);
    RunTakes(w, es, 1);
    RunTakes(w, es, 2);
  }

  lemma FirstPassIsAnswered()
    ensures var w := Run(Init([], 4), STALE_RUN[..4]);
      && w == Init([], 4).(observer := w.observer, bootstrap := Listing(0, 1, 0, [], 0, Answered),
                           consumer := Iterating, passes := 1, channel := [Page(0, [], None, 0)])
      && w.observer == Observer(map[], false, false, Buffering, [], 0, true, true, 1)
  {
    FirstPassAsks();
    RunTakes(Init([], 4), STALE_RUN, 3);
    var asked := Run(Init([], 4), STALE_RUN[..3]);
    hide Run;
    assert PageOf(asked.history[0], 0, 1) == ([], None);
    assert AnswerStep(asked, 1).channel == [Page(0, [], None, 0)];
  }

  lemma FirstPassHears()
    ensures var w := Run(Init([], 4), STALE_RUN[..5]);
      && w == Init([], 4).(observer := w.observer, bootstrap := Listing(0, 1, 0, [], 0, Arrived([], None, 0)),
                           consumer := Iterating, passes := 1)
      && w.observer == Observer(map[], false, false, Buffering, [], 0, true, true, 1)
  {
    FirstPassIsAnswered();
    RunTakes(Init([], 4), STALE_RUN, 4);
    hide Run;
  }

  lemma FirstPassInstalls()
    ensures var w := Run(Init([], 4), STALE_RUN[..6]);
      && w == Init([], 4).(observer := w.observer, bootstrap := Parked, consumer := Iterating,
                           passes := 1, builtGeneration := 1)
      && w.observer == Observer(map[], true, false, Steady, [], 0, true, true, 1)
  {
    FirstPassHears();
    RunTakes(Init([], 4), STALE_RUN, 5);
    hide Run;
  }

  lemma RunTakes(w: World, es: seq<Event>, n: nat)
    requires n < |es|
    ensures Run(w, es[..n + 1]) == Apply(Run(w, es[..n]), es[n])
    ensures n == 0 ==> Run(w, es[..n]) == w
  {
    assert es[..n + 1][..n] == es[..n];
  }
}
