/** The lease observer gets there: a LIST pass that nothing disturbs installs what it listed,
    and an attached observer can always become ready with the current inventory. */
module ObserverProgress {
  import opened Options
  import opened LeaseObservers
  import opened LeaseObserverRuns

  lemma RunUnfolds(w: World, es: seq<Event>, e: Event)
    ensures Run(w, es + [e]) == Apply(Run(w, es), e)
  {
    assert (es + [e])[..|es|] == es;
  }

  lemma {:induction false} RunAppends(w: World, es: seq<Event>, fs: seq<Event>)
    ensures Run(w, es + fs) == Run(Run(w, es), fs)
    decreases |fs|
  {
    if fs == [] {
      assert es + fs == es;
    } else {
      assert (es + fs)[..|es + fs| - 1] == es + fs[..|fs| - 1];
      RunAppends(w, es, fs[..|fs| - 1]);
    }
  }

  lemma RunOfOne(w: World, e: Event)
    ensures Run(w, [e]) == Apply(w, e)
  {
    assert [e][..0] == [] && Run(w, []) == w;
  }

  lemma {:induction false} RunGoesOn(w: World, es: seq<Event>)
    requires Inv(w)
    ensures Inv(Run(w, es))
    decreases |es|
  {
    if es != [] {
      RunGoesOn(w, es[..|es| - 1]);
      hide Control, Data;
      ControlKept(Run(w, es[..|es| - 1]), es[|es| - 1]);
      DataKept(Run(w, es[..|es| - 1]), es[|es| - 1]);
    }
  }

  // ----- An undisturbed pass -----

  /** Neither counter has moved since the pass began, the subscription is there, and nothing
      is buffered. */
  predicate Undisturbed(w: World, pass: nat) {
    && w.bootstrap.Listing? && w.bootstrap.pass == pass
    && w.observer.subscriptionReady && w.observer.buffer == []
    && w.observer.subscriptionGeneration == w.bootstrap.generation
    && w.observer.notifications == w.bootstrap.notifications
  }

  /** The event disturbs a pass: a notification comes in or is consumed, the subscription
      fails, ends or is replaced, the reconnect handler runs, the pass fails, or the observer
      is closed. */
  predicate Disturbs(w: World, e: Event) {
    || (e.Receive? && w.channel != [] && w.channel[0].Notify?)
    || e.ConsumerStep? || e.ConsumerAttached? || e.BreakSubscription? || e.ReconnectHandler? || e.PassFails? || e.Close?
  }

  predicate NothingDisturbs(w: World, es: seq<Event>) {
    es == [] || (NothingDisturbs(w, es[..|es| - 1]) && !Disturbs(Run(w, es[..|es| - 1]), es[|es| - 1]))
  }

  lemma UndisturbedStep(w: World, e: Event, pass: nat)
    requires pass < w.passes && !Disturbs(w, e)
    requires w.bootstrap.Listing? && w.bootstrap.pass == pass ==> Undisturbed(w, pass)
    ensures pass < Apply(w, e).passes
    ensures Apply(w, e).bootstrap.Listing? && Apply(w, e).bootstrap.pass == pass ==> Undisturbed(Apply(w, e), pass)
  {
    match e {
      case Receive => DeliveryDisturbsNone(w, pass);
      case BootstrapStep => LoopDisturbsNone(w, pass);
      case _ =>
    }
    hide ReceiveStep, BootstrapTaskStep;
  }

  lemma DeliveryDisturbsNone(w: World, pass: nat)
    requires w.channel != [] ==> !w.channel[0].Notify?
    requires w.bootstrap.Listing? && w.bootstrap.pass == pass ==> Undisturbed(w, pass)
    ensures var d := ReceiveStep(w);
      d.passes == w.passes && (d.bootstrap.Listing? && d.bootstrap.pass == pass ==> Undisturbed(d, pass))
  {
  }

  lemma LoopDisturbsNone(w: World, pass: nat)
    requires pass < w.passes
    requires w.bootstrap.Listing? && w.bootstrap.pass == pass ==> Undisturbed(w, pass)
    ensures var d := BootstrapTaskStep(w);
      w.passes <= d.passes && (d.bootstrap.Listing? && d.bootstrap.pass == pass ==> Undisturbed(d, pass))
  {
    hide ToView;
  }

  lemma {:induction false} UndisturbedStays(w: World, es: seq<Event>, pass: nat)
    requires Inv(w) && Undisturbed(w, pass) && NothingDisturbs(w, es)
    ensures var d := Run(w, es);
      Inv(d) && pass < d.passes && (d.bootstrap.Listing? && d.bootstrap.pass == pass ==> Undisturbed(d, pass))
    decreases |es|
  {
    RunGoesOn(w, es);
    if es != [] {
      UndisturbedStays(w, es[..|es| - 1], pass);
      hide Apply, Data, Undisturbed, Disturbs, Tasks, Freshness, NoLostWakeUp, Wire;
      UndisturbedStep(Run(w, es[..|es| - 1]), es[|es| - 1], pass);
    }
  }

  /** An undisturbed pass ends with its last page: the observer is then ready and steady with
      the view of everything listed, and the loop is parked. */
  lemma LastPageInstalls(w: World, pass: nat)
    requires Undisturbed(w, pass) && w.bootstrap.request.Arrived? && w.bootstrap.request.next == None
    ensures var d := Apply(w, BootstrapStep);
      && d.observer.ready && d.observer.mode == Steady && d.bootstrap == Parked
      && d.observer.view == ToView(w.bootstrap.listed + w.bootstrap.request.items)
      && d.history == w.history && d.channel == w.channel && d.synced == w.synced && d.subscription == w.subscription
  {
    hide ToView;
  }

  /** Whatever else happens meanwhile, as long as no notification comes in or is consumed, and
      no failure, end, replacement, reconnect or close does: when the last page of the pass
      has arrived, the loop's next step makes the observer ready and steady with the view of
      everything listed. */
  lemma UndisturbedPassInstalls(w: World, es: seq<Event>, pass: nat)
    requires Reachable(w) && Undisturbed(w, pass) && NothingDisturbs(w, es)
    requires var d := Run(w, es);
      d.bootstrap.Listing? && d.bootstrap.pass == pass && d.bootstrap.request.Arrived? && d.bootstrap.request.next == None
    ensures var d := Run(w, es);
      var n := Apply(d, BootstrapStep);
      && n.observer.ready && n.observer.mode == Steady && n.bootstrap == Parked
      && n.observer.view == ToView(d.bootstrap.listed + d.bootstrap.request.items)
  {
    ReachableKeepsInv(w);
    UndisturbedStays(w, es, pass);
    hide Run, Apply, Reachable, Inv, Undisturbed, ToView;
    LastPageInstalls(Run(w, es), pass);
  }

  // ----- A pass left to itself -----

  predicate Quiet(e: Event) {
    e.Answer? || e.Receive? || e.BootstrapStep?
  }

  predicate NoNotify(channel: seq<Message>) {
    forall i :: 0 <= i < |channel| ==> !channel[i].Notify?
  }

  lemma {:induction false} NoNotifyCountsNone(channel: seq<Message>)
    requires NoNotify(channel)
    ensures Notifies(channel) == 0
  {
    if channel != [] {
      NoNotifyCountsNone(channel[1..]);
    }
  }

  /** A pass on its own in a quiet world: undisturbed, attached, nothing to be notified of. */
  ghost predicate OnItsOwn(w: World, pass: nat) {
    Inv(w) && Undisturbed(w, pass) && w.synced && w.subscription == Open && NoNotify(w.channel)
  }

  lemma QuietStep(w: World, e: Event, pass: nat)
    requires OnItsOwn(w, pass) && Quiet(e)
    ensures var d := Apply(w, e);
      && Inv(d) && d.synced && d.subscription == Open && NoNotify(d.channel) && d.history == w.history
      && !Disturbs(w, e)
  {
    ControlKept(w, e);
    DataKept(w, e);
    hide Control, Data, ToView;
  }

  /** Left to itself, with nothing but answers, deliveries and its own steps, a pass that ends
      ends ready and steady with the broker's current inventory. */
  lemma QuietPassIsCurrent(w: World, e: Event, pass: nat)
    requires OnItsOwn(w, pass) && Quiet(e)
    ensures var d := Apply(w, e);
      d.history == w.history &&
      (OnItsOwn(d, pass) ||
       (d.observer.ready && d.observer.mode == Steady && d.bootstrap == Parked
        && d.observer.view == ToView(w.history[|w.history| - 1])))
  {
    var d := Apply(w, e);
    QuietStep(w, e, pass);
    hide Control, Data;
    if e.BootstrapStep? && w.bootstrap.request.Arrived? && w.bootstrap.request.next == None {
      LastPageInstalls(w, pass);
      InstalledIsCurrent(d);
      hide Apply, Undisturbed;
    } else {
      assert Undisturbed(d, pass);
    }
  }

  lemma InstalledIsCurrent(w: World)
    requires Inv(w) && w.observer.ready && w.observer.mode == Steady && w.synced && w.subscription == Open
    requires NoNotify(w.channel)
    ensures w.history != [] && w.observer.view == ToView(w.history[|w.history| - 1])
  {
    NoNotifyCountsNone(w.channel);
    hide Pages, PassInv, ToView, Notifies, NoNotify;
  }

  /** Quiet events, up to the end of the pass. */
  predicate QuietRun(w: World, es: seq<Event>, pass: nat) {
    es == [] ||
      var earlier := es[..|es| - 1];
      && QuietRun(w, earlier, pass) && Quiet(es[|es| - 1])
      && Run(w, earlier).bootstrap.Listing? && Run(w, earlier).bootstrap.pass == pass
  }

  ghost predicate Current(w: World) {
    && w.observer.ready && w.observer.mode == Steady && w.bootstrap == Parked && w.history != []
    && w.observer.view == ToView(w.history[|w.history| - 1])
  }

  /** The same over whole runs: as long as the pass is under way it stays on its own, and it
      ends with the current inventory. */
  lemma {:induction false} QuietRunIsCurrent(w: World, es: seq<Event>, pass: nat)
    requires OnItsOwn(w, pass) && QuietRun(w, es, pass)
    ensures Run(w, es).history == w.history
    ensures Run(w, es).bootstrap.Listing? && Run(w, es).bootstrap.pass == pass ==> OnItsOwn(Run(w, es), pass)
    ensures !(Run(w, es).bootstrap.Listing? && Run(w, es).bootstrap.pass == pass) ==> Current(Run(w, es))
    decreases |es|
  {
    if es != [] {
      QuietRunIsCurrent(w, es[..|es| - 1], pass);
      hide Apply, ToView, Inv, Undisturbed, NoNotify;
      QuietPassIsCurrent(Run(w, es[..|es| - 1]), es[|es| - 1], pass);
    }
  }

  // ----- An attached observer can always become ready -----

  /** The pages of one LIST request arrive: the broker answers it whole, everything on the
      channel is delivered, and the loop takes the last page. */
  lemma {:induction false} ChannelDrains(w: World, pass: nat) returns (es: seq<Event>)
    requires OnItsOwn(w, pass) && w.bootstrap.request == Answered && w.channel != []
    requires w.channel[|w.channel| - 1].Page? && w.channel[|w.channel| - 1].pass == pass
    requires w.channel[|w.channel| - 1].next == None
    ensures QuietRun(w, es, pass) && OnItsOwn(Run(w, es), pass)
    ensures Run(w, es).bootstrap.request.Arrived? && Run(w, es).bootstrap.request.next == None
    decreases |w.channel|
  {
    var d := Apply(w, Receive);
    QuietPassIsCurrent(w, Receive, pass);
    RunOfOne(w, Receive);
    assert Run(w, []) == w;
    if |w.channel| == 1 {
      es := [Receive];
      assert es[..0] == [];
      hide Inv;
    } else {
      NotTheLast(w, pass);
      var rest := ChannelDrains(d, pass);
      es := [Receive] + rest;
      hide Apply, OnItsOwn;
      RunAppends(w, [Receive], rest);
      QuietAppends(w, [Receive], rest, pass);
    }
  }

  lemma NotTheLast(w: World, pass: nat)
    requires OnItsOwn(w, pass) && w.bootstrap.request == Answered && |w.channel| > 1
    requires w.channel[|w.channel| - 1].Page? && w.channel[|w.channel| - 1].pass == pass
    ensures var d := Apply(w, Receive);
      && d.channel == w.channel[1..] && d.bootstrap == w.bootstrap && OnItsOwn(d, pass)
  {
    var n := |w.channel| - 1;
    assert Awaited(w, w.channel[n]);
    assert 0 < n && !Awaited(w, w.channel[0]);
    QuietStep(w, Receive, pass);
    hide Control, PassInv, ViewInv, Counted;
  }

  lemma QuietUnfolds(w: World, es: seq<Event>, e: Event, pass: nat)
    requires QuietRun(w, es, pass) && OngoingAt(Run(w, es), pass) && Quiet(e)
    ensures QuietRun(w, es + [e], pass)
  {
    assert (es + [e])[..|es|] == es;
  }

  lemma QuietOne(w: World, e: Event, pass: nat)
    requires OngoingAt(w, pass) && Quiet(e)
    ensures QuietRun(w, [e], pass)
  {
    assert Run(w, []) == w && [e][..0] == [];
  }

  lemma {:induction false} QuietAppends(w: World, es: seq<Event>, fs: seq<Event>, pass: nat)
    requires QuietRun(w, es, pass) && QuietRun(Run(w, es), fs, pass)
    ensures QuietRun(w, es + fs, pass)
    decreases |fs|
  {
    if fs == [] {
      assert es + fs == es;
    } else {
      var front := fs[..|fs| - 1];
      QuietAppends(w, es, front, pass);
      RunAppends(w, es, front);
      assert (es + fs)[..|es + fs| - 1] == es + front;
    }
  }

  /** A pass that has just asked for a page completes. */
  lemma PassCompletes(w: World, pass: nat) returns (es: seq<Event>)
    requires OnItsOwn(w, pass) && w.bootstrap.request == Asked
    ensures QuietRun(w, es, pass) && Current(Run(w, es)) && Run(w, es).history == w.history
  {
    var answer := Answer(|w.history[|w.history| - 1]|);
    var a := Apply(w, answer);
    AnswersWhole(w, pass);
    RunOfOne(w, answer);
    QuietOne(w, answer, pass);
    var drain := ChannelDrains(a, pass);
    var last := Run(a, drain);
    LastStepCompletes(last, pass);
    hide Apply, OnItsOwn, Current, QuietRun, Run;
    RunAppends(w, [answer], drain);
    QuietAppends(w, [answer], drain, pass);
    RunUnfolds(w, [answer] + drain, BootstrapStep);
    QuietUnfolds(w, [answer] + drain, BootstrapStep, pass);
    es := [answer] + drain + [BootstrapStep];
    QuietRunIsCurrent(w, es, pass);
  }

  predicate OngoingAt(w: World, pass: nat) {
    w.bootstrap.Listing? && w.bootstrap.pass == pass
  }

  lemma LastStepCompletes(w: World, pass: nat)
    requires OnItsOwn(w, pass) && w.bootstrap.request.Arrived? && w.bootstrap.request.next == None
    ensures !OngoingAt(Apply(w, BootstrapStep), pass) && OngoingAt(w, pass)
  {
    LastPageInstalls(w, pass);
  }

  lemma AnswersWhole(w: World, pass: nat)
    requires OnItsOwn(w, pass) && w.bootstrap.request == Asked
    ensures w.history != []
    ensures var a := Apply(w, Answer(|w.history[|w.history| - 1]|));
      && OnItsOwn(a, pass) && a.history == w.history && a.bootstrap.request == Answered && a.channel != []
      && a.channel[|a.channel| - 1].Page? && a.channel[|a.channel| - 1].pass == pass
      && a.channel[|a.channel| - 1].next == None
  {
    QuietStep(w, Answer(|w.history[|w.history| - 1]|), pass);
    hide Control, Pages, PassInv, ViewInv;
  }

  /** Attached and past the reconnect handler, with its tasks at work. */
  ghost predicate Working(w: World) {
    && Inv(w) && !w.observer.closed && w.bootstrap != Stopped
    && w.subscription == Open && w.consumer == Iterating && w.observer.subscriptionReady && w.synced && 1 <= w.capacity
  }

  /** The loop stops only when the observer is closed. */
  lemma {:induction false} StoppedOnlyWhenClosed(inventory: Inventory, capacity: nat, es: seq<Event>)
    ensures var w := Run(Init(inventory, capacity), es); w.bootstrap == Stopped ==> w.observer.closed
    decreases |es|
  {
    if es != [] {
      StoppedOnlyWhenClosed(inventory, capacity, es[..|es| - 1]);
      StoppedStep(Run(Init(inventory, capacity), es[..|es| - 1]), es[|es| - 1]);
      hide Apply;
    }
  }

  lemma StoppedStep(w: World, e: Event)
    requires w.bootstrap == Stopped ==> w.observer.closed
    ensures Apply(w, e).bootstrap == Stopped ==> Apply(w, e).observer.closed
  {
    if e.Receive? || e.BreakSubscription? {
      DeliveryKeepsClosed(w);
      hide ReceiveStep, Break;
    }
    hide ToView;
  }

  lemma DeliveryKeepsClosed(w: World)
    ensures ReceiveStep(w).bootstrap == Stopped ==> w.bootstrap == Stopped
    ensures ReceiveStep(w).observer.closed == w.observer.closed
    ensures Break(w).bootstrap == w.bootstrap && Break(w).observer.closed == w.observer.closed
  {
  }

  /** The world after the step, as long as nobody takes the observer down. */
  ghost predicate StillWorking(w: World, d: World) {
    Working(d) && d.history == w.history
  }

  lemma ConsumerWorks(w: World)
    requires Working(w) && w.queue != []
    ensures StillWorking(w, Apply(w, ConsumerStep))
    ensures Apply(w, ConsumerStep).queue == w.queue[1..] && Apply(w, ConsumerStep).channel == w.channel
  {
    ControlKept(w, ConsumerStep);
    DataKept(w, ConsumerStep);
    assert w.queue[0].Note?;
    hide Data, Freshness, NoLostWakeUp, Wire, Generations;
  }

  lemma ReceiverWorks(w: World)
    requires Working(w) && w.queue == [] && w.channel != []
    ensures StillWorking(w, Apply(w, Receive))
    ensures Apply(w, Receive).channel == w.channel[1..] && |Apply(w, Receive).queue| <= 1
  {
    ControlKept(w, Receive);
    DataKept(w, Receive);
    hide Data, Control;
  }

  /** Everything delivered and consumed. */
  lemma {:induction false} EverythingArrives(w: World) returns (es: seq<Event>)
    requires Working(w)
    ensures var d := Run(w, es); StillWorking(w, d) && d.channel == [] && d.queue == []
    decreases 2 * |w.channel| + |w.queue|
  {
    if w.queue == [] && w.channel == [] {
      es := [];
      assert Run(w, []) == w;
    } else {
      var e := if w.queue != [] then ConsumerStep else Receive;
      if w.queue != [] { ConsumerWorks(w); } else { ReceiverWorks(w); }
      RunOfOne(w, e);
      hide Apply, Working, Run;
      var rest := EverythingArrives(Apply(w, e));
      es := [e] + rest;
      RunAppends(w, [e], rest);
    }
  }

  /** The loop runs once more, or its pass fails. */
  lemma LoopWorks(w: World, e: Event)
    requires Working(w) && w.channel == [] && w.queue == [] && (e.BootstrapStep? || e.PassFails?)
    ensures var d := Apply(w, e); StillWorking(w, d) && d.channel == [] && d.queue == []
  {
    ControlKept(w, e);
    DataKept(w, e);
    hide Data, Control, ToView;
  }

  /** A pass that begins on an empty buffer, and one that would not is given up first. */
  ghost predicate Begun(w: World) {
    w.bootstrap.Listing? && w.bootstrap.request == Asked && OnItsOwn(w, w.bootstrap.pass)
  }

  lemma ParkedBegins(w: World)
    requires Working(w) && w.channel == [] && w.queue == []
    requires (w.bootstrap == Parked && w.observer.invalidate) || w.bootstrap.AwaitingSubscription?
    ensures Begun(Apply(w, BootstrapStep)) && Apply(w, BootstrapStep).history == w.history
  {
    LoopWorks(w, BootstrapStep);
    hide Inv;
  }

  /** From wherever the loop is, a fresh pass begins, unless the view is current already. */
  lemma LoopBegins(w: World) returns (es: seq<Event>)
    requires Working(w) && w.channel == [] && w.queue == []
    ensures Run(w, es).history == w.history && (Begun(Run(w, es)) || Current(Run(w, es)))
    decreases match w.bootstrap
              case Parked => 0
              case AwaitingSubscription(_) => 0
              case RetryingLater => 1
              case Listing(_, _, _, _, _, _) => 2
              case _ => 3
  {
    assert NoNotify(w.channel);
    if w.bootstrap == Parked && !w.observer.invalidate {
      es := [];
      assert Run(w, []) == w;
      InstalledIsCurrent(w);
    } else if w.bootstrap == Parked || w.bootstrap.AwaitingSubscription? {
      ParkedBegins(w);
      RunOfOne(w, BootstrapStep);
      es := [BootstrapStep];
    } else {
      var e := if w.bootstrap.Listing? then PassFails else BootstrapStep;
      LoopWorks(w, e);
      LoopAdvances(w);
      RunOfOne(w, e);
      hide Apply, Working, Run, Begun, Current;
      var rest := LoopBegins(Apply(w, e));
      es := [e] + rest;
      RunAppends(w, [e], rest);
    }
  }

  lemma LoopAdvances(w: World)
    requires Working(w) && w.bootstrap != Parked && !w.bootstrap.AwaitingSubscription?
    ensures w.bootstrap.Listing? ==> Apply(w, PassFails).bootstrap == RetryingLater
    ensures w.bootstrap == RetryingLater ==> Apply(w, BootstrapStep).bootstrap == Parked
    ensures w.bootstrap == BackingOff || w.bootstrap.AwaitingInPass? ==> Apply(w, BootstrapStep).bootstrap.Listing?
  {
    hide Data, Tasks, Freshness, Wire, Generations;
  }

  /** Whatever has happened so far: an observer that is attached and past the reconnect
      handler, and is not closed, can still become ready and steady with the broker's current
      inventory, and without the broker changing anything. */
  lemma AttachedObserverCanBecomeReady(w: World) returns (es: seq<Event>)
    requires Reachable(w) && !w.observer.closed && 1 <= w.capacity
    requires w.subscription == Open && w.consumer == Iterating && w.observer.subscriptionReady && w.synced
    ensures Run(w, es).history == w.history && Current(Run(w, es))
  {
    ReachableKeepsInv(w);
    var inventory, capacity, es0 :| Run(Init(inventory, capacity), es0) == w;
    StoppedOnlyWhenClosed(inventory, capacity, es0);
    var arrive := EverythingArrives(w);
    var a := Run(w, arrive);
    var begin := LoopBegins(a);
    var b := Run(a, begin);
    RunAppends(w, arrive, begin);
    hide Run, Reachable, Working, OnItsOwn;
    if Current(b) {
      es := arrive + begin;
    } else {
      var complete := PassCompletes(b, b.bootstrap.pass);
      es := arrive + begin + complete;
      RunAppends(w, arrive + begin, complete);
    }
  }

  /** A subscription that broke is replaced: the consumer task notices, closes the old one,
      resubscribes and is attached again, so the loop is released and a relist is due. */
  lemma BrokenSubscriptionIsReplaced(w: World)
    requires Reachable(w) && w.subscription == Broken && w.consumer == Iterating
    ensures var d := Apply(Apply(Apply(Apply(Apply(w, ConsumerStep), OldClosed), WireSubscribe), AttachShared),
                           ConsumerAttached);
      && d.subscription == Open && d.consumer == Iterating && d.queue == [] && d.wireSubscribed
      && d.observer.subscriptionReady && d.observer.invalidate && d.history == w.history && d.synced == w.synced
      && d.observer.subscriptionGeneration > w.observer.subscriptionGeneration
      && (w.bootstrap.AwaitingSubscription? ==> d.bootstrap == AwaitingSubscription(true))
      && (w.bootstrap.AwaitingInPass? ==> d.bootstrap == AwaitingInPass(true))
  {
    ReachableKeepsInv(w);
    hide Data, Freshness, NoLostWakeUp, Wire, Generations, Reachable;
    assert w.queue == [Failure];
  }

  // ----- Exactly when the observer is ready, and when a relist is due -----

  /** The task takes the last page of a pass that nothing has disturbed. */
  predicate Installs(w: World, e: Event) {
    && e.BootstrapStep? && w.bootstrap.Listing? && Undisturbed(w, w.bootstrap.pass)
    && w.bootstrap.request.Arrived? && w.bootstrap.request.next == None
  }

  /** A notification is delivered to the subscription. */
  predicate IsNotified(w: World, e: Event) {
    e.Receive? && w.channel != [] && w.channel[0].Notify? && w.subscription == Open
  }

  /** The subscription fails: it breaks, or a notification finds its queue full. */
  predicate Fails(w: World, e: Event) {
    || (e.BreakSubscription? && w.subscription == Open)
    || (IsNotified(w, e) && |w.queue| >= w.capacity)
  }

  /** The consumer task takes something from its queue, or finds at once that its new
      subscription is over. */
  predicate Takes(w: World, e: Event) {
    e.ConsumerStep? && w.consumer == Iterating && w.queue != []
  }

  predicate FindsItOver(w: World, e: Event) {
    e.ConsumerAttached? && w.consumer == Attaching && (w.subscription == Broken || w.subscription == Subscription.Ended)
  }

  predicate HandlesReconnect(w: World, e: Event) {
    e.ReconnectHandler? && (w.subscription != Open || w.wireSubscribed)
  }

  predicate Unreadies(w: World, e: Event) {
    || Fails(w, e) || FindsItOver(w, e) || HandlesReconnect(w, e)
    || (IsNotified(w, e) && w.observer.mode == Steady)
    || (Takes(w, e) && (w.queue[0].Note? ==> w.observer.mode == Steady))
    || (e.PassFails? && w.bootstrap.Listing?)
    || (e.ReconcileTick? && !w.observer.closed)
  }

  /** The observer becomes ready only by installing an undisturbed pass, and stays ready until
      a notification reaches or leaves the queue of a steady observer, the subscription fails
      or ends, the reconnect handler runs, a pass fails, or the reconcile loop ticks. */
  lemma ReadyExactly(w: World, e: Event)
    requires Reachable(w)
    ensures Apply(w, e).observer.ready <==> Installs(w, e) || (w.observer.ready && !Unreadies(w, e))
    ensures Apply(w, e).observer.view != w.observer.view ==> Installs(w, e)
  {
    ReachableKeepsInv(w);
    hide Reachable;
    ReadyStep(w, e);
  }

  lemma ReadyStep(w: World, e: Event)
    requires Control(w)
    ensures Apply(w, e).observer.ready <==> Installs(w, e) || (w.observer.ready && !Unreadies(w, e))
    ensures Apply(w, e).observer.view != w.observer.view ==> Installs(w, e)
  {
    hide ToView, OnlyNotes, NoLostWakeUp, Generations, Wire;
    match e {
      case BootstrapStep => LoopReadies(w);
      case Receive => DeliveryReadies(w);
      case ConsumerStep => ConsumerReadies(w);
      case _ =>
    }
    hide BootstrapTaskStep, ReceiveStep, ConsumeStep;
  }

  lemma ConsumerReadies(w: World)
    requires w.observer.ready ==> w.observer.subscriptionReady
    ensures ConsumeStep(w).observer.ready <==> w.observer.ready && !Unreadies(w, ConsumerStep)
    ensures ConsumeStep(w).observer.view == w.observer.view
  {
    if Takes(w, ConsumerStep) {
      var o := ConsumeStep(w).observer;
      match w.queue[0] {
        case Note(route) => assert o == Consumed(w.observer, route);
        case Failure => assert !o.ready && o.view == w.observer.view;
        case End => assert o == EndedCleanly(w.observer);
      }
    }
    hide ConsumeStep;
  }

  lemma LoopReadies(w: World)
    ensures BootstrapTaskStep(w).observer.ready <==> Installs(w, BootstrapStep) || w.observer.ready
    ensures BootstrapTaskStep(w).observer.view != w.observer.view ==> Installs(w, BootstrapStep)
  {
    if w.bootstrap.Listing? && w.bootstrap.request.Arrived? && w.bootstrap.request.next == None {
      LastPageReadies(w);
    } else {
      OtherStepsReadyNobody(w);
    }
    hide BootstrapTaskStep;
  }

  lemma LastPageReadies(w: World)
    requires w.bootstrap.Listing? && w.bootstrap.request.Arrived? && w.bootstrap.request.next == None
    ensures var o := BootstrapTaskStep(w).observer;
      && (o.ready <==> Undisturbed(w, w.bootstrap.pass) || w.observer.ready)
      && (o.view != w.observer.view ==> Undisturbed(w, w.bootstrap.pass))
  {
    hide ToView;
  }

  lemma OtherStepsReadyNobody(w: World)
    requires !(w.bootstrap.Listing? && w.bootstrap.request.Arrived? && w.bootstrap.request.next == None)
    ensures BootstrapTaskStep(w).observer.ready == w.observer.ready
    ensures BootstrapTaskStep(w).observer.view == w.observer.view
  {
    var o := BootstrapTaskStep(w).observer;
    assert o == w.observer.(invalidate := o.invalidate, mode := o.mode, buffer := o.buffer);
    hide BootstrapTaskStep;
  }

  lemma DeliveryReadies(w: World)
    ensures ReceiveStep(w).observer.ready <==> w.observer.ready && !Unreadies(w, Receive)
    ensures ReceiveStep(w).observer.view == w.observer.view
  {
  }

  /** A relist is due. */
  predicate Invalidates(w: World, e: Event) {
    || Fails(w, e) || HandlesReconnect(w, e)
    || (IsNotified(w, e) && w.observer.mode == Steady)
    || (Takes(w, e) && w.queue[0].Note? && w.observer.mode == Steady)
    || (Takes(w, e) && w.queue[0].Failure? && w.observer.subscriptionReady)
    || (e.ConsumerAttached? && w.consumer == Attaching)
    || (e.BootstrapStep? && w.bootstrap == RetryingLater)
    || (e.ReconcileTick? && !w.observer.closed) || e.Close?
  }

  /** The loop takes notice and goes to work. */
  predicate Notices(w: World, e: Event) {
    && e.BootstrapStep?
    && ((w.bootstrap == Parked && w.observer.invalidate && !w.observer.closed) || w.bootstrap == AwaitingSubscription(true))
  }

  /** A relist becomes due with everything that may have made the view stale or left it
      unbuilt, and stays due until the loop takes notice. */
  lemma RelistIsDueExactly(w: World, e: Event)
    ensures Apply(w, e).observer.invalidate <==> Invalidates(w, e) || (w.observer.invalidate && !Notices(w, e))
  {
    hide ToView;
    match e {
      case BootstrapStep => LoopNotices(w);
      case Receive => DeliveryInvalidates(w);
      case _ =>
    }
    hide BootstrapTaskStep, ReceiveStep;
  }

  lemma LoopNotices(w: World)
    ensures BootstrapTaskStep(w).observer.invalidate
      <==> Invalidates(w, BootstrapStep) || (w.observer.invalidate && !Notices(w, BootstrapStep))
  {
    hide ToView;
  }

  lemma DeliveryInvalidates(w: World)
    ensures ReceiveStep(w).observer.invalidate <==> Invalidates(w, Receive) || w.observer.invalidate
  {
  }

  /** What is consumed while a pass is under way is buffered and disturbs the pass, which then
      ends without installing anything and is repeated. */
  lemma ConsumedItemsDisturb(w: World)
    requires Takes(w, ConsumerStep) && w.queue[0].Note? && w.observer.mode == Buffering
    ensures Apply(w, ConsumerStep).observer.buffer == w.observer.buffer + [w.queue[0].route]
    ensures w.bootstrap.Listing? ==> !Undisturbed(Apply(w, ConsumerStep), w.bootstrap.pass)
  {
  }

  lemma DisturbedPassIsRepeated(w: World)
    requires w.bootstrap.Listing? && !Undisturbed(w, w.bootstrap.pass)
    requires w.bootstrap.request.Arrived? && w.bootstrap.request.next == None
    ensures var d := Apply(w, BootstrapStep);
      && d.bootstrap == BackingOff && d.observer.buffer == [] && d.observer.view == w.observer.view
      && (w.observer.subscriptionReady ==> Apply(d, BootstrapStep).bootstrap.Listing?)
  {
    hide ToView;
  }
}
