/** Runs of the subscription registry: when a consumer sits on a subscription the broker may
    have dropped, and when a registration is left for the broker to serve for ever. */
module SubscriptionRuns {
  import A = AsyncSubscriptions
  import opened SubscriptionRegistries

  lemma RunUnfolds<T(!new)>(r: Registry<T>, es: seq<Event<T>>, e: Event<T>)
    ensures Run(r, es + [e]) == Apply(Run(r, es), e)
  {
    assert (es + [e])[..|es + [e]| - 1] == es;
  }

  lemma {:induction false} RunAppends<T(!new)>(r: Registry<T>, es: seq<Event<T>>, fs: seq<Event<T>>)
    ensures Run(r, es + fs) == Run(Run(r, es), fs)
  {
    if fs == [] {
      assert es + fs == es;
    } else {
      assert (es + fs)[..|es + fs| - 1] == es + fs[..|fs| - 1];
      RunAppends(r, es, fs[..|fs| - 1]);
    }
  }

  lemma RunOfThree<T(!new)>(r: Registry<T>, e0: Event<T>, e1: Event<T>, e2: Event<T>)
    ensures Run(r, [e0, e1, e2]) == Apply(Apply(Apply(r, e0), e1), e2)
  {
    var none: seq<Event<T>> := [];
    assert Run(r, none) == r;
    RunUnfolds(r, none, e0);
    RunUnfolds(r, [e0], e1);
    RunUnfolds(r, [e0, e1], e2);
    hide Run, Apply;
    assert none + [e0] == [e0] && [e0] + [e1] == [e0, e1] && [e0, e1] + [e2] == [e0, e1, e2];
  }

  lemma RunOfSix<T(!new)>(r: Registry<T>, e0: Event<T>, e1: Event<T>, e2: Event<T>, e3: Event<T>, e4: Event<T>,
                          e5: Event<T>)
    ensures Run(r, [e0, e1, e2, e3, e4, e5])
         == Apply(Apply(Apply(Apply(Apply(Apply(r, e0), e1), e2), e3), e4), e5)
  {
    hide Run, Apply;
    RunAppends(r, [e0, e1, e2], [e3, e4, e5]);
    assert [e0, e1, e2] + [e3, e4, e5] == [e0, e1, e2, e3, e4, e5];
    RunOfThree(r, e0, e1, e2);
    RunOfThree(Run(r, [e0, e1, e2]), e3, e4, e5);
  }

  // ----- Consumers on a doubtful subscription -----

  /** The event reports the failure of an unsubscribe of `g`. */
  predicate FailsUnsubscribe<T>(r: Registry<T>, e: Event<T>, g: string) {
    || (e.UnsubscribeFailed? && r.operation.Closing? && r.operation.registration == g)
    || (e.UndoFailed? && r.operation.Undoing? && r.operation.registration == g)
  }

  predicate NoUnsubscribeFails<T>(capacity: nat, es: seq<Event<T>>, g: string) {
    es == [] || (NoUnsubscribeFails(capacity, es[..|es| - 1], g) &&
                 !FailsUnsubscribe(Run(Init(capacity), es[..|es| - 1]), es[|es| - 1], g))
  }

  /** If `g` has a consumer, then the last wire request of `g` is a subscribe. */
  predicate WellServed<T>(r: Registry<T>, g: string) {
    g in r.byRegistration && r.byRegistration[g].members != {} ==>
      g in r.wire && (r.wire[g] == Live || r.wire[g] == SubscribeSent)
  }

  /** A subscriber gets the lock and finds `g` registered, the last unsubscribe of `g` having
      failed. */
  predicate JoinsDoubtful<T(==)>(r: Registry<T>, e: Event<T>, g: string) {
    && e == Subscribe(g) && r.operation == Idle
    && g in r.byRegistration && g in r.wire && r.wire[g] == Doubtful
  }

  predicate AlwaysWellServed<T>(capacity: nat, es: seq<Event<T>>, g: string) {
    es == [] || (AlwaysWellServed(capacity, es[..|es| - 1], g) && WellServed(Run(Init(capacity), es), g))
  }

  predicate NobodyJoinsDoubtful<T(==)>(capacity: nat, es: seq<Event<T>>, g: string) {
    es == [] || (NobodyJoinsDoubtful(capacity, es[..|es| - 1], g) &&
                 !JoinsDoubtful(Run(Init(capacity), es[..|es| - 1]), es[|es| - 1], g))
  }

  /** Delivery leaves the record of the wire and the operation alone. */
  lemma FlushShape<T>(r: Registry<T>, g: string)
    requires g in r.byRegistration
    ensures var f := Flush(r, g);
      f.wire == r.wire && f.byRegistration == r.byRegistration && f.operation == r.operation
  {
  }

  lemma AttachShape<T>(r: Registry<T>, g: string)
    requires g in r.byRegistration
    ensures var a, w := Attach(r, g), r.byRegistration[g];
      && a.wire == r.wire && a.operation == r.operation
      && a.byRegistration == r.byRegistration[g := w.(members := w.members + {|r.consumers|})]
  {
  }

  lemma PublishShape<T>(r: Registry<T>, subId: nat, item: T, g: string)
    ensures var p := PublishStep(r, subId, item);
      && p.wire == r.wire && p.operation == r.operation && p.byRegistration.Keys == r.byRegistration.Keys
      && |p.consumers| == |r.consumers|
      && (forall c :: 0 <= c < |r.consumers| ==>
            p.consumers[c] == r.consumers[c].(subscription := p.consumers[c].subscription))
      && (g in r.byRegistration ==> p.byRegistration[g].members <= r.byRegistration[g].members)
  {
  }

  lemma SubscribeServes<T(!new)>(r: Registry<T>, h: string, g: string)
    requires Inv(r) && WellServed(r, g)
    ensures WellServed(SubscribeStep(r, h), g) <==> !JoinsDoubtful(r, Subscribe(h), g)
  {
    if r.operation == Idle && h in r.byRegistration {
      AttachShape(r, h);
      assert g in r.byRegistration ==> Served(r, g);
      assert |r.consumers| in r.byRegistration[h].members + {|r.consumers|};
    }
    hide Attach, Inverse, FreshIds, Members, Delivery;
  }

  lemma AckServes<T(!new)>(r: Registry<T>, subId: nat, g: string)
    requires Inv(r) && WellServed(r, g)
    ensures WellServed(SubscribeAckedStep(r, subId), g)
  {
    hide Inverse, FreshIds, Members, Delivery;
    if r.operation.Subscribing? && subId !in r.used && !r.operation.cancelled {
      AttachShape(Register(r.(used := r.used + {subId}), r.operation.registration, subId, Live),
                  r.operation.registration);
      hide Attach;
    }
  }

  lemma RestoringServes<T(!new)>(r: Registry<T>, e: Event<T>, g: string)
    requires Inv(r) && WellServed(r, g)
    requires e.Restore? || e.RestoreAcked? || e.RestoreFailed? || e.RestoreCancelled?
    ensures WellServed(Apply(r, e), g)
  {
    hide Inverse, FreshIds, Members, Delivery, FailMembers;
    if e.RestoreAcked? && r.operation.Restoring? && e.subId !in r.used {
      FlushShape(Rekeyed(r, r.operation.todo[0], e.subId), r.operation.todo[0]);
      hide Flush;
    }
  }

  lemma ClosingServes<T(!new)>(r: Registry<T>, c: ConsumerNo, g: string)
    requires Inv(r) && WellServed(r, g)
    ensures WellServed(CloseStep(r, c), g)
    ensures WellServed(CloseDone(r, true), g) && WellServed(CloseDone(r, false), g)
  {
    hide Inverse, FreshIds, Members, Delivery;
  }

  /** One event keeps the consumers of `g` well served exactly if it joins no doubtful
      subscription. */
  lemma ServedStep<T(!new)>(r: Registry<T>, e: Event<T>, g: string)
    requires Inv(r) && WellServed(r, g)
    ensures WellServed(Apply(r, e), g) <==> !JoinsDoubtful(r, e, g)
  {
    match e {
      case Subscribe(h) => SubscribeServes(r, h, g);
      case SubscribeAcked(subId) => AckServes(r, subId, g);
      case Publish(subId, item) => PublishShape(r, subId, item, g);
      case Restore(_) => RestoringServes(r, e, g);
      case RestoreAcked(_) => RestoringServes(r, e, g);
      case RestoreFailed(_) => RestoringServes(r, e, g);
      case RestoreCancelled => RestoringServes(r, e, g);
      case CloseConsumer(c) => ClosingServes(r, c, g);
      case UnsubscribeAcked => ClosingServes(r, 0, g);
      case UnsubscribeFailed => ClosingServes(r, 0, g);
      case _ =>
    }
    hide CloseStep, CloseDone;
    hide SubscribeStep, SubscribeAckedStep, PublishStep, RestoreStep, RestoreAckedStep, RestoreFailedStep;
    hide Inverse, FreshIds, Members, Delivery;
  }

  /** Exactly when consumers are served: over every run, at every point the last wire request
      of `g` is a subscribe if `g` has a consumer, if and only if nobody ever joins `g` while
      its last unsubscribe is one that failed. */
  lemma {:induction false} ServedExactly<T(!new)>(capacity: nat, es: seq<Event<T>>, g: string)
    requires 1 <= capacity
    ensures AlwaysWellServed(capacity, es, g) <==> NobodyJoinsDoubtful(capacity, es, g)
    ensures AlwaysWellServed(capacity, es, g) ==> WellServed(Run(Init<T>(capacity), es), g)
    decreases |es|
  {
    if es != [] {
      var r, e := Run(Init<T>(capacity), es[..|es| - 1]), es[|es| - 1];
      ServedExactly(capacity, es[..|es| - 1], g);
      RunKeepsInv<T>(capacity, es[..|es| - 1]);
      hide Apply, Inv, WellServed, JoinsDoubtful;
      if WellServed(r, g) {
        ServedStep(r, e, g);
      }
    }
  }

  lemma StepDoubts<T(!new)>(r: Registry<T>, e: Event<T>, g: string)
    requires g in r.wire ==> r.wire[g] != Doubtful
    requires !FailsUnsubscribe(r, e, g)
    ensures g in Apply(r, e).wire ==> Apply(r, e).wire[g] != Doubtful
  {
    hide Flush, Attach, Deliver;
    match e {
      case Subscribe(h) => if h in r.byRegistration { AttachShape(r, h); }
      case SubscribeAcked(subId) =>
        if r.operation.Subscribing? && subId !in r.used && !r.operation.cancelled {
          AttachShape(Register(r.(used := r.used + {subId}), r.operation.registration, subId, Live),
                      r.operation.registration);
        }
      case RestoreAcked(subId) =>
        if r.operation.Restoring? && r.operation.todo != [] && subId !in r.used
           && r.operation.todo[0] in r.byRegistration {
          FlushShape(Rekeyed(r, r.operation.todo[0], subId), r.operation.todo[0]);
        }
      case Publish(subId, item) => PublishShape(r, subId, item, g);
      case _ =>
    }
  }

  lemma {:induction false} DoubtNeedsAFailure<T(!new)>(capacity: nat, es: seq<Event<T>>, g: string)
    requires NoUnsubscribeFails(capacity, es, g)
    ensures var r := Run(Init<T>(capacity), es); g in r.wire ==> r.wire[g] != Doubtful
    ensures NobodyJoinsDoubtful(capacity, es, g)
    decreases |es|
  {
    if es != [] {
      var r, e := Run(Init<T>(capacity), es[..|es| - 1]), es[|es| - 1];
      DoubtNeedsAFailure(capacity, es[..|es| - 1], g);
      hide Apply, FailsUnsubscribe;
      StepDoubts(r, e, g);
    }
  }

  /** So as long as no unsubscribe of `g` itself has failed, what the broker was last asked for
      a registration `g` with a consumer is a subscribe. */
  lemma ConsumersAreServed<T(!new)>(capacity: nat, es: seq<Event<T>>, g: string)
    requires 1 <= capacity && NoUnsubscribeFails(capacity, es, g)
    ensures WellServed(Run(Init<T>(capacity), es), g)
  {
    DoubtNeedsAFailure(capacity, es, g);
    ServedExactly(capacity, es, g);
  }

  /** One consumer of the registration "a", whose broker id is 7. */
  function One(c: Consumer<int>, members: set<ConsumerNo>, operation: Operation, wire: WireState): Registry<int> {
    Registry(1, map["a" := Wire(7, members)], map[7 := "a"], [c], [], operation, map["a" := wire], {7}, [])
  }

  const NEWCOMER: Consumer<int> := Consumer("a", A.New(1), NotAsked, 0)

  /** Attaching while no early notification is buffered. */
  lemma AttachQuietly<T>(r: Registry<T>, g: string)
    requires g in r.byRegistration && r.pending == []
    ensures var w := r.byRegistration[g];
      Attach(r, g) == r.(consumers := r.consumers + [Consumer(g, A.New(r.capacity), NotAsked, |r.log|)],
                         byRegistration := r.byRegistration[g := w.(members := w.members + {|r.consumers|})])
  {
  }

  lemma FirstSubscriber()
    ensures Apply(Apply(Init<int>(1), Subscribe("a")), SubscribeAcked(7)) == One(NEWCOMER, {0}, Idle, Live)
  {
    var asked: Registry<int> :=
      Registry(1, map[], map[], [], [], Subscribing("a", false), map["a" := SubscribeSent], {}, []);
    assert Apply(Init<int>(1), Subscribe("a")) == asked;
    var registered := Register(asked.(used := {7}), "a", 7, Live);
    assert registered == Registry(1, map["a" := Wire(7, {})], map[7 := "a"], [], [], Idle, map["a" := Live], {7}, []);
    AttachQuietly(registered, "a");
    assert {} + {0} == {0};
    assert Attach(registered, "a") == One(NEWCOMER, {0}, Idle, Live);
  }

  /** After an unsubscribe that failed, the next subscriber joins the doubtful subscription
      and asks the broker for nothing. */
  lemma FailedUnsubscribeIsShared()
    ensures var r := Run(Init<int>(1), [Subscribe("a"), SubscribeAcked(7), AskClose(0), CloseConsumer(0),
                                        UnsubscribeFailed, Subscribe("a")]);
      && |r.consumers| == 2 && r.consumers[1] == NEWCOMER && Attached(r, 1)
      && r.operation == Idle && r.wire == map["a" := Doubtful]
  {
    RunOfSix(Init<int>(1), Subscribe("a"), SubscribeAcked(7), AskClose(0), CloseConsumer(0), UnsubscribeFailed,
             Subscribe("a"));
    FirstSubscriber();
    FailedUnsubscribeSteps();
    hide Run, Apply;
  }

  lemma FailedUnsubscribeSteps()
    ensures var r := Apply(Apply(Apply(Apply(One(NEWCOMER, {0}, Idle, Live), AskClose(0)), CloseConsumer(0)),
                                 UnsubscribeFailed), Subscribe("a"));
      && |r.consumers| == 2 && r.consumers[1] == NEWCOMER && Attached(r, 1)
      && r.operation == Idle && r.wire == map["a" := Doubtful]
  {
    var c := NEWCOMER;
    assert Apply(One(c, {0}, Idle, Live), AskClose(0)) == One(c.(close := Waiting), {0}, Idle, Live);
    assert Apply(One(c.(close := Waiting), {0}, Idle, Live), CloseConsumer(0))
        == One(c.(close := Left), {}, Closing("a", 0), UnsubscribeSent);
    var over := c.(close := Left, subscription := A.Finish(A.New(1)));
    assert Apply(One(c.(close := Left), {}, Closing("a", 0), UnsubscribeSent), UnsubscribeFailed)
        == One(over, {}, Idle, Doubtful);
    var joined := One(over, {1}, Idle, Doubtful).(consumers := [over, c]);
    AttachQuietly(One(over, {}, Idle, Doubtful), "a");
    assert {} + {1} == {1};
    assert Attach(One(over, {}, Idle, Doubtful), "a") == joined;
  }

  // ----- Registrations nobody will unsubscribe -----

  /** A consumer of `g` that has not left it. */
  predicate Stays<T>(r: Registry<T>, c: int, g: string) {
    0 <= c < |r.consumers| && r.consumers[c].registration == g && r.consumers[c].close != Left
  }

  /** A consumer of `g` whose `aclose` can still come or go on. */
  predicate Willing<T>(r: Registry<T>, c: int, g: string) {
    0 <= c < |r.consumers| && r.consumers[c].registration == g
    && (r.consumers[c].close == NotAsked || r.consumers[c].close == Waiting)
  }

  /** `g` is registered, and no operation on it is under way. */
  predicate Resting<T>(r: Registry<T>, g: string) {
    g in r.byRegistration && !r.operation.Restoring? && (!r.operation.Idle? ==> r.operation.registration != g)
  }

  /** Nobody is asking or has asked the broker to drop `g`, and no consumer of `g` ever will. */
  ghost predicate Stranded<T(!new)>(r: Registry<T>, g: string) {
    Resting(r, g) && Served(r, g) && forall c :: !Willing(r, c, g)
  }

  /** The broker has been asked to unsubscribe `g` and has not answered. */
  predicate AsksUnsubscribe<T>(r: Registry<T>, g: string) {
    g in r.wire && r.wire[g] == UnsubscribeSent
  }

  /** Neither a new subscriber of `g` nor a reconnect. */
  ghost predicate Quiet<T(!new)>(es: seq<Event<T>>, g: string) {
    forall i :: 0 <= i < |es| ==> es[i] != Subscribe(g) && !es[i].Restore?
  }

  lemma {:induction false} DeliverAllKeepsStranded<T(!new)>(r: Registry<T>, h: string, items: seq<T>, g: string)
    requires Stranded(r, g) && h in r.byRegistration
    ensures Stranded(DeliverAll(r, h, items), g)
    decreases |items|
  {
    if items != [] {
      assert forall c :: Willing(Deliver(r, h, items[0]), c, g) ==> Willing(r, c, g);
      assert Stranded(Deliver(r, h, items[0]), g);
      hide Stranded;
      DeliverAllKeepsStranded(Deliver(r, h, items[0]), h, items[1..], g);
    }
  }

  lemma AttachKeepsStranded<T(!new)>(r: Registry<T>, h: string, g: string)
    requires Stranded(r, g) && h in r.byRegistration && h != g
    ensures Stranded(Attach(r, h), g)
  {
    var w := r.byRegistration[h];
    var a := r.(consumers := r.consumers + [Consumer(h, A.New(r.capacity), NotAsked, |r.log|)],
                byRegistration := r.byRegistration[h := w.(members := w.members + {|r.consumers|})]);
    assert forall c :: Willing(a, c, g) ==> Willing(r, c, g);
    DeliverAllKeepsStranded(a, h, Early(a.pending, a.byRegistration[h].subId), g);
    assert forall c :: Willing(Attach(r, h), c, g) ==>
      Willing(DeliverAll(a, h, Early(a.pending, a.byRegistration[h].subId)), c, g);
  }

  lemma StepKeepsStranded<T(!new)>(r: Registry<T>, e: Event<T>, g: string)
    requires Stranded(r, g) && e != Subscribe(g) && !e.Restore?
    ensures Stranded(Apply(r, e), g)
  {
    hide Attach, Flush;
    match e {
      case Subscribe(h) => SubscribeKeepsStranded(r, h, g);
      case SubscribeAcked(subId) => AckKeepsStranded(r, subId, g);
      case CloseConsumer(c) => CloseKeepsStranded(r, c, g);
      case Publish(subId, item) =>
        PublishShape(r, subId, item, g);
        assert forall c :: Willing(PublishStep(r, subId, item), c, g) ==> Willing(r, c, g);
      case Restore(_) =>
      case _ => assert forall c :: Willing(Apply(r, e), c, g) ==> Willing(r, c, g);
    }
    hide SubscribeStep, SubscribeAckedStep, PublishStep, CloseStep;
  }

  lemma SubscribeKeepsStranded<T(!new)>(r: Registry<T>, h: string, g: string)
    requires Stranded(r, g) && h != g
    ensures Stranded(SubscribeStep(r, h), g)
  {
    if h in r.byRegistration {
      AttachKeepsStranded(r, h, g);
    } else {
      assert forall c :: Willing(SubscribeStep(r, h), c, g) ==> Willing(r, c, g);
    }
    hide Attach;
  }

  lemma AckKeepsStranded<T(!new)>(r: Registry<T>, subId: nat, g: string)
    requires Stranded(r, g)
    ensures Stranded(SubscribeAckedStep(r, subId), g)
  {
    if r.operation.Subscribing? && subId !in r.used && !r.operation.cancelled {
      var h := r.operation.registration;
      var registered := Register(r.(used := r.used + {subId}), h, subId, Live);
      assert forall c :: Willing(registered, c, g) ==> Willing(r, c, g);
      AttachKeepsStranded(registered, h, g);
    } else {
      assert forall c :: Willing(SubscribeAckedStep(r, subId), c, g) ==> Willing(r, c, g);
    }
    hide Attach;
  }

  lemma CloseKeepsStranded<T(!new)>(r: Registry<T>, c: ConsumerNo, g: string)
    requires Stranded(r, g)
    ensures Stranded(CloseStep(r, c), g)
  {
    assert !Willing(r, c, g);
    assert forall d :: Willing(CloseStep(r, c), d, g) ==> Willing(r, d, g);
  }

  /** Whatever happens next, short of a new subscriber or a reconnect, nobody asks the broker
      to unsubscribe a stranded registration. */
  lemma {:induction false} StrandedStays<T(!new)>(r: Registry<T>, es: seq<Event<T>>, g: string)
    requires Stranded(r, g)
    requires Quiet(es, g)
    ensures Stranded(Run(r, es), g)
  {
    if es != [] {
      StrandedStays(r, es[..|es| - 1], g);
      StepKeepsStranded(Run(r, es[..|es| - 1]), es[|es| - 1], g);
    }
  }

  /** The only consumer's close is cancelled while it waits for the lock: it ends, and the
      broker goes on serving it. */
  lemma CancelledCloseStrands()
    ensures var r := Run(Init<int>(1), [Subscribe("a"), SubscribeAcked(7), Subscribe("b"), AskClose(0),
                                        CancelClose(0), SubscribeFailed]);
      && Stranded(r, "a") && |r.consumers| == 1 && r.consumers[0].subscription == A.Finish(A.New(1))
  {
    RunOfSix(Init<int>(1), Subscribe("a"), SubscribeAcked(7), Subscribe("b"), AskClose(0), CancelClose(0),
             SubscribeFailed);
    FirstSubscriber();
    CancelledCloseSteps();
    hide Run, Apply;
  }

  lemma CancelledCloseSteps()
    ensures var r := Apply(Apply(Apply(Apply(One(NEWCOMER, {0}, Idle, Live), Subscribe("b")), AskClose(0)),
                                 CancelClose(0)), SubscribeFailed);
      && Stranded(r, "a") && |r.consumers| == 1 && r.consumers[0].subscription == A.Finish(A.New(1))
  {
    var c, other := NEWCOMER, Subscribing("b", false);
    var wire := map["a" := Live, "b" := SubscribeSent];
    assert Apply(One(c, {0}, Idle, Live), Subscribe("b")) == One(c, {0}, other, Live).(wire := wire);
    assert Apply(One(c, {0}, other, Live).(wire := wire), AskClose(0))
        == One(c.(close := Waiting), {0}, other, Live).(wire := wire);
    var over := c.(close := GivenUp, subscription := A.Finish(A.New(1)));
    assert Apply(One(c.(close := Waiting), {0}, other, Live).(wire := wire), CancelClose(0))
        == One(over, {0}, other, Live).(wire := wire);
    assert Apply(One(over, {0}, other, Live).(wire := wire), SubscribeFailed)
        == One(over, {0}, Idle, Live).(wire := map["a" := Live, "b" := Unsubscribed]);
  }

  /** If `g` is registered and not being unsubscribed, some consumer has not left it. */
  ghost predicate Owned<T(!new)>(r: Registry<T>, g: string) {
    g in r.byRegistration ==>
      (exists c :: Stays(r, c, g)) || (r.operation.Closing? && r.operation.registration == g)
  }

  lemma NobodyLeavesKeepsOwned<T(!new)>(r: Registry<T>, r': Registry<T>, g: string)
    requires Owned(r, g)
    requires forall c :: Stays(r, c, g) ==> Stays(r', c, g)
    requires g in r'.byRegistration ==> g in r.byRegistration
    requires r.operation.Closing? && r.operation.registration == g && g in r'.byRegistration ==>
      r'.operation == r.operation
    ensures Owned(r', g)
  {
    if c :| Stays(r, c, g) { assert Stays(r', c, g); }
  }

  lemma {:induction false} DeliverAllKeepsStays<T(!new)>(r: Registry<T>, h: string, items: seq<T>, g: string)
    requires h in r.byRegistration
    ensures forall c :: Stays(r, c, g) ==> Stays(DeliverAll(r, h, items), c, g)
    decreases |items|
  {
    if items != [] {
      assert forall c :: Stays(r, c, g) ==> Stays(Deliver(r, h, items[0]), c, g);
      DeliverAllKeepsStays(Deliver(r, h, items[0]), h, items[1..], g);
    }
  }

  lemma AttachKeepsOwned<T(!new)>(r: Registry<T>, h: string, g: string)
    requires h in r.byRegistration && r.operation == Idle && (g != h ==> Owned(r, g))
    ensures Owned(Attach(r, h), g)
  {
    var w, newcomer := r.byRegistration[h], Consumer(h, A.New(r.capacity), NotAsked, |r.log|);
    var a := r.(consumers := r.consumers + [newcomer],
                byRegistration := r.byRegistration[h := w.(members := w.members + {|r.consumers|})]);
    assert Stays(a, |r.consumers|, h);
    assert Owned(a, g) by {
      if g != h && g in r.byRegistration {
        var c :| Stays(r, c, g);
        assert Stays(a, c, g);
      }
    }
    DeliverAllKeepsStays(a, h, Early(a.pending, a.byRegistration[h].subId), g);
    NobodyLeavesKeepsOwned(a, Attach(r, h), g);
  }

  lemma SubscribeAckedKeepsOwned<T(!new)>(r: Registry<T>, subId: nat, g: string)
    requires Owned(r, g)
    ensures Owned(SubscribeAckedStep(r, subId), g)
  {
    var r' := SubscribeAckedStep(r, subId);
    if r.operation.Subscribing? && subId !in r.used && !r.operation.cancelled {
      var h := r.operation.registration;
      var registered := Register(r.(used := r.used + {subId}), h, subId, Live);
      if g != h {
        NobodyLeavesKeepsOwned(r, registered, g);
      }
      AttachKeepsOwned(registered, h, g);
    } else {
      NobodyLeavesKeepsOwned(r, r', g);
    }
  }

  lemma CloseKeepsOwned<T(!new)>(r: Registry<T>, c: ConsumerNo, g: string)
    requires Owned(r, g) && Members(r)
    ensures Owned(CloseStep(r, c), g)
  {
    var r' := CloseStep(r, c);
    if r' != r && g in r'.byRegistration {
      var h := r.consumers[c].registration;
      if g != h {
        var d :| Stays(r, d, g);
        assert Stays(r', d, g);
      } else if !r'.operation.Closing? {
        var d :| d in r.byRegistration[g].members - {c};
        assert Joined(r, g, d) && Stays(r', d, g);
      }
    }
  }

  lemma PublishKeepsOwned<T(!new)>(r: Registry<T>, subId: nat, item: T, g: string)
    requires Owned(r, g)
    ensures Owned(PublishStep(r, subId, item), g)
  {
    NobodyLeavesKeepsOwned(r, PublishStep(r, subId, item), g);
  }

  lemma RestoreAckedKeepsOwned<T(!new)>(r: Registry<T>, subId: nat, g: string)
    requires Owned(r, g)
    ensures Owned(RestoreAckedStep(r, subId), g)
  {
    var r' := RestoreAckedStep(r, subId);
    if r' != r {
      var h := r.operation.todo[0];
      var keyed := Rekeyed(r, h, subId);
      assert forall c :: Stays(r, c, g) ==> Stays(keyed, c, g);
      DeliverAllKeepsStays(keyed, h, Early(keyed.pending, keyed.byRegistration[h].subId), g);
      NobodyLeavesKeepsOwned(r, r', g);
    }
  }

  lemma StepKeepsOwned<T(!new)>(r: Registry<T>, e: Event<T>, g: string)
    requires Inv(r) && Owned(r, g) && !FailsUnsubscribe(r, e, g)
    ensures Owned(Apply(r, e), g)
  {
    hide Attach, Flush, Members, Delivery, Inverse, WireInv, FreshIds;
    match e {
      case Subscribe(h) =>
        if r.operation == Idle && h in r.byRegistration { AttachKeepsOwned(r, h, g); }
        else { NobodyLeavesKeepsOwned(r, Apply(r, e), g); }
      case SubscribeAcked(subId) => SubscribeAckedKeepsOwned(r, subId, g);
      case CloseConsumer(c) => CloseKeepsOwned(r, c, g);
      case Publish(subId, item) => PublishKeepsOwned(r, subId, item, g);
      case RestoreAcked(subId) => RestoreAckedKeepsOwned(r, subId, g);
      case _ => NobodyLeavesKeepsOwned(r, Apply(r, e), g);
    }
  }

  /** In every run in which no unsubscribe of `g` has failed: a registration that is not being
      unsubscribed has a consumer that has not left it. */
  lemma {:induction false} SomebodyStays<T(!new)>(capacity: nat, es: seq<Event<T>>, g: string)
    requires 1 <= capacity && NoUnsubscribeFails(capacity, es, g)
    ensures Owned(Run(Init<T>(capacity), es), g)
    decreases |es|
  {
    if es != [] {
      var r, e := Run(Init<T>(capacity), es[..|es| - 1]), es[|es| - 1];
      SomebodyStays<T>(capacity, es[..|es| - 1], g);
      RunKeepsInv<T>(capacity, es[..|es| - 1]);
      hide Apply, Inv, Owned, FailsUnsubscribe;
      StepKeepsOwned(r, e, g);
    }
  }

  // ----- Exactly when a registration is stranded -----

  /** A consumer whose close was cancelled has ended. */
  ghost predicate AllEnded<T(!new)>(r: Registry<T>) {
    forall c :: 0 <= c < |r.consumers| && r.consumers[c].close == GivenUp ==> r.consumers[c].subscription.closed
  }

  ghost predicate NobodyReopens<T(!new)>(r: Registry<T>, r': Registry<T>) {
    && |r.consumers| <= |r'.consumers|
    && (forall c :: 0 <= c < |r'.consumers| && r'.consumers[c].close == GivenUp && !r'.consumers[c].subscription.closed ==>
          c < |r.consumers| && r.consumers[c].close == GivenUp && !r.consumers[c].subscription.closed)
  }

  lemma {:induction false} DeliverAllReopensNobody<T(!new)>(r: Registry<T>, h: string, items: seq<T>)
    requires h in r.byRegistration
    ensures NobodyReopens(r, DeliverAll(r, h, items))
    decreases |items|
  {
    if items != [] {
      var d := Deliver(r, h, items[0]);
      assert NobodyReopens(r, d);
      DeliverAllReopensNobody(d, h, items[1..]);
    }
  }

  lemma AttachReopensNobody<T(!new)>(r: Registry<T>, h: string)
    requires h in r.byRegistration
    ensures NobodyReopens(r, Attach(r, h)) && NobodyReopens(r, Flush(r, h))
  {
    var w, newcomer := r.byRegistration[h], Consumer(h, A.New(r.capacity), NotAsked, |r.log|);
    var a := r.(consumers := r.consumers + [newcomer],
                byRegistration := r.byRegistration[h := w.(members := w.members + {|r.consumers|})]);
    DeliverAllReopensNobody(a, h, Early(a.pending, w.subId));
    DeliverAllReopensNobody(r, h, Early(r.pending, w.subId));
  }

  lemma StepReopensNobody<T(!new)>(r: Registry<T>, e: Event<T>)
    requires Inv(r)
    ensures NobodyReopens(r, Apply(r, e))
  {
    hide Attach, Flush, Inverse, FreshIds, Members, Delivery, WireInv;
    match e {
      case Subscribe(h) => if h in r.byRegistration { AttachReopensNobody(r, h); }
      case SubscribeAcked(subId) =>
        if r.operation.Subscribing? {
          AttachReopensNobody(Register(r.(used := r.used + {subId}), r.operation.registration, subId, Live),
                              r.operation.registration);
        }
      case RestoreAcked(subId) =>
        if r.operation.Restoring? {
          AttachReopensNobody(Rekeyed(r, r.operation.todo[0], subId), r.operation.todo[0]);
        }
      case CloseConsumer(c) => ClosingReopensNobody(r, c);
      case UnsubscribeAcked => ClosingReopensNobody(r, 0);
      case UnsubscribeFailed => ClosingReopensNobody(r, 0);
      case _ =>
    }
    hide CloseStep, CloseDone;
  }

  lemma ClosingReopensNobody<T(!new)>(r: Registry<T>, c: ConsumerNo)
    ensures NobodyReopens(r, CloseStep(r, c))
    ensures NobodyReopens(r, CloseDone(r, true)) && NobodyReopens(r, CloseDone(r, false))
  {
  }

  lemma {:induction false} RunKeepsEnded<T(!new)>(capacity: nat, es: seq<Event<T>>)
    requires 1 <= capacity
    ensures AllEnded(Run(Init<T>(capacity), es))
    decreases |es|
  {
    if es != [] {
      var r, e := Run(Init<T>(capacity), es[..|es| - 1]), es[|es| - 1];
      RunKeepsEnded<T>(capacity, es[..|es| - 1]);
      RunKeepsInv<T>(capacity, es[..|es| - 1]);
      hide Apply, Inv;
      StepReopensNobody(r, e);
    }
  }

  ghost predicate AllWilling<T(!new)>(r: Registry<T>, g: string) {
    && Inv(r) && r.operation == Idle && g in r.byRegistration
    && (forall d :: d in r.byRegistration[g].members ==> Willing(r, d, g))
  }

  lemma WillingAsks<T(!new)>(r: Registry<T>, g: string, d: ConsumerNo)
    requires AllWilling(r, g) && Willing(r, d, g)
    ensures var a := Apply(r, AskClose(d));
      && AllWilling(a, g) && Willing(a, d, g) && a.consumers[d].close == Waiting
      && a.byRegistration == r.byRegistration
      && (forall c :: Willing(r, c, g) ==> Willing(a, c, g))
  {
    StepKeepsInv(r, AskClose(d));
    hide Inv;
    assert forall c :: Willing(r, c, g) ==> Willing(Apply(r, AskClose(d)), c, g);
  }

  lemma WaitingCloses<T(!new)>(r: Registry<T>, g: string, d: ConsumerNo)
    requires AllWilling(r, g) && Willing(r, d, g) && r.consumers[d].close == Waiting
    ensures var n := Apply(r, CloseConsumer(d));
      if r.byRegistration[g].members - {d} == {} then AsksUnsubscribe(n, g)
      else
        && AllWilling(n, g) && n.byRegistration[g].members == r.byRegistration[g].members - {d}
        && (forall c :: Willing(r, c, g) && c != d ==> Willing(n, c, g))
  {
    StepKeepsInv(r, CloseConsumer(d));
    var n := CloseStep(r, d);
    assert Apply(r, CloseConsumer(d)) == n;
    hide Inv, Apply;
    if r.byRegistration[g].members - {d} != {} {
      assert n == r.(consumers := n.consumers,
                     byRegistration := r.byRegistration[g := r.byRegistration[g].(members := r.byRegistration[g].members - {d})]);
      assert |n.consumers| == |r.consumers|;
      assert forall c :: 0 <= c < |r.consumers| && c != d ==> n.consumers[c] == r.consumers[c];
      hide CloseStep;
    }
  }

  /** A willing consumer closes: it was the last one and the broker is asked, or it is gone. */
  lemma WillingCloses<T(!new)>(r: Registry<T>, g: string, d: ConsumerNo)
    requires AllWilling(r, g) && Willing(r, d, g)
    ensures var n := Apply(Apply(r, AskClose(d)), CloseConsumer(d));
      if r.byRegistration[g].members - {d} == {} then AsksUnsubscribe(n, g)
      else
        && AllWilling(n, g) && n.byRegistration[g].members == r.byRegistration[g].members - {d}
        && (forall c :: Willing(r, c, g) && c != d ==> Willing(n, c, g))
  {
    WillingAsks(r, g, d);
    WaitingCloses(Apply(r, AskClose(d)), g, d);
    hide Apply, Inv, AsksUnsubscribe;
  }

  lemma RunOfOne<T(!new)>(r: Registry<T>, e: Event<T>)
    ensures Run(r, [e]) == Apply(r, e)
  {
    assert [e][..0] == [];
  }

  lemma RunOfTwo<T(!new)>(r: Registry<T>, e0: Event<T>, e1: Event<T>)
    ensures Run(r, [e0, e1]) == Apply(Apply(r, e0), e1)
  {
    var none: seq<Event<T>> := [];
    assert Run(r, none) == r;
    RunUnfolds(r, none, e0);
    RunUnfolds(r, [e0], e1);
    hide Run, Apply;
    assert none + [e0] == [e0] && [e0] + [e1] == [e0, e1];
  }

  lemma CloseThen<T(!new)>(r: Registry<T>, g: string, d: ConsumerNo, rest: seq<Event<T>>)
    requires Quiet(rest, g)
    ensures var closes: seq<Event<T>> := [AskClose(d), CloseConsumer(d)];
      && Quiet(closes + rest, g)
      && Run(r, closes + rest) == Run(Apply(Apply(r, AskClose(d)), CloseConsumer(d)), rest)
  {
    RunOfTwo(r, AskClose(d), CloseConsumer(d));
    RunAppends(r, [AskClose(d), CloseConsumer(d)], rest);
    hide Run, Apply;
  }

  /** All of them closing, one after the other, the last one asks the broker. */
  lemma {:induction false} EverybodyCloses<T(!new)>(r: Registry<T>, g: string, c: ConsumerNo) returns (es: seq<Event<T>>)
    requires AllWilling(r, g) && Willing(r, c, g)
    ensures Quiet(es, g) && AsksUnsubscribe(Run(r, es), g)
    decreases |r.byRegistration[g].members|
  {
    var members := r.byRegistration[g].members;
    var d := c;
    if members - {c} != {} {
      d :| d in members - {c};
    }
    assert Willing(r, d, g);
    WillingCloses(r, g, d);
    var n := Apply(Apply(r, AskClose(d)), CloseConsumer(d));
    var rest: seq<Event<T>> := [];
    assert Run(n, rest) == n;
    hide Apply, AllWilling, Willing, Run, AsksUnsubscribe;
    if members - {d} != {} {
      rest := EverybodyCloses(n, g, c);
    }
    es := [AskClose(d), CloseConsumer(d)] + rest;
    CloseThen(r, g, d, rest);
  }

  /** A publication drops the members that have ended, and nobody else. */
  lemma PublishDropsEnded<T(!new)>(r: Registry<T>, g: string, item: T)
    requires Inv(r) && AllEnded(r) && r.operation == Idle && g in r.byRegistration
    ensures var p := Apply(r, Publish(r.byRegistration[g].subId, item));
      AllWilling(p, g) && forall c :: Willing(r, c, g) ==> Willing(p, c, g)
  {
    var subId := r.byRegistration[g].subId;
    var p := PublishStep(r, subId, item);
    StepKeepsInv(r, Publish(subId, item));
    StepReopensNobody(r, Publish(subId, item));
    forall d | d in p.byRegistration[g].members
      ensures Willing(p, d, g)
    {
      assert Joined(p, g, d);
    }
    hide Inv;
  }

  /** The operation under way on another registration comes to an end. */
  function Settling<T>(r: Registry<T>): seq<Event<T>> {
    match r.operation
    case Subscribing(_, _) => [SubscribeFailed]
    case Undoing(_, _) => [UndoAcked]
    case Closing(_, _) => [UnsubscribeAcked]
    case _ => []
  }

  lemma OperationSettles<T(!new)>(r: Registry<T>, g: string)
    requires Inv(r) && AllEnded(r) && Resting(r, g)
    ensures var s := Run(r, Settling(r));
      && Inv(s) && AllEnded(s) && s.operation == Idle && g in s.byRegistration
      && forall c :: Willing(r, c, g) ==> Willing(s, c, g)
  {
    if r.operation.Idle? {
      assert Settling(r) == [] && Run(r, Settling(r)) == r;
      hide Inv, AllEnded, Run;
    } else {
      var e := Settling(r)[0];
      assert Settling(r) == [e];
      RunOfOne(r, e);
      SettlingLeavesWilling(r, g);
      hide Run, Inv, Apply, Willing;
      StepKeepsInv(r, e);
      StepReopensNobody(r, e);
    }
  }

  lemma SettlingLeavesWilling<T(!new)>(r: Registry<T>, g: string)
    requires Operations(r) && Resting(r, g) && !r.operation.Idle?
    ensures var s := Apply(r, Settling(r)[0]);
      && s.operation == Idle && g in s.byRegistration
      && forall c :: Willing(r, c, g) ==> Willing(s, c, g)
  {
  }

  lemma WillingUnsubscribes<T(!new)>(r: Registry<T>, g: string, c: ConsumerNo, item: T) returns (es: seq<Event<T>>)
    requires Inv(r) && AllEnded(r) && Resting(r, g) && Willing(r, c, g)
    ensures Quiet(es, g) && AsksUnsubscribe(Run(r, es), g)
  {
    OperationSettles(r, g);
    hide *;
    var s := Run(r, Settling(r));
    var publish: Event<T> := Publish(s.byRegistration[g].subId, item);
    PublishDropsEnded(s, g, item);
    var rest := EverybodyCloses(Apply(s, publish), g, c);
    es := Settling(r) + [publish] + rest;
    RunUnfolds(r, Settling(r), publish);
    RunAppends(r, Settling(r) + [publish], rest);
    QuietJoins(r, publish, rest, g);
  }

  lemma QuietJoins<T(!new)>(r: Registry<T>, publish: Event<T>, rest: seq<Event<T>>, g: string)
    requires Quiet(rest, g) && publish.Publish?
    ensures Quiet(Settling(r) + [publish] + rest, g)
  {
  }

  /** Exactly when a registration is stranded: in every reachable state without an operation
      on `g`, something that can follow, short of a new subscriber or a reconnect, asks the
      broker to unsubscribe `g` if and only if some consumer of `g` has not been asked to
      close or still waits for the lock. */
  lemma StrandedExactly<T(!new)>(r: Registry<T>, g: string, item: T)
    requires Reachable(r) && Resting(r, g)
    ensures (exists es :: Quiet(es, g) && AsksUnsubscribe(Run(r, es), g)) <==> exists c :: Willing(r, c, g)
  {
    var capacity, es0 :| 1 <= capacity && Run(Init<T>(capacity), es0) == r;
    RunKeepsInv<T>(capacity, es0);
    RunKeepsEnded<T>(capacity, es0);
    if c :| Willing(r, c, g) {
      hide Inv, Run, Reachable;
      var es := WillingUnsubscribes(r, g, c, item);
    } else {
      assert Stranded(r, g);
      hide Inv, Run, Reachable;
      forall es | Quiet(es, g)
        ensures !AsksUnsubscribe(Run(r, es), g)
      {
        StrandedStays(r, es, g);
      }
    }
  }

  /** As long as no unsubscribe of `g` has failed, only a close cancelled while it waited for
      the lock strands `g`. */
  lemma OnlyCancelledClosesStrand<T(!new)>(capacity: nat, es: seq<Event<T>>, g: string)
    requires 1 <= capacity && NoUnsubscribeFails(capacity, es, g) && Stranded(Run(Init<T>(capacity), es), g)
    ensures exists c :: Stays(Run(Init<T>(capacity), es), c, g) && Run(Init<T>(capacity), es).consumers[c].close == GivenUp
  {
    SomebodyStays(capacity, es, g);
    var r := Run(Init<T>(capacity), es);
    hide Run, Init;
    var c :| Stays(r, c, g);
    assert !Willing(r, c, g);
  }
}
