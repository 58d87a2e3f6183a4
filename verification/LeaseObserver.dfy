/** The lease inventory observer: the fields its background tasks share, and the code they
    run between two suspension points.  `_lock` is only ever held across code that does not
    suspend, so a locked region is part of one step. */
module LeaseObservers {

  datatype LeaseListItem = LeaseListItem(
    route: string, ownerId: string, holderIncarnation: nat,
    acquiredAt: string, expiresInSecs: nat, renewals: nat)

  type View = map<string, LeaseListItem>

  datatype Mode = Buffering | Steady

  datatype Observer = Observer(
    view: View, ready: bool, closed: bool, mode: Mode, buffer: seq<string>,
    notifications: nat, invalidate: bool,
    subscriptionReady: bool, subscriptionGeneration: nat)

  function Fresh(): Observer {
    Observer(map[], false, false, Buffering, [], 0, true, false, 0)
  }

  /** `_full_list`: later items win. */
  function ToView(items: seq<LeaseListItem>): View {
    if items == [] then map[]
    else
      var last := items[|items| - 1];
      ToView(items[..|items| - 1])[last.route := last]
  }

  /** `_note_notification`, called before the notification is queued. */
  function Noted(o: Observer): Observer {
    var n := o.(notifications := o.notifications + 1);
    if o.mode == Buffering then n else n.(ready := false, invalidate := true)
  }

  /** `_note_subscription_failure`. */
  function SubscriptionFailed(o: Observer): Observer {
    o.(subscriptionGeneration := o.subscriptionGeneration + 1, subscriptionReady := false,
       ready := false, mode := Buffering, buffer := [], invalidate := true)
  }

  /** `_handle_reconnect`. */
  function Reconnected(o: Observer): Observer {
    o.(ready := false, mode := Buffering, buffer := [],
       subscriptionGeneration := o.subscriptionGeneration + 1, invalidate := true)
  }

  /** One item of the subscription in `_consume`. */
  function Consumed(o: Observer, route: string): Observer {
    if o.mode == Buffering then o.(buffer := o.buffer + [route])
    else o.(ready := false, invalidate := true)
  }

  /** The subscription ended without an error. */
  function EndedCleanly(o: Observer): Observer {
    o.(subscriptionReady := false, ready := false)
  }

  /** A (replacement) subscription is attached. */
  function Subscribed(o: Observer): Observer {
    o.(subscriptionGeneration := o.subscriptionGeneration + 1, subscriptionReady := true, invalidate := true)
  }

  /** From `_invalidate.clear()` to the first LIST request of `_bootstrap`. */
  function EnterBootstrap(o: Observer): Observer {
    o.(invalidate := false, mode := Buffering, buffer := [])
  }

  predicate Raced(o: Observer, subscriptionGeneration: nat, notifications: nat) {
    || o.buffer != []
    || o.notifications != notifications
    || !o.subscriptionReady
    || o.subscriptionGeneration != subscriptionGeneration
  }

  /** The end of one LIST pass that started at the given generations. */
  function PassEnded(o: Observer, view: View, subscriptionGeneration: nat, notifications: nat): Observer {
    if Raced(o, subscriptionGeneration, notifications) then o.(buffer := [])
    else o.(view := view, mode := Steady, buffer := [], ready := true)
  }

  function PassFailed(o: Observer): Observer {
    o.(ready := false)
  }

  /** One tick of `_reconcile_loop`. */
  function Reconciled(o: Observer): Observer {
    o.(ready := false, invalidate := true)
  }

  function Closed(o: Observer): Observer {
    o.(closed := true, invalidate := true)
  }

  // ----- The observer object -----

  class LeaseInventoryObserver {
    var view: View
    var ready: bool
    var closed: bool
    var mode: Mode
    var buffer: seq<string>
    var notificationGeneration: nat
    var invalidate: bool
    var subscriptionReady: bool
    var subscriptionGeneration: nat

    ghost function Model(): Observer
      reads this
    {
      Observer(view, ready, closed, mode, buffer, notificationGeneration, invalidate,
               subscriptionReady, subscriptionGeneration)
    }

    constructor ()
      ensures Model() == Fresh()
    {
      view, ready, closed, mode, buffer := map[], false, false, Buffering, [];
      notificationGeneration, invalidate, subscriptionReady, subscriptionGeneration := 0, true, false, 0;
    }

    method NoteNotification()
      modifies this
      ensures Model() == Noted(old(Model()))
    {
      notificationGeneration := notificationGeneration + 1;
      if mode != Buffering {
        ready := false;
        invalidate := true;
      }
    }

    method NoteSubscriptionFailure()
      modifies this
      ensures Model() == SubscriptionFailed(old(Model()))
    {
      subscriptionGeneration := subscriptionGeneration + 1;
      subscriptionReady := false;
      ready := false;
      mode := Buffering;
      buffer := [];
      invalidate := true;
    }

    method HandleReconnect()
      modifies this
      ensures Model() == Reconnected(old(Model()))
    {
      ready := false;
      mode := Buffering;
      buffer := [];
      subscriptionGeneration := subscriptionGeneration + 1;
      invalidate := true;
    }

    method ConsumeItem(route: string)
      modifies this
      ensures Model() == Consumed(old(Model()), route)
    {
      if mode == Buffering {
        buffer := buffer + [route];
      } else {
        ready := false;
        invalidate := true;
      }
    }

    /** How `_consume` leaves its loop over the subscription. */
    method SubscriptionOver(failed: bool)
      modifies this
      ensures Model() == (if !failed then EndedCleanly(old(Model()))
                          else if old(subscriptionReady) then SubscriptionFailed(old(Model()))
                          else old(Model()))
    {
      if failed {
        if subscriptionReady {
          NoteSubscriptionFailure();
        }
      } else {
        subscriptionReady := false;
        ready := false;
      }
    }

    method SubscriptionAttached()
      modifies this
      ensures Model() == Subscribed(old(Model()))
    {
      subscriptionGeneration := subscriptionGeneration + 1;
      subscriptionReady := true;
      invalidate := true;
    }

    /** Returns the generations this LIST pass starts from. */
    method BeginBootstrap() returns (generation: nat, notifications: nat)
      modifies this
      ensures Model() == EnterBootstrap(old(Model()))
      ensures generation == subscriptionGeneration && notifications == notificationGeneration
    {
      invalidate := false;
      mode := Buffering;
      buffer := [];
      generation, notifications := subscriptionGeneration, notificationGeneration;
    }

    /** Adds one LIST page to the view under construction. */
    method AddPage(partial: View, listed: seq<LeaseListItem>, page: seq<LeaseListItem>) returns (v: View)
      requires partial == ToView(listed)
      ensures v == ToView(listed + page)
    {
      v := partial;
      assert listed + page[..0] == listed;
      for i := 0 to |page|
        invariant v == ToView(listed + page[..i])
      {
        v := v[page[i].route := page[i]];
        assert (listed + page[..i + 1])[..|listed| + i] == listed + page[..i];
      }
      assert page[..|page|] == page;
    }

    method EndPass(listed: View, generation: nat, notifications: nat) returns (raced: bool)
      modifies this
      ensures raced <==> Raced(old(Model()), generation, notifications)
      ensures Model() == PassEnded(old(Model()), listed, generation, notifications)
    {
      raced :=
        || buffer != []
        || notificationGeneration != notifications
        || !subscriptionReady
        || subscriptionGeneration != generation;
      if raced {
        buffer := [];
      } else {
        view := listed;
        mode := Steady;
        buffer := [];
        ready := true;
      }
    }

    method BootstrapFailed()
      modifies this
      ensures Model() == PassFailed(old(Model()))
    {
      ready := false;
    }

    method ReconcileTick()
      modifies this
      ensures Model() == Reconciled(old(Model()))
    {
      ready := false;
      invalidate := true;
    }

    method Close()
      modifies this
      ensures Model() == Closed(old(Model()))
    {
      closed := true;
      invalidate := true;
    }
  }
}
