/** What callers of the admission gate get: how many may wait, who is refused, who is let in,
    who is next, and what cancellation and close do to those who wait. */
module GateCallers {
  import opened RequestGates

  ghost predicate Reachable(g: Gate) {
    exists maximum, queueSize, es :: 1 <= maximum && Run(Init(maximum, queueSize), es) == g
  }

  // ----- Waiting -----

  lemma {:induction false} ReleaseSlotShortens(g: Gate)
    ensures |ReleaseSlot(g).waiters| <= |g.waiters|
    decreases |g.waiters|
  {
    if g.waiters != [] && g.waiters[0] in g.cancelled {
      ReleaseSlotShortens(g.(waiters := g.waiters[1..], skips := g.skips + 1));
    }
  }

  lemma {:induction false} WithoutShortens(s: seq<Ticket>, t: Ticket)
    ensures |Without(s, t)| <= |s|
  {
    if s != [] { WithoutShortens(s[1..], t); }
  }

  lemma QueueStep(g: Gate, e: Event)
    requires |g.waiters| <= g.queueSize
    ensures |Apply(g, e).waiters| <= g.queueSize
  {
    match e {
      case Resume(t) =>
        ReleaseSlotShortens(Forget(g, t));
        WithoutShortens(g.waiters, t);
      case Release(t) => ReleaseSlotShortens(g.(tokens := g.tokens - {t}));
      case _ =>
    }
  }

  /** Never more than `queueSize` callers wait. */
  lemma {:induction false} QueueIsBounded(maximum: nat, queueSize: nat, es: seq<Event>)
    ensures |Run(Init(maximum, queueSize), es).waiters| <= queueSize
    decreases |es|
  {
    if es != [] {
      QueueIsBounded(maximum, queueSize, es[..|es| - 1]);
      RunKeepsMaximum(Init(maximum, queueSize), es[..|es| - 1]);
      QueueStep(Run(Init(maximum, queueSize), es[..|es| - 1]), es[|es| - 1]);
    }
  }

  lemma ReachableGate(g: Gate)
    requires Reachable(g)
    ensures Inv(g) && |g.waiters| <= g.queueSize
  {
    var maximum, queueSize, es :| 1 <= maximum && Run(Init(maximum, queueSize), es) == g;
    RunKeepsInv(Init(maximum, queueSize), es);
    RunKeepsMaximum(Init(maximum, queueSize), es);
    QueueIsBounded(maximum, queueSize, es);
  }

  /** A caller is refused by an open gate exactly when every slot is taken and as many wait as
      may, and then nothing changes. */
  lemma RefusesExactly(g: Gate)
    requires Reachable(g) && !g.closed
    ensures Apply(g, Acquire).arrivals == g.arrivals <==> g.active == g.maximum && |g.waiters| == g.queueSize
    ensures Apply(g, Acquire).arrivals == g.arrivals ==> Apply(g, Acquire) == g
  {
    ReachableGate(g);
    hide Ordered, NoSlotLost;
  }

  // ----- Being let in -----

  lemma {:induction false} ReleaseSlotKeepsCallers(g: Gate)
    ensures var r := ReleaseSlot(g);
      r.tokens == g.tokens && r.cancelled == g.cancelled && r.failed == g.failed && r.doomed == g.doomed
      && r.arrivals == g.arrivals
    decreases |g.waiters|
  {
    if g.waiters != [] && g.waiters[0] in g.cancelled {
      ReleaseSlotKeepsCallers(g.(waiters := g.waiters[1..], skips := g.skips + 1));
    }
  }

  /** Who is let in, and when: a newcomer at once if a slot is free and nobody waits, and a
      caller that waited when it resumes with a slot reserved for it, provided the gate is
      open and its task was not cancelled. */
  lemma AdmitsExactly(g: Gate, e: Event, t: Ticket)
    requires Reachable(g) && t !in g.tokens
    ensures t in Apply(g, e).tokens
      <==> !g.closed && ((e == Acquire && t == g.arrivals && g.active < g.maximum && g.waiters == [])
                         || (e == Resume(t) && t in g.granted && t !in g.doomed))
  {
    ReachableGate(g);
    match e {
      case Resume(u) => ResumeAdmits(g, u, t);
      case Release(u) => ReleaseSlotKeepsCallers(g.(tokens := g.tokens - {u}));
      case _ =>
    }
    hide ReleaseSlot, ResumeStep, Inv, Reachable;
  }

  lemma ResumeAdmits(g: Gate, u: Ticket, t: Ticket)
    requires t !in g.tokens
    ensures t in ResumeStep(g, u).tokens <==> !g.closed && u == t && t in g.granted && t !in g.doomed
  {
    ReleaseSlotKeepsCallers(Forget(g, u));
    hide ReleaseSlot, Without;
  }

  /** A slot that is given up goes to the caller that has waited longest among those not yet
      cancelled, and back to the pool if there is none; those before it leave the queue. */
  lemma {:induction false} SlotGoesToTheOldest(g: Gate) returns (n: nat)
    ensures n <= |g.waiters|
    ensures forall i :: 0 <= i < n ==> g.waiters[i] in g.cancelled
    ensures var r := ReleaseSlot(g);
      if n == |g.waiters| then
        && r.waiters == [] && r.granted == g.granted && r.grants == g.grants
        && r.active == (if g.active > 0 then g.active - 1 else 0)
      else
        && g.waiters[n] !in g.cancelled && r.waiters == g.waiters[n + 1..] && r.active == g.active
        && r.granted == g.granted + {g.waiters[n]} && r.grants == g.grants + [g.waiters[n]]
    decreases |g.waiters|
  {
    if g.waiters != [] && g.waiters[0] in g.cancelled {
      var rest := g.(waiters := g.waiters[1..], skips := g.skips + 1);
      n := SlotGoesToTheOldest(rest);
      n := n + 1;
    } else {
      n := 0;
    }
  }

  /** Releasing a token does that, once. */
  lemma ReleasePassesTheSlotOn(g: Gate, t: Ticket)
    requires t in g.tokens
    ensures Apply(g, Release(t)) == ReleaseSlot(g.(tokens := g.tokens - {t}))
    ensures t !in Apply(g, Release(t)).tokens
    ensures Apply(Apply(g, Release(t)), Release(t)) == Apply(g, Release(t))
  {
    ReleaseSlotKeepsCallers(g.(tokens := g.tokens - {t}));
  }

  // ----- Cancellation and close -----

  /** A caller whose task is parked in `acquire`. */
  predicate IsParked(g: Gate, t: Ticket) {
    t in g.waiters || Completed(g, t)
  }

  /** The cancellation of a parked caller is under way or has been delivered. */
  predicate Dismissed(g: Gate, t: Ticket) {
    && t < g.arrivals && t !in g.tokens
    && (t in g.waiters ==> t in g.cancelled)
    && (t in g.granted ==> t in g.doomed)
  }

  lemma DismissedStep(g: Gate, e: Event, t: Ticket)
    requires Inv(g) && Dismissed(g, t)
    ensures Dismissed(Apply(g, e), t)
  {
    match e {
      case Resume(u) => ResumeDismisses(g, u, t);
      case Release(u) =>
        assert Dismissed(g.(tokens := g.tokens - {u}), t);
        ReleaseDismisses(g.(tokens := g.tokens - {u}), t);
      case _ =>
    }
    hide ReleaseSlot, ResumeStep;
  }

  lemma SuffixHasNoMore(s: seq<Ticket>, n: nat)
    ensures n <= |s| ==> forall t :: t in s[n..] ==> t in s
    ensures n < |s| ==> s[n] in s && forall t :: t in s[n + 1..] ==> t in s
  {
  }

  lemma ReleaseDismisses(g: Gate, t: Ticket)
    requires Dismissed(g, t)
    ensures Dismissed(ReleaseSlot(g), t)
  {
    var n := SlotGoesToTheOldest(g);
    ReleaseSlotKeepsCallers(g);
    SuffixHasNoMore(g.waiters, n);
    hide ReleaseSlot;
  }

  lemma ResumeDismisses(g: Gate, u: Ticket, t: Ticket)
    requires Inv(g) && Dismissed(g, t)
    ensures Dismissed(ResumeStep(g, u), t)
  {
    if Completed(g, u) {
      var woken := Forget(g, u);
      if u !in g.waiters || u in g.granted {
        assert Dismissed(woken, t);
        ReleaseDismisses(woken, t);
      }
      WithoutKeeps(g.waiters, u);
    }
    hide FirstComeFirstServed, Bounded, NoSlotLost, ReleaseSlot;
  }

  /** A caller cancelled while it is parked is never let in, whatever happens. */
  lemma {:induction false} CancelledIsNeverAdmitted(g: Gate, t: Ticket, es: seq<Event>)
    requires Reachable(g) && IsParked(g, t)
    ensures var d := Run(Apply(g, Cancel(t)), es); Inv(d) && Dismissed(d, t) && t !in d.tokens
    decreases |es|
  {
    ReachableGate(g);
    ApplyKeepsInv(g, Cancel(t));
    if es != [] {
      CancelledIsNeverAdmitted(g, t, es[..|es| - 1]);
      var d, e := Run(Apply(g, Cancel(t)), es[..|es| - 1]), es[|es| - 1];
      ApplyKeepsInv(d, e);
      hide Inv, Apply, Dismissed;
      DismissedStep(d, e, t);
    }
  }

  /** Only its own cancellation cancels or dooms a caller, and only `close` fails one. */
  lemma OnlyItsOwn(g: Gate, e: Event, t: Ticket)
    ensures t in Apply(g, e).doomed && t !in g.doomed ==> e == Cancel(t)
    ensures t in Apply(g, e).cancelled && t !in g.cancelled ==> e == Cancel(t)
    ensures t in Apply(g, e).failed && t !in g.failed ==> e == Close
  {
    match e {
      case Resume(u) => ReleaseSlotKeepsCallers(Forget(g, u));
      case Release(u) => ReleaseSlotKeepsCallers(g.(tokens := g.tokens - {u}));
      case _ =>
    }
  }

  /** `close` leaves nobody parked for good: every waiter's future is completed, as failed
      unless its caller was cancelled, and nobody is left in the queue. */
  lemma CloseWakesEverybody(g: Gate, t: Ticket)
    requires !g.closed && t in g.waiters
    ensures var d := Apply(g, Close);
      && d.closed && d.waiters == [] && Completed(d, t)
      && (t !in g.cancelled ==> t in d.failed)
  {
  }

  /** A resumed caller is no longer parked. */
  lemma ResumedIsGone(g: Gate, t: Ticket)
    requires Reachable(g) && Completed(g, t)
    ensures !IsParked(Apply(g, Resume(t)), t)
  {
    ReachableGate(g);
    WithoutKeeps(g.waiters, t);
    var n := SlotGoesToTheOldest(Forget(g, t));
    ReleaseSlotKeepsCallers(Forget(g, t));
    SuffixHasNoMore(g.waiters, n);
    hide FirstComeFirstServed, Bounded, NoSlotLost;
  }
}
