/** The admission gate in front of every request: a bounded FIFO semaphore that hands a
    released slot directly to the oldest waiter.

    One event of the transition system is the code between two suspension points.  A waiter
    is named by its ticket, the order in which `acquire` was entered; the future it is
    parked on is an entry of `parked`. */
module RequestGates {

  type Ticket = nat

  /** A parked task's future is pending while its ticket is only in `waiters`, and otherwise
      completed in the way the set holding its ticket says.  `doomed` are the tasks
      cancelled after their future completed: the cancellation is delivered on resumption.
      `tokens` are the release callbacks not yet called.  `grants` and `skips` record the
      run: every slot reservation in order, and how many cancelled waiters a release has
      met in the deque. */
  datatype Gate = Gate(
    maximum: nat, queueSize: nat, active: nat, closed: bool, waiters: seq<Ticket>,
    granted: set<Ticket>, cancelled: set<Ticket>, failed: set<Ticket>, doomed: set<Ticket>,
    tokens: set<Ticket>, arrivals: nat, grants: seq<Ticket>, skips: nat)

  datatype Event = Acquire | Cancel(t: Ticket) | Resume(t: Ticket) | Release(t: Ticket) | Close

  function Init(maximum: nat, queueSize: nat): Gate {
    Gate(maximum, queueSize, 0, false, [], {}, {}, {}, {}, {}, 0, [], 0)
  }

  // ----- The atomic steps -----

  function ReleaseSlot(g: Gate): (r: Gate)
    decreases |g.waiters|
  {
    if g.waiters == [] then
      g.(active := if g.active > 0 then g.active - 1 else 0)
    else
      var w, popped := g.waiters[0], g.(waiters := g.waiters[1..]);
      if w !in g.cancelled then
        popped.(granted := g.granted + {w}, grants := g.grants + [w])
      else
        ReleaseSlot(popped.(skips := g.skips + 1))
  }

  function Without(s: seq<Ticket>, t: Ticket): seq<Ticket> {
    if s == [] then [] else if s[0] == t then s[1..] else [s[0]] + Without(s[1..], t)
  }

  function AcquireStep(g: Gate): Gate {
    if g.closed then g
    else if g.active < g.maximum && g.waiters == [] then
      g.(active := g.active + 1, tokens := g.tokens + {g.arrivals},
         grants := g.grants + [g.arrivals], arrivals := g.arrivals + 1)
    else if |g.waiters| >= g.queueSize then g
    else g.(waiters := g.waiters + [g.arrivals], arrivals := g.arrivals + 1)
  }

  predicate Completed(g: Gate, t: Ticket) {
    t in g.granted || t in g.cancelled || t in g.failed
  }

  /** `Task.cancel` on a parked task: a pending future is cancelled at once, a completed one
      leaves the cancellation for the moment the task resumes. */
  function CancelStep(g: Gate, t: Ticket): Gate {
    if Completed(g, t) then g.(doomed := g.doomed + {t})
    else if t in g.waiters then g.(cancelled := g.cancelled + {t})
    else g
  }

  function Forget(g: Gate, t: Ticket): Gate {
    g.(granted := g.granted - {t}, cancelled := g.cancelled - {t}, failed := g.failed - {t},
       doomed := g.doomed - {t})
  }

  function ResumeStep(g: Gate, t: Ticket): Gate {
    if !Completed(g, t) then g
    else
      var woken := Forget(g, t);
      if t in g.granted && t !in g.doomed then
        if g.closed then ReleaseSlot(woken) else woken.(tokens := g.tokens + {t})
      else if t in g.waiters then
        woken.(waiters := Without(g.waiters, t))
      else
        ReleaseSlot(woken)
  }

  function ReleaseStep(g: Gate, t: Ticket): Gate {
    if t !in g.tokens then g else ReleaseSlot(g.(tokens := g.tokens - {t}))
  }

  function Queue(g: Gate): set<Ticket> {
    set t | t in g.waiters
  }

  function CloseStep(g: Gate): Gate {
    if g.closed then g
    else g.(closed := true, failed := g.failed + (Queue(g) - g.cancelled), waiters := [])
  }

  function Apply(g: Gate, e: Event): Gate {
    match e
    case Acquire => AcquireStep(g)
    case Cancel(t) => CancelStep(g, t)
    case Resume(t) => ResumeStep(g, t)
    case Release(t) => ReleaseStep(g, t)
    case Close => CloseStep(g)
  }

  function Run(g: Gate, es: seq<Event>): Gate {
    if es == [] then g else Apply(Run(g, es[..|es| - 1]), es[|es| - 1])
  }

  // ----- What a run keeps -----

  /** Everyone holding a slot: callers with an unreleased token and waiters whose slot is
      reserved but who have not resumed yet. */
  function Holders(g: Gate): set<Ticket> {
    g.tokens + g.granted
  }

  /** Cancelled waiters a release already popped: when such a waiter resumes it releases a
      slot it never held. */
  function Phantoms(g: Gate): set<Ticket> {
    g.cancelled - Queue(g)
  }

  predicate CapacityLaw(g: Gate) {
    |Holders(g)| == g.active
  }

  predicate Ascending(s: seq<Ticket>) {
    forall i, j :: 0 <= i < j < |s| ==> s[i] < s[j]
  }

  predicate Shape(g: Gate) {
    && Ascending(g.waiters)
    && (forall t :: t in g.waiters ==> t < g.arrivals)
    && (forall t :: t in g.cancelled ==> t < g.arrivals)
    && (forall t :: t in g.granted ==> t < g.arrivals && t !in g.waiters && t !in g.cancelled)
    && (forall t :: t in g.tokens ==>
          t < g.arrivals && t !in g.waiters && t !in g.cancelled && t !in g.granted && t !in g.failed)
    && (forall t :: t in g.failed ==> t < g.arrivals)
    && (if g.closed then g.waiters == [] else g.failed == {})
  }

  predicate FirstComeFirstServed(g: Gate) {
    && Ascending(g.grants)
    && (forall t :: t in g.grants ==> t < g.arrivals)
    && (forall t, w :: t in g.grants && w in g.waiters ==> t < w)
  }

  predicate Bounded(g: Gate) {
    && 1 <= g.maximum
    && g.active <= g.maximum
    && (g.waiters != [] ==> g.active == g.maximum)
  }

  predicate NoSlotLost(g: Gate) {
    g.active <= |Holders(g)| && |Holders(g)| + |Phantoms(g)| <= g.active + g.skips
  }

  predicate Ordered(g: Gate) {
    Shape(g) && FirstComeFirstServed(g)
  }

  predicate Inv(g: Gate) {
    && Ordered(g)
    && (!g.closed ==> Bounded(g) && NoSlotLost(g))
  }

  // ----- Proofs -----

  lemma HeadIsLeast(s: seq<Ticket>)
    requires Ascending(s) && s != []
    ensures Ascending(s[1..]) && s[0] !in s[1..]
    ensures forall t :: t in s <==> t == s[0] || t in s[1..]
    ensures forall t :: t in s[1..] ==> s[0] < t
  {
    var rest := s[1..];
    assert s == [s[0]] + rest;
    forall t | t in rest ensures s[0] < t {
      var i :| 0 <= i < |rest| && rest[i] == t;
      assert s[0] < s[i + 1];
    }
  }

  lemma {:induction false} WithoutKeeps(s: seq<Ticket>, t: Ticket)
    requires Ascending(s)
    ensures Ascending(Without(s, t))
    ensures forall w :: w in Without(s, t) <==> w in s && w != t
  {
    if s != [] {
      HeadIsLeast(s);
      WithoutKeeps(s[1..], t);
      var r := Without(s[1..], t);
      if s[0] != t {
        assert Without(s, t) == [s[0]] + r;
        forall i, j | 0 <= i < j < |[s[0]] + r| ensures ([s[0]] + r)[i] < ([s[0]] + r)[j] {
          assert r[j - 1] in r;
        }
      }
    }
  }

  lemma {:induction false} WithoutAt(s: seq<Ticket>, t: Ticket, i: nat)
    requires i < |s| && s[i] == t && t !in s[..i]
    ensures Without(s, t) == s[..i] + s[i + 1..]
  {
    if i > 0 {
      assert s[0] in s[..i] && s[..i] == [s[0]] + s[1..][..i - 1];
      WithoutAt(s[1..], t, i - 1);
    }
  }

  lemma AppendKeepsAscending(s: seq<Ticket>, t: Ticket)
    requires Ascending(s) && forall w :: w in s ==> w < t
    ensures Ascending(s + [t])
  {
    forall i, j | 0 <= i < j < |s + [t]| ensures (s + [t])[i] < (s + [t])[j] {
      assert s[i] in s;
    }
  }

  /** What holds between a slot being given up and `ReleaseSlot` passing it on. */
  predicate Releasing(g: Gate) {
    && Ordered(g)
    && (!g.closed ==>
          && Bounded(g)
          && g.active <= |Holders(g)| + 1
          && |Holders(g)| + |Phantoms(g)| + 1 <= g.active + g.skips)
  }

  lemma SkipKeepsOrdered(g: Gate)
    requires Ordered(g) && g.waiters != []
    ensures Ordered(g.(waiters := g.waiters[1..], skips := g.skips + 1))
  {
    HeadIsLeast(g.waiters);
  }

  lemma SkipPhantoms(g: Gate)
    requires Ordered(g) && g.waiters != [] && g.waiters[0] in g.cancelled
    ensures Phantoms(g.(waiters := g.waiters[1..], skips := g.skips + 1)) == Phantoms(g) + {g.waiters[0]}
    ensures g.waiters[0] !in Phantoms(g)
  {
    HeadIsLeast(g.waiters);
  }

  lemma SkipKeeps(g: Gate)
    requires Releasing(g) && g.waiters != [] && g.waiters[0] in g.cancelled
    ensures Releasing(g.(waiters := g.waiters[1..], skips := g.skips + 1))
    ensures Holders(g.(waiters := g.waiters[1..], skips := g.skips + 1)) == Holders(g)
  {
    hide Shape, FirstComeFirstServed, Phantoms;
    SkipKeepsOrdered(g);
    SkipPhantoms(g);
  }

  /** The excess of holders over `active` grows by one exactly when `active` is positive. */
  predicate PassesOneSlot(g: Gate, r: Gate) {
    && Inv(r)
    && r.closed == g.closed
    && r.tokens == g.tokens
    && |Holders(r)| - r.active == |Holders(g)| - g.active + (if g.active > 0 then 1 else 0)
  }

  lemma GrantKeepsShape(g: Gate)
    requires Shape(g) && g.waiters != [] && g.waiters[0] !in g.cancelled
    ensures Shape(ReleaseSlot(g))
    ensures Holders(ReleaseSlot(g)) == Holders(g) + {g.waiters[0]}
    ensures Phantoms(ReleaseSlot(g)) == Phantoms(g)
  {
    HeadIsLeast(g.waiters);
  }

  lemma GrantKeepsOrder(g: Gate)
    requires Shape(g) && FirstComeFirstServed(g) && g.waiters != [] && g.waiters[0] !in g.cancelled
    ensures FirstComeFirstServed(ReleaseSlot(g))
  {
    HeadIsLeast(g.waiters);
    AppendKeepsAscending(g.grants, g.waiters[0]);
  }

  lemma GrantKeeps(g: Gate)
    requires Releasing(g) && g.waiters != [] && g.waiters[0] !in g.cancelled
    ensures PassesOneSlot(g, ReleaseSlot(g))
  {
    GrantKeepsShape(g);
    GrantKeepsOrder(g);
    assert g.waiters[0] !in Holders(g);
  }

  lemma NobodyWaitsKeeps(g: Gate)
    requires Releasing(g) && g.waiters == []
    ensures PassesOneSlot(g, ReleaseSlot(g))
  {
    assert Holders(ReleaseSlot(g)) == Holders(g) && Phantoms(ReleaseSlot(g)) == Phantoms(g);
  }

  lemma {:induction false} ReleaseSlotKeeps(g: Gate)
    requires Releasing(g)
    ensures PassesOneSlot(g, ReleaseSlot(g))
    decreases |g.waiters|
  {
    hide Inv, Ordered, Holders, Phantoms;
    if g.waiters == [] {
      NobodyWaitsKeeps(g);
    } else if g.waiters[0] !in g.cancelled {
      GrantKeeps(g);
    } else {
      var popped := g.(waiters := g.waiters[1..], skips := g.skips + 1);
      SkipKeeps(g);
      ReleaseSlotKeeps(popped);
      var r := ReleaseSlot(popped);
      assert ReleaseSlot(g) == r && PassesOneSlot(popped, r);
    }
  }

  lemma AcquireKeepsOrdered(g: Gate)
    requires Ordered(g)
    ensures Ordered(AcquireStep(g))
  {
    if !g.closed {
      if g.active < g.maximum && g.waiters == [] {
        AppendKeepsAscending(g.grants, g.arrivals);
      } else if |g.waiters| < g.queueSize {
        AppendKeepsAscending(g.waiters, g.arrivals);
      }
    }
  }

  lemma AcquireHolders(g: Gate)
    requires Shape(g)
    ensures Phantoms(AcquireStep(g)) == Phantoms(g)
    ensures AcquireStep(g).active == g.active ==> Holders(AcquireStep(g)) == Holders(g)
    ensures AcquireStep(g).active != g.active ==>
              && AcquireStep(g).active == g.active + 1
              && Holders(AcquireStep(g)) == Holders(g) + {g.arrivals} && g.arrivals !in Holders(g)
  {
  }

  lemma AcquireKeeps(g: Gate)
    requires Inv(g)
    ensures Inv(AcquireStep(g))
    ensures !g.closed && CapacityLaw(g) ==> CapacityLaw(AcquireStep(g))
  {
    hide Shape, FirstComeFirstServed, Phantoms, Holders;
    AcquireKeepsOrdered(g);
    AcquireHolders(g);
  }

  lemma CancelKeepsOrdered(g: Gate, t: Ticket)
    requires Ordered(g)
    ensures Ordered(CancelStep(g, t))
    ensures Holders(CancelStep(g, t)) == Holders(g)
    ensures Phantoms(CancelStep(g, t)) == Phantoms(g)
  {
  }

  lemma CancelKeeps(g: Gate, t: Ticket)
    requires Inv(g)
    ensures Inv(CancelStep(g, t))
    ensures CapacityLaw(g) ==> CapacityLaw(CancelStep(g, t))
  {
    hide Ordered, Phantoms, Holders;
    CancelKeepsOrdered(g, t);
  }

  lemma GiveUpKeepsOrdered(g: Gate, t: Ticket)
    requires Ordered(g) && Completed(g, t) && t !in g.waiters
    ensures Ordered(Forget(g, t))
    ensures Holders(Forget(g, t)) == Holders(g) - {t}
    ensures Phantoms(Forget(g, t)) == Phantoms(g) - {t}
    ensures !g.closed ==> (t in Holders(g)) != (t in Phantoms(g))
  {
  }

  lemma GiveUpKeepsReleasing(g: Gate, t: Ticket)
    requires Inv(g) && Completed(g, t) && t !in g.waiters
    ensures Releasing(Forget(g, t))
    ensures !g.closed && CapacityLaw(g) ==> |Holders(Forget(g, t))| == g.active - (if IsPhantom(g, t) then 0 else 1)
  {
    hide Ordered, Phantoms, Holders, Completed;
    GiveUpKeepsOrdered(g, t);
  }

  lemma TakeTokenKeepsOrdered(g: Gate, t: Ticket)
    requires Ordered(g) && t in g.granted && !g.closed
    ensures Ordered(Forget(g, t).(tokens := g.tokens + {t}))
    ensures Holders(Forget(g, t).(tokens := g.tokens + {t})) == Holders(g)
    ensures Phantoms(Forget(g, t).(tokens := g.tokens + {t})) == Phantoms(g)
    ensures !IsPhantom(g, t)
  {
  }

  lemma TakeTokenKeeps(g: Gate, t: Ticket)
    requires Inv(g) && t in g.granted && !g.closed
    ensures Inv(Forget(g, t).(tokens := g.tokens + {t}))
    ensures CapacityLaw(g) ==> CapacityLaw(Forget(g, t).(tokens := g.tokens + {t}))
    ensures !IsPhantom(g, t)
  {
    hide Ordered, Phantoms, Holders;
    TakeTokenKeepsOrdered(g, t);
  }

  lemma LeaveQueueKeepsOrdered(g: Gate, t: Ticket)
    requires Ordered(g) && t in g.waiters && t in g.cancelled
    ensures Ordered(Forget(g, t).(waiters := Without(g.waiters, t)))
    ensures Holders(Forget(g, t).(waiters := Without(g.waiters, t))) == Holders(g)
    ensures Phantoms(Forget(g, t).(waiters := Without(g.waiters, t))) == Phantoms(g)
    ensures !IsPhantom(g, t)
  {
    WithoutKeeps(g.waiters, t);
  }

  lemma LeaveQueueKeeps(g: Gate, t: Ticket)
    requires Inv(g) && t in g.waiters && t in g.cancelled
    ensures Inv(Forget(g, t).(waiters := Without(g.waiters, t)))
    ensures CapacityLaw(g) ==> CapacityLaw(Forget(g, t).(waiters := Without(g.waiters, t)))
    ensures !IsPhantom(g, t)
  {
    hide Ordered, Phantoms, Holders;
    LeaveQueueKeepsOrdered(g, t);
    assert g.waiters != [];
  }

  predicate IsPhantom(g: Gate, t: Ticket) {
    t in Phantoms(g)
  }

  lemma QueuedIsCancelled(g: Gate, t: Ticket)
    requires Ordered(g) && Completed(g, t) && t in g.waiters
    ensures t in g.cancelled && !g.closed && t !in g.granted
  {
  }

  /** Resuming a waiter breaks the capacity law exactly when the waiter is a phantom and
      some slot is counted as taken. */
  lemma ResumeKeeps(g: Gate, t: Ticket)
    requires Inv(g)
    ensures Inv(ResumeStep(g, t)) && ResumeStep(g, t).closed == g.closed
    ensures g.closed ==> ResumeStep(g, t).tokens == g.tokens
    ensures Completed(g, t) && !g.closed && CapacityLaw(g) ==>
              (CapacityLaw(ResumeStep(g, t)) <==> !(IsPhantom(g, t) && g.active > 0))
  {
    hide Ordered, Phantoms, Holders, IsPhantom;
    if Completed(g, t) {
      if t in g.granted && t !in g.doomed && !g.closed {
        TakeTokenKeeps(g, t);
      } else if t in g.waiters {
        QueuedIsCancelled(g, t);
        LeaveQueueKeeps(g, t);
      } else {
        GiveUpKeepsReleasing(g, t);
        ReleaseSlotKeeps(Forget(g, t));
      }
    }
  }

  lemma DropTokenKeepsOrdered(g: Gate, t: Ticket)
    requires Ordered(g) && t in g.tokens
    ensures Ordered(g.(tokens := g.tokens - {t}))
    ensures Holders(g.(tokens := g.tokens - {t})) == Holders(g) - {t} && t in Holders(g)
    ensures Phantoms(g.(tokens := g.tokens - {t})) == Phantoms(g)
  {
  }

  lemma ReleaseKeeps(g: Gate, t: Ticket)
    requires Inv(g)
    ensures Inv(ReleaseStep(g, t)) && ReleaseStep(g, t).closed == g.closed
    ensures ReleaseStep(g, t).tokens <= g.tokens
    ensures !g.closed && CapacityLaw(g) ==> CapacityLaw(ReleaseStep(g, t))
  {
    hide Ordered, Phantoms, Holders;
    if t in g.tokens {
      DropTokenKeepsOrdered(g, t);
      ReleaseSlotKeeps(g.(tokens := g.tokens - {t}));
    }
  }

  lemma CloseKeeps(g: Gate)
    requires Inv(g)
    ensures Inv(CloseStep(g))
  {
  }

  // ----- Over whole runs -----

  lemma {:induction false} RunKeepsInv(g: Gate, es: seq<Event>)
    requires Inv(g)
    ensures Inv(Run(g, es))
  {
    if es != [] {
      RunKeepsInv(g, es[..|es| - 1]);
      ApplyKeepsInv(Run(g, es[..|es| - 1]), es[|es| - 1]);
    }
  }

  lemma ApplyKeepsInv(g: Gate, e: Event)
    requires Inv(g)
    ensures Inv(Apply(g, e))
  {
    hide Inv;
    match e {
      case Acquire => AcquireKeeps(g);
      case Cancel(t) => CancelKeeps(g, t);
      case Resume(t) => ResumeKeeps(g, t);
      case Release(t) => ReleaseKeeps(g, t);
      case Close => CloseKeeps(g);
    }
  }

  /** Over every run from a fresh gate, whatever the scheduler and the cancellations do:
      capacity is never exceeded by `active` and is fully used while anyone queues; slots
      are reserved in arrival order, so no newcomer overtakes a queued caller; `active`
      never counts a slot nobody holds; and holders can exceed `active` only by the number
      of cancelled waiters releases have met in the deque. */
  lemma EveryRun(maximum: nat, queueSize: nat, es: seq<Event>)
    requires 1 <= maximum
    ensures var g := Run(Init(maximum, queueSize), es);
      && Ascending(g.grants)
      && (forall t, w :: t in g.grants && w in g.waiters ==> t < w)
      && (!g.closed ==>
            && g.active <= maximum
            && (g.waiters != [] ==> g.active == maximum)
            && g.active <= |Holders(g)| <= g.active + g.skips)
  {
    assert Inv(Init(maximum, queueSize));
    RunKeepsInv(Init(maximum, queueSize), es);
    RunKeepsMaximum(Init(maximum, queueSize), es);
  }

  lemma {:induction false} RunKeepsMaximum(g: Gate, es: seq<Event>)
    ensures Run(g, es).maximum == g.maximum && Run(g, es).queueSize == g.queueSize
  {
    if es != [] {
      RunKeepsMaximum(g, es[..|es| - 1]);
      var h, e := Run(g, es[..|es| - 1]), es[|es| - 1];
      match e {
        case Acquire =>
        case Cancel(t) =>
        case Resume(t) => ReleaseSlotKeepsMaximum(Forget(h, t));
        case Release(t) => ReleaseSlotKeepsMaximum(h.(tokens := h.tokens - {t}));
        case Close =>
      }
    }
  }

  lemma {:induction false} ReleaseSlotKeepsMaximum(g: Gate)
    ensures ReleaseSlot(g).maximum == g.maximum && ReleaseSlot(g).queueSize == g.queueSize
    decreases |g.waiters|
  {
    if g.waiters != [] && g.waiters[0] in g.cancelled {
      ReleaseSlotKeepsMaximum(g.(waiters := g.waiters[1..], skips := g.skips + 1));
    }
  }

  /** In a run where no release meets a cancelled waiter, unreleased tokens and reserved
      slots equal `active` exactly: no slot is lost or duplicated. */
  lemma NoSkipsNoSlotLostOrDuplicated(maximum: nat, queueSize: nat, es: seq<Event>)
    requires 1 <= maximum
    requires Run(Init(maximum, queueSize), es).skips == 0
    ensures var g := Run(Init(maximum, queueSize), es); !g.closed ==> CapacityLaw(g)
  {
    EveryRun(maximum, queueSize, es);
  }

  /** The capacity law over one event, both ways: it survives every event except the
      resumption of a phantom while some slot is counted as taken. */
  lemma CapacityLawExactly(g: Gate, e: Event)
    requires Inv(g) && !g.closed && CapacityLaw(g) && !e.Close?
    ensures !Apply(g, e).closed
    ensures CapacityLaw(Apply(g, e)) <==> !(e.Resume? && e.t in Phantoms(g) && g.active > 0)
  {
    hide Inv, CapacityLaw;
    match e {
      case Acquire => AcquireKeeps(g);
      case Cancel(t) => CancelKeeps(g, t);
      case Resume(t) => ResumeKeeps(g, t);
      case Release(t) => ReleaseKeeps(g, t);
      case Close =>
    }
  }

  /** A run that duplicates a slot.  With capacity one, 0 holds the slot, 1, 2
      and 3 wait, 1 is cancelled and before its task resumes 0 releases: the release skips
      1 and reserves the slot for 2.  When 1 resumes it releases again, so 3 is let in as
      well and two callers hold the only slot. */
  const PHANTOM_RUN: seq<Event> :=
    [Acquire, Acquire, Acquire, Acquire, Cancel(1), Release(0), Resume(1), Resume(2), Resume(3)]

  lemma PhantomRunOverAdmits()
    ensures Run(Init(1, 8), PHANTOM_RUN).tokens == {2, 3}
    ensures Run(Init(1, 8), PHANTOM_RUN).active == 1
  {
    PhantomRunQueues();
    PhantomRunReleases();
    PhantomRunResumes();
    var g, es := Init(1, 8), PHANTOM_RUN;
    RunUnfolds(g, es[..8], Resume(3));
    RunUnfolds(g, es[..7], Resume(2));
    RunUnfolds(g, es[..6], Resume(1));
    RunUnfolds(g, es[..5], Release(0));
    RunUnfolds(g, es[..4], Cancel(1));
    assert es[..8] + [Resume(3)] == es && es[..7] + [Resume(2)] == es[..8];
    assert es[..6] + [Resume(1)] == es[..7] && es[..5] + [Release(0)] == es[..6];
    assert es[..4] + [Cancel(1)] == es[..5] && es[..4] == [Acquire, Acquire, Acquire, Acquire];
  }

  const QUEUED_GATE := Gate(1, 8, 1, false, [1, 2, 3], {}, {}, {}, {}, {0}, 4, [0], 0)
  const SKIPPED_GATE := Gate(1, 8, 1, false, [3], {2}, {1}, {}, {}, {}, 4, [0, 2], 1)

  lemma PhantomRunQueues()
    ensures Run(Init(1, 8), [Acquire, Acquire, Acquire, Acquire]) == QUEUED_GATE
  {
    PhantomRunAdmits();
    var g := Init(1, 8);
    RunUnfolds(g, [Acquire, Acquire], Acquire);
    RunUnfolds(g, [Acquire, Acquire, Acquire], Acquire);
    hide Run;
    assert [Acquire, Acquire] + [Acquire] == [Acquire, Acquire, Acquire];
    assert [Acquire, Acquire, Acquire] + [Acquire] == [Acquire, Acquire, Acquire, Acquire];
    var g3 := AcquireStep(ADMITTED_GATE);
    assert g3 == ADMITTED_GATE.(waiters := [1, 2], arrivals := 3);
  }

  const ADMITTED_GATE := Gate(1, 8, 1, false, [1], {}, {}, {}, {}, {0}, 2, [0], 0)

  lemma PhantomRunAdmits()
    ensures Run(Init(1, 8), [Acquire, Acquire]) == ADMITTED_GATE
  {
    var g := Init(1, 8);
    RunUnfolds(g, [], Acquire);
    RunUnfolds(g, [Acquire], Acquire);
    assert Run(g, []) == g && [] + [Acquire] == [Acquire] && [Acquire] + [Acquire] == [Acquire, Acquire];
    hide Run;
    var g1 := AcquireStep(g);
    assert g1 == g.(active := 1, tokens := {0}, arrivals := 1, grants := [0]);
    assert AcquireStep(g1) == g1.(waiters := [1], arrivals := 2);
  }

  lemma PhantomRunReleases()
    ensures ReleaseStep(CancelStep(QUEUED_GATE, 1), 0) == SKIPPED_GATE
  {
    var r := QUEUED_GATE.(cancelled := {1}, tokens := {});
    var popped := r.(waiters := [2, 3], skips := 1);
    var c := CancelStep(QUEUED_GATE, 1);
    assert c == QUEUED_GATE.(cancelled := {1});
    assert c.(tokens := c.tokens - {0}) == r;
    assert r.waiters[1..] == [2, 3] && r.(waiters := r.waiters[1..], skips := r.skips + 1) == popped;
    assert ReleaseSlot(r) == ReleaseSlot(popped);
    assert popped.waiters[1..] == [3] && popped.granted + {2} == {2} && popped.grants + [2] == [0, 2];
  }

  lemma PhantomRunResumes()
    ensures var g := ResumeStep(ResumeStep(ResumeStep(SKIPPED_GATE, 1), 2), 3);
      g.tokens == {2, 3} && g.active == 1
  {
    var woken := SKIPPED_GATE.(cancelled := {});
    assert Forget(SKIPPED_GATE, 1) == woken && woken.waiters[1..] == [];
    var g := ResumeStep(SKIPPED_GATE, 1);
    assert g == woken.(waiters := [], granted := {2, 3}, grants := [0, 2, 3]);
    var h := ResumeStep(g, 2);
    assert h.granted == {3} && h.tokens == {2} && h.doomed == {};
  }

  lemma RunUnfolds(g: Gate, es: seq<Event>, e: Event)
    ensures Run(g, es + [e]) == Apply(Run(g, es), e)
  {
    assert (es + [e])[..|es|] == es;
  }

  /** A closed gate admits nobody: whatever happens afterwards, no caller that did not
      already hold a token ever gets one, including those parked when it closed. */
  lemma {:induction false} ClosedGateAdmitsNobody(g: Gate, es: seq<Event>)
    requires Inv(g) && g.closed
    ensures Run(g, es).closed && Inv(Run(g, es)) && Run(g, es).tokens <= g.tokens
  {
    if es != [] {
      ClosedGateAdmitsNobody(g, es[..|es| - 1]);
      var h, e := Run(g, es[..|es| - 1]), es[|es| - 1];
      ApplyKeepsInv(h, e);
      match e {
        case Acquire =>
        case Cancel(t) =>
        case Resume(t) => ResumeKeeps(h, t);
        case Release(t) => ReleaseKeeps(h, t);
        case Close =>
      }
    }
  }

  // ----- The gate object -----

  datatype Admission = Token(t: Ticket) | Queued(t: Ticket) | GateClosed | QueueFull

  datatype Wakeup = Admitted(t: Ticket) | Raised

  class RequestGate {
    const maximum: nat
    const queueSize: nat
    var active: nat
    var closed: bool
    var waiters: seq<Ticket>
    // The futures and release callbacks the gate has handed out.
    var granted: set<Ticket>
    var cancelled: set<Ticket>
    var failed: set<Ticket>
    var doomed: set<Ticket>
    var tokens: set<Ticket>
    var arrivals: nat
    ghost var grants: seq<Ticket>
    ghost var skips: nat

    ghost function Model(): Gate
      reads this
    {
      Gate(maximum, queueSize, active, closed, waiters, granted, cancelled, failed, doomed,
           tokens, arrivals, grants, skips)
    }

    constructor (maximum: nat, queueSize: nat)
      ensures Model() == Init(maximum, queueSize)
    {
      this.maximum, this.queueSize := maximum, queueSize;
      active, closed, waiters := 0, false, [];
      granted, cancelled, failed, doomed, tokens := {}, {}, {}, {}, {};
      arrivals, grants, skips := 0, [], 0;
    }

    /** `acquire` up to its await. */
    method Acquire() returns (a: Admission)
      modifies this
      ensures Model() == AcquireStep(old(Model()))
      ensures a.GateClosed? <==> old(closed)
      ensures a.Token? ==> a.t == old(arrivals) && tokens == old(tokens) + {a.t} && old(waiters) == []
      ensures a.Queued? ==> a.t == old(arrivals) && waiters == old(waiters) + [a.t]
      ensures a.QueueFull? ==> Model() == old(Model()) && |waiters| >= queueSize
    {
      if closed {
        return GateClosed;
      }
      if active < maximum && waiters == [] {
        active := active + 1;
        a := Token(arrivals);
        tokens, grants, arrivals := tokens + {arrivals}, grants + [arrivals], arrivals + 1;
        return;
      }
      if |waiters| >= queueSize {
        return QueueFull;
      }
      waiters := waiters + [arrivals];
      a := Queued(arrivals);
      arrivals := arrivals + 1;
    }

    method ReleaseOneSlot()
      modifies this
      ensures Model() == ReleaseSlot(old(Model()))
    {
      while waiters != []
        invariant ReleaseSlot(Model()) == ReleaseSlot(old(Model()))
        decreases |waiters|
      {
        var waiter := waiters[0];
        waiters := waiters[1..];
        if waiter !in cancelled {
          granted, grants := granted + {waiter}, grants + [waiter];
          return;
        }
        skips := skips + 1;
      }
      if active > 0 {
        active := active - 1;
      }
    }

    method Cancel(t: Ticket)
      modifies this
      ensures Model() == CancelStep(old(Model()), t)
    {
      if t in granted || t in cancelled || t in failed {
        doomed := doomed + {t};
      } else if t in waiters {
        cancelled := cancelled + {t};
      }
    }

    method RemoveWaiter(t: Ticket)
      requires t in waiters
      modifies this`waiters
      ensures waiters == Without(old(waiters), t)
    {
      var i := 0;
      while waiters[i] != t
        invariant 0 <= i < |waiters| && t !in waiters[..i]
        decreases |waiters| - i
      {
        i := i + 1;
      }
      WithoutAt(waiters, t, i);
      waiters := waiters[..i] + waiters[i + 1..];
    }

    /** `acquire` from its await on, once the future it waits on has completed. */
    method Resume(t: Ticket) returns (w: Wakeup)
      requires Completed(Model(), t)
      modifies this
      ensures Model() == ResumeStep(old(Model()), t)
      ensures w == Admitted(t) <==> t in old(granted) && t !in old(doomed) && !old(closed)
    {
      var raised := t !in granted || t in doomed;
      granted, cancelled, failed, doomed := granted - {t}, cancelled - {t}, failed - {t}, doomed - {t};
      if raised {
        if t in waiters {
          RemoveWaiter(t);
        } else {
          ReleaseOneSlot();
        }
        return Raised;
      }
      if closed {
        ReleaseOneSlot();
        return Raised;
      }
      tokens := tokens + {t};
      return Admitted(t);
    }

    /** Calling a release token: the first call gives the slot back, later calls nothing. */
    method Release(t: Ticket)
      modifies this
      ensures Model() == ReleaseStep(old(Model()), t)
    {
      if t in tokens {
        tokens := tokens - {t};
        ReleaseOneSlot();
      }
    }

    method Close()
      modifies this
      ensures Model() == CloseStep(old(Model()))
    {
      if closed {
        return;
      }
      closed := true;
      var i := 0;
      while i < |waiters|
        invariant 0 <= i <= |waiters|
        invariant failed == old(failed) + ((set t | t in waiters[..i]) - cancelled)
        invariant Model() == old(Model()).(closed := true, failed := failed)
      {
        if waiters[i] !in cancelled {
          failed := failed + {waiters[i]};
        }
        assert waiters[..i + 1] == waiters[..i] + [waiters[i]];
        i := i + 1;
      }
      assert waiters[..i] == waiters;
      waiters := [];
    }
  }
}
