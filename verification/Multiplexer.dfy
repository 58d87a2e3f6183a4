/** Response correlation: requests, tombstones and late replies, over any number of
    broker sessions.

    One event is the code between two suspension points.  Requests are numbered in the
    order they are issued; `table` is the correlation table, from correlation id to request
    number.  Ids restart at 1 with every session, so an id alone does not name a request. */
module Multiplexers {
  import opened Options

  type Payload = seq<bv8>
  type RequestNo = nat

  const LAST_ID: nat := 0xFFFF_FFFF_FFFF_FFFF

  /** How the transport's send failed, as far as the multiplexer tells failures apart. */
  datatype Failure = ConnectionFailure | FitzTimeout | BuiltinTimeout | OtherFailure

  datatype Send = InFlight | Delivered | SendFailed(why: Failure)

  datatype Future = Open | Resolved(payload: Payload) | Failed | Cancelled

  datatype Interrupt = NoInterrupt | ByCaller | ByTimeout

  datatype Outcome = Returned(payload: Payload) | Raised | WasCancelled | TimedOut

  datatype Phase = Sending | Awaiting | Finished(outcome: Outcome)

  /** Why a request is no longer in the table although nobody answered it: its own task
      removed it, or a task of an earlier session removed its id. */
  datatype Dropped = Kept | Forgotten | Evicted

  /** `tombstone` is `PendingRequest.future is None`.  `transmitted`, `answer` and `dropped`
      record the run: whether the frame reached the wire, the broker's final reply, and how
      the entry left the table. */
  datatype Request = Request(
    session: nat, id: nat, future: Future, tombstone: bool, sent: bool,
    send: Send, interrupt: Interrupt, phase: Phase,
    transmitted: bool, answer: Option<Payload>, dropped: Dropped)

  /** `version` says that a HELLO negotiated a protocol version since the last disconnect. */
  datatype Mux = Mux(
    connected: bool, version: bool, session: nat, nextId: nat, table: map<nat, RequestNo>,
    requests: seq<Request>, rejected: seq<RequestNo>)

  datatype Event =
    | Negotiate
    | Connect
    | Disconnect
    | Issue
    | OneWay
    | Transmit(r: RequestNo)
    | SendDone(r: RequestNo, result: Send)
    | Interrupted(r: RequestNo, cause: Interrupt)
    | ResumeSend(r: RequestNo)
    | ResumeAwait(r: RequestNo)
    | Reply(r: RequestNo, payload: Payload, final: bool)

  function Init(): Mux {
    Mux(false, false, 0, 1, map[], [], [])
  }

  // ----- The atomic steps -----

  /** `set_capabilities`, with the version of a HELLO. */
  function NegotiateStep(m: Mux): Mux {
    m.(version := true)
  }

  /** `set_connected`. */
  function Restart(m: Mux): Mux {
    m.(connected := true, session := m.session + 1, nextId := 1)
  }

  predicate InTable(m: Mux, r: RequestNo) {
    r < |m.requests| && m.requests[r].id in m.table && m.table[m.requests[r].id] == r
  }

  function FailOpen(q: Request): Request {
    if !q.tombstone && q.future == Open then q.(future := Failed) else q
  }

  /** `set_disconnected`: every entry's caller gets an error and the table is emptied. */
  function DisconnectStep(m: Mux): Mux {
    m.(connected := false, version := false, table := map[],
       requests := seq(|m.requests|, r requires 0 <= r < |m.requests| =>
                         if InTable(m, r) then FailOpen(m.requests[r]) else m.requests[r]))
  }

  function FreshRequest(m: Mux): Request {
    Request(m.session, m.nextId, Open, false, false, InFlight, NoInterrupt, Sending, false, None, Kept)
  }

  /** A request asks for a negotiated version, not for a session. */
  predicate CanAllocate(m: Mux) {
    m.version && m.nextId <= LAST_ID
  }

  /** A request takes the next id and its own entry. */
  function Enter(m: Mux): Mux {
    m.(nextId := m.nextId + 1, table := m.table[m.nextId := |m.requests|],
       requests := m.requests + [FreshRequest(m)])
  }

  function IssueStep(m: Mux): Mux {
    if !CanAllocate(m) then m else Enter(m)
  }

  /** `next_correlation_id` for a one-way frame, which asks for no session. */
  function OneWayStep(m: Mux): Mux {
    if m.nextId > LAST_ID then m else m.(nextId := m.nextId + 1)
  }

  function Set(m: Mux, r: RequestNo, q: Request): Mux
    requires r < |m.requests|
  {
    m.(requests := m.requests[r := q])
  }

  function TransmitStep(m: Mux, r: RequestNo): Mux {
    if r < |m.requests| && m.requests[r].send == InFlight
    then Set(m, r, m.requests[r].(transmitted := true))
    else m
  }

  /** A send that reports success has put the frame on the wire. */
  function SendDoneStep(m: Mux, r: RequestNo, result: Send): Mux {
    if r < |m.requests| && m.requests[r].send == InFlight && result != InFlight &&
       (result == Delivered ==> m.requests[r].transmitted)
    then Set(m, r, m.requests[r].(send := result))
    else m
  }

  /** The first cancellation, or the response timeout.  It cancels an open reply future at
      once; otherwise it is delivered when the task resumes. */
  function InterruptStep(m: Mux, r: RequestNo, cause: Interrupt): Mux {
    if r >= |m.requests| || cause == NoInterrupt then m
    else
      var q := m.requests[r];
      if q.interrupt != NoInterrupt || q.phase.Finished? then m
      else if q.phase == Sending then
        if cause == ByCaller then Set(m, r, q.(interrupt := cause)) else m
      else
        Set(m, r, q.(interrupt := cause, future := if q.future == Open then Cancelled else q.future))
  }

  /** `_remove`, and `_abandon` of an unsent request: the entry is popped by id, whoever
      owns it. */
  function RemoveEntry(m: Mux, r: RequestNo): Mux
    requires r < |m.requests|
  {
    var id := m.requests[r].id;
    if id !in m.table then m
    else
      var owner := m.table[id];
      var popped := m.(table := m.table - {id});
      if owner == r || owner >= |m.requests| then popped
      else Set(popped, owner, m.requests[owner].(dropped := Evicted))
  }

  function Forget(m: Mux, r: RequestNo, outcome: Outcome): Mux
    requires r < |m.requests|
  {
    var popped := RemoveEntry(m, r);
    Set(popped, r, m.requests[r].(phase := Finished(outcome), dropped := Forgotten))
  }

  /** Marked as sent and abandoned: the entry stays, without a caller, for a late reply. */
  function Bury(m: Mux, r: RequestNo, outcome: Outcome): Mux
    requires r < |m.requests|
  {
    Set(m, r, m.requests[r].(phase := Finished(outcome), sent := true, tombstone := true))
  }

  /** The failures after which `_issue_request` forgets the id instead of burying it. */
  predicate Forgets(interrupt: Interrupt, why: Failure) {
    interrupt != NoInterrupt || why in {BuiltinTimeout, OtherFailure}
  }

  function FailureOutcome(interrupt: Interrupt, why: Failure): Outcome {
    if interrupt != NoInterrupt then WasCancelled else if why == BuiltinTimeout then TimedOut else Raised
  }

  function ResumeSendStep(m: Mux, r: RequestNo): Mux {
    if r >= |m.requests| || m.requests[r].phase != Sending then m
    else
      var q := m.requests[r];
      match q.send
      case InFlight => m
      case Delivered =>
        if q.interrupt == NoInterrupt then Set(m, r, q.(sent := true, phase := Awaiting))
        else Bury(m, r, WasCancelled)
      case SendFailed(why) =>
        if Forgets(q.interrupt, why) then Forget(m, r, FailureOutcome(q.interrupt, why))
        else Bury(m, r, Raised)
  }

  function ResumeAwaitStep(m: Mux, r: RequestNo): Mux {
    if r >= |m.requests| || m.requests[r].phase != Awaiting then m
    else
      var q := m.requests[r];
      match q.interrupt
      case ByCaller => Bury(m, r, WasCancelled)
      case ByTimeout => Bury(m, r, TimedOut)
      case NoInterrupt =>
        match q.future
        case Open => m
        case Resolved(p) => Set(m, r, q.(phase := Finished(Returned(p))))
        case Failed => Bury(m, r, Raised)
        case Cancelled => Bury(m, r, WasCancelled)
  }

  /** What the broker may answer: a transmitted request of this session, finally once. */
  predicate MayAnswer(m: Mux, r: RequestNo) {
    && m.connected
    && r < |m.requests|
    && m.requests[r].session == m.session
    && m.requests[r].transmitted
    && m.requests[r].answer == None
  }

  function Deliver(q: Request, payload: Payload): Request {
    if !q.tombstone && q.future == Open then q.(future := Resolved(payload)) else q
  }

  /** `dispatch_correlated` on a frame carrying `id`; an id not in the table raises. */
  function DispatchFrame(m: Mux, id: nat, payload: Payload, final: bool): Mux {
    if id !in m.table || !final then m
    else
      var owner := m.table[id];
      var popped := m.(table := m.table - {id});
      if owner >= |m.requests| then popped
      else Set(popped, owner, Deliver(m.requests[owner], payload))
  }

  /** A frame that answers request `r` arrives. */
  function Answer(m: Mux, r: RequestNo, payload: Payload, final: bool): Mux
    requires r < |m.requests|
  {
    var id := m.requests[r].id;
    var d := DispatchFrame(m, id, payload, final);
    var n := if id in m.table then d else d.(rejected := m.rejected + [r]);
    if final && r < |n.requests| then Set(n, r, n.requests[r].(answer := Some(payload))) else n
  }

  function ReplyStep(m: Mux, r: RequestNo, payload: Payload, final: bool): Mux {
    if !MayAnswer(m, r) then m else Answer(m, r, payload, final)
  }

  function Apply(m: Mux, e: Event): Mux {
    match e
    case Negotiate => NegotiateStep(m)
    case Connect => Restart(m)
    case Disconnect => DisconnectStep(m)
    case Issue => IssueStep(m)
    case OneWay => OneWayStep(m)
    case Transmit(r) => TransmitStep(m, r)
    case SendDone(r, result) => SendDoneStep(m, r, result)
    case Interrupted(r, cause) => InterruptStep(m, r, cause)
    case ResumeSend(r) => ResumeSendStep(m, r)
    case ResumeAwait(r) => ResumeAwaitStep(m, r)
    case Reply(r, payload, final) => ReplyStep(m, r, payload, final)
  }

  function Run(m: Mux, es: seq<Event>): Mux {
    if es == [] then m else Apply(Run(m, es[..|es| - 1]), es[|es| - 1])
  }

  // ----- What a run keeps -----

  /** The task removed its own id from the table: its send failed, and it was cancelled or
      the failure is not one that `_issue_request` treats as possibly sent. */
  ghost predicate SendWasForgotten(q: Request) {
    q.phase.Finished? && q.send.SendFailed? && Forgets(q.interrupt, q.send.why)
  }

  ghost predicate Live(m: Mux, r: RequestNo) {
    r < |m.requests| && m.connected && m.requests[r].session == m.session
  }

  ghost predicate RequestInv(m: Mux, q: Request) {
    && 1 <= q.session <= m.session
    && (q.session == m.session ==> q.id < m.nextId)
    && (q.dropped == Forgotten ==> SendWasForgotten(q))
    && (SendWasForgotten(q) ==> q.dropped == Forgotten)
    && (q.phase != Sending ==> q.send != InFlight)
    && (q.phase == Awaiting ==> q.send == Delivered)
    && (q.send == Delivered ==> q.transmitted)
    && (q.future.Resolved? ==> q.answer == Some(q.future.payload))
    && (q.phase.Finished? && q.phase.outcome.Returned? ==> q.answer == Some(q.phase.outcome.payload))
    && (q.answer.Some? ==> q.transmitted)
    && (q.tombstone ==> q.phase.Finished?)
    && (q.future == Cancelled ==> q.interrupt != NoInterrupt)
    && (q.interrupt == ByTimeout ==> q.phase != Sending)
    && Accounted(q)
  }

  /** How a finished request ended follows from what its records say happened to it. */
  predicate Accounted(q: Request) {
    q.phase.Finished? ==>
      match q.interrupt
      case ByCaller => q.phase.outcome == WasCancelled
      case ByTimeout => q.phase.outcome == TimedOut
      case NoInterrupt =>
        match q.send
        case InFlight => false
        case SendFailed(why) => q.phase.outcome == if why == BuiltinTimeout then TimedOut else Raised
        case Delivered =>
          || (q.future.Resolved? && q.phase.outcome == Returned(q.future.payload))
          || (q.future == Failed && q.phase.outcome == Raised)
  }

  ghost predicate Requests(m: Mux) {
    forall r :: 0 <= r < |m.requests| ==> RequestInv(m, m.requests[r])
  }

  ghost predicate Ids(m: Mux) {
    && 1 <= m.nextId
    && (forall r, r' :: 0 <= r < r' < |m.requests| && m.requests[r].session == m.requests[r'].session ==>
          m.requests[r].id != m.requests[r'].id)
  }

  /** The table holds exactly the requests of this session that are neither answered nor
      dropped. */
  ghost predicate Table(m: Mux) {
    && (forall id :: id in m.table ==> Live(m, m.table[id]) && m.requests[m.table[id]].id == id)
    && (forall r: RequestNo :: Live(m, r) ==>
          (InTable(m, r) <==> m.requests[r].answer == None && m.requests[r].dropped == Kept))
  }

  /** A caller still waiting has its entry in the table, unless it was evicted. */
  ghost predicate NobodyStranded(m: Mux) {
    forall r :: 0 <= r < |m.requests| &&
      !m.requests[r].phase.Finished? && m.requests[r].future == Open && m.requests[r].dropped != Evicted
      ==> InTable(m, r)
  }

  ghost predicate Rejections(m: Mux) {
    forall r :: r in m.rejected ==>
      r < |m.requests| && m.requests[r].transmitted && m.requests[r].dropped != Kept
  }

  ghost predicate Inv(m: Mux) {
    Requests(m) && Ids(m) && Table(m) && NobodyStranded(m) && Rejections(m)
  }

  // ----- Proofs -----

  /** Changing one request in place, keeping what the other clauses look at. */
  ghost predicate SameStanding(q: Request, q': Request) {
    && q'.session == q.session && q'.id == q.id
    && q'.answer == q.answer && q'.dropped == q.dropped
    && (q.transmitted ==> q'.transmitted)
  }

  ghost predicate MayWait(q: Request) {
    !q.phase.Finished? && q.future == Open && q.dropped != Evicted
  }

  lemma SetKeepsInv(m: Mux, r: RequestNo, q: Request)
    requires Inv(m) && r < |m.requests|
    requires SameStanding(m.requests[r], q)
    requires RequestInv(m, q)
    requires MayWait(q) ==> MayWait(m.requests[r])
    ensures Inv(Set(m, r, q))
  {
    SetKeepsRequests(m, r, q);
    SetKeepsTable(m, r, q);
  }

  lemma SetKeepsRequests(m: Mux, r: RequestNo, q: Request)
    requires Requests(m) && Ids(m) && r < |m.requests|
    requires q.session == m.requests[r].session && q.id == m.requests[r].id
    requires RequestInv(m, q)
    ensures Requests(Set(m, r, q)) && Ids(Set(m, r, q))
  {
  }

  lemma SetKeepsTable(m: Mux, r: RequestNo, q: Request)
    requires Table(m) && NobodyStranded(m) && Rejections(m) && r < |m.requests|
    requires SameStanding(m.requests[r], q)
    requires MayWait(q) ==> MayWait(m.requests[r])
    ensures Table(Set(m, r, q)) && NobodyStranded(Set(m, r, q)) && Rejections(Set(m, r, q))
  {
    var s := Set(m, r, q);
    forall i: RequestNo
      ensures Live(s, i) <==> Live(m, i)
      ensures InTable(s, i) <==> InTable(m, i)
    {
    }
  }

  lemma BuryKeepsInv(m: Mux, r: RequestNo, outcome: Outcome)
    requires Inv(m) && r < |m.requests|
    requires m.requests[r].send != InFlight
    requires m.requests[r].send.SendFailed? ==> !Forgets(m.requests[r].interrupt, m.requests[r].send.why)
    requires !outcome.Returned? && Accounted(m.requests[r].(phase := Finished(outcome)))
    ensures Inv(Bury(m, r, outcome))
  {
    hide Ids, Table, NobodyStranded, Rejections;
    SetKeepsInv(m, r, m.requests[r].(phase := Finished(outcome), sent := true, tombstone := true));
  }

  /** The owner of a removed entry is the removing request itself, or the entry belongs to a
      later session and is evicted. */
  lemma RemoveKeepsRequests(m: Mux, r: RequestNo)
    requires Requests(m) && Ids(m) && Table(m) && r < |m.requests|
    ensures Requests(RemoveEntry(m, r)) && Ids(RemoveEntry(m, r))
    ensures |RemoveEntry(m, r).requests| == |m.requests|
  {
  }

  lemma {:induction false} ForgetKeepsRequests(m: Mux, r: RequestNo, outcome: Outcome)
    requires Requests(m) && Ids(m) && Table(m) && r < |m.requests|
    requires !outcome.Returned? && Accounted(m.requests[r].(phase := Finished(outcome)))
    requires m.requests[r].send.SendFailed? && Forgets(m.requests[r].interrupt, m.requests[r].send.why)
    ensures Requests(Forget(m, r, outcome)) && Ids(Forget(m, r, outcome))
  {
    RemoveKeepsRequests(m, r);
    var q := m.requests[r].(phase := Finished(outcome), dropped := Forgotten);
    SetKeepsRequests(RemoveEntry(m, r), r, q);
  }

  lemma ForgetDropsOneEntry(m: Mux, r: RequestNo, outcome: Outcome, i: RequestNo)
    requires Table(m) && r < |m.requests|
    ensures var s, id := Forget(m, r, outcome), m.requests[r].id;
      && (Live(s, i) <==> Live(m, i))
      && (InTable(s, i) <==> InTable(m, i) && !(id in m.table && m.table[id] == i))
  {
  }

  lemma ForgetKeepsTable(m: Mux, r: RequestNo, outcome: Outcome)
    requires Table(m) && r < |m.requests|
    ensures Table(Forget(m, r, outcome))
  {
    var s := Forget(m, r, outcome);
    forall i: RequestNo
      ensures Live(s, i) ==> (InTable(s, i) <==> s.requests[i].answer == None && s.requests[i].dropped == Kept)
    {
      ForgetDropsOneEntry(m, r, outcome, i);
    }
  }

  lemma ForgetStrandsNobody(m: Mux, r: RequestNo, outcome: Outcome)
    requires Table(m) && NobodyStranded(m) && Rejections(m) && r < |m.requests|
    ensures NobodyStranded(Forget(m, r, outcome)) && Rejections(Forget(m, r, outcome))
  {
    var s := Forget(m, r, outcome);
    forall i | 0 <= i < |s.requests|
      ensures MayWait(s.requests[i]) ==> InTable(s, i)
    {
      ForgetDropsOneEntry(m, r, outcome, i);
    }
  }

  lemma ForgetKeepsInv(m: Mux, r: RequestNo, outcome: Outcome)
    requires Inv(m) && r < |m.requests| && m.requests[r].phase == Sending
    requires !outcome.Returned? && Accounted(m.requests[r].(phase := Finished(outcome)))
    requires m.requests[r].send.SendFailed? && Forgets(m.requests[r].interrupt, m.requests[r].send.why)
    ensures Inv(Forget(m, r, outcome))
  {
    hide Requests, Ids, Table, NobodyStranded, Rejections;
    ForgetKeepsRequests(m, r, outcome);
    ForgetKeepsTable(m, r, outcome);
    ForgetStrandsNobody(m, r, outcome);
  }

  lemma ResumeSendKeepsInv(m: Mux, r: RequestNo)
    requires Inv(m)
    ensures Inv(ResumeSendStep(m, r))
  {
    if r < |m.requests| && m.requests[r].phase == Sending {
      var q := m.requests[r];
      assert RequestInv(m, q);
      hide Ids, Table, NobodyStranded, Rejections;
      match q.send {
        case InFlight =>
        case Delivered =>
          if q.interrupt == NoInterrupt {
            SetKeepsInv(m, r, q.(sent := true, phase := Awaiting));
          } else {
            BuryKeepsInv(m, r, WasCancelled);
          }
        case SendFailed(why) =>
          if Forgets(q.interrupt, why) {
            ForgetKeepsInv(m, r, FailureOutcome(q.interrupt, why));
          } else {
            BuryKeepsInv(m, r, Raised);
          }
      }
    }
  }

  lemma ResumeAwaitKeepsInv(m: Mux, r: RequestNo)
    requires Inv(m)
    ensures Inv(ResumeAwaitStep(m, r))
  {
    if r < |m.requests| && m.requests[r].phase == Awaiting {
      var q := m.requests[r];
      assert RequestInv(m, q);
      hide Requests, Ids, Table, NobodyStranded, Rejections;
      if q.interrupt == NoInterrupt && q.future.Resolved? {
        SetKeepsInv(m, r, q.(phase := Finished(Returned(q.future.payload))));
      } else if !(q.interrupt == NoInterrupt && q.future == Open) {
        BuryKeepsInv(m, r, match q.interrupt
                           case ByCaller => WasCancelled
                           case ByTimeout => TimedOut
                           case NoInterrupt => if q.future == Failed then Raised else WasCancelled);
      }
    }
  }

  lemma InPlaceKeepsInv(m: Mux, e: Event)
    requires Inv(m) && (e.Transmit? || e.SendDone? || e.Interrupted?)
    ensures Inv(Apply(m, e))
  {
    if e.r < |m.requests| && Apply(m, e) != m {
      var q := m.requests[e.r];
      assert RequestInv(m, q);
      hide Requests, Ids, Table, NobodyStranded, Rejections;
      match e {
        case Transmit(r) => SetKeepsInv(m, r, q.(transmitted := true));
        case SendDone(r, result) => SetKeepsInv(m, r, q.(send := result));
        case Interrupted(r, cause) =>
          SetKeepsInv(m, r, q.(interrupt := cause,
            future := if q.phase == Awaiting && q.future == Open then Cancelled else q.future));
      }
    }
  }

  lemma IssueKeepsRequests(m: Mux)
    requires Requests(m) && Ids(m) && CanAllocate(m) && 1 <= m.session
    ensures Requests(IssueStep(m)) && Ids(IssueStep(m))
  {
    assert RequestInv(IssueStep(m), FreshRequest(m));
  }

  lemma IssueKeepsTable(m: Mux)
    requires Inv(m) && CanAllocate(m) && m.connected
    ensures Table(IssueStep(m)) && NobodyStranded(IssueStep(m)) && Rejections(IssueStep(m))
  {
    var s := IssueStep(m);
    assert forall id :: id in m.table ==> Live(m, m.table[id]) && id < m.nextId;
    forall i: RequestNo
      ensures Live(s, i) <==> Live(m, i) || i == |m.requests|
      ensures InTable(s, i) <==> InTable(m, i) || i == |m.requests|
    {
    }
  }

  lemma IssueKeepsInv(m: Mux)
    requires Inv(m) && (CanAllocate(m) ==> m.connected && 1 <= m.session)
    ensures Inv(IssueStep(m))
  {
    if CanAllocate(m) {
      hide Requests, Ids, Table, NobodyStranded, Rejections;
      IssueKeepsRequests(m);
      IssueKeepsTable(m);
    }
  }

  lemma OneWayKeepsInv(m: Mux)
    requires Inv(m)
    ensures Inv(OneWayStep(m))
  {
    if m.nextId <= LAST_ID {
      var s := OneWayStep(m);
      forall i: RequestNo
        ensures Live(s, i) <==> Live(m, i)
        ensures InTable(s, i) <==> InTable(m, i)
      {
      }
    }
  }

  lemma ConnectKeepsInv(m: Mux)
    requires Inv(m) && m.table == map[]
    ensures Inv(Restart(m))
  {
    var s := Restart(m);
    forall i: RequestNo
      ensures !Live(s, i) && !InTable(s, i) && !InTable(m, i)
    {
    }
  }

  lemma NegotiateKeepsInv(m: Mux)
    requires Inv(m)
    ensures Inv(NegotiateStep(m))
  {
    var s := NegotiateStep(m);
    forall i: RequestNo
      ensures Live(s, i) <==> Live(m, i)
      ensures InTable(s, i) <==> InTable(m, i)
    {
    }
  }

  lemma DisconnectKeepsRequests(m: Mux)
    requires Requests(m) && Ids(m)
    ensures Requests(DisconnectStep(m)) && Ids(DisconnectStep(m))
  {
  }

  lemma DisconnectKeepsInv(m: Mux)
    requires Inv(m)
    ensures Inv(DisconnectStep(m))
  {
    DisconnectKeepsRequests(m);
    hide Requests, Ids;
    var s := DisconnectStep(m);
    assert |s.requests| == |m.requests|;
    forall i: RequestNo
      ensures !Live(s, i) && !InTable(s, i)
      ensures i < |m.requests| ==>
        s.requests[i] == (if InTable(m, i) then FailOpen(m.requests[i]) else m.requests[i])
    {
    }
  }

  lemma OwnerIsUnique(m: Mux, r: RequestNo)
    requires Ids(m) && Table(m) && Live(m, r)
    ensures m.requests[r].id in m.table <==> InTable(m, r)
  {
    var id := m.requests[r].id;
    if id in m.table {
      assert Live(m, m.table[id]);
    }
  }

  /** What the final answer to a request does. */
  lemma FinalAnswer(m: Mux, r: RequestNo, payload: Payload)
    requires Ids(m) && Table(m) && MayAnswer(m, r)
    ensures var s, q, kept := ReplyStep(m, r, payload, true), m.requests[r], InTable(m, r);
      && s == m.(table := if kept then m.table - {q.id} else m.table,
                 requests := m.requests[r := (if kept then Deliver(q, payload) else q).(answer := Some(payload))],
                 rejected := if kept then m.rejected else m.rejected + [r])
      && (kept <==> q.dropped == Kept)
  {
    OwnerIsUnique(m, r);
  }

  lemma AnswerKeepsTable(m: Mux, r: RequestNo, payload: Payload)
    requires Inv(m) && MayAnswer(m, r)
    ensures Table(ReplyStep(m, r, payload, true)) && NobodyStranded(ReplyStep(m, r, payload, true))
    ensures Rejections(ReplyStep(m, r, payload, true))
  {
    var s, id := ReplyStep(m, r, payload, true), m.requests[r].id;
    FinalAnswer(m, r, payload);
    hide ReplyStep;
    forall i: RequestNo
      ensures Live(s, i) <==> Live(m, i)
      ensures InTable(s, i) <==> InTable(m, i) && i != r
    {
    }
  }

  lemma AnswerKeepsRequests(m: Mux, r: RequestNo, payload: Payload)
    requires Requests(m) && Ids(m) && Table(m) && MayAnswer(m, r)
    ensures Requests(ReplyStep(m, r, payload, true)) && Ids(ReplyStep(m, r, payload, true))
  {
    FinalAnswer(m, r, payload);
    hide ReplyStep;
  }

  lemma ReplyKeepsInv(m: Mux, r: RequestNo, payload: Payload, final: bool)
    requires Inv(m)
    ensures Inv(ReplyStep(m, r, payload, final))
  {
    if MayAnswer(m, r) {
      if final {
        hide Requests, Ids, Table, NobodyStranded, Rejections;
        AnswerKeepsRequests(m, r, payload);
        AnswerKeepsTable(m, r, payload);
      } else {
        var s := ReplyStep(m, r, payload, false);
        forall i: RequestNo
          ensures Live(s, i) <==> Live(m, i)
          ensures InTable(s, i) <==> InTable(m, i)
        {
        }
        RejectsDropped(m, r, payload, false);
      }
    }
  }

  lemma RejectsDropped(m: Mux, r: RequestNo, payload: Payload, final: bool)
    requires Inv(m) && MayAnswer(m, r)
    ensures ReplyStep(m, r, payload, final).rejected
            == m.rejected + (if m.requests[r].dropped == Kept then [] else [r])
  {
    OwnerIsUnique(m, r);
    assert m.rejected + [] == m.rejected;
  }

  /** The event numbers a request although no session is up, or begins a session although
      entries of another are still in the table. */
  predicate Untimely(m: Mux, e: Event) {
    (e.Issue? && CanAllocate(m) && !m.connected) || (e.Connect? && m.table != map[])
  }

  /** Between sessions the table is empty. */
  ghost predicate WholeInv(m: Mux) {
    Inv(m) && (if m.connected then 1 <= m.session else m.table == map[])
  }

  lemma EmptyWhileDisconnected(m: Mux, e: Event)
    requires Inv(m) && (!m.connected ==> m.table == map[]) && !Untimely(m, e)
    ensures !Apply(m, e).connected ==> Apply(m, e).table == map[]
    ensures Apply(m, e).session >= m.session
    ensures Apply(m, e).connected && !m.connected ==> Apply(m, e).session >= 1
  {
  }

  lemma ApplyKeepsInv(m: Mux, e: Event)
    requires WholeInv(m) && !Untimely(m, e)
    ensures WholeInv(Apply(m, e))
  {
    EmptyWhileDisconnected(m, e);
    hide Inv;
    match e {
      case Negotiate => NegotiateKeepsInv(m);
      case Connect => ConnectKeepsInv(m);
      case Disconnect => DisconnectKeepsInv(m);
      case Issue => IssueKeepsInv(m);
      case OneWay => OneWayKeepsInv(m);
      case Transmit(r) => InPlaceKeepsInv(m, e);
      case SendDone(r, result) => InPlaceKeepsInv(m, e);
      case Interrupted(r, cause) => InPlaceKeepsInv(m, e);
      case ResumeSend(r) => ResumeSendKeepsInv(m, r);
      case ResumeAwait(r) => ResumeAwaitKeepsInv(m, r);
      case Reply(r, payload, final) => ReplyKeepsInv(m, r, payload, final);
    }
  }

  // ----- Over whole runs -----

  predicate TimelyRun(es: seq<Event>) {
    es == [] || (TimelyRun(es[..|es| - 1]) && !Untimely(Run(Init(), es[..|es| - 1]), es[|es| - 1]))
  }

  lemma {:induction false} RunKeepsInv(es: seq<Event>)
    requires TimelyRun(es)
    ensures WholeInv(Run(Init(), es))
    decreases |es|
  {
    if es != [] {
      RunKeepsInv(es[..|es| - 1]);
      ApplyKeepsInv(Run(Init(), es[..|es| - 1]), es[|es| - 1]);
    }
  }

  /** Reachable by a timely run. */
  ghost predicate Reachable(m: Mux) {
    exists es :: TimelyRun(es) && Run(Init(), es) == m
  }

  lemma ReachableKeepsInv(m: Mux)
    requires Reachable(m)
    ensures WholeInv(m)
  {
    var es :| TimelyRun(es) && Run(Init(), es) == m;
    RunKeepsInv(es);
  }

  /** Every entry of the table is a request of the session that is up, under its own id. */
  ghost predicate OwnEntries(m: Mux) {
    forall id :: id in m.table ==> Live(m, m.table[id]) && m.requests[m.table[id]].id == id
  }

  ghost predicate AlwaysOwnEntries(es: seq<Event>) {
    es == [] || (AlwaysOwnEntries(es[..|es| - 1]) && OwnEntries(Run(Init(), es)))
  }

  lemma UntimelyLosesOwnEntries(m: Mux, e: Event)
    requires WholeInv(m) && Untimely(m, e)
    ensures !OwnEntries(Apply(m, e))
  {
    var n := Apply(m, e);
    if e.Issue? {
      assert m.nextId in n.table && !Live(n, n.table[m.nextId]);
    } else {
      var id :| id in m.table;
      assert id in n.table && !Live(n, n.table[id]);
    }
  }

  /** Exactly when the table is the session's own: over every run, at every point each entry
      is a request of the session that is up, if and only if no request is numbered while no
      session is up and no session begins over entries of another. */
  lemma {:induction false} OwnEntriesExactly(es: seq<Event>)
    ensures AlwaysOwnEntries(es) <==> TimelyRun(es)
    decreases |es|
  {
    if es != [] {
      var m, e := Run(Init(), es[..|es| - 1]), es[|es| - 1];
      OwnEntriesExactly(es[..|es| - 1]);
      if TimelyRun(es[..|es| - 1]) {
        RunKeepsInv(es[..|es| - 1]);
        if Untimely(m, e) {
          UntimelyLosesOwnEntries(m, e);
        } else {
          ApplyKeepsInv(m, e);
        }
      }
      hide Apply, Untimely;
    }
  }

  /** In every reachable state a rejected reply belongs to a transmitted request that was
      dropped; so if no request is evicted and every forgotten send transmitted nothing, no
      reply has been rejected.  A request is forgotten exactly when its send failed after a
      cancellation or with a failure other than a connection or timeout error. */
  lemma TombstonesAbsorbLateReplies(m: Mux)
    requires Reachable(m)
    ensures forall r :: r in m.rejected ==>
      r < |m.requests| && m.requests[r].transmitted && m.requests[r].dropped != Kept
    ensures forall r :: 0 <= r < |m.requests| ==>
      (m.requests[r].dropped == Forgotten <==> SendWasForgotten(m.requests[r]))
    ensures (forall r :: 0 <= r < |m.requests| ==>
               && m.requests[r].dropped != Evicted
               && (SendWasForgotten(m.requests[r]) ==> !m.requests[r].transmitted))
            ==> m.rejected == []
  {
    hide Reachable;
    ReachableKeepsInv(m);
    assert forall r :: 0 <= r < |m.requests| ==> RequestInv(m, m.requests[r]);
    if m.rejected != [] {
      assert m.rejected[0] in m.rejected;
    }
  }

  /** A reply the broker may send is rejected if and only if its request was dropped. */
  lemma RejectsExactlyDropped(m: Mux, r: RequestNo, payload: Payload, final: bool)
    requires Reachable(m) && MayAnswer(m, r)
    ensures ReplyStep(m, r, payload, final).rejected
            == m.rejected + (if m.requests[r].dropped == Kept then [] else [r])
  {
    hide Reachable, ReplyStep;
    ReachableKeepsInv(m);
    RejectsDropped(m, r, payload, final);
  }

  /** The event resumes a task whose failed send makes it forget an id that, by now, is
      another request's. */
  ghost predicate Straggles(m: Mux, e: Event) {
    && e.ResumeSend? && e.r < |m.requests|
    && m.requests[e.r].phase == Sending
    && SendMustBeForgotten(m.requests[e.r])
    && m.requests[e.r].id in m.table && m.table[m.requests[e.r].id] != e.r
  }

  /** The failed send of a task not yet resumed is one after which it forgets its id. */
  predicate SendMustBeForgotten(q: Request) {
    q.send.SendFailed? && Forgets(q.interrupt, q.send.why)
  }

  /** A request is evicted exactly when another task forgets the id under which the table
      holds it. */
  lemma EvictsExactly(m: Mux, e: Event, i: RequestNo)
    requires i < |m.requests| && m.requests[i].dropped != Evicted
    ensures i < |Apply(m, e).requests|
    ensures Apply(m, e).requests[i].dropped == Evicted
      <==> Straggles(m, e) && m.table[m.requests[e.r].id] == i
  {
    if e.ResumeSend? && e.r < |m.requests| && m.requests[e.r].phase == Sending && m.requests[e.r].send.SendFailed? {
      ResumedFailureEvicts(m, e.r, i);
    } else {
      OtherEventsEvictNobody(m, e, i);
    }
  }

  lemma ResumedFailureEvicts(m: Mux, r: RequestNo, i: RequestNo)
    requires i < |m.requests| && m.requests[i].dropped != Evicted
    requires r < |m.requests| && m.requests[r].phase == Sending && m.requests[r].send.SendFailed?
    ensures i < |ResumeSendStep(m, r).requests|
    ensures ResumeSendStep(m, r).requests[i].dropped == Evicted
      <==> Straggles(m, ResumeSend(r)) && m.table[m.requests[r].id] == i
  {
  }

  lemma OtherEventsEvictNobody(m: Mux, e: Event, i: RequestNo)
    requires i < |m.requests| && m.requests[i].dropped != Evicted
    requires e.ResumeSend? && e.r < |m.requests| && m.requests[e.r].phase == Sending ==>
      !m.requests[e.r].send.SendFailed?
    ensures i < |Apply(m, e).requests| && Apply(m, e).requests[i].dropped != Evicted
  {
    if e.Reply? {
      ReplyEvictsNobody(m, e.r, e.payload, e.final, i);
      hide ReplyStep;
    }
  }

  lemma ReplyEvictsNobody(m: Mux, r: RequestNo, payload: Payload, final: bool, i: RequestNo)
    requires i < |m.requests| && m.requests[i].dropped != Evicted
    ensures i < |ReplyStep(m, r, payload, final).requests|
    ensures ReplyStep(m, r, payload, final).requests[i].dropped != Evicted
  {
  }

  /** Only a task of an earlier session can straggle, and what it evicts is a request of the
      current one. */
  lemma StragglersAreFromEarlierSessions(m: Mux, e: Event)
    requires Reachable(m) && Straggles(m, e)
    ensures m.requests[e.r].session < m.session
    ensures Live(m, m.table[m.requests[e.r].id])
  {
    hide Reachable;
    ReachableKeepsInv(m);
    assert RequestInv(m, m.requests[e.r]);
  }

  ghost predicate StragglerFree(m: Mux, es: seq<Event>) {
    es == [] || (StragglerFree(m, es[..|es| - 1]) && !Straggles(Run(m, es[..|es| - 1]), es[|es| - 1]))
  }

  predicate SomeEvicted(m: Mux) {
    exists r :: 0 <= r < |m.requests| && m.requests[r].dropped == Evicted
  }

  /** No request is evicted at any point of the run. */
  ghost predicate NoneEverEvicted(es: seq<Event>) {
    es == [] || (NoneEverEvicted(es[..|es| - 1]) && !SomeEvicted(Run(Init(), es)))
  }

  /** Over any number of sessions, no request is ever evicted exactly if no event of the run
      straggles. */
  lemma {:induction false} NoneEvictedIffStragglerFree(es: seq<Event>)
    ensures NoneEverEvicted(es) <==> StragglerFree(Init(), es)
    ensures NoneEverEvicted(es) ==> !SomeEvicted(Run(Init(), es))
    decreases |es|
  {
    if es != [] {
      NoneEvictedIffStragglerFree(es[..|es| - 1]);
      if !SomeEvicted(Run(Init(), es[..|es| - 1])) {
        RunKeepsRange(es[..|es| - 1]);
        StepEvicts(Run(Init(), es[..|es| - 1]), es[|es| - 1]);
      }
      hide Apply, SomeEvicted, Straggles;
    }
  }

  /** The table refers to requests there are. */
  predicate InRange(m: Mux) {
    forall id :: id in m.table ==> m.table[id] < |m.requests|
  }

  lemma StepKeepsRange(m: Mux, e: Event)
    requires InRange(m)
    ensures InRange(Apply(m, e))
  {
  }

  lemma {:induction false} RunKeepsRange(es: seq<Event>)
    ensures InRange(Run(Init(), es))
  {
    if es != [] {
      RunKeepsRange(es[..|es| - 1]);
      StepKeepsRange(Run(Init(), es[..|es| - 1]), es[|es| - 1]);
    }
  }

  lemma NewRequestsAreKept(m: Mux, e: Event, i: RequestNo)
    requires |m.requests| <= i < |Apply(m, e).requests|
    ensures Apply(m, e).requests[i].dropped == Kept
  {
  }

  lemma StepEvicts(m: Mux, e: Event)
    requires InRange(m) && !SomeEvicted(m)
    ensures SomeEvicted(Apply(m, e)) <==> Straggles(m, e)
  {
    hide Apply;
    if Straggles(m, e) {
      EvictsExactly(m, e, m.table[m.requests[e.r].id]);
    }
    if SomeEvicted(Apply(m, e)) {
      var i :| 0 <= i < |Apply(m, e).requests| && Apply(m, e).requests[i].dropped == Evicted;
      if i >= |m.requests| {
        NewRequestsAreKept(m, e, i);
      } else {
        EvictsExactly(m, e, i);
      }
    }
  }

  /** So, over any number of sessions, if no straggler resumes and every forgotten send
      transmitted nothing, no reply is ever rejected, whatever timed out or was cancelled. */
  lemma NoReplyIsRejectedWithoutStragglers(es: seq<Event>)
    requires TimelyRun(es) && StragglerFree(Init(), es)
    requires forall r :: 0 <= r < |Run(Init(), es).requests| && SendWasForgotten(Run(Init(), es).requests[r]) ==>
      !Run(Init(), es).requests[r].transmitted
    ensures Run(Init(), es).rejected == []
  {
    NoneEvictedIffStragglerFree(es);
    assert Reachable(Run(Init(), es));
    TombstonesAbsorbLateReplies(Run(Init(), es));
  }

  /** Within one session nothing straggles: removal by id only ever hits the remover's own
      entry, unless a request of an earlier session is still sending. */
  lemma NobodyStragglesWithinASession(m: Mux, e: Event)
    requires Reachable(m)
    requires forall r :: 0 <= r < |m.requests| && m.requests[r].session < m.session ==> m.requests[r].phase != Sending
    ensures !Straggles(m, e)
  {
    if Straggles(m, e) {
      StragglersAreFromEarlierSessions(m, e);
      assert false;
    }
  }

  /** A frame changes no request but the one of the current session that carries its id. */
  lemma FrameReachesOnlyItsOwnSession(m: Mux, id: nat, payload: Payload, final: bool, i: RequestNo)
    requires Reachable(m) && i < |m.requests|
    ensures |DispatchFrame(m, id, payload, final).requests| == |m.requests|
    ensures DispatchFrame(m, id, payload, final).requests[i] != m.requests[i] ==>
              m.connected && m.requests[i].session == m.session && m.requests[i].id == id
  {
    hide Reachable;
    ReachableKeepsInv(m);
    if id in m.table {
      assert Live(m, m.table[id]);
    }
  }

  /** The final reply to a request that was not dropped resolves the caller still waiting
      for it; a frame without the final flag resolves nobody. */
  lemma ReplyReachesItsCaller(m: Mux, r: RequestNo, payload: Payload)
    requires Reachable(m) && MayAnswer(m, r) && MayWait(m.requests[r]) && m.requests[r].dropped == Kept
    ensures ReplyStep(m, r, payload, true).requests[r].future == Resolved(payload)
    ensures ReplyStep(m, r, payload, false).requests == m.requests
  {
    hide Reachable;
    ReachableKeepsInv(m);
    assert Live(m, r) && InTable(m, r) && RequestInv(m, m.requests[r]);
  }

  /** The caller's task is not finished and its reply future unresolved. */
  predicate Waiting(q: Request) {
    !q.phase.Finished? && q.future == Open
  }

  /** A disconnect empties the table, and leaves a caller waiting exactly if it was waiting
      on an evicted request. */
  lemma DisconnectLeavesNobodyWaiting(m: Mux)
    requires Reachable(m)
    ensures DisconnectStep(m).table == map[] && |DisconnectStep(m).requests| == |m.requests|
    ensures forall r :: 0 <= r < |m.requests| ==>
      (Waiting(DisconnectStep(m).requests[r]) <==> Waiting(m.requests[r]) && m.requests[r].dropped == Evicted)
  {
    hide Reachable;
    ReachableKeepsInv(m);
    forall r | 0 <= r < |m.requests|
      ensures Waiting(DisconnectStep(m).requests[r]) <==> Waiting(m.requests[r]) && m.requests[r].dropped == Evicted
    {
      if Waiting(m.requests[r]) {
        WaitingIsInTableUnlessEvicted(m, r);
      }
    }
  }

  /** Every waiting caller is in the table, unless it was evicted. */
  lemma WaitingIsInTableUnlessEvicted(m: Mux, r: RequestNo)
    requires Inv(m) && r < |m.requests| && Waiting(m.requests[r])
    ensures InTable(m, r) <==> m.requests[r].dropped != Evicted
    ensures InTable(m, r) ==> m.connected && m.requests[r].session == m.session && !m.requests[r].tombstone
  {
    assert RequestInv(m, m.requests[r]);
    if InTable(m, r) {
      assert Live(m, r);
    }
  }

  /** A caller's outcome, its final answer and its id never change again, whatever follows. */
  ghost predicate Settled(q: Request, q': Request) {
    && q'.session == q.session && q'.id == q.id
    && (q.phase.Finished? ==> q'.phase == q.phase)
    && (q.future != Open ==> q'.future == q.future)
    && (q.answer.Some? ==> q'.answer == q.answer)
  }

  lemma {:induction false} OutcomesAreFinal(m: Mux, es: seq<Event>)
    ensures |m.requests| <= |Run(m, es).requests|
    ensures forall r :: 0 <= r < |m.requests| ==> Settled(m.requests[r], Run(m, es).requests[r])
  {
    if es != [] {
      var n, e := Run(m, es[..|es| - 1]), es[|es| - 1];
      OutcomesAreFinal(m, es[..|es| - 1]);
      StepSettles(n, e);
    }
  }

  lemma StepSettles(m: Mux, e: Event)
    ensures |m.requests| <= |Apply(m, e).requests|
    ensures forall r :: 0 <= r < |m.requests| ==> Settled(m.requests[r], Apply(m, e).requests[r])
  {
    match e {
      case Negotiate =>
      case Connect =>
      case Disconnect =>
      case Issue =>
      case OneWay =>
      case Transmit(r) =>
      case SendDone(r, result) =>
      case Interrupted(r, cause) =>
      case ResumeSend(r) => ResumeSendSettles(m, r);
      case ResumeAwait(r) =>
      case Reply(r, payload, final) => ReplySettles(m, r, payload, final);
    }
    hide ResumeSendStep, ReplyStep;
  }

  lemma ReplySettles(m: Mux, r: RequestNo, payload: Payload, final: bool)
    ensures |m.requests| == |ReplyStep(m, r, payload, final).requests|
    ensures forall i :: 0 <= i < |m.requests| ==> Settled(m.requests[i], ReplyStep(m, r, payload, final).requests[i])
  {
  }

  lemma ResumeSendSettles(m: Mux, r: RequestNo)
    ensures |m.requests| == |ResumeSendStep(m, r).requests|
    ensures forall i :: 0 <= i < |m.requests| ==> Settled(m.requests[i], ResumeSendStep(m, r).requests[i])
  {
    var n := ResumeSendStep(m, r);
    if n != m && SendMustBeForgotten(m.requests[r]) {
      var q := m.requests[r];
      assert n == Forget(m, r, FailureOutcome(q.interrupt, q.send.why));
      ForgettingSettles(m, r, FailureOutcome(q.interrupt, q.send.why));
      hide Forget;
    } else if n != m {
      assert n == Set(m, r, n.requests[r]) && Settled(m.requests[r], n.requests[r]);
    }
    hide ResumeSendStep;
  }

  lemma ForgettingSettles(m: Mux, r: RequestNo, outcome: Outcome)
    requires r < |m.requests| && m.requests[r].phase == Sending
    ensures |m.requests| == |Forget(m, r, outcome).requests|
    ensures forall i :: 0 <= i < |m.requests| ==> Settled(m.requests[i], Forget(m, r, outcome).requests[i])
  {
  }

  /** What a caller gets back is the final payload the broker sent for its own id. */
  lemma CallersGetTheirOwnReply(m: Mux, r: RequestNo)
    requires Reachable(m) && r < |m.requests|
    requires m.requests[r].phase.Finished? && m.requests[r].phase.outcome.Returned?
    ensures m.requests[r].answer == Some(m.requests[r].phase.outcome.payload)
  {
    hide Reachable;
    ReachableKeepsInv(m);
    assert RequestInv(m, m.requests[r]);
  }

  // ----- Three runs that lose an entry -----

  lemma RunUnfolds(m: Mux, es: seq<Event>, e: Event)
    ensures Run(m, es + [e]) == Apply(Run(m, es), e)
  {
    assert (es + [e])[..|es|] == es;
  }

  /** `Run` from the front: the first event, then the rest. */
  lemma {:induction false} RunFromTheFront(m: Mux, es: seq<Event>)
    requires es != []
    ensures Run(m, es) == Run(Apply(m, es[0]), es[1..])
    decreases |es|
  {
    hide Apply;
    var front, last := es[..|es| - 1], es[|es| - 1];
    if front == [] {
      assert es == [] + [last] && es[1..] == [];
      RunUnfolds(m, [], last);
    } else {
      RunFromTheFront(m, front);
      assert es[1..] == front[1..] + [last];
      RunUnfolds(Apply(m, es[0]), front[1..], last);
    }
  }

  const FIRST := Request(1, 1, Open, false, false, InFlight, NoInterrupt, Sending, false, None, Kept)

  const ISSUED := Mux(true, true, 1, 2, map[1 := 0], [FIRST], [])

  lemma IssuingTheFirst(es: seq<Event>)
    requires 3 <= |es| && es[..3] == [Negotiate, Connect, Issue]
    ensures Run(Init(), es) == Run(ISSUED, es[3..])
  {
    assert es[0] == es[..3][0] && es[1] == es[..3][1] && es[2] == es[..3][2];
    RunFromTheFront(Init(), es);
    RunFromTheFront(Apply(Init(), Negotiate), es[1..]);
    RunFromTheFront(Apply(Apply(Init(), Negotiate), Connect), es[2..]);
    hide Run;
    assert es[1..][1..] == es[2..] && es[2..][1..] == es[3..];
    assert Apply(Apply(Apply(Init(), Negotiate), Connect), Issue) == ISSUED;
  }

  /** A request numbered after the HELLO and before its session begins loses its entry to the
      first request of the session, and the next disconnect leaves its caller waiting. */
  lemma EarlyRequestIsOverwritten()
    ensures var m := Run(Init(), [Negotiate, Issue, Connect, Issue, Disconnect]);
      && !m.connected && |m.requests| == 2 && Waiting(m.requests[0]) && m.requests[0].dropped == Kept
      && m.requests[0].id == m.requests[1].id
  {
    var es := [Negotiate, Issue, Connect, Issue, Disconnect];
    RunFromTheFront(Init(), es);
    RunFromTheFront(Apply(Init(), es[0]), es[1..]);
    RunFromTheFront(Apply(Apply(Init(), es[0]), es[1]), es[2..]);
    RunFromTheFront(Apply(Apply(Apply(Init(), es[0]), es[1]), es[2]), es[3..]);
    RunFromTheFront(Apply(Apply(Apply(Apply(Init(), es[0]), es[1]), es[2]), es[3]), es[4..]);
    hide Run;
    assert es[1..][1..] == es[2..] && es[2..][1..] == es[3..] && es[3..][1..] == es[4..] && es[4..][1..] == [];
    EarlySteps();
  }

  lemma EarlySteps()
    ensures var m := Apply(Apply(Apply(Apply(Apply(Init(), Negotiate), Issue), Connect), Issue), Disconnect);
      && !m.connected && |m.requests| == 2 && Waiting(m.requests[0]) && m.requests[0].dropped == Kept
      && m.requests[0].id == m.requests[1].id
    ensures forall m :: Run(m, []) == m
  {
    var early := FIRST.(session := 0);
    assert Apply(Apply(Init(), Negotiate), Issue) == Mux(false, true, 0, 2, map[1 := 0], [early], []);
    assert Apply(Mux(false, true, 0, 2, map[1 := 0], [early], []), Connect)
        == Mux(true, true, 1, 1, map[1 := 0], [early], []);
    assert Apply(Mux(true, true, 1, 1, map[1 := 0], [early], []), Issue)
        == Mux(true, true, 1, 2, map[1 := 1], [early, FIRST], []);
  }

  /** Cancelled while sending, the send then fails although the frame went out, and the
      late reply is rejected. */
  lemma CancelledFailedSendRejectsItsReply(payload: Payload)
    ensures Run(Init(), [Negotiate, Connect, Issue, Transmit(0), Interrupted(0, ByCaller),
                         SendDone(0, SendFailed(ConnectionFailure)), ResumeSend(0),
                         Reply(0, payload, true)]).rejected == [0]
  {
    var failed, resume, reply := SendDone(0, SendFailed(ConnectionFailure)), ResumeSend(0), Reply(0, payload, true);
    IssuingTheFirst([Negotiate, Connect, Issue, Transmit(0), Interrupted(0, ByCaller), failed, resume, reply]);
    var es := [Transmit(0), Interrupted(0, ByCaller), failed, resume, reply];
    assert [Negotiate, Connect, Issue, Transmit(0), Interrupted(0, ByCaller), failed, resume, reply][3..] == es;
    CancelledSendFails();
    CancelledSendIsForgotten(payload);
    RunFromTheFront(ISSUED, es);
    RunFromTheFront(Apply(ISSUED, es[0]), es[1..]);
    RunFromTheFront(Apply(Apply(ISSUED, es[0]), es[1]), es[2..]);
    hide Apply, ISSUED, CANCELLED;
    assert es[1..][1..] == es[2..] && es[2..][1..] == [resume, reply];
    RunFromTheFront(CANCELLED, [resume, reply]);
    RunFromTheFront(Apply(CANCELLED, resume), [reply]);
    assert [resume, reply][1..] == [reply] && [reply][1..] == [];
  }

  const CANCELLED := ISSUED.(requests := [FIRST.(transmitted := true, interrupt := ByCaller,
                                                 send := SendFailed(ConnectionFailure))])

  lemma CancelledSendFails()
    ensures Apply(Apply(Apply(ISSUED, Transmit(0)), Interrupted(0, ByCaller)),
                  SendDone(0, SendFailed(ConnectionFailure))) == CANCELLED
  {
    var sent := Apply(ISSUED, Transmit(0));
    assert sent == ISSUED.(requests := [FIRST.(transmitted := true)]);
    var cancelled := Apply(sent, Interrupted(0, ByCaller));
    assert cancelled == ISSUED.(requests := [FIRST.(transmitted := true, interrupt := ByCaller)]);
  }

  lemma CancelledSendIsForgotten(payload: Payload)
    ensures Apply(Apply(CANCELLED, ResumeSend(0)), Reply(0, payload, true)).rejected == [0]
  {
    var m := Apply(CANCELLED, ResumeSend(0));
    assert m.table == map[] && m.requests == [CANCELLED.requests[0].(phase := Finished(WasCancelled), dropped := Forgotten)];
  }

  /** A send of an earlier session failing late evicts the new session's request that was
      given the same id, and the next disconnect leaves its caller waiting. */
  lemma StragglerEvictsNewRequest()
    ensures var m := Run(Init(), [Negotiate, Connect, Issue, Disconnect, Negotiate, Connect, Issue,
                                  SendDone(0, SendFailed(OtherFailure)), ResumeSend(0), Disconnect]);
      !m.connected && |m.requests| == 2 && m.requests[1].dropped == Evicted && Waiting(m.requests[1])
  {
    var failed, resume := SendDone(0, SendFailed(OtherFailure)), ResumeSend(0);
    IssuingTheFirst([Negotiate, Connect, Issue, Disconnect, Negotiate, Connect, Issue, failed, resume, Disconnect]);
    var es := [Disconnect, Negotiate, Connect, Issue, failed, resume, Disconnect];
    assert [Negotiate, Connect, Issue, Disconnect, Negotiate, Connect, Issue, failed, resume, Disconnect][3..] == es;
    SessionTurnsOver();
    StragglerFails();
    RunFromTheFront(ISSUED, es);
    RunFromTheFront(Apply(ISSUED, es[0]), es[1..]);
    RunFromTheFront(Apply(Apply(ISSUED, es[0]), es[1]), es[2..]);
    RunFromTheFront(Apply(Apply(Apply(ISSUED, es[0]), es[1]), es[2]), es[3..]);
    hide Apply, ISSUED, TURNED_OVER;
    assert es[1..][1..] == es[2..] && es[2..][1..] == es[3..] && es[3..][1..] == [failed, resume, Disconnect];
    RunFromTheFront(TURNED_OVER, [failed, resume, Disconnect]);
    RunFromTheFront(Apply(TURNED_OVER, failed), [resume, Disconnect]);
    RunFromTheFront(Apply(Apply(TURNED_OVER, failed), resume), [Disconnect]);
    assert [failed, resume, Disconnect][1..] == [resume, Disconnect] && [resume, Disconnect][1..] == [Disconnect];
    assert [Disconnect][1..] == [];
  }

  const TURNED_OVER := Mux(true, true, 2, 2, map[1 := 1], [FIRST.(future := Failed), FIRST.(session := 2)], [])

  lemma SessionTurnsOver()
    ensures Apply(Apply(Apply(Apply(ISSUED, Disconnect), Negotiate), Connect), Issue) == TURNED_OVER
  {
    var down := Apply(ISSUED, Disconnect);
    assert down == Mux(false, false, 1, 2, map[], [FIRST.(future := Failed)], []);
    assert Apply(Apply(down, Negotiate), Connect) == Mux(true, true, 2, 1, map[], [FIRST.(future := Failed)], []);
  }

  lemma StragglerFails()
    ensures var m := DisconnectStep(Apply(Apply(TURNED_OVER, SendDone(0, SendFailed(OtherFailure))), ResumeSend(0)));
      !m.connected && |m.requests| == 2 && m.requests[1].dropped == Evicted && Waiting(m.requests[1])
    ensures forall m :: Apply(m, Disconnect) == DisconnectStep(m)
  {
    var failed := Apply(TURNED_OVER, SendDone(0, SendFailed(OtherFailure)));
    assert failed == TURNED_OVER.(requests := [FIRST.(future := Failed, send := SendFailed(OtherFailure)),
                                               FIRST.(session := 2)]);
    var resumed := Apply(failed, ResumeSend(0));
    assert resumed.table == map[] && |resumed.requests| == 2;
    assert resumed.requests[1] == FIRST.(session := 2, dropped := Evicted);
  }

  // ----- The multiplexer object -----

  class Multiplexer {
    var connected: bool
    var version: bool
    var session: nat
    var nextCorrelationId: nat
    var correlated: map<nat, RequestNo>
    var requests: seq<Request>
    ghost var rejected: seq<RequestNo>

    ghost function Model(): Mux
      reads this
    {
      Mux(connected, version, session, nextCorrelationId, correlated, requests, rejected)
    }

    constructor ()
      ensures Model() == Init()
    {
      connected, version, session, nextCorrelationId := false, false, 0, 1;
      correlated, requests, rejected := map[], [], [];
    }

    method SetCapabilities()
      modifies this
      ensures Model() == NegotiateStep(old(Model()))
    {
      version := true;
    }

    method SetConnected()
      modifies this
      ensures Model() == Restart(old(Model()))
    {
      connected, session, nextCorrelationId := true, session + 1, 1;
    }

    /** `set_disconnected`, with the loop of `cancel_all` over the table. */
    method SetDisconnected()
      modifies this
      ensures Model() == DisconnectStep(old(Model()))
    {
      connected, version := false, false;
      ghost var before := requests;
      var left := correlated.Keys;
      while left != {}
        invariant left <= correlated.Keys
        invariant |requests| == |before|
        invariant forall r :: 0 <= r < |before| ==>
          requests[r] == (if InTable(old(Model()), r) && before[r].id !in left
                          then FailOpen(before[r]) else before[r])
        invariant Model() == old(Model()).(connected := false, version := false, requests := requests)
        decreases left
      {
        var id :| id in left;
        left := left - {id};
        var r := correlated[id];
        if r < |requests| && requests[r].id == id && !requests[r].tombstone && requests[r].future == Open {
          requests := requests[r := requests[r].(future := Failed)];
        }
      }
      correlated := map[];
      assert requests == DisconnectStep(old(Model())).requests;
    }

    method NextCorrelationId() returns (id: Option<nat>)
      modifies this`nextCorrelationId
      ensures Model() == OneWayStep(old(Model()))
      ensures id == (if old(nextCorrelationId) > LAST_ID then None else Some(old(nextCorrelationId)))
    {
      if nextCorrelationId > LAST_ID {
        return None;
      }
      id := Some(nextCorrelationId);
      nextCorrelationId := nextCorrelationId + 1;
    }

    /** `_issue_request` up to its first await; `None` is the error it raises instead. */
    method IssueRequest() returns (r: Option<RequestNo>)
      modifies this
      ensures Model() == IssueStep(old(Model()))
      ensures r == (if CanAllocate(old(Model())) then Some(|old(requests)|) else None)
    {
      if !version {
        return None;
      }
      var newId := nextCorrelationId;
      var id := NextCorrelationId();
      if id == None {
        return None;
      }
      r := Some(|requests|);
      correlated := correlated[newId := |requests|];
      requests := requests +
        [Request(session, newId, Open, false, false, InFlight, NoInterrupt, Sending, false, None, Kept)];
    }

    method Remove(r: RequestNo)
      requires r < |requests|
      modifies this
      ensures Model() == RemoveEntry(old(Model()), r)
    {
      var id := requests[r].id;
      if id in correlated {
        var owner := correlated[id];
        correlated := correlated - {id};
        if owner != r && owner < |requests| {
          requests := requests[owner := requests[owner].(dropped := Evicted)];
        }
      }
    }

    /** The part of `_issue_request` that runs when its send has completed. */
    method ResumeSend(r: RequestNo)
      requires r < |requests| && requests[r].phase == Sending && requests[r].send != InFlight
      modifies this
      ensures Model() == ResumeSendStep(old(Model()), r)
    {
      var q := requests[r];
      if q.send == Delivered && q.interrupt == NoInterrupt {
        requests := requests[r := q.(sent := true, phase := Awaiting)];
      } else if q.send == Delivered {
        requests := requests[r := q.(sent := true, tombstone := true, phase := Finished(WasCancelled))];
      } else if q.interrupt != NoInterrupt || q.send.why in {BuiltinTimeout, OtherFailure} {
        var outcome := if q.interrupt != NoInterrupt then WasCancelled
                       else if q.send.why == BuiltinTimeout then TimedOut else Raised;
        Remove(r);
        requests := requests[r := q.(phase := Finished(outcome), dropped := Forgotten)];
      } else {
        requests := requests[r := q.(sent := true, tombstone := true, phase := Finished(Raised))];
      }
    }

    /** `dispatch_correlated`; `unexpected` is the protocol error it raises. */
    method DispatchCorrelated(id: nat, payload: Payload, final: bool) returns (unexpected: bool)
      modifies this
      ensures unexpected <==> id !in old(correlated)
      ensures Model() == DispatchFrame(old(Model()), id, payload, final)
    {
      unexpected := id !in correlated;
      if unexpected || !final {
        return;
      }
      var r := correlated[id];
      correlated := correlated - {id};
      if r < |requests| && !requests[r].tombstone && requests[r].future == Open {
        requests := requests[r := requests[r].(future := Resolved(payload))];
      }
    }
  }
}
