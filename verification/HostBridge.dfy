/** `host_bridge.py`: the request broker between the voice daemon and the host. */
module HostBridge {
  import opened Text

  datatype Event = Event(conversation: string, body: string)

  datatype RequestState = Queued | Claimed | Completed | Cancelled | Failed

  datatype Request = Request(event: Event, state: RequestState, chunks: seq<string>, error: string)

  type Id = string

  type Metadata = map<string, string>

  const REQUIRED: seq<string> :=
    ["conversation_session_id", "parent_arqx_session_id", "active_agent_id", "project", "scope"]

  /** Everything the condition variable guards. */
  datatype Bridge = Bridge(session: Option<Metadata>, queue: seq<Id>, requests: map<Id, Request>)

  datatype Reply =
    | Done
    | MissingFields(fields: seq<string>)
    | Unavailable
    | Mismatch
    | Waiting
    | Returned(chunks: seq<string>)
    | Raised(error: string)
    | Handed(id: Id, event: Event)
    | Nothing
    | UnknownRequest
    | NotClaimed(state: RequestState)

  function MissingIn(m: Metadata, keys: seq<string>): seq<string> {
    if keys == [] then []
    else (if Get(m, keys[0]) == "" then [keys[0]] else []) + MissingIn(m, keys[1..])
  }

  function Clean(m: Metadata): Metadata { map k | k in REQUIRED :: Get(m, k) }

  function Conversation(session: Metadata): string { Get(session, "conversation_session_id") }

  /** `_require_session`. */
  function SessionCheck(b: Bridge, id: string): Reply {
    if b.session.None? then Unavailable
    else if Conversation(b.session.value) != id then Mismatch
    else Done
  }

  predicate Pending(s: RequestState) { s.Queued? || s.Claimed? }

  predicate Terminal(s: RequestState) { !Pending(s) }

  // ------------------------------------------------- each locked body, as a function

  function DoRegister(b: Bridge, m: Metadata): (Bridge, Reply) {
    var missing := MissingIn(m, REQUIRED);
    if missing != [] then (b, MissingFields(missing))
    else if b.session.Some? && b.session.value != Clean(m) then (b, Mismatch)
    else (b.(session := Some(Clean(m))), Done)
  }

  const DETACHED_ERROR := "host session detached"
  const TIMEOUT_ERROR := "host did not complete the current turn"

  function Cancel(r: Request): Request {
    if Pending(r.state) then r.(state := Cancelled, error := DETACHED_ERROR) else r
  }

  function DoDetach(b: Bridge, id: string): (Bridge, Reply) {
    var check := SessionCheck(b, id);
    if check != Done then (b, check)
    else (Bridge(None, [], map i | i in b.requests :: Cancel(b.requests[i])), Done)
  }

  /** One turn of the submitter's wait loop, for its own request. */
  function DoWake(b: Bridge, id: Id, expired: bool): (Bridge, Reply)
    requires id in b.requests
  {
    var r := b.requests[id];
    if r.state.Completed? then (b, Returned(r.chunks))
    else if Terminal(r.state) then (b, Raised(if r.error != "" then r.error else "host bridge failed"))
    else if expired then
      (b.(requests := b.requests[id := r.(state := Failed, error := TIMEOUT_ERROR)]), Raised(TIMEOUT_ERROR))
    else (b, Waiting)
  }

  /** `submit_input` up to its first wait; `expired` when the timeout is not positive. */
  function DoSubmit(b: Bridge, id: Id, e: Event, expired: bool): (Bridge, Reply) {
    var check := SessionCheck(b, e.conversation);
    if check != Done then (b, check)
    else
      DoWake(b.(queue := b.queue + [id], requests := b.requests[id := Request(e, Queued, [], "")]), id, expired)
  }

  function DoPoll(b: Bridge, expired: bool): (Bridge, Reply)
    requires forall i | i in b.queue :: i in b.requests
  {
    if b.queue == [] then
      (b, if b.session.None? then Unavailable else if expired then Nothing else Waiting)
    else
      var id := b.queue[0];
      var r := b.requests[id];
      (b.(queue := b.queue[1..], requests := b.requests[id := r.(state := Claimed)]), Handed(id, r.event))
  }

  function DoComplete(b: Bridge, id: Id, chunks: seq<string>): (Bridge, Reply) {
    if id !in b.requests then (b, UnknownRequest)
    else
      var r := b.requests[id];
      if !r.state.Claimed? then (b, NotClaimed(r.state))
      else (b.(requests := b.requests[id := r.(state := Completed, chunks := NonEmpty(chunks))]), Done)
  }

  // -------------------------------------------------------------------- the broker

  class HostSessionBridge {
    var session: Option<Metadata>
    var queue: seq<Id>
    var requests: map<Id, Request>

    function View(): Bridge
      reads this
    { Bridge(session, queue, requests) }

    ghost predicate Valid()
      reads this
    { forall i | i in queue :: i in requests }

    constructor ()
      ensures View() == Bridge(None, [], map[]) && Valid()
    {
      session, queue, requests := None, [], map[];
    }

    method RequireSession(id: string) returns (r: Reply)
      ensures r == SessionCheck(View(), id)
    {
      if session.None? {
        return Unavailable;
      }
      return if Conversation(session.value) != id then Mismatch else Done;
    }

    method RegisterSession(m: Metadata) returns (r: Reply)
      requires Valid()
      modifies this`session
      ensures (View(), r) == DoRegister(old(View()), m) && Valid()
    {
      var missing := MissingIn(m, REQUIRED);
      if missing != [] {
        return MissingFields(missing);
      }
      var clean := Clean(m);
      if session.Some? {
        if session.value != clean {
          return Mismatch;
        }
      } else {
        session := Some(clean);
      }
      return Done;
    }

    method Detach(id: string) returns (r: Reply)
      requires Valid()
      modifies this
      ensures (View(), r) == DoDetach(old(View()), id) && Valid()
    {
      r := RequireSession(id);
      if r != Done {
        return;
      }
      var left := requests.Keys;
      while left != {}
        invariant left <= requests.Keys == old(requests.Keys) && session == old(session) && queue == old(queue)
        invariant forall i | i in requests ::
          requests[i] == if i in left then old(requests)[i] else Cancel(old(requests)[i])
        decreases left
      {
        var i :| i in left;
        if Pending(requests[i].state) {
          requests := requests[i := requests[i].(state := Cancelled, error := DETACHED_ERROR)];
        }
        left := left - {i};
      }
      queue := [];
      session := None;
      assert requests == map i | i in old(requests) :: Cancel(old(requests)[i]);
    }

    method SubmitInput(id: Id, e: Event, expired: bool) returns (r: Reply)
      requires Valid() && id !in requests
      modifies this`queue, this`requests
      ensures (View(), r) == DoSubmit(old(View()), id, e, expired) && Valid()
    {
      r := RequireSession(e.conversation);
      if r != Done {
        return;
      }
      requests := requests[id := Request(e, Queued, [], "")];
      queue := queue + [id];
      r := Wake(id, expired);
    }

    method Wake(id: Id, expired: bool) returns (r: Reply)
      requires Valid() && id in requests
      modifies this`requests
      ensures (View(), r) == DoWake(old(View()), id, expired) && Valid()
    {
      var q := requests[id];
      if !Terminal(q.state) {
        if !expired {
          return Waiting;
        }
        q := q.(state := Failed, error := TIMEOUT_ERROR);
        requests := requests[id := q];
      }
      if !q.state.Completed? {
        return Raised(if q.error != "" then q.error else "host bridge failed");
      }
      return Returned(q.chunks);
    }

    method Poll(expired: bool) returns (r: Reply)
      requires Valid()
      modifies this`queue, this`requests
      ensures Valid()
      ensures (forall i | i in old(queue) :: i in old(requests)) && (View(), r) == DoPoll(old(View()), expired)
      ensures r.Handed? <==> old(queue) != []
      ensures r.Handed? ==>
        && r.id == old(queue)[0] && queue == old(queue)[1..] && r.event == old(requests)[r.id].event
        && requests == old(requests)[r.id := old(requests)[r.id].(state := Claimed)]
    {
      if queue == [] {
        if session.None? {
          return Unavailable;
        }
        return if expired then Nothing else Waiting;
      }
      var id := queue[0];
      assert id in queue;
      queue := queue[1..];
      requests := requests[id := requests[id].(state := Claimed)];
      return Handed(id, requests[id].event);
    }

    method Complete(id: Id, chunks: seq<string>) returns (r: Reply)
      requires Valid()
      modifies this`requests
      ensures (View(), r) == DoComplete(old(View()), id, chunks) && Valid()
    {
      if id !in requests {
        return UnknownRequest;
      }
      var q := requests[id];
      if !q.state.Claimed? {
        return NotClaimed(q.state);
      }
      requests := requests[id := q.(chunks := NonEmpty(chunks), state := Completed)];
      return Done;
    }
  }

  // --------------------------------------------------------- every interleaving

  /** One locked body, run by some thread. */
  datatype Action =
    | Register(m: Metadata)
    | Detach(session: string)
    | Submit(id: Id, event: Event, expired: bool)
    | Wake(id: Id, expired: bool)
    | Poll(expired: bool)
    | Complete(id: Id, chunks: seq<string>)

  /**
   * The broker with what its threads have seen: submitters still inside their wait,
   * ids in order of submission, of hand-out and of completion, and each submitter's outcome;
   * the event that each submitter brought, and the events in the order they were handed out.
   */
  datatype World = World(
    b: Bridge, waiting: set<Id>, submitted: seq<Id>, polled: seq<Id>, completed: seq<Id>, outcome: map<Id, Reply>,
    brought: map<Id, Event>, handed: seq<Event>)

  const BEGIN := World(Bridge(None, [], map[]), {}, [], [], [], map[], map[], [])

  /** Ids are fresh and only waiters wake; what is waited for or queued is known (`Inv` keeps it so). */
  predicate Enabled(w: World, a: Action) {
    match a
    case Submit(id, _, _) => id !in w.b.requests
    case Wake(id, _) => id in w.waiting && id in w.b.requests
    case Poll(_) => forall i | i in w.b.queue :: i in w.b.requests
    case _ => true
  }

  function Settle(w: World, id: Id, r: Reply): World {
    if r.Waiting? then w.(waiting := w.waiting + {id})
    else w.(waiting := w.waiting - {id}, outcome := w.outcome[id := r])
  }

  function Step(w: World, a: Action): World
    requires Enabled(w, a)
  {
    match a
    case Register(m) => w.(b := DoRegister(w.b, m).0)
    case Detach(session) => w.(b := DoDetach(w.b, session).0)
    case Submit(id, e, expired) =>
      var (b, r) := DoSubmit(w.b, id, e, expired);
      if SessionCheck(w.b, e.conversation) != Done then w
      else Settle(w.(b := b, submitted := w.submitted + [id], brought := w.brought[id := e]), id, r)
    case Wake(id, expired) =>
      var (b, r) := DoWake(w.b, id, expired);
      Settle(w.(b := b), id, r)
    case Poll(expired) =>
      var (b, r) := DoPoll(w.b, expired);
      if r.Handed? then w.(b := b, polled := w.polled + [r.id], handed := w.handed + [r.event]) else w.(b := b)
    case Complete(id, chunks) =>
      var (b, r) := DoComplete(w.b, id, chunks);
      if r.Done? then w.(b := b, completed := w.completed + [id]) else w.(b := b)
  }

  /** `a` is `b` with some elements left out. */
  predicate Subsequence<T(==)>(a: seq<T>, b: seq<T>) {
    a == [] ||
    (b != [] &&
     ((a[|a| - 1] == b[|b| - 1] && Subsequence(a[..|a| - 1], b[..|b| - 1])) || Subsequence(a, b[..|b| - 1])))
  }

  predicate Distinct<T(==)>(s: seq<T>) { forall i, j :: 0 <= i < j < |s| ==> s[i] != s[j] }

  ghost predicate Inv(w: World) {
    && w.waiting <= w.b.requests.Keys
    && Tracked(w) && Ordered(w) && Scoped(w.b) && Counted(w)
  }

  /** Every request carries the event it was submitted with, and every event was handed out under its own id. */
  ghost predicate Carried(w: World) {
    && (forall i | i in w.b.requests :: i in w.brought && w.b.requests[i].event == w.brought[i])
    && |w.handed| == |w.polled|
    && forall k | 0 <= k < |w.polled| :: w.polled[k] in w.brought && w.handed[k] == w.brought[w.polled[k]]
  }

  /** The queue holds exactly the queued requests, and timed-out ones not yet handed out. */
  ghost predicate Tracked(w: World) {
    && (forall i | i in w.b.queue :: i in w.b.requests && (w.b.requests[i].state.Queued? || w.b.requests[i].state.Failed?))
    && (forall i | i in w.b.requests && w.b.requests[i].state.Queued? :: i in w.b.queue)
    && (forall i | i in w.waiting :: i in w.b.requests && !w.b.requests[i].state.Failed?)
  }

  /** Hand-out follows submission order, and nothing is handed out twice. */
  ghost predicate Ordered(w: World) {
    && Subsequence(w.polled + w.b.queue, w.submitted)
    && Distinct(w.submitted) && Distinct(w.polled + w.b.queue)
    && (forall i :: i in w.submitted <==> i in w.b.requests)
  }

  /** Everything queued or claimed belongs to the registered session. */
  ghost predicate Scoped(b: Bridge) {
    forall i | i in b.requests && (Pending(b.requests[i].state) || i in b.queue) ::
      b.session.Some? && b.requests[i].event.conversation == Conversation(b.session.value)
  }

  ghost predicate Counted(w: World) {
    && Distinct(w.completed)
    && (forall i :: i in w.completed <==> i in w.b.requests && w.b.requests[i].state.Completed?)
  }

  // -------------------------------------------------------------- invariance, per step

  lemma {:induction false} SubsequencePrefix<T>(p: seq<T>, q: seq<T>, b: seq<T>)
    requires Subsequence(p + q, b)
    ensures Subsequence(p, b)
    decreases |q| + |b|
  {
    if q == [] {
      assert p + q == p;
    } else if p != [] {
      var a := p + q;
      if a[|a| - 1] == b[|b| - 1] && Subsequence(a[..|a| - 1], b[..|b| - 1]) {
        assert a[..|a| - 1] == p + q[..|q| - 1];
        SubsequencePrefix(p, q[..|q| - 1], b[..|b| - 1]);
      } else {
        SubsequencePrefix(p, q, b[..|b| - 1]);
      }
    }
  }

  lemma SubsequenceSnoc<T>(a: seq<T>, b: seq<T>, x: T)
    requires Subsequence(a, b)
    ensures Subsequence(a + [x], b + [x])
  {
    assert (a + [x])[..|a|] == a && (b + [x])[..|b|] == b;
  }

  lemma WakeKeeps(w: World, id: Id, expired: bool)
    requires Inv(w) && id in w.waiting
    ensures Inv(Step(w, Action.Wake(id, expired)))
  {}

  /** Queueing a fresh request, before its first wait. */
  ghost function Queue(w: World, id: Id, e: Event): World {
    w.(b := w.b.(queue := w.b.queue + [id], requests := w.b.requests[id := Request(e, Queued, [], "")]),
       submitted := w.submitted + [id], brought := w.brought[id := e])
  }

  lemma QueueKeepsOrdered(w: World, id: Id, e: Event)
    requires Ordered(w) && id !in w.b.requests && id !in w.polled + w.b.queue
    ensures Ordered(Queue(w, id, e))
  {
    SubsequenceSnoc(w.polled + w.b.queue, w.submitted, id);
    ConcatAssoc(w.polled, w.b.queue, [id]);
    DistinctSnoc(w.polled + w.b.queue, id);
    DistinctSnoc(w.submitted, id);
  }

  lemma DistinctSnoc(s: seq<Id>, id: Id)
    requires Distinct(s) && id !in s
    ensures Distinct(s + [id]) && forall x :: x in s + [id] <==> x in s || x == id
  {}

  lemma QueueKeepsTracked(w: World, id: Id, e: Event)
    requires Tracked(w) && Scoped(w.b) && Counted(w) && id !in w.b.requests
    requires w.b.session.Some? && e.conversation == Conversation(w.b.session.value)
    ensures Tracked(Queue(w, id, e)) && Scoped(Queue(w, id, e).b) && Counted(Queue(w, id, e))
  {
    var q := w.b.queue + [id];
    assert id in q && forall i | i in w.b.queue :: i in q;
  }

  lemma QueueKeeps(w: World, id: Id, e: Event)
    requires Inv(w) && id !in w.b.requests
    requires w.b.session.Some? && e.conversation == Conversation(w.b.session.value)
    ensures Inv(Queue(w, id, e))
  {
    PolledWereSubmitted(w, id);
    QueueKeepsOrdered(w, id, e);
    QueueKeepsTracked(w, id, e);
  }

  /** A wake of a request nobody else waits for is the first turn of its own wait. */
  lemma FirstWakeKeeps(w: World, id: Id, expired: bool)
    requires Inv(w) && id in w.b.requests && StateOf(w, id).Queued?
    ensures Inv(Settle(w.(b := DoWake(w.b, id, expired).0), id, DoWake(w.b, id, expired).1))
  {}

  lemma SubmitKeeps(w: World, id: Id, e: Event, expired: bool)
    requires Inv(w) && id !in w.b.requests
    ensures Inv(Step(w, Submit(id, e, expired)))
  {
    if SessionCheck(w.b, e.conversation) == Done {
      QueueKeeps(w, id, e);
      FirstWakeKeeps(Queue(w, id, e), id, expired);
    }
  }

  lemma {:induction false} SubsequenceMember<T>(a: seq<T>, b: seq<T>, x: T)
    requires Subsequence(a, b) && x in a
    ensures x in b
    decreases |b|
  {
    if a[|a| - 1] == b[|b| - 1] && Subsequence(a[..|a| - 1], b[..|b| - 1]) {
      if x != a[|a| - 1] {
        assert a == a[..|a| - 1] + [a[|a| - 1]];
        SubsequenceMember(a[..|a| - 1], b[..|b| - 1], x);
      }
    } else {
      SubsequenceMember(a, b[..|b| - 1], x);
    }
  }

  lemma PolledWereSubmitted(w: World, id: Id)
    requires Inv(w) && id !in w.b.requests
    ensures id !in w.polled + w.b.queue
  {
    if id in w.polled + w.b.queue {
      SubsequenceMember(w.polled + w.b.queue, w.submitted, id);
    }
  }

  /** The head of the queue is not in the rest of it. */
  lemma HeadLeaves(polled: seq<Id>, queue: seq<Id>)
    requires queue != [] && Distinct(polled + queue)
    ensures polled + [queue[0]] + queue[1..] == polled + queue && queue[0] in queue
    ensures forall i | i in queue :: i in queue[1..] <==> i != queue[0]
  {
    forall i | i in queue[1..] ensures i != queue[0] {
      var k :| 0 <= k < |queue[1..]| && queue[1..][k] == i;
      assert (polled + queue)[|polled|] == queue[0] && (polled + queue)[|polled| + 1 + k] == i;
    }
    assert queue == [queue[0]] + queue[1..];
  }

  lemma PollKeeps(w: World, expired: bool)
    requires Inv(w)
    ensures Inv(Step(w, Action.Poll(expired)))
  {
    if w.b.queue != [] {
      HeadLeaves(w.polled, w.b.queue);
    }
  }

  lemma DetachKeeps(w: World, session: string)
    requires Inv(w)
    ensures Inv(Step(w, Action.Detach(session)))
  {
    SubsequencePrefix(w.polled, w.b.queue, w.submitted);
    assert w.polled + [] == w.polled;
    forall i, j | 0 <= i < j < |w.polled| ensures w.polled[i] != w.polled[j] {
      var all := w.polled + w.b.queue;
      assert all[i] == w.polled[i] && all[j] == w.polled[j];
    }
  }

  lemma CompleteKeeps(w: World, id: Id, chunks: seq<string>)
    requires Inv(w)
    ensures Inv(Step(w, Action.Complete(id, chunks)))
  {}

  /** Every locked body keeps the broker's invariant. */
  lemma StepKeeps(w: World, a: Action)
    requires Inv(w) && Enabled(w, a)
    ensures Inv(Step(w, a))
  {
    match a {
      case Register(m) =>
      case Detach(session) => DetachKeeps(w, session);
      case Submit(id, e, expired) => SubmitKeeps(w, id, e, expired);
      case Wake(id, expired) => WakeKeeps(w, id, expired);
      case Poll(expired) => PollKeeps(w, expired);
      case Complete(id, chunks) => CompleteKeeps(w, id, chunks);
    }
  }

  // ------------------------------------------------------------------------- runs

  ghost predicate StepsAt(ws: seq<World>, acts: seq<Action>, k: nat)
    requires k < |acts| && |ws| == |acts| + 1
  { Enabled(ws[k], acts[k]) && ws[k + 1] == Step(ws[k], acts[k]) }

  /** A run from any state. */
  ghost predicate IsRun(ws: seq<World>, acts: seq<Action>) {
    |ws| == |acts| + 1 && forall k | 0 <= k < |acts| :: StepsAt(ws, acts, k)
  }

  ghost predicate IsHistory(ws: seq<World>, acts: seq<Action>) { IsRun(ws, acts) && ws[0] == BEGIN }

  lemma {:induction false} RunInv(ws: seq<World>, acts: seq<Action>, k: nat)
    requires IsRun(ws, acts) && Inv(ws[0]) && k < |ws|
    ensures Inv(ws[k])
  {
    if k > 0 {
      RunInv(ws, acts, k - 1);
      assert StepsAt(ws, acts, k - 1);
      StepKeeps(ws[k - 1], acts[k - 1]);
    }
  }

  /** The invariant holds throughout every run from the empty broker. */
  lemma HistoryInv(ws: seq<World>, acts: seq<Action>, k: nat)
    requires IsHistory(ws, acts) && k < |ws|
    ensures Inv(ws[k])
  {
    RunInv(ws, acts, k);
  }

  /** Hand-out is FIFO and at most once, completion at most once, in every run. */
  lemma BrokerSafety(ws: seq<World>, acts: seq<Action>, k: nat)
    requires IsHistory(ws, acts) && k < |ws|
    ensures Subsequence(ws[k].polled, ws[k].submitted) && Distinct(ws[k].polled)
    ensures Distinct(ws[k].completed)
    ensures Scoped(ws[k].b)
  {
    HistoryInv(ws, acts, k);
    var w := ws[k];
    SubsequencePrefix(w.polled, w.b.queue, w.submitted);
    forall i, j | 0 <= i < j < |w.polled| ensures w.polled[i] != w.polled[j] {
      var all := w.polled + w.b.queue;
      assert all[i] == w.polled[i] && all[j] == w.polled[j];
    }
  }

  lemma StepLosesNothing(w: World, a: Action)
    requires Enabled(w, a) && !a.Detach? && w.polled + w.b.queue == w.submitted
    ensures Step(w, a).polled + Step(w, a).b.queue == w.submitted + NewlySubmitted(w, a)
    ensures Step(w, a).submitted == w.submitted + NewlySubmitted(w, a)
  {
    match a {
      case Submit(id, e, expired) => ConcatAssoc(w.polled, w.b.queue, [id]);
      case Poll(expired) => if w.b.queue != [] { ShiftHead(w.polled, w.b.queue); }
      case _ =>
    }
  }

  function NewlySubmitted(w: World, a: Action): seq<Id> {
    if a.Submit? && SessionCheck(w.b, a.event.conversation).Done? then [a.id] else []
  }

  /** While nobody detaches, no request is lost: what was submitted is handed out or queued, in order. */
  lemma {:induction false} NothingLost(ws: seq<World>, acts: seq<Action>, k: nat)
    requires IsHistory(ws, acts) && k < |ws|
    requires forall j | 0 <= j < k :: !acts[j].Detach?
    ensures ws[k].polled + ws[k].b.queue == ws[k].submitted
  {
    if k > 0 {
      NothingLost(ws, acts, k - 1);
      assert StepsAt(ws, acts, k - 1);
      StepLosesNothing(ws[k - 1], acts[k - 1]);
    }
  }

  lemma PolledKnown(w: World, id: Id)
    requires Inv(w) && id !in w.b.requests
    ensures id !in w.polled
  {
    PolledWereSubmitted(w, id);
    assert forall x | x in w.polled :: x in w.polled + w.b.queue;
  }

  lemma SubmitCarries(w: World, id: Id, e: Event, expired: bool)
    requires Inv(w) && Carried(w) && id !in w.b.requests
    ensures Carried(Step(w, Submit(id, e, expired)))
  {
    PolledKnown(w, id);
  }

  lemma PollCarries(w: World, expired: bool)
    requires Inv(w) && Carried(w)
    ensures Carried(Step(w, Action.Poll(expired)))
  {
    if w.b.queue != [] { assert w.b.queue[0] in w.b.queue; }
  }

  lemma OtherCarries(w: World, a: Action)
    requires Carried(w) && Enabled(w, a) && !a.Submit? && !a.Poll?
    ensures Carried(Step(w, a))
  {}

  /** Every locked body keeps events and ids together. */
  lemma StepCarries(w: World, a: Action)
    requires Inv(w) && Carried(w) && Enabled(w, a)
    ensures Carried(Step(w, a))
  {
    match a {
      case Submit(id, e, expired) => SubmitCarries(w, id, e, expired);
      case Poll(expired) => PollCarries(w, expired);
      case _ => OtherCarries(w, a);
    }
  }

  lemma {:induction false} RunCarries(ws: seq<World>, acts: seq<Action>, k: nat)
    requires IsRun(ws, acts) && Inv(ws[0]) && Carried(ws[0]) && k < |ws|
    ensures Carried(ws[k])
  {
    if k > 0 {
      RunCarries(ws, acts, k - 1);
      RunInv(ws, acts, k - 1);
      assert StepsAt(ws, acts, k - 1);
      StepCarries(ws[k - 1], acts[k - 1]);
    }
  }

  /**
   * In every run the events are handed out in order of submission, each under the id that its own
   * submitter waits for; and nothing but these ids and events is ever handed out.
   */
  lemma HandsOutWhatWasBrought(ws: seq<World>, acts: seq<Action>, k: nat)
    requires IsHistory(ws, acts) && k < |ws|
    ensures var w := ws[k];
      |w.handed| == |w.polled| && forall i | 0 <= i < |w.polled| ::
        w.polled[i] in w.submitted && w.polled[i] in w.brought && w.handed[i] == w.brought[w.polled[i]]
  {
    HistoryInv(ws, acts, k);
    RunCarries(ws, acts, k);
    var w := ws[k];
    SubsequencePrefix(w.polled, w.b.queue, w.submitted);
    forall i | 0 <= i < |w.polled| ensures w.polled[i] in w.submitted {
      SubsequenceMember(w.polled, w.submitted, w.polled[i]);
    }
  }

  /** A poll hands out the oldest id of the queue, with the event of that very request, and takes only that id. */
  lemma PollHands(w: World, expired: bool)
    requires Inv(w) && Carried(w) && w.b.queue != []
    ensures var v, id := Step(w, Action.Poll(expired)), w.b.queue[0];
      && v.polled == w.polled + [id] && v.b.queue == w.b.queue[1..]
      && id in w.brought && v.handed == w.handed + [w.brought[id]]
      && id in v.b.requests && v.b.requests[id].state == Claimed
      && v.b.requests.Keys == w.b.requests.Keys
      && forall i | i in w.b.requests && i != id :: v.b.requests[i] == w.b.requests[i]
  {
    assert w.b.queue[0] in w.b.queue;
  }

  // -------------------------------------------------------- the life of one request

  function StateOf(w: World, id: Id): RequestState
    requires id in w.b.requests
  { w.b.requests[id].state }

  lemma OtherKeepsEvent(w: World, a: Action, id: Id)
    requires Enabled(w, a) && !a.Poll? && id in w.b.requests
    ensures id in Step(w, a).b.requests && Step(w, a).b.requests[id].event == w.b.requests[id].event
  {}

  lemma StepKeepsBrought(w: World, a: Action, id: Id)
    requires Enabled(w, a) && id in w.b.requests && id in w.brought
    ensures id in Step(w, a).brought && Step(w, a).brought[id] == w.brought[id]
  {}

  /** No step changes what was brought under an id, nor the event that its request carries. */
  lemma StepKeepsEvent(w: World, a: Action, id: Id)
    requires Inv(w) && Carried(w) && Enabled(w, a) && id in w.b.requests
    ensures var v := Step(w, a);
      id in v.b.requests && v.b.requests[id].event == w.b.requests[id].event
      && id in v.brought && v.brought[id] == w.brought[id]
  {
    StepKeepsBrought(w, a, id);
    if !a.Poll? {
      OtherKeepsEvent(w, a, id);
    } else if w.b.queue != [] {
      PollHands(w, a.expired);
    }
  }

  /** A request keeps its event for ever. */
  lemma {:induction false} EventForever(ws: seq<World>, acts: seq<Action>, id: Id, i: nat, k: nat)
    requires IsRun(ws, acts) && Inv(ws[0]) && Carried(ws[0]) && i <= k < |ws| && id in ws[i].b.requests
    ensures id in ws[k].b.requests && ws[k].b.requests[id].event == ws[i].b.requests[id].event
    decreases k
  {
    if i < k {
      EventForever(ws, acts, id, i, k - 1);
      RunInv(ws, acts, k - 1);
      RunCarries(ws, acts, k - 1);
      assert StepsAt(ws, acts, k - 1);
      StepKeepsEvent(ws[k - 1], acts[k - 1], id);
    }
  }

  /** `completed` and `cancelled` are final, with the same chunks. */
  lemma StepAbsorbing(w: World, a: Action, id: Id)
    requires Inv(w) && Enabled(w, a) && id in w.b.requests
    requires StateOf(w, id).Completed? || StateOf(w, id).Cancelled?
    ensures id in Step(w, a).b.requests && Step(w, a).b.requests[id] == w.b.requests[id]
  {
    if w.b.queue != [] {
      assert w.b.queue[0] in w.b.queue;
    }
  }

  /**
   * `failed` is not final: a timed-out request leaves that state exactly when a poll
   * takes it from the head of the queue, where the timeout had left it.
   */
  lemma FailedLeavesByPoll(w: World, a: Action, id: Id)
    requires Inv(w) && Enabled(w, a) && id in w.b.requests && StateOf(w, id).Failed?
    ensures id in Step(w, a).b.requests
    ensures !StateOf(Step(w, a), id).Failed?
       <==> a.Poll? && w.b.queue != [] && w.b.queue[0] == id
    ensures !StateOf(Step(w, a), id).Failed? ==> StateOf(Step(w, a), id).Claimed? && id !in w.waiting
  {
    if !a.Poll? {
      FailedStays(w, a, id);
    }
  }

  lemma FailedStays(w: World, a: Action, id: Id)
    requires Enabled(w, a) && !a.Poll? && id in w.b.requests && StateOf(w, id).Failed?
    ensures id in Step(w, a).b.requests && StateOf(Step(w, a), id).Failed?
  {}

  /** A registration and a submission that times out at once. */
  lemma TimedOut(m: Metadata, e: Event) returns (w1: World, w2: World)
    requires MissingIn(m, REQUIRED) == [] && e.conversation == Conversation(Clean(m))
    ensures Enabled(BEGIN, Register(m)) && w1 == Step(BEGIN, Register(m))
    ensures Enabled(w1, Submit("r", e, true)) && w2 == Step(w1, Submit("r", e, true))
    ensures w2.b.queue == ["r"] && w2.b.requests == map["r" := Request(e, Failed, [], TIMEOUT_ERROR)]
  {
    w1 := Step(BEGIN, Register(m));
    assert w1.b == Bridge(Some(Clean(m)), [], map[]);
    w2 := Step(w1, Submit("r", e, true));
  }

  lemma PollClaims(w: World, id: Id)
    requires w.b.queue == [id] && id in w.b.requests
    ensures Enabled(w, Action.Poll(false))
    ensures id in Step(w, Action.Poll(false)).b.requests && StateOf(Step(w, Action.Poll(false)), id).Claimed?
  {}

  lemma ThreeSteps(acts: seq<Action>, w1: World, w2: World)
    requires |acts| == 3 && Enabled(BEGIN, acts[0]) && w1 == Step(BEGIN, acts[0])
    requires Enabled(w1, acts[1]) && w2 == Step(w1, acts[1]) && Enabled(w2, acts[2])
    ensures IsHistory([BEGIN, w1, w2, Step(w2, acts[2])], acts)
  {
    var ws := [BEGIN, w1, w2, Step(w2, acts[2])];
    assert StepsAt(ws, acts, 0) && StepsAt(ws, acts, 1) && StepsAt(ws, acts, 2);
  }

  /** A timed-out request can be claimed again: one run of three steps. */
  lemma FailedReclaimed(m: Metadata, e: Event)
    requires MissingIn(m, REQUIRED) == [] && e.conversation == Conversation(Clean(m))
    ensures exists ws: seq<World>, acts: seq<Action> ::
              && IsHistory(ws, acts) && |ws| == 4
              && "r" in ws[2].b.requests && StateOf(ws[2], "r").Failed?
              && "r" in ws[3].b.requests && StateOf(ws[3], "r").Claimed?
  {
    var w1, w2 := TimedOut(m, e);
    PollClaims(w2, "r");
    var acts := [Register(m), Submit("r", e, true), Action.Poll(false)];
    ThreeSteps(acts, w1, w2);
    assert IsHistory([BEGIN, w1, w2, Step(w2, acts[2])], acts);
  }

  /** The submitter's answer, once its request is completed with `chunks`. */
  ghost predicate Delivered(w: World, id: Id, chunks: seq<string>) {
    && id in w.b.requests && StateOf(w, id).Completed? && w.b.requests[id].chunks == chunks
    && (id in w.waiting || (id in w.outcome && w.outcome[id] == Returned(chunks)))
  }

  /** A completion accepted while the submitter waits decides its answer. */
  lemma CompleteDelivers(w: World, id: Id, chunks: seq<string>)
    requires Inv(w) && id in w.waiting && StateOf(w, id).Claimed?
    ensures DoComplete(w.b, id, chunks).1 == Done
    ensures Delivered(Step(w, Action.Complete(id, chunks)), id, NonEmpty(chunks))
  {}

  lemma DeliveredStep(w: World, a: Action, id: Id, chunks: seq<string>)
    requires Inv(w) && Enabled(w, a) && Delivered(w, id, chunks)
    ensures Delivered(Step(w, a), id, chunks)
  {
    StepAbsorbing(w, a, id);
  }

  /** From then on, whatever interleaves, it returns those chunks and never a timeout. */
  lemma {:induction false} DeliveredForever(ws: seq<World>, acts: seq<Action>, id: Id, chunks: seq<string>, k: nat)
    requires IsRun(ws, acts) && Inv(ws[0]) && k < |ws| && Delivered(ws[0], id, chunks)
    ensures Delivered(ws[k], id, chunks)
  {
    if k > 0 {
      DeliveredForever(ws, acts, id, chunks, k - 1);
      RunInv(ws, acts, k - 1);
      assert StepsAt(ws, acts, k - 1);
      DeliveredStep(ws[k - 1], acts[k - 1], id, chunks);
    }
  }
}
