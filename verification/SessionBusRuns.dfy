/**
 * Every interleaving of turns with outside publications, lease changes and restarts of
 * the bus over the same file. A turn holds the turn lock from its input to its last output.
 */
module SessionBusRuns {
  import opened Text
  import opened SessionBus

  /**
   * A turn that was accepted: what was submitted and the chunks that the adapter yielded for it, with the
   * positions in the log of the input and of the output published for each chunk.
   */
  datatype Turn = Turn(input: nat, request: Request, outputs: seq<nat>, chunks: seq<string>)

  datatype Phase = Idle | Accepted | Streaming

  /** The turns so far (the last one runs unless idle) and the inputs handed to an adapter. */
  datatype World = World(bus: Bus, phase: Phase, turns: seq<Turn>, calls: seq<nat>)

  datatype Action =
    | Restart
    | Register(id: string, who: Identity, adapter: bool)
    | RegisterAdapter
    | Attach(id: string, owner: string, now: int, nonce: string, expires: int)
    | Detach(id: string, nonce: string)
    | Publish(id: string, what: Publication)
    | Submit(id: string, request: Request, now: int)
    | Call
    | Chunk(id: string, text: string)
    | Finish
    | Abort

  const BEGIN := World(Bus([], None, false), Idle, [], [])

  /** A running turn has its input in the log (`Inv` keeps it so). */
  predicate HasInput(w: World) { w.turns != [] && Last(w).input < |w.bus.events| }

  predicate Enabled(w: World, a: Action) {
    match a
    case Submit(_, _, _) => w.phase.Idle?
    case Call => w.phase.Accepted? && HasInput(w)
    case Chunk(_, _) => w.phase.Streaming? && HasInput(w)
    case Finish => w.phase.Streaming?
    case Abort => !w.phase.Idle?
    case _ => true
  }

  function Step(w: World, a: Action): World
    requires Enabled(w, a)
  {
    match a
    case Restart => World(Bus(w.bus.events, None, false), Idle, w.turns, w.calls)
    case Register(id, who, adapter) => w.(bus := DoRegister(w.bus, id, who, adapter).0)
    case RegisterAdapter => w.(bus := DoRegisterAdapter(w.bus).0)
    case Attach(id, owner, now, nonce, expires) => w.(bus := DoAttach(w.bus, id, owner, now, nonce, expires).0)
    case Detach(id, nonce) => w.(bus := DoDetach(w.bus, id, nonce).0)
    case Publish(id, what) => w.(bus := DoPublish(w.bus, id, what).0)
    case Submit(id, q, now) =>
      var (b, r) := DoSubmit(w.bus, id, q, now);
      if r.Appended? then World(b, Accepted, w.turns + [Turn(|w.bus.events|, q, [], [])], w.calls) else w
    case Call => w.(phase := Streaming, calls := w.calls + [Last(w).input])
    case Chunk(id, text) =>
      if text == "" then w
      else
        var (b, r) := DoPublish(w.bus, id, Answer(w.bus.events[Last(w).input], text));
        if r.Appended? then w.(bus := b, turns := Answered(w.turns, |w.bus.events|, text)) else w.(phase := Idle)
    case Finish => w.(phase := Idle)
    case Abort => w.(phase := Idle)
  }

  function Last(w: World): Turn
    requires w.turns != []
  { w.turns[|w.turns| - 1] }

  /** The last turn with one output more. */
  function Answered(turns: seq<Turn>, at: nat, chunk: string): seq<Turn>
    requires turns != []
  { turns[..|turns| - 1] + [With(turns[|turns| - 1], at, chunk)] }

  function With(t: Turn, at: nat, chunk: string): Turn {
    t.(outputs := t.outputs + [at], chunks := t.chunks + [chunk])
  }

  // ------------------------------------------------------------------- the invariant

  ghost predicate Inv(w: World) {
    && LogFits(w.bus) && TurnsFit(w.bus.events, w.turns)
    && Running(w.bus, w.phase, w.turns) && Called(w.bus.events, w.phase, w.turns, w.calls)
  }

  ghost predicate LogFits(b: Bus) { Numbered(b.events) && Unique(b.events) && NextFits(b) }

  /** Each event's sequence counts the events of its session up to it. */
  ghost predicate Numbered(es: seq<Event>) {
    forall k | 0 <= k < |es| :: es[k].sequence == |OfSession(es[..k], es[k].session)| + 1
  }

  ghost predicate Unique(es: seq<Event>) {
    && (forall i, j | 0 <= i < j < |es| :: es[i].id != es[j].id)
    && (forall i, j | 0 <= i < j < |es| :: Key(es[i]) != "" ==> Key(es[i]) != Key(es[j]))
  }

  ghost predicate NextFits(b: Bus) {
    b.session.Some? ==> b.session.value.next == |OfSession(b.events, b.session.value.id)| + 1
  }

  predicate Increasing(s: seq<nat>) { forall i, j | 0 <= i < j < |s| :: s[i] < s[j] }

  predicate Within(s: seq<nat>, n: nat) { forall i | 0 <= i < |s| :: s[i] < n }

  predicate IsOutputOf(es: seq<Event>, t: Turn, k: nat)
    requires t.input < |es|
  {
    && t.input < k < |es| && es[k].direction.Output?
    && es[k].session == es[t.input].session && Names(es[k]) == es[t.input].id
  }

  /** No other input comes between a turn's input and any output the turn produced. */
  ghost predicate Uninterrupted(es: seq<Event>, t: Turn) {
    forall k, m | k in t.outputs && t.input < m <= k && m < |es| :: es[m].direction.Output?
  }

  /** The input says what was submitted. */
  predicate Asks(e: Event, q: Request) {
    && e.direction.Input? && e.session == q.session && e.text == q.text && e.origin == q.origin && e.turn == q.turn
    && e.modality == q.modality && (q.modality == "text" || q.modality == "voice") && e.metadata == q.metadata
  }

  /** Each output says its chunk, in the turn and modality of the input. */
  predicate Speaks(es: seq<Event>, t: Turn)
    requires t.input < |es|
  {
    |t.chunks| == |t.outputs| && forall i | 0 <= i < |t.outputs| ::
      && t.outputs[i] < |es| && es[t.outputs[i]].text == t.chunks[i] && t.chunks[i] != ""
      && es[t.outputs[i]].turn == es[t.input].turn && es[t.outputs[i]].modality == es[t.input].modality
  }

  ghost predicate TurnFits(es: seq<Event>, t: Turn) {
    && t.input < |es| && Asks(es[t.input], t.request) && Speaks(es, t) && Increasing(t.outputs)
    && (forall k | k in t.outputs :: IsOutputOf(es, t, k))
    && Uninterrupted(es, t)
  }

  ghost predicate TurnsFit(es: seq<Event>, turns: seq<Turn>) {
    && (forall t | t in turns :: TurnFits(es, t))
    && (forall i, j | 0 <= i < j < |turns| :: turns[i].input < turns[j].input)
  }

  /** While a turn runs its session is registered and its input is the log's last. */
  ghost predicate Running(b: Bus, phase: Phase, turns: seq<Turn>) {
    !phase.Idle? ==>
      && turns != [] && b.session.Some? && LastInput(b.events, turns[|turns| - 1].input)
      && b.session.value.id == b.events[turns[|turns| - 1].input].session
  }

  ghost predicate LastInput(es: seq<Event>, input: nat) {
    input < |es| && forall m | input < m < |es| :: es[m].direction.Output?
  }

  ghost predicate Called(es: seq<Event>, phase: Phase, turns: seq<Turn>, calls: seq<nat>) {
    && Increasing(calls)
    && Within(calls, |es|)
    && (phase.Accepted? ==> turns != [] && Within(calls, turns[|turns| - 1].input))
  }

  // ------------------------------------------------------------ appending one event

  lemma {:induction false} MaxOfNumbered(es: seq<Event>, session: string)
    requires Numbered(es)
    ensures NextSequence(OfSession(es, session)) == |OfSession(es, session)| + 1
    decreases |es|
  {
    if es != [] {
      var init := es[..|es| - 1];
      NumberedPrefix(es, |es| - 1);
      MaxOfNumbered(init, session);
      var mine := OfSession(init, session);
      if es[|es| - 1].session == session {
        MaxSnoc(mine, es[|es| - 1]);
      } else {
        assert mine + [] == mine;
      }
    }
  }

  lemma MaxSnoc(es: seq<Event>, e: Event)
    requires e.sequence == |es| + 1 && NextSequence(es) == |es| + 1
    ensures NextSequence(es + [e]) == |es| + 2
  {
    assert (es + [e])[..|es|] == es;
  }

  lemma NumberedPrefix(es: seq<Event>, n: nat)
    requires Numbered(es) && n <= |es|
    ensures Numbered(es[..n])
  {
    forall k | 0 <= k < n ensures es[..n][k].sequence == |OfSession(es[..n][..k], es[..n][k].session)| + 1 {
      assert es[..n][..k] == es[..k];
    }
  }

  lemma AppendKeepsNumbers(b: Bus, e: Event)
    requires Numbered(b.events) && NextFits(b) && b.session.Some?
    requires e.session == b.session.value.id && e.sequence == b.session.value.next
    ensures Numbered(b.events + [e]) && NextFits(Append(b, e).0)
  {
    var es := b.events + [e];
    assert es[..|es| - 1] == b.events;
    forall k | 0 <= k < |es| ensures es[k].sequence == |OfSession(es[..k], es[k].session)| + 1 {
      if k < |b.events| {
        assert es[..k] == b.events[..k];
      }
    }
  }

  lemma AppendKeepsUnique(es: seq<Event>, e: Event)
    requires Unique(es) && Verdict(es, e).Appended?
    ensures Unique(es + [e])
  {
    forall i | 0 <= i < |es| ensures es[i].id != e.id && (Key(e) != "" ==> Key(es[i]) != Key(e)) {
      assert es[i] in es;
      assert es[i].id in IdsOf(es);
      assert Key(es[i]) != "" ==> Key(es[i]) in KeysOf(es);
    }
  }

  lemma AppendKeepsTurns(es: seq<Event>, turns: seq<Turn>, e: Event)
    requires TurnsFit(es, turns)
    ensures TurnsFit(es + [e], turns)
  {
    forall t | t in turns ensures TurnFits(es + [e], t) {
      AppendKeepsTurn(es, t, e);
    }
  }

  lemma AppendKeepsTurn(es: seq<Event>, t: Turn, e: Event)
    requires TurnFits(es, t)
    ensures TurnFits(es + [e], t)
  {
    var more := es + [e];
    forall k | k in t.outputs ensures IsOutputOf(more, t, k) {
      assert IsOutputOf(es, t, k);
    }
    forall k, m | k in t.outputs && t.input < m <= k && m < |more| ensures more[m].direction.Output? {
      assert IsOutputOf(es, t, k);
      assert es[m].direction.Output?;
    }
  }

  /** An accepted event of the registered session keeps the log in order. */
  lemma AppendKeepsLog(b: Bus, e: Event)
    requires LogFits(b) && b.session.Some? && Verdict(b.events, e).Appended?
    requires e.session == b.session.value.id && e.sequence == b.session.value.next
    ensures LogFits(Append(b, e).0)
  {
    AppendKeepsNumbers(b, e);
    AppendKeepsUnique(b.events, e);
  }

  /** The bus's own events never conflict: a refusal is a repeated id or key. */
  lemma NeverConflicts(b: Bus, e: Event)
    requires Numbered(b.events) && NextFits(b) && b.session.Some?
    requires e.session == b.session.value.id && e.sequence == b.session.value.next
    ensures !Verdict(b.events, e).Conflict?
  {
    if b.events != [] && b.events[|b.events| - 1].session == e.session {
      var init := b.events[..|b.events| - 1];
      assert OfSession(b.events, e.session) == OfSession(init, e.session) + [b.events[|b.events| - 1]];
    }
  }

  // ---------------------------------------------------------------- each step keeps it

  /** Appending an output to the log, whoever publishes it. */
  lemma OutputKeeps(w: World, e: Event)
    requires Inv(w) && w.bus.session.Some? && e.direction.Output?
    requires e.session == w.bus.session.value.id && e.sequence == w.bus.session.value.next
    ensures Inv(w.(bus := Append(w.bus, e).0))
  {
    if Verdict(w.bus.events, e).Appended? {
      AppendKeepsLog(w.bus, e);
      AppendKeepsTurns(w.bus.events, w.turns, e);
      OutputKeepsRunning(w.bus, w.phase, w.turns, e);
    }
  }

  lemma OutputKeepsRunning(b: Bus, phase: Phase, turns: seq<Turn>, e: Event)
    requires Running(b, phase, turns) && b.session.Some? && e.direction.Output?
    ensures Running(Append(b, e).0, phase, turns)
  {}

  lemma PublishKeeps(w: World, id: string, p: Publication)
    requires Inv(w)
    ensures Inv(w.(bus := DoPublish(w.bus, id, p).0))
  {
    if w.bus.session.Some? {
      OutputKeeps(w, OutputEvent(w.bus.session.value, id, p));
    }
  }

  /** An accepted input opens a turn. */
  lemma InputKeeps(w: World, e: Event, q: Request)
    requires Inv(w) && w.phase.Idle? && w.bus.session.Some? && e.direction.Input?
    requires e.session == w.bus.session.value.id && e.sequence == w.bus.session.value.next
    requires Verdict(w.bus.events, e).Appended? && Asks(e, q)
    ensures Inv(World(Append(w.bus, e).0, Accepted, w.turns + [Turn(|w.bus.events|, q, [], [])], w.calls))
  {
    AppendKeepsLog(w.bus, e);
    AppendKeepsTurns(w.bus.events, w.turns, e);
    AddTurnKeeps(w.bus.events, w.turns, e, q);
  }

  lemma AddTurnKeeps(es: seq<Event>, turns: seq<Turn>, e: Event, q: Request)
    requires TurnsFit(es, turns) && TurnsFit(es + [e], turns) && Asks(e, q)
    ensures TurnsFit(es + [e], turns + [Turn(|es|, q, [], [])])
  {
    var more := turns + [Turn(|es|, q, [], [])];
    forall t | t in more ensures TurnFits(es + [e], t) {
      assert t in turns || t == Turn(|es|, q, [], []);
    }
    forall i, j | 0 <= i < j < |more| ensures more[i].input < more[j].input {
      assert TurnFits(es, turns[i]);
    }
  }

  lemma SubmitKeeps(w: World, id: string, q: Request, now: int)
    requires Inv(w) && w.phase.Idle?
    ensures Inv(Step(w, Submit(id, q, now)))
  {
    SubmitStep(w, id, q, now);
    if DoSubmit(w.bus, id, q, now).1.Appended? {
      SubmitSays(w.bus, id, q, now);
      InputKeeps(w, InputEvent(w.bus.session.value, id, q), q);
    }
  }

  /** An accepted submission appends its input and opens a turn; any other changes nothing. */
  lemma SubmitStep(w: World, id: string, q: Request, now: int)
    requires w.phase.Idle?
    ensures var (b, r) := DoSubmit(w.bus, id, q, now);
      if r.Appended? then
        && w.bus.session.Some? && var e := InputEvent(w.bus.session.value, id, q);
           && Verdict(w.bus.events, e).Appended? && b == Append(w.bus, e).0
           && Step(w, Submit(id, q, now)) == World(b, Accepted, w.turns + [Turn(|w.bus.events|, q, [], [])], w.calls)
      else Step(w, Submit(id, q, now)) == w
  {}

  /** The event at `at` says the chunk, as an output of the turn. */
  predicate SaysAt(es: seq<Event>, t: Turn, at: nat, chunk: string)
    requires t.input < |es| && at < |es|
  {
    && es[at].text == chunk && chunk != "" && es[at].turn == es[t.input].turn && es[at].modality == es[t.input].modality
  }

  lemma AnswerKeeps(es: seq<Event>, turns: seq<Turn>, at: nat, chunk: string)
    requires turns != [] && TurnsFit(es, turns) && at < |es| && LastInput(es, turns[|turns| - 1].input)
    requires IsOutputOf(es, turns[|turns| - 1], at) && SaysAt(es, turns[|turns| - 1], at, chunk)
    requires Within(turns[|turns| - 1].outputs, at)
    ensures TurnsFit(es, Answered(turns, at, chunk))
  {
    var last := turns[|turns| - 1];
    var more := With(last, at, chunk);
    assert last in turns;
    MoreFits(es, last, at, chunk);
    forall t | t in Answered(turns, at, chunk) ensures TurnFits(es, t) {
      assert t == more || t in turns;
    }
  }

  lemma MoreFits(es: seq<Event>, t: Turn, at: nat, chunk: string)
    requires TurnFits(es, t) && IsOutputOf(es, t, at) && SaysAt(es, t, at, chunk)
    requires Within(t.outputs, at)
    requires forall m | t.input < m <= at :: es[m].direction.Output?
    ensures TurnFits(es, With(t, at, chunk))
  {
    IncreasingSnoc(t.outputs, at, at + 1);
    assert forall k :: k in t.outputs + [at] <==> k in t.outputs || k == at;
  }

  /** A published chunk joins the running turn's outputs. */
  lemma AnsweredKeeps(v: World, at: nat, chunk: string)
    requires Inv(v) && v.phase.Streaming? && at < |v.bus.events| && IsOutputOf(v.bus.events, Last(v), at)
    requires SaysAt(v.bus.events, Last(v), at, chunk) && Within(Last(v).outputs, at)
    ensures Inv(v.(turns := Answered(v.turns, at, chunk)))
  {
    AnswerKeeps(v.bus.events, v.turns, at, chunk);
    SameTurnHeads(v, Answered(v.turns, at, chunk));
  }

  lemma OutputsInLog(w: World)
    requires TurnsFit(w.bus.events, w.turns) && w.turns != []
    ensures Within(Last(w).outputs, |w.bus.events|)
  {
    var t := Last(w);
    assert t in w.turns && TurnFits(w.bus.events, t);
    forall i | 0 <= i < |t.outputs| ensures t.outputs[i] < |w.bus.events| {
      assert IsOutputOf(w.bus.events, t, t.outputs[i]);
    }
  }

  /** The books but for the turns only look at the last turn's input. */
  lemma SameTurnHeads(w: World, turns: seq<Turn>)
    requires Inv(w) && TurnsFit(w.bus.events, turns) && w.turns != [] && turns != []
    requires turns[|turns| - 1].input == w.turns[|w.turns| - 1].input
    ensures Inv(w.(turns := turns))
  {}

  lemma ChunkKeeps(w: World, id: string, text: string)
    requires Inv(w) && w.phase.Streaming?
    ensures Inv(Step(w, Chunk(id, text)))
  {
    if text != "" {
      var p := Answer(w.bus.events[Last(w).input], text);
      ChunkStep(w, id, text, p);
      PublishKeeps(w, id, p);
      if DoPublish(w.bus, id, p).1.Appended? {
        OutputsInLog(w);
        PublishSays(w.bus, id, p);
        ChunkSays(w, DoPublish(w.bus, id, p).0.events, text);
        AnsweredKeeps(w.(bus := DoPublish(w.bus, id, p).0), |w.bus.events|, text);
      } else {
        IdleKeeps(w);
      }
    }
  }

  lemma ChunkStep(w: World, id: string, text: string, p: Publication)
    requires w.phase.Streaming? && HasInput(w) && text != "" && p == Answer(w.bus.events[Last(w).input], text)
    ensures var (b, r) := DoPublish(w.bus, id, p);
      Step(w, Chunk(id, text))
        == if r.Appended? then w.(bus := b, turns := Answered(w.turns, |w.bus.events|, text)) else w.(phase := Idle)
    ensures DoPublish(w.bus, id, p).1.Appended? && w.bus.session.Some? ==>
      DoPublish(w.bus, id, p).0.events == w.bus.events + [OutputEvent(w.bus.session.value, id, p)]
  {}

  /** The event that a chunk appended says it, in the turn and modality of the input. */
  lemma ChunkSays(w: World, es: seq<Event>, text: string)
    requires Inv(w) && w.phase.Streaming? && text != "" && |es| == |w.bus.events| + 1 && w.bus.events <= es
    requires Answers(w.bus.events[Last(w).input], text, es[|w.bus.events|])
    ensures SaysAt(es, Last(w), |w.bus.events|, text)
  {
    assert Last(w) in w.turns && TurnFits(w.bus.events, Last(w));
  }

  lemma IdleKeeps(w: World)
    requires Inv(w)
    ensures Inv(w.(phase := Idle))
  {}

  lemma CallKeeps(w: World)
    requires Inv(w) && w.phase.Accepted?
    ensures Inv(Step(w, Call))
  {
    IncreasingSnoc(w.calls, Last(w).input, |w.bus.events|);
    StartStreaming(w, w.calls + [Last(w).input]);
  }

  lemma StartStreaming(w: World, calls: seq<nat>)
    requires Inv(w) && w.phase.Accepted? && Increasing(calls) && Within(calls, |w.bus.events|)
    ensures Inv(w.(phase := Streaming, calls := calls))
  {}

  lemma IncreasingSnoc(s: seq<nat>, x: nat, n: nat)
    requires Increasing(s) && Within(s, x) && x < n
    ensures Increasing(s + [x]) && Within(s + [x], n)
  {}

  lemma RegisterKeeps(w: World, id: string, who: Identity, adapter: bool)
    requires Inv(w)
    ensures Inv(Step(w, Register(id, who, adapter)))
  {
    RegisterStep(w, id, who, adapter);
    MaxOfNumbered(w.bus.events, id);
    if w.bus.session.Some? {
      SameBooks(w, Step(w, Register(id, who, adapter)).bus, w.phase);
    } else {
      NewSession(w, Step(w, Register(id, who, adapter)).bus);
    }
  }

  lemma RegisterStep(w: World, id: string, who: Identity, adapter: bool)
    ensures var b := DoRegister(w.bus, id, who, adapter).0;
      && Step(w, Register(id, who, adapter)) == w.(bus := b) && b.events == w.bus.events
      && (w.bus.session.Some? ==> b.session == w.bus.session)
      && (w.bus.session.None? ==> b.session.Some? && b.session.value.id == id
                                  && b.session.value.next == NextSequence(OfSession(b.events, id)))
  {}

  lemma NewSession(w: World, b: Bus)
    requires Inv(w) && w.bus.session.None? && b.events == w.bus.events && NextFits(b)
    ensures Inv(w.(bus := b))
  {}

  /** Nothing that the invariant speaks of changes, but that a turn may end. */
  lemma SameBooks(w: World, b: Bus, phase: Phase)
    requires Inv(w) && b.events == w.bus.events && (phase == w.phase || phase.Idle?)
    requires b.session.None? ==> phase.Idle?
    requires b.session.Some? ==>
      w.bus.session.Some? && b.session.value.id == w.bus.session.value.id && b.session.value.next == w.bus.session.value.next
    ensures Inv(World(b, phase, w.turns, w.calls))
  {}

  predicate Quiet(a: Action) {
    a.Restart? || a.RegisterAdapter? || a.Attach? || a.Detach? || a.Finish? || a.Abort?
  }

  lemma QuietStep(w: World, a: Action)
    requires Enabled(w, a) && Quiet(a)
    ensures var v := Step(w, a);
      && v == World(v.bus, v.phase, w.turns, w.calls) && v.bus.events == w.bus.events
      && (v.phase == w.phase || v.phase.Idle?) && (v.bus.session.None? ==> v.phase.Idle? || w.bus.session.None?)
      && (v.bus.session.Some? ==> w.bus.session.Some? && v.bus.session.value.id == w.bus.session.value.id
                                  && v.bus.session.value.next == w.bus.session.value.next)
  {}

  /** Leases, adapters and the end of a turn leave the log and the turns alone. */
  lemma QuietKeeps(w: World, a: Action)
    requires Inv(w) && Enabled(w, a) && Quiet(a)
    ensures Inv(Step(w, a))
  {
    QuietStep(w, a);
    SameBooks(w, Step(w, a).bus, Step(w, a).phase);
  }

  lemma StepKeeps(w: World, a: Action)
    requires Inv(w) && Enabled(w, a)
    ensures Inv(Step(w, a))
  {
    match a {
      case Register(id, who, adapter) => RegisterKeeps(w, id, who, adapter);
      case Publish(id, what) => PublishKeeps(w, id, what);
      case Submit(id, q, now) => SubmitKeeps(w, id, q, now);
      case Call => CallKeeps(w);
      case Chunk(id, text) => ChunkKeeps(w, id, text);
      case _ => QuietKeeps(w, a);
    }
  }

  // -------------------------------------------------------------------------- runs

  ghost predicate IsHistory(ws: seq<World>, acts: seq<Action>) {
    && |ws| == |acts| + 1 && ws[0] == BEGIN
    && forall k | 0 <= k < |acts| :: Enabled(ws[k], acts[k]) && ws[k + 1] == Step(ws[k], acts[k])
  }

  lemma {:induction false} HistoryInv(ws: seq<World>, acts: seq<Action>, k: nat)
    requires IsHistory(ws, acts) && k < |ws|
    ensures Inv(ws[k])
  {
    if k > 0 {
      HistoryInv(ws, acts, k - 1);
      StepKeeps(ws[k - 1], acts[k - 1]);
    }
  }

  /** In every run each session's events carry 1, 2, ..., n and the next number is n + 1. */
  lemma SequencesHaveNoGap(ws: seq<World>, acts: seq<Action>, k: nat, session: string)
    requires IsHistory(ws, acts) && k < |ws|
    ensures var mine := OfSession(ws[k].bus.events, session);
      && (forall i | 0 <= i < |mine| :: mine[i].sequence == i + 1)
      && (ws[k].bus.session.Some? && ws[k].bus.session.value.id == session ==>
            ws[k].bus.session.value.next == |mine| + 1)
  {
    HistoryInv(ws, acts, k);
    Contiguous(ws[k].bus.events, session);
  }

  lemma LastNumbered(es: seq<Event>)
    requires Numbered(es) && es != []
    ensures es[|es| - 1].sequence == |OfSession(es[..|es| - 1], es[|es| - 1].session)| + 1
  {}

  lemma {:induction false} Contiguous(es: seq<Event>, session: string)
    requires Numbered(es)
    ensures forall i | 0 <= i < |OfSession(es, session)| :: OfSession(es, session)[i].sequence == i + 1
    decreases |es|
  {
    if es != [] {
      LastNumbered(es);
      NumberedPrefix(es, |es| - 1);
      Contiguous(es[..|es| - 1], session);
      CountedSnoc(OfSession(es[..|es| - 1], session), es[|es| - 1]);
    }
  }

  lemma CountedSnoc(es: seq<Event>, e: Event)
    requires forall i | 0 <= i < |es| :: es[i].sequence == i + 1
    ensures e.sequence == |es| + 1 ==> forall i | 0 <= i <= |es| :: (es + [e])[i].sequence == i + 1
  {}

  /** In every run no other input separates an input from the outputs of its own turn. */
  lemma TurnsUninterrupted(ws: seq<World>, acts: seq<Action>, k: nat, t: Turn, o: nat, m: nat)
    requires IsHistory(ws, acts) && k < |ws| && t in ws[k].turns && o in t.outputs && t.input < m < o
    ensures o < |ws[k].bus.events|
    ensures ws[k].bus.events[t.input].direction.Input? && IsOutputOf(ws[k].bus.events, t, o)
    ensures ws[k].bus.events[m].direction.Output?
  {
    HistoryInv(ws, acts, k);
    assert TurnFits(ws[k].bus.events, t);
    assert IsOutputOf(ws[k].bus.events, t, o);
  }

  /**
   * In every run the input of a turn says what was submitted, and each output of the turn says the chunk that
   * the adapter yielded for it, in the turn and modality of the input; no chunk is published twice or skipped.
   */
  lemma TurnsSay(ws: seq<World>, acts: seq<Action>, k: nat, t: Turn)
    requires IsHistory(ws, acts) && k < |ws| && t in ws[k].turns
    ensures var es := ws[k].bus.events;
      && t.input < |es| && es[t.input].text == t.request.text && es[t.input].origin == t.request.origin
      && es[t.input].turn == t.request.turn && es[t.input].modality == t.request.modality
      && es[t.input].session == t.request.session && es[t.input].metadata == t.request.metadata
      && |t.chunks| == |t.outputs| && forall i | 0 <= i < |t.outputs| ::
           && t.outputs[i] < |es| && es[t.outputs[i]].text == t.chunks[i]
           && es[t.outputs[i]].turn == t.request.turn && es[t.outputs[i]].modality == t.request.modality
  {
    HistoryInv(ws, acts, k);
    assert TurnFits(ws[k].bus.events, t);
  }

  /** A step that hands a chunk to a running turn adds it to that turn, unless the log refuses it or it is empty. */
  lemma ChunkIsKept(w: World, id: string, text: string)
    requires Enabled(w, Chunk(id, text))
    ensures var v := Step(w, Chunk(id, text));
      && |v.turns| == |w.turns| && Last(v).request == Last(w).request
      && (v.phase.Streaming? && text != "" ==> Last(v).chunks == Last(w).chunks + [text])
      && (!v.phase.Streaming? || text == "" ==> v.turns == w.turns && v.bus == w.bus)
  {}

  /** The log and the calls of `v` extend those of `w`. */
  predicate Extends(v: World, w: World) {
    && |w.bus.events| <= |v.bus.events| && v.bus.events[..|w.bus.events|] == w.bus.events
    && |w.calls| <= |v.calls| && v.calls[..|w.calls|] == w.calls
  }

  lemma StepGrows(w: World, a: Action)
    requires Enabled(w, a)
    ensures Extends(Step(w, a), w)
  {}

  lemma ExtendsThrough(u: World, v: World, w: World)
    requires Extends(u, v) && Extends(v, w)
    ensures Extends(u, w)
  {
    TakeTake(u.bus.events, |v.bus.events|, |w.bus.events|);
    TakeTake(u.calls, |v.calls|, |w.calls|);
  }

  lemma TakeTake<T>(s: seq<T>, m: nat, n: nat)
    requires n <= m <= |s|
    ensures s[..m][..n] == s[..n]
  {}

  lemma {:induction false} GrowsAlong(ws: seq<World>, i: nat, k: nat)
    requires i <= k < |ws| && forall j | 0 < j < |ws| :: Extends(ws[j], ws[j - 1])
    ensures Extends(ws[k], ws[i])
    decreases k
  {
    if i < k {
      GrowsAlong(ws, i, k - 1);
      ExtendsThrough(ws[k], ws[k - 1], ws[i]);
    }
  }

  /** The log is append-only, across restarts too. */
  lemma LogGrows(ws: seq<World>, acts: seq<Action>, i: nat, k: nat)
    requires IsHistory(ws, acts) && i <= k < |ws|
    ensures Extends(ws[k], ws[i])
  {
    forall j | 0 < j < |ws| ensures Extends(ws[j], ws[j - 1]) {
      StepGrows(ws[j - 1], acts[j - 1]);
    }
    GrowsAlong(ws, i, k);
  }

  /** Over any run, with failures and restarts, a key reaches an adapter at most once. */
  lemma OneCallPerKey(ws: seq<World>, acts: seq<Action>, k: nat, i: nat, j: nat)
    requires IsHistory(ws, acts) && k < |ws| && i < j < |ws[k].calls|
    ensures ws[k].calls[i] < ws[k].calls[j] < |ws[k].bus.events|
    ensures var a, b := ws[k].bus.events[ws[k].calls[i]], ws[k].bus.events[ws[k].calls[j]];
      a.id != b.id && (Key(a) != "" ==> Key(a) != Key(b))
  {
    HistoryInv(ws, acts, k);
    var w := ws[k];
    assert w.calls[i] in w.calls && w.calls[j] in w.calls;
  }

  // ------------------------------------------------------------------ resubmission

  predicate Ready(b: Bus, q: Request, now: int) {
    && KnownModality(q.modality) && Strip(q.text) != "" && b.adapter
    && b.session.Some? && b.session.value.id == q.session
    && b.session.value.lease.Some? && b.session.value.lease.value.nonce == q.nonce && Live(b.session.value.lease, now)
  }

  /** `es[k]` is in the session and names the input event. */
  predicate Hits(es: seq<Event>, session: string, id: string, k: nat)
    requires k < |es|
  { es[k].session == session && Names(es[k]) == id }

  function EventsAt(es: seq<Event>, at: seq<nat>): seq<Event>
    requires Within(at, |es|)
  {
    seq(|at|, i requires 0 <= i < |at| => es[at[i]])
  }

  lemma {:induction false} NamingMembers(es: seq<Event>, session: string, id: string, k: nat)
    requires k < |es| && Hits(es, session, id, k)
    ensures es[k] in Naming(es, session, id)
    decreases |es|
  {
    if k < |es| - 1 {
      NamingMembers(es[..|es| - 1], session, id, k);
    }
  }

  /** `at` lists, in order, the positions before `n` that hit. */
  ghost predicate Lists(es: seq<Event>, session: string, id: string, at: seq<nat>, n: nat)
    requires n <= |es|
  {
    && Increasing(at) && Within(at, n)
    && (forall i | 0 <= i < |at| :: Hits(es, session, id, at[i]))
    && (forall k | 0 <= k < n && Hits(es, session, id, k) :: k in at)
  }

  lemma {:induction false} NamingAt(es: seq<Event>, session: string, id: string, at: seq<nat>, n: nat)
    requires n <= |es| && Lists(es, session, id, at, n)
    ensures Naming(es[..n], session, id) == EventsAt(es, at)
    decreases n
  {
    if n == 0 {
      assert at == [];
    } else {
      assert es[..n][..n - 1] == es[..n - 1];
      if Hits(es, session, id, n - 1) {
        ListsInit(es, session, id, at, n);
        NamingAt(es, session, id, at[..|at| - 1], n - 1);
        EventsSnoc(es, at);
      } else {
        NamingAt(es, session, id, at, n - 1);
      }
    }
  }

  lemma EventsSnoc(es: seq<Event>, at: seq<nat>)
    requires at != [] && forall i | 0 <= i < |at| :: at[i] < |es|
    ensures EventsAt(es, at) == EventsAt(es, at[..|at| - 1]) + [es[at[|at| - 1]]]
  {}

  lemma ListsInit(es: seq<Event>, session: string, id: string, at: seq<nat>, n: nat)
    requires 0 < n <= |es| && Lists(es, session, id, at, n) && Hits(es, session, id, n - 1)
    ensures at != [] && at[|at| - 1] == n - 1 && Lists(es, session, id, at[..|at| - 1], n - 1)
  {
    var i :| 0 <= i < |at| && at[i] == n - 1;
    forall k | 0 <= k < n - 1 && Hits(es, session, id, k) ensures k in at[..|at| - 1] {
      var j :| 0 <= j < |at| && at[j] == k;
      assert at[..|at| - 1][j] == k;
    }
  }

  lemma {:induction false} FindUnique(es: seq<Event>, k: nat)
    requires Unique(es) && k < |es| && Key(es[k]) != ""
    ensures Find(es, Key(es[k])) == Some(es[k])
    decreases |es|
  {
    var init := es[..|es| - 1];
    if k < |init| {
      FindUnique(init, k);
    } else {
      FindNothing(init, Key(es[k]));
    }
  }

  lemma {:induction false} FindNothing(es: seq<Event>, key: string)
    requires forall k | 0 <= k < |es| :: Key(es[k]) != key
    ensures Find(es, key) == None
    decreases |es|
  {
    if es != [] {
      FindNothing(es[..|es| - 1], key);
    }
  }

  /**
   * Resubmitting the key of any earlier turn changes nothing and calls nobody; it
   * returns exactly that turn's input and outputs if and only if no event published
   * outside the turn names the input.
   */
  lemma Resubmission(w: World, t: Turn, id: string, q: Request, now: int)
    requires Inv(w) && t in w.turns && TurnFits(w.bus.events, t) && Ready(w.bus, q, now)
    requires RequestKey(q) != "" && RequestKey(q) == Key(w.bus.events[t.input])
    requires w.bus.events[t.input].session == q.session
    ensures Within(t.outputs, |w.bus.events|)
    ensures var input, (b, r) := w.bus.events[t.input], DoSubmit(w.bus, id, q, now);
      && b == w.bus && r.Replayed? && r.events != [] && r.events[0] == input
      && (r.events == [input] + EventsAt(w.bus.events, t.outputs) <==>
            forall k | 0 <= k < |w.bus.events| && Hits(w.bus.events, q.session, input.id, k) :: k in t.outputs)
  {
    var es := w.bus.events;
    var input := es[t.input];
    FindUnique(es, t.input);
    forall i | 0 <= i < |t.outputs| ensures t.outputs[i] < |es| && Hits(es, q.session, input.id, t.outputs[i]) {
      assert t.outputs[i] in t.outputs && IsOutputOf(es, t, t.outputs[i]);
    }
    var named := Naming(es, q.session, input.id);
    var own := EventsAt(es, t.outputs);
    assert DoSubmit(w.bus, id, q, now) == (w.bus, Replayed([input] + named));
    if forall k | 0 <= k < |es| && Hits(es, q.session, input.id, k) :: k in t.outputs {
      NamingAt(es, q.session, input.id, t.outputs, |es|);
      assert es[..|es|] == es;
    } else {
      var k :| 0 <= k < |es| && Hits(es, q.session, input.id, k) && k !in t.outputs;
      NamingMembers(es, q.session, input.id, k);
      assert es[k] in named;
      forall i | 0 <= i < |own| ensures own[i] != es[k] {
        var o := t.outputs[i];
        assert o in t.outputs && o != k;
        assert o < k || k < o;
      }
      assert es[k] !in own;
      TailsDiffer([input], named, own);
    }
  }

  lemma TailsDiffer<T>(a: seq<T>, b: seq<T>, c: seq<T>)
    requires b != c
    ensures a + b != a + c
  {
    assert b == (a + b)[|a|..];
    assert c == (a + c)[|a|..];
  }
}
