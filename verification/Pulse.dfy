/** `pulse.py`: event ids, append-only evidence and membership compaction. */
module Pulse {
  import opened Text
  import opened PulseText

  datatype Lesson = Lesson(name: string, entryCount: nat, counts: map<string, nat>, session: string, sesRef: string, agent: string)

  /** `rest` are the file's lines outside the pulses. */
  datatype Brain = Brain(pulses: seq<Event>, lessons: seq<Lesson>, rest: seq<string>)

  // ---------------------------------------------------------------------------- ids

  predicate HasPrefix(id: string, prefix: string) { StartsWith(id, prefix) && AllDigits(id[|prefix|..]) }

  /** An id as the pattern of `_is_valid_pulse_id` means it. */
  predicate CanonicalId(id: string) {
    HasPrefix(id, "E-") || HasPrefix(id, "SES-") || HasPrefix(id, "OBS-") || HasPrefix(id, "HDL-")
  }

  /** `_is_valid_pulse_id`: the end of the pattern also matches before one final line break. */
  predicate IsPulseId(id: string) {
    CanonicalId(id) || (id != "" && id[|id| - 1] == '\n' && CanonicalId(id[..|id| - 1]))
  }

  /** The number an `E-` or `E_` id carries; 0 for any other id. */
  function NumberIn(id: string): int {
    if (StartsWith(id, "E-") || StartsWith(id, "E_")) && IsIntLiteral(id[2..]) then ParseInt(id[2..]) else 0
  }

  function MaxNumber(pulses: seq<Event>): (m: nat) {
    if pulses == [] then 0
    else
      var rest, own := MaxNumber(pulses[..|pulses| - 1]), NumberIn(pulses[|pulses| - 1].event);
      if own > rest then own else rest
  }

  function EventId(n: nat): string { "E-" + ZeroPad(n, 4) }

  /** `next_pulse_event_id`. */
  function NextId(pulses: seq<Event>): string { EventId(MaxNumber(pulses) + 1) }

  predicate Uses(pulses: seq<Event>, id: string) { exists e :: e in pulses && e.event == id }

  lemma NumberInEventId(n: nat)
    ensures NumberIn(EventId(n)) == n && CanonicalId(EventId(n))
  {
    ZeroPadRoundTrip(n, 4);
    assert EventId(n)[2..] == ZeroPad(n, 4);
  }

  lemma {:induction false} MaxCovers(pulses: seq<Event>, e: Event)
    requires e in pulses
    ensures NumberIn(e.event) <= MaxNumber(pulses)
    decreases |pulses|
  {
    if e != pulses[|pulses| - 1] {
      assert e in pulses[..|pulses| - 1];
      MaxCovers(pulses[..|pulses| - 1], e);
    }
  }

  /** No id above the maximum is in use. */
  lemma AboveMaxIsFree(pulses: seq<Event>, n: nat)
    requires n > MaxNumber(pulses)
    ensures !Uses(pulses, EventId(n))
  {
    NumberInEventId(n);
    if Uses(pulses, EventId(n)) {
      var e :| e in pulses && e.event == EventId(n);
      MaxCovers(pulses, e);
    }
  }

  // ------------------------------------------------------------------------ appending

  datatype Input = Input(date: string, task: string, kind: string, agent: string, payload: string, cycle: string, sesRef: string)

  datatype Outcome = Stored(event: string) | BadId | BadKind

  function Storage(id: string): string { Replace(id, "-", "_") }

  function ToEvent(id: string, i: Input): Event {
    var task := if i.task == "" then "-" else i.task;
    Event(Storage(id), id, i.date, task, i.kind, i.agent, if i.payload != "" then i.payload else i.kind + " on " + task,
          i.cycle, i.sesRef)
  }

  function FinalId(pulses: seq<Event>, id: string): string { if Uses(pulses, id) then NextId(pulses) else id }

  /** A pulse that is printed on one line joins the others; under an id that ends in a line break none is read back. */
  function Recorded(pulses: seq<Event>, event: string, i: Input): seq<Event> {
    if CanonicalId(event) then pulses + [ToEvent(event, i)] else pulses
  }

  /** `append_pulse_to_brain`, and what the next reader finds (`PulseFile.BrokenIdIsIgnored`). */
  function DoAppend(b: Brain, id: string, i: Input): (Brain, Outcome) {
    if !IsPulseId(id) then (b, BadId)
    else if i.kind == "" then (b, BadKind)
    else (b.(pulses := Recorded(b.pulses, FinalId(b.pulses, id), i)), Stored(FinalId(b.pulses, id)))
  }

  // ----------------------------------------------------------------------- compaction

  const LIMIT: nat := 10000
  const LEAST: nat := 5

  function LessonName(sesRef: string): string { "session_" + Replace(sesRef, "-", "_") }

  predicate Member(e: Event, sesRef: string, sessionEvent: string) {
    e.kind != "session" && e.sesRef == sesRef && e.event != sessionEvent
  }

  function Members(pulses: seq<Event>, sesRef: string, sessionEvent: string): seq<Event> {
    if pulses == [] then []
    else
      var last := pulses[|pulses| - 1];
      Members(pulses[..|pulses| - 1], sesRef, sessionEvent) + if Member(last, sesRef, sessionEvent) then [last] else []
  }

  function CloseEvent(pulses: seq<Event>, id: string): Option<Event> {
    if pulses == [] then None
    else if pulses[0].event == id && pulses[0].kind == "session" then Some(pulses[0])
    else CloseEvent(pulses[1..], id)
  }

  function FirstPulses(pulses: seq<Event>): seq<Event> { if |pulses| <= LIMIT then pulses else pulses[..LIMIT] }

  /** What a compactor of `sesRef` decided from the brain it read, before taking the lock. */
  datatype Plan = Plan(sesRef: string, sessionEvent: string, agent: string, selected: seq<Event>)

  /** None when the close event is missing or belongs to another session. */
  function Planned(b: Brain, sessionEvent: string, sesRef: string, agent: string): Option<Plan> {
    var all := FirstPulses(b.pulses);
    var close := CloseEvent(all, sessionEvent);
    if close.None? || close.value.sesRef != sesRef then None
    else Some(Plan(sesRef, sessionEvent, agent, Members(all, sesRef, sessionEvent)))
  }

  function Wanted(selected: seq<Event>): set<string> { set e | e in selected :: Normalize(e.event) }

  function Kinds(es: seq<Event>): seq<string> { seq(|es|, i requires 0 <= i < |es| => es[i].kind) }

  function CountsIn(kinds: seq<string>): map<string, nat> { map k | k in kinds :: multiset(kinds)[k] }

  function CountsOf(es: seq<Event>): map<string, nat> { CountsIn(Kinds(es)) }

  predicate Learned(b: Brain, name: string) { exists l :: l in b.lessons && l.name == name }

  datatype Result = AlreadyCompacted | TooFew(count: nat) | Compacted(pruned: nat, meta: string) | DryRun

  function MetaInput(plan: Plan, date: string, payload: string): Input {
    Input(date, "-", "pulse_compact", plan.agent, payload, "", plan.sesRef)
  }

  function ToLesson(plan: Plan): Lesson {
    Lesson(LessonName(plan.sesRef), |plan.selected|, CountsOf(plan.selected), plan.sessionEvent, plan.sesRef, plan.agent)
  }

  /** The pulses that are read in what a prune keeps of the lines of the section. */
  function Reread(pulses: seq<Event>, wanted: set<string>): seq<Event> { EventsIn(KeptLines(PulseLines(pulses), wanted)) }

  /** The lesson is written, and the lines of its events go. */
  function Pruned(b: Brain, plan: Plan): Brain {
    var wanted := Wanted(plan.selected);
    Brain(Reread(b.pulses, wanted), b.lessons + [ToLesson(plan)], KeptLines(b.rest, wanted))
  }

  /** How many lines of the file a prune takes. */
  function Taken(b: Brain, wanted: set<string>): nat {
    var lines := FileLines(b.rest, b.pulses, []);
    KeptLength(lines, wanted);
    |lines| - |KeptLines(lines, wanted)|
  }

  /** The meta event of a compaction, at the end. */
  function WithMeta(b: Brain, id: string, i: Input): Brain { b.(pulses := b.pulses + [ToEvent(id, i)]) }

  /** Appending it under the next id is what `append_pulse_to_brain` does. */
  lemma MetaAppended(b: Brain, id: string, i: Input)
    requires id == NextId(b.pulses) && i.kind != ""
    ensures !Uses(b.pulses, id) && CanonicalId(id) && DoAppend(b, id, i).0 == WithMeta(b, id, i)
  {
    AboveMaxIsFree(b.pulses, MaxNumber(b.pulses) + 1);
    NumberInEventId(MaxNumber(b.pulses) + 1);
  }

  lemma LessonWritten(
      b: Brain, mid: Brain, plan: Plan, date: string, payload: string, after: Brain, pruned: nat, meta: string)
    requires mid == Pruned(b, plan) && meta == NextId(mid.pulses) && pruned == Taken(b, Wanted(plan.selected))
    requires after == WithMeta(mid, meta, MetaInput(plan, date, payload))
    ensures (after, Compacted(pruned, meta)) == DoWriteLesson(b, plan, date, payload)
  {}

  function DoWriteLesson(b: Brain, plan: Plan, date: string, payload: string): (Brain, Result) {
    var mid := Pruned(b, plan);
    (WithMeta(mid, NextId(mid.pulses), MetaInput(plan, date, payload)),
     Compacted(Taken(b, Wanted(plan.selected)), NextId(mid.pulses)))
  }

  /** `_compact_locked`; `payload` is the text of the meta event. */
  function DoCompact(b: Brain, plan: Plan, date: string, payload: string, dryRun: bool): (Brain, Result) {
    if dryRun then (b, DryRun)
    else if Learned(b, LessonName(plan.sesRef)) then (b, AlreadyCompacted)
    else if |plan.selected| < LEAST then (b, TooFew(|plan.selected|))
    else DoWriteLesson(b, plan, date, payload)
  }

  // -------------------------------------------------------------------------- the brain

  class PulseBrain {
    var pulses: seq<Event>
    var lessons: seq<Lesson>
    var rest: seq<string>

    function View(): Brain
      reads this
    { Brain(pulses, lessons, rest) }

    constructor (pulses: seq<Event>, lessons: seq<Lesson>, rest: seq<string>)
      ensures View() == Brain(pulses, lessons, rest)
    {
      this.pulses, this.lessons, this.rest := pulses, lessons, rest;
    }

    /** The search for a free id always ends, at its first candidate. */
    method NextPulseEventId() returns (id: string)
      ensures id == NextId(pulses) && !Uses(pulses, id)
    {
      var most := 0;
      for i := 0 to |pulses|
        invariant most == MaxNumber(pulses[..i])
      {
        assert pulses[..i + 1][..i] == pulses[..i];
        var own := NumberIn(pulses[i].event);
        if own > most {
          most := own;
        }
      }
      assert pulses[..|pulses|] == pulses;
      var candidate := most + 1;
      while Uses(pulses, EventId(candidate))
        invariant candidate == most + 1 || Uses(pulses, EventId(most + 1))
        decreases CountFrom(pulses, candidate)
      {
        CountDrops(pulses, candidate);
        candidate := candidate + 1;
      }
      AboveMaxIsFree(pulses, most + 1);
      return EventId(candidate);
    }

    method AppendPulse(id: string, i: Input) returns (o: Outcome)
      modifies this`pulses
      ensures (View(), o) == DoAppend(old(View()), id, i)
    {
      if !IsPulseId(id) {
        return BadId;
      }
      if i.kind == "" {
        return BadKind;
      }
      var event := id;
      if Uses(pulses, event) {
        event := NextPulseEventId();
      }
      if CanonicalId(event) {
        pulses := pulses + [ToEvent(event, i)];
      }
      return Stored(event);
    }

    method RecordPulse(i: Input) returns (o: Outcome)
      modifies this`pulses
      ensures (View(), o) == DoAppend(old(View()), NextId(old(pulses)), i)
    {
      var id := NextPulseEventId();
      o := AppendPulse(id, i);
    }

    /**
     * The lines that declare no wanted id are written back, and what is read in them are the pulses.
     * With pulses on one line each these are the pulses that were not selected.
     */
    method Prune(wanted: set<string>) returns (pruned: nat)
      modifies this`pulses, this`rest
      ensures pulses == Reread(old(pulses), wanted) && rest == KeptLines(old(rest), wanted)
      ensures pruned == Taken(old(View()), wanted)
      ensures AllReadable(old(pulses)) && "" !in wanted ==> pulses == Remaining(old(pulses), wanted)
    {
      var kept;
      kept, pruned := PruneLines(FileLines(rest, pulses, []), wanted);
      KeptFile(rest, pulses, [], wanted);
      assert kept == KeptLines(rest, wanted) + (KeptLines(PulseLines(pulses), wanted) + []);
      if "" !in wanted && AllReadable(pulses) {
        KeptEvents(pulses, wanted);
      }
      rest, pulses := KeptLines(rest, wanted), Reread(pulses, wanted);
    }

    method PlanCompaction(sessionEvent: string, sesRef: string, agent: string) returns (plan: Option<Plan>)
      ensures plan == Planned(View(), sessionEvent, sesRef, agent)
    {
      var all := FirstPulses(pulses);
      var close := CloseEvent(all, sessionEvent);
      if close.None? || close.value.sesRef != sesRef {
        return None;
      }
      var selected := [];
      for i := 0 to |all|
        invariant selected == Members(all[..i], sesRef, sessionEvent)
      {
        assert all[..i + 1][..i] == all[..i];
        if Member(all[i], sesRef, sessionEvent) {
          selected := selected + [all[i]];
        }
      }
      assert all[..|all|] == all;
      return Some(Plan(sesRef, sessionEvent, agent, selected));
    }

    method CompactLocked(plan: Plan, date: string, payload: string, dryRun: bool) returns (r: Result)
      modifies this
      ensures (View(), r) == DoCompact(old(View()), plan, date, payload, dryRun)
    {
      if dryRun {
        return DryRun;
      }
      if Learned(View(), LessonName(plan.sesRef)) {
        return AlreadyCompacted;
      }
      if |plan.selected| < LEAST {
        return TooFew(|plan.selected|);
      }
      r := WriteLesson(plan, date, payload);
    }

    method WriteLesson(plan: Plan, date: string, payload: string) returns (r: Result)
      modifies this
      ensures (View(), r) == DoWriteLesson(old(View()), plan, date, payload)
    {
      var pruned := LearnAndPrune(plan);
      var meta := NextPulseEventId();
      ghost var mid := View();
      var o := AppendPulse(meta, MetaInput(plan, date, payload));
      MetaAppended(mid, meta, MetaInput(plan, date, payload));
      LessonWritten(old(View()), mid, plan, date, payload, View(), pruned, meta);
      return Compacted(pruned, meta);
    }

    method LearnAndPrune(plan: Plan) returns (pruned: nat)
      modifies this
      ensures View() == Pruned(old(View()), plan) && pruned == Taken(old(View()), Wanted(plan.selected))
    {
      var counts := CountKinds(plan.selected);
      lessons := lessons
        + [Lesson(LessonName(plan.sesRef), |plan.selected|, counts, plan.sessionEvent, plan.sesRef, plan.agent)];
      pruned := Prune(Wanted(plan.selected));
    }
  }

  method CountKinds(es: seq<Event>) returns (counts: map<string, nat>)
    ensures counts == CountsOf(es)
  {
    counts := CountAll(Kinds(es));
  }

  method CountAll(kinds: seq<string>) returns (counts: map<string, nat>)
    ensures counts == CountsIn(kinds)
  {
    counts := map[];
    for i := 0 to |kinds|
      invariant counts == CountsIn(kinds[..i])
    {
      CountsTake(kinds, i);
      counts := counts[kinds[i] := (if kinds[i] in counts then counts[kinds[i]] else 0) + 1];
    }
    assert kinds[..|kinds|] == kinds;
  }

  lemma CountsTake(kinds: seq<string>, i: nat)
    requires i < |kinds|
    ensures var before := CountsIn(kinds[..i]);
      CountsIn(kinds[..i + 1]) == before[kinds[i] := (if kinds[i] in before then before[kinds[i]] else 0) + 1]
  {
    assert kinds[..i + 1] == kinds[..i] + [kinds[i]];
    CountsSnoc(kinds[..i], kinds[i]);
  }

  lemma CountsSnoc(kinds: seq<string>, k: string)
    ensures CountsIn(kinds + [k])
         == CountsIn(kinds)[k := (if k in CountsIn(kinds) then CountsIn(kinds)[k] else 0) + 1]
  {}

  /** How many ids carry a number of at least `n`. */
  function CountFrom(pulses: seq<Event>, n: nat): nat {
    if pulses == [] then 0 else (if NumberIn(pulses[0].event) >= n then 1 else 0) + CountFrom(pulses[1..], n)
  }

  lemma {:induction false} CountShrinks(pulses: seq<Event>, n: nat)
    ensures CountFrom(pulses, n + 1) <= CountFrom(pulses, n)
  {
    if pulses != [] { CountShrinks(pulses[1..], n); }
  }

  lemma {:induction false} CountDrops(pulses: seq<Event>, n: nat)
    requires Uses(pulses, EventId(n))
    ensures CountFrom(pulses, n + 1) < CountFrom(pulses, n)
  {
    NumberInEventId(n);
    var e :| e in pulses && e.event == EventId(n);
    CountShrinks(pulses[1..], n);
    if e != pulses[0] {
      assert e in pulses[1..];
      CountDrops(pulses[1..], n);
    }
  }

  /** On one line each: a printed pulse is its line and a blank one. */
  predicate AllTame(es: seq<Event>) { forall e | e in es :: Tame(e) }

  lemma {:induction false} PulseLengths(es: seq<Event>, wanted: set<string>)
    requires AllTame(es)
    ensures |PulseLines(es)| == 2 * |es| && |OtherLines(es, wanted)| == |es| + |Remaining(es, wanted)|
  {
    if es != [] {
      assert es[0] in es && forall e | e in es[1..] :: e in es;
      TamePrints(es[0]);
      PulseLengths(es[1..], wanted);
    }
  }

  /** On one line each, a prune takes one line for each selected pulse, and the lines of the rest. */
  lemma TameTaken(b: Brain, wanted: set<string>)
    requires "" !in wanted && AllTame(b.pulses)
    ensures Taken(b, wanted) + |Remaining(b.pulses, wanted)| + |KeptLines(b.rest, wanted)| == |b.pulses| + |b.rest|
  {
    TamePrunes(b.rest, b.pulses, [], wanted);
    PulseLengths(b.pulses, wanted);
  }
}
