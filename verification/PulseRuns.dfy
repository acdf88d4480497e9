/** Any number of recorders and compactors over one brain; each brain lock section is one step. */
module PulseRuns {
  import opened Text
  import opened PulseText
  import opened Pulse

  /** The brain and what each compactor decided before it took the lock. */
  datatype World = World(b: Brain, plans: map<nat, Plan>)

  datatype Action =
    | Record(input: Input)
    | Append(id: string, input: Input)
    | MakePlan(compactor: nat, sessionEvent: string, sesRef: string, agent: string)
    | Compact(compactor: nat, date: string, payload: string, dryRun: bool)

  /** Texts of which no line of the file can be made. */
  predicate TameInput(i: Input) {
    && SingleLine(i.date) && SingleLine(i.task) && SingleLine(i.kind) && SingleLine(i.agent) && SingleLine(i.payload)
    && SingleLine(i.cycle) && SingleLine(i.sesRef)
  }

  /** What a session reference looks like: with none, or with blanks or slashes, the source plans and looks up otherwise. */
  predicate IsReference(s: string) { s != "" && forall c | c in s :: IsIdentChar(c) || c == '-' }

  /** Actions whose texts hold no line break, which a caller can check. */
  predicate Enabled(w: World, a: Action) {
    match a
    case Record(i) => TameInput(i)
    case Append(_, i) => TameInput(i)
    case MakePlan(_, _, sesRef, agent) => IsReference(sesRef) && SingleLine(agent)
    case Compact(c, date, payload, _) => c in w.plans && SingleLine(date) && SingleLine(payload)
  }

  function Step(w: World, a: Action): World
    requires Enabled(w, a)
  {
    match a
    case Record(i) => w.(b := DoAppend(w.b, NextId(w.b.pulses), i).0)
    case Append(id, i) => w.(b := DoAppend(w.b, id, i).0)
    case MakePlan(c, sessionEvent, sesRef, agent) =>
      var plan := Planned(w.b, sessionEvent, sesRef, agent);
      if plan.None? then w else w.(plans := w.plans[c := plan.value])
    case Compact(c, date, payload, dryRun) => w.(b := DoCompact(w.b, w.plans[c], date, payload, dryRun).0)
  }

  // ------------------------------------------------------------------------ the invariant

  predicate DistinctEvents(es: seq<Event>) { forall i, j | 0 <= i < j < |es| :: es[i].event != es[j].event }

  predicate Stored(e: Event) { CanonicalId(e.event) && e.name == Storage(e.event) }

  predicate Sound(pulses: seq<Event>) { DistinctEvents(pulses) && forall e | e in pulses :: Stored(e) }

  predicate DistinctLessons(ls: seq<Lesson>) { forall i, j | 0 <= i < j < |ls| :: ls[i].name != ls[j].name }

  /** A plan is void once its lesson exists; until then all it selected is still there. */
  predicate PlanFits(b: Brain, plan: Plan) {
    Learned(b, LessonName(plan.sesRef)) ||
    (DistinctEvents(plan.selected)
     && forall e | e in plan.selected :: e in b.pulses && e.sesRef == plan.sesRef && e.kind != "session")
  }

  /** The texts that a compaction will print of its plan. */
  predicate TamePlan(plan: Plan) { SingleLine(plan.agent) && SingleLine(plan.sesRef) }

  ghost predicate Inv(w: World) {
    && Sound(w.b.pulses) && AllTame(w.b.pulses) && DistinctLessons(w.b.lessons)
    && forall c | c in w.plans :: PlanFits(w.b, w.plans[c]) && TamePlan(w.plans[c])
  }

  // ---------------------------------------------------------------------- spelling of ids

  lemma {:induction false} ReplaceBack(s: string)
    requires '_' !in s
    ensures Replace(Replace(s, "-", "_"), "_", "-") == s
  {
    if s != "" {
      assert s == [s[0]] + s[1..] && s[0] in s;
      ReplaceBack(s[1..]);
      ReplaceCharCons(s[0], s[1..], '-', "_");
      var c := if s[0] == '-' then '_' else s[0];
      assert Replace(s, "-", "_") == [c] + Replace(s[1..], "-", "_");
      ReplaceCharCons(c, Replace(s[1..], "-", "_"), '_', "-");
    } else {
      assert Replace("", "-", "_") == "";
    }
  }

  lemma {:induction false} ReplaceNothing(s: string)
    requires '_' !in s
    ensures Replace(s, "_", "-") == s
  {
    if s != "" {
      assert s == [s[0]] + s[1..] && s[0] in s;
      ReplaceNothing(s[1..]);
      ReplaceCharCons(s[0], s[1..], '_', "-");
    }
  }

  lemma PulseIdChars(id: string)
    requires CanonicalId(id)
    ensures '_' !in id && Trimmed(id)
  {
    var prefix := if HasPrefix(id, "E-") then "E-" else if HasPrefix(id, "SES-") then "SES-"
      else if HasPrefix(id, "OBS-") then "OBS-" else "HDL-";
    assert id == prefix + id[|prefix|..];
    assert id[|id| - 1] in id[|prefix|..];
  }

  /** Both spellings of a valid id normalise to the id itself. */
  lemma NormalizeStored(e: Event)
    requires Stored(e)
    ensures Normalize(e.name) == e.event && Normalize(e.event) == e.event
  {
    PulseIdChars(e.event);
    ReplaceBack(e.event);
    ReplaceNothing(e.event);
    TrimmedStrip(e.event);
  }

  // --------------------------------------------------------------------------- appending

  /**
   * Whatever id a caller brings, an accepted call stores a fresh canonical one at the end; or the
   * id ended in a line break, and the next reader finds the pulses as they were.
   */
  lemma AppendIsFresh(b: Brain, id: string, i: Input)
    requires DoAppend(b, id, i).1.Stored?
    ensures var (b', o) := DoAppend(b, id, i);
      && !Uses(b.pulses, o.event) && (CanonicalId(o.event) <==> CanonicalId(id) || Uses(b.pulses, id))
      && b' == if CanonicalId(o.event) then b.(pulses := b.pulses + [ToEvent(o.event, i)]) else b
  {
    AboveMaxIsFree(b.pulses, MaxNumber(b.pulses) + 1);
    NumberInEventId(MaxNumber(b.pulses) + 1);
  }

  /** An id that ends in a line break is accepted, and no pulse is read back. */
  lemma BrokenIdStoresNothing(b: Brain, n: nat, i: Input)
    requires i.kind != "" && Sound(b.pulses)
    ensures var id := EventId(n) + "\n"; !CanonicalId(id) && DoAppend(b, id, i) == (b, Outcome.Stored(id))
  {
    var id := EventId(n) + "\n";
    NumberInEventId(n);
    assert id[..|id| - 1] == EventId(n);
    BreakIsNotCanonical(id);
    forall e | e in b.pulses ensures e.event != id {
      assert Stored(e);
    }
  }

  lemma BreakIsNotCanonical(id: string)
    requires id != "" && id[|id| - 1] == '\n'
    ensures !CanonicalId(id)
  {
    if CanonicalId(id) { PulseIdChars(id); }
  }

  lemma SoundSnoc(pulses: seq<Event>, e: Event)
    requires Sound(pulses) && Stored(e) && !Uses(pulses, e.event)
    ensures Sound(pulses + [e])
  {
    forall i | 0 <= i < |pulses| ensures pulses[i].event != e.event {
      assert pulses[i] in pulses;
    }
  }

  lemma TameConcat(a: string, b: string)
    ensures SingleLine(a + b) <==> SingleLine(a) && SingleLine(b)
  {
    assert forall c | c in a :: c in a + b;
    assert forall c | c in b :: c in a + b;
  }

  /** Ids are words, so their stored spelling is a plain name. */
  lemma IdIsPlain(id: string)
    requires CanonicalId(id)
    ensures SingleLine(id) && PlainName(id) && PlainName(Storage(id)) && Storage(id) != "" && '"' !in Storage(id)
  {
    var prefix := if HasPrefix(id, "E-") then "E-" else if HasPrefix(id, "SES-") then "SES-"
      else if HasPrefix(id, "OBS-") then "OBS-" else "HDL-";
    assert id == prefix + id[|prefix|..];
    StoredChars(id);
  }

  lemma {:induction false} StoredChars(s: string)
    requires PlainName(s) && '"' !in s
    ensures PlainName(Storage(s)) && '"' !in Storage(s) && |Storage(s)| == |s|
  {
    if s == "" {
      assert Storage("") == "";
    } else {
      assert s == [s[0]] + s[1..] && s[0] in s && forall c | c in s[1..] :: c in s;
      StoredChars(s[1..]);
      ReplaceCharCons(s[0], s[1..], '-', "_");
    }
  }

  lemma TameEvent(id: string, i: Input)
    requires CanonicalId(id) && TameInput(i)
    ensures Tame(ToEvent(id, i))
  {
    IdIsPlain(id);
    var task := if i.task == "" then "-" else i.task;
    TameConcat(i.kind, " on ");
    TameConcat(i.kind + " on ", task);
  }

  lemma AppendKeeps(w: World, id: string, i: Input)
    requires Inv(w) && TameInput(i)
    ensures Inv(w.(b := DoAppend(w.b, id, i).0))
  {
    if DoAppend(w.b, id, i).1.Stored? && CanonicalId(DoAppend(w.b, id, i).1.event) {
      var event := DoAppend(w.b, id, i).1.event;
      AppendIsFresh(w.b, id, i);
      SoundSnoc(w.b.pulses, ToEvent(event, i));
      TameEvent(event, i);
      GrownFits(w, DoAppend(w.b, id, i).0);
    }
  }

  lemma GrownFits(w: World, b: Brain)
    requires Inv(w) && Sound(b.pulses) && AllTame(b.pulses) && b.lessons == w.b.lessons
    requires forall e | e in w.b.pulses :: e in b.pulses
    ensures Inv(w.(b := b))
  {
    forall c | c in w.plans ensures PlanFits(b, w.plans[c]) {
      assert PlanFits(w.b, w.plans[c]);
    }
  }

  // ---------------------------------------------------------------------------- planning

  lemma {:induction false} MembersFit(pulses: seq<Event>, sesRef: string, sessionEvent: string)
    requires DistinctEvents(pulses)
    ensures var m := Members(pulses, sesRef, sessionEvent);
      DistinctEvents(m) && forall e | e in m :: e in pulses && Member(e, sesRef, sessionEvent)
    decreases |pulses|
  {
    if pulses != [] {
      var n, init := |pulses| - 1, pulses[..|pulses| - 1];
      MembersFit(init, sesRef, sessionEvent);
      forall e | e in init ensures e.event != pulses[n].event {
        var k :| 0 <= k < n && init[k] == e;
      }
    }
  }

  lemma PlanKeeps(w: World, c: nat, sessionEvent: string, sesRef: string, agent: string)
    requires Inv(w) && IsReference(sesRef) && SingleLine(agent)
    ensures Inv(Step(w, MakePlan(c, sessionEvent, sesRef, agent)))
  {
    var all := FirstPulses(w.b.pulses);
    MembersFit(all, sesRef, sessionEvent);
    CloseIsIn(all, sessionEvent);
    assert forall e | e in all :: e in w.b.pulses;
    var plan := Planned(w.b, sessionEvent, sesRef, agent);
    if plan.Some? {
      assert Tame(CloseEvent(all, sessionEvent).value);
    }
  }

  lemma {:induction false} CloseIsIn(pulses: seq<Event>, id: string)
    ensures CloseEvent(pulses, id).Some? ==> CloseEvent(pulses, id).value in pulses
  {
    if pulses != [] {
      CloseIsIn(pulses[1..], id);
    }
  }

  // -------------------------------------------------------------------------- compacting

  function Without(pulses: seq<Event>, selected: seq<Event>): seq<Event> {
    if pulses == [] then []
    else (if pulses[0] in selected then [] else [pulses[0]]) + Without(pulses[1..], selected)
  }

  /** By spelling or by value, the prune takes the same events. */
  lemma {:induction false} RemainingIsWithout(pulses: seq<Event>, all: seq<Event>, selected: seq<Event>)
    requires Sound(all) && (forall e | e in pulses :: e in all) && forall e | e in selected :: e in all
    ensures Remaining(pulses, Wanted(selected)) == Without(pulses, selected)
  {
    if pulses != [] {
      assert pulses[0] in pulses && forall e | e in pulses[1..] :: e in pulses;
      RemainingIsWithout(pulses[1..], all, selected);
      WantedIffSelected(all, selected, pulses[0]);
    }
  }

  lemma WantedIffSelected(all: seq<Event>, selected: seq<Event>, e: Event)
    requires Sound(all) && e in all && forall s | s in selected :: s in all
    ensures Normalize(e.name) in Wanted(selected) <==> e in selected
  {
    NormalizeStored(e);
    forall s | s in selected && Normalize(s.event) == e.event ensures s == e {
      NormalizeStored(s);
      var i :| 0 <= i < |all| && all[i] == s;
      var j :| 0 <= j < |all| && all[j] == e;
      assert i < j || i == j || j < i;
    }
  }

  function Elements(es: seq<Event>): set<Event> { set e | e in es }

  lemma {:induction false} DistinctSize(es: seq<Event>)
    requires DistinctEvents(es)
    ensures |Elements(es)| == |es|
    decreases |es|
  {
    if es != [] {
      var init, last := es[..|es| - 1], es[|es| - 1];
      DistinctSize(init);
      assert last !in init;
      assert Elements(es) == Elements(init) + {last};
    }
  }

  lemma {:induction false} WithoutElements(pulses: seq<Event>, selected: seq<Event>)
    ensures forall e :: e in Without(pulses, selected) <==> e in pulses && e !in selected
    ensures DistinctEvents(pulses) ==> DistinctEvents(Without(pulses, selected))
  {
    if pulses != [] {
      var first, rest := pulses[0], pulses[1..];
      WithoutElements(rest, selected);
      assert forall e :: e in pulses <==> e in rest || e == first;
      if DistinctEvents(pulses) {
        forall e | e in rest ensures e.event != first.event {
          var k :| 0 <= k < |rest| && rest[k] == e;
        }
      }
    }
  }

  lemma WithoutSize(pulses: seq<Event>, selected: seq<Event>)
    requires DistinctEvents(pulses) && DistinctEvents(selected) && forall e | e in selected :: e in pulses
    ensures |pulses| == |Without(pulses, selected)| + |selected|
  {
    WithoutElements(pulses, selected);
    DistinctSize(pulses);
    DistinctSize(selected);
    DistinctSize(Without(pulses, selected));
    assert Elements(pulses) == Elements(Without(pulses, selected)) + Elements(selected);
    assert Elements(Without(pulses, selected)) !! Elements(selected);
  }

  /** The compaction of `plan` writes its lesson. */
  predicate Writes(b: Brain, plan: Plan) { !Learned(b, LessonName(plan.sesRef)) && |plan.selected| >= LEAST }

  /** What one compaction leaves and reports. */
  lemma CompactResult(b: Brain, plan: Plan, date: string, payload: string, mid: Brain, id: string, pruned: nat)
    requires Writes(b, plan) && mid == Pruned(b, plan) && id == NextId(mid.pulses) && pruned == Taken(b, Wanted(plan.selected))
    ensures DoCompact(b, plan, date, payload, false)
         == (WithMeta(mid, id, MetaInput(plan, date, payload)), Compacted(pruned, id))
  {
    LessonWritten(b, mid, plan, date, payload, WithMeta(mid, id, MetaInput(plan, date, payload)), pruned, id);
    CompactWrites(b, plan, date, payload);
  }

  lemma CompactWrites(b: Brain, plan: Plan, date: string, payload: string)
    requires Writes(b, plan)
    ensures DoCompact(b, plan, date, payload, false) == DoWriteLesson(b, plan, date, payload)
  {}

  /** What a valid plan selected is what its prune removes. */
  lemma PlanPrunes(b: Brain, plan: Plan)
    requires Sound(b.pulses) && PlanFits(b, plan) && !Learned(b, LessonName(plan.sesRef))
    ensures Remaining(b.pulses, Wanted(plan.selected)) == Without(b.pulses, plan.selected)
    ensures |b.pulses| == |Without(b.pulses, plan.selected)| + |plan.selected|
    ensures forall e | e in b.pulses && (e.kind == "session" || e.sesRef != plan.sesRef) ::
      e in Without(b.pulses, plan.selected)
  {
    RemainingIsWithout(b.pulses, b.pulses, plan.selected);
    WithoutSize(b.pulses, plan.selected);
    WithoutElements(b.pulses, plan.selected);
  }

  lemma WantedNotEmpty(b: Brain, plan: Plan)
    requires Sound(b.pulses) && PlanFits(b, plan) && !Learned(b, LessonName(plan.sesRef))
    ensures "" !in Wanted(plan.selected)
  {
    forall e | e in plan.selected ensures Normalize(e.event) != "" {
      NormalizeStored(e);
    }
  }

  /** What is read in the lines that stay, and how many lines go. */
  lemma PlanReads(b: Brain, plan: Plan)
    requires Sound(b.pulses) && AllTame(b.pulses) && PlanFits(b, plan) && !Learned(b, LessonName(plan.sesRef))
    ensures Reread(b.pulses, Wanted(plan.selected)) == Without(b.pulses, plan.selected)
    ensures Taken(b, Wanted(plan.selected)) + |KeptLines(b.rest, Wanted(plan.selected))| == |plan.selected| + |b.rest|
  {
    WantedNotEmpty(b, plan);
    StoredReadable(b.pulses);
    KeptEvents(b.pulses, Wanted(plan.selected));
    PlanPrunes(b, plan);
    TameTaken(b, Wanted(plan.selected));
  }

  /**
   * A compaction takes the pulses it selected, leaves every other pulse in order and adds one
   * meta event. It leaves every other line of the file, and counts exactly the selected pulses,
   * if and only if no other line declares a selected id.
   */
  lemma CompactPartitions(w: World, c: nat, date: string, payload: string)
    requires Inv(w) && c in w.plans && Writes(w.b, w.plans[c])
    ensures var plan, (b, r) := w.plans[c], DoCompact(w.b, w.plans[c], date, payload, false);
      && r.Compacted? && b.pulses == Without(w.b.pulses, plan.selected) + [ToEvent(r.meta, MetaInput(plan, date, payload))]
      && !Uses(Without(w.b.pulses, plan.selected), r.meta) && CanonicalId(r.meta)
      && b.lessons == w.b.lessons + [ToLesson(plan)] && ToLesson(plan).entryCount == |plan.selected|
      && (forall e | e in w.b.pulses && (e.kind == "session" || e.sesRef != plan.sesRef) ::
            e in Without(w.b.pulses, plan.selected))
      && (b.rest == w.b.rest && r.pruned == |plan.selected| <==> Unclaimed(w.b.rest, Wanted(plan.selected)))
  {
    PlanPrunes(w.b, w.plans[c]);
    var mid := Pruned(w.b, w.plans[c]);
    var id := NextId(mid.pulses);
    PlanReads(w.b, w.plans[c]);
    MetaAppended(mid, id, MetaInput(w.plans[c], date, payload));
    CompactResult(w.b, w.plans[c], date, payload, mid, id, Taken(w.b, Wanted(w.plans[c].selected)));
    KeptLength(w.b.rest, Wanted(w.plans[c].selected));
  }

  // ------------------------------------------------------------------------- the counts

  /** The sum of the numbers of a map. */
  ghost function Total(m: map<string, nat>): nat {
    if m == map[] then 0
    else
      var k :| k in m;
      m[k] + Total(m - {k})
  }

  lemma {:induction false} TotalWithout(m: map<string, nat>, k: string)
    requires k in m
    ensures Total(m) == m[k] + Total(m - {k})
    decreases |m|
  {
    var j :| j in m && Total(m) == m[j] + Total(m - {j});
    if j != k {
      TotalWithout(m - {j}, k);
      TotalWithout(m - {k}, j);
      assert (m - {j}) - {k} == (m - {k}) - {j};
    }
  }

  lemma TotalPut(m: map<string, nat>, k: string)
    ensures Total(m[k := (if k in m then m[k] else 0) + 1]) == Total(m) + 1
  {
    var n := m[k := (if k in m then m[k] else 0) + 1];
    TotalWithout(n, k);
    assert n - {k} == m - {k};
    if k in m {
      TotalWithout(m, k);
    } else {
      assert m - {k} == m;
    }
  }

  lemma {:induction false} CountsTotal(kinds: seq<string>)
    ensures Total(CountsIn(kinds)) == |kinds|
    decreases |kinds|
  {
    if kinds != [] {
      var n := |kinds| - 1;
      CountsTotal(kinds[..n]);
      CountsTake(kinds, n);
      assert kinds[..n + 1] == kinds;
      TotalPut(CountsIn(kinds[..n]), kinds[n]);
    } else {
      assert CountsIn(kinds) == map[];
    }
  }

  /**
   * The numbers that a compaction writes into its lesson, kind by kind, add up to the number
   * of pulses that left the brain with it.
   */
  lemma CountsAddUp(w: World, c: nat, date: string, payload: string)
    requires Inv(w) && c in w.plans && Writes(w.b, w.plans[c])
    ensures var plan, (b, r) := w.plans[c], DoCompact(w.b, w.plans[c], date, payload, false);
      && (forall k | k in Kinds(plan.selected) :: k in ToLesson(plan).counts)
      && Total(ToLesson(plan).counts) == |w.b.pulses| + 1 - |b.pulses|
      && (Unclaimed(w.b.rest, Wanted(plan.selected)) ==> Total(ToLesson(plan).counts) == r.pruned)
  {
    CompactPartitions(w, c, date, payload);
    PlanPrunes(w.b, w.plans[c]);
    CountsTotal(Kinds(w.plans[c].selected));
  }

  lemma SoundWithout(pulses: seq<Event>, selected: seq<Event>)
    requires Sound(pulses)
    ensures Sound(Without(pulses, selected))
  {
    WithoutElements(pulses, selected);
  }

  /** Other sessions' plans keep everything they selected. */
  lemma OtherPlanFits(w: World, c: nat, d: nat, pulses: seq<Event>)
    requires Inv(w) && c in w.plans && d in w.plans && Writes(w.b, w.plans[c])
    requires forall e | e in Without(w.b.pulses, w.plans[c].selected) :: e in pulses
    ensures PlanFits(Brain(pulses, w.b.lessons + [ToLesson(w.plans[c])], []), w.plans[d])
  {
    var mine, other := w.plans[c], w.plans[d];
    var after := Brain(pulses, w.b.lessons + [ToLesson(mine)], []);
    assert PlanFits(w.b, mine) && PlanFits(w.b, other);
    WithoutElements(w.b.pulses, mine.selected);
    if LessonName(other.sesRef) == LessonName(mine.sesRef) {
      assert ToLesson(mine) in after.lessons;
    } else if Learned(w.b, LessonName(other.sesRef)) {
      var l :| l in w.b.lessons && l.name == LessonName(other.sesRef);
      assert l in after.lessons;
    }
  }

  lemma MetaIsTame(plan: Plan, date: string, payload: string, meta: string)
    requires TamePlan(plan) && SingleLine(date) && SingleLine(payload) && CanonicalId(meta)
    ensures Tame(ToEvent(meta, MetaInput(plan, date, payload)))
  {
    assert SingleLine("-") && SingleLine("pulse_compact") && SingleLine("");
    TameEvent(meta, MetaInput(plan, date, payload));
  }

  lemma CompactKeeps(w: World, c: nat, date: string, payload: string, dryRun: bool)
    requires Inv(w) && Enabled(w, Compact(c, date, payload, dryRun))
    ensures Inv(Step(w, Compact(c, date, payload, dryRun)))
  {
    var plan := w.plans[c];
    if !dryRun && Writes(w.b, plan) {
      CompactPartitions(w, c, date, payload);
      var (b, r) := DoCompact(w.b, plan, date, payload, false);
      MetaIsTame(plan, date, payload, r.meta);
      CompactedKeeps(w, c, b, ToEvent(r.meta, MetaInput(plan, date, payload)));
    }
  }

  lemma CompactedKeeps(w: World, c: nat, b: Brain, meta: Event)
    requires Inv(w) && c in w.plans && Writes(w.b, w.plans[c])
    requires b.pulses == Without(w.b.pulses, w.plans[c].selected) + [meta] && Stored(meta) && Tame(meta)
    requires !Uses(Without(w.b.pulses, w.plans[c].selected), meta.event)
    requires b.lessons == w.b.lessons + [ToLesson(w.plans[c])]
    ensures Inv(w.(b := b))
  {
    var plan := w.plans[c];
    SoundWithout(w.b.pulses, plan.selected);
    SoundSnoc(Without(w.b.pulses, plan.selected), meta);
    WithoutElements(w.b.pulses, plan.selected);
    LessonIsNew(w.b.lessons, ToLesson(plan), w.b);
    forall d | d in w.plans ensures PlanFits(b, w.plans[d]) {
      OtherPlanFits(w, c, d, b.pulses);
      assert PlanFits(Brain(b.pulses, b.lessons, []), w.plans[d]);
    }
  }

  lemma LessonIsNew(ls: seq<Lesson>, l: Lesson, b: Brain)
    requires DistinctLessons(ls) && ls == b.lessons && !Learned(b, l.name)
    ensures DistinctLessons(ls + [l])
  {
    forall i | 0 <= i < |ls| ensures ls[i].name != l.name {
      assert ls[i] in ls;
    }
  }

  lemma StepKeeps(w: World, a: Action)
    requires Inv(w) && Enabled(w, a)
    ensures Inv(Step(w, a))
  {
    match a {
      case Record(i) => AppendKeeps(w, NextId(w.b.pulses), i);
      case Append(id, i) => AppendKeeps(w, id, i);
      case MakePlan(c, sessionEvent, sesRef, agent) => PlanKeeps(w, c, sessionEvent, sesRef, agent);
      case Compact(c, date, payload, dryRun) => CompactKeeps(w, c, date, payload, dryRun);
    }
  }

  // ------------------------------------------------------------------------------ runs

  ghost predicate StepsAt(ws: seq<World>, acts: seq<Action>, k: nat)
    requires k < |acts| && |ws| == |acts| + 1
  { Enabled(ws[k], acts[k]) && ws[k + 1] == Step(ws[k], acts[k]) }

  /** A run from a brain of valid, distinct ids; no compactor has planned yet. */
  ghost predicate IsHistory(ws: seq<World>, acts: seq<Action>) {
    && |ws| == |acts| + 1 && Inv(ws[0]) && ws[0].plans == map[]
    && forall k | 0 <= k < |acts| :: StepsAt(ws, acts, k)
  }

  lemma StepsAtKeeps(ws: seq<World>, acts: seq<Action>, k: nat)
    requires k < |acts| && |ws| == |acts| + 1 && StepsAt(ws, acts, k) && Inv(ws[k])
    ensures Inv(ws[k + 1])
  {
    StepKeeps(ws[k], acts[k]);
  }

  lemma {:induction false} HistoryInv(ws: seq<World>, acts: seq<Action>, k: nat)
    requires IsHistory(ws, acts) && k < |ws|
    ensures Inv(ws[k])
  {
    if k > 0 {
      HistoryInv(ws, acts, k - 1);
      StepsAtKeeps(ws, acts, k - 1);
    }
  }

  predicate IsCompaction(w: World, a: Action) {
    a.Compact? && a.compactor in w.plans && !a.dryRun && Writes(w.b, w.plans[a.compactor])
  }

  lemma StepLearned(w: World, a: Action, name: string)
    requires Enabled(w, a) && Learned(w.b, name)
    ensures Learned(Step(w, a).b, name)
  {
    var l :| l in w.b.lessons && l.name == name;
    assert l in Step(w, a).b.lessons;
  }

  lemma {:induction false} LearnedAlong(ws: seq<World>, i: nat, k: nat, name: string)
    requires i <= k < |ws| && Learned(ws[i].b, name)
    requires forall j | 0 < j < |ws| :: Learned(ws[j - 1].b, name) ==> Learned(ws[j].b, name)
    ensures Learned(ws[k].b, name)
    decreases k
  {
    if i < k {
      LearnedAlong(ws, i, k - 1, name);
    }
  }

  lemma LearnedStays(ws: seq<World>, acts: seq<Action>, i: nat, k: nat, name: string)
    requires IsHistory(ws, acts) && i <= k < |ws| && Learned(ws[i].b, name)
    ensures Learned(ws[k].b, name)
  {
    forall j | 0 < j < |ws| && Learned(ws[j - 1].b, name) ensures Learned(ws[j].b, name) {
      assert StepsAt(ws, acts, j - 1);
      StepLearned(ws[j - 1], acts[j - 1], name);
    }
    LearnedAlong(ws, i, k, name);
  }

  /** Among any number of concurrent compactors of a session, at most one ever writes and prunes. */
  lemma CompactedOnce(ws: seq<World>, acts: seq<Action>, i: nat, k: nat)
    requires IsHistory(ws, acts) && i < k < |acts|
    requires IsCompaction(ws[i], acts[i]) && IsCompaction(ws[k], acts[k])
    ensures ws[i].plans[acts[i].compactor].sesRef != ws[k].plans[acts[k].compactor].sesRef
  {
    var name := LessonName(ws[i].plans[acts[i].compactor].sesRef);
    assert StepsAt(ws, acts, i);
    assert ToLesson(ws[i].plans[acts[i].compactor]) in ws[i + 1].b.lessons;
    assert Learned(ws[i + 1].b, name);
    LearnedStays(ws, acts, i + 1, k, name);
  }

  /** What one compaction of a world leaves. */
  lemma CompactionLeaves(w: World, c: nat, date: string, payload: string, after: Brain)
    requires Inv(w) && c in w.plans && Writes(w.b, w.plans[c])
    requires after == DoCompact(w.b, w.plans[c], date, payload, false).0
    ensures var plan := w.plans[c];
      && |after.pulses| == |w.b.pulses| - |plan.selected| + 1
      && after.pulses != [] && after.pulses[..|after.pulses| - 1] == Without(w.b.pulses, plan.selected)
      && (after.rest == w.b.rest <==> Unclaimed(w.b.rest, Wanted(plan.selected)))
      && (forall e | e in plan.selected :: e in w.b.pulses && e.sesRef == plan.sesRef && e.kind != "session")
  {
    var plan := w.plans[c];
    assert PlanFits(w.b, plan);
    var mid, id := Pruned(w.b, plan), NextId(Pruned(w.b, plan).pulses);
    PlanReads(w.b, plan);
    PlanPrunes(w.b, plan);
    CompactResult(w.b, plan, date, payload, mid, id, Taken(w.b, Wanted(plan.selected)));
    MetaLast(mid, id, MetaInput(plan, date, payload));
    KeptLength(w.b.rest, Wanted(plan.selected));
  }

  lemma MetaLast(b: Brain, id: string, i: Input)
    ensures var after := WithMeta(b, id, i);
      |after.pulses| == |b.pulses| + 1 && after.pulses[..|b.pulses|] == b.pulses && after.rest == b.rest
  {}

  /** In every run a compaction prunes exactly the members it had selected, and no session event. */
  lemma CompactionInRun(ws: seq<World>, acts: seq<Action>, k: nat)
    requires IsHistory(ws, acts) && k < |acts| && IsCompaction(ws[k], acts[k])
    ensures var plan, after := ws[k].plans[acts[k].compactor], ws[k + 1].b;
      && |after.pulses| == |ws[k].b.pulses| - |plan.selected| + 1
      && after.pulses != [] && after.pulses[..|after.pulses| - 1] == Without(ws[k].b.pulses, plan.selected)
      && (after.rest == ws[k].b.rest <==> Unclaimed(ws[k].b.rest, Wanted(plan.selected)))
      && (forall e | e in plan.selected :: e in ws[k].b.pulses && e.sesRef == plan.sesRef && e.kind != "session")
  {
    HistoryInv(ws, acts, k);
    assert StepsAt(ws, acts, k);
    CompactionLeaves(ws[k], acts[k].compactor, acts[k].date, acts[k].payload, ws[k + 1].b);
  }

  predicate Accepted(w: World, a: Action) {
    (a.Append? && DoAppend(w.b, a.id, a.input).1.Stored?)
    || (a.Record? && DoAppend(w.b, NextId(w.b.pulses), a.input).1.Stored?)
  }

  /** The id that the caller brought ends in a line break. */
  predicate BreaksId(a: Action) { a.Append? && !CanonicalId(a.id) }

  ghost function AcceptedCalls(ws: seq<World>, acts: seq<Action>, i: nat, k: nat): nat
    requires |ws| == |acts| + 1 && i <= k < |ws|
    decreases k
  { if i == k then 0 else AcceptedCalls(ws, acts, i, k - 1) + if Accepted(ws[k - 1], acts[k - 1]) then 1 else 0 }

  /** The call is accepted, and its id ends in a line break. */
  predicate Loses(ws: seq<World>, acts: seq<Action>, j: nat)
    requires |ws| == |acts| + 1 && j < |acts|
  { Accepted(ws[j], acts[j]) && BreaksId(acts[j]) }

  /** The accepted calls whose pulse no reader will find. */
  ghost function LostCalls(ws: seq<World>, acts: seq<Action>, i: nat, k: nat): nat
    requires |ws| == |acts| + 1 && i <= k < |ws|
    decreases k
  {
    if i == k then 0
    else LostCalls(ws, acts, i, k - 1) + if Loses(ws, acts, k - 1) then 1 else 0
  }

  lemma {:induction false} NoneLost(ws: seq<World>, acts: seq<Action>, i: nat, k: nat)
    requires |ws| == |acts| + 1 && i <= k < |ws| && forall j | i <= j < k :: !Loses(ws, acts, j)
    ensures LostCalls(ws, acts, i, k) == 0
    decreases k
  {
    if i < k {
      assert !Loses(ws, acts, k - 1);
      NoneLost(ws, acts, i, k - 1);
    }
  }

  lemma {:induction false} SomeLost(ws: seq<World>, acts: seq<Action>, i: nat, k: nat, j: nat)
    requires |ws| == |acts| + 1 && i <= j < k < |ws| && Loses(ws, acts, j)
    ensures LostCalls(ws, acts, i, k) > 0
    decreases k
  {
    if j < k - 1 { SomeLost(ws, acts, i, k - 1, j); }
  }

  /**
   * Evidence is never overwritten: between compactions the pulses only grow, by one for each accepted
   * call, if and only if no accepted call brought an id that ends in a line break; such a call adds none.
   */
  lemma EvidenceAccumulates(ws: seq<World>, acts: seq<Action>, i: nat, k: nat)
    requires IsHistory(ws, acts) && i <= k < |ws|
    requires forall j | i <= j < k :: !IsCompaction(ws[j], acts[j])
    ensures ws[i].b.pulses <= ws[k].b.pulses && DistinctEvents(ws[k].b.pulses)
    ensures |ws[k].b.pulses| + LostCalls(ws, acts, i, k) == |ws[i].b.pulses| + AcceptedCalls(ws, acts, i, k)
    ensures |ws[k].b.pulses| == |ws[i].b.pulses| + AcceptedCalls(ws, acts, i, k)
      <==> forall j | i <= j < k :: !Loses(ws, acts, j)
  {
    PulsesGrow(ws, acts, i, k);
    HistoryInv(ws, acts, k);
    if forall j | i <= j < k :: !Loses(ws, acts, j) {
      NoneLost(ws, acts, i, k);
    } else {
      var j :| i <= j < k && Loses(ws, acts, j);
      SomeLost(ws, acts, i, k, j);
    }
  }

  lemma {:induction false} PulsesGrow(ws: seq<World>, acts: seq<Action>, i: nat, k: nat)
    requires IsHistory(ws, acts) && i <= k < |ws|
    requires forall j | i <= j < k :: !IsCompaction(ws[j], acts[j])
    ensures ws[i].b.pulses <= ws[k].b.pulses
    ensures |ws[k].b.pulses| + LostCalls(ws, acts, i, k) == |ws[i].b.pulses| + AcceptedCalls(ws, acts, i, k)
    decreases k
  {
    if i < k {
      PulsesGrow(ws, acts, i, k - 1);
      assert StepsAt(ws, acts, k - 1);
      HistoryInv(ws, acts, k - 1);
      StepAccumulates(ws[k - 1], acts[k - 1]);
    }
  }

  lemma StepAccumulates(w: World, a: Action)
    requires Enabled(w, a) && !IsCompaction(w, a) && Sound(w.b.pulses)
    ensures w.b.pulses <= Step(w, a).b.pulses
    ensures |Step(w, a).b.pulses| == |w.b.pulses| + if Accepted(w, a) && !BreaksId(a) then 1 else 0
  {
    match a {
      case Record(i) => AppendAccumulates(w.b, NextId(w.b.pulses), i); NumberInEventId(MaxNumber(w.b.pulses) + 1);
      case Append(id, i) => AppendAccumulates(w.b, id, i);
      case MakePlan(_, _, _, _) =>
      case Compact(_, _, _, _) =>
    }
  }

  lemma AppendAccumulates(b: Brain, id: string, i: Input)
    requires Sound(b.pulses)
    ensures var (b', o) := DoAppend(b, id, i);
      b.pulses <= b'.pulses && |b'.pulses| == |b.pulses| + if o.Stored? && CanonicalId(id) then 1 else 0
  {
    if DoAppend(b, id, i).1.Stored? {
      AppendIsFresh(b, id, i);
      if Uses(b.pulses, id) {
        var e :| e in b.pulses && e.event == id;
        assert Stored(e);
      }
    }
  }

  /** In every state of a run the section that a prune leaves can be read back (`PulseText.PrunedReads`). */
  lemma PulsesReadable(ws: seq<World>, acts: seq<Action>, k: nat)
    requires IsHistory(ws, acts) && k < |ws|
    ensures AllReadable(ws[k].b.pulses)
  {
    HistoryInv(ws, acts, k);
    StoredReadable(ws[k].b.pulses);
  }

  lemma {:induction false} StoredReadable(pulses: seq<Event>)
    requires AllTame(pulses) && forall e | e in pulses :: Stored(e)
    ensures AllReadable(pulses)
  {
    if pulses != [] {
      assert pulses[0] in pulses && forall e | e in pulses[1..] :: e in pulses;
      IdIsPlain(pulses[0].event);
      StoredReadable(pulses[1..]);
    }
  }

  // -------------------------------------------------------------------- legacy spellings

  /** An id as older brains spell it. */
  predicate IsLegacyId(id: string) { StartsWith(id, "E_") && AllDigits(id[2..]) }

  lemma NormalizeTail(tail: string)
    requires AllDigits(tail)
    ensures Normalize("E-" + tail) == "E-" + tail && Normalize("E_" + tail) == "E-" + tail
  {
    ReplaceNothing(tail);
    ReplaceCharConcat("E-", tail, '_', "-");
    ReplaceCharConcat("E_", tail, '_', "-");
    ReplaceHeads();
    assert ("E-" + tail)[|tail| + 1] == tail[|tail| - 1] && tail[|tail| - 1] in tail;
    TrimmedStrip("E-" + tail);
  }

  lemma ReplaceHeads()
    ensures Replace("E-", "_", "-") == "E-" && Replace("E_", "_", "-") == "E-"
  {
    ReplaceCharConcat("E", "-", '_', "-");
    ReplaceCharConcat("E", "_", '_', "-");
    ReplaceCharCons('E', "", '_', "-");
    ReplaceCharCons('-', "", '_', "-");
    ReplaceCharCons('_', "", '_', "-");
    assert "E" + "-" == "E-" && "E" + "_" == "E_" && ['E'] + "" == "E" && ['-'] + "" == "-" && ['_'] + "" == "_";
    assert Replace("", "_", "-") == "";
  }

  /** Two ids of the `E` family select each other exactly when their numbers are written alike, whatever the spelling. */
  lemma LegacyTwins(a: string, b: string)
    requires (HasPrefix(a, "E-") || IsLegacyId(a)) && (HasPrefix(b, "E-") || IsLegacyId(b))
    ensures Normalize(a) == Normalize(b) <==> a[2..] == b[2..]
  {
    assert a == a[..2] + a[2..] && b == b[..2] + b[2..];
    NormalizeTail(a[2..]);
    NormalizeTail(b[2..]);
    assert Normalize(a)[2..] == a[2..] && Normalize(b)[2..] == b[2..];
  }

  /**
   * Appending does not see the twin: beside a legacy event, a caller's id with the same
   * number is stored under the same name, and a prune of either takes both.
   */
  lemma LegacyCollision(b: Brain, digits: string, i: Input, legacy: Event)
    requires AllDigits(digits) && i.kind != "" && legacy in b.pulses && legacy.event == legacy.name == "E_" + digits
    requires !Uses(b.pulses, "E-" + digits)
    ensures var (b', o) := DoAppend(b, "E-" + digits, i);
      && o == Outcome.Stored("E-" + digits) && legacy in b'.pulses
      && var added := b'.pulses[|b'.pulses| - 1];
         added.event == "E-" + digits != legacy.event
         && forall wanted :: Selected(added, wanted) <==> Selected(legacy, wanted)
  {
    var id := "E-" + digits;
    assert id[2..] == digits;
    NormalizeTail(digits);
    NormalizeStored(ToEvent(id, i));
  }
}
