/** What a compactor selects, and what of it is left: every pulse of the session, told by its own fields. */
module PulsePlans {
  import opened Text
  import opened PulseText
  import opened Pulse
  import opened PulseRuns

  // -------------------------------------------------------------------------- selection

  lemma {:induction false} MembersFilter(pulses: seq<Event>, sesRef: string, sessionEvent: string)
    ensures Members(pulses, sesRef, sessionEvent) == Filtered(pulses, (e: Event) => Member(e, sesRef, sessionEvent))
    decreases |pulses|
  {
    if pulses != [] { MembersFilter(pulses[..|pulses| - 1], sesRef, sessionEvent); }
  }

  /** The members are, in order, all the pulses that carry the reference, but for session events and the close event. */
  lemma MembersAre(pulses: seq<Event>, sesRef: string, sessionEvent: string) returns (at: seq<nat>)
    ensures Picks(pulses, Members(pulses, sesRef, sessionEvent), at)
    ensures forall i: nat | i < |pulses| :: i in at <==>
      pulses[i].kind != "session" && pulses[i].sesRef == sesRef && pulses[i].event != sessionEvent
  {
    MembersFilter(pulses, sesRef, sessionEvent);
    at := FilteredAre(pulses, (e: Event) => Member(e, sesRef, sessionEvent));
  }

  /** The first session event with that id. */
  ghost predicate ClosedAt(pulses: seq<Event>, sessionEvent: string, k: nat) {
    && k < |pulses| && pulses[k].event == sessionEvent && pulses[k].kind == "session"
    && forall i | 0 <= i < k :: pulses[i].event != sessionEvent || pulses[i].kind != "session"
  }

  lemma {:induction false} CloseIsFirst(pulses: seq<Event>, sessionEvent: string) returns (k: nat)
    ensures CloseEvent(pulses, sessionEvent).Some? ==>
      ClosedAt(pulses, sessionEvent, k) && CloseEvent(pulses, sessionEvent).value == pulses[k]
    ensures CloseEvent(pulses, sessionEvent).None? ==>
      forall i | 0 <= i < |pulses| :: pulses[i].event != sessionEvent || pulses[i].kind != "session"
  {
    k := 0;
    if pulses != [] && !(pulses[0].event == sessionEvent && pulses[0].kind == "session") {
      var n := CloseIsFirst(pulses[1..], sessionEvent);
      k := n + 1;
      assert forall i | 0 < i < |pulses| :: pulses[i] == pulses[1..][i - 1];
    }
  }

  /** The pulses of the session among the first `read`, told by their fields. */
  predicate SessionPulse(pulses: seq<Event>, read: nat, sesRef: string, sessionEvent: string, i: nat) {
    && i < read <= |pulses| && pulses[i].kind != "session" && pulses[i].sesRef == sesRef
    && pulses[i].event != sessionEvent
  }

  lemma ClosedInPrefix(pulses: seq<Event>, read: nat, sessionEvent: string)
    requires read <= |pulses|
    ensures forall k: nat | k < read :: ClosedAt(pulses, sessionEvent, k) <==> ClosedAt(pulses[..read], sessionEvent, k)
  {
    forall k: nat | k < read ensures ClosedAt(pulses, sessionEvent, k) <==> ClosedAt(pulses[..read], sessionEvent, k) {
      assert forall i | 0 <= i <= k :: pulses[..read][i] == pulses[i];
    }
  }

  /** The close event, read among the first pulses, decides whether there is a plan. */
  lemma PlanDecided(pulses: seq<Event>, read: nat, sessionEvent: string, sesRef: string)
    requires read <= |pulses|
    ensures var close := CloseEvent(pulses[..read], sessionEvent);
      (close.Some? && close.value.sesRef == sesRef)
        <==> exists k: nat :: k < read && ClosedAt(pulses, sessionEvent, k) && pulses[k].sesRef == sesRef
  {
    ClosedInPrefix(pulses, read, sessionEvent);
    var n := CloseIsFirst(pulses[..read], sessionEvent);
    if k: nat :| k < read && ClosedAt(pulses, sessionEvent, k) && pulses[k].sesRef == sesRef {
      assert ClosedAt(pulses[..read], sessionEvent, k);
      assert n == k;
    }
    if CloseEvent(pulses[..read], sessionEvent).Some? {
      assert ClosedAt(pulses, sessionEvent, n);
    }
  }

  /**
   * There is a plan if and only if the first session event with the given id, among the first ten
   * thousand pulses, belongs to the session. It selects every pulse of the session among these, each
   * once and in order, and nothing else.
   */
  lemma PlanSelects(b: Brain, sessionEvent: string, sesRef: string, agent: string) returns (read: nat, at: seq<nat>)
    ensures read == if |b.pulses| <= 10000 then |b.pulses| else 10000
    ensures var plan := Planned(b, sessionEvent, sesRef, agent);
      && (plan.Some? <==>
            exists k: nat :: k < read && ClosedAt(b.pulses, sessionEvent, k) && b.pulses[k].sesRef == sesRef)
      && (plan.Some? ==>
            && plan.value.sesRef == sesRef && plan.value.sessionEvent == sessionEvent && plan.value.agent == agent
            && Picks(b.pulses, plan.value.selected, at)
            && forall i: nat :: i in at <==> SessionPulse(b.pulses, read, sesRef, sessionEvent, i))
  {
    var all := FirstPulses(b.pulses);
    read := |all|;
    assert all == b.pulses[..read];
    PlanDecided(b.pulses, read, sessionEvent, sesRef);
    at := MembersAre(all, sesRef, sessionEvent);
    forall i: nat ensures i in at <==> SessionPulse(b.pulses, read, sesRef, sessionEvent, i) {
      if i < read { assert all[i] == b.pulses[i]; }
    }
  }

  // ------------------------------------------------------------------------- after the run

  predicate Plans(a: Action, c: nat) { a.MakePlan? && a.compactor == c }

  /** What a compactor decided stays as it is until it decides again. */
  lemma {:induction false} PlanStays(ws: seq<World>, acts: seq<Action>, j: nat, k: nat, c: nat)
    requires IsHistory(ws, acts) && j <= k < |ws| && c in ws[j].plans
    requires forall i | j <= i < k :: !Plans(acts[i], c)
    ensures c in ws[k].plans && ws[k].plans[c] == ws[j].plans[c]
    decreases k
  {
    if j < k {
      PlanStays(ws, acts, j, k - 1, c);
      assert StepsAt(ws, acts, k - 1) && !Plans(acts[k - 1], c);
    }
  }

  /**
   * No pulse of the session that the compactor could read when it made its plan is left after the
   * compaction: what is left before the meta event is neither of the session nor was there then, or it
   * is a session event or the close event.
   */
  lemma NoMemberSurvives(ws: seq<World>, acts: seq<Action>, j: nat, k: nat, i: nat)
    requires IsHistory(ws, acts) && j < k < |acts| && acts[j].MakePlan? && IsCompaction(ws[k], acts[k])
    requires acts[k].compactor == acts[j].compactor
    requires Planned(ws[j].b, acts[j].sessionEvent, acts[j].sesRef, acts[j].agent).Some?
    requires forall n | j < n < k :: !Plans(acts[n], acts[j].compactor)
    requires i < |ws[j].b.pulses| && i < 10000
    requires var e := ws[j].b.pulses[i];
      e.kind != "session" && e.sesRef == acts[j].sesRef && e.event != acts[j].sessionEvent
    ensures var after := ws[k + 1].b.pulses; after != [] && ws[j].b.pulses[i] !in after[..|after| - 1]
  {
    var a, c := acts[j], acts[j].compactor;
    assert StepsAt(ws, acts, j);
    var plan := Planned(ws[j].b, a.sessionEvent, a.sesRef, a.agent).value;
    assert ws[j + 1].plans[c] == plan;
    PlanStays(ws, acts, j + 1, k, c);
    var read, at := PlanSelects(ws[j].b, a.sessionEvent, a.sesRef, a.agent);
    assert SessionPulse(ws[j].b.pulses, read, a.sesRef, a.sessionEvent, i) && i in at;
    CompactionInRun(ws, acts, k);
    WithoutElements(ws[k].b.pulses, plan.selected);
  }

  /**
   * What a compactor is answered under the lock: nothing changes in a dry run, when the lesson is there, or
   * when fewer than five pulses were selected; otherwise the lesson is added to those there are.
   */
  lemma CompactDecides(b: Brain, plan: Plan, date: string, payload: string, dryRun: bool)
    ensures var (after, r) := DoCompact(b, plan, date, payload, dryRun);
      var learned := exists l :: l in b.lessons && l.name == "session_" + Replace(plan.sesRef, "-", "_");
      && (r == DryRun <==> dryRun) && (r == AlreadyCompacted <==> !dryRun && learned)
      && (r.TooFew? <==> !dryRun && !learned && |plan.selected| < 5) && (r.TooFew? ==> r.count == |plan.selected|)
      && (r.Compacted? <==> !dryRun && !learned && |plan.selected| >= 5)
      && (!r.Compacted? ==> after == b)
      && (r.Compacted? ==> after.lessons == b.lessons + [ToLesson(plan)])
  {}

  /** The number of an id of either spelling is that of its digits; any other id has none. */
  lemma NumberSays(digits: string, id: string)
    requires AllDigits(digits)
    ensures NumberIn("E-" + digits) == DigitsValue(digits) == NumberIn("E_" + digits)
    ensures !StartsWith(id, "E-") && !StartsWith(id, "E_") ==> NumberIn(id) == 0
  {
    assert ("E-" + digits)[2..] == digits && ("E_" + digits)[2..] == digits;
    assert ("E-" + digits)[..2] == "E-" && ("E_" + digits)[..2] == "E_";
  }

  /** The largest number of any event id there is, 0 without one. */
  ghost predicate Tops(pulses: seq<Event>, n: nat) {
    (forall e | e in pulses :: NumberIn(e.event) <= n) && (n == 0 || exists e :: e in pulses && NumberIn(e.event) == n)
  }

  lemma {:induction false} MaxTops(pulses: seq<Event>)
    ensures Tops(pulses, MaxNumber(pulses))
    decreases |pulses|
  {
    if pulses != [] {
      var init, last := pulses[..|pulses| - 1], pulses[|pulses| - 1];
      MaxTops(init);
      assert pulses == init + [last] && last in pulses;
      if MaxNumber(init) > 0 {
        var e :| e in init && NumberIn(e.event) == MaxNumber(init);
        assert e in pulses;
      }
    }
  }

  /** A call with a valid id and a kind is stored under that id if it is free, and otherwise under the next number. */
  lemma AppendDecides(b: Brain, id: string, i: Input) returns (n: nat)
    ensures Tops(b.pulses, n)
    ensures var (after, o) := DoAppend(b, id, i);
      var used := exists e :: e in b.pulses && e.event == id;
      && (o == BadId <==> !IsPulseId(id)) && (o == BadKind <==> IsPulseId(id) && i.kind == "")
      && (o.Stored? ==> o.event == if used then "E-" + ZeroPad(n + 1, 4) else id)
      && (!o.Stored? ==> after == b) && after.lessons == b.lessons && after.rest == b.rest
      && (o.Stored? && CanonicalId(o.event) ==> after.pulses == b.pulses + [ToEvent(o.event, i)])
  {
    n := MaxNumber(b.pulses);
    MaxTops(b.pulses);
  }

  // ------------------------------------------------------------------- what is written

  /** Where the pulses of a kind stand. */
  function OfKind(es: seq<Event>, kind: string): set<nat> { set i: nat | i < |es| && es[i].kind == kind }

  lemma {:induction false} KindCounted(es: seq<Event>, kind: string)
    ensures multiset(Kinds(es))[kind] == |OfKind(es, kind)|
    decreases |es|
  {
    if es == [] {
      assert OfKind(es, kind) == {};
    } else {
      var init, last := es[..|es| - 1], es[|es| - 1];
      KindCounted(init, kind);
      assert Kinds(es) == Kinds(init) + [last.kind];
      assert OfKind(es, kind) == OfKind(init, kind) + if last.kind == kind then {|init|} else {};
    }
  }

  /** The lesson of a plan: whose it is, how many pulses it stands for, and how many of each kind. */
  lemma LessonSays(plan: Plan, kind: string)
    ensures var l := ToLesson(plan);
      && l.name == "session_" + Replace(plan.sesRef, "-", "_") && l.entryCount == |plan.selected|
      && l.session == plan.sessionEvent && l.sesRef == plan.sesRef && l.agent == plan.agent
      && (kind in l.counts <==> exists e :: e in plan.selected && e.kind == kind)
      && (kind in l.counts ==> l.counts[kind] == |OfKind(plan.selected, kind)|)
  {
    KindCounted(plan.selected, kind);
    assert forall i | 0 <= i < |plan.selected| :: Kinds(plan.selected)[i] == plan.selected[i].kind;
    if e :| e in plan.selected && e.kind == kind {
      var i :| 0 <= i < |plan.selected| && plan.selected[i] == e;
      assert Kinds(plan.selected)[i] in Kinds(plan.selected);
    }
  }

  /** A stored pulse says what the call said; an empty task is a dash, an empty payload names kind and task. */
  lemma EventSays(id: string, i: Input)
    ensures var e, task := ToEvent(id, i), if i.task == "" then "-" else i.task;
      && e.event == id && e.date == i.date && e.task == task && e.kind == i.kind && e.agent == i.agent
      && e.evidence == (if i.payload == "" then i.kind + " on " + task else i.payload)
      && e.cycle == i.cycle && e.sesRef == i.sesRef
  {}

  /** The meta event of a compaction is of the session and of its own kind, and says what it was given. */
  lemma MetaSays(plan: Plan, id: string, date: string, payload: string)
    requires payload != ""
    ensures var e := ToEvent(id, MetaInput(plan, date, payload));
      && e.event == id && e.date == date && e.task == "-" && e.kind == "pulse_compact" && e.agent == plan.agent
      && e.evidence == payload && e.cycle == "" && e.sesRef == plan.sesRef
  {}
}
