/** `session_identity.py`: session ids, intervals, opening, resuming and closing. */
module SessionIdentity {
  import opened Text

  datatype Session = Session(
    id: string, date: string, state: string, agent: string, project: string, execution: string, scope: string,
    blp: string, intervals: string, closed: string, input: string, output: string, outcome: string, summary: string,
    intent: Option<string>)

  /** What a caller brings to `open_session`, with the clock. */
  datatype Request = Request(agent: string, project: string, execution: string, scope: string, blp: string, now: string)

  datatype Reply =
    | Opened(session: Session)
    | Existing(session: Session)
    | OpenExists(open: seq<Session>)
    | NotFound
    | Bound
    | Reopened
    | Closed

  // ------------------------------------------------------------------------------- ids

  predicate IsSessionId(id: string) { StartsWith(id, "SES") && |id| >= 6 && AllDigits(id[3..]) }

  function NumberOf(id: string): nat
    requires IsSessionId(id)
  { DigitsValue(id[3..]) }

  function IdOf(n: nat): string { "SES" + ZeroPad(n, 3) }

  lemma {:induction false} ZerosLength(k: int)
    ensures |Zeros(k)| == if k <= 0 then 0 else k
  {
    if k > 0 { ZerosLength(k - 1); }
  }

  lemma NumberOfId(n: nat)
    ensures IsSessionId(IdOf(n)) && NumberOf(IdOf(n)) == n
  {
    ZeroPadRoundTrip(n, 3);
    ZerosLength(3 - |NatToString(n)|);
    assert IdOf(n)[3..] == ZeroPad(n, 3);
  }

  predicate AllIds(sessions: seq<Session>) { forall s | s in sessions :: IsSessionId(s.id) }

  function Highest(sessions: seq<Session>): nat
    requires AllIds(sessions)
  {
    if sessions == [] then 0
    else
      var last := sessions[|sessions| - 1];
      assert last in sessions;
      var rest := Highest(sessions[..|sessions| - 1]);
      if NumberOf(last.id) > rest then NumberOf(last.id) else rest
  }

  /** `next_session_id`. */
  function NextId(sessions: seq<Session>): string
    requires AllIds(sessions)
  { IdOf(Highest(sessions) + 1) }

  lemma {:induction false} HighestCovers(sessions: seq<Session>, s: Session)
    requires AllIds(sessions) && s in sessions
    ensures NumberOf(s.id) <= Highest(sessions)
    decreases |sessions|
  {
    if s != sessions[|sessions| - 1] {
      assert s in sessions[..|sessions| - 1];
      HighestCovers(sessions[..|sessions| - 1], s);
    }
  }

  // ------------------------------------------------------------------------- intervals

  /** An interval of work; no end while it is open. */
  datatype Interval = Interval(start: string, end: Option<string>)

  function Notation(i: Interval): string { "[" + (i.start + ("/" + ((if i.end.Some? then i.end.value else "") + "]"))) }

  function Render(ivs: seq<Interval>): string {
    if ivs == [] then "" else Render(ivs[..|ivs| - 1]) + Notation(ivs[|ivs| - 1])
  }

  /** A timestamp: not empty, none of the interval marks. */
  predicate IsStamp(t: string) { t != "" && forall c | c in t :: c !in "[/]" }

  predicate IsInterval(i: Interval) { IsStamp(i.start) && (i.end.Some? ==> IsStamp(i.end.value)) }

  predicate EndsOpen(text: string) { |text| >= 2 && text[|text| - 2..] == "/]" }

  /** `_close_open_interval`. */
  function CloseText(text: string, at: string): string {
    if EndsOpen(text) then text[..|text| - 2] + ("/" + (at + "]")) else text
  }

  /** The same on the list the text stands for. */
  function CloseLast(ivs: seq<Interval>, at: string): seq<Interval> {
    if ivs == [] || ivs[|ivs| - 1].end.Some? then ivs
    else ivs[..|ivs| - 1] + [ivs[|ivs| - 1].(end := Some(at))]
  }

  function Reopen(text: string, at: string): string {
    if StartsWith(text, "[") then text + ("[" + (at + "/]")) else "[" + (at + "/]")
  }

  lemma RenderSnoc(ivs: seq<Interval>, i: Interval)
    ensures Render(ivs + [i]) == Render(ivs) + Notation(i)
  {
    assert (ivs + [i])[..|ivs|] == ivs;
  }

  lemma OpenNotation(before: string, start: string, at: string)
    ensures var text := before + Notation(Interval(start, None));
      EndsOpen(text) && CloseText(text, at) == before + Notation(Interval(start, Some(at)))
  {
    var text := before + Notation(Interval(start, None));
    var head := before + ("[" + start);
    assert text == head + "/]";
    assert text[|text| - 2..] == "/]" && text[..|text| - 2] == head;
    assert head + ("/" + (at + "]")) == before + ("[" + (start + ("/" + (at + "]"))));
  }

  lemma ClosedNotation(before: string, start: string, end: string)
    requires IsStamp(end)
    ensures !EndsOpen(before + Notation(Interval(start, Some(end))))
  {
    var text := before + Notation(Interval(start, Some(end)));
    assert text == (before + ("[" + (start + "/"))) + (end + "]");
    assert text[|text| - 2] == end[|end| - 1] && end[|end| - 1] in end;
    assert text[|text| - 2..][0] == text[|text| - 2];
  }

  /** Closing the text closes the last interval of the list, when it is open. */
  lemma CloseRefines(ivs: seq<Interval>, at: string)
    requires forall i | i in ivs :: IsInterval(i)
    ensures CloseText(Render(ivs), at) == Render(CloseLast(ivs, at))
  {
    if ivs != [] {
      var init, last := ivs[..|ivs| - 1], ivs[|ivs| - 1];
      assert last in ivs;
      if last.end.Some? {
        ClosedNotation(Render(init), last.start, last.end.value);
      } else {
        OpenNotation(Render(init), last.start, at);
        RenderSnoc(init, last.(end := Some(at)));
      }
    }
  }

  lemma {:induction false} RenderStarts(ivs: seq<Interval>)
    requires ivs != []
    ensures StartsWith(Render(ivs), "[")
    decreases |ivs|
  {
    if |ivs| > 1 {
      RenderStarts(ivs[..|ivs| - 1]);
      assert Render(ivs)[0] == Render(ivs[..|ivs| - 1])[0];
    } else {
      assert Render(ivs[..0]) == "";
    }
    assert Render(ivs)[..1] == [Render(ivs)[0]];
  }

  /** Re-opening adds an open interval to the list. */
  lemma ReopenRefines(ivs: seq<Interval>, at: string)
    ensures Reopen(Render(ivs), at) == Render(ivs + [Interval(at, None)])
  {
    RenderSnoc(ivs, Interval(at, None));
    if ivs != [] {
      RenderStarts(ivs);
    }
    assert "[" + (at + "/]") == Notation(Interval(at, None));
  }

  // ------------------------------------------------------------------------ operations

  function OpenOf(sessions: seq<Session>): seq<Session> {
    if sessions == [] then []
    else
      var last := sessions[|sessions| - 1];
      OpenOf(sessions[..|sessions| - 1]) + if last.state == "open" then [last] else []
  }

  /** The newest open session of an execution. */
  function Current(sessions: seq<Session>, execution: string): Option<Session> {
    if execution == "" || sessions == [] then None
    else
      var last := sessions[|sessions| - 1];
      if last.execution == execution && last.state == "open" then Some(last)
      else Current(sessions[..|sessions| - 1], execution)
  }

  function GetSession(sessions: seq<Session>, id: string): Option<Session> {
    if sessions == [] then None
    else if sessions[0].id == id then Some(sessions[0])
    else GetSession(sessions[1..], id)
  }

  function Origin(intent: string, project: string, scope: string): string { intent + ":" + project + "/" + scope }

  /** The input of a session that has none: the intent it was opened with, if that is stored. */
  function InputOf(s: Session, intent: string): string {
    OrElse(s.input, Origin(if s.intent.Some? then s.intent.value else intent, s.project, s.scope))
  }

  function NewSession(id: string, q: Request): Session {
    Session(id, q.now, "open", q.agent, q.project, q.execution, q.scope, q.blp, "[" + (q.now + "/]"), "",
            Origin("new", q.project, q.scope), "in_progress", "open", "", Some("new"))
  }

  /** `open_session` with a new intent. */
  function DoOpen(sessions: seq<Session>, q: Request): (seq<Session>, Reply)
    requires AllIds(sessions)
  {
    var current := Current(sessions, q.execution);
    if current.Some? then (sessions, Existing(current.value))
    else if OpenOf(sessions) != [] then (sessions, OpenExists(OpenOf(sessions)))
    else
      var s := NewSession(NextId(sessions), q);
      (sessions + [s], Opened(s))
  }

  function Bind(s: Session, q: Request): Session {
    s.(execution := q.execution, agent := q.agent, scope := OrElse(q.scope, s.scope), blp := OrElse(q.blp, s.blp))
  }

  function ReopenSession(s: Session, q: Request): Session {
    Bind(s, q).(state := "open", intervals := Reopen(s.intervals, q.now), closed := "",
      input := InputOf(s, "resumed"), output := "in_progress", outcome := "open")
  }

  function CloseSession(s: Session, now: string, summary: string): Session {
    s.(state := "closed", closed := now, intervals := CloseText(s.intervals, now), summary := summary,
       input := InputOf(s, "new"),
       output := OrElse(summary, "session closed without summary"), outcome := "closed")
  }

  /** The update of every entry named `id`. */
  function Updated(sessions: seq<Session>, id: string, f: Session -> Session): seq<Session> {
    seq(|sessions|, i requires 0 <= i < |sessions| => if sessions[i].id == id then f(sessions[i]) else sessions[i])
  }

  function DoBind(sessions: seq<Session>, id: string, q: Request): (seq<Session>, Reply) {
    if GetSession(sessions, id).None? then (sessions, NotFound) else (Updated(sessions, id, s => Bind(s, q)), Bound)
  }

  function DoReopen(sessions: seq<Session>, id: string, q: Request): (seq<Session>, Reply) {
    if GetSession(sessions, id).None? then (sessions, NotFound) else (Updated(sessions, id, s => ReopenSession(s, q)), Reopened)
  }

  function DoClose(sessions: seq<Session>, id: string, now: string, summary: string): (seq<Session>, Reply) {
    if GetSession(sessions, id).None? then (sessions, NotFound)
    else (Updated(sessions, id, s => CloseSession(s, now, summary)), Closed)
  }

  // --------------------------------------------------------- what a caller can count on

  predicate HasId(sessions: seq<Session>, id: string) { exists s :: s in sessions && s.id == id }

  predicate FirstAt(sessions: seq<Session>, id: string, i: nat) {
    i < |sessions| && sessions[i].id == id && forall k | 0 <= k < i :: sessions[k].id != id
  }

  /** The session that is looked up is the first with the id. */
  lemma {:induction false} FoundIffHeld(sessions: seq<Session>, id: string)
    ensures GetSession(sessions, id).Some? <==> HasId(sessions, id)
    ensures GetSession(sessions, id).Some? ==>
      exists i | 0 <= i < |sessions| :: FirstAt(sessions, id, i) && GetSession(sessions, id).value == sessions[i]
  {
    if sessions != [] {
      FoundIffHeld(sessions[1..], id);
      assert forall i | 0 < i < |sessions| :: sessions[i] == sessions[1..][i - 1];
      if sessions[0].id == id {
        assert sessions[0] in sessions && FirstAt(sessions, id, 0);
      } else if GetSession(sessions, id).Some? {
        var i :| 0 <= i < |sessions[1..]| && FirstAt(sessions[1..], id, i)
          && GetSession(sessions, id).value == sessions[1..][i];
        assert FirstAt(sessions, id, i + 1);
      }
    }
  }

  /** An open session of the execution, when the caller names one. */
  predicate OpenFor(s: Session, execution: string) { execution != "" && s.execution == execution && s.state == "open" }

  /** What the search for an execution finds is the last open session of it, and it finds one if there is one. */
  lemma {:induction false} CurrentIsLast(sessions: seq<Session>, execution: string) returns (k: nat)
    ensures var found := Current(sessions, execution);
      if found.None? then forall i | 0 <= i < |sessions| :: !OpenFor(sessions[i], execution)
      else && k < |sessions| && found.value == sessions[k] && OpenFor(sessions[k], execution)
           && forall i | k < i < |sessions| :: !OpenFor(sessions[i], execution)
    decreases |sessions|
  {
    k := 0;
    if execution != "" && sessions != [] {
      var last := sessions[|sessions| - 1];
      if OpenFor(last, execution) {
        k := |sessions| - 1;
      } else {
        k := CurrentIsLast(sessions[..|sessions| - 1], execution);
      }
    }
  }

  lemma {:induction false} OpenOfFilters(sessions: seq<Session>)
    ensures OpenOf(sessions) == Filtered(sessions, (s: Session) => s.state == "open")
    decreases |sessions|
  {
    if sessions != [] { OpenOfFilters(sessions[..|sessions| - 1]); }
  }

  /** The open sessions, all of them and in order. */
  lemma OpenOfAre(sessions: seq<Session>) returns (at: seq<nat>)
    ensures Picks(sessions, OpenOf(sessions), at)
    ensures forall i: nat | i < |sessions| :: i in at <==> sessions[i].state == "open"
  {
    OpenOfFilters(sessions);
    at := FilteredAre(sessions, (s: Session) => s.state == "open");
  }

  /** The number of a new id is one more than the largest in use. */
  lemma {:induction false} HighestIsHeld(sessions: seq<Session>)
    requires AllIds(sessions)
    ensures Highest(sessions) == 0 || exists s :: s in sessions && NumberOf(s.id) == Highest(sessions)
    decreases |sessions|
  {
    if sessions != [] {
      var init, last := sessions[..|sessions| - 1], sessions[|sessions| - 1];
      assert sessions == init + [last] && last in sessions;
      HighestIsHeld(init);
    }
  }

  predicate Tops(sessions: seq<Session>, n: nat)
    requires AllIds(sessions)
  {
    (forall s | s in sessions :: NumberOf(s.id) <= n) && (n == 0 || exists s :: s in sessions && NumberOf(s.id) == n)
  }

  lemma HighestTops(sessions: seq<Session>)
    requires AllIds(sessions)
    ensures Tops(sessions, Highest(sessions))
  {
    HighestIsHeld(sessions);
    forall s | s in sessions ensures NumberOf(s.id) <= Highest(sessions) {
      HighestCovers(sessions, s);
    }
  }

  /** What a new session says of itself. */
  predicate IsNew(s: Session, q: Request) {
    && s.date == q.now && s.state == "open" && s.agent == q.agent && s.project == q.project
    && s.execution == q.execution && s.scope == q.scope && s.blp == q.blp && s.intervals == "[" + q.now + "/]"
    && s.closed == "" && s.input == "new:" + q.project + "/" + q.scope && s.output == "in_progress"
    && s.outcome == "open" && s.summary == "" && s.intent == Some("new")
  }

  lemma NewIsNew(id: string, q: Request)
    ensures IsNew(NewSession(id, q), q) && NewSession(id, q).id == id
  {
    assert "[" + q.now + "/]" == "[" + (q.now + "/]");
    assert "new" + ":" == "new:";
  }

  /**
   * An opening returns the last open session of the execution, or refuses with all open sessions, or adds
   * one at the end, under the number after the largest.
   */
  lemma OpenEffect(sessions: seq<Session>, q: Request) returns (k: nat, at: seq<nat>)
    requires AllIds(sessions)
    ensures var (after, r) := DoOpen(sessions, q);
      && (r.Existing? || r.OpenExists? || r.Opened?) && (!r.Opened? ==> after == sessions)
      && (r.Existing? <==> exists s :: s in sessions && OpenFor(s, q.execution))
      && (r.Existing? ==>
            && k < |sessions| && r.session == sessions[k] && OpenFor(sessions[k], q.execution)
            && forall i | k < i < |sessions| :: !OpenFor(sessions[i], q.execution))
      && (r.Opened? <==> forall s | s in sessions :: s.state != "open")
      && (r.OpenExists? ==>
            && Picks(sessions, r.open, at)
            && forall i: nat | i < |sessions| :: i in at <==> sessions[i].state == "open")
      && (r.Opened? ==>
            && after == sessions + [r.session] && IsNew(r.session, q)
            && exists n: nat :: Tops(sessions, n) && r.session.id == "SES" + ZeroPad(n + 1, 3))
  {
    k := CurrentIsLast(sessions, q.execution);
    at := OpenOfAre(sessions);
    HighestTops(sessions);
    NewIsNew(NextId(sessions), q);
    OpensOrNot(sessions, at);
  }

  lemma OpensOrNot(sessions: seq<Session>, at: seq<nat>)
    requires Picks(sessions, OpenOf(sessions), at)
    requires forall i: nat | i < |sessions| :: i in at <==> sessions[i].state == "open"
    ensures OpenOf(sessions) == [] <==> forall s | s in sessions :: s.state != "open"
  {
    if OpenOf(sessions) != [] {
      assert at[0] in at && sessions[at[0]] in sessions;
    }
  }

  /** A session that is bound anew changes hands and nothing else. */
  predicate Rebound(before: Session, after: Session, q: Request) {
    && after.execution == q.execution && after.agent == q.agent
    && after.scope == (if q.scope != "" then q.scope else before.scope)
    && after.blp == (if q.blp != "" then q.blp else before.blp)
    && after.state == before.state && after.project == before.project && after.intervals == before.intervals
    && after.closed == before.closed && after.input == before.input && after.output == before.output
    && after.outcome == before.outcome && after.summary == before.summary && after.intent == before.intent
  }

  lemma BindEffect(sessions: seq<Session>, id: string, q: Request)
    ensures var (after, r) := DoBind(sessions, id, q);
      && OnlyNamed(sessions, after, id) && r == (if HasId(sessions, id) then Bound else NotFound)
      && forall i | 0 <= i < |sessions| && sessions[i].id == id :: Rebound(sessions[i], after[i], q)
  {
    FoundIffHeld(sessions, id);
  }

  /** No session comes or goes, every id and date stays, and the others are as they were. */
  predicate OnlyNamed(before: seq<Session>, after: seq<Session>, id: string) {
    && |after| == |before|
    && (forall i | 0 <= i < |before| :: after[i].id == before[i].id && after[i].date == before[i].date)
    && (forall i | 0 <= i < |before| && before[i].id != id :: after[i] == before[i])
  }

  /** The interval text, read as a list, gains an open interval at its end. */
  ghost predicate GainsInterval(before: string, after: string, at: string) {
    forall ivs | before == Render(ivs) :: after == Render(ivs + [Interval(at, None)])
  }

  /** The interval text, read as a list, has its last interval closed if it was open. */
  ghost predicate ClosesInterval(before: string, after: string, at: string) {
    forall ivs | before == Render(ivs) && (forall i | i in ivs :: IsInterval(i)) :: after == Render(CloseLast(ivs, at))
  }

  /** The input stays; a session without one names its intent, or `intent`, with its project and scope. */
  ghost predicate HasInput(before: Session, after: Session, intent: string) {
    if before.input != "" then after.input == before.input
    else
      var stored := if before.intent.Some? then before.intent.value else intent;
      after.input == stored + ":" + before.project + "/" + before.scope
  }

  /** A re-opened session is open, held by the caller, and keeps its project and summary. */
  ghost predicate Resumed(before: Session, after: Session, q: Request) {
    && after.state == "open" && after.closed == "" && after.output == "in_progress" && after.outcome == "open"
    && after.execution == q.execution && after.agent == q.agent
    && after.scope == (if q.scope != "" then q.scope else before.scope)
    && after.blp == (if q.blp != "" then q.blp else before.blp)
    && after.project == before.project && after.summary == before.summary && after.intent == before.intent
    && HasInput(before, after, "resumed")
    && GainsInterval(before.intervals, after.intervals, q.now)
  }

  /** A closed session has its summary and its time of closing, and nobody else's fields change. */
  ghost predicate Ended(before: Session, after: Session, now: string, summary: string) {
    && after.state == "closed" && after.closed == now && after.summary == summary && after.outcome == "closed"
    && after.output == (if summary != "" then summary else "session closed without summary")
    && after.execution == before.execution && after.agent == before.agent && after.project == before.project
    && after.scope == before.scope && after.blp == before.blp && after.intent == before.intent
    && HasInput(before, after, "new")
    && ClosesInterval(before.intervals, after.intervals, now)
  }

  lemma ReopenGains(text: string, at: string)
    ensures GainsInterval(text, Reopen(text, at), at)
  {
    forall ivs | text == Render(ivs) ensures Reopen(text, at) == Render(ivs + [Interval(at, None)]) {
      ReopenRefines(ivs, at);
    }
  }

  lemma CloseCloses(text: string, at: string)
    ensures ClosesInterval(text, CloseText(text, at), at)
  {
    forall ivs | text == Render(ivs) && (forall i | i in ivs :: IsInterval(i))
      ensures CloseText(text, at) == Render(CloseLast(ivs, at)) {
      CloseRefines(ivs, at);
    }
  }

  /** Re-opening by id changes the named session only: it is open again, with one more interval. */
  lemma ReopenEffect(sessions: seq<Session>, id: string, q: Request)
    ensures var (after, r) := DoReopen(sessions, id, q);
      && OnlyNamed(sessions, after, id) && r == (if HasId(sessions, id) then Reopened else NotFound)
      && forall i | 0 <= i < |sessions| && sessions[i].id == id :: Resumed(sessions[i], after[i], q)
  {
    FoundIffHeld(sessions, id);
    forall i | 0 <= i < |sessions| && sessions[i].id == id
      ensures GainsInterval(sessions[i].intervals, ReopenSession(sessions[i], q).intervals, q.now) {
      ReopenGains(sessions[i].intervals, q.now);
    }
  }

  /** Closing by id changes the named session only: it is closed, its last interval too. */
  lemma CloseEffect(sessions: seq<Session>, id: string, now: string, summary: string)
    ensures var (after, r) := DoClose(sessions, id, now, summary);
      && OnlyNamed(sessions, after, id) && r == (if HasId(sessions, id) then Closed else NotFound)
      && forall i | 0 <= i < |sessions| && sessions[i].id == id :: Ended(sessions[i], after[i], now, summary)
  {
    FoundIffHeld(sessions, id);
    forall i | 0 <= i < |sessions| && sessions[i].id == id
      ensures ClosesInterval(sessions[i].intervals, CloseSession(sessions[i], now, summary).intervals, now) {
      CloseCloses(sessions[i].intervals, now);
    }
  }

  /** Re-opening and then closing adds one closed interval to the text, and leaves the rest of it alone. */
  lemma ResumeThenClose(text: string, ivs: seq<Interval>, from: string, to: string)
    requires text == Render(ivs)
    ensures CloseText(Reopen(text, from), to) == Render(ivs + [Interval(from, Some(to))])
  {
    ReopenRefines(ivs, from);
    RenderSnoc(ivs, Interval(from, None));
    RenderSnoc(ivs, Interval(from, Some(to)));
    OpenNotation(Render(ivs), from, to);
  }

  // --------------------------------------------------------------------------- the store

  class SessionStore {
    var sessions: seq<Session>

    constructor (sessions: seq<Session>)
      ensures this.sessions == sessions
    {
      this.sessions := sessions;
    }

    method NextSessionId() returns (id: string)
      requires AllIds(sessions)
      ensures id == NextId(sessions) && forall s | s in sessions :: s.id != id
    {
      var highest := 0;
      for i := 0 to |sessions|
        invariant AllIds(sessions[..i]) && highest == Highest(sessions[..i])
      {
        assert sessions[..i + 1][..i] == sessions[..i] && sessions[i] in sessions;
        highest := if NumberOf(sessions[i].id) > highest then NumberOf(sessions[i].id) else highest;
      }
      assert sessions[..|sessions|] == sessions;
      id := IdOf(highest + 1);
      NumberOfId(highest + 1);
      forall s | s in sessions ensures s.id != id {
        HighestCovers(sessions, s);
      }
    }

    method FindForExecution(execution: string) returns (found: Option<Session>)
      ensures found == Current(sessions, execution)
    {
      if execution == "" {
        return None;
      }
      var rest := sessions;
      while rest != []
        invariant Current(rest, execution) == Current(sessions, execution)
        decreases |rest|
      {
        var last := rest[|rest| - 1];
        if last.execution == execution && last.state == "open" {
          return Some(last);
        }
        rest := rest[..|rest| - 1];
      }
      return None;
    }

    method OpenSession(q: Request) returns (r: Reply)
      requires AllIds(sessions)
      modifies this
      ensures (sessions, r) == DoOpen(old(sessions), q)
    {
      var current := FindForExecution(q.execution);
      if current.Some? {
        return Existing(current.value);
      }
      var open := [];
      for i := 0 to |sessions|
        invariant open == OpenOf(sessions[..i]) && sessions == old(sessions)
      {
        assert sessions[..i + 1][..i] == sessions[..i];
        if sessions[i].state == "open" {
          open := open + [sessions[i]];
        }
      }
      assert sessions[..|sessions|] == sessions;
      if open != [] {
        return OpenExists(open);
      }
      var id := NextSessionId();
      var s := NewSession(id, q);
      sessions := sessions + [s];
      return Opened(s);
    }

    method Rebind(id: string, q: Request) returns (r: Reply)
      modifies this
      ensures (sessions, r) == DoBind(old(sessions), id, q)
    {
      if GetSession(sessions, id).None? {
        return NotFound;
      }
      sessions := Updated(sessions, id, s => Bind(s, q));
      return Bound;
    }

    method ReopenById(id: string, q: Request) returns (r: Reply)
      modifies this
      ensures (sessions, r) == DoReopen(old(sessions), id, q)
      ensures OnlyNamed(old(sessions), sessions, id) && r == (if HasId(old(sessions), id) then Reopened else NotFound)
      ensures forall i | 0 <= i < |sessions| && sessions[i].id == id :: Resumed(old(sessions)[i], sessions[i], q)
    {
      ReopenEffect(sessions, id, q);
      if GetSession(sessions, id).None? {
        return NotFound;
      }
      sessions := Updated(sessions, id, s => ReopenSession(s, q));
      return Reopened;
    }

    method Close(id: string, now: string, summary: string) returns (r: Reply)
      modifies this
      ensures (sessions, r) == DoClose(old(sessions), id, now, summary)
      ensures OnlyNamed(old(sessions), sessions, id) && r == (if HasId(old(sessions), id) then Closed else NotFound)
      ensures forall i | 0 <= i < |sessions| && sessions[i].id == id :: Ended(old(sessions)[i], sessions[i], now, summary)
    {
      CloseEffect(sessions, id, now, summary);
      if GetSession(sessions, id).None? {
        return NotFound;
      }
      sessions := Updated(sessions, id, s => CloseSession(s, now, summary));
      return Closed;
    }
  }
}
