/** Session identity over runs; the resume path decides before it takes the lock. */
module SessionRuns {
  import opened Text
  import opened SessionIdentity

  /** The entries, and what each resuming caller found before it locked. */
  datatype World = World(sessions: seq<Session>, looked: map<nat, Look>)

  datatype Look = Look(id: string, wasOpen: bool)

  datatype Action =
    | Open(request: Request)
    | LookUp(caller: nat, id: string)
    | Resume(caller: nat, request: Request)
    | Close(id: string, now: string, summary: string)

  predicate Enabled(w: World, a: Action) {
    match a
    case Open(q) => IsStamp(q.now) && AllIds(w.sessions)
    case LookUp(_, id) => GetSession(w.sessions, id).Some?
    case Resume(caller, q) => caller in w.looked && IsStamp(q.now)
    case Close(_, now, _) => IsStamp(now)
  }

  function Step(w: World, a: Action): World
    requires Enabled(w, a)
  {
    match a
    case Open(q) => w.(sessions := DoOpen(w.sessions, q).0)
    case LookUp(caller, id) => w.(looked := w.looked[caller := Look(id, GetSession(w.sessions, id).value.state == "open")])
    case Resume(caller, q) =>
      var look := w.looked[caller];
      var after := if look.wasOpen then DoBind(w.sessions, look.id, q).0 else DoReopen(w.sessions, look.id, q).0;
      World(after, w.looked - {caller})
    case Close(id, now, summary) => w.(sessions := DoClose(w.sessions, id, now, summary).0)
  }

  // ------------------------------------------------------------------------ identity

  /** Valid ids, each larger than those before it. */
  ghost predicate Ordered(sessions: seq<Session>) {
    && AllIds(sessions)
    && forall i, j | 0 <= i < j < |sessions| ::
         IsSessionId(sessions[i].id) && IsSessionId(sessions[j].id) && NumberOf(sessions[i].id) < NumberOf(sessions[j].id)
  }

  /** `b` extends `a` and changed no session's id or original date. */
  ghost predicate SameIdentities(a: seq<Session>, b: seq<Session>) {
    |a| <= |b| && forall i | 0 <= i < |a| :: a[i].id == b[i].id && a[i].date == b[i].date
  }

  lemma OpenKeepsOrder(sessions: seq<Session>, q: Request)
    requires Ordered(sessions)
    ensures Ordered(DoOpen(sessions, q).0)
  {
    NumberOfId(Highest(sessions) + 1);
    forall i | 0 <= i < |sessions|
      ensures IsSessionId(sessions[i].id) && NumberOf(sessions[i].id) <= Highest(sessions) {
      HighestCovers(sessions, sessions[i]);
    }
    OrderedSnoc(sessions, NewSession(NextId(sessions), q));
    OpenOutcome(sessions, q);
  }

  lemma OrderedSnoc(sessions: seq<Session>, s: Session)
    requires Ordered(sessions) && IsSessionId(s.id)
    requires forall i | 0 <= i < |sessions| :: IsSessionId(sessions[i].id) && NumberOf(sessions[i].id) < NumberOf(s.id)
    ensures Ordered(sessions + [s])
  {}

  lemma OpenOutcome(sessions: seq<Session>, q: Request)
    requires AllIds(sessions)
    ensures DoOpen(sessions, q).0 in [sessions, sessions + [NewSession(NextId(sessions), q)]]
  {}

  lemma UpdateKeepsOrder(a: seq<Session>, b: seq<Session>)
    requires Ordered(a) && |a| == |b| && forall i | 0 <= i < |a| :: a[i].id == b[i].id
    ensures Ordered(b)
  {
    forall s | s in b ensures IsSessionId(s.id) {
      var i :| 0 <= i < |b| && b[i] == s;
      assert a[i] in a;
    }
  }

  lemma StepIdentities(w: World, a: Action)
    requires Ordered(w.sessions) && Enabled(w, a)
    ensures Ordered(Step(w, a).sessions) && SameIdentities(w.sessions, Step(w, a).sessions)
  {
    match a {
      case Open(q) => OpenKeepsOrder(w.sessions, q);
      case _ =>
        UpdateStep(w, a);
        UpdateKeepsOrder(w.sessions, Step(w, a).sessions);
    }
  }

  /** Everything but a new open rewrites entries in place. */
  lemma UpdateStep(w: World, a: Action)
    requires Enabled(w, a) && !a.Open?
    ensures |Step(w, a).sessions| == |w.sessions| && SameIdentities(w.sessions, Step(w, a).sessions)
  {}

  ghost predicate IsRun(ws: seq<World>, acts: seq<Action>) {
    && |ws| == |acts| + 1
    && forall k | 0 <= k < |acts| :: Enabled(ws[k], acts[k]) && ws[k + 1] == Step(ws[k], acts[k])
  }

  /** Ids only grow, none is reused, and no session's id or original date ever changes. */
  lemma {:induction false} IdentityIsPermanent(ws: seq<World>, acts: seq<Action>, i: nat, k: nat)
    requires IsRun(ws, acts) && Ordered(ws[0].sessions) && i <= k < |ws|
    ensures Ordered(ws[k].sessions) && SameIdentities(ws[i].sessions, ws[k].sessions)
    decreases k
  {
    if k > 0 {
      IdentityIsPermanent(ws, acts, if i < k then i else k - 1, k - 1);
      StepIdentities(ws[k - 1], acts[k - 1]);
    }
  }

  lemma IdsDiffer(ws: seq<World>, acts: seq<Action>, k: nat, i: nat, j: nat)
    requires IsRun(ws, acts) && Ordered(ws[0].sessions) && k < |ws| && i < j < |ws[k].sessions|
    ensures ws[k].sessions[i].id != ws[k].sessions[j].id
  {
    IdentityIsPermanent(ws, acts, k, k);
  }

  // ------------------------------------------------------------------------ one open

  predicate IsOpen(s: Session) { s.state == "open" }

  ghost predicate AtMostOneOpen(sessions: seq<Session>) {
    forall i, j | 0 <= i < j < |sessions| :: !(IsOpen(sessions[i]) && IsOpen(sessions[j]))
  }

  lemma {:induction false} NoneOpen(sessions: seq<Session>)
    ensures OpenOf(sessions) == [] <==> forall i | 0 <= i < |sessions| :: !IsOpen(sessions[i])
    decreases |sessions|
  {
    if sessions != [] {
      var init := sessions[..|sessions| - 1];
      NoneOpen(init);
      assert forall i | 0 <= i < |init| :: init[i] == sessions[i];
    }
  }

  /** New opens and closes, however they interleave, never leave two sessions open. */
  lemma {:induction false} OpensExclude(ws: seq<World>, acts: seq<Action>, k: nat)
    requires IsRun(ws, acts) && AtMostOneOpen(ws[0].sessions) && k < |ws|
    requires forall j | 0 <= j < k :: !acts[j].Resume?
    ensures AtMostOneOpen(ws[k].sessions)
  {
    if k > 0 {
      OpensExclude(ws, acts, k - 1);
      NoneOpen(ws[k - 1].sessions);
    }
  }

  /** A re-opening leaves at most one session open exactly when no other one was. */
  lemma ReopenExcludesIff(sessions: seq<Session>, at: nat, q: Request)
    requires Ordered(sessions) && at < |sessions|
    ensures AtMostOneOpen(DoReopen(sessions, sessions[at].id, q).0)
      <==> forall i | 0 <= i < |sessions| && i != at :: !IsOpen(sessions[i])
  {
    GetFinds(sessions, at);
    var after := DoReopen(sessions, sessions[at].id, q).0;
    forall i | 0 <= i < |sessions| ensures IsOpen(after[i]) <==> i == at || IsOpen(sessions[i]) {
      assert i < at || i == at || at < i;
    }
    if AtMostOneOpen(after) {
      forall i | 0 <= i < |sessions| && i != at ensures !IsOpen(sessions[i]) {
        assert i < at || at < i;
        assert IsOpen(after[at]);
      }
    }
  }

  lemma GetFinds(sessions: seq<Session>, at: nat)
    requires at < |sessions|
    ensures GetSession(sessions, sessions[at].id).Some?
  {
    FoundIffHeld(sessions, sessions[at].id);
    assert sessions[at] in sessions;
  }

  // ------------------------------------------------------------------------ intervals

  /** The interval text: all but the last closed, the last open exactly while the session is. */
  predicate Spells(s: Session, ivs: seq<Interval>) {
    && s.intervals == Render(ivs) && ivs != [] && (forall i | i in ivs :: IsInterval(i))
    && (forall i | 0 <= i < |ivs| - 1 :: ivs[i].end.Some?)
    && (ivs[|ivs| - 1].end.None? <==> IsOpen(s))
  }

  ghost predicate Tidy(s: Session) { exists ivs :: Spells(s, ivs) }

  ghost predicate AllTidy(sessions: seq<Session>) { forall i | 0 <= i < |sessions| :: Tidy(sessions[i]) }

  lemma NewIsTidy(id: string, q: Request)
    requires IsStamp(q.now)
    ensures Tidy(NewSession(id, q))
  {
    var ivs := [Interval(q.now, None)];
    assert ivs[..0] == [] && Render(ivs[..0]) == "";
    assert Render(ivs) == "" + Notation(ivs[0]);
    assert "[" + (q.now + "/]") == Notation(ivs[0]);
    assert Spells(NewSession(id, q), ivs);
  }

  lemma CloseIsTidy(s: Session, now: string, summary: string)
    requires Tidy(s) && IsStamp(now)
    ensures Tidy(CloseSession(s, now, summary))
  {
    var ivs :| Spells(s, ivs);
    CloseRefines(ivs, now);
    CloseLastSpells(ivs, now);
    assert Spells(CloseSession(s, now, summary), CloseLast(ivs, now));
  }

  lemma CloseLastSpells(ivs: seq<Interval>, now: string)
    requires ivs != [] && IsStamp(now) && forall i | i in ivs :: IsInterval(i)
    requires forall i | 0 <= i < |ivs| - 1 :: ivs[i].end.Some?
    ensures var after := CloseLast(ivs, now);
      && |after| == |ivs| && (forall i | i in after :: IsInterval(i)) && forall i | 0 <= i < |after| :: after[i].end.Some?
  {
    var init, last := ivs[..|ivs| - 1], ivs[|ivs| - 1];
    assert last in ivs && ivs == init + [last];
    assert forall i | i in init :: i in ivs;
  }

  lemma ReopenIsTidy(s: Session, q: Request)
    requires Tidy(s) && !IsOpen(s) && IsStamp(q.now)
    ensures Tidy(ReopenSession(s, q))
  {
    var ivs :| Spells(s, ivs);
    ReopenSpells(s, q, ivs);
  }

  lemma ReopenSpells(s: Session, q: Request, ivs: seq<Interval>)
    requires Spells(s, ivs) && !IsOpen(s) && IsStamp(q.now)
    ensures Spells(ReopenSession(s, q), ivs + [Interval(q.now, None)])
  {
    ReopenRefines(ivs, q.now);
  }

  lemma BindIsTidy(s: Session, q: Request)
    requires Tidy(s)
    ensures Tidy(Bind(s, q))
  {
    var ivs :| Spells(s, ivs);
    assert Spells(Bind(s, q), ivs);
  }

  /** Every resume acts on what it has just looked up. */
  ghost predicate Sequential(acts: seq<Action>) {
    forall k | 0 <= k < |acts| && acts[k].Resume? ::
      k > 0 && acts[k - 1].LookUp? && acts[k - 1].caller == acts[k].caller
  }

  lemma GetIsIt(sessions: seq<Session>, at: nat)
    requires Ordered(sessions) && at < |sessions|
    ensures GetSession(sessions, sessions[at].id) == Some(sessions[at])
  {
    GetFinds(sessions, at);
    FoundIffHeld(sessions, sessions[at].id);
    var i :| 0 <= i < |sessions| && sessions[i].id == sessions[at].id
      && GetSession(sessions, sessions[at].id).value == sessions[i];
    assert i < at || i == at || at < i;
  }

  lemma ResumeKeepsTidy(w: World, caller: nat, q: Request)
    requires Ordered(w.sessions) && AllTidy(w.sessions) && Enabled(w, Resume(caller, q))
    requires var look := w.looked[caller];
      GetSession(w.sessions, look.id).Some? && (look.wasOpen <==> IsOpen(GetSession(w.sessions, look.id).value))
    ensures AllTidy(Step(w, Resume(caller, q)).sessions)
  {
    var look, after := w.looked[caller], Step(w, Resume(caller, q)).sessions;
    forall i | 0 <= i < |after| ensures Tidy(after[i]) {
      if w.sessions[i].id == look.id {
        GetIsIt(w.sessions, i);
        if look.wasOpen {
          BindIsTidy(w.sessions[i], q);
        } else {
          ReopenIsTidy(w.sessions[i], q);
        }
      }
    }
  }

  lemma OpenKeepsTidy(w: World, q: Request)
    requires AllTidy(w.sessions) && Enabled(w, Open(q))
    ensures AllTidy(Step(w, Open(q)).sessions)
  {
    NewIsTidy(NextId(w.sessions), q);
  }

  lemma CloseKeepsTidy(w: World, id: string, now: string, summary: string)
    requires AllTidy(w.sessions) && IsStamp(now)
    ensures AllTidy(Step(w, Close(id, now, summary)).sessions)
  {
    var after := Step(w, Close(id, now, summary)).sessions;
    forall i | 0 <= i < |after| ensures Tidy(after[i]) {
      CloseIsTidy(w.sessions[i], now, summary);
    }
  }

  /** In sequential runs a session's intervals are closed but the last, which is open exactly while it is. */
  lemma {:induction false} IntervalsStayTidy(ws: seq<World>, acts: seq<Action>, k: nat)
    requires IsRun(ws, acts) && Ordered(ws[0].sessions) && AllTidy(ws[0].sessions) && Sequential(acts) && k < |ws|
    ensures AllTidy(ws[k].sessions)
  {
    if k > 0 {
      IntervalsStayTidy(ws, acts, k - 1);
      IdentityIsPermanent(ws, acts, k - 1, k - 1);
      var w := ws[k - 1];
      match acts[k - 1] {
        case Open(q) => OpenKeepsTidy(w, q);
        case LookUp(caller, id) =>
        case Resume(caller, q) =>
          assert acts[k - 2].LookUp? && ws[k - 1] == Step(ws[k - 2], acts[k - 2]);
          ResumeKeepsTidy(w, caller, q);
        case Close(id, now, summary) => CloseKeepsTidy(w, id, now, summary);
      }
    }
  }

  /** Two callers that look before either acts open the same session twice over. */
  lemma RacingResumesDoubleOpen(s: Session, q: Request)
    requires IsSessionId(s.id) && Spells(s, [Interval("a", Some("b"))]) && q.now == "c"
    ensures exists ws: seq<World>, acts: seq<Action> ::
              && IsRun(ws, acts) && |ws| == 5 && ws[0] == World([s], map[])
              && |ws[4].sessions| == 1 && ws[4].sessions[0].intervals == "[a/b][c/][c/]"
  {
    var acts := [LookUp(0, s.id), LookUp(1, s.id), Resume(0, q), Resume(1, q)];
    var t := ReopenSession(s, q);
    var w0 := World([s], map[]);
    var w1 := LookOne(w0, 0, s);
    var w2 := LookOne(w1, 1, s);
    var w3 := ResumeOne(w2, 0, s, q);
    var w4 := ResumeOne(w3, 1, t, q);
    RaceTexts(s, q);
    FourSteps(w0, w1, w2, w3, w4, acts);
  }

  /** What the race leaves of the interval text. */
  lemma RaceTexts(s: Session, q: Request)
    requires Spells(s, [Interval("a", Some("b"))]) && q.now == "c"
    ensures ReopenSession(ReopenSession(s, q), q).intervals == "[a/b][c/][c/]"
  {
    var ivs := [Interval("a", Some("b"))];
    assert ivs[..0] == [] && Render(ivs[..0]) == "";
    assert s.intervals == "[a/b]";
    assert ReopenSession(s, q).intervals == "[a/b][c/]";
  }

  lemma FourSteps(w0: World, w1: World, w2: World, w3: World, w4: World, acts: seq<Action>)
    requires |acts| == 4 && Enabled(w0, acts[0]) && w1 == Step(w0, acts[0]) && Enabled(w1, acts[1]) && w2 == Step(w1, acts[1])
    requires Enabled(w2, acts[2]) && w3 == Step(w2, acts[2]) && Enabled(w3, acts[3]) && w4 == Step(w3, acts[3])
    ensures IsRun([w0, w1, w2, w3, w4], acts)
  {}

  /** A caller looks at the only session, which is closed. */
  lemma LookOne(w: World, caller: nat, s: Session) returns (w': World)
    requires w.sessions == [s] && !IsOpen(s)
    ensures Enabled(w, LookUp(caller, s.id)) && w' == Step(w, LookUp(caller, s.id))
    ensures w' == World([s], w.looked[caller := Look(s.id, false)])
  {
    assert GetSession([s], s.id) == Some(s);
    w' := World([s], w.looked[caller := Look(s.id, false)]);
  }

  /** A caller that found the only session closed re-opens it, whatever it is by then. */
  lemma ResumeOne(w: World, caller: nat, s: Session, q: Request) returns (w': World)
    requires w.sessions == [s] && caller in w.looked && w.looked[caller] == Look(s.id, false) && IsStamp(q.now)
    ensures Enabled(w, Resume(caller, q)) && w' == Step(w, Resume(caller, q))
    ensures w' == World([ReopenSession(s, q)], w.looked - {caller})
  {
    assert GetSession([s], s.id) == Some(s);
    w' := World([ReopenSession(s, q)], w.looked - {caller});
  }
}
