/** Where stamps stop identifying blocks: a stale caller after a purge, and texts that mimic fields. */
module TimelogLimits {
  import opened Text
  import opened TimelogModel
  import opened TimelogFields
  import opened TimelogText
  import opened TimelogRoundTrip
  import opened TimelogStable
  import opened TimelogStore
  import opened TimelogSafe
  import opened TimelogRuns

  // -------------------------------------------------------------- continuing a run

  lemma SingleRun(w: World, session: string, a: Action)
    requires Safe(session, a)
    ensures IsRun([w, Step(w, session, a)], session, [a])
  {
    assert StepsAt([w, Step(w, session, a)], session, [a], 0);
  }

  lemma RunPrefix(ws: seq<World>, session: string, acts: seq<Action>, n: nat)
    requires IsRun(ws, session, acts) && n <= |acts|
    ensures IsRun(ws[..n + 1], session, acts[..n])
  {
    var vs, bs := ws[..n + 1], acts[..n];
    forall k | 0 <= k < n ensures StepsAt(vs, session, bs, k) {
      assert StepsAt(ws, session, acts, k);
    }
  }

  /** A run goes on with what follows from its last state. */
  lemma RunJoin(ws: seq<World>, session: string, acts: seq<Action>, vs: seq<World>, more: seq<Action>)
    requires IsRun(ws, session, acts) && IsRun(vs, session, more) && vs[0] == ws[|acts|]
    ensures IsRun(ws + vs[1..], session, acts + more) && |ws + vs[1..]| == |acts| + |more| + 1
    ensures (ws + vs[1..])[0] == ws[0] && (ws + vs[1..])[|acts| + |more|] == vs[|more|]
  {
    var us, bs := ws + vs[1..], acts + more;
    forall k | 0 <= k < |bs| ensures StepsAt(us, session, bs, k) {
      if k < |acts| {
        assert StepsAt(ws, session, acts, k);
      } else {
        assert StepsAt(vs, session, more, k - |acts|);
        assert us[k] == vs[k - |acts|] && us[k + 1] == vs[k - |acts| + 1];
      }
    }
  }

  // ------------------------------------------------------------ a stale caller after a purge

  /** An update without an expected revision whose write succeeds. */
  function Do(session: string, m: Mutation): Action { Update(session, None, m, false) }

  /** Such an update of a good document of the session is applied. */
  lemma UpdateApplies(w: World, session: string, d: Document, m: Mutation) returns (w': World)
    requires Reads(w.file, d) && Good(d) && d.ses == session && Harmless(m) && Writes(d, m)
    ensures IsRun([w, w'], session, [Do(session, m)])
    ensures Reads(w'.file, After(d, m)) && Good(After(d, m)) && After(d, m).revision == Next(d.revision).value
  {
    w' := Step(w, session, Do(session, m));
    SingleRun(w, session, Do(session, m));
    MutateKeepsRevision(d, m);
    AfterReads(d, m);
    DoApplies(w.file, d, session, m);
  }

  lemma DoApplies(file: Option<string>, d: Document, session: string, m: Mutation)
    requires Reads(file, d) && d.ses == session && Writes(d, m) && Mutate(d, m).document.revision == d.revision
    ensures DoUpdate(file, session, None, m, false).0
         == Some(Serialized(Mutate(d, m).document.(revision := Next(d.revision).value)))
  {}

  /** A good document of the session at revision `n`, without block `id`. */
  predicate Ready(d: Document, session: string, id: string, n: nat) {
    Good(d) && d.ses == session && d.revision == NatToString(n) && id !in d.blocks
  }

  /** And block `other` is open. */
  predicate Busy(d: Document, session: string, id: string, other: string, n: nat) {
    Ready(d, session, id, n) && other in d.blocks && IsOpen(d.blocks[other])
  }

  lemma NextOf(n: nat)
    ensures Next(NatToString(n)) == Some(NatToString(n + 1))
  {
    NatRoundTrip(n);
  }

  lemma ZeroFits()
    ensures Fit("0", [End, State] + OPTIONAL_KEYS) && Fit("1", [End, State] + OPTIONAL_KEYS)
  {
    WordFits("0", [End, State] + OPTIONAL_KEYS);
    WordFits("1", [End, State] + OPTIONAL_KEYS);
  }

  lemma OpenHarmless(ref: string, start: string)
    requires start == "0" || start == "1"
    ensures Harmless(OpenBlock(ref, start)) && Harmless(Touch(start))
  {
    ZeroFits();
    StateWords();
    WordFits("open", OPTIONAL_KEYS);
    WordFits("", OPTIONAL_KEYS);
    CleanEmpty();
    assert forall k | k in [Note, Auth, Revision] :: k in [End, State] + OPTIONAL_KEYS;
    assert forall k | k in OPTIONAL_KEYS :: k in [End, State] + OPTIONAL_KEYS;
    WordFits("", [State] + OPTIONAL_KEYS);
    WordFits("", [Auth, LastActivity, Revision]);
    WordFits("", [Note, LastActivity, Revision]);
  }

  /** Opening a block of the session's file stamps it with the next revision. */
  lemma OpenStep(w: World, d: Document, session: string, id: string, ref: string, start: string, n: nat)
      returns (w': World, e: Document)
    requires Reads(w.file, d) && Ready(d, session, id, n)
    requires IsName(ref) && ref !in d.blocks && (start == "0" || start == "1")
    ensures IsRun([w, w'], session, [Do(session, OpenBlock(ref, start))])
    ensures Reads(w'.file, e) && ref in e.blocks && e.blocks[ref].revision == NatToString(n + 1) && e.blocks[ref].start == start
    ensures ref != id ==> Busy(e, session, id, ref, n + 1)
  {
    EntryNames(ref);
    OpenHarmless(ref, start);
    NextOf(n);
    OpenAfter(d, ref, start);
    w' := UpdateApplies(w, session, d, OpenBlock(ref, start));
    e := After(d, OpenBlock(ref, start));
  }

  lemma OpenAfter(d: Document, ref: string, start: string)
    requires EntryName(ref) == ref && ref !in d.blocks && Next(d.revision).Some?
    ensures Writes(d, OpenBlock(ref, start))
    ensures var e := After(d, OpenBlock(ref, start));
      && ref in e.blocks && e.blocks[ref].start == start && e.blocks[ref].revision == Next(d.revision).value
      && IsOpen(e.blocks[ref]) && e.blocks.Keys == d.blocks.Keys + {ref} && e.ses == d.ses
  {}

  lemma TouchAfter(d: Document, other: string, at: string)
    requires other in d.blocks && IsOpen(d.blocks[other]) && Next(d.revision).Some?
    ensures Writes(d, Touch(at))
    ensures var e := After(d, Touch(at));
      other in e.blocks && IsOpen(e.blocks[other]) && e.blocks.Keys == d.blocks.Keys && e.ses == d.ses
  {}

  lemma TouchStep(w: World, d: Document, session: string, id: string, other: string, n: nat) returns (w': World, e: Document)
    requires Reads(w.file, d) && Busy(d, session, id, other, n)
    ensures IsRun([w, w'], session, [Do(session, Touch("0"))]) && Reads(w'.file, e) && Busy(e, session, id, other, n + 1)
  {
    OpenHarmless(id, "0");
    NextOf(n);
    TouchAfter(d, other, "0");
    w' := UpdateApplies(w, session, d, Touch("0"));
    e := After(d, Touch("0"));
  }

  function Touches(session: string, n: nat): (acts: seq<Action>)
    ensures |acts| == n && forall a | a in acts :: a == Do(session, Touch("0"))
  { seq(n, j => Do(session, Touch("0"))) }

  lemma {:induction false} TouchRun(w: World, d: Document, session: string, id: string, other: string, n: nat, more: nat)
      returns (vs: seq<World>, last: World, e: Document)
    requires Reads(w.file, d) && Busy(d, session, id, other, n)
    ensures IsRun(vs, session, Touches(session, more)) && vs[0] == w && vs[more] == last
    ensures Reads(last.file, e) && Busy(e, session, id, other, n + more)
    decreases more
  {
    if more == 0 {
      vs, last, e := [w], w, d;
    } else {
      var w', d' := TouchStep(w, d, session, id, other, n);
      vs, last, e := TouchRun(w', d', session, id, other, n + 1, more - 1);
      vs := TouchFirst(w, w', session, vs, more);
    }
  }

  lemma TouchFirst(w: World, w': World, session: string, tail: seq<World>, more: nat) returns (vs: seq<World>)
    requires more > 0 && IsRun([w, w'], session, [Do(session, Touch("0"))])
    requires IsRun(tail, session, Touches(session, more - 1)) && tail[0] == w'
    ensures IsRun(vs, session, Touches(session, more)) && vs[0] == w && vs[more] == tail[more - 1]
  {
    RunJoin([w, w'], session, [Do(session, Touch("0"))], tail, Touches(session, more - 1));
    assert [Do(session, Touch("0"))] + Touches(session, more - 1) == Touches(session, more);
    vs := [w, w'] + tail[1..];
  }

  /** Updates that bring a new file to revision `v` and open block `id` there. */
  function Path(session: string, id: string, other: string, start: string, v: nat): seq<Action>
    requires v >= 2
  {
    (if v == 2 then [] else [Do(session, OpenBlock(other, "0"))] + Touches(session, v - 3))
    + [Do(session, OpenBlock(id, start))]
  }

  /** At the end of the path the block has stamp `v` and the new start. */
  lemma PathRun(w: World, d: Document, session: string, id: string, other: string, start: string, v: nat)
      returns (vs: seq<World>, last: World, e: Document)
    requires Reads(w.file, d) && Ready(d, session, id, 1) && d.blocks == map[] && v >= 2
    requires IsName(id) && IsName(other) && other != id && (start == "0" || start == "1")
    ensures IsRun(vs, session, Path(session, id, other, start, v)) && vs[0] == w && vs[|vs| - 1] == last
    ensures Reads(last.file, e) && id in e.blocks && e.blocks[id].revision == NatToString(v) && e.blocks[id].start == start
  {
    if v == 2 {
      last, e := OpenStep(w, d, session, id, id, start, 1);
      assert Path(session, id, other, start, v) == [Do(session, OpenBlock(id, start))];
      vs := [w, last];
    } else {
      var ts, w2, d2 := BusyRun(w, d, session, id, other, v - 3);
      last, e := OpenStep(w2, d2, session, id, id, start, v - 1);
      vs := LongPath(ts, w2, last, session, id, other, start, v);
    }
  }

  lemma BusyRun(w: World, d: Document, session: string, id: string, other: string, more: nat)
      returns (ts: seq<World>, last: World, e: Document)
    requires Reads(w.file, d) && Ready(d, session, id, 1) && d.blocks == map[] && IsName(other) && other != id
    ensures IsRun(ts, session, [Do(session, OpenBlock(other, "0"))] + Touches(session, more))
    ensures ts[0] == w && ts[|ts| - 1] == last && Reads(last.file, e) && Ready(e, session, id, more + 2)
  {
    var w1, d1 := OpenStep(w, d, session, id, other, "0", 1);
    var us;
    us, last, e := TouchRun(w1, d1, session, id, other, 2, more);
    ts := Joined([w, w1], session, [Do(session, OpenBlock(other, "0"))], us, Touches(session, more));
  }

  lemma Joined(ws: seq<World>, session: string, acts: seq<Action>, vs: seq<World>, more: seq<Action>) returns (us: seq<World>)
    requires IsRun(ws, session, acts) && IsRun(vs, session, more) && vs[0] == ws[|acts|]
    ensures IsRun(us, session, acts + more) && us[0] == ws[0] && us[|us| - 1] == vs[|vs| - 1]
  {
    RunJoin(ws, session, acts, vs, more);
    us := ws + vs[1..];
  }

  lemma LongPath(
      ts: seq<World>, w2: World, last: World, session: string, id: string, other: string, start: string, v: nat)
      returns (vs: seq<World>)
    requires v > 2 && IsRun(ts, session, [Do(session, OpenBlock(other, "0"))] + Touches(session, v - 3))
    requires ts[|ts| - 1] == w2 && IsRun([w2, last], session, [Do(session, OpenBlock(id, start))])
    ensures IsRun(vs, session, Path(session, id, other, start, v)) && vs[0] == ts[0] && vs[|vs| - 1] == last
  {
    var before := [Do(session, OpenBlock(other, "0"))] + Touches(session, v - 3);
    vs := Joined(ts, session, before, [w2, last], [Do(session, OpenBlock(id, start))]);
  }

  lemma PathUpdates(session: string, id: string, other: string, start: string, v: nat)
    requires v >= 2
    ensures forall a | a in Path(session, id, other, start, v) :: a.Update?
  {}

  /** What a stale caller writes after a purge. */
  lemma RevivedAt(ws: seq<World>, session: string, acts: seq<Action>, j: nat, id: string) returns (d: Document)
    requires IsRun(ws, session, acts) && j < |acts| && Stale(ws[j], acts[j])
    ensures Reads(ws[j + 1].file, d) && Ready(d, session, id, 1) && d.blocks == map[]
  {
    assert StepsAt(ws, session, acts, j);
    var created := NewDocument(acts[j].project, session, acts[j].openedAt);
    NewIsBounded(created);
    assert NatToString(1) == "1";
    d := Normal(created);
  }

  lemma CarriedName(ws: seq<World>, session: string, acts: seq<Action>, i: nat, id: string, stamp: string)
    requires IsRun(ws, session, acts) && Inv(ws[0]) && i < |ws| && Carries(ws[i], id, stamp)
    ensures IsName(id)
  {
    RunInv(ws, session, acts, i);
    assert id in FitBlocks(Doc(ws[i]).blocks);
  }

  /**
   * The condition of `StampsIdentify` is exact: once a stale caller has revived the file after
   * a block was stamped by a write, updates alone lead to a state where the same id carries
   * the same stamp with another start.
   */
  lemma RevivalRepeatsStamps(ws: seq<World>, session: string, acts: seq<Action>, i: nat, j: nat, id: string, v: nat)
      returns (vs: seq<World>, more: seq<Action>)
    requires IsRun(ws, session, acts) && Inv(ws[0]) && i <= j < |acts| && Stale(ws[j], acts[j])
    requires v >= 2 && Carries(ws[i], id, NatToString(v))
    ensures IsRun(vs, session, acts[..j + 1] + more) && vs[..j + 2] == ws[..j + 2]
    ensures forall a | a in more :: a.Update?
    ensures var last := vs[|vs| - 1];
      Carries(last, id, NatToString(v)) && Doc(last).blocks[id].start != Doc(ws[i]).blocks[id].start
  {
    CarriedName(ws, session, acts, i, id, NatToString(v));
    var d := RevivedAt(ws, session, acts, j, id);
    var start := if Doc(ws[i]).blocks[id].start == "0" then "1" else "0";
    var other := if id == "a" then "b" else "a";
    more := Path(session, id, other, start, v);
    PathUpdates(session, id, other, start, v);
    var tail, last, e := PathRun(ws[j + 1], d, session, id, other, start, v);
    vs := Continued(ws, session, acts, j, tail, more);
  }

  lemma Continued(ws: seq<World>, session: string, acts: seq<Action>, j: nat, tail: seq<World>, more: seq<Action>)
      returns (vs: seq<World>)
    requires IsRun(ws, session, acts) && j < |acts| && IsRun(tail, session, more) && tail[0] == ws[j + 1]
    ensures IsRun(vs, session, acts[..j + 1] + more) && |vs| >= j + 2 && vs[..j + 2] == ws[..j + 2]
    ensures vs[|vs| - 1] == tail[|tail| - 1]
  {
    RunPrefix(ws, session, acts, j + 1);
    RunJoin(ws[..j + 2], session, acts[..j + 1], tail, more);
    vs := ws[..j + 2] + tail[1..];
  }
}
