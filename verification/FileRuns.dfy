/** Read-modify-write bodies under the locks of `concurrency.py`, over every interleaving. */
module FileRuns {
  import opened Text
  import opened FileLock

  datatype Commit<!C> = Commit(thread: Thread, op: C -> C)

  /** The locks with every content the file has had; the last one is on disk. */
  datatype World<!C> = World(locks: Locks<C>, history: seq<C>, commits: seq<Commit<C>>)

  datatype Action<!C> =
    | Enter(t: Thread, plain: bool)
    | Try(t: Thread)
    | Timeout(t: Thread)
    | Unlock(t: Thread)
    | Leave(t: Thread)
    | Crash(process: nat)
    | Read(t: Thread)
    | Write(t: Thread, op: C -> C)

  function Begin<C>(content: C): World<C> { World(Locks(map[], map[], map[], None), [content], []) }

  predicate Enabled<C>(w: World<C>, a: Action<C>) {
    match a
    case Enter(t, _) => Stack(w.locks, t) == [] || At(Stack(w.locks, t), Inside)
    case Try(t) => At(Stack(w.locks, t), Locking)
    case Timeout(t) => At(Stack(w.locks, t), Locking)
    case Unlock(t) => At(Stack(w.locks, t), Inside)
    case Leave(t) => At(Stack(w.locks, t), Leaving)
    case Crash(_) => true
    case Read(t) => At(Stack(w.locks, t), Inside) && w.history != []
    case Write(t, _) => At(Stack(w.locks, t), Inside) && Top(Stack(w.locks, t)).read.Some?
  }

  function DoRead<C>(w: World<C>, t: Thread): World<C>
    requires At(Stack(w.locks, t), Inside) && w.history != []
  {
    var seen := Some(Snapshot(w.history[|w.history| - 1], |w.commits|));
    w.(locks := SetRead(w.locks, t, seen))
  }

  function SetRead<C>(l: Locks<C>, t: Thread, read: Option<Snapshot<C>>): Locks<C>
    requires At(Stack(l, t), Inside)
  { l.(stacks := l.stacks[t := Retop(Stack(l, t), Top(Stack(l, t)).(read := read))]) }

  function DoWrite<C>(w: World<C>, t: Thread, op: C -> C): World<C>
    requires At(Stack(w.locks, t), Inside) && Top(Stack(w.locks, t)).read.Some?
  {
    var seen := Top(Stack(w.locks, t)).read.value;
    World(SetRead(w.locks, t, None), w.history + [op(seen.text)], w.commits + [Commit(t, op)])
  }

  function Step<C>(w: World<C>, a: Action<C>): World<C>
    requires Enabled(w, a)
  {
    match a
    case Enter(t, plain) => w.(locks := DoEnter(w.locks, t, plain))
    case Try(t) => w.(locks := DoTry(w.locks, t))
    case Timeout(t) => w.(locks := DoTimeout(w.locks, t))
    case Unlock(t) => w.(locks := DoUnlock(w.locks, t))
    case Leave(t) => w.(locks := DoLeave(w.locks, t))
    case Crash(process) => w.(locks := DoCrash(w.locks, process))
    case Read(t) => DoRead(w, t)
    case Write(t, op) => DoWrite(w, t, op)
  }

  // ----------------------------------------------------------------------- invariant

  /** A snapshot is what the file held then, and only its own thread committed since. */
  ghost predicate Fits<C>(w: World<C>, t: Thread, seen: Snapshot<C>) {
    && seen.at < |w.history| && |w.history| == |w.commits| + 1 && seen.text == w.history[seen.at]
    && forall k | seen.at <= k < |w.commits| :: w.commits[k].thread == t
  }

  ghost predicate SnapshotsFit<C>(w: World<C>, t: Thread, s: seq<Frame<C>>) {
    forall i | 0 <= i < |s| && s[i].read.Some? :: s[i].phase.Inside? && Fits(w, t, s[i].read.value)
  }

  ghost predicate Inv<C(!new)>(w: World<C>) {
    && LocksInv(w.locks) && |w.history| == |w.commits| + 1
    && forall t: Thread :: SnapshotsFit(w, t, Stack(w.locks, t))
  }

  lemma SetReadKeeps<C>(l: Locks<C>, t: Thread, read: Option<Snapshot<C>>)
    requires LocksInv(l) && At(Stack(l, t), Inside)
    ensures LocksInv(SetRead(l, t, read))
  {
    assert Agrees(l, t);
    var s := Stack(l, t);
    var f := Top(s).(read := read);
    Replaced(s, f);
    RetopKeeps(l, SetRead(l, t, read), t, f);
  }

  lemma LocksStepKeeps<C>(w: World<C>, a: Action<C>)
    requires LocksInv(w.locks) && Enabled(w, a)
    ensures LocksInv(Step(w, a).locks)
  {
    match a {
      case Enter(t, plain) => EnterKeeps(w.locks, t, plain);
      case Try(t) => TryKeeps(w.locks, t);
      case Timeout(t) => TimeoutKeeps(w.locks, t);
      case Unlock(t) => UnlockKeeps(w.locks, t);
      case Leave(t) => LeaveKeeps(w.locks, t);
      case Crash(process) => CrashKeeps(w.locks, process);
      case Read(t) => SetReadKeeps(w.locks, t, Some(Snapshot(w.history[|w.history| - 1], |w.commits|)));
      case Write(t, op) => SetReadKeeps(w.locks, t, None);
    }
  }

  /** Lock steps bring no snapshot and move none out of its body. */
  lemma LockStepSnapshots<C>(w: World<C>, a: Action<C>, u: Thread)
    requires Enabled(w, a) && !a.Read? && !a.Write? && SnapshotsFit(w, u, Stack(w.locks, u))
    ensures SnapshotsFit(Step(w, a), u, Stack(Step(w, a).locks, u))
  {}

  lemma ReadSnapshots<C>(w: World<C>, t: Thread, u: Thread)
    requires At(Stack(w.locks, t), Inside) && |w.history| == |w.commits| + 1
    requires SnapshotsFit(w, u, Stack(w.locks, u))
    ensures SnapshotsFit(DoRead(w, t), u, Stack(DoRead(w, t).locks, u))
  {}

  lemma WriteSnapshots<C>(w: World<C>, t: Thread, op: C -> C, u: Thread)
    requires LocksInv(w.locks) && At(Stack(w.locks, t), Inside) && Top(Stack(w.locks, t)).read.Some?
    requires SnapshotsFit(w, u, Stack(w.locks, u))
    ensures SnapshotsFit(DoWrite(w, t, op), u, Stack(DoWrite(w, t, op).locks, u))
  {
    var w' := DoWrite(w, t, op);
    var s := Stack(w'.locks, u);
    forall i | 0 <= i < |s| && s[i].read.Some? ensures s[i].phase.Inside? && Fits(w', u, s[i].read.value) {
      var before := Stack(w.locks, u);
      assert s[i] == before[i];
      MutualExclusion(w.locks, t, |Stack(w.locks, t)| - 1, u, i);
    }
  }

  lemma StepKeeps<C(!new)>(w: World<C>, a: Action<C>)
    requires Inv(w) && Enabled(w, a)
    ensures Inv(Step(w, a))
  {
    LocksStepKeeps(w, a);
    forall u: Thread ensures SnapshotsFit(Step(w, a), u, Stack(Step(w, a).locks, u)) {
      assert SnapshotsFit(w, u, Stack(w.locks, u));
      match a {
        case Read(t) => ReadSnapshots(w, t, u);
        case Write(t, op) => WriteSnapshots(w, t, op, u);
        case _ => LockStepSnapshots(w, a, u);
      }
    }
  }

  // ------------------------------------------------------------------------------ runs

  ghost predicate IsHistory<C(!new)>(ws: seq<World<C>>, acts: seq<Action<C>>, content: C) {
    && |ws| == |acts| + 1 && ws[0] == Begin(content)
    && forall k | 0 <= k < |acts| :: Enabled(ws[k], acts[k]) && ws[k + 1] == Step(ws[k], acts[k])
  }

  lemma {:induction false} HistoryInv<C(!new)>(ws: seq<World<C>>, acts: seq<Action<C>>, content: C, k: nat)
    requires IsHistory(ws, acts, content) && k < |ws|
    ensures Inv(ws[k])
  {
    if k > 0 {
      HistoryInv(ws, acts, content, k - 1);
      StepKeeps(ws[k - 1], acts[k - 1]);
    } else {
      forall t: Thread ensures Agrees(ws[0].locks, t) {}
    }
  }

  /** In every run, timeouts, exceptions and crashes included, at most one thread is in a body. */
  lemma OneInside<C(!new)>(
      ws: seq<World<C>>, acts: seq<Action<C>>, content: C, k: nat, t: Thread, i: nat, u: Thread, j: nat)
    requires IsHistory(ws, acts, content) && k < |ws|
    requires i < |Stack(ws[k].locks, t)| && Stack(ws[k].locks, t)[i].phase.Inside?
    requires j < |Stack(ws[k].locks, u)| && Stack(ws[k].locks, u)[j].phase.Inside?
    ensures t == u
  {
    HistoryInv(ws, acts, content, k);
    MutualExclusion(ws[k].locks, t, i, u, j);
  }

  /** Depth, RLock and flock agree in every run, whatever was raised. */
  lemma BooksAgree<C(!new)>(ws: seq<World<C>>, acts: seq<Action<C>>, content: C, k: nat, t: Thread)
    requires IsHistory(ws, acts, content) && k < |ws|
    ensures var l := ws[k].locks;
      && Depth(l, t) == Nested(Stack(l, t))
      && (Depth(l, t) > 0 <==> RLockOf(l, t.process).owner == Some(t))
      && (Depth(l, t) > 0 ==> RLockOf(l, t.process).count == Depth(l, t))
      && (Stack(l, t) == [] ==> l.flock != Some(t))
  {
    HistoryInv(ws, acts, content, k);
    assert Agrees(ws[k].locks, t);
  }

  /** The thread committed nothing, through a nested body, since its current frame read. */
  ghost predicate Leaf<C(!new)>(w: World<C>, t: Thread)
    requires At(Stack(w.locks, t), Inside) && Top(Stack(w.locks, t)).read.Some?
  {
    forall k | Top(Stack(w.locks, t)).read.value.at <= k < |w.commits| :: w.commits[k].thread != t
  }

  /** What a thread read is still the file exactly when it made no nested commit since. */
  lemma CurrentIffLeaf<C(!new)>(w: World<C>, t: Thread)
    requires Inv(w) && At(Stack(w.locks, t), Inside) && Top(Stack(w.locks, t)).read.Some?
    ensures Top(Stack(w.locks, t)).read.value.at == |w.commits| <==> Leaf(w, t)
    ensures Leaf(w, t) ==> Top(Stack(w.locks, t)).read.value.text == w.history[|w.history| - 1]
  {
    var s := Stack(w.locks, t);
    assert SnapshotsFit(w, t, s);
    assert s[|s| - 1].read.Some?;
    var seen := Top(s).read.value;
    assert Fits(w, t, seen);
    if seen.at < |w.commits| {
      assert w.commits[seen.at].thread == t;
    }
  }

  ghost predicate Composed<C(!new)>(w: World<C>) {
    && |w.history| == |w.commits| + 1
    && forall k | 0 <= k < |w.commits| :: w.history[k + 1] == w.commits[k].op(w.history[k])
  }

  ghost predicate LeafWrites<C(!new)>(ws: seq<World<C>>, acts: seq<Action<C>>)
    requires |ws| == |acts| + 1
  {
    forall k | 0 <= k < |acts| && acts[k].Write? && Enabled(ws[k], acts[k]) :: Leaf(ws[k], acts[k].t)
  }

  /** No lost update: every committed change applies to the result of the one before. */
  lemma {:induction false} NoLostUpdate<C(!new)>(ws: seq<World<C>>, acts: seq<Action<C>>, content: C, k: nat)
    requires IsHistory(ws, acts, content) && LeafWrites(ws, acts) && k < |ws|
    ensures Composed(ws[k]) && ws[k].history[0] == content
  {
    if k > 0 {
      NoLostUpdate(ws, acts, content, k - 1);
      var w, a := ws[k - 1], acts[k - 1];
      if a.Write? {
        HistoryInv(ws, acts, content, k - 1);
        CurrentIffLeaf(w, a.t);
      }
    }
  }

  // ----------------------------------------------------------- a nested commit is lost

  /** One thread's frames; nobody else is about. */
  function Frames<C>(w: World<C>, t: Thread, s: seq<Frame<C>>, depth: nat, flock: Option<Thread>): World<C> {
    w.(locks := Locks(map[t := s], map[t.process := RLock(Some(t), depth)], map[t := depth], flock))
  }

  function Outside<C>(depth: nat, phase: Phase): Frame<C> { Frame(false, depth, phase, None) }

  function Body<C>(depth: nat, read: Option<Snapshot<C>>): Frame<C> { Frame(false, depth, Inside, read) }

  ghost predicate Follows<C>(w: World<C>, a: Action<C>, w': World<C>) { Enabled(w, a) && Step(w, a) == w' }

  lemma FirstEnter<C(!new)>(t: Thread, c: C)
    ensures Follows(Begin(c), Enter(t, false), Frames(Begin(c), t, [Outside(0, Locking)], 1, None))
  {
    assert [] + [Outside<C>(0, Locking)] == [Outside(0, Locking)];
  }

  lemma FirstTry<C(!new)>(w: World<C>, t: Thread)
    ensures Follows(Frames(w, t, [Outside(0, Locking)], 1, None), Try(t),
                    Frames(w, t, [Body(0, None)], 1, Some(t)))
  {
    assert Retop([Outside<C>(0, Locking)], Body(0, None)) == [Body(0, None)];
  }

  lemma NestedEnter<C(!new)>(w: World<C>, t: Thread, f: Frame<C>)
    requires f.phase.Inside?
    ensures Follows(Frames(w, t, [f], 1, Some(t)), Enter(t, false), Frames(w, t, [f, Body(1, None)], 2, Some(t)))
  {
    assert [f] + [Body(1, None)] == [f, Body(1, None)];
  }

  lemma TopRead<C(!new)>(w: World<C>, t: Thread, s: seq<Frame<C>>, f: Frame<C>, depth: nat)
    requires w.history != [] && f.phase.Inside?
    ensures Follows(Frames(w, t, s + [f], depth, Some(t)), Read(t),
      Frames(w, t, s + [f.(read := Some(Snapshot(w.history[|w.history| - 1], |w.commits|)))], depth, Some(t)))
  {
    assert (s + [f])[..|s|] == s && Top(s + [f]) == f;
  }

  lemma TopWrite<C(!new)>(w: World<C>, t: Thread, s: seq<Frame<C>>, f: Frame<C>, depth: nat, op: C -> C)
    requires f.phase.Inside? && f.read.Some?
    ensures Follows(Frames(w, t, s + [f], depth, Some(t)), Write(t, op),
      Frames(World(w.locks, w.history + [op(f.read.value.text)], w.commits + [Commit(t, op)]), t,
             s + [f.(read := None)], depth, Some(t)))
  {
    assert (s + [f])[..|s|] == s && Top(s + [f]) == f;
  }

  lemma NestedUnlock<C(!new)>(w: World<C>, t: Thread, f: Frame<C>)
    ensures Follows(Frames(w, t, [f, Body(1, None)], 2, Some(t)), Unlock(t),
                    Frames(w, t, [f, Outside(1, Leaving)], 2, Some(t)))
  {
    assert Retop([f, Body(1, None)], Outside(1, Leaving)) == [f, Outside(1, Leaving)];
  }

  lemma NestedLeave<C(!new)>(w: World<C>, t: Thread, f: Frame<C>)
    ensures Follows(Frames(w, t, [f, Outside(1, Leaving)], 2, Some(t)), Leave(t), Frames(w, t, [f], 1, Some(t)))
  {
    assert [f, Outside<C>(1, Leaving)][..1] == [f];
  }

  lemma Extend<C(!new)>(ws: seq<World<C>>, acts: seq<Action<C>>, c: C, a: Action<C>, w: World<C>)
      returns (vs: seq<World<C>>, bs: seq<Action<C>>)
    requires IsHistory(ws, acts, c) && Follows(ws[|acts|], a, w)
    ensures IsHistory(vs, bs, c) && vs[|bs|] == w
  {
    vs, bs := ws + [w], acts + [a];
  }

  /** The outer body is entered and reads. */
  lemma OuterReads<C(!new)>(t: Thread, c: C) returns (ws: seq<World<C>>, acts: seq<Action<C>>)
    ensures IsHistory(ws, acts, c) && ws[|acts|] == Frames(Begin(c), t, [Body(0, Some(Snapshot(c, 0)))], 1, Some(t))
  {
    var w := Begin(c);
    FirstEnter(t, c);
    FirstTry(w, t);
    TopRead(w, t, [], Body(0, None), 1);
    ws, acts := [w], [];
    ws, acts := Extend(ws, acts, c, Enter(t, false), Frames(w, t, [Outside(0, Locking)], 1, None));
    ws, acts := Extend(ws, acts, c, Try(t), Frames(w, t, [Body(0, None)], 1, Some(t)));
    assert [] + [Body<C>(0, None)] == [Body(0, None)];
    assert [] + [Body(0, Some(Snapshot(c, 0)))] == [Body(0, Some(Snapshot(c, 0)))];
    ws, acts := Extend(ws, acts, c, Read(t), Frames(w, t, [Body(0, Some(Snapshot(c, 0)))], 1, Some(t)));
  }

  /** What the file is after the nested body. */
  function Changed<C>(t: Thread, c: C, f: C -> C): World<C> {
    World(Begin(c).locks, [c] + [f(c)], [] + [Commit(t, f)])
  }

  /** A nested body reads and writes. */
  lemma InnerWrites<C(!new)>(t: Thread, c: C, f: C -> C, ws0: seq<World<C>>, acts0: seq<Action<C>>)
      returns (ws: seq<World<C>>, acts: seq<Action<C>>)
    requires IsHistory(ws0, acts0, c)
    requires ws0[|acts0|] == Frames(Begin(c), t, [Body(0, Some(Snapshot(c, 0)))], 1, Some(t))
    ensures IsHistory(ws, acts, c)
    ensures ws[|acts|] == Frames(Changed(t, c, f), t, [Body(0, Some(Snapshot(c, 0))), Body(1, None)], 2, Some(t))
  {
    var w, first, seen := Begin(c), Body(0, Some(Snapshot(c, 0))), Some(Snapshot(c, 0));
    NestedEnter(w, t, first);
    TopRead(w, t, [first], Body(1, None), 2);
    TopWrite(w, t, [first], Body(1, seen), 2, f);
    assert [first] + [Body(1, None)] == [first, Body(1, None)] && [first] + [Body(1, seen)] == [first, Body(1, seen)];
    ws, acts := Extend(ws0, acts0, c, Enter(t, false), Frames(w, t, [first, Body(1, None)], 2, Some(t)));
    ws, acts := Extend(ws, acts, c, Read(t), Frames(w, t, [first, Body(1, seen)], 2, Some(t)));
    ws, acts := Extend(ws, acts, c, Write(t, f), Frames(Changed(t, c, f), t, [first, Body(1, None)], 2, Some(t)));
  }

  /** The nested body ends, and the outer one writes from what it read first. */
  lemma OuterWrites<C(!new)>(t: Thread, c: C, f: C -> C, g: C -> C, ws0: seq<World<C>>, acts0: seq<Action<C>>)
      returns (ws: seq<World<C>>, acts: seq<Action<C>>)
    requires IsHistory(ws0, acts0, c)
    requires ws0[|acts0|] == Frames(Changed(t, c, f), t, [Body(0, Some(Snapshot(c, 0))), Body(1, None)], 2, Some(t))
    ensures IsHistory(ws, acts, c)
    ensures ws[|acts|].history == ([c] + [f(c)]) + [g(c)] && ws[|acts|].commits == ([] + [Commit(t, f)]) + [Commit(t, g)]
  {
    var w, first := Changed(t, c, f), Body(0, Some(Snapshot(c, 0)));
    NestedUnlock(w, t, first);
    NestedLeave(w, t, first);
    TopWrite(w, t, [], first, 1, g);
    assert [] + [first] == [first] && [] + [Body<C>(0, None)] == [Body(0, None)];
    ws, acts := Extend(ws0, acts0, c, Unlock(t), Frames(w, t, [first, Outside(1, Leaving)], 2, Some(t)));
    ws, acts := Extend(ws, acts, c, Leave(t), Frames(w, t, [first], 1, Some(t)));
    var last := World(w.locks, w.history + [g(c)], w.commits + [Commit(t, g)]);
    ws, acts := Extend(ws, acts, c, Write(t, g), Frames(last, t, [Body(0, None)], 1, Some(t)));
  }

  /**
   * Why `NoLostUpdate` asks that nothing was committed in a nested body: the outer body's
   * write then replaces the nested change instead of applying to it.
   */
  lemma NestedCommitIsLost<C(!new)>(t: Thread, c: C, f: C -> C, g: C -> C)
      returns (ws: seq<World<C>>, acts: seq<Action<C>>)
    requires g(f(c)) != g(c)
    ensures IsHistory(ws, acts, c) && ws[|acts|].history == [c, f(c), g(c)] && !Composed(ws[|acts|])
  {
    var ws0, acts0 := OuterReads(t, c);
    var ws1, acts1 := InnerWrites(t, c, f, ws0, acts0);
    ws, acts := OuterWrites(t, c, f, g, ws1, acts1);
    LastLost(ws[|acts|], t, c, f, g);
  }

  lemma LastLost<C(!new)>(w: World<C>, t: Thread, c: C, f: C -> C, g: C -> C)
    requires w.history == ([c] + [f(c)]) + [g(c)] && w.commits == ([] + [Commit(t, f)]) + [Commit(t, g)] && g(f(c)) != g(c)
    ensures w.history == [c, f(c), g(c)] && !Composed(w)
  {
    assert w.history[1 + 1] != w.commits[1].op(w.history[1]);
  }
}
