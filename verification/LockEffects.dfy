/** What each step of the locks does to the thread that takes it, and what whole bodies do to the file. */
module LockEffects {
  import opened Text
  import opened FileLock
  import opened FileRuns

  // ------------------------------------------------------------------------- one step

  /** The books of `t`, with everything about other threads and processes as in `l0`. */
  ghost predicate Shows<C(!new)>(
      l: Locks<C>, l0: Locks<C>, t: Thread, s: seq<Frame<C>>, depth: nat, rlock: RLock, flock: Option<Thread>) {
    && Stack(l, t) == s && Depth(l, t) == depth && RLockOf(l, t.process) == rlock && l.flock == flock
    && (forall u: Thread | u != t :: Stack(l, u) == Stack(l0, u) && Depth(l, u) == Depth(l0, u))
    && forall p: nat | p != t.process :: RLockOf(l, p) == RLockOf(l0, p)
  }

  /** A plain lock only waits for the flock; a reentrant one is in its body at once when the thread is nested. */
  lemma EnterShows<C(!new)>(l: Locks<C>, t: Thread, plain: bool)
    requires !plain ==> RLockOf(l, t.process).owner in {None, Some(t)}
    ensures var s, d, r := Stack(l, t), Depth(l, t), RLockOf(l, t.process);
      if plain then Shows(DoEnter(l, t, true), l, t, s + [Frame(true, 0, Locking, None)], d, r, l.flock)
      else Shows(DoEnter(l, t, false), l, t, s + [Frame(false, d, if d > 0 then Inside else Locking, None)], d + 1,
                 RLock(Some(t), r.count + 1), l.flock)
  {}

  /** A reentrant lock that another thread of the process holds is waited for. */
  lemma EnterWaits<C>(l: Locks<C>, t: Thread)
    requires RLockOf(l, t.process).owner.Some? && RLockOf(l, t.process).owner != Some(t)
    ensures DoEnter(l, t, false) == l
  {}

  /** An attempt succeeds if and only if nobody has the flock; otherwise it changes nothing. */
  lemma TryShows<C(!new)>(l: Locks<C>, t: Thread)
    requires At(Stack(l, t), Locking)
    ensures var s := Stack(l, t);
      if l.flock.Some? then DoTry(l, t) == l
      else Shows(DoTry(l, t), l, t, s[..|s| - 1] + [Frame(Top(s).plain, Top(s).depth, Inside, Top(s).read)],
                 Depth(l, t), RLockOf(l, t.process), Some(t))
  {}

  lemma TimeoutShows<C(!new)>(l: Locks<C>, t: Thread)
    requires At(Stack(l, t), Locking)
    ensures var s := Stack(l, t);
      Shows(DoTimeout(l, t), l, t, s[..|s| - 1] + [Frame(Top(s).plain, Top(s).depth, Leaving, Top(s).read)],
            Depth(l, t), RLockOf(l, t.process), l.flock)
  {}

  /** The end of a body gives the flock back if the frame had taken it. */
  lemma UnlockShows<C(!new)>(l: Locks<C>, t: Thread)
    requires At(Stack(l, t), Inside)
    ensures var s := Stack(l, t);
      Shows(DoUnlock(l, t), l, t, s[..|s| - 1] + [Frame(Top(s).plain, Top(s).depth, Leaving, None)],
            Depth(l, t), RLockOf(l, t.process), if Top(s).plain || Top(s).depth == 0 then None else l.flock)
  {}

  /** Leaving restores the depth the frame had found, and gives the RLock back once. */
  lemma LeaveShows<C(!new)>(l: Locks<C>, t: Thread)
    requires At(Stack(l, t), Leaving)
    ensures var s, r := Stack(l, t), RLockOf(l, t.process);
      if Top(s).plain then Shows(DoLeave(l, t), l, t, s[..|s| - 1], Depth(l, t), r, l.flock)
      else Shows(DoLeave(l, t), l, t, s[..|s| - 1], Top(s).depth,
                 if r.count <= 1 then RLock(None, 0) else RLock(r.owner, r.count - 1), l.flock)
  {}

  /** A crash takes the frames, the depths and the locks of one process, and nothing of any other. */
  lemma CrashShows<C(!new)>(l: Locks<C>, process: nat)
    ensures var l' := DoCrash(l, process);
      && (forall u: Thread | u.process == process :: Stack(l', u) == [] && Depth(l', u) == 0 && l'.flock != Some(u))
      && (forall u: Thread | u.process != process ::
            Stack(l', u) == Stack(l, u) && Depth(l', u) == Depth(l, u) && (l'.flock == Some(u) <==> l.flock == Some(u)))
      && RLockOf(l', process) == RLock(None, 0)
      && forall p: nat | p != process :: RLockOf(l', p) == RLockOf(l, p)
  {}

  // --------------------------------------------------------------------- whole bodies

  /** The same books for every thread and process. */
  ghost predicate SameBooks<C(!new)>(l: Locks<C>, l': Locks<C>) {
    && (forall u: Thread :: Stack(l', u) == Stack(l, u) && Depth(l', u) == Depth(l, u))
    && (forall p: nat :: RLockOf(l', p) == RLockOf(l, p)) && l'.flock == l.flock
  }

  /** Nobody has the flock or the RLock of the process. */
  predicate Idle<C>(l: Locks<C>, t: Thread) {
    Stack(l, t) == [] && l.flock.None? && RLockOf(l, t.process) == RLock(None, 0)
  }

  lemma EntersAlone<C(!new)>(l: Locks<C>, t: Thread, plain: bool) returns (l1: Locks<C>, d: nat, r: RLock)
    requires LocksInv(l) && Idle(l, t)
    ensures l1 == DoEnter(l, t, plain) && d == (if plain then 0 else 1) && r == (if plain then RLock(None, 0) else RLock(Some(t), 1))
    ensures Shows(l1, l, t, [Frame(plain, 0, Locking, None)], d, r, None)
  {
    assert Agrees(l, t);
    EnterShows(l, t, plain);
    l1 := DoEnter(l, t, plain);
    d, r := if plain then 0 else 1, if plain then RLock(None, 0) else RLock(Some(t), 1);
    var f: Frame<C> := Frame(plain, 0, Locking, None);
    assert [] + [f] == [f];
  }

  lemma LeavesAlone<C(!new)>(l: Locks<C>, l0: Locks<C>, t: Thread, plain: bool, d: nat, r: RLock)
    requires LocksInv(l0) && Idle(l0, t)
    requires d == (if plain then 0 else 1) && r == (if plain then RLock(None, 0) else RLock(Some(t), 1))
    requires Shows(l, l0, t, [Frame(plain, 0, Leaving, None)], d, r, None)
    ensures SameBooks(l0, DoLeave(l, t))
  {
    assert Agrees(l0, t);
    LeaveShows(l, t);
    assert Stack(l, t)[..0] == [];
  }

  /** An entry that times out leaves no trace. */
  lemma TimeoutLeavesNoTrace<C(!new)>(l: Locks<C>, t: Thread, plain: bool)
    requires LocksInv(l) && Idle(l, t)
    ensures At(Stack(DoEnter(l, t, plain), t), Locking)
    ensures At(Stack(DoTimeout(DoEnter(l, t, plain), t), t), Leaving)
    ensures SameBooks(l, DoLeave(DoTimeout(DoEnter(l, t, plain), t), t))
  {
    var l1, d, r := EntersAlone(l, t, plain);
    TimeoutShows(l1, t);
    LeavesAlone(DoTimeout(l1, t), l, t, plain, d, r);
  }

  lemma BodyReads<C(!new)>(l: Locks<C>, l0: Locks<C>, t: Thread, f: Frame<C>, g: Frame<C>, d: nat, r: RLock)
    requires Shows(l, l0, t, [f], d, r, Some(t)) && f.phase.Inside? && g == Frame(f.plain, f.depth, f.phase, g.read)
    ensures Shows(SetRead(l, t, g.read), l0, t, [g], d, r, Some(t))
  {}

  ghost predicate StepsTo<C(!new)>(w: World<C>, a: Action<C>, w': World<C>) { Enabled(w, a) && w' == Step(w, a) }

  ghost predicate Steps<C(!new)>(ws: seq<World<C>>, acts: seq<Action<C>>) {
    |ws| == |acts| + 1 && forall k | 0 <= k < |acts| :: StepsTo(ws[k], acts[k], ws[k + 1])
  }

  /** Into the body, when the locks are free. */
  lemma GetsInside<C(!new)>(w: World<C>, t: Thread, plain: bool) returns (w1: World<C>, w2: World<C>, d: nat, r: RLock)
    requires LocksInv(w.locks) && Idle(w.locks, t)
    ensures StepsTo(w, Enter(t, plain), w1) && StepsTo(w1, Try(t), w2)
    ensures w2.history == w.history && w2.commits == w.commits && d == (if plain then 0 else 1)
    ensures r == (if plain then RLock(None, 0) else RLock(Some(t), 1))
    ensures Shows(w2.locks, w.locks, t, [Frame(plain, 0, Inside, None)], d, r, Some(t))
  {
    var l1;
    l1, d, r := EntersAlone(w.locks, t, plain);
    TryShows(l1, t);
    var f: Frame<C> := Frame(plain, 0, Inside, None);
    assert Stack(l1, t)[..0] + [f] == [f];
    w1, w2 := w.(locks := l1), w.(locks := DoTry(l1, t));
  }

  lemma ReadsLast<C(!new)>(w: World<C>, l0: Locks<C>, t: Thread, f: Frame<C>, d: nat, r: RLock)
      returns (w': World<C>, g: Frame<C>)
    requires Shows(w.locks, l0, t, [f], d, r, Some(t)) && f.phase.Inside? && w.history != []
    ensures StepsTo(w, Read(t), w') && w'.history == w.history && w'.commits == w.commits
    ensures g == Frame(f.plain, f.depth, Inside, Some(Snapshot(w.history[|w.history| - 1], |w.commits|)))
    ensures Shows(w'.locks, l0, t, [g], d, r, Some(t))
  {
    g := Frame(f.plain, f.depth, Inside, Some(Snapshot(w.history[|w.history| - 1], |w.commits|)));
    BodyReads(w.locks, l0, t, f, g, d, r);
    w' := DoRead(w, t);
  }

  lemma WritesSeen<C(!new)>(w: World<C>, l0: Locks<C>, t: Thread, f: Frame<C>, d: nat, r: RLock, op: C -> C)
      returns (w': World<C>)
    requires Shows(w.locks, l0, t, [f], d, r, Some(t)) && f.phase.Inside? && f.read.Some?
    ensures StepsTo(w, Write(t, op), w') && w'.history == w.history + [op(f.read.value.text)]
    ensures w'.commits == w.commits + [Commit(t, op)]
    ensures Shows(w'.locks, l0, t, [Frame(f.plain, f.depth, Inside, None)], d, r, Some(t))
  {
    BodyReads(w.locks, l0, t, f, Frame(f.plain, f.depth, Inside, None), d, r);
    w' := DoWrite(w, t, op);
  }

  /** Out of the body. */
  lemma GetsOut<C(!new)>(w: World<C>, l0: Locks<C>, t: Thread, plain: bool, d: nat, r: RLock)
      returns (w1: World<C>, w2: World<C>)
    requires LocksInv(l0) && Idle(l0, t)
    requires d == (if plain then 0 else 1) && r == (if plain then RLock(None, 0) else RLock(Some(t), 1))
    requires Shows(w.locks, l0, t, [Frame(plain, 0, Inside, None)], d, r, Some(t))
    ensures StepsTo(w, Unlock(t), w1) && StepsTo(w1, Leave(t), w2)
    ensures w2.history == w.history && w2.commits == w.commits && SameBooks(l0, w2.locks)
  {
    UnlockShows(w.locks, t);
    var l1 := DoUnlock(w.locks, t);
    var f: Frame<C> := Frame(plain, 0, Leaving, None);
    assert Stack(w.locks, t)[..0] + [f] == [f];
    LeavesAlone(l1, l0, t, plain, d, r);
    w1, w2 := w.(locks := l1), w.(locks := DoLeave(l1, t));
  }

  lemma SixSteps<C(!new)>(
      w0: World<C>, a0: Action<C>, w1: World<C>, a1: Action<C>, w2: World<C>, a2: Action<C>, w3: World<C>, a3: Action<C>,
      w4: World<C>, a4: Action<C>, w5: World<C>, a5: Action<C>, w6: World<C>)
    requires StepsTo(w0, a0, w1) && StepsTo(w1, a1, w2) && StepsTo(w2, a2, w3)
    requires StepsTo(w3, a3, w4) && StepsTo(w4, a4, w5) && StepsTo(w5, a5, w6)
    ensures Steps([w0, w1, w2, w3, w4, w5, w6], [a0, a1, a2, a3, a4, a5])
  {
    var ws, acts := [w0, w1, w2, w3, w4, w5, w6], [a0, a1, a2, a3, a4, a5];
    forall k | 0 <= k < |acts| ensures StepsTo(ws[k], acts[k], ws[k + 1]) {
      assert k == 0 || k == 1 || k == 2 || k == 3 || k == 4 || k == 5;
    }
  }

  /**
   * Whenever the locks are free, a thread can enter, read, write and leave: the change is applied to what the file
   * holds and committed as its last content, and the locks are as they were.
   */
  lemma BodyCommits<C(!new)>(w: World<C>, t: Thread, plain: bool, op: C -> C) returns (ws: seq<World<C>>)
    requires Inv(w) && Idle(w.locks, t)
    ensures Steps(ws, [Enter(t, plain), Try(t), Read(t), Write(t, op), Unlock(t), Leave(t)]) && ws[0] == w
    ensures ws[6].history == w.history + [op(w.history[|w.history| - 1])]
    ensures ws[6].commits == w.commits + [Commit(t, op)] && SameBooks(w.locks, ws[6].locks)
  {
    var w1, w2, d, r := GetsInside(w, t, plain);
    var w3, g := ReadsLast(w2, w.locks, t, Frame(plain, 0, Inside, None), d, r);
    var w4 := WritesSeen(w3, w.locks, t, g, d, r, op);
    var w5, w6 := GetsOut(w4, w.locks, t, plain, d, r);
    ws := [w, w1, w2, w3, w4, w5, w6];
    SixSteps(w, Enter(t, plain), w1, Try(t), w2, Read(t), w3, Write(t, op), w4, Unlock(t), w5, Leave(t), w6);
  }

  // ---------------------------------------------------------------------------- commits

  /** The changes that the calls ask for, in order. */
  function Asked<C>(acts: seq<Action<C>>): seq<Commit<C>> {
    if acts == [] then []
    else
      var last := acts[|acts| - 1];
      Asked(acts[..|acts| - 1]) + if last.Write? then [Commit(last.t, last.op)] else []
  }

  /** In every run the commits are the writes that were made, each with its thread and its change, in order. */
  lemma {:induction false} CommitsAreWrites<C(!new)>(ws: seq<World<C>>, acts: seq<Action<C>>, content: C, k: nat)
    requires IsHistory(ws, acts, content) && k < |ws|
    ensures ws[k].commits == Asked(acts[..k]) && |ws[k].history| == |Asked(acts[..k])| + 1
  {
    if k > 0 {
      CommitsAreWrites(ws, acts, content, k - 1);
      assert acts[..k][..k - 1] == acts[..k - 1];
    }
  }
}
