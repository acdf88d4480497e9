/**
 * `file_lock` and `reentrant_file_lock` of `concurrency.py`, on one path: a per-process
 * RLock, a per-thread depth and a cross-process flock, for any number of processes.
 */
module FileLock {
  import opened Text

  datatype Thread = Thread(process: nat, id: nat)

  datatype RLock = RLock(owner: Option<Thread>, count: nat)

  /** Waiting for the flock; in the body; flock given back or never got. */
  datatype Phase = Locking | Inside | Leaving

  /** What a frame read of the file, and after how many commits. */
  datatype Snapshot<C> = Snapshot(text: C, at: nat)

  /** One active `with`: plain for `file_lock`, otherwise reentrant with the depth it found. */
  datatype Frame<C> = Frame(plain: bool, depth: nat, phase: Phase, read: Option<Snapshot<C>>)

  datatype Locks<C> = Locks(
    stacks: map<Thread, seq<Frame<C>>>, rlocks: map<nat, RLock>, depths: map<Thread, nat>, flock: Option<Thread>)

  function Stack<C>(l: Locks<C>, t: Thread): seq<Frame<C>> { if t in l.stacks then l.stacks[t] else [] }

  function Depth<C>(l: Locks<C>, t: Thread): nat { if t in l.depths then l.depths[t] else 0 }

  function RLockOf<C>(l: Locks<C>, process: nat): RLock {
    if process in l.rlocks then l.rlocks[process] else RLock(None, 0)
  }

  function Top<C>(s: seq<Frame<C>>): Frame<C>
    requires s != []
  { s[|s| - 1] }

  function Retop<C>(s: seq<Frame<C>>, f: Frame<C>): seq<Frame<C>>
    requires s != []
  { s[..|s| - 1] + [f] }

  predicate At<C>(s: seq<Frame<C>>, phase: Phase) { s != [] && Top(s).phase == phase }

  /** A frame that took the flock still owns it in its body. */
  predicate Holding<C>(f: Frame<C>) { f.phase.Inside? && (f.plain || f.depth == 0) }

  // -------------------------------------------------------------------- atomic steps

  /** Entering a `with`; when another thread of the process owns the RLock, nothing happens yet. */
  function DoEnter<C>(l: Locks<C>, t: Thread, plain: bool): Locks<C> {
    var s, r, d := Stack(l, t), RLockOf(l, t.process), Depth(l, t);
    if plain then l.(stacks := l.stacks[t := s + [Frame(true, 0, Locking, None)]])
    else if r.owner.Some? && r.owner.value != t then l
    else
      l.(rlocks := l.rlocks[t.process := RLock(Some(t), r.count + 1)], depths := l.depths[t := d + 1],
         stacks := l.stacks[t := s + [Frame(false, d, if d > 0 then Inside else Locking, None)]])
  }

  /** One non-blocking attempt at the flock. */
  function DoTry<C>(l: Locks<C>, t: Thread): Locks<C>
    requires At(Stack(l, t), Locking)
  {
    if l.flock.Some? then l
    else
      var s := Stack(l, t);
      l.(flock := Some(t), stacks := l.stacks[t := Retop(s, Top(s).(phase := Inside))])
  }

  /** The deadline passed: `TimeoutError` unwinds the frame. */
  function DoTimeout<C>(l: Locks<C>, t: Thread): Locks<C>
    requires At(Stack(l, t), Locking)
  {
    var s := Stack(l, t);
    l.(stacks := l.stacks[t := Retop(s, Top(s).(phase := Leaving))])
  }

  /** The body ended, or raised. */
  function DoUnlock<C>(l: Locks<C>, t: Thread): Locks<C>
    requires At(Stack(l, t), Inside)
  {
    var s := Stack(l, t);
    l.(flock := if Holding(Top(s)) then None else l.flock,
       stacks := l.stacks[t := Retop(s, Top(s).(phase := Leaving, read := None))])
  }

  function Released(r: RLock): RLock {
    if r.count <= 1 then RLock(None, 0) else r.(count := r.count - 1)
  }

  function DoLeave<C>(l: Locks<C>, t: Thread): Locks<C>
    requires At(Stack(l, t), Leaving)
  {
    var s := Stack(l, t);
    var popped := l.(stacks := l.stacks[t := s[..|s| - 1]]);
    if Top(s).plain then popped
    else
      popped.(depths := l.depths[t := Top(s).depth],
              rlocks := l.rlocks[t.process := Released(RLockOf(l, t.process))])
  }

  /** A process dies: the system drops its flock, and its memory is gone. */
  function DoCrash<C>(l: Locks<C>, process: nat): Locks<C> {
    Locks(map t | t in l.stacks && t.process != process :: l.stacks[t], l.rlocks - {process},
          map t | t in l.depths && t.process != process :: l.depths[t],
          if l.flock.Some? && l.flock.value.process == process then None else l.flock)
  }

  // --------------------------------------------------------------------- the invariant

  function Nested<C>(s: seq<Frame<C>>): nat {
    if s == [] then 0 else Nested(s[..|s| - 1]) + if Top(s).plain then 0 else 1
  }

  function Holders<C>(s: seq<Frame<C>>): nat {
    if s == [] then 0 else Holders(s[..|s| - 1]) + if Holding(Top(s)) then 1 else 0
  }

  /** Only the top frame can be outside its body, and each reentrant frame counted those below it. */
  predicate Stacked<C>(s: seq<Frame<C>>) {
    s != [] ==>
      var below := s[..|s| - 1];
      Stacked(below) && (below != [] ==> Top(below).phase.Inside?)
      && (!Top(s).plain ==> Top(s).depth == Nested(below))
      && (!Top(s).plain && Top(s).phase.Locking? ==> Top(s).depth == 0)
  }

  /** Depth, RLock count and flock agree with the frames of one thread. */
  ghost predicate Agrees<C>(l: Locks<C>, t: Thread) {
    var s, r := Stack(l, t), RLockOf(l, t.process);
    && Stacked(s) && Depth(l, t) == Nested(s)
    && Holders(s) == (if l.flock == Some(t) then 1 else 0)
    && (Nested(s) > 0 ==> r == RLock(Some(t), Nested(s)))
    && (r.owner == Some(t) ==> Nested(s) > 0)
    && (r.owner.None? ==> r.count == 0)
  }

  ghost predicate LocksInv<C>(l: Locks<C>) { forall t: Thread :: Agrees(l, t) }

  lemma {:induction false} NestedHolds<C>(s: seq<Frame<C>>)
    requires Stacked(s) && At(s, Inside) && (Nested(s) > 0 || Top(s).plain)
    ensures Holders(s) > 0
    decreases |s|
  {
    var below := s[..|s| - 1];
    if !Holding(Top(s)) {
      NestedHolds(below);
    }
  }

  lemma {:induction false} InsideHolds<C>(s: seq<Frame<C>>, i: nat)
    requires Stacked(s) && i < |s| && s[i].phase.Inside?
    ensures Holders(s) > 0
    decreases |s|
  {
    if i < |s| - 1 {
      InsideHolds(s[..|s| - 1], i);
    } else {
      NestedHolds(s);
    }
  }

  /** Threads with a frame in its body anywhere: at most one, across all processes. */
  lemma MutualExclusion<C>(l: Locks<C>, t: Thread, i: nat, u: Thread, j: nat)
    requires LocksInv(l)
    requires i < |Stack(l, t)| && Stack(l, t)[i].phase.Inside?
    requires j < |Stack(l, u)| && Stack(l, u)[j].phase.Inside?
    ensures t == u && l.flock == Some(t)
  {
    assert Agrees(l, t) && Agrees(l, u);
    InsideHolds(Stack(l, t), i);
    InsideHolds(Stack(l, u), j);
  }

  lemma Pushed<C>(s: seq<Frame<C>>, f: Frame<C>)
    ensures (s + [f])[..|s + [f]| - 1] == s && Top(s + [f]) == f
    ensures Nested(s + [f]) == Nested(s) + (if f.plain then 0 else 1)
    ensures Holders(s + [f]) == Holders(s) + (if Holding(f) then 1 else 0)
  {
    assert (s + [f])[..|s|] == s;
  }

  lemma Replaced<C>(s: seq<Frame<C>>, f: Frame<C>)
    requires s != []
    ensures Holders(Retop(s, f)) == Holders(s) - (if Holding(Top(s)) then 1 else 0) + (if Holding(f) then 1 else 0)
  {
    Pushed(s[..|s| - 1], f);
  }

  /** A step by `t` that leaves the rest of the world's books alone. */
  ghost predicate Local<C>(l: Locks<C>, l': Locks<C>, t: Thread) {
    && (forall u: Thread | u != t :: Stack(l', u) == Stack(l, u) && Depth(l', u) == Depth(l, u))
    && (forall p: nat | p != t.process :: RLockOf(l', p) == RLockOf(l, p))
    && (l'.flock == l.flock || (l.flock == Some(t) && l'.flock == None) || (l.flock == None && l'.flock == Some(t)))
    && (RLockOf(l', t.process) == RLockOf(l, t.process)
        || (RLockOf(l, t.process).owner in {None, Some(t)} && RLockOf(l', t.process).owner in {None, Some(t)}))
  }

  lemma LocalKeeps<C>(l: Locks<C>, l': Locks<C>, t: Thread)
    requires LocksInv(l) && Local(l, l', t) && Agrees(l', t)
    ensures LocksInv(l')
  {
    forall u: Thread ensures Agrees(l', u) {
      assert Agrees(l, u);
      if u != t {
        assert Agrees(l, t);
      }
    }
  }

  lemma EnterKeeps<C>(l: Locks<C>, t: Thread, plain: bool)
    requires LocksInv(l) && (Stack(l, t) == [] || At(Stack(l, t), Inside))
    ensures LocksInv(DoEnter(l, t, plain))
  {
    assert Agrees(l, t);
    var s, l' := Stack(l, t), DoEnter(l, t, plain);
    if l' != l {
      var f := Top(Stack(l', t));
      Pushed(s, f);
      assert Stack(l', t) == s + [f];
      LocalKeeps(l, l', t);
    }
  }

  lemma RetopKeeps<C>(l: Locks<C>, l': Locks<C>, t: Thread, f: Frame<C>)
    requires LocksInv(l) && Stack(l, t) != [] && l'.depths == l.depths && l'.rlocks == l.rlocks
    requires f.plain == Top(Stack(l, t)).plain && f.depth == Top(Stack(l, t)).depth
    requires f.phase.Locking? ==> Top(Stack(l, t)).phase.Locking?
    requires l'.stacks == l.stacks[t := Retop(Stack(l, t), f)] && Local(l, l', t)
    requires Holders(Retop(Stack(l, t), f)) == (if l'.flock == Some(t) then 1 else 0)
    ensures LocksInv(l')
  {
    assert Agrees(l, t);
    Pushed(Stack(l, t)[..|Stack(l, t)| - 1], f);
    LocalKeeps(l, l', t);
  }

  lemma TryKeeps<C>(l: Locks<C>, t: Thread)
    requires LocksInv(l) && At(Stack(l, t), Locking)
    ensures LocksInv(DoTry(l, t))
  {
    assert Agrees(l, t);
    if l.flock.None? {
      var s := Stack(l, t);
      var f := Top(s).(phase := Inside);
      TopLockingTakes(s);
      Replaced(s, f);
      RetopKeeps(l, DoTry(l, t), t, f);
    }
  }

  lemma TopLockingTakes<C>(s: seq<Frame<C>>)
    requires Stacked(s) && At(s, Locking)
    ensures !Holding(Top(s)) && Holding(Top(s).(phase := Inside))
  {
  }

  lemma TimeoutKeeps<C>(l: Locks<C>, t: Thread)
    requires LocksInv(l) && At(Stack(l, t), Locking)
    ensures LocksInv(DoTimeout(l, t))
  {
    assert Agrees(l, t);
    var s := Stack(l, t);
    var f := Top(s).(phase := Leaving);
    Replaced(s, f);
    RetopKeeps(l, DoTimeout(l, t), t, f);
  }

  lemma UnlockKeeps<C>(l: Locks<C>, t: Thread)
    requires LocksInv(l) && At(Stack(l, t), Inside)
    ensures LocksInv(DoUnlock(l, t))
  {
    assert Agrees(l, t);
    var s := Stack(l, t);
    var f := Top(s).(phase := Leaving, read := None);
    Replaced(s, f);
    RetopKeeps(l, DoUnlock(l, t), t, f);
  }

  lemma LeaveKeeps<C>(l: Locks<C>, t: Thread)
    requires LocksInv(l) && At(Stack(l, t), Leaving)
    ensures LocksInv(DoLeave(l, t))
  {
    assert Agrees(l, t);
    LocalKeeps(l, DoLeave(l, t), t);
  }

  lemma CrashKeeps<C>(l: Locks<C>, process: nat)
    requires LocksInv(l)
    ensures LocksInv(DoCrash(l, process))
  {
    var l' := DoCrash(l, process);
    forall t: Thread ensures Agrees(l', t) {
      assert Agrees(l, t);
      if t.process != process {
        assert Stack(l', t) == Stack(l, t) && Depth(l', t) == Depth(l, t);
        assert RLockOf(l', t.process) == RLockOf(l, t.process);
      }
    }
  }

  /** A plain `file_lock` under a frame of the same thread can only time out. */
  lemma NestedPlainBlocks<C>(l: Locks<C>, t: Thread)
    requires LocksInv(l) && At(Stack(l, t), Locking) && |Stack(l, t)| > 1
    ensures l.flock == Some(t) && DoTry(l, t) == l
  {
    assert Agrees(l, t);
    var s := Stack(l, t);
    InsideHolds(s[..|s| - 1], |s| - 2);
  }

  // -------------------------------------------------- the attempt loop of `file_lock`

  /** What one attempt saw: whether the flock was free, and the clock after a failure. */
  datatype Attempt = Attempt(free: bool, clock: int)

  datatype Acquisition = Acquired(attempts: nat) | TimedOut(attempts: nat) | StillWaiting

  /**
   * Acquires at the first free attempt unless an earlier failure was past the deadline,
   * and times out at the first failure past it.
   */
  method Acquire(attempts: seq<Attempt>, deadline: int) returns (r: Acquisition)
    ensures r.Acquired? ==> r.attempts < |attempts| && attempts[r.attempts].free
    ensures r.TimedOut? ==>
      r.attempts < |attempts| && !attempts[r.attempts].free && attempts[r.attempts].clock >= deadline
    ensures forall k | 0 <= k < (if r.StillWaiting? then |attempts| else r.attempts) && k < |attempts| ::
      !attempts[k].free && attempts[k].clock < deadline
  {
    for i := 0 to |attempts|
      invariant forall k | 0 <= k < i :: !attempts[k].free && attempts[k].clock < deadline
    {
      if attempts[i].free {
        return Acquired(i);
      }
      if attempts[i].clock >= deadline {
        return TimedOut(i);
      }
    }
    return StillWaiting;
  }
}
