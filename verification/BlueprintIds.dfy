/** `next_blueprint_id_safe` of `concurrency.py`: unique ids from a directory listing. */
module BlueprintIds {
  import opened Text
  import opened FileLock
  import opened FileRuns

  const PREFIX := "BLP-"
  const SUFFIX := ".md"

  function DigitRun(s: string): nat { if s != "" && IsDigit(s[0]) then 1 + DigitRun(s[1..]) else 0 }

  lemma {:induction false} DigitRunBounds(s: string)
    ensures DigitRun(s) <= |s| && forall c | c in s[..DigitRun(s)] :: IsDigit(c)
  {
    if s != "" && IsDigit(s[0]) {
      DigitRunBounds(s[1..]);
      assert s[..DigitRun(s)] == [s[0]] + s[1..][..DigitRun(s[1..])];
    }
  }

  predicate EndsWith(s: string, suffix: string) { |suffix| <= |s| && s[|s| - |suffix|..] == suffix }

  /** The glob, then the match at the start of the name; the number it carries. */
  function NumberOf(name: string): Option<nat> {
    if !StartsWith(name, PREFIX) || !EndsWith(name[|PREFIX|..], SUFFIX) then None
    else
      var tail := name[|PREFIX|..];
      var n := DigitRun(tail);
      DigitRunBounds(tail);
      if n > 0 && StartsWith(tail[n..], SUFFIX) then Some(DigitsValue(tail[..n])) else None
  }

  /** One more than the largest number in use; 1 for none. */
  function NextNumber(names: seq<string>): (n: nat)
    ensures n >= 1
  {
    if names == [] then 1
    else
      var rest := NextNumber(names[1..]);
      var own := NumberOf(names[0]);
      if own.Some? && own.value + 1 > rest then own.value + 1 else rest
  }

  function IdOf(n: nat): string { PREFIX + ZeroPad(n, 3) }

  function NextId(names: seq<string>): string { IdOf(NextNumber(names)) }

  /** The listing with the placeholder that reserves the next id. */
  function Reserve(names: seq<string>): seq<string> { names + [NextId(names) + SUFFIX] }

  lemma {:induction false} DigitRunExact(a: string, b: string)
    requires (forall c | c in a :: IsDigit(c)) && (b == "" || !IsDigit(b[0]))
    ensures DigitRun(a + b) == |a|
  {
    if a == "" {
      assert a + b == b;
    } else {
      assert (a + b)[1..] == a[1..] + b;
      DigitRunExact(a[1..], b);
    }
  }

  lemma NumberOfId(n: nat)
    ensures NumberOf(IdOf(n) + SUFFIX) == Some(n)
  {
    var name, digits := IdOf(n) + SUFFIX, ZeroPad(n, 3);
    ZeroPadRoundTrip(n, 3);
    assert name[|PREFIX|..] == digits + SUFFIX;
    assert name[..|PREFIX|] == PREFIX;
    DigitRunExact(digits, SUFFIX);
    assert (digits + SUFFIX)[..|digits|] == digits && (digits + SUFFIX)[|digits|..] == SUFFIX;
  }

  lemma {:induction false} NextExceeds(names: seq<string>, name: string)
    requires name in names && NumberOf(name).Some?
    ensures NumberOf(name).value < NextNumber(names)
  {
    if name != names[0] {
      assert name in names[1..];
      NextExceeds(names[1..], name);
    }
  }

  /** A blueprint file is named by its prefix, a number, and a rest that begins and ends with the suffix. */
  predicate Named(name: string, digits: string, rest: string) {
    name == "BLP-" + digits + rest && AllDigits(digits) && StartsWith(rest, ".md") && EndsWith(rest, ".md")
  }

  lemma NumberOfNamed(name: string, digits: string, rest: string)
    requires Named(name, digits, rest)
    ensures NumberOf(name) == Some(DigitsValue(digits))
  {
    var tail := digits + rest;
    assert name == PREFIX + tail && name[|PREFIX|..] == tail;
    assert rest[0] == ".md"[0];
    DigitRunExact(digits, rest);
    assert tail[|tail| - 3..] == rest[|rest| - 3..];
    assert tail[..|digits|] == digits && tail[|digits|..] == rest;
  }

  lemma NamedByNumber(name: string) returns (digits: string, rest: string)
    requires NumberOf(name).Some?
    ensures Named(name, digits, rest)
  {
    var tail := name[|PREFIX|..];
    DigitRunBounds(tail);
    digits, rest := tail[..DigitRun(tail)], tail[DigitRun(tail)..];
    assert name == PREFIX + tail && tail == digits + rest;
    RunStops(tail);
    assert tail[|tail| - 3..] == rest[|rest| - 3..];
  }

  lemma {:induction false} RunStops(s: string)
    ensures DigitRun(s) <= |s| && (DigitRun(s) < |s| ==> !IsDigit(s[DigitRun(s)]))
  {
    if s != "" && IsDigit(s[0]) { RunStops(s[1..]); }
  }

  /** The next number is one more than the largest of a blueprint file, and 1 when there is none. */
  lemma {:induction false} NextIsOneMore(names: seq<string>)
    ensures forall name | name in names && NumberOf(name).Some? :: NumberOf(name).value < NextNumber(names)
    ensures NextNumber(names) == 1 || exists name :: name in names && NumberOf(name) == Some(NextNumber(names) - 1)
  {
    if names != [] {
      NextIsOneMore(names[1..]);
      assert names == [names[0]] + names[1..];
      if NextNumber(names[1..]) != 1 {
        var name :| name in names[1..] && NumberOf(name) == Some(NextNumber(names[1..]) - 1);
        assert name in names;
      }
    }
  }

  /** A reserved id names no existing file, so its placeholder overwrites nothing. */
  lemma NextIsFresh(names: seq<string>)
    ensures NextId(names) + SUFFIX !in names
  {
    NumberOfId(NextNumber(names));
    if NextId(names) + SUFFIX in names {
      NextExceeds(names, NextId(names) + SUFFIX);
    }
  }

  class BlueprintDir {
    var names: seq<string>

    constructor (names: seq<string>)
      ensures this.names == names
    {
      this.names := names;
    }

    /** The body that runs under the directory's lock. */
    method NextBlueprintId() returns (id: string)
      modifies this
      ensures id == NextId(old(names)) && names == Reserve(old(names))
      ensures id + SUFFIX !in old(names)
    {
      var most, rest: seq<string> := 0, names;
      var found := false;
      while rest != []
        invariant names == old(names)
        invariant NextNumber(names) == (
          var own := if found then most + 1 else 1; var more := NextNumber(rest); if own > more then own else more)
        invariant !found ==> most == 0
        decreases |rest|
      {
        var n := NumberOf(rest[0]);
        if n.Some? {
          if !found || most < n.value {
            most := n.value;
          }
          found := true;
        }
        rest := rest[1..];
      }
      id := IdOf(if found then most + 1 else 1);
      NextIsFresh(names);
      names := names + [id + SUFFIX];
    }
  }

  /** A change of the directory that removes no blueprint file. */
  ghost predicate KeepsBlueprints(op: seq<string> -> seq<string>) {
    forall names: seq<string>, name: string :: name in names && NumberOf(name).Some? ==> name in op(names)
  }

  lemma ReserveKeeps()
    ensures KeepsBlueprints(Reserve)
  {}

  /** Every change is made under the directory's lock and removes no blueprint file. */
  ghost predicate NoneRemoved(ws: seq<World<seq<string>>>, acts: seq<Action<seq<string>>>)
    requires |ws| == |acts| + 1
  {
    LeafWrites(ws, acts) && forall k | 0 <= k < |acts| && acts[k].Write? :: KeepsBlueprints(acts[k].op)
  }

  lemma {:induction false} CommitsKeep(
      ws: seq<World<seq<string>>>, acts: seq<Action<seq<string>>>, names: seq<string>, k: nat)
    requires IsHistory(ws, acts, names) && NoneRemoved(ws, acts) && k < |ws|
    ensures forall c | c in ws[k].commits :: KeepsBlueprints(c.op)
  {
    if k > 0 {
      CommitsKeep(ws, acts, names, k - 1);
      assert acts[k - 1].Write? ==> KeepsBlueprints(acts[k - 1].op);
    }
  }

  /** What the `i`-th commit reserved is still there. */
  lemma {:induction false} ReservedStays(w: World<seq<string>>, i: nat, j: nat)
    requires Composed(w) && (forall c | c in w.commits :: KeepsBlueprints(c.op)) && i < j < |w.history|
    requires w.commits[i].op == Reserve
    ensures NextId(w.history[i]) + SUFFIX in w.history[j]
    decreases j
  {
    NumberOfId(NextNumber(w.history[i]));
    assert w.commits[j - 1] in w.commits && w.history[j] == w.commits[j - 1].op(w.history[j - 1]);
    if i < j - 1 {
      ReservedStays(w, i, j - 1);
    }
  }

  /** Over every interleaving, no two allocations get the same id while no blueprint file is removed. */
  lemma IdsAreUnique(
      ws: seq<World<seq<string>>>, acts: seq<Action<seq<string>>>, names: seq<string>, k: nat, i: nat, j: nat)
    requires IsHistory(ws, acts, names) && NoneRemoved(ws, acts) && k < |ws|
    requires i < j < |ws[k].commits| && ws[k].commits[i].op == Reserve && ws[k].commits[j].op == Reserve
    ensures |ws[k].history| == |ws[k].commits| + 1 && NextId(ws[k].history[i]) != NextId(ws[k].history[j])
    ensures NextId(ws[k].history[j]) + SUFFIX in ws[k].history[j + 1]
  {
    NoLostUpdate(ws, acts, names, k);
    CommitsKeep(ws, acts, names, k);
    ReservedStays(ws[k], i, j);
    NextIsFresh(ws[k].history[j]);
    ReservedStays(ws[k], j, j + 1);
  }

  // ------------------------------------------------------------- when a file is removed

  /** The newest file of the directory is removed. */
  function RemoveLast(names: seq<string>): seq<string> { if names == [] then [] else names[..|names| - 1] }

  /** One more read and write of the body that is inside. */
  lemma OneMore(
      t: Thread, names: seq<string>, w: World<seq<string>>, op: seq<string> -> seq<string>, d: seq<string>,
      ws0: seq<World<seq<string>>>, acts0: seq<Action<seq<string>>>, read: Option<Snapshot<seq<string>>>)
      returns (ws: seq<World<seq<string>>>, acts: seq<Action<seq<string>>>, w': World<seq<string>>)
    requires IsHistory(ws0, acts0, names) && ws0[|acts0|] == Frames(w, t, [Body(0, read)], 1, Some(t))
    requires w.history != [] && d == op(w.history[|w.history| - 1])
    ensures w' == World(w.locks, w.history + [d], w.commits + [Commit(t, op)])
    ensures IsHistory(ws, acts, names) && ws[|acts|] == Frames(w', t, [Body(0, None)], 1, Some(t))
  {
    var seen := Some(Snapshot(w.history[|w.history| - 1], |w.commits|));
    assert forall f: Frame<seq<string>> :: [] + [f] == [f];
    TopRead(w, t, [], Body(0, read), 1);
    TopWrite(w, t, [], Body(0, seen), 1, op);
    w' := World(w.locks, w.history + [d], w.commits + [Commit(t, op)]);
    ws, acts := Extend(ws0, acts0, names, Read(t), Frames(w, t, [Body(0, seen)], 1, Some(t)));
    ws, acts := Extend(ws, acts, names, Write(t, op), Frames(w', t, [Body(0, None)], 1, Some(t)));
  }

  /** A run in which an id is reserved, its file is removed, and the next reservation gives the same id again. */
  lemma RemovedIsGivenAgain(t: Thread, names: seq<string>)
      returns (ws: seq<World<seq<string>>>, acts: seq<Action<seq<string>>>)
    ensures IsHistory(ws, acts, names) && |ws[|acts|].commits| == 3 && |ws[|acts|].history| == 4
    ensures var w := ws[|acts|];
      && w.commits[0].op == w.commits[2].op == Reserve && w.commits[1].op == RemoveLast
      && NextId(w.history[0]) == NextId(w.history[2]) && Composed(w)
  {
    var w, some := Begin(names), Reserve(names);
    assert some[..|some| - 1] == names;
    ws, acts := OuterReads(t, names);
    ws, acts, w := OneMore(t, names, w, Reserve, some, ws, acts, Some(Snapshot(names, 0)));
    ws, acts, w := OneMore(t, names, w, RemoveLast, names, ws, acts, None);
    ws, acts, w := OneMore(t, names, w, Reserve, some, ws, acts, None);
    GivenTwice(w, t, names, some);
  }

  lemma GivenTwice(w: World<seq<string>>, t: Thread, names: seq<string>, some: seq<string>)
    requires some == Reserve(names) && some != [] && RemoveLast(some) == names
    requires w.history == [names] + [some] + [names] + [some]
    requires w.commits == [] + [Commit(t, Reserve)] + [Commit(t, RemoveLast)] + [Commit(t, Reserve)]
    ensures |w.commits| == 3 && |w.history| == 4 && Composed(w)
    ensures w.commits[0].op == w.commits[2].op == Reserve && w.commits[1].op == RemoveLast
    ensures w.history[0] == w.history[2] == names
  {}
}
