/** Revision stamps of a session's timelog over whole runs: updates, purges, re-opening. */
module TimelogRuns {
  import opened Text
  import opened TimelogModel
  import opened TimelogText
  import opened TimelogRoundTrip
  import opened TimelogStore
  import opened TimelogSafe

  /** The text of the canonical file and the session record's `suppressed` flag. */
  datatype World = World(file: Option<string>, suppressed: bool)

  /** `Ensure` carries the flag its caller read from the session record. */
  datatype Action =
    | Ensure(project: string, openedAt: string, seen: bool)
    | Update(ses: string, expected: Option<string>, mutation: Mutation, fails: bool)
    | Tombstone

  ghost function Step(w: World, session: string, a: Action): World {
    match a
    case Ensure(project, openedAt, seen) => w.(file := DoEnsure(w.file, NewDocument(project, session, openedAt), seen))
    case Update(ses, expected, m, fails) => w.(file := DoUpdate(w.file, ses, expected, m, fails).0)
    case Tombstone => World(None, true)
  }

  /** Inputs that a caller can check before the call. */
  predicate Safe(session: string, a: Action) {
    match a
    case Ensure(project, openedAt, _) => Good(NewDocument(project, session, openedAt))
    case Update(_, _, m, _) => Harmless(m)
    case Tombstone => true
  }

  ghost predicate StepsAt(ws: seq<World>, session: string, acts: seq<Action>, k: nat)
    requires k < |acts| && |ws| == |acts| + 1
  { Safe(session, acts[k]) && ws[k + 1] == Step(ws[k], session, acts[k]) }

  ghost predicate IsRun(ws: seq<World>, session: string, acts: seq<Action>) {
    |ws| == |acts| + 1 && forall k | 0 <= k < |acts| :: StepsAt(ws, session, acts, k)
  }

  /** An `ensure` that did not see the flag, when the purge has removed the file. */
  predicate Stale(w: World, a: Action) { a.Ensure? && !a.seen && w.suppressed && w.file.None? }

  // --------------------------------------------------------------------------- the invariant

  function Count(d: Document): nat
    requires AllDigits(d.revision)
  { DigitsValue(d.revision) }

  /** Every stamp is a number, at most the document's revision. */
  ghost predicate Bounded(d: Document)
    requires AllDigits(d.revision)
  {
    forall k | k in d.blocks && d.blocks[k].revision != "" ::
      AllDigits(d.blocks[k].revision) && DigitsValue(d.blocks[k].revision) <= Count(d)
  }

  ghost predicate Inv(w: World) {
    w.file.Some? ==> Parsed(w.file.value).Some? && Good(Parsed(w.file.value).value) && Bounded(Parsed(w.file.value).value)
  }

  /** The document in the file. */
  function Doc(w: World): Document
    requires w.file.Some? && Parsed(w.file.value).Some?
  { Parsed(w.file.value).value }

  lemma NextCounts(revision: string)
    requires AllDigits(revision)
    ensures Next(revision).Some? && AllDigits(Next(revision).value)
    ensures DigitsValue(Next(revision).value) == DigitsValue(revision) + 1
  {
    NatRoundTrip(DigitsValue(revision) + 1);
  }

  lemma AfterBounded(d: Document, m: Mutation)
    requires Good(d) && Bounded(d) && Harmless(m) && Writes(d, m)
    ensures Good(After(d, m)) && Stepped(d, After(d, m)) && Bounded(After(d, m))
  {
    AfterReads(d, m);
    AfterStepped(d, m, After(d, m));
    SteppedBounded(d, After(d, m));
  }

  /** One more write: each block keeps its times and stamp or has the new revision as its stamp. */
  ghost predicate Stepped(d: Document, e: Document) {
    && AllDigits(d.revision) && AllDigits(e.revision) && Count(e) == Count(d) + 1
    && forall k | k in e.blocks :: BlockStep(BlockAt(d, k), e.blocks[k], e.revision) && e.blocks[k].revision != ""
  }

  lemma AfterStepped(d: Document, m: Mutation, e: Document)
    requires AllDigits(d.revision) && Writes(d, m) && e == After(d, m) && e.revision == Next(d.revision).value
    ensures Stepped(d, e)
  {
    NextCounts(d.revision);
    forall k | k in e.blocks ensures BlockStep(BlockAt(d, k), e.blocks[k], e.revision) && e.blocks[k].revision != "" {
      AfterSteps(d, m, k);
    }
  }

  lemma SteppedBounded(d: Document, e: Document)
    requires Stepped(d, e) && Bounded(d)
    ensures Bounded(e)
  {
    forall k | k in e.blocks
      ensures AllDigits(e.blocks[k].revision) && DigitsValue(e.blocks[k].revision) <= Count(e) {
      assert BlockStep(BlockAt(d, k), e.blocks[k], e.revision);
    }
  }

  lemma NewIsBounded(d: Document)
    requires Good(d) && d.blocks == map[]
    ensures Parsed(Serialized(d)) == Some(Normal(d)) && Good(Normal(d)) && Bounded(Normal(d))
  {
    GoodReads(d);
    NormalIsGood(d);
  }

  ghost predicate Applies(w: World, a: Action) {
    w.file.Some? && a.Update? && DoUpdate(w.file, a.ses, a.expected, a.mutation, a.fails).1.Applied?
  }

  lemma StepUpdates(w: World, session: string, a: Action)
    requires Inv(w) && a.Update? && Safe(session, a)
    ensures Inv(Step(w, session, a))
    ensures !Applies(w, a) ==> Step(w, session, a) == w
    ensures Applies(w, a) ==> Step(w, session, a).file.Some? && Stepped(Doc(w), Doc(Step(w, session, a)))
    ensures Applies(w, a) && a.expected.Some? ==> a.expected.value == Doc(w).revision
  {
    if w.file.Some? {
      UpdateReads(w.file, Doc(w), a.ses, a.expected, a.mutation, a.fails);
      if Applies(w, a) {
        AfterBounded(Doc(w), a.mutation);
      }
    }
  }

  lemma StepKeeps(w: World, session: string, a: Action)
    requires Inv(w) && Safe(session, a)
    ensures Inv(Step(w, session, a))
  {
    match a {
      case Update(ses, expected, m, fails) => StepUpdates(w, session, a);
      case Ensure(project, openedAt, seen) => NewIsBounded(NewDocument(project, session, openedAt));
      case Tombstone =>
    }
  }

  /** Every file of a run can be read, and holds a document whose stamps are at most its revision. */
  lemma {:induction false} RunInv(ws: seq<World>, session: string, acts: seq<Action>, k: nat)
    requires IsRun(ws, session, acts) && Inv(ws[0]) && k < |ws|
    ensures Inv(ws[k])
  {
    if k > 0 {
      RunInv(ws, session, acts, k - 1);
      assert StepsAt(ws, session, acts, k - 1);
      StepKeeps(ws[k - 1], session, acts[k - 1]);
    }
  }

  /** The file, if any, holds a numbered document with stamps up to its number. */
  ghost predicate NumberedFile(w: World) {
    w.file.Some? ==> Parsed(w.file.value).Some? && AllDigits(Doc(w).revision) && Bounded(Doc(w))
  }

  /** What a step does to a file that is there before and after. */
  lemma StepFact(ws: seq<World>, session: string, acts: seq<Action>, k: nat)
    requires IsRun(ws, session, acts) && Inv(ws[0]) && k < |acts|
    ensures NumberedFile(ws[k]) && NumberedFile(ws[k + 1])
    ensures ws[k].file.Some? && ws[k + 1].file.Some? ==>
      if Applies(ws[k], acts[k]) then Stepped(Doc(ws[k]), Doc(ws[k + 1])) else ws[k + 1].file == ws[k].file
    ensures Applies(ws[k], acts[k]) ==>
      ws[k + 1].file.Some? && (acts[k].expected.Some? ==> acts[k].expected.value == Doc(ws[k]).revision)
  {
    RunInv(ws, session, acts, k);
    assert StepsAt(ws, session, acts, k);
    OneStep(ws[k], session, acts[k], ws[k + 1]);
  }

  lemma OneStep(w: World, session: string, a: Action, w': World)
    requires Inv(w) && Safe(session, a) && w' == Step(w, session, a)
    ensures NumberedFile(w) && NumberedFile(w')
    ensures w.file.Some? && w'.file.Some? ==> if Applies(w, a) then Stepped(Doc(w), Doc(w')) else w'.file == w.file
    ensures Applies(w, a) ==> w'.file.Some? && (a.expected.Some? ==> a.expected.value == Doc(w).revision)
  {
    StepKeeps(w, session, a);
    if a.Update? {
      StepUpdates(w, session, a);
    }
  }

  // ------------------------------------------------------------------------------- runs

  ghost predicate Unrevived(ws: seq<World>, acts: seq<Action>, i: nat, k: nat)
    requires |ws| == |acts| + 1 && i <= k < |ws|
  { forall j | i <= j < k :: !Stale(ws[j], acts[j]) }

  /** Which steps are applied writes. */
  ghost function Flags(ws: seq<World>, acts: seq<Action>): (flags: seq<bool>)
    requires |ws| == |acts| + 1
    ensures |flags| == |acts| && forall j | 0 <= j < |acts| :: flags[j] == Applies(ws[j], acts[j])
  { seq(|acts|, j requires 0 <= j < |acts| => Applies(ws[j], acts[j])) }

  function Trues(flags: seq<bool>): nat {
    if flags == [] then 0 else Trues(flags[..|flags| - 1]) + if flags[|flags| - 1] then 1 else 0
  }

  /** How many writes were applied from state `i` up to state `k`. */
  ghost function Applied(ws: seq<World>, acts: seq<Action>, i: nat, k: nat): nat
    requires |ws| == |acts| + 1 && i <= k < |ws|
  { Trues(Flags(ws, acts)[i..k]) }

  /** The file goes away only by a purge, and then only a stale caller brings it back. */
  lemma StepPresence(w: World, session: string, a: Action)
    requires !Stale(w, a)
    ensures w.suppressed ==> Step(w, session, a).suppressed
    ensures w.file.Some? && Step(w, session, a).file.None? ==> Step(w, session, a).suppressed
    ensures w.file.None? && w.suppressed ==> Step(w, session, a).file.None?
  {}

  lemma {:induction false} GoneForGood(ws: seq<World>, session: string, acts: seq<Action>, i: nat, k: nat)
    requires IsRun(ws, session, acts) && i <= k < |ws| && Unrevived(ws, acts, i, k)
    requires ws[i].file.Some? && ws[k].file.None?
    ensures ws[k].suppressed
    decreases k
  {
    assert StepsAt(ws, session, acts, k - 1);
    StepPresence(ws[k - 1], session, acts[k - 1]);
    if ws[k - 1].file.None? {
      GoneForGood(ws, session, acts, i, k - 1);
    }
  }

  /** A file that was there and is there now was never gone. */
  lemma PresentBefore(ws: seq<World>, session: string, acts: seq<Action>, i: nat, k: nat)
    requires IsRun(ws, session, acts) && i < k < |ws| && Unrevived(ws, acts, i, k)
    requires ws[i].file.Some? && ws[k].file.Some?
    ensures ws[k - 1].file.Some?
  {
    assert StepsAt(ws, session, acts, k - 1);
    StepPresence(ws[k - 1], session, acts[k - 1]);
    if ws[k - 1].file.None? {
      GoneForGood(ws, session, acts, i, k - 1);
    }
  }

  // ------------------------------------------------------------------- one life of the file

  /** The document is numbered and no stamp is larger than its number. */
  ghost predicate Known(d: Document) { AllDigits(d.revision) && Bounded(d) }

  ghost predicate Linked(d: Document, e: Document, applied: bool) { if applied then Stepped(d, e) else e == d }

  /** Successive documents; the flags say which steps were applied writes. */
  ghost predicate Life(ds: seq<Document>, flags: seq<bool>) {
    && |ds| == |flags| + 1 && Known(ds[0])
    && forall j | 0 <= j < |flags| :: Linked(ds[j], ds[j + 1], flags[j])
  }

  lemma LifeInit(ds: seq<Document>, flags: seq<bool>)
    requires Life(ds, flags) && flags != []
    ensures Life(ds[..|ds| - 1], flags[..|flags| - 1])
  {}

  lemma {:induction false} LifeCounts(ds: seq<Document>, flags: seq<bool>)
    requires Life(ds, flags)
    ensures Known(ds[|flags|]) && Count(ds[|flags|]) == Count(ds[0]) + Trues(flags)
    decreases |flags|
  {
    if flags != [] {
      var n := |flags| - 1;
      LifeInit(ds, flags);
      LifeCounts(ds[..|ds| - 1], flags[..n]);
      assert Linked(ds[n], ds[n + 1], flags[n]);
      if flags[n] {
        SteppedBounded(ds[n], ds[n + 1]);
      }
    }
  }

  /** A stamp that is there at both ends was never renewed in between. */
  lemma {:induction false} LifeStamps(ds: seq<Document>, flags: seq<bool>, id: string, stamp: string)
    requires Life(ds, flags) && stamp != ""
    requires id in ds[0].blocks && ds[0].blocks[id].revision == stamp
    requires id in ds[|flags|].blocks && ds[|flags|].blocks[id].revision == stamp
    ensures ds[0].blocks[id].start == ds[|flags|].blocks[id].start && ds[0].blocks[id].end == ds[|flags|].blocks[id].end
    decreases |flags|
  {
    if flags != [] {
      var n := |flags| - 1;
      LifeInit(ds, flags);
      LifeCounts(ds[..|ds| - 1], flags[..n]);
      assert Linked(ds[n], ds[n + 1], flags[n]);
      if flags[n] {
        KeptStamp(ds[n], ds[n + 1], id, stamp, DigitsValue(stamp));
      }
      LifeStamps(ds[..|ds| - 1], flags[..n], id, stamp);
    }
  }

  /** A stamp that is not newer than the state before a write was not made by that write. */
  lemma KeptStamp(d: Document, e: Document, id: string, stamp: string, n: nat)
    requires Stepped(d, e) && id in e.blocks && e.blocks[id].revision == stamp
    requires AllDigits(stamp) && n == DigitsValue(stamp) <= Count(d)
    ensures id in d.blocks && d.blocks[id].revision == stamp
    ensures d.blocks[id].start == e.blocks[id].start && d.blocks[id].end == e.blocks[id].end
  {
    assert BlockStep(BlockAt(d, id), e.blocks[id], e.revision);
  }

  /** A file that is there at both ends was there all the time. */
  lemma {:induction false} AlwaysPresent(ws: seq<World>, session: string, acts: seq<Action>, i: nat, k: nat, j: nat)
    requires IsRun(ws, session, acts) && i <= j <= k < |ws| && Unrevived(ws, acts, i, k)
    requires ws[i].file.Some? && ws[k].file.Some?
    ensures ws[j].file.Some?
    decreases k
  {
    if i < j < k {
      PresentBefore(ws, session, acts, i, k);
      AlwaysPresent(ws, session, acts, i, k - 1, j);
    }
  }

  function DocAt(w: World): Document {
    if w.file.Some? && Parsed(w.file.value).Some? then Doc(w) else EMPTY
  }

  /** The documents from state `i` up to state `k`. */
  function Docs(ws: seq<World>, i: nat, k: nat): (ds: seq<Document>)
    requires i <= k < |ws|
    ensures |ds| == k - i + 1 && forall j | 0 <= j <= k - i :: ds[j] == DocAt(ws[i + j])
  { seq(k - i + 1, j requires 0 <= j <= k - i => DocAt(ws[i + j])) }

  lemma StepLinks(ws: seq<World>, session: string, acts: seq<Action>, k: nat, flags: seq<bool>)
    requires IsRun(ws, session, acts) && Inv(ws[0]) && k < |acts| && ws[k].file.Some? && ws[k + 1].file.Some?
    requires flags == Flags(ws, acts)
    ensures Known(DocAt(ws[k])) && Linked(DocAt(ws[k]), DocAt(ws[k + 1]), flags[k])
  {
    StepFact(ws, session, acts, k);
  }

  lemma DocKnown(ws: seq<World>, session: string, acts: seq<Action>, k: nat)
    requires IsRun(ws, session, acts) && Inv(ws[0]) && k < |ws| && ws[k].file.Some?
    ensures Parsed(ws[k].file.value).Some? && Known(DocAt(ws[k]))
  {
    RunInv(ws, session, acts, k);
  }

  /** The states of a file that is there at both ends are one life of it. */
  lemma LifeOf(ws: seq<World>, session: string, acts: seq<Action>, i: nat, k: nat, ds: seq<Document>, flags: seq<bool>)
    requires IsRun(ws, session, acts) && Inv(ws[0]) && i <= k < |ws| && Unrevived(ws, acts, i, k)
    requires ws[i].file.Some? && ws[k].file.Some? && ds == Docs(ws, i, k) && flags == Flags(ws, acts)
    ensures Life(ds, flags[i..k])
  {
    DocKnown(ws, session, acts, i);
    forall j | 0 <= j < k - i ensures Linked(ds[j], ds[j + 1], flags[i + j]) {
      AlwaysPresent(ws, session, acts, i, k, i + j);
      AlwaysPresent(ws, session, acts, i, k, i + j + 1);
      StepLinks(ws, session, acts, i + j, flags);
    }
  }

  /** The file's revision counts exactly the applied writes, while no stale caller revives it. */
  lemma RevisionCountsWrites(ws: seq<World>, session: string, acts: seq<Action>, i: nat, k: nat)
    requires IsRun(ws, session, acts) && Inv(ws[0]) && i <= k < |ws| && Unrevived(ws, acts, i, k)
    requires ws[i].file.Some? && ws[k].file.Some?
    ensures AllDigits(DocAt(ws[i]).revision) && AllDigits(DocAt(ws[k]).revision)
    ensures Count(DocAt(ws[k])) == Count(DocAt(ws[i])) + Applied(ws, acts, i, k)
  {
    var ds, flags := Docs(ws, i, k), Flags(ws, acts);
    LifeOf(ws, session, acts, i, k, ds, flags);
    LifeEnds(ds, flags[i..k], DocAt(ws[i]), DocAt(ws[k]));
  }

  lemma LifeEnds(ds: seq<Document>, flags: seq<bool>, d: Document, e: Document)
    requires Life(ds, flags) && d == ds[0] && e == ds[|flags|]
    ensures AllDigits(d.revision) && AllDigits(e.revision) && Count(e) == Count(d) + Trues(flags)
  {
    LifeCounts(ds, flags);
  }

  /** Block `id` is in the file, stamped `stamp`. */
  predicate Carries(w: World, id: string, stamp: string) {
    && w.file.Some? && Parsed(w.file.value).Some? && id in Doc(w).blocks
    && stamp != "" && Doc(w).blocks[id].revision == stamp
  }

  /**
   * In any two states between which no stale caller revived the file, a block with the same
   * id and the same stamp has the same start and end.
   */
  lemma StampsIdentify(
      ws: seq<World>, session: string, acts: seq<Action>, i: nat, k: nat, id: string, stamp: string)
    requires IsRun(ws, session, acts) && Inv(ws[0]) && i <= k < |ws| && Unrevived(ws, acts, i, k)
    requires Carries(ws[i], id, stamp) && Carries(ws[k], id, stamp)
    ensures Doc(ws[i]).blocks[id].start == Doc(ws[k]).blocks[id].start
    ensures Doc(ws[i]).blocks[id].end == Doc(ws[k]).blocks[id].end
  {
    var ds, flags := Docs(ws, i, k), Flags(ws, acts);
    LifeOf(ws, session, acts, i, k, ds, flags);
    LifeStamps(ds, flags[i..k], id, stamp);
  }

  /** Of the writers that expect one revision, at most one is applied while the file lives. */
  lemma ExpectedRevisionOnce(ws: seq<World>, session: string, acts: seq<Action>, i: nat, k: nat)
    requires IsRun(ws, session, acts) && Inv(ws[0]) && i < k < |acts| && Unrevived(ws, acts, i, k)
    requires Applies(ws[i], acts[i]) && Applies(ws[k], acts[k]) && acts[i].expected.Some?
    ensures acts[i].expected != acts[k].expected
  {
    ExpectedMet(ws, session, acts, i);
    ExpectedMet(ws, session, acts, k);
    RevisionCountsWrites(ws, session, acts, i + 1, k);
  }

  /** An applied write found the revision it expected, and left the next one. */
  lemma ExpectedMet(ws: seq<World>, session: string, acts: seq<Action>, k: nat)
    requires IsRun(ws, session, acts) && Inv(ws[0]) && k < |acts| && Applies(ws[k], acts[k])
    ensures ws[k].file.Some? && ws[k + 1].file.Some?
    ensures AllDigits(DocAt(ws[k]).revision) && AllDigits(DocAt(ws[k + 1]).revision)
    ensures Count(DocAt(ws[k + 1])) == Count(DocAt(ws[k])) + 1
    ensures acts[k].expected.Some? ==> acts[k].expected.value == DocAt(ws[k]).revision
  {
    StepFact(ws, session, acts, k);
  }
}
