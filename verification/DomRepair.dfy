/** `_dedupe_meta_dom` on a whole document: what the repair writes, and when its write refuses. */
module DomRepair {
  import opened Text
  import opened Attrs
  import opened CortexModel
  import opened DomDedupe
  import CortexReader
  import CortexWriter
  import CortexStrict

  // ------------------------------------------------------------ when a document can be written

  predicate Printable(e: Entry) { CortexWriter.EntryText(e).Some? }

  predicate AllPrintable(es: seq<Entry>) { forall e | e in es :: Printable(e) }

  lemma PrintableConcat(a: seq<Entry>, b: seq<Entry>)
    ensures AllPrintable(a + b) <==> AllPrintable(a) && AllPrintable(b)
  {
    assert forall e | e in a :: e in a + b;
    assert forall e | e in b :: e in a + b;
  }

  lemma {:induction false} EntriesPrint(es: seq<Entry>)
    ensures CortexWriter.EntryLines(es).Some? <==> AllPrintable(es)
  {
    if es != [] {
      EntriesPrint(es[1..]);
      PrintableConcat([es[0]], es[1..]);
      assert es == [es[0]] + es[1..];
      assert AllPrintable([es[0]]) <==> Printable(es[0]) by { assert es[0] in [es[0]]; }
    }
  }

  lemma {:induction false} SectionsPrint(lines: seq<string>, sections: seq<Section>)
    ensures CortexWriter.AppendSections(lines, sections).Some? <==> AllPrintable(CortexWriter.AllEntries(sections))
    decreases |sections|
  {
    if sections != [] {
      EntriesPrint(sections[0].entries);
      PrintableConcat(sections[0].entries, CortexWriter.AllEntries(sections[1..]));
      if CortexWriter.AppendSection(lines, sections[0]).Some? {
        SectionsPrint(CortexWriter.AppendSection(lines, sections[0]).value, sections[1..]);
      }
    }
  }

  /** Strict sorting keeps every symbol that could fail to print, and adds none. */
  lemma {:induction false} KeptPrint(symbols: seq<Entry>, cache: CortexWriter.Cache)
    ensures AllPrintable(CortexWriter.KeptSymbols(symbols, cache)) <==> AllPrintable(symbols)
    ensures AllPrintable(CortexWriter.MovedSymbols(symbols, cache))
  {
    if symbols != [] {
      var e := symbols[0];
      KeptPrint(symbols[1..], cache);
      var fate := CortexWriter.SymbolFate(e, cache);
      var kept, moved := if fate.Kept? then [fate.e] else [], if fate.Moved? then [fate.e] else [];
      FatePrints(e, cache);
      PrintableConcat([e], symbols[1..]);
      assert symbols == [e] + symbols[1..];
      PrintableConcat(kept, CortexWriter.KeptSymbols(symbols[1..], cache));
      PrintableConcat(moved, CortexWriter.MovedSymbols(symbols[1..], cache));
    }
  }

  lemma FatePrints(e: Entry, cache: CortexWriter.Cache)
    ensures var fate := CortexWriter.SymbolFate(e, cache);
      && (fate.Kept? ==> (Printable(fate.e) <==> Printable(e)))
      && (!fate.Kept? ==> Printable(e)) && (fate.Moved? ==> Printable(fate.e))
  {}

  lemma {:induction false} GeneratedPrint(
      sigils: seq<string>, entries: seq<Entry>, declared: set<string>, cache: CortexWriter.Cache)
    ensures AllPrintable(CortexWriter.Generated(sigils, entries, declared, cache))
  {
    if sigils != [] {
      GeneratedPrint(sigils[1..], entries, declared, cache);
      var first := if sigils[0] in declared then []
        else [CortexWriter.SymbolDeclaration(sigils[0], CortexWriter.WithSigil(entries, sigils[0]), cache)];
      PrintableConcat(first, CortexWriter.Generated(sigils[1..], entries, declared, cache));
    }
  }

  /** A strict write succeeds exactly when every symbol and entry can be printed. */
  lemma WritesIff(doc: Document, cache: CortexWriter.Cache)
    ensures CortexWriter.Written(doc, true, cache).Some?
      <==> AllPrintable(doc.symbols) && AllPrintable(CortexWriter.AllEntries(doc.sections))
  {
    var p := CortexWriter.StrictPlan(doc, cache);
    GlossaryPrints(doc, cache, p);
    EntriesPrint(CortexWriter.Glossaries(p));
    PlanPrints(doc, cache, p);
    PlanWrites(doc, cache, p);
  }

  lemma GlossaryPrints(doc: Document, cache: CortexWriter.Cache, p: CortexWriter.Plan)
    requires p == CortexWriter.StrictPlan(doc, cache)
    ensures AllPrintable(CortexWriter.Glossaries(p)) <==> AllPrintable(doc.symbols)
  {
    KeptPrint(doc.symbols, cache);
    var entries := CortexWriter.AllEntries(doc.sections);
    var declared := CortexWriter.DeclaredSigils(p.kept);
    GeneratedPrint(CortexWriter.UsedSigils(entries), entries, declared, cache);
    var all := CortexWriter.AllEntries(p.sections);
    GeneratedPrint(CortexWriter.UsedSigils(all), all, declared + CortexWriter.DeclaredSigils(p.first), cache);
    PrintableConcat(p.kept, p.first);
    PrintableConcat(p.kept + p.first, p.second);
  }

  lemma PlanPrints(doc: Document, cache: CortexWriter.Cache, p: CortexWriter.Plan)
    requires p == CortexWriter.StrictPlan(doc, cache)
    ensures AllPrintable(CortexWriter.AllEntries(p.sections)) <==> AllPrintable(CortexWriter.AllEntries(doc.sections))
  {
    var all, before, moved := CortexWriter.AllEntries(p.sections), CortexWriter.AllEntries(doc.sections),
      CortexWriter.MovedSymbols(doc.symbols, cache);
    CortexStrict.StrictConserves(doc, cache);
    KeptPrint(doc.symbols, cache);
    forall e ensures e in all <==> e in before || e in moved {
      assert e in all <==> e in multiset(all);
      assert e in before <==> e in multiset(before);
      assert e in moved <==> e in multiset(moved);
    }
  }

  lemma PlanWrites(doc: Document, cache: CortexWriter.Cache, p: CortexWriter.Plan)
    requires p == CortexWriter.StrictPlan(doc, cache)
    requires CortexWriter.EntryLines(CortexWriter.Glossaries(p)).Some? <==> AllPrintable(CortexWriter.Glossaries(p))
    ensures CortexWriter.Written(doc, true, cache).Some?
      <==> AllPrintable(CortexWriter.Glossaries(p)) && AllPrintable(CortexWriter.AllEntries(p.sections))
  {
    var format := CortexWriter.Printed(doc, true, cache).2;
    if CortexWriter.EntryLines(CortexWriter.Glossaries(p)).Some? {
      var glossary := CortexWriter.EntryLines(CortexWriter.Glossaries(p)).value;
      SectionsPrint(CortexWriter.Prologue(doc) + glossary + format, p.sections);
    }
  }

  // -------------------------------------------------------------------------- the repair

  predicate IsWorkspace(sec: Section) { sec.id == "$2" }

  function DedupedSection(sec: Section): Section {
    if IsWorkspace(sec) then sec.(entries := Dedupe(sec.entries)) else sec
  }

  function DedupedSections(sections: seq<Section>): seq<Section> {
    seq(|sections|, i requires 0 <= i < |sections| => DedupedSection(sections[i]))
  }

  function Deduped(doc: Document): Document { doc.(sections := DedupedSections(doc.sections)) }

  /** No two entries of one identity in any `$2` section. */
  predicate UniqueIn(sections: seq<Section>) {
    forall i | 0 <= i < |sections| && IsWorkspace(sections[i]) :: NoDuplicates(Ids(sections[i].entries))
  }

  predicate Unique(doc: Document) { UniqueIn(doc.sections) }

  /** Some duplicate group's best-ranked entry has a body. */
  ghost predicate HasClash(sec: Section) { IsWorkspace(sec) && exists id :: Clashes(sec.entries, id) }

  ghost predicate ClashingIn(sections: seq<Section>) { exists sec :: sec in sections && HasClash(sec) }

  ghost predicate Clashing(doc: Document) { ClashingIn(doc.sections) }

  predicate DistinctAttrs(doc: Document) {
    forall i | 0 <= i < |doc.sections| && IsWorkspace(doc.sections[i]) :: AttrsDistinct(doc.sections[i].entries)
  }

  /** The text the repair writes; none when nothing changes or the write refuses. */
  ghost function Repair(doc: Document, cache: CortexWriter.Cache): Option<string> {
    if Unique(doc) || Clashing(doc) then None else CortexWriter.Written(Deduped(doc), true, cache)
  }

  /** What the file reads as afterwards; a file that is not written still reads as `doc`. */
  ghost function After(doc: Document, cache: CortexWriter.Cache): Document {
    match Repair(doc, cache) case Some(text) => CortexReader.Read(text) case None => doc
  }

  lemma DedupedIsUnique(doc: Document)
    requires DistinctAttrs(doc)
    ensures Unique(Deduped(doc))
  {
    var sections := DedupedSections(doc.sections);
    forall i | 0 <= i < |sections| && IsWorkspace(sections[i]) ensures NoDuplicates(Ids(sections[i].entries)) {
      DedupeLeavesNone(doc.sections[i].entries);
    }
  }

  /** A duplicate group whose best-ranked entry has a body keeps the whole file as it was. */
  lemma ClashStays(doc: Document, cache: CortexWriter.Cache, k: nat, id: string)
    requires k < |doc.sections| && IsWorkspace(doc.sections[k]) && Clashes(doc.sections[k].entries, id)
    ensures !Unique(doc) && Repair(doc, cache) == None && After(doc, cache) == doc
  {
    DuplicatedIsShared(Ids(doc.sections[k].entries), id);
    assert doc.sections[k] in doc.sections && HasClash(doc.sections[k]);
  }

  /** Two records of one project, `a` and `A`, that both hold prose: both stay. */
  lemma ProseStays(doc: Document, cache: CortexWriter.Cache, first: string, second: string)
    requires doc.sections == [Section("$2", None, [], [Entry("DOM", "a", Body(first)), Entry("DOM", "A", Body(second))])]
    ensures !Unique(doc) && Repair(doc, cache) == None && After(doc, cache) == doc
  {
    var es := doc.sections[0].entries;
    ProseClashes(es);
    ClashStays(doc, cache, 0, "a");
  }

  lemma ProseClashes(es: seq<Entry>)
    requires |es| == 2 && es[0].sigil == es[1].sigil == "DOM" && es[0].payload.Body? && es[1].payload.Body?
    requires es[0].name == "a" && es[1].name == "A"
    ensures Clashes(es, "a")
  {
    SameNames();
    ProseIdentity(es[0], "a");
    ProseIdentity(es[1], "a");
    SharedIsDuplicated(Ids(es), 0, 1);
    assert BestOf(es, "a") in es;
  }

  lemma ProseIdentity(e: Entry, id: string)
    requires e.sigil == "DOM" && e.payload.Body? && Normalize(e.name) == id
    ensures Identity(e) == id
  {
    assert AttrsOf(e) == [];
  }

  lemma SameNames()
    ensures Normalize("a") == "a" && Normalize("A") == "a"
  {
    TrimmedStrip("a");
    TrimmedStrip("A");
    assert CortexReader.Lower("a") == "a" && CortexReader.Lower("A") == "a";
    assert "a"[1..] == "" && Underscored("a") == "a";
  }

  // ------------------------------------------------------------ what a merge forgets

  /** The same entries but for the text of one body. */
  predicate SameButBody(es: seq<Entry>, fs: seq<Entry>, i: nat) {
    && i < |es| == |fs| && es[i].payload.Body? && fs[i].payload.Body? && es[i].sigil == fs[i].sigil && es[i].name == fs[i].name
    && forall k | 0 <= k < |es| && k != i :: es[k] == fs[k]
  }

  lemma {:induction false} SameInsert(es: seq<Entry>, fs: seq<Entry>, i: nat, id: string, at: nat, ranked: seq<nat>)
    requires SameButBody(es, fs, i) && at < |es| && Within(ranked, es)
    ensures InsertRank(es, id, at, ranked) == InsertRank(fs, id, at, ranked)
  {
    if ranked != [] {
      assert ranked[0] in ranked && forall x | x in ranked[1..] :: x in ranked;
      SameInsert(es, fs, i, id, at, ranked[1..]);
    }
  }

  lemma {:induction false} SameRanked(es: seq<Entry>, fs: seq<Entry>, i: nat, id: string, group: seq<nat>)
    requires SameButBody(es, fs, i) && Within(group, es)
    ensures Ranked(es, id, group) == Ranked(fs, id, group)
    decreases |group|
  {
    if group != [] {
      var n := |group| - 1;
      assert group[n] in group && forall x | x in group[..n] :: x in group;
      SameRanked(es, fs, i, id, group[..n]);
      SameInsert(es, fs, i, id, group[n], Ranked(es, id, group[..n]));
    }
  }

  lemma {:induction false} SameAttrs(es: seq<Entry>, fs: seq<Entry>, i: nat, at: seq<nat>)
    requires SameButBody(es, fs, i) && Within(at, es)
    ensures AttrsAt(es, at) == AttrsAt(fs, at)
  {
    if at != [] {
      assert at[0] in at && forall x | x in at[1..] :: x in at;
      SameAttrs(es, fs, i, at[1..]);
    }
  }

  lemma SameIds(es: seq<Entry>, fs: seq<Entry>, i: nat)
    requires SameButBody(es, fs, i)
    ensures Ids(es) == Ids(fs)
  {
    forall k | 0 <= k < |es| ensures Ids(es)[k] == Ids(fs)[k] {}
  }

  lemma SameMerged(es: seq<Entry>, fs: seq<Entry>, i: nat, id: string)
    requires SameButBody(es, fs, i)
    ensures Ranking(es, id) == Ranking(fs, id) && Merged(es, id) == Merged(fs, id)
  {
    SameIds(es, fs, i);
    SameRanked(es, fs, i, id, Members(Ids(es), id));
    SameAttrs(es, fs, i, Ranking(es, id));
  }

  /** The body of an entry that loses its group reaches nothing: any other text gives the same result. */
  lemma LosingBodyIsDropped(es: seq<Entry>, fs: seq<Entry>, i: nat)
    requires SameButBody(es, fs, i) && Loses(es, i)
    ensures Dedupe(es) == Dedupe(fs)
  {
    SameIds(es, fs, i);
    forall k | 0 <= k < |es| ensures Fate(es, k) == Fate(fs, k) {
      SameMerged(es, fs, i, Ids(es)[k]);
    }
    assert AllFates(es) == AllFates(fs);
  }

  // ------------------------------------------------------------------------- the loop

  datatype Report = Report(removed: nat, canonical: seq<string>, changed: bool)

  function Removed(sections: seq<Section>): int {
    if sections == [] then 0
    else
      var last := sections[|sections| - 1];
      Removed(sections[..|sections| - 1]) + if IsWorkspace(last) then |last.entries| - |Dedupe(last.entries)| else 0
  }

  lemma RemovesIffDuplicates(es: seq<Entry>)
    ensures |Dedupe(es)| <= |es|
    ensures |Dedupe(es)| == |es| <==> NoDuplicates(Ids(es))
  {
    FlattenCount(AllFates(es));
    LosersAreEmpty(es);
    LosersIffDuplicates(es);
  }

  lemma LosersIffDuplicates(es: seq<Entry>)
    ensures LoserSet(es) == {} <==> NoDuplicates(Ids(es))
  {
    if !NoDuplicates(Ids(es)) {
      DuplicatesLose(es);
    } else if LoserSet(es) != {} {
      var i :| i in LoserSet(es);
      DuplicatedIsShared(Ids(es), Ids(es)[i]);
    }
  }

  lemma DuplicatesLose(es: seq<Entry>)
    requires !NoDuplicates(Ids(es))
    ensures LoserSet(es) != {}
  {
    var i, j :| 0 <= i < j < |Ids(es)| && Ids(es)[i] != "" && Ids(es)[i] == Ids(es)[j];
    FateAlone(es, i, j);
    EmptyFateLoses(es, i);
    EmptyFateLoses(es, j);
  }

  lemma EmptyFateLoses(es: seq<Entry>, i: nat)
    requires i < |es|
    ensures Fate(es, i) == [] ==> i in LoserSet(es)
  {}

  lemma UniqueSnoc(init: seq<Section>, sec: Section)
    ensures UniqueIn(init + [sec]) <==> UniqueIn(init) && (IsWorkspace(sec) ==> NoDuplicates(Ids(sec.entries)))
  {
    var all := init + [sec];
    assert forall i | 0 <= i < |init| :: all[i] == init[i];
    assert all[|init|] == sec;
  }

  lemma ClashSnoc(init: seq<Section>, sec: Section)
    ensures ClashingIn(init + [sec]) <==> ClashingIn(init) || HasClash(sec)
  {
    assert forall x :: x in init + [sec] <==> x in init || x == sec;
  }

  lemma ResultSnoc(init: seq<Section>, sec: Section)
    ensures DedupedSections(init + [sec]) == DedupedSections(init) + [DedupedSection(sec)]
    ensures Removed(init + [sec]) == Removed(init) + if IsWorkspace(sec) then |sec.entries| - |Dedupe(sec.entries)| else 0
  {
    assert (init + [sec])[..|init|] == init;
  }

  /** `changed` tells whether the file was written; `removed` counts merged entries even when it was not. */
  method RepairDocument(doc: Document, cache: CortexWriter.Cache) returns (text: Option<string>, report: Report)
    ensures text == Repair(doc, cache)
    ensures report.removed == Removed(doc.sections) && (report.changed <==> text.Some?)
  {
    var sections, canonical, removed, clash := DedupeSections(doc.sections);
    text := None;
    if removed > 0 && !clash {
      text := CortexWriter.WriteCortex(doc.(sections := sections), true, cache);
    }
    report := Report(removed, canonical, text.Some?);
  }

  method DedupeSections(all: seq<Section>)
    returns (sections: seq<Section>, canonical: seq<string>, removed: nat, clash: bool)
    ensures sections == DedupedSections(all) && removed == Removed(all) && (removed == 0 <==> UniqueIn(all))
    ensures clash <==> ClashingIn(all)
  {
    sections, canonical, removed, clash := [], [], 0, false;
    for i := 0 to |all|
      invariant sections == DedupedSections(all[..i]) && removed == Removed(all[..i])
      invariant removed == 0 <==> UniqueIn(all[..i])
      invariant clash <==> ClashingIn(all[..i])
    {
      assert all[..i + 1] == all[..i] + [all[i]];
      UniqueSnoc(all[..i], all[i]);
      ClashSnoc(all[..i], all[i]);
      ResultSnoc(all[..i], all[i]);
      var sec, names, gone, refused := DedupeOne(all[i]);
      sections, canonical, removed, clash := sections + [sec], canonical + names, removed + gone, clash || refused;
    }
    assert all[..|all|] == all;
  }

  method DedupeOne(sec: Section) returns (out: Section, names: seq<string>, gone: nat, refused: bool)
    ensures out == DedupedSection(sec) && gone == if IsWorkspace(sec) then |sec.entries| - |Dedupe(sec.entries)| else 0
    ensures gone == 0 <==> (IsWorkspace(sec) ==> NoDuplicates(Ids(sec.entries)))
    ensures refused <==> HasClash(sec)
  {
    out, names, gone, refused := sec, [], 0, false;
    if IsWorkspace(sec) {
      var rebuilt;
      rebuilt, gone, names, refused := DedupeEntries(sec.entries);
      RemovesIffDuplicates(sec.entries);
      out := sec.(entries := rebuilt);
    }
  }
}
