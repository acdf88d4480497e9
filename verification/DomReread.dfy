/** What a repaired workspace file reads as: when no duplicate is left, and when a second repair changes nothing. */
module DomReread {
  import opened Text
  import opened Attrs
  import opened CortexModel
  import opened CortexEntries
  import opened CortexRoundTrip
  import opened CortexDocument
  import opened CortexStrictRoundTrip
  import opened DomDedupe
  import opened DomRepair
  import CortexReader
  import CortexScan
  import CortexStrict
  import CortexWriter

  // ------------------------------------------------------------ documents that read back

  /** An entry that is read back whole, or one that stops the write. */
  predicate FitEntry(e: Entry) { Printable(e) ==> ReadableEntry(e) }

  predicate FitEntries(es: seq<Entry>) { forall e | e in es :: FitEntry(e) }

  predicate FitSection(sec: Section) { ReadableSection(sec.(entries := [])) && FitEntries(sec.entries) }

  predicate FitSections(sections: seq<Section>) { forall i | 0 <= i < |sections| :: FitSection(sections[i]) }

  predicate FitDocument(doc: Document) {
    && doc.header == "$0" && (forall c | c in doc.comments :: IsCommentLine(c))
    && FitEntries(doc.symbols) && FitSections(doc.sections)
  }

  lemma FitPrintable(es: seq<Entry>)
    requires FitEntries(es) && AllPrintable(es)
    ensures AllReadable(es)
  {}

  lemma {:induction false} SectionsFitPrintable(sections: seq<Section>)
    requires FitSections(sections) && AllPrintable(CortexWriter.AllEntries(sections))
    ensures ReadableSections(sections)
  {
    if sections != [] {
      var sec := sections[0];
      PrintableConcat(sec.entries, CortexWriter.AllEntries(sections[1..]));
      FitPrintable(sec.entries);
      SectionsFitPrintable(sections[1..]);
      assert sections == [sec] + sections[1..];
      assert sec.comments == sec.(entries := []).comments;
    }
  }

  /** Without entries that stop the write, a fit document is readable. */
  lemma FitReadable(doc: Document)
    requires FitDocument(doc) && AllPrintable(doc.symbols) && AllPrintable(CortexWriter.AllEntries(doc.sections))
    ensures ReadableDocument(doc)
  {
    FitPrintable(doc.symbols);
    SectionsFitPrintable(doc.sections);
  }

  // ------------------------------------------------------------------ merging keeps fitness

  lemma {:induction false} LookupMember(attrs: AttrMap, k: string)
    ensures ValueOf(attrs, k).None? <==> forall a | a in attrs :: a.key != k
    ensures ValueOf(attrs, k).Some? ==> Attr(k, ValueOf(attrs, k).value) in attrs
  {
    if attrs != [] {
      LookupMember(attrs[1..], k);
      assert attrs == [attrs[0]] + attrs[1..];
    }
  }

  lemma {:induction false} DistinctIff(attrs: AttrMap)
    ensures Distinct(attrs) <==> DistinctKeys(attrs)
  {
    if attrs != [] {
      DistinctIff(attrs[1..]);
      LookupMember(attrs[1..], attrs[0].key);
      var rest := attrs[1..];
      if DistinctKeys(attrs) {
        forall i, j | 0 <= i < j < |rest| ensures rest[i].key != rest[j].key {
          assert attrs[i + 1] == rest[i] && attrs[j + 1] == rest[j];
        }
        forall a | a in rest ensures a.key != attrs[0].key {
          var j :| 0 <= j < |rest| && rest[j] == a;
          assert attrs[0].key != attrs[j + 1].key;
        }
      } else if Distinct(attrs) {
        forall i, j | 0 <= i < j < |attrs| ensures attrs[i].key != attrs[j].key {
          assert attrs[j] == rest[j - 1];
          if i > 0 { assert attrs[i] == rest[i - 1]; }
        }
      }
    }
  }

  lemma {:induction false} PutFits(attrs: AttrMap, key: string, v: Value)
    requires Distinct(attrs) && FitAttrs(attrs) && FitAttr(Attr(key, v))
    ensures Distinct(Put(attrs, key, v)) && FitAttrs(Put(attrs, key, v))
  {
    if attrs != [] {
      assert attrs[0] in attrs && forall a | a in attrs[1..] :: a in attrs;
      if attrs[0].key == key {
        assert ([Attr(key, v)] + attrs[1..])[1..] == attrs[1..];
      } else {
        PutFits(attrs[1..], key, v);
        ValueOfPut(attrs[1..], key, v, attrs[0].key);
        var more := Put(attrs[1..], key, v);
        assert ([attrs[0]] + more)[1..] == more;
      }
    }
  }

  lemma {:induction false} FillFits(base: AttrMap, attrs: AttrMap)
    requires Distinct(base) && FitAttrs(base) && FitAttrs(attrs)
    ensures Distinct(FillFrom(base, attrs)) && FitAttrs(FillFrom(base, attrs))
    decreases |attrs|
  {
    if attrs != [] {
      var a := attrs[0];
      assert a in attrs && forall x | x in attrs[1..] :: x in attrs;
      PutFits(base, a.key, a.value);
      FillFits(if Blank(base, a.key) then Put(base, a.key, a.value) else base, attrs[1..]);
    }
  }

  lemma {:induction false} MergeFits(base: AttrMap, others: seq<AttrMap>)
    requires Distinct(base) && FitAttrs(base) && forall o | o in others :: FitAttrs(o)
    ensures Distinct(MergedAttrs(base, others)) && FitAttrs(MergedAttrs(base, others))
    decreases |others|
  {
    if others != [] {
      assert others[0] in others && forall o | o in others[1..] :: o in others;
      FillFits(base, others[0]);
      MergeFits(FillFrom(base, others[0]), others[1..]);
    }
  }

  lemma FitEntryAttrs(e: Entry)
    requires FitEntry(e)
    ensures Distinct(AttrsOf(e)) && FitAttrs(AttrsOf(e))
  {
    ReadablePairsFit(AttrsOf(e));
    DistinctIff(AttrsOf(e));
  }

  lemma {:induction false} AttrsAtFit(es: seq<Entry>, at: seq<nat>)
    requires Within(at, es) && FitEntries(es)
    ensures |AttrsAt(es, at)| == |at| && forall o | o in AttrsAt(es, at) :: Distinct(o) && FitAttrs(o)
  {
    if at != [] {
      assert at[0] in at && forall x | x in at[1..] :: x in at;
      assert es[at[0]] in es;
      FitEntryAttrs(es[at[0]]);
      AttrsAtFit(es, at[1..]);
    }
  }

  lemma DomName(id: string)
    requires id != "" && forall c | c in id :: IsDomChar(c)
    ensures IsName(id)
  {}

  lemma IdentityChars(e: Entry)
    ensures forall c | c in Identity(e) :: IsDomChar(c)
  {
    if e.sigil == "DOM" {
      UnderscoredChars(CortexReader.Lower(Strip(TextOr(AttrsOf(e), "name", e.name))));
    }
  }

  lemma DomSigil()
    ensures IsSigil("DOM")
  {
    assert "DOM"[1..] == "OM" && "OM"[1..] == "M" && "M"[1..] == "";
  }

  /** What stands for a group is read back whole. */
  lemma MergedReadable(es: seq<Entry>, i: nat)
    requires FitEntries(es) && i < |es| && Duplicated(Ids(es), Ids(es)[i])
    ensures ReadableEntry(DomDedupe.Merged(es, Ids(es)[i]))
  {
    var id := Ids(es)[i];
    var at := Ranking(es, id);
    AttrsAtFit(es, at);
    var all := AttrsAt(es, at);
    assert all == [all[0]] + all[1..] && all[0] in all && forall o | o in all[1..] :: o in all;
    MergeFits(all[0], all[1..]);
    DistinctIff(MergedAttrs(all[0], all[1..]));
    ReadablePairsFit(MergedAttrs(all[0], all[1..]));
    IdentityChars(es[i]);
    DomName(id);
    DomSigil();
  }

  lemma FatesFit(es: seq<Entry>, i: nat)
    requires FitEntries(es) && i < |es|
    ensures forall e | e in Fate(es, i) :: FitEntry(e)
  {
    assert es[i] in es;
    if Duplicated(Ids(es), Ids(es)[i]) {
      MergedReadable(es, i);
    }
  }

  /** Every entry of the result is what became of some entry. */
  lemma DedupedFrom(es: seq<Entry>, e: Entry) returns (i: nat)
    requires e in Dedupe(es)
    ensures i < |es| && e in Fate(es, i)
  {
    DedupeInOrder(es);
    var k :| 0 <= k < |Dedupe(es)| && Dedupe(es)[k] == e;
    i := Survivors(AllFates(es))[k];
    assert [Dedupe(es)[k]] == Fate(es, i);
  }

  lemma DedupeFits(es: seq<Entry>)
    requires FitEntries(es)
    ensures FitEntries(Dedupe(es))
  {
    forall e | e in Dedupe(es) ensures FitEntry(e) {
      var i := DedupedFrom(es, e);
      FatesFit(es, i);
    }
  }

  lemma DedupedFits(doc: Document)
    requires FitDocument(doc)
    ensures FitDocument(Deduped(doc)) && DistinctAttrs(doc)
  {
    var sections := DedupedSections(doc.sections);
    forall i | 0 <= i < |sections| ensures FitSection(sections[i]) {
      DedupeFits(doc.sections[i].entries);
      assert sections[i].(entries := []) == doc.sections[i].(entries := []);
    }
    forall i | 0 <= i < |doc.sections| && IsWorkspace(doc.sections[i]) ensures AttrsDistinct(doc.sections[i].entries) {
      var es := doc.sections[i].entries;
      forall k | 0 <= k < |es| ensures Distinct(AttrsOf(es[k])) {
        assert es[k] in es;
        FitEntryAttrs(es[k]);
      }
    }
  }

  // ---------------------------------------------------------------- the workspace sections

  /** The entries of each `$2` section. */
  function Workspaces(sections: seq<Section>): seq<seq<Entry>> {
    if sections == [] then []
    else (if IsWorkspace(sections[0]) then [sections[0].entries] else []) + Workspaces(sections[1..])
  }

  lemma {:induction false} WorkspacesConcat(a: seq<Section>, b: seq<Section>)
    ensures Workspaces(a + b) == Workspaces(a) + Workspaces(b)
  {
    if a == [] {
      assert a + b == b;
    } else {
      assert (a + b)[1..] == a[1..] + b;
      WorkspacesConcat(a[1..], b);
    }
  }

  lemma {:induction false} WorkspaceMember(sections: seq<Section>, es: seq<Entry>)
    ensures es in Workspaces(sections) <==> exists sec :: sec in sections && IsWorkspace(sec) && sec.entries == es
  {
    if sections != [] {
      WorkspaceMember(sections[1..], es);
      assert forall sec :: sec in sections <==> sec == sections[0] || sec in sections[1..];
    }
  }

  lemma UniqueByWorkspaces(sections: seq<Section>)
    ensures UniqueIn(sections) <==> forall es | es in Workspaces(sections) :: NoDuplicates(Ids(es))
  {
    forall es ensures es in Workspaces(sections) <==> exists sec :: sec in sections && IsWorkspace(sec) && sec.entries == es {
      WorkspaceMember(sections, es);
    }
    if forall es | es in Workspaces(sections) :: NoDuplicates(Ids(es)) {
      forall i | 0 <= i < |sections| && IsWorkspace(sections[i]) ensures NoDuplicates(Ids(sections[i].entries)) {
        assert sections[i] in sections && sections[i].entries in Workspaces(sections);
      }
    }
  }

  lemma ClashByWorkspaces(sections: seq<Section>)
    ensures ClashingIn(sections) <==> exists es, id :: es in Workspaces(sections) && Clashes(es, id)
  {
    forall es ensures es in Workspaces(sections) <==> exists sec :: sec in sections && IsWorkspace(sec) && sec.entries == es {
      WorkspaceMember(sections, es);
    }
    if ClashingIn(sections) {
      var sec :| sec in sections && HasClash(sec);
      var id :| Clashes(sec.entries, id);
      assert sec.entries in Workspaces(sections) && Clashes(sec.entries, id);
    }
  }

  /** Two lists of sections with the same workspace entries are alike for the repair. */
  lemma SameWorkspaces(a: seq<Section>, b: seq<Section>)
    requires Workspaces(a) == Workspaces(b)
    ensures UniqueIn(a) <==> UniqueIn(b)
    ensures ClashingIn(a) <==> ClashingIn(b)
  {
    UniqueByWorkspaces(a);
    UniqueByWorkspaces(b);
    ClashByWorkspaces(a);
    ClashByWorkspaces(b);
  }

  // ---------------------------------------------- strict normalisation keeps the workspaces

  /** The merged metadata section is not a workspace. */
  ghost predicate MergesApart(m: CortexWriter.Merge) {
    CortexWriter.ValidMerge(m) && (m.at.Some? ==> !IsWorkspace(m.out[m.at.value]))
  }

  lemma GrowApart(out: seq<Section>, k: nat, more: seq<Entry>)
    requires k < |out| && !IsWorkspace(out[k])
    ensures Workspaces(out[k := out[k].(entries := out[k].entries + more)]) == Workspaces(out)
  {
    var sec := out[k].(entries := out[k].entries + more);
    var front, back := out[..k], out[k + 1..];
    assert out == front + ([out[k]] + back) && out[k := sec] == front + ([sec] + back);
    WorkspacesConcat(front, [out[k]] + back);
    WorkspacesConcat(front, [sec] + back);
    assert ([out[k]] + back)[1..] == back && ([sec] + back)[1..] == back;
  }

  lemma MergeStepApart(m: CortexWriter.Merge, sec: Section)
    requires MergesApart(m)
    ensures MergesApart(CortexWriter.MergeStep(m, sec))
    ensures Workspaces(CortexWriter.MergeStep(m, sec).out) == Workspaces(m.out) + Workspaces([sec])
  {
    var r := CortexWriter.MergeStep(m, sec);
    assert [sec][1..] == [];
    if CortexWriter.IsMetadata(sec, m.at.Some?) && m.at.Some? {
      GrowApart(m.out, m.at.value, sec.entries);
    } else {
      var last := r.out[|m.out|];
      assert r.out == m.out + [last] && [last][1..] == [];
      WorkspacesConcat(m.out, [last]);
    }
  }

  lemma {:induction false} MergedApart(sections: seq<Section>, m: CortexWriter.Merge)
    requires MergesApart(m)
    ensures Workspaces(CortexWriter.Merged(sections, m).out) == Workspaces(m.out) + Workspaces(sections)
    decreases |sections|
  {
    if sections != [] {
      MergeStepApart(m, sections[0]);
      MergedApart(sections[1..], CortexWriter.MergeStep(m, sections[0]));
      WorkspacesConcat([sections[0]], sections[1..]);
      assert [sections[0]] + sections[1..] == sections;
      ConcatAssoc(Workspaces(m.out), Workspaces([sections[0]]), Workspaces(sections[1..]));
    } else {
      assert Workspaces(m.out) + [] == Workspaces(m.out);
    }
  }

  lemma WorkspaceNumber()
    ensures CortexWriter.IdNumber("$2") == Some(2)
  {
    assert "$2"[1..] == "2" && "2"[1..] == "";
    assert CortexWriter.LStripDollar("$2") == "2";
    SplitPlain("2", '.');
    assert DigitsValue("2") == 2 by { assert "2"[..0] == ""; }
  }

  lemma {:induction false} MaxIdAbove(sections: seq<Section>)
    requires Workspaces(sections) != []
    ensures CortexWriter.MaxId(sections) >= 2
  {
    if IsWorkspace(sections[0]) {
      WorkspaceNumber();
    } else {
      MaxIdAbove(sections[1..]);
    }
  }

  lemma NumberedApart(n: nat)
    requires n >= 3
    ensures "$" + NatToString(n) != "$2"
  {
    NatRoundTrip(n);
    NatRoundTrip(2);
    assert ("$" + NatToString(n))[1..] == NatToString(n) && "$2"[1..] == NatToString(2);
  }

  /** A strict write changes no workspace section. */
  lemma StrictKeepsWorkspaces(doc: Document, cache: CortexWriter.Cache)
    requires Workspaces(doc.sections) != []
    ensures Workspaces(CortexWriter.StrictPlan(doc, cache).sections) == Workspaces(doc.sections)
  {
    var legacy := CortexWriter.MovedSymbols(doc.symbols, cache);
    MaxIdAbove(doc.sections);
    var migrated := CortexWriter.MigratedSection(doc.sections, legacy);
    NumberedApart(CortexWriter.MaxId(doc.sections) + 1);
    assert !IsWorkspace(migrated);
    var sections := CortexWriter.WithMigrated(doc.sections, legacy);
    assert ([migrated] + doc.sections)[1..] == doc.sections;
    MergedApart(sections, CortexWriter.Merge([], None));
  }

  lemma {:induction false} BackWorkspaces(a: seq<Section>, b: seq<Section>)
    requires Workspaces(a) == Workspaces(b)
    ensures Workspaces(SectionsBack(a)) == Workspaces(SectionsBack(b))
  {
    WorkspacesBack(a);
    WorkspacesBack(b);
  }

  function AllBack(all: seq<seq<Entry>>): seq<seq<Entry>> {
    if all == [] then [] else [EntriesBack(all[0])] + AllBack(all[1..])
  }

  lemma {:induction false} WorkspacesBack(sections: seq<Section>)
    ensures Workspaces(SectionsBack(sections)) == AllBack(Workspaces(sections))
  {
    if sections != [] {
      WorkspacesBack(sections[1..]);
      assert SectionsBack(sections)[1..] == SectionsBack(sections[1..]);
      var more := Workspaces(sections[1..]);
      if IsWorkspace(sections[0]) {
        assert ([sections[0].entries] + more)[1..] == more;
      } else {
        assert [] + more == more;
        assert [] + Workspaces(SectionsBack(sections[1..])) == Workspaces(SectionsBack(sections[1..]));
      }
    }
  }

  // ------------------------------------------------------------------- the repaired file

  /** The deduplicated sections with every entry as it is read back. */
  function RepairedSections(doc: Document): seq<Section> { SectionsBack(DedupedSections(doc.sections)) }

  lemma DuplicatesHaveWorkspace(doc: Document)
    requires !Unique(doc)
    ensures Workspaces(DedupedSections(doc.sections)) != []
  {
    var i :| 0 <= i < |doc.sections| && IsWorkspace(doc.sections[i]) && !NoDuplicates(Ids(doc.sections[i].entries));
    var sec := DedupedSections(doc.sections)[i];
    WorkspaceMember(DedupedSections(doc.sections), sec.entries);
    assert sec in DedupedSections(doc.sections) && IsWorkspace(sec);
  }

  lemma WritesReadable(doc: Document, cache: CortexWriter.Cache)
    requires FitDocument(doc) && Repair(doc, cache).Some?
    ensures ReadableDocument(Deduped(doc))
  {
    DedupedFits(doc);
    WritesIff(Deduped(doc), cache);
    FitReadable(Deduped(doc));
  }

  /** After a write, the file reads as the normalised document, with the merged workspaces. */
  lemma RepairedFile(doc: Document, cache: CortexWriter.Cache)
    requires FitDocument(doc) && FitCache(cache) && Repair(doc, cache).Some?
    ensures After(doc, cache) == DocumentBack(StrictDocument(Deduped(doc), cache))
    ensures Workspaces(After(doc, cache).sections) == Workspaces(RepairedSections(doc))
  {
    WritesReadable(doc, cache);
    StrictRoundTrip(Deduped(doc), cache);
    DuplicatesHaveWorkspace(doc);
    StrictKeepsWorkspaces(Deduped(doc), cache);
    BackWorkspaces(CortexWriter.StrictPlan(Deduped(doc), cache).sections, DedupedSections(doc.sections));
  }

  /**
   * The file that the repair leaves has no duplicates if and only if there were none, or the
   * best-ranked entry of every duplicate group is an attributes entry, every other entry can be
   * printed, and dropping the whitespace before the first line break of each entry gives no two
   * of them one identity.
   */
  lemma RepairLeavesNone(doc: Document, cache: CortexWriter.Cache)
    requires FitDocument(doc) && FitCache(cache)
    ensures Unique(After(doc, cache)) <==>
      || Unique(doc)
      || (&& !Clashing(doc) && AllPrintable(doc.symbols)
          && AllPrintable(CortexWriter.AllEntries(DedupedSections(doc.sections)))
          && UniqueIn(RepairedSections(doc)))
  {
    WritesIff(Deduped(doc), cache);
    if Repair(doc, cache).Some? {
      RepairedFile(doc, cache);
      SameWorkspaces(After(doc, cache).sections, RepairedSections(doc));
    }
  }

  // --------------------------------------------------------------------- a second repair

  lemma {:induction false} BackPrints(es: seq<Entry>)
    requires AllReadable(es)
    ensures AllPrintable(EntriesBack(es)) && AllPrintable(SymbolsBack(es))
  {
    if es != [] {
      assert es[0] in es && forall e | e in es[1..] :: e in es;
      BackPrints(es[1..]);
      assert Printable(EntryBack(es[0]));
      PrintableConcat([EntryBack(es[0])], EntriesBack(es[1..]));
      PrintableConcat(if HiddenInGlossary(es[0]) then [] else [EntryBack(es[0])], SymbolsBack(es[1..]));
    }
  }

  lemma DedupePrints(es: seq<Entry>)
    requires AllPrintable(es)
    ensures AllPrintable(Dedupe(es))
  {
    forall e | e in Dedupe(es) ensures Printable(e) {
      var i := DedupedFrom(es, e);
      assert es[i] in es;
    }
  }

  lemma {:induction false} SectionsBackPrint(sections: seq<Section>)
    requires ReadableSections(sections)
    ensures AllPrintable(CortexWriter.AllEntries(DedupedSections(SectionsBack(sections))))
  {
    if sections != [] {
      var sec := SectionBack(sections[0]);
      assert sections[0] in sections && forall x | x in sections[1..] :: x in sections;
      SectionsBackPrint(sections[1..]);
      BackPrints(sections[0].entries);
      DedupePrints(sec.entries);
      var rest := SectionsBack(sections[1..]);
      assert DedupedSections([sec] + rest)[1..] == DedupedSections(rest);
      PrintableConcat(DedupedSection(sec).entries, CortexWriter.AllEntries(DedupedSections(rest)));
    }
  }

  lemma RepairedWrites(doc: Document, cache: CortexWriter.Cache)
    requires FitDocument(doc) && FitCache(cache) && Repair(doc, cache).Some?
    ensures CortexWriter.Written(Deduped(After(doc, cache)), true, cache).Some?
  {
    RepairedFile(doc, cache);
    WritesReadable(doc, cache);
    StrictReadable(Deduped(doc), cache);
    var strict := StrictDocument(Deduped(doc), cache);
    BackPrints(strict.symbols);
    SectionsBackPrint(strict.sections);
    WritesIff(Deduped(After(doc, cache)), cache);
  }

  /** Repairing the repaired file writes nothing, exactly when the trimmed entries have no duplicates or clash. */
  lemma RepairTwice(doc: Document, cache: CortexWriter.Cache)
    requires FitDocument(doc) && FitCache(cache) && Repair(doc, cache).Some?
    ensures Repair(After(doc, cache), cache) == None
      <==> UniqueIn(RepairedSections(doc)) || ClashingIn(RepairedSections(doc))
  {
    RepairedFile(doc, cache);
    RepairedWrites(doc, cache);
    SameWorkspaces(After(doc, cache).sections, RepairedSections(doc));
  }

  // ------------------------------------------------------------------ names on one line

  /** A `DOM` entry whose `name` goes over a line break. */
  predicate BrokenName(e: Entry) { e.sigil == "DOM" && BrokenValue(ValueOf(AttrsOf(e), "name")) }

  predicate BrokenValue(v: Option<Value>) { v.Some? && v.value.VStr? && '\n' in v.value.s }

  predicate OneLineNames(doc: Document) {
    forall i | 0 <= i < |doc.sections| && IsWorkspace(doc.sections[i]) :: NoneBroken(doc.sections[i].entries)
  }

  predicate NoneBroken(es: seq<Entry>) { forall e | e in es :: !BrokenName(e) }

  lemma {:induction false} TrimFirstLookup(attrs: AttrMap, k: string)
    requires !BrokenValue(ValueOf(attrs, k))
    ensures ValueOf(TrimFirst(attrs), k) == ValueOf(attrs, k)
  {
    if attrs != [] && attrs[0].key != k {
      if attrs[0].value.VStr? && '\n' in attrs[0].value.s {
        var first := Attr(attrs[0].key, VStr(TrimBreak(attrs[0].value.s)));
        assert ([first] + attrs[1..])[1..] == attrs[1..];
      } else {
        TrimFirstLookup(attrs[1..], k);
        assert ([attrs[0]] + TrimFirst(attrs[1..]))[1..] == TrimFirst(attrs[1..]);
      }
    }
  }

  lemma {:induction false} DropNoneLookup(attrs: AttrMap, k: string)
    requires Distinct(attrs)
    ensures var v := ValueOf(attrs, k);
      ValueOf(DropNone(attrs), k) == if v == Some(VNone) then None else v
  {
    if attrs != [] {
      DropNoneLookup(attrs[1..], k);
      var rest := DropNone(attrs[1..]);
      assert ([attrs[0]] + rest)[1..] == rest && [] + rest == rest;
    }
  }

  /** Reading back changes no identity but that of an entry whose name goes over a line break. */
  lemma BackIdentity(e: Entry)
    requires FitEntry(e) && !BrokenName(e)
    ensures Identity(EntryBack(e)) == Identity(e)
  {
    if e.payload.Pairs? && e.sigil == "DOM" {
      FitEntryAttrs(e);
      DropNoneLookup(e.payload.attrs, "name");
      TrimFirstLookup(DropNone(e.payload.attrs), "name");
    }
  }

  lemma {:induction false} FirstFilledFrom(es: seq<Entry>, at: seq<nat>, k: string) returns (i: nat)
    requires Within(at, es) && FirstFilled(AttrsAt(es, at), k).Some?
    ensures i in at && ValueOf(AttrsOf(es[i]), k) == FirstFilled(AttrsAt(es, at), k)
  {
    assert at[0] in at && forall x | x in at[1..] :: x in at;
    if !Blank(AttrsOf(es[at[0]]), k) {
      i := at[0];
    } else {
      assert AttrsAt(es, at)[1..] == AttrsAt(es, at[1..]);
      i := FirstFilledFrom(es, at[1..], k);
    }
  }

  lemma MergedNameWhole(es: seq<Entry>, id: string)
    requires AttrsDistinct(es) && Duplicated(Ids(es), id) && NoneBroken(es)
    ensures !BrokenName(DomDedupe.Merged(es, id))
  {
    MergedAttribute(es, id, "name");
    var at := Ranking(es, id);
    if FirstFilled(AttrsAt(es, at), "name").Some? {
      var i := FirstFilledFrom(es, at, "name");
      RankingMember(es, id, i);
      assert es[i] in es && Identity(es[i]) == id;
    }
  }

  lemma DedupeNamesWhole(es: seq<Entry>)
    requires AttrsDistinct(es) && NoneBroken(es)
    ensures NoneBroken(Dedupe(es))
  {
    forall e | e in Dedupe(es) ensures !BrokenName(e) {
      var i := DedupedFrom(es, e);
      assert es[i] in es;
      if Duplicated(Ids(es), Ids(es)[i]) {
        MergedNameWhole(es, Ids(es)[i]);
      }
    }
  }

  lemma {:induction false} EntriesBackAt(es: seq<Entry>)
    ensures |EntriesBack(es)| == |es| && forall k | 0 <= k < |es| :: EntriesBack(es)[k] == EntryBack(es[k])
  {
    if es != [] { EntriesBackAt(es[1..]); }
  }

  lemma {:induction false} SectionsBackAt(sections: seq<Section>)
    ensures |SectionsBack(sections)| == |sections|
    ensures forall k | 0 <= k < |sections| :: SectionsBack(sections)[k] == SectionBack(sections[k])
  {
    if sections != [] { SectionsBackAt(sections[1..]); }
  }

  lemma BackIds(es: seq<Entry>)
    requires FitEntries(es) && NoneBroken(es)
    ensures Ids(EntriesBack(es)) == Ids(es)
  {
    EntriesBackAt(es);
    forall k | 0 <= k < |es| ensures Ids(EntriesBack(es))[k] == Ids(es)[k] {
      assert es[k] in es;
      BackIdentity(es[k]);
    }
  }

  lemma RepairedUnique(doc: Document)
    requires FitDocument(doc) && OneLineNames(doc)
    ensures UniqueIn(RepairedSections(doc))
  {
    DedupedFits(doc);
    SectionsBackAt(DedupedSections(doc.sections));
    var sections := RepairedSections(doc);
    forall i | 0 <= i < |sections| && IsWorkspace(sections[i]) ensures NoDuplicates(Ids(sections[i].entries)) {
      var es := doc.sections[i].entries;
      DedupeFits(es);
      DedupeNamesWhole(es);
      BackIds(Dedupe(es));
      DedupeLeavesNone(es);
    }
  }

  /**
   * When no project name goes over a line break, the repair leaves no duplicates exactly when
   * every group is led by an attributes entry and everything can be printed, and a file that was
   * repaired is not changed again.
   */
  lemma RepairSettles(doc: Document, cache: CortexWriter.Cache)
    requires FitDocument(doc) && FitCache(cache) && OneLineNames(doc)
    ensures Unique(After(doc, cache)) <==>
      || Unique(doc)
      || (&& !Clashing(doc) && AllPrintable(doc.symbols)
          && AllPrintable(CortexWriter.AllEntries(DedupedSections(doc.sections))))
    ensures Repair(doc, cache).Some? ==> Repair(After(doc, cache), cache) == None
  {
    RepairedUnique(doc);
    RepairLeavesNone(doc, cache);
    if Repair(doc, cache).Some? { RepairTwice(doc, cache); }
  }
}
