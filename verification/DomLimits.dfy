/** Files that the repair leaves with duplicates, or without their workspace. */
module DomLimits {
  import opened Text
  import opened Attrs
  import opened CortexModel
  import opened CortexEntries
  import opened CortexRoundTrip
  import opened CortexDocument
  import opened CortexStrictRoundTrip
  import opened DomDedupe
  import opened DomRepair
  import opened DomReread
  import DomSwallow
  import CortexReader
  import CortexScan
  import CortexWriter

  // ------------------------------------------------------------------- groups of two

  lemma PairRanking(es: seq<Entry>, id: string)
    requires |es| >= 2 && Members(Ids(es), id) == [0, 1] && !Below(ScoreOf(es[0], id), ScoreOf(es[1], id))
    ensures Ranking(es, id) == [0, 1]
  {
    var one, two := [0], [0, 1];
    assert one[..0] == [] && one[0] == 0 && one[1..] == [] && two[..1] == one && two[1] == 1;
    assert Within([], es) && Within(one, es) && Within(two, es);
    assert Ranked(es, id, one) == InsertRank(es, id, 0, Ranked(es, id, []));
    assert Ranked(es, id, one) == one;
    assert Ranked(es, id, two) == InsertRank(es, id, 1, one);
    assert InsertRank(es, id, 1, one) == [0] + InsertRank(es, id, 1, []);
  }

  lemma PairMerged(es: seq<Entry>, id: string)
    requires |es| >= 2 && Ranking(es, id) == [0, 1]
    ensures DomDedupe.Merged(es, id) == Entry("DOM", id, Pairs(FillFrom(AttrsOf(es[0]), AttrsOf(es[1]))))
  {
    assert [0, 1][1..] == [1] && [1][1..] == [];
    assert Within([0, 1], es) && Within([1], es);
    assert AttrsAt(es, [1]) == [AttrsOf(es[1])] + AttrsAt(es, []);
    assert AttrsAt(es, [0, 1]) == [AttrsOf(es[0])] + AttrsAt(es, [1]);
    var base, other := AttrsOf(es[0]), AttrsOf(es[1]);
    assert [base, other][1..] == [other] && [other][1..] == [];
    assert MergedAttrs(base, [other]) == MergedAttrs(FillFrom(base, other), []);
  }

  lemma PairFates(es: seq<Entry>, id: string)
    requires |es| >= 2 && id != "" && Members(Ids(es), id) == [0, 1] && Ranking(es, id) == [0, 1]
    ensures AllFates(es)[0] == [DomDedupe.Merged(es, id)] && AllFates(es)[1] == []
  {
    GroupMembers(Ids(es), id, |es|);
    assert 0 in Members(Ids(es), id) && 1 in Members(Ids(es), id);
  }

  lemma LoneFate(es: seq<Entry>, i: nat)
    requires i < |es| && !Duplicated(Ids(es), Ids(es)[i])
    ensures AllFates(es)[i] == [es[i]]
  {}

  /** A list led by a group of two: the merged entry, then what is in no group. */
  lemma PairDeduped(es: seq<Entry>, id: string)
    requires |es| >= 2 && id != "" && Members(Ids(es), id) == [0, 1] && Ranking(es, id) == [0, 1]
    requires forall i | 2 <= i < |es| :: !Duplicated(Ids(es), Ids(es)[i])
    ensures Dedupe(es) == [DomDedupe.Merged(es, id)] + es[2..]
  {
    PairFates(es, id);
    forall i | 2 <= i < |es| ensures AllFates(es)[i] == [es[i]] {
      LoneFate(es, i);
    }
    FatesFlatten(es, AllFates(es), DomDedupe.Merged(es, id));
  }

  lemma FatesFlatten(es: seq<Entry>, fates: seq<seq<Entry>>, first: Entry)
    requires |es| == |fates| >= 2 && fates[0] == [first] && fates[1] == []
    requires forall i | 2 <= i < |es| :: fates[i] == [es[i]]
    ensures Flatten(fates) == [first] + es[2..]
  {
    FlattenFront(fates, first, es[2..]);
  }

  lemma {:induction false} FlattenFront(fs: seq<seq<Entry>>, first: Entry, rest: seq<Entry>)
    requires |fs| == |rest| + 2 && fs[0] == [first] && fs[1] == []
    requires forall i | 0 <= i < |rest| :: fs[i + 2] == [rest[i]]
    ensures Flatten(fs) == [first] + rest
    decreases |rest|
  {
    if rest == [] {
      assert fs[..1][..0] == [] && fs == [fs[0], fs[1]] && fs[..1] == [fs[0]];
      assert Flatten(fs[..1]) == Flatten([]) + [first];
      assert Flatten(fs) == Flatten(fs[..1]) + [];
    } else {
      var n := |rest| - 1;
      FlattenFront(fs[..|fs| - 1], first, rest[..n]);
      assert fs[|fs| - 1] == [rest[n]] && rest == rest[..n] + [rest[n]];
    }
  }

  lemma GroupOfTwo(ids: seq<string>, id: string)
    requires 2 <= |ids| <= 3 && ids[0] == id && ids[1] == id && (|ids| == 3 ==> ids[2] != id)
    ensures Members(ids, id) == [0, 1]
  {
    assert Group(ids, id, 1) == [0] && Group(ids, id, 2) == [0, 1];
  }

  /** Without bodies no group clashes. */
  lemma PairsNeverClash(sections: seq<Section>)
    requires forall i | 0 <= i < |sections| && IsWorkspace(sections[i]) :: forall e | e in sections[i].entries :: e.payload.Pairs?
    ensures !ClashingIn(sections)
  {
  }

  lemma DomIdentity(e: Entry, id: string)
    requires e.sigil == "DOM" && Normalize(TextOr(AttrsOf(e), "name", e.name)) == id
    ensures Identity(e) == id
  {}

  lemma PlainName(s: string)
    requires s != "" && forall c | c in s :: IsDomChar(c)
    ensures Normalize(s) == s
  {
    assert s[0] in s && s[|s| - 1] in s;
    TrimmedStrip(s);
    DomFixed(s);
  }

  // ------------------------------------------------------------- a name over a line break

  /**
   * Three records of a workspace: `id` with an empty name, one of the same project whose name goes
   * over a line break, and another project that has the first name once its first line is trimmed.
   */
  predicate SplitName(es: seq<Entry>, id: string, other: string, broken: string, trimmed: string) {
    && |es| == 3
    && es[0] == Entry("DOM", id, Pairs([Attr("name", VStr("")), Attr("path", VStr("x"))]))
    && es[1] == Entry("DOM", other, Pairs([Attr("x", VStr("p\nq")), Attr("name", VStr(broken))]))
    && es[2] == Entry("DOM", trimmed, Pairs([Attr("path", VStr("y"))]))
    && id != "" && Normalize(id) == id && Normalize(broken) == id && Normalize(other) != id && IsName(other)
    && '\n' in broken && Normalize(TrimBreak(broken)) == trimmed && trimmed != id && trimmed != ""
  }

  /** A `name` that is missing or empty leaves the entry's own name. */
  lemma OwnName(e: Entry, id: string)
    requires e.sigil == "DOM" && Normalize(e.name) == id
    requires var v := ValueOf(AttrsOf(e), "name"); v.Some? ==> v.value == VStr("")
    ensures Identity(e) == id
  {}

  lemma GivenName(e: Entry, name: string, id: string)
    requires e.sigil == "DOM" && Normalize(name) == id && name != ""
    requires ValueOf(AttrsOf(e), "name") == Some(VStr(name))
    ensures Identity(e) == id
  {}

  lemma SecondKey(a: Attr, b: Attr)
    requires a.key != b.key
    ensures ValueOf([a, b], b.key) == Some(b.value) && ValueOf([a], b.key) == None
  {
    assert [a, b][1..] == [b] && [a][1..] == [];
  }

  lemma SplitLookups(es: seq<Entry>, id: string, other: string, broken: string, trimmed: string)
    requires SplitName(es, id, other, broken, trimmed)
    ensures ValueOf(AttrsOf(es[0]), "name") == Some(VStr(""))
    ensures ValueOf(AttrsOf(es[1]), "name") == Some(VStr(broken))
    ensures ValueOf(AttrsOf(es[2]), "name") == None
  {
    SecondKey(Attr("x", VStr("p\nq")), Attr("name", VStr(broken)));
    SecondKey(Attr("path", VStr("y")), Attr("name", VNone));
  }

  lemma SplitIds(es: seq<Entry>, id: string, other: string, broken: string, trimmed: string)
    requires SplitName(es, id, other, broken, trimmed)
    ensures Ids(es) == [id, id, trimmed]
  {
    NormalizeTwice(TrimBreak(broken));
    SplitLookups(es, id, other, broken, trimmed);
    OwnName(es[0], id);
    GivenName(es[1], broken, id);
    OwnName(es[2], trimmed);
  }

  /** The entry named as its identity comes before one that is not. */
  lemma ExactLeads(es: seq<Entry>, id: string)
    requires |es| >= 2 && Normalize(es[0].name) == id && Normalize(es[1].name) != id
    ensures !Below(ScoreOf(es[0], id), ScoreOf(es[1], id))
  {}

  lemma ThirdAlone(ids: seq<string>)
    requires |ids| == 3 && ids[0] == ids[1] != ids[2]
    ensures !Duplicated(ids, ids[2])
  {
    assert Group(ids, ids[2], 1) == [] && Group(ids, ids[2], 2) == [];
  }

  lemma SplitRanking(es: seq<Entry>, id: string, trimmed: string)
    requires |es| == 3 && Ids(es) == [id, id, trimmed] && id != "" && id != trimmed
    requires Normalize(es[0].name) == id && Normalize(es[1].name) != id
    ensures Dedupe(es) == [DomDedupe.Merged(es, id), es[2]] && Ranking(es, id) == [0, 1]
    ensures !NoDuplicates(Ids(es))
  {
    GroupOfTwo(Ids(es), id);
    ExactLeads(es, id);
    PairRanking(es, id);
    ThirdAlone(Ids(es));
    PairDeduped(es, id);
    assert Ids(es)[0] == Ids(es)[1];
  }

  /** The merged attributes: the name that was empty is filled, and now comes first. */
  function SplitMerged(broken: string): AttrMap {
    [Attr("name", VStr(broken)), Attr("path", VStr("x")), Attr("x", VStr("p\nq"))]
  }

  lemma LookupCons(a: Attr, rest: AttrMap, k: string)
    ensures ValueOf([a] + rest, k) == if a.key == k then Some(a.value) else ValueOf(rest, k)
  {
    assert ([a] + rest)[1..] == rest;
  }

  lemma PutCons(a: Attr, rest: AttrMap, k: string, v: Value)
    ensures Put([a] + rest, k, v) == if a.key == k then [Attr(k, v)] + rest else [a] + Put(rest, k, v)
  {
    assert ([a] + rest)[1..] == rest;
  }

  lemma SplitFilled(name: Attr, path: Attr, x: Attr, late: Attr)
    requires name.key == late.key && name.value == VStr("") && path.key != name.key && path.key != x.key && name.key != x.key
    ensures FillFrom([name, path], [x, late]) == [late, path, x]
  {
    assert [name, path] == [name] + ([path] + []) && [name, path, x] == [name] + [path, x];
    LookupCons(path, [], x.key);
    LookupCons(name, [path] + [], x.key);
    PutCons(path, [], x.key, x.value);
    PutCons(name, [path] + [], x.key, x.value);
    assert [x, late][1..] == [late] && [late][1..] == [];
    assert Blank([name, path], x.key);
    assert [name] + ([path] + [x]) == [name, path, x];
    assert Put([name, path], x.key, x.value) == [name, path, x];
    assert FillFrom([name, path], [x, late]) == FillFrom([name, path, x], [late]);
    LookupCons(name, [path, x], late.key);
    PutCons(name, [path, x], late.key, late.value);
    assert FillFrom([name, path, x], [late]) == FillFrom([late] + [path, x], []);
  }

  lemma SplitDeduped(es: seq<Entry>, id: string, other: string, broken: string, trimmed: string)
    requires SplitName(es, id, other, broken, trimmed)
    ensures Dedupe(es) == [Entry("DOM", id, Pairs(SplitMerged(broken))), es[2]]
    ensures !NoDuplicates(Ids(es))
  {
    SplitIds(es, id, other, broken, trimmed);
    SplitRanking(es, id, trimmed);
    PairMerged(es, id);
    SplitFilled(Attr("name", VStr("")), Attr("path", VStr("x")), Attr("x", VStr("p\nq")), Attr("name", VStr(broken)));
  }

  lemma FirstTrimmed(attrs: AttrMap, key: string, broken: string)
    requires |attrs| == 3 && attrs[0] == Attr(key, VStr(broken)) && '\n' in broken
    requires attrs[1].value.VStr? && attrs[2].value.VStr?
    ensures TrimFirst(DropNone(attrs)) == [Attr(key, VStr(TrimBreak(broken)))] + attrs[1..]
  {
    assert attrs[1..][1..] == attrs[2..] && attrs[2..][1..] == [];
    assert DropNone(attrs[2..]) == attrs[2..];
    assert DropNone(attrs[1..]) == attrs[1..];
    assert DropNone(attrs) == attrs;
  }

  lemma TrimBreakFilled(s: string)
    requires '\n' in s
    ensures TrimBreak(s) != ""
  {}

  lemma PathBack(e: Entry)
    requires e.payload == Pairs([Attr("path", VStr("y"))])
    ensures EntryBack(e) == e
  {
    var attrs := e.payload.attrs;
    assert attrs[1..] == [] && DropNone(attrs) == attrs && TrimFirst(attrs) == attrs;
  }

  lemma SplitBack(es: seq<Entry>, id: string, broken: string, trimmed: string)
    requires '\n' in broken && Normalize(TrimBreak(broken)) == trimmed && Normalize(trimmed) == trimmed && trimmed != ""
    requires es == [Entry("DOM", id, Pairs(SplitMerged(broken))), Entry("DOM", trimmed, Pairs([Attr("path", VStr("y"))]))]
    ensures !NoDuplicates(Ids(EntriesBack(es)))
    ensures forall e | e in EntriesBack(es) :: e.payload.Pairs?
  {
    EntriesBackAt(es);
    var back := EntriesBack(es);
    FirstTrimmed(SplitMerged(broken), "name", broken);
    TrimBreakFilled(broken);
    GivenName(back[0], TrimBreak(broken), trimmed);
    PathBack(es[1]);
    SecondKey(Attr("path", VStr("y")), Attr("name", VNone));
    OwnName(back[1], trimmed);
    assert Ids(back)[0] == Ids(back)[1] == trimmed;
  }

  lemma NormalizedName(s: string)
    requires Normalize(s) != ""
    ensures IsName(Normalize(s))
  {
    UnderscoredChars(CortexReader.Lower(Strip(s)));
    DomName(Normalize(s));
  }

  lemma WorkspaceReadable(sec: Section)
    requires sec.id == "$2" && sec.title == Some("W") && sec.comments == [] && AllReadable(sec.entries)
    ensures ReadableSection(sec)
  {
    assert "$2"[1..] == "2" && "2"[1..] == "";
  }

  lemma TwoReadable(e: Entry, a: Attr, b: Attr)
    requires e.sigil == "DOM" && IsName(e.name) && e.payload == Pairs([a, b])
    requires CortexScan.IsIdent(a.key) && CortexScan.IsIdent(b.key) && a.key != b.key && a.value.VStr? && b.value.VStr?
    ensures ReadableEntry(e)
  {
    DomSigil();
    ReadablePairsFit([a, b]);
  }

  lemma OneReadable(e: Entry, a: Attr)
    requires e.sigil == "DOM" && IsName(e.name) && e.payload == Pairs([a]) && CortexScan.IsIdent(a.key) && a.value.VStr?
    ensures ReadableEntry(e)
  {
    DomSigil();
    ReadablePairsFit([a]);
  }

  lemma KeyWords()
    ensures CortexScan.IsIdent("name") && CortexScan.IsIdent("path") && CortexScan.IsIdent("x")
  {
    CortexScan.IdentWord("name");
    CortexScan.IdentWord("path");
    CortexScan.IdentWord("x");
  }

  lemma SplitNames(id: string, trimmed: string, broken: string)
    requires id != "" && trimmed != "" && Normalize(id) == id && Normalize(TrimBreak(broken)) == trimmed
    ensures IsName(id) && IsName(trimmed)
  {
    NormalizedName(id);
    NormalizedName(TrimBreak(broken));
  }

  lemma SplitReadable(es: seq<Entry>, id: string, other: string, broken: string, trimmed: string)
    requires SplitName(es, id, other, broken, trimmed)
    ensures AllReadable(es)
  {
    KeyWords();
    SplitNames(id, trimmed, broken);
    forall e | e in es ensures ReadableEntry(e) {
      if e == es[0] {
        TwoReadable(e, Attr("name", VStr("")), Attr("path", VStr("x")));
      } else if e == es[1] {
        TwoReadable(e, Attr("x", VStr("p\nq")), Attr("name", VStr(broken)));
      } else {
        OneReadable(e, Attr("path", VStr("y")));
      }
    }
  }

  /** The section as it is read back from its own text: only the first value over two lines is trimmed. */
  lemma SplitIsRead(es: seq<Entry>, id: string, other: string, broken: string, trimmed: string)
    requires SplitName(es, id, other, broken, trimmed)
    ensures EntriesBack(es) == es
  {
    EntriesBackAt(es);
    FirstIsRead(es[0]);
    SecondIsRead(es[1], broken);
    PathBack(es[2]);
    forall k | 0 <= k < |es| ensures EntriesBack(es)[k] == es[k] {}
  }

  lemma FirstIsRead(e: Entry)
    requires e.payload == Pairs([Attr("name", VStr("")), Attr("path", VStr("x"))])
    ensures EntryBack(e) == e
  {
    TwoBack(e.payload.attrs);
  }

  lemma SecondIsRead(e: Entry, broken: string)
    requires e.payload == Pairs([Attr("x", VStr("p\nq")), Attr("name", VStr(broken))])
    ensures EntryBack(e) == e
  {
    TwoBack(e.payload.attrs);
    PlainBreak();
  }

  lemma TwoBack(attrs: AttrMap)
    requires |attrs| == 2 && attrs[0].value.VStr? && attrs[1].value.VStr?
    ensures DropNone(attrs) == attrs
    ensures '\n' in attrs[0].value.s ==> TrimFirst(attrs) == [Attr(attrs[0].key, VStr(TrimBreak(attrs[0].value.s)))] + attrs[1..]
    ensures '\n' !in attrs[0].value.s && '\n' !in attrs[1].value.s ==> TrimFirst(attrs) == attrs
  {
    assert attrs[1..] == [attrs[1]] && attrs[1..][1..] == [];
    assert DropNone(attrs[1..]) == attrs[1..];
    assert TrimFirst([]) == [];
  }

  lemma PlainBreak()
    ensures '\n' in "p\nq" && TrimBreak("p\nq") == "p\nq"
  {
    assert "p\nq"[1] == '\n';
    LinesConcat("p", "q");
    LinesPlain("p");
    LinesPlain("q");
    assert "p" + "\n" + "q" == "p\nq";
    assert ["p", "q"][1..] == ["q"] && Unlines(["q"]) == "q";
  }

  lemma ReadableIsFit(doc: Document)
    requires ReadableDocument(doc)
    ensures FitDocument(doc)
  {
    forall i | 0 <= i < |doc.sections| ensures FitSection(doc.sections[i]) {
      assert doc.sections[i] in doc.sections;
    }
  }

  lemma OneWorkspaceWrites(doc: Document, cache: CortexWriter.Cache)
    requires ReadableDocument(doc) && |doc.sections| == 1 && IsWorkspace(doc.sections[0])
    ensures CortexWriter.Written(Deduped(doc), true, cache).Some?
  {
    var es := doc.sections[0].entries;
    assert doc.sections[0] in doc.sections;
    DedupePrints(es);
    var sections := DedupedSections(doc.sections);
    assert sections[1..] == [];
    assert CortexWriter.AllEntries(sections) == Dedupe(es) + [];
    assert Dedupe(es) + [] == Dedupe(es);
    WritesIff(Deduped(doc), cache);
  }

  lemma OneWorkspaceBack(doc: Document, r: seq<Entry>)
    requires |doc.sections| == 1 && IsWorkspace(doc.sections[0]) && r == Dedupe(doc.sections[0].entries)
    requires !NoDuplicates(Ids(EntriesBack(r))) && forall e | e in EntriesBack(r) :: e.payload.Pairs?
    ensures !UniqueIn(RepairedSections(doc)) && !ClashingIn(RepairedSections(doc))
  {
    SectionsBackAt(DedupedSections(doc.sections));
    assert RepairedSections(doc)[0].entries == EntriesBack(r);
    PairsNeverClash(RepairedSections(doc));
  }

  lemma OneWorkspaceRepair(doc: Document, cache: CortexWriter.Cache, r: seq<Entry>)
    requires FitCache(cache) && ReadableDocument(doc) && |doc.sections| == 1 && IsWorkspace(doc.sections[0])
    requires !NoDuplicates(Ids(doc.sections[0].entries)) && forall e | e in doc.sections[0].entries :: e.payload.Pairs?
    requires r == Dedupe(doc.sections[0].entries)
    requires !NoDuplicates(Ids(EntriesBack(r))) && forall e | e in EntriesBack(r) :: e.payload.Pairs?
    ensures !Clashing(doc) && Repair(doc, cache).Some?
    ensures !Unique(After(doc, cache)) && Repair(After(doc, cache), cache).Some?
  {
    OneWorkspaceChanges(doc, cache);
    OneWorkspaceBack(doc, r);
    RepairedKeeps(doc, cache);
  }

  lemma OneWorkspaceChanges(doc: Document, cache: CortexWriter.Cache)
    requires ReadableDocument(doc) && |doc.sections| == 1 && IsWorkspace(doc.sections[0])
    requires !NoDuplicates(Ids(doc.sections[0].entries)) && forall e | e in doc.sections[0].entries :: e.payload.Pairs?
    ensures !Clashing(doc) && Repair(doc, cache).Some?
  {
    PairsNeverClash(doc.sections);
    OneWorkspaceWrites(doc, cache);
    assert !Unique(doc);
  }

  lemma RepairedKeeps(doc: Document, cache: CortexWriter.Cache)
    requires FitCache(cache) && ReadableDocument(doc) && Repair(doc, cache).Some?
    requires !UniqueIn(RepairedSections(doc)) && !ClashingIn(RepairedSections(doc))
    ensures !Unique(After(doc, cache)) && Repair(After(doc, cache), cache).Some?
  {
    ReadableIsFit(doc);
    RepairLeavesNone(doc, cache);
    RepairTwice(doc, cache);
  }

  lemma OneSectionBack(doc: Document)
    requires doc.header == "$0" && doc.symbols == [] && |doc.sections| == 1
    requires EntriesBack(doc.sections[0].entries) == doc.sections[0].entries
    ensures DocumentBack(doc) == doc
  {
    assert doc.sections[1..] == [] && SectionsBack([]) == [];
    assert [SectionBack(doc.sections[0])] + [] == doc.sections;
  }

  /**
   * A name over a line break can leave a duplicate in the repaired file, and a second repair then
   * changes it again, although every entry reads back whole and no group is led by a body.
   */
  lemma SplitNameStays(
      doc: Document, cache: CortexWriter.Cache, id: string, other: string, broken: string, trimmed: string)
    requires FitCache(cache) && doc.header == "$0" && doc.comments == [] && doc.symbols == [] && |doc.sections| == 1
    requires var sec := doc.sections[0]; sec.id == "$2" && sec.title == Some("W") && sec.comments == []
    requires SplitName(doc.sections[0].entries, id, other, broken, trimmed)
    ensures CortexWriter.Written(doc, false, cache).Some?
    ensures CortexReader.Read(CortexWriter.Written(doc, false, cache).value) == doc
    ensures !Clashing(doc) && Repair(doc, cache).Some?
    ensures !Unique(After(doc, cache)) && Repair(After(doc, cache), cache).Some?
  {
    var es := doc.sections[0].entries;
    SplitReadable(es, id, other, broken, trimmed);
    SplitIsRead(es, id, other, broken, trimmed);
    OneWorkspaceReads(doc, cache);
    SplitRepairs(doc, cache, id, other, broken, trimmed);
  }

  lemma OneWorkspaceReads(doc: Document, cache: CortexWriter.Cache)
    requires doc.header == "$0" && doc.comments == [] && doc.symbols == [] && |doc.sections| == 1
    requires var sec := doc.sections[0]; sec.id == "$2" && sec.title == Some("W") && sec.comments == []
    requires AllReadable(doc.sections[0].entries) && EntriesBack(doc.sections[0].entries) == doc.sections[0].entries
    ensures ReadableDocument(doc) && CortexWriter.Written(doc, false, cache).Some?
    ensures CortexReader.Read(CortexWriter.Written(doc, false, cache).value) == doc
  {
    WorkspaceReadable(doc.sections[0]);
    DocumentRoundTrip(doc, cache);
    OneSectionBack(doc);
  }

  lemma SplitRepairs(
      doc: Document, cache: CortexWriter.Cache, id: string, other: string, broken: string, trimmed: string)
    requires FitCache(cache) && ReadableDocument(doc) && |doc.sections| == 1 && IsWorkspace(doc.sections[0])
    requires SplitName(doc.sections[0].entries, id, other, broken, trimmed)
    ensures !Clashing(doc) && Repair(doc, cache).Some?
    ensures !Unique(After(doc, cache)) && Repair(After(doc, cache), cache).Some?
  {
    var es := doc.sections[0].entries;
    var r := Dedupe(es);
    SplitDeduped(es, id, other, broken, trimmed);
    SplitTrimmed(r, es, id, other, broken, trimmed);
    SplitPairs(es, id, other, broken, trimmed);
    OneWorkspaceRepair(doc, cache, r);
  }

  lemma SplitPairs(es: seq<Entry>, id: string, other: string, broken: string, trimmed: string)
    requires SplitName(es, id, other, broken, trimmed)
    ensures forall e | e in es :: e.payload.Pairs?
  {}

  lemma SplitTrimmed(r: seq<Entry>, es: seq<Entry>, id: string, other: string, broken: string, trimmed: string)
    requires SplitName(es, id, other, broken, trimmed)
    requires r == [Entry("DOM", id, Pairs(SplitMerged(broken))), es[2]]
    ensures !NoDuplicates(Ids(EntriesBack(r))) && forall e | e in EntriesBack(r) :: e.payload.Pairs?
  {
    NormalizeTwice(TrimBreak(broken));
    SplitBack(r, id, broken, trimmed);
  }

  lemma BrokenTrims()
    ensures TrimBreak("a \nb") == "a\nb"
  {
    LinesConcat("a ", "b");
    LinesPlain("a ");
    LinesPlain("b");
    assert "a \nb" == "a " + "\n" + "b";
    assert "a "[..1] == "a" && RStrip("a ") == "a";
    assert ["a ", "b"][1..] == ["b"] && Unlines(["b"]) == "b";
  }

  lemma BrokenNames()
    ensures Normalize("a \nb") == "a__b" && Normalize("a\nb") == "a_b"
  {
    var s, t := "a \nb", "a\nb";
    TrimmedStrip(s);
    TrimmedStrip(t);
    assert CortexReader.Lower(s) == s && CortexReader.Lower(t) == t;
  }

  lemma OtherName()
    ensures Normalize("a__b") == "a__b" && Normalize("o") != "a__b" && IsName("o") && '\n' in "a \nb"
  {
    PlainName("a__b");
    PlainName("o");
    assert "a \nb"[2] == '\n';
  }

  /** The entries `a__b`, `o` and `a_b` with the name `a`, blank, line break, `b`. */
  lemma BrokenNameIsSplit(es: seq<Entry>)
    requires |es| == 3
    requires es[0] == Entry("DOM", "a__b", Pairs([Attr("name", VStr("")), Attr("path", VStr("x"))]))
    requires es[1] == Entry("DOM", "o", Pairs([Attr("x", VStr("p\nq")), Attr("name", VStr("a \nb"))]))
    requires es[2] == Entry("DOM", "a_b", Pairs([Attr("path", VStr("y"))]))
    ensures SplitName(es, "a__b", "o", "a \nb", "a_b")
  {
    BrokenNames();
    BrokenTrims();
    OtherName();
  }

  // ------------------------------------------------------------- a prose record left open

  /** A prose record `a { b`, and a workspace with two records of one project. */
  predicate OpenBefore(doc: Document) {
    && doc.header == "$0" && doc.comments == [] && doc.symbols == [] && |doc.sections| == 2
    && doc.sections[0] == Section("$1", Some("X"), [], [Entry("AXM", "r", Body("a { b"))])
    && doc.sections[1] == Section("$2", Some("W"), [], TwoRecords())
  }

  function TwoRecords(): seq<Entry> {
    [Entry("DOM", "a", Pairs([Attr("path", VStr("x"))])), Entry("DOM", "A", Pairs([Attr("path", VStr("y"))]))]
  }

  lemma TwoIds(es: seq<Entry>, x: string, y: string)
    requires |es| == 2 && es[0].sigil == es[1].sigil == "DOM" && Normalize(es[0].name) == Normalize(es[1].name) == "a"
    requires es[0].payload == Pairs([Attr("path", VStr(x))]) && es[1].payload == Pairs([Attr("path", VStr(y))])
    ensures Ids(es) == ["a", "a"]
  {
    SecondKey(Attr("path", VStr(x)), Attr("name", VNone));
    SecondKey(Attr("path", VStr(y)), Attr("name", VNone));
    OwnName(es[0], "a");
    OwnName(es[1], "a");
  }

  lemma PathScore(e: Entry, id: string, x: string)
    requires e.payload == Pairs([Attr("path", VStr(x))]) && Strip(x) != "" && Normalize(e.name) == id
    ensures ScoreOf(e, id) == Score(true, true, 1, "")
  {
    var attrs := AttrsOf(e);
    assert attrs[1..] == [] && CountFilled([]) == 0;
    assert CountFilled(attrs) == 1;
    assert x != "" by { assert Strip("") == ""; }
    assert ValueOf(attrs, "path") == Some(VStr(x));
    assert ValueOf(attrs, "updated") == None;
  }

  lemma PathFilled(a: Attr, b: Attr)
    requires a.key == b.key && Filled(a.value)
    ensures FillFrom([a], [b]) == [a]
  {
    assert [b][1..] == [];
    assert FillFrom([a], [b]) == FillFrom([a], []);
  }

  lemma TwoDeduped(es: seq<Entry>)
    requires es == TwoRecords()
    ensures Dedupe(es) == [es[0]] && !NoDuplicates(Ids(es))
  {
    SameNames();
    TwoIds(es, "x", "y");
    GroupOfTwo(Ids(es), "a");
    TrimmedStrip("x");
    TrimmedStrip("y");
    PathScore(es[0], "a", "x");
    PathScore(es[1], "a", "y");
    PairRanking(es, "a");
    PairMerged(es, "a");
    PairDeduped(es, "a");
    PathFilled(Attr("path", VStr("x")), Attr("path", VStr("y")));
  }

  lemma OpenBody()
    ensures DomSwallow.Unclosed("a { b", 1)
  {
    var body := "a { b";
    OpenScan("a ", " b");
    assert body == "a " + ("{" + " b");
    ScanBreak(body, "}", false, false, 1);
    ClosesOne("}");
    assert body + ("\n" + "}") == body + "\n}";
    LinesPlain(body);
    TrimmedStrip(body);
  }

  lemma ClosesOne(s: string)
    requires s == "}"
    ensures CortexReader.ScanText(s, false, false, 2) == CortexReader.Open(false, 1)
  {
    assert s[1..] == "";
  }

  lemma OpenScan(a: string, b: string)
    requires CortexScan.IsPlain(a) && CortexScan.IsPlain(b)
    ensures CortexReader.ScanText(a + ("{" + b), false, false, 1) == CortexReader.Open(false, 2)
  {
    CortexScan.PlainInvisible(a, "{" + b, 1);
    assert ("{" + b)[1..] == b;
    DomSwallow.PlainQuiet(b, 2);
  }

  lemma RecordFlat(e: Entry)
    requires e == Entry("DOM", "a", Pairs([Attr("path", VStr("x"))]))
    ensures DomSwallow.FlatEntry(e)
  {
    KeyWords();
    OneReadable(e, Attr("path", VStr("x")));
    OnePairOneLine(Attr("path", VStr("x")));
  }

  lemma OnePairOneLine(a: Attr)
    requires CortexScan.IsIdent(a.key) && a.value.VStr? && '\n' !in a.value.s
    ensures '\n' !in Serialised([a])
  {
    SerialisedPair(a, []);
    PairOneLine(a);
    assert [a] + [] == [a] && Tail([]) == "";
  }

  lemma WorkspaceFlat(sec: Section, e: Entry)
    requires sec == Section("$2", Some("W"), [], [e]) && e == Entry("DOM", "a", Pairs([Attr("path", VStr("x"))]))
    ensures DomSwallow.FlatSection(sec)
  {
    RecordFlat(e);
    assert CortexWriter.HeaderLine(sec) == "$2: W";
  }

  lemma ProseShell(sec: Section, e: Entry)
    requires sec == Section("$1", Some("X"), [], [e]) && e == Entry("AXM", "r", Body("a { b"))
    ensures ReadableSection(sec.(entries := [])) && IsSigil(e.sigil) && IsName(e.name)
  {
    assert "$1"[1..] == "1" && "1"[1..] == "";
    assert "AXM"[1..] == "XM" && "XM"[1..] == "M" && "M"[1..] == "";
  }

  /** Two sections that are not metadata are printed as they are, with readable declarations. */
  lemma TwoSectionPlan(doc: Document, cache: CortexWriter.Cache, a: Section, b: Section)
    requires FitCache(cache) && doc.symbols == [] && doc.sections == [a, b] && a.id == "$1" && b.id == "$2"
    requires (forall e | e in a.entries :: IsSigil(e.sigil)) && forall e | e in b.entries :: IsSigil(e.sigil)
    ensures CortexWriter.StrictPlan(doc, cache).sections == [a] + [b]
    ensures AllReadable(CortexWriter.Glossaries(CortexWriter.StrictPlan(doc, cache)))
  {
    var p := CortexWriter.StrictPlan(doc, cache);
    MergeTwo(a, b);
    assert p.sections == doc.sections && p.kept == [];
    assert doc.sections[1..] == [b] && [b][1..] == [];
    assert CortexWriter.AllEntries([b]) == b.entries + [];
    assert CortexWriter.AllEntries(doc.sections) == a.entries + CortexWriter.AllEntries([b]);
    GeneratedForReadable(doc.sections, CortexWriter.DeclaredSigils(p.kept), cache);
    GeneratedForReadable(
      p.sections, CortexWriter.DeclaredSigils(p.kept) + CortexWriter.DeclaredSigils(p.first), cache);
    ReadableConcat(p.kept, p.first);
    ReadableConcat(p.kept + p.first, p.second);
  }

  lemma MergeTwo(a: Section, b: Section)
    requires a.id == "$1" && b.id == "$2"
    ensures CortexWriter.Merged([a, b], CortexWriter.Merge([], None)).out == [a, b]
  {
    var m := CortexWriter.Merge([], None);
    assert [a, b][1..] == [b] && [b][1..] == [];
    assert CortexWriter.MergeStep(m, a).out == [] + [a] == [a];
    assert CortexWriter.Merged([a, b], m) == CortexWriter.Merged([b], CortexWriter.Merge([a], None));
    assert CortexWriter.MergeStep(CortexWriter.Merge([a], None), b).out == [a] + [b] == [a, b];
  }

  lemma {:induction false} NoColonNoPairs(s: string, acc: AttrMap)
    requires ':' !in s
    ensures CortexReader.FoundPairs(s, acc) == acc
    decreases |s|
  {
    if s != "" {
      assert CortexReader.MatchPair(s).NoPair?;
      NoColonNoPairs(s[1..], acc);
    }
  }

  lemma {:induction false} NoQuoteNoString(s: string, esc: bool)
    requires QUOTE !in s
    ensures !CortexReader.InStringAfter(s, esc, false)
  {
    if s != "" {
      assert s[0] in s;
      NoQuoteNoString(s[1..], CortexReader.NextEsc(s[0], esc));
    }
  }

  lemma ProsePayload(body: string)
    requires body != "" && Trimmed(body) && ':' !in body
    ensures CortexReader.InlinePayload(body) == Body(body)
  {
    TrimmedStrip(body);
    NoColonNoPairs(body, []);
  }

  lemma ProseClass(sigil: string, name: string, body: string, st: CortexReader.State)
    requires IsSigil(sigil) && IsName(name) && Trimmed(body) && QUOTE !in body
    requires CortexReader.ValidState(st) && !st.current.NoSection?
    ensures CortexReader.Classify(HeadText(sigil, name) + (body + "}"), st) == CortexReader.Inline(sigil, name, body)
  {
    var rest := body + "}";
    ClassifyEntry(sigil, name, rest, st);
    HeadInvisible(sigil, name, rest);
    NoQuoteNoString(rest, false);
    assert rest[..|rest| - 1] == body;
    TrimmedStrip(body);
  }

  lemma ProseTrimmed(sigil: string, name: string, body: string)
    requires IsSigil(sigil)
    ensures var line := HeadText(sigil, name) + (body + "}"); Strip(line) == line
  {
    var line := HeadText(sigil, name) + (body + "}");
    SigilChars(sigil);
    assert sigil[0] in sigil && line[0] == sigil[0] && line[|line| - 1] == '}';
    TrimmedStrip(line);
  }

  /**
   * A record on one line is read up to the brace that ends the line: prose with braces of its own
   * comes into the document, whether they balance or not.
   */
  lemma ProseIsRead(sigil: string, name: string, body: string, more: seq<string>, st: CortexReader.State)
    requires IsSigil(sigil) && IsName(name) && body != "" && Trimmed(body) && ':' !in body && QUOTE !in body
    requires CortexReader.ValidState(st) && !st.current.NoSection?
    ensures CortexReader.ReadStep(HeadText(sigil, name) + (body + "}"), more, st)
         == (0, CortexReader.AddEntry(st, Entry(sigil, name, Body(body))))
  {
    ProseTrimmed(sigil, name, body);
    ProseClass(sigil, name, body, st);
    ProsePayload(body);
  }

  /** Repairing a file in which a prose record leaves a brace open loses the whole workspace. */
  lemma SwallowedWorkspace(doc: Document, cache: CortexWriter.Cache)
    requires FitCache(cache) && OpenBefore(doc)
    ensures Repair(doc, cache).Some?
    ensures |After(doc, cache).sections| == 1 && After(doc, cache).sections[0].id == "$1"
  {
    var es := doc.sections[1].entries;
    var a, b := doc.sections[0], Section("$2", Some("W"), [], [es[0]]);
    TwoDeduped(es);
    OpenDeduped(doc, a, b);
    OpenChanges(doc);
    OpenWritten(Deduped(doc), cache, a, b, a.entries[0], es[0]);
  }

  lemma OpenDeduped(doc: Document, a: Section, b: Section)
    requires |doc.sections| == 2 && doc.sections[0] == a && a.id == "$1" && doc.sections[1].id == "$2"
    requires b == doc.sections[1].(entries := Dedupe(doc.sections[1].entries))
    ensures Deduped(doc) == doc.(sections := [a, b])
  {}

  lemma OpenChanges(doc: Document)
    requires |doc.sections| == 2 && doc.sections[0].id == "$1" && IsWorkspace(doc.sections[1])
    requires !NoDuplicates(Ids(doc.sections[1].entries)) && forall e | e in doc.sections[1].entries :: e.payload.Pairs?
    ensures !Unique(doc) && !Clashing(doc)
  {
    PairsNeverClash(doc.sections);
  }

  lemma OpenWritten(doc: Document, cache: CortexWriter.Cache, a: Section, b: Section, prose: Entry, record: Entry)
    requires FitCache(cache) && doc.header == "$0" && doc.comments == [] && doc.symbols == [] && doc.sections == [a, b]
    requires a == Section("$1", Some("X"), [], [prose]) && prose == Entry("AXM", "r", Body("a { b"))
    requires b == Section("$2", Some("W"), [], [record]) && record == Entry("DOM", "a", Pairs([Attr("path", VStr("x"))]))
    ensures CortexWriter.Written(doc, true, cache).Some?
    ensures var read := CortexReader.Read(CortexWriter.Written(doc, true, cache).value);
      |read.sections| == 1 && read.sections[0].id == "$1"
  {
    ProseShell(a, prose);
    WorkspaceFlat(b, record);
    DomSigil();
    OpenBody();
    TwoSectionPlan(doc, cache, a, b);
    DomSwallow.OpenBodySwallows(doc, cache, a, prose, [b], 1);
  }
}
