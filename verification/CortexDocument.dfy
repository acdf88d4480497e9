/** The whole-document round trip of the non-strict writer. */
module CortexDocument {
  import opened Text
  import opened Attrs
  import opened CortexModel
  import opened CortexReader
  import opened CortexWriter
  import opened CortexScan
  import opened CortexEntries
  import opened CortexRoundTrip

  // ----------------------------------------------------------------- the domain

  predicate IsCommentLine(c: string) { c != "" && c[0] == '#' && Trimmed(c) && '\n' !in c }

  predicate IsTitle(t: string) { t != "" && Trimmed(t) && '\n' !in t }

  predicate ReadableSection(sec: Section) {
    && sec.id != "" && SectionIdLen(sec.id) == |sec.id| && sec.id != "$0"
    && (sec.title.Some? ==> IsTitle(sec.title.value))
    && (forall c | c in sec.comments :: IsCommentLine(c))
    && (forall e | e in sec.entries :: ReadableEntry(e))
  }

  predicate ReadableDocument(doc: Document) {
    && doc.header == "$0"
    && (forall c | c in doc.comments :: IsCommentLine(c))
    && (forall e | e in doc.symbols :: ReadableEntry(e))
    && (forall sec | sec in doc.sections :: ReadableSection(sec))
  }

  function EntriesBack(entries: seq<Entry>): seq<Entry> {
    if entries == [] then [] else [EntryBack(entries[0])] + EntriesBack(entries[1..])
  }

  /** Symbols as read back: one-line declarations are not exposed as entries. */
  function SymbolsBack(symbols: seq<Entry>): seq<Entry> {
    if symbols == [] then []
    else (if HiddenInGlossary(symbols[0]) then [] else [EntryBack(symbols[0])]) + SymbolsBack(symbols[1..])
  }

  function SectionBack(sec: Section): Section { sec.(entries := EntriesBack(sec.entries)) }

  function SectionsBack(sections: seq<Section>): seq<Section> {
    if sections == [] then [] else [SectionBack(sections[0])] + SectionsBack(sections[1..])
  }

  function DocumentBack(doc: Document): Document {
    Document("$0", doc.comments, SymbolsBack(doc.symbols), SectionsBack(doc.sections))
  }

  // ------------------------------------------------------------- lines, one by one

  lemma ReadBlank(more: seq<string>, st: State)
    requires ValidState(st)
    ensures ReadLines([""] + more, st) == ReadLines(more, st)
  {
    ReadLinesStep("", more, st);
    assert more[0..] == more;
  }

  lemma ReadComment(c: string, more: seq<string>, st: State)
    requires ValidState(st) && IsCommentLine(c)
    ensures ReadLines([c] + more, st) == ReadLines(more, st.(pending := st.pending + [c]))
  {
    TrimmedStrip(c);
    ReadLinesStep(c, more, st);
    assert more[0..] == more;
  }

  lemma {:induction false} ReadComments(cs: seq<string>, more: seq<string>, st: State)
    requires ValidState(st) && forall c | c in cs :: IsCommentLine(c)
    ensures ReadLines(FlattenLines(cs) + more, st) == ReadLines(more, st.(pending := st.pending + cs))
    decreases cs
  {
    if cs == [] {
      assert FlattenLines(cs) + more == more;
      assert st.pending + cs == st.pending;
    } else {
      assert cs[0] in cs;
      LinesPlain(cs[0]);
      ConcatAssoc([cs[0]], FlattenLines(cs[1..]), more);
      ReadComment(cs[0], FlattenLines(cs[1..]) + more, st);
      ReadComments(cs[1..], more, st.(pending := st.pending + [cs[0]]));
      ShiftHead(st.pending, cs);
    }
  }

  lemma {:induction false} EntriesPrint(entries: seq<Entry>)
    requires forall e | e in entries :: ReadableEntry(e)
    ensures EntryLines(entries).Some?
  {
    if entries != [] {
      assert entries[0] in entries;
      EntriesPrint(entries[1..]);
    }
  }

  function StoredAll(st: State, entries: seq<Entry>): (r: State)
    requires ValidState(st)
    ensures ValidState(r)
    decreases entries
  {
    if entries == [] then st else StoredAll(Stored(st, entries[0]), entries[1..])
  }

  lemma {:induction false} ReadEntries(entries: seq<Entry>, more: seq<string>, st: State)
    requires ValidState(st) && !st.current.NoSection? && forall e | e in entries :: ReadableEntry(e)
    ensures EntryLines(entries).Some?
    ensures ReadLines(FlattenLines(EntryLines(entries).value) + more, st)
         == ReadLines(more, StoredAll(st, entries))
    decreases entries
  {
    EntriesPrint(entries);
    if entries == [] {
      assert FlattenLines([]) + more == more;
    } else {
      var e := entries[0];
      assert e in entries;
      EntriesPrint(entries[1..]);
      var text, rest := EntryText(e).value, EntryLines(entries[1..]).value;
      var tail := FlattenLines(rest) + more;
      FlattenEntry(text, rest, more);
      ReadEntry(e, [""] + tail, st);
      ReadBlank(tail, Stored(st, e));
      ReadEntries(entries[1..], more, Stored(st, e));
    }
  }

  lemma FlattenEntry(text: string, rest: seq<string>, more: seq<string>)
    ensures FlattenLines([text, ""] + rest) + more == Lines(text) + ([""] + (FlattenLines(rest) + more))
  {
    assert ([text, ""] + rest)[1..] == [""] + rest && ([""] + rest)[1..] == rest;
    assert Lines("") == [""];
  }

  // -------------------------------------------------------------------- headers

  lemma {:induction false} DigitsLenExact(t: string, rest: string)
    requires DigitsLen(t) == |t| && (rest == "" || !IsDigit(rest[0]))
    ensures DigitsLen(t + rest) == |t|
  {
    if t == "" {
      assert t + rest == rest;
    } else {
      assert (t + rest)[1..] == t[1..] + rest;
      DigitsLenExact(t[1..], rest);
    }
  }

  lemma {:induction false} DigitsLenBefore(t: string, rest: string)
    requires DigitsLen(t) < |t|
    ensures DigitsLen(t + rest) == DigitsLen(t)
  {
    assert (t + rest)[0] == t[0];
    if IsDigit(t[0]) {
      assert (t + rest)[1..] == t[1..] + rest;
      DigitsLenBefore(t[1..], rest);
    }
  }

  lemma SectionIdStops(id: string, rest: string)
    requires id != "" && SectionIdLen(id) == |id| && rest != "" && rest[0] == ':'
    ensures SectionIdLen(id + rest) == |id|
  {
    var s := id + rest;
    assert s[0] == id[0] && s[1..] == id[1..] + rest;
    var whole := DigitsLen(id[1..]);
    if 1 + whole == |id| {
      DigitsLenExact(id[1..], rest);
    } else {
      DigitsLenBefore(id[1..], rest);
      assert s[2 + whole..] == id[2 + whole..] + rest;
      DigitsLenExact(id[2 + whole..], rest);
    }
  }

  lemma {:induction false} SectionIdChars(id: string)
    requires id != "" && SectionIdLen(id) == |id|
    ensures forall c | c in id :: c == '$' || c == '.' || IsDigit(c)
    ensures id[0] == '$' && id[|id| - 1] != '.'
  {
    var whole := DigitsLen(id[1..]);
    DigitsLenPrefix(id[1..]);
    if 1 + whole == |id| {
      assert id[1..][..whole] == id[1..];
      assert id == [id[0]] + id[1..];
      assert id[|id| - 1] in id[1..];
    } else {
      var frac := id[2 + whole..];
      DigitsLenPrefix(frac);
      assert frac[..|frac|] == frac;
      assert id == [id[0]] + id[1..][..whole] + "." + frac;
      assert id[|id| - 1] in frac;
    }
  }

  lemma HeaderMatches(sec: Section)
    requires ReadableSection(sec)
    ensures var s := HeaderLine(sec);
      && Trimmed(s) && s != "" && s[0] == '$' && '\n' !in s
      && MatchHeader(s) == Header(sec.id, sec.title)
      && !StartsWith(s, "$0:format")
  {
    var id := sec.id;
    SectionIdChars(id);
    if sec.title.Some? {
      var rest := ": " + sec.title.value;
      TitledHeader(id, sec.title.value);
      assert HeaderLine(sec) == id + rest;
      NotFormat(id, rest);
    } else {
      NotFormat(id, "");
      assert id + "" == id && id[|id| - 1] in id;
    }
  }

  lemma TitleLayout(id: string, t: string)
    requires id != "" && t != ""
    ensures var s := id + (": " + t);
      && s[..|id|] == id && s[|id|..] == ": " + t && s[|id|] == ':' && s[|id| + 1..] == " " + t
      && s[0] == id[0] && s[|s| - 1] == t[|t| - 1]
  {
    SplitAt(id, ": " + t);
    SplitAt(id + ":", " " + t);
    assert id + (": " + t) == (id + ":") + (" " + t);
  }

  lemma StripSpaced(t: string)
    requires Trimmed(t)
    ensures Strip(" " + t) == t
  {
    assert (" " + t)[1..] == t;
    TrimmedStrip(t);
  }

  lemma TitledHeader(id: string, t: string)
    requires id != "" && id[0] == '$' && '\n' !in id && SectionIdLen(id) == |id|
    requires t != "" && Trimmed(t) && '\n' !in t
    ensures var s := id + (": " + t);
      Trimmed(s) && s != "" && s[0] == '$' && '\n' !in s && MatchHeader(s) == Header(id, Some(t))
  {
    TitleLayout(id, t);
    SectionIdStops(id, ": " + t);
    StripSpaced(t);
  }

  lemma NotFormat(id: string, rest: string)
    requires id != "" && id != "$0" && SectionIdLen(id) == |id|
    ensures !StartsWith(id + rest, "$0:format")
  {
    SectionIdChars(id);
    var s := id + rest;
    if |s| >= 9 {
      var p := s[..9];
      if |id| == 2 {
        assert p[0] == id[0] && p[1] == id[1];
      } else {
        assert |id| >= 3;
        assert p[2] == id[2] && id[2] in id;
      }
    }
  }

  lemma ReadHeader(sec: Section, more: seq<string>, st: State)
    requires ReadableSection(sec) && ValidState(st)
    ensures ReadLines([HeaderLine(sec)] + more, st) == ReadLines(more, OpenSection(st, sec.id, sec.title))
  {
    HeaderMatches(sec);
    TrimmedStrip(HeaderLine(sec));
    HeaderStep(HeaderLine(sec), sec.id, sec.title, more, st);
    ReadLinesStep(HeaderLine(sec), more, st);
    assert more[0..] == more;
  }

  lemma HeaderStep(s: string, id: string, title: Option<string>, more: seq<string>, st: State)
    requires ValidState(st) && s != "" && s[0] == '$' && Strip(s) == s && MatchHeader(s) == Header(id, title)
    requires !StartsWith(s, "$0:format")
    ensures ReadStep(s, more, st) == (0, OpenSection(st, id, title))
  {}

  // ------------------------------------------------------------------- sections

  /** The reader's state after one printed section. */
  function AfterSection(st: State, sec: Section): (r: State)
    requires ValidState(st)
    ensures ValidState(r)
  {
    var entered := OpenSection(st, sec.id, sec.title);
    StoredAll(entered.(pending := entered.pending + sec.comments), sec.entries)
  }

  function AfterSections(st: State, sections: seq<Section>): (r: State)
    requires ValidState(st)
    ensures ValidState(r)
    decreases sections
  {
    if sections == [] then st else AfterSections(AfterSection(st, sections[0]), sections[1..])
  }

  lemma ReadSeparator(lines: seq<string>, more: seq<string>, st: State)
    requires ValidState(st)
    ensures ReadLines(FlattenLines(Separator(lines)) + more, st) == ReadLines(more, st)
  {
    BlankLines();
    ReadBlank(more, st);
    if |Separator(lines)| != 1 {
      ReadBlank([""] + more, st);
      ConcatAssoc([""], [""], more);
    }
  }

  lemma BlankLines()
    ensures FlattenLines([""]) == [""] && FlattenLines(["", ""]) == [""] + [""]
  {
    assert [""][1..] == [] && ["", ""][1..] == [""];
  }

  lemma ReadSection(lines: seq<string>, sec: Section, more: seq<string>, st: State)
    requires ReadableSection(sec) && ValidState(st) && !st.current.NoSection?
    ensures AppendSection(lines, sec).Some?
    ensures ReadLines(FlattenLines(AppendSection(lines, sec).value[|lines|..]) + more, st)
         == ReadLines(more, AfterSection(st, sec))
  {
    EntriesPrint(sec.entries);
    var printed := EntryLines(sec.entries).value;
    var header := HeaderLine(sec);
    HeaderMatches(sec);
    SectionLines(lines, sec, more);
    var entered := OpenSection(st, sec.id, sec.title);
    var tail2 := FlattenLines(printed) + more;
    var tail1 := FlattenLines(sec.comments) + tail2;
    ReadSeparator(lines, [header] + ([""] + tail1), st);
    ReadHeader(sec, [""] + tail1, st);
    ReadBlank(tail1, entered);
    ReadComments(sec.comments, tail2, entered);
    ReadEntries(sec.entries, more, entered.(pending := entered.pending + sec.comments));
  }

  lemma SectionLines(lines: seq<string>, sec: Section, more: seq<string>)
    requires EntryLines(sec.entries).Some? && '\n' !in HeaderLine(sec)
    ensures var printed := EntryLines(sec.entries).value;
      FlattenLines(AppendSection(lines, sec).value[|lines|..]) + more
        == FlattenLines(Separator(lines))
           + ([HeaderLine(sec)] + ([""] + (FlattenLines(sec.comments) + (FlattenLines(printed) + more))))
  {
    var printed := EntryLines(sec.entries).value;
    var header := HeaderLine(sec);
    AppendedPart(lines, sec);
    FlattenLinesConcat(Separator(lines), [header] + ([""] + (sec.comments + printed)));
    FlattenBlock(header, sec.comments, printed, more);
    ConcatAssoc(FlattenLines(Separator(lines)), FlattenLines([header] + ([""] + (sec.comments + printed))), more);
  }

  lemma AppendedPart(lines: seq<string>, sec: Section)
    requires EntryLines(sec.entries).Some?
    ensures AppendSection(lines, sec).value[|lines|..]
         == Separator(lines) + ([HeaderLine(sec)] + ([""] + (sec.comments + EntryLines(sec.entries).value)))
  {}

  lemma FlattenCons(x: string, xs: seq<string>)
    requires '\n' !in x
    ensures FlattenLines([x] + xs) == [x] + FlattenLines(xs)
  {
    LinesPlain(x);
    assert ([x] + xs)[1..] == xs;
  }

  /** A header, a blank line, comments and printed entries, as physical lines. */
  lemma FlattenBlock(header: string, comments: seq<string>, printed: seq<string>, more: seq<string>)
    requires '\n' !in header
    ensures FlattenLines([header] + ([""] + (comments + printed))) + more
         == [header] + ([""] + (FlattenLines(comments) + (FlattenLines(printed) + more)))
  {
    FlattenCons(header, [""] + (comments + printed));
    FlattenCons("", comments + printed);
    FlattenLinesConcat(comments, printed);
    BlockAssoc(header, FlattenLines(comments), FlattenLines(printed), more);
  }

  lemma BlockAssoc(h: string, a: seq<string>, b: seq<string>, c: seq<string>)
    ensures ([h] + ([""] + (a + b))) + c == [h] + ([""] + (a + (b + c)))
  {}

  lemma {:induction false} ReadSections(lines: seq<string>, sections: seq<Section>, more: seq<string>, st: State)
    requires ValidState(st) && !st.current.NoSection?
    requires forall sec | sec in sections :: ReadableSection(sec)
    ensures AppendSections(lines, sections).Some?
    ensures var all := AppendSections(lines, sections).value;
      && |lines| <= |all| && all[..|lines|] == lines
      && ReadLines(FlattenLines(all[|lines|..]) + more, st) == ReadLines(more, AfterSections(st, sections))
    decreases |sections|
  {
    if sections == [] {
      assert lines[|lines|..] == [];
      assert FlattenLines([]) + more == more;
    } else {
      var sec := sections[0];
      assert sec in sections;
      EntriesPrint(sec.entries);
      var lines' := AppendSection(lines, sec).value;
      AfterSectionOpen(st, sec);
      ReadSections(lines', sections[1..], more, AfterSection(st, sec));
      var all := AppendSections(lines', sections[1..]).value;
      ReadSection(lines, sec, FlattenLines(all[|lines'|..]) + more, st);
      SplitTail(lines, lines', all);
      FlattenLinesConcat(lines'[|lines|..], all[|lines'|..]);
      ConcatAssoc(FlattenLines(lines'[|lines|..]), FlattenLines(all[|lines'|..]), more);
    }
  }

  lemma SplitTail(lines: seq<string>, lines': seq<string>, all: seq<string>)
    requires |lines| <= |lines'| <= |all| && lines'[..|lines|] == lines && all[..|lines'|] == lines'
    ensures all[|lines|..] == lines'[|lines|..] + all[|lines'|..] && all[..|lines|] == lines
  {
    assert all == lines' + all[|lines'|..];
    assert all[..|lines|] == lines'[..|lines|];
  }

  // -------------------------------------------------------- what the states finish as

  lemma {:induction false} StoredAllLast(st: State, entries: seq<Entry>)
    requires ValidState(st) && st.current.Last? && !InGlossary(st)
    ensures var n := |st.sections| - 1;
      StoredAll(st, entries)
        == st.(sections := st.sections[n := st.sections[n].(
                 entries := st.sections[n].entries + EntriesBack(entries))])
    decreases entries
  {
    var n := |st.sections| - 1;
    if entries == [] {
      assert st.sections[n].entries + [] == st.sections[n].entries;
      assert st.sections[n := st.sections[n]] == st.sections;
    } else {
      var st' := Stored(st, entries[0]);
      StoredAllLast(st', entries[1..]);
      ConcatAssoc(st.sections[n].entries, [EntryBack(entries[0])], EntriesBack(entries[1..]));
    }
  }

  lemma AfterSectionOpen(st: State, sec: Section)
    requires ValidState(st) && !st.current.NoSection? && ReadableSection(sec)
    ensures var r := AfterSection(st, sec);
      && r.current.Last? && !InGlossary(r)
      && r == CloseCurrent(st).(
                sections := CloseCurrent(st).sections + [SectionBack(sec).(comments := [])],
                current := Last, pending := sec.comments)
  {
    var entered := OpenSection(st, sec.id, sec.title);
    StoredAllLast(entered.(pending := entered.pending + sec.comments), sec.entries);
    assert [] + EntriesBack(sec.entries) == EntriesBack(sec.entries);
    assert [] + sec.comments == sec.comments;
  }

  lemma FinishSection(st: State, sec: Section)
    requires ValidState(st) && !st.current.NoSection? && ReadableSection(sec)
    requires st.current.Glossary? ==> st.sections == []
    requires st.current.Last? ==> !InGlossary(st)
    ensures Finish(AfterSection(st, sec))
         == Finish(st).(sections := Finish(st).sections + [SectionBack(sec)])
  {
    AfterSectionOpen(st, sec);
    assert [] + sec.comments == sec.comments;
  }

  lemma {:induction false} FinishSections(st: State, sections: seq<Section>)
    requires ValidState(st) && !st.current.NoSection?
    requires forall sec | sec in sections :: ReadableSection(sec)
    requires st.current.Glossary? ==> st.sections == []
    requires st.current.Last? ==> !InGlossary(st)
    ensures Finish(AfterSections(st, sections))
         == Finish(st).(sections := Finish(st).sections + SectionsBack(sections))
    decreases sections
  {
    if sections == [] {
      assert Finish(st).sections + [] == Finish(st).sections;
    } else {
      assert sections[0] in sections;
      FinishSection(st, sections[0]);
      AfterSectionOpen(st, sections[0]);
      FinishSections(AfterSection(st, sections[0]), sections[1..]);
      ConcatAssoc(Finish(st).sections, [SectionBack(sections[0])], SectionsBack(sections[1..]));
    }
  }

  lemma {:induction false} StoredAllGlossary(st: State, symbols: seq<Entry>)
    requires ValidState(st) && st.current.Glossary?
    ensures StoredAll(st, symbols) == st.(glossary := st.glossary + SymbolsBack(symbols))
    decreases symbols
  {
    if symbols == [] {
      assert st.glossary + [] == st.glossary;
    } else {
      StoredAllGlossary(Stored(st, symbols[0]), symbols[1..]);
      var first := if HiddenInGlossary(symbols[0]) then [] else [EntryBack(symbols[0])];
      ConcatAssoc(st.glossary, first, SymbolsBack(symbols[1..]));
      assert st.glossary + [] == st.glossary;
    }
  }

  // -------------------------------------------------------------- the whole text

  lemma ReadDollar(more: seq<string>)
    ensures ReadLines(["$0"] + more, START) == ReadLines(more, START.(current := Glossary))
  {
    TrimmedStrip("$0");
    assert "$0"[1..] == "0";
    ReadLinesStep("$0", more, START);
    assert more[0..] == more;
  }

  lemma ReadGlossary(comments: seq<string>, symbols: seq<Entry>, more: seq<string>)
    requires forall c | c in comments :: IsCommentLine(c)
    requires forall e | e in symbols :: ReadableEntry(e)
    ensures EntryLines(symbols).Some?
    ensures ReadLines(FlattenLines(["$0", ""] + comments + EntryLines(symbols).value) + more, START)
         == ReadLines(more, State([], [], SymbolsBack(symbols), [], Glossary, comments))
  {
    EntriesPrint(symbols);
    var printed := EntryLines(symbols).value;
    var tail2 := FlattenLines(printed) + more;
    var tail1 := FlattenLines(comments) + tail2;
    GlossaryLines(comments, printed, more);
    ReadDollar([""] + tail1);
    var st := START.(current := Glossary);
    ReadBlank(tail1, st);
    ReadComments(comments, tail2, st);
    var st' := st.(pending := st.pending + comments);
    ReadEntries(symbols, more, st');
    StoredAllGlossary(st', symbols);
    assert [] + comments == comments && [] + SymbolsBack(symbols) == SymbolsBack(symbols);
  }

  lemma GlossaryLines(comments: seq<string>, printed: seq<string>, more: seq<string>)
    ensures FlattenLines(["$0", ""] + comments + printed) + more
         == ["$0"] + ([""] + (FlattenLines(comments) + (FlattenLines(printed) + more)))
  {
    assert ["$0", ""] + comments + printed == ["$0"] + ([""] + (comments + printed));
    FlattenBlock("$0", comments, printed, more);
  }

  /** The final newline adds at most one blank line. */
  lemma FinishedLines(lines: seq<string>)
    requires lines != []
    ensures Lines(Finished(lines)) == FlattenLines(lines) || Lines(Finished(lines)) == FlattenLines(lines) + [""]
  {
    LinesUnlines(lines);
    var text := Unlines(lines);
    LinesConcat(text, "");
    assert text + "\n" + "" == text + "\n";
  }

  lemma ReadFinal(more: seq<string>, st: State)
    requires ValidState(st) && (more == [] || more == [""])
    ensures ReadLines(more, st) == st
  {
    if more == [""] {
      ReadBlank([], st);
      assert [""] + [] == [""];
    }
  }

  /** The reader's state after the printed glossary. */
  function GlossaryState(doc: Document): State {
    State([], [], SymbolsBack(doc.symbols), [], Glossary, doc.comments)
  }

  lemma FormatLinePlain()
    ensures '\n' !in FORMAT_LINE && Trimmed(FORMAT_LINE)
    ensures |FORMAT_LINE| > 9 && FORMAT_LINE[..9] == "$0:format" && FORMAT_LINE[9] == '{' && FORMAT_LINE[0] != '#'
  {
    var a, b, c := "$0:format", "{cortex:\"0.1\", ", "encoding:\"UTF-8\"}";
    JoinedLine(a, b, c);
  }

  lemma JoinedLine(a: string, b: string, c: string)
    requires '\n' !in a && '\n' !in b && '\n' !in c && a != "" && b != "" && c != ""
    requires !IsSpace(a[0]) && !IsSpace(c[|c| - 1])
    ensures var s := a + b + c; '\n' !in s && Trimmed(s) && s[..|a|] == a && s[|a|] == b[0] && |s| > |a|
  {}

  lemma FormatIsIgnored(s: string, more: seq<string>, st: State)
    requires ValidState(st) && InGlossary(st)
    requires |s| > 9 && s[..9] == "$0:format" && s[9] == '{' && Strip(s) == s && s[0] != '#'
    ensures ReadLines([s] + more, st) == ReadLines(more, st)
  {
    assert s[9..][0] == '{';
    assert Classify(s, st) == Ignored;
    ReadLinesStep(s, more, st);
    assert more[0..] == more;
  }

  /** The format line of a strict write changes nothing inside the glossary. */
  lemma ReadFormat(format: seq<string>, more: seq<string>, st: State)
    requires format == [] || format == [FORMAT_LINE, ""]
    requires ValidState(st) && InGlossary(st)
    ensures ReadLines(FlattenLines(format) + more, st) == ReadLines(more, st)
  {
    if format == [] {
      assert FlattenLines(format) + more == more;
    } else {
      FormatLinePlain();
      FlattenCons(FORMAT_LINE, [""]);
      assert format == [FORMAT_LINE] + [""];
      BlankLines();
      ConcatAssoc([FORMAT_LINE], [""], more);
      TrimmedStrip(FORMAT_LINE);
      FormatIsIgnored(FORMAT_LINE, [""] + more, st);
      ReadBlank(more, st);
    }
  }

  lemma FinishGlossary(comments: seq<string>, symbols: seq<Entry>)
    ensures Finish(State([], [], symbols, [], Glossary, comments)) == Document("$0", comments, symbols, [])
  {
    assert [] + comments == comments && [] + symbols == symbols;
  }

  lemma FinishDocument(doc: Document)
    requires ReadableDocument(doc)
    ensures Finish(AfterSections(GlossaryState(doc), doc.sections)) == DocumentBack(doc)
  {
    FinishSections(GlossaryState(doc), doc.sections);
    FinishGlossary(doc.comments, SymbolsBack(doc.symbols));
    assert [] + SectionsBack(doc.sections) == SectionsBack(doc.sections);
  }

  lemma ReadAll(glossary: seq<string>, format: seq<string>, doc: Document, all: seq<string>, more: seq<string>)
    requires ReadableDocument(doc) && (format == [] || format == [FORMAT_LINE, ""])
    requires EntryLines(doc.symbols).Some? && glossary == Prologue(doc) + EntryLines(doc.symbols).value
    requires AppendSections(glossary + format, doc.sections) == Some(all)
    requires more == [] || more == [""]
    ensures ReadLines(FlattenLines(all) + more, START) == AfterSections(GlossaryState(doc), doc.sections)
  {
    var st := GlossaryState(doc);
    ReadSections(glossary + format, doc.sections, more, st);
    FrontLines(glossary, format, all, more);
    var tail := FlattenLines(all[|glossary + format|..]) + more;
    ReadFront(glossary, doc, FlattenLines(format) + tail);
    ReadFormat(format, tail, st);
    ReadFinal(more, AfterSections(st, doc.sections));
  }

  lemma ReadFront(glossary: seq<string>, doc: Document, more: seq<string>)
    requires ReadableDocument(doc)
    requires EntryLines(doc.symbols).Some? && glossary == Prologue(doc) + EntryLines(doc.symbols).value
    ensures ReadLines(FlattenLines(glossary) + more, START) == ReadLines(more, GlossaryState(doc))
  {
    ReadGlossary(doc.comments, doc.symbols, more);
    assert glossary == ["$0", ""] + doc.comments + EntryLines(doc.symbols).value;
  }

  lemma FrontLines(a: seq<string>, b: seq<string>, all: seq<string>, more: seq<string>)
    requires |a + b| <= |all| && all[..|a + b|] == a + b
    ensures FlattenLines(all) + more
         == FlattenLines(a) + (FlattenLines(b) + (FlattenLines(all[|a + b|..]) + more))
  {
    SplitFront(a + b, all);
    ThreeFlattened(a, b, all[|a + b|..]);
    FrontAssoc(FlattenLines(a), FlattenLines(b), FlattenLines(all[|a + b|..]), more);
  }

  lemma SplitFront(front: seq<string>, all: seq<string>)
    requires |front| <= |all| && all[..|front|] == front
    ensures all == front + all[|front|..]
  {}

  lemma ThreeFlattened(a: seq<string>, b: seq<string>, c: seq<string>)
    ensures FlattenLines((a + b) + c) == (FlattenLines(a) + FlattenLines(b)) + FlattenLines(c)
  {
    FlattenLinesConcat(a + b, c);
    FlattenLinesConcat(a, b);
  }

  lemma FrontAssoc(a: seq<string>, b: seq<string>, c: seq<string>, d: seq<string>)
    ensures ((a + b) + c) + d == a + (b + (c + d))
  {}

  /** A readable document, printed with or without the format line, reads back as itself. */
  lemma PrintedReadsBack(doc: Document, format: seq<string>)
    requires ReadableDocument(doc) && (format == [] || format == [FORMAT_LINE, ""])
    ensures EntryLines(doc.symbols).Some?
    ensures var all := AppendSections(Prologue(doc) + EntryLines(doc.symbols).value + format, doc.sections);
      all.Some? && Read(Finished(all.value)) == DocumentBack(doc)
  {
    EntriesPrint(doc.symbols);
    var glossary := Prologue(doc) + EntryLines(doc.symbols).value;
    ReadSections(glossary + format, doc.sections, [], GlossaryState(doc));
    var all := AppendSections(glossary + format, doc.sections).value;
    FinishedLines(all);
    var more := if Lines(Finished(all)) == FlattenLines(all) then [] else [""];
    assert FlattenLines(all) + [] == FlattenLines(all);
    ReadAll(glossary, format, doc, all, more);
    FinishDocument(doc);
  }

  /**
   * Reading back what the non-strict writer prints returns the same comments, symbols,
   * section ids, titles, section comments and entries, in order.
   */
  lemma DocumentRoundTrip(doc: Document, cache: Cache)
    requires ReadableDocument(doc)
    ensures Written(doc, false, cache).Some?
    ensures Read(Written(doc, false, cache).value) == DocumentBack(doc)
  {
    PrintedReadsBack(doc, []);
    var front := Prologue(doc) + EntryLines(doc.symbols).value;
    assert front + [] == front;
  }
}
