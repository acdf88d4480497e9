/** A prose record whose braces are not closed takes the sections after it when the file is written again. */
module DomSwallow {
  import opened Text
  import opened Attrs
  import opened CortexModel
  import opened CortexReader
  import opened CortexWriter
  import opened CortexScan
  import opened CortexEntries
  import opened CortexRoundTrip
  import opened CortexDocument
  import opened CortexStrictRoundTrip

  // ------------------------------------------------------------------ lines that stay inside

  /** A line that leaves the brace depth as it is. */
  predicate Quiet(line: string, depth: int) { ScanText(line, false, false, depth) == Open(false, depth) }

  predicate AllQuiet(lines: seq<string>, depth: int) { forall l | l in lines :: Quiet(l, depth) }

  lemma {:induction false} QuietCollected(first: string, rest: seq<string>, depth: int)
    requires Quiet(first, depth) && AllQuiet(rest, depth)
    ensures Collected(first, rest, false, depth).1 == |rest|
    decreases |rest|
  {
    if rest != [] {
      assert rest[0] in rest && forall l | l in rest[1..] :: l in rest;
      QuietCollected(rest[0], rest[1..], depth);
    }
  }

  lemma QuietConcat(a: seq<string>, b: seq<string>, depth: int)
    requires AllQuiet(a, depth) && AllQuiet(b, depth)
    ensures AllQuiet(a + b, depth)
  {}

  lemma PlainQuiet(line: string, depth: int)
    requires IsPlain(line) && depth > 0
    ensures Quiet(line, depth)
  {
    PlainInvisible(line, "", depth);
    assert line + "" == line;
  }

  /** An attributes entry on one line. */
  predicate FlatEntry(e: Entry) { ReadableEntry(e) && e.payload.Pairs? && '\n' !in Serialised(e.payload.attrs) }

  lemma SigilPlain(sigil: string, name: string)
    requires IsSigil(sigil) && IsName(name) && BACKSLASH !in name && '}' !in name
    ensures IsPlain(sigil + ":" + name)
  {
    SigilTailPlain(sigil[1..]);
    assert sigil == [sigil[0]] + sigil[1..];
    assert IsSpace('\n');
  }

  lemma {:induction false} SigilTailPlain(t: string)
    requires SigilTailLen(t) == |t|
    ensures IsPlain(t)
  {
    if t != "" {
      SigilTailPlain(t[1..]);
      assert t == [t[0]] + t[1..];
    }
  }

  lemma FlatQuiet(e: Entry, depth: int)
    requires FlatEntry(e) && depth > 0 && BACKSLASH !in e.name && '}' !in e.name
    ensures Lines(EntryText(e).value) == [EntryText(e).value] && Quiet(EntryText(e).value, depth)
  {
    var kept := DropNone(e.payload.attrs);
    var line := HeadText(e.sigil, e.name) + (Serialised(kept) + "}");
    PartsDropNone(e.payload.attrs);
    PairsOnOneLine(e, line);
    SigilPlain(e.sigil, e.name);
    HeadQuiet(e.sigil + ":" + e.name, Serialised(kept), line, depth);
    SerialisedInvisible(kept, "}", depth + 1);
    ClosesBack(Serialised(kept), depth);
  }

  lemma HeadQuiet(h: string, body: string, line: string, depth: int)
    requires IsPlain(h) && depth > 0 && line == h + "{" + (body + "}")
    ensures ScanText(line, false, false, depth) == Shift(ScanText(body + "}", false, false, depth + 1), |h| + 1)
  {
    var rest := "{" + (body + "}");
    PlainInvisible(h, rest, depth);
    assert line == h + rest && rest[1..] == body + "}";
  }

  lemma ClosesBack(body: string, depth: int)
    requires depth > 0 && ScanText(body + "}", false, false, depth + 1) == Shift(ScanText("}", false, false, depth + 1), |body|)
    ensures ScanText(body + "}", false, false, depth + 1) == Open(false, depth)
  {
    assert "}"[1..] == "";
  }

  // --------------------------------------------------------------- sections that stay inside

  predicate FlatSection(sec: Section) {
    && IsPlain(HeaderLine(sec)) && sec.comments == []
    && forall e | e in sec.entries :: FlatEntry(e) && BACKSLASH !in e.name && '}' !in e.name
  }

  lemma {:induction false} FlatEntriesQuiet(entries: seq<Entry>, depth: int)
    requires depth > 0 && forall e | e in entries :: FlatEntry(e) && BACKSLASH !in e.name && '}' !in e.name
    ensures EntryLines(entries).Some? && AllQuiet(FlattenLines(EntryLines(entries).value), depth)
  {
    if entries != [] {
      var e := entries[0];
      assert e in entries && forall x | x in entries[1..] :: x in entries;
      FlatEntriesQuiet(entries[1..], depth);
      FlatQuiet(e, depth);
      PlainQuiet("", depth);
      var text, rest := EntryText(e).value, EntryLines(entries[1..]).value;
      FlattenEntry(text, rest, []);
      QuietConcat([""], FlattenLines(rest) + [], depth);
      QuietConcat([text], [""] + (FlattenLines(rest) + []), depth);
      assert FlattenLines([text, ""] + rest) + [] == FlattenLines([text, ""] + rest);
    }
  }

  lemma FlatSectionQuiet(lines: seq<string>, sec: Section, depth: int)
    requires depth > 0 && FlatSection(sec)
    ensures AppendSection(lines, sec).Some?
    ensures AllQuiet(FlattenLines(AppendSection(lines, sec).value[|lines|..]), depth)
  {
    FlatEntriesQuiet(sec.entries, depth);
    var printed, header := FlattenLines(EntryLines(sec.entries).value), HeaderLine(sec);
    SectionLines(lines, sec, []);
    PlainQuiet("", depth);
    PlainQuiet(header, depth);
    BlankLines();
    assert FlattenLines([]) + (printed + []) == printed;
    QuietConcat([""], printed, depth);
    QuietConcat([header], [""] + printed, depth);
    QuietConcat(FlattenLines(Separator(lines)), [header] + ([""] + printed), depth);
    var all := FlattenLines(AppendSection(lines, sec).value[|lines|..]);
    assert all + [] == all;
  }

  lemma {:induction false} FlatSectionsQuiet(lines: seq<string>, sections: seq<Section>, depth: int)
    requires depth > 0 && forall sec | sec in sections :: FlatSection(sec)
    ensures AppendSections(lines, sections).Some?
    ensures var all := AppendSections(lines, sections).value;
      |lines| <= |all| && all[..|lines|] == lines && AllQuiet(FlattenLines(all[|lines|..]), depth)
    decreases |sections|
  {
    if sections == [] {
      assert lines[|lines|..] == [];
    } else {
      var sec := sections[0];
      assert sec in sections && forall x | x in sections[1..] :: x in sections;
      FlatSectionQuiet(lines, sec, depth);
      var lines' := AppendSection(lines, sec).value;
      FlatSectionsQuiet(lines', sections[1..], depth);
      var all := AppendSections(lines', sections[1..]).value;
      SplitTail(lines, lines', all);
      FlattenLinesConcat(lines'[|lines|..], all[|lines'|..]);
      QuietConcat(FlattenLines(lines'[|lines|..]), FlattenLines(all[|lines'|..]), depth);
    }
  }

  // ------------------------------------------------------------------ the body that stays open

  /** The brace scan is still inside the body after the closing line that the writer adds. */
  predicate Unclosed(body: string, depth: int) {
    depth > 0 && !HasLoneBrace(body) && ScanText(body + "\n}", false, false, 1) == Open(false, depth)
  }

  lemma TakesTheRest(body: string, rest: seq<string>, depth: int)
    requires Unclosed(body, depth) && AllQuiet(rest, depth)
    ensures BodyRead(body, rest).1 == |Lines(body) + ["}"] + rest|
  {
    BodyCollected(body, rest);
    BodyLines(body);
    if rest != [] {
      assert rest[0] in rest && forall l | l in rest[1..] :: l in rest;
      QuietCollected(rest[0], rest[1..], depth);
    }
  }

  lemma ReadOpenBody(e: Entry, rest: seq<string>, depth: int, st: State)
    requires IsSigil(e.sigil) && IsName(e.name) && e.payload.Body? && Unclosed(e.payload.text, depth)
    requires AllQuiet(rest, depth) && ValidState(st) && !st.current.NoSection?
    ensures var r := ReadLines(Lines(EntryText(e).value) + rest, st);
      r == AddEntry(st, Entry(e.sigil, e.name, MultiPayload(BodyRead(e.payload.text, rest).0)))
  {
    var body, head := e.payload.text, HeadText(e.sigil, e.name);
    var more := Lines(body) + ["}"] + rest;
    HeadPlain(e.sigil, e.name);
    BodyEntryLines(e, rest);
    BodyHead(e.sigil, e.name, more, st);
    TakesTheRest(body, rest, depth);
    ReadLinesStep(head, more, st);
    assert more[|more|..] == [];
  }

  /** The section that holds the open body, and everything after it. */
  lemma ReadOpenSection(lines: seq<string>, sec: Section, e: Entry, rest: seq<string>, depth: int, st: State)
    requires ReadableSection(sec.(entries := [])) && sec.comments == [] && sec.entries == [e]
    requires IsSigil(e.sigil) && IsName(e.name) && e.payload.Body? && Unclosed(e.payload.text, depth)
    requires AllQuiet(rest, depth) && ValidState(st) && !st.current.NoSection?
    ensures AppendSection(lines, sec).Some?
    ensures ReadLines(FlattenLines(AppendSection(lines, sec).value[|lines|..]) + rest, st)
         == AddEntry(OpenSection(st, sec.id, sec.title),
                     Entry(e.sigil, e.name, MultiPayload(BodyRead(e.payload.text, [""] + rest).0)))
  {
    var shell := sec.(entries := []);
    var header := HeaderLine(shell);
    assert header == HeaderLine(sec);
    HeaderMatches(shell);
    OneEntryLines(sec.entries, e);
    var text := EntryText(e).value;
    SectionLines(lines, sec, rest);
    FlattenEntry(text, [], rest);
    var tail := Lines(text) + ([""] + rest);
    assert FlattenLines([]) + rest == rest && [text, ""] + [] == [text, ""];
    assert FlattenLines([]) + tail == tail;
    ReadSeparator(lines, [header] + ([""] + tail), st);
    ReadHeader(shell, [""] + tail, st);
    var entered := OpenSection(st, sec.id, sec.title);
    ReadBlank(tail, entered);
    PlainQuiet("", depth);
    QuietConcat([""], rest, depth);
    ReadOpenBody(e, [""] + rest, depth, entered);
  }

  lemma OneEntryLines(entries: seq<Entry>, e: Entry)
    requires entries == [e] && EntryText(e).Some?
    ensures EntryLines(entries) == Some([EntryText(e).value, ""])
  {
    assert entries[1..] == [] && EntryLines([]) == Some([]);
    assert [EntryText(e).value, ""] + [] == [EntryText(e).value, ""];
  }

  // --------------------------------------------------------------------------- the whole text

  /** An open body followed by flat sections is all that is read of them. */
  lemma OpenBodySwallows(doc: Document, cache: Cache, sec: Section, e: Entry, later: seq<Section>, depth: int)
    requires doc.header == "$0" && (forall c | c in doc.comments :: IsCommentLine(c))
    requires AllReadable(Glossaries(StrictPlan(doc, cache))) && StrictPlan(doc, cache).sections == [sec] + later
    requires ReadableSection(sec.(entries := [])) && sec.comments == [] && sec.entries == [e]
    requires IsSigil(e.sigil) && IsName(e.name) && e.payload.Body? && Unclosed(e.payload.text, depth)
    requires forall x | x in later :: FlatSection(x)
    ensures Written(doc, true, cache).Some?
    ensures var read := Read(Written(doc, true, cache).value); |read.sections| == 1 && read.sections[0].id == sec.id
  {
    var strict := StrictDocument(doc, cache);
    StrictPrints(doc, strict, cache);
    CortexDocument.EntriesPrint(strict.symbols);
    var glossary, format := Prologue(strict) + EntryLines(strict.symbols).value, [FORMAT_LINE, ""];
    var front := glossary + format;
    OneEntryLines(sec.entries, e);
    var lines := AppendSection(front, sec).value;
    FlatSectionsQuiet(lines, later, depth);
    assert ([sec] + later)[1..] == later;
    var all := AppendSections(lines, later).value;
    FinishedLines(all);
    var more := if Lines(Finished(all)) == FlattenLines(all) then [] else [""];
    assert FlattenLines(all) + [] == FlattenLines(all);
    SwallowedLines(strict, sec, e, glossary, format, lines, all, more, depth);
  }

  lemma SwallowedLines(
      doc: Document, sec: Section, e: Entry, glossary: seq<string>, format: seq<string>, lines: seq<string>,
      all: seq<string>, more: seq<string>, depth: int)
    requires (forall c | c in doc.comments :: IsCommentLine(c)) && AllReadable(doc.symbols) && doc.header == "$0"
    requires EntryLines(doc.symbols).Some? && glossary == Prologue(doc) + EntryLines(doc.symbols).value
    requires format == [FORMAT_LINE, ""] && AppendSection(glossary + format, sec) == Some(lines)
    requires ReadableSection(sec.(entries := [])) && sec.comments == [] && sec.entries == [e]
    requires IsSigil(e.sigil) && IsName(e.name) && e.payload.Body? && Unclosed(e.payload.text, depth)
    requires |lines| <= |all| && all[..|lines|] == lines && AllQuiet(FlattenLines(all[|lines|..]), depth)
    requires more == [] || more == [""]
    ensures var read := Finish(ReadLines(FlattenLines(all) + more, START));
      |read.sections| == 1 && read.sections[0].id == sec.id
  {
    var front, st := glossary + format, GlossaryState(doc);
    var rest := FlattenLines(all[|lines|..]) + more;
    PlainQuiet("", depth);
    QuietConcat(FlattenLines(all[|lines|..]), more, depth);
    ReadOpenSection(front, sec, e, rest, depth, st);
    TailLines(front, lines, all, more);
    FrontLines(glossary, format, all, more);
    var tail := FlattenLines(all[|front|..]) + more;
    ReadPrologue(doc, glossary, format, tail);
    OneSectionFinish(st, sec.id, sec.title, Entry(e.sigil, e.name, MultiPayload(BodyRead(e.payload.text, [""] + rest).0)));
  }

  lemma TailLines(front: seq<string>, lines: seq<string>, all: seq<string>, more: seq<string>)
    requires |front| <= |lines| <= |all| && lines[..|front|] == front && all[..|lines|] == lines
    ensures FlattenLines(all[|front|..]) + more == FlattenLines(lines[|front|..]) + (FlattenLines(all[|lines|..]) + more)
  {
    SplitTail(front, lines, all);
    FlattenLinesConcat(lines[|front|..], all[|lines|..]);
    ConcatAssoc(FlattenLines(lines[|front|..]), FlattenLines(all[|lines|..]), more);
  }

  lemma ReadPrologue(doc: Document, glossary: seq<string>, format: seq<string>, tail: seq<string>)
    requires (forall c | c in doc.comments :: IsCommentLine(c)) && AllReadable(doc.symbols) && doc.header == "$0"
    requires EntryLines(doc.symbols).Some? && glossary == Prologue(doc) + EntryLines(doc.symbols).value
    requires format == [FORMAT_LINE, ""]
    ensures ReadLines(FlattenLines(glossary) + (FlattenLines(format) + tail), START) == ReadLines(tail, GlossaryState(doc))
  {
    ReadGlossary(doc.comments, doc.symbols, FlattenLines(format) + tail);
    assert glossary == ["$0", ""] + doc.comments + EntryLines(doc.symbols).value;
    ReadFormat(format, tail, GlossaryState(doc));
  }

  lemma OneSectionFinish(st: State, id: string, title: Option<string>, e: Entry)
    requires st.current.Glossary? && st.sections == [] && id != "$0"
    ensures var read := Finish(AddEntry(OpenSection(st, id, title), e));
      |read.sections| == 1 && read.sections[0].id == id
  {}
}
