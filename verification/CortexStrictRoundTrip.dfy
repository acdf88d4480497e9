/** Reading back what a strict write prints. */
module CortexStrictRoundTrip {
  import opened Text
  import opened Attrs
  import opened CortexModel
  import opened CortexReader
  import opened CortexWriter
  import opened CortexScan
  import opened CortexEntries
  import opened CortexRoundTrip
  import opened CortexDocument
  import CortexStrict

  /** Every name the sigil cache gives can stand in a declaration. */
  predicate FitCache(cache: Cache) {
    forall sigil | sigil in cache :: cache[sigil].name == "" || IsName(cache[sigil].name)
  }

  predicate AllReadable(es: seq<Entry>) { forall e | e in es :: ReadableEntry(e) }

  lemma ReadableConcat(a: seq<Entry>, b: seq<Entry>)
    ensures AllReadable(a + b) <==> AllReadable(a) && AllReadable(b)
  {
    assert forall e | e in a :: e in a + b;
    assert forall e | e in b :: e in a + b;
  }

  // ---------------------------------------------------------- attributes, one by one

  /** An attribute the printer leaves out, or one it prints and the reader recognises. */
  predicate FitAttr(a: Attr) { a.value.VNone? || (IsIdent(a.key) && PrintableValue(a.value)) }

  predicate FitAttrs(attrs: AttrMap) { forall a | a in attrs :: FitAttr(a) }

  lemma {:induction false} FitIsIdent(attrs: AttrMap)
    ensures FitAttrs(attrs) <==> IdentPairs(DropNone(attrs))
  {
    if attrs != [] {
      FitIsIdent(attrs[1..]);
      assert attrs[0] in attrs && forall a | a in attrs[1..] :: a in attrs;
      assert attrs == [attrs[0]] + attrs[1..];
      var rest := DropNone(attrs[1..]);
      if !attrs[0].value.VNone? {
        assert ([attrs[0]] + rest)[1..] == rest;
      } else {
        assert [] + rest == rest;
      }
    }
  }

  lemma ReadablePairsFit(attrs: AttrMap)
    ensures ReadablePairs(attrs) <==> DistinctKeys(attrs) && FitAttrs(attrs)
  {
    FitIsIdent(attrs);
  }

  // ------------------------------------------------------------ generated declarations

  lemma {:induction false} LowerSigilTail(s: string)
    requires SigilTailLen(s) == |s|
    ensures forall c | c in Lower(s) :: !IsSpace(c) && c != '{' && c != QUOTE
  {
    if s != "" { LowerSigilTail(s[1..]); }
  }

  lemma LowerSigil(sigil: string)
    requires IsSigil(sigil)
    ensures IsName(Lower(sigil))
  {
    LowerSigilTail(sigil[1..]);
  }

  lemma DeclarationKeys()
    ensures IsIdent("type") && IsIdent("weight") && IsIdent("fields") && IsIdent("focus") && IsIdent("desc")
  {
    IdentWord("type");
    IdentWord("weight");
    IdentWord("fields");
    IdentWord("focus");
    IdentWord("desc");
  }

  lemma BodyDeclarationFits(attrs: AttrMap, a: Value, b: Value, c: Value, d: Value)
    requires a.VStr? && b.VStr? && c.VStr? && d.VStr?
    requires attrs == [Attr("type", a), Attr("weight", b), Attr("focus", c), Attr("desc", d)]
    ensures ReadablePairs(attrs)
  {
    DeclarationKeys();
    ReadablePairsFit(attrs);
    assert forall x | x in attrs :: FitAttr(x);
  }

  lemma AttrsDeclarationFits(attrs: AttrMap, a: Value, b: Value, c: Value, d: Value, e: Value)
    requires a.VStr? && b.VStr? && c.VStr? && d.VStr? && e.VStr?
    requires attrs == [Attr("type", a), Attr("weight", b), Attr("fields", c), Attr("focus", d), Attr("desc", e)]
    ensures ReadablePairs(attrs)
  {
    DeclarationKeys();
    ReadablePairsFit(attrs);
    assert forall x | x in attrs :: FitAttr(x);
  }

  lemma DeclarationReadable(sigil: string, entries: seq<Entry>, cache: Cache)
    requires IsSigil(sigil) && FitCache(cache)
    ensures ReadableEntry(SymbolDeclaration(sigil, entries, cache))
  {
    var e := SymbolDeclaration(sigil, entries, cache);
    LowerSigil(sigil);
    assert IsName(e.name);
    var attrs := e.payload.attrs;
    if exists e :: e in entries && e.payload.Body? {
      BodyDeclarationFits(attrs, attrs[0].value, attrs[1].value, attrs[2].value, attrs[3].value);
    } else {
      AttrsDeclarationFits(attrs, attrs[0].value, attrs[1].value, attrs[2].value, attrs[3].value, attrs[4].value);
    }
  }

  lemma {:induction false} GeneratedReadable(sigils: seq<string>, entries: seq<Entry>, declared: set<string>, cache: Cache)
    requires FitCache(cache) && forall s | s in sigils :: IsSigil(s)
    ensures AllReadable(Generated(sigils, entries, declared, cache))
  {
    if sigils != [] {
      assert sigils[0] in sigils && forall s | s in sigils[1..] :: s in sigils;
      GeneratedReadable(sigils[1..], entries, declared, cache);
      DeclarationReadable(sigils[0], WithSigil(entries, sigils[0]), cache);
      var first := if sigils[0] in declared then [] else [SymbolDeclaration(sigils[0], WithSigil(entries, sigils[0]), cache)];
      ReadableConcat(first, Generated(sigils[1..], entries, declared, cache));
    }
  }

  predicate ReadableSections(sections: seq<Section>) { forall sec | sec in sections :: ReadableSection(sec) }

  lemma {:induction false} AllEntriesReadable(sections: seq<Section>)
    requires ReadableSections(sections)
    ensures AllReadable(AllEntries(sections))
  {
    if sections != [] {
      assert sections[0] in sections && forall sec | sec in sections[1..] :: sec in sections;
      AllEntriesReadable(sections[1..]);
      ReadableConcat(sections[0].entries, AllEntries(sections[1..]));
    }
  }

  lemma GeneratedForReadable(sections: seq<Section>, declared: set<string>, cache: Cache)
    requires FitCache(cache) && forall e | e in AllEntries(sections) :: IsSigil(e.sigil)
    ensures AllReadable(GeneratedFor(sections, declared, cache))
  {
    var entries := AllEntries(sections);
    forall s | s in UsedSigils(entries) ensures IsSigil(s) {
      CortexStrict.UsedSigilsSound(entries, s);
    }
    GeneratedReadable(UsedSigils(entries), entries, declared, cache);
  }

  // ------------------------------------------------------------------- sorted symbols

  lemma {:induction false} SortedReadable(symbols: seq<Entry>, cache: Cache)
    requires AllReadable(symbols)
    ensures AllReadable(KeptSymbols(symbols, cache)) && AllReadable(MovedSymbols(symbols, cache))
  {
    if symbols != [] {
      var e := symbols[0];
      assert e in symbols && forall x | x in symbols[1..] :: x in symbols;
      SortedReadable(symbols[1..], cache);
      var fate := SymbolFate(e, cache);
      assert !fate.Dropped? && fate.e == e;
      var kept, moved := if fate.Kept? then [e] else [], if fate.Moved? then [e] else [];
      ReadableConcat(kept, KeptSymbols(symbols[1..], cache));
      ReadableConcat(moved, MovedSymbols(symbols[1..], cache));
    }
  }

  // ------------------------------------------------------------------------- sections

  lemma MigratedComment()
    ensures IsCommentLine("# Entries moved from the " + "legacy glossary during " + "CODEC migration.")
  {
    JoinedLine("# Entries moved from the ", "legacy glossary during ", "CODEC migration.");
  }

  lemma MigratedId(n: nat)
    requires n > 0
    ensures var id := "$" + NatToString(n); id != "" && SectionIdLen(id) == |id| && id != "$0"
  {
    var id := "$" + NatToString(n);
    assert id[1..] == NatToString(n);
    DigitsLenAll(NatToString(n));
    NatRoundTrip(n);
  }

  lemma MigratedReadable(sections: seq<Section>, legacy: seq<Entry>)
    requires AllReadable(legacy)
    ensures ReadableSection(MigratedSection(sections, legacy))
  {
    MigratedId(MaxId(sections) + 1);
    MigratedComment();
  }

  lemma MetadataReadable(sec: Section, comments: seq<string>, entries: seq<Entry>)
    requires sec == Section("$19", Some("ARQUX METADATA"), comments, entries)
    requires (forall c | c in comments :: IsCommentLine(c)) && AllReadable(entries)
    ensures ReadableSection(sec)
  {
    assert "$19"[1..] == "19" && "19"[1..] == "9" && "9"[1..] == "";
  }

  lemma MergeStepReadable(m: Merge, sec: Section)
    requires ValidMerge(m) && ReadableSections(m.out) && ReadableSection(sec)
    ensures ReadableSections(MergeStep(m, sec).out)
  {
    if IsMetadata(sec, m.at.Some?) {
      match m.at {
        case None =>
          var meta := Section("$19", Some("ARQUX METADATA"), sec.comments, sec.entries);
          MetadataReadable(meta, sec.comments, sec.entries);
        case Some(k) =>
          var met := m.out[k];
          assert met in m.out;
          ReadableConcat(met.entries, sec.entries);
          GrownReadable(met, sec.entries);
      }
    }
  }

  lemma GrownReadable(sec: Section, more: seq<Entry>)
    requires ReadableSection(sec) && AllReadable(sec.entries + more)
    ensures ReadableSection(sec.(entries := sec.entries + more))
  {}

  lemma {:induction false} MergedReadable(sections: seq<Section>, m: Merge)
    requires ValidMerge(m) && ReadableSections(m.out) && ReadableSections(sections)
    ensures ReadableSections(Merged(sections, m).out)
    decreases |sections|
  {
    if sections != [] {
      assert sections[0] in sections && forall sec | sec in sections[1..] :: sec in sections;
      MergeStepReadable(m, sections[0]);
      MergedReadable(sections[1..], MergeStep(m, sections[0]));
    }
  }

  // ------------------------------------------------------------------- the round trip

  /** The document that a strict write prints: sorted and generated symbols, merged sections. */
  function StrictDocument(doc: Document, cache: Cache): Document {
    var p := StrictPlan(doc, cache);
    Document("$0", doc.comments, Glossaries(p), p.sections)
  }

  lemma WithMigratedReadable(sections: seq<Section>, legacy: seq<Entry>)
    requires ReadableSections(sections) && AllReadable(legacy)
    ensures ReadableSections(WithMigrated(sections, legacy))
  {
    MigratedReadable(sections, legacy);
  }

  lemma StrictReadable(doc: Document, cache: Cache)
    requires ReadableDocument(doc) && FitCache(cache)
    ensures ReadableDocument(StrictDocument(doc, cache))
  {
    var p := StrictPlan(doc, cache);
    SortedReadable(doc.symbols, cache);
    var sections := WithMigrated(doc.sections, MovedSymbols(doc.symbols, cache));
    WithMigratedReadable(doc.sections, MovedSymbols(doc.symbols, cache));
    MergedReadable(sections, Merge([], None));
    AllEntriesReadable(doc.sections);
    AllEntriesReadable(p.sections);
    GeneratedForReadable(doc.sections, DeclaredSigils(p.kept), cache);
    GeneratedForReadable(p.sections, DeclaredSigils(p.kept) + DeclaredSigils(p.first), cache);
    ReadableConcat(p.kept, p.first);
    ReadableConcat(p.kept + p.first, p.second);
  }

  /**
   * Reading back what a strict write prints returns the normalised document: the same comments,
   * the glossary bodies, and the merged sections with every entry, in order.
   */
  lemma StrictRoundTrip(doc: Document, cache: Cache)
    requires ReadableDocument(doc) && FitCache(cache)
    ensures Written(doc, true, cache).Some?
    ensures Read(Written(doc, true, cache).value) == DocumentBack(StrictDocument(doc, cache))
  {
    StrictReadable(doc, cache);
    StrictPrints(doc, StrictDocument(doc, cache), cache);
    PrintedReadsBack(StrictDocument(doc, cache), [FORMAT_LINE, ""]);
  }

  lemma StrictPrints(doc: Document, strict: Document, cache: Cache)
    requires doc.header == "$0" && strict == StrictDocument(doc, cache)
    ensures Written(doc, true, cache)
         == match EntryLines(strict.symbols)
            case None => None
            case Some(glossary) =>
              match AppendSections(Prologue(strict) + glossary + [FORMAT_LINE, ""], strict.sections)
              case None => None
              case Some(lines) => Some(Finished(lines))
  {
    assert !StartsWith("$0", "$0:format");
  }
}
