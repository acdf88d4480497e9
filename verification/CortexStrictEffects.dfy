/** What strict normalisation makes of a document, told part by part, and what a document reads back as. */
module CortexStrictEffects {
  import opened Text
  import opened Attrs
  import opened CortexModel
  import opened CortexReader
  import opened CortexWriter
  import opened CortexStrict
  import opened CortexRoundTrip
  import opened CortexDocument

  // -------------------------------------------------------------------------- sections

  predicate IsMeta(sec: Section) { sec.id == "$0.1" || sec.id == "$19" }

  /** The sections after the first metadata section: metadata goes into it, the others follow. */
  lemma {:induction false} MergedAfter(rest: seq<Section>, m: Merge)
    requires ValidMerge(m) && m.at.Some?
    ensures var metas := Filtered(rest, (s: Section) => IsMeta(s));
      var k := m.at.value;
      Merged(rest, m).out
        == m.out[k := m.out[k].(entries := m.out[k].entries + AllEntries(metas))] + Filtered(rest, (s: Section) => !IsMeta(s))
    decreases |rest|
  {
    var p, q := (s: Section) => IsMeta(s), (s: Section) => !IsMeta(s);
    var k := m.at.value;
    if rest == [] {
      assert m.out[k].entries + [] == m.out[k].entries;
      assert m.out[k := m.out[k].(entries := m.out[k].entries + [])] + [] == m.out;
    } else {
      var head, more := rest[0], rest[1..];
      assert rest == [head] + more;
      FilteredCons(head, more, p);
      FilteredCons(head, more, q);
      MergedAfter(more, MergeStep(m, head));
      var metas, others := Filtered(more, p), Filtered(more, q);
      if IsMeta(head) {
        assert ([head] + metas)[1..] == metas;
        ConcatAssoc(m.out[k].entries, head.entries, AllEntries(metas));
      } else {
        var e := m.out[k].(entries := m.out[k].entries + AllEntries(metas));
        assert (m.out + [head])[k := e] == m.out[k := e] + [head];
        ConcatAssoc(m.out[k := e], [head], others);
      }
    }
  }

  lemma {:induction false} MergedBefore(before: seq<Section>, rest: seq<Section>, m: Merge)
    requires ValidMerge(m) && m.at.None? && forall s | s in before :: s.id != "$0.1"
    ensures Merged(before + rest, m) == Merged(rest, m.(out := m.out + before))
    decreases |before|
  {
    if before == [] {
      assert before + rest == rest && m.out + before == m.out;
    } else {
      assert (before + rest)[1..] == before[1..] + rest;
      assert m.out + before == (m.out + [before[0]]) + before[1..];
      assert before[0] in before && forall s | s in before[1..] :: s in before;
      MergedBefore(before[1..], rest, m.(out := m.out + [before[0]]));
    }
  }

  lemma NoMetadataStays(sections: seq<Section>)
    requires forall s | s in sections :: s.id != "$0.1"
    ensures Merged(sections, Merge([], None)).out == sections
  {
    MergedBefore(sections, [], Merge([], None));
    assert sections + [] == sections && [] + sections == sections;
  }

  /**
   * The first `$0.1` becomes section `$19` in its place, with its comments, its entries and those of every
   * later `$0.1` and `$19`, which go; every other section stays as it is, in order.
   */
  lemma MetadataMerges(before: seq<Section>, first: Section, rest: seq<Section>)
    requires first.id == "$0.1" && forall s | s in before :: s.id != "$0.1"
    ensures var metas, others := Filtered(rest, (s: Section) => IsMeta(s)), Filtered(rest, (s: Section) => !IsMeta(s));
      var merged := Section("$19", Some("ARQUX METADATA"), first.comments, first.entries + AllEntries(metas));
      Merged(before + ([first] + rest), Merge([], None)).out == before + [merged] + others
  {
    var none := Merge([], None);
    MergedBefore(before, [first] + rest, none);
    assert [] + before == before && ([first] + rest)[1..] == rest;
    var own := Section("$19", Some("ARQUX METADATA"), first.comments, first.entries);
    var m := Merge(before + [own], Some(|before|));
    assert MergeStep(none.(out := before), first) == m;
    MergedAfter(rest, m);
    var merged := own.(entries := own.entries + AllEntries(Filtered(rest, (s: Section) => IsMeta(s))));
    assert (before + [own])[|before| := merged] == before + [merged];
  }

  /** Migrated entries get a section of their own in front, under the number after the largest. */
  lemma MigrationSays(sections: seq<Section>, legacy: seq<Entry>) returns (n: nat)
    ensures forall s | s in sections && IdNumber(s.id).Some? :: IdNumber(s.id).value <= n
    ensures n == 0 || exists s :: s in sections && IdNumber(s.id) == Some(n)
    ensures var out := WithMigrated(sections, legacy);
      && (legacy == [] ==> out == sections)
      && (legacy != [] ==>
            && |out| == |sections| + 1 && out[1..] == sections && out[0].id == "$" + NatToString(n + 1)
            && out[0].title == Some("MIGRATED GLOSSARY DATA") && |out[0].comments| == 1 && out[0].entries == legacy)
  {
    n := MaxId(sections);
    MaxIdSays(sections);
  }

  lemma {:induction false} MaxIdSays(sections: seq<Section>)
    ensures forall s | s in sections && IdNumber(s.id).Some? :: IdNumber(s.id).value <= MaxId(sections)
    ensures MaxId(sections) == 0 || exists s :: s in sections && IdNumber(s.id) == Some(MaxId(sections))
  {
    if sections != [] {
      MaxIdSays(sections[1..]);
      assert sections == [sections[0]] + sections[1..];
      if MaxId(sections[1..]) != 0 {
        var s :| s in sections[1..] && IdNumber(s.id) == Some(MaxId(sections[1..]));
        assert s in sections;
      }
    }
  }

  // -------------------------------------------------------------------------- glossary

  /** Attributes without the keys of a declaration: legacy data, unless it is a `GSIG` symbol. */
  predicate IsLegacy(e: Entry) { e.payload.Pairs? && e.sigil != "GSIG" && !IsDeclaration(e.payload.attrs) }

  predicate NamesNothing(e: Entry) { e.payload.Pairs? && e.sigil == "GSIG" && Target(e) == "" }

  /** The legacy data moves, all of it and in order. */
  lemma {:induction false} MovedFilters(symbols: seq<Entry>, cache: Cache)
    ensures MovedSymbols(symbols, cache) == Filtered(symbols, (e: Entry) => IsLegacy(e))
  {
    if symbols != [] {
      MovedFilters(symbols[1..], cache);
      FilteredCons(symbols[0], symbols[1..], (e: Entry) => IsLegacy(e));
      assert [symbols[0]] + symbols[1..] == symbols;
    }
  }

  /** A `GSIG` symbol becomes a declaration of what it names; any other that stays is as it was. */
  ghost predicate Normalised(before: Entry, after: Entry, cache: Cache) {
    if before.sigil == "GSIG" && before.payload.Pairs? then after == SymbolDeclaration(Target(before), [before], cache)
    else after == before
  }

  /** What stays of the glossary: everything but legacy data and `GSIG` symbols that name nothing, in order. */
  lemma {:induction false} KeptFilters(symbols: seq<Entry>, cache: Cache)
    ensures var stay := Filtered(symbols, (e: Entry) => !IsLegacy(e) && !NamesNothing(e));
      && |KeptSymbols(symbols, cache)| == |stay|
      && forall k | 0 <= k < |stay| :: Normalised(stay[k], KeptSymbols(symbols, cache)[k], cache)
  {
    if symbols != [] {
      var p := (e: Entry) => !IsLegacy(e) && !NamesNothing(e);
      KeptFilters(symbols[1..], cache);
      FilteredCons(symbols[0], symbols[1..], p);
      assert [symbols[0]] + symbols[1..] == symbols;
    }
  }

  lemma {:induction false} WithSigilFilters(entries: seq<Entry>, sigil: string)
    ensures WithSigil(entries, sigil) == Filtered(entries, (e: Entry) => e.sigil == sigil)
  {
    if entries != [] {
      WithSigilFilters(entries[1..], sigil);
      FilteredCons(entries[0], entries[1..], (e: Entry) => e.sigil == sigil);
      assert [entries[0]] + entries[1..] == entries;
    }
  }

  /** The declaration of each sigil, from its entries. */
  function DeclaredAll(sigils: seq<string>, entries: seq<Entry>, cache: Cache): seq<Entry> {
    if sigils == [] then []
    else [SymbolDeclaration(sigils[0], WithSigil(entries, sigils[0]), cache)] + DeclaredAll(sigils[1..], entries, cache)
  }

  /** One declaration for each sigil in use that has none, in order, made from the entries of that sigil. */
  lemma {:induction false} GeneratedSays(sigils: seq<string>, entries: seq<Entry>, declared: set<string>, cache: Cache)
    ensures Generated(sigils, entries, declared, cache)
         == DeclaredAll(Filtered(sigils, (s: string) => s !in declared), entries, cache)
  {
    if sigils != [] {
      GeneratedSays(sigils[1..], entries, declared, cache);
      FilteredCons(sigils[0], sigils[1..], (s: string) => s !in declared);
      assert [sigils[0]] + sigils[1..] == sigils;
      var unmet := Filtered(sigils[1..], (s: string) => s !in declared);
      assert ([sigils[0]] + unmet)[1..] == unmet;
    }
  }

  /** The declaration of a sigil that the cache does not know. */
  lemma UnknownDeclared(sigil: string, entries: seq<Entry>, cache: Cache)
    requires sigil !in cache
    ensures var e := SymbolDeclaration(sigil, entries, cache);
      var a := e.payload.attrs;
      && e.sigil == sigil && e.name == Lower(sigil)
      && Attr("weight", VStr("B")) in a && Attr("desc", VStr("ArqUX " + sigil + " entry")) in a
      && (if exists e :: e in entries && e.payload.Body? then
            Attr("type", VStr("cuerpo")) in a && Attr("focus", VStr("$body")) in a && |a| == 4
          else
            && Attr("type", VStr("attrs")) in a && Attr("fields", VStr("value:any?")) in a
            && Attr("focus", VStr("value")) in a && |a| == 5)
  {
    if !exists e :: e in entries && e.payload.Body? {
      assert ["value"][1..] == [] && "value" + ":any?" == "value:any?";
      assert ContractParts(["value"]) == ["value:any?"] + ContractParts([]);
    }
  }

  /** What the cache knows of a sigil goes into its declaration. */
  lemma KnownDeclared(sigil: string, entries: seq<Entry>, cache: Cache)
    requires sigil in cache
    ensures var (e, def) := (SymbolDeclaration(sigil, entries, cache), cache[sigil]);
      var a := e.payload.attrs;
      && e.sigil == sigil && e.name == (if def.name != "" then def.name else Lower(sigil))
      && Attr("weight", VStr(if def.risk == "M" || def.risk == "H" then def.risk else "B")) in a
      && Attr("desc", VStr(if def.description != "" then def.description else "ArqUX " + sigil + " entry")) in a
      && Attr("type", VStr(if exists e :: e in entries && e.payload.Body? then "cuerpo" else "attrs")) in a
  {}

  /** Its fields are the names before the colons, each of any type, and the first is the focus. */
  lemma FieldsDeclared(sigil: string, entries: seq<Entry>, cache: Cache, names: seq<string>)
    requires sigil in cache && cache[sigil].fields != "" && !exists e :: e in entries && e.payload.Body?
    requires names == FieldNames(SplitOn(Replace(cache[sigil].fields, "|", ","), ',')) && names != []
    ensures var a := SymbolDeclaration(sigil, entries, cache).payload.attrs;
      Attr("focus", VStr(names[0])) in a && Attr("fields", VStr(JoinWith("|", ContractParts(names)))) in a
    ensures |ContractParts(names)| == |names| && forall k | 0 <= k < |names| :: ContractParts(names)[k] == names[k] + ":any?"
  {
    PartsSay(names);
  }

  lemma {:induction false} PartsSay(names: seq<string>)
    ensures |ContractParts(names)| == |names| && forall k | 0 <= k < |names| :: ContractParts(names)[k] == names[k] + ":any?"
  {
    if names != [] { PartsSay(names[1..]); }
  }

  // ------------------------------------------------------------------------- read back

  /** An entry reads back with its sigil and name; a body is the same; of attributes, those with a value. */
  predicate SameEntry(e: Entry, back: Entry) {
    && back.sigil == e.sigil && back.name == e.name && (back.payload.Body? <==> e.payload.Body?)
    && (e.payload.Body? ==> back.payload.text == e.payload.text)
    && (e.payload.Pairs? ==> SamePairs(DropNone(e.payload.attrs), back.payload.attrs))
  }

  predicate IsBroken(v: Value) { v.VStr? && '\n' in v.s }

  predicate SamePair(attrs: AttrMap, back: AttrMap, i: nat)
    requires i < |attrs| == |back|
  {
    && back[i].key == attrs[i].key
    && (back[i].value != attrs[i].value ==>
          && IsBroken(attrs[i].value) && back[i].value == VStr(TrimBreak(attrs[i].value.s))
          && forall j | 0 <= j < i :: !IsBroken(attrs[j].value))
  }

  /** The same keys in order; the same values, but for the first string of several lines. */
  predicate SamePairs(attrs: AttrMap, back: AttrMap) {
    |back| == |attrs| && forall i | 0 <= i < |attrs| :: SamePair(attrs, back, i)
  }

  lemma {:induction false} TrimFirstSays(attrs: AttrMap)
    ensures SamePairs(attrs, TrimFirst(attrs))
  {
    if attrs != [] && !IsBroken(attrs[0].value) {
      var rest, more := attrs[1..], TrimFirst(attrs[1..]);
      TrimFirstSays(rest);
      var back := [attrs[0]] + more;
      forall i | 0 <= i < |attrs| ensures SamePair(attrs, back, i) {
        if i > 0 {
          assert SamePair(rest, more, i - 1) && attrs[i] == rest[i - 1] && back[i] == more[i - 1];
          assert forall j | 0 < j < i :: attrs[j] == rest[j - 1];
        }
      }
    }
  }

  lemma {:induction false} DroppedFilters(attrs: AttrMap)
    ensures DropNone(attrs) == Filtered(attrs, (a: Attr) => a.value != VNone)
    decreases |attrs|
  {
    if attrs != [] {
      DroppedFilters(attrs[1..]);
      FilteredCons(attrs[0], attrs[1..], (a: Attr) => a.value != VNone);
      assert [attrs[0]] + attrs[1..] == attrs;
    }
  }

  lemma {:induction false} EntriesBackSays(entries: seq<Entry>)
    ensures |EntriesBack(entries)| == |entries|
    ensures forall i | 0 <= i < |entries| :: SameEntry(entries[i], EntriesBack(entries)[i])
  {
    if entries != [] {
      EntriesBackSays(entries[1..]);
      if entries[0].payload.Pairs? {
        TrimFirstSays(DropNone(entries[0].payload.attrs));
      }
    }
  }

  predicate SameEntries(entries: seq<Entry>, back: seq<Entry>) {
    |back| == |entries| && forall i | 0 <= i < |entries| :: SameEntry(entries[i], back[i])
  }

  predicate SameSection(sec: Section, back: Section) {
    back.id == sec.id && back.title == sec.title && back.comments == sec.comments && SameEntries(sec.entries, back.entries)
  }

  lemma {:induction false} SectionsBackSay(sections: seq<Section>)
    ensures |SectionsBack(sections)| == |sections|
    ensures forall i | 0 <= i < |sections| :: SameSection(sections[i], SectionsBack(sections)[i])
  {
    if sections != [] {
      SectionsBackSay(sections[1..]);
      EntriesBackSays(sections[0].entries);
    }
  }

  lemma {:induction false} SymbolsBackFilter(symbols: seq<Entry>)
    ensures SymbolsBack(symbols) == EntriesBack(Filtered(symbols, (e: Entry) => !HiddenInGlossary(e)))
  {
    if symbols != [] {
      var p := (e: Entry) => !HiddenInGlossary(e);
      SymbolsBackFilter(symbols[1..]);
      FilteredCons(symbols[0], symbols[1..], p);
      assert [symbols[0]] + symbols[1..] == symbols;
      assert ([symbols[0]] + Filtered(symbols[1..], p))[1..] == Filtered(symbols[1..], p);
    }
  }

  /**
   * What a printed document reads back as, in its parts: the same comments, the glossary but for one-line
   * declarations, and every section with its id, title, comments and entries, all in order.
   */
  lemma DocumentBackSays(doc: Document)
    ensures var back := DocumentBack(doc);
      && back.header == "$0" && back.comments == doc.comments
      && SameEntries(Filtered(doc.symbols, (e: Entry) => !HiddenInGlossary(e)), back.symbols)
      && |back.sections| == |doc.sections|
      && forall i | 0 <= i < |doc.sections| :: SameSection(doc.sections[i], back.sections[i])
  {
    SymbolsBackFilter(doc.symbols);
    EntriesBackSays(Filtered(doc.symbols, (e: Entry) => !HiddenInGlossary(e)));
    SectionsBackSay(doc.sections);
  }
}
