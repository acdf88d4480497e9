/** `cortex/writer.py`: printing a document, and strict normalisation. */
module CortexWriter {
  import opened Text
  import opened Attrs
  import opened CortexModel
  import opened CortexReader

  // ---------------------------------------------------------------- entries

  predicate HasLoneBrace(body: string) { exists line :: line in Lines(body) && Strip(line) == "}" }

  /** `_format_entry`: no text for a body that holds a line that is only a brace. */
  function EntryText(e: Entry): Option<string> {
    match e.payload
    case Pairs(attrs) => Some(e.sigil + ":" + e.name + "{" + Serialised(attrs) + "}")
    case Body(body) =>
      if HasLoneBrace(body) then None
      else Some(e.sigil + ":" + e.name + "{\n" + body + "\n}")
  }

  method FormatEntry(e: Entry) returns (text: Option<string>)
    ensures text == EntryText(e)
  {
    match e.payload {
      case Pairs(attrs) =>
        var body := SerialiseAttrs(attrs);
        text := Some(e.sigil + ":" + e.name + "{" + body + "}");
      case Body(body) =>
        var lines := Lines(body);
        for n := 0 to |lines|
          invariant forall k :: 0 <= k < n ==> Strip(lines[k]) != "}"
        {
          if Strip(lines[n]) == "}" {
            assert lines[n] in Lines(body);
            return None;
          }
        }
        text := Some(e.sigil + ":" + e.name + "{\n" + body + "\n}");
    }
  }

  /** Every entry followed by a blank line; nothing when some entry cannot be printed. */
  function EntryLines(entries: seq<Entry>): Option<seq<string>> {
    if entries == [] then Some([])
    else match (EntryText(entries[0]), EntryLines(entries[1..]))
      case (Some(text), Some(more)) => Some([text, ""] + more)
      case _ => None
  }

  method FormatEntries(entries: seq<Entry>) returns (lines: Option<seq<string>>)
    ensures lines == EntryLines(entries)
  {
    var out: seq<string> := [];
    var rest := entries;
    while rest != []
      invariant EntryLines(entries).Some? <==> EntryLines(rest).Some?
      invariant EntryLines(rest).Some? ==> out + EntryLines(rest).value == EntryLines(entries).value
      decreases |rest|
    {
      var text := FormatEntry(rest[0]);
      if text.None? {
        return None;
      }
      if EntryLines(rest[1..]).Some? {
        ConcatAssoc(out, [text.value, ""], EntryLines(rest[1..]).value);
      }
      out := out + [text.value, ""];
      rest := rest[1..];
    }
    assert out + EntryLines(rest).value == out;
    lines := Some(out);
  }

  // --------------------------------------------------------------- sections

  function HeaderLine(sec: Section): string {
    match sec.title case Some(title) => sec.id + ": " + title case None => sec.id
  }

  /** Blank lines that keep two of them between the text so far and a header. */
  function Separator(lines: seq<string>): seq<string> {
    if lines != [] && lines[|lines| - 1] == "" then [""] else ["", ""]
  }

  function AppendSection(lines: seq<string>, sec: Section): Option<seq<string>> {
    match EntryLines(sec.entries)
    case None => None
    case Some(more) => Some(lines + Separator(lines) + [HeaderLine(sec), ""] + sec.comments + more)
  }

  function AppendSections(lines: seq<string>, sections: seq<Section>): Option<seq<string>>
    decreases |sections|
  {
    if sections == [] then Some(lines)
    else match AppendSection(lines, sections[0])
      case None => None
      case Some(lines') => AppendSections(lines', sections[1..])
  }

  method EmitSections(lines0: seq<string>, sections: seq<Section>) returns (r: Option<seq<string>>)
    ensures r == AppendSections(lines0, sections)
  {
    var lines := lines0;
    var rest := sections;
    while rest != []
      invariant AppendSections(lines, rest) == AppendSections(lines0, sections)
      decreases |rest|
    {
      var sec := rest[0];
      var entries := FormatEntries(sec.entries);
      if entries.None? {
        return None;
      }
      lines := lines + Separator(lines) + [HeaderLine(sec), ""] + sec.comments + entries.value;
      rest := rest[1..];
    }
    r := Some(lines);
  }

  /** The joined text, ending in a newline. */
  function Finished(lines: seq<string>): string {
    var text := Unlines(lines);
    if text != "" && text[|text| - 1] == '\n' then text else text + "\n"
  }

  // ------------------------------------------------------------- strict mode

  /** What the local sigil cache knows of a sigil; empty strings stand for missing fields. */
  datatype SigilDefinition = SigilDefinition(name: string, risk: string, description: string, fields: string)

  type Cache = map<string, SigilDefinition>

  const UNDEFINED := SigilDefinition("", "", "", "")

  function FieldNames(parts: seq<string>): seq<string> {
    if parts == [] then []
    else
      (if Strip(parts[0]) == "" then [] else [SplitOn(Strip(parts[0]), ':')[0]]) + FieldNames(parts[1..])
  }

  function ContractParts(fields: seq<string>): seq<string> {
    if fields == [] then [] else [fields[0] + ":any?"] + ContractParts(fields[1..])
  }

  /** `_symbol_declaration`: the glossary contract inferred for a sigil. */
  function SymbolDeclaration(sigil: string, entries: seq<Entry>, cache: Cache): (e: Entry)
    ensures e.sigil == sigil && e.payload.Pairs? && IsDeclaration(e.payload.attrs)
  {
    var def := if sigil in cache then cache[sigil] else UNDEFINED;
    var name := OrElse(def.name, Lower(sigil));
    var risk := OrElse(def.risk, "B");
    var weight := if risk in ["B", "M", "H"] then risk else "B";
    var desc := OrElse(def.description, "ArqUX " + sigil + " entry");
    if exists e :: e in entries && e.payload.Body? then
      var attrs := [Attr("type", VStr("cuerpo")), Attr("weight", VStr(weight)),
                    Attr("focus", VStr("$body")), Attr("desc", VStr(desc))];
      HasKeys4(attrs, 0, 1, 2, 3);
      Entry(sigil, name, Pairs(attrs))
    else
      var named := FieldNames(SplitOn(Replace(def.fields, "|", ","), ','));
      var fields := if def.fields == "" || named == [] then ["value"] else named;
      var attrs := [Attr("type", VStr("attrs")), Attr("weight", VStr(weight)),
                    Attr("fields", VStr(JoinWith("|", ContractParts(fields)))),
                    Attr("focus", VStr(fields[0])), Attr("desc", VStr(desc))];
      HasKeys4(attrs, 0, 1, 3, 4);
      Entry(sigil, name, Pairs(attrs))
  }

  lemma HasKeys4(attrs: AttrMap, a: nat, b: nat, c: nat, d: nat)
    requires a < |attrs| && b < |attrs| && c < |attrs| && d < |attrs|
    requires attrs[a].key == "type" && attrs[b].key == "weight"
    requires attrs[c].key == "focus" && attrs[d].key == "desc"
    ensures IsDeclaration(attrs)
  {
    assert attrs[a] in attrs && attrs[b] in attrs && attrs[c] in attrs && attrs[d] in attrs;
  }

  /** Inserts a key into an ascending list without repeating it. */
  function InsertKey(keys: seq<string>, k: string): seq<string> {
    if keys == [] then [k]
    else if keys[0] == k then keys
    else if Less(k, keys[0]) then [k] + keys
    else [keys[0]] + InsertKey(keys[1..], k)
  }

  function AllEntries(sections: seq<Section>): seq<Entry> {
    if sections == [] then [] else sections[0].entries + AllEntries(sections[1..])
  }

  /** The sigils in use, ascending; an empty sigil needs no declaration. */
  function UsedSigils(entries: seq<Entry>): seq<string> {
    if entries == [] then []
    else
      var more := UsedSigils(entries[1..]);
      if entries[0].sigil == "" then more else InsertKey(more, entries[0].sigil)
  }

  function WithSigil(entries: seq<Entry>, sigil: string): seq<Entry> {
    if entries == [] then []
    else (if entries[0].sigil == sigil then [entries[0]] else []) + WithSigil(entries[1..], sigil)
  }

  /** `_generated_symbols`, dropping the sigils in `declared`. */
  function Generated(sigils: seq<string>, entries: seq<Entry>, declared: set<string>, cache: Cache): seq<Entry> {
    if sigils == [] then []
    else
      (if sigils[0] in declared then []
       else [SymbolDeclaration(sigils[0], WithSigil(entries, sigils[0]), cache)])
      + Generated(sigils[1..], entries, declared, cache)
  }

  function GeneratedFor(sections: seq<Section>, declared: set<string>, cache: Cache): seq<Entry> {
    var entries := AllEntries(sections);
    Generated(UsedSigils(entries), entries, declared, cache)
  }

  predicate Declares(e: Entry) { e.payload.Pairs? && IsDeclaration(e.payload.attrs) }

  function DeclaredSigils(entries: seq<Entry>): set<string> {
    set e | e in entries && Declares(e) :: e.sigil
  }

  /** `str(v)` when `v` is truthy, else empty. */
  function TruthyText(v: Value): string {
    match v
    case VNone => ""
    case VBool(b) => if b then "True" else ""
    case VInt(i) => if i == 0 then "" else IntToString(i)
    case VFloat(literal) => if forall c | c in literal :: c in "-0." then "" else literal
    case VStr(s) => s
  }

  function Lookup(attrs: AttrMap, key: string): Value {
    if attrs == [] then VNone
    else if attrs[0].key == key then attrs[0].value
    else Lookup(attrs[1..], key)
  }

  /** The sigil a legacy `GSIG` symbol declares. */
  function Target(e: Entry): string
    requires e.payload.Pairs?
  { OrElse(TruthyText(Lookup(e.payload.attrs, "sigil")), e.name) }

  datatype Fate = Kept(e: Entry) | Moved(e: Entry) | Dropped

  /** What strict mode does with one glossary symbol. */
  function SymbolFate(e: Entry, cache: Cache): Fate {
    if e.payload.Body? then Kept(e)
    else if e.sigil == "GSIG" then
      if Target(e) == "" then Dropped else Kept(SymbolDeclaration(Target(e), [e], cache))
    else if !IsDeclaration(e.payload.attrs) then Moved(e)
    else Kept(e)
  }

  function KeptSymbols(symbols: seq<Entry>, cache: Cache): seq<Entry> {
    if symbols == [] then []
    else
      (match SymbolFate(symbols[0], cache) case Kept(e) => [e] case _ => [])
      + KeptSymbols(symbols[1..], cache)
  }

  function MovedSymbols(symbols: seq<Entry>, cache: Cache): seq<Entry> {
    if symbols == [] then []
    else
      (match SymbolFate(symbols[0], cache) case Moved(e) => [e] case _ => [])
      + MovedSymbols(symbols[1..], cache)
  }

  function LStripDollar(s: string): string { LStripChar(s, '$') }

  /** Leading number of a section id, when it has one. */
  function IdNumber(id: string): Option<nat> {
    var head := SplitOn(LStripDollar(id), '.')[0];
    if AllDigits(head) then Some(DigitsValue(head)) else None
  }

  function MaxId(sections: seq<Section>): nat {
    if sections == [] then 0
    else
      var more := MaxId(sections[1..]);
      match IdNumber(sections[0].id)
      case Some(n) => if n > more then n else more
      case None => more
  }

  function MigratedSection(sections: seq<Section>, legacy: seq<Entry>): Section {
    Section("$" + NatToString(MaxId(sections) + 1), Some("MIGRATED GLOSSARY DATA"),
            ["# Entries moved from the " + "legacy glossary during " + "CODEC migration."], legacy)
  }

  function WithMigrated(sections: seq<Section>, legacy: seq<Entry>): seq<Section> {
    if legacy == [] then sections else [MigratedSection(sections, legacy)] + sections
  }

  /** The metadata section met first; `at` is its place in the output. */
  datatype Merge = Merge(out: seq<Section>, at: Option<nat>)

  predicate ValidMerge(m: Merge) { m.at.Some? ==> m.at.value < |m.out| }

  predicate IsMetadata(sec: Section, merging: bool) { sec.id == "$0.1" || (sec.id == "$19" && merging) }

  function MergeStep(m: Merge, sec: Section): (r: Merge)
    requires ValidMerge(m)
    ensures ValidMerge(r)
  {
    if !IsMetadata(sec, m.at.Some?) then m.(out := m.out + [sec])
    else match m.at
      case None =>
        Merge(m.out + [Section("$19", Some("ARQUX METADATA"), sec.comments, sec.entries)], Some(|m.out|))
      case Some(k) =>
        m.(out := m.out[k := m.out[k].(entries := m.out[k].entries + sec.entries)])
  }

  function Merged(sections: seq<Section>, m: Merge): (r: Merge)
    requires ValidMerge(m)
    ensures ValidMerge(r)
    decreases |sections|
  {
    if sections == [] then m else Merged(sections[1..], MergeStep(m, sections[0]))
  }

  method MergeMetadata(sections: seq<Section>) returns (out: seq<Section>)
    ensures out == Merged(sections, Merge([], None)).out
  {
    var m := Merge([], None);
    var rest := sections;
    while rest != []
      invariant ValidMerge(m) && Merged(rest, m) == Merged(sections, Merge([], None))
      decreases |rest|
    {
      m := MergeStep(m, rest[0]);
      rest := rest[1..];
    }
    out := m.out;
  }

  /** What a strict write prints: glossary entries in order, then sections. */
  datatype Plan = Plan(kept: seq<Entry>, first: seq<Entry>, second: seq<Entry>, sections: seq<Section>)

  function StrictPlan(doc: Document, cache: Cache): Plan {
    var kept := KeptSymbols(doc.symbols, cache);
    var declared := DeclaredSigils(kept);
    var first := GeneratedFor(doc.sections, declared, cache);
    var sections := Merged(WithMigrated(doc.sections, MovedSymbols(doc.symbols, cache)), Merge([], None)).out;
    var second := GeneratedFor(sections, declared + DeclaredSigils(first), cache);
    Plan(kept, first, second, sections)
  }

  function Glossaries(p: Plan): seq<Entry> { p.kept + p.first + p.second }

  function Prologue(doc: Document): seq<string> { [doc.header, ""] + doc.comments }

  const FORMAT_LINE := "$0:format" + "{cortex:\"0.1\", " + "encoding:\"UTF-8\"}"

  /** The glossary entries and sections a write prints, and the format line. */
  function Printed(doc: Document, strict: bool, cache: Cache): (seq<Entry>, seq<Section>, seq<string>) {
    if strict then
      var p := StrictPlan(doc, cache);
      (Glossaries(p), p.sections, if StartsWith(doc.header, "$0:format") then [] else [FORMAT_LINE, ""])
    else (doc.symbols, doc.sections, [])
  }

  function Written(doc: Document, strict: bool, cache: Cache): Option<string> {
    var (symbols, sections, format) := Printed(doc, strict, cache);
    match EntryLines(symbols)
    case None => None
    case Some(glossary) =>
      match AppendSections(Prologue(doc) + glossary + format, sections)
      case None => None
      case Some(lines) => Some(Finished(lines))
  }

  /** `write_cortex_from_json`; no text stands for the `ValueError` of an unprintable body. */
  method WriteCortex(doc: Document, strict: bool, cache: Cache) returns (text: Option<string>)
    ensures text == Written(doc, strict, cache)
  {
    var lines := [doc.header, ""];
    lines := lines + doc.comments;
    var symbols, sections := doc.symbols, doc.sections;
    var format: seq<string> := [];
    if strict {
      var kept, legacy := SortSymbols(doc.symbols, cache);
      var declared := DeclaredSigils(kept);
      var first := GeneratedFor(sections, declared, cache);
      declared := declared + DeclaredSigils(first);
      sections := MergeMetadata(WithMigrated(sections, legacy));
      symbols := kept + first + GeneratedFor(sections, declared, cache);
      format := if StartsWith(doc.header, "$0:format") then [] else [FORMAT_LINE, ""];
    }
    var glossary := FormatEntries(symbols);
    if glossary.None? {
      return None;
    }
    lines := lines + glossary.value + format;
    var all := EmitSections(lines, sections);
    text := if all.None? then None else Some(Finished(all.value));
  }

  method SortSymbols(symbols: seq<Entry>, cache: Cache) returns (kept: seq<Entry>, moved: seq<Entry>)
    ensures kept == KeptSymbols(symbols, cache) && moved == MovedSymbols(symbols, cache)
  {
    kept, moved := [], [];
    var rest := symbols;
    while rest != []
      invariant kept + KeptSymbols(rest, cache) == KeptSymbols(symbols, cache)
      invariant moved + MovedSymbols(rest, cache) == MovedSymbols(symbols, cache)
      decreases |rest|
    {
      var fate := SymbolFate(rest[0], cache);
      var k, m := if fate.Kept? then [fate.e] else [], if fate.Moved? then [fate.e] else [];
      ConcatAssoc(kept, k, KeptSymbols(rest[1..], cache));
      ConcatAssoc(moved, m, MovedSymbols(rest[1..], cache));
      kept, moved := kept + k, moved + m;
      rest := rest[1..];
    }
  }
}
