/** `_serialize` and `_parse` of `timelog_store.py`. */
module TimelogText {
  import opened Text
  import opened TimelogModel
  import opened TimelogFields

  // ------------------------------------------------------------------- pieces of text

  /** `_clean_text`. */
  function Clean(v: string): string { Strip(Replace(Replace(v, "\"", "'"), "\n", " ")) }

  // -------------------------------------------------------------------------- sorting

  ghost predicate IsLeast(x: string, s: set<string>) { x in s && forall y | y in s :: StrLe(x, y) }

  lemma {:induction false} LeastExists(s: set<string>)
    requires s != {}
    ensures exists x :: IsLeast(x, s)
    decreases |s|
  {
    var y :| y in s;
    if s == {y} {
      StrLeOrder(y, y, y);
      assert IsLeast(y, s);
    } else {
      LeastExists(s - {y});
      var x :| IsLeast(x, s - {y});
      StrLeOrder(x, y, y);
      StrLeOrder(y, y, y);
      if StrLe(x, y) {
        assert IsLeast(x, s);
      } else {
        forall z | z in s ensures StrLe(y, z) {
          StrLeOrder(y, x, z);
        }
        assert IsLeast(y, s);
      }
    }
  }

  ghost function Sorted(s: set<string>): (r: seq<string>)
    ensures forall x :: x in r <==> x in s
    decreases |s|
  {
    if s == {} then [] else
      LeastExists(s);
      var x :| IsLeast(x, s);
      [x] + Sorted(s - {x})
  }

  method Least(s: set<string>) returns (x: string)
    requires s != {}
    ensures IsLeast(x, s)
  {
    var rest := s;
    x :| x in rest;
    while rest != {}
      invariant x in s && rest <= s && forall y | y in s - rest :: StrLe(x, y)
      decreases |rest|
    {
      var y :| y in rest;
      StrLeOrder(y, x, y);
      StrLeOrder(y, y, y);
      if !StrLe(x, y) {
        forall z | z in s - rest ensures StrLe(y, z) {
          StrLeOrder(y, x, z);
        }
        x := y;
      }
      rest := rest - {y};
    }
  }

  // ---------------------------------------------------------------------- the records

  function IdentityFields(d: Document): seq<Field> {
    [Field(Project, Clean(d.project)), Field(Ses, d.ses), Field(Opened, d.openedAt), Field(Version, "1"),
     Field(Revision, d.revision)]
  }

  function Optional(key: Key, value: string, shown: string): seq<Field> {
    if value == "" then [] else [Field(key, shown)]
  }

  /** The stamp a block is written with. */
  function Stamped(b: Block, revision: string): string { OrElse(b.revision, revision) }

  function BlockFields(b: Block, revision: string): seq<Field> {
    [Field(Start, b.start), Field(End, b.end), Field(State, b.state)]
    + (Optional(Note, b.note, Clean(b.note)) + (Optional(Auth, b.auth, Clean(b.auth))
    + (Optional(LastActivity, b.lastActivity, b.lastActivity)
    + [Field(Revision, Stamped(b, revision))])))
  }

  function ReceiptFields(r: Receipt, revision: string): seq<Field> {
    [Field(Operation, Clean(r.operation)), Field(Status, r.status), Field(Destination, Clean(r.destination)),
     Field(State, r.state), Field(Remote, Clean(r.remote)), Field(Revision, revision)]
  }

  function MarkFields(m: Mark, revision: string): seq<Field> {
    [Field(Operation, Clean(m.operation)), Field(Status, m.status), Field(Destination, Clean(m.destination)),
     Field(State, m.state), Field(Remote, Clean(m.remote)), Field(Blocks, Clean(m.blocks)),
     Field(Start, m.start), Field(End, m.end), Field(Minutes, m.minutes), Field(Agent, Clean(m.agent)),
     Field(ProjectedAt, m.projectedAt), Field(Revision, revision)]
  }

  /** One entry, on its own line. */
  function Line(sigil: string, name: string, fields: seq<Field>): string {
    sigil + (":" + (name + ("{" + (Body(fields) + "}"))))
  }

  // ------------------------------------------------------------------------- printing

  /** A line of the glossary comment, in columns. */
  function Row(a: string, b: string, c: string, d: string): string { a + (b + (c + d)) }

  const LAYER := "| Episodic        | "
  const TLG_ROW := Row("# TLG   | timelog  ", "| attrs | B    " + LAYER, "Timelog identity ", "and metadata")
  const ACT_ROW := Row("# ACT   | activity ", "| attrs | B    " + LAYER, "One activity ", "interval")
  const RCV_ROW := Row("# RCV   | receipt  ", "| attrs | B    " + LAYER, "External ", "projection receipt")
  const PRJ_ROW := Row("# PRJ   | projection ", "| attrs | B  " + LAYER, "Per-provider ", "projection mark")
  const COLUMNS := Row("# Sigil | Name     ", "| Type  | Risk ", "| Cognitive Layer ", "| Description")
  const TITLE := Row("# -- $0:", " TIMLOG", " LOCAL ", "GLOSSARY --")

  /** `_GLOSSARY`, line by line. */
  const GLOSSARY: seq<string> := ["$0", "", TITLE, COLUMNS, TLG_ROW, ACT_ROW, RCV_ROW, PRJ_ROW]

  /** The lines up to the blocks. */
  function Head(d: Document): seq<string> {
    GLOSSARY + ([""] + (["$1: IDENTITY"] + ([Line("TLG", "identity", IdentityFields(d)) + "\n"]
    + ([""] + ["$2: ACTIVITIES"]))))
  }

  function BlockElement(k: string, b: Block, revision: string): string {
    Line("ACT", EntryName(k), BlockFields(b, revision)) + "\n"
  }

  function ReceiptElement(k: string, r: Receipt, revision: string): string {
    Line("RCV", EntryName(k), ReceiptFields(r, revision)) + "\n"
  }

  function MarkElement(k: string, m: Mark, revision: string): string {
    Line("PRJ", EntryName(k), MarkFields(m, revision)) + "\n"
  }

  /** The texts of the keys, in their order. */
  function Pick(texts: map<string, string>, keys: seq<string>): seq<string>
    requires forall k | k in keys :: k in texts
  { if keys == [] then [] else [texts[keys[0]]] + Pick(texts, keys[1..]) }

  function BlockTexts(t: map<string, Block>, revision: string): map<string, string> {
    map k | k in t :: BlockElement(k, t[k], revision)
  }

  function ReceiptTexts(t: map<string, Receipt>, revision: string): map<string, string> {
    map k | k in t :: ReceiptElement(k, t[k], revision)
  }

  function MarkTexts(t: map<string, Mark>, revision: string): map<string, string> {
    map k | k in t :: MarkElement(k, t[k], revision)
  }

  /** The head, then each table in key order under its heading. */
  ghost function Layout(
      head: seq<string>, blocks: map<string, string>, receipts: map<string, string>, marks: map<string, string>): seq<string>
  {
    head + (Pick(blocks, Sorted(blocks.Keys)) + ([""] + (["$3: RECEIPTS"]
    + (Pick(receipts, Sorted(receipts.Keys)) + ([""] + (["$4: PROJECTIONS"] + Pick(marks, Sorted(marks.Keys))))))))
  }

  ghost function Elements(d: Document): seq<string> {
    Layout(Head(d), BlockTexts(d.blocks, d.revision), ReceiptTexts(d.receipts, d.revision),
           MarkTexts(d.projections, d.revision))
  }

  ghost function Serialized(d: Document): string { Unlines(Elements(d)) + "\n" }

  // -------------------------------------------------------------------------- parsing

  function IndexOf(s: string, c: char): nat
    requires c in s
  { if s[0] == c then 0 else 1 + IndexOf(s[1..], c) }

  function RIndexOf(s: string, c: char): nat
    requires c in s
  { if s[|s| - 1] == c then |s| - 1 else RIndexOf(s[..|s| - 1], c) }

  lemma {:induction false} IndexBounds(s: string, c: char)
    requires c in s
    ensures IndexOf(s, c) < |s| && RIndexOf(s, c) < |s|
    decreases |s|
  {
    if s[0] != c { IndexBounds(s[1..], c); }
    if s[|s| - 1] != c { IndexBounds(s[..|s| - 1], c); }
  }

  /** The name after the sigil and the attributes between the braces; none when a brace is missing. */
  function NameAndAttrs(line: string): Option<(string, string)>
    requires |line| >= 4
  {
    if '{' !in line || '}' !in line then None
    else
      IndexBounds(line, '{');
      IndexBounds(line, '}');
      var i, j := IndexOf(line, '{'), RIndexOf(line, '}');
      Some((if 4 <= i then line[4..i] else "", if i + 1 <= j then line[i + 1..j] else ""))
  }

  function At(attrs: string, key: Key): string { FieldOf(attrs, Name(key)) }

  function BlockFrom(attrs: string): Block {
    Block(At(attrs, Start), At(attrs, End), OrElse(At(attrs, State), "open"), At(attrs, Note), At(attrs, Auth),
          At(attrs, LastActivity), At(attrs, Revision))
  }

  function ReceiptFrom(attrs: string): Receipt {
    Receipt(At(attrs, Operation), OrElse(At(attrs, Status), "pending"), At(attrs, Destination),
            OrElse(At(attrs, State), "unknown"), At(attrs, Remote))
  }

  function MarkFrom(attrs: string): Mark {
    Mark(At(attrs, Operation), OrElse(At(attrs, Status), "pending"), At(attrs, Destination),
         OrElse(At(attrs, State), "unknown"), At(attrs, Remote), At(attrs, Blocks), At(attrs, Start),
         At(attrs, End), At(attrs, Minutes), At(attrs, Agent), At(attrs, ProjectedAt))
  }

  function WithIdentity(d: Document, attrs: string): Document {
    d.(project := At(attrs, Project), ses := At(attrs, Ses), openedAt := At(attrs, Opened),
       revision := OrElse(At(attrs, Revision), "0"))
  }

  datatype Kind = Identity | Activity | ReceiptLine | ProjectionLine | Other

  function SigilOf(kind: Kind): string
    requires !kind.Other?
  {
    match kind
    case Identity => "TLG"
    case Activity => "ACT"
    case ReceiptLine => "RCV"
    case ProjectionLine => "PRJ"
  }

  function KindOf(line: string): Kind {
    if StartsWith(line, "TLG:") then Identity
    else if StartsWith(line, "ACT:") then Activity
    else if StartsWith(line, "RCV:") then ReceiptLine
    else if StartsWith(line, "PRJ:") then ProjectionLine
    else Other
  }

  function WithEntry(d: Document, kind: Kind, name: string, attrs: string): Document {
    match kind
    case Identity => WithIdentity(d, attrs)
    case Activity => d.(blocks := d.blocks[name := BlockFrom(attrs)])
    case ReceiptLine => d.(receipts := d.receipts[name := ReceiptFrom(attrs)])
    case ProjectionLine => d.(projections := d.projections[name := MarkFrom(attrs)])
    case Other => d
  }

  /** One line of the loop; none once a brace was missing. */
  function ParseLine(d: Option<Document>, raw: string): Option<Document> {
    var line := Strip(raw);
    var kind := KindOf(line);
    if d.None? || kind.Other? then d
    else
      var parts := NameAndAttrs(line);
      if parts.None? then None else Some(WithEntry(d.value, kind, parts.value.0, parts.value.1))
  }

  function ParseLines(d: Option<Document>, lines: seq<string>): Option<Document>
    decreases |lines|
  {
    if lines == [] then d else ParseLines(ParseLine(d, lines[0]), lines[1..])
  }

  function Parsed(text: string): Option<Document> { ParseLines(Some(EMPTY), Pieces(text)) }
}
