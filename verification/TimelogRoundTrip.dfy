/** Reading back a serialised timelog. */
module TimelogRoundTrip {
  import opened Text
  import opened TimelogModel
  import opened TimelogFields
  import opened TimelogText

  // ------------------------------------------------------------------- the normal form

  function NormalBlock(b: Block, revision: string): Block {
    Block(b.start, b.end, OrElse(b.state, "open"), Clean(b.note), Clean(b.auth), b.lastActivity,
          Stamped(b, revision))
  }

  function NormalReceipt(r: Receipt): Receipt {
    Receipt(Clean(r.operation), OrElse(r.status, "pending"), Clean(r.destination), OrElse(r.state, "unknown"),
            Clean(r.remote))
  }

  function NormalMark(m: Mark): Mark {
    Mark(Clean(m.operation), OrElse(m.status, "pending"), Clean(m.destination), OrElse(m.state, "unknown"),
         Clean(m.remote), Clean(m.blocks), m.start, m.end, m.minutes, Clean(m.agent), m.projectedAt)
  }

  function NormalBlocks(t: map<string, Block>, revision: string): map<string, Block> {
    map k | k in t :: NormalBlock(t[k], revision)
  }

  function NormalReceipts(t: map<string, Receipt>): map<string, Receipt> { map k | k in t :: NormalReceipt(t[k]) }

  function NormalMarks(t: map<string, Mark>): map<string, Mark> { map k | k in t :: NormalMark(t[k]) }

  /** Defaults filled, texts cleaned, every block stamped. */
  function Normal(d: Document): Document {
    d.(project := Clean(d.project), revision := OrElse(d.revision, "0"), blocks := NormalBlocks(d.blocks, d.revision),
       receipts := NormalReceipts(d.receipts), projections := NormalMarks(d.projections))
  }

  // ------------------------------------------------------------------------ the domain

  /** The fields each kind of entry is read for. */
  const IDENTITY_KEYS: seq<Key> := [Project, Ses, Opened, Revision]
  const BLOCK_KEYS: seq<Key> := [Start, End, State, Note, Auth, LastActivity, Revision]
  const RECEIPT_KEYS: seq<Key> := [Operation, Status, Destination, State, Remote]
  const MARK_KEYS: seq<Key> :=
    [Operation, Status, Destination, State, Remote, Blocks, Start, End, Minutes, Agent, ProjectedAt]

  /** On one line and free of quotes. */
  predicate PlainText(v: string) { SingleLine(v) && '"' !in v }

  predicate Plain(fields: seq<Field>) { fields == [] || (PlainText(fields[0].value) && Plain(fields[1..])) }

  predicate PlainBlocks(t: map<string, Block>, revision: string) {
    forall k | k in t :: IsName(k) && Plain(BlockFields(t[k], revision))
  }

  predicate PlainReceipts(t: map<string, Receipt>, revision: string) {
    forall k | k in t :: IsName(k) && Plain(ReceiptFields(t[k], revision))
  }

  predicate PlainMarks(t: map<string, Mark>, revision: string) {
    forall k | k in t :: IsName(k) && Plain(MarkFields(t[k], revision))
  }

  /** Entry names that are names, and printed values on one line without quotes. */
  predicate PlainDocument(d: Document) {
    && Plain(IdentityFields(d)) && PlainBlocks(d.blocks, d.revision)
    && PlainReceipts(d.receipts, d.revision) && PlainMarks(d.projections, d.revision)
  }

  /** Every field that is read, absent ones too, is not hidden by the value of another field. */
  predicate Legible(fields: seq<Field>, keys: seq<Key>) { forall k | k in keys :: Unhidden(fields, k) }

  function LegibleBlocks(t: map<string, Block>, revision: string): set<string> {
    set k | k in t && Legible(BlockFields(t[k], revision), BLOCK_KEYS)
  }

  function LegibleReceipts(t: map<string, Receipt>, revision: string): set<string> {
    set k | k in t && Legible(ReceiptFields(t[k], revision), RECEIPT_KEYS)
  }

  function LegibleMarks(t: map<string, Mark>, revision: string): set<string> {
    set k | k in t && Legible(MarkFields(t[k], revision), MARK_KEYS)
  }

  predicate LegibleDocument(d: Document) {
    && Legible(IdentityFields(d), IDENTITY_KEYS) && d.blocks.Keys <= LegibleBlocks(d.blocks, d.revision)
    && d.receipts.Keys <= LegibleReceipts(d.receipts, d.revision)
    && d.projections.Keys <= LegibleMarks(d.projections, d.revision)
  }

  lemma {:induction false} PlainMembers(fields: seq<Field>)
    ensures Plain(fields) <==> forall f | f in fields :: PlainText(f.value)
  {
    if fields != [] {
      PlainMembers(fields[1..]);
      assert forall f | f in fields :: f == fields[0] || f in fields[1..];
      assert forall f | f in fields[1..] :: f in fields;
    }
  }

  // -------------------------------------------------------------------- one entry's line

  lemma {:induction false} IndexFirst(s: string, c: char, i: nat)
    requires i < |s| && s[i] == c && c !in s[..i]
    ensures IndexOf(s, c) == i
  {
    if i > 0 {
      assert s[..i][0] == s[0] && s[1..][..i - 1] == s[..i][1..];
      IndexFirst(s[1..], c, i - 1);
    }
  }

  lemma BraceLayout(a: string, body: string)
    requires |a| >= 4
    ensures var s := a + (['{'] + (body + "}"));
      && |s| == |a| + |body| + 2 && s[|a|] == '{' && s[..|a|] == a && s[|s| - 1] == '}'
      && s[|a| + 1..|s| - 1] == body && s[4..|a|] == a[4..]
  {}

  lemma BraceParts(s: string, a: string, body: string)
    requires |a| >= 4 && '{' !in a && |s| == |a| + |body| + 2 && s[|a|] == '{' && s[..|a|] == a
    requires s[|s| - 1] == '}' && s[|a| + 1..|s| - 1] == body && s[4..|a|] == a[4..]
    ensures NameAndAttrs(s) == Some((a[4..], body))
  {
    IndexFirst(s, '{', |a|);
    assert RIndexOf(s, '}') == |s| - 1;
  }

  lemma LineParts(sigil: string, name: string, fields: seq<Field>)
    requires |sigil| == 3 && '{' !in sigil && '{' !in name
    ensures NameAndAttrs(Line(sigil, name, fields)) == Some((name, Body(fields)))
  {
    RegroupLine(sigil, name, Body(fields));
    BraceLayout(sigil + ":" + name, Body(fields));
    BraceParts(Line(sigil, name, fields), sigil + ":" + name, Body(fields));
  }

  lemma RegroupLine(sigil: string, name: string, body: string)
    requires |sigil| == 3
    ensures sigil + ":" + name + (['{'] + (body + "}")) == sigil + (":" + (name + ("{" + (body + "}"))))
    ensures (sigil + ":" + name)[4..] == name
  {}

  /** A printed line keeps its edges when stripped. */
  lemma LineStrips(sigil: string, name: string, fields: seq<Field>)
    requires |sigil| == 3 && !IsSpace(sigil[0])
    ensures Strip(Line(sigil, name, fields)) == Line(sigil, name, fields)
    ensures Line(sigil, name, fields)[..4] == sigil + ":"
  {
    var s := Line(sigil, name, fields);
    assert s[0] == sigil[0] && s[|s| - 1] == '}';
    TrimmedStrip(s);
  }

  lemma {:induction false} MoreSingleLine(fields: seq<Field>)
    requires Plain(fields)
    ensures SingleLine(More(fields))
  {
    if fields != [] {
      CellSingleLine(fields[0]);
      MoreSingleLine(fields[1..]);
      SingleLineConcat(Cell(fields[0]), More(fields[1..]));
      SingleLineConcat(",", Cell(fields[0]) + More(fields[1..]));
    }
  }

  lemma SingleLineConcat(a: string, b: string)
    requires SingleLine(a) && SingleLine(b)
    ensures SingleLine(a + b)
  {}

  lemma CellSingleLine(f: Field)
    requires SingleLine(f.value)
    ensures SingleLine(Cell(f))
  {
    NameIsKey(f.key);
    assert Cell(f) == Name(f.key) + (":\"" + (f.value + "\""));
  }

  lemma BodySingleLine(fields: seq<Field>)
    requires Plain(fields)
    ensures SingleLine(Body(fields))
  {
    if fields != [] {
      CellSingleLine(fields[0]);
      MoreSingleLine(fields[1..]);
      SingleLineConcat(Cell(fields[0]), More(fields[1..]));
    }
  }

  lemma LineSingleLine(sigil: string, name: string, body: string)
    requires SingleLine(sigil) && SingleLine(name) && SingleLine(body)
    ensures SingleLine(sigil + (":" + (name + ("{" + (body + "}")))))
  {
    SingleLineConcat(body, "}");
    SingleLineConcat("{", body + "}");
    SingleLineConcat(name, "{" + (body + "}"));
    SingleLineConcat(":", name + ("{" + (body + "}")));
    SingleLineConcat(sigil, ":" + (name + ("{" + (body + "}"))));
  }

  function Parse(d: Document, element: string): Option<Document> { ParseLines(Some(d), Pieces(element)) }

  lemma ParseEmpty(d: Option<Document>)
    ensures ParseLines(d, [""]) == d
  {
    TrimmedStrip("");
  }

  lemma ParseOneLine(d: Option<Document>, line: string)
    requires SingleLine(line)
    ensures ParseLines(d, Pieces(line + "\n")) == ParseLine(d, line)
  {
    PiecesPlain(line);
    PiecesConcat(line, "");
    assert line + "\n" + "" == line + "\n";
    assert Pieces(line + "\n") == [line] + [""];
    ParseEmpty(ParseLine(d, line));
    assert ([line] + [""])[1..] == [""];
  }

  lemma KindByPrefix(line: string, kind: Kind)
    requires !kind.Other? && |line| >= 4 && line[..4] == SigilOf(kind) + ":"
    ensures KindOf(line) == kind
  {
    assert SigilOf(kind) + ":" == match kind case Identity => "TLG:" case Activity => "ACT:" case ReceiptLine => "RCV:" case ProjectionLine => "PRJ:";
  }

  lemma ParseLineParts(d: Document, line: string, kind: Kind, name: string, attrs: string)
    requires !kind.Other? && Strip(line) == line && |line| >= 4 && line[..4] == SigilOf(kind) + ":"
    requires NameAndAttrs(line) == Some((name, attrs))
    ensures ParseLine(Some(d), line) == Some(WithEntry(d, kind, name, attrs))
  {
    KindByPrefix(line, kind);
  }

  lemma SigilFits(kind: Kind)
    requires !kind.Other?
    ensures |SigilOf(kind)| == 3 && SingleLine(SigilOf(kind)) && !IsSpace(SigilOf(kind)[0]) && '{' !in SigilOf(kind)
  {}

  lemma NameFits(name: string)
    requires IsName(name)
    ensures SingleLine(name) && '{' !in name
  {}

  /** Parsing a printed entry adds the entry its attributes describe. */
  lemma ParseEntry(d: Document, kind: Kind, name: string, fields: seq<Field>)
    requires !kind.Other? && IsName(name) && Plain(fields)
    ensures Parse(d, Line(SigilOf(kind), name, fields) + "\n") == Some(WithEntry(d, kind, name, Body(fields)))
  {
    var line := Line(SigilOf(kind), name, fields);
    SigilFits(kind);
    NameFits(name);
    BodySingleLine(fields);
    LineSingleLine(SigilOf(kind), name, Body(fields));
    LineStrips(SigilOf(kind), name, fields);
    LineParts(SigilOf(kind), name, fields);
    ParsePrinted(d, line, kind, name, Body(fields));
  }

  lemma ParsePrinted(d: Document, line: string, kind: Kind, name: string, attrs: string)
    requires !kind.Other? && Strip(line) == line && |line| >= 4 && line[..4] == SigilOf(kind) + ":"
    requires SingleLine(line) && NameAndAttrs(line) == Some((name, attrs))
    ensures Parse(d, line + "\n") == Some(WithEntry(d, kind, name, attrs))
  {
    ParseOneLine(Some(d), line);
    ParseLineParts(d, line, kind, name, attrs);
  }

  // ------------------------------------------------------------- reading the fields back

  /** The search gives the field with the key, unless it is hidden; then it gives a text starting with a comma. */
  ghost predicate Searched(attrs: string, fields: seq<Field>, k: Key) {
    && (At(attrs, k) == Lookup(fields, k) <==> Unhidden(fields, k))
    && (At(attrs, k) == Lookup(fields, k) || (At(attrs, k) != "" && At(attrs, k)[0] == ','))
  }

  lemma AllRead(fields: seq<Field>)
    requires Plain(fields)
    ensures forall k: Key :: Searched(Body(fields), fields, k)
  {
    PlainMembers(fields);
    forall k: Key ensures Searched(Body(fields), fields, k) {
      FieldSearch(fields, k);
      FoundIffUnhidden(fields, k);
    }
  }

  lemma DefaultedSame(v: string, w: string, default: string)
    requires v == w || (v != "" && v[0] == ',')
    requires default != "" && default[0] != ','
    ensures OrElse(v, default) == OrElse(w, default) <==> v == w
  {}

  lemma {:induction false} LookupSkip(a: seq<Field>, b: seq<Field>, key: Key)
    requires forall f | f in a :: f.key != key
    ensures Lookup(a + b, key) == Lookup(b, key)
  {
    if a == [] {
      assert a + b == b;
    } else {
      assert a[0] in a && (a + b)[1..] == a[1..] + b;
      LookupSkip(a[1..], b, key);
    }
  }

  lemma {:induction false} LookupIn(a: seq<Field>, b: seq<Field>, i: nat)
    requires i < |a| && forall j | 0 <= j < i :: a[j].key != a[i].key
    ensures Lookup(a + b, a[i].key) == a[i].value
  {
    if i == 0 {
      assert (a + b)[0] == a[0];
    } else {
      assert (a + b)[0] == a[0] && (a + b)[1..] == a[1..] + b;
      LookupIn(a[1..], b, i - 1);
    }
  }

  lemma LookupAt(a: seq<Field>, i: nat)
    requires i < |a| && forall j | 0 <= j < i :: a[j].key != a[i].key
    ensures Lookup(a, a[i].key) == a[i].value
  {
    LookupIn(a, [], i);
    assert a + [] == a;
  }

  function ReadBlock(b: Block, revision: string): Block { BlockFrom(Body(BlockFields(b, revision))) }

  function ReadReceipt(r: Receipt, revision: string): Receipt { ReceiptFrom(Body(ReceiptFields(r, revision))) }

  function ReadMark(m: Mark, revision: string): Mark { MarkFrom(Body(MarkFields(m, revision))) }

  /** A printed block is read back in normal form exactly when its fields are legible. */
  lemma BlockReads(b: Block, revision: string)
    requires Plain(BlockFields(b, revision))
    ensures ReadBlock(b, revision) == NormalBlock(b, revision) <==> Legible(BlockFields(b, revision), BLOCK_KEYS)
  {
    var fields := BlockFields(b, revision);
    AllRead(fields);
    BlockLookups(b, revision);
    BlockAssembles(Body(fields), fields, b, revision);
  }

  lemma BlockAssembles(attrs: string, f: seq<Field>, b: Block, revision: string)
    requires forall k: Key :: Searched(attrs, f, k)
    requires Lookup(f, Start) == b.start && Lookup(f, End) == b.end && Lookup(f, State) == b.state
    requires Lookup(f, Note) == Clean(b.note) && Lookup(f, Auth) == Clean(b.auth)
    requires Lookup(f, LastActivity) == b.lastActivity && Lookup(f, Revision) == Stamped(b, revision)
    ensures BlockFrom(attrs) == NormalBlock(b, revision) <==> Legible(f, BLOCK_KEYS)
  {
    assert Searched(attrs, f, Start) && Searched(attrs, f, End) && Searched(attrs, f, State) && Searched(attrs, f, Note)
        && Searched(attrs, f, Auth) && Searched(attrs, f, LastActivity) && Searched(attrs, f, Revision);
    DefaultedSame(At(attrs, State), b.state, "open");
    BlockKeysAre(f);
  }

  lemma BlockKeysAre(f: seq<Field>)
    ensures Legible(f, BLOCK_KEYS) <==>
      && Unhidden(f, Start) && Unhidden(f, End) && Unhidden(f, State) && Unhidden(f, Note) && Unhidden(f, Auth)
      && Unhidden(f, LastActivity) && Unhidden(f, Revision)
  {
    assert forall k :: k in BLOCK_KEYS <==> k in {Start, End, State, Note, Auth, LastActivity, Revision};
  }

  lemma CleanEmpty()
    ensures Clean("") == ""
  {
    assert Replace("", "\"", "'") == "";
  }

  lemma OptionalLookup(key: Key, value: string, shown: string, rest: seq<Field>)
    ensures Lookup(Optional(key, value, shown) + rest, key) == if value == "" then Lookup(rest, key) else shown
    ensures forall k | k != key :: Lookup(Optional(key, value, shown) + rest, k) == Lookup(rest, k)
  {
    var f := Optional(key, value, shown);
    if value == "" {
      assert f + rest == rest;
    } else {
      assert (f + rest)[0] == Field(key, shown) && (f + rest)[1..] == rest;
    }
  }

  function LastField(b: Block, revision: string): seq<Field> { [Field(Revision, Stamped(b, revision))] }

  function Options(b: Block, revision: string): seq<Field> {
    Optional(Note, b.note, Clean(b.note)) + (Optional(Auth, b.auth, Clean(b.auth))
    + (Optional(LastActivity, b.lastActivity, b.lastActivity) + LastField(b, revision)))
  }

  lemma OptionLookups(b: Block, revision: string)
    ensures var f := Options(b, revision);
      && Lookup(f, Note) == Clean(b.note) && Lookup(f, Auth) == Clean(b.auth)
      && Lookup(f, LastActivity) == b.lastActivity
      && Lookup(f, Revision) == Stamped(b, revision)
  {
    var last := LastField(b, revision);
    var r2 := Optional(LastActivity, b.lastActivity, b.lastActivity) + last;
    var r1 := Optional(Auth, b.auth, Clean(b.auth)) + r2;
    OptionalLookup(LastActivity, b.lastActivity, b.lastActivity, last);
    OptionalLookup(Auth, b.auth, Clean(b.auth), r2);
    OptionalLookup(Note, b.note, Clean(b.note), r1);
    CleanEmpty();
    assert forall k | k != Revision :: Lookup(last, k) == Lookup(last[1..], k);
  }

  lemma BlockLookups(b: Block, revision: string)
    ensures var f := BlockFields(b, revision);
      && Lookup(f, Start) == b.start && Lookup(f, End) == b.end && Lookup(f, State) == b.state
      && Lookup(f, Note) == Clean(b.note) && Lookup(f, Auth) == Clean(b.auth)
      && Lookup(f, LastActivity) == b.lastActivity && Lookup(f, Revision) == Stamped(b, revision)
  {
    OptionLookups(b, revision);
    ThreeFirst(Field(Start, b.start), Field(End, b.end), Field(State, b.state), Options(b, revision));
  }

  lemma ThreeFirst(x: Field, y: Field, z: Field, rest: seq<Field>)
    requires x.key == Start && y.key == End && z.key == State
    ensures var f := [x, y, z] + rest;
      && Lookup(f, Start) == x.value && Lookup(f, End) == y.value && Lookup(f, State) == z.value
      && forall k | k != Start && k != End && k != State :: Lookup(f, k) == Lookup(rest, k)
  {
    assert [x, y, z] + rest == [x] + ([y] + ([z] + rest));
    forall k: Key ensures Lookup([x, y, z] + rest, k)
        == if k == Start then x.value else if k == End then y.value else if k == State then z.value else Lookup(rest, k)
    {
      LookupCons(x, [y] + ([z] + rest), k);
      LookupCons(y, [z] + rest, k);
      LookupCons(z, rest, k);
    }
  }

  lemma LookupCons(f: Field, rest: seq<Field>, k: Key)
    ensures Lookup([f] + rest, k) == if f.key == k then f.value else Lookup(rest, k)
  {
    assert ([f] + rest)[1..] == rest;
  }

  /** Each field is the first with its key. */
  predicate KeysDistinct(f: seq<Field>) { forall i, j | 0 <= i < j < |f| :: f[i].key != f[j].key }

  lemma LookupAll(f: seq<Field>)
    requires KeysDistinct(f)
    ensures forall i | 0 <= i < |f| :: Lookup(f, f[i].key) == f[i].value
  {
    forall i | 0 <= i < |f| ensures Lookup(f, f[i].key) == f[i].value {
      LookupAt(f, i);
    }
  }

  lemma ReceiptLookups(r: Receipt, revision: string)
    ensures var f := ReceiptFields(r, revision);
      && Lookup(f, Operation) == Clean(r.operation) && Lookup(f, Status) == r.status
      && Lookup(f, Destination) == Clean(r.destination) && Lookup(f, State) == r.state
      && Lookup(f, Remote) == Clean(r.remote)
  {
    var f := ReceiptFields(r, revision);
    LookupAll(f);
    assert f[0].key == Operation && f[1].key == Status && f[2].key == Destination && f[3].key == State
        && f[4].key == Remote;
  }

  lemma ReceiptReads(r: Receipt, revision: string)
    requires Plain(ReceiptFields(r, revision))
    ensures ReadReceipt(r, revision) == NormalReceipt(r) <==> Legible(ReceiptFields(r, revision), RECEIPT_KEYS)
  {
    AllRead(ReceiptFields(r, revision));
    ReceiptLookups(r, revision);
    ReceiptAssembles(Body(ReceiptFields(r, revision)), ReceiptFields(r, revision), r);
  }

  lemma ReceiptAssembles(attrs: string, f: seq<Field>, r: Receipt)
    requires forall k: Key :: Searched(attrs, f, k)
    requires Lookup(f, Operation) == Clean(r.operation) && Lookup(f, Status) == r.status
    requires Lookup(f, Destination) == Clean(r.destination) && Lookup(f, State) == r.state
    requires Lookup(f, Remote) == Clean(r.remote)
    ensures ReceiptFrom(attrs) == NormalReceipt(r) <==> Legible(f, RECEIPT_KEYS)
  {
    assert Searched(attrs, f, Operation) && Searched(attrs, f, Status) && Searched(attrs, f, Destination)
        && Searched(attrs, f, State) && Searched(attrs, f, Remote);
    DefaultedSame(At(attrs, Status), r.status, "pending");
    DefaultedSame(At(attrs, State), r.state, "unknown");
    ReceiptKeysAre(f);
  }

  lemma ReceiptKeysAre(f: seq<Field>)
    ensures Legible(f, RECEIPT_KEYS) <==>
      && Unhidden(f, Operation) && Unhidden(f, Status) && Unhidden(f, Destination) && Unhidden(f, State)
      && Unhidden(f, Remote)
  {
    assert forall k :: k in RECEIPT_KEYS <==> k in {Operation, Status, Destination, State, Remote};
  }

  lemma MarkKeysDistinct(m: Mark, revision: string)
    ensures KeysDistinct(MarkFields(m, revision))
  {
    var f := MarkFields(m, revision);
    assert |f| == 12;
    assert forall i | 0 <= i < 12 :: f[i].key == MarkOrder(i);
  }

  /** Where each field of a mark stands. */
  function MarkOrder(i: int): Key {
    if i <= 0 then Operation else if i == 1 then Status else if i == 2 then Destination else if i == 3 then State
    else if i == 4 then Remote else if i == 5 then Blocks else if i == 6 then Start else if i == 7 then End
    else if i == 8 then Minutes else if i == 9 then Agent else if i == 10 then ProjectedAt else Revision
  }

  lemma MarkLookups(m: Mark, revision: string)
    ensures var f := MarkFields(m, revision);
      && Lookup(f, Operation) == Clean(m.operation) && Lookup(f, Status) == m.status
      && Lookup(f, Destination) == Clean(m.destination) && Lookup(f, State) == m.state
      && Lookup(f, Remote) == Clean(m.remote) && Lookup(f, Blocks) == Clean(m.blocks)
      && Lookup(f, Start) == m.start && Lookup(f, End) == m.end && Lookup(f, Minutes) == m.minutes
      && Lookup(f, Agent) == Clean(m.agent) && Lookup(f, ProjectedAt) == m.projectedAt
  {
    var f := MarkFields(m, revision);
    MarkKeysDistinct(m, revision);
    LookupAll(f);
    assert f[0].key == Operation && f[1].key == Status && f[2].key == Destination && f[3].key == State
        && f[4].key == Remote && f[5].key == Blocks && f[6].key == Start && f[7].key == End
        && f[8].key == Minutes && f[9].key == Agent && f[10].key == ProjectedAt;
  }

  lemma MarkReads(m: Mark, revision: string)
    requires Plain(MarkFields(m, revision))
    ensures ReadMark(m, revision) == NormalMark(m) <==> Legible(MarkFields(m, revision), MARK_KEYS)
  {
    AllRead(MarkFields(m, revision));
    MarkLookups(m, revision);
    MarkAssembles(Body(MarkFields(m, revision)), MarkFields(m, revision), m);
  }

  lemma MarkAssembles(attrs: string, f: seq<Field>, m: Mark)
    requires forall k: Key :: Searched(attrs, f, k)
    requires Lookup(f, Operation) == Clean(m.operation) && Lookup(f, Status) == m.status
    requires Lookup(f, Destination) == Clean(m.destination) && Lookup(f, State) == m.state
    requires Lookup(f, Remote) == Clean(m.remote) && Lookup(f, Blocks) == Clean(m.blocks)
    requires Lookup(f, Start) == m.start && Lookup(f, End) == m.end && Lookup(f, Minutes) == m.minutes
    requires Lookup(f, Agent) == Clean(m.agent) && Lookup(f, ProjectedAt) == m.projectedAt
    ensures MarkFrom(attrs) == NormalMark(m) <==> Legible(f, MARK_KEYS)
  {
    assert Searched(attrs, f, Operation) && Searched(attrs, f, Status) && Searched(attrs, f, Destination)
        && Searched(attrs, f, State) && Searched(attrs, f, Remote) && Searched(attrs, f, Blocks) && Searched(attrs, f, Start)
        && Searched(attrs, f, End) && Searched(attrs, f, Minutes) && Searched(attrs, f, Agent) && Searched(attrs, f, ProjectedAt);
    DefaultedSame(At(attrs, Status), m.status, "pending");
    DefaultedSame(At(attrs, State), m.state, "unknown");
    MarkKeysAre(f);
  }

  lemma MarkKeysAre(f: seq<Field>)
    ensures Legible(f, MARK_KEYS) <==>
      && Unhidden(f, Operation) && Unhidden(f, Status) && Unhidden(f, Destination) && Unhidden(f, State)
      && Unhidden(f, Remote) && Unhidden(f, Blocks) && Unhidden(f, Start) && Unhidden(f, End) && Unhidden(f, Minutes)
      && Unhidden(f, Agent) && Unhidden(f, ProjectedAt)
  {
    assert forall k :: k in MARK_KEYS <==>
      k in {Operation, Status, Destination, State, Remote, Blocks, Start, End, Minutes, Agent, ProjectedAt};
  }

  /** The document that a printed identity line gives. */
  function Identified(d: Document): Document { WithIdentity(EMPTY, Body(IdentityFields(d))) }

  lemma IdentityReads(d: Document)
    requires Plain(IdentityFields(d))
    ensures Identified(d) == Document(Clean(d.project), d.ses, d.openedAt, OrElse(d.revision, "0"), map[], map[], map[])
      <==> Legible(IdentityFields(d), IDENTITY_KEYS)
  {
    var f := IdentityFields(d);
    AllRead(f);
    LookupAll(f);
    assert f[0].key == Project && f[1].key == Ses && f[2].key == Opened && f[4].key == Revision;
    IdentityAssembles(Body(f), f, d);
  }

  lemma IdentityAssembles(attrs: string, f: seq<Field>, d: Document)
    requires forall k: Key :: Searched(attrs, f, k)
    requires Lookup(f, Project) == Clean(d.project) && Lookup(f, Ses) == d.ses && Lookup(f, Opened) == d.openedAt
    requires Lookup(f, Revision) == d.revision
    ensures WithIdentity(EMPTY, attrs)
         == Document(Clean(d.project), d.ses, d.openedAt, OrElse(d.revision, "0"), map[], map[], map[])
      <==> Legible(f, IDENTITY_KEYS)
  {
    assert Searched(attrs, f, Project) && Searched(attrs, f, Ses) && Searched(attrs, f, Opened) && Searched(attrs, f, Revision);
    DefaultedSame(At(attrs, Revision), d.revision, "0");
    assert forall k :: k in IDENTITY_KEYS <==> k in {Project, Ses, Opened, Revision};
  }

  // ------------------------------------------------------------------ the whole document

  function ParseElements(d: Option<Document>, es: seq<string>): Option<Document>
    decreases |es|
  {
    if es == [] then d else ParseElements(ParseLines(d, Pieces(es[0])), es[1..])
  }

  lemma {:induction false} ParseLinesConcat(d: Option<Document>, a: seq<string>, b: seq<string>)
    ensures ParseLines(d, a + b) == ParseLines(ParseLines(d, a), b)
    decreases |a|
  {
    if a == [] {
      assert a + b == b;
    } else {
      assert (a + b)[1..] == a[1..] + b;
      ParseLinesConcat(ParseLine(d, a[0]), a[1..], b);
    }
  }

  lemma {:induction false} ParseElementsConcat(d: Option<Document>, a: seq<string>, b: seq<string>)
    ensures ParseElements(d, a + b) == ParseElements(ParseElements(d, a), b)
    decreases |a|
  {
    if a == [] {
      assert a + b == b;
    } else {
      assert (a + b)[1..] == a[1..] + b;
      ParseElementsConcat(ParseLines(d, Pieces(a[0])), a[1..], b);
    }
  }

  /** Parsing joined text parses piece after piece. */
  lemma {:induction false} ParseUnlines(d: Option<Document>, es: seq<string>)
    requires es != []
    ensures ParseLines(d, Pieces(Unlines(es))) == ParseElements(d, es)
    decreases |es|
  {
    if |es| == 1 {
      assert ParseElements(ParseLines(d, Pieces(es[0])), es[1..]) == ParseLines(d, Pieces(es[0]));
    } else {
      var rest := es[1..];
      PiecesConcat(es[0], Unlines(rest));
      ParseLinesConcat(d, Pieces(es[0]), Pieces(Unlines(rest)));
      ParseUnlines(ParseLines(d, Pieces(es[0])), rest);
    }
  }

  predicate Skipped(e: string) { SingleLine(e) && (e == "" || e[0] in "$#") }

  lemma SkipLine(d: Option<Document>, e: string)
    requires Skipped(e)
    ensures ParseLines(d, Pieces(e)) == d
  {
    PiecesPlain(e);
    StripHead(e);
    OtherLine(d, e);
    assert [e][1..] == [];
  }

  lemma OtherLine(d: Option<Document>, e: string)
    requires Strip(e) == "" || Strip(e)[0] in "$#"
    ensures ParseLine(d, e) == d
  {
    assert KindOf(Strip(e)).Other?;
  }

  lemma {:induction false} ParseSkipped(d: Option<Document>, es: seq<string>)
    requires forall e | e in es :: Skipped(e)
    ensures ParseElements(d, es) == d
    decreases |es|
  {
    if es != [] {
      assert es[0] in es && forall e | e in es[1..] :: e in es;
      SkipLine(d, es[0]);
      ParseSkipped(d, es[1..]);
    }
  }

  lemma StripHead(e: string)
    requires e != "" ==> !IsSpace(e[0])
    ensures e == "" ==> Strip(e) == ""
    ensures e != "" ==> Strip(e) != "" && Strip(e)[0] == e[0]
  {
    if e != "" {
      RStripHead(e);
    }
  }

  lemma {:induction false} RStripHead(e: string)
    requires e != "" && !IsSpace(e[0])
    ensures RStrip(e) != "" && RStrip(e)[0] == e[0]
    decreases |e|
  {
    if IsSpace(e[|e| - 1]) {
      RStripHead(e[..|e| - 1]);
    }
  }

  lemma ParseBlockFields(e: Document, k: string, f: seq<Field>)
    requires IsName(k) && Plain(f)
    ensures Parse(e, Line("ACT", k, f) + "\n") == Some(e.(blocks := e.blocks[k := BlockFrom(Body(f))]))
  {
    ParseEntry(e, Activity, k, f);
  }

  lemma ParseBlockElement(e: Document, x: Block, revision: string, k: string)
    requires IsName(k) && Plain(BlockFields(x, revision))
    ensures Parse(e, BlockElement(k, x, revision)) == Some(e.(blocks := e.blocks[k := ReadBlock(x, revision)]))
  {
    EntryNames(k);
    ParseBlockFields(e, k, BlockFields(x, revision));
  }

  lemma ParseBlock(e: Document, t: map<string, Block>, revision: string, k: string)
    requires k in t && IsName(k) && Plain(BlockFields(t[k], revision))
    ensures k in BlockTexts(t, revision)
    ensures Parse(e, BlockTexts(t, revision)[k]) == Some(e.(blocks := e.blocks[k := ReadBlock(t[k], revision)]))
  {
    ParseBlockElement(e, t[k], revision, k);
  }

  lemma ParseReceiptFields(e: Document, k: string, f: seq<Field>)
    requires IsName(k) && Plain(f)
    ensures Parse(e, Line("RCV", k, f) + "\n") == Some(e.(receipts := e.receipts[k := ReceiptFrom(Body(f))]))
  {
    ParseEntry(e, ReceiptLine, k, f);
  }

  lemma ParseReceiptElement(e: Document, x: Receipt, revision: string, k: string)
    requires IsName(k) && Plain(ReceiptFields(x, revision))
    ensures Parse(e, ReceiptElement(k, x, revision)) == Some(e.(receipts := e.receipts[k := ReadReceipt(x, revision)]))
  {
    EntryNames(k);
    ParseReceiptFields(e, k, ReceiptFields(x, revision));
  }

  lemma ParseReceipt(e: Document, t: map<string, Receipt>, revision: string, k: string)
    requires k in t && IsName(k) && Plain(ReceiptFields(t[k], revision))
    ensures k in ReceiptTexts(t, revision)
    ensures Parse(e, ReceiptTexts(t, revision)[k]) == Some(e.(receipts := e.receipts[k := ReadReceipt(t[k], revision)]))
  {
    ParseReceiptElement(e, t[k], revision, k);
  }

  lemma ParseMarkFields(e: Document, k: string, f: seq<Field>)
    requires IsName(k) && Plain(f)
    ensures Parse(e, Line("PRJ", k, f) + "\n") == Some(e.(projections := e.projections[k := MarkFrom(Body(f))]))
  {
    ParseEntry(e, ProjectionLine, k, f);
  }

  lemma ParseMarkElement(e: Document, x: Mark, revision: string, k: string)
    requires IsName(k) && Plain(MarkFields(x, revision))
    ensures Parse(e, MarkElement(k, x, revision)) == Some(e.(projections := e.projections[k := ReadMark(x, revision)]))
  {
    EntryNames(k);
    ParseMarkFields(e, k, MarkFields(x, revision));
  }

  lemma ParseMark(e: Document, t: map<string, Mark>, revision: string, k: string)
    requires k in t && IsName(k) && Plain(MarkFields(t[k], revision))
    ensures k in MarkTexts(t, revision)
    ensures Parse(e, MarkTexts(t, revision)[k]) == Some(e.(projections := e.projections[k := ReadMark(t[k], revision)]))
  {
    ParseMarkElement(e, t[k], revision, k);
  }

  lemma ParseFirst(d: Document, e: Document, first: string, rest: seq<string>)
    requires Parse(d, first) == Some(e)
    ensures ParseElements(Some(d), [first] + rest) == ParseElements(Some(e), rest)
  {
    assert ([first] + rest)[1..] == rest;
  }

  /** The entries of `n` put one after the other. */
  function PutKeys<V>(acc: map<string, V>, n: map<string, V>, keys: seq<string>): map<string, V>
    requires forall k | k in keys :: k in n
    decreases |keys|
  { if keys == [] then acc else PutKeys(acc[keys[0] := n[keys[0]]], n, keys[1..]) }

  lemma {:induction false} PutKeysAre<V>(acc: map<string, V>, n: map<string, V>, keys: seq<string>)
    requires forall k | k in keys :: k in n
    ensures forall k :: k in PutKeys(acc, n, keys) <==> k in acc || k in keys
    ensures forall k | k in PutKeys(acc, n, keys) :: PutKeys(acc, n, keys)[k] == if k in keys then n[k] else acc[k]
    decreases |keys|
  {
    if keys != [] {
      assert forall x :: x in keys <==> x == keys[0] || x in keys[1..];
      PutKeysAre(acc[keys[0] := n[keys[0]]], n, keys[1..]);
    }
  }

  /** Putting every entry of a table into an empty one gives the table. */
  lemma PutAll<V>(n: map<string, V>, keys: seq<string>)
    requires forall k :: k in keys <==> k in n
    ensures PutKeys(map[], n, keys) == n
  {
    PutKeysAre(map[], n, keys);
  }

  function ReadBlocks(t: map<string, Block>, revision: string): map<string, Block> {
    map k | k in t :: ReadBlock(t[k], revision)
  }

  function ReadReceipts(t: map<string, Receipt>, revision: string): map<string, Receipt> {
    map k | k in t :: ReadReceipt(t[k], revision)
  }

  function ReadMarks(t: map<string, Mark>, revision: string): map<string, Mark> {
    map k | k in t :: ReadMark(t[k], revision)
  }

  lemma {:induction false} ParseBlocks(e: Document, t: map<string, Block>, revision: string, keys: seq<string>)
    requires PlainBlocks(t, revision) && forall k | k in keys :: k in t
    ensures ParseElements(Some(e), Pick(BlockTexts(t, revision), keys))
         == Some(e.(blocks := PutKeys(e.blocks, ReadBlocks(t, revision), keys)))
    decreases |keys|
  {
    if keys != [] {
      var k, rest := keys[0], keys[1..];
      assert k in keys && forall x | x in rest :: x in keys;
      var next := e.(blocks := e.blocks[k := ReadBlocks(t, revision)[k]]);
      ParseBlock(e, t, revision, k);
      ParseFirst(e, next, BlockTexts(t, revision)[k], Pick(BlockTexts(t, revision), rest));
      ParseBlocks(next, t, revision, rest);
    }
  }

  lemma {:induction false} ParseReceipts(e: Document, t: map<string, Receipt>, revision: string, keys: seq<string>)
    requires PlainReceipts(t, revision) && forall k | k in keys :: k in t
    ensures ParseElements(Some(e), Pick(ReceiptTexts(t, revision), keys))
         == Some(e.(receipts := PutKeys(e.receipts, ReadReceipts(t, revision), keys)))
    decreases |keys|
  {
    if keys != [] {
      var k, rest := keys[0], keys[1..];
      assert k in keys && forall x | x in rest :: x in keys;
      var next := e.(receipts := e.receipts[k := ReadReceipts(t, revision)[k]]);
      ParseReceipt(e, t, revision, k);
      ParseFirst(e, next, ReceiptTexts(t, revision)[k], Pick(ReceiptTexts(t, revision), rest));
      ParseReceipts(next, t, revision, rest);
    }
  }

  lemma {:induction false} ParseMarks(e: Document, t: map<string, Mark>, revision: string, keys: seq<string>)
    requires PlainMarks(t, revision) && forall k | k in keys :: k in t
    ensures ParseElements(Some(e), Pick(MarkTexts(t, revision), keys))
         == Some(e.(projections := PutKeys(e.projections, ReadMarks(t, revision), keys)))
    decreases |keys|
  {
    if keys != [] {
      var k, rest := keys[0], keys[1..];
      assert k in keys && forall x | x in rest :: x in keys;
      var next := e.(projections := e.projections[k := ReadMarks(t, revision)[k]]);
      ParseMark(e, t, revision, k);
      ParseFirst(e, next, MarkTexts(t, revision)[k], Pick(MarkTexts(t, revision), rest));
      ParseMarks(next, t, revision, rest);
    }
  }

  /** A prefix of a document that parses to `mid`, then the rest. */
  lemma ParsePart(from: Document, mid: Document, part: seq<string>, rest: seq<string>)
    requires ParseElements(Some(from), part) == Some(mid)
    ensures ParseElements(Some(from), part + rest) == ParseElements(Some(mid), rest)
  {
    ParseElementsConcat(Some(from), part, rest);
  }

  lemma ParseHeading(d: Document, heading: string, rest: seq<string>)
    requires Skipped(heading)
    ensures ParseElements(Some(d), [heading] + rest) == ParseElements(Some(d), rest)
  {
    ParseSkipped(Some(d), [heading]);
    ParsePart(d, d, [heading], rest);
  }

  lemma HeadingsSkipped()
    ensures Skipped("$1: IDENTITY") && Skipped("$2: ACTIVITIES") && Skipped("$3: RECEIPTS") && Skipped("$4: PROJECTIONS")
  {}

  lemma RowSkipped(a: string, b: string, c: string, d: string)
    requires SingleLine(a) && SingleLine(b) && SingleLine(c) && SingleLine(d) && a != "" && a[0] == '#'
    ensures Skipped(Row(a, b, c, d))
  {}

  lemma LayerPlain(cells: string)
    requires SingleLine(cells)
    ensures SingleLine(cells + LAYER)
  {}

  lemma TlgRow()
    ensures Skipped(TLG_ROW)
  {
    LayerPlain("| attrs | B    ");
    RowSkipped("# TLG   | timelog  ", "| attrs | B    " + LAYER, "Timelog identity ", "and metadata");
  }

  lemma ActRow()
    ensures Skipped(ACT_ROW)
  {
    LayerPlain("| attrs | B    ");
    RowSkipped("# ACT   | activity ", "| attrs | B    " + LAYER, "One activity ", "interval");
  }

  lemma RcvRow()
    ensures Skipped(RCV_ROW)
  {
    LayerPlain("| attrs | B    ");
    RowSkipped("# RCV   | receipt  ", "| attrs | B    " + LAYER, "External ", "projection receipt");
  }

  lemma PrjRow()
    ensures Skipped(PRJ_ROW)
  {
    LayerPlain("| attrs | B  ");
    RowSkipped("# PRJ   | projection ", "| attrs | B  " + LAYER, "Per-provider ", "projection mark");
  }

  lemma ColumnsRow()
    ensures Skipped(COLUMNS)
  {
    RowSkipped("# Sigil | Name     ", "| Type  | Risk ", "| Cognitive Layer ", "| Description");
  }

  lemma TitleRow()
    ensures Skipped(TITLE)
  {
    RowSkipped("# -- $0:", " TIMLOG", " LOCAL ", "GLOSSARY --");
  }

  lemma EightSkipped(a: string, b: string, c: string, d: string, e: string, f: string, g: string, h: string)
    requires Skipped(a) && Skipped(b) && Skipped(c) && Skipped(d) && Skipped(e) && Skipped(f) && Skipped(g) && Skipped(h)
    ensures forall x | x in [a, b, c, d, e, f, g, h] :: Skipped(x)
  {}

  lemma GlossarySkipped()
    ensures forall e | e in GLOSSARY :: Skipped(e)
  {
    TitleRow();
    ColumnsRow();
    TlgRow();
    ActRow();
    RcvRow();
    PrjRow();
    EightSkipped("$0", "", TITLE, COLUMNS, TLG_ROW, ACT_ROW, RCV_ROW, PRJ_ROW);
  }

  lemma ParseHead(d: Document)
    requires Plain(IdentityFields(d))
    ensures ParseElements(Some(EMPTY), Head(d)) == Some(Identified(d))
  {
    GlossarySkipped();
    ParseSkipped(Some(EMPTY), GLOSSARY);
    ParseEntry(EMPTY, Identity, "identity", IdentityFields(d));
    ParseHeadOf(GLOSSARY, Line("TLG", "identity", IdentityFields(d)) + "\n", Identified(d));
  }

  lemma ParseHeadOf(glossary: seq<string>, line: string, d: Document)
    requires ParseElements(Some(EMPTY), glossary) == Some(EMPTY) && Parse(EMPTY, line) == Some(d)
    ensures ParseElements(Some(EMPTY), glossary + ([""] + (["$1: IDENTITY"] + ([line] + ([""] + ["$2: ACTIVITIES"])))))
         == Some(d)
  {
    var t2 := ["$2: ACTIVITIES"];
    HeadingsSkipped();
    ParsePart(EMPTY, EMPTY, glossary, [""] + (["$1: IDENTITY"] + ([line] + ([""] + t2))));
    ParseHeading(EMPTY, "", ["$1: IDENTITY"] + ([line] + ([""] + t2)));
    ParseHeading(EMPTY, "$1: IDENTITY", [line] + ([""] + t2));
    ParseFirst(EMPTY, d, line, [""] + t2);
    ParseHeading(d, "", t2);
    ParseSkipped(Some(d), t2);
  }

  lemma ParseBlockTable(e: Document, t: map<string, Block>, revision: string)
    requires PlainBlocks(t, revision) && e.blocks == map[]
    ensures var texts := BlockTexts(t, revision);
      ParseElements(Some(e), Pick(texts, Sorted(texts.Keys))) == Some(e.(blocks := ReadBlocks(t, revision)))
  {
    var keys := Sorted(BlockTexts(t, revision).Keys);
    ParseBlocks(e, t, revision, keys);
    PutAll(ReadBlocks(t, revision), keys);
  }

  lemma ParseReceiptTable(e: Document, t: map<string, Receipt>, revision: string)
    requires PlainReceipts(t, revision) && e.receipts == map[]
    ensures var texts := ReceiptTexts(t, revision);
      ParseElements(Some(e), Pick(texts, Sorted(texts.Keys))) == Some(e.(receipts := ReadReceipts(t, revision)))
  {
    var keys := Sorted(ReceiptTexts(t, revision).Keys);
    ParseReceipts(e, t, revision, keys);
    PutAll(ReadReceipts(t, revision), keys);
  }

  lemma ParseMarkTable(e: Document, t: map<string, Mark>, revision: string)
    requires PlainMarks(t, revision) && e.projections == map[]
    ensures var texts := MarkTexts(t, revision);
      ParseElements(Some(e), Pick(texts, Sorted(texts.Keys))) == Some(e.(projections := ReadMarks(t, revision)))
  {
    var keys := Sorted(MarkTexts(t, revision).Keys);
    ParseMarks(e, t, revision, keys);
    PutAll(ReadMarks(t, revision), keys);
  }

  /** What reading a serialised document gives. */
  function AsRead(d: Document): Document {
    Identified(d).(blocks := ReadBlocks(d.blocks, d.revision), receipts := ReadReceipts(d.receipts, d.revision),
                   projections := ReadMarks(d.projections, d.revision))
  }

  lemma ParseAll(d: Document)
    requires PlainDocument(d)
    ensures ParseElements(Some(EMPTY), Elements(d)) == Some(AsRead(d))
  {
    var e0 := Identified(d);
    var e1 := e0.(blocks := ReadBlocks(d.blocks, d.revision));
    var e2 := e1.(receipts := ReadReceipts(d.receipts, d.revision));
    ParseHead(d);
    ParseBlockTable(e0, d.blocks, d.revision);
    ParseReceiptTable(e1, d.receipts, d.revision);
    ParseMarkTable(e2, d.projections, d.revision);
    ParseLayout(e0, e1, e2, Head(d), BlockTexts(d.blocks, d.revision), ReceiptTexts(d.receipts, d.revision),
                MarkTexts(d.projections, d.revision));
  }

  lemma ParseLayout(
      e0: Document, e1: Document, e2: Document, head: seq<string>,
      b: map<string, string>, r: map<string, string>, m: map<string, string>)
    requires ParseElements(Some(EMPTY), head) == Some(e0)
    requires ParseElements(Some(e0), Pick(b, Sorted(b.Keys))) == Some(e1)
    requires ParseElements(Some(e1), Pick(r, Sorted(r.Keys))) == Some(e2)
    ensures ParseElements(Some(EMPTY), Layout(head, b, r, m)) == ParseElements(Some(e2), Pick(m, Sorted(m.Keys)))
  {
    ParseSections(e0, e1, e2, head, Pick(b, Sorted(b.Keys)), Pick(r, Sorted(r.Keys)), Pick(m, Sorted(m.Keys)));
  }

  lemma ParseSections(
      e0: Document, e1: Document, e2: Document, head: seq<string>, be: seq<string>, re: seq<string>, pe: seq<string>)
    requires ParseElements(Some(EMPTY), head) == Some(e0)
    requires ParseElements(Some(e0), be) == Some(e1) && ParseElements(Some(e1), re) == Some(e2)
    ensures ParseElements(Some(EMPTY),
              head + (be + ([""] + (["$3: RECEIPTS"] + (re + ([""] + (["$4: PROJECTIONS"] + pe)))))))
         == ParseElements(Some(e2), pe)
  {
    HeadingsSkipped();
    var t4 := ["$4: PROJECTIONS"] + pe;
    var t3 := ["$3: RECEIPTS"] + (re + ([""] + t4));
    ParsePart(EMPTY, e0, head, be + ([""] + t3));
    ParsePart(e0, e1, be, [""] + t3);
    ParseHeading(e1, "", t3);
    ParseHeading(e1, "$3: RECEIPTS", re + ([""] + t4));
    ParsePart(e1, e2, re, [""] + t4);
    ParseHeading(e2, "", t4);
    ParseHeading(e2, "$4: PROJECTIONS", pe);
  }

  lemma ReadsAs(d: Document)
    requires PlainDocument(d)
    ensures Parsed(Serialized(d)) == Some(AsRead(d))
  {
    ParseAll(d);
    ParseText(Elements(d));
  }

  lemma MapsAgree<V>(m: map<string, V>, n: map<string, V>, agreed: set<string>)
    requires m.Keys == n.Keys && forall k | k in m :: m[k] == n[k] <==> k in agreed
    ensures m == n <==> m.Keys <= agreed
  {}

  lemma BlockReadAt(t: map<string, Block>, revision: string, k: string)
    requires k in t && Plain(BlockFields(t[k], revision))
    ensures ReadBlocks(t, revision)[k] == NormalBlocks(t, revision)[k] <==> k in LegibleBlocks(t, revision)
  {
    BlockReads(t[k], revision);
  }

  lemma BlocksRead(t: map<string, Block>, revision: string)
    requires PlainBlocks(t, revision)
    ensures ReadBlocks(t, revision) == NormalBlocks(t, revision) <==> t.Keys <= LegibleBlocks(t, revision)
  {
    var m, n, agreed := ReadBlocks(t, revision), NormalBlocks(t, revision), LegibleBlocks(t, revision);
    forall k | k in m ensures m[k] == n[k] <==> k in agreed {
      BlockReadAt(t, revision, k);
    }
    MapsAgree(m, n, agreed);
  }

  lemma ReceiptReadAt(t: map<string, Receipt>, revision: string, k: string)
    requires k in t && Plain(ReceiptFields(t[k], revision))
    ensures ReadReceipts(t, revision)[k] == NormalReceipts(t)[k] <==> k in LegibleReceipts(t, revision)
  {
    ReceiptReads(t[k], revision);
  }

  lemma ReceiptsRead(t: map<string, Receipt>, revision: string)
    requires PlainReceipts(t, revision)
    ensures ReadReceipts(t, revision) == NormalReceipts(t) <==> t.Keys <= LegibleReceipts(t, revision)
  {
    var m, n, agreed := ReadReceipts(t, revision), NormalReceipts(t), LegibleReceipts(t, revision);
    forall k | k in m ensures m[k] == n[k] <==> k in agreed {
      ReceiptReadAt(t, revision, k);
    }
    MapsAgree(m, n, agreed);
  }

  lemma MarkReadAt(t: map<string, Mark>, revision: string, k: string)
    requires k in t && Plain(MarkFields(t[k], revision))
    ensures ReadMarks(t, revision)[k] == NormalMarks(t)[k] <==> k in LegibleMarks(t, revision)
  {
    MarkReads(t[k], revision);
  }

  lemma MarksRead(t: map<string, Mark>, revision: string)
    requires PlainMarks(t, revision)
    ensures ReadMarks(t, revision) == NormalMarks(t) <==> t.Keys <= LegibleMarks(t, revision)
  {
    var m, n, agreed := ReadMarks(t, revision), NormalMarks(t), LegibleMarks(t, revision);
    forall k | k in m ensures m[k] == n[k] <==> k in agreed {
      MarkReadAt(t, revision, k);
    }
    MapsAgree(m, n, agreed);
  }

  /** Reading a serialised document back gives its normal form exactly when every field is legible. */
  lemma TimelogReadsBack(d: Document)
    requires PlainDocument(d)
    ensures Parsed(Serialized(d)) == Some(Normal(d)) <==> LegibleDocument(d)
  {
    ReadsAs(d);
    IdentityReads(d);
    BlocksRead(d.blocks, d.revision);
    ReceiptsRead(d.receipts, d.revision);
    MarksRead(d.projections, d.revision);
    NormalParts(Identified(d), ReadBlocks(d.blocks, d.revision), ReadReceipts(d.receipts, d.revision),
                ReadMarks(d.projections, d.revision), d);
  }

  lemma NormalParts(
      e: Document, b: map<string, Block>, r: map<string, Receipt>, m: map<string, Mark>, d: Document)
    requires e.blocks == map[] && e.receipts == map[] && e.projections == map[]
    ensures e.(blocks := b, receipts := r, projections := m) == Normal(d) <==>
      && e == Document(Clean(d.project), d.ses, d.openedAt, OrElse(d.revision, "0"), map[], map[], map[])
      && b == NormalBlocks(d.blocks, d.revision) && r == NormalReceipts(d.receipts) && m == NormalMarks(d.projections)
  {}

  lemma ParseText(es: seq<string>)
    requires es != []
    ensures ParseLines(Some(EMPTY), Pieces(Unlines(es) + "\n")) == ParseElements(Some(EMPTY), es)
  {
    var text := Unlines(es);
    ParseUnlines(Some(EMPTY), es);
    PiecesConcat(text, "");
    assert text + "\n" + "" == text + "\n";
    ParseLinesConcat(Some(EMPTY), Pieces(text), [""]);
    ParseEmpty(ParseLines(Some(EMPTY), Pieces(text)));
  }
}
