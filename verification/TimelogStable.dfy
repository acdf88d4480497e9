/** The printing and reading loops, and when printing what was read gives the same text. */
module TimelogStable {
  import opened Text
  import opened TimelogModel
  import opened TimelogFields
  import opened TimelogText
  import opened TimelogRoundTrip

  // ------------------------------------------------------------------------- the loops

  lemma SortedLeast(s: set<string>, x: string)
    requires IsLeast(x, s)
    ensures Sorted(s) == [x] + Sorted(s - {x})
  {
    var y := Sorted(s)[0];
    assert IsLeast(y, s);
    StrLeOrder(x, y, x);
  }

  /** The texts of a table, sorted by key. */
  method SortedLines(texts: map<string, string>) returns (lines: seq<string>)
    ensures lines == Pick(texts, Sorted(texts.Keys))
  {
    lines := [];
    var left := texts.Keys;
    while left != {}
      invariant left <= texts.Keys && lines + Pick(texts, Sorted(left)) == Pick(texts, Sorted(texts.Keys))
      decreases |left|
    {
      var k := Least(left);
      SortedLeast(left, k);
      ConcatAssoc(lines, [texts[k]], Pick(texts, Sorted(left - {k})));
      lines, left := lines + [texts[k]], left - {k};
    }
  }

  method Serialize(d: Document) returns (text: string)
    ensures text == Serialized(d)
  {
    var blocks := SortedLines(BlockTexts(d.blocks, d.revision));
    var receipts := SortedLines(ReceiptTexts(d.receipts, d.revision));
    var marks := SortedLines(MarkTexts(d.projections, d.revision));
    var lines := Head(d) + (blocks + ([""] + (["$3: RECEIPTS"] + (receipts + ([""] + (["$4: PROJECTIONS"] + marks))))));
    text := Unlines(lines) + "\n";
  }

  /** None is the `ValueError` of an entry line without its braces. */
  method ParseTimelog(text: string) returns (d: Option<Document>)
    ensures d == Parsed(text)
  {
    d := Some(EMPTY);
    var rest := Pieces(text);
    while rest != []
      invariant d.Some? && ParseLines(d, rest) == Parsed(text)
      decreases |rest|
    {
      var next := ParseLine(d, rest[0]);
      if next.None? {
        NoneStays(rest[1..]);
        return None;
      }
      d, rest := next, rest[1..];
    }
  }

  lemma {:induction false} NoneStays(lines: seq<string>)
    ensures ParseLines(None, lines) == None
    decreases |lines|
  {
    if lines != [] {
      NoneStays(lines[1..]);
    }
  }

  // ------------------------------------------------------------------ cleaning twice

  lemma {:induction false} ReplaceAbsent(s: string, c: char, rep: string)
    requires c !in s
    ensures Replace(s, [c], rep) == s
    decreases |s|
  {
    if s != "" {
      assert s[0] in s && s[..1] == [s[0]];
      ReplaceAbsent(s[1..], c, rep);
      assert [s[0]] + s[1..] == s;
    }
  }

  lemma {:induction false} ReplaceRemoves(s: string, c: char, rep: string)
    requires c !in rep
    ensures c !in Replace(s, [c], rep)
    ensures forall x | x in Replace(s, [c], rep) :: x in s || x in rep
    decreases |s|
  {
    if s != "" {
      ReplaceRemoves(s[1..], c, rep);
      assert s[..1] == [s[0]];
    }
  }

  lemma {:induction false} LStripEnds(s: string)
    ensures LStrip(s) == "" || !IsSpace(LStrip(s)[0])
    ensures forall c | c in LStrip(s) :: c in s
  {
    if s != "" && IsSpace(s[0]) { LStripEnds(s[1..]); }
  }

  lemma {:induction false} RStripEnds(s: string)
    ensures RStrip(s) == "" || (!IsSpace(RStrip(s)[|RStrip(s)| - 1]) && RStrip(s)[0] == s[0])
    ensures forall c | c in RStrip(s) :: c in s
    decreases |s|
  {
    if s != "" && IsSpace(s[|s| - 1]) { RStripEnds(s[..|s| - 1]); }
  }

  /** Cleaned text holds no quote and no newline, and cleaning it again changes nothing. */
  lemma CleanTwice(v: string)
    ensures Clean(Clean(v)) == Clean(v)
    ensures '"' !in Clean(v) && '\n' !in Clean(v)
  {
    var a := Replace(v, "\"", "'");
    ReplaceRemoves(v, '"', "'");
    var b := Replace(a, "\n", " ");
    ReplaceRemoves(a, '\n', " ");
    assert '"' !in b;
    LStripEnds(b);
    RStripEnds(LStrip(b));
    ReplaceAbsent(Clean(v), '"', "'");
    ReplaceAbsent(Clean(v), '\n', " ");
    TrimmedStrip(Clean(v));
  }

  lemma NormalBlockTwice(b: Block, revision: string)
    ensures NormalBlock(NormalBlock(b, revision), revision) == NormalBlock(b, revision)
  {
    CleanTwice(b.note);
    CleanTwice(b.auth);
  }

  lemma NormalReceiptTwice(r: Receipt)
    ensures NormalReceipt(NormalReceipt(r)) == NormalReceipt(r)
  {
    CleanTwice(r.operation);
    CleanTwice(r.destination);
    CleanTwice(r.remote);
  }

  lemma NormalMarkTwice(m: Mark)
    ensures NormalMark(NormalMark(m)) == NormalMark(m)
  {
    CleanTwice(m.operation);
    CleanTwice(m.destination);
    CleanTwice(m.remote);
    CleanTwice(m.blocks);
    CleanTwice(m.agent);
  }

  lemma NormalBlocksTwice(b: map<string, Block>, revision: string)
    ensures NormalBlocks(NormalBlocks(b, revision), revision) == NormalBlocks(b, revision)
  {
    forall k | k in b ensures NormalBlocks(NormalBlocks(b, revision), revision)[k] == NormalBlocks(b, revision)[k] {
      NormalBlockTwice(b[k], revision);
    }
  }

  lemma NormalReceiptsTwice(r: map<string, Receipt>)
    ensures NormalReceipts(NormalReceipts(r)) == NormalReceipts(r)
  {
    forall k | k in r ensures NormalReceipts(NormalReceipts(r))[k] == NormalReceipts(r)[k] {
      NormalReceiptTwice(r[k]);
    }
  }

  lemma NormalMarksTwice(m: map<string, Mark>)
    ensures NormalMarks(NormalMarks(m)) == NormalMarks(m)
  {
    forall k | k in m ensures NormalMarks(NormalMarks(m))[k] == NormalMarks(m)[k] {
      NormalMarkTwice(m[k]);
    }
  }

  /** Reading back twice is reading back once. */
  lemma NormalIsNormal(d: Document)
    requires d.revision != ""
    ensures Normal(Normal(d)) == Normal(d)
  {
    CleanTwice(d.project);
    NormalBlocksTwice(d.blocks, d.revision);
    NormalReceiptsTwice(d.receipts);
    NormalMarksTwice(d.projections);
  }

  // ------------------------------------------------- when the text stays the same

  /** No default to fill in, and no note or authorization that cleaning empties. */
  predicate SettledBlock(b: Block) {
    b.state != "" && (b.note != "" ==> Clean(b.note) != "") && (b.auth != "" ==> Clean(b.auth) != "")
  }

  predicate SettledReceipt(r: Receipt) { r.status != "" && r.state != "" }

  predicate SettledMark(m: Mark) { m.status != "" && m.state != "" }

  predicate Settled(d: Document) {
    && d.revision != "" && d.blocks.Keys <= SettledBlocks(d.blocks) && d.receipts.Keys <= SettledReceipts(d.receipts)
    && d.projections.Keys <= SettledMarks(d.projections)
  }

  lemma SettledBlockFields(b: Block, revision: string)
    requires SettledBlock(b)
    ensures BlockFields(NormalBlock(b, revision), revision) == BlockFields(b, revision)
  {
    CleanTwice(b.note);
    CleanTwice(b.auth);
    CleanEmpty();
  }

  lemma SettledReceiptFields(r: Receipt, revision: string)
    requires SettledReceipt(r)
    ensures ReceiptFields(NormalReceipt(r), revision) == ReceiptFields(r, revision)
  {
    NormalReceiptTwice(r);
  }

  lemma SettledMarkFields(m: Mark, revision: string)
    requires SettledMark(m)
    ensures MarkFields(NormalMark(m), revision) == MarkFields(m, revision)
  {
    NormalMarkTwice(m);
  }

  lemma SameHead(d: Document)
    requires d.revision != ""
    ensures Head(Normal(d)) == Head(d)
  {
    CleanTwice(d.project);
  }

  // --------------------------------------------------- and when it does not

  lemma SplitEqual<T>(a: seq<T>, b: seq<T>, c: seq<T>, d: seq<T>)
    requires a + b == c + d && |a| == |c|
    ensures a == c && b == d
  {
    assert a == (a + b)[..|a|] && c == (c + d)[..|a|];
    assert b == (a + b)[|a|..] && d == (c + d)[|a|..];
  }

  lemma EntryPieces(kind: Kind, name: string, fields: seq<Field>)
    requires !kind.Other? && IsName(name) && Plain(fields)
    ensures Pieces(Line(SigilOf(kind), name, fields) + "\n") == [Line(SigilOf(kind), name, fields), ""]
  {
    var line := Line(SigilOf(kind), name, fields);
    SigilFits(kind);
    NameFits(name);
    BodySingleLine(fields);
    LineSingleLine(SigilOf(kind), name, Body(fields));
    PiecesPlain(line);
    PiecesConcat(line, "");
    assert line + "\n" + "" == line + "\n";
  }

  lemma SameBody(sigil: string, name: string, f: seq<Field>, g: seq<Field>)
    requires |sigil| == 3 && '{' !in sigil && '{' !in name && Line(sigil, name, f) == Line(sigil, name, g)
    ensures Body(f) == Body(g)
  {
    LineParts(sigil, name, f);
    LineParts(sigil, name, g);
  }

  /** Equal texts are equal up to their first quote and after it. */
  lemma QuoteSplit(a: string, x: string, b: string, y: string)
    requires '"' !in a && '"' !in b && a + ("\"" + x) == b + ("\"" + y)
    ensures a == b && x == y
  {
    UpToQuoteExact(a, x);
    UpToQuoteExact(b, y);
    SplitAt(a, "\"" + x);
    SplitAt(b, "\"" + y);
    SplitAt("\"", x);
    SplitAt("\"", y);
  }

  lemma CellInjective(f: Field, x: string, g: Field, y: string)
    requires '"' !in f.value && '"' !in g.value && Cell(f) + x == Cell(g) + y
    ensures f == g && x == y
  {
    NameIsKey(f.key);
    NameIsKey(g.key);
    CellQuoted(f, x);
    CellQuoted(g, y);
    QuoteSplit(Name(f.key) + ":", f.value + ("\"" + x), Name(g.key) + ":", g.value + ("\"" + y));
    QuoteSplit(f.value, x, g.value, y);
    SplitAt(Name(f.key), ":");
    SplitAt(Name(g.key), ":");
    assert |Name(f.key)| == |Name(g.key)|;
    NamesDiffer(f.key, g.key);
  }

  lemma CellQuoted(f: Field, x: string)
    ensures Cell(f) + x == (Name(f.key) + ":") + ("\"" + (f.value + ("\"" + x)))
  {}

  /** A body tells its fields. */
  lemma {:induction false} MoreInjective(f: seq<Field>, g: seq<Field>)
    requires Plain(f) && Plain(g) && More(f) == More(g)
    ensures f == g
  {
    if f != [] && g != [] {
      SplitAt(",", Cell(f[0]) + More(f[1..]));
      SplitAt(",", Cell(g[0]) + More(g[1..]));
      CellInjective(f[0], More(f[1..]), g[0], More(g[1..]));
      MoreInjective(f[1..], g[1..]);
      assert f == [f[0]] + f[1..] && g == [g[0]] + g[1..];
    }
  }

  lemma BodyInjective(f: seq<Field>, g: seq<Field>)
    requires Plain(f) && Plain(g) && Body(f) == Body(g)
    ensures f == g
  {
    if f != [] && g != [] {
      CellInjective(f[0], More(f[1..]), g[0], More(g[1..]));
      MoreInjective(f[1..], g[1..]);
      assert f == [f[0]] + f[1..] && g == [g[0]] + g[1..];
    }
  }

  lemma PlainConcat(a: seq<Field>, b: seq<Field>)
    ensures Plain(a + b) <==> Plain(a) && Plain(b)
  {
    PlainMembers(a);
    PlainMembers(b);
    PlainMembers(a + b);
    assert forall f | f in a :: f in a + b;
    assert forall f | f in b :: f in a + b;
  }

  lemma OptionalStillPlain(key: Key, value: string)
    requires Plain(Optional(key, value, Clean(value)))
    ensures Plain(Optional(key, Clean(value), Clean(Clean(value))))
  {
    CleanTwice(value);
  }

  lemma NormalBlockPlain(b: Block, revision: string)
    requires Plain(BlockFields(b, revision))
    ensures Plain(BlockFields(NormalBlock(b, revision), revision))
  {
    var n := NormalBlock(b, revision);
    var head := [Field(Start, b.start)] + [Field(End, b.end)];
    var tail := Optional(LastActivity, b.lastActivity, b.lastActivity) + [Field(Revision, Stamped(b, revision))];
    SplitBlock(b, revision, b.state);
    SplitBlock(n, revision, n.state);
    PlainFive(head, [Field(State, b.state)], Optional(Note, b.note, Clean(b.note)), Optional(Auth, b.auth, Clean(b.auth)), tail);
    OptionalStillPlain(Note, b.note);
    OptionalStillPlain(Auth, b.auth);
    PlainFive(head, [Field(State, n.state)], Optional(Note, n.note, Clean(n.note)), Optional(Auth, n.auth, Clean(n.auth)), tail);
  }

  lemma SplitBlock(b: Block, revision: string, state: string)
    requires b.state == state
    ensures BlockFields(b, revision)
         == ([Field(Start, b.start)] + [Field(End, b.end)]) + ([Field(State, state)]
            + (Optional(Note, b.note, Clean(b.note)) + (Optional(Auth, b.auth, Clean(b.auth))
            + (Optional(LastActivity, b.lastActivity, b.lastActivity)
            + [Field(Revision, Stamped(b, revision))]))))
  {}

  lemma PlainFive(a: seq<Field>, b: seq<Field>, c: seq<Field>, d: seq<Field>, e: seq<Field>)
    ensures Plain(a + (b + (c + (d + e)))) <==> Plain(a) && Plain(b) && Plain(c) && Plain(d) && Plain(e)
  {
    PlainConcat(d, e);
    PlainConcat(c, d + e);
    PlainConcat(b, c + (d + e));
    PlainConcat(a, b + (c + (d + e)));
  }

  /** A block whose line does not change is settled. */
  lemma SameBlockLine(b: Block, revision: string, name: string)
    requires IsName(name) && Plain(BlockFields(b, revision)) && Plain(BlockFields(NormalBlock(b, revision), revision))
    requires Line("ACT", name, BlockFields(NormalBlock(b, revision), revision))
          == Line("ACT", name, BlockFields(b, revision))
    ensures SettledBlock(b)
  {
    var f, g := BlockFields(b, revision), BlockFields(NormalBlock(b, revision), revision);
    NameFits(name);
    SameBody("ACT", name, g, f);
    BodyInjective(g, f);
    SameBlockFields(b, revision);
  }

  lemma SameBlockFields(b: Block, revision: string)
    requires BlockFields(NormalBlock(b, revision), revision) == BlockFields(b, revision)
    ensures SettledBlock(b)
  {
    CleanTwice(b.note);
    CleanTwice(b.auth);
    CleanEmpty();
    assert BlockFields(b, revision)[2] == Field(State, b.state);
    assert BlockFields(NormalBlock(b, revision), revision)[2] == Field(State, OrElse(b.state, "open"));
  }

  lemma NormalReceiptPlain(r: Receipt, revision: string)
    requires Plain(ReceiptFields(r, revision))
    ensures Plain(ReceiptFields(NormalReceipt(r), revision))
  {
    NormalReceiptTwice(r);
    DefaultsPlain(ReceiptFields(r, revision), ReceiptFields(NormalReceipt(r), revision));
  }

  /** Filling in defaults keeps fields plain. */
  lemma DefaultsPlain(f: seq<Field>, g: seq<Field>)
    requires Plain(f) && |f| == |g|
    requires forall i | 0 <= i < |f| ::
      g[i] == f[i] || (g[i].key == f[i].key && g[i].value in ["open", "pending", "unknown"])
    ensures Plain(g)
  {
    PlainMembers(f);
    forall x | x in g ensures PlainText(x.value) {
      var i :| 0 <= i < |g| && g[i] == x;
      DefaultPlain(f, f[i], x);
    }
    PlainMembers(g);
  }

  lemma DefaultPlain(f: seq<Field>, a: Field, b: Field)
    requires (forall x | x in f :: PlainText(x.value)) && a in f
    requires b == a || b.value in ["open", "pending", "unknown"]
    ensures PlainText(b.value)
  {}

  lemma SameReceiptLine(r: Receipt, revision: string, name: string)
    requires IsName(name) && Plain(ReceiptFields(r, revision)) && Plain(ReceiptFields(NormalReceipt(r), revision))
    requires Line("RCV", name, ReceiptFields(NormalReceipt(r), revision)) == Line("RCV", name, ReceiptFields(r, revision))
    ensures SettledReceipt(r)
  {
    var f, g := ReceiptFields(r, revision), ReceiptFields(NormalReceipt(r), revision);
    NameFits(name);
    SameBody("RCV", name, g, f);
    BodyInjective(g, f);
    assert f[1] == Field(Status, r.status) && f[3] == Field(State, r.state);
    assert g[1] == Field(Status, OrElse(r.status, "pending")) && g[3] == Field(State, OrElse(r.state, "unknown"));
  }

  lemma NormalMarkPlain(m: Mark, revision: string)
    requires Plain(MarkFields(m, revision))
    ensures Plain(MarkFields(NormalMark(m), revision))
  {
    NormalMarkFields(m, revision);
    DefaultsPlain(MarkFields(m, revision), MarkFields(NormalMark(m), revision));
  }

  lemma NormalMarkFields(m: Mark, revision: string)
    ensures var f, g := MarkFields(m, revision), MarkFields(NormalMark(m), revision);
      |g| == |f| && forall i | 0 <= i < |f| ::
        g[i] == f[i] || (g[i].key == f[i].key && g[i].value in ["open", "pending", "unknown"])
  {
    CleanTwice(m.operation);
    CleanTwice(m.destination);
    CleanTwice(m.remote);
    CleanTwice(m.blocks);
    CleanTwice(m.agent);
  }

  lemma SameMarkLine(m: Mark, revision: string, name: string)
    requires IsName(name) && Plain(MarkFields(m, revision)) && Plain(MarkFields(NormalMark(m), revision))
    requires Line("PRJ", name, MarkFields(NormalMark(m), revision)) == Line("PRJ", name, MarkFields(m, revision))
    ensures SettledMark(m)
  {
    var f, g := MarkFields(m, revision), MarkFields(NormalMark(m), revision);
    NameFits(name);
    SameBody("PRJ", name, g, f);
    BodyInjective(g, f);
    assert f[1] == Field(Status, m.status) && f[3] == Field(State, m.state);
    assert g[1] == Field(Status, OrElse(m.status, "pending")) && g[3] == Field(State, OrElse(m.state, "unknown"));
  }

  /** Element by element, texts with as many pieces are equal only if their pieces are. */
  lemma {:induction false} FlatPairs(xs: seq<string>, ys: seq<string>)
    requires |xs| == |ys| && forall i | 0 <= i < |xs| :: |Pieces(xs[i])| == |Pieces(ys[i])|
    ensures |Flat(xs)| == |Flat(ys)|
    ensures Flat(xs) == Flat(ys) ==> forall i | 0 <= i < |xs| :: Pieces(xs[i]) == Pieces(ys[i])
  {
    if xs != [] {
      FlatPairs(xs[1..], ys[1..]);
      if Flat(xs) == Flat(ys) {
        SplitEqual(Pieces(xs[0]), Flat(xs[1..]), Pieces(ys[0]), Flat(ys[1..]));
        forall i | 0 <= i < |xs| ensures Pieces(xs[i]) == Pieces(ys[i]) {
          assert i > 0 ==> xs[i] == xs[1..][i - 1] && ys[i] == ys[1..][i - 1];
        }
      }
    }
  }

  lemma {:induction false} PickAt(texts: map<string, string>, keys: seq<string>)
    requires forall k | k in keys :: k in texts
    ensures |Pick(texts, keys)| == |keys|
    ensures forall i | 0 <= i < |keys| :: keys[i] in texts && Pick(texts, keys)[i] == texts[keys[i]]
  {
    if keys != [] {
      PickAt(texts, keys[1..]);
    }
  }

  /** Tables whose texts have as many pieces, key by key. */
  ghost predicate SameShape(m: map<string, string>, n: map<string, string>) {
    m.Keys == n.Keys && forall k | k in m :: |Pieces(m[k])| == |Pieces(n[k])|
  }

  ghost predicate SamePieces(m: map<string, string>, n: map<string, string>) {
    m.Keys == n.Keys && forall k | k in m :: Pieces(m[k]) == Pieces(n[k])
  }

  lemma PickFlat(m: map<string, string>, n: map<string, string>, keys: seq<string>)
    requires SameShape(m, n) && forall k :: k in keys <==> k in m
    ensures |Flat(Pick(m, keys))| == |Flat(Pick(n, keys))|
    ensures Flat(Pick(m, keys)) == Flat(Pick(n, keys)) ==> SamePieces(m, n)
  {
    PickAt(m, keys);
    PickAt(n, keys);
    FlatPairs(Pick(m, keys), Pick(n, keys));
    if Flat(Pick(m, keys)) == Flat(Pick(n, keys)) {
      forall k | k in m ensures Pieces(m[k]) == Pieces(n[k]) {
        var i :| 0 <= i < |keys| && keys[i] == k;
        assert Pieces(Pick(m, keys)[i]) == Pieces(Pick(n, keys)[i]);
      }
    }
  }

  /** Two texts of an entry: as many pieces, and equal exactly when the entry is settled. */
  ghost predicate PieceFacts(a: string, b: string, settled: bool) {
    |Pieces(a)| == |Pieces(b)| && (Pieces(a) == Pieces(b) ==> settled) && (settled ==> a == b)
  }

  /** Tables of the same shape, equal exactly when `same`. */
  ghost predicate Decided(m: map<string, string>, n: map<string, string>, same: bool) {
    SameShape(m, n) && (SamePieces(m, n) ==> same) && (same ==> m == n)
  }

  lemma TableDecides(m: map<string, string>, n: map<string, string>, settled: set<string>)
    requires m.Keys == n.Keys && forall k | k in m :: PieceFacts(m[k], n[k], k in settled)
    ensures Decided(m, n, m.Keys <= settled)
  {}

  lemma BlockPieces(k: string, x: Block, revision: string)
    requires IsName(k) && Plain(BlockFields(x, revision))
    ensures PieceFacts(BlockElement(k, x, revision), BlockElement(k, NormalBlock(x, revision), revision), SettledBlock(x))
  {
    EntryNames(k);
    NormalBlockPlain(x, revision);
    var f, g := BlockFields(x, revision), BlockFields(NormalBlock(x, revision), revision);
    PairTexts(Activity, k, f, g, BlockElement(k, x, revision), BlockElement(k, NormalBlock(x, revision), revision));
    if Line("ACT", k, f) == Line("ACT", k, g) {
      SameBlockLine(x, revision, k);
    }
    if SettledBlock(x) {
      SettledBlockFields(x, revision);
    }
  }

  lemma BlockTextAt(t: map<string, Block>, revision: string, k: string)
    requires k in t
    ensures k in BlockTexts(t, revision) && BlockTexts(t, revision)[k] == BlockElement(k, t[k], revision)
  {}

  lemma BlockPiecesAt(t: map<string, Block>, u: map<string, Block>, revision: string, k: string)
    requires k in t && k in u && IsName(k) && Plain(BlockFields(t[k], revision)) && u[k] == NormalBlock(t[k], revision)
    ensures k in BlockTexts(t, revision) && k in BlockTexts(u, revision)
    ensures PieceFacts(BlockTexts(t, revision)[k], BlockTexts(u, revision)[k], SettledBlock(t[k]))
  {
    BlockTextAt(t, revision, k);
    BlockTextAt(u, revision, k);
    BlockPieces(k, t[k], revision);
  }

  function SettledBlocks(t: map<string, Block>): set<string> { set k | k in t && SettledBlock(t[k]) }

  lemma BlockTable(t: map<string, Block>, u: map<string, Block>, revision: string)
    requires PlainBlocks(t, revision) && u.Keys == t.Keys && forall k | k in t :: u[k] == NormalBlock(t[k], revision)
    ensures Decided(BlockTexts(t, revision), BlockTexts(u, revision), t.Keys <= SettledBlocks(t))
  {
    var m, n, s := BlockTexts(t, revision), BlockTexts(u, revision), SettledBlocks(t);
    forall k | k in m ensures PieceFacts(m[k], n[k], k in s) {
      BlockPiecesAt(t, u, revision, k);
    }
    TableDecides(m, n, s);
  }

  lemma ReceiptPieces(k: string, x: Receipt, revision: string)
    requires IsName(k) && Plain(ReceiptFields(x, revision))
    ensures PieceFacts(ReceiptElement(k, x, revision), ReceiptElement(k, NormalReceipt(x), revision), SettledReceipt(x))
  {
    EntryNames(k);
    NormalReceiptPlain(x, revision);
    var f, g := ReceiptFields(x, revision), ReceiptFields(NormalReceipt(x), revision);
    PairTexts(ReceiptLine, k, f, g, ReceiptElement(k, x, revision), ReceiptElement(k, NormalReceipt(x), revision));
    if Line("RCV", k, f) == Line("RCV", k, g) {
      SameReceiptLine(x, revision, k);
    }
    if SettledReceipt(x) {
      SettledReceiptFields(x, revision);
    }
  }

  lemma ReceiptTextAt(t: map<string, Receipt>, revision: string, k: string)
    requires k in t
    ensures k in ReceiptTexts(t, revision) && ReceiptTexts(t, revision)[k] == ReceiptElement(k, t[k], revision)
  {}

  lemma ReceiptPiecesAt(t: map<string, Receipt>, u: map<string, Receipt>, revision: string, k: string)
    requires k in t && k in u && IsName(k) && Plain(ReceiptFields(t[k], revision)) && u[k] == NormalReceipt(t[k])
    ensures k in ReceiptTexts(t, revision) && k in ReceiptTexts(u, revision)
    ensures PieceFacts(ReceiptTexts(t, revision)[k], ReceiptTexts(u, revision)[k], SettledReceipt(t[k]))
  {
    ReceiptTextAt(t, revision, k);
    ReceiptTextAt(u, revision, k);
    ReceiptPieces(k, t[k], revision);
  }

  function SettledReceipts(t: map<string, Receipt>): set<string> { set k | k in t && SettledReceipt(t[k]) }

  lemma ReceiptTable(t: map<string, Receipt>, u: map<string, Receipt>, revision: string)
    requires PlainReceipts(t, revision) && u.Keys == t.Keys && forall k | k in t :: u[k] == NormalReceipt(t[k])
    ensures Decided(ReceiptTexts(t, revision), ReceiptTexts(u, revision), t.Keys <= SettledReceipts(t))
  {
    var m, n, s := ReceiptTexts(t, revision), ReceiptTexts(u, revision), SettledReceipts(t);
    forall k | k in m ensures PieceFacts(m[k], n[k], k in s) {
      ReceiptPiecesAt(t, u, revision, k);
    }
    TableDecides(m, n, s);
  }

  lemma MarkPieces(k: string, x: Mark, revision: string)
    requires IsName(k) && Plain(MarkFields(x, revision))
    ensures PieceFacts(MarkElement(k, x, revision), MarkElement(k, NormalMark(x), revision), SettledMark(x))
  {
    EntryNames(k);
    NormalMarkPlain(x, revision);
    var f, g := MarkFields(x, revision), MarkFields(NormalMark(x), revision);
    PairTexts(ProjectionLine, k, f, g, MarkElement(k, x, revision), MarkElement(k, NormalMark(x), revision));
    if Line("PRJ", k, f) == Line("PRJ", k, g) {
      SameMarkLine(x, revision, k);
    }
    if SettledMark(x) {
      SettledMarkFields(x, revision);
    }
  }

  lemma MarkTextAt(t: map<string, Mark>, revision: string, k: string)
    requires k in t
    ensures k in MarkTexts(t, revision) && MarkTexts(t, revision)[k] == MarkElement(k, t[k], revision)
  {}

  lemma MarkPiecesAt(t: map<string, Mark>, u: map<string, Mark>, revision: string, k: string)
    requires k in t && k in u && IsName(k) && Plain(MarkFields(t[k], revision)) && u[k] == NormalMark(t[k])
    ensures k in MarkTexts(t, revision) && k in MarkTexts(u, revision)
    ensures PieceFacts(MarkTexts(t, revision)[k], MarkTexts(u, revision)[k], SettledMark(t[k]))
  {
    MarkTextAt(t, revision, k);
    MarkTextAt(u, revision, k);
    MarkPieces(k, t[k], revision);
  }

  function SettledMarks(t: map<string, Mark>): set<string> { set k | k in t && SettledMark(t[k]) }

  lemma MarkTable(t: map<string, Mark>, u: map<string, Mark>, revision: string)
    requires PlainMarks(t, revision) && u.Keys == t.Keys && forall k | k in t :: u[k] == NormalMark(t[k])
    ensures Decided(MarkTexts(t, revision), MarkTexts(u, revision), t.Keys <= SettledMarks(t))
  {
    var m, n, s := MarkTexts(t, revision), MarkTexts(u, revision), SettledMarks(t);
    forall k | k in m ensures PieceFacts(m[k], n[k], k in s) {
      MarkPiecesAt(t, u, revision, k);
    }
    TableDecides(m, n, s);
  }

  lemma PairTexts(
      kind: Kind, name: string, f: seq<Field>, g: seq<Field>, a: string, b: string)
    requires !kind.Other? && IsName(name) && Plain(f) && Plain(g)
    requires a == Line(SigilOf(kind), name, f) + "\n" && b == Line(SigilOf(kind), name, g) + "\n"
    ensures |Pieces(a)| == |Pieces(b)| == 2
    ensures Pieces(a) == Pieces(b) ==> Line(SigilOf(kind), name, f) == Line(SigilOf(kind), name, g)
  {
    PairPieces(kind, name, f, g);
  }

  lemma PairPieces(kind: Kind, name: string, f: seq<Field>, g: seq<Field>)
    requires !kind.Other? && IsName(name) && Plain(f) && Plain(g)
    ensures var a, b := Pieces(Line(SigilOf(kind), name, f) + "\n"), Pieces(Line(SigilOf(kind), name, g) + "\n");
      |a| == |b| == 2 && (a == b ==> Line(SigilOf(kind), name, f) == Line(SigilOf(kind), name, g))
  {
    EntryPieces(kind, name, f);
    EntryPieces(kind, name, g);
    assert Pieces(Line(SigilOf(kind), name, f) + "\n")[0] == Line(SigilOf(kind), name, f);
  }

  lemma {:induction false} SplitFlat(a: seq<string>, b: seq<string>, c: seq<string>, d: seq<string>)
    requires Flat(a + b) == Flat(c + d) && |Flat(a)| == |Flat(c)|
    ensures Flat(a) == Flat(c) && Flat(b) == Flat(d)
  {
    FlatConcat(a, b);
    FlatConcat(c, d);
    SplitEqual(Flat(a), Flat(b), Flat(c), Flat(d));
  }

  lemma SameFlat(xs: seq<string>, ys: seq<string>)
    requires xs != [] && ys != [] && Unlines(xs) + "\n" == Unlines(ys) + "\n"
    ensures Flat(xs) == Flat(ys)
  {
    SplitEqual(Unlines(xs), "\n", Unlines(ys), "\n");
    PiecesUnlines(xs);
    PiecesUnlines(ys);
  }

  lemma SplitMiddle(h: seq<string>, b: seq<string>, rest: seq<string>, b': seq<string>, rest': seq<string>)
    requires Flat(h + (b + rest)) == Flat(h + (b' + rest')) && |Flat(b)| == |Flat(b')|
    ensures Flat(b) == Flat(b') && Flat(rest) == Flat(rest')
  {
    SplitFlat(h, b + rest, h, b' + rest');
    SplitFlat(b, rest, b', rest');
  }

  lemma TablesSplit(
      head: seq<string>, t3: seq<string>, t4: seq<string>, b: seq<string>, r: seq<string>, m: seq<string>,
      b': seq<string>, r': seq<string>, m': seq<string>)
    requires Flat(head + (b + (t3 + (r + (t4 + m))))) == Flat(head + (b' + (t3 + (r' + (t4 + m')))))
    requires |Flat(b)| == |Flat(b')| && |Flat(r)| == |Flat(r')|
    ensures Flat(b) == Flat(b') && Flat(r) == Flat(r') && Flat(m) == Flat(m')
  {
    SplitMiddle(head, b, t3 + (r + (t4 + m)), b', t3 + (r' + (t4 + m')));
    SplitMiddle(t3, r, t4 + m, r', t4 + m');
    SplitFlat(t4, m, t4, m');
  }

  lemma Regroup(
      head: seq<string>, b: seq<string>, r: seq<string>, m: seq<string>, x: seq<string>, y: seq<string>, z: seq<string>)
    ensures head + (b + (x + (y + (r + (x + (z + m)))))) == head + (b + ((x + y) + (r + ((x + z) + m))))
  {
    ConcatAssoc(x, z, m);
    ConcatAssoc(x, y, r + ((x + z) + m));
  }

  /** The layout with what stands between the tables grouped. */
  lemma LayoutGrouped(
      head: seq<string>, b: map<string, string>, r: map<string, string>, m: map<string, string>,
      x: seq<string>, y: seq<string>, z: seq<string>)
    requires x == [""] && y == ["$3: RECEIPTS"] && z == ["$4: PROJECTIONS"]
    ensures Layout(head, b, r, m)
         == head + (Pick(b, Sorted(b.Keys)) + ((x + y) + (Pick(r, Sorted(r.Keys)) + ((x + z) + Pick(m, Sorted(m.Keys))))))
  {
    Regroup(head, Pick(b, Sorted(b.Keys)), Pick(r, Sorted(r.Keys)), Pick(m, Sorted(m.Keys)), x, y, z);
  }

  /** Equal texts have equal tables, piece by piece. */
  lemma LayoutDecides(
      head: seq<string>, b: map<string, string>, r: map<string, string>, m: map<string, string>,
      b': map<string, string>, r': map<string, string>, m': map<string, string>)
    requires SameShape(b, b') && SameShape(r, r') && SameShape(m, m')
    requires Flat(Layout(head, b, r, m)) == Flat(Layout(head, b', r', m'))
    ensures SamePieces(b, b') && SamePieces(r, r') && SamePieces(m, m')
  {
    var x, y, z := [""], ["$3: RECEIPTS"], ["$4: PROJECTIONS"];
    var bk, rk, mk := Sorted(b.Keys), Sorted(r.Keys), Sorted(m.Keys);
    LayoutGrouped(head, b, r, m, x, y, z);
    LayoutGrouped(head, b', r', m', x, y, z);
    PickFlat(b, b', bk);
    PickFlat(r, r', rk);
    PickFlat(m, m', mk);
    TablesSplit(head, x + y, x + z, Pick(b, bk), Pick(r, rk), Pick(m, mk), Pick(b', bk), Pick(r', rk), Pick(m', mk));
  }

  /** Serialising the normal form gives the same text exactly for settled documents. */
  lemma SameTextIffSettled(d: Document)
    requires PlainDocument(d) && d.revision != ""
    ensures Serialized(Normal(d)) == Serialized(d) <==> Settled(d)
  {
    SameHead(d);
    SameTextOf(d, Normal(d), d.blocks.Keys <= SettledBlocks(d.blocks),
               d.receipts.Keys <= SettledReceipts(d.receipts), d.projections.Keys <= SettledMarks(d.projections));
  }

  lemma NormalBlockTable(t: map<string, Block>, u: map<string, Block>, revision: string)
    requires PlainBlocks(t, revision) && u == NormalBlocks(t, revision)
    ensures Decided(BlockTexts(t, revision), BlockTexts(u, revision), t.Keys <= SettledBlocks(t))
  {
    BlockTable(t, u, revision);
  }

  lemma NormalReceiptTable(t: map<string, Receipt>, u: map<string, Receipt>, revision: string)
    requires PlainReceipts(t, revision) && u == NormalReceipts(t)
    ensures Decided(ReceiptTexts(t, revision), ReceiptTexts(u, revision), t.Keys <= SettledReceipts(t))
  {
    ReceiptTable(t, u, revision);
  }

  lemma NormalMarkTable(t: map<string, Mark>, u: map<string, Mark>, revision: string)
    requires PlainMarks(t, revision) && u == NormalMarks(t)
    ensures Decided(MarkTexts(t, revision), MarkTexts(u, revision), t.Keys <= SettledMarks(t))
  {
    MarkTable(t, u, revision);
  }

  lemma SameTextOf(d: Document, n: Document, x: bool, y: bool, z: bool)
    requires PlainBlocks(d.blocks, d.revision) && PlainReceipts(d.receipts, d.revision) && PlainMarks(d.projections, d.revision)
    requires Head(d) == Head(n) && n.revision == d.revision
    requires n.blocks == NormalBlocks(d.blocks, d.revision) && n.receipts == NormalReceipts(d.receipts)
    requires n.projections == NormalMarks(d.projections)
    requires x == (d.blocks.Keys <= SettledBlocks(d.blocks)) && y == (d.receipts.Keys <= SettledReceipts(d.receipts))
    requires z == (d.projections.Keys <= SettledMarks(d.projections))
    ensures (Serialized(n) == Serialized(d)) <==> (x && y && z)
  {
    NormalBlockTable(d.blocks, n.blocks, d.revision);
    WithBlocks(Head(d), d.receipts, d.projections, d.revision, BlockTexts(d.blocks, d.revision),
               BlockTexts(n.blocks, d.revision), x, y, z);
  }

  ghost function FileText(
      head: seq<string>, blocks: map<string, string>, receipts: map<string, string>, marks: map<string, string>): string
  { Unlines(Layout(head, blocks, receipts, marks)) + "\n" }

  lemma WithBlocks(
      head: seq<string>, receipts: map<string, Receipt>, marks: map<string, Mark>, revision: string,
      b: map<string, string>, b': map<string, string>, x: bool, y: bool, z: bool)
    requires head != [] && PlainReceipts(receipts, revision) && PlainMarks(marks, revision) && Decided(b, b', x)
    requires y == (receipts.Keys <= SettledReceipts(receipts)) && z == (marks.Keys <= SettledMarks(marks))
    ensures (FileText(head, b', ReceiptTexts(NormalReceipts(receipts), revision), MarkTexts(NormalMarks(marks), revision))
          == FileText(head, b, ReceiptTexts(receipts, revision), MarkTexts(marks, revision))) <==> (x && y && z)
  {
    NormalReceiptTable(receipts, NormalReceipts(receipts), revision);
    WithReceipts(head, marks, revision, b, b', ReceiptTexts(receipts, revision),
                 ReceiptTexts(NormalReceipts(receipts), revision), x, y, z);
  }

  lemma WithReceipts(
      head: seq<string>, marks: map<string, Mark>, revision: string, b: map<string, string>, b': map<string, string>,
      r: map<string, string>, r': map<string, string>, x: bool, y: bool, z: bool)
    requires head != [] && PlainMarks(marks, revision) && Decided(b, b', x) && Decided(r, r', y)
    requires z == (marks.Keys <= SettledMarks(marks))
    ensures (FileText(head, b', r', MarkTexts(NormalMarks(marks), revision))
          == FileText(head, b, r, MarkTexts(marks, revision))) <==> (x && y && z)
  {
    NormalMarkTable(marks, NormalMarks(marks), revision);
    TextDecides(head, b, r, MarkTexts(marks, revision), b', r', MarkTexts(NormalMarks(marks), revision), x, y, z);
  }

  lemma TextDecides(
      head: seq<string>, b: map<string, string>, r: map<string, string>, m: map<string, string>,
      b': map<string, string>, r': map<string, string>, m': map<string, string>, x: bool, y: bool, z: bool)
    requires head != [] && Decided(b, b', x) && Decided(r, r', y) && Decided(m, m', z)
    ensures (FileText(head, b', r', m') == FileText(head, b, r, m)) <==> (x && y && z)
  {
    if FileText(head, b', r', m') == FileText(head, b, r, m) {
      SameFlat(Layout(head, b, r, m), Layout(head, b', r', m'));
      LayoutDecides(head, b, r, m, b', r', m');
    }
  }
}
