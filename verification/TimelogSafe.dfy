/** Inputs that keep a timelog readable: what a caller can check before it calls `update`. */
module TimelogSafe {
  import opened Text
  import opened TimelogModel
  import opened TimelogFields
  import opened TimelogText
  import opened TimelogRoundTrip
  import opened TimelogStable
  import opened TimelogStore

  /** On one line, free of quotes, and not ending like the start of a field with one of the keys. */
  predicate Fit(v: string, keys: seq<Key>) { PlainText(v) && forall k | k in keys :: !Mimics(v, Name(k)) }

  /** The fields of a block that may be absent, and the stamp that is always printed last. */
  const OPTIONAL_KEYS: seq<Key> := [Note, Auth, LastActivity, Revision]

  /** No value mimics the key of a field that is printed after it or that may be absent. */
  predicate FitBlock(b: Block) {
    && Fit(b.start, [End, State] + OPTIONAL_KEYS) && Fit(b.end, [State] + OPTIONAL_KEYS) && Fit(b.state, OPTIONAL_KEYS)
    && Fit(Clean(b.note), [Auth, LastActivity, Revision]) && Fit(Clean(b.auth), [Note, LastActivity, Revision])
    && Fit(b.lastActivity, [Note, Auth, Revision]) && PlainText(b.revision)
  }

  /** No value before the field with key `k` mimics that key. */
  predicate Unmimicked(fields: seq<Field>, k: Key) {
    forall i, j | 0 <= i < j < |fields| && fields[j].key == k :: !Mimics(fields[i].value, Name(k))
  }

  predicate Orderly(fields: seq<Field>, keys: seq<Key>) { forall k | k in keys :: Unmimicked(fields, k) }

  predicate FitFields(fields: seq<Field>, keys: seq<Key>) { Plain(fields) && Orderly(fields, keys) }

  predicate FitReceipt(r: Receipt) { FitFields(ReceiptFields(r, "0"), RECEIPT_KEYS) }

  predicate FitMark(m: Mark) { FitFields(MarkFields(m, "0"), MARK_KEYS) }

  function FitBlocks(t: map<string, Block>): set<string> { set k | k in t && IsName(k) && FitBlock(t[k]) }

  function FitReceipts(t: map<string, Receipt>): set<string> { set k | k in t && IsName(k) && FitReceipt(t[k]) }

  function FitMarks(t: map<string, Mark>): set<string> { set k | k in t && IsName(k) && FitMark(t[k]) }

  /** A numbered document of fit entries. */
  predicate Good(d: Document) {
    && AllDigits(d.revision) && FitFields(IdentityFields(d), IDENTITY_KEYS) && d.blocks.Keys <= FitBlocks(d.blocks)
    && d.receipts.Keys <= FitReceipts(d.receipts) && d.projections.Keys <= FitMarks(d.projections)
  }

  /** The inputs of a call that keep the document fit, whatever it holds. */
  predicate Harmless(m: Mutation) {
    match m
    case OpenBlock(_, start) => FitBlock(Block(start, "", "open", "", "", start, ""))
    case CloseBlock(_, end) => Fit(end, [State] + OPTIONAL_KEYS)
    case Touch(at) => Fit(at, [Note, Auth, Revision])
    case Invalidate => true
    case Review(_, c, reason, auth) =>
      && (c.start.Some? ==> Fit(c.start.value, [End, State] + OPTIONAL_KEYS))
      && (c.end.Some? ==> Fit(c.end.value, [State] + OPTIONAL_KEYS))
      && (c.state.Some? ==> Fit(c.state.value, OPTIONAL_KEYS))
      && Fit(Clean(reason), [Auth, LastActivity, Revision]) && Fit(Clean(auth), [Note, LastActivity, Revision])
    case Purge(_, _) => true
    case RecordReceipt(key, receipt, markKey, mark) =>
      IsName(key) && IsName(markKey) && FitReceipt(receipt) && FitMark(mark)
  }

  // -------------------------------------------------------------- fit entries are legible

  lemma {:induction false} UnhiddenAt(fields: seq<Field>, n: nat, k: Key)
    requires n < |fields| && fields[n].key == k && Quiet(fields, n, k)
    ensures Unhidden(fields, k)
  {
    if n > 0 {
      assert forall j | 0 <= j < n - 1 :: fields[1..][j] == fields[j + 1];
      UnhiddenAt(fields[1..], n - 1, k);
    }
  }

  /** Where each key is printed once, orderly fields are legible. */
  lemma OrderlyLegible(fields: seq<Field>, keys: seq<Key>)
    requires Orderly(fields, keys) && KeysDistinct(fields)
    requires forall k | k in keys :: exists n :: 0 <= n < |fields| && fields[n].key == k
    ensures Legible(fields, keys)
  {
    forall k | k in keys ensures Unhidden(fields, k) {
      var n :| 0 <= n < |fields| && fields[n].key == k;
      assert Unmimicked(fields, k);
      UnhiddenAt(fields, n, k);
    }
  }

  lemma UnhiddenCons(f: Field, rest: seq<Field>, k: Key)
    requires f.key == k || (!Mimics(f.value, Name(k)) && Unhidden(rest, k))
    ensures Unhidden([f] + rest, k)
  {
    assert ([f] + rest)[1..] == rest;
  }

  lemma ConsLegible(f: Field, rest: seq<Field>, keys: seq<Key>)
    requires forall k | k in keys :: f.key == k || (!Mimics(f.value, Name(k)) && Unhidden(rest, k))
    ensures Legible([f] + rest, keys)
  {
    forall k | k in keys ensures Unhidden([f] + rest, k) {
      UnhiddenCons(f, rest, k);
    }
  }

  lemma OptionLegible(key: Key, value: string, shown: string, rest: seq<Field>, keys: seq<Key>)
    requires Legible(rest, keys) && forall k | k in keys :: key == k || !Mimics(shown, Name(k))
    ensures Legible(Optional(key, value, shown) + rest, keys)
  {
    if value == "" {
      assert Optional(key, value, shown) + rest == rest;
    } else {
      ConsLegible(Field(key, shown), rest, keys);
    }
  }

  lemma OptionsLegible(b: Block, revision: string)
    requires FitBlock(b)
    ensures Legible(Options(b, revision), OPTIONAL_KEYS)
  {
    var last := LastField(b, revision);
    var r2 := Optional(LastActivity, b.lastActivity, b.lastActivity) + last;
    var r1 := Optional(Auth, b.auth, Clean(b.auth)) + r2;
    OptionLegible(LastActivity, b.lastActivity, b.lastActivity, last, OPTIONAL_KEYS);
    OptionLegible(Auth, b.auth, Clean(b.auth), r2, OPTIONAL_KEYS);
    OptionLegible(Note, b.note, Clean(b.note), r1, OPTIONAL_KEYS);
  }

  lemma FitBlockLegible(b: Block, revision: string)
    requires FitBlock(b)
    ensures Legible(BlockFields(b, revision), BLOCK_KEYS)
  {
    var rest := Options(b, revision);
    var r2 := [Field(State, b.state)] + rest;
    var r1 := [Field(End, b.end)] + r2;
    OptionsLegible(b, revision);
    ConsLegible(Field(State, b.state), rest, [State] + OPTIONAL_KEYS);
    ConsLegible(Field(End, b.end), r2, [End, State] + OPTIONAL_KEYS);
    ConsLegible(Field(Start, b.start), r1, [Start, End, State] + OPTIONAL_KEYS);
    assert BlockFields(b, revision) == [Field(Start, b.start)] + r1;
  }

  lemma OptionPlain(key: Key, value: string, shown: string, rest: seq<Field>)
    requires Plain(rest) && PlainText(shown)
    ensures Plain(Optional(key, value, shown) + rest)
  {
    PlainConcat(Optional(key, value, shown), rest);
  }

  lemma FitBlockPlain(b: Block, revision: string)
    requires FitBlock(b) && PlainText(revision)
    ensures Plain(BlockFields(b, revision))
  {
    var last := LastField(b, revision);
    var r2 := Optional(LastActivity, b.lastActivity, b.lastActivity) + last;
    var r1 := Optional(Auth, b.auth, Clean(b.auth)) + r2;
    OptionPlain(LastActivity, b.lastActivity, b.lastActivity, last);
    OptionPlain(Auth, b.auth, Clean(b.auth), r2);
    OptionPlain(Note, b.note, Clean(b.note), r1);
    var head := [Field(Start, b.start), Field(End, b.end), Field(State, b.state)];
    PlainMembers(head);
    PlainConcat(head, Options(b, revision));
    assert BlockFields(b, revision) == head + Options(b, revision);
  }

  /** The stamp of the document is printed last in every receipt and mark. */
  lemma LastFits(f: seq<Field>, g: seq<Field>, keys: seq<Key>)
    requires FitFields(f, keys) && |f| == |g| > 0 && f[..|f| - 1] == g[..|g| - 1]
    requires f[|f| - 1].key == g[|g| - 1].key && PlainText(g[|g| - 1].value)
    ensures FitFields(g, keys)
  {
    var n := |f| - 1;
    assert g == f[..n] + [g[n]] && f == f[..n] + [f[n]];
    PlainConcat(f[..n], [f[n]]);
    PlainConcat(f[..n], [g[n]]);
    assert forall i | 0 <= i < n :: g[i] == f[..n][i];
    assert forall i | 0 <= i <= n :: g[i].key == f[i].key;
    forall k | k in keys ensures Unmimicked(g, k) {
      assert Unmimicked(f, k);
    }
  }

  lemma ReceiptStamp(r: Receipt, revision: string)
    requires FitReceipt(r) && PlainText(revision)
    ensures FitFields(ReceiptFields(r, revision), RECEIPT_KEYS)
  {
    LastFits(ReceiptFields(r, "0"), ReceiptFields(r, revision), RECEIPT_KEYS);
  }

  lemma MarkStamp(m: Mark, revision: string)
    requires FitMark(m) && PlainText(revision)
    ensures FitFields(MarkFields(m, revision), MARK_KEYS)
  {
    LastFits(MarkFields(m, "0"), MarkFields(m, revision), MARK_KEYS);
  }

  lemma ReceiptLegible(r: Receipt, revision: string)
    requires FitFields(ReceiptFields(r, revision), RECEIPT_KEYS)
    ensures Legible(ReceiptFields(r, revision), RECEIPT_KEYS)
  {
    var f := ReceiptFields(r, revision);
    assert f[0].key == Operation && f[1].key == Status && f[2].key == Destination && f[3].key == State && f[4].key == Remote;
    OrderlyLegible(f, RECEIPT_KEYS);
  }

  lemma MarkLegible(m: Mark, revision: string)
    requires FitFields(MarkFields(m, revision), MARK_KEYS)
    ensures Legible(MarkFields(m, revision), MARK_KEYS)
  {
    var f := MarkFields(m, revision);
    MarkKeysDistinct(m, revision);
    MarkPositions(f, m, revision);
    OrderlyLegible(f, MARK_KEYS);
  }

  lemma MarkPositions(f: seq<Field>, m: Mark, revision: string)
    requires f == MarkFields(m, revision)
    ensures forall k | k in MARK_KEYS :: exists n :: 0 <= n < |f| && f[n].key == k
  {
    MarkOrdered(f, m, revision);
    forall k | k in MARK_KEYS ensures exists n :: 0 <= n < |f| && f[n].key == k {
      var n :| 0 <= n < |MARK_KEYS| && MARK_KEYS[n] == k;
      assert f[n].key == k;
    }
  }

  lemma MarkOrdered(f: seq<Field>, m: Mark, revision: string)
    requires f == MarkFields(m, revision)
    ensures |MARK_KEYS| == 11 && |f| == 12 && forall n | 0 <= n < 11 :: f[n].key == MARK_KEYS[n]
  {
    forall n | 0 <= n < 11 ensures f[n].key == MARK_KEYS[n] {
      assert f[n].key == MarkOrder(n) == MARK_KEYS[n];
    }
  }

  lemma IdentityLegible(d: Document)
    requires FitFields(IdentityFields(d), IDENTITY_KEYS)
    ensures Legible(IdentityFields(d), IDENTITY_KEYS)
  {
    var f := IdentityFields(d);
    assert f[0].key == Project && f[1].key == Ses && f[2].key == Opened && f[4].key == Revision;
    OrderlyLegible(f, IDENTITY_KEYS);
  }

  lemma DigitsPlain(v: string)
    requires AllDigits(v)
    ensures PlainText(v)
  {}

  lemma BlocksGood(t: map<string, Block>, revision: string)
    requires t.Keys <= FitBlocks(t) && PlainText(revision)
    ensures PlainBlocks(t, revision) && t.Keys <= LegibleBlocks(t, revision)
  {
    forall k | k in t
      ensures IsName(k) && Plain(BlockFields(t[k], revision)) && Legible(BlockFields(t[k], revision), BLOCK_KEYS) {
      assert k in FitBlocks(t);
      FitBlockPlain(t[k], revision);
      FitBlockLegible(t[k], revision);
    }
  }

  lemma ReceiptsGood(t: map<string, Receipt>, revision: string)
    requires t.Keys <= FitReceipts(t) && PlainText(revision)
    ensures PlainReceipts(t, revision) && t.Keys <= LegibleReceipts(t, revision)
  {
    forall k | k in t
      ensures IsName(k) && Plain(ReceiptFields(t[k], revision)) && Legible(ReceiptFields(t[k], revision), RECEIPT_KEYS) {
      assert k in FitReceipts(t);
      ReceiptStamp(t[k], revision);
      ReceiptLegible(t[k], revision);
    }
  }

  lemma MarksGood(t: map<string, Mark>, revision: string)
    requires t.Keys <= FitMarks(t) && PlainText(revision)
    ensures PlainMarks(t, revision) && t.Keys <= LegibleMarks(t, revision)
  {
    forall k | k in t
      ensures IsName(k) && Plain(MarkFields(t[k], revision)) && Legible(MarkFields(t[k], revision), MARK_KEYS) {
      assert k in FitMarks(t);
      MarkStamp(t[k], revision);
      MarkLegible(t[k], revision);
    }
  }

  /** A good document is read back in normal form. */
  lemma GoodReads(d: Document)
    requires Good(d)
    ensures PlainDocument(d) && Parsed(Serialized(d)) == Some(Normal(d))
  {
    DigitsPlain(d.revision);
    IdentityLegible(d);
    BlocksGood(d.blocks, d.revision);
    ReceiptsGood(d.receipts, d.revision);
    MarksGood(d.projections, d.revision);
    TimelogReadsBack(d);
  }

  // ------------------------------------------------------- harmless calls keep documents good

  predicate Word(v: string) { forall c | c in v :: !IsSep(c) && !IsBreak(c) && c != '"' }

  /** Replacing values by single words keeps fields fit. */
  lemma WordsFit(f: seq<Field>, g: seq<Field>, keys: seq<Key>)
    requires FitFields(f, keys) && |g| == |f|
    requires forall i | 0 <= i < |f| :: g[i] == f[i] || (g[i].key == f[i].key && Word(g[i].value))
    ensures FitFields(g, keys)
  {
    PlainMembers(f);
    forall i | 0 <= i < |g| ensures PlainText(g[i].value) && g[i].key == f[i].key {
      assert f[i] in f;
    }
    PlainMembers(g);
    forall k | k in keys ensures Unmimicked(g, k) {
      assert Unmimicked(f, k);
      forall i, j | 0 <= i < j < |g| && g[j].key == k ensures !Mimics(g[i].value, Name(k)) {
        if g[i] != f[i] {
          WordMimicsNone(g[i].value, Name(k));
        }
      }
    }
  }

  lemma WordMimicsNone(v: string, key: string)
    requires Word(v)
    ensures !Mimics(v, key)
  {}

  lemma WordFits(v: string, keys: seq<Key>)
    requires Word(v)
    ensures Fit(v, keys)
  {
    forall k | k in keys ensures !Mimics(v, Name(k)) {
      WordMimicsNone(v, Name(k));
    }
  }

  lemma StateWords()
    ensures Word("open") && Word("closed")
  {}

  lemma PurgeWords()
    ensures Word("archived") && Word("suppressed")
  {}

  lemma InvalidWord()
    ensures Word("unterminated")
  {}

  lemma StatusWords()
    ensures Word("open") && Word("pending") && Word("unknown")
  {}

  lemma StaleWord()
    ensures Word("stale")
  {}

  lemma NormalBlockFit(b: Block, revision: string)
    requires FitBlock(b) && PlainText(revision)
    ensures FitBlock(NormalBlock(b, revision))
  {
    StateWords();
    WordFits("open", OPTIONAL_KEYS);
    CleanTwice(b.note);
    CleanTwice(b.auth);
  }

  lemma NormalReceiptFit(r: Receipt)
    requires FitReceipt(r)
    ensures FitReceipt(NormalReceipt(r))
  {
    NormalReceiptTwice(r);
    StatusWords();
    var f, g := ReceiptFields(r, "0"), ReceiptFields(NormalReceipt(r), "0");
    forall i | 0 <= i < |f| ensures g[i] == f[i] || (g[i].key == f[i].key && Word(g[i].value)) {}
    WordsFit(f, g, RECEIPT_KEYS);
  }

  lemma NormalMarkFit(m: Mark)
    requires FitMark(m)
    ensures FitMark(NormalMark(m))
  {
    NormalMarkFields(m, "0");
    StatusWords();
    var f, g := MarkFields(m, "0"), MarkFields(NormalMark(m), "0");
    forall i | 0 <= i < |f| ensures g[i] == f[i] || (g[i].key == f[i].key && Word(g[i].value)) {}
    WordsFit(f, g, MARK_KEYS);
  }

  lemma NormalTables(d: Document)
    requires Good(d)
    ensures Normal(d).blocks.Keys <= FitBlocks(Normal(d).blocks)
    ensures Normal(d).receipts.Keys <= FitReceipts(Normal(d).receipts)
    ensures Normal(d).projections.Keys <= FitMarks(Normal(d).projections)
  {
    DigitsPlain(d.revision);
    forall k | k in d.blocks ensures IsName(k) && FitBlock(NormalBlock(d.blocks[k], d.revision)) {
      assert k in FitBlocks(d.blocks);
      NormalBlockFit(d.blocks[k], d.revision);
    }
    forall k | k in d.receipts ensures IsName(k) && FitReceipt(NormalReceipt(d.receipts[k])) {
      assert k in FitReceipts(d.receipts);
      NormalReceiptFit(d.receipts[k]);
    }
    forall k | k in d.projections ensures IsName(k) && FitMark(NormalMark(d.projections[k])) {
      assert k in FitMarks(d.projections);
      NormalMarkFit(d.projections[k]);
    }
  }

  /** What is read back is good again. */
  lemma NormalIsGood(d: Document)
    requires Good(d)
    ensures Good(Normal(d))
  {
    NormalTables(d);
    CleanTwice(d.project);
    assert IdentityFields(Normal(d)) == IdentityFields(d);
  }

  lemma NextIsGood(d: Document, next: string)
    requires Good(d) && AllDigits(next)
    ensures Good(d.(revision := next))
  {
    DigitsPlain(next);
    LastFits(IdentityFields(d), IdentityFields(d.(revision := next)), IDENTITY_KEYS);
  }

  /** One block is replaced by a fit one. */
  lemma PutBlock(t: map<string, Block>, k: string, b: Block)
    requires t.Keys <= FitBlocks(t) && IsName(k) && FitBlock(b)
    ensures t[k := b].Keys <= FitBlocks(t[k := b])
  {
    var u := t[k := b];
    forall x | x in u ensures x in FitBlocks(u) {
      assert x != k ==> x in FitBlocks(t);
    }
  }

  lemma StampFits(b: Block, revision: string)
    requires FitBlock(b) && AllDigits(revision)
    ensures FitBlock(b.(revision := revision))
  {
    DigitsPlain(revision);
  }

  lemma NextDigits(revision: string)
    requires Next(revision).Some?
    ensures AllDigits(Next(revision).value)
  {}

  lemma StaleReceiptFit(r: Receipt)
    requires FitReceipt(r)
    ensures FitReceipt(r.(status := "stale"))
  {
    StaleWord();
    WordsFit(ReceiptFields(r, "0"), ReceiptFields(r.(status := "stale"), "0"), RECEIPT_KEYS);
  }

  lemma StaleMarkFit(m: Mark)
    requires FitMark(m)
    ensures FitMark(m.(status := "stale"))
  {
    StaleWord();
    WordsFit(MarkFields(m, "0"), MarkFields(m.(status := "stale"), "0"), MARK_KEYS);
  }

  lemma StaleReceiptsFit(receipts: map<string, Receipt>)
    requires receipts.Keys <= FitReceipts(receipts)
    ensures StaleReceipts(receipts).Keys <= FitReceipts(StaleReceipts(receipts))
  {
    forall k | k in receipts ensures k in FitReceipts(StaleReceipts(receipts)) {
      assert k in FitReceipts(receipts);
      StaleReceiptFit(receipts[k]);
    }
  }

  lemma StaleMarksFit(marks: map<string, Mark>, id: string)
    requires marks.Keys <= FitMarks(marks)
    ensures StaleMarks(marks, id).Keys <= FitMarks(StaleMarks(marks, id))
  {
    forall k | k in marks ensures k in FitMarks(StaleMarks(marks, id)) {
      assert k in FitMarks(marks);
      StaleMarkFit(marks[k]);
    }
  }

  lemma ReviewFits(d: Document, id: string, c: Changes, reason: string, auth: string)
    requires Good(d) && Harmless(Review(id, c, reason, auth)) && Mutate(d, Review(id, c, reason, auth)).Changed?
    ensures Good(Mutate(d, Review(id, c, reason, auth)).document)
  {
    assert id in FitBlocks(d.blocks);
    NextDigits(d.revision);
    var b := Corrected(d.blocks[id], c).(note := reason, auth := auth);
    StampFits(b, Next(d.revision).value);
    PutBlock(d.blocks, id, b.(revision := Next(d.revision).value));
    StaleReceiptsFit(d.receipts);
    StaleMarksFit(d.projections, id);
  }

  lemma OpenFits(d: Document, ref: string, start: string)
    requires Good(d) && Harmless(OpenBlock(ref, start)) && Mutate(d, OpenBlock(ref, start)).Changed?
    ensures Good(Mutate(d, OpenBlock(ref, start)).document)
  {
    EntryNames(ref);
    NextDigits(d.revision);
    var b := Block(start, "", "open", "", "", start, "");
    StampFits(b, Next(d.revision).value);
    PutBlock(d.blocks, EntryName(ref), b.(revision := Next(d.revision).value));
  }

  lemma CloseFits(d: Document, ref: string, end: string)
    requires Good(d) && Harmless(CloseBlock(ref, end)) && Mutate(d, CloseBlock(ref, end)).Changed?
    ensures Good(Mutate(d, CloseBlock(ref, end)).document)
  {
    var name := EntryName(ref);
    assert name in FitBlocks(d.blocks);
    NextDigits(d.revision);
    StateWords();
    WordFits("closed", OPTIONAL_KEYS);
    var b := d.blocks[name].(end := end, state := "closed");
    StampFits(b, Next(d.revision).value);
    PutBlock(d.blocks, name, b.(revision := Next(d.revision).value));
  }

  lemma TouchFits(t: map<string, Block>, at: string)
    requires t.Keys <= FitBlocks(t) && Fit(at, [Note, Auth, Revision])
    ensures Touched(t, at).Keys <= FitBlocks(Touched(t, at))
  {
    forall k | k in t ensures k in FitBlocks(Touched(t, at)) {
      assert k in FitBlocks(t);
    }
  }

  lemma InvalidateFits(t: map<string, Block>)
    requires t.Keys <= FitBlocks(t)
    ensures Invalidated(t).Keys <= FitBlocks(Invalidated(t))
  {
    InvalidWord();
    WordFits("unterminated", OPTIONAL_KEYS);
    forall k | k in t ensures k in FitBlocks(Invalidated(t)) {
      assert k in FitBlocks(t);
    }
  }

  lemma CleanPlain(v: string)
    requires '"' !in v && '\n' !in v && Trimmed(v)
    ensures Clean(v) == v
  {
    ReplaceAbsent(v, '"', "'");
    ReplaceAbsent(v, '\n', " ");
    TrimmedStrip(v);
  }

  lemma EndMimicsNone(v: string, keys: seq<Key>)
    requires PlainText(v) && v != "" && v[|v| - 1] !in ":="
    ensures Fit(v, keys)
  {}

  lemma SummaryFits()
    ensures Fit(Clean(SUMMARY), [Auth, LastActivity, Revision])
  {
    SummaryWords("summarized on ", "user's order");
    CleanPlain(SUMMARY);
    EndMimicsNone(SUMMARY, [Auth, LastActivity, Revision]);
  }

  lemma SummaryWords(a: string, b: string)
    requires a == "summarized on " && b == "user's order"
    ensures PlainText(a + b) && '\n' !in a + b && Trimmed(a + b) && (a + b)[|a + b| - 1] == 'r'
  {
    assert PlainText(a) && '\n' !in a;
    assert PlainText(b) && '\n' !in b;
  }

  lemma PurgeFits(t: map<string, Block>, names: seq<string>)
    requires t.Keys <= FitBlocks(t)
    ensures (t - SetOf(names)).Keys <= FitBlocks(t - SetOf(names))
    ensures Archived(t, names).Keys <= FitBlocks(Archived(t, names))
    ensures Summarized(t, names).Keys <= FitBlocks(Summarized(t, names))
  {
    PurgeWords();
    WordFits("archived", OPTIONAL_KEYS);
    WordFits("suppressed", OPTIONAL_KEYS);
    SummaryFits();
    forall k | k in t
      ensures k in FitBlocks(Archived(t, names)) && k in FitBlocks(Summarized(t, names))
      ensures k in t - SetOf(names) ==> k in FitBlocks(t - SetOf(names))
    {
      assert k in FitBlocks(t);
    }
  }

  lemma RecordFits(d: Document, key: string, receipt: Receipt, markKey: string, mark: Mark)
    requires Good(d) && Harmless(RecordReceipt(key, receipt, markKey, mark))
    ensures Good(Mutate(d, RecordReceipt(key, receipt, markKey, mark)).document)
  {
    var r, m := d.receipts[key := receipt], d.projections[markKey := mark];
    forall k | k in r ensures k in FitReceipts(r) {
      assert k != key ==> k in FitReceipts(d.receipts);
    }
    forall k | k in m ensures k in FitMarks(m) {
      assert k != markKey ==> k in FitMarks(d.projections);
    }
  }

  lemma BlocksReplaced(d: Document, t: map<string, Block>)
    requires Good(d) && t.Keys <= FitBlocks(t)
    ensures Good(d.(blocks := t))
  {
    assert IdentityFields(d.(blocks := t)) == IdentityFields(d);
  }

  lemma TouchKeeps(d: Document, at: string)
    requires Good(d) && Harmless(Touch(at)) && Mutate(d, Touch(at)).Changed?
    ensures Good(Mutate(d, Touch(at)).document)
  {
    TouchFits(d.blocks, at);
    BlocksReplaced(d, Touched(d.blocks, at));
  }

  lemma InvalidateKeeps(d: Document)
    requires Good(d) && Mutate(d, Invalidate).Changed?
    ensures Good(Mutate(d, Invalidate).document)
  {
    InvalidateFits(d.blocks);
    BlocksReplaced(d, Invalidated(d.blocks));
  }

  lemma PurgeKeeps(d: Document, mode: PurgeMode, present: seq<string>)
    requires Good(d) && Purged(d, mode, present).Changed?
    ensures Good(Purged(d, mode, present).document)
  {
    PurgeFits(d.blocks, present);
    BlocksReplaced(d, d.blocks - SetOf(present));
    BlocksReplaced(d, Archived(d.blocks, present));
    BlocksReplaced(d, Summarized(d.blocks, present));
  }

  /** Harmless calls keep good documents good. */
  lemma HarmlessKeeps(d: Document, m: Mutation)
    requires Good(d) && Harmless(m) && Mutate(d, m).Changed?
    ensures Good(Mutate(d, m).document)
  {
    match m {
      case OpenBlock(ref, start) => OpenFits(d, ref, start);
      case CloseBlock(ref, end) => CloseFits(d, ref, end);
      case Touch(at) => TouchKeeps(d, at);
      case Invalidate => InvalidateKeeps(d);
      case Review(id, c, reason, auth) => ReviewFits(d, id, c, reason, auth);
      case Purge(mode, present) => PurgeKeeps(d, mode, present);
      case RecordReceipt(key, receipt, markKey, mark) => RecordFits(d, key, receipt, markKey, mark);
    }
  }

  // ------------------------------------------------------------------------- one update

  ghost predicate Reads(file: Option<string>, d: Document) { file.Some? && Parsed(file.value) == Some(d) }

  /** A call that finds `d` changes it and gives it the next revision. */
  predicate Writes(d: Document, m: Mutation) { Mutate(d, m).Changed? && Next(d.revision).Some? }

  /** What is read after that call. */
  function After(d: Document, m: Mutation): Document
    requires Writes(d, m)
  { Normal(Mutate(d, m).document.(revision := Next(d.revision).value)) }

  lemma MutateKeepsRevision(d: Document, m: Mutation)
    requires Mutate(d, m).Changed?
    ensures Mutate(d, m).document.revision == d.revision && Mutate(d, m).document.ses == d.ses
  {}

  /**
   * On a good document a harmless call either leaves the file as it was, or writes the next
   * revision, and the document it meant to write is what the next call reads.
   */
  lemma UpdateReads(file: Option<string>, d: Document, ses: string, expected: Option<string>, m: Mutation, fails: bool)
    requires Reads(file, d) && Good(d) && Harmless(m)
    ensures var (after, r) := DoUpdate(file, ses, expected, m, fails);
      && (!r.Applied? ==> after == file)
      && (r.Applied? ==>
        && Writes(d, m) && Reads(after, After(d, m)) && Good(After(d, m)) && After(d, m).revision == Next(d.revision).value
        && (expected.None? || expected.value == d.revision))
  {
    if DoUpdate(file, ses, expected, m, fails).1.Applied? {
      MutateKeepsRevision(d, m);
      AfterReads(d, m);
    }
  }

  lemma AfterReads(d: Document, m: Mutation)
    requires Good(d) && Harmless(m) && Writes(d, m)
    ensures Parsed(Serialized(Mutate(d, m).document.(revision := Next(d.revision).value))) == Some(After(d, m))
    ensures Good(After(d, m)) && After(d, m).revision == Next(d.revision).value
  {
    var e := Mutate(d, m).document;
    HarmlessKeeps(d, m);
    NextDigits(d.revision);
    NextIsGood(e, Next(d.revision).value);
    GoodReads(e.(revision := Next(d.revision).value));
    NormalIsGood(e.(revision := Next(d.revision).value));
  }

  function BlockAt(d: Document, k: string): Option<Block> { if k in d.blocks then Some(d.blocks[k]) else None }

  /** A block keeps its times and stamp, or is stamped with the coming revision. */
  predicate BlockStep(b: Option<Block>, c: Block, next: string) {
    || c.revision == next
    || (b.Some? && c.start == b.value.start && c.end == b.value.end && c.revision == b.value.revision)
  }

  lemma MutateSteps(d: Document, m: Mutation, k: string)
    requires Writes(d, m) && k in Mutate(d, m).document.blocks
    ensures BlockStep(BlockAt(d, k), Mutate(d, m).document.blocks[k], Next(d.revision).value)
  {}

  lemma AfterSteps(d: Document, m: Mutation, k: string)
    requires Writes(d, m) && k in After(d, m).blocks
    ensures BlockStep(BlockAt(d, k), After(d, m).blocks[k], Next(d.revision).value)
    ensures After(d, m).blocks[k].revision != ""
  {
    MutateSteps(d, m, k);
    NextDigits(d.revision);
  }
}
