/** Reasons, authorizations and destinations that end like the start of a field. */
module TimelogMimics {
  import opened Text
  import opened TimelogModel
  import opened TimelogFields
  import opened TimelogText
  import opened TimelogRoundTrip
  import opened TimelogStable
  import opened TimelogStore
  import opened TimelogSafe
  import opened TimelogRuns
  import opened TimelogLimits

  predicate NoComma(v: string) { v == "" || v[0] != ',' }

  /** A field behind the first value that mimics its key is hidden, unless its value happens to be what is found. */
  lemma HiddenAt(fields: seq<Field>, n: nat, k: Key)
    requires n + 1 < |fields| && Quiet(fields, n, k) && fields[n].key != k && Mimics(fields[n].value, Name(k))
    requires NoComma(Lookup(fields, k))
    ensures !Unhidden(fields, k)
  {
    FoundPast(fields, n, k);
    FoundIffUnhidden(fields, k);
    assert fields[n..][0] == fields[n] && fields[n..][1] == fields[n + 1];
  }

  // -------------------------------------------------------------------------- corrections

  function Times(b: Block): seq<Field> { [Field(Start, b.start), Field(End, b.end), Field(State, b.state)] }

  function AfterAuth(b: Block, revision: string): seq<Field> {
    Optional(LastActivity, b.lastActivity, b.lastActivity) + LastField(b, revision)
  }

  /** The fields of a block with a note and an authorization. */
  lemma CorrectedFields(b: Block, revision: string)
    requires b.note != "" && b.auth != ""
    ensures BlockFields(b, revision)
         == Times(b) + ([Field(Note, Clean(b.note))] + ([Field(Auth, Clean(b.auth))] + AfterAuth(b, revision)))
  {}

  predicate FitTimes(b: Block) {
    Fit(b.start, [End, State] + OPTIONAL_KEYS) && Fit(b.end, [State] + OPTIONAL_KEYS) && Fit(b.state, OPTIONAL_KEYS)
  }

  /** A stamped block of fit times with a note and an authorization, all plain. */
  predicate PlainCorrection(b: Block) {
    && b.note != "" && b.auth != "" && FitTimes(b) && PlainText(b.lastActivity)
    && PlainText(Clean(b.note)) && PlainText(Clean(b.auth)) && AllDigits(b.revision)
  }

  /** What `review` makes of a fit block with plain texts. */
  predicate Correction(b: Block) { PlainCorrection(b) && Fit(b.lastActivity, [Note, Auth, Revision]) }

  /** The reason and the authorization do not end like the start of a field printed after them. */
  predicate ClearTexts(b: Block) {
    && (forall k | k in [Auth, LastActivity, Revision] :: !Mimics(Clean(b.note), Name(k)))
    && (forall k | k in [LastActivity, Revision] :: !Mimics(Clean(b.auth), Name(k)))
  }

  lemma CorrectionPlain(b: Block, revision: string)
    requires PlainCorrection(b) && PlainText(revision)
    ensures Plain(BlockFields(b, revision))
  {
    DigitsPlain(b.revision);
    OptionPlain(LastActivity, b.lastActivity, b.lastActivity, LastField(b, revision));
    CorrectedFields(b, revision);
    var r1 := [Field(Auth, Clean(b.auth))] + AfterAuth(b, revision);
    PlainConcat([Field(Auth, Clean(b.auth))], AfterAuth(b, revision));
    PlainConcat([Field(Note, Clean(b.note))], r1);
    PlainMembers(Times(b));
    PlainConcat(Times(b), [Field(Note, Clean(b.note))] + r1);
  }

  lemma ClearIsLegible(b: Block, revision: string)
    requires Correction(b) && ClearTexts(b)
    ensures Legible(BlockFields(b, revision), BLOCK_KEYS)
  {
    var r0 := AfterAuth(b, revision);
    var r1 := [Field(Auth, Clean(b.auth))] + r0;
    var r2 := [Field(Note, Clean(b.note))] + r1;
    OptionLegible(LastActivity, b.lastActivity, b.lastActivity, LastField(b, revision), OPTIONAL_KEYS);
    ConsLegible(Field(Auth, Clean(b.auth)), r0, [Auth, LastActivity, Revision]);
    ConsLegible(Field(Note, Clean(b.note)), r1, OPTIONAL_KEYS);
    CorrectedFields(b, revision);
    TimesLegible(b, r2);
  }

  lemma TimesLegible(b: Block, rest: seq<Field>)
    requires FitTimes(b) && Legible(rest, OPTIONAL_KEYS)
    ensures Legible(Times(b) + rest, BLOCK_KEYS)
  {
    var r2 := [Field(State, b.state)] + rest;
    var r1 := [Field(End, b.end)] + r2;
    ConsLegible(Field(State, b.state), rest, [State] + OPTIONAL_KEYS);
    ConsLegible(Field(End, b.end), r2, [End, State] + OPTIONAL_KEYS);
    ConsLegible(Field(Start, b.start), r1, [Start, End, State] + OPTIONAL_KEYS);
    assert Times(b) + rest == [Field(Start, b.start)] + r1;
  }

  /** Before the note nothing mimics the key of a field printed after it. */
  lemma TimesQuiet(b: Block, revision: string, k: Key)
    requires PlainCorrection(b) && k in [Auth, LastActivity, Revision]
    ensures |BlockFields(b, revision)| > 5 && Quiet(BlockFields(b, revision), 3, k)
    ensures BlockFields(b, revision)[3] == Field(Note, Clean(b.note))
    ensures BlockFields(b, revision)[4] == Field(Auth, Clean(b.auth))
  {
    CorrectedFields(b, revision);
    assert k in OPTIONAL_KEYS;
    var f := BlockFields(b, revision);
    assert f[0] == Field(Start, b.start) && f[1] == Field(End, b.end) && f[2] == Field(State, b.state);
  }

  lemma MimicIsIllegible(b: Block, revision: string, k: Key)
    requires Correction(b) && NoComma(Clean(b.auth)) && NoComma(b.lastActivity)
    requires k in [Auth, LastActivity, Revision]
    requires Mimics(Clean(b.note), Name(k)) || (k != Auth && Mimics(Clean(b.auth), Name(k)))
    ensures !Unhidden(BlockFields(b, revision), k) && k in BLOCK_KEYS
  {
    var f := BlockFields(b, revision);
    TimesQuiet(b, revision, k);
    BlockLookups(b, revision);
    assert b.revision[0] in b.revision;
    if Mimics(Clean(b.note), Name(k)) {
      HiddenAt(f, 3, k);
    } else {
      assert Quiet(f, 4, k);
      HiddenAt(f, 4, k);
    }
  }

  /**
   * A corrected block is read back as it was written if and only if neither the reason nor
   * the authorization ends like the start of a field printed after it.
   */
  lemma CorrectionReads(b: Block, revision: string)
    requires Correction(b) && NoComma(Clean(b.auth)) && NoComma(b.lastActivity) && PlainText(revision)
    ensures ReadBlock(b, revision) == NormalBlock(b, revision) <==> ClearTexts(b)
  {
    CorrectionPlain(b, revision);
    BlockReads(b, revision);
    ClearDecides(b, revision);
  }

  lemma UnclearIsIllegible(b: Block, revision: string)
    requires Correction(b) && NoComma(Clean(b.auth)) && NoComma(b.lastActivity) && !ClearTexts(b)
    ensures !Legible(BlockFields(b, revision), BLOCK_KEYS)
  {
    var k :| k in [Auth, LastActivity, Revision]
          && (Mimics(Clean(b.note), Name(k)) || (k != Auth && Mimics(Clean(b.auth), Name(k))));
    MimicIsIllegible(b, revision, k);
  }

  // ------------------------------------------------------------------- uncleaned quotes

  lemma {:induction false} UpToQuoteCut(v: string, rest: string)
    requires '"' in v
    ensures UpToQuote(v + rest).Some? && |UpToQuote(v + rest).value| < |v|
  {
    assert (v + rest)[0] == v[0] && (v + rest)[1..] == v[1..] + rest;
    if v[0] != '"' {
      UpToQuoteCut(v[1..], rest);
    }
  }

  /** A first value with a quote is read only up to that quote. */
  lemma QuoteCuts(f: Field, more: seq<Field>)
    requires '"' in f.value
    ensures |FieldOf(Body([f] + more), Name(f.key))| < |f.value|
  {
    var fields, rest := [f] + more, More(more);
    assert fields[0] == f && fields[1..] == more;
    var s := Name(f.key) + (":" + ("\"" + (f.value + ("\"" + rest))));
    CellParts(f, rest);
    KeyPrefix(Name(f.key), f.value + ("\"" + rest), s);
    UpToQuoteCut(f.value, "\"" + rest);
  }

  lemma KeyPrefix(key: string, tail: string, s: string)
    requires s == key + (":" + ("\"" + tail)) && key != ""
    ensures MatchKey(s, key) == UpToQuote(tail)
  {
    assert s[..|key|] == key && s[|key|] == ':' && s[|key| + 1] == '"' && s[|key| + 2..] == tail;
  }

  /** `review` does not clean the start it is given: one with a quote is never read back. */
  lemma QuotedStartIsCut(b: Block, revision: string)
    requires '"' in b.start
    ensures |ReadBlock(b, revision).start| < |b.start| && ReadBlock(b, revision) != NormalBlock(b, revision)
  {
    var f := BlockFields(b, revision);
    assert f == [Field(Start, b.start)] + f[1..];
    QuoteCuts(Field(Start, b.start), f[1..]);
  }

  // ---------------------------------------------------------------------- destinations

  /** A receipt whose operation, status and state are single words. */
  predicate WordReceipt(r: Receipt) {
    && Clean(r.operation) == r.operation && Word(r.operation) && Word(r.status) && Word(r.state) && r.state != ""
    && PlainText(Clean(r.destination)) && PlainText(Clean(r.remote))
  }

  lemma WordReceiptFields(r: Receipt, revision: string, f: seq<Field>)
    requires f == ReceiptFields(r, revision)
    ensures |f| == 6 && f[0] == Field(Operation, Clean(r.operation)) && f[1] == Field(Status, r.status)
    ensures f[2] == Field(Destination, Clean(r.destination)) && f[3] == Field(State, r.state)
    ensures f[4] == Field(Remote, Clean(r.remote)) && f[5] == Field(Revision, revision)
  {}

  lemma WordIsPlain(v: string)
    requires Word(v)
    ensures PlainText(v) && NoComma(v)
  {
    if v != "" {
      assert v[0] in v;
    }
  }

  lemma WordReceiptPlain(r: Receipt, revision: string, f: seq<Field>)
    requires WordReceipt(r) && PlainText(revision) && f == ReceiptFields(r, revision)
    ensures Plain(f)
  {
    WordReceiptFields(r, revision, f);
    WordIsPlain(r.operation);
    WordIsPlain(r.status);
    WordIsPlain(r.state);
    SixPlain(f);
  }

  lemma SixPlain(f: seq<Field>)
    requires |f| == 6 && PlainText(f[0].value) && PlainText(f[1].value) && PlainText(f[2].value)
    requires PlainText(f[3].value) && PlainText(f[4].value) && PlainText(f[5].value)
    ensures Plain(f)
  {
    PlainMembers(f);
  }

  /** Nothing before the destination mimics a key. */
  lemma WordReceiptQuiet(r: Receipt, revision: string, f: seq<Field>, k: Key)
    requires WordReceipt(r) && f == ReceiptFields(r, revision) && (k == State || k == Remote)
    ensures |f| == 6 && Quiet(f, 2, k) && f[2] == Field(Destination, Clean(r.destination)) && f[3] == Field(State, r.state)
    ensures !Mimics(r.state, Name(Remote))
  {
    WordReceiptFields(r, revision, f);
    WordMimicsNone(r.operation, Name(k));
    WordMimicsNone(r.status, Name(k));
    WordMimicsNone(r.state, Name(Remote));
  }

  lemma WordReceiptLegible(r: Receipt, revision: string, f: seq<Field>)
    requires WordReceipt(r) && f == ReceiptFields(r, revision)
    requires !Mimics(Clean(r.destination), Name(State)) && !Mimics(Clean(r.destination), Name(Remote))
    ensures Legible(f, RECEIPT_KEYS)
  {
    WordReceiptFields(r, revision, f);
    WordReceiptQuiet(r, revision, f, State);
    WordReceiptQuiet(r, revision, f, Remote);
    WordMimicsNone(r.operation, Name(Status));
    WordMimicsNone(r.operation, Name(Destination));
    WordMimicsNone(r.status, Name(Destination));
    FiveUnhidden(f);
  }

  lemma FiveUnhidden(f: seq<Field>)
    requires |f| == 6 && f[0].key == Operation && f[1].key == Status && f[2].key == Destination
    requires f[3].key == State && f[4].key == Remote
    requires Quiet(f, 1, Status) && Quiet(f, 2, Destination) && Quiet(f, 3, State) && Quiet(f, 4, Remote)
    ensures Legible(f, RECEIPT_KEYS)
  {
    UnhiddenAt(f, 0, Operation);
    UnhiddenAt(f, 1, Status);
    UnhiddenAt(f, 2, Destination);
    UnhiddenAt(f, 3, State);
    UnhiddenAt(f, 4, Remote);
    ReceiptKeysAre(f);
  }

  lemma MimicsHideReceipt(r: Receipt, revision: string, f: seq<Field>, k: Key)
    requires WordReceipt(r) && f == ReceiptFields(r, revision) && NoComma(Clean(r.remote))
    requires (k == State || k == Remote) && Mimics(Clean(r.destination), Name(k))
    ensures !Legible(f, RECEIPT_KEYS)
  {
    WordReceiptQuiet(r, revision, f, k);
    WordIsPlain(r.state);
    ReceiptLookups(r, revision);
    HiddenAt(f, 2, k);
    assert k in RECEIPT_KEYS;
  }

  /**
   * A receipt is read back as it was written if and only if its destination does not end
   * like the start of the state or the remote field.
   */
  lemma DestinationReads(r: Receipt, revision: string)
    requires WordReceipt(r) && PlainText(revision) && NoComma(Clean(r.remote))
    ensures ReadReceipt(r, revision) == NormalReceipt(r) <==>
      !Mimics(Clean(r.destination), Name(State)) && !Mimics(Clean(r.destination), Name(Remote))
  {
    var f := ReceiptFields(r, revision);
    WordReceiptPlain(r, revision, f);
    ReceiptReads(r, revision);
    if Mimics(Clean(r.destination), Name(State)) {
      MimicsHideReceipt(r, revision, f, State);
    } else if Mimics(Clean(r.destination), Name(Remote)) {
      MimicsHideReceipt(r, revision, f, Remote);
    } else {
      WordReceiptLegible(r, revision, f);
    }
  }

  /** A destination that mimics the remote field: the state is kept, and the remote read is `,state:`. */
  lemma MimickedRemote(r: Receipt, revision: string)
    requires WordReceipt(r) && PlainText(revision) && Mimics(Clean(r.destination), Name(Remote))
    requires !Mimics(Clean(r.destination), Name(State))
    ensures ReadReceipt(r, revision).state == r.state && ReadReceipt(r, revision).remote == ",state:"
  {
    var f := ReceiptFields(r, revision);
    WordReceiptPlain(r, revision, f);
    WordReceiptFields(r, revision, f);
    WordReceiptQuiet(r, revision, f, State);
    WordReceiptQuiet(r, revision, f, Remote);
    HiddenRemote(f);
  }

  lemma HiddenRemote(f: seq<Field>)
    requires |f| == 6 && Plain(f) && f[2].key == Destination && f[3].key == State
    requires Quiet(f, 3, State) && Quiet(f, 2, Remote) && Mimics(f[2].value, Name(Remote))
    ensures At(Body(f), State) == f[3].value && At(Body(f), Remote) == ",state:"
  {
    PlainQuoteFree(f);
    BetweenTexts(f[3]);
    QuietReaches(f, 3, State);
    MimicHides(f, 2, Remote);
  }

  lemma PlainQuoteFree(f: seq<Field>)
    requires Plain(f)
    ensures QuoteFree(f)
  {
    PlainMembers(f);
  }

  lemma BetweenTexts(f: Field)
    ensures f.key == State ==> Between(f) == ",state:"
    ensures f.key == Auth ==> Between(f) == ",auth:"
  {
    assert "," + "state" + ":" == ",state:" && "," + "auth" + ":" == ",auth:";
  }

  // ------------------------------------------------- a reason that mimics the revision field

  /** The correction of a start, with the texts given. */
  function Restart(id: string, start: string, reason: string, auth: string): Mutation {
    Review(id, Changes(Some(start), None, None), reason, auth)
  }

  /** The document that such a correction writes. */
  function Restarted(d: Document, id: string, start: string, reason: string, auth: string, next: string): Document
    requires id in d.blocks
  { Reviewed(d, id, Changes(Some(start), None, None), reason, auth, next).(revision := next) }

  /** Plain texts of which the reason ends like the start of the revision field. */
  predicate MimicTexts(reason: string, auth: string) {
    && reason != "" && auth != "" && PlainText(Clean(reason)) && PlainText(Clean(auth))
    && Mimics(Clean(reason), Name(Revision))
  }

  /** The stamp of a block with such a reason is read as the text before the authorization. */
  lemma MimickedStamp(b: Block, revision: string)
    requires PlainCorrection(b) && PlainText(revision) && Mimics(Clean(b.note), Name(Revision))
    ensures ReadBlock(b, revision).revision == ",auth:" && ReadBlock(b, revision).start == b.start
    ensures ReadBlock(b, revision).end == b.end && ReadBlock(b, revision).state == OrElse(b.state, "open")
  {
    var f := BlockFields(b, revision);
    CorrectionPlain(b, revision);
    PlainQuoteFree(f);
    TimesQuiet(b, revision, Revision);
    BetweenTexts(f[4]);
    MimicHides(f, 3, Revision);
    TimesRead(b, f, revision);
  }

  lemma TimesRead(b: Block, f: seq<Field>, revision: string)
    requires FitTimes(b) && f == BlockFields(b, revision) && QuoteFree(f)
    ensures At(Body(f), Start) == b.start && At(Body(f), End) == b.end && At(Body(f), State) == b.state
  {
    TimesFirst(b, f, revision);
    ThreeRead(b, f);
  }

  lemma TimesFirst(b: Block, f: seq<Field>, revision: string)
    requires f == BlockFields(b, revision)
    ensures |f| > 3 && f[0] == Field(Start, b.start) && f[1] == Field(End, b.end) && f[2] == Field(State, b.state)
  {}

  lemma ThreeRead(b: Block, f: seq<Field>)
    requires FitTimes(b) && QuoteFree(f) && |f| > 3
    requires f[0] == Field(Start, b.start) && f[1] == Field(End, b.end) && f[2] == Field(State, b.state)
    ensures At(Body(f), Start) == b.start && At(Body(f), End) == b.end && At(Body(f), State) == b.state
  {
    QuietReaches(f, 0, Start);
    QuietReaches(f, 1, End);
    QuietReaches(f, 2, State);
  }

  // ------------------------------------------------------ plain files are read as plain documents

  lemma {:induction false} UpToQuotePlain(s: string)
    ensures UpToQuote(s).Some? ==> forall c | c in UpToQuote(s).value :: c in s && c != '"'
  {
    if s != "" && s[0] != '"' {
      UpToQuotePlain(s[1..]);
    }
  }

  lemma MatchPlain(s: string, key: string)
    ensures MatchKey(s, key).Some? ==> forall c | c in MatchKey(s, key).value :: c in s && c != '"'
  {
    if MatchKey(s, key).Some? {
      UpToQuotePlain(s[|key| + 2..]);
    }
  }

  lemma {:induction false} SearchPlain(s: string, key: string, atStart: bool)
    ensures Search(s, key, atStart).Some? ==> forall c | c in Search(s, key, atStart).value :: c in s && c != '"'
    decreases |s|
  {
    MatchPlain(s, key);
    if s != "" {
      MatchPlain(s[1..], key);
      SearchPlain(s[1..], key, false);
    }
  }

  lemma FieldPlain(attrs: string, key: Key)
    requires SingleLine(attrs)
    ensures PlainText(At(attrs, key))
  {
    SearchPlain(attrs, Name(key), true);
  }

  lemma CleanKeepsPlain(v: string)
    requires PlainText(v)
    ensures PlainText(Clean(v))
  {
    ReplaceAbsent(v, '"', "'");
    ReplaceAbsent(v, '\n', " ");
    LStripEnds(v);
    RStripEnds(LStrip(v));
  }

  /** The values of a block are plain as printed. */
  predicate PlainBlock(b: Block) {
    && PlainText(b.start) && PlainText(b.end) && PlainText(b.state) && PlainText(Clean(b.note)) && PlainText(Clean(b.auth))
    && PlainText(b.lastActivity) && PlainText(b.revision)
  }

  lemma PlainBlockFields(b: Block, revision: string)
    requires PlainBlock(b) && PlainText(revision)
    ensures Plain(BlockFields(b, revision))
  {
    var last := LastField(b, revision);
    var r2 := AfterAuth(b, revision);
    var r1 := Optional(Auth, b.auth, Clean(b.auth)) + r2;
    OptionPlain(LastActivity, b.lastActivity, b.lastActivity, last);
    OptionPlain(Auth, b.auth, Clean(b.auth), r2);
    OptionPlain(Note, b.note, Clean(b.note), r1);
    PlainMembers(Times(b));
    PlainConcat(Times(b), Options(b, revision));
    assert BlockFields(b, revision) == Times(b) + Options(b, revision);
  }

  lemma OptionIsPlain(key: Key, value: string, shown: string, rest: seq<Field>)
    requires Plain(Optional(key, value, shown) + rest) && PlainText("")
    ensures Plain(rest) && (value != "" ==> PlainText(shown))
  {
    PlainConcat(Optional(key, value, shown), rest);
  }

  lemma BlockIsPlain(b: Block, revision: string)
    requires Plain(BlockFields(b, revision))
    ensures PlainBlock(b)
  {
    CleanEmpty();
    var r2 := AfterAuth(b, revision);
    assert BlockFields(b, revision) == Times(b) + Options(b, revision);
    PlainConcat(Times(b), Options(b, revision));
    PlainMembers(Times(b));
    assert Field(Start, b.start) in Times(b) && Field(End, b.end) in Times(b) && Field(State, b.state) in Times(b);
    OptionIsPlain(Note, b.note, Clean(b.note), Optional(Auth, b.auth, Clean(b.auth)) + r2);
    OptionIsPlain(Auth, b.auth, Clean(b.auth), r2);
    OptionIsPlain(LastActivity, b.lastActivity, b.lastActivity, LastField(b, revision));
  }

  /** Printing again with other plain values keeps fields plain. */
  lemma SwapPlain(f: seq<Field>, g: seq<Field>)
    requires Plain(f) && |g| == |f| && forall i | 0 <= i < |f| :: g[i].value == f[i].value || PlainText(g[i].value)
    ensures Plain(g)
  {
    PlainMembers(f);
    forall x | x in g ensures PlainText(x.value) {
      var i :| 0 <= i < |g| && g[i] == x;
      assert f[i] in f;
    }
    PlainMembers(g);
  }

  lemma ReadBlockPlain(b: Block, revision: string)
    requires Plain(BlockFields(b, revision))
    ensures PlainBlock(ReadBlock(b, revision))
  {
    var attrs := Body(BlockFields(b, revision));
    BodySingleLine(BlockFields(b, revision));
    forall k: Key ensures PlainText(At(attrs, k)) && PlainText(Clean(At(attrs, k))) {
      FieldPlain(attrs, k);
      CleanKeepsPlain(At(attrs, k));
    }
    StateWords();
  }

  lemma AtPlain(attrs: string, key: Key)
    requires SingleLine(attrs)
    ensures PlainText(At(attrs, key)) && PlainText(Clean(At(attrs, key)))
  {
    FieldPlain(attrs, key);
    CleanKeepsPlain(At(attrs, key));
  }

  lemma ReadReceiptPlain(r: Receipt, revision: string, next: string)
    requires Plain(ReceiptFields(r, revision)) && PlainText(next)
    ensures Plain(ReceiptFields(ReadReceipt(r, revision), next))
  {
    var attrs := Body(ReceiptFields(r, revision));
    BodySingleLine(ReceiptFields(r, revision));
    AtPlain(attrs, Operation);
    AtPlain(attrs, Status);
    AtPlain(attrs, Destination);
    AtPlain(attrs, State);
    AtPlain(attrs, Remote);
    StatusWords();
    ReceiptPlain(ReceiptFrom(attrs), next);
  }

  lemma ReceiptPlain(r: Receipt, revision: string)
    requires PlainText(Clean(r.operation)) && PlainText(r.status) && PlainText(Clean(r.destination)) && PlainText(r.state)
    requires PlainText(Clean(r.remote)) && PlainText(revision)
    ensures Plain(ReceiptFields(r, revision))
  {
    SixPlain(ReceiptFields(r, revision));
  }

  lemma ReadMarkPlain(m: Mark, revision: string, next: string)
    requires Plain(MarkFields(m, revision)) && PlainText(next)
    ensures Plain(MarkFields(ReadMark(m, revision), next))
  {
    var attrs := Body(MarkFields(m, revision));
    BodySingleLine(MarkFields(m, revision));
    forall k: Key ensures PlainText(At(attrs, k)) && PlainText(Clean(At(attrs, k))) {
      FieldPlain(attrs, k);
      CleanKeepsPlain(At(attrs, k));
    }
    StatusWords();
    MarkPlain(MarkFrom(attrs), next);
  }

  lemma MarkPlain(m: Mark, revision: string)
    requires PlainText(Clean(m.operation)) && PlainText(m.status) && PlainText(Clean(m.destination)) && PlainText(m.state)
    requires PlainText(Clean(m.remote)) && PlainText(Clean(m.blocks)) && PlainText(m.start) && PlainText(m.end)
    requires PlainText(m.minutes) && PlainText(Clean(m.agent)) && PlainText(m.projectedAt) && PlainText(revision)
    ensures Plain(MarkFields(m, revision))
  {
    var f := MarkFields(m, revision);
    TwelvePlain(f);
  }

  lemma TwelvePlain(f: seq<Field>)
    requires |f| == 12 && PlainText(f[0].value) && PlainText(f[1].value) && PlainText(f[2].value) && PlainText(f[3].value)
    requires PlainText(f[4].value) && PlainText(f[5].value) && PlainText(f[6].value) && PlainText(f[7].value)
    requires PlainText(f[8].value) && PlainText(f[9].value) && PlainText(f[10].value) && PlainText(f[11].value)
    ensures Plain(f)
  {
    PlainMembers(f);
  }

  // ------------------------------------------------------------------- correcting it twice

  /** Tables whose entries print plain at every plain revision. */
  ghost predicate PlainTables(d: Document) {
    && (forall k | k in d.blocks :: IsName(k) && PlainBlock(d.blocks[k]))
    && (forall k | k in d.receipts :: IsName(k) && Plain(ReceiptFields(d.receipts[k], "")))
    && (forall k | k in d.projections :: IsName(k) && Plain(MarkFields(d.projections[k], "")))
  }

  lemma StampedPlain(d: Document)
    requires PlainTables(d) && Plain(IdentityFields(d)) && PlainText(d.revision)
    ensures PlainDocument(d)
  {
    forall k | k in d.blocks ensures Plain(BlockFields(d.blocks[k], d.revision)) {
      PlainBlockFields(d.blocks[k], d.revision);
    }
    forall k | k in d.receipts ensures Plain(ReceiptFields(d.receipts[k], d.revision)) {
      SwapPlain(ReceiptFields(d.receipts[k], ""), ReceiptFields(d.receipts[k], d.revision));
    }
    forall k | k in d.projections ensures Plain(MarkFields(d.projections[k], d.revision)) {
      SwapPlain(MarkFields(d.projections[k], ""), MarkFields(d.projections[k], d.revision));
    }
  }

  lemma GoodTables(d: Document)
    requires PlainDocument(d)
    ensures PlainTables(d)
  {
    forall k | k in d.blocks ensures PlainBlock(d.blocks[k]) {
      BlockIsPlain(d.blocks[k], d.revision);
    }
    forall k | k in d.receipts ensures Plain(ReceiptFields(d.receipts[k], "")) {
      SwapPlain(ReceiptFields(d.receipts[k], d.revision), ReceiptFields(d.receipts[k], ""));
    }
    forall k | k in d.projections ensures Plain(MarkFields(d.projections[k], "")) {
      SwapPlain(MarkFields(d.projections[k], d.revision), MarkFields(d.projections[k], ""));
    }
  }

  lemma ReadTables(d: Document)
    requires PlainDocument(d)
    ensures PlainTables(AsRead(d))
  {
    forall k | k in d.blocks ensures PlainBlock(ReadBlock(d.blocks[k], d.revision)) {
      ReadBlockPlain(d.blocks[k], d.revision);
    }
    forall k | k in d.receipts ensures Plain(ReceiptFields(ReadReceipt(d.receipts[k], d.revision), "")) {
      ReadReceiptPlain(d.receipts[k], d.revision, "");
    }
    forall k | k in d.projections ensures Plain(MarkFields(ReadMark(d.projections[k], d.revision), "")) {
      ReadMarkPlain(d.projections[k], d.revision, "");
    }
  }

  lemma StaleReceiptPlain(r: Receipt)
    requires Plain(ReceiptFields(r, ""))
    ensures Plain(ReceiptFields(r.(status := "stale"), ""))
  {
    StaleWord();
    SwapPlain(ReceiptFields(r, ""), ReceiptFields(r.(status := "stale"), ""));
  }

  lemma StaleMarkPlain(m: Mark)
    requires Plain(MarkFields(m, ""))
    ensures Plain(MarkFields(m.(status := "stale"), ""))
  {
    StaleWord();
    SwapPlain(MarkFields(m, ""), MarkFields(m.(status := "stale"), ""));
  }

  lemma RestartedTables(d: Document, id: string, start: string, reason: string, auth: string, next: string)
    requires PlainTables(d) && id in d.blocks && PlainText(start) && PlainText(Clean(reason)) && PlainText(Clean(auth))
    requires PlainText(next)
    ensures PlainTables(Restarted(d, id, start, reason, auth, next))
  {
    var e := Restarted(d, id, start, reason, auth, next);
    forall k | k in e.receipts ensures IsName(k) && Plain(ReceiptFields(e.receipts[k], "")) {
      StaleReceiptPlain(d.receipts[k]);
    }
    forall k | k in e.projections ensures IsName(k) && Plain(MarkFields(e.projections[k], "")) {
      StaleMarkPlain(d.projections[k]);
    }
    assert PlainBlock(e.blocks[id]);
  }

  /** A numbered document with a fit identity, of the session. */
  predicate Identity(d: Document, session: string) {
    AllDigits(d.revision) && FitFields(IdentityFields(d), IDENTITY_KEYS) && d.ses == session
  }

  lemma IdentityKept(d: Document, e: Document, session: string)
    requires Identity(d, session) && AllDigits(e.revision) && e == d.(blocks := e.blocks, receipts := e.receipts,
               projections := e.projections, revision := e.revision)
    ensures Plain(IdentityFields(e)) && Identity(AsRead(e), session) && AsRead(e).revision == e.revision
  {
    DigitsPlain(e.revision);
    LastFits(IdentityFields(d), IdentityFields(e), IDENTITY_KEYS);
    IdentityLegible(e);
    IdentityReads(e);
    CleanTwice(d.project);
    assert IdentityFields(AsRead(e)) == IdentityFields(e);
  }

  /** What the next read of a file finds after such a correction. */
  lemma RestartReads(
      d: Document, session: string, id: string, start: string, reason: string, auth: string, next: string)
      returns (e: Document)
    requires Identity(d, session) && PlainTables(d) && AllDigits(next) && id in d.blocks && FitTimes(d.blocks[id])
    requires Fit(start, [End, State] + OPTIONAL_KEYS) && MimicTexts(reason, auth)
    ensures Parsed(Serialized(Restarted(d, id, start, reason, auth, next))) == Some(e)
    ensures Identity(e, session) && PlainTables(e) && id in e.blocks && FitTimes(e.blocks[id])
    ensures e.blocks[id].revision == ",auth:" && e.blocks[id].start == start
  {
    var e' := Restarted(d, id, start, reason, auth, next);
    DigitsPlain(next);
    IdentityKept(d, e', session);
    RestartedPlain(d, id, start, reason, auth, next, e');
    RestartedBlock(d.blocks[id], start, reason, auth, next, e'.blocks[id]);
    e := AsRead(e');
  }

  lemma RestartedPlain(
      d: Document, id: string, start: string, reason: string, auth: string, next: string, e: Document)
    requires PlainTables(d) && id in d.blocks && PlainText(start) && PlainText(Clean(reason)) && PlainText(Clean(auth))
    requires PlainText(next) && e == Restarted(d, id, start, reason, auth, next) && Plain(IdentityFields(e))
    ensures Parsed(Serialized(e)) == Some(AsRead(e)) && PlainTables(AsRead(e))
  {
    RestartedTables(d, id, start, reason, auth, next);
    StampedPlain(e);
    ReadsAs(e);
    ReadTables(e);
  }

  lemma RestartedBlock(b: Block, start: string, reason: string, auth: string, next: string, c: Block)
    requires PlainBlock(b) && FitTimes(b) && Fit(start, [End, State] + OPTIONAL_KEYS) && MimicTexts(reason, auth)
    requires AllDigits(next) && c == b.(start := start, note := reason, auth := auth, revision := next)
    ensures ReadBlock(c, next).revision == ",auth:" && ReadBlock(c, next).start == start && FitTimes(ReadBlock(c, next))
  {
    DigitsPlain(next);
    MimickedStamp(c, next);
    StateWords();
    WordFits("open", OPTIONAL_KEYS);
  }

  lemma RestartStep(
      w: World, d: Document, session: string, id: string, start: string, reason: string, auth: string)
      returns (w': World, e: Document)
    requires Reads(w.file, d) && Identity(d, session) && PlainTables(d) && id in d.blocks && FitTimes(d.blocks[id])
    requires Fit(start, [End, State] + OPTIONAL_KEYS) && start != d.blocks[id].start && MimicTexts(reason, auth)
    ensures w' == Step(w, session, Do(session, Restart(id, start, reason, auth)))
    ensures Reads(w'.file, e) && Identity(e, session) && PlainTables(e) && id in e.blocks && FitTimes(e.blocks[id])
    ensures e.blocks[id].revision == ",auth:" && e.blocks[id].start == start
  {
    var m := Restart(id, start, reason, auth);
    NextCounts(d.revision);
    var next := Next(d.revision).value;
    RestartMutates(d, id, start, reason, auth, next);
    w' := Step(w, session, Do(session, m));
    DoApplies(w.file, d, session, m);
    e := RestartReads(d, session, id, start, reason, auth, next);
  }

  lemma RestartMutates(d: Document, id: string, start: string, reason: string, auth: string, next: string)
    requires id in d.blocks && start != d.blocks[id].start && Next(d.revision) == Some(next)
    ensures var m := Restart(id, start, reason, auth);
      && Writes(d, m) && Mutate(d, m).document.revision == d.revision
      && Mutate(d, m).document.(revision := next) == Restarted(d, id, start, reason, auth, next)
  {}

  /**
   * Why the condition on reasons is needed: on every good file, two corrections of one block
   * with the same mimicking reason leave the same stamp on two different starts.
   */
  lemma RepeatedReviewRepeatsStamp(
      w: World, d: Document, session: string, id: string, reason: string, auth: string, first: string, second: string)
    requires Reads(w.file, d) && Good(d) && d.ses == session && id in d.blocks && MimicTexts(reason, auth)
    requires Fit(first, [End, State] + OPTIONAL_KEYS) && Fit(second, [End, State] + OPTIONAL_KEYS)
    requires first != d.blocks[id].start && second != first
    ensures var w1 := Step(w, session, Do(session, Restart(id, first, reason, auth)));
      var w2 := Step(w1, session, Do(session, Restart(id, second, reason, auth)));
      && Carries(w1, id, ",auth:") && Carries(w2, id, ",auth:")
      && Doc(w1).blocks[id].start == first && Doc(w2).blocks[id].start == second
  {
    GoodReads(d);
    GoodTables(d);
    assert id in FitBlocks(d.blocks);
    var w1, d1 := RestartStep(w, d, session, id, first, reason, auth);
    var w2, d2 := RestartStep(w1, d1, session, id, second, reason, auth);
  }

  // ---------------------------------------------------------------- one correction of a file

  lemma OthersLegible(t: map<string, Block>, id: string, b: Block, revision: string)
    requires t.Keys <= FitBlocks(t) && id in t
    ensures t[id := b].Keys <= LegibleBlocks(t[id := b], revision) <==> Legible(BlockFields(b, revision), BLOCK_KEYS)
  {
    var u := t[id := b];
    forall k | k in u && k != id ensures Legible(BlockFields(u[k], revision), BLOCK_KEYS) {
      assert k in FitBlocks(t);
      FitBlockLegible(t[k], revision);
    }
    assert u[id] == b;
  }

  lemma OthersPlain(t: map<string, Block>, id: string, b: Block, revision: string)
    requires t.Keys <= FitBlocks(t) && id in t && PlainText(revision) && Plain(BlockFields(b, revision))
    ensures PlainBlocks(t[id := b], revision)
  {
    var u := t[id := b];
    assert id in FitBlocks(t);
    forall k | k in u ensures IsName(k) && Plain(BlockFields(u[k], revision)) {
      if k != id {
        assert k in FitBlocks(t);
        FitBlockPlain(t[k], revision);
      }
    }
  }

  /** Only the corrected block decides whether the written document is legible. */
  lemma CorrectedDocument(d: Document, id: string, b: Block, e: Document)
    requires Good(d) && id in d.blocks && AllDigits(e.revision) && Plain(BlockFields(b, e.revision))
    requires e == d.(blocks := d.blocks[id := b], receipts := StaleReceipts(d.receipts),
               projections := StaleMarks(d.projections, id), revision := e.revision)
    ensures PlainDocument(e) && (LegibleDocument(e) <==> Legible(BlockFields(b, e.revision), BLOCK_KEYS))
  {
    DigitsPlain(e.revision);
    OthersPlain(d.blocks, id, b, e.revision);
    OthersLegible(d.blocks, id, b, e.revision);
    StaleTables(d.receipts, d.projections, id, e.revision);
    IdentityStill(d, e);
  }

  lemma StaleTables(receipts: map<string, Receipt>, marks: map<string, Mark>, id: string, revision: string)
    requires receipts.Keys <= FitReceipts(receipts) && marks.Keys <= FitMarks(marks) && PlainText(revision)
    ensures var r := StaleReceipts(receipts); PlainReceipts(r, revision) && r.Keys <= LegibleReceipts(r, revision)
    ensures var m := StaleMarks(marks, id); PlainMarks(m, revision) && m.Keys <= LegibleMarks(m, revision)
  {
    StaleReceiptsFit(receipts);
    StaleMarksFit(marks, id);
    ReceiptsGood(StaleReceipts(receipts), revision);
    MarksGood(StaleMarks(marks, id), revision);
  }

  lemma IdentityStill(d: Document, e: Document)
    requires FitFields(IdentityFields(d), IDENTITY_KEYS) && PlainText(e.revision)
    requires e.project == d.project && e.ses == d.ses && e.openedAt == d.openedAt
    ensures Plain(IdentityFields(e)) && Legible(IdentityFields(e), IDENTITY_KEYS)
  {
    LastFits(IdentityFields(d), IdentityFields(e), IDENTITY_KEYS);
    IdentityLegible(e);
  }

  /** The changes, reason and authorization of a correction, all plain, the changes fit. */
  predicate PlainReview(c: Changes, reason: string, auth: string) {
    && (c.start.Some? ==> Fit(c.start.value, [End, State] + OPTIONAL_KEYS))
    && (c.end.Some? ==> Fit(c.end.value, [State] + OPTIONAL_KEYS))
    && (c.state.Some? ==> Fit(c.state.value, OPTIONAL_KEYS))
    && reason != "" && auth != "" && PlainText(Clean(reason)) && PlainText(Clean(auth))
  }

  lemma ReviewedBlock(b: Block, c: Changes, reason: string, auth: string, next: string, r: Block)
    requires FitBlock(b) && PlainReview(c, reason, auth) && AllDigits(next)
    requires r == Corrected(b, c).(note := reason, auth := auth, revision := next)
    ensures Correction(r)
  {}

  /**
   * A correction of a good file is read back as it was meant if and only if neither the
   * reason nor the authorization ends like the start of a field printed after it.
   */
  lemma ReviewReadsBack(d: Document, id: string, c: Changes, reason: string, auth: string, next: string)
    requires Good(d) && id in d.blocks && PlainReview(c, reason, auth) && AllDigits(next)
    requires NoComma(Clean(auth)) && NoComma(d.blocks[id].lastActivity)
    ensures var e := Reviewed(d, id, c, reason, auth, next).(revision := next);
      Parsed(Serialized(e)) == Some(Normal(e)) <==> ClearTexts(e.blocks[id])
  {
    var e := Reviewed(d, id, c, reason, auth, next).(revision := next);
    var b := e.blocks[id];
    assert id in FitBlocks(d.blocks);
    DigitsPlain(next);
    ReviewedBlock(d.blocks[id], c, reason, auth, next, b);
    CorrectionPlain(b, next);
    CorrectedDocument(d, id, b, e);
    TimelogReadsBack(e);
    ClearDecides(b, next);
  }

  lemma ClearDecides(b: Block, revision: string)
    requires Correction(b) && NoComma(Clean(b.auth)) && NoComma(b.lastActivity)
    ensures Legible(BlockFields(b, revision), BLOCK_KEYS) <==> ClearTexts(b)
  {
    if ClearTexts(b) {
      ClearIsLegible(b, revision);
    } else {
      UnclearIsIllegible(b, revision);
    }
  }

  /** Any text followed by a blank, a field's name and a colon mimics that field, and cleaning keeps it. */
  lemma TrailingKeyMimics(a: string, key: Key)
    requires PlainText(a) && a != "" && !IsSpace(a[0])
    ensures var v := a + (" " + (Name(key) + ":")); Clean(v) == v && PlainText(v) && Mimics(v, Name(key))
  {
    NameIsKey(key);
    KeyTail(a, Name(key), a + (" " + (Name(key) + ":")));
    CleanPlain(a + (" " + (Name(key) + ":")));
  }

  lemma KeyTail(a: string, name: string, v: string)
    requires PlainText(a) && a != "" && !IsSpace(a[0]) && IsKey(name) && v == a + (" " + (name + ":"))
    ensures PlainText(v) && '\n' !in v && Trimmed(v) && Mimics(v, name)
  {
    assert v[|v| - 1] == ':' && v[0] == a[0];
    assert PlainText(name) && PlainText(":") && PlainText(" ");
  }
}
