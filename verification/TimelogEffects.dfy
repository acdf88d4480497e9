/** What each call of `update` does to the timelog, told in its fields. */
module TimelogEffects {
  import opened Text
  import opened TimelogModel
  import opened TimelogText
  import opened TimelogRoundTrip
  import opened TimelogStore
  import opened TimelogSafe

  type File = Option<string>

  predicate IsNumber(revision: string) { revision == "" || AllDigits(revision) }

  function Number(revision: string): nat
    requires IsNumber(revision)
  { if revision == "" then 0 else DigitsValue(revision) }

  /** The same timelog, one revision later. */
  ghost predicate Follows(d: Document, e: Document) {
    && IsNumber(d.revision) && e.revision == NatToString(Number(d.revision) + 1)
    && e.project == d.project && e.ses == d.ses && e.openedAt == d.openedAt
  }

  ghost predicate SameTables(d: Document, e: Document) { e.receipts == d.receipts && e.projections == d.projections }

  /** No block is added or removed, and those outside `names` stay. */
  ghost predicate OnlyBlocks(d: Document, e: Document, names: iset<string>) {
    e.blocks.Keys == d.blocks.Keys && forall k | k in d.blocks && k !in names :: e.blocks[k] == d.blocks[k]
  }

  // ------------------------------------------------------------------------ every call

  /** The file reads as `d`, of this session or of none, at the revision the caller expects, if any. */
  ghost predicate Admits(file: File, d: Document, ses: string, expected: Option<string>) {
    Reads(file, d) && (d.ses == "" || d.ses == ses) && (expected.Some? ==> expected.value == d.revision)
  }

  /** What `update` answers when `mutate` made `o` of the document. */
  function Answer(d: Document, o: Outcome, fails: bool): Reply {
    match o
    case Unknown(ref) => UnknownOperation(ref)
    case KeyError => Crashed
    case ValueError => Crashed
    case Unchanged => Replayed(d)
    case Changed(e) =>
      if Next(e.revision).None? then Crashed
      else if fails then Uncertain(e.(revision := Next(e.revision).value))
      else Applied(e.(revision := Next(e.revision).value))
  }

  ghost function Stored(file: File, r: Reply): File { if r.Applied? then Some(Serialized(r.document)) else file }

  lemma AdmittedChange(
      file: File, d: Document, ses: string, expected: Option<string>, m: Mutation, fails: bool, o: Outcome)
    requires (d.ses == "" || d.ses == ses) && (expected.Some? ==> expected.value == d.revision) && o == Mutate(d, m)
    ensures DoChange(file, d, ses, expected, m, fails) == (Stored(file, Answer(d, o, fails)), Answer(d, o, fails))
  {}

  lemma AdmittedCall(file: File, d: Document, ses: string, expected: Option<string>, m: Mutation, fails: bool)
    requires Admits(file, d, ses, expected)
    ensures var r := Answer(d, Mutate(d, m), fails);
      DoUpdate(file, ses, expected, m, fails) == (Stored(file, r), r)
  {
    AdmittedChange(file, d, ses, expected, m, fails, Mutate(d, m));
    assert DoUpdate(file, ses, expected, m, fails) == DoChange(file, d, ses, expected, m, fails);
  }

  /** A failed write reports what would have been applied. */
  lemma AnswerFails(d: Document, o: Outcome)
    ensures var (r, u) := (Answer(d, o, false), Answer(d, o, true));
      u == (if r.Applied? then Uncertain(r.document) else r) && (r.Replayed? ==> r.document == d)
  {}

  lemma RefusedCall(file: File, d: Document, ses: string, expected: Option<string>, m: Mutation, fails: bool)
    requires Reads(file, d) && !Admits(file, d, ses, expected)
    ensures var (after, r) := DoUpdate(file, ses, expected, m, fails);
      after == file && r == if d.ses != "" && d.ses != ses then NotMember(d.ses) else Conflict(expected.value, d.revision)
  {}

  /**
   * The file changes only when the call is applied, and then holds the document of the reply. A write that fails
   * reports the document it did not store.
   */
  lemma UpdateSays(file: File, d: Document, ses: string, expected: Option<string>, m: Mutation)
    requires Admits(file, d, ses, expected)
    ensures var (after, r) := DoUpdate(file, ses, expected, m, false);
      var (kept, u) := DoUpdate(file, ses, expected, m, true);
      && (if r.Applied? then after == Some(Serialized(r.document)) else after == file)
      && kept == file && u == (if r.Applied? then Uncertain(r.document) else r)
      && (r.Replayed? ==> r.document == d)
  {
    AdmittedCall(file, d, ses, expected, m, false);
    AdmittedCall(file, d, ses, expected, m, true);
    AnswerFails(d, Mutate(d, m));
  }

  // ------------------------------------------------------------------------------ purges

  /** After an applied delete a block is there iff it was there and was not selected, as it was. */
  ghost predicate Deleted(d: Document, present: seq<string>, r: Reply) {
    && (r.Applied? <==> present != [] && IsNumber(d.revision)) && (present == [] <==> r == Replayed(d))
    && (!r.Applied? ==> r == Replayed(d) || r == Crashed)
    && (r.Applied? ==> var e := r.document;
          && Follows(d, e) && SameTables(d, e)
          && (forall k :: k in e.blocks <==> k in d.blocks && k !in present)
          && forall k | k in e.blocks :: e.blocks[k] == d.blocks[k])
  }

  lemma IsDeleted(d: Document, present: seq<string>, r: Reply)
    requires r == Answer(d, Mutate(d, Purge(Delete, present)), false)
    ensures Deleted(d, present, r)
  {}

  lemma DeleteSays(file: File, d: Document, ses: string, expected: Option<string>, present: seq<string>)
    requires Admits(file, d, ses, expected)
    ensures Deleted(d, present, DoUpdate(file, ses, expected, Purge(Delete, present), false).1)
  {
    AdmittedCall(file, d, ses, expected, Purge(Delete, present), false);
    IsDeleted(d, present, DoUpdate(file, ses, expected, Purge(Delete, present), false).1);
  }

  /** The caller of a delete then sees no block, and removes the file, iff every block there was had been selected. */
  lemma FileGoesIffAllSelected(d: Document, present: seq<string>, r: Reply)
    requires Deleted(d, present, r) && (r.Applied? || r.Replayed?)
    ensures r.document.blocks == map[] <==> forall k | k in d.blocks :: k in present
  {
    if k :| k in d.blocks && k !in present {
      assert k in r.document.blocks;
    } else {
      assert r.document.blocks.Keys == {};
    }
  }

  /** An archive changes the state of the selected blocks and nothing else; a selected name must be there. */
  ghost predicate Archives(d: Document, present: seq<string>, r: Reply) {
    && (r.Applied? <==> present != [] && IsNumber(d.revision) && forall n | n in present :: n in d.blocks)
    && (present == [] ==> r == Replayed(d))
    && (r.Applied? ==> var e := r.document;
          && Follows(d, e) && SameTables(d, e) && OnlyBlocks(d, e, iset n | n in present)
          && forall n | n in present :: e.blocks[n] == d.blocks[n].(state := "archived"))
  }

  lemma IsArchives(d: Document, present: seq<string>, r: Reply)
    requires r == Answer(d, Mutate(d, Purge(Archive, present)), false)
    ensures Archives(d, present, r)
  {}

  lemma ArchiveSays(file: File, d: Document, ses: string, expected: Option<string>, present: seq<string>)
    requires Admits(file, d, ses, expected)
    ensures Archives(d, present, DoUpdate(file, ses, expected, Purge(Archive, present), false).1)
  {
    AdmittedCall(file, d, ses, expected, Purge(Archive, present), false);
    IsArchives(d, present, DoUpdate(file, ses, expected, Purge(Archive, present), false).1);
  }

  /** A summary changes the state and the note of the selected blocks and nothing else. */
  ghost predicate Summarizes(d: Document, present: seq<string>, r: Reply) {
    && (r.Applied? <==> present != [] && IsNumber(d.revision) && forall n | n in present :: n in d.blocks)
    && (present == [] ==> r == Replayed(d))
    && (r.Applied? ==> var e := r.document;
          && Follows(d, e) && SameTables(d, e) && OnlyBlocks(d, e, iset n | n in present)
          && forall n | n in present ::
               e.blocks[n] == d.blocks[n].(state := "suppressed", note := "summarized on user's order"))
  }

  lemma IsSummarizes(d: Document, present: seq<string>, r: Reply)
    requires r == Answer(d, Mutate(d, Purge(Summarize, present)), false)
    ensures Summarizes(d, present, r)
  {
    assert SUMMARY == "summarized on user's order";
  }

  lemma SummarizeSays(file: File, d: Document, ses: string, expected: Option<string>, present: seq<string>)
    requires Admits(file, d, ses, expected)
    ensures Summarizes(d, present, DoUpdate(file, ses, expected, Purge(Summarize, present), false).1)
  {
    AdmittedCall(file, d, ses, expected, Purge(Summarize, present), false);
    IsSummarizes(d, present, DoUpdate(file, ses, expected, Purge(Summarize, present), false).1);
  }

  // ------------------------------------------------------------------------------ blocks

  /** Opening adds one open block under the operation's name, unless it is there. */
  ghost predicate Opens(d: Document, ref: string, start: string, r: Reply) {
    var name := EntryName(ref);
    && (r.Applied? <==> name !in d.blocks && IsNumber(d.revision)) && (name in d.blocks ==> r == Replayed(d))
    && (r.Applied? ==> var e := r.document;
          && Follows(d, e) && SameTables(d, e) && e.blocks.Keys == d.blocks.Keys + {name}
          && (forall k | k in d.blocks :: e.blocks[k] == d.blocks[k])
          && var b := e.blocks[name];
             && b.start == start && b.end == "" && b.state == "open" && b.lastActivity == start
             && b.note == "" && b.auth == "" && b.revision == e.revision)
  }

  lemma IsOpens(d: Document, ref: string, start: string, r: Reply)
    requires r == Answer(d, Mutate(d, OpenBlock(ref, start)), false)
    ensures Opens(d, ref, start, r)
  {}

  lemma OpenSays(file: File, d: Document, ses: string, expected: Option<string>, ref: string, start: string)
    requires Admits(file, d, ses, expected)
    ensures Opens(d, ref, start, DoUpdate(file, ses, expected, OpenBlock(ref, start), false).1)
  {
    AdmittedCall(file, d, ses, expected, OpenBlock(ref, start), false);
    IsOpens(d, ref, start, DoUpdate(file, ses, expected, OpenBlock(ref, start), false).1);
  }

  /** Closing sets the end of one block that has none; an unknown operation is refused. */
  ghost predicate Closes(d: Document, ref: string, end: string, r: Reply) {
    var name := EntryName(ref);
    && (r.Applied? <==> name in d.blocks && d.blocks[name].end == "" && IsNumber(d.revision))
    && (r == UnknownOperation(ref) <==> name !in d.blocks)
    && (name in d.blocks && d.blocks[name].end != "" ==> r == Replayed(d))
    && (r.Applied? ==> var e := r.document;
          && Follows(d, e) && SameTables(d, e) && OnlyBlocks(d, e, iset{name})
          && e.blocks[name] == d.blocks[name].(end := end, state := "closed", revision := e.revision))
  }

  lemma IsCloses(d: Document, ref: string, end: string, r: Reply)
    requires r == Answer(d, Mutate(d, CloseBlock(ref, end)), false)
    ensures Closes(d, ref, end, r)
  {
    var name := EntryName(ref);
    if name in d.blocks && d.blocks[name].end == "" && Next(d.revision).Some? {
      var b := d.blocks[name].(end := end, state := "closed", revision := Next(d.revision).value);
      assert r.document.blocks == d.blocks[name := b];
    }
  }

  lemma CloseSays(file: File, d: Document, ses: string, expected: Option<string>, ref: string, end: string)
    requires Admits(file, d, ses, expected)
    ensures Closes(d, ref, end, DoUpdate(file, ses, expected, CloseBlock(ref, end), false).1)
  {
    AdmittedCall(file, d, ses, expected, CloseBlock(ref, end), false);
    IsCloses(d, ref, end, DoUpdate(file, ses, expected, CloseBlock(ref, end), false).1);
  }

  /** The blocks with state "open" and no end. */
  ghost function OpenOnes(d: Document): (names: iset<string>)
    ensures forall k :: k in names <==> k in d.blocks && d.blocks[k].state == "open" && d.blocks[k].end == ""
  { iset k | k in d.blocks && d.blocks[k].state == "open" && d.blocks[k].end == "" }

  ghost function Endless(d: Document): (names: iset<string>)
    ensures forall k :: k in names <==> k in d.blocks && d.blocks[k].end == ""
  { iset k | k in d.blocks && d.blocks[k].end == "" }

  /** A touch sets the last activity of the open blocks, and writes only when there is one. */
  ghost predicate Touches(d: Document, at: string, r: Reply) {
    && (r.Applied? <==> (exists k :: k in OpenOnes(d)) && IsNumber(d.revision))
    && ((forall k :: k !in OpenOnes(d)) ==> r == Replayed(d))
    && (r.Applied? ==> var e := r.document;
          && Follows(d, e) && SameTables(d, e) && OnlyBlocks(d, e, OpenOnes(d))
          && forall k | k in OpenOnes(d) :: e.blocks[k] == d.blocks[k].(lastActivity := at))
  }

  lemma IsTouches(d: Document, at: string, r: Reply)
    requires r == Answer(d, Mutate(d, Touch(at)), false)
    ensures Touches(d, at, r)
  {
    assert forall k | k in d.blocks :: IsOpen(d.blocks[k]) <==> k in OpenOnes(d);
  }

  lemma TouchSays(file: File, d: Document, ses: string, expected: Option<string>, at: string)
    requires Admits(file, d, ses, expected)
    ensures Touches(d, at, DoUpdate(file, ses, expected, Touch(at), false).1)
  {
    AdmittedCall(file, d, ses, expected, Touch(at), false);
    IsTouches(d, at, DoUpdate(file, ses, expected, Touch(at), false).1);
  }

  /** Invalidation sets the state of the blocks that have no end, and writes only when there is one. */
  ghost predicate Invalidates(d: Document, r: Reply) {
    && (r.Applied? <==> (exists k :: k in Endless(d)) && IsNumber(d.revision))
    && ((forall k :: k !in Endless(d)) ==> r == Replayed(d))
    && (r.Applied? ==> var e := r.document;
          && Follows(d, e) && SameTables(d, e) && OnlyBlocks(d, e, Endless(d))
          && forall k | k in Endless(d) :: e.blocks[k] == d.blocks[k].(state := "unterminated"))
  }

  lemma IsInvalidates(d: Document, r: Reply)
    requires r == Answer(d, Mutate(d, Invalidate), false)
    ensures Invalidates(d, r)
  {
    assert forall k | k in d.blocks :: IsPending(d.blocks[k]) <==> k in Endless(d);
  }

  lemma InvalidateSays(file: File, d: Document, ses: string, expected: Option<string>)
    requires Admits(file, d, ses, expected)
    ensures Invalidates(d, DoUpdate(file, ses, expected, Invalidate, false).1)
  {
    AdmittedCall(file, d, ses, expected, Invalidate, false);
    IsInvalidates(d, DoUpdate(file, ses, expected, Invalidate, false).1);
  }

  // ------------------------------------------------------------------------- corrections

  predicate Given(v: Option<string>, before: string, after: string) { after == if v.Some? then v.value else before }

  /** A given time or state is another one. */
  predicate Differs(c: Changes, b: Block) {
    || (c.start.Some? && c.start.value != b.start) || (c.end.Some? && c.end.value != b.end)
    || (c.state.Some? && c.state.value != b.state)
  }

  /** The block has exactly the given times and state, the reason, the authorization and the new revision. */
  predicate Corrects(b: Block, c: Changes, reason: string, auth: string, revision: string, after: Block) {
    && Given(c.start, b.start, after.start) && Given(c.end, b.end, after.end) && Given(c.state, b.state, after.state)
    && after.note == reason && after.auth == auth && after.revision == revision && after.lastActivity == b.lastActivity
  }

  /** Pending receipts, and marks that cover the block, become stale; nothing else about them changes. */
  ghost predicate GoStale(d: Document, e: Document, id: string) {
    && e.receipts.Keys == d.receipts.Keys && e.projections.Keys == d.projections.Keys
    && (forall k | k in d.receipts ::
          e.receipts[k] == if d.receipts[k].status == "pending" then d.receipts[k].(status := "stale") else d.receipts[k])
    && (forall k | k in d.projections :: e.projections[k] ==
          if Covers(d.projections[k], id) then d.projections[k].(status := "stale") else d.projections[k])
  }

  lemma ReviewedSays(d: Document, id: string, c: Changes, reason: string, auth: string, next: string)
    requires id in d.blocks
    ensures var e := Reviewed(d, id, c, reason, auth, next);
      && OnlyBlocks(d, e, iset{id}) && Corrects(d.blocks[id], c, reason, auth, next, e.blocks[id]) && GoStale(d, e, id)
      && e == d.(blocks := e.blocks, receipts := e.receipts, projections := e.projections)
  {}

  /** A correction sets what it gives of one block, and writes only if that changes something. */
  ghost predicate Reviews(d: Document, id: string, c: Changes, reason: string, auth: string, r: Reply) {
    && (r.Applied? <==> id in d.blocks && Differs(c, d.blocks[id]) && IsNumber(d.revision))
    && (r == UnknownOperation(id) <==> id !in d.blocks)
    && (id in d.blocks && !Differs(c, d.blocks[id]) ==> r == Replayed(d))
    && (r.Applied? ==> var e := r.document;
          && Follows(d, e) && OnlyBlocks(d, e, iset{id}) && GoStale(d, e, id)
          && Corrects(d.blocks[id], c, reason, auth, e.revision, e.blocks[id]))
  }

  lemma IsReviews(d: Document, id: string, c: Changes, reason: string, auth: string, r: Reply)
    requires r == Answer(d, Mutate(d, Review(id, c, reason, auth)), false)
    ensures Reviews(d, id, c, reason, auth, r)
  {
    if id in d.blocks && IsNumber(d.revision) {
      ReviewedSays(d, id, c, reason, auth, Next(d.revision).value);
    }
  }

  lemma ReviewSays(
      file: File, d: Document, ses: string, expected: Option<string>, id: string, c: Changes, reason: string, auth: string)
    requires Admits(file, d, ses, expected)
    ensures Reviews(d, id, c, reason, auth, DoUpdate(file, ses, expected, Review(id, c, reason, auth), false).1)
  {
    AdmittedCall(file, d, ses, expected, Review(id, c, reason, auth), false);
    IsReviews(d, id, c, reason, auth, DoUpdate(file, ses, expected, Review(id, c, reason, auth), false).1);
  }

  // ---------------------------------------------------------------------------- receipts

  /** A receipt and its mark are stored under their names; no block, and no other receipt or mark, changes. */
  ghost predicate Records(d: Document, key: string, receipt: Receipt, markKey: string, mark: Mark, r: Reply) {
    && (r.Applied? <==> IsNumber(d.revision))
    && (r.Applied? ==> var e := r.document;
          && Follows(d, e) && e.blocks == d.blocks
          && e.receipts.Keys == d.receipts.Keys + {key} && e.receipts[key] == receipt
          && e.projections.Keys == d.projections.Keys + {markKey} && e.projections[markKey] == mark
          && (forall k | k in d.receipts && k != key :: e.receipts[k] == d.receipts[k])
          && forall k | k in d.projections && k != markKey :: e.projections[k] == d.projections[k])
  }

  lemma IsRecords(d: Document, key: string, receipt: Receipt, markKey: string, mark: Mark, r: Reply)
    requires r == Answer(d, Mutate(d, RecordReceipt(key, receipt, markKey, mark)), false)
    ensures Records(d, key, receipt, markKey, mark, r)
  {}

  lemma RecordSays(file: File, d: Document, ses: string, expected: Option<string>, key: string, receipt: Receipt,
      markKey: string, mark: Mark)
    requires Admits(file, d, ses, expected)
    ensures var m := RecordReceipt(key, receipt, markKey, mark);
      Records(d, key, receipt, markKey, mark, DoUpdate(file, ses, expected, m, false).1)
  {
    var m := RecordReceipt(key, receipt, markKey, mark);
    AdmittedCall(file, d, ses, expected, m, false);
    IsRecords(d, key, receipt, markKey, mark, DoUpdate(file, ses, expected, m, false).1);
  }

  // ------------------------------------------------------------------------ what is read

  /** A block as the next call reads it: cleaned, without a state open, without a stamp of the document's revision. */
  predicate SameBlock(b: Block, back: Block, revision: string) {
    && back.start == b.start && back.end == b.end && back.lastActivity == b.lastActivity
    && back.state == (if b.state == "" then "open" else b.state)
    && back.note == Clean(b.note) && back.auth == Clean(b.auth)
    && back.revision == (if b.revision != "" then b.revision else revision)
  }

  predicate SameReceipt(r: Receipt, back: Receipt) {
    && back.operation == Clean(r.operation) && back.destination == Clean(r.destination) && back.remote == Clean(r.remote)
    && back.status == (if r.status == "" then "pending" else r.status)
    && back.state == (if r.state == "" then "unknown" else r.state)
  }

  predicate SameMark(m: Mark, back: Mark) {
    && back.operation == Clean(m.operation) && back.destination == Clean(m.destination) && back.remote == Clean(m.remote)
    && back.status == (if m.status == "" then "pending" else m.status)
    && back.state == (if m.state == "" then "unknown" else m.state)
    && back.blocks == Clean(m.blocks) && back.agent == Clean(m.agent) && back.projectedAt == m.projectedAt
    && back.start == m.start && back.end == m.end && back.minutes == m.minutes
  }

  /** What is read of a written fit document: the same names, and each entry as written, cleaned and with defaults. */
  lemma ReadBackSays(d: Document)
    requires Good(d)
    ensures Parsed(Serialized(d)).Some?
    ensures var e := Parsed(Serialized(d)).value;
      && e.project == Clean(d.project) && e.ses == d.ses && e.openedAt == d.openedAt && e.revision == d.revision
      && e.blocks.Keys == d.blocks.Keys && e.receipts.Keys == d.receipts.Keys && e.projections.Keys == d.projections.Keys
      && (forall k | k in d.blocks :: SameBlock(d.blocks[k], e.blocks[k], d.revision))
      && (forall k | k in d.receipts :: SameReceipt(d.receipts[k], e.receipts[k]))
      && forall k | k in d.projections :: SameMark(d.projections[k], e.projections[k])
  {
    GoodReads(d);
    NormalSays(d, Normal(d));
  }

  lemma NormalSays(d: Document, e: Document)
    requires d.revision != "" && e == Normal(d)
    ensures e.project == Clean(d.project) && e.ses == d.ses && e.openedAt == d.openedAt && e.revision == d.revision
    ensures e.blocks.Keys == d.blocks.Keys && e.receipts.Keys == d.receipts.Keys && e.projections.Keys == d.projections.Keys
    ensures forall k | k in d.blocks :: SameBlock(d.blocks[k], e.blocks[k], d.revision)
    ensures forall k | k in d.receipts :: SameReceipt(d.receipts[k], e.receipts[k])
    ensures forall k | k in d.projections :: SameMark(d.projections[k], e.projections[k])
  {
    NormalBlocksSay(d.blocks, d.revision);
    NormalReceiptsSay(d.receipts);
    NormalMarksSay(d.projections);
  }

  lemma NormalBlocksSay(t: map<string, Block>, revision: string)
    ensures var n := NormalBlocks(t, revision);
      n.Keys == t.Keys && forall k | k in t :: SameBlock(t[k], n[k], revision)
  {
    forall b ensures SameBlock(b, NormalBlock(b, revision), revision) {}
  }

  lemma NormalReceiptsSay(t: map<string, Receipt>)
    ensures var n := NormalReceipts(t);
      n.Keys == t.Keys && forall k | k in t :: SameReceipt(t[k], n[k])
  {
    forall r ensures SameReceipt(r, NormalReceipt(r)) {}
  }

  lemma NormalMarksSay(t: map<string, Mark>)
    ensures var n := NormalMarks(t);
      n.Keys == t.Keys && forall k | k in t :: SameMark(t[k], n[k])
  {
    forall m ensures SameMark(m, NormalMark(m)) {}
  }
}
