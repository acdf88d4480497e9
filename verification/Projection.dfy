/** `timelog_projection.py`: batch identity, receipts and the external send. */
module Projection {
  import opened Text
  import opened TimelogModel
  import opened TimelogFields
  import opened TimelogRoundTrip
  import opened TimelogText
  import opened TimelogStable
  import opened TimelogStore
  import opened TimelogSafe
  import opened TimelogRuns

  // ------------------------------------------------------------------- batch identity

  /** The settings of a batch that the timelog does not decide. */
  datatype Settings = Settings(
    destination: string, account: string, target: string, adapterVersion: string, units: string, timezone: string,
    rounding: string, grouping: string)

  datatype Content = Content(id: string, start: string, end: string)

  /** Everything the key is a digest of; the sorted origins are kept as a multiset. */
  datatype Material = Material(
    project: string, ses: string, origins: multiset<string>, content: seq<Content>, settings: Settings)

  function Origin(d: Document, id: string): string
    requires id in d.blocks
  { id + "@" + Stamped(d.blocks[id], d.revision) }

  function Origins(d: Document, ids: seq<string>): multiset<string>
    requires forall id | id in ids :: id in d.blocks
  { if ids == [] then multiset{} else multiset{Origin(d, ids[0])} + Origins(d, ids[1..]) }

  function Contents(d: Document, ids: seq<string>): seq<Content>
    requires forall id | id in ids :: id in d.blocks
  {
    if ids == [] then []
    else [Content(ids[0], d.blocks[ids[0]].start, d.blocks[ids[0]].end)] + Contents(d, ids[1..])
  }

  /** `snapshot`, `transform` and the material of `batch_identity`; none for an unknown block. */
  function Batch(d: Document, ids: seq<string>, settings: Settings): Option<Material> {
    if exists id :: id in ids && id !in d.blocks then None
    else Some(Material(d.project, d.ses, Origins(d, ids), Contents(d, ids), settings))
  }

  predicate HasStamp(d: Document, id: string) { id in d.blocks && d.blocks[id].revision != "" }

  lemma {:induction false} SameOrigins(d: Document, e: Document, ids: seq<string>)
    requires forall id | id in ids :: id in d.blocks && id in e.blocks
    requires forall id | id in ids :: HasStamp(d, id) && d.blocks[id].revision == e.blocks[id].revision
    requires forall id | id in ids :: d.blocks[id].start == e.blocks[id].start && d.blocks[id].end == e.blocks[id].end
    ensures Origins(d, ids) == Origins(e, ids) && Contents(d, ids) == Contents(e, ids)
  {
    if ids != [] {
      assert ids[0] in ids && forall id | id in ids[1..] :: id in ids;
      SameOrigins(d, e, ids[1..]);
    }
  }

  /** Between any two states of a run, a selection whose stamps did not change keeps its batch. */
  lemma SameStampsSameBatch(
      ws: seq<World>, session: string, acts: seq<Action>, i: nat, k: nat, ids: seq<string>, settings: Settings)
    requires IsRun(ws, session, acts) && Inv(ws[0]) && i <= k < |ws| && Unrevived(ws, acts, i, k)
    requires ws[i].file.Some? && ws[k].file.Some?
    requires var d, e := DocAt(ws[i]), DocAt(ws[k]);
      && d.project == e.project && d.ses == e.ses
      && forall id | id in ids :: HasStamp(d, id) && id in e.blocks && d.blocks[id].revision == e.blocks[id].revision
    ensures Batch(DocAt(ws[i]), ids, settings) == Batch(DocAt(ws[k]), ids, settings)
  {
    var d, e := DocAt(ws[i]), DocAt(ws[k]);
    forall id | id in ids ensures d.blocks[id].start == e.blocks[id].start && d.blocks[id].end == e.blocks[id].end {
      DocKnown(ws, session, acts, i);
      DocKnown(ws, session, acts, k);
      StampsIdentify(ws, session, acts, i, k, id, d.blocks[id].revision);
    }
    SameOrigins(d, e, ids);
  }

  // ----------------------------------------------------------- what a batch is a digest of

  /** The revision a block is quoted with: its own, or the document's when it has none. */
  function QuotedRevision(d: Document, id: string): string
    requires id in d.blocks
  { if d.blocks[id].revision != "" then d.blocks[id].revision else d.revision }

  /** Two selections quote the same blocks: the same names in the same order, each with the same times and revision. */
  ghost predicate SameQuotes(d: Document, ids: seq<string>, e: Document, js: seq<string>)
    requires (forall id | id in ids :: id in d.blocks) && forall id | id in js :: id in e.blocks
  {
    ids == js && forall id | id in ids ::
      && d.blocks[id].start == e.blocks[id].start && d.blocks[id].end == e.blocks[id].end
      && QuotedRevision(d, id) == QuotedRevision(e, id)
  }

  predicate SameSettings(s: Settings, t: Settings) {
    && s.destination == t.destination && s.account == t.account && s.target == t.target
    && s.adapterVersion == t.adapterVersion && s.units == t.units && s.timezone == t.timezone
    && s.rounding == t.rounding && s.grouping == t.grouping
  }

  lemma {:induction false} ContentsName(d: Document, ids: seq<string>, e: Document, js: seq<string>)
    requires (forall id | id in ids :: id in d.blocks) && forall id | id in js :: id in e.blocks
    ensures Contents(d, ids) == Contents(e, js) ==> ids == js
  {
    if ids != [] && js != [] && Contents(d, ids) == Contents(e, js) {
      assert Contents(d, ids)[0].id == ids[0] && Contents(e, js)[0].id == js[0];
      assert Contents(d, ids)[1..] == Contents(d, ids[1..]) && Contents(e, js)[1..] == Contents(e, js[1..]);
      assert forall id | id in ids[1..] :: id in ids;
      assert forall id | id in js[1..] :: id in js;
      ContentsName(d, ids[1..], e, js[1..]);
      assert ids == [ids[0]] + ids[1..] && js == [js[0]] + js[1..];
    }
  }

  /**
   * Two batches are the same if and only if project, session, quoted blocks and every setting agree: a
   * change of any one of them, the destination for instance, makes another batch.
   */
  lemma BatchIsExact(d: Document, ids: seq<string>, s: Settings, e: Document, js: seq<string>, t: Settings)
    requires (forall id | id in ids :: id in d.blocks && IsName(id)) && forall id | id in js :: id in e.blocks && IsName(id)
    ensures Batch(d, ids, s) == Batch(e, js, t) <==>
      d.project == e.project && d.ses == e.ses && SameQuotes(d, ids, e, js) && SameSettings(s, t)
  {
    ContentsName(d, ids, e, js);
    if ids == js {
      SameOriginsIff(d, e, ids);
      SameContentsIff(d, e, ids);
    }
  }

  /** There is no batch exactly when some selected block is unknown. */
  lemma BatchKnown(d: Document, ids: seq<string>, s: Settings)
    ensures Batch(d, ids, s).Some? <==> forall id | id in ids :: id in d.blocks
  {}

  // ------------------------------------------------------------- what a mark says it covers

  /** `block@revision` for each selected block. */
  function Quotes(d: Document, ids: seq<string>): seq<string>
    requires forall id | id in ids :: id in d.blocks
  { if ids == [] then [] else [ids[0] + ("@" + QuotedRevision(d, ids[0]))] + Quotes(d, ids[1..]) }

  /** The blocks of `_marks`, as they are written into the projection mark. */
  function BlocksText(d: Document, ids: seq<string>): string
    requires forall id | id in ids :: id in d.blocks
  { JoinWith(",", Quotes(d, ids)) }

  lemma {:induction false} UpToStops(a: string, b: string, c: char)
    requires c !in a
    ensures UpTo(a + ([c] + b), c) == a
  {
    if a == "" {
      assert a + ([c] + b) == [c] + b;
    } else {
      assert (a + ([c] + b))[1..] == a[1..] + ([c] + b);
      UpToStops(a[1..], b, c);
      assert [a[0]] + a[1..] == a;
    }
  }

  lemma NameHasNoMarks(id: string)
    requires IsName(id)
    ensures '@' !in id && ',' !in id
  {}

  lemma {:induction false} QuotesTell(d: Document, ids: seq<string>)
    requires forall id | id in ids :: id in d.blocks && IsName(id) && ',' !in QuotedRevision(d, id)
    ensures |Quotes(d, ids)| == |ids| && (forall x | x in Quotes(d, ids) :: ',' !in x)
    ensures BlockIds(Quotes(d, ids)) == ids
  {
    if ids != [] {
      assert ids[0] in ids && forall id | id in ids[1..] :: id in ids;
      QuotesTell(d, ids[1..]);
      NameHasNoMarks(ids[0]);
      UpToStops(ids[0], QuotedRevision(d, ids[0]), '@');
      var q, more := ids[0] + ("@" + QuotedRevision(d, ids[0])), Quotes(d, ids[1..]);
      assert ([q] + more)[1..] == more && q != "";
    }
  }

  /** The blocks that a mark covers can be told from the file alone: they are the ones it was written for. */
  lemma MarkCovers(d: Document, ids: seq<string>, m: Mark, id: string)
    requires forall x | x in ids :: x in d.blocks && IsName(x) && ',' !in QuotedRevision(d, x)
    requires ids != [] && m.blocks == BlocksText(d, ids)
    ensures Covers(m, id) <==> id in ids
  {
    QuotesTell(d, ids);
    SplitJoined(Quotes(d, ids), ',');
  }

  // --------------------------------------------------------------- receipt-only writes

  lemma {:induction false} OriginCounted(d: Document, ids: seq<string>, id: string)
    requires (forall x | x in ids :: x in d.blocks) && id in ids
    ensures Origin(d, id) in Origins(d, ids)
  {
    if id != ids[0] {
      assert id in ids[1..];
      OriginCounted(d, ids[1..], id);
    }
  }

  lemma {:induction false} OriginOf(d: Document, ids: seq<string>, o: string) returns (id: string)
    requires (forall x | x in ids :: x in d.blocks) && o in Origins(d, ids)
    ensures id in ids && Origin(d, id) == o
  {
    if o == Origin(d, ids[0]) {
      id := ids[0];
    } else {
      id := OriginOf(d, ids[1..], o);
    }
  }

  lemma OriginInjective(a: string, m: string, b: string, n: string)
    requires '@' !in a && '@' !in b && a + "@" + m == b + "@" + n
    ensures a == b && m == n
  {
    var s := a + "@" + m;
    assert s[|a|] == '@' && s[|b|] == '@';
    assert forall i | 0 <= i < |a| :: s[i] == a[i] && s[i] in a;
    assert forall i | 0 <= i < |b| :: s[i] == b[i] && s[i] in b;
    assert |a| == |b|;
    assert a == s[..|a|] == b && m == s[|a| + 1..] == n;
  }

  /** The document that an applied call prints. */
  function Rewritten(d: Document, m: Mutation): Document
    requires Writes(d, m)
  { Mutate(d, m).document.(revision := Next(d.revision).value) }

  lemma UpdateChanges(file: Option<string>, d: Document, ses: string, expected: Option<string>, m: Mutation)
    requires Reads(file, d)
    ensures DoUpdate(file, ses, expected, m, false) == DoChange(file, d, ses, expected, m, false)
  {}

  lemma ChangePrints(file: Option<string>, d: Document, ses: string, expected: Option<string>, m: Mutation, o: Outcome)
    requires o == Mutate(d, m) && DoChange(file, d, ses, expected, m, false).1.Applied?
    ensures o.Changed? && Next(o.document.revision).Some?
    ensures DoChange(file, d, ses, expected, m, false).0
         == Some(Serialized(o.document.(revision := Next(o.document.revision).value)))
  {}

  /** The file that an applied call leaves is that document, printed. */
  lemma AppliedPrints(file: Option<string>, d: Document, ses: string, expected: Option<string>, m: Mutation)
    requires Reads(file, d) && DoUpdate(file, ses, expected, m, false).1.Applied?
    ensures Writes(d, m) && DoUpdate(file, ses, expected, m, false).0 == Some(Serialized(Rewritten(d, m)))
  {
    UpdateChanges(file, d, ses, expected, m);
    ChangePrints(file, d, ses, expected, m, Mutate(d, m));
    MutateKeepsRevision(d, m);
  }

  lemma NextDiffers(revision: string)
    requires Next(revision).Some?
    ensures Next(revision).value != revision && AllDigits(Next(revision).value)
  {
    NextDigits(revision);
    NatRoundTrip(DigitsValue(OrElse(revision, "0")) + 1);
  }

  /** What the next reader finds of the project and the session. */
  lemma IdentityAsRead(w: Document)
    requires Plain(IdentityFields(w))
    ensures AsRead(w).project == Clean(w.project)
    ensures AsRead(w).ses == w.ses <==> Unhidden(IdentityFields(w), Ses)
  {
    var f := IdentityFields(w);
    AllRead(f);
    LookupAll(f);
    assert f[0].key == Project && f[1].key == Ses;
    assert Searched(Body(f), f, Project) && Searched(Body(f), f, Ses);
  }

  /** What the next reader finds of a block: its start, its end and its stamp unless they are hidden. */
  lemma BlockAsRead(b: Block, revision: string)
    requires Plain(BlockFields(b, revision))
    ensures var c, f := ReadBlock(b, revision), BlockFields(b, revision);
      && c.start == b.start && (c.end == b.end <==> Unhidden(f, End))
      && (c.revision == Stamped(b, revision) <==> Unhidden(f, Revision))
      && (c.revision == Stamped(b, revision) || (c.revision != "" && c.revision[0] == ','))
  {
    var f := BlockFields(b, revision);
    AllRead(f);
    BlockLookups(b, revision);
    assert Searched(Body(f), f, Start) && Searched(Body(f), f, End) && Searched(Body(f), f, Revision);
    assert f[0].key == Start;
  }

  /** The part of the batch that one block decides is read back unchanged. */
  predicate KeepsBlock(b: Block, next: string) {
    b.revision != "" && Unhidden(BlockFields(b, next), Revision) && Unhidden(BlockFields(b, next), End)
  }

  lemma BlockKept(b: Block, before: string, next: string, revision: string)
    requires Plain(BlockFields(b, next)) && next != before && AllDigits(next) && (before == "" || AllDigits(before))
    ensures var c := ReadBlock(b, next);
      (Stamped(c, revision) == Stamped(b, before) && c.start == b.start && c.end == b.end) <==> KeepsBlock(b, next)
  {
    BlockAsRead(b, next);
    assert next[0] in next;
    if before != "" { assert before[0] in before; }
  }

  /** Two documents with the same selected names have the same origins exactly when each stamp is the same. */
  lemma SameOriginsIff(d: Document, e: Document, ids: seq<string>)
    requires forall id | id in ids :: id in d.blocks && id in e.blocks && IsName(id)
    ensures Origins(d, ids) == Origins(e, ids) <==>
      forall id | id in ids :: Stamped(d.blocks[id], d.revision) == Stamped(e.blocks[id], e.revision)
  {
    if Origins(d, ids) == Origins(e, ids) {
      forall id | id in ids ensures Stamped(d.blocks[id], d.revision) == Stamped(e.blocks[id], e.revision) {
        OriginCounted(d, ids, id);
        var x := OriginOf(e, ids, Origin(d, id));
        OriginInjective(id, Stamped(d.blocks[id], d.revision), x, Stamped(e.blocks[x], e.revision));
      }
    } else if forall id | id in ids :: Stamped(d.blocks[id], d.revision) == Stamped(e.blocks[id], e.revision) {
      EqualOrigins(d, e, ids);
    }
  }

  lemma {:induction false} EqualOrigins(d: Document, e: Document, ids: seq<string>)
    requires forall id | id in ids :: id in d.blocks && id in e.blocks
    requires forall id | id in ids :: Stamped(d.blocks[id], d.revision) == Stamped(e.blocks[id], e.revision)
    ensures Origins(d, ids) == Origins(e, ids)
  {
    if ids != [] {
      assert ids[0] in ids && forall id | id in ids[1..] :: id in ids;
      EqualOrigins(d, e, ids[1..]);
    }
  }

  lemma {:induction false} SameContentsIff(d: Document, e: Document, ids: seq<string>)
    requires forall id | id in ids :: id in d.blocks && id in e.blocks
    ensures Contents(d, ids) == Contents(e, ids) <==>
      forall id | id in ids :: d.blocks[id].start == e.blocks[id].start && d.blocks[id].end == e.blocks[id].end
  {
    if ids != [] {
      var c, more := Content(ids[0], d.blocks[ids[0]].start, d.blocks[ids[0]].end), Contents(d, ids[1..]);
      var c', more' := Content(ids[0], e.blocks[ids[0]].start, e.blocks[ids[0]].end), Contents(e, ids[1..]);
      assert forall id :: id in ids <==> id == ids[0] || id in ids[1..];
      SameContentsIff(d, e, ids[1..]);
      assert ([c] + more)[0] == c && ([c] + more)[1..] == more && ([c'] + more')[0] == c' && ([c'] + more')[1..] == more';
    }
  }

  lemma SameBatchIff(d: Document, e: Document, ids: seq<string>, settings: Settings)
    requires forall id | id in ids :: id in d.blocks && id in e.blocks && IsName(id)
    ensures Batch(d, ids, settings) == Batch(e, ids, settings) <==>
      && d.project == e.project && d.ses == e.ses
      && (forall id | id in ids :: Stamped(d.blocks[id], d.revision) == Stamped(e.blocks[id], e.revision))
      && (forall id | id in ids :: d.blocks[id].start == e.blocks[id].start && d.blocks[id].end == e.blocks[id].end)
  {
    SameOriginsIff(d, e, ids);
    SameContentsIff(d, e, ids);
  }

  /** What a reader finds after an applied call is the printed document as it is read. */
  lemma AppliedReads(file: Option<string>, d: Document, e: Document, ses: string, expected: Option<string>, m: Mutation)
    requires Reads(file, d) && DoUpdate(file, ses, expected, m, false).1.Applied?
    requires Writes(d, m) && PlainDocument(Rewritten(d, m)) && Reads(DoUpdate(file, ses, expected, m, false).0, e)
    ensures e == AsRead(Rewritten(d, m))
  {
    AppliedPrints(file, d, ses, expected, m);
    ReadsAs(Rewritten(d, m));
  }

  /** The document with one receipt and one mark more. */
  function WithReceipt(d: Document, key: string, receipt: Receipt, markKey: string, mark: Mark, next: string): Document {
    d.(receipts := d.receipts[key := receipt], projections := d.projections[markKey := mark], revision := next)
  }

  lemma RecordsReceipt(d: Document, key: string, receipt: Receipt, markKey: string, mark: Mark)
    requires Next(d.revision).Some?
    ensures var m := RecordReceipt(key, receipt, markKey, mark);
      Writes(d, m) && Rewritten(d, m) == WithReceipt(d, key, receipt, markKey, mark, Next(d.revision).value)
  {}

  /**
   * A call that only records a receipt and a mark keeps the batch of a selection, as the next reader
   * finds it, if and only if the project text is already clean, the session is not hidden, and every
   * selected block was stamped before and hides neither its stamp nor its end.
   */
  lemma ReceiptKeepsBatch(
      file: Option<string>, d: Document, e: Document, ses: string, expected: Option<string>,
      ids: seq<string>, settings: Settings, key: string, receipt: Receipt, markKey: string, mark: Mark, next: string)
    requires Reads(file, d) && Next(d.revision) == Some(next) && forall id | id in ids :: id in d.blocks && IsName(id)
    requires DoUpdate(file, ses, expected, RecordReceipt(key, receipt, markKey, mark), false).1.Applied?
    requires Reads(DoUpdate(file, ses, expected, RecordReceipt(key, receipt, markKey, mark), false).0, e)
    requires PlainDocument(WithReceipt(d, key, receipt, markKey, mark, next))
    ensures Batch(e, ids, settings) == Batch(d, ids, settings) <==>
      && Clean(d.project) == d.project && Unhidden(IdentityFields(d.(revision := next)), Ses)
      && forall id | id in ids :: KeepsBlock(d.blocks[id], next)
  {
    RecordsReceipt(d, key, receipt, markKey, mark);
    AppliedReads(file, d, e, ses, expected, RecordReceipt(key, receipt, markKey, mark));
    ReceiptIdentity(d, key, receipt, markKey, mark, next);
    RewrittenBatch(d, WithReceipt(d, key, receipt, markKey, mark, next), ids, settings);
  }

  lemma ReceiptIdentity(d: Document, key: string, receipt: Receipt, markKey: string, mark: Mark, next: string)
    ensures IdentityFields(WithReceipt(d, key, receipt, markKey, mark, next)) == IdentityFields(d.(revision := next))
  {}

  lemma RewrittenBatch(d: Document, w: Document, ids: seq<string>, settings: Settings)
    requires PlainDocument(w) && Next(d.revision).Some? && w.revision == Next(d.revision).value
    requires w.project == d.project && w.ses == d.ses && w.openedAt == d.openedAt && w.blocks == d.blocks
    requires forall id | id in ids :: id in d.blocks && IsName(id)
    ensures Batch(AsRead(w), ids, settings) == Batch(d, ids, settings) <==>
      && Clean(d.project) == d.project && Unhidden(IdentityFields(w), Ses)
      && forall id | id in ids :: KeepsBlock(d.blocks[id], w.revision)
  {
    var e := AsRead(w);
    SameBatchIff(d, e, ids, settings);
    IdentityAsRead(w);
    NextDiffers(d.revision);
    forall id | id in ids
      ensures e.blocks[id] == ReadBlock(d.blocks[id], w.revision)
      ensures KeepsBlock(d.blocks[id], w.revision) <==>
        && Stamped(d.blocks[id], d.revision) == Stamped(e.blocks[id], e.revision)
        && d.blocks[id].start == e.blocks[id].start && d.blocks[id].end == e.blocks[id].end {
      BlockKept(d.blocks[id], d.revision, w.revision, e.revision);
    }
  }

  // ---------------------------------------------------------------- the reference adapter

  function RemoteName(n: nat): string { "local-" + ZeroPad(n, 4) }

  lemma RemotesDiffer(m: nat, n: nat)
    requires RemoteName(m) == RemoteName(n)
    ensures m == n
  {
    assert RemoteName(m)[6..] == ZeroPad(m, 4) && RemoteName(n)[6..] == ZeroPad(n, 4);
    ZeroPadRoundTrip(m, 4);
    ZeroPadRoundTrip(n, 4);
  }

  lemma RemoteIsClean(n: nat)
    ensures Clean(RemoteName(n)) == RemoteName(n)
  {
    ZeroPadRoundTrip(n, 4);
    var s, digits := RemoteName(n), ZeroPad(n, 4);
    assert s[|s| - 1] == digits[|digits| - 1] && digits[|digits| - 1] in digits;
    assert '"' !in "local-" && '\n' !in "local-" && '"' !in digits && '\n' !in digits;
    assert s == "local-" + digits;
    ReplaceAbsent(s, '"', "'");
    ReplaceAbsent(s, '\n', " ");
    TrimmedStrip(s);
  }

  /** Keys already sent, each with the number of its remote entry. */
  type Sent = map<string, nat>

  function DoSend(sent: Sent, key: string): Sent { if key in sent then sent else sent[key := |sent| + 1] }

  ghost predicate Numbered(sent: Sent) {
    && (forall k | k in sent :: 1 <= sent[k] <= |sent|)
    && (forall j, k | j in sent && k in sent && sent[j] == sent[k] :: j == k)
  }

  class LocalReferenceAdapter {
    var sent: Sent

    constructor ()
      ensures sent == map[] && Numbered(sent)
    {
      sent := map[];
    }

    /** None when the dispatch raises. */
    method Send(key: string, failSend: bool) returns (remote: Option<string>)
      requires Numbered(sent)
      modifies this
      ensures Numbered(sent) && sent == if failSend then old(sent) else DoSend(old(sent), key)
      ensures remote == if failSend then None else Some(RemoteName(DoSend(old(sent), key)[key]))
      ensures forall k | k in old(sent) :: k in sent && sent[k] == old(sent)[k]
    {
      if failSend {
        return None;
      }
      if key in sent {
        return Some(RemoteName(sent[key]));
      }
      var n := |sent| + 1;
      sent := sent[key := n];
      return Some(RemoteName(n));
    }

    method Query(key: string) returns (remote: Option<string>)
      ensures remote == if key in sent then Some(RemoteName(sent[key])) else None
    {
      return if key in sent then Some(RemoteName(sent[key])) else None;
    }
  }
}
