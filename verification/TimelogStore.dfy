/** The revisioned timelog file: `timelog_store.py`, and `review` and `purge` of `timelog_control.py`. */
module TimelogStore {
  import opened Text
  import opened TimelogModel
  import opened TimelogText
  import opened TimelogRoundTrip
  import opened TimelogStable

  datatype PurgeMode = Delete | Archive | Summarize

  datatype Changes = Changes(start: Option<string>, end: Option<string>, state: Option<string>)

  /** What the callers of `update` pass as `mutate`. */
  datatype Mutation =
    | OpenBlock(ref: string, start: string)
    | CloseBlock(ref: string, end: string)
    | Touch(at: string)
    | Invalidate
    | Review(id: string, changes: Changes, reason: string, auth: string)
    | Purge(mode: PurgeMode, present: seq<string>)
    | RecordReceipt(key: string, receipt: Receipt, markKey: string, mark: Mark)

  datatype Outcome = Changed(document: Document) | Unchanged | Unknown(ref: string) | KeyError | ValueError

  datatype Reply =
    | Missing
    | Malformed
    | NotMember(ses: string)
    | Conflict(expected: string, actual: string)
    | UnknownOperation(ref: string)
    | Crashed
    | Replayed(document: Document)
    | Uncertain(document: Document)
    | Applied(document: Document)

  // ------------------------------------------------------------------------ mutations

  /** `str(int(revision or "0") + 1)`; none for the `ValueError` of a text that is no number. */
  function Next(revision: string): Option<string> {
    var v := OrElse(revision, "0");
    if AllDigits(v) then Some(NatToString(DigitsValue(v) + 1)) else None
  }

  predicate IsOpen(b: Block) { b.state == "open" && b.end == "" }

  predicate IsPending(b: Block) { b.end == "" }

  function TouchedBlock(b: Block, at: string): Block { if IsOpen(b) then b.(lastActivity := at) else b }

  function InvalidBlock(b: Block): Block { if IsPending(b) then b.(state := "unterminated") else b }

  function Touched(blocks: map<string, Block>, at: string): map<string, Block> {
    map k | k in blocks :: TouchedBlock(blocks[k], at)
  }

  function Invalidated(blocks: map<string, Block>): map<string, Block> { map k | k in blocks :: InvalidBlock(blocks[k]) }

  function OrOld(v: Option<string>, before: string): string { if v.Some? then v.value else before }

  function Corrected(b: Block, c: Changes): Block {
    b.(start := OrOld(c.start, b.start), end := OrOld(c.end, b.end), state := OrOld(c.state, b.state))
  }

  function UpTo(s: string, c: char): string { if s == "" || s[0] == c then "" else [s[0]] + UpTo(s[1..], c) }

  /** `_projection_block_ids`. */
  function BlockIds(parts: seq<string>): seq<string> {
    if parts == [] then [] else (if parts[0] == "" then [] else [UpTo(parts[0], '@')]) + BlockIds(parts[1..])
  }

  function Covers(m: Mark, id: string): bool { id in BlockIds(SplitOn(m.blocks, ',')) }

  function StaleReceipts(receipts: map<string, Receipt>): map<string, Receipt> {
    map k | k in receipts :: if receipts[k].status == "pending" then receipts[k].(status := "stale") else receipts[k]
  }

  function StaleMarks(marks: map<string, Mark>, id: string): map<string, Mark> {
    map k | k in marks :: if marks[k].status != "stale" && Covers(marks[k], id) then marks[k].(status := "stale") else marks[k]
  }

  function Archived(blocks: map<string, Block>, names: seq<string>): map<string, Block> {
    map k | k in blocks :: if k in names then blocks[k].(state := "archived") else blocks[k]
  }

  function Summarized(blocks: map<string, Block>, names: seq<string>): map<string, Block> {
    map k | k in blocks ::
      if k in names then blocks[k].(state := "suppressed", note := SUMMARY) else blocks[k]
  }

  const SUMMARY := "summarized on " + "user's order"

  function SetOf(names: seq<string>): set<string> { set n | n in names }

  function Reviewed(d: Document, id: string, c: Changes, reason: string, auth: string, next: string): Document
    requires id in d.blocks
  {
    var b := Corrected(d.blocks[id], c).(note := reason, auth := auth, revision := next);
    d.(blocks := d.blocks[id := b], receipts := StaleReceipts(d.receipts), projections := StaleMarks(d.projections, id))
  }

  function Purged(d: Document, mode: PurgeMode, present: seq<string>): Outcome {
    if mode.Delete? then
      if present == [] then Unchanged else Changed(d.(blocks := d.blocks - SetOf(present)))
    else if exists n :: n in present && n !in d.blocks then KeyError
    else if present == [] then Unchanged
    else Changed(d.(blocks := if mode.Archive? then Archived(d.blocks, present) else Summarized(d.blocks, present)))
  }

  function Mutate(d: Document, m: Mutation): Outcome {
    match m
    case OpenBlock(ref, start) =>
      if EntryName(ref) in d.blocks then Unchanged
      else if Next(d.revision).None? then ValueError
      else
        Changed(d.(blocks := d.blocks[EntryName(ref) := Block(start, "", "open", "", "", start, Next(d.revision).value)]))
    case CloseBlock(ref, end) =>
      if EntryName(ref) !in d.blocks then Unknown(ref)
      else if d.blocks[EntryName(ref)].end != "" then Unchanged
      else if Next(d.revision).None? then ValueError
      else
        var b := d.blocks[EntryName(ref)].(end := end, state := "closed", revision := Next(d.revision).value);
        Changed(d.(blocks := d.blocks[EntryName(ref) := b]))
    case Touch(at) =>
      if exists k :: k in d.blocks && IsOpen(d.blocks[k]) then Changed(d.(blocks := Touched(d.blocks, at))) else Unchanged
    case Invalidate =>
      if exists k :: k in d.blocks && IsPending(d.blocks[k]) then Changed(d.(blocks := Invalidated(d.blocks))) else Unchanged
    case Review(id, c, reason, auth) =>
      if id !in d.blocks then Unknown(id)
      else if Corrected(d.blocks[id], c) == d.blocks[id] then Unchanged
      else if Next(d.revision).None? then ValueError
      else Changed(Reviewed(d, id, c, reason, auth, Next(d.revision).value))
    case Purge(mode, present) => Purged(d, mode, present)
    case RecordReceipt(key, receipt, markKey, mark) =>
      Changed(d.(receipts := d.receipts[key := receipt], projections := d.projections[markKey := mark]))
  }

  /** `update` on the text of the file; `fails` when the write raises. */
  ghost function DoUpdate(
      file: Option<string>, ses: string, expected: Option<string>, m: Mutation, fails: bool): (Option<string>, Reply)
  {
    if file.None? then (file, Missing)
    else
      match Parsed(file.value)
      case None => (file, Malformed)
      case Some(d) => DoChange(file, d, ses, expected, m, fails)
  }

  /** `update` from the point where the file was read as `d`. */
  ghost function DoChange(
      file: Option<string>, d: Document, ses: string, expected: Option<string>, m: Mutation, fails: bool)
      : (Option<string>, Reply)
  {
    if d.ses != "" && d.ses != ses then (file, NotMember(d.ses))
    else if expected.Some? && d.revision != expected.value then (file, Conflict(expected.value, d.revision))
    else
      match Mutate(d, m)
      case Unknown(ref) => (file, UnknownOperation(ref))
      case KeyError => (file, Crashed)
      case ValueError => (file, Crashed)
      case Unchanged => (file, Replayed(d))
      case Changed(e) =>
        if Next(e.revision).None? then (file, Crashed)
        else
          var e' := e.(revision := Next(e.revision).value);
          if fails then (file, Uncertain(e')) else (Some(Serialized(e')), Applied(e'))
  }

  function NewDocument(project: string, ses: string, openedAt: string): Document {
    Document(project, ses, openedAt, "1", map[], map[], map[])
  }

  /** `ensure_timelog`, by a caller whose session record said `suppressed`. */
  ghost function DoEnsure(file: Option<string>, created: Document, suppressed: bool): Option<string> {
    if suppressed || file.Some? then file else Some(Serialized(created))
  }

  // -------------------------------------------------------------------------- the file

  class TimelogFile {
    /** The text of the canonical file, while there is one. */
    var text: Option<string>

    constructor (text: Option<string>)
      ensures this.text == text
    {
      this.text := text;
    }

    method Ensure(project: string, ses: string, openedAt: string, suppressed: bool)
      modifies this
      ensures text == DoEnsure(old(text), NewDocument(project, ses, openedAt), suppressed)
    {
      if suppressed || text.Some? {
        return;
      }
      var created := Serialize(NewDocument(project, ses, openedAt));
      text := Some(created);
    }

    method Update(ses: string, expected: Option<string>, m: Mutation, fails: bool) returns (r: Reply)
      modifies this
      ensures (text, r) == DoUpdate(old(text), ses, expected, m, fails)
    {
      if text.None? {
        return Missing;
      }
      var parsed := ParseTimelog(text.value);
      if parsed.None? {
        return Malformed;
      }
      r := Change(parsed.value, ses, expected, m, fails);
    }

    method Change(d: Document, ses: string, expected: Option<string>, m: Mutation, fails: bool) returns (r: Reply)
      modifies this
      ensures (text, r) == DoChange(old(text), d, ses, expected, m, fails)
    {
      if d.ses != "" && d.ses != ses {
        return NotMember(d.ses);
      }
      if expected.Some? && d.revision != expected.value {
        return Conflict(expected.value, d.revision);
      }
      var o := Apply(d, m);
      match o {
        case Unknown(ref) => r := UnknownOperation(ref);
        case KeyError => r := Crashed;
        case ValueError => r := Crashed;
        case Unchanged => r := Replayed(d);
        case Changed(e) => r := Write(e, fails);
      }
    }

    method Write(e: Document, fails: bool) returns (r: Reply)
      modifies this
      ensures Next(e.revision).None? ==> text == old(text) && r == Crashed
      ensures Next(e.revision).Some? ==>
        var e' := e.(revision := Next(e.revision).value);
        if fails then text == old(text) && r == Uncertain(e') else text == Some(Serialized(e')) && r == Applied(e')
    {
      var next := Next(e.revision);
      if next.None? {
        return Crashed;
      }
      var e' := e.(revision := next.value);
      if fails {
        return Uncertain(e');
      }
      var written := Serialize(e');
      text := Some(written);
      r := Applied(e');
    }

    method Apply(d: Document, m: Mutation) returns (o: Outcome)
      ensures o == Mutate(d, m)
    {
      match m {
        case Touch(at) => o := TouchOpen(d, at);
        case Invalidate => o := InvalidatePending(d);
        case Review(id, c, reason, auth) => o := ReviewBlock(d, id, c, reason, auth);
        case _ => o := Mutate(d, m);
      }
    }

    method ReviewBlock(d: Document, id: string, c: Changes, reason: string, auth: string) returns (o: Outcome)
      ensures o == Mutate(d, Review(id, c, reason, auth))
    {
      if id !in d.blocks {
        return Unknown(id);
      }
      var b := Corrected(d.blocks[id], c);
      if b == d.blocks[id] {
        return Unchanged;
      }
      var next := Next(d.revision);
      if next.None? {
        return ValueError;
      }
      b := b.(note := reason, auth := auth, revision := next.value);
      var receipts := StaleOpenReceipts(d.receipts);
      var marks := StaleCoveringMarks(d.projections, id);
      return Changed(d.(blocks := d.blocks[id := b], receipts := receipts, projections := marks));
    }

    method StaleOpenReceipts(all: map<string, Receipt>) returns (receipts: map<string, Receipt>)
      ensures receipts == StaleReceipts(all)
    {
      var left := all.Keys;
      receipts := all;
      while left != {}
        invariant left <= all.Keys == receipts.Keys
        invariant forall k | k in all :: receipts[k] == if k in left then all[k] else StaleReceipts(all)[k]
        decreases |left|
      {
        var k :| k in left;
        if receipts[k].status == "pending" {
          receipts := receipts[k := receipts[k].(status := "stale")];
        }
        left := left - {k};
      }
    }

    method StaleCoveringMarks(all: map<string, Mark>, id: string) returns (marks: map<string, Mark>)
      ensures marks == StaleMarks(all, id)
    {
      var left := all.Keys;
      marks := all;
      while left != {}
        invariant left <= all.Keys == marks.Keys
        invariant forall k | k in all :: marks[k] == if k in left then all[k] else StaleMarks(all, id)[k]
        decreases |left|
      {
        var k :| k in left;
        if marks[k].status != "stale" && Covers(marks[k], id) {
          marks := marks[k := marks[k].(status := "stale")];
        }
        left := left - {k};
      }
    }

    method TouchOpen(d: Document, at: string) returns (o: Outcome)
      ensures o == Mutate(d, Touch(at))
    {
      var blocks, changed := TouchBlocks(d.blocks, at);
      return if changed then Changed(d.(blocks := blocks)) else Unchanged;
    }

    method InvalidatePending(d: Document) returns (o: Outcome)
      ensures o == Mutate(d, Invalidate)
    {
      var blocks, changed := InvalidateBlocks(d.blocks);
      return if changed then Changed(d.(blocks := blocks)) else Unchanged;
    }

    method TouchBlocks(all: map<string, Block>, at: string) returns (blocks: map<string, Block>, changed: bool)
      ensures blocks == Touched(all, at) && (changed <==> exists k :: k in all && IsOpen(all[k]))
    {
      var left := all.Keys;
      blocks, changed := all, false;
      while left != {}
        invariant left <= all.Keys == blocks.Keys
        invariant changed <==> exists k :: k in all && k !in left && IsOpen(all[k])
        invariant forall k | k in all :: blocks[k] == if k in left then all[k] else TouchedBlock(all[k], at)
        decreases |left|
      {
        var k :| k in left;
        if IsOpen(blocks[k]) {
          blocks := blocks[k := blocks[k].(lastActivity := at)];
          changed := true;
        }
        left := left - {k};
      }
    }

    method InvalidateBlocks(all: map<string, Block>) returns (blocks: map<string, Block>, changed: bool)
      ensures blocks == Invalidated(all) && (changed <==> exists k :: k in all && IsPending(all[k]))
    {
      var left := all.Keys;
      blocks, changed := all, false;
      while left != {}
        invariant left <= all.Keys == blocks.Keys
        invariant changed <==> exists k :: k in all && k !in left && IsPending(all[k])
        invariant forall k | k in all :: blocks[k] == if k in left then all[k] else InvalidBlock(all[k])
        decreases |left|
      {
        var k :| k in left;
        if IsPending(blocks[k]) {
          blocks := blocks[k := blocks[k].(state := "unterminated")];
          changed := true;
        }
        left := left - {k};
      }
    }
  }
}
