/** The text of the brain file: what a prune writes, and an id that ends in a line break. */
module PulseFile {
  import opened Text
  import opened Attrs
  import opened CortexModel
  import opened CortexReader
  import opened CortexWriter
  import opened CortexEntries
  import opened CortexRoundTrip
  import opened CortexDocument
  import opened PulseText

  // --------------------------------------------------------------- splitting and joining

  /**
   * `splitlines` of a text as `read_text` gives it, which holds no carriage return: what a break ends
   * is a line, and what follows the last break is one only when it is not empty.
   */
  function SplitLines(text: string): seq<string> {
    var all := Pieces(text);
    if all[|all| - 1] == "" then all[..|all| - 1] else all
  }

  /** What a prune writes over a file with this text. */
  function PrunedText(text: string, wanted: set<string>): string {
    Unlines(KeptLines(SplitLines(text), wanted)) + "\n"
  }

  /** A text of these parts, each followed by a line break. */
  function Joined(parts: seq<string>): string { Unlines(parts) + "\n" }

  /** Each pulse and a blank line. */
  function PulseParts(es: seq<Event>): seq<string> {
    if es == [] then [] else [PrintedEvent(es[0]), ""] + PulseParts(es[1..])
  }

  /** The same without the text of the selected pulses. */
  function OtherParts(es: seq<Event>, wanted: set<string>): seq<string> {
    if es == [] then []
    else (if Selected(es[0], wanted) then [""] else [PrintedEvent(es[0]), ""]) + OtherParts(es[1..], wanted)
  }

  lemma SplitJoined(parts: seq<string>)
    requires parts != []
    ensures SplitLines(Joined(parts)) == Flat(parts)
  {
    PiecesUnlines(parts);
    var text := Unlines(parts);
    PiecesConcat(text, "");
    assert text + "\n" + "" == text + "\n";
    var all := Flat(parts) + [""];
    assert all[..|all| - 1] == Flat(parts);
  }

  lemma FlatTwo(text: string, rest: seq<string>)
    ensures Flat([text, ""] + rest) == Pieces(text) + ([""] + Flat(rest))
    ensures Flat([""] + rest) == [""] + Flat(rest)
  {
    assert ([text, ""] + rest)[1..] == [""] + rest && ([""] + rest)[1..] == rest;
  }

  lemma {:induction false} FlatParts(es: seq<Event>, wanted: set<string>)
    ensures Flat(PulseParts(es)) == PulseLines(es)
    ensures Flat(OtherParts(es, wanted)) == OtherLines(es, wanted)
  {
    if es != [] {
      FlatParts(es[1..], wanted);
      FlatTwo(PrintedEvent(es[0]), PulseParts(es[1..]));
      FlatTwo(PrintedEvent(es[0]), OtherParts(es[1..], wanted));
    }
  }

  // ------------------------------------------------------------- breaks that are rewritten

  /** The only break in the text is the line feed. */
  predicate PlainBreaks(x: string) { forall c | c in x && IsBreak(c) :: c == '\n' }

  predicate AllPlain(parts: seq<string>) { forall x | x in parts :: PlainBreaks(x) }

  predicate AllSingle(lines: seq<string>) { forall l | l in lines :: SingleLine(l) }

  lemma {:induction false} PiecesSingle(s: string)
    ensures AllSingle(Pieces(s))
  {
    if s != "" {
      PiecesSingle(s[1..]);
      var r := Pieces(s[1..]);
      assert r[0] in r && forall x | x in r[1..] :: x in r;
    }
  }

  /** Lines and pieces agree exactly on a text whose only break is the line feed. */
  lemma {:induction false} LinesArePieces(s: string)
    ensures PlainBreaks(s) ==> Lines(s) == Pieces(s)
    ensures AllSingle(Lines(s)) <==> PlainBreaks(s)
  {
    if s != "" {
      var t := s[1..];
      LinesArePieces(t);
      assert s == [s[0]] + t;
      assert PlainBreaks(s) <==> PlainBreaks(t) && (IsBreak(s[0]) ==> s[0] == '\n');
      var r := Lines(t);
      assert r == [r[0]] + r[1..];
      if s[0] == '\n' {
        SingleCons("", r);
      } else {
        SingleCons([s[0]] + r[0], r[1..]);
        SingleCons(r[0], r[1..]);
        SingleHead(s[0], r[0]);
      }
    }
  }

  lemma SingleCons(x: string, rest: seq<string>)
    ensures AllSingle([x] + rest) <==> SingleLine(x) && AllSingle(rest)
  {
    assert forall y :: y in [x] + rest <==> y == x || y in rest;
  }

  lemma SingleHead(c: char, x: string)
    ensures SingleLine([c] + x) <==> !IsBreak(c) && SingleLine(x)
  {
    assert forall d :: d in [c] + x <==> d == c || d in x;
  }

  lemma SingleConcat(a: seq<string>, b: seq<string>)
    ensures AllSingle(a + b) <==> AllSingle(a) && AllSingle(b)
  {
    assert forall x :: x in a + b <==> x in a || x in b;
  }

  lemma {:induction false} FlattenedLines(parts: seq<string>)
    ensures AllPlain(parts) ==> FlattenLines(parts) == Flat(parts)
    ensures AllSingle(FlattenLines(parts)) <==> AllPlain(parts)
  {
    if parts != [] {
      FlattenedLines(parts[1..]);
      LinesArePieces(parts[0]);
      SingleConcat(Lines(parts[0]), FlattenLines(parts[1..]));
      assert parts == [parts[0]] + parts[1..];
      assert AllPlain(parts) <==> PlainBreaks(parts[0]) && AllPlain(parts[1..]);
    }
  }

  lemma {:induction false} FlatSingle(parts: seq<string>)
    ensures AllSingle(Flat(parts))
  {
    if parts != [] {
      FlatSingle(parts[1..]);
      PiecesSingle(parts[0]);
      SingleConcat(Pieces(parts[0]), Flat(parts[1..]));
    }
  }

  lemma {:induction false} SingleLinesFlatten(lines: seq<string>)
    requires AllSingle(lines)
    ensures FlattenLines(lines) == lines
  {
    if lines != [] {
      assert lines[0] in lines && forall l | l in lines[1..] :: l in lines;
      assert '\n' !in lines[0] by { assert IsBreak('\n'); }
      LinesPlain(lines[0]);
      SingleLinesFlatten(lines[1..]);
    }
  }

  lemma KeptSingle(lines: seq<string>, wanted: set<string>)
    requires AllSingle(lines)
    ensures AllSingle(KeptLines(lines, wanted))
  {
    forall l | l in KeptLines(lines, wanted) ensures SingleLine(l) {
      KeptMembers(lines, wanted, l);
    }
  }

  /** Single lines joined are the joined parts exactly when the parts have those lines and no other break. */
  lemma JoinedEqual(lines: seq<string>, parts: seq<string>)
    requires lines != [] && parts != [] && AllSingle(lines)
    ensures Joined(lines) == Joined(parts) <==> AllPlain(parts) && lines == Flat(parts)
  {
    LinesUnlines(lines);
    LinesUnlines(parts);
    SingleLinesFlatten(lines);
    FlattenedLines(parts);
    if Joined(lines) == Joined(parts) {
      var a, b := Unlines(lines), Unlines(parts);
      assert a == (a + "\n")[..|a|] && b == (b + "\n")[..|b|] && |a + "\n"| == |b + "\n"|;
      assert a == b;
    } else if AllPlain(parts) && lines == Flat(parts) {
      UnlinesLines(Unlines(lines));
      UnlinesLines(Unlines(parts));
    }
  }

  // ------------------------------------------------------------- the partition on the text

  /** The parts of the file, with the pulses of the section between the others. */
  function FileParts(before: seq<string>, es: seq<string>, after: seq<string>): seq<string> { before + (es + after) }

  lemma FlatFile(before: seq<string>, parts: seq<string>, after: seq<string>)
    ensures Flat(FileParts(before, parts, after)) == Flat(before) + (Flat(parts) + Flat(after))
  {
    FlatConcat(before, parts + after);
    FlatConcat(parts, after);
  }

  /**
   * A prune writes the file without the text of the selected pulses, and with every other text as it
   * was, if and only if nothing it keeps holds a break other than the line feed, no line outside the
   * pulses declares a wanted id, no line of a pulse that stays does, and every line of a selected one does.
   */
  lemma PrunePartitionsText(before: seq<string>, es: seq<Event>, after: seq<string>, wanted: set<string>)
    requires "" !in wanted && before != []
    ensures (PrunedText(Joined(FileParts(before, PulseParts(es), after)), wanted)
             == Joined(FileParts(before, OtherParts(es, wanted), after)))
      <==> (&& AllPlain(FileParts(before, OtherParts(es, wanted), after))
            && Unclaimed(Flat(before), wanted) && Unclaimed(Flat(after), wanted) && AllSeparable(es, wanted))
  {
    var parts, left := FileParts(before, PulseParts(es), after), FileParts(before, OtherParts(es, wanted), after);
    SplitJoined(parts);
    FlatParts(es, wanted);
    FlatFile(before, PulseParts(es), after);
    FlatFile(before, OtherParts(es, wanted), after);
    assert Flat(parts) == FileLines(Flat(before), es, Flat(after));
    PrunePartitions(Flat(before), es, Flat(after), wanted);
    var kept := KeptLines(Flat(parts), wanted);
    FlatSingle(parts);
    KeptSingle(Flat(parts), wanted);
    if kept != [] {
      JoinedEqual(kept, left);
    } else {
      NothingKept(before, Flat(parts), left, wanted);
    }
  }

  /** When every line goes, the blank text left is not the file without the pulses. */
  lemma NothingKept(before: seq<string>, lines: seq<string>, left: seq<string>, wanted: set<string>)
    requires "" !in wanted && before != [] && KeptLines(lines, wanted) == [] && before <= left
    requires Flat(before) <= lines
    ensures !Unclaimed(Flat(before), wanted) && Joined([]) != Joined(left)
  {
    KeptLength(lines, wanted);
    var first := Pieces(before[0])[0];
    assert Flat(before)[0] == first && lines[0] == first && first in lines && first in Flat(before);
    BlankKept(wanted);
    assert before[0] != "" by { assert Pieces("") == [""]; }
    assert left[0] == before[0];
    assert |Unlines(left)| >= |left[0]|;
  }

  /** A pulse that stays but holds such a break is written over two lines: the file is changed by a prune of others. */
  lemma BrokenPulseIsRewritten(before: seq<string>, es: seq<Event>, after: seq<string>, wanted: set<string>, e: Event)
    requires "" !in wanted && before != [] && e in es && !Selected(e, wanted) && !PlainBreaks(PrintedEvent(e))
    ensures PrunedText(Joined(FileParts(before, PulseParts(es), after)), wanted)
         != Joined(FileParts(before, OtherParts(es, wanted), after))
  {
    PrunePartitionsText(before, es, after, wanted);
    OtherPart(es, wanted, e);
    assert PrintedEvent(e) in FileParts(before, OtherParts(es, wanted), after);
  }

  lemma {:induction false} OtherPart(es: seq<Event>, wanted: set<string>, e: Event)
    requires e in es && !Selected(e, wanted)
    ensures PrintedEvent(e) in OtherParts(es, wanted)
  {
    if e == es[0] {
      assert OtherParts(es, wanted)[0] == PrintedEvent(e);
    } else {
      assert e in es[1..];
      OtherPart(es[1..], wanted, e);
    }
  }

  // --------------------------------------------------------- an id that ends in a line break

  /** A line that starts with a brace or a quote is no entry. */
  lemma OddLine(c: char, t: string, more: seq<string>, st: State)
    requires (c == '{' || c == '"') && ValidState(st)
    ensures ReadLines([[c] + t] + more, st) == ReadLines(more, st)
  {
    var w := RStripKeeps([c], t);
    var s := [c] + w;
    assert Strip([c] + t) == s && s[0] == c;
    assert Classify(s, st) == Ignored;
    ReadLinesStep([c] + t, more, st);
    assert more[0..] == more;
  }

  /** The start of a stored pulse without its brace is no entry either. */
  lemma BareHead(name: string, more: seq<string>, st: State)
    requires PlainName(name) && name != "" && ValidState(st)
    ensures ReadLines(["AUD:" + name] + more, st) == ReadLines(more, st)
  {
    var s := "AUD:" + name;
    assert s[|s| - 1] == name[|name| - 1] && name[|name| - 1] in name && s[0] == 'A';
    TrimmedStrip(s);
    NoBrace(s, name);
    assert Classify(s, st) == Ignored;
    ReadLinesStep(s, more, st);
    assert more[0..] == more;
  }

  lemma NoBrace(s: string, name: string)
    requires s == "AUD:" + name && PlainName(name) && name != ""
    ensures MatchHead(s).NoHead?
  {
    AudIsSigil();
    SigilStops("AUD", ":" + name);
    assert s == "AUD" + (":" + name);
    HeadLayout("AUD", name);
    NameAll(name);
    assert name[0] in name;
    assert name[0..] == name && name[|name|..] == "";
    assert s[3..][0] == ':' && SpaceLen(s[3..]) == 0;
    assert MatchName("AUD", name).NoHead?;
  }

  lemma {:induction false} NameAll(t: string)
    requires PlainName(t)
    ensures NameLen(t) == |t|
  {
    if t != "" {
      assert t[0] in t && forall c | c in t[1..] :: c in t;
      NameAll(t[1..]);
    }
  }

  /** Values on one line but for the event, which ends in a line break as the name does. */
  predicate EndsInBreak(e: Event, name: string, id: string) {
    && e.name == name + "\n" && e.event == id + "\n" && PlainName(name) && name != "" && '\n' !in id
    && SingleLine(e.date) && SingleLine(e.task) && SingleLine(e.kind) && SingleLine(e.agent) && SingleLine(e.evidence)
    && SingleLine(e.cycle) && SingleLine(e.sesRef)
  }

  lemma {:induction false} EscapeNoBreak(v: string)
    requires '\n' !in v
    ensures '\n' !in Escape(v)
  {
    if v != "" { EscapeEnd(v); } else { EscapeOrdinary(v); }
  }

  lemma EventCell(id: string)
    requires '\n' !in id
    ensures var a := Attr("event", VStr(id + "\n")); PairText(a) == ("event:\"" + Escape(id)) + "\n" + "\""
  {
    EscapeConcat(id, "\n");
    EscapeOrdinary("\n");
  }

  /** The two first attributes and the rest, as they are printed. */
  lemma TwoThenRest(a: Attr, b: Attr, more: AttrMap)
    requires a.value.VStr? && b.value.VStr? && more != [] && forall x | x in more :: x.value.VStr?
    ensures Serialised([a, b] + more) == PairText(a) + (", " + (PairText(b) + (", " + Serialised(more))))
  {
    RestPrints(more);
    FirstThenRest(b, more);
    FirstThenRest(a, [b] + more);
    assert [a, b] + more == [a] + ([b] + more);
  }

  lemma BrokenLines3(head: string, p: string, q: string)
    requires '\n' !in head && '\n' !in p && '\n' !in q
    ensures Lines(head + "\n" + (p + "\n" + q)) == [head] + ([p] + [q])
  {
    LinesConcat(head, p + "\n" + q);
    LinesConcat(p, q);
    LinesPlain(head);
    LinesPlain(p);
    LinesPlain(q);
  }

  lemma RestSingle(e: Event, more: AttrMap)
    requires more == EventAttrs(e)[2..]
    requires SingleLine(e.task) && SingleLine(e.kind) && SingleLine(e.agent) && SingleLine(e.evidence)
    requires SingleLine(e.cycle) && SingleLine(e.sesRef)
    ensures more != [] && (forall a | a in more :: LineAttr(a)) && '\n' !in Serialised(more)
  {
    KeysSingleLine();
    assert more[0] == Attr("task", VStr(e.task));
    assert forall a | a in more :: LineAttr(a);
    SerialisedSingleLine(more);
    assert IsBreak('\n');
  }

  lemma PrintedInThree(e: Event, name: string, id: string) returns (p: string, q: string)
    requires EndsInBreak(e, name, id)
    ensures Lines(PrintedEvent(e)) == ["AUD:" + name] + ([['{'] + p] + [['"'] + q])
  {
    var attrs := EventAttrs(e);
    var more := attrs[2..];
    RestSingle(e, more);
    assert attrs == [attrs[0], attrs[1]] + more;
    TwoThenRest(attrs[0], attrs[1], more);
    EventCell(id);
    p := PairText(attrs[0]) + (", " + ("event:\"" + Escape(id)));
    q := ", " + (Serialised(more) + "}");
    ThreeParts(name, PairText(attrs[0]), "event:\"" + Escape(id), Serialised(more), Serialised(attrs), p, q);
    NoBreaks(e.date, id, name);
    BrokenLines3("AUD:" + name, ['{'] + p, ['"'] + q);
  }

  lemma NoBreaks(date: string, id: string, name: string)
    requires SingleLine(date) && '\n' !in id && PlainName(name)
    ensures '\n' !in PairText(Attr("date", VStr(date))) && '\n' !in "event:\"" + Escape(id) && '\n' !in "AUD:" + name
  {
    assert IsBreak('\n') && IsSpace('\n');
    EscapeNoBreak(id);
    EscapeNoBreak(date);
  }

  lemma ThreeParts(name: string, date: string, event: string, more: string, all: string, p: string, q: string)
    requires all == date + (", " + ((event + "\n" + "\"") + (", " + more)))
    requires p == date + (", " + event) && q == ", " + (more + "}")
    ensures "AUD:" + ((name + "\n") + ("{" + (all + "}"))) == ("AUD:" + name) + "\n" + ((['{'] + p) + "\n" + (['"'] + q))
  {
    assert all + "}" == p + ("\n" + (['"'] + q));
    assert "{" + (all + "}") == (['{'] + p) + "\n" + (['"'] + q);
  }

  /**
   * A pulse whose id ends in a line break is printed over three lines, and the reader takes none of
   * them for an entry: what was recorded is not in the brain that the next call reads.
   */
  lemma BrokenIdIsIgnored(e: Event, name: string, id: string, rest: seq<string>, st: State)
    requires EndsInBreak(e, name, id) && ValidState(st)
    ensures ReadLines(Lines(PrintedEvent(e)) + rest, st) == ReadLines(rest, st)
  {
    var p, q := PrintedInThree(e, name, id);
    var a, b, c := "AUD:" + name, ['{'] + p, ['"'] + q;
    assert [a] + ([b] + [c]) + rest == [a] + ([b] + ([c] + rest));
    BareHead(name, [b] + ([c] + rest), st);
    OddLine('{', p, [c] + rest, st);
    OddLine('"', q, rest, st);
  }
}
