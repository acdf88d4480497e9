/** Pulses as the brain prints them, and the pruning of their lines (`pulse.py`). */
module PulseText {
  import opened Text
  import opened Attrs
  import opened CortexModel
  import opened CortexReader
  import opened CortexWriter
  import opened CortexScan
  import opened CortexEntries
  import opened CortexRoundTrip
  import opened CortexDocument

  /** An `AUD` entry of the PULSE section; `name` is the stored spelling of `event`. */
  datatype Event = Event(
    name: string, event: string, date: string, task: string, kind: string, agent: string, evidence: string,
    cycle: string, sesRef: string)

  // ---------------------------------------------------------------------- printing

  function OptionalAttr(key: string, v: string): AttrMap { if v == "" then [] else [Attr(key, VStr(v))] }

  function EventAttrs(e: Event): AttrMap {
    [Attr("date", VStr(e.date)), Attr("event", VStr(e.event)), Attr("task", VStr(e.task)), Attr("kind", VStr(e.kind)),
     Attr("agent", VStr(e.agent)), Attr("result", VStr(e.evidence)), Attr("evidence", VStr(e.evidence))]
    + (OptionalAttr("cycle", e.cycle) + OptionalAttr("ses_ref", e.sesRef))
  }

  function ToEntry(e: Event): Entry { Entry("AUD", e.name, Pairs(EventAttrs(e))) }

  function PrintedEvent(e: Event): string { "AUD:" + (e.name + ("{" + (Serialised(EventAttrs(e)) + "}"))) }

  lemma PrintedIsEntryText(e: Event)
    ensures EntryText(ToEntry(e)) == Some(PrintedEvent(e))
  {
    var a, b, c, d := "AUD:", e.name, Serialised(EventAttrs(e)), "}";
    assert "AUD" + ":" == a;
    RegroupEvent(a, b, c, d);
  }

  lemma RegroupEvent(a: string, b: string, c: string, d: string)
    ensures a + b + "{" + c + d == a + (b + ("{" + (c + d)))
  {}

  // ---------------------------------------------------------------- the id a line declares

  /** `_normalize_id`. */
  function Normalize(id: string): string { Strip(Replace(id, "_", "-")) }

  function UpToBrace(s: string): string {
    if s == "" || s[0] == '{' || IsSpace(s[0]) then "" else [s[0]] + UpToBrace(s[1..])
  }

  function UpToSpace(s: string): string { if s == "" || IsSpace(s[0]) then "" else [s[0]] + UpToSpace(s[1..]) }

  /** The first `id=` at a word boundary that something follows. */
  function FindId(s: string, inWord: bool): Option<string> {
    if s == "" then None
    else if !inWord && StartsWith(s, "id=") && UpToSpace(s[3..]) != "" then Some(UpToSpace(s[3..]))
    else FindId(s[1..], IsIdentChar(s[0]))
  }

  /** `_line_entry_id`. */
  function LineId(line: string): string {
    var s := Strip(line);
    if StartsWith(s, "AUD:") then Normalize(UpToBrace(s[4..]))
    else if StartsWith(s, "- [") then match FindId(s, false) case Some(id) => Normalize(id) case None => ""
    else ""
  }

  /** The lines a prune keeps. */
  function KeptLines(lines: seq<string>, wanted: set<string>): seq<string> {
    if lines == [] then []
    else
      var last := lines[|lines| - 1];
      KeptLines(lines[..|lines| - 1], wanted) + if LineId(last) in wanted then [] else [last]
  }

  /** The loop of `_prune_pulse_entries`. */
  method PruneLines(lines: seq<string>, wanted: set<string>) returns (kept: seq<string>, pruned: nat)
    ensures kept == KeptLines(lines, wanted) && pruned + |kept| == |lines|
  {
    kept, pruned := [], 0;
    for i := 0 to |lines|
      invariant kept == KeptLines(lines[..i], wanted) && pruned + |kept| == i
    {
      assert lines[..i + 1][..i] == lines[..i];
      if LineId(lines[i]) in wanted {
        pruned := pruned + 1;
      } else {
        kept := kept + [lines[i]];
      }
    }
    assert lines[..|lines|] == lines;
  }

  predicate Unclaimed(lines: seq<string>, wanted: set<string>) { forall l | l in lines :: LineId(l) !in wanted }

  predicate Claimed(lines: seq<string>, wanted: set<string>) { forall l | l in lines :: LineId(l) in wanted }

  lemma {:induction false} KeptConcat(a: seq<string>, b: seq<string>, wanted: set<string>)
    ensures KeptLines(a + b, wanted) == KeptLines(a, wanted) + KeptLines(b, wanted)
    decreases |b|
  {
    if b == [] {
      assert a + b == a;
    } else {
      var init, last := b[..|b| - 1], b[|b| - 1];
      assert (a + b)[..|a + b| - 1] == a + init && (a + b)[|a + b| - 1] == last;
      KeptConcat(a, init, wanted);
      var tail := if LineId(last) in wanted then [] else [last];
      ConcatAssoc(KeptLines(a, wanted), KeptLines(init, wanted), tail);
    }
  }

  lemma ClaimsSnoc(init: seq<string>, last: string, wanted: set<string>)
    ensures Unclaimed(init + [last], wanted) <==> Unclaimed(init, wanted) && LineId(last) !in wanted
    ensures Claimed(init + [last], wanted) <==> Claimed(init, wanted) && LineId(last) in wanted
  {
    assert forall l | l in init :: l in init + [last];
    assert last in init + [last];
  }

  lemma {:induction false} KeptLength(lines: seq<string>, wanted: set<string>)
    ensures |KeptLines(lines, wanted)| <= |lines|
    ensures KeptLines(lines, wanted) == lines <==> Unclaimed(lines, wanted)
    ensures |KeptLines(lines, wanted)| == |lines| ==> Unclaimed(lines, wanted)
    ensures KeptLines(lines, wanted) == [] <==> Claimed(lines, wanted)
    decreases |lines|
  {
    if lines != [] {
      var init, last := lines[..|lines| - 1], lines[|lines| - 1];
      KeptLength(init, wanted);
      assert lines == init + [last];
      ClaimsSnoc(init, last, wanted);
      KeptSnoc(KeptLines(init, wanted), init, last);
    }
  }

  lemma KeptSnoc(kept: seq<string>, init: seq<string>, last: string)
    requires |kept| <= |init|
    ensures kept + [last] == init + [last] <==> kept == init
    ensures kept != init + [last] && kept + [last] != []
  {
    assert kept + [last] == init + [last] ==> kept == (kept + [last])[..|kept|] && init == (init + [last])[..|init|];
  }

  /** No line that stays declares a wanted id, and every other line stays. */
  lemma {:induction false} KeptMembers(lines: seq<string>, wanted: set<string>, l: string)
    ensures l in KeptLines(lines, wanted) <==> l in lines && LineId(l) !in wanted
    decreases |lines|
  {
    if lines != [] {
      var init, last := lines[..|lines| - 1], lines[|lines| - 1];
      KeptMembers(init, wanted, l);
      assert lines == init + [last];
    }
  }

  // ---------------------------------------------------------------------- the partition

  /** The lines of a printed pulse. */
  function EventLines(e: Event): seq<string> { Pieces(PrintedEvent(e)) }

  /** Pulses as the section prints them, each followed by a blank line. */
  function PulseLines(es: seq<Event>): seq<string> {
    if es == [] then [] else EventLines(es[0]) + ([""] + PulseLines(es[1..]))
  }

  predicate Selected(e: Event, wanted: set<string>) { Normalize(e.name) in wanted }

  /** The lines of the pulses that are not selected, with every blank line. */
  function OtherLines(es: seq<Event>, wanted: set<string>): seq<string> {
    if es == [] then []
    else (if Selected(es[0], wanted) then [] else EventLines(es[0])) + ([""] + OtherLines(es[1..], wanted))
  }

  /** What a prune must find for a pulse: all of its lines claimed, or none. */
  predicate Separable(e: Event, wanted: set<string>) {
    if Selected(e, wanted) then Claimed(EventLines(e), wanted) else Unclaimed(EventLines(e), wanted)
  }

  predicate AllSeparable(es: seq<Event>, wanted: set<string>) { forall e | e in es :: Separable(e, wanted) }

  lemma BlankKept(wanted: set<string>)
    requires "" !in wanted
    ensures LineId("") !in wanted && KeptLines([""], wanted) == [""]
  {
    TrimmedStrip("");
    assert LineId("") == "";
    assert [""][..0] == [] && KeptLines([""], wanted) == KeptLines([""][..0], wanted) + [""];
  }

  lemma {:induction false} SeparableKept(es: seq<Event>, wanted: set<string>)
    requires "" !in wanted && AllSeparable(es, wanted)
    ensures KeptLines(PulseLines(es), wanted) == OtherLines(es, wanted)
  {
    if es != [] {
      var e, rest := es[0], es[1..];
      assert e in es && forall x | x in rest :: x in es;
      SeparableKept(rest, wanted);
      BlankKept(wanted);
      KeptConcat(EventLines(e), [""] + PulseLines(rest), wanted);
      KeptConcat([""], PulseLines(rest), wanted);
      KeptLength(EventLines(e), wanted);
    }
  }

  /** Lines that stay hold no wanted id, so neither do the pulses that must stay. */
  lemma {:induction false} OthersUnclaimed(es: seq<Event>, wanted: set<string>, e: Event)
    requires e in es && !Selected(e, wanted) && Unclaimed(OtherLines(es, wanted), wanted)
    ensures Unclaimed(EventLines(e), wanted)
  {
    var all, rest := OtherLines(es, wanted), OtherLines(es[1..], wanted);
    if e == es[0] {
      assert all == EventLines(e) + ([""] + rest);
      assert forall l | l in EventLines(e) :: l in all;
    } else {
      assert e in es[1..];
      var first := if Selected(es[0], wanted) then [] else EventLines(es[0]);
      assert all == first + ([""] + rest);
      assert forall l | l in rest :: l in all;
      OthersUnclaimed(es[1..], wanted, e);
    }
  }

  /** When the pulses that stay are unclaimed, equal lengths leave nothing of the selected ones. */
  lemma {:induction false} EqualLengths(es: seq<Event>, wanted: set<string>)
    requires "" !in wanted
    requires forall e | e in es && !Selected(e, wanted) :: Unclaimed(EventLines(e), wanted)
    ensures |KeptLines(PulseLines(es), wanted)| >= |OtherLines(es, wanted)|
    ensures |KeptLines(PulseLines(es), wanted)| == |OtherLines(es, wanted)| ==> AllSeparable(es, wanted)
  {
    if es != [] {
      var e, rest := es[0], es[1..];
      assert e in es && forall x | x in rest :: x in es;
      EqualLengths(rest, wanted);
      BlankKept(wanted);
      KeptConcat(EventLines(e), [""] + PulseLines(rest), wanted);
      KeptConcat([""], PulseLines(rest), wanted);
      KeptLength(EventLines(e), wanted);
      assert forall x | x in es :: x == e || x in rest;
    }
  }

  /** The file: other lines, the pulses, other lines. */
  function FileLines(before: seq<string>, es: seq<Event>, after: seq<string>): seq<string> {
    before + (PulseLines(es) + after)
  }

  lemma KeptFile(before: seq<string>, es: seq<Event>, after: seq<string>, wanted: set<string>)
    ensures KeptLines(FileLines(before, es, after), wanted)
         == KeptLines(before, wanted) + (KeptLines(PulseLines(es), wanted) + KeptLines(after, wanted))
  {
    KeptConcat(before, PulseLines(es) + after, wanted);
    KeptConcat(PulseLines(es), after, wanted);
  }

  /**
   * A prune is a partition, taking exactly the selected pulses and leaving every other line,
   * if and only if no line outside the pulses declares a wanted id, no line of a pulse that
   * is not selected does, and every line of a selected one does.
   */
  lemma PrunePartitions(before: seq<string>, es: seq<Event>, after: seq<string>, wanted: set<string>)
    requires "" !in wanted
    ensures KeptLines(FileLines(before, es, after), wanted) == before + (OtherLines(es, wanted) + after)
      <==> Unclaimed(before, wanted) && Unclaimed(after, wanted) && AllSeparable(es, wanted)
  {
    KeptFile(before, es, after, wanted);
    KeptLength(before, wanted);
    KeptLength(after, wanted);
    if Unclaimed(before, wanted) && Unclaimed(after, wanted) && AllSeparable(es, wanted) {
      SeparableKept(es, wanted);
    } else if KeptLines(FileLines(before, es, after), wanted) == before + (OtherLines(es, wanted) + after) {
      PartitionSeparates(before, es, after, wanted);
    }
  }

  lemma PartitionSeparates(before: seq<string>, es: seq<Event>, after: seq<string>, wanted: set<string>)
    requires "" !in wanted
    requires KeptLines(before, wanted) + (KeptLines(PulseLines(es), wanted) + KeptLines(after, wanted))
          == before + (OtherLines(es, wanted) + after)
    ensures Unclaimed(before, wanted) && Unclaimed(after, wanted) && AllSeparable(es, wanted)
  {
    var all := before + (OtherLines(es, wanted) + after);
    AllUnclaimed(before, PulseLines(es), after, wanted, all);
    assert forall l | l in before :: l in all;
    assert forall l | l in after :: l in all;
    assert forall l | l in OtherLines(es, wanted) :: l in all;
    forall e | e in es && !Selected(e, wanted) ensures Unclaimed(EventLines(e), wanted) {
      OthersUnclaimed(es, wanted, e);
    }
    KeptLength(before, wanted);
    KeptLength(after, wanted);
    EqualLengths(es, wanted);
  }

  lemma AllUnclaimed(a: seq<string>, b: seq<string>, c: seq<string>, wanted: set<string>, all: seq<string>)
    requires KeptLines(a, wanted) + (KeptLines(b, wanted) + KeptLines(c, wanted)) == all
    ensures Unclaimed(all, wanted)
  {
    forall l | l in all ensures LineId(l) !in wanted {
      KeptMembers(a, wanted, l);
      KeptMembers(b, wanted, l);
      KeptMembers(c, wanted, l);
    }
  }

  // ------------------------------------------------------------------- pulses on one line

  predicate PlainName(name: string) { forall c | c in name :: c != '{' && !IsSpace(c) }

  lemma {:induction false} UpToBraceStops(name: string, rest: string)
    requires PlainName(name)
    ensures UpToBrace(name + ("{" + rest)) == name
  {
    if name == "" {
      assert name + ("{" + rest) == "{" + rest;
    } else {
      assert name[0] in name;
      assert (name + ("{" + rest))[1..] == name[1..] + ("{" + rest);
      assert forall c | c in name[1..] :: c in name;
      UpToBraceStops(name[1..], rest);
    }
  }

  lemma {:induction false} RStripKeeps(p: string, w: string) returns (w': string)
    requires p != "" && !IsSpace(p[|p| - 1])
    ensures RStrip(p + w) == p + w'
    decreases |w|
  {
    if w == "" {
      w' := "";
      assert p + w == p;
    } else {
      assert (p + w)[|p + w| - 1] == w[|w| - 1];
      if IsSpace(w[|w| - 1]) {
        assert (p + w)[..|p + w| - 1] == p + w[..|w| - 1];
        w' := RStripKeeps(p, w[..|w| - 1]);
      } else {
        w' := w;
      }
    }
  }

  /** Any line that starts like a stored pulse declares that pulse's id. */
  lemma LineIdOf(name: string, w: string)
    requires PlainName(name)
    ensures LineId("AUD:" + (name + ("{" + w))) == Normalize(name)
  {
    var line, p := "AUD:" + (name + ("{" + w)), "AUD:" + (name + "{");
    assert line == p + w && p[|p| - 1] == '{';
    var w' := RStripKeeps(p, w);
    assert line[0] == 'A';
    AudLine(p + w', name, w');
    UpToBraceStops(name, w');
  }

  lemma AudLine(s: string, name: string, w: string)
    requires s == "AUD:" + (name + "{") + w
    ensures StartsWith(s, "AUD:") && s[4..] == name + ("{" + w)
  {
    var t := name + ("{" + w);
    assert s == "AUD:" + t;
    SplitAt("AUD:", t);
  }

  /** Names without braces or blanks, and values that hold no line break. */
  predicate Tame(e: Event) {
    && PlainName(e.name) && SingleLine(e.event) && SingleLine(e.date) && SingleLine(e.task) && SingleLine(e.kind)
    && SingleLine(e.agent) && SingleLine(e.evidence) && SingleLine(e.cycle) && SingleLine(e.sesRef)
  }

  predicate LineAttr(a: Attr) { SingleLine(a.key) && a.value.VStr? && SingleLine(a.value.s) }

  lemma {:induction false} EscapeSingleLine(v: string)
    requires SingleLine(v)
    ensures SingleLine(Escape(v))
  {
    if v != "" {
      EscapeStep(v);
      assert v[0] in v && forall c | c in v[1..] :: c in v;
      EscapeSingleLine(v[1..]);
    }
  }

  lemma PairSingleLine(a: Attr)
    requires LineAttr(a)
    ensures SingleLine(PairText(a))
  {
    EscapeSingleLine(a.value.s);
  }

  lemma {:induction false} SerialisedSingleLine(attrs: AttrMap)
    requires forall a | a in attrs :: LineAttr(a)
    ensures SingleLine(Serialised(attrs))
  {
    if attrs != [] {
      assert attrs[0] in attrs && forall a | a in attrs[1..] :: a in attrs;
      PairSingleLine(attrs[0]);
      SerialisedSingleLine(attrs[1..]);
      JoinCons(PairText(attrs[0]), Parts(attrs[1..]));
    }
  }

  lemma JoinCons(x: string, xs: seq<string>)
    requires SingleLine(x) && SingleLine(JoinWith(", ", xs))
    ensures SingleLine(JoinWith(", ", [x] + xs))
  {
    assert ([x] + xs)[1..] == xs;
  }

  lemma KeysSingleLine()
    ensures SingleLine("date") && SingleLine("event") && SingleLine("task") && SingleLine("kind") && SingleLine("agent")
    ensures SingleLine("result") && SingleLine("evidence") && SingleLine("cycle") && SingleLine("ses_ref")
  {}

  lemma TamePrints(e: Event)
    requires Tame(e)
    ensures SingleLine(PrintedEvent(e)) && EventLines(e) == [PrintedEvent(e)]
  {
    KeysSingleLine();
    TameAttrs(e);
    SerialisedSingleLine(EventAttrs(e));
    FourSingleLine(e.name, Serialised(EventAttrs(e)));
    PiecesPlain(PrintedEvent(e));
  }

  lemma TameAttrs(e: Event)
    requires Tame(e) && SingleLine("date") && SingleLine("event") && SingleLine("task") && SingleLine("kind")
    requires SingleLine("agent") && SingleLine("result") && SingleLine("evidence") && SingleLine("cycle") && SingleLine("ses_ref")
    ensures forall a | a in EventAttrs(e) :: LineAttr(a)
  {}

  lemma FourSingleLine(name: string, attrs: string)
    requires SingleLine(attrs) && PlainName(name)
    ensures SingleLine("AUD:" + (name + ("{" + (attrs + "}"))))
  {
    forall c | c in name ensures !IsBreak(c) {
      assert !IsSpace(c);
    }
  }

  /** A pulse printed on one line is separable: its line declares its own id. */
  lemma TameSeparable(e: Event, wanted: set<string>)
    requires Tame(e)
    ensures Separable(e, wanted)
  {
    TamePrints(e);
    LineIdOf(e.name, Serialised(EventAttrs(e)) + "}");
  }

  /** With such pulses a prune takes the selected ones; only other lines can be lost beside them. */
  lemma TamePrunes(before: seq<string>, es: seq<Event>, after: seq<string>, wanted: set<string>)
    requires "" !in wanted && forall e | e in es :: Tame(e)
    ensures KeptLines(FileLines(before, es, after), wanted)
         == KeptLines(before, wanted) + (OtherLines(es, wanted) + KeptLines(after, wanted))
  {
    forall e | e in es ensures Separable(e, wanted) {
      TameSeparable(e, wanted);
    }
    KeptFile(before, es, after, wanted);
    SeparableKept(es, wanted);
  }

  // ------------------------------------------------------------ pulses on several lines

  /** The text of the evidence within the printed pulse. */
  lemma EvidencePrinted(e: Event) returns (pre: string, post: string)
    ensures PrintedEvent(e) == pre + (Escape(e.evidence) + post)
  {
    var attrs := EventAttrs(e);
    assert attrs[6] == Attr("evidence", VStr(e.evidence));
    var p, q := AttrPrinted(attrs, 6);
    var x := "evidence:\"";
    pre, post := "AUD:" + (e.name + ("{" + (p + x))), "\"" + (q + "}");
    EvidenceParts(e.name, p, Escape(e.evidence), q, x);
  }

  lemma EvidenceParts(name: string, p: string, v: string, q: string, x: string)
    requires x == "evidence:\""
    ensures "AUD:" + (name + ("{" + ((p + (("evidence" + ":" + ("\"" + v + "\"")) + q)) + "}")))
         == "AUD:" + (name + ("{" + (p + x))) + (v + ("\"" + (q + "}")))
  {
    assert "evidence" + ":" + ("\"" + v + "\"") == x + (v + "\"");
  }

  lemma FirstThenRest(a: Attr, more: AttrMap)
    requires a.value.VStr? && Parts(more) != []
    ensures Parts([a] + more) != [] && Serialised([a] + more) == PairText(a) + (", " + Serialised(more))
  {
    var p, r := PairText(a), Parts(more);
    assert ([a] + more)[1..] == more;
    assert Parts([a] + more) == [p] + r && ([p] + r)[1..] == r;
    assert JoinWith(", ", [p] + r) == p + ", " + JoinWith(", ", r);
    ConcatAssoc(p, ", ", JoinWith(", ", r));
  }

  lemma {:induction false} AttrPrinted(attrs: AttrMap, i: nat) returns (p: string, q: string)
    requires i < |attrs| && forall a | a in attrs :: a.value.VStr?
    ensures Serialised(attrs) == p + (PairText(attrs[i]) + q)
  {
    var a, rest := attrs[0], attrs[1..];
    assert a in attrs && forall x | x in rest :: x in attrs;
    assert attrs == [a] + rest;
    if rest == [] {
      p, q := "", "";
      OnlyAttr(a);
    } else {
      RestPrints(rest);
      FirstThenRest(a, rest);
      if i == 0 {
        p, q := "", ", " + Serialised(rest);
        assert "" + (PairText(a) + q) == PairText(a) + q;
      } else {
        var p', q' := AttrPrinted(rest, i - 1);
        p, q := PairText(a) + (", " + p'), q';
        FourAssoc(PairText(a), ", ", p', PairText(attrs[i]) + q);
      }
    }
  }

  lemma OnlyAttr(a: Attr)
    requires a.value.VStr?
    ensures Serialised([a]) == "" + (PairText(a) + "")
  {
    assert [a][1..] == [] && Parts([a]) == [PairText(a)] + [];
  }

  lemma FourAssoc(a: string, b: string, c: string, d: string)
    ensures a + (b + (c + d)) == (a + (b + c)) + d
  {}

  lemma RestPrints(attrs: AttrMap)
    requires attrs != [] && forall a | a in attrs :: a.value.VStr?
    ensures Parts(attrs) != []
  {
    assert attrs[0] in attrs;
  }

  lemma {:induction false} PieceHead(x: string, s: string)
    requires SingleLine(x)
    ensures Pieces(x + s)[0] == x + Pieces(s)[0]
  {
    if x == "" {
      assert x + s == s;
    } else {
      assert x[0] in x && forall c | c in x[1..] :: c in x;
      assert (x + s)[1..] == x[1..] + s;
      PieceHead(x[1..], s);
    }
  }

  /** Evidence that breaks its line breaks the pulse's line there. */
  lemma BrokenEvidence(e: Event, a: string, b: string) returns (pre: string, post: string)
    requires e.evidence == a + ("\n" + b)
    ensures EventLines(e) == Pieces(pre) + Pieces(Escape(b) + post)
  {
    var p, q := EvidencePrinted(e);
    EscapeConcat(a, "\n" + b);
    EscapeConcat("\n", b);
    EscapeOrdinary("\n");
    pre, post := p + Escape(a), q;
    BreakParts(p, Escape(a), Escape(b), q);
    PiecesConcat(pre, Escape(b) + post);
  }

  lemma BreakParts(p: string, a: string, b: string, q: string)
    ensures p + ((a + ("\n" + b)) + q) == (p + a) + "\n" + (b + q)
  {}

  /** Why evidence must stay on one line: a line of a kept pulse that starts like another pulse goes with that one. */
  lemma ForgedLineIsLost(e: Event, a: string, name: string, b: string, wanted: set<string>)
    requires e.evidence == a + ("\n" + ("AUD:" + (name + ("{" + b)))) && Normalize(name) in wanted
    requires !Selected(e, wanted) && PlainName(name) && '\\' !in name && '"' !in name
    ensures !Separable(e, wanted)
  {
    var head := "AUD:" + (name + "{");
    Regroup(name, b);
    var pre, post := BrokenEvidence(e, a, head + b);
    EscapeHead(head, b);
    var l := ForgedLine(name, Escape(b) + post);
    ConcatAssoc(head, Escape(b), post);
    ClaimedLine(e, wanted, Pieces(pre), Pieces(head + (Escape(b) + post)), l);
  }

  lemma Regroup(name: string, b: string)
    ensures "AUD:" + (name + ("{" + b)) == "AUD:" + (name + "{") + b
  {}

  lemma ClaimedLine(e: Event, wanted: set<string>, x: seq<string>, y: seq<string>, l: string)
    requires EventLines(e) == x + y && y != [] && l == y[0] && LineId(l) in wanted && !Selected(e, wanted)
    ensures !Separable(e, wanted)
  {
    assert (x + y)[|x|] == l;
  }

  lemma EscapeHead(head: string, b: string)
    requires forall c | c in head :: c != BACKSLASH && c != QUOTE
    ensures Escape(head + b) == head + Escape(b)
  {
    EscapeConcat(head, b);
    EscapeOrdinary(head);
  }

  /** The first line of a text that starts like a stored pulse. */
  lemma ForgedLine(name: string, tail: string) returns (l: string)
    requires PlainName(name)
    ensures l == Pieces("AUD:" + (name + "{") + tail)[0] && LineId(l) == Normalize(name)
  {
    var head, w := "AUD:" + (name + "{"), Pieces(tail)[0];
    NameSingleLine(name);
    PieceHead(head, tail);
    l := head + w;
    assert l == "AUD:" + (name + ("{" + w));
    LineIdOf(name, w);
  }

  lemma NameSingleLine(name: string)
    requires PlainName(name)
    ensures SingleLine("AUD:" + (name + "{"))
  {
    forall c | c in name ensures !IsBreak(c) {
      assert !IsSpace(c);
    }
  }

  /** A selected pulse on several lines leaves every line but those that declare a wanted id. */
  lemma ResidueStays(before: seq<string>, es: seq<Event>, after: seq<string>, wanted: set<string>, e: Event, l: string)
    requires e in es && l in EventLines(e) && LineId(l) !in wanted
    ensures l in KeptLines(FileLines(before, es, after), wanted)
  {
    LineInFile(es, e, l);
    KeptMembers(FileLines(before, es, after), wanted, l);
  }

  lemma {:induction false} LineInFile(es: seq<Event>, e: Event, l: string)
    requires e in es && l in EventLines(e)
    ensures l in PulseLines(es)
  {
    if e != es[0] {
      assert e in es[1..];
      LineInFile(es[1..], e, l);
    }
  }

  /** An empty id in a selection takes every line of the file that declares none. */
  lemma EmptyIdTakesAll(lines: seq<string>, wanted: set<string>, l: string)
    requires "" in wanted && l in KeptLines(lines, wanted)
    ensures LineId(l) != ""
  {
    KeptMembers(lines, wanted, l);
  }

  // -------------------------------------------------------------- reading what was kept

  function Remaining(es: seq<Event>, wanted: set<string>): seq<Event> {
    if es == [] then [] else (if Selected(es[0], wanted) then [] else [es[0]]) + Remaining(es[1..], wanted)
  }

  function ToEntries(es: seq<Event>): seq<Entry> {
    if es == [] then [] else [ToEntry(es[0])] + ToEntries(es[1..])
  }

  lemma {:induction false} StringsAreIdentPairs(attrs: AttrMap)
    requires forall a | a in attrs :: IsIdent(a.key) && a.value.VStr?
    ensures DropNone(attrs) == attrs && IdentPairs(attrs)
  {
    if attrs != [] {
      assert attrs[0] in attrs && forall a | a in attrs[1..] :: a in attrs;
      StringsAreIdentPairs(attrs[1..]);
    }
  }

  const EVENT_KEYS: set<string> := {"date", "event", "task", "kind", "agent", "result", "evidence", "cycle", "ses_ref"}

  lemma EventKeys(k: string)
    requires k in EVENT_KEYS
    ensures IsIdent(k)
  {
    KeyChars(k);
    IdentWord(k);
  }

  lemma KeyChars(k: string)
    requires k in EVENT_KEYS
    ensures k != "" && IsIdentStart(k[0]) && forall c | c in k :: IsIdentChar(c)
  {}

  lemma EventAttrKeys(e: Event)
    ensures forall a | a in EventAttrs(e) :: a.key in EVENT_KEYS && a.value.VStr?
  {}

  lemma EventAttrsIdent(e: Event)
    ensures forall a | a in EventAttrs(e) :: IsIdent(a.key) && a.value.VStr?
  {
    EventAttrKeys(e);
    forall a | a in EventAttrs(e) ensures IsIdent(a.key) {
      EventKeys(a.key);
    }
  }

  lemma EventKeysDistinct(e: Event)
    ensures DistinctKeys(EventAttrs(e))
  {}

  /** A pulse on one line is read back as itself. */
  lemma TameReadable(e: Event)
    requires Tame(e) && e.name != "" && '"' !in e.name
    ensures ReadableEntry(ToEntry(e)) && EntryBack(ToEntry(e)) == ToEntry(e)
    ensures EntryText(ToEntry(e)) == Some(PrintedEvent(e)) && Lines(PrintedEvent(e)) == [PrintedEvent(e)]
  {
    EventAttrsIdent(e);
    EventKeysDistinct(e);
    PrintedIsEntryText(e);
    TamePrints(e);
    LinesPlain(PrintedEvent(e));
    TameAttrsBack(EventAttrs(e), e.name, PrintedEvent(e));
    AudIsSigil();
  }

  lemma AudIsSigil()
    ensures IsSigil("AUD")
  {}

  lemma TameAttrsBack(attrs: AttrMap, name: string, printed: string)
    requires printed == "AUD:" + (name + ("{" + (Serialised(attrs) + "}"))) && '\n' !in printed
    requires DistinctKeys(attrs) && forall a | a in attrs :: IsIdent(a.key) && a.value.VStr?
    ensures ReadablePairs(attrs) && PayloadBack(Pairs(attrs)) == Pairs(attrs)
  {
    StringsAreIdentPairs(attrs);
    assert forall c | c in Serialised(attrs) :: c in printed;
    TrimFirstOneLine(attrs);
  }

  /** Pulses that print on one line, under names the reader accepts. */
  predicate AllReadable(es: seq<Event>) {
    es == [] || (Tame(es[0]) && es[0].name != "" && '"' !in es[0].name && AllReadable(es[1..]))
  }

  /** Reading the pruned section gives the pulses that were not selected, in order. */
  lemma {:induction false} PrunedReads(es: seq<Event>, wanted: set<string>, more: seq<string>, st: State)
    requires ValidState(st) && st.current.Last? && AllReadable(es)
    ensures ReadLines(OtherLines(es, wanted) + more, st)
         == ReadLines(more, StoredAll(st, ToEntries(Remaining(es, wanted))))
    decreases |es|
  {
    if es == [] {
      assert OtherLines(es, wanted) + more == more;
    } else {
      var e, rest := es[0], es[1..];
      OtherFirst(es, wanted, more);
      if Selected(e, wanted) {
        ReadBlank(OtherLines(rest, wanted) + more, st);
        PrunedReads(rest, wanted, more, st);
        assert Remaining(es, wanted) == Remaining(rest, wanted);
      } else {
        KeptReads(e, OtherLines(rest, wanted) + more, st);
        StoredLast(st, ToEntry(e));
        PrunedReads(rest, wanted, more, Stored(st, ToEntry(e)));
        RemainingFirst(es, wanted, st);
      }
    }
  }

  lemma OtherFirst(es: seq<Event>, wanted: set<string>, more: seq<string>)
    requires es != [] && Tame(es[0])
    ensures var tail := OtherLines(es[1..], wanted) + more;
      OtherLines(es, wanted) + more == if Selected(es[0], wanted) then [""] + tail else [PrintedEvent(es[0])] + ([""] + tail)
  {
    TamePrints(es[0]);
    OtherAssoc([PrintedEvent(es[0])], OtherLines(es[1..], wanted), more);
  }

  lemma OtherAssoc(x: seq<string>, o: seq<string>, more: seq<string>)
    ensures (x + ([""] + o)) + more == x + ([""] + (o + more))
    ensures ([] + ([""] + o)) + more == [""] + (o + more)
  {}

  lemma KeptReads(e: Event, tail: seq<string>, st: State)
    requires ValidState(st) && st.current.Last? && Tame(e) && e.name != "" && '"' !in e.name
    ensures ReadLines([PrintedEvent(e)] + ([""] + tail), st) == ReadLines(tail, Stored(st, ToEntry(e)))
  {
    TameReadable(e);
    ReadEntry(ToEntry(e), [""] + tail, st);
    ReadBlank(tail, Stored(st, ToEntry(e)));
  }

  lemma StoredLast(st: State, e: Entry)
    requires ValidState(st) && st.current.Last?
    ensures Stored(st, e).current.Last?
  {}

  lemma RemainingFirst(es: seq<Event>, wanted: set<string>, st: State)
    requires ValidState(st) && es != [] && !Selected(es[0], wanted)
    ensures StoredAll(st, ToEntries(Remaining(es, wanted)))
         == StoredAll(Stored(st, ToEntry(es[0])), ToEntries(Remaining(es[1..], wanted)))
  {
    var all := ToEntries(Remaining(es, wanted));
    assert Remaining(es, wanted)[1..] == Remaining(es[1..], wanted);
    assert all[0] == ToEntry(es[0]) && all[1..] == ToEntries(Remaining(es[1..], wanted));
  }

  // ------------------------------------------------------------- what any lines read as

  /** `val.get(key, default)` on an entry that was read. */
  function Shown(v: Value, default: string): string { if v.VNone? then default else StrOf(v) }

  /** `read_pulse_from_brain` on one entry. */
  function EventOf(e: Entry): Event
    requires e.payload.Pairs?
  {
    var a := e.payload.attrs;
    Event(e.name, Shown(Lookup(a, "event"), e.name), Shown(Lookup(a, "date"), ""), Shown(Lookup(a, "task"), "-"),
          Shown(Lookup(a, "kind"), ""), Shown(Lookup(a, "agent"), ""),
          Shown(Lookup(a, "evidence"), Shown(Lookup(a, "result"), "")),
          Shown(Lookup(a, "cycle"), ""), Shown(Lookup(a, "ses_ref"), ""))
  }

  function EventsOf(es: seq<Entry>): seq<Event> {
    if es == [] then []
    else (if es[0].sigil == "AUD" && es[0].payload.Pairs? then [EventOf(es[0])] else []) + EventsOf(es[1..])
  }

  /** Inside the PULSE section. */
  const PULSE_SECTION := State([], [], [], [Section("$6", None, [], [])], Last, [])

  /** The pulses that the reader finds in the lines of the section, whatever lines they are. */
  function EventsIn(lines: seq<string>): seq<Event> {
    var sections := ReadLines(lines, PULSE_SECTION).sections;
    if sections == [] then [] else EventsOf(sections[0].entries)
  }

  lemma {:induction false} LookupAttr(attrs: AttrMap, i: nat)
    requires DistinctKeys(attrs) && i < |attrs|
    ensures Lookup(attrs, attrs[i].key) == attrs[i].value
  {
    if i > 0 {
      var rest := attrs[1..];
      assert forall j, k :: 0 <= j < k < |rest| ==> rest[j] == attrs[j + 1] && rest[k] == attrs[k + 1];
      LookupAttr(rest, i - 1);
    }
  }

  lemma {:induction false} LookupMissing(attrs: AttrMap, key: string)
    requires forall a | a in attrs :: a.key != key
    ensures Lookup(attrs, key) == VNone
  {
    if attrs != [] {
      assert attrs[0] in attrs && forall a | a in attrs[1..] :: a in attrs;
      LookupMissing(attrs[1..], key);
    }
  }

  lemma CoreLookups(e: Event, a: AttrMap)
    requires a == EventAttrs(e)
    ensures Lookup(a, "date") == VStr(e.date) && Lookup(a, "event") == VStr(e.event) && Lookup(a, "task") == VStr(e.task)
    ensures Lookup(a, "kind") == VStr(e.kind) && Lookup(a, "agent") == VStr(e.agent)
    ensures Lookup(a, "evidence") == VStr(e.evidence)
  {
    EventKeysDistinct(e);
    LookupAttr(a, 0);
    LookupAttr(a, 1);
    LookupAttr(a, 2);
    LookupAttr(a, 3);
    LookupAttr(a, 4);
    LookupAttr(a, 6);
  }

  lemma OptionalLookups(e: Event, a: AttrMap)
    requires a == EventAttrs(e)
    ensures Shown(Lookup(a, "cycle"), "") == e.cycle && Shown(Lookup(a, "ses_ref"), "") == e.sesRef
  {
    EventKeysDistinct(e);
    if e.cycle == "" {
      LookupMissing(a, "cycle");
    } else {
      LookupAttr(a, 7);
    }
    if e.sesRef == "" {
      LookupMissing(a, "ses_ref");
    } else {
      LookupAttr(a, |a| - 1);
    }
  }

  lemma EventOfEntry(e: Event)
    ensures EventOf(ToEntry(e)) == e
  {
    CoreLookups(e, EventAttrs(e));
    OptionalLookups(e, EventAttrs(e));
  }

  lemma {:induction false} EventsOfEntries(es: seq<Event>)
    ensures EventsOf(ToEntries(es)) == es
  {
    if es != [] {
      EventsOfEntries(es[1..]);
      EventOfEntry(es[0]);
      assert ToEntries(es)[1..] == ToEntries(es[1..]);
    }
  }

  lemma {:induction false} EntriesOfEvents(es: seq<Event>)
    requires AllReadable(es)
    ensures EntriesBack(ToEntries(es)) == ToEntries(es)
  {
    if es != [] {
      TameReadable(es[0]);
      EntriesOfEvents(es[1..]);
      assert ToEntries(es)[1..] == ToEntries(es[1..]);
    }
  }

  lemma {:induction false} RemainingReadable(es: seq<Event>, wanted: set<string>)
    requires AllReadable(es)
    ensures AllReadable(Remaining(es, wanted)) && forall e | e in es :: Tame(e)
  {
    if es != [] {
      RemainingReadable(es[1..], wanted);
      var more := Remaining(es[1..], wanted);
      assert ([es[0]] + more)[1..] == more && [] + more == more;
    }
  }

  lemma {:induction false} AllTameSeparable(es: seq<Event>, wanted: set<string>)
    requires AllReadable(es)
    ensures AllSeparable(es, wanted)
  {
    RemainingReadable(es, wanted);
    forall e | e in es ensures Separable(e, wanted) {
      TameSeparable(e, wanted);
    }
  }

  lemma SectionStored(st: State, es: seq<Event>)
    requires st == PULSE_SECTION && AllReadable(es)
    ensures StoredAll(st, ToEntries(es)).sections == [Section("$6", None, [], ToEntries(es))]
  {
    StoredAllLast(st, ToEntries(es));
    EntriesOfEvents(es);
    assert [] + ToEntries(es) == ToEntries(es);
  }

  /** Of pulses on one line each, the kept lines read as the pulses that were not selected. */
  lemma KeptEvents(es: seq<Event>, wanted: set<string>)
    requires AllReadable(es) && "" !in wanted
    ensures EventsIn(KeptLines(PulseLines(es), wanted)) == Remaining(es, wanted)
  {
    var st, left := PULSE_SECTION, Remaining(es, wanted);
    AllTameSeparable(es, wanted);
    SeparableKept(es, wanted);
    RemainingReadable(es, wanted);
    PrunedReads(es, wanted, [], st);
    assert OtherLines(es, wanted) + [] == OtherLines(es, wanted);
    assert ReadLines([], StoredAll(st, ToEntries(left))) == StoredAll(st, ToEntries(left));
    SectionStored(st, left);
    EventsOfEntries(left);
  }

  // ----------------------------------------------------------------- lines of the older form

  lemma {:induction false} UpToSpaceStops(id: string, rest: string)
    requires (forall c | c in id :: !IsSpace(c)) && (rest == "" || IsSpace(rest[0]))
    ensures UpToSpace(id + rest) == id
  {
    if id == "" {
      assert id + rest == rest;
    } else {
      assert (id + rest)[1..] == id[1..] + rest;
      UpToSpaceStops(id[1..], rest);
    }
  }

  /** The search finds the id behind the first `id=` that follows a blank. */
  lemma {:induction false} FindIdAt(a: string, id: string, rest: string, inWord: bool)
    requires '=' !in a && id != "" && (forall c | c in id :: !IsSpace(c)) && (rest == "" || IsSpace(rest[0]))
    ensures FindId(a + (" id=" + (id + rest)), inWord) == Some(id)
  {
    var tail := " id=" + (id + rest);
    var s := a + tail;
    NotYet(a, tail);
    if a == "" {
      assert s == tail && tail[1..] == "id=" + (id + rest) && tail[1..][3..] == id + rest;
      UpToSpaceStops(id, rest);
      assert UpToSpace(id + rest) != "";
    } else {
      assert s[1..] == a[1..] + tail;
      FindIdAt(a[1..], id, rest, IsIdentChar(s[0]));
    }
  }

  lemma NotYet(a: string, tail: string)
    requires '=' !in a && |tail| >= 4 && tail[..4] == " id="
    ensures !StartsWith(a + tail, "id=")
  {
    assert tail[0] == ' ' && tail[1] == 'i' && tail[2] == 'd';
    if |a| > 2 {
      assert (a + tail)[2] == a[2];
    } else if |a| == 2 {
      assert (a + tail)[2] == tail[0];
    } else if |a| == 1 {
      assert (a + tail)[2] == tail[1];
    } else {
      assert (a + tail)[0] == tail[0];
    }
  }

  lemma {:induction false} NoIdFound(s: string, inWord: bool)
    requires '=' !in s
    ensures FindId(s, inWord) == None
  {
    if s != "" {
      NoIdFound(s[1..], IsIdentChar(s[0]));
    }
  }

  lemma LegacyLineTrimmed(a: string, id: string, rest: string)
    requires id != "" && (forall c | c in id :: !IsSpace(c)) && (rest == "" || !IsSpace(rest[|rest| - 1]))
    ensures Strip("- [" + (a + (id + rest))) == "- [" + (a + (id + rest))
  {
    var line := "- [" + (a + (id + rest));
    assert line[0] == '-';
    if rest == "" {
      assert id + rest == id && id[|id| - 1] in id;
      assert line[|line| - 1] == id[|id| - 1];
    } else {
      assert line[|line| - 1] == rest[|rest| - 1];
    }
    TrimmedStrip(line);
  }

  /** A line of the older form declares the id behind its first `id=`, and none when it has none. */
  lemma LegacyLineSays(a: string, id: string, rest: string)
    requires '=' !in a && id != "" && (forall c | c in id :: !IsSpace(c)) && (rest == "" || IsSpace(rest[0]))
    requires rest == "" || !IsSpace(rest[|rest| - 1])
    ensures LineId("- [" + a + " id=" + (id + rest)) == Normalize(id)
  {
    var line := "- [" + a + " id=" + (id + rest);
    LegacyLineTrimmed(a + " id=", id, rest);
    assert line == "- [" + ((a + " id=") + (id + rest)) == ("- [" + a) + (" id=" + (id + rest));
    FindIdAt("- [" + a, id, rest, false);
    assert line[..3] == "- [" && line[..4] != "AUD:";
  }

  lemma UnnamedLine(line: string)
    requires '=' !in Strip(line) && !StartsWith(Strip(line), "AUD:")
    ensures LineId(line) == ""
  {
    NoIdFound(Strip(line), false);
  }
}
