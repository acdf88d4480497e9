/** Reading back what the writer prints: entries, then whole documents. */
module CortexRoundTrip {
  import opened Text
  import opened Attrs
  import opened CortexModel
  import opened CortexReader
  import opened CortexWriter
  import opened CortexScan
  import opened CortexEntries

  // ---------------------------------------- whitespace before the first line break

  /** `s` without the whitespace that ends its first line, when it has several. */
  function TrimBreak(s: string): string {
    if '\n' !in s then s
    else var ls := Lines(s); RStrip(ls[0]) + "\n" + Unlines(ls[1..])
  }

  /** Only the first line of a printed entry is stripped, so only one value is touched. */
  function TrimFirst(attrs: AttrMap): AttrMap {
    if attrs == [] then []
    else if attrs[0].value.VStr? && '\n' in attrs[0].value.s then
      [Attr(attrs[0].key, VStr(TrimBreak(attrs[0].value.s)))] + attrs[1..]
    else [attrs[0]] + TrimFirst(attrs[1..])
  }

  lemma RStripSplit(l: string) returns (w: string)
    ensures l == RStrip(l) + w && forall c | c in w :: IsSpace(c)
    ensures RStrip(l) == "" || !IsSpace(RStrip(l)[|RStrip(l)| - 1])
  {
    if l != "" && IsSpace(l[|l| - 1]) {
      var w' := RStripSplit(l[..|l| - 1]);
      w := w' + [l[|l| - 1]];
      assert l == l[..|l| - 1] + [l[|l| - 1]];
    } else {
      w := "";
    }
  }

  lemma {:induction false} RStripSpaces(p: string, w: string)
    requires p != "" && !IsSpace(p[|p| - 1]) && forall c | c in w :: IsSpace(c)
    ensures RStrip(p + w) == p
    decreases |w|
  {
    if w == "" {
      assert p + w == p;
    } else {
      assert w[|w| - 1] in w;
      assert (p + w)[..|p + w| - 1] == p + w[..|w| - 1];
      RStripSpaces(p, w[..|w| - 1]);
    }
  }

  lemma {:induction false} EscapeConcat(a: string, b: string)
    ensures Escape(a + b) == Escape(a) + Escape(b)
  {
    ReplaceCharConcat(a, b, BACKSLASH, "\\\\");
    ReplaceCharConcat(Replace(a, "\\", "\\\\"), Replace(b, "\\", "\\\\"), QUOTE, "\\\"");
  }

  lemma {:induction false} EscapeOrdinary(w: string)
    requires forall c | c in w :: c != BACKSLASH && c != QUOTE
    ensures Escape(w) == w
  {
    if w != "" {
      EscapeStep(w);
      assert w[0] in w && forall c | c in w[1..] :: c in w;
      EscapeOrdinary(w[1..]);
    }
  }

  lemma {:induction false} EscapeEnd(v: string)
    requires v != ""
    ensures Escape(v) != "" && Escape(v)[|Escape(v)| - 1] == v[|v| - 1]
    ensures '\n' !in v ==> '\n' !in Escape(v)
  {
    EscapeStep(v);
    if |v| > 1 {
      EscapeEnd(v[1..]);
      assert forall c | c in v[1..] :: c in v;
    }
    assert v[0] in v;
  }

  /** How a text and its trimmed form compare: same, up to spaces that end the first line. */
  ghost predicate TrimsTo(x: string, x': string, p: string, w: string, q: string) {
    && x == p + w + "\n" + q && x' == p + "\n" + q
    && p != "" && !IsSpace(p[|p| - 1]) && '\n' !in p
    && (forall c | c in w :: IsSpace(c)) && '\n' !in w
  }

  lemma TrimsExtend(pre: string, x: string, x': string, suf: string, p: string, w: string, q: string)
    requires TrimsTo(x, x', p, w, q) && '\n' !in pre
    ensures TrimsTo(pre + x + suf, pre + x' + suf, pre + p, w, q + suf)
  {
    assert pre + x + suf == (pre + p) + w + "\n" + (q + suf);
    assert pre + x' + suf == (pre + p) + "\n" + (q + suf);
    assert (pre + p)[|pre + p| - 1] == p[|p| - 1];
  }

  lemma EscapeBreak(t: string, w: string, r: string)
    requires forall c | c in w :: IsSpace(c)
    ensures Escape(t + w + "\n" + r) == Escape(t) + w + "\n" + Escape(r)
  {
    EscapeConcat(t + w + "\n", r);
    EscapeConcat(t + w, "\n");
    EscapeConcat(t, w);
    EscapeOrdinary(w);
    EscapeOrdinary("\n");
  }

  lemma TrimBreakSplit(s: string) returns (t: string, w: string, r: string)
    requires '\n' in s
    ensures s == t + w + "\n" + r && TrimBreak(s) == t + "\n" + r
    ensures '\n' !in t && '\n' !in w && (forall c | c in w :: IsSpace(c))
    ensures t == "" || !IsSpace(t[|t| - 1])
  {
    var l;
    l, r := BreakAt(s);
    UnlinesLines(r);
    assert ([l] + Lines(r))[1..] == Lines(r);
    t := RStrip(l);
    w := RStripSplit(l);
  }

  lemma EscapedTrims(s: string) returns (p: string, w: string, q: string)
    requires '\n' in s
    ensures TrimsTo("\"" + Escape(s), "\"" + Escape(TrimBreak(s)), p, w, q)
  {
    var t, w', r := TrimBreakSplit(s);
    EscapeBreak(t, w', r);
    EscapeBreak(t, "", r);
    assert t + "" + "\n" + r == t + "\n" + r;
    assert Escape(t) + "" + "\n" + Escape(r) == Escape(t) + "\n" + Escape(r);
    if t != "" {
      EscapeEnd(t);
    } else {
      EscapeOrdinary(t);
    }
    p, w, q := "\"" + Escape(t), w', Escape(r);
    QuoteFront(Escape(t), w, q);
    QuoteFront(Escape(t), "", q);
    assert p + "" + "\n" + q == p + "\n" + q;
  }

  lemma QuoteFront(t: string, w: string, q: string)
    ensures "\"" + (t + w + "\n" + q) == ("\"" + t) + w + "\n" + q
  {}

  lemma {:induction false} SerialisedTrims(attrs: AttrMap) returns (p: string, w: string, q: string)
    requires IdentPairs(attrs) && '\n' in Serialised(attrs)
    ensures IdentPairs(TrimFirst(attrs))
    ensures TrimsTo(Serialised(attrs), Serialised(TrimFirst(attrs)), p, w, q)
  {
    var a, more := attrs[0], attrs[1..];
    SerialisedPair(a, more);
    assert [a] + more == attrs;
    PlainIdent(a.key);
    if a.value.VStr? && '\n' in a.value.s {
      p, w, q := EscapedTrims(a.value.s);
      var v := VStr(TrimBreak(a.value.s));
      SerialisedPair(Attr(a.key, v), more);
      TrimsExtend(a.key + ":", "\"" + Escape(a.value.s), "\"" + Escape(v.s), "\"" + Tail(more), p, w, q);
      PairFront(a.key, a.value.s, Tail(more));
      PairFront(a.key, v.s, Tail(more));
      p, q := a.key + ":" + p, q + ("\"" + Tail(more));
    } else {
      PairOneLine(a);
      assert more == [] ==> Tail(more) == "";
      p, w, q := SerialisedTrims(more);
      SerialisedPair(a, TrimFirst(more));
      TrimFirstKeys(more);
      TrimsExtend(PairText(a) + ", ", Serialised(more), Serialised(TrimFirst(more)), "", p, w, q);
      PairThenTail(a, more);
      PairThenTail(a, TrimFirst(more));
      p, q := PairText(a) + ", " + p, q + "";
    }
  }

  lemma SerialisedPair(a: Attr, more: AttrMap)
    requires IdentPairs(more) && IsIdent(a.key) && PrintableValue(a.value) && !a.value.VNone?
    ensures IdentPairs([a] + more) && Serialised([a] + more) == PairText(a) + Tail(more)
  {
    var attrs := [a] + more;
    assert attrs[1..] == more;
    IdentPairsPrintAll(attrs);
    SerialisedCons(attrs);
  }

  lemma PairFront(key: string, v: string, tail: string)
    ensures PairText(Attr(key, VStr(v))) + tail == (key + ":") + ("\"" + Escape(v)) + ("\"" + tail)
  {}

  lemma PairThenTail(a: Attr, more: AttrMap)
    requires more != [] && !a.value.VNone?
    ensures PairText(a) + Tail(more) == (PairText(a) + ", ") + Serialised(more) + ""
  {}

  lemma PairOneLine(a: Attr)
    requires IsIdent(a.key) && PrintableValue(a.value) && !a.value.VNone?
    requires a.value.VStr? ==> '\n' !in a.value.s
    ensures '\n' !in PairText(a)
  {
    PlainIdent(a.key);
    match a.value {
      case VStr(s) => if s != "" { EscapeEnd(s); } else { EscapeOrdinary(s); }
      case VBool(b) =>
      case VInt(i) => IntTextChars(i);
      case VFloat(t) => PlainFloatChars(t);
    }
  }

  lemma {:induction false} TrimFirstKeys(attrs: AttrMap)
    ensures |TrimFirst(attrs)| == |attrs|
    ensures forall i :: 0 <= i < |attrs| ==> TrimFirst(attrs)[i].key == attrs[i].key
  {
    if attrs != [] {
      TrimFirstKeys(attrs[1..]);
    }
  }

  lemma BrokenValueShows(key: string, v: string, tail: string)
    requires '\n' in v
    ensures '\n' in PairText(Attr(key, VStr(v))) + tail
  {
    var p, w, q := EscapedTrims(v);
    PairFront(key, v, tail);
    assert '\n' in "\"" + Escape(v);
  }

  lemma {:induction false} TrimFirstOneLine(attrs: AttrMap)
    requires IdentPairs(attrs) && '\n' !in Serialised(attrs)
    ensures TrimFirst(attrs) == attrs
  {
    if attrs != [] {
      var a, more := attrs[0], attrs[1..];
      SerialisedPair(a, more);
      assert [a] + more == attrs;
      if a.value.VStr? && '\n' in a.value.s {
        BrokenValueShows(a.key, a.value.s, Tail(more));
      } else {
        assert more != [] ==> forall c | c in Serialised(more) :: c in Tail(more);
        assert more == [] ==> Serialised(more) == "";
        TrimFirstOneLine(more);
      }
    }
  }

  // ------------------------------------------------------------ reading one entry

  /** Attrs the reader can recognise: identifier keys, printable values. */
  predicate ReadablePairs(attrs: AttrMap) {
    DistinctKeys(attrs) && IdentPairs(DropNone(attrs))
  }

  /** A body the brace scanner closes where the writer closed it, and no pair pattern fits. */
  predicate ReadableBody(body: string) {
    && ScanText(body + "\n}", false, false, 1) == Closed(|body| + 1)
    && TrimmedOf(body, '\n')
    && FoundPairs(body, []) == []
  }

  predicate ReadableEntry(e: Entry) {
    && IsSigil(e.sigil) && IsName(e.name)
    && match e.payload
       case Pairs(attrs) => ReadablePairs(attrs)
       case Body(body) => ReadableBody(body) && !HasLoneBrace(body)
  }

  function PayloadBack(p: Payload): Payload {
    match p case Pairs(attrs) => Pairs(TrimFirst(DropNone(attrs))) case Body(body) => p
  }

  /** The entry as the reader returns it. */
  function EntryBack(e: Entry): Entry { e.(payload := PayloadBack(e.payload)) }

  /** A declaration on one line is what the reader leaves out of the glossary. */
  predicate HiddenInGlossary(e: Entry) {
    e.payload.Pairs? && IsDeclaration(DropNone(e.payload.attrs)) && '\n' !in Serialised(e.payload.attrs)
  }

  function Stored(st: State, e: Entry): (r: State)
    requires ValidState(st)
    ensures ValidState(r)
  {
    if InGlossary(st) && HiddenInGlossary(e) then st else AddEntry(st, EntryBack(e))
  }

  lemma ReadLinesStep(line: string, more: seq<string>, st: State)
    requires ValidState(st)
    ensures var (n, st') := ReadStep(line, more, st);
      ReadLines([line] + more, st) == ReadLines(more[n..], st')
  {
    var lines := [line] + more;
    var (n, st') := ReadStep(line, more, st);
    assert lines[0] == line && lines[1..] == more;
    assert lines[1 + n..] == more[n..];
  }

  /** Only the stripped form of a line matters. */
  lemma ReadLinesStripped(line: string, line': string, more: seq<string>, st: State)
    requires ValidState(st) && Strip(line) == Strip(line')
    ensures ReadLines([line] + more, st) == ReadLines([line'] + more, st)
  {
    ReadLinesStep(line, more, st);
    ReadLinesStep(line', more, st);
  }

  lemma HeadPlain(sigil: string, name: string)
    requires IsSigil(sigil) && IsName(name)
    ensures var h := HeadText(sigil, name);
      '\n' !in h && !IsSpace(h[0]) && h[|h| - 1] == '{'
  {
    SigilChars(sigil);
    assert IsSpace('\n');
    assert sigil[0] in sigil;
  }

  lemma PairsOnOneLine(e: Entry, line: string)
    requires ReadableEntry(e) && e.payload.Pairs? && '\n' !in Serialised(e.payload.attrs)
    requires line == HeadText(e.sigil, e.name) + (Serialised(DropNone(e.payload.attrs)) + "}")
    ensures EntryText(e).value == line && Lines(line) == [line]
    ensures '\n' !in Serialised(DropNone(e.payload.attrs))
  {
    PartsDropNone(e.payload.attrs);
    HeadPlain(e.sigil, e.name);
    assert '\n' !in line;
    LinesPlain(line);
  }

  lemma ReadPairsOneLine(e: Entry, rest: seq<string>, st: State)
    requires ReadableEntry(e) && e.payload.Pairs? && '\n' !in Serialised(e.payload.attrs)
    requires ValidState(st) && !st.current.NoSection?
    ensures ReadLines(Lines(EntryText(e).value) + rest, st) == ReadLines(rest, Stored(st, e))
  {
    var attrs := e.payload.attrs;
    var kept := DropNone(attrs);
    DropNoneKeepsDistinct(attrs);
    var line := HeadText(e.sigil, e.name) + (Serialised(kept) + "}");
    PairsOnOneLine(e, line);
    TrimFirstOneLine(kept);
    ReadSingleLine(e.sigil, e.name, kept, rest, st);
    ReadLinesStep(line, rest, st);
    assert rest[0..] == rest;
  }

  /** The physical lines of printed attrs, before and after the reader's strip. */
  lemma BrokenLines(head: string, x: string, x': string, p: string, w: string, q: string)
    requires TrimsTo(x, x', p, w, q) && head != "" && '\n' !in head && !IsSpace(head[0])
    ensures Lines(head + (x + "}")) == [head + p + w] + Lines(q + "}")
    ensures Lines(x' + "}") == [p] + Lines(q + "}")
    ensures Strip(head + p + w) == head + p && Trimmed(head + p)
  {
    BreakBefore(head + p + w, q + "}");
    RegroupBroken(head, p, w, q);
    BreakBefore(p, q + "}");
    RegroupBroken("", p, "", q);
    StripBroken(head, p, w);
  }

  lemma RegroupBroken(head: string, p: string, w: string, q: string)
    ensures head + ((p + w + "\n" + q) + "}") == (head + p + w) + "\n" + (q + "}")
    ensures (p + "\n" + q) + "}" == p + "\n" + (q + "}")
  {}

  lemma BreakBefore(a: string, b: string)
    requires '\n' !in a
    ensures Lines(a + "\n" + b) == [a] + Lines(b)
  {
    LinesConcat(a, b);
    LinesPlain(a);
  }

  lemma StripBroken(head: string, p: string, w: string)
    requires head != "" && !IsSpace(head[0]) && p != "" && !IsSpace(p[|p| - 1])
    requires forall c | c in w :: IsSpace(c)
    ensures Strip(head + p + w) == head + p && Trimmed(head + p)
  {
    assert (head + p)[|head + p| - 1] == p[|p| - 1];
    assert (head + p + w)[0] == head[0];
    RStripSpaces(head + p, w);
    StripTrailingOnly(head + p + w);
  }

  lemma ReadPairsBroken(e: Entry, rest: seq<string>, st: State)
    requires ReadableEntry(e) && e.payload.Pairs? && '\n' in Serialised(e.payload.attrs)
    requires ValidState(st) && !st.current.NoSection?
    ensures ReadLines(Lines(EntryText(e).value) + rest, st) == ReadLines(rest, Stored(st, e))
  {
    var attrs := e.payload.attrs;
    var kept := DropNone(attrs);
    var back := TrimFirst(kept);
    PartsDropNone(attrs);
    DropNoneKeepsDistinct(attrs);
    TrimFirstKeys(kept);
    var p, w, q := SerialisedTrims(kept);
    var head := HeadText(e.sigil, e.name);
    HeadPlain(e.sigil, e.name);
    BrokenLines(head, Serialised(kept), Serialised(back), p, w, q);
    assert EntryText(e).value == head + (Serialised(kept) + "}");
    var tail := Lines(q + "}");
    assert '\n' in Serialised(back);
    ReadMultiLine(e.sigil, e.name, back, rest, st);
    assert ([p] + tail)[1..] == tail;
    TrimmedStrip(head + p);
    ConcatAssoc([head + p + w], tail, rest);
    ReadLinesStripped(head + p + w, head + p, tail + rest, st);
    ReadLinesStep(head + p, tail + rest, st);
    assert (tail + rest)[|tail|..] == rest;
  }

  // ------------------------------------------------------------------- bodies

  lemma {:induction false} BlankHasNoPairs(s: string, acc: AttrMap)
    requires forall c | c in s :: IsSpace(c)
    ensures FoundPairs(s, acc) == acc
    decreases |s|
  {
    if s != "" {
      assert s[0] in s && forall c | c in s[1..] :: c in s;
      assert MatchPair(s).NoPair?;
      BlankHasNoPairs(s[1..], acc);
    }
  }

  lemma {:induction false} StripBlank(s: string)
    requires Strip(s) == ""
    ensures forall c | c in s :: IsSpace(c)
  {
    LStripBlank(s);
  }

  lemma {:induction false} LStripBlank(s: string)
    requires Strip(s) == ""
    ensures forall c | c in s :: IsSpace(c)
  {
    if s != "" {
      if IsSpace(s[0]) {
        LStripBlank(s[1..]);
        assert s == [s[0]] + s[1..];
      } else {
        var w := RStripSplit(s);
      }
    }
  }

  lemma BodyPayload(body: string)
    ensures (match ParsedAttrs(body) case Some(attrs) => attrs == [] case None => true)
        <==> FoundPairs(body, []) == []
  {
    if Strip(body) == "" {
      StripBlank(body);
      BlankHasNoPairs(body, []);
    }
  }

  /** What the collector returns for a printed body. */
  function BodyRead(body: string, rest: seq<string>): (seq<string>, nat) {
    Collected("", Lines(body) + ["}"] + rest, false, 1)
  }

  lemma BodyLines(body: string)
    ensures Lines("\n" + body + "\n}") == [""] + Lines(body) + ["}"]
    ensures Lines("\n" + body + "\n") == [""] + Lines(body) + [""]
  {
    LinesConcat("", body);
    assert "" + "\n" + body == "\n" + body;
    LinesConcat("\n" + body, "}");
    LinesPlain("}");
    LinesConcat("\n" + body, "");
    assert "\n" + body + "\n" + "}" == "\n" + body + "\n}";
    assert "\n" + body + "\n" + "" == "\n" + body + "\n";
  }

  lemma BodyCollected(body: string, rest: seq<string>)
    ensures var s := "\n" + body + "\n}";
      && BodyRead(body, rest) == CollectedOn(s, ScanText(s, false, false, 1), rest)
      && ScanText(s, false, false, 1) == Shift(ScanText(body + "\n}", false, false, 1), 1)
  {
    var s := "\n" + body + "\n}";
    BodyLines(body);
    CollectFrame(s, Lines(body), rest);
    BodyScan(body, s);
  }

  lemma CollectFrame(s: string, lines: seq<string>, rest: seq<string>)
    requires Lines(s) == [""] + lines + ["}"]
    ensures Collected("", lines + ["}"] + rest, false, 1) == CollectedOn(s, ScanText(s, false, false, 1), rest)
  {
    CollectAll(s, rest, false, 1);
    assert ([""] + lines + ["}"])[1..] == lines + ["}"];
  }

  lemma BodyScan(body: string, s: string)
    requires s == "\n" + body + "\n}"
    ensures ScanText(s, false, false, 1) == Shift(ScanText(body + "\n}", false, false, 1), 1)
  {
    assert s[1..] == body + "\n}";
  }

  lemma {:induction false} StripCharTrims(s: string, c: char)
    ensures TrimmedOf(StripChar(s, c), c)
    ensures s != "" && s[0] != c && s[|s| - 1] != c ==> StripChar(s, c) == s
  {
    var l := LStripChar(s, c);
    LStripCharFront(s, c);
    RStripCharBack(l, c);
  }

  lemma {:induction false} LStripCharFront(s: string, c: char)
    ensures LStripChar(s, c) == "" || LStripChar(s, c)[0] != c
  {
    if s != "" && s[0] == c {
      LStripCharFront(s[1..], c);
    }
  }

  lemma {:induction false} RStripCharBack(s: string, c: char)
    ensures var r := RStripChar(s, c);
      r == "" || (r[|r| - 1] != c && r[0] == s[0])
  {
    if s != "" && s[|s| - 1] == c {
      RStripCharBack(s[..|s| - 1], c);
    }
  }

  lemma StripBodyFrame(body: string)
    requires TrimmedOf(body, '\n')
    ensures StripChar("\n" + body + "\n", '\n') == body
    ensures StripChar("\n" + body + "\n}", '\n') != body
  {
    var s := "\n" + body + "\n";
    assert s[1..] == body + "\n";
    if body == "" {
      assert s == "\n\n" && s[1..] == "\n" && "\n"[1..] == "";
      assert LStripChar("\n", '\n') == "";
      assert RStripChar("", '\n') == "";
      var t := "\n" + body + "\n}";
      assert t == "\n\n}" && t[1..] == "\n}" && "\n}"[1..] == "}";
      assert LStripChar("\n}", '\n') == "}";
      assert RStripChar("}", '\n') == "}";
    } else {
      assert LStripChar(s, '\n') == body + "\n";
      assert (body + "\n")[..|body + "\n"| - 1] == body;
      assert RStripChar(body, '\n') == body;
      var t := "\n" + body + "\n}";
      assert t[1..] == body + "\n}";
      assert LStripChar(t, '\n') == body + "\n}";
      assert RStripChar(body + "\n}", '\n') == body + "\n}";
    }
  }

  /** Fewer characters of the frame hold fewer lines. */
  lemma {:induction false} LinesMonotone(s: string, n: nat)
    requires n <= |s|
    ensures |Lines(s[..n])| <= |Lines(s)|
  {
    if n > 0 {
      assert s[..n][1..] == s[1..][..n - 1];
      LinesMonotone(s[1..], n - 1);
    }
  }

  lemma TrimLastBlank(lines: seq<string>)
    ensures TrimLast(lines + [""]) == lines + [""]
  {}

  /**
   * A free-text body is read back as itself, its closing line and nothing after it
   * consumed, exactly when `ReadableBody` holds.
   */
  lemma BodyRoundTrip(body: string, rest: seq<string>)
    ensures var (found, used) := BodyRead(body, rest);
      (MultiPayload(found) == Body(body) && used == |Lines(body)| + 1) <==> ReadableBody(body)
  {
    var r := ScanText("\n" + body + "\n}", false, false, 1);
    BodyCollected(body, rest);
    if r == Closed(|body| + 2) {
      BodyWhole(body, rest, BodyRead(body, rest));
    } else if r.Closed? {
      BodyShort(body, rest, r.pos, BodyRead(body, rest));
    } else {
      BodyOpen(body, rest, r, BodyRead(body, rest));
    }
  }

  /** The scan closes at the last line: the whole body is read. */
  lemma BodyWhole(body: string, rest: seq<string>, found: (seq<string>, nat))
    requires found == CollectedOn("\n" + body + "\n}", Closed(|body| + 2), rest)
    ensures found.1 == |Lines(body)| + 1
    ensures MultiPayload(found.0) == Body(body) <==> TrimmedOf(body, '\n') && FoundPairs(body, []) == []
  {
    BodyFrame(body);
    WholeLines(body);
    PayloadOfText(found.0, "\n" + body + "\n");
    BodyClosed(body);
  }

  lemma BodyFrame(body: string)
    ensures var s := "\n" + body + "\n}"; |s| == |body| + 3 && s[..|body| + 2] == "\n" + body + "\n"
  {}

  lemma WholeLines(body: string)
    ensures var lines := Lines("\n" + body + "\n");
      |lines| == |Lines(body)| + 2 && TrimLast(lines) == lines && Unlines(lines) == "\n" + body + "\n"
  {
    BodyLines(body);
    TrimLastBlank([""] + Lines(body));
    UnlinesLines("\n" + body + "\n");
  }

  lemma PayloadOfText(lines: seq<string>, s: string)
    requires Unlines(lines) == s
    ensures var text := StripChar(s, '\n');
      MultiPayload(lines) == match ParsedAttrs(text)
                             case Some(attrs) => if attrs == [] then Body(text) else Pairs(attrs)
                             case None => Body(text)
  {}

  /** It closes earlier: fewer lines are used. */
  lemma BodyShort(body: string, rest: seq<string>, pos: nat, found: (seq<string>, nat))
    requires pos < |body| + 2 && found == CollectedOn("\n" + body + "\n}", Closed(pos), rest)
    ensures found.1 < |Lines(body)| + 1
  {
    assert ("\n" + body + "\n}")[..pos] == ("\n" + body)[..pos];
    LinesMonotone("\n" + body, pos);
    LinesConcat("", body);
    assert "" + "\n" + body == "\n" + body;
  }

  /** It never closes: lines after the body are taken, or the closing brace stays in the text. */
  lemma BodyOpen(body: string, rest: seq<string>, r: Scan, found: (seq<string>, nat))
    requires r.Open? && found == CollectedOn("\n" + body + "\n}", r, rest)
    ensures MultiPayload(found.0) != Body(body) || found.1 != |Lines(body)| + 1
  {
    BodyLines(body);
    if rest == [] {
      UnlinesLines("\n" + body + "\n}");
      BodyUnclosed(body);
    }
  }

  lemma BodyClosed(body: string)
    ensures (var text := StripChar("\n" + body + "\n", '\n');
      (match ParsedAttrs(text)
       case Some(attrs) => if attrs == [] then Body(text) else Pairs(attrs)
       case None => Body(text)) == Body(body))
      <==> TrimmedOf(body, '\n') && FoundPairs(body, []) == []
  {
    StripCharTrims("\n" + body + "\n", '\n');
    BodyPayload(body);
    if TrimmedOf(body, '\n') {
      StripBodyFrame(body);
    }
  }

  lemma BodyUnclosed(body: string)
    ensures StripChar("\n" + body + "\n}", '\n') != body
  {
    StripCharTrims("\n" + body + "\n}", '\n');
    if TrimmedOf(body, '\n') {
      StripBodyFrame(body);
    }
  }

  lemma ReadBody(e: Entry, rest: seq<string>, st: State)
    requires ReadableEntry(e) && e.payload.Body?
    requires ValidState(st) && !st.current.NoSection?
    ensures ReadLines(Lines(EntryText(e).value) + rest, st) == ReadLines(rest, Stored(st, e))
  {
    var body := e.payload.text;
    var head := HeadText(e.sigil, e.name);
    HeadPlain(e.sigil, e.name);
    var more := Lines(body) + ["}"] + rest;
    BodyEntryLines(e, rest);
    BodyHead(e.sigil, e.name, more, st);
    BodyRoundTrip(body, rest);
    ReadLinesStep(head, more, st);
    assert more[|Lines(body)| + 1..] == rest;
  }

  lemma BodyEntryLines(e: Entry, rest: seq<string>)
    requires e.payload.Body? && !HasLoneBrace(e.payload.text)
    requires '\n' !in HeadText(e.sigil, e.name)
    ensures var body := e.payload.text;
      Lines(EntryText(e).value) + rest
        == [HeadText(e.sigil, e.name)] + (Lines(body) + ["}"] + rest)
  {
    var body := e.payload.text;
    var head := HeadText(e.sigil, e.name);
    assert EntryText(e).value == head + "\n" + (body + "\n" + "}");
    BreakBefore(head, body + "\n" + "}");
    LinesConcat(body, "}");
    LinesPlain("}");
    ConcatAssoc([head], Lines(body) + ["}"], rest);
  }

  lemma BodyHead(sigil: string, name: string, more: seq<string>, st: State)
    requires IsSigil(sigil) && IsName(name) && ValidState(st) && !st.current.NoSection?
    ensures var (body, used) := Collected("", more, false, 1);
      ReadStep(HeadText(sigil, name), more, st)
        == (used, AddEntry(st, Entry(sigil, name, MultiPayload(body))))
  {
    var head := HeadText(sigil, name);
    HeadPlain(sigil, name);
    TrimmedStrip(head);
    assert head + "" == head;
    ClassifyEntry(sigil, name, "", st);
  }

  /** Any readable entry, wherever it stands in a section, is read back whole. */
  lemma ReadEntry(e: Entry, rest: seq<string>, st: State)
    requires ReadableEntry(e) && ValidState(st) && !st.current.NoSection?
    ensures ReadLines(Lines(EntryText(e).value) + rest, st) == ReadLines(rest, Stored(st, e))
  {
    if e.payload.Body? {
      ReadBody(e, rest, st);
    } else if '\n' in Serialised(e.payload.attrs) {
      ReadPairsBroken(e, rest, st);
    } else {
      ReadPairsOneLine(e, rest, st);
    }
  }
}
