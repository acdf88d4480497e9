/** One printed entry read back by the CORTEX reader. */
module CortexEntries {
  import opened Text
  import opened Attrs
  import opened CortexModel
  import opened CortexReader
  import opened CortexWriter
  import opened CortexScan

  // --------------------------------------------------- collecting physical lines

  /** Scanning `b` where a first scan, and a line break, left off. */
  function ScanOn(r: Scan, b: string, used: nat): Scan {
    if r.Closed? then r else Shift(ScanText(b, false, r.inStr, r.depth), used)
  }

  lemma {:induction false} ScanBreak(a: string, b: string, esc: bool, inStr: bool, depth: int)
    requires '\n' !in a
    ensures ScanText(a + ("\n" + b), esc, inStr, depth) == ScanOn(ScanText(a, esc, inStr, depth), b, |a| + 1)
  {
    if a == "" {
      assert a + ("\n" + b) == "\n" + b;
      ConsHead("\n", b);
      assert "\n"[1..] + b == b;
    } else {
      ConsHead(a, "\n" + b);
      var quote := a[0] == QUOTE && !esc;
      var esc', inStr', depth' := NextEsc(a[0], esc), Toggle(a[0], esc, inStr), NextDepth(a[0], inStr, quote, depth);
      ScanHead(a, esc, inStr, depth, esc', inStr', depth');
      ScanHead(a + ("\n" + b), esc, inStr, depth, esc', inStr', depth');
      ScanBreak(a[1..], b, esc', inStr', depth');
      ShiftScanOn(ScanText(a[1..], esc', inStr', depth'), b, |a|);
    }
  }

  /** One character of the scan. */
  lemma ScanHead(s: string, esc: bool, inStr: bool, depth: int, esc': bool, inStr': bool, depth': int)
    requires s != "" && esc' == NextEsc(s[0], esc) && inStr' == Toggle(s[0], esc, inStr)
    requires depth' == NextDepth(s[0], inStr, s[0] == QUOTE && !esc, depth)
    ensures ScanText(s, esc, inStr, depth)
         == if depth' == 0 && depth' < depth then Closed(0) else Shift(ScanText(s[1..], esc', inStr', depth'), 1)
  {}

  lemma ShiftScanOn(r: Scan, b: string, n: nat)
    ensures Shift(ScanOn(r, b, n), 1) == ScanOn(Shift(r, 1), b, n + 1)
  {}

  function TrimLast(lines: seq<string>): seq<string>
    requires lines != []
  { lines[..|lines| - 1] + [RStrip(lines[|lines| - 1])] }

  lemma {:induction false} BreakAt(s: string) returns (a: string, b: string)
    requires '\n' in s
    ensures s == a + "\n" + b && '\n' !in a && Lines(s) == [a] + Lines(b)
  {
    if s[0] == '\n' {
      a, b := "", s[1..];
      assert s == "" + "\n" + b;
    } else {
      assert s == [s[0]] + s[1..];
      var a', b' := BreakAt(s[1..]);
      a, b := [s[0]] + a', b';
      assert s == a + "\n" + b;
      LinesConcat(a, b);
      LinesPlain(a);
    }
  }

  /** What collecting the lines of `s` must give when scanning `s` gave `r`. */
  function CollectedOn(s: string, r: Scan, more: seq<string>): (seq<string>, nat)
    requires r.Closed? ==> r.pos <= |s|
  {
    if r.Closed? then (TrimLast(Lines(s[..r.pos])), |Lines(s[..r.pos])| - 1)
    else if more == [] then (Lines(s), |Lines(s)| - 1)
    else var (body, n) := Collected(more[0], more[1..], r.inStr, r.depth); (Lines(s) + body, |Lines(s)| + n)
  }

  /** The line-by-line collector sees the text as one string. */
  lemma {:induction false} CollectAll(s: string, more: seq<string>, inStr: bool, depth: int)
    ensures Collected(Lines(s)[0], Lines(s)[1..] + more, inStr, depth)
         == CollectedOn(s, ScanText(s, false, inStr, depth), more)
    decreases |s|
  {
    if '\n' !in s {
      CollectLastLine(s, more, inStr, depth);
    } else {
      var a, b := BreakAt(s);
      ScanBreak(a, b, false, inStr, depth);
      ConcatAssoc(a, "\n", b);
      var r := ScanText(a, false, inStr, depth);
      CollectFirstLine(a, Lines(b), more, inStr, depth);
      if r.Closed? {
        assert s[..r.pos] == a[..r.pos];
      } else {
        CollectAll(b, more, r.inStr, r.depth);
        CollectMore(a, b, ScanText(b, false, r.inStr, r.depth), more);
      }
    }
  }

  lemma CollectFirstLine(a: string, lines: seq<string>, more: seq<string>, inStr: bool, depth: int)
    requires '\n' !in a && lines != []
    ensures var r := ScanText(a, false, inStr, depth);
      Collected(([a] + lines)[0], ([a] + lines)[1..] + more, inStr, depth)
        == if r.Closed? then (TrimLast(Lines(a[..r.pos])), |Lines(a[..r.pos])| - 1)
           else var (body, n) := Collected(lines[0], lines[1..] + more, r.inStr, r.depth); ([a] + body, n + 1)
  {
    assert ([a] + lines)[1..] + more == lines + more;
    assert (lines + more)[0] == lines[0] && (lines + more)[1..] == lines[1..] + more;
    var r := ScanText(a, false, inStr, depth);
    if r.Closed? {
      TrimLastPlain(a[..r.pos]);
    }
  }

  lemma CollectMore(a: string, b: string, r: Scan, more: seq<string>)
    requires '\n' !in a && (r.Closed? ==> r.pos <= |b|)
    ensures var (body, n) := CollectedOn(b, r, more);
      CollectedOn(a + "\n" + b, Shift(r, |a| + 1), more) == ([a] + body, n + 1)
  {
    LinesConcat(a, b);
    LinesPlain(a);
    if r.Closed? {
      assert (a + "\n" + b)[..|a| + 1 + r.pos] == a + "\n" + b[..r.pos];
      CollectPrefix(a, b, r.pos);
    } else if more != [] {
      var (body, n) := Collected(more[0], more[1..], r.inStr, r.depth);
      ConcatAssoc([a], Lines(b), body);
    }
  }

  lemma CollectLastLine(s: string, more: seq<string>, inStr: bool, depth: int)
    requires '\n' !in s
    ensures Collected(Lines(s)[0], Lines(s)[1..] + more, inStr, depth)
         == CollectedOn(s, ScanText(s, false, inStr, depth), more)
  {
    LinesPlain(s);
    assert Lines(s)[1..] + more == more;
    var r := ScanText(s, false, inStr, depth);
    if r.Closed? {
      TrimLastPlain(s[..r.pos]);
    }
  }

  lemma TrimLastPlain(t: string)
    requires '\n' !in t
    ensures Lines(t) == [t] && TrimLast(Lines(t)) == [RStrip(t)]
  {
    LinesPlain(t);
  }

  lemma CollectPrefix(a: string, b: string, p: nat)
    requires '\n' !in a && p <= |b|
    ensures Lines(a + "\n" + b[..p]) == [a] + Lines(b[..p])
    ensures TrimLast(Lines(a + "\n" + b[..p])) == [a] + TrimLast(Lines(b[..p]))
  {
    LinesConcat(a, b[..p]);
    LinesPlain(a);
  }

  // -------------------------------------------------------------- entry heads

  predicate IsSigil(s: string) { s != "" && SigilLen(s) == |s| && s != "GSIG" && s != "GCON" }

  predicate IsName(s: string) { s != "" && forall c | c in s :: !IsSpace(c) && c != '{' && c != QUOTE }

  function HeadText(sigil: string, name: string): string { sigil + ":" + name + "{" }

  lemma {:induction false} SigilTailStops(t: string, rest: string)
    requires SigilTailLen(t) == |t| && rest != "" && rest[0] == ':'
    ensures SigilTailLen(t + rest) == |t|
    ensures forall c | c in t :: c != ':' && !IsSpace(c) && c != '\n' && c != QUOTE
  {
    if t == "" {
      assert t + rest == rest;
    } else {
      assert (t + rest)[1..] == t[1..] + rest;
      SigilTailStops(t[1..], rest);
      assert t == [t[0]] + t[1..];
    }
  }

  lemma {:induction false} NameStops(t: string, rest: string)
    requires (forall c | c in t :: !IsSpace(c) && c != '{') && rest != "" && rest[0] == '{'
    ensures NameLen(t + rest) == |t|
  {
    if t == "" {
      assert t + rest == rest;
    } else {
      assert (t + rest)[1..] == t[1..] + rest;
      assert t[0] in t && forall c | c in t[1..] :: c in t;
      NameStops(t[1..], rest);
    }
  }

  lemma SigilChars(sigil: string)
    requires IsSigil(sigil)
    ensures forall c | c in sigil :: c != ':' && !IsSpace(c) && c != '\n' && c != QUOTE
    ensures 'A' <= sigil[0] <= 'Z'
  {
    SigilTailStops(sigil[1..], ":");
    assert sigil == [sigil[0]] + sigil[1..];
  }

  lemma HeadMatches(sigil: string, name: string, body: string)
    requires IsSigil(sigil) && IsName(name)
    ensures MatchHead(HeadText(sigil, name) + body) == Head(sigil, name, |HeadText(sigil, name)|)
  {
    var s := HeadText(sigil, name) + body;
    var after := name + ("{" + body);
    var tail := ":" + after;
    SigilStops(sigil, tail);
    assert s == sigil + tail;
    HeadLayout(sigil, after);
    NameMatches(sigil, name, body);
    MatchHeadAt(s, |sigil|, name, |name| + 1);
  }

  lemma HeadLayout(sigil: string, after: string)
    ensures var s := sigil + (":" + after);
      s[..|sigil|] == sigil && s[|sigil|] == ':' && s[|sigil|..] == ":" + after && s[|sigil| + 1..] == after
  {
    SplitAt(sigil, ":" + after);
    SplitAt(sigil + ":", after);
    ConcatAssoc(sigil, ":", after);
  }

  lemma MatchHeadAt(s: string, a: nat, name: string, n: nat)
    requires SigilLen(s) == a && 0 < a < |s| && s[a] == ':'
    requires MatchName(s[..a], s[a + 1..]) == Head(s[..a], name, n)
    ensures MatchHead(s) == Head(s[..a], name, a + 1 + n)
  {
    assert s[a..][0] == ':';
  }

  lemma SigilStops(sigil: string, tail: string)
    requires IsSigil(sigil) && tail != "" && tail[0] == ':'
    ensures SigilLen(sigil + tail) == |sigil|
  {
    assert (sigil + tail)[1..] == sigil[1..] + tail;
    SigilTailStops(sigil[1..], tail);
  }

  lemma NameMatches(sigil: string, name: string, body: string)
    requires IsName(name)
    ensures MatchName(sigil, name + ("{" + body)) == Head(sigil, name, |name| + 1)
  {
    var s := name + ("{" + body);
    assert !IsSpace(s[0]) by { assert name[0] in name; }
    assert s[0..] == s;
    NameStops(name, "{" + body);
    assert s[|name|..] == "{" + body;
    assert s[0..|name|] == name;
  }

  lemma NotADeclarationPrefix(sigil: string, rest: string)
    requires IsSigil(sigil) && rest != "" && rest[0] == ':'
    ensures !StartsWith(sigil + rest, "GSIG:") && !StartsWith(sigil + rest, "GCON:")
  {
    var s := sigil + rest;
    SigilChars(sigil);
    assert s[|sigil|] == ':';
    if |sigil| == 4 {
      assert s[..4] == sigil;
      assert |s| >= 5 ==> s[..5][..4] == sigil;
    } else if |sigil| < 4 && |s| >= 5 {
      assert s[..5][|sigil|] == ':';
    } else if |s| >= 5 {
      assert s[..5][4] == sigil[4];
      assert sigil[4] in sigil;
    }
  }

  lemma EntryLineIsNoHeader(sigil: string, name: string, body: string)
    requires IsSigil(sigil)
    ensures var s := HeadText(sigil, name) + body;
      && s[0] != '#' && !IsFormatDeclaration(s) && MatchHeader(s).NoHeader?
      && !StartsWith(s, "GSIG:") && !StartsWith(s, "GCON:")
  {
    var rest := ":" + name + "{" + body;
    var s := sigil + rest;
    assert HeadText(sigil, name) + body == s;
    SigilChars(sigil);
    assert s[0] == sigil[0];
    assert |s| >= 9 ==> s[..9][0] == s[0];
    NotADeclarationPrefix(sigil, rest);
  }

  /** Past its head, an entry line is classified by its closing brace and quotes only. */
  lemma ClassifyEntry(sigil: string, name: string, body: string, st: State)
    requires IsSigil(sigil) && IsName(name) && ValidState(st) && !st.current.NoSection?
    ensures var s := HeadText(sigil, name) + body;
      Classify(s, st) ==
        if body != "" && body[|body| - 1] == '}' && !InStringAfter(s, false, false)
        then Inline(sigil, name, Strip(body[..|body| - 1]))
        else MultiStart(sigil, name, body)
  {
    HeadMatches(sigil, name, body);
    HeadSplit(HeadText(sigil, name), body);
    EntryLineIsNoHeader(sigil, name, body);
    HeadLength(sigil, name);
    ClassifyHead(HeadText(sigil, name) + body, sigil, name, |HeadText(sigil, name)|, body, st);
  }

  lemma HeadLength(sigil: string, name: string)
    requires IsSigil(sigil)
    ensures HeadText(sigil, name) != "" && HeadText(sigil, name)[0] == sigil[0]
  {}

  /** A line with an entry head, that is nothing else. */
  lemma ClassifyHead(s: string, sigil: string, name: string, n: nat, body: string, st: State)
    requires ValidState(st) && !st.current.NoSection? && 0 < n <= |s| && s[0] != '#'
    requires !IsFormatDeclaration(s) && MatchHeader(s).NoHeader? && !StartsWith(s, "GSIG:") && !StartsWith(s, "GCON:")
    requires MatchHead(s) == Head(sigil, name, n) && |s| == n + |body| && s[n..] == body
    requires body != "" ==> s[n..|s| - 1] == body[..|body| - 1] && s[|s| - 1] == body[|body| - 1]
    ensures Classify(s, st)
         == if body != "" && body[|body| - 1] == '}' && !InStringAfter(s, false, false)
            then Inline(sigil, name, Strip(body[..|body| - 1])) else MultiStart(sigil, name, body)
  {}

  lemma HeadSplit(head: string, body: string)
    ensures (head + body)[|head|..] == body
    ensures body != "" ==>
      && (head + body)[|head|..|head + body| - 1] == body[..|body| - 1]
      && (head + body)[|head + body| - 1] == body[|body| - 1]
  {}

  // ------------------------------------------------------------ head and quotes

  lemma {:induction false} QuoteFreeHead(h: string, body: string, esc: bool)
    requires QUOTE !in h && '\n' !in h
    ensures InStringAfter(h + "{" + body, esc, false) == InStringAfter(body, false, false)
    ensures BreaksInString(h + "{" + body, esc, false) == BreaksInString(body, false, false)
  {
    if h == "" {
      assert h + "{" + body == "{" + body;
      assert ("{" + body)[1..] == body;
    } else {
      assert (h + "{" + body)[1..] == h[1..] + "{" + body;
      assert forall c | c in h[1..] :: c in h;
      QuoteFreeHead(h[1..], body, NextEsc(h[0], esc));
    }
  }

  lemma HeadInvisible(sigil: string, name: string, body: string)
    requires IsSigil(sigil) && IsName(name)
    ensures InStringAfter(HeadText(sigil, name) + body, false, false) == InStringAfter(body, false, false)
    ensures BreaksInString(HeadText(sigil, name) + body, false, false) == BreaksInString(body, false, false)
  {
    SigilChars(sigil);
    var h := sigil + ":" + name;
    assert QUOTE !in h && '\n' !in h by {
      assert IsSpace('\n');
    }
    assert HeadText(sigil, name) + body == h + "{" + body;
    QuoteFreeHead(h, body, false);
  }

  // -------------------------------------------------------------- attrs entries

  lemma {:induction false} DistinctIsFindable(attrs: AttrMap, acc: AttrMap)
    requires IdentPairs(attrs) && DistinctKeys(attrs) && FreshKeys(attrs, acc)
    ensures Findable(attrs, acc)
    decreases attrs
  {
    if attrs != [] {
      assert attrs[0] in attrs;
      PutFresh(acc, attrs[0].key, attrs[0].value);
      FreshAfterFirst(attrs, acc);
      DistinctIsFindable(attrs[1..], acc + [attrs[0]]);
    }
  }

  lemma ValueEnds(v: Value)
    requires PrintableValue(v) && !v.VNone?
    ensures ValueText(v) != "" && !IsSpace(ValueText(v)[|ValueText(v)| - 1])
  {
    var t := ValueText(v);
    match v {
      case VStr(s) =>
      case VBool(b) =>
      case VInt(i) => IntTextChars(i); assert t[|t| - 1] in t;
      case VFloat(s) => PlainFloatChars(s); assert t[|t| - 1] in t;
    }
  }

  lemma {:induction false} SerialisedEnds(attrs: AttrMap)
    requires IdentPairs(attrs)
    ensures Trimmed(Serialised(attrs))
    ensures attrs != [] ==> Serialised(attrs) != ""
  {
    if attrs != [] {
      IdentPairsPrintAll(attrs);
      SerialisedCons(attrs);
      var a, tail := attrs[0], Tail(attrs[1..]);
      ValueEnds(a.value);
      SerialisedEnds(attrs[1..]);
      var t := PairText(a) + tail;
      assert t[0] == a.key[0];
      if attrs[1..] == [] {
        assert t == PairText(a);
        assert t[|t| - 1] == ValueText(a.value)[|ValueText(a.value)| - 1];
      } else {
        assert t[|t| - 1] == Serialised(attrs[1..])[|Serialised(attrs[1..])| - 1];
      }
    }
  }

  /** The attrs decoder on printed attrs. */
  lemma ParsedSerialised(attrs: AttrMap)
    requires IdentPairs(attrs) && DistinctKeys(attrs)
    ensures ParsedAttrs(Serialised(attrs)) == Some(attrs)
  {
    SerialisedEnds(attrs);
    TrimmedStrip(Serialised(attrs));
    DistinctIsFindable(attrs, []);
    FoundSerialised(attrs);
  }

  lemma ClosesAtEnd(attrs: AttrMap)
    requires IdentPairs(attrs)
    ensures var s := Serialised(attrs) + "}";
      && ScanText(s, false, false, 1) == Closed(|s| - 1)
      && !InStringAfter(s, false, false)
      && BreaksInString(s, false, false)
  {
    SerialisedInvisible(attrs, "}", 1);
    assert "}"[1..] == "";
  }

  /** An attrs entry whose text fits one physical line. */
  lemma ReadSingleLine(sigil: string, name: string, attrs: AttrMap, rest: seq<string>, st: State)
    requires IsSigil(sigil) && IsName(name) && IdentPairs(attrs) && DistinctKeys(attrs)
    requires '\n' !in Serialised(attrs)
    requires ValidState(st) && !st.current.NoSection?
    ensures ReadStep(HeadText(sigil, name) + (Serialised(attrs) + "}"), rest, st)
         == (0, AddInline(st, Entry(sigil, name, Pairs(attrs))))
  {
    var body := Serialised(attrs) + "}";
    var s := HeadText(sigil, name) + body;
    SigilChars(sigil);
    assert s[0] == sigil[0] && s[|s| - 1] == '}';
    TrimmedStrip(s);
    ClassifyEntry(sigil, name, body, st);
    ClosesAtEnd(attrs);
    HeadInvisible(sigil, name, body);
    assert body[..|body| - 1] == Serialised(attrs);
    SerialisedEnds(attrs);
    TrimmedStrip(Serialised(attrs));
    ParsedSerialised(attrs);
  }

  lemma StripTrailingOnly(s: string)
    requires s != "" && !IsSpace(s[0])
    ensures Strip(s) == RStrip(s)
  {}

  lemma MultiLineClass(sigil: string, name: string, attrs: AttrMap, st: State)
    requires IsSigil(sigil) && IsName(name) && IdentPairs(attrs)
    requires '\n' in Serialised(attrs)
    requires ValidState(st) && !st.current.NoSection?
    ensures var first := Lines(Serialised(attrs) + "}")[0];
      Classify(HeadText(sigil, name) + first, st) == MultiStart(sigil, name, first)
  {
    var s := Serialised(attrs) + "}";
    var first := Lines(s)[0];
    ClassifyEntry(sigil, name, first, st);
    ClosesAtEnd(attrs);
    assert '\n' in s;
    FirstLineOpen(s, false, false);
    HeadInvisible(sigil, name, first);
  }

  /** An attrs entry over several lines, its first line already stripped. */
  lemma ReadMultiLine(sigil: string, name: string, attrs: AttrMap, rest: seq<string>, st: State)
    requires IsSigil(sigil) && IsName(name) && IdentPairs(attrs) && DistinctKeys(attrs)
    requires '\n' in Serialised(attrs)
    requires ValidState(st) && !st.current.NoSection?
    requires Trimmed(HeadText(sigil, name) + Lines(Serialised(attrs) + "}")[0])
    ensures var body := Lines(Serialised(attrs) + "}");
      ReadStep(HeadText(sigil, name) + body[0], body[1..] + rest, st)
        == (|body| - 1, AddEntry(st, Entry(sigil, name, Pairs(attrs))))
  {
    var s := Serialised(attrs) + "}";
    var body := Lines(s);
    TrimmedStrip(HeadText(sigil, name) + body[0]);
    MultiLineClass(sigil, name, attrs, st);
    MultiLineBody(attrs, rest);
  }

  lemma MultiLineBody(attrs: AttrMap, rest: seq<string>)
    requires IdentPairs(attrs) && DistinctKeys(attrs) && '\n' in Serialised(attrs)
    ensures var body := Lines(Serialised(attrs) + "}");
      var (found, used) := Collected(body[0], body[1..] + rest, false, 1);
      MultiPayload(found) == Pairs(attrs) && used == |body| - 1
  {
    var s := Serialised(attrs) + "}";
    CollectAll(s, rest, false, 1);
    ClosesAtEnd(attrs);
    assert s[..|s| - 1] == Serialised(attrs);
    MultiLineText(attrs);
  }

  lemma MultiLineText(attrs: AttrMap)
    requires IdentPairs(attrs) && DistinctKeys(attrs) && '\n' in Serialised(attrs)
    ensures MultiPayload(TrimLast(Lines(Serialised(attrs)))) == Pairs(attrs)
    ensures |Lines(Serialised(attrs))| == |Lines(Serialised(attrs) + "}")|
  {
    var text := Serialised(attrs);
    assert attrs == [] ==> text == "";
    SerialisedEnds(attrs);
    assert IsSpace('\n');
    LastLine(text, "}");
    TrimmedLines(text);
    UnlinesLines(text);
    TrimmedStripChar(text, '\n');
    ParsedSerialised(attrs);
  }

  lemma TrimmedStripChar(s: string, c: char)
    requires TrimmedOf(s, c)
    ensures StripChar(s, c) == s
  {}

  lemma TrimmedLines(text: string)
    requires text != "" && Trimmed(text)
    ensures TrimLast(Lines(text)) == Lines(text)
  {
    assert IsSpace('\n');
    LastLine(text, "");
    var ls := Lines(text);
    assert RStrip(ls[|ls| - 1]) == ls[|ls| - 1];
  }

  /** How one more character changes the number of lines and the last one. */
  lemma LinesHead(c: char, t: string)
    ensures |Lines([c] + t)| == |Lines(t)| + (if c == '\n' then 1 else 0)
    ensures Lines([c] + t)[|Lines([c] + t)| - 1]
         == if |Lines(t)| == 1 && c != '\n' then [c] + Lines(t)[0] else Lines(t)[|Lines(t)| - 1]
  {
    assert ([c] + t)[1..] == t;
  }

  /** Appending to a text without a final break lengthens its last line only. */
  lemma {:induction false} LastLine(s: string, t: string)
    requires s != "" && s[|s| - 1] != '\n' && '\n' !in t
    ensures |Lines(s + t)| == |Lines(s)|
    ensures var last := Lines(s)[|Lines(s)| - 1]; last != "" && last[|last| - 1] == s[|s| - 1]
  {
    if |s| == 1 {
      assert '\n' !in s && '\n' !in s + t;
      LinesPlain(s + t);
      LinesPlain(s);
    } else {
      var rest := s[1..];
      assert s == [s[0]] + rest;
      ConcatAssoc([s[0]], rest, t);
      LinesHead(s[0], rest);
      LinesHead(s[0], rest + t);
      LastLine(rest, t);
    }
  }
}
