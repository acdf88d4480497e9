/** `cortex/reader.py`: the line classifier, the brace-depth scanner and the attrs decoder. */
module CortexReader {
  import opened Text
  import opened Attrs
  import opened CortexModel

  // ----------------------------------------------------------- quote parity

  /** Length of the backslash run that ends just before `pos`. */
  function RunLen(text: string, pos: nat): nat
    requires pos <= |text|
  {
    if pos > 0 && text[pos - 1] == BACKSLASH then 1 + RunLen(text, pos - 1) else 0
  }

  /** `_is_escaped`. */
  method IsEscaped(text: string, pos: nat) returns (escaped: bool)
    requires pos <= |text|
    ensures escaped == (RunLen(text, pos) % 2 == 1)
  {
    var n := 0;
    var j := pos - 1;
    while j >= 0 && text[j] == BACKSLASH
      invariant -1 <= j < pos
      invariant n + RunLen(text, j + 1) == RunLen(text, pos)
    {
      n := n + 1;
      j := j - 1;
    }
    escaped := n % 2 == 1;
  }

  /** One forward step of the escape state: set after an unescaped backslash. */
  function NextEsc(c: char, esc: bool): bool { c == BACKSLASH && !esc }

  /** The escape state on reaching `pos`, carried forward from the start. */
  function EscAt(text: string, pos: nat): bool
    requires pos <= |text|
  {
    pos > 0 && NextEsc(text[pos - 1], EscAt(text, pos - 1))
  }

  /** Counting the run backwards and carrying one bit forwards agree. */
  lemma {:induction false} EscapedIsForward(text: string, pos: nat)
    requires pos <= |text|
    ensures EscAt(text, pos) == (RunLen(text, pos) % 2 == 1)
  {
    if pos > 0 {
      EscapedIsForward(text, pos - 1);
    }
  }

  function Toggle(c: char, esc: bool, inStr: bool): bool {
    if c == QUOTE && !esc then !inStr else inStr
  }

  /** Whether a string is open at the end of `s`. */
  function InStringAfter(s: string, esc: bool, inStr: bool): bool {
    if s == "" then inStr
    else InStringAfter(s[1..], NextEsc(s[0], esc), Toggle(s[0], esc, inStr))
  }

  /** `_balanced_quotes`: the number of unescaped quotes is even. */
  method BalancedQuotes(text: string) returns (balanced: bool)
    ensures balanced == !InStringAfter(text, false, false)
  {
    var count := 0;
    for p := 0 to |text|
      invariant InStringAfter(text[p..], EscAt(text, p), count % 2 == 1) == InStringAfter(text, false, false)
    {
      var escaped := IsEscaped(text, p);
      EscapedIsForward(text, p);
      assert text[p..][1..] == text[p + 1..];
      if text[p] == QUOTE && !escaped {
        count := count + 1;
      }
    }
    balanced := count % 2 == 0;
  }

  // ---------------------------------------------------- attribute pair search

  function SpaceLen(s: string): (n: nat)
    ensures n <= |s|
  { if s != "" && IsSpace(s[0]) then 1 + SpaceLen(s[1..]) else 0 }

  function IdentTailLen(s: string): (n: nat)
    ensures n <= |s|
  { if s != "" && IsIdentChar(s[0]) then 1 + IdentTailLen(s[1..]) else 0 }

  /** `[A-Za-z_][A-Za-z0-9_]*`; zero when it does not match. */
  function IdentLen(s: string): (n: nat)
    ensures n <= |s|
  { if s != "" && IsIdentStart(s[0]) then 1 + IdentTailLen(s[1..]) else 0 }

  /** `(?:[^"\\]|\\.)*"` after an opening quote: length up to and with the closing quote. */
  function QuotedLen(s: string): (r: Option<nat>)
    ensures r.Some? ==> 0 < r.value <= |s|
    decreases |s|
  {
    if s == "" then None
    else if s[0] == QUOTE then Some(1)
    else
      var width := if s[0] == BACKSLASH then 2 else 1;
      if |s| < width || (width == 2 && s[1] == '\n') then None
      else match QuotedLen(s[width..])
        case None => None
        case Some(n) => Some(width + n)
  }

  /** `-?\d+\.?\d*`; zero when it does not match. */
  function NumberLen(s: string): (n: nat)
    ensures n <= |s|
  {
    var sign := if s != "" && s[0] == '-' then 1 else 0;
    var whole := DigitsLen(s[sign..]);
    if whole == 0 then 0
    else
      var at := sign + whole;
      if at < |s| && s[at] == '.' then at + 1 + DigitsLen(s[at + 1..]) else at
  }

  /** The value alternatives in their order; zero when none matches. */
  function ValueLen(s: string): (n: nat)
    ensures n <= |s|
  {
    if s != "" && s[0] == QUOTE then
      match QuotedLen(s[1..]) case None => 0 case Some(n) => 1 + n
    else if StartsWith(s, "true") then 4
    else if StartsWith(s, "false") then 5
    else if NumberLen(s) > 0 then NumberLen(s)
    else IdentLen(s)
  }

  /** A match at the front of `s`: key, raw value, total length. */
  datatype PairMatch = NoPair | PairAt(key: string, raw: string, len: nat)

  function MatchPair(s: string): (r: PairMatch)
    ensures r.PairAt? ==> 0 < r.len <= |s|
  {
    var k := IdentLen(s);
    if k == 0 then NoPair
    else
      var c := k + SpaceLen(s[k..]);
      if c >= |s| || s[c] != ':' then NoPair
      else
        var v := c + 1 + SpaceLen(s[c + 1..]);
        var n := ValueLen(s[v..]);
        if n == 0 then NoPair else PairAt(s[..k], s[v..v + n], v + n)
  }

  predicate IsFloatWord(s: string) {
    Lower(s) in ["inf", "infinity", "nan"]
  }

  function LowerChar(c: char): char {
    if 'A' <= c <= 'Z' then ((c as int) + 32) as char else c
  }

  function Lower(s: string): string { if s == "" then "" else [LowerChar(s[0])] + Lower(s[1..]) }

  /** `_coerce_attr_value`. */
  function Coerce(raw: string): Value {
    if raw != "" && raw[0] == QUOTE && raw[|raw| - 1] == QUOTE then
      VStr(Unescape(if |raw| < 2 then "" else raw[1..|raw| - 1]))
    else if raw == "true" then VBool(true)
    else if raw == "false" then VBool(false)
    else if IsIntLiteral(raw) then VInt(ParseInt(raw))
    else if IsFloatLiteral(raw) || IsFloatWord(raw) then VFloat(raw)
    else VStr(raw)
  }

  /** How far the search moves past a match, or past a character with none. */
  function Advance(m: PairMatch): nat { if m.PairAt? then m.len else 1 }

  function Absorb(acc: AttrMap, m: PairMatch): AttrMap {
    if m.PairAt? then Put(acc, m.key, Coerce(m.raw)) else acc
  }

  /** All matches of the pair pattern, left to right, put into a dict. */
  function FoundPairs(s: string, acc: AttrMap): AttrMap
    decreases |s|
  {
    if s == "" then acc
    else var m := MatchPair(s); FoundPairs(s[Advance(m)..], Absorb(acc, m))
  }

  /** `_parse_attrs_fallback`: nothing found in a non-blank body is not attrs. */
  function ParsedAttrs(body: string): Option<AttrMap> {
    if Strip(body) == "" then Some([])
    else if FoundPairs(body, []) == [] then None
    else Some(FoundPairs(body, []))
  }

  method ParseAttrsFallback(body: string) returns (r: Option<AttrMap>)
    ensures r == ParsedAttrs(body)
  {
    if Strip(body) == "" {
      return Some([]);
    }
    var attrs := FindPairs(body);
    r := if attrs == [] then None else Some(attrs);
  }

  method FindPairs(body: string) returns (attrs: AttrMap)
    ensures attrs == FoundPairs(body, [])
  {
    attrs := [];
    var rest := body;
    while rest != ""
      invariant FoundPairs(rest, attrs) == FoundPairs(body, [])
      decreases |rest|
    {
      var m := MatchPair(rest);
      attrs := Absorb(attrs, m);
      rest := rest[Advance(m)..];
    }
  }

  // ----------------------------------------------------------- line patterns

  function SigilTailLen(s: string): (n: nat)
    ensures n <= |s|
  {
    if s != "" && ('A' <= s[0] <= 'Z' || IsDigit(s[0]) || s[0] == '_') then 1 + SigilTailLen(s[1..]) else 0
  }

  function SigilLen(s: string): (n: nat)
    ensures n <= |s|
  { if s != "" && 'A' <= s[0] <= 'Z' then 1 + SigilTailLen(s[1..]) else 0 }

  function NameLen(s: string): (n: nat)
    ensures n <= |s|
  { if s != "" && !IsSpace(s[0]) && s[0] != '{' then 1 + NameLen(s[1..]) else 0 }

  datatype Head = NoHead | Head(sigil: string, name: string, len: nat)

  /** `\s*name\s*{` after the colon; `len` counts up to and with the brace. */
  function MatchName(sigil: string, s: string): (r: Head)
    ensures r.Head? ==> 0 < r.len <= |s|
  {
    var c := SpaceLen(s);
    var d := c + NameLen(s[c..]);
    var e := d + SpaceLen(s[d..]);
    if d == c || e >= |s| || s[e] != '{' then NoHead else Head(sigil, s[c..d], e + 1)
  }

  /** `SIGIL:name{` at the front of a line; `len` counts up to and with the brace. */
  function MatchHead(s: string): (r: Head)
    ensures r.Head? ==> 0 < r.len <= |s|
  {
    var a := SigilLen(s);
    var b := a + SpaceLen(s[a..]);
    if a == 0 || b >= |s| || s[b] != ':' then NoHead
    else match MatchName(s[..a], s[b + 1..])
      case NoHead => NoHead
      case Head(sigil, name, n) => Head(sigil, name, b + 1 + n)
  }

  datatype Header = NoHeader | Header(id: string, title: Option<string>)

  /** Length of `\$\d+(\.\d+)?`; zero when it does not match. */
  function SectionIdLen(s: string): (n: nat)
    ensures n <= |s|
  {
    if s == "" || s[0] != '$' then 0
    else
      var whole := DigitsLen(s[1..]);
      if whole == 0 then 0
      else
        var at := 1 + whole;
        if at < |s| && s[at] == '.' && DigitsLen(s[at + 1..]) > 0
        then at + 1 + DigitsLen(s[at + 1..]) else at
  }

  /** `$N`, `$N.N` or `$N: title`, for a line stripped of outer whitespace. */
  function MatchHeader(s: string): Header {
    var n := SectionIdLen(s);
    if n == 0 then NoHeader
    else if n == |s| then Header(s, None)
    else
      var c := n + SpaceLen(s[n..]);
      if c >= |s| || s[c] != ':' || c + 1 >= |s| then NoHeader
      else
        var title := Strip(s[c + 1..]);
        Header(s[..n], Some(title))
  }

  predicate IsFormatDeclaration(s: string) {
    StartsWith(s, "$0:format") && (var n := 9 + SpaceLen(s[9..]); n < |s| && s[n] == '{')
  }

  // ------------------------------------------------------------ depth scanner

  datatype Scan = Closed(pos: nat) | Open(inStr: bool, depth: int)

  function NextDepth(c: char, inStr: bool, quote: bool, depth: int): int {
    if quote || inStr then depth
    else if c == '{' then depth + 1
    else if c == '}' then depth - 1
    else depth
  }

  function ScanText(s: string, esc: bool, inStr: bool, depth: int): (r: Scan)
    ensures r.Closed? ==> r.pos < |s|
  {
    if s == "" then Open(inStr, depth)
    else
      var quote := s[0] == QUOTE && !esc;
      var depth' := NextDepth(s[0], inStr, quote, depth);
      if depth' == 0 && depth' < depth then Closed(0)
      else match ScanText(s[1..], NextEsc(s[0], esc), Toggle(s[0], esc, inStr), depth')
        case Closed(pos) => Closed(pos + 1)
        case Open(i, d) => Open(i, d)
  }

  /** The inner scan of one physical line; escapes do not cross the line start. */
  method ScanLine(line: string, inStr0: bool, depth0: int) returns (r: Scan)
    ensures r == ScanText(line, false, inStr0, depth0)
  {
    var inStr, depth := inStr0, depth0;
    var pos := 0;
    assert line[0..] == line;
    while pos < |line|
      invariant pos <= |line|
      invariant ScanText(line, false, inStr0, depth0)
             == Shift(ScanText(line[pos..], EscAt(line, pos), inStr, depth), pos)
    {
      var escaped := IsEscaped(line, pos);
      EscapedIsForward(line, pos);
      ScanFrom(line, pos, escaped, inStr, depth);
      if line[pos] == QUOTE && !escaped {
        inStr := !inStr;
      } else if !inStr && line[pos] == '{' {
        depth := depth + 1;
      } else if !inStr && line[pos] == '}' {
        depth := depth - 1;
        if depth == 0 {
          return Closed(pos);
        }
      }
      pos := pos + 1;
    }
    r := Open(inStr, depth);
  }

  /** One character of the scan, seen from the start of the line. */
  lemma ScanFrom(line: string, pos: nat, escaped: bool, inStr: bool, depth: int)
    requires pos < |line| && escaped == EscAt(line, pos)
    ensures var depth' := NextDepth(line[pos], inStr, line[pos] == QUOTE && !escaped, depth);
      Shift(ScanText(line[pos..], escaped, inStr, depth), pos)
        == if depth' == 0 && depth' < depth then Closed(pos)
           else Shift(ScanText(line[pos + 1..], EscAt(line, pos + 1), Toggle(line[pos], escaped, inStr), depth'), pos + 1)
  {
    assert line[pos..][1..] == line[pos + 1..] && line[pos..][0] == line[pos];
  }

  function Shift(r: Scan, n: nat): Scan {
    match r case Closed(pos) => Closed(pos + n) case Open(i, d) => r
  }

  /** Body lines of a multi-line entry, and how many further lines it consumed. */
  function Collected(first: string, rest: seq<string>, inStr: bool, depth: int): (r: (seq<string>, nat))
    ensures r.0 != [] && r.1 <= |rest|
    decreases |rest|
  {
    match ScanText(first, false, inStr, depth)
    case Closed(pos) => ([RStrip(first[..pos])], 0)
    case Open(i, d) =>
      if rest == [] then ([first], 0)
      else var (more, n) := Collected(rest[0], rest[1..], i, d); ([first] + more, n + 1)
  }

  method Collect(first: string, rest: seq<string>) returns (body: seq<string>, used: nat)
    ensures (body, used) == Collected(first, rest, false, 1)
  {
    body := [first];
    used := 0;
    var inStr, depth := false, 1;
    var done := false;
    assert body[..|body| - 1] + Collected(first, rest, false, 1).0 == Collected(first, rest, false, 1).0;
    while !done
      invariant used <= |rest| && body != []
      invariant done ==> (body, used) == Collected(first, rest, false, 1)
      invariant !done ==>
        var (more, n) := Collected(body[|body| - 1], rest[used..], inStr, depth);
        Collected(first, rest, false, 1) == (body[..|body| - 1] + more, used + n)
      decreases !done, |rest| - used
    {
      var line := body[|body| - 1];
      var scan := ScanLine(line, inStr, depth);
      match scan {
        case Closed(pos) =>
          body := body[..|body| - 1] + [RStrip(line[..pos])];
          done := true;
        case Open(i, d) =>
          inStr, depth := i, d;
          if used >= |rest| {
            assert body[..|body| - 1] + [line] == body;
            done := true;
          } else {
            assert rest[used..][1..] == rest[used + 1..];
            ghost var kept := body[..|body| - 1];
            ghost var (more, n) := Collected(rest[used], rest[used + 1..], i, d);
            assert kept + ([line] + more) == (kept + [line]) + more;
            assert kept + [line] == body;
            body := body + [rest[used]];
            assert body[..|body| - 1] == kept + [line];
            used := used + 1;
          }
      }
    }
  }

  function MultiPayload(body: seq<string>): Payload {
    var text := StripChar(Unlines(body), '\n');
    match ParsedAttrs(text)
    case Some(attrs) => if attrs == [] then Body(text) else Pairs(attrs)
    case None => Body(text)
  }

  function InlinePayload(body: string): Payload {
    match ParsedAttrs(body) case Some(attrs) => Pairs(attrs) case None => Body(body)
  }

  // -------------------------------------------------------------- the reader

  /** The section under construction: none yet, the leading glossary, or the last one listed. */
  datatype Current = NoSection | Glossary | Last

  datatype State = State(
    comments: seq<string>,       // glossary comments
    symbols: seq<Entry>,         // glossary symbols already closed
    glossary: seq<Entry>,        // entries of the leading `$0`
    sections: seq<Section>,
    current: Current,
    pending: seq<string>)        // comments not attached yet

  predicate ValidState(st: State) { st.current.Last? ==> st.sections != [] }

  const START := State([], [], [], [], NoSection, [])

  predicate InGlossary(st: State)
    requires ValidState(st)
  {
    st.current.Glossary? || (st.current.Last? && st.sections[|st.sections| - 1].id == "$0")
  }

  function CurrentEntries(st: State): seq<Entry>
    requires ValidState(st)
  {
    match st.current
    case NoSection => []
    case Glossary => st.glossary
    case Last => st.sections[|st.sections| - 1].entries
  }

  function AddEntry(st: State, e: Entry): (r: State)
    requires ValidState(st)
    ensures ValidState(r)
  {
    match st.current
    case NoSection => st
    case Glossary => st.(glossary := st.glossary + [e])
    case Last =>
      var n := |st.sections| - 1;
      st.(sections := st.sections[n := st.sections[n].(entries := st.sections[n].entries + [e])])
  }

  /** What a new header does to the section that was open. */
  function CloseCurrent(st: State): (r: State)
    requires ValidState(st)
    ensures ValidState(r)
  {
    if st.current.NoSection? then st
    else if InGlossary(st) then
      st.(comments := st.comments + st.pending, symbols := st.symbols + CurrentEntries(st))
    else
      var n := |st.sections| - 1;
      st.(sections := st.sections[n := st.sections[n].(comments := st.sections[n].comments + st.pending)])
  }

  function OpenSection(st: State, id: string, title: Option<string>): (r: State)
    requires ValidState(st)
    ensures ValidState(r)
  {
    if id == "$0" && st.sections == [] && st.current.NoSection? then
      st.(comments := st.pending, pending := [], current := Glossary)
    else
      var closed := CloseCurrent(st);
      closed.(sections := closed.sections + [Section(id, title, [], [])], current := Last, pending := [])
  }

  /** What the reader takes a stripped line for. */
  datatype Line =
    | Ignored
    | Comment
    | SectionStart(id: string, title: Option<string>)
    | Inline(sigil: string, name: string, body: string)
    | MultiStart(sigil: string, name: string, first: string)

  function Classify(s: string, st: State): Line
    requires ValidState(st)
  {
    if s == "" then Ignored
    else if s[0] == '#' then Comment
    else if IsFormatDeclaration(s) && InGlossary(st) then Ignored
    else match MatchHeader(s)
      case Header(id, title) => SectionStart(id, title)
      case NoHeader =>
        if StartsWith(s, "GSIG:") || StartsWith(s, "GCON:") || st.current.NoSection? then Ignored
        else match MatchHead(s)
          case NoHead => Ignored
          case Head(sigil, name, n) =>
            if n < |s| && s[|s| - 1] == '}' && !InStringAfter(s, false, false)
            then Inline(sigil, name, Strip(s[n..|s| - 1]))
            else MultiStart(sigil, name, s[n..])
  }

  /** Adds an inline entry, unless it is a declaration inside the glossary. */
  function AddInline(st: State, e: Entry): (r: State)
    requires ValidState(st)
    ensures ValidState(r)
  {
    if e.payload.Pairs? && InGlossary(st) && IsDeclaration(e.payload.attrs) then st else AddEntry(st, e)
  }

  /** What a classified line does: further lines consumed, and the new state. */
  function Apply(line: Line, s: string, more: seq<string>, st: State): (r: (nat, State))
    requires ValidState(st)
    ensures r.0 <= |more| && ValidState(r.1)
  {
    match line
    case Ignored => (0, st)
    case Comment => (0, st.(pending := st.pending + [s]))
    case SectionStart(id, title) => (0, OpenSection(st, id, title))
    case Inline(sigil, name, body) => (0, AddInline(st, Entry(sigil, name, InlinePayload(body))))
    case MultiStart(sigil, name, first) =>
      var (body, used) := Collected(first, more, false, 1);
      (used, AddEntry(st, Entry(sigil, name, MultiPayload(body))))
  }

  /** One turn of the reader loop. */
  function ReadStep(line: string, more: seq<string>, st: State): (r: (nat, State))
    requires ValidState(st)
    ensures r.0 <= |more| && ValidState(r.1)
  {
    Apply(Classify(Strip(line), st), Strip(line), more, st)
  }

  function ReadLines(lines: seq<string>, st: State): (r: State)
    requires ValidState(st)
    ensures ValidState(r)
    decreases |lines|
  {
    if lines == [] then st
    else var (n, st') := ReadStep(lines[0], lines[1..], st); ReadLines(lines[1 + n..], st')
  }

  function Finish(st: State): Document
    requires ValidState(st)
  {
    var open := !st.current.NoSection? && InGlossary(st);
    var comments := if open then st.comments + st.pending else st.comments;
    var sections :=
      if open || st.sections == [] then st.sections
      else
        var n := |st.sections| - 1;
        st.sections[n := st.sections[n].(comments := st.sections[n].comments + st.pending)];
    Document("$0", comments, if open then st.symbols + CurrentEntries(st) else st.symbols, sections)
  }

  function Read(text: string): Document { Finish(ReadLines(Lines(text), START)) }

  /** `_parse_fallback`: an index over the lines, advanced by one or more lines a turn. */
  method ParseFallback(text: string) returns (doc: Document)
    ensures doc == Read(text)
  {
    var lines := Lines(text);
    var st := START;
    var i := 0;
    ghost var rest := lines;
    while i < |lines|
      invariant i <= |lines| && ValidState(st) && rest == lines[i..]
      invariant ReadLines(rest, st) == ReadLines(lines, START)
    {
      var n, st' := ReadTurn(lines[i], lines[i + 1..], st);
      TurnFrom(lines, i, st, (n, st'));
      rest := lines[i + 1 + n..];
      i := i + 1 + n;
      st := st';
    }
    doc := Finish(st);
  }

  /** One turn of the reading loop, seen from the start of the text. */
  lemma TurnFrom(lines: seq<string>, i: nat, st: State, turn: (nat, State))
    requires i < |lines| && ValidState(st) && ValidState(turn.1) && turn.0 < |lines| - i
    requires turn == ReadStep(lines[i], lines[i + 1..], st)
    ensures ReadLines(lines[i..], st) == ReadLines(lines[i + 1 + turn.0..], turn.1)
  {
    DropHead(lines, i);
    FirstTurn(lines[i..], lines[i], lines[i + 1..], st, turn);
    DropDrop(lines, i, 1 + turn.0);
  }

  lemma FirstTurn(all: seq<string>, head: string, rest: seq<string>, st: State, turn: (nat, State))
    requires ValidState(st) && ValidState(turn.1) && all != [] && head == all[0] && rest == all[1..]
    requires turn == ReadStep(head, rest, st)
    ensures turn.0 <= |rest| && ReadLines(all, st) == ReadLines(all[1 + turn.0..], turn.1)
  {}

  lemma DropHead(lines: seq<string>, i: nat)
    requires i < |lines|
    ensures lines[i..][0] == lines[i] && lines[i..][1..] == lines[i + 1..]
  {}

  method ReadTurn(first: string, more: seq<string>, st: State) returns (n: nat, st': State)
    requires ValidState(st)
    ensures (n, st') == ReadStep(first, more, st)
  {
    var s := Strip(first);
    var line := ClassifyLine(s, st);
    n, st' := ApplyLine(line, s, more, st);
  }

  method ApplyLine(line: Line, s: string, more: seq<string>, st: State) returns (n: nat, st': State)
    requires ValidState(st)
    ensures (n, st') == Apply(line, s, more, st)
  {
    match line {
      case Ignored => return 0, st;
      case Comment => return 0, st.(pending := st.pending + [s]);
      case SectionStart(id, title) => return 0, OpenSection(st, id, title);
      case Inline(sigil, name, body) =>
        var attrs := ParseAttrsFallback(body);
        var payload := if attrs.Some? then Pairs(attrs.value) else Body(body);
        return 0, AddInline(st, Entry(sigil, name, payload));
      case MultiStart(sigil, name, open) =>
        var body, used := Collect(open, more);
        var text := StripChar(Unlines(body), '\n');
        var attrs := ParseAttrsFallback(text);
        var payload := if attrs.Some? && attrs.value != [] then Pairs(attrs.value) else Body(text);
        return used, AddEntry(st, Entry(sigil, name, payload));
    }
  }

  method ClassifyLine(s: string, st: State) returns (line: Line)
    requires ValidState(st)
    ensures line == Classify(s, st)
  {
    if s == "" {
      return Ignored;
    }
    if s[0] == '#' {
      return Comment;
    }
    if IsFormatDeclaration(s) && InGlossary(st) {
      return Ignored;
    }
    var header := MatchHeader(s);
    if header.Header? {
      return SectionStart(header.id, header.title);
    }
    if StartsWith(s, "GSIG:") || StartsWith(s, "GCON:") || st.current.NoSection? {
      return Ignored;
    }
    var head := MatchHead(s);
    if head.NoHead? {
      return Ignored;
    }
    var balanced := BalancedQuotes(s);
    if head.len < |s| && s[|s| - 1] == '}' && balanced {
      return Inline(head.sigil, head.name, Strip(s[head.len..|s| - 1]));
    }
    return MultiStart(head.sigil, head.name, s[head.len..]);
  }
}
