/** What the reader's scanners do on text the printer produced. */
module CortexScan {
  import opened Text
  import opened Attrs
  import opened CortexModel
  import opened CortexReader

  // ------------------------------------------------- pair search on printed attrs

  predicate IsIdent(key: string) { key != "" && IdentLen(key) == |key| }

  lemma IdentWord(s: string)
    requires s != "" && IsIdentStart(s[0]) && forall c | c in s :: IsIdentChar(c)
    ensures IsIdent(s)
  {
    IdentTail(s[1..]);
  }

  lemma {:induction false} IdentTail(s: string)
    requires forall c | c in s :: IsIdentChar(c)
    ensures IdentTailLen(s) == |s|
  {
    if s != "" {
      assert s[0] in s;
      IdentTail(s[1..]);
    }
  }

  lemma {:induction false} IdentTailStops(t: string, rest: string)
    requires IdentTailLen(t) == |t| && (rest == "" || !IsIdentChar(rest[0]))
    ensures IdentTailLen(t + rest) == |t|
  {
    if t == "" {
      assert t + rest == rest;
    } else {
      assert (t + rest)[1..] == t[1..] + rest;
      IdentTailStops(t[1..], rest);
    }
  }

  lemma IdentStops(key: string, rest: string)
    requires IsIdent(key) && (rest == "" || !IsIdentChar(rest[0]))
    ensures IdentLen(key + rest) == |key|
  {
    assert (key + rest)[1..] == key[1..] + rest;
    IdentTailStops(key[1..], rest);
  }

  /** The quoted pattern closes exactly at the printed closing quote. */
  lemma {:induction false} QuotedLenStops(v: string, rest: string)
    ensures QuotedLen(Escape(v) + "\"" + rest) == Some(|Escape(v)| + 1)
  {
    if v == "" {
      assert Escape(v) + "\"" + rest == "\"" + rest;
    } else {
      QuotedLenStops(v[1..], rest);
      var tail := Escape(v[1..]) + "\"" + rest;
      EscapeThen(v, "\"" + rest);
      ConcatAssoc(Escape(v), "\"", rest);
      ConcatAssoc(Escape(v[1..]), "\"", rest);
      EscapedCharPasses(v[0], tail);
    }
  }

  lemma EscapeThen(v: string, rest: string)
    requires v != ""
    ensures Escape(v) + rest == EscapeChar(v[0]) + (Escape(v[1..]) + rest)
    ensures |Escape(v)| == |EscapeChar(v[0])| + |Escape(v[1..])|
  {
    EscapeStep(v);
    ConcatAssoc(EscapeChar(v[0]), Escape(v[1..]), rest);
  }

  lemma EscapedCharPasses(c: char, tail: string)
    ensures var e, len := EscapeChar(c), QuotedLen(tail);
      QuotedLen(e + tail) == if len.None? then None else Some(|e| + len.value)
  {
    var e := EscapeChar(c);
    assert (e + tail)[|e|..] == tail;
    assert |e| == 1 ==> (e + tail)[1..] == tail;
  }

  lemma {:induction false} DigitsLenStops(t: string, rest: string)
    requires (forall c | c in t :: IsDigit(c)) && (rest == "" || !IsDigit(rest[0]))
    ensures DigitsLen(t + rest) == |t|
  {
    if t == "" {
      assert t + rest == rest;
    } else {
      assert (t + rest)[1..] == t[1..] + rest;
      assert t[0] in t;
      DigitsLenStops(t[1..], rest);
    }
  }

  lemma NumberLenInt(i: int, rest: string)
    requires AtSep(rest)
    ensures NumberLen(IntToString(i) + rest) == |IntToString(i)|
  {
    var digits := NatToString(if i < 0 then -i else i);
    var s := IntToString(i) + rest;
    DigitsLenStops(digits, rest);
    if i < 0 {
      assert s[1..] == digits + rest;
    } else {
      assert s[0..] == digits + rest;
      assert digits[0] in digits;
    }
  }

  lemma NumberLenFloat(t: string, rest: string)
    requires IsPlainFloat(t) && AtSep(rest)
    ensures NumberLen(t + rest) == |t|
  {
    var sign, w, f := FloatParts(t);
    assert t + rest == sign + (w + ("." + (f + rest)));
    NumberLenParts(sign, w, f, rest);
  }

  /** Where the parts of a float lie in a longer text. */
  lemma FloatLayout(sign: string, w: string, f: string, rest: string)
    requires sign in ["", "-"] && AllDigits(w)
    ensures var s := sign + (w + ("." + (f + rest)));
      && s[|sign|..] == w + ("." + (f + rest)) && s[0] == (if sign == "" then w[0] else '-')
      && s[|sign| + |w|] == '.' && s[|sign| + |w| + 1..] == f + rest
  {
    var tail, front := "." + (f + rest), sign + w + ".";
    ConcatAssoc(sign, w, tail);
    ConcatAssoc(sign + w, ".", f + rest);
    SplitAt(sign, w + tail);
    SplitAt(front, f + rest);
  }

  lemma NumberLenParts(sign: string, w: string, f: string, rest: string)
    requires sign in ["", "-"] && AllDigits(w) && AllDigits(f) && AtSep(rest)
    ensures NumberLen(sign + (w + ("." + (f + rest)))) == |sign| + |w| + 1 + |f|
  {
    FloatLayout(sign, w, f, rest);
    assert w[0] in w;
    PointStopsDigits(w, f + rest);
    DigitsLenStops(f, rest);
  }

  lemma PointStopsDigits(w: string, rest: string)
    requires AllDigits(w)
    ensures DigitsLen(w + ("." + rest)) == |w|
  {
    assert ("." + rest)[0] == '.';
    DigitsLenStops(w, "." + rest);
  }

  /** A printed value is matched whole, and coerced back to itself. */
  lemma MatchValue(v: Value, rest: string)
    requires PrintableValue(v) && !v.VNone? && AtSep(rest)
    ensures ValueText(v) != "" && !IsSpace(ValueText(v)[0])
    ensures ValueLen(ValueText(v) + rest) == |ValueText(v)|
    ensures Coerce(ValueText(v)) == v
  {
    match v {
      case VBool(b) => MatchBool(b, rest);
      case VInt(i) => MatchInt(i, rest);
      case VFloat(t) => MatchFloat(t, rest);
      case VStr(s) => MatchStr(s, rest);
    }
  }

  lemma MatchBool(b: bool, rest: string)
    ensures ValueLen(ValueText(VBool(b)) + rest) == |ValueText(VBool(b))|
    ensures Coerce(ValueText(VBool(b))) == VBool(b)
  {
    var t := ValueText(VBool(b));
    assert (t + rest)[..|t|] == t;
    assert (t + rest)[0] == t[0];
  }

  lemma MatchInt(i: int, rest: string)
    requires AtSep(rest)
    ensures IntToString(i) != "" && !IsSpace(IntToString(i)[0])
    ensures ValueLen(IntToString(i) + rest) == |IntToString(i)|
    ensures Coerce(IntToString(i)) == VInt(i)
  {
    var t := IntToString(i);
    IntTextChars(i);
    IntRoundTrip(i);
    NumberLenInt(i, rest);
    assert t[0] in t;
    NotAWord(t, rest);
  }

  lemma MatchStr(s: string, rest: string)
    ensures var t := "\"" + Escape(s) + "\"";
      ValueLen(t + rest) == |t| && Coerce(t) == VStr(s)
  {
    var raw := "\"" + Escape(s) + "\"";
    var body := Escape(s) + "\"" + rest;
    assert raw + rest == "\"" + body;
    assert ("\"" + body)[1..] == body;
    QuotedLenStops(s, rest);
    UnescapeEscape(s);
    assert raw[1..|raw| - 1] == Escape(s);
  }

  /** A number starts with neither a quote nor a letter. */
  lemma NotAWord(t: string, rest: string)
    requires t != "" && (IsDigit(t[0]) || t[0] == '-')
    ensures (t + rest)[0] != QUOTE && !StartsWith(t + rest, "true") && !StartsWith(t + rest, "false")
    ensures t != "true" && t != "false"
  {
    var s := t + rest;
    assert s[0] == t[0];
    assert |s| >= 4 ==> s[..4][0] == t[0];
    assert |s| >= 5 ==> s[..5][0] == t[0];
  }

  /** A float literal is neither a word, a quoted text nor an integer. */
  lemma FloatCoerces(t: string)
    requires IsPlainFloat(t)
    ensures t != "" && (IsDigit(t[0]) || t[0] == '-') && Coerce(t) == VFloat(t)
  {
    PlainFloatChars(t);
    assert t[0] in t;
    NotAWord(t, "");
    assert t + "" == t;
    var i :| 0 <= i < |t| && t[i] == '.';
    assert t[i] in t;
    assert i > 0 ==> t[1..][i - 1] in t[1..];
  }

  lemma MatchFloat(t: string, rest: string)
    requires IsPlainFloat(t) && AtSep(rest)
    ensures t != "" && !IsSpace(t[0])
    ensures ValueLen(t + rest) == |t|
    ensures Coerce(t) == VFloat(t)
  {
    FloatCoerces(t);
    NumberLenFloat(t, rest);
    NotAWord(t, rest);
  }

  lemma MatchPrintedPair(a: Attr, rest: string)
    requires IsIdent(a.key) && PrintableValue(a.value) && !a.value.VNone? && AtSep(rest)
    ensures MatchPair(PairText(a) + rest) == PairAt(a.key, ValueText(a.value), |PairText(a)|)
  {
    MatchValue(a.value, rest);
    MatchKeyed(a.key, ValueText(a.value), rest);
  }

  lemma MatchKeyed(key: string, t: string, rest: string)
    requires IsIdent(key) && t != "" && !IsSpace(t[0]) && ValueLen(t + rest) == |t|
    ensures MatchPair(key + ":" + t + rest) == PairAt(key, t, |key + ":" + t|)
  {
    PairLayout(key, t, rest);
    IdentStops(key, ":" + (t + rest));
    MatchPairAt(key + ":" + t + rest, |key|, |t|);
  }

  lemma PairLayout(key: string, t: string, rest: string)
    requires t != ""
    ensures var (s, k) := (key + ":" + t + rest, |key|);
      && s == key + (":" + (t + rest)) && s[..k] == key && s[k] == ':' && s[k + 1..] == t + rest
      && s[k + 1..k + 1 + |t|] == t && (t + rest)[0] == t[0]
  {
    SplitAt(key, ":" + (t + rest));
    SplitAt(key + ":", t + rest);
  }

  /** A key, a colon and a value with no blanks between. */
  lemma MatchPairAt(s: string, k: nat, n: nat)
    requires IdentLen(s) == k > 0 && k < |s| && s[k] == ':' && ValueLen(s[k + 1..]) == n > 0
    requires s[k + 1..] != "" ==> !IsSpace(s[k + 1..][0])
    ensures k + 1 + n <= |s| && MatchPair(s) == PairAt(s[..k], s[k + 1..k + 1 + n], k + 1 + n)
  {
    assert s[k..][0] == ':';
    assert SpaceLen(s[k..]) == 0 && SpaceLen(s[k + 1..]) == 0;
  }

  /** Printable pairs whose keys are identifiers, new to `acc` and to each other. */
  predicate Findable(attrs: AttrMap, acc: AttrMap) {
    attrs == [] ||
    (var a := attrs[0];
     && IsIdent(a.key) && PrintableValue(a.value) && !a.value.VNone?
     && Put(acc, a.key, a.value) == acc + [a]
     && Findable(attrs[1..], acc + [a]))
  }

  lemma FindStep(attrs: AttrMap, acc: AttrMap)
    requires attrs != [] && Findable(attrs, acc)
    ensures FoundPairs(Serialised(attrs), acc) == FoundPairs(Tail(attrs[1..]), acc + [attrs[0]])
  {
    FindablePrintsAll(attrs, acc);
    SerialisedCons(attrs);
    var a, tail := attrs[0], Tail(attrs[1..]);
    MatchPrintedPair(a, tail);
    MatchValue(a.value, tail);
    assert (PairText(a) + tail)[|PairText(a)|..] == tail;
  }

  lemma {:induction false} FindablePrintsAll(attrs: AttrMap, acc: AttrMap)
    requires Findable(attrs, acc)
    ensures PrintsAll(attrs)
    decreases attrs
  {
    if attrs != [] {
      FindablePrintsAll(attrs[1..], acc + [attrs[0]]);
    }
  }

  /** The search finds nothing at a separator. */
  lemma SkipTailSep(s: string, acc: AttrMap)
    ensures FoundPairs(", " + s, acc) == FoundPairs(s, acc)
  {
    assert MatchPair(", " + s).NoPair?;
    assert (", " + s)[1..] == " " + s;
    assert MatchPair(" " + s).NoPair?;
    assert (" " + s)[1..] == s;
  }

  lemma {:induction false} FindTail(attrs: AttrMap, acc: AttrMap)
    requires Findable(attrs, acc)
    ensures FoundPairs(Tail(attrs), acc) == acc + attrs
    decreases attrs
  {
    if attrs == [] {
      assert acc + attrs == acc;
    } else {
      SkipTailSep(Serialised(attrs), acc);
      FindStep(attrs, acc);
      FindTail(attrs[1..], acc + [attrs[0]]);
      ShiftHead(acc, attrs);
    }
  }

  /** The pair search inverts the printer. */
  lemma FoundSerialised(attrs: AttrMap)
    requires Findable(attrs, [])
    ensures FoundPairs(Serialised(attrs), []) == attrs
  {
    if attrs != [] {
      FindStep(attrs, []);
      FindTail(attrs[1..], [] + [attrs[0]]);
      ShiftHead([], attrs);
      assert [] + attrs == attrs;
    }
  }

  // --------------------------------------------- strings, braces and line breaks

  /** At the first line break of `s`, if it has one, a string is open. */
  predicate BreaksInString(s: string, esc: bool, inStr: bool) {
    s == "" || (if s[0] == '\n' then inStr
                else BreaksInString(s[1..], NextEsc(s[0], esc), Toggle(s[0], esc, inStr)))
  }

  lemma {:induction false} FirstLineOpen(s: string, esc: bool, inStr: bool)
    requires BreaksInString(s, esc, inStr) && '\n' in s
    ensures InStringAfter(Lines(s)[0], esc, inStr)
  {
    if s[0] != '\n' {
      assert s[1..] != "" && '\n' in s[1..] by { assert s == [s[0]] + s[1..]; }
      FirstLineOpen(s[1..], NextEsc(s[0], esc), Toggle(s[0], esc, inStr));
      var r := Lines(s[1..]);
      assert ([s[0]] + r[0])[1..] == r[0];
    }
  }

  /** `t` in front of `rest` is invisible to every scanner outside a string. */
  ghost predicate Invisible(t: string, rest: string, depth: int) {
    && ScanText(t + rest, false, false, depth) == Shift(ScanText(rest, false, false, depth), |t|)
    && InStringAfter(t + rest, false, false) == InStringAfter(rest, false, false)
    && (BreaksInString(rest, false, false) ==> BreaksInString(t + rest, false, false))
  }

  predicate IsPlain(t: string) { forall c | c in t :: c != QUOTE && c != BACKSLASH && c != '{' && c != '}' && c != '\n' }

  lemma {:induction false} PlainInvisible(t: string, rest: string, depth: int)
    requires IsPlain(t) && depth > 0
    ensures Invisible(t, rest, depth)
  {
    if t == "" {
      assert t + rest == rest;
    } else {
      assert (t + rest)[1..] == t[1..] + rest;
      assert t[0] in t && forall c | c in t[1..] :: c in t;
      PlainInvisible(t[1..], rest, depth);
    }
  }

  /** Escaped text keeps an open string open, up to the text after it. */
  lemma {:induction false} EscapedStaysOpen(v: string, rest: string, depth: int)
    requires depth > 0
    ensures ScanText(Escape(v) + rest, false, true, depth)
         == Shift(ScanText(rest, false, true, depth), |Escape(v)|)
    ensures InStringAfter(Escape(v) + rest, false, true) == InStringAfter(rest, false, true)
    ensures BreaksInString(rest, false, true) ==> BreaksInString(Escape(v) + rest, false, true)
  {
    if v == "" {
      assert Escape(v) + rest == rest;
    } else {
      EscapedStaysOpen(v[1..], rest, depth);
      EscapedCharStaysOpen(v[0], Escape(v[1..]) + rest, depth);
      EscapeThen(v, rest);
    }
  }

  lemma EscapedCharStaysOpen(c: char, tail: string, depth: int)
    requires depth > 0
    ensures var e := EscapeChar(c);
      && ScanText(e + tail, false, true, depth) == Shift(ScanText(tail, false, true, depth), |e|)
      && InStringAfter(e + tail, false, true) == InStringAfter(tail, false, true)
      && (BreaksInString(tail, false, true) ==> BreaksInString(e + tail, false, true))
  {
    var e := EscapeChar(c);
    assert (e + tail)[1..] == e[1..] + tail;
    if |e| == 2 {
      assert (e[1..] + tail)[1..] == tail;
    } else {
      assert e[1..] + tail == tail;
    }
  }

  lemma QuotedInvisible(v: string, rest: string, depth: int)
    requires depth > 0
    ensures Invisible("\"" + Escape(v) + "\"", rest, depth)
  {
    var t := "\"" + Escape(v) + "\"";
    var inner := Escape(v) + ("\"" + rest);
    assert t + rest == "\"" + inner;
    assert ("\"" + inner)[1..] == inner;
    EscapedStaysOpen(v, "\"" + rest, depth);
    assert ("\"" + rest)[1..] == rest;
  }

  lemma InvisibleConcat(a: string, b: string, rest: string, depth: int)
    requires Invisible(a, b + rest, depth) && Invisible(b, rest, depth)
    ensures Invisible(a + b, rest, depth)
  {
    assert (a + b) + rest == a + (b + rest);
  }

  lemma PlainIdent(key: string)
    requires IsIdent(key)
    ensures IsPlain(key)
  {
    PlainIdentTail(key[1..]);
    assert key == [key[0]] + key[1..];
  }

  lemma {:induction false} PlainIdentTail(t: string)
    requires IdentTailLen(t) == |t|
    ensures IsPlain(t)
  {
    if t != "" {
      PlainIdentTail(t[1..]);
      assert t == [t[0]] + t[1..];
    }
  }

  lemma ValueInvisible(v: Value, rest: string, depth: int)
    requires depth > 0 && PrintableValue(v) && !v.VNone?
    ensures Invisible(ValueText(v), rest, depth)
  {
    match v {
      case VStr(s) => QuotedInvisible(s, rest, depth);
      case VBool(b) => PlainInvisible(ValueText(v), rest, depth);
      case VInt(i) => IntTextChars(i); PlainInvisible(ValueText(v), rest, depth);
      case VFloat(t) => PlainFloatChars(t); PlainInvisible(ValueText(v), rest, depth);
    }
  }

  lemma PairInvisible(a: Attr, rest: string, depth: int)
    requires depth > 0 && IsIdent(a.key) && PrintableValue(a.value) && !a.value.VNone?
    ensures Invisible(PairText(a), rest, depth)
  {
    PlainIdent(a.key);
    ValueInvisible(a.value, rest, depth);
    PlainInvisible(a.key + ":", ValueText(a.value) + rest, depth);
    InvisibleConcat(a.key + ":", ValueText(a.value), rest, depth);
  }

  predicate IdentPairs(attrs: AttrMap) {
    attrs == [] ||
    (IsIdent(attrs[0].key) && PrintableValue(attrs[0].value) && !attrs[0].value.VNone? && IdentPairs(attrs[1..]))
  }

  lemma {:induction false} IdentPairsPrintAll(attrs: AttrMap)
    requires IdentPairs(attrs)
    ensures PrintsAll(attrs)
  {
    if attrs != [] {
      IdentPairsPrintAll(attrs[1..]);
    }
  }

  lemma {:induction false} TailInvisible(attrs: AttrMap, rest: string, depth: int)
    requires depth > 0 && IdentPairs(attrs)
    ensures Invisible(Tail(attrs), rest, depth)
    decreases attrs
  {
    if attrs == [] {
      PlainInvisible("", rest, depth);
    } else {
      SerialisedInvisible(attrs, rest, depth);
      PlainInvisible(", ", Serialised(attrs) + rest, depth);
      InvisibleConcat(", ", Serialised(attrs), rest, depth);
    }
  }

  /** Printed attrs leave brace depth and string state as they found them. */
  lemma {:induction false} SerialisedInvisible(attrs: AttrMap, rest: string, depth: int)
    requires depth > 0 && IdentPairs(attrs)
    ensures Invisible(Serialised(attrs), rest, depth)
    decreases attrs, 0
  {
    if attrs == [] {
      PlainInvisible("", rest, depth);
    } else {
      TailInvisible(attrs[1..], rest, depth);
      PairInvisible(attrs[0], Tail(attrs[1..]) + rest, depth);
      InvisibleConcat(PairText(attrs[0]), Tail(attrs[1..]), rest, depth);
      IdentPairsPrintAll(attrs);
      SerialisedCons(attrs);
    }
  }
}
