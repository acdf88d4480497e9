/** The attrs primitives of `formats.py`: printer, scanner, and their inverse law. */
module Attrs {
  import opened Text

  /** An attribute value; a float is kept as the literal that denotes it. */
  datatype Value =
    | VNone
    | VBool(b: bool)
    | VInt(i: int)
    | VFloat(literal: string)
    | VStr(s: string)

  datatype Attr = Attr(key: string, value: Value)

  /** A Python dict in insertion order. */
  type AttrMap = seq<Attr>

  predicate HasKey(attrs: AttrMap, key: string) { exists a :: a in attrs && a.key == key }

  predicate DistinctKeys(attrs: AttrMap) {
    forall i, j :: 0 <= i < j < |attrs| ==> attrs[i].key != attrs[j].key
  }

  /** `d[key] = value`: replace in place, or append. */
  function Put(attrs: AttrMap, key: string, value: Value): AttrMap {
    if attrs == [] then [Attr(key, value)]
    else if attrs[0].key == key then [Attr(key, value)] + attrs[1..]
    else [attrs[0]] + Put(attrs[1..], key, value)
  }

  /** The value of the first pair with the key. */
  function ValueOf(attrs: AttrMap, key: string): Option<Value> {
    if attrs == [] then None else if attrs[0].key == key then Some(attrs[0].value) else ValueOf(attrs[1..], key)
  }

  lemma {:induction false} ValueOfPut(attrs: AttrMap, key: string, v: Value, k: string)
    ensures ValueOf(Put(attrs, key, v), k) == if k == key then Some(v) else ValueOf(attrs, k)
  {
    if attrs != [] && attrs[0].key != key {
      ValueOfPut(attrs[1..], key, v, k);
      assert ([attrs[0]] + Put(attrs[1..], key, v))[1..] == Put(attrs[1..], key, v);
    } else if attrs != [] {
      assert ([Attr(key, v)] + attrs[1..])[1..] == attrs[1..];
    }
  }

  lemma {:induction false} PutFresh(attrs: AttrMap, key: string, value: Value)
    requires !HasKey(attrs, key)
    ensures Put(attrs, key, value) == attrs + [Attr(key, value)]
  {
    if attrs != [] {
      assert attrs[0] in attrs;
      PutFresh(attrs[1..], key, value);
    }
  }

  function DropNone(attrs: AttrMap): AttrMap {
    if attrs == [] then []
    else (if attrs[0].value.VNone? then [] else [attrs[0]]) + DropNone(attrs[1..])
  }

  lemma {:induction false} DropNoneMember(attrs: AttrMap, a: Attr)
    ensures a in DropNone(attrs) <==> a in attrs && !a.value.VNone?
  {
    if attrs != [] {
      DropNoneMember(attrs[1..], a);
    }
  }

  /** `str(v)`. */
  function StrOf(v: Value): string {
    match v
    case VNone => "None"
    case VBool(b) => if b then "True" else "False"
    case VInt(i) => IntToString(i)
    case VFloat(literal) => literal
    case VStr(s) => s
  }

  // ----------------------------------------------------------------- escape

  const BACKSLASH := '\\'
  const QUOTE := '"'

  /** `v.replace("\\", "\\\\").replace('"', '\\"')` */
  function Escape(v: string): string {
    Replace(Replace(v, "\\", "\\\\"), "\"", "\\\"")
  }

  /** `w.replace('\\"', '"').replace("\\\\", "\\")` */
  function Unescape(w: string): string {
    Replace(Replace(w, "\\\"", "\""), "\\\\", "\\")
  }

  function EscapeChar(c: char): string {
    if c == BACKSLASH then "\\\\" else if c == QUOTE then "\\\"" else [c]
  }

  /** Two whole-string passes act on one character at a time. */
  lemma EscapeCons(c: char, v: string)
    ensures Escape([c] + v) == EscapeChar(c) + Escape(v)
  {
    ReplaceCharCons(c, v, BACKSLASH, "\\\\");
    var head := if c == BACKSLASH then "\\\\" else [c];
    ReplaceCharConcat(head, Replace(v, "\\", "\\\\"), QUOTE, "\\\"");
    assert Replace(head, "\"", "\\\"") == EscapeChar(c) by {
      if c == BACKSLASH {
        ReplaceCharCons(BACKSLASH, "\\", QUOTE, "\\\"");
        ReplaceCharCons(BACKSLASH, "", QUOTE, "\\\"");
        assert [BACKSLASH] + "\\" == "\\\\" && [BACKSLASH] + "" == "\\";
      } else {
        ReplaceCharCons(c, "", QUOTE, "\\\"");
        assert [c] + "" == [c];
      }
    }
  }

  lemma EscapeStep(v: string)
    requires v != ""
    ensures Escape(v) == EscapeChar(v[0]) + Escape(v[1..])
  {
    EscapeCons(v[0], v[1..]);
    assert [v[0]] + v[1..] == v;
  }

  /** The first unescape pass removes exactly the quote escapes. */
  lemma {:induction false} UnquotePass(v: string)
    ensures Replace(Escape(v), "\\\"", "\"") == Replace(v, "\\", "\\\\")
    ensures Escape(v) != "" ==> Escape(v)[0] != QUOTE
  {
    if v != "" {
      EscapeStep(v);
      UnquotePass(v[1..]);
      ReplaceCharCons(v[0], v[1..], BACKSLASH, "\\\\");
      assert [v[0]] + v[1..] == v;
      var rest := Escape(v[1..]);
      var e := EscapeChar(v[0]) + rest;
      if v[0] == BACKSLASH {
        assert e[0] == BACKSLASH && e[1] == BACKSLASH;
        assert e[..2][1] == BACKSLASH;
        assert e[1..] == "\\" + rest;
        if rest != "" {
          assert ("\\" + rest)[..2][1] == rest[0];
        }
        assert ("\\" + rest)[1..] == rest;
      } else if v[0] == QUOTE {
        assert e[..2] == "\\\"" && e[2..] == rest;
      } else {
        assert |e| >= 2 ==> e[..2][0] == v[0];
        assert e[1..] == rest;
      }
    }
  }

  /** The second pass halves every run of backslashes. */
  lemma {:induction false} HalvePass(v: string)
    ensures Replace(Replace(v, "\\", "\\\\"), "\\\\", "\\") == v
  {
    if v != "" {
      HalvePass(v[1..]);
      ReplaceCharCons(v[0], v[1..], BACKSLASH, "\\\\");
      assert [v[0]] + v[1..] == v;
      var rest := Replace(v[1..], "\\", "\\\\");
      if v[0] == BACKSLASH {
        assert ("\\\\" + rest)[..2] == "\\\\" && ("\\\\" + rest)[2..] == rest;
      } else {
        var e := [v[0]] + rest;
        assert |e| >= 2 ==> e[..2][0] == v[0];
        assert e[1..] == rest;
      }
    }
  }

  /** The two-pass unescape undoes the two-pass escape, for every string. */
  lemma UnescapeEscape(v: string)
    ensures Unescape(Escape(v)) == v
  {
    UnquotePass(v);
    HalvePass(v);
  }

  // ---------------------------------------------------------------- printer

  function ValueText(v: Value): string
    requires !v.VNone?
  {
    match v
    case VBool(b) => if b then "true" else "false"
    case VInt(i) => IntToString(i)
    case VFloat(literal) => literal
    case VStr(s) => "\"" + Escape(s) + "\""
  }

  function PairText(a: Attr): string
    requires !a.value.VNone?
  { a.key + ":" + ValueText(a.value) }

  function Parts(attrs: AttrMap): seq<string> {
    if attrs == [] then []
    else (if attrs[0].value.VNone? then [] else [PairText(attrs[0])]) + Parts(attrs[1..])
  }

  function Serialised(attrs: AttrMap): string { JoinWith(", ", Parts(attrs)) }

  lemma {:induction false} PartsDropNone(attrs: AttrMap)
    ensures Parts(DropNone(attrs)) == Parts(attrs)
  {
    if attrs != [] {
      PartsDropNone(attrs[1..]);
      var kept := DropNone(attrs[1..]);
      if attrs[0].value.VNone? {
        assert DropNone(attrs) == [] + kept == kept;
        assert Parts(attrs) == [] + Parts(attrs[1..]);
      } else {
        assert ([attrs[0]] + kept)[1..] == kept;
      }
    }
  }

  lemma PartsSnoc(attrs: AttrMap, a: Attr)
    ensures Parts(attrs + [a]) == Parts(attrs) + (if a.value.VNone? then [] else [PairText(a)])
  {
    if attrs == [] {
      assert attrs + [a] == [a];
      assert Parts([a][1..]) == [];
    } else {
      ConsHead(attrs, [a]);
      PartsSnoc(attrs[1..], a);
    }
  }

  /** `_serialise_attrs`. */
  method SerialiseAttrs(attrs: AttrMap) returns (text: string)
    ensures text == Serialised(attrs)
  {
    var parts: seq<string> := [];
    for n := 0 to |attrs|
      invariant parts == Parts(attrs[..n])
    {
      assert attrs[..n + 1] == attrs[..n] + [attrs[n]];
      PartsSnoc(attrs[..n], attrs[n]);
      match attrs[n].value {
        case VNone =>
        case VBool(b) => parts := parts + [attrs[n].key + ":" + (if b then "true" else "false")];
        case VInt(i) => parts := parts + [attrs[n].key + ":" + IntToString(i)];
        case VFloat(literal) => parts := parts + [attrs[n].key + ":" + literal];
        case VStr(s) => parts := parts + [attrs[n].key + ":" + ("\"" + Escape(s) + "\"")];
      }
    }
    assert attrs[..|attrs|] == attrs;
    text := JoinWith(", ", parts);
  }

  // ---------------------------------------------------------------- scanner

  function Drop(s: string, n: nat): string { if n >= |s| then "" else s[n..] }

  function Take(s: string, n: nat): string { if n >= |s| then s else s[..n] }

  predicate IsSep(c: char) { c == ' ' || c == ',' }

  predicate IsKeyDelimiter(c: char) { c in ":., " }

  function SepLen(s: string): (n: nat)
    ensures n <= |s|
  { if s != "" && IsSep(s[0]) then 1 + SepLen(s[1..]) else 0 }

  function KeyLen(s: string): (n: nat)
    ensures n <= |s|
  { if s != "" && !IsKeyDelimiter(s[0]) then 1 + KeyLen(s[1..]) else 0 }

  function BareLen(s: string): (n: nat)
    ensures n <= |s|
  { if s != "" && !IsSep(s[0]) then 1 + BareLen(s[1..]) else 0 }

  /** Distance to the closing quote; a trailing backslash steps past the end. */
  function QuoteLen(s: string): nat
    decreases |s|
  {
    if s == "" || s[0] == QUOTE then 0
    else if s[0] == BACKSLASH then 2 + QuoteLen(Drop(s, 2))
    else 1 + QuoteLen(s[1..])
  }

  function DigitsLen(s: string): (n: nat)
    ensures n <= |s|
  { if s != "" && IsDigit(s[0]) then 1 + DigitsLen(s[1..]) else 0 }

  predicate IsExponent(s: string) {
    s != "" && s[0] in "eE" && IsIntLiteral(s[1..])
  }

  /** `float(s)` accepts `s`, for literals that hold a point. */
  predicate IsFloatLiteral(s: string) {
    var t := if s != "" && s[0] in "+-" then s[1..] else s;
    var whole := DigitsLen(t);
    && whole < |t| && t[whole] == '.'
    && var rest := t[whole + 1..];
    && var frac := DigitsLen(rest);
    && whole + frac > 0
    && (rest[frac..] == "" || IsExponent(rest[frac..]))
  }

  /** The value of an unquoted token. */
  function BareValue(token: string): Value {
    var t := Strip(token);
    if t == "true" then VBool(true)
    else if t == "false" then VBool(false)
    else if '.' in t then (if IsFloatLiteral(t) then VFloat(t) else VStr(t))
    else if IsIntLiteral(t) then VInt(ParseInt(t))
    else VStr(t)
  }

  datatype Step = Stop | Pair(key: string, value: Value, rest: string)

  /** The value at the front of `s`, and what is left after it. */
  function NextValue(s: string): (r: (Value, string))
    ensures |r.1| <= |s|
  {
    if s != "" && s[0] == QUOTE then
      var q := QuoteLen(s[1..]);
      (VStr(Unescape(Take(s[1..], q))), Drop(s[1..], q + 1))
    else
      var n := BareLen(s);
      (BareValue(s[..n]), s[n..])
  }

  function NextPair(s: string): (r: Step)
    ensures r.Pair? ==> |r.rest| < |s|
  {
    var s0 := s[SepLen(s)..];
    var k := KeyLen(s0);
    if k >= |s0| || s0[k] != ':' then Stop
    else var (value, rest) := NextValue(s0[k + 1..]); Pair(s0[..k], value, rest)
  }

  function Scanned(s: string, acc: AttrMap): AttrMap
    decreases |s|
  {
    match NextPair(s)
    case Stop => acc
    case Pair(key, value, rest) => Scanned(rest, Put(acc, key, value))
  }

  method SkipSeps(text: string, from: nat) returns (i: nat)
    requires from <= |text|
    ensures i == from + SepLen(text[from..]) && i <= |text|
  {
    i := from;
    while i < |text| && IsSep(text[i])
      invariant from <= i <= |text|
      invariant i - from + SepLen(text[i..]) == SepLen(text[from..])
    {
      assert text[i..][1..] == text[i + 1..];
      i := i + 1;
    }
  }

  method KeyEnd(text: string, from: nat) returns (i: nat)
    requires from <= |text|
    ensures i == from + KeyLen(text[from..]) && i <= |text|
  {
    i := from;
    while i < |text| && !IsKeyDelimiter(text[i])
      invariant from <= i <= |text|
      invariant i - from + KeyLen(text[i..]) == KeyLen(text[from..])
    {
      assert text[i..][1..] == text[i + 1..];
      i := i + 1;
    }
  }

  method BareEnd(text: string, from: nat) returns (i: nat)
    requires from <= |text|
    ensures i == from + BareLen(text[from..]) && i <= |text|
  {
    i := from;
    while i < |text| && !IsSep(text[i])
      invariant from <= i <= |text|
      invariant i - from + BareLen(text[i..]) == BareLen(text[from..])
    {
      assert text[i..][1..] == text[i + 1..];
      i := i + 1;
    }
  }

  method QuoteEnd(text: string, from: nat) returns (i: nat)
    requires from <= |text|
    ensures i == from + QuoteLen(text[from..])
  {
    i := from;
    while i < |text| && text[i] != QUOTE
      invariant from <= i
      invariant i - from + QuoteLen(Drop(text, i)) == QuoteLen(text[from..])
      decreases |text| - i
    {
      QuoteStep(text, i);
      if text[i] == BACKSLASH {
        i := i + 2;
      } else {
        i := i + 1;
      }
    }
  }

  lemma QuoteStep(text: string, i: nat)
    requires i < |text| && text[i] != QUOTE
    ensures QuoteLen(Drop(text, i))
         == if text[i] == BACKSLASH then 2 + QuoteLen(Drop(text, i + 2)) else 1 + QuoteLen(Drop(text, i + 1))
  {
    assert Drop(text[i..], 2) == Drop(text, i + 2) && text[i..][1..] == Drop(text, i + 1);
  }

  /** `_parse_attrs`: one index, advanced by the loops above. */
  method ParseAttrs(text: string) returns (result: AttrMap)
    ensures result == Scanned(text, [])
  {
    result := [];
    var i := 0;
    while i < |text|
      invariant Scanned(Drop(text, i), result) == Scanned(text, [])
      decreases |text| - i
    {
      var step;
      step, i := ParsePair(text, i);
      if step.Stop? {
        return;
      }
      result := Put(result, step.key, step.value);
    }
  }

  method ParsePair(text: string, from: nat) returns (step: Step, i: nat)
    requires from < |text|
    ensures step == NextPair(text[from..])
    ensures step.Pair? ==> i > from && Drop(text, i) == step.rest
  {
    ghost var s := text[from..];
    i := SkipSeps(text, from);
    ghost var s0 := text[i..];
    assert s0 == s[SepLen(s)..];
    if i >= |text| {
      return Stop, i;
    }
    var keyStart := i;
    i := KeyEnd(text, keyStart);
    var key := text[keyStart..i];
    assert key == s0[..KeyLen(s0)];
    if i >= |text| || text[i] != ':' {
      return Stop, i;
    }
    i := i + 1;
    assert text[i..] == s0[KeyLen(s0) + 1..];
    var value;
    value, i := ParseValue(text, i);
    step := Pair(key, value, Drop(text, i));
  }

  method ParseValue(text: string, from: nat) returns (value: Value, i: nat)
    requires from <= |text|
    ensures i >= from && (value, Drop(text, i)) == NextValue(text[from..])
  {
    ghost var s := text[from..];
    i := from;
    if i < |text| && text[i] == QUOTE {
      i := i + 1;
      var valStart := i;
      assert text[valStart..] == s[1..];
      i := QuoteEnd(text, valStart);
      var stop := if i < |text| then i else |text|;
      assert text[valStart..stop] == Take(s[1..], QuoteLen(s[1..]));
      value := VStr(Unescape(text[valStart..stop]));
      i := i + 1;
      assert Drop(text, i) == Drop(s[1..], QuoteLen(s[1..]) + 1);
    } else {
      i := BareEnd(text, from);
      assert text[from..i] == s[..BareLen(s)];
      value := BareValue(text[from..i]);
      assert Drop(text, i) == s[BareLen(s)..];
    }
  }

  // ------------------------------------------------------------- round trip

  /** `repr` of a finite float without an exponent. */
  predicate IsPlainFloat(s: string) {
    var t := if s != "" && s[0] == '-' then s[1..] else s;
    var whole := DigitsLen(t);
    && 0 < whole < |t| && t[whole] == '.'
    && AllDigits(t[whole + 1..])
  }

  predicate PrintableValue(v: Value) { v.VFloat? ==> IsPlainFloat(v.literal) }

  predicate DelimiterFree(key: string) { forall c | c in key :: !IsKeyDelimiter(c) }

  predicate ScannableAttrs(attrs: AttrMap) {
    DistinctKeys(attrs) && forall a | a in attrs :: DelimiterFree(a.key) && PrintableValue(a.value)
  }

  lemma {:induction false} KeyLenStops(key: string, rest: string)
    requires DelimiterFree(key) && rest != "" && rest[0] == ':'
    ensures KeyLen(key + rest) == |key|
  {
    if key == "" {
      assert key + rest == rest;
    } else {
      assert (key + rest)[1..] == key[1..] + rest;
      assert key[0] in key;
      KeyLenStops(key[1..], rest);
    }
  }

  /** The quoted scan stops exactly at the closing quote. */
  lemma {:induction false} QuoteLenStops(v: string, rest: string)
    ensures QuoteLen(Escape(v) + "\"" + rest) == |Escape(v)|
  {
    if v == "" {
      assert Escape(v) + "\"" + rest == "\"" + rest;
    } else {
      EscapeStep(v);
      QuoteLenStops(v[1..], rest);
      var tail := Escape(v[1..]) + "\"" + rest;
      assert Escape(v) + "\"" + rest == EscapeChar(v[0]) + tail;
      assert Drop(EscapeChar(v[0]) + tail, |EscapeChar(v[0])|) == tail;
    }
  }

  /** What follows a value in printed attrs: nothing, or the next separator. */
  predicate AtSep(rest: string) { rest == "" || IsSep(rest[0]) }

  predicate BareToken(t: string) { forall c | c in t :: !IsSep(c) && !IsSpace(c) }

  lemma {:induction false} BareLenStops(t: string, rest: string)
    requires BareToken(t) && AtSep(rest)
    ensures BareLen(t + rest) == |t|
  {
    if t == "" {
      assert t + rest == rest;
    } else {
      assert (t + rest)[1..] == t[1..] + rest;
      assert t[0] in t;
      BareLenStops(t[1..], rest);
    }
  }

  lemma {:induction false} DigitsLenAll(s: string)
    requires forall c | c in s :: IsDigit(c)
    ensures DigitsLen(s) == |s|
  {
    if s != "" {
      assert s[0] in s;
      DigitsLenAll(s[1..]);
    }
  }

  lemma {:induction false} DigitsLenPrefix(s: string)
    ensures forall c | c in s[..DigitsLen(s)] :: IsDigit(c)
  {
    if s != "" && IsDigit(s[0]) {
      DigitsLenPrefix(s[1..]);
      assert s[..DigitsLen(s)] == [s[0]] + s[1..][..DigitsLen(s[1..])];
    }
  }

  /** A plain float is a sign, digits, a point and digits. */
  lemma FloatParts(s: string) returns (sign: string, w: string, f: string)
    requires IsPlainFloat(s)
    ensures s == sign + (w + ("." + f)) && sign in ["", "-"] && AllDigits(w) && AllDigits(f)
  {
    sign := if s[0] == '-' then "-" else "";
    w, f := UnsignedParts(s[|sign|..]);
    SignFirst(s, sign, s[|sign|..]);
  }

  lemma UnsignedParts(t: string) returns (w: string, f: string)
    requires 0 < DigitsLen(t) < |t| && t[DigitsLen(t)] == '.' && AllDigits(t[DigitsLen(t) + 1..])
    ensures t == w + ("." + f) && AllDigits(w) && AllDigits(f)
  {
    w, f := t[..DigitsLen(t)], t[DigitsLen(t) + 1..];
    DigitsLenPrefix(t);
    TakePoint(t, DigitsLen(t));
  }

  lemma SignFirst(s: string, sign: string, t: string)
    requires sign == "" || (sign == "-" && s != "" && s[0] == '-')
    requires t == s[|sign|..]
    ensures s == sign + t
  {}

  lemma TakePoint(t: string, k: nat)
    requires k < |t| && t[k] == '.'
    ensures t == t[..k] + ("." + t[k + 1..])
  {}

  lemma FloatPartsRead(sign: string, w: string, f: string)
    requires sign in ["", "-"] && AllDigits(w) && AllDigits(f)
    ensures IsFloatLiteral(sign + (w + ("." + f)))
  {
    var t := w + ("." + f);
    SplitAt(sign, t);
    assert w[0] in w && (sign + t)[0] == if sign == "" then w[0] else '-';
    DigitsThenPoint(w, f);
    DigitsLenAll(f);
    ConcatAssoc(w, ".", f);
    SplitAt(w + ".", f);
    assert t[|w|] == '.' && f[|f|..] == "";
  }

  lemma {:induction false} DigitsThenPoint(w: string, f: string)
    requires forall c | c in w :: IsDigit(c)
    ensures DigitsLen(w + ("." + f)) == |w|
  {
    if w == "" {
      assert w + ("." + f) == "." + f;
    } else {
      ConsHead(w, "." + f);
      assert w[0] in w;
      DigitsThenPoint(w[1..], f);
    }
  }

  lemma PlainFloatChars(s: string)
    requires IsPlainFloat(s)
    ensures forall c | c in s :: IsDigit(c) || c == '.' || c == '-'
    ensures '.' in s && s[0] in s && IsFloatLiteral(s)
  {
    var sign, w, f := FloatParts(s);
    FloatPartsRead(sign, w, f);
    assert s[|sign| + |w|] == '.';
  }

  lemma IntTextChars(i: int)
    ensures IntToString(i) != "" && forall c | c in IntToString(i) :: IsDigit(c) || c == '-'
  {}

  lemma BareTokenStrip(t: string)
    requires BareToken(t)
    ensures Strip(t) == t
  {
    if t != "" {
      assert t[0] in t && t[|t| - 1] in t;
    }
    TrimmedStrip(t);
  }

  lemma BareIntText(i: int)
    ensures BareToken(IntToString(i)) && IntToString(i) != "" && IntToString(i)[0] != QUOTE
    ensures BareValue(IntToString(i)) == VInt(i)
  {
    var t := IntToString(i);
    IntTextChars(i);
    IntRoundTrip(i);
    BareTokenStrip(t);
    assert t[0] in t;
  }

  lemma BareFloatText(t: string)
    requires IsPlainFloat(t)
    ensures BareToken(t) && t != "" && t[0] != QUOTE
    ensures BareValue(t) == VFloat(t)
  {
    PlainFloatChars(t);
    assert t[0] != QUOTE;
    FloatIsBare(t);
    BareTokenStrip(t);
    FloatReads(t);
  }

  lemma FloatIsBare(t: string)
    requires forall c | c in t :: IsDigit(c) || c == '.' || c == '-'
    ensures BareToken(t)
  {}

  lemma FloatReads(t: string)
    requires Strip(t) == t && '.' in t && IsFloatLiteral(t)
    ensures BareValue(t) == VFloat(t)
  {
    assert '.' !in "true" && '.' !in "false";
  }

  lemma BareValueText(v: Value)
    requires PrintableValue(v) && !v.VNone? && !v.VStr?
    ensures BareToken(ValueText(v)) && ValueText(v) != "" && ValueText(v)[0] != QUOTE
    ensures BareValue(ValueText(v)) == v
  {
    match v {
      case VBool(b) => BareTokenStrip(ValueText(v));
      case VInt(i) => BareIntText(i);
      case VFloat(literal) => BareFloatText(literal);
    }
  }

  /** One printed pair, after an optional separator, adds one entry. */
  lemma ScanPair(sep: string, a: Attr, rest: string)
    requires sep == "" || sep == ", "
    requires DelimiterFree(a.key) && PrintableValue(a.value) && !a.value.VNone? && AtSep(rest)
    ensures NextPair(sep + PairText(a) + rest) == Pair(a.key, a.value, rest)
  {
    ScanKey(sep, a.key, ValueText(a.value) + rest);
    RegroupPair(sep, a.key, ValueText(a.value), rest);
    ScanValue(a.value, rest);
  }

  lemma RegroupPair(sep: string, key: string, t: string, rest: string)
    ensures sep + (key + ":" + t) + rest == sep + (key + ":" + (t + rest))
  {}

  lemma ScanKey(sep: string, key: string, s1: string)
    requires sep == "" || sep == ", "
    requires DelimiterFree(key)
    ensures var (value, rest) := NextValue(s1);
      NextPair(sep + (key + ":" + s1)) == Pair(key, value, rest)
  {
    var tail := ":" + s1;
    var s0 := key + ":" + s1;
    assert s0 == key + tail;
    assert !IsSep(s0[0]) by { if key != "" { assert key[0] in key; } }
    SkipSep(sep, s0);
    KeyLenStops(key, tail);
    KeyLayout(key, s1);
    NextPairAt(sep + s0, s0, |key|);
  }

  lemma KeyLayout(key: string, s1: string)
    ensures var s0 := key + ":" + s1; |key| < |s0| && s0[..|key|] == key && s0[|key|] == ':' && s0[|key| + 1..] == s1
  {}

  lemma NextPairAt(s: string, s0: string, k: nat)
    requires s0 == s[SepLen(s)..] && k == KeyLen(s0) < |s0| && s0[k] == ':'
    ensures var (value, rest) := NextValue(s0[k + 1..]); NextPair(s) == Pair(s0[..k], value, rest)
  {}

  lemma ScanValue(v: Value, rest: string)
    requires PrintableValue(v) && !v.VNone? && AtSep(rest)
    ensures NextValue(ValueText(v) + rest) == (v, rest)
  {
    if v.VStr? {
      QuoteLenStops(v.s, rest);
      QuotedLayout(Escape(v.s), rest);
      UnescapeEscape(v.s);
    } else {
      BareValueText(v);
      BareLenStops(ValueText(v), rest);
      SplitAt(ValueText(v), rest);
    }
  }

  lemma QuotedLayout(w: string, rest: string)
    ensures var (s, body) := ("\"" + w + "\"" + rest, w + "\"" + rest);
      s == "\"" + body && s[0] == '"' && s[1..] == body && Take(body, |w|) == w && Drop(body, |w| + 1) == rest
  {
    SplitAt(w, "\"" + rest);
    SplitAt(w + "\"", rest);
    ConcatAssoc(w, "\"", rest);
  }

  lemma SkipSep(sep: string, s0: string)
    requires sep == "" || sep == ", "
    requires s0 != "" && !IsSep(s0[0])
    ensures (sep + s0)[SepLen(sep + s0)..] == s0
  {
    if sep == "" {
      assert sep + s0 == s0;
    } else {
      var s := sep + s0;
      assert s[1..] == " " + s0 && s[1..][1..] == s0;
      assert SepLen(s0) == 0;
      assert SepLen(s) == 2;
    }
  }

  /** What the printer writes after the first pair. */
  function Tail(attrs: AttrMap): string {
    if attrs == [] then "" else ", " + Serialised(attrs)
  }

  lemma {:induction false} ScanTail(attrs: AttrMap, acc: AttrMap)
    requires Loadable(attrs, acc)
    ensures Scanned(Tail(attrs), acc) == acc + attrs
    decreases attrs
  {
    if attrs == [] {
      assert NextPair("").Stop?;
      assert acc + attrs == acc;
    } else {
      ScanStep(", ", attrs, acc);
      ScanTail(attrs[1..], acc + [attrs[0]]);
      ShiftHead(acc, attrs);
    }
  }

  lemma ScanStep(sep: string, attrs: AttrMap, acc: AttrMap)
    requires sep == "" || sep == ", "
    requires attrs != [] && Loadable(attrs, acc)
    ensures Scanned(sep + Serialised(attrs), acc) == Scanned(Tail(attrs[1..]), acc + [attrs[0]])
  {
    LoadablePrintsAll(attrs, acc);
    SerialisedCons(attrs);
    assert sep + Serialised(attrs) == sep + PairText(attrs[0]) + Tail(attrs[1..]);
    ScanPair(sep, attrs[0], Tail(attrs[1..]));
  }

  /** Printable pairs with keys that are new to `acc` and to each other. */
  predicate Loadable(attrs: AttrMap, acc: AttrMap) {
    attrs == [] ||
    (var a := attrs[0];
     && DelimiterFree(a.key) && PrintableValue(a.value) && !a.value.VNone?
     && Put(acc, a.key, a.value) == acc + [a]
     && Loadable(attrs[1..], acc + [a]))
  }

  lemma {:induction false} ScannableIsLoadable(attrs: AttrMap, acc: AttrMap)
    requires ScannableAttrs(attrs) && FreshKeys(attrs, acc)
    requires forall a | a in attrs :: !a.value.VNone?
    ensures Loadable(attrs, acc)
    decreases attrs
  {
    if attrs != [] {
      assert attrs[0] in attrs;
      PutFresh(acc, attrs[0].key, attrs[0].value);
      FreshAfterFirst(attrs, acc);
      ScannableIsLoadable(attrs[1..], acc + [attrs[0]]);
    }
  }

  predicate FreshKeys(attrs: AttrMap, acc: AttrMap) {
    forall a | a in attrs :: !HasKey(acc, a.key)
  }

  lemma FreshAfterFirst(attrs: AttrMap, acc: AttrMap)
    requires attrs != [] && DistinctKeys(attrs) && FreshKeys(attrs, acc)
    ensures FreshKeys(attrs[1..], acc + [attrs[0]])
  {
    forall b | b in attrs[1..] ensures !HasKey(acc + [attrs[0]], b.key) {
      var j :| 0 <= j < |attrs| - 1 && attrs[1..][j] == b;
      assert attrs[j + 1] == b && b in attrs;
    }
  }

  lemma SerialisedCons(attrs: AttrMap)
    requires attrs != [] && PrintsAll(attrs)
    ensures Serialised(attrs) == PairText(attrs[0]) + Tail(attrs[1..])
  {
    PartsLength(attrs[1..]);
    assert Parts(attrs)[1..] == Parts(attrs[1..]);
  }

  predicate PrintsAll(attrs: AttrMap) {
    attrs == [] || (!attrs[0].value.VNone? && PrintsAll(attrs[1..]))
  }

  lemma {:induction false} LoadablePrintsAll(attrs: AttrMap, acc: AttrMap)
    requires Loadable(attrs, acc)
    ensures PrintsAll(attrs)
    decreases attrs
  {
    if attrs != [] {
      LoadablePrintsAll(attrs[1..], acc + [attrs[0]]);
    }
  }

  lemma {:induction false} PartsLength(attrs: AttrMap)
    requires PrintsAll(attrs)
    ensures |Parts(attrs)| == |attrs|
  {
    if attrs != [] {
      PartsLength(attrs[1..]);
    }
  }

  lemma {:induction false} DropNoneKeepsDistinct(attrs: AttrMap)
    requires DistinctKeys(attrs)
    ensures DistinctKeys(DropNone(attrs))
  {
    if attrs != [] {
      DropNoneKeepsDistinct(attrs[1..]);
      var rest := DropNone(attrs[1..]);
      forall j | 0 <= j < |rest| ensures rest[j].key != attrs[0].key {
        DropNoneMember(attrs[1..], rest[j]);
      }
    }
  }

  /** The scanner inverts the printer; `None` values are what the printer omits. */
  lemma ScanSerialised(attrs: AttrMap)
    requires ScannableAttrs(attrs)
    ensures Scanned(Serialised(attrs), []) == DropNone(attrs)
  {
    var kept := DropNone(attrs);
    DropNoneKeepsDistinct(attrs);
    forall a | a in kept ensures a in attrs && !a.value.VNone? { DropNoneMember(attrs, a); }
    PartsDropNone(attrs);
    ScannableIsLoadable(kept, []);
    if kept == [] {
      assert NextPair("").Stop?;
    } else {
      ScanStep("", kept, []);
      assert "" + Serialised(kept) == Serialised(kept);
      ScanTail(kept[1..], [] + [kept[0]]);
      ShiftHead([], kept);
      assert [] + kept == kept;
    }
  }
}
