/** Python string primitives the codecs rely on, on `seq<char>`. */
module Text {

  datatype Option<+T> = None | Some(value: T)

  /** `mapping.get(key, "")`. */
  function Get(m: map<string, string>, key: string): string { if key in m then m[key] else "" }

  /** `v or default`. */
  function OrElse(v: string, default: string): string { if v == "" then default else v }

  /** `str.isspace` for one character; `\s` in a `str` pattern is the same set. */
  predicate IsSpace(c: char) {
    || 9 <= c as int <= 13 || 28 <= c as int <= 32
    || c as int in {0x85, 0xa0, 0x1680, 0x2028, 0x2029, 0x202f, 0x205f, 0x3000}
    || 0x2000 <= c as int <= 0x200a
  }

  predicate IsDigit(c: char) { '0' <= c <= '9' }

  predicate IsIdentStart(c: char) { 'A' <= c <= 'Z' || 'a' <= c <= 'z' || c == '_' }

  predicate IsIdentChar(c: char) { IsIdentStart(c) || IsDigit(c) }

  /** A non-empty string that starts with `prefix`. */
  predicate StartsWith(s: string, prefix: string) {
    |prefix| <= |s| && s[..|prefix|] == prefix
  }

  lemma ShiftHead<T>(a: seq<T>, b: seq<T>)
    requires b != []
    ensures (a + [b[0]]) + b[1..] == a + b
  {}

  lemma ConcatAssoc<T>(a: seq<T>, b: seq<T>, c: seq<T>)
    ensures a + (b + c) == (a + b) + c
  {}

  /** A concatenation with a non-empty front keeps its head. */
  lemma ConsHead<T>(a: seq<T>, t: seq<T>)
    requires a != []
    ensures a + t != [] && (a + t)[0] == a[0] && (a + t)[1..] == a[1..] + t
  {}

  lemma SplitAt<T>(a: seq<T>, t: seq<T>)
    ensures (a + t)[..|a|] == a && (a + t)[|a|..] == t
  {}

  lemma DropDrop<T>(s: seq<T>, i: nat, n: nat)
    requires i + n <= |s|
    ensures s[i..][n..] == s[i + n..]
  {}

  // --------------------------------------------------------------- picking from a list

  /** `out` is what stands in `all` at the positions `at`, in order and each once. */
  predicate Picks<T(==)>(all: seq<T>, out: seq<T>, at: seq<nat>) {
    && |out| == |at| && (forall k | 0 <= k < |at| :: at[k] < |all| && out[k] == all[at[k]])
    && (forall j, k | 0 <= j < k < |at| :: at[j] < at[k])
  }

  /** The picked places are those of the elements with a property. */
  ghost predicate AreThose<T(!new)>(all: seq<T>, at: seq<nat>, p: T -> bool) {
    forall i: nat | i < |all| :: i in at <==> p(all[i])
  }

  /** The elements with a property, in order. */
  ghost function Filtered<T(!new)>(all: seq<T>, p: T -> bool): seq<T> {
    if all == [] then []
    else Filtered(all[..|all| - 1], p) + if p(all[|all| - 1]) then [all[|all| - 1]] else []
  }

  lemma FilteredSnoc<T(!new)>(all: seq<T>, x: T, p: T -> bool)
    ensures Filtered(all + [x], p) == if p(x) then Filtered(all, p) + [x] else Filtered(all, p)
  {
    assert (all + [x])[..|all|] == all;
  }

  lemma {:induction false} FilteredCons<T(!new)>(x: T, rest: seq<T>, p: T -> bool)
    ensures Filtered([x] + rest, p) == if p(x) then [x] + Filtered(rest, p) else Filtered(rest, p)
    decreases |rest|
  {
    if rest == [] {
      assert [x] + rest == [] + [x];
      FilteredSnoc([], x, p);
    } else {
      var init, last := rest[..|rest| - 1], rest[|rest| - 1];
      FilteredCons(x, init, p);
      assert rest == init + [last] && [x] + rest == ([x] + init) + [last];
      FilteredSnoc(init, last, p);
      FilteredSnoc([x] + init, last, p);
    }
  }

  lemma PicksSnoc<T>(all: seq<T>, out: seq<T>, at: seq<nat>, x: T)
    requires Picks(all, out, at)
    ensures Picks(all + [x], out, at) && Picks(all + [x], out + [x], at + [|all|])
    ensures |all| !in at
  {}

  lemma ThoseSnoc<T(!new)>(all: seq<T>, at: seq<nat>, x: T, p: T -> bool)
    requires AreThose(all, at, p) && |all| !in at
    ensures AreThose(all + [x], if p(x) then at + [|all|] else at, p)
  {
    var next := if p(x) then at + [|all|] else at;
    forall i: nat | i < |all + [x]| ensures i in next <==> p((all + [x])[i]) {
      if i < |all| { assert (all + [x])[i] == all[i]; }
    }
  }

  lemma PicksNext<T(!new)>(all: seq<T>, out: seq<T>, at: seq<nat>, x: T, p: T -> bool) returns (next: seq<nat>)
    requires Picks(all, out, at) && AreThose(all, at, p)
    ensures Picks(all + [x], if p(x) then out + [x] else out, next) && AreThose(all + [x], next, p)
  {
    PicksSnoc(all, out, at, x);
    ThoseSnoc(all, at, x, p);
    next := if p(x) then at + [|all|] else at;
  }

  /** All of them, each once, where they stood. */
  lemma {:induction false} FilteredAre<T(!new)>(all: seq<T>, p: T -> bool) returns (at: seq<nat>)
    ensures Picks(all, Filtered(all, p), at) && AreThose(all, at, p)
    decreases |all|
  {
    if all == [] {
      at := [];
    } else {
      var init, last := all[..|all| - 1], all[|all| - 1];
      var before := FilteredAre(init, p);
      FilteredSnoc(init, last, p);
      assert all == init + [last];
      at := PicksNext(init, Filtered(init, p), before, last, p);
    }
  }

  /** `[chunk for chunk in chunks if chunk]`. */
  function NonEmpty(chunks: seq<string>): seq<string> {
    if chunks == [] then [] else (if chunks[0] == "" then [] else [chunks[0]]) + NonEmpty(chunks[1..])
  }

  /** The non-empty chunks, all of them, each once and in order. */
  lemma {:induction false} NonEmptyFilters(chunks: seq<string>)
    ensures NonEmpty(chunks) == Filtered(chunks, (c: string) => c != "")
  {
    if chunks != [] {
      NonEmptyFilters(chunks[1..]);
      FilteredCons(chunks[0], chunks[1..], (c: string) => c != "");
      assert [chunks[0]] + chunks[1..] == chunks;
    }
  }

  lemma NonEmptyAre(chunks: seq<string>) returns (at: seq<nat>)
    ensures Picks(chunks, NonEmpty(chunks), at)
    ensures forall i: nat | i < |chunks| :: i in at <==> chunks[i] != ""
  {
    NonEmptyFilters(chunks);
    at := FilteredAre(chunks, (c: string) => c != "");
  }

  // ------------------------------------------------------------------- order

  /** `a <= b` on strings. */
  predicate StrLe(a: string, b: string) {
    a == "" || (b != "" && (a[0] < b[0] || (a[0] == b[0] && StrLe(a[1..], b[1..]))))
  }

  lemma {:induction false} StrLeOrder(a: string, b: string, c: string)
    ensures StrLe(a, b) || StrLe(b, a)
    ensures StrLe(a, b) && StrLe(b, a) ==> a == b
    ensures StrLe(a, b) && StrLe(b, c) ==> StrLe(a, c)
    decreases |a|
  {
    if a != "" && b != "" {
      StrLeOrder(a[1..], b[1..], if c == "" then "" else c[1..]);
      assert a == [a[0]] + a[1..] && b == [b[0]] + b[1..];
    }
  }

  /** `a < b` on strings. */
  predicate Less(a: string, b: string) { a != b && StrLe(a, b) }

  // ---------------------------------------------------------------- replace

  /** `s.replace(pat, rep)`: left to right, non-overlapping. */
  function Replace(s: string, pat: string, rep: string): string
    requires |pat| > 0
    decreases |s|
  {
    if |s| < |pat| then s
    else if s[..|pat|] == pat then rep + Replace(s[|pat|..], pat, rep)
    else [s[0]] + Replace(s[1..], pat, rep)
  }

  lemma ReplaceCharCons(c: char, s: string, p: char, rep: string)
    ensures Replace([c] + s, [p], rep) == (if c == p then rep else [c]) + Replace(s, [p], rep)
  {
    assert ([c] + s)[..1] == [c];
    assert ([c] + s)[1..] == s;
  }

  lemma {:induction false} ReplaceCharConcat(a: string, b: string, p: char, rep: string)
    ensures Replace(a + b, [p], rep) == Replace(a, [p], rep) + Replace(b, [p], rep)
  {
    if a == "" {
      assert a + b == b;
    } else {
      ReplaceCharCons(a[0], a[1..] + b, p, rep);
      ReplaceCharCons(a[0], a[1..], p, rep);
      assert [a[0]] + (a[1..] + b) == a + b && [a[0]] + a[1..] == a;
      ReplaceCharConcat(a[1..], b, p, rep);
    }
  }

  // ------------------------------------------------------------------ strip

  function LStrip(s: string): string {
    if s != "" && IsSpace(s[0]) then LStrip(s[1..]) else s
  }

  function RStrip(s: string): string {
    if s != "" && IsSpace(s[|s| - 1]) then RStrip(s[..|s| - 1]) else s
  }

  function Strip(s: string): string { RStrip(LStrip(s)) }

  /** No whitespace at either end. */
  predicate Trimmed(s: string) {
    s == "" || (!IsSpace(s[0]) && !IsSpace(s[|s| - 1]))
  }

  lemma TrimmedStrip(s: string)
    requires Trimmed(s)
    ensures Strip(s) == s
  {}

  function LStripChar(s: string, c: char): string {
    if s != "" && s[0] == c then LStripChar(s[1..], c) else s
  }

  function RStripChar(s: string, c: char): string {
    if s != "" && s[|s| - 1] == c then RStripChar(s[..|s| - 1], c) else s
  }

  function StripChar(s: string, c: char): string { RStripChar(LStripChar(s, c), c) }

  predicate TrimmedOf(s: string, c: char) {
    s == "" || (s[0] != c && s[|s| - 1] != c)
  }

  // ------------------------------------------------------------------ lines

  /** `s.split("\n")`. */
  function Lines(s: string): (r: seq<string>)
    ensures |r| > 0
  {
    if s == "" then [""]
    else if s[0] == '\n' then [""] + Lines(s[1..])
    else var r := Lines(s[1..]); [[s[0]] + r[0]] + r[1..]
  }

  /** `sep.join(xs)`. */
  function JoinWith(sep: string, xs: seq<string>): string {
    if xs == [] then ""
    else if |xs| == 1 then xs[0]
    else xs[0] + sep + JoinWith(sep, xs[1..])
  }

  function Unlines(xs: seq<string>): string { JoinWith("\n", xs) }

  lemma {:induction false} LinesPlain(s: string)
    requires '\n' !in s
    ensures Lines(s) == [s]
  {
    if s != "" {
      LinesPlain(s[1..]);
      assert [s[0]] + s[1..] == s;
    }
  }

  lemma {:induction false} LinesConcat(a: string, b: string)
    ensures Lines(a + "\n" + b) == Lines(a) + Lines(b)
  {
    if a == "" {
      assert ("" + "\n" + b)[1..] == b;
    } else {
      assert (a + "\n" + b)[1..] == a[1..] + "\n" + b;
      LinesConcat(a[1..], b);
    }
  }

  function SplitOn(s: string, c: char): (r: seq<string>)
    ensures r != []
  {
    if s == "" then [""]
    else if s[0] == c then [""] + SplitOn(s[1..], c)
    else var r := SplitOn(s[1..], c); [[s[0]] + r[0]] + r[1..]
  }

  lemma {:induction false} SplitPlain(s: string, c: char)
    requires c !in s
    ensures SplitOn(s, c) == [s]
  {
    if s != "" {
      SplitPlain(s[1..], c);
      assert [s[0]] + s[1..] == s;
    }
  }

  lemma {:induction false} SplitConcat(a: string, b: string, c: char)
    requires c !in a
    ensures SplitOn(a + ([c] + b), c) == [a] + SplitOn(b, c)
  {
    if a == "" {
      assert a + ([c] + b) == [c] + b && ([c] + b)[1..] == b;
    } else {
      assert (a + ([c] + b))[1..] == a[1..] + ([c] + b);
      SplitConcat(a[1..], b, c);
      assert [a[0]] + a[1..] == a;
    }
  }

  lemma {:induction false} SplitJoined(xs: seq<string>, c: char)
    requires xs != [] && forall x | x in xs :: c !in x
    ensures SplitOn(JoinWith([c], xs), c) == xs
  {
    assert xs[0] in xs && forall x | x in xs[1..] :: x in xs;
    if |xs| == 1 {
      SplitPlain(xs[0], c);
    } else {
      SplitJoined(xs[1..], c);
      SplitConcat(xs[0], JoinWith([c], xs[1..]), c);
      ConcatAssoc(xs[0], [c], JoinWith([c], xs[1..]));
    }
  }

  function FlattenLines(xs: seq<string>): seq<string> {
    if xs == [] then [] else Lines(xs[0]) + FlattenLines(xs[1..])
  }

  lemma {:induction false} FlattenLinesConcat(xs: seq<string>, ys: seq<string>)
    ensures FlattenLines(xs + ys) == FlattenLines(xs) + FlattenLines(ys)
  {
    if xs == [] {
      assert xs + ys == ys;
    } else {
      assert (xs + ys)[1..] == xs[1..] + ys;
      FlattenLinesConcat(xs[1..], ys);
    }
  }

  /** Splitting a joined text splits each joined piece. */
  lemma {:induction false} LinesUnlines(xs: seq<string>)
    requires xs != []
    ensures Lines(Unlines(xs)) == FlattenLines(xs)
  {
    if |xs| == 1 {
      assert FlattenLines(xs[1..]) == [];
    } else {
      LinesUnlines(xs[1..]);
      LinesConcat(xs[0], Unlines(xs[1..]));
    }
  }

  lemma {:induction false} UnlinesLines(s: string)
    ensures Unlines(Lines(s)) == s
  {
    if s != "" {
      UnlinesLines(s[1..]);
      var r := Lines(s[1..]);
      if s[0] == '\n' {
        assert ([""] + r)[1..] == r;
        assert "" + "\n" + s[1..] == s;
      } else {
        assert ([[s[0]] + r[0]] + r[1..])[1..] == r[1..];
        assert [s[0]] + s[1..] == s;
      }
    }
  }

  /** The characters `splitlines` splits at. */
  predicate IsBreak(c: char) {
    10 <= c as int <= 13 || 28 <= c as int <= 30 || c as int in {0x85, 0x2028, 0x2029}
  }

  /** `splitlines`, up to blank pieces, which the parser skips. */
  function Pieces(s: string): (r: seq<string>)
    ensures |r| > 0
  {
    if s == "" then [""]
    else if IsBreak(s[0]) then [""] + Pieces(s[1..])
    else var r := Pieces(s[1..]); [[s[0]] + r[0]] + r[1..]
  }

  predicate SingleLine(s: string) { forall c | c in s :: !IsBreak(c) }

  lemma {:induction false} PiecesPlain(s: string)
    requires SingleLine(s)
    ensures Pieces(s) == [s]
  {
    if s != "" {
      assert s[0] in s;
      PiecesPlain(s[1..]);
      assert [s[0]] + s[1..] == s;
    }
  }

  lemma {:induction false} PiecesConcat(a: string, b: string)
    ensures Pieces(a + "\n" + b) == Pieces(a) + Pieces(b)
  {
    if a == "" {
      assert ("" + "\n" + b)[1..] == b;
    } else {
      assert (a + "\n" + b)[1..] == a[1..] + "\n" + b;
      PiecesConcat(a[1..], b);
    }
  }

  /** The pieces of several texts. */
  function Flat(es: seq<string>): seq<string> { if es == [] then [] else Pieces(es[0]) + Flat(es[1..]) }

  lemma {:induction false} FlatConcat(a: seq<string>, b: seq<string>)
    ensures Flat(a + b) == Flat(a) + Flat(b)
  {
    if a == [] {
      assert a + b == b;
    } else {
      assert (a + b)[1..] == a[1..] + b;
      FlatConcat(a[1..], b);
    }
  }

  lemma {:induction false} PiecesUnlines(es: seq<string>)
    requires es != []
    ensures Pieces(Unlines(es)) == Flat(es)
  {
    if |es| > 1 {
      PiecesConcat(es[0], Unlines(es[1..]));
      PiecesUnlines(es[1..]);
    } else {
      assert Flat(es[1..]) == [];
    }
  }

  // ---------------------------------------------------------------- decimal

  function Digit(d: nat): char
    requires d < 10
  { ['0', '1', '2', '3', '4', '5', '6', '7', '8', '9'][d] }

  function DigitValue(c: char): nat
    requires IsDigit(c)
  { (c as int) - ('0' as int) }

  function NatToString(n: nat): (s: string)
    ensures s != "" && (forall c | c in s :: IsDigit(c))
  {
    if n < 10 then [Digit(n)] else NatToString(n / 10) + [Digit(n % 10)]
  }

  /** `str(i)`. */
  function IntToString(i: int): string {
    if i < 0 then "-" + NatToString(-i) else NatToString(i)
  }

  predicate AllDigits(s: string) { s != "" && forall c | c in s :: IsDigit(c) }

  function DigitsValue(s: string): nat
    requires forall c | c in s :: IsDigit(c)
  {
    if s == "" then 0 else 10 * DigitsValue(s[..|s| - 1]) + DigitValue(s[|s| - 1])
  }

  predicate IsIntLiteral(s: string) {
    AllDigits(s) || (s != "" && s[0] in "+-" && AllDigits(s[1..]))
  }

  /** `int(s)` on a decimal literal. */
  function ParseInt(s: string): int
    requires IsIntLiteral(s)
  {
    if AllDigits(s) then DigitsValue(s)
    else if s[0] == '-' then -(DigitsValue(s[1..]) as int) else DigitsValue(s[1..])
  }

  lemma {:induction false} NatRoundTrip(n: nat)
    ensures DigitsValue(NatToString(n)) == n
  {
    if n >= 10 {
      var s := NatToString(n);
      assert s[..|s| - 1] == NatToString(n / 10);
      NatRoundTrip(n / 10);
    } else {
      assert DigitsValue("") == 0;
      assert [Digit(n)][..0] == "";
    }
  }

  lemma IntRoundTrip(i: int)
    ensures IsIntLiteral(IntToString(i)) && ParseInt(IntToString(i)) == i
  {
    var digits := NatToString(if i < 0 then -i else i);
    assert IntToString(i) == if i < 0 then "-" + digits else digits;
    NatRoundTrip(if i < 0 then -i else i);
    NegativeRoundTrip(digits);
    assert AllDigits(digits);
  }

  lemma NegativeRoundTrip(digits: string)
    requires AllDigits(digits)
    ensures IsIntLiteral("-" + digits) && ParseInt("-" + digits) == -(DigitsValue(digits) as int)
  {
    var s := "-" + digits;
    assert s[1..] == digits;
    assert s[0] in s && !IsDigit(s[0]);
  }

  /** `f"{n:0{width}d}"`. */
  function ZeroPad(n: nat, width: nat): string {
    Zeros(width - |NatToString(n)|) + NatToString(n)
  }

  function Zeros(k: int): (s: string)
    ensures forall c | c in s :: c == '0'
  {
    if k <= 0 then "" else "0" + Zeros(k - 1)
  }

  lemma {:induction false} DigitsValueConcat(a: string, b: string)
    requires forall c | c in a + b :: IsDigit(c)
    requires DigitsValue(a) == 0
    ensures DigitsValue(a + b) == DigitsValue(b)
  {
    if b == "" {
      assert a + b == a;
    } else {
      assert (a + b)[..|a + b| - 1] == a + b[..|b| - 1];
      DigitsValueConcat(a, b[..|b| - 1]);
    }
  }

  lemma {:induction false} ZerosValue(k: int)
    ensures DigitsValue(Zeros(k)) == 0
  {
    if k > 0 {
      ZerosValue(k - 1);
      assert DigitsValue("0") == 0 by { assert "0"[..0] == ""; }
      DigitsValueConcat("0", Zeros(k - 1));
    }
  }

  /** A padded number reads back as itself, so padding is injective. */
  lemma ZeroPadRoundTrip(n: nat, width: nat)
    ensures AllDigits(ZeroPad(n, width)) && DigitsValue(ZeroPad(n, width)) == n
  {
    ZerosValue(width - |NatToString(n)|);
    NatRoundTrip(n);
    DigitsValueConcat(Zeros(width - |NatToString(n)|), NatToString(n));
  }
}
