/** What stripping, replacing and naming do to a text, character by character. */
module TextLaws {
  import opened Text
  import opened TimelogModel
  import opened TimelogText
  import opened TimelogStable

  // ------------------------------------------------------------------------- stripping

  predicate AllSpace(s: string) { forall c | c in s :: IsSpace(c) }

  lemma {:induction false} LStripSplits(s: string) returns (before: string)
    ensures s == before + LStrip(s) && AllSpace(before)
  {
    if s != "" && IsSpace(s[0]) {
      var more := LStripSplits(s[1..]);
      before := [s[0]] + more;
      assert s == [s[0]] + s[1..];
    } else {
      before := "";
    }
  }

  lemma {:induction false} RStripSplits(s: string) returns (after: string)
    ensures s == RStrip(s) + after && AllSpace(after)
    decreases |s|
  {
    if s != "" && IsSpace(s[|s| - 1]) {
      var more := RStripSplits(s[..|s| - 1]);
      after := more + [s[|s| - 1]];
      assert s == s[..|s| - 1] + [s[|s| - 1]];
    } else {
      after := "";
    }
  }

  /** Stripping takes whitespace from both ends, and all of it. */
  lemma StripSays(s: string) returns (before: string, after: string)
    ensures s == before + Strip(s) + after && AllSpace(before) && AllSpace(after) && Trimmed(Strip(s))
  {
    before := LStripSplits(s);
    after := RStripSplits(LStrip(s));
    LStripEnds(s);
    RStripEnds(LStrip(s));
    assert before + (Strip(s) + after) == before + Strip(s) + after;
  }

  // ------------------------------------------------------------------------- replacing

  /** Replacing one character by one character does so in place. */
  lemma {:induction false} SwapSays(s: string, c: char, d: char)
    ensures |Replace(s, [c], [d])| == |s|
    ensures forall i | 0 <= i < |s| :: Replace(s, [c], [d])[i] == if s[i] == c then d else s[i]
    decreases |s|
  {
    if s != "" {
      SwapSays(s[1..], c, d);
      assert s[..1] == [s[0]];
    }
  }

  function Swapped(c: char): char { if c == '"' then '\'' else if c == '\n' then ' ' else c }

  /** A cleaned text is the text without the whitespace around it, a quote made single and a line break a space. */
  lemma CleanSays(v: string) returns (before: string, after: string)
    ensures AllSpace(before) && AllSpace(after) && Trimmed(Clean(v)) && |v| == |before| + |Clean(v)| + |after|
    ensures forall i | 0 <= i < |v| :: (before + Clean(v) + after)[i] == Swapped(v[i])
  {
    SwapSays(v, '"', '\'');
    var a := Replace(v, "\"", "'");
    SwapSays(a, '\n', ' ');
    before, after := StripSays(Replace(a, "\n", " "));
  }

  // ---------------------------------------------------------------------------- naming

  lemma {:induction false} SafeSays(ref: string)
    ensures |SafeName(ref)| == |ref|
    ensures forall i | 0 <= i < |ref| :: SafeName(ref)[i] == if IsNameChar(ref[i]) then ref[i] else '_'
  {
    if ref != "" { SafeSays(ref[1..]); }
  }

  predicate AllEdge(s: string) { forall c | c in s :: IsEdge(c) }

  lemma {:induction false} TrimLeftSplits(s: string) returns (before: string)
    ensures s == before + TrimLeft(s) && AllEdge(before)
  {
    if s != "" && IsEdge(s[0]) {
      var more := TrimLeftSplits(s[1..]);
      before := [s[0]] + more;
      assert s == [s[0]] + s[1..];
    } else {
      before := "";
    }
  }

  lemma {:induction false} TrimRightSplits(s: string) returns (after: string)
    ensures s == TrimRight(s) + after && AllEdge(after)
    decreases |s|
  {
    if s != "" && IsEdge(s[|s| - 1]) {
      var more := TrimRightSplits(s[..|s| - 1]);
      after := more + [s[|s| - 1]];
      assert s == s[..|s| - 1] + [s[|s| - 1]];
    } else {
      after := "";
    }
  }

  /**
   * The name of an operation is its reference with every other character an underscore, without the dots
   * and underscores around it; "op" when nothing is left.
   */
  lemma EntryNameSays(ref: string) returns (before: string, core: string, after: string)
    ensures AllEdge(before) && AllEdge(after) && |ref| == |before| + |core| + |after|
    ensures forall i | 0 <= i < |ref| :: (before + core + after)[i] == if IsNameChar(ref[i]) then ref[i] else '_'
    ensures core == "" || (!IsEdge(core[0]) && !IsEdge(core[|core| - 1]))
    ensures EntryName(ref) == if core == "" then "op" else core
  {
    SafeSays(ref);
    before := TrimLeftSplits(SafeName(ref));
    after := TrimRightSplits(TrimLeft(SafeName(ref)));
    core := TrimRight(TrimLeft(SafeName(ref)));
    TrimLeftEnds(SafeName(ref));
    TrimRightEnds(TrimLeft(SafeName(ref)));
    assert before + (core + after) == before + core + after;
  }
}
