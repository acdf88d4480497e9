/** `_write_gate_block` of `sync.py`: replacing the gates block of a front matter. */
module GateBlock {
  import opened Text

  datatype Gate = Gate(name: string, open: bool)

  predicate EndsOpen(line: string) { var s := RStrip(line); s != "" && s[|s| - 1] == '{' }

  predicate Declares(line: string, key: string) { StartsWith(Strip(line), key + ":") }

  function Shown(gates: seq<Gate>): seq<string> {
    if gates == [] then []
    else ["  " + (gates[0].name + (": " + ((if gates[0].open then "true" else "false") + ",")))] + Shown(gates[1..])
  }

  /** The canonical block. */
  function Block(key: string, gates: seq<Gate>): seq<string> { [key + ": {"] + Shown(gates) + ["}"] }

  function UpToColon(s: string): string { if s == "" || s[0] == ':' then "" else [s[0]] + UpToColon(s[1..]) }

  /** The key of a stripped `key: value` line. */
  function Head(stripped: string): string { if ':' in stripped then Strip(UpToColon(stripped)) else "" }

  predicate IsGate(gates: seq<Gate>, name: string) { exists g :: g in gates && g.name == name }

  predicate Indented(line: string) { line != "" && (line[0] == ' ' || line[0] == '\t') }

  datatype Verdict = Take | TakeLast | Stop

  /** What the loop does with a line after the declaration. */
  function Judge(line: string, opens: bool, gates: seq<Gate>): Verdict {
    var stripped := Strip(line);
    if stripped == "" then if opens then Take else Stop
    else if opens then if stripped == "}" then TakeLast else if Indented(line) then Take else Stop
    else if IsGate(gates, Head(stripped)) then Take
    else if stripped == "}" then TakeLast
    else Stop
  }

  /** How many of the lines belong to the block. */
  function Consumed(lines: seq<string>, opens: bool, gates: seq<Gate>): (n: nat)
    ensures n <= |lines|
  {
    if lines == [] then 0
    else
      match Judge(lines[0], opens, gates)
      case Take => 1 + Consumed(lines[1..], opens, gates)
      case TakeLast => 1
      case Stop => 0
  }

  /** Copies up to the declaration, puts the block for what belongs to it, or at the end. */
  function Rewritten(lines: seq<string>, gates: seq<Gate>, key: string): seq<string> {
    if lines == [] then Block(key, gates)
    else if Declares(lines[0], key) then
      Block(key, gates) + lines[1..][Consumed(lines[1..], EndsOpen(lines[0]), gates)..]
    else [lines[0]] + Rewritten(lines[1..], gates, key)
  }

  /** `_write_gate_block`. */
  function Written(text: string, gates: seq<Gate>, key: string): string { Unlines(Rewritten(Lines(text), gates, key)) }

  /** What is still to be written for the lines that are left. */
  function Left(rest: seq<string>, replaced: bool, gates: seq<Gate>, key: string): seq<string> {
    if replaced then rest else Rewritten(rest, gates, key)
  }

  lemma CopyStep(out: seq<string>, rest: seq<string>, replaced: bool, gates: seq<Gate>, key: string)
    requires rest != [] && (replaced || !Declares(rest[0], key))
    ensures (out + [rest[0]]) + Left(rest[1..], replaced, gates, key) == out + Left(rest, replaced, gates, key)
  {
    ConcatAssoc(out, [rest[0]], Left(rest[1..], replaced, gates, key));
    assert [rest[0]] + rest[1..] == rest;
  }

  lemma BlockStep(out: seq<string>, rest: seq<string>, after: seq<string>, gates: seq<Gate>, key: string)
    requires rest != [] && Declares(rest[0], key)
    requires after == rest[1..][Consumed(rest[1..], EndsOpen(rest[0]), gates)..]
    ensures (out + Block(key, gates)) + Left(after, true, gates, key) == out + Left(rest, false, gates, key)
  {
    ConcatAssoc(out, Block(key, gates), after);
  }

  method WriteGateBlock(text: string, gates: seq<Gate>, key: string) returns (r: string)
    ensures r == Written(text, gates, key)
  {
    var lines := Lines(text);
    var out: seq<string>, rest, replaced := [], lines, false;
    assert out + Left(lines, false, gates, key) == Rewritten(lines, gates, key);
    while rest != []
      invariant out + Left(rest, replaced, gates, key) == Rewritten(lines, gates, key)
      decreases |rest|, !replaced
    {
      if !replaced && Declares(rest[0], key) {
        var after := SkipBlock(rest[1..], EndsOpen(rest[0]), gates);
        BlockStep(out, rest, after, gates, key);
        out, rest, replaced := out + Block(key, gates), after, true;
      } else {
        CopyStep(out, rest, replaced, gates, key);
        out, rest := out + [rest[0]], rest[1..];
      }
    }
    if !replaced {
      out := out + Block(key, gates);
    } else {
      assert out + rest == out;
    }
    r := Unlines(out);
  }

  /** The inner loop: what is left after the lines of the block. */
  method SkipBlock(lines: seq<string>, opens: bool, gates: seq<Gate>) returns (rest: seq<string>)
    ensures rest == lines[Consumed(lines, opens, gates)..]
  {
    rest := lines;
    while rest != []
      invariant rest[Consumed(rest, opens, gates)..] == lines[Consumed(lines, opens, gates)..]
      decreases |rest|
    {
      var verdict := Judge(rest[0], opens, gates);
      if verdict == Stop {
        return;
      }
      rest := rest[1..];
      if verdict == TakeLast {
        return;
      }
    }
  }

  // --------------------------------------------------------------------------- the block

  /** The line of a gate: its name, and whether it is open. */
  predicate IsGateLine(line: string, g: Gate) {
    line == (if g.open then "  " + g.name + ": true," else "  " + g.name + ": false,")
  }

  lemma {:induction false} ShownSays(gates: seq<Gate>)
    ensures |Shown(gates)| == |gates| && forall k | 0 <= k < |gates| :: IsGateLine(Shown(gates)[k], gates[k])
  {
    if gates != [] {
      ShownSays(gates[1..]);
      var g := gates[0];
      assert g.name + (": " + ("true" + ",")) == g.name + ": true," && ": " + ("false" + ",") == ": false,";
      assert "  " + (g.name + ": true,") == "  " + g.name + ": true,";
      assert "  " + (g.name + ": false,") == "  " + g.name + ": false,";
    }
  }

  lemma Framed(first: string, shown: seq<string>, last: string)
    ensures var block := [first] + shown + [last];
      && |block| == |shown| + 2 && block[0] == first && block[|shown| + 1] == last
      && forall k | 0 <= k < |shown| :: block[k + 1] == shown[k]
  {}

  /** The block declares the key, has one line for each gate in order, and is closed. */
  lemma BlockSays(key: string, gates: seq<Gate>)
    ensures var block := Block(key, gates);
      && |block| == |gates| + 2 && block[0] == key + ": {" && block[|gates| + 1] == "}"
      && forall k | 0 <= k < |gates| :: IsGateLine(block[k + 1], gates[k])
  {
    ShownSays(gates);
    var block, shown := Block(key, gates), Shown(gates);
    Framed(key + ": {", shown, "}");
    forall k | 0 <= k < |gates| ensures IsGateLine(block[k + 1], gates[k]) {
      assert block[k + 1] == shown[k];
    }
  }

  /** The key of a line is what stands before its first colon. */
  lemma {:induction false} HeadSays(a: string, b: string)
    requires ':' !in a
    ensures Head(a + ":" + b) == Strip(a) && Head(a) == ""
  {
    UpToColonSays(a, ":" + b);
    assert a + (":" + b) == a + ":" + b;
  }

  lemma {:induction false} UpToColonSays(a: string, rest: string)
    requires ':' !in a && rest != "" && rest[0] == ':'
    ensures UpToColon(a + rest) == a
  {
    if a == "" {
      assert a + rest == rest;
    } else {
      assert (a + rest)[1..] == a[1..] + rest;
      UpToColonSays(a[1..], rest);
    }
  }

  /** A line the block goes on after: blank or indented; or, legacy, one of a gate. */
  predicate GoesOn(line: string, opens: bool, gates: seq<Gate>) {
    if opens then Strip(line) == "" || (Strip(line) != "}" && Indented(line))
    else Strip(line) != "" && IsGate(gates, Head(Strip(line)))
  }

  predicate Closes(line: string, opens: bool, gates: seq<Gate>) {
    Strip(line) == "}" && !GoesOn(line, opens, gates)
  }

  /** What a declaration takes: lines the block goes on after, to the line that closes it or as long as there are such. */
  lemma {:induction false} ConsumedExactly(lines: seq<string>, opens: bool, gates: seq<Gate>)
    ensures var n := Consumed(lines, opens, gates);
      && (forall k | 0 <= k < n - 1 :: GoesOn(lines[k], opens, gates))
      && (n > 0 ==> GoesOn(lines[n - 1], opens, gates) || Closes(lines[n - 1], opens, gates))
      && (n == |lines| || (n > 0 && Closes(lines[n - 1], opens, gates))
          || (!GoesOn(lines[n], opens, gates) && !Closes(lines[n], opens, gates)))
  {
    if lines != [] && Judge(lines[0], opens, gates) == Take {
      var rest := lines[1..];
      ConsumedExactly(rest, opens, gates);
      assert forall k | 0 < k < |lines| :: lines[k] == rest[k - 1];
    }
  }

  // ------------------------------------------------------------------------ preservation

  /** Lines a block may take besides its declaration: blank, indented or a brace; or, legacy, gates or a brace. */
  predicate Belongs(line: string, opens: bool, gates: seq<Gate>) {
    if opens then Strip(line) in ["", "}"] || Indented(line)
    else Strip(line) == "}" || IsGate(gates, Head(Strip(line)))
  }

  lemma {:induction false} ConsumedBelongs(lines: seq<string>, opens: bool, gates: seq<Gate>)
    ensures forall l | l in lines[..Consumed(lines, opens, gates)] :: Belongs(l, opens, gates)
  {
    if lines != [] && Judge(lines[0], opens, gates) != Stop {
      ConsumedBelongs(lines[1..], opens, gates);
      var n := Consumed(lines, opens, gates);
      assert lines[..n] == [lines[0]] + lines[1..][..n - 1];
    }
  }

  /** The declaration and what it takes; nothing when the key is not declared. */
  predicate IsBlock(block: seq<string>, gates: seq<Gate>, key: string) {
    block != [] ==>
      Declares(block[0], key) && forall l | l in block[1..] :: Belongs(l, EndsOpen(block[0]), gates)
  }

  /**
   * The text is split around the first declaration and the lines it takes; every other
   * line is kept, in order, and the new block stands between them, or at the end.
   */
  lemma {:induction false} OutsideIsKept(lines: seq<string>, gates: seq<Gate>, key: string)
    returns (before: seq<string>, block: seq<string>, after: seq<string>)
    ensures lines == before + block + after && Rewritten(lines, gates, key) == before + Block(key, gates) + after
    ensures (forall l | l in before :: !Declares(l, key)) && IsBlock(block, gates, key)
    ensures block == [] ==> after == []
  {
    if lines == [] {
      before, block, after := [], [], [];
    } else if Declares(lines[0], key) {
      var rest := lines[1..];
      var n := Consumed(rest, EndsOpen(lines[0]), gates);
      ConsumedBelongs(rest, EndsOpen(lines[0]), gates);
      before, block, after := [], [lines[0]] + rest[..n], rest[n..];
      assert rest[..n] + rest[n..] == rest && [lines[0]] + rest == lines && block[1..] == rest[..n];
    } else {
      before, block, after := OutsideIsKept(lines[1..], gates, key);
      Prefix3(lines[0], before, block, after);
      Prefix3(lines[0], before, Block(key, gates), after);
      assert [lines[0]] + lines[1..] == lines;
      before := [lines[0]] + before;
    }
  }

  lemma Prefix3(x: string, a: seq<string>, b: seq<string>, c: seq<string>)
    ensures [x] + (a + b + c) == ([x] + a) + b + c
  {}

  // ------------------------------------------------------------------------- idempotence

  predicate Plain(s: string) { '\n' !in s }

  predicate PlainGates(gates: seq<Gate>) { gates == [] || (Plain(gates[0].name) && PlainGates(gates[1..])) }

  /** The key of a declaration is read as it was written. */
  predicate Findable(key: string) { key == "" || !IsSpace(key[0]) }

  lemma BlockOpens(key: string)
    requires Findable(key)
    ensures Declares(key + ": {", key) && EndsOpen(key + ": {")
  {
    var line := key + ": {";
    TrimmedStrip(line);
    assert line[..|key| + 1] == key + ":";
  }

  lemma BlockHidden(key: string, line: string)
    requires !Findable(key)
    ensures !Declares(line, key)
  {
    LStripHead(line);
    RStripHead(LStrip(line));
    assert (key + ":")[0] == key[0];
    if Declares(line, key) {
      PrefixHead(Strip(line), key + ":");
    }
  }

  lemma PrefixHead(s: string, prefix: string)
    requires StartsWith(s, prefix) && prefix != ""
    ensures s != "" && s[0] == prefix[0]
  {
    assert s[..|prefix|][0] == s[0];
  }

  lemma {:induction false} LStripHead(s: string)
    ensures LStrip(s) == "" || !IsSpace(LStrip(s)[0])
  {
    if s != "" && IsSpace(s[0]) { LStripHead(s[1..]); }
  }

  lemma {:induction false} RStripHead(s: string)
    ensures RStrip(s) == "" || RStrip(s)[0] == s[0]
    decreases |s|
  {
    if s != "" && IsSpace(s[|s| - 1]) { RStripHead(s[..|s| - 1]); }
  }

  lemma {:induction false} ShownConsumed(gates: seq<Gate>, all: seq<Gate>, after: seq<string>)
    ensures Consumed(Shown(gates) + (["}"] + after), true, all) == |Shown(gates)| + 1
    decreases |gates|
  {
    var rest := ["}"] + after;
    if gates == [] {
      assert Shown(gates) + rest == rest;
      TrimmedStrip("}");
    } else {
      var line := Shown(gates)[0];
      assert (Shown(gates) + rest)[0] == line && (Shown(gates) + rest)[1..] == Shown(gates[1..]) + rest;
      GateLineTaken(gates[0], line, all);
      ShownConsumed(gates[1..], all, after);
    }
  }

  lemma GateLineTaken(g: Gate, line: string, all: seq<Gate>)
    requires line == "  " + (g.name + (": " + ((if g.open then "true" else "false") + ",")))
    ensures Judge(line, true, all) == Take
  {
    assert line[|line| - 1] == ',' && line[0] == ' ';
    LStripKeepsLast(line);
    var s := LStrip(line);
    assert RStrip(s) == s;
  }

  lemma {:induction false} LStripKeepsLast(s: string)
    requires s != "" && !IsSpace(s[|s| - 1])
    ensures LStrip(s) != "" && LStrip(s)[|LStrip(s)| - 1] == s[|s| - 1]
  {
    if IsSpace(s[0]) { LStripKeepsLast(s[1..]); }
  }

  /** A block that was written is found and replaced by itself. */
  lemma {:induction false} RewriteBlock(before: seq<string>, after: seq<string>, gates: seq<Gate>, key: string)
    requires Findable(key) && forall l | l in before :: !Declares(l, key)
    ensures Rewritten(before + Block(key, gates) + after, gates, key) == before + Block(key, gates) + after
    decreases |before|
  {
    if before == [] {
      BlockItself(after, gates, key);
      assert [] + Block(key, gates) == Block(key, gates);
    } else {
      var lines, rest := before + Block(key, gates) + after, before[1..];
      assert before[0] in before && forall l | l in rest :: l in before;
      RewriteBlock(rest, after, gates, key);
      assert before == [before[0]] + rest;
      Prefix3(before[0], rest, Block(key, gates), after);
      assert lines[1..] == rest + Block(key, gates) + after;
    }
  }

  lemma BlockItself(after: seq<string>, gates: seq<Gate>, key: string)
    requires Findable(key)
    ensures Rewritten(Block(key, gates) + after, gates, key) == Block(key, gates) + after
  {
    var head, tail := key + ": {", Shown(gates) + (["}"] + after);
    assert Block(key, gates) + after == [head] + tail;
    BlockOpens(key);
    assert ([head] + tail)[1..] == tail;
    ShownConsumed(gates, gates, after);
    assert tail[|Shown(gates)| + 1..] == after;
  }

  /** Rewriting twice is rewriting once. */
  lemma RewriteTwice(lines: seq<string>, gates: seq<Gate>, key: string)
    requires Findable(key)
    ensures Rewritten(Rewritten(lines, gates, key), gates, key) == Rewritten(lines, gates, key)
  {
    var before, block, after := OutsideIsKept(lines, gates, key);
    RewriteBlock(before, after, gates, key);
  }

  /** A key that cannot be found gets another block at the end each time. */
  lemma {:induction false} HiddenAppends(lines: seq<string>, gates: seq<Gate>, key: string)
    requires !Findable(key)
    ensures Rewritten(lines, gates, key) == lines + Block(key, gates)
  {
    if lines != [] {
      BlockHidden(key, lines[0]);
      HiddenAppends(lines[1..], gates, key);
      assert [lines[0]] + lines[1..] == lines;
      ConcatAssoc([lines[0]], lines[1..], Block(key, gates));
    }
  }

  /** Splitting joined lines gives them back. */
  lemma {:induction false} LinesOfUnlines(xs: seq<string>)
    requires xs != [] && forall x | x in xs :: Plain(x)
    ensures Lines(Unlines(xs)) == xs
  {
    assert xs[0] in xs && forall x | x in xs[1..] :: x in xs;
    LinesPlain(xs[0]);
    if |xs| > 1 {
      LinesOfUnlines(xs[1..]);
      LinesConcat(xs[0], Unlines(xs[1..]));
    }
  }

  lemma {:induction false} LinesArePlain(s: string)
    ensures forall l | l in Lines(s) :: Plain(l)
  {
    if s != "" {
      LinesArePlain(s[1..]);
      assert Lines(s[1..])[0] in Lines(s[1..]);
      assert forall l | l in Lines(s[1..])[1..] :: l in Lines(s[1..]);
    }
  }

  lemma {:induction false} ShownIsPlain(gates: seq<Gate>)
    requires PlainGates(gates)
    ensures forall l | l in Shown(gates) :: Plain(l)
  {
    if gates != [] { ShownIsPlain(gates[1..]); }
  }

  lemma RewrittenIsPlain(lines: seq<string>, gates: seq<Gate>, key: string)
    requires Plain(key) && PlainGates(gates) && forall l | l in lines :: Plain(l)
    ensures Rewritten(lines, gates, key) != [] && forall l | l in Rewritten(lines, gates, key) :: Plain(l)
  {
    var before, block, after := OutsideIsKept(lines, gates, key);
    ShownIsPlain(gates);
    assert forall l | l in before :: l in lines;
    assert forall l | l in after :: l in lines;
  }

  /**
   * On single-line keys and gate names, writing the block twice gives the same text
   * exactly when the key does not start with whitespace.
   */
  lemma WriteTwiceIff(text: string, gates: seq<Gate>, key: string)
    requires Plain(key) && PlainGates(gates)
    ensures Written(Written(text, gates, key), gates, key) == Written(text, gates, key) <==> Findable(key)
  {
    var once := Rewritten(Lines(text), gates, key);
    LinesArePlain(text);
    RewrittenIsPlain(Lines(text), gates, key);
    LinesOfUnlines(once);
    RewrittenIsPlain(once, gates, key);
    LinesOfUnlines(Rewritten(once, gates, key));
    if Findable(key) {
      RewriteTwice(Lines(text), gates, key);
    } else {
      HiddenAppends(once, gates, key);
      assert |Rewritten(once, gates, key)| > |once|;
    }
  }
}
