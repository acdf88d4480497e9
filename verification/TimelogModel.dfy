/** The timelog document of `timelog_store.py`. */
module TimelogModel {
  import opened Text

  /** An empty revision is a block written before revisions were stamped. */
  datatype Block = Block(
    start: string, end: string, state: string, note: string, auth: string, lastActivity: string, revision: string)

  datatype Receipt = Receipt(operation: string, status: string, destination: string, state: string, remote: string)

  datatype Mark = Mark(
    operation: string, status: string, destination: string, state: string, remote: string, blocks: string,
    start: string, end: string, minutes: string, agent: string, projectedAt: string)

  datatype Document = Document(
    project: string, ses: string, openedAt: string, revision: string,
    blocks: map<string, Block>, receipts: map<string, Receipt>, projections: map<string, Mark>)

  const EMPTY := Document("", "", "", "0", map[], map[], map[])

  predicate IsNameChar(c: char) { 'A' <= c <= 'Z' || 'a' <= c <= 'z' || IsDigit(c) || c == '.' }

  function SafeName(ref: string): string {
    if ref == "" then "" else [if IsNameChar(ref[0]) then ref[0] else '_'] + SafeName(ref[1..])
  }

  predicate IsEdge(c: char) { c == '.' || c == '_' }

  function TrimLeft(s: string): string { if s != "" && IsEdge(s[0]) then TrimLeft(s[1..]) else s }

  function TrimRight(s: string): string { if s != "" && IsEdge(s[|s| - 1]) then TrimRight(s[..|s| - 1]) else s }

  /** `_entry_name`. */
  function EntryName(ref: string): string {
    var name := TrimRight(TrimLeft(SafeName(ref)));
    if name == "" then "op" else name
  }

  /** A name that survives being turned into an entry name. */
  predicate IsName(s: string) {
    && s != "" && !IsEdge(s[0]) && !IsEdge(s[|s| - 1])
    && forall c | c in s :: IsNameChar(c) || c == '_'
  }

  lemma {:induction false} SafeChars(ref: string)
    ensures forall c | c in SafeName(ref) :: IsNameChar(c) || c == '_'
  {
    if ref != "" {
      SafeChars(ref[1..]);
    }
  }

  lemma {:induction false} SafeFixed(s: string)
    requires forall c | c in s :: IsNameChar(c) || c == '_'
    ensures SafeName(s) == s
  {
    if s != "" {
      assert s[0] in s;
      SafeFixed(s[1..]);
    }
  }

  lemma {:induction false} TrimLeftEnds(s: string)
    ensures TrimLeft(s) == "" || !IsEdge(TrimLeft(s)[0])
    ensures forall c | c in TrimLeft(s) :: c in s
  {
    if s != "" && IsEdge(s[0]) {
      TrimLeftEnds(s[1..]);
    }
  }

  lemma {:induction false} TrimRightEnds(s: string)
    ensures TrimRight(s) == "" || (!IsEdge(TrimRight(s)[|TrimRight(s)| - 1]) && TrimRight(s)[0] == s[0])
    ensures forall c | c in TrimRight(s) :: c in s
    decreases |s|
  {
    if s != "" && IsEdge(s[|s| - 1]) {
      TrimRightEnds(s[..|s| - 1]);
    }
  }

  /** Entry names are names, and names are exactly what `_entry_name` leaves alone. */
  lemma EntryNames(ref: string)
    ensures IsName(EntryName(ref))
    ensures IsName(ref) <==> EntryName(ref) == ref
  {
    SafeChars(ref);
    TrimLeftEnds(SafeName(ref));
    TrimRightEnds(TrimLeft(SafeName(ref)));
    if IsName(ref) {
      SafeFixed(ref);
    }
  }
}
