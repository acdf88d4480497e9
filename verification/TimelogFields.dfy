/** `_field` and the attribute bodies it searches, in `timelog_store.py`. */
module TimelogFields {
  import opened Text

  /** The attribute names of every kind of entry. */
  datatype Key =
    | Project | Ses | Opened | Version | Revision | Start | End | State | Note | Auth | LastActivity
    | Operation | Status | Destination | Remote | Blocks | Minutes | Agent | ProjectedAt

  function Name(k: Key): string {
    match k
    case Project => "project"
    case Ses => "ses"
    case Opened => "opened"
    case Version => "version"
    case Revision => "revision"
    case Start => "start"
    case End => "end"
    case State => "state"
    case Note => "note"
    case Auth => "auth"
    case LastActivity => "last_activity"
    case Operation => "operation"
    case Status => "status"
    case Destination => "destination"
    case Remote => "remote"
    case Blocks => "blocks"
    case Minutes => "minutes"
    case Agent => "agent"
    case ProjectedAt => "projected_at"
  }

  predicate IsKey(key: string) { key != "" && forall c | c in key :: IsIdentChar(c) }

  lemma NameIsKey(k: Key)
    ensures IsKey(Name(k))
  {}

  /** The key with this name: the length and a letter or two tell the names apart. */
  function KeyOf(s: string): Key
    requires |s| >= 3
  {
    if |s| == 3 then (if s[0] == 's' then Ses else End)
    else if |s| == 4 then (if s[0] == 'n' then Note else Auth)
    else if |s| == 5 then (if s[0] == 'a' then Agent else if s[3] == 'r' then Start else State)
    else if |s| == 6 then (if s[0] == 'o' then Opened else if s[0] == 's' then Status else if s[0] == 'r' then Remote else Blocks)
    else if |s| == 7 then (if s[0] == 'p' then Project else if s[0] == 'v' then Version else Minutes)
    else if |s| == 8 then Revision
    else if |s| == 9 then Operation
    else if |s| == 11 then Destination
    else if |s| == 12 then ProjectedAt
    else LastActivity
  }

  lemma NameTells(k: Key)
    ensures |Name(k)| >= 3 && KeyOf(Name(k)) == k
  {}

  lemma NamesDiffer(a: Key, b: Key)
    ensures Name(a) == Name(b) ==> a == b
  {
    NameTells(a);
    NameTells(b);
  }

  datatype Field = Field(key: Key, value: string)

  function Cell(f: Field): string { Name(f.key) + ":\"" + f.value + "\"" }

  function More(fields: seq<Field>): string {
    if fields == [] then "" else "," + (Cell(fields[0]) + More(fields[1..]))
  }

  /** `k:"v",k:"v",...` */
  function Body(fields: seq<Field>): string {
    if fields == [] then "" else Cell(fields[0]) + More(fields[1..])
  }

  function Lookup(fields: seq<Field>, key: Key): string {
    if fields == [] then "" else if fields[0].key == key then fields[0].value else Lookup(fields[1..], key)
  }

  // ------------------------------------------------------------------- the search

  predicate IsSep(c: char) { c == ',' || c == '{' || IsSpace(c) }

  /** Everything before the first quote, when there is one. */
  function UpToQuote(s: string): Option<string> {
    if s == "" then None
    else if s[0] == '"' then Some("")
    else
      var rest := UpToQuote(s[1..]);
      if rest.None? then None else Some([s[0]] + rest.value)
  }

  /** `key[=:]"([^"]*)"` at the start of `s`. */
  function MatchKey(s: string, key: string): Option<string> {
    if StartsWith(s, key) && |s| >= |key| + 2 && s[|key|] in ":=" && s[|key| + 1] == '"' then UpToQuote(s[|key| + 2..])
    else None
  }

  /** The leftmost match after the start of the text, a comma, a brace or whitespace. */
  function Search(s: string, key: string, atStart: bool): Option<string>
    decreases |s|
  {
    if atStart && MatchKey(s, key).Some? then MatchKey(s, key)
    else if s == "" then None
    else if IsSep(s[0]) && MatchKey(s[1..], key).Some? then MatchKey(s[1..], key)
    else Search(s[1..], key, false)
  }

  /** `_field`. */
  function FieldOf(attrs: string, key: string): string {
    var found := Search(attrs, key, true);
    if found.None? then "" else found.value
  }

  // ---------------------------------------------------------- landing on the right field

  /** The value ends like the start of a field `key`, just before its own closing quote. */
  predicate Mimics(v: string, key: string) {
    && |v| >= |key| + 2 && IsSep(v[|v| - |key| - 2])
    && v[|v| - |key| - 1..|v| - 1] == key && v[|v| - 1] in ":="
  }

  lemma {:induction false} UpToQuoteExact(v: string, rest: string)
    requires '"' !in v
    ensures UpToQuote(v + ("\"" + rest)) == Some(v)
  {
    if v == "" {
      assert v + ("\"" + rest) == "\"" + rest;
    } else {
      assert (v + ("\"" + rest))[1..] == v[1..] + ("\"" + rest);
      UpToQuoteExact(v[1..], rest);
      assert [v[0]] + v[1..] == v;
    }
  }

  lemma SkipChar(c: char, rest: string, key: string)
    requires !IsSep(c)
    ensures Search([c] + rest, key, false) == Search(rest, key, false)
  {
    assert ([c] + rest)[1..] == rest;
  }

  lemma {:induction false} SkipKey(k: string, rest: string, key: string)
    requires forall c | c in k :: IsIdentChar(c)
    ensures Search(k + rest, key, false) == Search(rest, key, false)
  {
    if k == "" {
      assert k + rest == rest;
    } else {
      assert k + rest == [k[0]] + (k[1..] + rest);
      assert k[0] in k;
      SkipChar(k[0], k[1..] + rest, key);
      SkipKey(k[1..], rest, key);
    }
  }

  /** A match that ends at the quote after `x` takes up all of `x`. */
  lemma MatchFillsValue(x: string, rest: string, key: string)
    requires '"' !in x && IsKey(key) && MatchKey(x + ("\"" + rest), key).Some?
    ensures |x| == |key| + 1 && x[..|key|] == key && x[|key|] in ":="
    ensures MatchKey(x + ("\"" + rest), key) == UpToQuote(rest)
  {
    var s := x + ("\"" + rest);
    assert s[|x|] == '"';
    assert forall i | 0 <= i < |key| :: s[i] == s[..|key|][i] && s[i] in key;
    assert forall i | 0 <= i < |x| :: s[i] in x;
    assert x[..|key|] == s[..|key|] && s[|key| + 2..] == rest;
  }

  /** Inside a value, a match needs the value to end like the start of a field, and a later quote. */
  lemma {:induction false} SkipValue(v: string, rest: string, key: string)
    requires '"' !in v && IsKey(key) && (!Mimics(v, key) || UpToQuote(rest).None?)
    ensures Search(v + ("\"" + rest), key, false) == Search(rest, key, false)
  {
    if v == "" {
      assert v + ("\"" + rest) == ['"'] + rest;
      SkipChar('"', rest, key);
    } else {
      assert (v + ("\"" + rest))[1..] == v[1..] + ("\"" + rest);
      SkipValue(v[1..], rest, key);
      NoMatchInside(v, rest, key);
    }
  }

  lemma NoMatchInside(v: string, rest: string, key: string)
    requires v != "" && '"' !in v && IsKey(key) && (!Mimics(v, key) || UpToQuote(rest).None?)
    ensures IsSep(v[0]) ==> MatchKey(v[1..] + ("\"" + rest), key).None?
  {
    if MatchKey(v[1..] + ("\"" + rest), key).Some? {
      MatchFillsValue(v[1..], rest, key);
      assert v[1..][..|key|] == v[1..|v| - 1];
    }
  }

  /** A field that starts with `key` and a separator has that key. */
  lemma KeyDecides(k: string, rest: string, key: string)
    requires IsKey(k) && IsKey(key)
    requires StartsWith(k + (":" + rest), key) && |key| < |k + (":" + rest)| && (k + (":" + rest))[|key|] in ":="
    ensures k == key
  {
    var s := k + (":" + rest);
    assert forall i | 0 <= i < |k| :: s[i] in k;
    assert forall i | 0 <= i < |key| :: s[i] == s[..|key|][i] && s[i] in key;
    assert s[|k|] == ':' && s[..|k|] == k;
    assert |key| == |k|;
  }

  lemma CellParts(f: Field, rest: string)
    ensures Cell(f) + rest == Name(f.key) + (":" + ("\"" + (f.value + ("\"" + rest))))
  {}

  /** At the start of a field the search matches exactly that field's key. */
  lemma MatchCell(f: Field, rest: string, key: Key)
    requires '"' !in f.value
    ensures MatchKey(Cell(f) + rest, Name(key)) == if f.key == key then Some(f.value) else None
  {
    CellParts(f, rest);
    NameIsKey(f.key);
    NameIsKey(key);
    NamesDiffer(f.key, key);
    MatchParts(Name(f.key), f.value, rest, Name(key));
  }

  lemma MatchParts(k: string, v: string, rest: string, key: string)
    requires IsKey(k) && IsKey(key) && '"' !in v
    ensures MatchKey(k + (":" + ("\"" + (v + ("\"" + rest)))), key) == if k == key then Some(v) else None
  {
    var tail := v + ("\"" + rest);
    var s := k + (":" + ("\"" + tail));
    if k == key {
      assert s[..|key|] == key && s[|key|] == ':' && s[|key| + 1] == '"' && s[|key| + 2..] == tail;
      UpToQuoteExact(v, rest);
    } else if MatchKey(s, key).Some? {
      KeyDecides(k, "\"" + tail, key);
    }
  }

  lemma SkipCell(f: Field, rest: string, key: Key)
    requires '"' !in f.value && (!Mimics(f.value, Name(key)) || UpToQuote(rest).None?)
    ensures Search(Cell(f) + rest, Name(key), false) == Search(rest, Name(key), false)
  {
    CellParts(f, rest);
    NameIsKey(f.key);
    NameIsKey(key);
    SkipToValue(Name(f.key), f.value + ("\"" + rest), Name(key));
    SkipValue(f.value, rest, Name(key));
  }

  lemma SkipToValue(k: string, tail: string, key: string)
    requires IsKey(k)
    ensures Search(k + (":" + ("\"" + tail)), key, false) == Search(tail, key, false)
  {
    SkipKey(k, ":" + ("\"" + tail), key);
    SkipChar(':', "\"" + tail, key);
    SkipChar('"', tail, key);
  }

  /** A value that mimics `key` takes the search, which returns what stands before the next quote. */
  lemma StopCell(f: Field, rest: string, key: Key)
    requires '"' !in f.value && Mimics(f.value, Name(key)) && UpToQuote(rest).Some?
    ensures Search(Cell(f) + rest, Name(key), false) == UpToQuote(rest)
  {
    CellParts(f, rest);
    NameIsKey(f.key);
    NameIsKey(key);
    SkipToValue(Name(f.key), f.value + ("\"" + rest), Name(key));
    StopAtMimic(f.value, rest, Name(key));
  }

  lemma {:induction false} StopAtMimic(v: string, rest: string, key: string)
    requires '"' !in v && IsKey(key) && Mimics(v, key) && UpToQuote(rest).Some?
    ensures Search(v + ("\"" + rest), key, false) == UpToQuote(rest)
  {
    var s := v + ("\"" + rest);
    assert s[1..] == v[1..] + ("\"" + rest);
    if |v| == |key| + 2 {
      assert s[1..][..|key|] == v[1..|v| - 1];
      assert s[1..][|key| + 2..] == rest;
    } else {
      if MatchKey(s[1..], key).Some? {
        MatchFillsValue(v[1..], rest, key);
      }
      StopAtMimic(v[1..], rest, key);
    }
  }

  lemma NextQuote(g: Field, rest: string)
    ensures UpToQuote("," + (Cell(g) + rest)) == Some(Between(g))
  {
    NameIsKey(g.key);
    CellParts(g, rest);
    assert "," + (Cell(g) + rest) == Between(g) + ("\"" + (g.value + ("\"" + rest)));
    UpToQuoteExact(Between(g), g.value + ("\"" + rest));
  }

  // -------------------------------------------------------------- what the search returns

  /** The text between the closing quote of a value and the value of the field after it. */
  function Between(next: Field): string { "," + Name(next.key) + ":" }

  /** The value of the first field with the key, unless a value before it that is not the last mimics the key. */
  function Found(fields: seq<Field>, key: Key): string {
    if fields == [] then ""
    else if fields[0].key == key then fields[0].value
    else if |fields| > 1 && Mimics(fields[0].value, Name(key)) then Between(fields[1])
    else Found(fields[1..], key)
  }

  predicate QuoteFree(fields: seq<Field>) { forall f | f in fields :: '"' !in f.value }

  function ValueOf(found: Option<string>): string { if found.None? then "" else found.value }

  lemma {:induction false} SearchMore(fields: seq<Field>, key: Key)
    requires QuoteFree(fields)
    ensures ValueOf(Search(More(fields), Name(key), false)) == Found(fields, key)
  {
    if fields != [] {
      var f, rest := fields[0], fields[1..];
      assert f in fields && forall g | g in rest :: g in fields;
      SearchMore(rest, key);
      SearchNext(f, rest, key);
      if f.key != key {
        SearchPast(f, rest, key);
      }
    }
  }

  lemma SearchNext(f: Field, rest: seq<Field>, key: Key)
    requires '"' !in f.value
    ensures Search("," + (Cell(f) + More(rest)), Name(key), false)
         == if f.key == key then Some(f.value) else Search(Cell(f) + More(rest), Name(key), false)
  {
    MatchCell(f, More(rest), key);
    SearchSep(Cell(f) + More(rest), Name(key));
  }

  lemma SearchSep(s: string, key: string)
    ensures Search("," + s, key, false) == if MatchKey(s, key).Some? then MatchKey(s, key) else Search(s, key, false)
  {
    assert ("," + s)[1..] == s;
  }

  /** Past the key of a field: into its value, or on to the next field. */
  lemma SearchPast(f: Field, rest: seq<Field>, key: Key)
    requires '"' !in f.value
    ensures Search(Cell(f) + More(rest), Name(key), false)
         == if rest != [] && Mimics(f.value, Name(key)) then Some(Between(rest[0])) else Search(More(rest), Name(key), false)
  {
    if rest != [] {
      NextQuote(rest[0], More(rest[1..]));
    }
    if rest != [] && Mimics(f.value, Name(key)) {
      StopCell(f, More(rest), key);
    } else {
      SkipCell(f, More(rest), key);
    }
  }

  /** From the start of the first field, either its key matches or the search moves on. */
  lemma SearchFirst(f: Field, rest: string, key: Key)
    requires '"' !in f.value
    ensures Search(Cell(f) + rest, Name(key), true)
         == if f.key == key then Some(f.value) else Search(Cell(f) + rest, Name(key), false)
  {
    MatchCell(f, rest, key);
  }

  /** What `_field` returns, for every list of quote-free fields and every key. */
  lemma FieldSearch(fields: seq<Field>, key: Key)
    requires QuoteFree(fields)
    ensures FieldOf(Body(fields), Name(key)) == Found(fields, key)
  {
    if fields != [] {
      var f, rest := fields[0], fields[1..];
      assert f in fields && forall g | g in rest :: g in fields;
      SearchFirst(f, More(rest), key);
      SearchMore(rest, key);
      if f.key != key {
        SearchPast(f, rest, key);
      }
    }
  }

  /** No field before position `n` has the key or mimics it. */
  predicate Quiet(fields: seq<Field>, n: nat, key: Key)
    requires n <= |fields|
  { forall j | 0 <= j < n :: fields[j].key != key && !Mimics(fields[j].value, Name(key)) }

  /** A value that mimics `key`, in any position but the last, hides that field from the search. */
  lemma {:induction false} MimicHides(fields: seq<Field>, n: nat, key: Key)
    requires QuoteFree(fields) && n + 1 < |fields| && Quiet(fields, n, key)
    requires fields[n].key != key && Mimics(fields[n].value, Name(key))
    ensures FieldOf(Body(fields), Name(key)) == Between(fields[n + 1])
  {
    FieldSearch(fields, key);
    FoundPast(fields, n, key);
  }

  /** The search reaches the field with the key when nothing before it mimics the key. */
  lemma QuietReaches(fields: seq<Field>, n: nat, key: Key)
    requires QuoteFree(fields) && n < |fields| && Quiet(fields, n, key) && fields[n].key == key
    ensures FieldOf(Body(fields), Name(key)) == fields[n].value
  {
    FieldSearch(fields, key);
    FoundPast(fields, n, key);
  }

  lemma {:induction false} FoundPast(fields: seq<Field>, n: nat, key: Key)
    requires n <= |fields| && Quiet(fields, n, key)
    ensures Found(fields, key) == Found(fields[n..], key)
    ensures Lookup(fields, key) == Lookup(fields[n..], key)
  {
    if n > 0 {
      assert fields[1..][n - 1..] == fields[n..];
      assert forall j | 0 <= j < n - 1 :: fields[1..][j] == fields[j + 1];
      FoundPast(fields[1..], n - 1, key);
    } else {
      assert fields[0..] == fields;
    }
  }

  /**
   * Nothing hides the field with the key: every value before it, and if there is none every
   * value but the last, does not mimic the key, or what is found instead happens to be equal.
   */
  predicate Unhidden(fields: seq<Field>, key: Key) {
    |fields| <= 1 || fields[0].key == key
    || if Mimics(fields[0].value, Name(key)) then Lookup(fields, key) == Between(fields[1]) else Unhidden(fields[1..], key)
  }

  lemma {:induction false} FoundIffUnhidden(fields: seq<Field>, key: Key)
    ensures Found(fields, key) == Lookup(fields, key) <==> Unhidden(fields, key)
    ensures Found(fields, key) == Lookup(fields, key) || (Found(fields, key) != "" && Found(fields, key)[0] == ',')
  {
    if |fields| > 1 && fields[0].key != key && !Mimics(fields[0].value, Name(key)) {
      FoundIffUnhidden(fields[1..], key);
    }
  }
}
