/** `cortex/crud.py`: selecting, adding, updating, deleting and moving entries in place. */
module EntrySurgery {
  import opened Text
  import opened Attrs
  import opened CortexModel

  /** A parsed selector; no sigil or name selects the whole section. */
  datatype Selector = Selector(section: string, sigil: Option<string>, name: Option<string>)

  datatype Reply = Done | NoDestination | NoSection | NoMatch | WrongKind | NothingToDo | ReservedName

  /** `_entry_matches`. */
  predicate Matches(e: Entry, s: Selector) {
    if s.sigil.Some? && e.sigil != s.sigil.value then false
    else if s.name.None? || s.name.value == "*" then true
    else if s.name.value != "" && s.name.value[|s.name.value| - 1] == '*' then
      StartsWith(e.name, s.name.value[..|s.name.value| - 1])
    else e.name == s.name.value
  }

  function Matched(es: seq<Entry>, s: Selector): seq<Entry> {
    if es == [] then []
    else
      Matched(es[..|es| - 1], s) + if Matches(es[|es| - 1], s) then [es[|es| - 1]] else []
  }

  function Unmatched(es: seq<Entry>, s: Selector): seq<Entry> {
    if es == [] then []
    else
      Unmatched(es[..|es| - 1], s) + if Matches(es[|es| - 1], s) then [] else [es[|es| - 1]]
  }

  // ------------------------------------------------------------------------- filter laws

  lemma {:induction false} FilterMembers(es: seq<Entry>, s: Selector)
    ensures forall e :: e in Matched(es, s) <==> e in es && Matches(e, s)
    ensures forall e :: e in Unmatched(es, s) <==> e in es && !Matches(e, s)
    decreases |es|
  {
    if es != [] {
      FilterMembers(es[..|es| - 1], s);
      assert es == es[..|es| - 1] + [es[|es| - 1]];
    }
  }

  lemma FilterSnoc(es: seq<Entry>, e: Entry, s: Selector)
    ensures Matched(es + [e], s) == if Matches(e, s) then Matched(es, s) + [e] else Matched(es, s)
    ensures Unmatched(es + [e], s) == if Matches(e, s) then Unmatched(es, s) else Unmatched(es, s) + [e]
  {
    assert (es + [e])[..|es|] == es;
  }

  /** Nothing is lost and nothing invented. */
  lemma {:induction false} FilterConserves(es: seq<Entry>, s: Selector)
    ensures multiset(es) == multiset(Unmatched(es, s)) + multiset(Matched(es, s))
    decreases |es|
  {
    if es != [] {
      var init, last := es[..|es| - 1], es[|es| - 1];
      FilterConserves(init, s);
      assert es == init + [last];
      FilterSnoc(init, last, s);
      SnocConserves(es, init, last, Unmatched(init, s), Matched(init, s));
    }
  }

  lemma SnocConserves(es: seq<Entry>, init: seq<Entry>, last: Entry, a: seq<Entry>, b: seq<Entry>)
    requires es != [] && init == es[..|es| - 1] && last == es[|es| - 1] && multiset(init) == multiset(a) + multiset(b)
    ensures multiset(es) == multiset(a + [last]) + multiset(b) == multiset(a) + multiset(b + [last])
  {
    assert es == init + [last];
  }

  lemma FilterSizes(es: seq<Entry>, s: Selector)
    ensures |es| == |Unmatched(es, s)| + |Matched(es, s)|
  {
    FilterConserves(es, s);
    assert |multiset(es)| == |multiset(Unmatched(es, s))| + |multiset(Matched(es, s))|;
  }

  /** Deleting makes the selector select nothing. */
  lemma {:induction false} UnmatchedSelectsNothing(es: seq<Entry>, s: Selector)
    ensures Matched(Unmatched(es, s), s) == []
    ensures Unmatched(Unmatched(es, s), s) == Unmatched(es, s)
    decreases |es|
  {
    if es != [] {
      var init, last := es[..|es| - 1], es[|es| - 1];
      UnmatchedSelectsNothing(init, s);
      assert es == init + [last];
      FilterSnoc(init, last, s);
      FilterSnoc(Unmatched(init, s), last, s);
    }
  }

  /** What another selector selects of the rest is what it selected, less the deleted ones, in order. */
  lemma {:induction false} FiltersCommute(es: seq<Entry>, s: Selector, t: Selector)
    ensures Matched(Unmatched(es, s), t) == Unmatched(Matched(es, t), s)
    decreases |es|
  {
    if es != [] {
      var init, last := es[..|es| - 1], es[|es| - 1];
      FiltersCommute(init, s, t);
      assert es == init + [last];
      FilterSnoc(init, last, s);
      FilterSnoc(init, last, t);
      FilterSnoc(Unmatched(init, s), last, t);
      FilterSnoc(Matched(init, t), last, s);
    }
  }

  lemma StarredName(name: string, prefix: string)
    ensures var star := prefix + "*"; star[|star| - 1] == '*' && star[..|star| - 1] == prefix
    ensures StartsWith(name, prefix) <==> exists rest :: name == prefix + rest
  {
    if StartsWith(name, prefix) {
      assert name == prefix + name[|prefix|..];
    }
    if rest :| name == prefix + rest {
      assert name[..|prefix|] == prefix;
    }
  }

  /** A selector selects entries of its sigil, if it has one, whatever their name. */
  lemma MatchesAny(e: Entry, s: Selector)
    requires s.name.None? || s.name.value == "*"
    ensures Matches(e, s) <==> s.sigil.None? || s.sigil.value == e.sigil
  {}

  /** A name before a star selects the entries whose name it begins; without the star, those of that name. */
  lemma MatchesName(e: Entry, s: Selector, prefix: string)
    requires s.name.Some? && (s.sigil.None? || s.sigil.value == e.sigil)
    ensures s.name.value == prefix + "*" ==> (Matches(e, s) <==> exists rest :: e.name == prefix + rest)
    ensures s.name.value == prefix && (prefix == "" || prefix[|prefix| - 1] != '*') ==> (Matches(e, s) <==> e.name == prefix)
  {
    if s.name.value == prefix + "*" {
      StarredName(e.name, prefix);
      if prefix == "" {
        assert StartsWith(e.name, prefix);
      }
    }
  }

  lemma MatchesSigil(e: Entry, s: Selector)
    requires s.sigil.Some? && s.sigil.value != e.sigil
    ensures !Matches(e, s)
  {}

  lemma {:induction false} FiltersAre(es: seq<Entry>, s: Selector, p: Entry -> bool, q: Entry -> bool)
    requires forall e :: p(e) == Matches(e, s) && q(e) == !Matches(e, s)
    ensures Matched(es, s) == Filtered(es, p) && Unmatched(es, s) == Filtered(es, q)
    decreases |es|
  {
    if es != [] { FiltersAre(es[..|es| - 1], s, p, q); }
  }

  /** Selecting and deleting keep the order: the matched entries, and the unmatched ones, each once. */
  lemma FiltersKeepOrder(es: seq<Entry>, s: Selector) returns (at: seq<nat>, others: seq<nat>)
    ensures Picks(es, Matched(es, s), at) && Picks(es, Unmatched(es, s), others)
    ensures forall i: nat | i < |es| :: (i in at <==> Matches(es[i], s)) && (i in others <==> !Matches(es[i], s))
  {
    var p, q := (e: Entry) => Matches(e, s), (e: Entry) => !Matches(e, s);
    FiltersAre(es, s, p, q);
    at := FilteredAre(es, p);
    others := FilteredAre(es, q);
  }

  // ------------------------------------------------------------------------------ updates

  /** `set_` and `replace_body`, with `append`. */
  datatype Change = Change(set_: Option<AttrMap>, body: Option<string>, append: bool)

  function PutAll(base: AttrMap, attrs: AttrMap): AttrMap
    decreases |attrs|
  { if attrs == [] then base else PutAll(Put(base, attrs[0].key, attrs[0].value), attrs[1..]) }

  /** One entry, and whether the change suits its kind; a half-applied change stays applied. */
  function Updated(e: Entry, c: Change): (Entry, bool) {
    if c.set_.Some? && e.payload.Body? then (e, false)
    else
      var e' := if c.set_.Some? then e.(payload := Pairs(PutAll(e.payload.attrs, c.set_.value))) else e;
      if c.body.None? then (e', true)
      else if e'.payload.Pairs? then (e', false)
      else (e'.(payload := Body(if c.append then e'.payload.text + c.body.value else c.body.value)), true)
  }

  /** Attributes that are put: those named have the last value given, all others the one they had. */
  lemma {:induction false} PutAllSays(base: AttrMap, attrs: AttrMap, key: string)
    ensures ValueOf(PutAll(base, attrs), key) == if LastOf(attrs, key).Some? then LastOf(attrs, key) else ValueOf(base, key)
    decreases |attrs|
  {
    if attrs != [] {
      ValueOfPut(base, attrs[0].key, attrs[0].value, key);
      PutAllSays(Put(base, attrs[0].key, attrs[0].value), attrs[1..], key);
    }
  }

  function LastOf(attrs: AttrMap, key: string): Option<Value> {
    if attrs == [] then None
    else if LastOf(attrs[1..], key).Some? then LastOf(attrs[1..], key)
    else if attrs[0].key == key then Some(attrs[0].value)
    else None
  }

  /** Putting never removes, renames or reorders: the keys stay where they are, and new ones come after them. */
  lemma {:induction false} PutKeepsKeys(attrs: AttrMap, key: string, value: Value)
    ensures var r := Put(attrs, key, value);
      && |attrs| <= |r| <= |attrs| + 1 && (|r| == |attrs| <==> HasKey(attrs, key))
      && (forall i | 0 <= i < |attrs| :: r[i].key == attrs[i].key) && (|r| > |attrs| ==> r[|attrs|] == Attr(key, value))
  {
    if attrs != [] {
      PutKeepsKeys(attrs[1..], key, value);
      assert forall i | 0 < i < |attrs| :: attrs[i] == attrs[1..][i - 1];
      if HasKey(attrs[1..], key) {
        var a :| a in attrs[1..] && a.key == key;
        assert a in attrs;
      }
    }
  }

  /** What an update makes of an entry it suits: its attributes are put, or its text is replaced or continued. */
  lemma UpdatedSays(e: Entry, c: Change, key: string)
    ensures Updated(e, c).1 <==> Suits(e, c)
    ensures Suits(e, c) ==> var u := Updated(e, c).0;
      && u.sigil == e.sigil && u.name == e.name && (u.payload.Pairs? <==> e.payload.Pairs?)
      && (c.set_.None? && c.body.None? ==> u == e)
      && (c.set_.Some? ==>
            var given := LastOf(c.set_.value, key);
            ValueOf(u.payload.attrs, key) == if given.Some? then given else ValueOf(e.payload.attrs, key))
      && (c.body.Some? ==> u.payload.text == if c.append then e.payload.text + c.body.value else c.body.value)
  {
    if c.set_.Some? && e.payload.Pairs? {
      PutAllSays(e.payload.attrs, c.set_.value, key);
    }
  }

  /** The kinds a change can be applied to. */
  predicate Suits(e: Entry, c: Change) {
    (c.set_.Some? ==> e.payload.Pairs?) && (c.body.Some? ==> e.payload.Body?)
  }

  /** Left to right, up to and including the first entry the change does not suit. */
  function UpdatedAll(es: seq<Entry>, s: Selector, c: Change): (seq<Entry>, bool) {
    if es == [] then ([], true)
    else if !Matches(es[0], s) then
      var (rest, ok) := UpdatedAll(es[1..], s, c);
      ([es[0]] + rest, ok)
    else
      var (e, fits) := Updated(es[0], c);
      if !fits then ([e] + es[1..], false)
      else
        var (rest, ok) := UpdatedAll(es[1..], s, c);
        ([e] + rest, ok)
  }

  /** An update changes payloads of matched entries only; names, order and number stay. */
  lemma {:induction false} UpdateKeepsShape(es: seq<Entry>, s: Selector, c: Change)
    ensures var (r, ok) := UpdatedAll(es, s, c);
      && |r| == |es|
      && (forall i | 0 <= i < |es| :: r[i].sigil == es[i].sigil && r[i].name == es[i].name)
      && (forall i | 0 <= i < |es| && !Matches(es[i], s) :: r[i] == es[i])
    decreases |es|
  {
    if es != [] { UpdateKeepsShape(es[1..], s, c); }
  }

  /** It succeeds exactly when the change suits every matched entry, and then changes all of them. */
  lemma {:induction false} UpdateSucceedsIff(es: seq<Entry>, s: Selector, c: Change)
    ensures var (r, ok) := UpdatedAll(es, s, c);
      && (ok <==> forall i | 0 <= i < |es| && Matches(es[i], s) :: Suits(es[i], c))
      && (ok ==> |r| == |es| && forall i | 0 <= i < |es| && Matches(es[i], s) :: r[i] == Updated(es[i], c).0)
    decreases |es|
  {
    if es != [] {
      var rest := es[1..];
      UpdateSucceedsIff(rest, s, c);
      assert forall i | 0 <= i < |rest| :: rest[i] == es[i + 1];
      if forall i | 0 <= i < |rest| && Matches(rest[i], s) :: Suits(rest[i], c) {
        forall i | 0 < i < |es| && Matches(es[i], s) ensures Suits(es[i], c) {
          assert rest[i - 1] == es[i];
        }
      }
    }
  }

  // ------------------------------------------------------------------------------ objects

  class SectionDict {
    const id: string
    var entries: seq<Entry>

    constructor (id: string, entries: seq<Entry>)
      ensures this.id == id && this.entries == entries
    {
      this.id, this.entries := id, entries;
    }

    /** The loop of `update_entry`; not `ok` once an entry is of the wrong kind. */
    method UpdateMatching(s: Selector, c: Change) returns (ok: bool, matched: bool)
      modifies this
      ensures (entries, ok) == UpdatedAll(old(entries), s, c)
      ensures (matched <==> Matched(old(entries), s) != []) && (!ok ==> matched)
    {
      AnyMatchIff(entries, s);
      var done: seq<Entry>, rest := [], entries;
      matched := false;
      assert [] + UpdatedAll(rest, s, c).0 == UpdatedAll(rest, s, c).0;
      while rest != []
        invariant entries == done + rest && UpdatedAll(old(entries), s, c) == Resumed(done, UpdatedAll(rest, s, c))
        invariant AnyMatch(old(entries), s) <==> matched || AnyMatch(rest, s)
        decreases |rest|
      {
        var e := rest[0];
        ResumeStep(done, rest, s, c);
        if Matches(e, s) {
          matched := true;
          var (e', fits) := Updated(e, c);
          entries := done + [e'] + rest[1..];
          if !fits {
            return false, true;
          }
          e := e';
        }
        ShiftHead(done, [e] + rest[1..]);
        done, rest := done + [e], rest[1..];
      }
      ok := true;
    }
  }

  predicate AnyMatch(es: seq<Entry>, s: Selector) { es != [] && (Matches(es[0], s) || AnyMatch(es[1..], s)) }

  lemma AnyMatchIff(es: seq<Entry>, s: Selector)
    ensures AnyMatch(es, s) <==> Matched(es, s) != []
  {
    FilterMembers(es, s);
    if AnyMatch(es, s) {
      var e := AMatch(es, s);
      assert e in Matched(es, s);
    } else if Matched(es, s) != [] {
      NoMatchIn(es, s, Matched(es, s)[0]);
    }
  }

  lemma {:induction false} AMatch(es: seq<Entry>, s: Selector) returns (e: Entry)
    requires AnyMatch(es, s)
    ensures e in es && Matches(e, s)
  {
    if Matches(es[0], s) {
      e := es[0];
    } else {
      e := AMatch(es[1..], s);
    }
  }

  lemma {:induction false} NoMatchIn(es: seq<Entry>, s: Selector, e: Entry)
    requires !AnyMatch(es, s) && e in es
    ensures !Matches(e, s)
  {
    if e != es[0] {
      assert e in es[1..];
      NoMatchIn(es[1..], s, e);
    }
  }

  /** The position of the first section with an id. */
  function FindIndex(sections: seq<SectionDict>, id: string): Option<nat> {
    if sections == [] then None
    else if sections[0].id == id then Some(0)
    else
      var rest := FindIndex(sections[1..], id);
      if rest.None? then None else Some(rest.value + 1)
  }

  lemma {:induction false} FindIndexFirst(sections: seq<SectionDict>, id: string)
    ensures var f := FindIndex(sections, id);
      if f.None? then forall i | 0 <= i < |sections| :: sections[i].id != id
      else f.value < |sections| && sections[f.value].id == id && forall i | 0 <= i < f.value :: sections[i].id != id
  {
    if sections != [] && sections[0].id != id {
      FindIndexFirst(sections[1..], id);
      assert forall i | 0 < i < |sections| :: sections[i] == sections[1..][i - 1];
    }
  }

  class Doc {
    var sections: seq<SectionDict>

    constructor (sections: seq<SectionDict>)
      ensures this.sections == sections
    {
      this.sections := sections;
    }

    method FindSection(id: string) returns (found: SectionDict?)
      ensures found == null <==> FindIndex(sections, id).None?
      ensures found != null ==> FindIndex(sections, id).value < |sections| && found == sections[FindIndex(sections, id).value]
    {
      for i := 0 to |sections|
        invariant forall k | 0 <= k < i :: sections[k].id != id
      {
        if sections[i].id == id {
          FindIndexFirst(sections, id);
          return sections[i];
        }
      }
      FindIndexFirst(sections, id);
      return null;
    }

    /** The entries a selector selects. */
    method SelectEntries(s: Selector) returns (found: seq<Entry>)
      ensures var i := FindIndex(sections, s.section);
        if i.None? then found == [] else i.value < |sections| && found == Matched(sections[i.value].entries, s)
    {
      FindIndexFirst(sections, s.section);
      found := [];
      var section := FindSection(s.section);
      if section == null {
        return;
      }
      var es := section.entries;
      for i := 0 to |es|
        invariant found == Matched(es[..i], s)
      {
        assert es[..i + 1][..i] == es[..i];
        if Matches(es[i], s) {
          found := found + [es[i]];
        }
      }
      assert es[..|es|] == es;
    }

    method AddEntry(id: string, e: Entry, create: bool) returns (r: Reply)
      modifies this, sections
      ensures r == ReservedName <==> e.name == "*" || e.name == "_"
      ensures r == NoSection <==> e.name != "*" && e.name != "_" && FindIndex(old(sections), id).None? && !create
      ensures r in {Done, ReservedName, NoSection}
      ensures r != Done ==> sections == old(sections) && forall o | o in old(sections) :: o.entries == old(o.entries)
      ensures r == Done ==> old(sections) <= sections
      ensures r == Done ==>
        var i := FindIndex(old(sections), id);
        if i.Some? then
          && i.value < |old(sections)| && sections == old(sections)
          && sections[i.value].entries == old(sections[i.value].entries) + [e]
          && forall o | o in old(sections) && o != sections[i.value] :: o.entries == old(o.entries)
        else
          && |sections| == |old(sections)| + 1 && fresh(sections[|sections| - 1])
          && sections[|sections| - 1].id == id && sections[|sections| - 1].entries == [e]
          && forall o | o in old(sections) :: o.entries == old(o.entries)
    {
      if e.name == "*" || e.name == "_" {
        return ReservedName;
      }
      FindIndexFirst(sections, id);
      var section := FindSection(id);
      if section == null {
        if !create {
          return NoSection;
        }
        var added := new SectionDict(id, [e]);
        sections := sections + [added];
        return Done;
      }
      section.entries := section.entries + [e];
      return Done;
    }

    method DeleteEntry(s: Selector) returns (r: Reply)
      modifies sections
      ensures sections == old(sections)
      ensures r == NoSection <==> FindIndex(sections, s.section).None?
      ensures r in {Done, NoSection, NoMatch}
      ensures r != Done ==> forall o | o in sections :: o.entries == old(o.entries)
      ensures r != NoSection ==>
        var i := FindIndex(sections, s.section).value;
        && i < |sections| && (r == NoMatch <==> old(Matched(sections[i].entries, s)) == [])
        && sections[i].entries == old(Unmatched(sections[i].entries, s))
        && forall o | o in sections && o != sections[i] :: o.entries == old(o.entries)
    {
      FindIndexFirst(sections, s.section);
      var section := FindSection(s.section);
      if section == null {
        return NoSection;
      }
      var es, kept := section.entries, [];
      for i := 0 to |es|
        invariant kept == Unmatched(es[..i], s)
      {
        assert es[..i + 1][..i] == es[..i];
        if !Matches(es[i], s) {
          kept := kept + [es[i]];
        }
      }
      assert es[..|es|] == es;
      FilterSizes(es, s);
      if |kept| == |es| {
        NothingMatched(es, s);
        return NoMatch;
      }
      section.entries := kept;
      return Done;
    }

    /** Moving within one section object puts the matched entries last. */
    method MoveEntry(s: Selector, to: string) returns (r: Reply)
      modifies sections
      ensures sections == old(sections)
      ensures r == NoDestination <==> FindIndex(sections, to).None?
      ensures r == NoSection <==> FindIndex(sections, to).Some? && FindIndex(sections, s.section).None?
      ensures r in {Done, NoDestination, NoSection, NoMatch}
      ensures r != Done ==> forall o | o in sections :: o.entries == old(o.entries)
      ensures r in {Done, NoMatch} ==>
        var i, j := FindIndex(sections, s.section).value, FindIndex(sections, to).value;
        && i < |sections| && j < |sections| && (r == NoMatch <==> old(Matched(sections[i].entries, s)) == [])
      ensures r == Done ==>
        var i, j := FindIndex(sections, s.section).value, FindIndex(sections, to).value;
        var (kept, moved) := (old(Unmatched(sections[i].entries, s)), old(Matched(sections[i].entries, s)));
        && sections[j].entries == (if sections[i] == sections[j] then kept else old(sections[j].entries)) + moved
        && (sections[i] != sections[j] ==> sections[i].entries == kept)
        && forall o | o in sections && o != sections[i] && o != sections[j] :: o.entries == old(o.entries)
    {
      FindIndexFirst(sections, to);
      FindIndexFirst(sections, s.section);
      var dest := FindSection(to);
      if dest == null {
        return NoDestination;
      }
      var src := FindSection(s.section);
      if src == null {
        return NoSection;
      }
      var es, kept, moved := src.entries, [], [];
      for i := 0 to |es|
        invariant kept == Unmatched(es[..i], s) && moved == Matched(es[..i], s)
      {
        assert es[..i + 1][..i] == es[..i];
        if Matches(es[i], s) {
          moved := moved + [es[i]];
        } else {
          kept := kept + [es[i]];
        }
      }
      assert es[..|es|] == es;
      if moved == [] {
        return NoMatch;
      }
      src.entries := kept;
      dest.entries := dest.entries + moved;
      return Done;
    }

    method UpdateEntry(s: Selector, c: Change) returns (r: Reply)
      modifies sections
      ensures sections == old(sections)
      ensures r == NothingToDo <==> c.set_.None? && c.body.None?
      ensures r == NoSection <==> !(c.set_.None? && c.body.None?) && FindIndex(sections, s.section).None?
      ensures r in {Done, NothingToDo, NoSection, NoMatch, WrongKind}
      ensures r in {NothingToDo, NoSection} ==> forall o | o in sections :: o.entries == old(o.entries)
      ensures r in {Done, NoMatch, WrongKind} ==>
        var i := FindIndex(sections, s.section).value;
        && i < |sections| && sections[i].entries == UpdatedAll(old(sections[i].entries), s, c).0
        && (r == WrongKind <==> !UpdatedAll(old(sections[i].entries), s, c).1)
        && (r == NoMatch <==> old(Matched(sections[i].entries, s)) == [])
        && forall o | o in sections && o != sections[i] :: o.entries == old(o.entries)
    {
      if c.set_.None? && c.body.None? {
        return NothingToDo;
      }
      FindIndexFirst(sections, s.section);
      var section := FindSection(s.section);
      if section == null {
        return NoSection;
      }
      var ok, matched := section.UpdateMatching(s, c);
      if !ok {
        return WrongKind;
      }
      return if matched then Done else NoMatch;
    }
  }

  function Resumed(done: seq<Entry>, rest: (seq<Entry>, bool)): (seq<Entry>, bool) { (done + rest.0, rest.1) }

  lemma ResumeStep(done: seq<Entry>, rest: seq<Entry>, s: Selector, c: Change)
    requires rest != []
    ensures var e := if Matches(rest[0], s) then Updated(rest[0], c).0 else rest[0];
      if Matches(rest[0], s) && !Updated(rest[0], c).1 then
        Resumed(done, UpdatedAll(rest, s, c)) == (done + [e] + rest[1..], false)
      else Resumed(done, UpdatedAll(rest, s, c)) == Resumed(done + [e], UpdatedAll(rest[1..], s, c))
  {
    var e := if Matches(rest[0], s) then Updated(rest[0], c).0 else rest[0];
    ConcatAssoc(done, [e], rest[1..]);
    ConcatAssoc(done, [e], UpdatedAll(rest[1..], s, c).0);
  }

  lemma {:induction false} NothingMatched(es: seq<Entry>, s: Selector)
    requires |Unmatched(es, s)| == |es|
    ensures Unmatched(es, s) == es
    decreases |es|
  {
    if es != [] {
      FilterSizes(es[..|es| - 1], s);
      NothingMatched(es[..|es| - 1], s);
    }
  }
}
