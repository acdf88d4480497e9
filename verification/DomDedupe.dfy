/** `_dedupe_meta_dom` of `sync.py`: one entry per project in the workspace section. */
module DomDedupe {
  import opened Text
  import opened Attrs
  import opened CortexModel
  import opened CortexReader

  // -------------------------------------------------------------------------- identity

  predicate IsDomChar(c: char) { 'a' <= c <= 'z' || IsDigit(c) || c == '_' }

  function Underscored(s: string): string {
    if s == "" then "" else [if IsDomChar(s[0]) then s[0] else '_'] + Underscored(s[1..])
  }

  /** `_normalize_dom_name`. */
  function Normalize(name: string): string { Underscored(Lower(Strip(name))) }

  function AttrsOf(e: Entry): AttrMap { if e.payload.Pairs? then e.payload.attrs else [] }

  /** Python truth of a value; a float literal is zero when it has no other digit. */
  predicate Truthy(v: Value) {
    match v
    case VNone => false
    case VBool(b) => b
    case VInt(i) => i != 0
    case VFloat(literal) => exists c :: c in literal && c !in "+-0._"
    case VStr(s) => s != ""
  }

  /** `str(attrs.get(key) or default)`. */
  function TextOr(attrs: AttrMap, key: string, default: string): string {
    var v := ValueOf(attrs, key);
    if v.Some? && Truthy(v.value) then StrOf(v.value) else default
  }

  /** `_dom_identity`; empty for anything that is not a `DOM` entry. */
  function Identity(e: Entry): string {
    if e.sigil != "DOM" then "" else Normalize(TextOr(AttrsOf(e), "name", e.name))
  }

  lemma {:induction false} UnderscoredChars(s: string)
    ensures forall c | c in Underscored(s) :: IsDomChar(c)
  {
    if s != "" { UnderscoredChars(s[1..]); }
  }

  lemma {:induction false} DomFixed(s: string)
    requires forall c | c in s :: IsDomChar(c)
    ensures Underscored(s) == s && Lower(s) == s
  {
    if s != "" {
      assert s[0] in s;
      DomFixed(s[1..]);
    }
  }

  lemma NormalizeTwice(name: string)
    ensures Normalize(Normalize(name)) == Normalize(name)
  {
    var s := Normalize(name);
    UnderscoredChars(Lower(Strip(name)));
    DomFixed(s);
    if s != "" {
      assert s[0] in s && s[|s| - 1] in s;
    }
    TrimmedStrip(s);
  }

  // --------------------------------------------------------------------------- ranking

  datatype Score = Score(exact: bool, path: bool, filled: nat, updated: string)

  predicate Filled(v: Value) { v != VNone && v != VStr("") }

  function CountFilled(attrs: AttrMap): nat {
    if attrs == [] then 0 else (if Filled(attrs[0].value) then 1 else 0) + CountFilled(attrs[1..])
  }

  /** `_dom_score`. */
  function ScoreOf(e: Entry, canonical: string): Score {
    Score(Normalize(e.name) == canonical, Strip(TextOr(AttrsOf(e), "path", "")) != "", CountFilled(AttrsOf(e)),
          TextOr(AttrsOf(e), "updated", ""))
  }

  /** Tuple order. */
  predicate Below(a: Score, b: Score) {
    if a.exact != b.exact then b.exact
    else if a.path != b.path then b.path
    else if a.filled != b.filled then a.filled < b.filled
    else a.updated != b.updated && StrLe(a.updated, b.updated)
  }

  lemma BelowOrder(a: Score, b: Score, c: Score)
    ensures Below(a, b) || Below(b, a) || a == b
    ensures !(Below(a, b) && Below(b, a))
    ensures Below(a, b) && !Below(c, b) ==> Below(a, c)
    ensures Below(a, b) && Below(b, c) ==> Below(a, c)
  {
    StrLeOrder(a.updated, b.updated, c.updated);
    StrLeOrder(b.updated, c.updated, a.updated);
    StrLeOrder(c.updated, b.updated, a.updated);
    StrLeOrder(b.updated, a.updated, c.updated);
    StrLeOrder(a.updated, c.updated, b.updated);
  }

  /** The positions of one identity among the first `n`. */
  function Group(ids: seq<string>, id: string, n: nat): (g: seq<nat>)
    requires n <= |ids|
    ensures forall i | i in g :: i < n
  {
    if n == 0 then [] else Group(ids, id, n - 1) + if ids[n - 1] == id then [n - 1] else []
  }

  predicate Within(at: seq<nat>, es: seq<Entry>) { forall i | i in at :: i < |es| }

  /** Behind everything that scores at least as much. */
  function InsertRank(es: seq<Entry>, id: string, i: nat, ranked: seq<nat>): (r: seq<nat>)
    requires i < |es| && Within(ranked, es)
    ensures Within(r, es) && |r| == |ranked| + 1
  {
    if ranked == [] then [i]
    else
      assert ranked[0] in ranked && ranked == [ranked[0]] + ranked[1..] && forall x | x in ranked[1..] :: x in ranked;
      if Below(ScoreOf(es[ranked[0]], id), ScoreOf(es[i], id)) then [i] + ranked
      else [ranked[0]] + InsertRank(es, id, i, ranked[1..])
  }

  /** `sorted(members, key=score, reverse=True)`. */
  function Ranked(es: seq<Entry>, id: string, group: seq<nat>): (r: seq<nat>)
    requires Within(group, es)
    ensures Within(r, es) && |r| == |group|
  {
    if group == [] then []
    else
      var n := |group| - 1;
      assert group[n] in group && group == group[..n] + [group[n]] && forall x | x in group[..n] :: x in group;
      InsertRank(es, id, group[n], Ranked(es, id, group[..n]))
  }

  lemma {:induction false} InsertMembers(es: seq<Entry>, id: string, i: nat, ranked: seq<nat>)
    requires i < |es| && Within(ranked, es)
    ensures multiset(InsertRank(es, id, i, ranked)) == multiset(ranked) + multiset{i}
  {
    if ranked != [] {
      var head, rest := ranked[0], ranked[1..];
      assert head in ranked && ranked == [head] + rest && forall x | x in rest :: x in ranked;
      InsertMembers(es, id, i, rest);
    }
  }

  /** Ranking only reorders. */
  lemma {:induction false} RankedMembers(es: seq<Entry>, id: string, group: seq<nat>)
    requires Within(group, es)
    ensures multiset(Ranked(es, id, group)) == multiset(group)
    decreases |group|
  {
    if group != [] {
      var init, last := group[..|group| - 1], group[|group| - 1];
      assert last in group && group == init + [last] && forall x | x in init :: x in group;
      RankedMembers(es, id, init);
      InsertMembers(es, id, last, Ranked(es, id, init));
    }
  }

  /** The better score first; among equals, the earlier entry. */
  predicate Leads(es: seq<Entry>, id: string, a: nat, b: nat)
    requires a < |es| && b < |es|
  {
    Below(ScoreOf(es[b], id), ScoreOf(es[a], id)) || (ScoreOf(es[a], id) == ScoreOf(es[b], id) && a < b)
  }

  predicate RankOrder(es: seq<Entry>, id: string, r: seq<nat>)
    requires forall i | i in r :: i < |es|
  {
    r != [] ==> r[0] in r && (forall b | b in r[1..] :: b in r && Leads(es, id, r[0], b)) && RankOrder(es, id, r[1..])
  }

  lemma LeadsThrough(es: seq<Entry>, id: string, a: nat, b: nat, c: nat)
    requires a < |es| && b < |es| && c < |es|
    requires Below(ScoreOf(es[b], id), ScoreOf(es[a], id)) && Leads(es, id, b, c)
    ensures Leads(es, id, a, c)
  {
    BelowOrder(ScoreOf(es[c], id), ScoreOf(es[b], id), ScoreOf(es[a], id));
  }

  lemma NotBelowLeads(es: seq<Entry>, id: string, a: nat, b: nat)
    requires a < b < |es| && !Below(ScoreOf(es[a], id), ScoreOf(es[b], id))
    ensures Leads(es, id, a, b)
  {
    BelowOrder(ScoreOf(es[a], id), ScoreOf(es[b], id), ScoreOf(es[b], id));
  }

  lemma {:induction false} InsertKeepsOrder(es: seq<Entry>, id: string, i: nat, r: seq<nat>)
    requires i < |es| && Within(r, es) && RankOrder(es, id, r) && forall j | j in r :: j < i
    ensures RankOrder(es, id, InsertRank(es, id, i, r))
  {
    if r == [] {
      assert InsertRank(es, id, i, r)[1..] == [];
    } else {
      var head, rest := r[0], r[1..];
      assert r == [head] + rest && head in r && forall x | x in rest :: x in r;
      if Below(ScoreOf(es[head], id), ScoreOf(es[i], id)) {
        assert ([i] + r)[1..] == r;
        forall b | b in r ensures Leads(es, id, i, b) {
          if b != head {
            LeadsThrough(es, id, i, head, b);
          }
        }
      } else {
        InsertKeepsOrder(es, id, i, rest);
        NotBelowLeads(es, id, head, i);
        var out := InsertRank(es, id, i, rest);
        InsertMembers(es, id, i, rest);
        assert ([head] + out)[1..] == out;
        forall b | b in out ensures Leads(es, id, head, b) {
          assert b in multiset(out);
          assert b in multiset(rest) || b == i;
        }
      }
    }
  }

  lemma {:induction false} RankedInOrder(es: seq<Entry>, id: string, group: seq<nat>)
    requires Within(group, es) && forall i, j | 0 <= i < j < |group| :: group[i] < group[j]
    ensures RankOrder(es, id, Ranked(es, id, group))
    decreases |group|
  {
    if group != [] {
      var init, last := group[..|group| - 1], group[|group| - 1];
      assert last in group && group == init + [last] && forall x | x in init :: x in group;
      RankedInOrder(es, id, init);
      RankedMembers(es, id, init);
      forall j | j in Ranked(es, id, init) ensures j < last {
        assert j in multiset(Ranked(es, id, init)) && j in multiset(init);
        var k :| 0 <= k < |init| && init[k] == j;
      }
      InsertKeepsOrder(es, id, last, Ranked(es, id, init));
    }
  }

  // --------------------------------------------------------------------------- merging

  predicate Blank(attrs: AttrMap, key: string) { ValueOf(attrs, key).None? || !Filled(ValueOf(attrs, key).value) }

  /** Fills what is missing or empty in `base` from `attrs`. */
  function FillFrom(base: AttrMap, attrs: AttrMap): AttrMap
    decreases |attrs|
  {
    if attrs == [] then base
    else FillFrom(if Blank(base, attrs[0].key) then Put(base, attrs[0].key, attrs[0].value) else base, attrs[1..])
  }

  function MergedAttrs(base: AttrMap, others: seq<AttrMap>): AttrMap
    decreases |others|
  { if others == [] then base else MergedAttrs(FillFrom(base, others[0]), others[1..]) }

  predicate Distinct(attrs: AttrMap) { attrs != [] ==> ValueOf(attrs[1..], attrs[0].key).None? && Distinct(attrs[1..]) }

  /** One candidate: a filled value stays; otherwise the candidate's value, if it has the key. */
  lemma {:induction false} FillFromLookup(base: AttrMap, attrs: AttrMap, k: string)
    requires Distinct(attrs)
    ensures ValueOf(FillFrom(base, attrs), k)
         == if !Blank(base, k) || ValueOf(attrs, k).None? then ValueOf(base, k) else ValueOf(attrs, k)
    decreases |attrs|
  {
    if attrs != [] {
      var a := attrs[0];
      ValueOfPut(base, a.key, a.value, k);
      FillFromLookup(if Blank(base, a.key) then Put(base, a.key, a.value) else base, attrs[1..], k);
    }
  }

  /** The first filled value of a key, in the order given. */
  function FirstFilled(all: seq<AttrMap>, k: string): Option<Value> {
    if all == [] then None else if !Blank(all[0], k) then ValueOf(all[0], k) else FirstFilled(all[1..], k)
  }

  /** A merged key holds the first filled value in rank order, and nothing filled when there is none. */
  lemma {:induction false} MergeTakesFirstFilled(base: AttrMap, others: seq<AttrMap>, k: string)
    requires forall o | o in others :: Distinct(o)
    ensures var v, first := ValueOf(MergedAttrs(base, others), k), FirstFilled([base] + others, k);
      if first.Some? then v == first else Blank(MergedAttrs(base, others), k)
    decreases |others|
  {
    assert ([base] + others)[1..] == others;
    if others != [] {
      assert others[0] in others && forall o | o in others[1..] :: o in others;
      var next := FillFrom(base, others[0]);
      FillFromLookup(base, others[0], k);
      MergeTakesFirstFilled(next, others[1..], k);
      assert ([next] + others[1..])[1..] == others[1..];
      assert others == [others[0]] + others[1..];
    }
  }

  function AttrsAt(es: seq<Entry>, at: seq<nat>): seq<AttrMap>
    requires Within(at, es)
  {
    if at == [] then []
    else
      assert at[0] in at && forall x | x in at[1..] :: x in at;
      [AttrsOf(es[at[0]])] + AttrsAt(es, at[1..])
  }

  // ------------------------------------------------------------------------ deduplication

  function Ids(es: seq<Entry>): seq<string> { seq(|es|, i requires 0 <= i < |es| => Identity(es[i])) }

  function Members(ids: seq<string>, id: string): seq<nat> { Group(ids, id, |ids|) }

  predicate Duplicated(ids: seq<string>, id: string) { id != "" && |Members(ids, id)| >= 2 }

  /** The members of an identity, best first. */
  function Ranking(es: seq<Entry>, id: string): (r: seq<nat>)
    ensures Within(r, es) && |r| == |Members(Ids(es), id)|
  { Ranked(es, id, Members(Ids(es), id)) }

  /**
   * The entry that stands for an identity. A best-ranked entry with a body keeps it beside
   * the merged attributes; such an entry cannot be written (`Clashes`).
   */
  function Merged(es: seq<Entry>, id: string): Entry {
    var all := AttrsAt(es, Ranking(es, id));
    Entry("DOM", id, Pairs(if all == [] then [] else MergedAttrs(all[0], all[1..])))
  }

  /** The best-ranked entry of a duplicate group has a body, so what stands for the group has body and attributes. */
  predicate Clashes(es: seq<Entry>, id: string) {
    Duplicated(Ids(es), id) && BestOf(es, id).payload.Body?
  }

  function BestOf(es: seq<Entry>, id: string): (e: Entry)
    requires Duplicated(Ids(es), id)
    ensures e in es
  {
    assert Ranking(es, id)[0] in Ranking(es, id);
    es[Ranking(es, id)[0]]
  }

  /** What becomes of one entry. */
  function Fate(es: seq<Entry>, i: nat): seq<Entry>
    requires i < |es|
  {
    var id := Ids(es)[i];
    if !Duplicated(Ids(es), id) then [es[i]] else if i == Ranking(es, id)[0] then [Merged(es, id)] else []
  }

  function AllFates(es: seq<Entry>): seq<seq<Entry>> { seq(|es|, i requires 0 <= i < |es| => Fate(es, i)) }

  function Flatten<T>(fs: seq<seq<T>>): seq<T> { if fs == [] then [] else Flatten(fs[..|fs| - 1]) + fs[|fs| - 1] }

  /** The entries of the section after deduplication. */
  function Dedupe(es: seq<Entry>): seq<Entry> { Flatten(AllFates(es)) }

  // -------------------------------------------------------------------------- its laws

  lemma {:induction false} GroupMembers(ids: seq<string>, id: string, n: nat)
    requires n <= |ids|
    ensures forall i :: i in Group(ids, id, n) <==> 0 <= i < n && ids[i] == id
  {
    if n > 0 { GroupMembers(ids, id, n - 1); }
  }

  lemma {:induction false} GroupOrder(ids: seq<string>, id: string, n: nat)
    requires n <= |ids|
    ensures forall i, j | 0 <= i < j < |Group(ids, id, n)| :: Group(ids, id, n)[i] < Group(ids, id, n)[j]
  {
    if n > 0 {
      GroupOrder(ids, id, n - 1);
      var g := Group(ids, id, n - 1);
      forall i | 0 <= i < |g| ensures g[i] < n - 1 {
        assert g[i] in g;
      }
    }
  }

  lemma RankingMember(es: seq<Entry>, id: string, i: nat)
    ensures i in Ranking(es, id) <==> i < |es| && Ids(es)[i] == id
  {
    GroupMembers(Ids(es), id, |es|);
    RankedMembers(es, id, Members(Ids(es), id));
    assert i in Ranking(es, id) <==> i in multiset(Ranking(es, id));
    assert i in Members(Ids(es), id) <==> i in multiset(Members(Ids(es), id));
  }

  /** A name value that is in use belongs to a member, so it normalises to the identity. */
  lemma {:induction false} FirstNameFits(es: seq<Entry>, id: string, at: seq<nat>)
    requires Within(at, es) && forall i | i in at :: Identity(es[i]) == id && es[i].sigil == "DOM"
    ensures var v := FirstFilled(AttrsAt(es, at), "name"); v.Some? && Truthy(v.value) ==> Normalize(StrOf(v.value)) == id
  {
    if at != [] {
      assert at[0] in at && forall x | x in at[1..] :: x in at;
      FirstNameFits(es, id, at[1..]);
      assert AttrsAt(es, at)[1..] == AttrsAt(es, at[1..]);
    }
  }

  predicate AttrsDistinct(es: seq<Entry>) { forall i | 0 <= i < |es| :: Distinct(AttrsOf(es[i])) }

  lemma {:induction false} AttrsAtDistinct(es: seq<Entry>, at: seq<nat>)
    requires Within(at, es) && AttrsDistinct(es)
    ensures |AttrsAt(es, at)| == |at| && forall o | o in AttrsAt(es, at) :: Distinct(o)
  {
    if at != [] {
      assert at[0] in at && forall x | x in at[1..] :: x in at;
      AttrsAtDistinct(es, at[1..]);
    }
  }

  /** The survivor of a group takes each attribute from the best-ranked entry that fills it. */
  lemma MergedAttribute(es: seq<Entry>, id: string, k: string)
    requires AttrsDistinct(es) && Members(Ids(es), id) != []
    ensures var v, first := ValueOf(AttrsOf(Merged(es, id)), k), FirstFilled(AttrsAt(es, Ranking(es, id)), k);
      if first.Some? then v == first else Blank(AttrsOf(Merged(es, id)), k)
    ensures RankOrder(es, id, Ranking(es, id))
  {
    var all := AttrsAt(es, Ranking(es, id));
    AttrsAtDistinct(es, Ranking(es, id));
    assert all == [all[0]] + all[1..] && forall o | o in all[1..] :: o in all;
    MergeTakesFirstFilled(all[0], all[1..], k);
    GroupOrder(Ids(es), id, |es|);
    RankedInOrder(es, id, Members(Ids(es), id));
  }

  /** Merging keeps the identity. */
  lemma MergedIdentity(es: seq<Entry>, id: string)
    requires AttrsDistinct(es) && Duplicated(Ids(es), id)
    ensures Identity(Merged(es, id)) == id
  {
    var at := Ranking(es, id);
    forall i | i in at ensures Identity(es[i]) == id && es[i].sigil == "DOM" {
      RankingMember(es, id, i);
    }
    FirstNameFits(es, id, at);
    MergedAttribute(es, id, "name");
    assert at[0] in at;
    NormalizeTwice(TextOr(AttrsOf(es[at[0]]), "name", es[at[0]].name));
    NameDecides(Merged(es, id), id, FirstFilled(AttrsAt(es, at), "name"));
  }

  lemma NameDecides(e: Entry, id: string, first: Option<Value>)
    requires e.sigil == "DOM" && e.name == id && Normalize(id) == id
    requires if first.Some? then ValueOf(AttrsOf(e), "name") == first else Blank(AttrsOf(e), "name")
    requires first.Some? && Truthy(first.value) ==> Normalize(StrOf(first.value)) == id
    ensures Identity(e) == id
  {}

  lemma FateIdentity(es: seq<Entry>, i: nat)
    requires AttrsDistinct(es) && i < |es|
    ensures Fate(es, i) != [] ==> Identity(Fate(es, i)[0]) == Identity(es[i])
  {
    if Duplicated(Ids(es), Ids(es)[i]) {
      MergedIdentity(es, Ids(es)[i]);
    }
  }

  /** The positions of the non-empty lists. */
  function Survivors<T(==)>(fs: seq<seq<T>>): (r: seq<nat>)
    ensures forall i | i in r :: i < |fs| && fs[i] != []
  {
    if fs == [] then []
    else
      var n := |fs| - 1;
      Survivors(fs[..n]) + if fs[n] != [] then [n] else []
  }

  /** Each survivor position holds the one element it contributes. */
  ghost predicate Surviving<T>(fs: seq<seq<T>>, out: seq<T>, at: seq<nat>) {
    && |out| == |at|
    && (forall k | 0 <= k < |at| :: at[k] < |fs| && [out[k]] == fs[at[k]])
    && (forall j, k | 0 <= j < k < |at| :: at[j] < at[k])
  }

  lemma SurvivorStep<T>(fs: seq<seq<T>>, last: seq<T>, out: seq<T>, at: seq<nat>)
    requires Surviving(fs, out, at) && |last| <= 1
    ensures last == [] ==> Surviving(fs + [last], out, at)
    ensures last != [] ==> Surviving(fs + [last], out + last, at + [|fs|])
  {
    if last != [] {
      assert last == [last[0]];
    }
  }

  lemma {:induction false} FlattenSurvivors<T>(fs: seq<seq<T>>)
    requires forall i | 0 <= i < |fs| :: |fs[i]| <= 1
    ensures Surviving(fs, Flatten(fs), Survivors(fs))
    decreases |fs|
  {
    if fs != [] {
      var init, last := fs[..|fs| - 1], fs[|fs| - 1];
      FlattenSurvivors(init);
      SurvivorStep(init, last, Flatten(init), Survivors(init));
      assert init + [last] == fs;
    }
  }

  lemma {:induction false} SurvivorsAll<T>(fs: seq<seq<T>>, i: nat)
    requires i < |fs| && fs[i] != []
    ensures i in Survivors(fs)
    decreases |fs|
  {
    if i < |fs| - 1 { SurvivorsAll(fs[..|fs| - 1], i); }
  }

  /** The result is the surviving entries in order, each unchanged unless it stands for its group. */
  lemma DedupeInOrder(es: seq<Entry>)
    ensures var at := Survivors(AllFates(es));
      && |Dedupe(es)| == |at| && (forall j, k | 0 <= j < k < |at| :: at[j] < at[k])
      && (forall k | 0 <= k < |at| :: at[k] < |es| && [Dedupe(es)[k]] == Fate(es, at[k]))
      && (forall i | 0 <= i < |es| && !Duplicated(Ids(es), Ids(es)[i]) :: i in at && Fate(es, i) == [es[i]])
  {
    FlattenSurvivors(AllFates(es));
    forall i | 0 <= i < |es| && !Duplicated(Ids(es), Ids(es)[i]) ensures i in Survivors(AllFates(es)) {
      SurvivorsAll(AllFates(es), i);
    }
  }

  predicate NoDuplicates(ids: seq<string>) {
    forall i, j | 0 <= i < j < |ids| :: ids[i] != "" ==> ids[i] != ids[j]
  }

  lemma SharedIsDuplicated(ids: seq<string>, i: nat, j: nat)
    requires i < j < |ids| && ids[i] == ids[j] != ""
    ensures Duplicated(ids, ids[i])
  {
    GroupMembers(ids, ids[i], |ids|);
    var g := Members(ids, ids[i]);
    assert i in g && j in g;
    var a :| 0 <= a < |g| && g[a] == i;
    var b :| 0 <= b < |g| && g[b] == j;
  }

  lemma DuplicatedIsShared(ids: seq<string>, id: string)
    requires Duplicated(ids, id)
    ensures !NoDuplicates(ids)
  {
    GroupMembers(ids, id, |ids|);
    GroupOrder(ids, id, |ids|);
    var g := Members(ids, id);
    assert g[0] in g && g[1] in g && g[0] < g[1];
  }

  lemma FateAlone(es: seq<Entry>, i: nat, j: nat)
    requires i < j < |es| && Ids(es)[i] == Ids(es)[j] != ""
    ensures Fate(es, i) == [] || Fate(es, j) == []
  {
    SharedIsDuplicated(Ids(es), i, j);
  }

  /** No two entries of the result share an identity. */
  lemma DedupeLeavesNone(es: seq<Entry>)
    requires AttrsDistinct(es)
    ensures NoDuplicates(Ids(Dedupe(es)))
  {
    DedupeInOrder(es);
    var r, at := Dedupe(es), Survivors(AllFates(es));
    forall i, j | 0 <= i < j < |r| && Ids(r)[i] != "" ensures Ids(r)[i] != Ids(r)[j] {
      FateIdentity(es, at[i]);
      FateIdentity(es, at[j]);
      assert Fate(es, at[i]) == [r[i]] && Fate(es, at[j]) == [r[j]];
      if Ids(es)[at[i]] == Ids(es)[at[j]] {
        FateAlone(es, at[i], at[j]);
      }
    }
  }

  lemma {:induction false} FlattenSingles<T>(fs: seq<seq<T>>, xs: seq<T>)
    requires |fs| == |xs| && forall i | 0 <= i < |fs| :: fs[i] == [xs[i]]
    ensures Flatten(fs) == xs
    decreases |fs|
  {
    if fs != [] { FlattenSingles(fs[..|fs| - 1], xs[..|xs| - 1]); }
  }

  /** Deduplicating twice is deduplicating once. */
  lemma DedupeTwice(es: seq<Entry>)
    requires AttrsDistinct(es)
    ensures Dedupe(Dedupe(es)) == Dedupe(es)
  {
    DedupeLeavesNone(es);
    var r := Dedupe(es);
    forall i | 0 <= i < |r| ensures Fate(r, i) == [r[i]] {
      if Duplicated(Ids(r), Ids(r)[i]) {
        DuplicatedIsShared(Ids(r), Ids(r)[i]);
      }
    }
    FlattenSingles(AllFates(r), r);
  }

  // -------------------------------------------------------------------------- the loops

  /** Identities in order of first appearance, with the positions of each. */
  ghost predicate Grouped(ids: seq<string>, order: seq<string>, groups: map<string, seq<nat>>, n: nat)
    requires n <= |ids|
  {
    && (forall id :: id in order <==> id in groups)
    && (forall i, j | 0 <= i < j < |order| :: order[i] != order[j])
    && (forall id | id in groups :: id != "" && groups[id] == Group(ids, id, n))
    && (forall k | 0 <= k < n && ids[k] != "" :: ids[k] in groups)
  }

  method GroupByIdentity(ids: seq<string>) returns (order: seq<string>, groups: map<string, seq<nat>>)
    ensures Grouped(ids, order, groups, |ids|)
  {
    order, groups := [], map[];
    for i := 0 to |ids|
      invariant Grouped(ids, order, groups, i)
    {
      var id := ids[i];
      GroupedStep(ids, order, groups, i);
      order, groups := Extended(order, groups, id), Placed(groups, id, i);
    }
  }

  function Extended(order: seq<string>, groups: map<string, seq<nat>>, id: string): seq<string> {
    if id == "" || id in groups then order else order + [id]
  }

  function Placed(groups: map<string, seq<nat>>, id: string, n: nat): map<string, seq<nat>> {
    if id == "" then groups else groups[id := (if id in groups then groups[id] else []) + [n]]
  }

  lemma GroupedStep(ids: seq<string>, order: seq<string>, groups: map<string, seq<nat>>, n: nat)
    requires n < |ids| && Grouped(ids, order, groups, n)
    ensures Grouped(ids, Extended(order, groups, ids[n]), Placed(groups, ids[n], n), n + 1)
  {
    NewGroup(ids, ids[n], n, groups);
    var order', groups' := Extended(order, groups, ids[n]), Placed(groups, ids[n], n);
    forall id ensures id in order' <==> id in groups' {
      assert id in order' <==> id in order || (id == ids[n] && id != "");
    }
    forall id | id in groups' ensures id != "" && groups'[id] == Group(ids, id, n + 1) {
      assert id != ids[n] ==> Group(ids, id, n + 1) == Group(ids, id, n);
    }
  }

  /** An identity not met yet has no position so far. */
  lemma {:induction false} NewGroup(ids: seq<string>, id: string, n: nat, groups: map<string, seq<nat>>)
    requires n <= |ids| && forall k | 0 <= k < n && ids[k] != "" :: ids[k] in groups
    ensures id != "" && id !in groups ==> Group(ids, id, n) == []
  {
    if id != "" && id !in groups && Group(ids, id, n) != [] {
      GroupMembers(ids, id, n);
      assert Group(ids, id, n)[0] in Group(ids, id, n);
    }
  }

  function Positions(s: seq<nat>): set<nat> { set i | i in s }

  /** The members of a group but its best one. */
  function Losers(es: seq<Entry>, id: string): set<nat>
    requires Members(Ids(es), id) != []
  { Positions(Members(Ids(es), id)) - {Ranking(es, id)[0]} }

  lemma PositionsSnoc(s: seq<nat>, x: nat)
    ensures Positions(s + [x]) == Positions(s) + {x}
  {}

  lemma AboveAll(init: seq<nat>, last: nat)
    requires forall i | 0 <= i < |init| :: init[i] < last
    ensures last !in init && last !in Positions(init)
  {}

  lemma {:induction false} IncreasingSize(s: seq<nat>)
    requires forall i, j | 0 <= i < j < |s| :: s[i] < s[j]
    ensures |Positions(s)| == |s|
  {
    if s != [] {
      var init, last := s[..|s| - 1], s[|s| - 1];
      IncreasingSize(init);
      PositionsSnoc(init, last);
      AboveAll(init, last);
      assert s == init + [last];
    }
  }

  lemma LosersSize(es: seq<Entry>, id: string)
    requires Members(Ids(es), id) != []
    ensures |Losers(es, id)| == |Members(Ids(es), id)| - 1
  {
    var m, best := Members(Ids(es), id), Ranking(es, id)[0];
    GroupOrder(Ids(es), id, |es|);
    IncreasingSize(m);
    assert best in Ranking(es, id);
    RankingMember(es, id, best);
    GroupMembers(Ids(es), id, |es|);
    assert best in Positions(m);
  }

  /** In a duplicate group, but not its best entry. */
  predicate Loses(es: seq<Entry>, i: nat)
    requires i < |es|
  { Duplicated(Ids(es), Ids(es)[i]) && i != Ranking(es, Ids(es)[i])[0] }

  predicate Wins(es: seq<Entry>, i: nat)
    requires i < |es|
  { Duplicated(Ids(es), Ids(es)[i]) && i == Ranking(es, Ids(es)[i])[0] }

  function LoserSet(es: seq<Entry>): set<nat> { set i | 0 <= i < |es| && Loses(es, i) }

  /** The survivors of the groups, with what replaces them. */
  function Winners(es: seq<Entry>): map<nat, Entry> { map i | 0 <= i < |es| && Wins(es, i) :: Merged(es, Ids(es)[i]) }

  /** Positions removed and replaced for the identities in `done`. */
  ghost predicate Merging(
      ids: seq<string>, losers: set<nat>, winners: map<nat, Entry>, done: seq<string>,
      replacements: map<nat, Entry>, removals: set<nat>)
    requires (forall i | i in losers :: i < |ids|) && (forall i | i in winners :: i < |ids|)
  {
    && (forall i :: i in removals <==> i in losers && ids[i] in done)
    && (forall i :: i in replacements <==> i in winners && ids[i] in done)
    && (forall i | i in replacements :: replacements[i] == winners[i])
  }

  lemma MergeStep(
      ids: seq<string>, losers: set<nat>, winners: map<nat, Entry>, done: seq<string>, id: string,
      replacements: map<nat, Entry>, removals: set<nat>, best: nat, lost: set<nat>)
    requires (forall i | i in losers :: i < |ids|) && (forall i | i in winners :: i < |ids|)
    requires Merging(ids, losers, winners, done, replacements, removals) && id !in done
    requires forall i :: i in lost <==> i in losers && ids[i] == id
    requires best in winners && forall i | i in winners && ids[i] == id :: i == best
    requires ids[best] == id
    ensures Merging(ids, losers, winners, done + [id], replacements[best := winners[best]], removals + lost)
    ensures removals !! lost
  {
    assert forall x :: x in done + [id] <==> x in done || x == id;
  }

  lemma SkipStep(
      ids: seq<string>, losers: set<nat>, winners: map<nat, Entry>, done: seq<string>, id: string,
      replacements: map<nat, Entry>, removals: set<nat>)
    requires (forall i | i in losers :: i < |ids|) && (forall i | i in winners :: i < |ids|)
    requires Merging(ids, losers, winners, done, replacements, removals)
    requires (forall i | i in losers :: ids[i] != id) && (forall i | i in winners :: ids[i] != id)
    ensures Merging(ids, losers, winners, done + [id], replacements, removals)
  {
    assert forall x :: x in done + [id] <==> x in done || x == id;
  }

  lemma LosersOfGroup(es: seq<Entry>, id: string)
    requires Duplicated(Ids(es), id)
    ensures forall i :: i in Losers(es, id) <==> i in LoserSet(es) && Ids(es)[i] == id
  {
    GroupMembers(Ids(es), id, |es|);
  }

  lemma WinnerOfGroup(es: seq<Entry>, id: string)
    requires Duplicated(Ids(es), id)
    ensures var best := Ranking(es, id)[0];
      && best in Winners(es) && Ids(es)[best] == id && Winners(es)[best] == Merged(es, id)
      && forall i | i in Winners(es) && Ids(es)[i] == id :: i == best
  {
    assert Ranking(es, id)[0] in Ranking(es, id);
    RankingMember(es, id, Ranking(es, id)[0]);
  }

  function Empties<T(==)>(fs: seq<seq<T>>): set<nat> { set i | 0 <= i < |fs| && fs[i] == [] }

  lemma {:induction false} FlattenCount<T>(fs: seq<seq<T>>)
    requires forall i | 0 <= i < |fs| :: |fs[i]| <= 1
    ensures |Flatten(fs)| + |Empties(fs)| == |fs|
    decreases |fs|
  {
    if fs == [] {
      assert Empties(fs) == {};
    } else {
      var init, last := fs[..|fs| - 1], fs[|fs| - 1];
      FlattenCount(init);
      assert fs == init + [last];
      EmptiesSnoc(init, last);
    }
  }

  lemma EmptiesSnoc<T>(init: seq<seq<T>>, last: seq<T>)
    ensures |Empties(init + [last])| == |Empties(init)| + if last == [] then 1 else 0
  {
    var fs := init + [last];
    assert Empties(fs) == Empties(init) + if last == [] then {|init|} else {};
  }

  /** The attributes of the best-ranked entry, filled from the others in turn. */
  method MergeRanked(es: seq<Entry>, ranked: seq<nat>) returns (merged: AttrMap)
    requires Within(ranked, es) && ranked != []
    ensures var all := AttrsAt(es, ranked); all != [] && merged == MergedAttrs(all[0], all[1..])
  {
    assert ranked[0] in ranked;
    merged := AttrsOf(es[ranked[0]]);
    var rest := ranked[1..];
    assert forall x | x in rest :: x in ranked;
    while rest != []
      invariant Within(rest, es) && MergedAttrs(merged, AttrsAt(es, rest)) == MergedAttrs(AttrsAt(es, ranked)[0], AttrsAt(es, ranked)[1..])
      decreases |rest|
    {
      assert rest[0] in rest && forall x | x in rest[1..] :: x in rest;
      merged := Fill(merged, AttrsOf(es[rest[0]]));
      assert AttrsAt(es, rest)[1..] == AttrsAt(es, rest[1..]);
      rest := rest[1..];
    }
  }

  method Fill(base: AttrMap, attrs: AttrMap) returns (merged: AttrMap)
    ensures merged == FillFrom(base, attrs)
  {
    merged := base;
    var rest := attrs;
    while rest != []
      invariant FillFrom(merged, rest) == FillFrom(base, attrs)
      decreases |rest|
    {
      if Blank(merged, rest[0].key) {
        merged := Put(merged, rest[0].key, rest[0].value);
      }
      rest := rest[1..];
    }
  }

  ghost predicate CanonicalOf(es: seq<Entry>, done: seq<string>, canonical: seq<string>) {
    && (forall id :: id in canonical <==> id in done && Duplicated(Ids(es), id))
    && (forall i, j | 0 <= i < j < |canonical| :: canonical[i] != canonical[j])
  }

  lemma CanonicalStep(es: seq<Entry>, done: seq<string>, canonical: seq<string>, id: string)
    requires CanonicalOf(es, done, canonical) && id !in done
    ensures CanonicalOf(es, done + [id], if Duplicated(Ids(es), id) then canonical + [id] else canonical)
  {
    assert forall x :: x in done + [id] <==> x in done || x == id;
    assert forall x :: x in canonical + [id] <==> x in canonical || x == id;
  }

  method MergeGroup(es: seq<Entry>, ghost done: seq<string>, id: string, before: map<nat, Entry>, gone: set<nat>)
    returns (replacements: map<nat, Entry>, removals: set<nat>)
    requires Merging(Ids(es), LoserSet(es), Winners(es), done, before, gone)
    requires Duplicated(Ids(es), id) && id !in done
    ensures Merging(Ids(es), LoserSet(es), Winners(es), done + [id], replacements, removals)
    ensures |removals| == |gone| + |Members(Ids(es), id)| - 1
  {
    var ranked := Ranking(es, id);
    var merged := MergeRanked(es, ranked);
    LosersOfGroup(es, id);
    WinnerOfGroup(es, id);
    LosersSize(es, id);
    MergeStep(Ids(es), LoserSet(es), Winners(es), done, id, before, gone, ranked[0], Losers(es, id));
    replacements := before[ranked[0] := Entry("DOM", id, Pairs(merged))];
    removals := gone + Losers(es, id);
  }

  lemma SkipGroup(es: seq<Entry>, done: seq<string>, id: string, replacements: map<nat, Entry>, removals: set<nat>)
    requires Merging(Ids(es), LoserSet(es), Winners(es), done, replacements, removals) && !Duplicated(Ids(es), id)
    ensures Merging(Ids(es), LoserSet(es), Winners(es), done + [id], replacements, removals)
  {
    SkipStep(Ids(es), LoserSet(es), Winners(es), done, id, replacements, removals);
  }

  lemma AllMerged(
      ids: seq<string>, losers: set<nat>, winners: map<nat, Entry>, order: seq<string>,
      replacements: map<nat, Entry>, removals: set<nat>)
    requires (forall i | i in losers :: i < |ids|) && (forall i | i in winners :: i < |ids|)
    requires Merging(ids, losers, winners, order, replacements, removals)
    requires (forall i | i in losers :: ids[i] in order) && (forall i | i in winners :: ids[i] in order)
    ensures removals == losers && replacements == winners
  {}

  lemma FateByCase(es: seq<Entry>, i: nat)
    requires i < |es|
    ensures Fate(es, i)
         == if i in LoserSet(es) then [] else if i in Winners(es) then [Winners(es)[i]] else [es[i]]
  {}

  lemma AllFatesByCase(es: seq<Entry>, replacements: map<nat, Entry>, removals: set<nat>, fates: seq<seq<Entry>>)
    requires replacements == Winners(es) && removals == LoserSet(es) && fates == AllFates(es)
    ensures forall i | 0 <= i < |es| ::
      fates[i] == if i in removals then [] else if i in replacements then [replacements[i]] else [es[i]]
  {
    forall i | 0 <= i < |es|
      ensures fates[i] == if i in removals then [] else if i in replacements then [replacements[i]] else [es[i]] {
      FateByCase(es, i);
    }
  }

  lemma LosersAreEmpty(es: seq<Entry>)
    ensures Empties(AllFates(es)) == LoserSet(es)
  {
    assert forall i | 0 <= i < |es| :: AllFates(es)[i] == Fate(es, i);
  }

  method MergeGroups(es: seq<Entry>, order: seq<string>, groups: map<string, seq<nat>>)
    returns (replacements: map<nat, Entry>, removals: set<nat>, removed: nat, canonical: seq<string>, clash: bool)
    requires forall id | id in order :: id in groups && id != "" && groups[id] == Members(Ids(es), id)
    requires forall i, j | 0 <= i < j < |order| :: order[i] != order[j]
    ensures Merging(Ids(es), LoserSet(es), Winners(es), order, replacements, removals)
    ensures |removals| == removed && CanonicalOf(es, order, canonical)
    ensures clash <==> exists id :: id in order && Clashes(es, id)
  {
    replacements, removals, removed, canonical, clash := map[], {}, 0, [], false;
    var rest := order;
    ghost var done := [];
    while rest != []
      invariant done + rest == order
      invariant Merging(Ids(es), LoserSet(es), Winners(es), done, replacements, removals)
      invariant |removals| == removed && CanonicalOf(es, done, canonical)
      invariant clash <==> exists id :: id in done && Clashes(es, id)
      decreases |rest|
    {
      var id := rest[0];
      NextInOrder(order, done, rest);
      CanonicalStep(es, done, canonical, id);
      if |groups[id]| >= 2 {
        replacements, removals := MergeGroup(es, done, id, replacements, removals);
        removed := removed + |groups[id]| - 1;
        canonical := canonical + [id];
        clash := clash || BestOf(es, id).payload.Body?;
      } else {
        SkipGroup(es, done, id, replacements, removals);
      }
      ShiftHead(done, rest);
      assert forall x :: x in done + [id] <==> x in done || x == id;
      done, rest := done + [id], rest[1..];
    }
    assert done == order;
  }

  lemma NextInOrder(order: seq<string>, done: seq<string>, rest: seq<string>)
    requires done + rest == order && rest != []
    requires forall i, j | 0 <= i < j < |order| :: order[i] != order[j]
    ensures rest[0] in order && rest[0] !in done
  {
    assert order[|done|] == rest[0];
    forall i | 0 <= i < |done| ensures done[i] != rest[0] {
      assert order[i] == done[i];
    }
  }

  /** Copies the entries that stay, each replaced where a merge stands for it. */
  method Rebuild(es: seq<Entry>, replacements: map<nat, Entry>, removals: set<nat>, ghost fates: seq<seq<Entry>>)
    returns (rebuilt: seq<Entry>)
    requires |fates| == |es|
    requires forall i | 0 <= i < |es| ::
      fates[i] == if i in removals then [] else if i in replacements then [replacements[i]] else [es[i]]
    ensures rebuilt == Flatten(fates)
  {
    rebuilt := [];
    for i := 0 to |es|
      invariant rebuilt == Flatten(fates[..i])
    {
      assert fates[..i + 1][..i] == fates[..i];
      if i !in removals {
        rebuilt := rebuilt + [if i in replacements then replacements[i] else es[i]];
      }
    }
    assert fates[..|es|] == fates;
  }

  /** The section's new entries, how many are gone, the identities that were merged, and whether one cannot be written. */
  method DedupeEntries(es: seq<Entry>)
    returns (rebuilt: seq<Entry>, removed: nat, canonical: seq<string>, clash: bool)
    ensures clash <==> exists id :: Clashes(es, id)
    ensures rebuilt == Dedupe(es) && |rebuilt| + removed == |es|
    ensures forall id :: id in canonical <==> Duplicated(Ids(es), id)
    ensures forall i, j | 0 <= i < j < |canonical| :: canonical[i] != canonical[j]
  {
    var replacements, removals;
    replacements, removals, removed, canonical, clash := PlanMerges(es);
    AllFatesByCase(es, replacements, removals, AllFates(es));
    rebuilt := Rebuild(es, replacements, removals, AllFates(es));
    FlattenCount(AllFates(es));
    LosersAreEmpty(es);
  }

  /** The groups, and what their merges replace and remove. */
  method PlanMerges(es: seq<Entry>)
    returns (replacements: map<nat, Entry>, removals: set<nat>, removed: nat, canonical: seq<string>, clash: bool)
    ensures replacements == Winners(es) && removals == LoserSet(es) && |removals| == removed
    ensures clash <==> exists id :: Clashes(es, id)
    ensures forall id :: id in canonical <==> Duplicated(Ids(es), id)
    ensures forall i, j | 0 <= i < j < |canonical| :: canonical[i] != canonical[j]
  {
    var order, groups := GroupByIdentity(Ids(es));
    replacements, removals, removed, canonical, clash := MergeGroups(es, order, groups);
    OrderCovers(es, order, groups);
    AllMerged(Ids(es), LoserSet(es), Winners(es), order, replacements, removals);
  }

  lemma OrderCovers(es: seq<Entry>, order: seq<string>, groups: map<string, seq<nat>>)
    requires Grouped(Ids(es), order, groups, |es|)
    ensures forall i | 0 <= i < |es| && Duplicated(Ids(es), Ids(es)[i]) :: Ids(es)[i] in order
    ensures forall id | Duplicated(Ids(es), id) :: id in order
  {
    forall id | Duplicated(Ids(es), id) ensures id in order {
      GroupMembers(Ids(es), id, |es|);
      assert Members(Ids(es), id)[0] in Members(Ids(es), id);
    }
  }
}
