/** What the deduplication decides of each workspace record, told in the record's own fields. */
module DomEffects {
  import opened Text
  import opened Attrs
  import opened CortexModel
  import opened CortexReader
  import opened DomDedupe

  // -------------------------------------------------------------------------- identity

  /** A normalised name is the stripped one with letters lowered and everything outside `[a-z0-9_]` an underscore. */
  lemma NormalizeSays(name: string)
    ensures |Normalize(name)| == |Strip(name)|
    ensures forall i | 0 <= i < |Strip(name)| ::
      var c := Strip(name)[i];
      Normalize(name)[i] == if 'A' <= c <= 'Z' then c + 32 as char else if IsDomChar(c) then c else '_'
  {
    LoweredSays(Strip(name));
  }

  lemma {:induction false} LoweredSays(s: string)
    ensures |Underscored(Lower(s))| == |s|
    ensures forall i | 0 <= i < |s| ::
      Underscored(Lower(s))[i] == if 'A' <= s[i] <= 'Z' then s[i] + 32 as char else if IsDomChar(s[i]) then s[i] else '_'
  {
    if s != "" {
      LoweredSays(s[1..]);
      assert ([LowerChar(s[0])] + Lower(s[1..]))[1..] == Lower(s[1..]);
    }
  }

  /** A record is known by its declared name, and by its entry name when it declares none. */
  lemma IdentitySays(e: Entry, declared: string)
    ensures e.sigil != "DOM" ==> Identity(e) == ""
    ensures e.sigil == "DOM" && e.payload.Body? ==> Identity(e) == Normalize(e.name)
    ensures e.sigil == "DOM" && e.payload.Pairs? ==> var v := ValueOf(e.payload.attrs, "name");
      && (v.None? || v.value == VNone || v.value == VStr("") ==> Identity(e) == Normalize(e.name))
      && (v == Some(VStr(declared)) && declared != "" ==> Identity(e) == Normalize(declared))
  {}

  // --------------------------------------------------------------------------- ranking

  predicate HasPath(e: Entry) { Strip(TextOr(AttrsOf(e), "path", "")) != "" }

  /** The places of the attributes with a value. */
  function FilledAt(attrs: AttrMap): set<nat> {
    set i: nat | i < |attrs| && attrs[i].value != VNone && attrs[i].value != VStr("")
  }

  function Later(at: set<nat>): set<nat> { set i | i in at :: i + 1 }

  lemma FilledCons(attrs: AttrMap)
    requires attrs != []
    ensures FilledAt(attrs) == (if Filled(attrs[0].value) then {0} else {}) + Later(FilledAt(attrs[1..]))
  {
    forall i: nat | i in FilledAt(attrs) && i > 0 ensures i in Later(FilledAt(attrs[1..])) {
      assert i - 1 in FilledAt(attrs[1..]);
    }
  }

  lemma {:induction false} FilledCounted(attrs: AttrMap)
    ensures CountFilled(attrs) == |FilledAt(attrs)|
  {
    if attrs == [] {
      assert FilledAt(attrs) == {};
    } else {
      FilledCounted(attrs[1..]);
      FilledCons(attrs);
      LaterSize(FilledAt(attrs[1..]));
    }
  }

  lemma LaterWithout(at: set<nat>, x: nat)
    requires x in at
    ensures Later(at) == Later(at - {x}) + {x + 1} && x + 1 !in Later(at - {x})
  {
    forall y | y in Later(at) && y != x + 1 ensures y in Later(at - {x}) {
      assert y - 1 in at - {x};
    }
  }

  lemma {:induction false} LaterSize(at: set<nat>)
    ensures |Later(at)| == |at| && 0 !in Later(at)
  {
    if at == {} {
      assert Later(at) == {};
    } else {
      var x :| x in at;
      LaterSize(at - {x});
      LaterWithout(at, x);
    }
  }

  /**
   * The record that stands for its group is the best: it is named by the identity if any is; of those alike in
   * that, it has a path if any has; then the most values; then the latest update; then it is the first.
   */
  predicate AtLeast(a: Entry, i: nat, b: Entry, j: nat, id: string) {
    var named, named' := Normalize(a.name) == id, Normalize(b.name) == id;
    var n, n' := |FilledAt(AttrsOf(a))|, |FilledAt(AttrsOf(b))|;
    var updated, updated' := TextOr(AttrsOf(a), "updated", ""), TextOr(AttrsOf(b), "updated", "");
    && (named' ==> named)
    && (named == named' ==>
          && (HasPath(b) ==> HasPath(a))
          && (HasPath(a) == HasPath(b) ==>
                n' <= n && (n == n' ==> StrLe(updated', updated) && (updated == updated' ==> i <= j))))
  }

  lemma LeadsSays(es: seq<Entry>, id: string, a: nat, b: nat)
    requires a < |es| && b < |es| && (Leads(es, id, a, b) || a == b)
    ensures AtLeast(es[a], a, es[b], b, id)
  {
    FilledCounted(AttrsOf(es[a]));
    FilledCounted(AttrsOf(es[b]));
    StrLeOrder(TextOr(AttrsOf(es[a]), "updated", ""), TextOr(AttrsOf(es[b]), "updated", ""), "");
  }

  lemma BestIsBest(es: seq<Entry>, id: string, j: nat)
    requires Members(Ids(es), id) != [] && j < |es| && Identity(es[j]) == id
    ensures var best := Ranking(es, id)[0];
      best < |es| && Identity(es[best]) == id && AtLeast(es[best], best, es[j], j, id)
  {
    var r := Ranking(es, id);
    assert r[0] in r;
    RankingMember(es, id, r[0]);
    RankingMember(es, id, j);
    GroupOrder(Ids(es), id, |es|);
    RankedInOrder(es, id, Members(Ids(es), id));
    assert j in r && r == [r[0]] + r[1..];
    LeadsSays(es, id, r[0], j);
  }

  // --------------------------------------------------------------------------- merging

  /** No value for the key. */
  predicate NoValue(e: Entry, k: string) {
    var v := ValueOf(AttrsOf(e), k);
    v.None? || v.value == VNone || v.value == VStr("")
  }

  predicate AllWithout(es: seq<Entry>, at: seq<nat>, k: string) { forall i | i in at :: i < |es| && NoValue(es[i], k) }

  /** The first of the records with a value for the key, behind those without one. */
  lemma {:induction false} FirstFilledSays(es: seq<Entry>, at: seq<nat>, k: string)
    returns (skipped: seq<nat>, rest: seq<nat>)
    requires Within(at, es)
    ensures at == skipped + rest && AllWithout(es, skipped, k)
    ensures var first := FirstFilled(AttrsAt(es, at), k);
      && (rest == [] ==> first.None?)
      && (rest != [] ==>
            rest[0] < |es| && !NoValue(es[rest[0]], k) && first == ValueOf(AttrsOf(es[rest[0]]), k))
  {
    skipped, rest := [], at;
    if at != [] {
      assert at[0] in at && forall x | x in at[1..] :: x in at;
      if NoValue(es[at[0]], k) {
        skipped, rest := FirstFilledSays(es, at[1..], k);
        skipped := [at[0]] + skipped;
        assert at == [at[0]] + at[1..];
      }
    }
  }

  /** What stands for a group: a record named by the identity, each value that of the best record that has one. */
  lemma MergedSays(es: seq<Entry>, id: string, k: string) returns (skipped: seq<nat>, rest: seq<nat>)
    requires AttrsDistinct(es) && Members(Ids(es), id) != []
    ensures var m := Merged(es, id);
      && m.sigil == "DOM" && m.name == id && m.payload.Pairs?
      && Ranking(es, id) == skipped + rest && AllWithout(es, skipped, k)
      && (rest == [] ==> NoValue(m, k))
      && (rest != [] ==>
            && rest[0] < |es| && !NoValue(es[rest[0]], k)
            && ValueOf(m.payload.attrs, k) == ValueOf(AttrsOf(es[rest[0]]), k))
  {
    skipped, rest := FirstFilledSays(es, Ranking(es, id), k);
    MergedAttribute(es, id, k);
  }

  /** Every group is in the result once, where its best record stood, and the rest of the group is not. */
  lemma GroupSurvives(es: seq<Entry>, id: string) returns (k: nat)
    requires Duplicated(Ids(es), id)
    ensures var at := Survivors(AllFates(es));
      && k < |Dedupe(es)| == |at| && at[k] == Ranking(es, id)[0] && Dedupe(es)[k] == Merged(es, id)
      && forall i | 0 <= i < |es| && Identity(es[i]) == id && i != at[k] :: i !in at
  {
    var fs := AllFates(es);
    var at, best := Survivors(fs), Ranking(es, id)[0];
    assert best in Ranking(es, id);
    RankingMember(es, id, best);
    assert Fate(es, best) == [Merged(es, id)];
    SurvivorsAll(fs, best);
    DedupeInOrder(es);
    k :| 0 <= k < |at| && at[k] == best;
    forall i | 0 <= i < |es| && Identity(es[i]) == id && i != best ensures i !in at {
      assert fs[i] == Fate(es, i) == [];
    }
  }

  /** No project is lost: every identity there was is still there. */
  lemma IdentitiesStay(es: seq<Entry>, i: nat)
    requires AttrsDistinct(es) && i < |es|
    ensures exists k :: 0 <= k < |Dedupe(es)| && Identity(Dedupe(es)[k]) == Identity(es[i])
  {
    var id := Identity(es[i]);
    assert Ids(es)[i] == id;
    if Duplicated(Ids(es), id) {
      var k := GroupSurvives(es, id);
      MergedIdentity(es, id);
      assert Identity(Dedupe(es)[k]) == id;
    } else {
      DedupeInOrder(es);
      var at := Survivors(AllFates(es));
      var k :| 0 <= k < |at| && at[k] == i;
      assert [Dedupe(es)[k]] == [es[i]];
    }
  }
}
