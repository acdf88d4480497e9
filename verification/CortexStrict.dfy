/** Laws of strict normalisation: coverage, freshness, conservation. */
module CortexStrict {
  import opened Text
  import opened Attrs
  import opened CortexModel
  import opened CortexWriter

  // ------------------------------------------------------------ sigils in order

  lemma LessTransitive(a: string, b: string, c: string)
    requires Less(a, b) && Less(b, c)
    ensures Less(a, c)
  {
    StrLeOrder(a, b, c);
    StrLeOrder(b, c, a);
  }

  lemma LessTotal(a: string, b: string)
    ensures a == b || Less(a, b) || Less(b, a)
  {
    StrLeOrder(a, b, a);
  }

  predicate Ascending(keys: seq<string>) {
    keys == [] || ((forall k | k in keys[1..] :: Less(keys[0], k)) && Ascending(keys[1..]))
  }

  lemma {:induction false} InsertKeyMembers(keys: seq<string>, k: string, x: string)
    ensures x in InsertKey(keys, k) <==> x in keys || x == k
  {
    if keys != [] { InsertKeyMembers(keys[1..], k, x); }
  }

  lemma {:induction false} InsertKeyAscending(keys: seq<string>, k: string)
    requires Ascending(keys)
    ensures Ascending(InsertKey(keys, k))
  {
    if keys == [] || keys[0] == k {
    } else if Less(k, keys[0]) {
      assert ([k] + keys)[1..] == keys;
      forall x | x in keys ensures Less(k, x) {
        if x != keys[0] {
          assert x in keys[1..];
          LessTransitive(k, keys[0], x);
        }
      }
    } else {
      LessTotal(k, keys[0]);
      InsertKeyAscending(keys[1..], k);
      forall x | x in InsertKey(keys[1..], k) ensures Less(keys[0], x) {
        InsertKeyMembers(keys[1..], k, x);
      }
    }
  }

  lemma {:induction false} UsedSigilsSound(entries: seq<Entry>, x: string)
    ensures Ascending(UsedSigils(entries))
    ensures x in UsedSigils(entries) <==> x != "" && exists e :: e in entries && e.sigil == x
  {
    if entries != [] {
      UsedSigilsSound(entries[1..], x);
      if entries[0].sigil != "" {
        InsertKeyAscending(UsedSigils(entries[1..]), entries[0].sigil);
        InsertKeyMembers(UsedSigils(entries[1..]), entries[0].sigil, x);
      }
      assert entries[0] in entries;
    }
  }

  // ------------------------------------------------------- generated declarations

  predicate DeclaredIn(entries: seq<Entry>, sigil: string) {
    exists g :: g in entries && Declares(g) && g.sigil == sigil
  }

  lemma {:induction false} GeneratedCovers(sigils: seq<string>, entries: seq<Entry>, declared: set<string>,
                                           cache: Cache, x: string)
    requires x in sigils && x !in declared
    ensures DeclaredIn(Generated(sigils, entries, declared, cache), x)
  {
    var out := Generated(sigils, entries, declared, cache);
    if sigils[0] == x {
      assert out[0].sigil == x && out[0] in out;
    } else {
      GeneratedCovers(sigils[1..], entries, declared, cache, x);
      var more := Generated(sigils[1..], entries, declared, cache);
      var g :| g in more && Declares(g) && g.sigil == x;
      assert g in out;
    }
  }

  lemma {:induction false} GeneratedFresh(sigils: seq<string>, entries: seq<Entry>, declared: set<string>, cache: Cache)
    requires Ascending(sigils)
    ensures var out := Generated(sigils, entries, declared, cache);
      && (forall g | g in out :: Declares(g) && g.sigil in sigils && g.sigil !in declared)
      && (forall i, j :: 0 <= i < j < |out| ==> out[i].sigil != out[j].sigil)
  {
    if sigils != [] {
      GeneratedFresh(sigils[1..], entries, declared, cache);
    }
  }

  lemma {:induction false} AllEntriesMember(sections: seq<Section>, sec: Section, e: Entry)
    requires sec in sections && e in sec.entries
    ensures e in AllEntries(sections)
  {
    if sections[0] != sec { AllEntriesMember(sections[1..], sec, e); }
  }

  /** Every sigil used in an emitted section is declared in the emitted glossary. */
  lemma StrictCovers(doc: Document, cache: Cache, sec: Section, e: Entry)
    requires sec in StrictPlan(doc, cache).sections && e in sec.entries && e.sigil != ""
    ensures DeclaredIn(Glossaries(StrictPlan(doc, cache)), e.sigil)
  {
    var p := StrictPlan(doc, cache);
    var entries := AllEntries(p.sections);
    AllEntriesMember(p.sections, sec, e);
    UsedSigilsSound(entries, e.sigil);
    var declared := DeclaredSigils(p.kept) + DeclaredSigils(p.first);
    if e.sigil in declared {
      var g :| (g in p.kept || g in p.first) && Declares(g) && g.sigil == e.sigil;
      assert g in Glossaries(p);
    } else {
      GeneratedCovers(UsedSigils(entries), entries, declared, cache, e.sigil);
      var g :| g in p.second && Declares(g) && g.sigil == e.sigil;
      assert g in Glossaries(p);
    }
  }

  /** A generated declaration repeats neither a kept declaration nor another generated one. */
  lemma StrictFresh(doc: Document, cache: Cache)
    ensures var p := StrictPlan(doc, cache);
      var generated := p.first + p.second;
      && (forall g | g in generated :: Declares(g) && g.sigil !in DeclaredSigils(p.kept))
      && (forall i, j :: 0 <= i < j < |generated| ==> generated[i].sigil != generated[j].sigil)
  {
    var p := StrictPlan(doc, cache);
    var before, after := AllEntries(doc.sections), AllEntries(p.sections);
    UsedSigilsSound(before, "");
    UsedSigilsSound(after, "");
    GeneratedFresh(UsedSigils(before), before, DeclaredSigils(p.kept), cache);
    GeneratedFresh(UsedSigils(after), after, DeclaredSigils(p.kept) + DeclaredSigils(p.first), cache);
    forall g | g in p.first ensures g.sigil in DeclaredSigils(p.first) {}
    BothFresh(p.first, p.second, DeclaredSigils(p.first));
  }

  lemma BothFresh(first: seq<Entry>, second: seq<Entry>, declared: set<string>)
    requires (forall g | g in first :: g.sigil in declared) && forall g | g in second :: g.sigil !in declared
    requires forall i, j :: 0 <= i < j < |first| ==> first[i].sigil != first[j].sigil
    requires forall i, j :: 0 <= i < j < |second| ==> second[i].sigil != second[j].sigil
    ensures forall i, j :: 0 <= i < j < |first + second| ==> (first + second)[i].sigil != (first + second)[j].sigil
  {
    var all := first + second;
    forall i, j | 0 <= i < j < |all| ensures all[i].sigil != all[j].sigil {
      if i < |first| <= j {
        assert all[i] in first && all[j] in second;
      }
    }
  }

  // --------------------------------------------------------------- conservation

  lemma {:induction false} AllEntriesConcat(a: seq<Section>, b: seq<Section>)
    ensures AllEntries(a + b) == AllEntries(a) + AllEntries(b)
  {
    if a == [] {
      assert a + b == b;
    } else {
      assert (a + b)[1..] == a[1..] + b;
      AllEntriesConcat(a[1..], b);
    }
  }

  lemma AllEntriesUpdate(out: seq<Section>, k: nat, more: seq<Entry>)
    requires k < |out|
    ensures var out' := out[k := out[k].(entries := out[k].entries + more)];
      multiset(AllEntries(out')) == multiset(AllEntries(out)) + multiset(more)
  {
    var sec := out[k].(entries := out[k].entries + more);
    var front, back := out[..k], out[k + 1..];
    assert out == front + ([out[k]] + back) && out[k := sec] == front + ([sec] + back);
    AllEntriesConcat(front, [out[k]] + back);
    AllEntriesConcat(front, [sec] + back);
    assert ([out[k]] + back)[1..] == back && ([sec] + back)[1..] == back;
  }

  lemma MergeStepConserves(m: Merge, sec: Section)
    requires ValidMerge(m)
    ensures multiset(AllEntries(MergeStep(m, sec).out)) == multiset(AllEntries(m.out)) + multiset(sec.entries)
  {
    var r := MergeStep(m, sec);
    if IsMetadata(sec, m.at.Some?) && m.at.Some? {
      AllEntriesUpdate(m.out, m.at.value, sec.entries);
    } else {
      var last := r.out[|m.out|];
      assert r.out == m.out + [last];
      AllEntriesConcat(m.out, [last]);
      assert AllEntries([last][1..]) == [];
      assert AllEntries([last]) == sec.entries;
    }
  }

  lemma {:induction false} MergedConserves(sections: seq<Section>, m: Merge)
    requires ValidMerge(m)
    ensures multiset(AllEntries(Merged(sections, m).out)) == multiset(AllEntries(m.out)) + multiset(AllEntries(sections))
    decreases sections
  {
    if sections != [] {
      MergeStepConserves(m, sections[0]);
      MergedConserves(sections[1..], MergeStep(m, sections[0]));
    }
  }

  /** No entry is lost or repeated: sections plus moved glossary data, exactly. */
  lemma StrictConserves(doc: Document, cache: Cache)
    ensures multiset(AllEntries(StrictPlan(doc, cache).sections))
         == multiset(AllEntries(doc.sections)) + multiset(MovedSymbols(doc.symbols, cache))
  {
    var moved := MovedSymbols(doc.symbols, cache);
    var sections := WithMigrated(doc.sections, moved);
    MergedConserves(sections, Merge([], None));
    if moved != [] {
      assert sections[1..] == doc.sections;
    }
  }

  // ----------------------------------------------------------- metadata sections

  function CountId(sections: seq<Section>, id: string): nat {
    if sections == [] then 0 else (if sections[0].id == id then 1 else 0) + CountId(sections[1..], id)
  }

  /** How many `$19` sections stand before the first `$0.1`. */
  function Ahead(sections: seq<Section>): nat {
    if sections == [] || sections[0].id == "$0.1" then 0
    else (if sections[0].id == "$19" then 1 else 0) + Ahead(sections[1..])
  }

  lemma {:induction false} CountIdConcat(a: seq<Section>, b: seq<Section>, id: string)
    ensures CountId(a + b, id) == CountId(a, id) + CountId(b, id)
  {
    if a == [] {
      assert a + b == b;
    } else {
      assert (a + b)[1..] == a[1..] + b;
      CountIdConcat(a[1..], b, id);
    }
  }

  lemma CountIdUpdate(out: seq<Section>, k: nat, entries: seq<Entry>, id: string)
    requires k < |out|
    ensures CountId(out[k := out[k].(entries := entries)], id) == CountId(out, id)
  {
    var sec := out[k].(entries := entries);
    var front, back := out[..k], out[k + 1..];
    assert out == front + ([out[k]] + back) && out[k := sec] == front + ([sec] + back);
    CountIdConcat(front, [out[k]] + back, id);
    CountIdConcat(front, [sec] + back, id);
    assert ([out[k]] + back)[1..] == back && ([sec] + back)[1..] == back;
  }

  lemma {:induction false} MergedMetadata(sections: seq<Section>, m: Merge)
    requires ValidMerge(m)
    ensures var out := Merged(sections, m).out;
      && CountId(out, "$0.1") == CountId(m.out, "$0.1")
      && CountId(out, "$19") == CountId(m.out, "$19")
           + (if m.at.Some? then 0
              else Ahead(sections) + (if CountId(sections, "$0.1") > 0 then 1 else 0))
    decreases sections
  {
    if sections != [] {
      var sec := sections[0];
      var m' := MergeStep(m, sec);
      MergedMetadata(sections[1..], m');
      if IsMetadata(sec, m.at.Some?) && m.at.Some? {
        var k := m.at.value;
        CountIdUpdate(m.out, k, m.out[k].entries + sec.entries, "$19");
        CountIdUpdate(m.out, k, m.out[k].entries + sec.entries, "$0.1");
      } else {
        var last := m'.out[|m.out|];
        assert m'.out == m.out + [last];
        CountIdConcat(m.out, [last], "$19");
        CountIdConcat(m.out, [last], "$0.1");
        assert [last][1..] == [];
      }
    }
  }

  /**
   * Strict output holds no `$0.1`, and exactly the `$19` sections that stood ahead of the
   * first `$0.1` plus the one it became: one at most exactly when no `$19` comes first.
   */
  lemma StrictMetadata(doc: Document, cache: Cache)
    ensures var sections := WithMigrated(doc.sections, MovedSymbols(doc.symbols, cache));
      var out := StrictPlan(doc, cache).sections;
      && CountId(out, "$0.1") == 0
      && CountId(out, "$19") == Ahead(sections) + (if CountId(sections, "$0.1") > 0 then 1 else 0)
  {
    MergedMetadata(WithMigrated(doc.sections, MovedSymbols(doc.symbols, cache)), Merge([], None));
  }
}
