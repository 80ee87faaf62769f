/**
 * The stream registry: specs for one key are merged as they are inserted, and
 * listed in key order. The result depends only on the set of specs inserted.
 */
module Streams {
  import opened Options
  import opened Orders
  import opened Market

  datatype Key = Key(account: string, symbol: string, timeframe: Timeframe)

  datatype Source = Watchlist | Instance(id: string)

  datatype Spec = Spec(
    key: Key,
    retention: nat,
    pollingMs: nat,
    retryMs: Option<nat>,
    graceMs: Option<nat>,
    preview: bool,
    sources: seq<Source>)

  // ----- The two orders -----

  predicate SourceLe(a: Source, b: Source) {
    a.Watchlist? || (b.Instance? && StringLe(a.id, b.id))
  }

  predicate KeyLe(a: Key, b: Key) {
    if a.account != b.account then StringLe(a.account, b.account)
    else if a.symbol != b.symbol then StringLe(a.symbol, b.symbol)
    else StringLe(a.timeframe.AsStr(), b.timeframe.AsStr())
  }

  lemma AsStrIsInjective(a: Timeframe, b: Timeframe)
    requires a.AsStr() == b.AsStr()
    ensures a == b
  {
    var s, t := a.AsStr(), b.AsStr();
    assert |s| == |t| && s[0] == t[0] && s[1] == t[1];
  }

  lemma SourceOrderIsTotal()
    ensures TotalOrder(SourceLe)
  {
    StringOrderIsTotal();
    hide StringLe;
  }

  lemma KeyLeAntisymmetric(a: Key, b: Key)
    requires KeyLe(a, b) && KeyLe(b, a)
    ensures a == b
  {
    if a.account != b.account {
      StringLeAntisymmetric(a.account, b.account);
    } else if a.symbol != b.symbol {
      StringLeAntisymmetric(a.symbol, b.symbol);
    } else {
      StringLeAntisymmetric(a.timeframe.AsStr(), b.timeframe.AsStr());
      AsStrIsInjective(a.timeframe, b.timeframe);
    }
  }

  lemma KeyLeTransitive(a: Key, b: Key, c: Key)
    requires KeyLe(a, b) && KeyLe(b, c)
    ensures KeyLe(a, c)
  {
    hide StringLe;
    if a.account != b.account && b.account != c.account {
      StringLeTransitive(a.account, b.account, c.account);
      if a.account == c.account {
        StringLeAntisymmetric(a.account, b.account);
      }
    } else if a.account == b.account == c.account {
      if a.symbol != b.symbol && b.symbol != c.symbol {
        StringLeTransitive(a.symbol, b.symbol, c.symbol);
        if a.symbol == c.symbol {
          StringLeAntisymmetric(a.symbol, b.symbol);
        }
      } else if a.symbol == b.symbol == c.symbol {
        StringLeTransitive(a.timeframe.AsStr(), b.timeframe.AsStr(), c.timeframe.AsStr());
      }
    }
  }

  lemma KeyLeTotal(a: Key, b: Key)
    ensures KeyLe(a, b) || KeyLe(b, a)
  {
    StringLeTotal(a.account, b.account);
    StringLeTotal(a.symbol, b.symbol);
    StringLeTotal(a.timeframe.AsStr(), b.timeframe.AsStr());
  }

  lemma KeyOrderIsTotal()
    ensures TotalOrder(KeyLe)
  {
    forall a, b ensures KeyLe(a, b) || KeyLe(b, a) { KeyLeTotal(a, b); }
    forall a, b | KeyLe(a, b) && KeyLe(b, a) ensures a == b { KeyLeAntisymmetric(a, b); }
    forall a, b, c | KeyLe(a, b) && KeyLe(b, c) ensures KeyLe(a, c) { KeyLeTransitive(a, b, c); }
    hide KeyLe;
  }

  /** Keys are listed by account, then by symbol, then by the name of the timeframe; the watchlist comes before
      every instance, and those by id. */
  lemma KeysSortByAccountFirst(a: Key, b: Key, x: Source, y: Source)
    ensures a.account != b.account ==> (KeyLe(a, b) <==> StringLe(a.account, b.account))
    ensures a.account == b.account && a.symbol != b.symbol ==> (KeyLe(a, b) <==> StringLe(a.symbol, b.symbol))
    ensures a.account == b.account && a.symbol == b.symbol ==> (KeyLe(a, b) <==> StringLe(a.timeframe.AsStr(), b.timeframe.AsStr()))
    ensures x == Watchlist ==> SourceLe(x, y)
    ensures x.Instance? && y == Watchlist ==> !SourceLe(x, y)
    ensures x.Instance? && y.Instance? ==> (SourceLe(x, y) <==> StringLe(x.id, y.id))
  {
  }

  // ----- Canonical source lists -----

  /** A list in source order without repeats, holding exactly the given sources. */
  ghost predicate Canonical(list: seq<Source>, sources: set<Source>) {
    && Sorted(list, SourceLe)
    && multiset(list) == multiset(sources)
  }

  lemma CanonicalIsUnique(a: seq<Source>, b: seq<Source>, sources: set<Source>)
    requires Canonical(a, sources) && Canonical(b, sources)
    ensures a == b
  {
    SourceOrderIsTotal();
    SortedIsUnique(a, b, SourceLe);
  }

  function Elements(list: seq<Source>): set<Source> { set x | x in list }

  lemma CanonicalElements(list: seq<Source>, sources: set<Source>)
    requires Canonical(list, sources)
    ensures Elements(list) == sources
  {
    forall x ensures x in list <==> x in sources {
      assert x in list <==> x in multiset(list);
    }
  }

  method NormalizedSources(sources: seq<Source>) returns (normalized: seq<Source>)
    ensures Canonical(normalized, Elements(sources))
  {
    var seen: set<Source> := {};
    normalized := [];
    for i := 0 to |sources|
      invariant seen == Elements(sources[..i])
      invariant multiset(normalized) == multiset(seen)
    {
      assert sources[..i + 1] == sources[..i] + [sources[i]];
      if sources[i] !in seen {
        seen := seen + {sources[i]};
        normalized := normalized + [sources[i]];
      }
    }
    assert sources[..|sources|] == sources;
    SourceOrderIsTotal();
    SortWorks(normalized, SourceLe);
    normalized := Sort(normalized, SourceLe);
  }

  // ----- What a merged spec must be -----

  ghost predicate IsMax(v: nat, values: set<nat>) { v in values && forall w :: w in values ==> w <= v }

  ghost predicate IsMin(v: nat, values: set<nat>) { v in values && forall w :: w in values ==> v <= w }

  /** The least value present, or none when every value is absent. */
  ghost predicate IsOptMin(v: Option<nat>, values: set<Option<nat>>) {
    v in values && forall w :: w in values && w.Some? ==> v.Some? && v.value <= w.value
  }

  ghost function Retentions(g: set<Spec>): set<nat> { set s | s in g :: s.retention }
  ghost function Pollings(g: set<Spec>): set<nat> { set s | s in g :: s.pollingMs }
  ghost function Retries(g: set<Spec>): set<Option<nat>> { set s | s in g :: s.retryMs }
  ghost function Graces(g: set<Spec>): set<Option<nat>> { set s | s in g :: s.graceMs }
  ghost function Previews(g: set<Spec>): set<bool> { set s | s in g :: s.preview }
  ghost function AllSources(g: set<Spec>): set<Source> { set s, x | s in g && x in s.sources :: x }

  /** `r` is the one spec that serves every spec of the group `g`. */
  ghost predicate IsMerge(r: Spec, g: set<Spec>) {
    && IsMax(r.retention, Retentions(g))
    && IsMin(r.pollingMs, Pollings(g))
    && IsOptMin(r.retryMs, Retries(g))
    && IsOptMin(r.graceMs, Graces(g))
    && (r.preview <==> true in Previews(g))
    && Canonical(r.sources, AllSources(g))
  }

  lemma MergeIsUnique(a: Spec, b: Spec, g: set<Spec>)
    requires IsMerge(a, g) && IsMerge(b, g) && a.key == b.key
    ensures a == b
  {
    assert a.retention <= b.retention <= a.retention;
    assert a.pollingMs <= b.pollingMs <= a.pollingMs;
    CanonicalIsUnique(a.sources, b.sources, AllSources(g));
    assert a.retryMs == b.retryMs by { OptMinIsUnique(a.retryMs, b.retryMs, Retries(g)); }
    assert a.graceMs == b.graceMs by { OptMinIsUnique(a.graceMs, b.graceMs, Graces(g)); }
    hide *;
  }

  lemma OptMinIsUnique(a: Option<nat>, b: Option<nat>, values: set<Option<nat>>)
    requires IsOptMin(a, values) && IsOptMin(b, values)
    ensures a == b
  {
  }

  lemma GroupGrows(g: set<Spec>, x: Spec)
    ensures Retentions(g + {x}) == Retentions(g) + {x.retention}
    ensures Pollings(g + {x}) == Pollings(g) + {x.pollingMs}
    ensures Retries(g + {x}) == Retries(g) + {x.retryMs}
    ensures Graces(g + {x}) == Graces(g) + {x.graceMs}
    ensures Previews(g + {x}) == Previews(g) + {x.preview}
  {
  }

  lemma SourcesGrow(g: set<Spec>, x: Spec)
    ensures AllSources(g + {x}) == AllSources(g) + Elements(x.sources)
  {
  }

  // ----- Merging -----

  function MinOptional(a: Option<nat>, b: Option<nat>): Option<nat> {
    match (a, b)
    case (Some(x), Some(y)) => Some(if y < x then y else x)
    case (Some(x), None) => a
    case (None, Some(y)) => b
    case (None, None) => None
  }

  lemma MinOptionalExtends(v: Option<nat>, values: set<Option<nat>>, x: Option<nat>)
    requires IsOptMin(v, values)
    ensures IsOptMin(MinOptional(v, x), values + {x})
  {
  }

  lemma ScalarsMerge(r: Spec, g: set<Spec>, x: Spec, m: Spec)
    requires IsMerge(r, g)
    requires m.retention == if x.retention > r.retention then x.retention else r.retention
    requires m.pollingMs == if x.pollingMs < r.pollingMs then x.pollingMs else r.pollingMs
    requires m.retryMs == MinOptional(r.retryMs, x.retryMs) && m.graceMs == MinOptional(r.graceMs, x.graceMs)
    requires m.preview == (r.preview || x.preview)
    requires Canonical(m.sources, AllSources(g) + Elements(x.sources))
    ensures IsMerge(m, g + {x})
  {
    GroupGrows(g, x);
    SourcesGrow(g, x);
    MinOptionalExtends(r.retryMs, Retries(g), x.retryMs);
    MinOptionalExtends(r.graceMs, Graces(g), x.graceMs);
    hide Retentions, Pollings, Retries, Graces, Previews, AllSources, Elements, Canonical, IsOptMin, MinOptional;
  }

  method MergeStreamSpec(existing: Spec, next: Spec, ghost g: set<Spec>) returns (merged: Spec)
    requires IsMerge(existing, g)
    ensures IsMerge(merged, g + {next}) && merged.key == existing.key
  {
    var sources := NormalizedSources(existing.sources + next.sources);
    merged := Spec(
      existing.key,
      if next.retention > existing.retention then next.retention else existing.retention,
      if next.pollingMs < existing.pollingMs then next.pollingMs else existing.pollingMs,
      MinOptional(existing.retryMs, next.retryMs),
      MinOptional(existing.graceMs, next.graceMs),
      existing.preview || next.preview,
      sources);
    CanonicalElements(existing.sources, AllSources(g));
    assert Elements(existing.sources + next.sources) == AllSources(g) + Elements(next.sources);
    ScalarsMerge(existing, g, next, merged);
  }

  lemma NormalizedIsMerge(s: Spec, r: Spec)
    requires r == s.(sources := r.sources) && Canonical(r.sources, Elements(s.sources))
    ensures IsMerge(r, {s})
  {
    assert AllSources({s}) == Elements(s.sources);
    assert s.retention in Retentions({s}) && s.pollingMs in Pollings({s});
    assert s.retryMs in Retries({s}) && s.graceMs in Graces({s}) && s.preview in Previews({s});
    hide Canonical, AllSources, Elements;
  }

  // ----- The registry -----

  ghost function Group(specs: set<Spec>, k: Key): set<Spec> { set s | s in specs && s.key == k }

  /** A registry that holds, for each key of the specs, the merge of that key's group. */
  ghost predicate Registers(m: map<Key, Spec>, specs: set<Spec>) {
    && (forall k :: k in m <==> Group(specs, k) != {})
    && forall k :: k in m ==> m[k].key == k && IsMerge(m[k], Group(specs, k))
  }

  lemma GroupOfMore(specs: set<Spec>, x: Spec, k: Key)
    ensures Group(specs + {x}, k) == if k == x.key then Group(specs, k) + {x} else Group(specs, k)
  {
  }

  lemma RegistersMore(m: map<Key, Spec>, specs: set<Spec>, x: Spec, r: Spec)
    requires Registers(m, specs) && r.key == x.key && IsMerge(r, Group(specs, x.key) + {x})
    ensures Registers(m[x.key := r], specs + {x})
  {
    var n := m[x.key := r];
    forall k ensures k in n <==> Group(specs + {x}, k) != {} { GroupOfMore(specs, x, k); }
    forall k | k in n ensures n[k].key == k && IsMerge(n[k], Group(specs + {x}, k)) { GroupOfMore(specs, x, k); }
    hide IsMerge, Group;
  }

  /** A registry is determined by the set of specs it registers. */
  lemma RegistryIsUnique(m: map<Key, Spec>, n: map<Key, Spec>, specs: set<Spec>)
    requires Registers(m, specs) && Registers(n, specs)
    ensures m == n
  {
    hide IsMerge, Group;
    forall k | k in m ensures m[k] == n[k] { MergeIsUnique(m[k], n[k], Group(specs, k)); }
    assert m.Keys == n.Keys;
  }

  /** The specs of a registry in ascending key order. */
  ghost predicate Listed(list: seq<Spec>, m: map<Key, Spec>) {
    && |list| == |m.Keys|
    && Sorted(Keys(list), KeyLe)
    && multiset(Keys(list)) == multiset(m.Keys)
    && forall i :: 0 <= i < |list| ==> list[i].key in m && list[i] == m[list[i].key]
  }

  function Keys(list: seq<Spec>): seq<Key> { seq(|list|, i requires 0 <= i < |list| => list[i].key) }

  lemma ListIsUnique(a: seq<Spec>, b: seq<Spec>, m: map<Key, Spec>)
    requires Listed(a, m) && Listed(b, m)
    ensures a == b
  {
    KeyOrderIsTotal();
    SortedIsUnique(Keys(a), Keys(b), KeyLe);
    hide Sorted, TotalOrder, KeyLe;
    forall i | 0 <= i < |a| ensures a[i] == b[i] {
      assert Keys(a)[i] == Keys(b)[i];
    }
  }

  /** The keys of a set, taken in any order, in ascending order. */
  method SortedKeys(all: set<Key>) returns (keys: seq<Key>)
    ensures Sorted(keys, KeyLe) && multiset(keys) == multiset(all)
  {
    KeyOrderIsTotal();
    hide *;
    keys := [];
    assert Sorted(keys, KeyLe) by { NothingIsSorted(); }
    var rest := all;
    while rest != {}
      invariant rest <= all && Sorted(keys, KeyLe) && multiset(keys) == multiset(all - rest)
      decreases |rest|
    {
      var k :| k in rest;
      InsertKeepsSorted(keys, k, KeyLe);
      InsertAdds(keys, k, KeyLe);
      assert all - (rest - {k}) == (all - rest) + {k};
      keys, rest := Orders.Insert(keys, k, KeyLe), rest - {k};
    }
    assert all - {} == all;
  }

  lemma NothingIsSorted()
    ensures Sorted([], KeyLe)
  {
  }

  class StreamRegistry {
    var specs: map<Key, Spec>

    constructor ()
      ensures specs == map[] && Registers(specs, {})
    {
      specs := map[];
    }

    method Insert(spec: Spec, ghost inserted: set<Spec>)
      requires Registers(specs, inserted)
      modifies this
      ensures Registers(specs, inserted + {spec})
    {
      var merged;
      if spec.key in specs {
        merged := MergeStreamSpec(specs[spec.key], spec, Group(inserted, spec.key));
      } else {
        var sources := NormalizedSources(spec.sources);
        merged := spec.(sources := sources);
        NormalizedIsMerge(spec, merged);
        assert Group(inserted, spec.key) + {spec} == {spec};
      }
      RegistersMore(specs, inserted, spec, merged);
      specs := specs[spec.key := merged];
    }

    /** Inserts every spec of a list; the order and repetition of the list leave no trace. */
    method InsertAll(list: seq<Spec>)
      requires Registers(specs, {})
      modifies this
      ensures Registers(specs, set s | s in list)
    {
      hide IsMerge, Group;
      ghost var inserted: set<Spec> := {};
      for i := 0 to |list|
        invariant inserted == set s | s in list[..i]
        invariant Registers(specs, inserted)
      {
        assert list[..i + 1] == list[..i] + [list[i]];
        Insert(list[i], inserted);
        inserted := inserted + {list[i]};
      }
      assert list[..|list|] == list;
    }

    method Specs() returns (list: seq<Spec>)
      requires forall k :: k in specs ==> specs[k].key == k
      ensures Listed(list, specs)
    {
      hide KeyLe, Sorted;
      var keys := SortedKeys(specs.Keys);
      assert forall i :: 0 <= i < |keys| ==> keys[i] in multiset(keys);
      var all := specs;
      list := seq(|keys|, i requires 0 <= i < |keys| && keys[i] in all => all[keys[i]]);
      assert Keys(list) == keys;
      assert |keys| == |multiset(keys)| == |specs.Keys|;
    }
  }

  /** What building a registry from some specs and listing it yields. */
  ghost predicate IsListing(list: seq<Spec>, specs: set<Spec>) {
    exists m :: Registers(m, specs) && Listed(list, m)
  }

  method ListFromSpecs(specs: seq<Spec>) returns (list: seq<Spec>)
    ensures IsListing(list, set s | s in specs)
  {
    hide IsMerge, Group, Listed;
    var registry := new StreamRegistry();
    registry.InsertAll(specs);
    list := registry.Specs();
  }

  /** The listing is a function of the set of specs: order and repetition leave no trace. */
  lemma SameSpecsSameList(a: seq<Spec>, b: seq<Spec>, listA: seq<Spec>, listB: seq<Spec>)
    requires forall s :: s in a <==> s in b
    requires IsListing(listA, set s | s in a) && IsListing(listB, set s | s in b)
    ensures listA == listB
  {
    hide Registers, Listed;
    var specs := set s | s in a;
    assert specs == set s | s in b;
    var m :| Registers(m, specs) && Listed(listA, m);
    var n :| Registers(n, specs) && Listed(listB, n);
    RegistryIsUnique(m, n, specs);
    ListIsUnique(listA, listB, m);
  }

  lemma SetHasNoRepeats(keys: seq<Key>, all: set<Key>, i: nat, j: nat)
    requires multiset(keys) == multiset(all) && i < j < |keys|
    ensures keys[i] != keys[j]
  {
    var left, right := keys[..j], keys[j..];
    assert keys == left + right && left[i] == keys[i] && right[0] == keys[j];
    assert keys[i] in multiset(left) && keys[j] in multiset(right);
    assert multiset(keys) == multiset(left) + multiset(right);
    assert multiset(all)[keys[i]] <= 1;
  }

  /** A listing names every key once, in ascending order, with the merge of its group. */
  lemma ListedFacts(list: seq<Spec>, m: map<Key, Spec>, a: seq<Spec>)
    requires Listed(list, m) && Registers(m, set s | s in a)
    ensures forall i :: 0 <= i < |list| ==> IsMerge(list[i], Group((set s | s in a), list[i].key))
    ensures forall i, j :: 0 <= i < j < |list| ==> KeyLe(list[i].key, list[j].key) && list[i].key != list[j].key
    ensures forall s :: s in a ==> exists i :: 0 <= i < |list| && list[i].key == s.key
  {
    hide IsMerge, KeyLe;
    var keys := Keys(list);
    forall i, j | 0 <= i < j < |list| ensures KeyLe(list[i].key, list[j].key) && list[i].key != list[j].key {
      assert KeyLe(keys[i], keys[j]);
      SetHasNoRepeats(keys, m.Keys, i, j);
    }
    forall s | s in a ensures exists i :: 0 <= i < |list| && list[i].key == s.key {
      assert s in Group((set x | x in a), s.key);
      assert s.key in m.Keys;
      assert s.key in multiset(keys);
      var i :| 0 <= i < |keys| && keys[i] == s.key;
      assert list[i].key == s.key;
    }
  }
}
