/**
 * Bounded feeds, per-key indexes and latest-by-id tables, as the read models use
 * them, next to the unbounded sequences they summarise.
 */
module Feeds {

  function Suffix<T>(s: seq<T>, n: nat): (r: seq<T>)
    ensures |r| == if |s| <= n then |s| else n
  {
    if |s| <= n then s else s[|s| - n..]
  }

  predicate IsSuffix<T(==)>(a: seq<T>, b: seq<T>) {
    |a| <= |b| && b[|b| - |a|..] == a
  }

  function Filter<T>(s: seq<T>, p: T -> bool): seq<T>
    decreases |s|
  {
    if s == [] then []
    else
      var rest := Filter(s[..|s| - 1], p);
      if p(s[|s| - 1]) then rest + [s[|s| - 1]] else rest
  }

  /** Appends and then drops from the front until the capacity is met. */
  method PushBounded<T>(records: seq<T>, record: T, capacity: nat) returns (r: seq<T>)
    ensures r == Suffix(records + [record], capacity)
  {
    r := records + [record];
    while |r| > capacity
      invariant capacity <= |r| <= |records| + 1 || |r| == |records| + 1
      invariant r == (records + [record])[|records| + 1 - |r|..]
    {
      r := r[1..];
    }
  }

  /** A bounded feed always holds the newest records of everything pushed. */
  lemma SuffixOfPush<T>(s: seq<T>, x: T, cap: nat)
    ensures Suffix(Suffix(s, cap) + [x], cap) == Suffix(s + [x], cap)
  {
  }

  lemma SuffixOfSuffix<T>(s: seq<T>, m: nat, n: nat)
    requires m <= n
    ensures Suffix(Suffix(s, n), m) == Suffix(s, m)
  {
  }

  lemma SuffixIsTaken<T>(s: seq<T>, n: nat)
    ensures Suffix(s, n) == s[|s| - (if |s| <= n then |s| else n)..]
  {
  }

  /** A tail of `b` no longer than `limit` ends the last `limit` records of `a + b`. */
  lemma TailEndsSuffix<T>(a: seq<T>, b: seq<T>, m: nat, limit: nat)
    requires m <= |b| && m <= limit
    ensures IsSuffix(b[|b| - m..], Suffix(a + b, limit))
  {
    var all, n := a + b, if |a + b| <= limit then |a + b| else limit;
    SuffixIsTaken(all, limit);
    assert all[|all| - n..][n - m..] == all[|all| - m..] == b[|b| - m..];
  }

  lemma SuffixOfTail<T>(a: seq<T>, b: seq<T>, cap: nat, limit: nat)
    ensures IsSuffix(Suffix(Suffix(b, cap), limit), Suffix(a + b, limit))
  {
    var m := if cap <= limit then cap else limit;
    assert Suffix(Suffix(b, cap), limit) == Suffix(b, m);
    SuffixIsTaken(b, m);
    hide Suffix;
    TailEndsSuffix(a, b, if |b| <= m then |b| else m, limit);
  }

  lemma FilterSnoc<T>(s: seq<T>, x: T, p: T -> bool)
    ensures Filter(s + [x], p) == Filter(s, p) + if p(x) then [x] else []
  {
    assert (s + [x])[..|s|] == s;
  }

  lemma {:induction false} FilterConcat<T>(a: seq<T>, b: seq<T>, p: T -> bool)
    ensures Filter(a + b, p) == Filter(a, p) + Filter(b, p)
    decreases |b|
  {
    if b == [] {
      assert a + b == a;
    } else {
      var front, x := b[..|b| - 1], b[|b| - 1];
      assert b == front + [x] && a + b == (a + front) + [x];
      FilterConcat(a, front, p);
      FilterSnoc(a + front, x, p);
    }
  }

  lemma {:induction false} FilterMembers<T>(s: seq<T>, p: T -> bool, x: T)
    ensures x in Filter(s, p) <==> x in s && p(x)
    decreases |s|
  {
    if s != [] {
      FilterMembers(s[..|s| - 1], p, x);
      assert s == s[..|s| - 1] + [s[|s| - 1]];
    }
  }

  function IndexAt<T>(index: map<string, seq<T>>, key: string): seq<T> {
    if key in index then index[key] else []
  }

  /** Replaces the entry unless the one already there has a greater id. */
  function Upserted<K, V>(m: map<K, V>, key: K, value: V, id: V -> int): map<K, V> {
    if key !in m || id(m[key]) <= id(value) then m[key := value] else m
  }

  function UpsertedAll<K, V>(m: map<K, V>, values: seq<V>, key: V -> K, id: V -> int): map<K, V>
    decreases |values|
  {
    if values == [] then m
    else
      var n := |values| - 1;
      Upserted(UpsertedAll(m, values[..n], key, id), key(values[n]), values[n], id)
  }

  /** `values[i]` has the greatest id of its key, and is the last pushed with that id. */
  ghost predicate IsGreatest<K(!new), V>(values: seq<V>, key: V -> K, id: V -> int, k: K, i: int) {
    && 0 <= i < |values| && key(values[i]) == k
    && forall j :: 0 <= j < |values| && key(values[j]) == k ==>
         id(values[j]) <= id(values[i]) && (j > i ==> id(values[j]) < id(values[i]))
  }

  lemma GreatestOfMore<K(!new), V>(values: seq<V>, key: V -> K, id: V -> int, k: K, i: int)
    requires values != [] && IsGreatest(values[..|values| - 1], key, id, k, i)
    ensures var x := values[|values| - 1];
            if key(x) == k && id(values[i]) <= id(x) then IsGreatest(values, key, id, k, |values| - 1)
            else IsGreatest(values, key, id, k, i)
  {
    var n := |values| - 1;
    var front := values[..n];
    assert forall j :: 0 <= j < n ==> front[j] == values[j];
  }

  lemma {:induction false} LatestHasKey<K(!new), V>(values: seq<V>, key: V -> K, id: V -> int, k: K)
    ensures k in UpsertedAll(map[], values, key, id) <==> exists j :: 0 <= j < |values| && key(values[j]) == k
    decreases |values|
  {
    if values != [] {
      var n := |values| - 1;
      var front := values[..n];
      LatestHasKey(front, key, id, k);
      if key(values[n]) != k {
        if j :| 0 <= j < |values| && key(values[j]) == k {
          assert front[j] == values[j];
        }
        if j :| 0 <= j < |front| && key(front[j]) == k {
          assert front[j] == values[j];
        }
      }
    }
  }

  /** Each latest entry is the greatest-id record ever pushed for its key, in whatever
      order the records arrived. */
  lemma {:induction false} LatestIsGreatest<K(!new), V>(values: seq<V>, key: V -> K, id: V -> int, k: K)
    ensures k in UpsertedAll(map[], values, key, id) <==> exists j :: 0 <= j < |values| && key(values[j]) == k
    ensures k in UpsertedAll(map[], values, key, id) ==>
              exists i :: IsGreatest(values, key, id, k, i) && UpsertedAll(map[], values, key, id)[k] == values[i]
    decreases |values|
  {
    LatestHasKey(values, key, id, k);
    if values != [] {
      var n := |values| - 1;
      var front, x := values[..n], values[n];
      var m := UpsertedAll(map[], front, key, id);
      LatestIsGreatest(front, key, id, k);
      if k in m {
        var i :| IsGreatest(front, key, id, k, i) && m[k] == front[i];
        assert front[i] == values[i];
        GreatestOfMore(values, key, id, k, i);
        hide IsGreatest;
      } else if key(x) == k {
        LatestHasKey(front, key, id, k);
        assert forall j :: 0 <= j < n ==> front[j] == values[j];
        assert IsGreatest(values, key, id, k, n);
      }
    }
  }
}
