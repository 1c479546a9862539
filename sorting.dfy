/** The ordering operations the engine relies on: LINQ's stable OrderBy/ThenBy, List.Sort
    on keys that are unique, and the removal filters (RemoveAll, RemoveWhere), written once
    as an insertion sort and a filter over sequences. */
module Sorting {

  ghost predicate Total<T(!new)>(le: (T, T) -> bool)
  {
    forall a: T, b: T :: le(a, b) || le(b, a)
  }

  ghost predicate Transitive<T(!new)>(le: (T, T) -> bool)
  {
    forall a: T, b: T, c: T :: le(a, b) && le(b, c) ==> le(a, c)
  }

  /** What a comparer must be for OrderBy to be meaningful: total and transitive. */
  ghost predicate TotalPreorder<T(!new)>(le: (T, T) -> bool)
  {
    Total(le) && Transitive(le)
  }

  predicate Sorted<T>(s: seq<T>, le: (T, T) -> bool)
  {
    forall i, j :: 0 <= i < j < |s| ==> le(s[i], s[j])
  }

  /** Places x after every element that does not come strictly after it. */
  function Insert<T>(x: T, s: seq<T>, le: (T, T) -> bool): (r: seq<T>)
    ensures |r| == |s| + 1
    ensures multiset(r) == multiset(s) + multiset{x}
  {
    if s == [] then [x]
    else if !le(s[0], x) then [x] + s
    else
      assert s == [s[0]] + s[1..];
      [s[0]] + Insert(x, s[1..], le)
  }

  /** A stable sort: later elements go behind the equivalent earlier ones. */
  function Sort<T>(s: seq<T>, le: (T, T) -> bool): (r: seq<T>)
    ensures |r| == |s|
    ensures multiset(r) == multiset(s)
  {
    if s == [] then []
    else
      assert s == s[..|s| - 1] + [s[|s| - 1]];
      Insert(s[|s| - 1], Sort(s[..|s| - 1], le), le)
  }

  lemma {:induction false} InsertSorted<T(!new)>(x: T, s: seq<T>, le: (T, T) -> bool)
    requires TotalPreorder(le) && Sorted(s, le)
    ensures Sorted(Insert(x, s, le), le)
  {
    if s == [] {
    } else if !le(s[0], x) {
      assert le(x, s[0]);
    } else {
      var t := Insert(x, s[1..], le);
      InsertSorted(x, s[1..], le);
      forall j | 0 <= j < |t| ensures le(s[0], t[j]) {
        assert t[j] in multiset(t);
        if t[j] != x {
          assert t[j] in multiset(s[1..]);
          var k :| 0 <= k < |s[1..]| && s[1..][k] == t[j];
          assert s[k + 1] == t[j];
        }
      }
    }
  }

  lemma {:induction false} SortSorted<T(!new)>(s: seq<T>, le: (T, T) -> bool)
    requires TotalPreorder(le)
    ensures Sorted(Sort(s, le), le)
  {
    if s != [] {
      SortSorted(s[..|s| - 1], le);
      InsertSorted(s[|s| - 1], Sort(s[..|s| - 1], le), le);
    }
  }

  /** Sorted with no two elements ranked equal. */
  predicate StrictlySorted<T>(s: seq<T>, le: (T, T) -> bool)
  {
    forall i, j :: 0 <= i < j < |s| ==> le(s[i], s[j]) && !le(s[j], s[i])
  }

  lemma {:induction false} InsertAtEnd<T>(x: T, s: seq<T>, le: (T, T) -> bool)
    requires forall i :: 0 <= i < |s| ==> le(s[i], x)
    ensures Insert(x, s, le) == s + [x]
  {
    if s != [] {
      InsertAtEnd(x, s[1..], le);
      assert [s[0]] + (s[1..] + [x]) == s + [x];
    }
  }

  /** Sorting a sequence that is already in order leaves it as it is. */
  lemma {:induction false} SortOfSorted<T>(s: seq<T>, le: (T, T) -> bool)
    requires Sorted(s, le)
    ensures Sort(s, le) == s
  {
    if s != [] {
      var n := |s| - 1;
      assert Sorted(s[..n], le);
      SortOfSorted(s[..n], le);
      InsertAtEnd(s[n], s[..n], le);
      assert s[..n] + [s[n]] == s;
    }
  }

  /** List.Add followed by List.Sort on a list already in order is one insertion. */
  lemma SortAppend<T>(s: seq<T>, x: T, le: (T, T) -> bool)
    requires Sorted(s, le)
    ensures Sort(s + [x], le) == Insert(x, s, le)
  {
    assert (s + [x])[..|s|] == s;
    SortOfSorted(s, le);
  }

  lemma {:induction false} InsertStrictlySorted<T(!new)>(x: T, s: seq<T>, le: (T, T) -> bool)
    requires TotalPreorder(le) && StrictlySorted(s, le)
    requires forall i :: 0 <= i < |s| ==> !Equivalent(s[i], x, le)
    ensures StrictlySorted(Insert(x, s, le), le)
  {
    if s == [] {
    } else if !le(s[0], x) {
      StrictlyBeforeAll(x, s, le);
      StrictlySortedCons(x, s, le);
    } else {
      var t := Insert(x, s[1..], le);
      InsertStrictlySorted(x, s[1..], le);
      InsertedBehindHead(x, s, le);
      StrictlySortedCons(s[0], t, le);
    }
  }

  /** An element the head of a strictly ordered list does not precede comes strictly before
      every element of the list. */
  lemma StrictlyBeforeAll<T(!new)>(x: T, s: seq<T>, le: (T, T) -> bool)
    requires TotalPreorder(le) && StrictlySorted(s, le) && s != [] && !le(s[0], x)
    ensures forall j :: 0 <= j < |s| ==> le(x, s[j]) && !le(s[j], x)
  {
    assert le(x, s[0]);
    forall j | 0 < j < |s| ensures le(x, s[j]) && !le(s[j], x) {
      assert le(s[0], s[j]);
    }
  }

  /** Inserting behind a head that strictly precedes the new element keeps the head strictly
      first. */
  lemma InsertedBehindHead<T(!new)>(x: T, s: seq<T>, le: (T, T) -> bool)
    requires StrictlySorted(s, le) && s != [] && le(s[0], x) && !Equivalent(s[0], x, le)
    ensures forall j :: 0 <= j < |Insert(x, s[1..], le)| ==>
      le(s[0], Insert(x, s[1..], le)[j]) && !le(Insert(x, s[1..], le)[j], s[0])
  {
    var t := Insert(x, s[1..], le);
    forall j | 0 <= j < |t| ensures le(s[0], t[j]) && !le(t[j], s[0]) {
      assert t[j] in multiset(t);
      if t[j] != x {
        assert t[j] in multiset(s[1..]);
        var k :| 0 <= k < |s[1..]| && s[1..][k] == t[j];
        assert s[k + 1] == t[j];
      }
    }
  }

  predicate Equivalent<T>(a: T, b: T, le: (T, T) -> bool)
  {
    le(a, b) && le(b, a)
  }

  /** The elements of s that the comparer ranks equal to c, in their order in s. */
  function Class<T>(s: seq<T>, le: (T, T) -> bool, c: T): seq<T>
  {
    if s == [] then []
    else (if Equivalent(s[0], c, le) then [s[0]] else []) + Class(s[1..], le, c)
  }

  lemma {:induction false} ClassConcat<T>(a: seq<T>, b: seq<T>, le: (T, T) -> bool, c: T)
    ensures Class(a + b, le, c) == Class(a, le, c) + Class(b, le, c)
  {
    if a == [] {
      assert a + b == b;
    } else {
      var h := if Equivalent(a[0], c, le) then [a[0]] else [];
      assert (a + b)[0] == a[0];
      assert (a + b)[1..] == a[1..] + b;
      assert Class(a + b, le, c) == h + Class(a[1..] + b, le, c);
      ClassConcat(a[1..], b, le, c);
      assert Class(a, le, c) == h + Class(a[1..], le, c);
      assert h + (Class(a[1..], le, c) + Class(b, le, c)) == (h + Class(a[1..], le, c)) + Class(b, le, c);
    }
  }

  lemma {:induction false} ClassEmpty<T>(s: seq<T>, le: (T, T) -> bool, c: T)
    requires forall i :: 0 <= i < |s| ==> !Equivalent(s[i], c, le)
    ensures Class(s, le, c) == []
  {
    if s != [] { ClassEmpty(s[1..], le, c); }
  }

  lemma {:induction false} InsertClass<T(!new)>(x: T, s: seq<T>, le: (T, T) -> bool, c: T)
    requires TotalPreorder(le) && Sorted(s, le)
    ensures Class(Insert(x, s, le), le, c) == Class(s, le, c) + (if Equivalent(x, c, le) then [x] else [])
  {
    if s == [] {
    } else if !le(s[0], x) {
      assert Insert(x, s, le) == [x] + s;
      assert ([x] + s)[1..] == s;
      if Equivalent(x, c, le) {
        NoneEquivalentBehind(x, s, le, c);
        ClassEmpty(s, le, c);
      }
    } else {
      var t := Insert(x, s[1..], le);
      assert Insert(x, s, le) == [s[0]] + t;
      assert ([s[0]] + t)[1..] == t;
      InsertClass(x, s[1..], le, c);
    }
  }

  /** When x goes before a sorted list, nothing in the list ranks equal to x. */
  lemma NoneEquivalentBehind<T(!new)>(x: T, s: seq<T>, le: (T, T) -> bool, c: T)
    requires TotalPreorder(le) && Sorted(s, le) && s != [] && !le(s[0], x) && Equivalent(x, c, le)
    ensures forall i :: 0 <= i < |s| ==> !Equivalent(s[i], c, le)
  {
    forall i | 0 <= i < |s| ensures !Equivalent(s[i], c, le) {
      if i > 0 { assert le(s[0], s[i]); }
      assert !le(s[i], x);
      assert !le(s[i], c);
    }
  }

  lemma ClassSingleton<T>(x: T, le: (T, T) -> bool, c: T)
    ensures Class([x], le, c) == if Equivalent(x, c, le) then [x] else []
  {
    assert [x][1..] == [];
  }

  /** Sorting keeps, for every rank, the order in which equally ranked elements came. */
  lemma {:induction false} SortStable<T(!new)>(s: seq<T>, le: (T, T) -> bool, c: T)
    requires TotalPreorder(le)
    ensures Class(Sort(s, le), le, c) == Class(s, le, c)
  {
    if s != [] {
      var n := |s| - 1;
      var init, last := s[..n], s[n];
      assert s == init + [last];
      var sorted := Sort(init, le);
      assert Sort(s, le) == Insert(last, sorted, le);
      SortSorted(init, le);
      InsertClass(last, sorted, le, c);
      SortStable(init, le, c);
      StableStep(init, last, sorted, le, c);
    }
  }

  /** One step of SortStable: inserting the last element into the sorted prefix adds to its
      class exactly what appending it to the unsorted prefix adds. */
  lemma StableStep<T>(init: seq<T>, last: T, sorted: seq<T>, le: (T, T) -> bool, c: T)
    requires Class(sorted, le, c) == Class(init, le, c)
    requires Class(Insert(last, sorted, le), le, c)
             == Class(sorted, le, c) + (if Equivalent(last, c, le) then [last] else [])
    ensures Class(Insert(last, sorted, le), le, c) == Class(init + [last], le, c)
  {
    ClassSingleton(last, le, c);
    ClassConcat(init, [last], le, c);
  }

  /** The elements of s that satisfy p, in order (the complement of RemoveAll). */
  function Filter<T>(s: seq<T>, p: T -> bool): (r: seq<T>)
    ensures |r| <= |s|
    ensures forall i :: 0 <= i < |r| ==> r[i] in s && p(r[i])
    ensures forall i :: 0 <= i < |s| && p(s[i]) ==> s[i] in r
  {
    if s == [] then []
    else
      assert s == [s[0]] + s[1..];
      (if p(s[0]) then [s[0]] else []) + Filter(s[1..], p)
  }

  lemma {:induction false} FilterSorted<T>(s: seq<T>, p: T -> bool, le: (T, T) -> bool)
    requires Sorted(s, le)
    ensures Sorted(Filter(s, p), le)
  {
    if s != [] {
      FilterSorted(s[1..], p, le);
      var t := Filter(s[1..], p);
      forall j | 0 <= j < |t| ensures le(s[0], t[j]) {
        assert t[j] in t;
        var k :| 1 <= k < |s| && s[k] == t[j];
      }
    }
  }

  lemma {:induction false} FilterStrictlySorted<T>(s: seq<T>, p: T -> bool, le: (T, T) -> bool)
    requires StrictlySorted(s, le)
    ensures StrictlySorted(Filter(s, p), le)
  {
    if s != [] {
      FilterStrictlySorted(s[1..], p, le);
      var t := Filter(s[1..], p);
      if p(s[0]) {
        forall j | 0 <= j < |t| ensures le(s[0], t[j]) && !le(t[j], s[0]) {
          assert t[j] in t;
          var k :| 1 <= k < |s| && s[k] == t[j];
        }
        assert Filter(s, p) == [s[0]] + t;
        StrictlySortedCons(s[0], t, le);
      } else {
        assert Filter(s, p) == t;
      }
    }
  }

  lemma StrictlySortedCons<T>(x: T, t: seq<T>, le: (T, T) -> bool)
    requires StrictlySorted(t, le)
    requires forall j :: 0 <= j < |t| ==> le(x, t[j]) && !le(t[j], x)
    ensures StrictlySorted([x] + t, le)
  {
    var r := [x] + t;
    forall i, j | 0 <= i < j < |r| ensures le(r[i], r[j]) && !le(r[j], r[i]) {
      assert r[j] == t[j - 1];
      if i > 0 {
        assert r[i] == t[i - 1];
      }
    }
  }

  lemma {:induction false} FilterAll<T>(s: seq<T>, p: T -> bool)
    requires forall i :: 0 <= i < |s| ==> p(s[i])
    ensures Filter(s, p) == s
  {
    if s != [] { FilterAll(s[1..], p); }
  }

  lemma {:induction false} FilterConcat<T>(a: seq<T>, b: seq<T>, p: T -> bool)
    ensures Filter(a + b, p) == Filter(a, p) + Filter(b, p)
  {
    if a == [] {
      assert a + b == b;
    } else {
      assert (a + b)[0] == a[0];
      assert (a + b)[1..] == a[1..] + b;
      FilterConcat(a[1..], b, p);
    }
  }

  /** Lists the values of a map whose enumeration order the source leaves open, in the
      comparer's order; equally ranked values come in an arbitrary order. */
  method SortedValues<K, V(==,!new)>(m: map<K, V>, le: (V, V) -> bool) returns (r: seq<V>)
    requires TotalPreorder(le)
    ensures Sorted(r, le)
    ensures |r| == |m|
    ensures forall v :: v in r <==> v in m.Values
  {
    var rest := m.Keys;
    ghost var done: set<K> := {};
    r := [];
    while rest != {}
      invariant rest !! done && rest + done == m.Keys
      invariant Sorted(r, le)
      invariant |r| == |done|
      invariant forall v :: v in r <==> exists k :: k in done && m[k] == v
      decreases |rest|
    {
      var k :| k in rest;
      InsertSorted(m[k], r, le);
      assert forall v :: v in Insert(m[k], r, le) <==> v in r || v == m[k] by {
        forall v ensures v in Insert(m[k], r, le) <==> v in r || v == m[k] {
          assert v in Insert(m[k], r, le) <==> v in multiset(Insert(m[k], r, le));
        }
      }
      r := Insert(m[k], r, le);
      rest := rest - {k};
      done := done + {k};
    }
    assert done == m.Keys;
  }

  /** Take(n) of a sorted list: every element kept ranks no lower than every element dropped. */
  lemma PrefixFirst<T>(s: seq<T>, n: nat, le: (T, T) -> bool)
    requires Sorted(s, le) && n <= |s|
    ensures forall d, e | d in s[..n] && e in s && e !in s[..n] :: le(d, e)
  {
    forall d, e | d in s[..n] && e in s && e !in s[..n] ensures le(d, e) {
      var i :| 0 <= i < n && s[i] == d;
      var j :| 0 <= j < |s| && s[j] == e;
    }
  }

  /** The keys of a set in some order, each once: the enumeration order of a dictionary,
      which the source leaves open. */
  method Enumerate<K>(keys: set<K>) returns (order: seq<K>)
    ensures |order| == |keys|
    ensures forall k :: k in order <==> k in keys
    ensures forall i, j | 0 <= i < j < |order| :: order[i] != order[j]
  {
    order := [];
    var rest := keys;
    while rest != {}
      invariant rest !! (set k | k in order) && rest + (set k | k in order) == keys
      invariant |order| + |rest| == |keys|
      invariant forall i, j | 0 <= i < j < |order| :: order[i] != order[j]
      decreases |rest|
    {
      var k :| k in rest;
      order := order + [k];
      rest := rest - {k};
    }
  }

  /** No element occurs twice. */
  predicate Distinct<T(==)>(s: seq<T>)
  {
    forall i, j | 0 <= i < j < |s| :: s[i] != s[j]
  }

  lemma {:induction false} DistinctCounts<T>(s: seq<T>)
    ensures Distinct(s) <==> forall x :: multiset(s)[x] <= 1
  {
    if s != [] {
      var t := s[1..];
      assert s == [s[0]] + t;
      DistinctCounts(t);
      if Distinct(s) {
        assert s[0] !in t by {
          forall j | 0 <= j < |t| ensures t[j] != s[0] {
            assert t[j] == s[j + 1];
          }
        }
        assert Distinct(t) by {
          forall i, j | 0 <= i < j < |t| ensures t[i] != t[j] {
            assert t[i] == s[i + 1] && t[j] == s[j + 1];
          }
        }
      }
      if forall x :: multiset(s)[x] <= 1 {
        assert forall x :: multiset(t)[x] <= multiset(s)[x];
        assert multiset(t)[s[0]] == 0;
        forall i, j | 0 <= i < j < |s| ensures s[i] != s[j] {
          assert s[j] == t[j - 1];
          if i > 0 {
            assert s[i] == t[i - 1];
          } else {
            assert s[j] in t;
          }
        }
      }
    }
  }

  /** A permutation of a list without repeats has none either. */
  lemma PermutationDistinct<T>(a: seq<T>, b: seq<T>)
    requires multiset(a) == multiset(b) && Distinct(a)
    ensures Distinct(b)
  {
    DistinctCounts(a);
    DistinctCounts(b);
  }

  /** Every earlier element is related to every later one. */
  predicate Pairwise<T>(s: seq<T>, rel: (T, T) -> bool)
  {
    forall i, j | 0 <= i < j < |s| :: rel(s[i], s[j])
  }

  lemma {:induction false} FilterPairwise<T>(s: seq<T>, p: T -> bool, rel: (T, T) -> bool)
    requires Pairwise(s, rel)
    ensures Pairwise(Filter(s, p), rel)
  {
    if s != [] {
      FilterPairwise(s[1..], p, rel);
      var t := Filter(s[1..], p);
      if p(s[0]) {
        forall j | 0 <= j < |t| ensures rel(s[0], t[j]) {
          assert t[j] in t;
          var k :| 1 <= k < |s| && s[k] == t[j];
        }
        assert Filter(s, p) == [s[0]] + t;
        var r := [s[0]] + t;
        forall i, j | 0 <= i < j < |r| ensures rel(r[i], r[j]) {
          assert r[j] == t[j - 1];
          if i > 0 {
            assert r[i] == t[i - 1];
          }
        }
      } else {
        assert Filter(s, p) == t;
      }
    }
  }

  lemma PairwiseAppend<T>(s: seq<T>, x: T, rel: (T, T) -> bool)
    requires Pairwise(s, rel) && forall i | 0 <= i < |s| :: rel(s[i], x)
    ensures Pairwise(s + [x], rel)
  {
    var r := s + [x];
    forall i, j | 0 <= i < j < |r| ensures rel(r[i], r[j]) {
      assert r[i] == s[i];
      if j < |s| {
        assert r[j] == s[j];
      }
    }
  }
}
