/** The orderings the reports use: `Array.prototype.sort` with a numeric descending comparator
    (stable, so ties keep their input order), and the default string sort. Both are modelled as
    insertion sorts; only what the reports rely on is stated. */
module Sorting {
  import opened Text

  ghost predicate SortedDesc<T>(s: seq<T>, key: T -> real) {
    forall i, j :: 0 <= i < j < |s| ==> key(s[i]) >= key(s[j])
  }

  /** Inserts `x` after every element whose key is at least its own. */
  function InsertDesc<T>(x: T, s: seq<T>, key: T -> real): (r: seq<T>)
    requires SortedDesc(s, key)
    ensures SortedDesc(r, key)
    ensures multiset(r) == multiset(s) + multiset{x}
    decreases |s|
  {
    if s == [] then [x]
    else if key(x) > key(s[0]) then [x] + s
    else
      var rest := InsertDesc(x, s[1..], key);
      assert s == [s[0]] + s[1..];
      assert forall y :: y in rest ==> y in s[1..] || y == x by {
        assert forall y :: y in rest ==> y in multiset(rest);
      }
      assert forall j :: 0 <= j < |rest| ==> key(s[0]) >= key(rest[j]) by {
        forall j | 0 <= j < |rest| ensures key(s[0]) >= key(rest[j]) {
          assert rest[j] in rest;
          if rest[j] != x {
            var k :| 0 <= k < |s[1..]| && s[1..][k] == rest[j];
            assert s[k + 1] == rest[j];
          }
        }
      }
      [s[0]] + rest
  }

  /** `sorted` followed by the elements of `rest` inserted one by one, in order. */
  function SortDescFrom<T>(sorted: seq<T>, rest: seq<T>, key: T -> real): (r: seq<T>)
    requires SortedDesc(sorted, key)
    ensures SortedDesc(r, key)
    ensures multiset(r) == multiset(sorted) + multiset(rest)
    decreases |rest|
  {
    if rest == [] then sorted
    else
      assert rest == [rest[0]] + rest[1..];
      SortDescFrom(InsertDesc(rest[0], sorted, key), rest[1..], key)
  }

  /** `s.sort((a, b) => key(b) - key(a))` */
  function SortDesc<T>(s: seq<T>, key: T -> real): (r: seq<T>)
    ensures SortedDesc(r, key)
    ensures multiset(r) == multiset(s)
  {
    SortDescFrom([], s, key)
  }

  function SumKey<T>(s: seq<T>, key: T -> real): real
    decreases |s|
  {
    if s == [] then 0.0 else key(s[0]) + SumKey(s[1..], key)
  }

  lemma SumKeyCons<T>(x: T, s: seq<T>, f: T -> real)
    ensures SumKey([x] + s, f) == f(x) + SumKey(s, f)
  {
    assert ([x] + s)[1..] == s;
  }

  lemma {:induction false} SumKeyInsert<T>(x: T, s: seq<T>, key: T -> real, f: T -> real)
    requires SortedDesc(s, key)
    ensures SumKey(InsertDesc(x, s, key), f) == f(x) + SumKey(s, f)
    decreases |s|
  {
    if s != [] && key(x) <= key(s[0]) {
      SumKeyInsert(x, s[1..], key, f);
    }
  }

  lemma {:induction false} SumKeySortFrom<T>(sorted: seq<T>, rest: seq<T>, key: T -> real, f: T -> real)
    requires SortedDesc(sorted, key)
    ensures SumKey(SortDescFrom(sorted, rest, key), f) == SumKey(sorted, f) + SumKey(rest, f)
    decreases |rest|
  {
    if rest != [] {
      SumKeyInsert(rest[0], sorted, key, f);
      SumKeySortFrom(InsertDesc(rest[0], sorted, key), rest[1..], key, f);
    }
  }

  /** Sorting by one key does not change the total of any other. */
  lemma SumKeySort<T>(s: seq<T>, key: T -> real, f: T -> real)
    ensures SumKey(SortDesc(s, key), f) == SumKey(s, f)
  {
    SumKeySortFrom([], s, key, f);
  }

  /** No two elements share a name. */
  ghost predicate DistinctBy<T, K>(s: seq<T>, name: T -> K) {
    forall i, j :: 0 <= i < j < |s| ==> name(s[i]) != name(s[j])
  }

  /** A sequence with distinct names holds every value at most once. */
  lemma {:induction false} DistinctByAtMostOnce<T, K>(s: seq<T>, name: T -> K, x: T)
    requires DistinctBy(s, name)
    ensures multiset(s)[x] <= 1
    decreases |s|
  {
    if s != [] {
      var s' := s[1..];
      assert s == [s[0]] + s';
      assert DistinctBy(s', name) by {
        forall i, j | 0 <= i < j < |s'| ensures name(s'[i]) != name(s'[j]) {
          assert s'[i] == s[i + 1] && s'[j] == s[j + 1];
        }
      }
      DistinctByAtMostOnce(s', name, x);
      if x == s[0] {
        forall k | 0 <= k < |s'| ensures s'[k] != x {
          assert name(s[k + 1]) != name(s[0]);
        }
      }
    }
  }

  lemma RepeatedValue<T>(r: seq<T>, i: int, j: int)
    requires 0 <= i < j < |r| && r[i] == r[j]
    ensures multiset(r)[r[i]] >= 2
  {
    assert r == r[..i] + [r[i]] + r[i + 1..j] + [r[j]] + r[j + 1..];
  }

  /** A permutation of a sequence whose names are distinct has distinct names. */
  lemma {:induction false} DistinctByPermutation<T, K>(s: seq<T>, r: seq<T>, name: T -> K)
    requires DistinctBy(s, name)
    requires multiset(r) == multiset(s)
    ensures DistinctBy(r, name)
  {
    forall i, j | 0 <= i < j < |r| ensures name(r[i]) != name(r[j]) {
      if name(r[i]) == name(r[j]) {
        assert r[i] in multiset(s) && r[j] in multiset(s);
        var a :| 0 <= a < |s| && s[a] == r[i];
        var b :| 0 <= b < |s| && s[b] == r[j];
        // Equal names in s mean the same position, hence the same value.
        assert a == b;
        DistinctByAtMostOnce(s, name, r[i]);
        RepeatedValue(r, i, j);
        assert false;
      }
    }
  }

  /** The names of the elements of `s`. */
  ghost function KeysOf<T, K>(s: seq<T>, name: T -> K): set<K> {
    set x | x in s :: name(x)
  }

  /** Reordering keeps the elements, their names, and the names' distinctness. */
  lemma Reordered<T, K>(s: seq<T>, r: seq<T>, name: T -> K)
    requires multiset(r) == multiset(s)
    requires DistinctBy(s, name)
    ensures DistinctBy(r, name)
    ensures forall x :: x in r <==> x in s
    ensures KeysOf(r, name) == KeysOf(s, name)
  {
    assert forall x :: x in r <==> x in s by {
      assert forall x :: x in r <==> x in multiset(r);
      assert forall x :: x in s <==> x in multiset(s);
    }
    DistinctByPermutation(s, r, name);
  }

  /** Strictly ascending in the lexicographic order, hence free of duplicates. */
  ghost predicate StrictlySorted(s: seq<string>) {
    forall i, j :: 0 <= i < j < |s| ==> LexLe(s[i], s[j]) && s[i] != s[j]
  }

  function InsertName(x: string, s: seq<string>): (r: seq<string>)
    requires StrictlySorted(s) && x !in s
    ensures StrictlySorted(r)
    ensures forall y :: y in r <==> y in s || y == x
    ensures |r| == |s| + 1
    decreases |s|
  {
    if s == [] then [x]
    else if LexLe(x, s[0]) then
      assert forall j :: 0 <= j < |s| ==> LexLe(x, s[j]) by {
        forall j | 0 <= j < |s| ensures LexLe(x, s[j]) {
          if j > 0 { LexLeTransitive(x, s[0], s[j]); }
        }
      }
      [x] + s
    else
      LexLeTotal(x, s[0]);
      assert s == [s[0]] + s[1..];
      var rest := InsertName(x, s[1..]);
      assert forall j :: 0 <= j < |rest| ==> LexLe(s[0], rest[j]) && s[0] != rest[j] by {
        forall j | 0 <= j < |rest| ensures LexLe(s[0], rest[j]) && s[0] != rest[j] {
          assert rest[j] in rest;
          if rest[j] != x {
            var k :| 0 <= k < |s[1..]| && s[1..][k] == rest[j];
            assert s[k + 1] == rest[j];
          }
        }
      }
      [s[0]] + rest
  }

  /** `Array.from(new Set(names)).sort()` up to order of insertion: the distinct names, ascending. */
  function SortedDistinct(names: seq<string>): (r: seq<string>)
    ensures StrictlySorted(r)
    ensures forall n :: n in r <==> n in names
    decreases |names|
  {
    if names == [] then []
    else
      var r := SortedDistinct(names[..|names| - 1]);
      var x := names[|names| - 1];
      assert forall n :: n in names <==> n in names[..|names| - 1] || n == x;
      if x in r then r else InsertName(x, r)
  }
}
