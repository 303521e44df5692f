/** The pieces of Python's `sorted`, `set` and `collections.Counter` that the hand
    classifier relies on, over sequences of integers.

    `SortDesc(s)` is `sorted(s, reverse=True)`; `Distinct(s)` is the set of the
    elements of `s` listed from highest to lowest (so `len(set(s))` is
    `|Distinct(s)|`); `WithCount(s, m, c)` is the comprehension
    `[r for r in s if m[r] == c]`; `Frequencies(keys, m)` lists `m[k]` for the
    keys in order, which is what `Counter(s).values()` yields when the keys are
    the distinct elements in order of first appearance. */
module Sorting {

  ghost predicate SortedDesc(s: seq<int>) {
    forall i, j :: 0 <= i < j < |s| ==> s[i] >= s[j]
  }

  ghost predicate StrictlyDesc(s: seq<int>) {
    forall i, j :: 0 <= i < j < |s| ==> s[i] > s[j]
  }

  /** Inserts `x` into a descending sequence before the first element not above it. */
  function Insert(x: int, s: seq<int>): seq<int> {
    if s == [] then [x]
    else if x >= s[0] then [x] + s
    else [s[0]] + Insert(x, s[1..])
  }

  /** `sorted(s, reverse=True)`. */
  function SortDesc(s: seq<int>): seq<int> {
    if s == [] then [] else Insert(s[0], SortDesc(s[1..]))
  }

  /** Drops every element equal to its successor. */
  function Dedup(s: seq<int>): seq<int> {
    if |s| <= 1 then s
    else if s[0] == s[1] then Dedup(s[1..])
    else [s[0]] + Dedup(s[1..])
  }

  /** The elements of `s` without repetition, highest first: `sorted(set(s), reverse=True)`. */
  function Distinct(s: seq<int>): seq<int> {
    Dedup(SortDesc(s))
  }

  /** `[r for r in s if m[r] == c]`. */
  function WithCount(s: seq<int>, m: multiset<int>, c: int): seq<int> {
    if s == [] then []
    else if m[s[0]] == c then [s[0]] + WithCount(s[1..], m, c)
    else WithCount(s[1..], m, c)
  }

  /** `[m[k] for k in keys]`. */
  function Frequencies(keys: seq<int>, m: multiset<int>): seq<int> {
    if keys == [] then [] else [m[keys[0]]] + Frequencies(keys[1..], m)
  }

  lemma {:induction false} InsertCount(x: int, s: seq<int>)
    ensures |Insert(x, s)| == |s| + 1
    ensures multiset(Insert(x, s)) == multiset(s) + multiset{x}
  {
    if s != [] && x < s[0] {
      assert s == [s[0]] + s[1..];
      InsertCount(x, s[1..]);
    }
  }

  /** Putting `y` in front of a descending sequence whose elements are all at most `y`
      keeps it descending. */
  lemma ConsSorted(y: int, t: seq<int>)
    requires SortedDesc(t) && forall z :: z in t ==> z <= y
    ensures SortedDesc([y] + t)
  {
    forall i, j | 0 <= i < j < |t| + 1 ensures ([y] + t)[i] >= ([y] + t)[j] {
      assert ([y] + t)[j] == t[j - 1];
      if i > 0 { assert ([y] + t)[i] == t[i - 1]; }
      else { assert t[j - 1] in t; }
    }
  }

  lemma {:induction false} InsertSorted(x: int, s: seq<int>)
    requires SortedDesc(s)
    ensures SortedDesc(Insert(x, s))
  {
    if s == [] {
    } else if x >= s[0] {
      forall z | z in s ensures z <= x {
        var j :| 0 <= j < |s| && s[j] == z;
        assert s[0] >= s[j];
      }
      ConsSorted(x, s);
    } else {
      var t := Insert(x, s[1..]);
      assert SortedDesc(s[1..]);
      InsertSorted(x, s[1..]);
      InsertCount(x, s[1..]);
      forall z | z in t ensures z <= s[0] {
        assert z in multiset(t);
        if z != x {
          assert z in multiset(s[1..]);
          var j :| 0 <= j < |s[1..]| && s[1..][j] == z;
          assert s[0] >= s[j + 1];
        }
      }
      ConsSorted(s[0], t);
    }
  }

  /** `SortDesc` returns a descending permutation of its input. */
  lemma {:induction false} SortDescSorted(s: seq<int>)
    ensures |SortDesc(s)| == |s|
    ensures multiset(SortDesc(s)) == multiset(s)
    ensures SortedDesc(SortDesc(s))
  {
    if s != [] {
      assert s == [s[0]] + s[1..];
      SortDescSorted(s[1..]);
      InsertCount(s[0], SortDesc(s[1..]));
      InsertSorted(s[0], SortDesc(s[1..]));
    }
  }

  lemma ConsStrict(y: int, t: seq<int>)
    requires StrictlyDesc(t) && forall z :: z in t ==> z < y
    ensures StrictlyDesc([y] + t)
  {
    forall i, j | 0 <= i < j < |t| + 1 ensures ([y] + t)[i] > ([y] + t)[j] {
      assert ([y] + t)[j] == t[j - 1];
      if i > 0 { assert ([y] + t)[i] == t[i - 1]; }
      else { assert t[j - 1] in t; }
    }
  }

  lemma {:induction false} DedupProperties(s: seq<int>)
    ensures |Dedup(s)| <= |s|
    ensures |s| > 0 ==> |Dedup(s)| > 0
    ensures forall x :: x in Dedup(s) <==> x in s
    ensures SortedDesc(s) ==> StrictlyDesc(Dedup(s))
  {
    if |s| > 1 {
      DedupProperties(s[1..]);
      assert s == [s[0]] + s[1..];
      if s[0] != s[1] {
        var t := Dedup(s[1..]);
        assert SortedDesc(s) ==> StrictlyDesc([s[0]] + t) by {
          if SortedDesc(s) {
            assert SortedDesc(s[1..]);
            forall x | x in t ensures x < s[0] {
              assert x in s[1..];
              var j :| 1 <= j < |s| && s[j] == x;
              assert s[1] >= s[j];
            }
            ConsStrict(s[0], t);
          }
        }
      }
    }
  }

  /** `Distinct(s)` lists each element of `s` once, from highest to lowest. */
  lemma DistinctProperties(s: seq<int>)
    ensures StrictlyDesc(Distinct(s))
    ensures forall x :: x in Distinct(s) <==> x in s
    ensures |Distinct(s)| <= |s|
    ensures |s| > 0 ==> |Distinct(s)| > 0
  {
    SortDescSorted(s);
    DedupProperties(SortDesc(s));
    assert forall x :: x in SortDesc(s) <==> x in multiset(SortDesc(s));
  }

  lemma {:induction false} WithCountMembers(s: seq<int>, m: multiset<int>, c: int)
    ensures forall x :: x in WithCount(s, m, c) <==> x in s && m[x] == c
  {
    if s != [] {
      assert s == [s[0]] + s[1..];
      WithCountMembers(s[1..], m, c);
    }
  }

  lemma {:induction false} FrequenciesAt(keys: seq<int>, m: multiset<int>)
    ensures |Frequencies(keys, m)| == |keys|
    ensures forall i :: 0 <= i < |keys| ==> Frequencies(keys, m)[i] == m[keys[i]]
  {
    if keys != [] {
      FrequenciesAt(keys[1..], m);
    }
  }

  /** Two descending sequences with the same elements (counted with multiplicity) are equal:
      `sorted` has exactly one possible result. */
  lemma {:induction false} SortedUnique(a: seq<int>, b: seq<int>)
    requires SortedDesc(a) && SortedDesc(b)
    requires multiset(a) == multiset(b)
    ensures a == b
  {
    assert |b| == |multiset(b)| == |multiset(a)| == |a|;
    if a != [] {
      SortedHeads(a, b);
      SortedTail(a);
      SortedTail(b);
      SortedUnique(a[1..], b[1..]);
    }
  }

  /** The tail of a non-empty descending sequence is descending and holds the rest of
      its elements. */
  lemma SortedTail(a: seq<int>)
    requires SortedDesc(a) && a != []
    ensures a == [a[0]] + a[1..] && SortedDesc(a[1..])
    ensures multiset(a[1..]) == multiset(a) - multiset{a[0]}
  {
    assert a == [a[0]] + a[1..];
  }

  /** Two non-empty descending sequences with the same elements start with the same
      (largest) element. */
  lemma SortedHeads(a: seq<int>, b: seq<int>)
    requires SortedDesc(a) && SortedDesc(b) && a != [] && b != []
    requires multiset(a) == multiset(b)
    ensures a[0] == b[0]
  {
    assert a[0] in multiset(a);
    assert b[0] in multiset(b);
    var i :| 0 <= i < |b| && b[i] == a[0];
    var j :| 0 <= j < |a| && a[j] == b[0];
    assert b[0] >= b[i];
    assert a[0] >= a[j];
  }

  /** `SortDesc` returns the one descending permutation of its input. */
  lemma SortDescIs(s: seq<int>, t: seq<int>)
    requires SortedDesc(t) && multiset(s) == multiset(t)
    ensures SortDesc(s) == t
  {
    SortDescSorted(s);
    SortedUnique(SortDesc(s), t);
  }

  /** Two strictly descending sequences with the same element set are equal: the
      listing of a set from highest to lowest is unique. */
  lemma {:induction false} StrictUnique(a: seq<int>, b: seq<int>)
    requires StrictlyDesc(a) && StrictlyDesc(b)
    requires forall x :: x in a <==> x in b
    ensures a == b
  {
    if a == [] {
      if b != [] {
        HeadIn(b);
        assert false;
      }
    } else {
      assert a[0] in a;
      assert a[0] in b;
      assert b[0] in b;
      assert b[0] in a;
      assert a[0] == b[0] by {
        var i :| 0 <= i < |b| && b[i] == a[0];
        var j :| 0 <= j < |a| && a[j] == b[0];
        assert b[0] >= b[i] && a[0] >= a[j];
      }
      forall x ensures x in a[1..] <==> x in b[1..] {
        if x in a[1..] {
          assert x < a[0];
          assert x in b;
        }
        if x in b[1..] {
          assert x < b[0];
          assert x in a;
        }
      }
      StrictUnique(a[1..], b[1..]);
      assert a == [a[0]] + a[1..] && b == [b[0]] + b[1..];
    }
  }

  lemma HeadIn(s: seq<int>)
    requires s != []
    ensures s[0] in s
  {
  }

  /** `Distinct` is the one strictly descending listing of the elements of `s`. */
  lemma DistinctIs(s: seq<int>, t: seq<int>)
    requires StrictlyDesc(t) && forall x :: x in t <==> x in s
    ensures Distinct(s) == t
  {
    DistinctProperties(s);
    StrictUnique(Distinct(s), t);
  }

  ghost predicate NoDuplicates(s: seq<int>) {
    forall i, j :: 0 <= i < j < |s| ==> s[i] != s[j]
  }

  /** In a sequence without duplicates every element occurs exactly once. */
  lemma {:induction false} NoDuplicatesCount(s: seq<int>, x: int)
    requires NoDuplicates(s)
    ensures multiset(s)[x] == if x in s then 1 else 0
  {
    if s != [] {
      assert s == [s[0]] + s[1..];
      assert NoDuplicates(s[1..]);
      NoDuplicatesCount(s[1..], x);
      if x == s[0] {
        assert forall j :: 0 <= j < |s[1..]| ==> s[1..][j] != s[0] by {
          forall j | 0 <= j < |s[1..]| ensures s[1..][j] != s[0] {
            assert s[1..][j] == s[j + 1];
          }
        }
        assert x !in s[1..];
      }
    }
  }

  /** Two duplicate-free sequences with the same elements are permutations of each other. */
  lemma SameElementsPermutation(a: seq<int>, b: seq<int>)
    requires NoDuplicates(a) && NoDuplicates(b)
    requires forall x :: x in a <==> x in b
    ensures multiset(a) == multiset(b)
  {
    forall x ensures multiset(a)[x] == multiset(b)[x] {
      NoDuplicatesCount(a, x);
      NoDuplicatesCount(b, x);
    }
  }

  /** The filter keeps every occurrence of the elements it selects, and nothing else. */
  lemma {:induction false} WithCountMultiset(s: seq<int>, m: multiset<int>, c: int, x: int)
    ensures multiset(WithCount(s, m, c))[x] == if m[x] == c then multiset(s)[x] else 0
  {
    if s != [] {
      assert s == [s[0]] + s[1..];
      WithCountMultiset(s[1..], m, c, x);
    }
  }

  lemma FrequenciesAppend(a: seq<int>, b: seq<int>, m: multiset<int>)
    ensures Frequencies(a + b, m) == Frequencies(a, m) + Frequencies(b, m)
  {
    FrequenciesAt(a + b, m);
    FrequenciesAt(a, m);
    FrequenciesAt(b, m);
    var l, r := Frequencies(a + b, m), Frequencies(a, m) + Frequencies(b, m);
    assert |l| == |r|;
    forall i | 0 <= i < |l| ensures l[i] == r[i] {
      if i < |a| { assert (a + b)[i] == a[i]; } else { assert (a + b)[i] == b[i - |a|]; }
    }
  }

  /** The frequencies of a permutation of the keys are a permutation of the frequencies:
      the order in which `Counter` lists its values does not matter once they are sorted. */
  lemma {:induction false} FrequenciesPermutation(a: seq<int>, b: seq<int>, m: multiset<int>)
    requires multiset(a) == multiset(b)
    ensures multiset(Frequencies(a, m)) == multiset(Frequencies(b, m))
    decreases |a|
  {
    assert |a| == |multiset(a)| == |multiset(b)| == |b|;
    if a != [] {
      var x := a[0];
      assert x in multiset(a);
      assert x in b;
      var j :| 0 <= j < |b| && b[j] == x;
      var rest := b[..j] + b[j + 1..];
      assert b == b[..j] + [x] + b[j + 1..];
      assert a == [x] + a[1..];
      assert multiset(rest) == multiset(b) - multiset{x};
      assert multiset(a[1..]) == multiset(a) - multiset{x};
      FrequenciesPermutation(a[1..], rest, m);
      FrequenciesAppend(b[..j], b[j + 1..], m);
      FrequenciesAppend(b[..j] + [x], b[j + 1..], m);
      FrequenciesAppend(b[..j], [x], m);
      FrequenciesAppend([x], a[1..], m);
    }
  }

  lemma StrictNoDuplicates(s: seq<int>)
    requires StrictlyDesc(s)
    ensures NoDuplicates(s)
  {
  }

  /** Sorting keeps the elements. */
  lemma SortDescMembers(s: seq<int>)
    ensures forall x :: x in SortDesc(s) <==> x in s
  {
    SortDescSorted(s);
    forall x ensures x in SortDesc(s) <==> x in s {
      assert x in SortDesc(s) <==> x in multiset(SortDesc(s));
      assert x in s <==> x in multiset(s);
    }
  }

  /** The number of distinct elements is the size of any duplicate-free list of them. */
  lemma DistinctSize(s: seq<int>, keys: seq<int>)
    requires NoDuplicates(keys) && forall x :: x in keys <==> x in s
    ensures |Distinct(s)| == |keys|
    ensures multiset(Distinct(s)) == multiset(keys)
  {
    DistinctProperties(s);
    StrictNoDuplicates(Distinct(s));
    SameElementsPermutation(Distinct(s), keys);
    assert |multiset(Distinct(s))| == |multiset(keys)|;
  }

  /** Sorting first does not change the distinct elements. */
  lemma DistinctOfSorted(s: seq<int>)
    ensures Distinct(SortDesc(s)) == Distinct(s)
  {
    SortDescMembers(s);
    SortDescMembers(SortDesc(s));
    DistinctProperties(s);
    DistinctIs(SortDesc(s), Distinct(s));
  }

  /** The first element kept by the filter, when exactly one value qualifies. */
  lemma WithCountHead(s: seq<int>, m: multiset<int>, c: int, x: int)
    requires x in s && m[x] == c
    requires forall y :: y in s && m[y] == c ==> y == x
    ensures WithCount(s, m, c) != [] && WithCount(s, m, c)[0] == x
  {
    WithCountMembers(s, m, c);
    assert x in WithCount(s, m, c);
    assert WithCount(s, m, c)[0] in WithCount(s, m, c);
  }

  /** The filter's result, up to order, from the occurrences it keeps. */
  lemma WithCountIs(s: seq<int>, m: multiset<int>, c: int, t: seq<int>)
    requires forall x :: multiset(t)[x] == if m[x] == c then multiset(s)[x] else 0
    ensures multiset(WithCount(s, m, c)) == multiset(t)
  {
    forall x ensures multiset(WithCount(s, m, c))[x] == multiset(t)[x] {
      WithCountMultiset(s, m, c, x);
    }
  }
}
