/** `itertools.combinations(s, k)`: the k-element subsequences of `s`, in the
    order Python produces them (lexicographic in the chosen positions). */
module Combinations {

  function Binomial(n: nat, k: nat): nat {
    if k == 0 then 1 else if n == 0 then 0 else Binomial(n - 1, k - 1) + Binomial(n - 1, k)
  }

  /** Puts `x` in front of every sequence of `css`. */
  function Prefixed<T>(x: T, css: seq<seq<T>>): seq<seq<T>> {
    if css == [] then [] else [[x] + css[0]] + Prefixed(x, css[1..])
  }

  /** The combinations that use the first element come first, then those that skip it. */
  function Choose<T>(s: seq<T>, k: nat): seq<seq<T>>
    decreases |s|
  {
    if k == 0 then [[]]
    else if s == [] then []
    else Prefixed(s[0], Choose(s[1..], k - 1)) + Choose(s[1..], k)
  }

  lemma {:induction false} PrefixedAt<T>(x: T, css: seq<seq<T>>)
    ensures |Prefixed(x, css)| == |css|
    ensures forall i :: 0 <= i < |css| ==> Prefixed(x, css)[i] == [x] + css[i]
  {
    if css != [] { PrefixedAt(x, css[1..]); }
  }

  /** Pascal's rule. */
  lemma Pascal(n: nat, k: nat)
    ensures Binomial(n + 1, k + 1) == Binomial(n, k) + Binomial(n, k + 1)
  {
  }

  /** C(n, 0) = C(n, n) = 1. */
  lemma {:induction false} BinomialEdges(n: nat)
    ensures Binomial(n, 0) == 1 && Binomial(n, n) == 1
  {
    if n > 0 {
      BinomialEdges(n - 1);
      BinomialAbove(n - 1, n);
    }
  }

  /** C(n, k) = 0 for k > n. */
  lemma {:induction false} BinomialAbove(n: nat, k: nat)
    requires k > n
    ensures Binomial(n, k) == 0
  {
    if n > 0 {
      BinomialAbove(n - 1, k - 1);
      BinomialAbove(n - 1, k);
    }
  }

  /** There are C(n, k) combinations. */
  lemma {:induction false} ChooseCount<T>(s: seq<T>, k: nat)
    ensures |Choose(s, k)| == Binomial(|s|, k)
    decreases |s|
  {
    if k > 0 && s != [] {
      ChooseCount(s[1..], k - 1);
      ChooseCount(s[1..], k);
      PrefixedAt(s[0], Choose(s[1..], k - 1));
    }
  }

  /** There is a combination whenever k does not exceed the length. */
  lemma {:induction false} ChooseNonEmpty<T>(s: seq<T>, k: nat)
    requires k <= |s|
    ensures Choose(s, k) != []
    decreases |s|
  {
    if k > 0 {
      ChooseNonEmpty(s[1..], k - 1);
      PrefixedAt(s[0], Choose(s[1..], k - 1));
    }
  }

  /** Every member of `Prefixed(x, css)` is `x` in front of a member of `css`. */
  lemma PrefixedMember<T>(x: T, css: seq<seq<T>>, c: seq<T>)
    requires c in Prefixed(x, css)
    ensures exists d :: d in css && c == [x] + d
  {
    PrefixedAt(x, css);
    var j :| 0 <= j < |Prefixed(x, css)| && Prefixed(x, css)[j] == c;
    assert css[j] in css;
  }

  /** Every combination has length k. */
  lemma {:induction false} ChooseLengths<T>(s: seq<T>, k: nat)
    ensures forall c :: c in Choose(s, k) ==> |c| == k
    decreases |s|
  {
    if k > 0 && s != [] {
      ChooseLengths(s[1..], k - 1);
      ChooseLengths(s[1..], k);
      forall c | c in Choose(s, k) ensures |c| == k {
        if c in Prefixed(s[0], Choose(s[1..], k - 1)) {
          PrefixedMember(s[0], Choose(s[1..], k - 1), c);
        }
      }
    }
  }

  /** `idx` lists positions of a sequence of length `n` in strictly increasing order. */
  ghost predicate Increasing(idx: seq<int>, n: int) {
    && (forall i :: 0 <= i < |idx| ==> 0 <= idx[i] < n)
    && (forall i, j :: 0 <= i < j < |idx| ==> idx[i] < idx[j])
  }

  /** The elements of `s` at the positions `idx`. */
  ghost function Pick<T>(s: seq<T>, idx: seq<int>): seq<T>
    requires forall i :: 0 <= i < |idx| ==> 0 <= idx[i] < |s|
  {
    seq(|idx|, i requires 0 <= i < |idx| => s[idx[i]])
  }

  ghost function Shift(idx: seq<int>): seq<int> {
    seq(|idx|, i requires 0 <= i < |idx| => idx[i] - 1)
  }

  lemma InPrefixed<T>(x: T, css: seq<seq<T>>, c: seq<T>)
    requires c in css
    ensures [x] + c in Prefixed(x, css)
  {
    var j :| 0 <= j < |css| && css[j] == c;
    PrefixedAt(x, css);
    assert Prefixed(x, css)[j] == [x] + c;
  }

  lemma ChooseUnfold<T>(s: seq<T>, k: nat)
    requires k > 0 && s != []
    ensures Choose(s, k) == Prefixed(s[0], Choose(s[1..], k - 1)) + Choose(s[1..], k)
  {
  }

  /** Dropping the first element moves every later position down by one. */
  lemma ShiftIncreasing(idx: seq<int>, n: int)
    requires Increasing(idx, n)
    requires forall i :: 0 <= i < |idx| ==> idx[i] > 0
    ensures Increasing(Shift(idx), n - 1)
  {
  }

  lemma PickShift<T>(s: seq<T>, idx: seq<int>)
    requires s != []
    requires forall i :: 0 <= i < |idx| ==> 0 < idx[i] < |s|
    ensures forall i :: 0 <= i < |Shift(idx)| ==> 0 <= Shift(idx)[i] < |s[1..]|
    ensures Pick(s, idx) == Pick(s[1..], Shift(idx))
  {
  }

  lemma PickCons<T>(s: seq<T>, idx: seq<int>)
    requires idx != [] && forall i :: 0 <= i < |idx| ==> 0 <= idx[i] < |s|
    ensures Pick(s, idx) == [s[idx[0]]] + Pick(s, idx[1..])
  {
  }

  lemma InConcat<T>(x: T, a: seq<T>, b: seq<T>)
    requires x in a || x in b
    ensures x in a + b
  {
    if x in a {
      var j :| 0 <= j < |a| && a[j] == x;
      assert (a + b)[j] == x;
    } else {
      var j :| 0 <= j < |b| && b[j] == x;
      assert (a + b)[|a| + j] == x;
    }
  }

  lemma TailAboveHead(idx: seq<int>, n: int)
    requires Increasing(idx, n) && idx != []
    ensures Increasing(idx[1..], n)
    ensures forall i :: 0 <= i < |idx[1..]| ==> idx[1..][i] > idx[0]
  {
    forall i | 0 <= i < |idx[1..]| ensures idx[1..][i] > idx[0] {
      assert idx[1..][i] == idx[i + 1];
    }
  }

  lemma AllAboveZero(idx: seq<int>, n: int)
    requires Increasing(idx, n) && idx != [] && idx[0] != 0
    ensures forall i :: 0 <= i < |idx| ==> idx[i] > 0
  {
    forall i | 0 <= i < |idx| ensures idx[i] > 0 {
      assert idx[0] <= idx[i];
    }
  }

  /** Every choice of k positions, in increasing order, yields a member of `Choose(s, k)`. */
  lemma {:induction false} ChooseComplete<T>(s: seq<T>, idx: seq<int>)
    requires Increasing(idx, |s|)
    ensures Pick(s, idx) in Choose(s, |idx|)
    decreases |s|, 1
  {
    if idx == [] {
      assert Pick(s, idx) == [];
      assert Choose(s, 0)[0] == [];
    } else if idx[0] == 0 {
      ChooseCompleteTaking(s, idx);
    } else {
      ChooseCompleteSkipping(s, idx);
    }
  }

  /** The combinations that take the first element. */
  lemma {:induction false} ChooseCompleteTaking<T>(s: seq<T>, idx: seq<int>)
    requires Increasing(idx, |s|) && idx != [] && idx[0] == 0
    ensures Pick(s, idx) in Choose(s, |idx|)
    decreases |s|, 0
  {
    var k := |idx|;
    ChooseUnfold(s, k);
    var rest := idx[1..];
    TailAboveHead(idx, |s|);
    ShiftIncreasing(rest, |s|);
    PickShift(s, rest);
    ChooseComplete(s[1..], Shift(rest));
    InPrefixed(s[0], Choose(s[1..], k - 1), Pick(s[1..], Shift(rest)));
    PickCons(s, idx);
    InConcat(Pick(s, idx), Prefixed(s[0], Choose(s[1..], k - 1)), Choose(s[1..], k));
  }

  /** The combinations that skip the first element. */
  lemma {:induction false} ChooseCompleteSkipping<T>(s: seq<T>, idx: seq<int>)
    requires Increasing(idx, |s|) && idx != [] && idx[0] != 0
    ensures Pick(s, idx) in Choose(s, |idx|)
    decreases |s|, 0
  {
    var k := |idx|;
    ChooseUnfold(s, k);
    AllAboveZero(idx, |s|);
    ShiftIncreasing(idx, |s|);
    PickShift(s, idx);
    ChooseComplete(s[1..], Shift(idx));
    InConcat(Pick(s, idx), Prefixed(s[0], Choose(s[1..], k - 1)), Choose(s[1..], k));
  }

  ghost function Unshift(idx: seq<int>): seq<int> {
    seq(|idx|, i requires 0 <= i < |idx| => idx[i] + 1)
  }

  lemma UnshiftPick<T>(s: seq<T>, inner: seq<int>)
    requires s != [] && Increasing(inner, |s| - 1)
    ensures Increasing(Unshift(inner), |s|) && Increasing([0] + Unshift(inner), |s|)
    ensures Pick(s, Unshift(inner)) == Pick(s[1..], inner)
    ensures Pick(s, [0] + Unshift(inner)) == [s[0]] + Pick(s[1..], inner)
  {
  }

  /** Every member of `Choose(s, k)` is the pick of some k increasing positions. */
  lemma {:induction false} ChooseSound<T>(s: seq<T>, k: nat, c: seq<T>) returns (idx: seq<int>)
    requires c in Choose(s, k)
    ensures |idx| == k && Increasing(idx, |s|) && c == Pick(s, idx)
    decreases |s|
  {
    if k == 0 {
      idx := [];
    } else {
      assert s != [];
      ChooseUnfold(s, k);
      var inners := Choose(s[1..], k - 1);
      var with := Prefixed(s[0], inners);
      if c in with {
        PrefixedAt(s[0], inners);
        var j :| 0 <= j < |with| && with[j] == c;
        var inner := ChooseSound(s[1..], k - 1, inners[j]);
        UnshiftPick(s, inner);
        idx := [0] + Unshift(inner);
      } else {
        var inner := ChooseSound(s[1..], k, c);
        UnshiftPick(s, inner);
        idx := Unshift(inner);
      }
    }
  }
}
