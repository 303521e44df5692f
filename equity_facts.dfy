/** What the equity estimates compute: one round decides everything, the result is a
    share in [0, 1], the best opponent is the minimum over the opponents, and the
    degenerate inputs end as the code ends them. */
module EquityFacts {
  import opened Results
  import opened HandEval
  import opened EquityCalc

  /** `b` is a finite value no worse (no larger) than `v`. */
  predicate AtMost(b: Bound, v: int) {
    b.Finite? && b.n <= v
  }

  /** The share one round earns: the full pot for a win, `1 / len(opps)` for a tie
      (the code does not count how many opponents tie), nothing for a loss. */
  function RoundShare(mine: int, best: Bound, opponents: nat): real
    requires opponents > 0
  {
    if best.Infinity? || mine < best.n then 1.0
    else if mine == best.n then 1.0 / opponents as real
    else 0.0
  }

  // ----- How many rounds -----

  /** `simulations` equal rounds earn what one round earns. */
  lemma TallyOneRound(mine: int, best: Bound, opponents: nat, simulations: int)
    requires opponents > 0 && simulations > 0
    ensures Tally(mine, best, opponents, simulations) == Ok(RoundShare(mine, best, opponents))
  {
    var n := simulations as real;
    var o := opponents as real;
    var (w, t) := Outcome(mine, best);
    assert Tally(mine, best, opponents, simulations) ==
      Ok(((w * simulations) as real + (t * simulations) as real / o) / n);
    if w == 1 {
      assert t == 0 && (w * simulations) as real == n;
      assert (n + 0.0 / o) / n == 1.0;
    } else if t == 1 {
      assert (t * simulations) as real == n;
      calc {
        (0.0 + n / o) / n;
        (n / o) / n;
        { assert n / o == n * (1.0 / o); }
        (n * (1.0 / o)) / n;
        1.0 / o;
      }
    } else {
      assert w == 0 && t == 0;
    }
  }

  /** Every share lies between 0 and 1. */
  lemma RoundShareRange(mine: int, best: Bound, opponents: nat)
    requires opponents > 0
    ensures 0.0 <= RoundShare(mine, best, opponents) <= 1.0
  {
    if !(best.Infinity? || mine < best.n) && mine == best.n {
      assert 1.0 / opponents as real <= 1.0 / 1.0;
    }
  }

  // ----- `estimate_equity_5cards` -----

  /** With at least one round and at least one opponent, the estimate is the share of
      one round. */
  lemma Equity5OneRound(myHand: seq<CardValue>, opps: seq<seq<CardValue>>, simulations: int)
    requires |myHand| == 5 && EvaluateFive(myHand).Ok?
    requires opps != [] && simulations > 0 && Scan5(opps, Infinity, None).Ok?
    ensures Equity5(myHand, opps, simulations) ==
      Ok(RoundShare(EvaluateFive(myHand).value, Scan5(opps, Infinity, None).value.0, |opps|))
  {
    Equity5Cases(myHand, opps, simulations, EvaluateFive(myHand).value);
    TallyOneRound(EvaluateFive(myHand).value, Scan5(opps, Infinity, None).value.0, |opps|, simulations);
  }

  /** The number of rounds does not matter once there is one. */
  lemma Equity5RoundsIrrelevant(myHand: seq<CardValue>, opps: seq<seq<CardValue>>, n: int, m: int)
    requires n > 0 && m > 0
    ensures Equity5(myHand, opps, n) == Equity5(myHand, opps, m)
  {
    if |myHand| == 5 && EvaluateFive(myHand).Ok? {
      var mine := EvaluateFive(myHand).value;
      Equity5Cases(myHand, opps, n, mine);
      Equity5Cases(myHand, opps, m, mine);
      if opps != [] && Scan5(opps, Infinity, None).Ok? {
        TallyOneRound(mine, Scan5(opps, Infinity, None).value.0, |opps|, n);
        TallyOneRound(mine, Scan5(opps, Infinity, None).value.0, |opps|, m);
      }
    }
  }

  /** The estimate is a share between 0 and 1. */
  lemma Equity5Range(myHand: seq<CardValue>, opps: seq<seq<CardValue>>, simulations: int)
    ensures Equity5(myHand, opps, simulations).Ok? ==>
      0.0 <= Equity5(myHand, opps, simulations).value <= 1.0
  {
    if |myHand| == 5 && EvaluateFive(myHand).Ok? {
      var mine := EvaluateFive(myHand).value;
      Equity5Cases(myHand, opps, simulations, mine);
      if opps != [] && simulations > 0 && Scan5(opps, Infinity, None).Ok? {
        Equity5OneRound(myHand, opps, simulations);
        RoundShareRange(mine, Scan5(opps, Infinity, None).value.0, |opps|);
      }
    }
  }

  /** The checks before any round: a hero hand that is not five cards, then a hero
      hand that does not evaluate. */
  lemma Equity5HeroChecks(myHand: seq<CardValue>, opps: seq<seq<CardValue>>, simulations: int)
    ensures |myHand| != 5 ==> Equity5(myHand, opps, simulations) == Err(HeroHandSize(5))
    ensures |myHand| == 5 && EvaluateFive(myHand).Err? ==>
      Equity5(myHand, opps, simulations) == Err(EvaluateFive(myHand).error)
  {
  }

  /** No opponents give 0 for any number of rounds; with opponents, zero rounds divide
      by zero and a negative count gives 0. */
  lemma Equity5Degenerate(myHand: seq<CardValue>, opps: seq<seq<CardValue>>, simulations: int)
    requires |myHand| == 5 && EvaluateFive(myHand).Ok?
    ensures opps == [] ==> Equity5(myHand, opps, simulations) == Ok(0.0)
    ensures opps != [] && simulations == 0 ==> Equity5(myHand, opps, simulations) == Err(ZeroDivision)
    ensures opps != [] && simulations < 0 ==> Equity5(myHand, opps, simulations) == Ok(0.0)
  {
    Equity5Cases(myHand, opps, simulations, EvaluateFive(myHand).value);
    if opps == [] && simulations > 0 {
      assert Scan5(opps, Infinity, None) == Ok((Infinity, None));
    }
  }

  /** A hand against an identical copy of itself ties, and a tie against one opponent
      credits the whole pot: the estimate is 1, not the even split of 0.5. */
  lemma Equity5IdenticalHands(hand: seq<CardValue>, simulations: int)
    requires |hand| == 5 && EvaluateFive(hand).Ok? && simulations > 0
    ensures Equity5(hand, [hand], simulations) == Ok(1.0)
  {
    var mine := EvaluateFive(hand).value;
    assert [hand][1..] == [];
    assert Scan5([hand], Infinity, None) == Ok((Finite(mine), Some(mine)));
    Equity5OneRound(hand, [hand], simulations);
  }

  /** Two copies of the hero's hand against it: a three-way tie, which the code
      credits with 1/2 rather than a third. */
  lemma Equity5TwoCopies(hand: seq<CardValue>, simulations: int)
    requires |hand| == 5 && EvaluateFive(hand).Ok? && simulations > 0
    ensures Equity5(hand, [hand, hand], simulations) == Ok(0.5)
  {
    var mine := EvaluateFive(hand).value;
    Scan5Pair(hand, hand);
    Equity5OneRound(hand, [hand, hand], simulations);
  }

  // ----- One round of `estimate_equity_5cards` -----

  /** A successful round evaluates every five-card opponent, and its best value is at
      most each of theirs and at most the starting `best`; it is the starting `best`,
      the carried-over `opp_rank`, or the value of one five-card opponent. */
  lemma {:induction false} Scan5Minimum(opps: seq<seq<CardValue>>, best: Bound, last: Option<int>)
    requires Scan5(opps, best, last).Ok?
    ensures var b := Scan5(opps, best, last).value.0;
      && (forall i :: 0 <= i < |opps| && |opps[i]| == 5 ==>
            EvaluateFive(opps[i]).Ok? && AtMost(b, EvaluateFive(opps[i]).value))
      && (best.Finite? ==> AtMost(b, best.n))
      && (b == best || (last.Some? && b == Finite(last.value)) ||
          exists i :: 0 <= i < |opps| && |opps[i]| == 5 && b == Finite(EvaluateFive(opps[i]).value))
  {
    if opps != [] {
      var rest := opps[1..];
      assert forall i :: 0 < i < |opps| ==> opps[i] == rest[i - 1];
      if |opps[0]| == 5 {
        var rank := EvaluateFive(opps[0]).value;
        Scan5Minimum(rest, MinBound(best, rank), Some(rank));
        var b := Scan5(opps, best, last).value.0;
        if b == Finite(rank) {
        } else if b == MinBound(best, rank) {
        } else {
          var i :| 0 <= i < |rest| && |rest[i]| == 5 && b == Finite(EvaluateFive(rest[i]).value);
          assert opps[i + 1] == rest[i];
        }
      } else {
        Scan5Minimum(rest, MinBound(best, last.value), last);
        var b := Scan5(opps, best, last).value.0;
        if b != MinBound(best, last.value) && b != Finite(last.value) {
          var i :| 0 <= i < |rest| && |rest[i]| == 5 && b == Finite(EvaluateFive(rest[i]).value);
          assert opps[i + 1] == rest[i];
        }
      }
    }
  }

  /** A round against two five-card hands ends with the lower of their values, and the
      second hand's value in `opp_rank`. */
  lemma Scan5Pair(a: seq<CardValue>, b: seq<CardValue>)
    requires |a| == 5 && EvaluateFive(a).Ok? && |b| == 5 && EvaluateFive(b).Ok?
    ensures var x, y := EvaluateFive(a).value, EvaluateFive(b).value;
      Scan5([a, b], Infinity, None) == Ok((Finite(if y < x then y else x), Some(y)))
  {
    var x, y := EvaluateFive(a).value, EvaluateFive(b).value;
    assert [a, b][1..] == [b];
    assert [b][1..] == [];
    assert Scan5([b], Finite(x), Some(x)) == Scan5([], MinBound(Finite(x), y), Some(y));
  }

  /** An opponent's hand that is not five cards is never evaluated: it counts with the
      value of the hand before it, and as the first hand it ends the round with
      Python's `UnboundLocalError`. */
  lemma Scan5ShortHand(first: seq<CardValue>, short: seq<CardValue>)
    requires |first| == 5 && EvaluateFive(first).Ok? && |short| != 5
    ensures Scan5([first, short], Infinity, None) ==
      Ok((Finite(EvaluateFive(first).value), Some(EvaluateFive(first).value)))
    ensures Scan5([short, first], Infinity, None) == Err(UnboundOpponentRank)
  {
    var rank := EvaluateFive(first).value;
    assert [first, short][1..] == [short];
    assert [short][1..] == [];
    assert Scan5([short], Finite(rank), Some(rank)) == Ok((Finite(rank), Some(rank)));
  }

  // ----- `estimate_equity_7cards` -----

  /** With at least one round and at least one opponent, the estimate is the share of
      one round. */
  lemma Equity7OneRound(myCards: seq<CardValue>, opps: seq<seq<CardValue>>, simulations: int)
    requires |myCards| == 7 && EvaluateSeven(myCards).Ok?
    requires opps != [] && simulations > 0 && Scan7(opps, Infinity).Ok?
    ensures Equity7(myCards, opps, simulations) ==
      Ok(RoundShare(EvaluateSeven(myCards).value, Scan7(opps, Infinity).value, |opps|))
  {
    Equity7Cases(myCards, opps, simulations, EvaluateSeven(myCards).value);
    TallyOneRound(EvaluateSeven(myCards).value, Scan7(opps, Infinity).value, |opps|, simulations);
  }

  /** The number of rounds does not matter once there is one. */
  lemma Equity7RoundsIrrelevant(myCards: seq<CardValue>, opps: seq<seq<CardValue>>, n: int, m: int)
    requires n > 0 && m > 0
    ensures Equity7(myCards, opps, n) == Equity7(myCards, opps, m)
  {
    if |myCards| == 7 && EvaluateSeven(myCards).Ok? {
      var mine := EvaluateSeven(myCards).value;
      Equity7Cases(myCards, opps, n, mine);
      Equity7Cases(myCards, opps, m, mine);
      if opps != [] && Scan7(opps, Infinity).Ok? {
        TallyOneRound(mine, Scan7(opps, Infinity).value, |opps|, n);
        TallyOneRound(mine, Scan7(opps, Infinity).value, |opps|, m);
      }
    }
  }

  /** The estimate is a share between 0 and 1. */
  lemma Equity7Range(myCards: seq<CardValue>, opps: seq<seq<CardValue>>, simulations: int)
    ensures Equity7(myCards, opps, simulations).Ok? ==>
      0.0 <= Equity7(myCards, opps, simulations).value <= 1.0
  {
    if |myCards| == 7 && EvaluateSeven(myCards).Ok? {
      var mine := EvaluateSeven(myCards).value;
      Equity7Cases(myCards, opps, simulations, mine);
      if opps != [] && simulations > 0 && Scan7(opps, Infinity).Ok? {
        Equity7OneRound(myCards, opps, simulations);
        RoundShareRange(mine, Scan7(opps, Infinity).value, |opps|);
      }
    }
  }

  /** The checks before any round. */
  lemma Equity7HeroChecks(myCards: seq<CardValue>, opps: seq<seq<CardValue>>, simulations: int)
    ensures |myCards| != 7 ==> Equity7(myCards, opps, simulations) == Err(HeroHandSize(7))
    ensures |myCards| == 7 && EvaluateSeven(myCards).Err? ==>
      Equity7(myCards, opps, simulations) == Err(EvaluateSeven(myCards).error)
  {
  }

  /** No opponents give 0 for any number of rounds; with opponents, zero rounds divide
      by zero and a negative count gives 0. */
  lemma Equity7Degenerate(myCards: seq<CardValue>, opps: seq<seq<CardValue>>, simulations: int)
    requires |myCards| == 7 && EvaluateSeven(myCards).Ok?
    ensures opps == [] ==> Equity7(myCards, opps, simulations) == Ok(0.0)
    ensures opps != [] && simulations == 0 ==> Equity7(myCards, opps, simulations) == Err(ZeroDivision)
    ensures opps != [] && simulations < 0 ==> Equity7(myCards, opps, simulations) == Ok(0.0)
  {
    Equity7Cases(myCards, opps, simulations, EvaluateSeven(myCards).value);
    if opps == [] && simulations > 0 {
      assert Scan7(opps, Infinity) == Ok(Infinity);
    }
  }

  /** Identical seven-card sets tie, and the estimate is 1, not 0.5. */
  lemma Equity7IdenticalHands(cards: seq<CardValue>, simulations: int)
    requires |cards| == 7 && EvaluateSeven(cards).Ok? && simulations > 0
    ensures Equity7(cards, [cards], simulations) == Ok(1.0)
  {
    var mine := EvaluateSeven(cards).value;
    assert [cards][1..] == [];
    assert Scan7([cards], Infinity) == Ok(Finite(mine));
    Equity7OneRound(cards, [cards], simulations);
  }

  // ----- One round of `estimate_equity_7cards` -----

  /** A round succeeds exactly when every opponent holds seven cards that evaluate; its
      best value is then at most each opponent's and the starting `best`, and is the
      starting `best` or one opponent's value. */
  lemma Scan7Minimum(opps: seq<seq<CardValue>>, best: Bound)
    ensures Scan7(opps, best).Ok? <==>
      forall i :: 0 <= i < |opps| ==> |opps[i]| == 7 && EvaluateSeven(opps[i]).Ok?
    ensures Scan7(opps, best).Ok? ==>
      var b := Scan7(opps, best).value;
      && (forall i :: 0 <= i < |opps| ==> AtMost(b, EvaluateSeven(opps[i]).value))
      && (best.Finite? ==> AtMost(b, best.n))
      && (b == best || exists i :: 0 <= i < |opps| && b == Finite(EvaluateSeven(opps[i]).value))
  {
    Scan7Succeeds(opps, best);
    if Scan7(opps, best).Ok? {
      Scan7Bounds(opps, best);
    }
  }

  /** The success half of `Scan7Minimum`. */
  lemma {:induction false} Scan7Succeeds(opps: seq<seq<CardValue>>, best: Bound)
    ensures Scan7(opps, best).Ok? <==>
      forall i :: 0 <= i < |opps| ==> |opps[i]| == 7 && EvaluateSeven(opps[i]).Ok?
  {
    if opps != [] {
      var rest := opps[1..];
      assert forall i :: 0 < i < |opps| ==> opps[i] == rest[i - 1];
      if |opps[0]| == 7 && EvaluateSeven(opps[0]).Ok? {
        Scan7Succeeds(rest, MinBound(best, EvaluateSeven(opps[0]).value));
      }
    }
  }

  /** The bounds half of `Scan7Minimum`. */
  lemma {:induction false} Scan7Bounds(opps: seq<seq<CardValue>>, best: Bound)
    requires Scan7(opps, best).Ok?
    ensures var b := Scan7(opps, best).value;
      && (forall i :: 0 <= i < |opps| ==>
            |opps[i]| == 7 && EvaluateSeven(opps[i]).Ok? && AtMost(b, EvaluateSeven(opps[i]).value))
      && (best.Finite? ==> AtMost(b, best.n))
      && (b == best ||
          exists i :: 0 <= i < |opps| && EvaluateSeven(opps[i]).Ok? && b == Finite(EvaluateSeven(opps[i]).value))
  {
    if opps != [] {
      var rest := opps[1..];
      assert forall i :: 0 < i < |opps| ==> opps[i] == rest[i - 1];
      var rank := EvaluateSeven(opps[0]).value;
      Scan7Bounds(rest, MinBound(best, rank));
      var b := Scan7(opps, best).value;
      if b != MinBound(best, rank) {
        var i :| 0 <= i < |rest| && EvaluateSeven(rest[i]).Ok? && b == Finite(EvaluateSeven(rest[i]).value);
        assert opps[i + 1] == rest[i];
      }
    }
  }

  /** The first opponent that is not seven cards, after opponents that all evaluate,
      ends the round with the code's `ValueError`. */
  lemma {:induction false} Scan7SizeError(opps: seq<seq<CardValue>>, best: Bound, k: nat)
    requires k < |opps| && |opps[k]| != 7
    requires forall i :: 0 <= i < k ==> |opps[i]| == 7 && EvaluateSeven(opps[i]).Ok?
    ensures Scan7(opps, best) == Err(OpponentHandSize)
  {
    if k > 0 {
      var rest := opps[1..];
      assert forall i :: 0 <= i < k - 1 ==> rest[i] == opps[i + 1];
      Scan7SizeError(rest, MinBound(best, EvaluateSeven(opps[0]).value), k - 1);
    }
  }
}
