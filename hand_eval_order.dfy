/** How the values of `_classify_hand` and `_evaluate` order hands: where the
    formulas agree with poker's order, and the inputs on which they do not. */
module HandEvalOrder {
  import opened HandEval
  import opened Sorting
  import opened HandEvalFacts

  // ----- Orders the formulas respect -----

  /** Four of a kind: the higher quad rank is better and the kicker is ignored. */
  lemma QuadsOrder(r1: seq<int>, q1: int, k1: int, r2: seq<int>, q2: int, k2: int)
    requires |r1| == 5 && q1 != k1 && multiset(r1) == multiset{q1, q1, q1, q1, k1}
    requires |r2| == 5 && q2 != k2 && multiset(r2) == multiset{q2, q2, q2, q2, k2}
    ensures Classify(r1) < Classify(r2) <==> q1 > q2
    ensures q1 == q2 ==> Classify(r1) == Classify(r2)
  {
    Quads(r1, q1, k1);
    Quads(r2, q2, k2);
  }

  /** A full house: ordered by the trips rank, then by the pair rank. */
  lemma FullHouseOrder(r1: seq<int>, t1: int, p1: int, r2: seq<int>, t2: int, p2: int)
    requires |r1| == 5 && t1 != p1 && multiset(r1) == multiset{t1, t1, t1, p1, p1}
    requires |r2| == 5 && t2 != p2 && multiset(r2) == multiset{t2, t2, t2, p2, p2}
    requires 0 <= p1 <= Ace && 0 <= p2 <= Ace
    ensures Classify(r1) < Classify(r2) <==> t1 > t2 || (t1 == t2 && p1 > p2)
  {
    FullHouse(r1, t1, p1);
    FullHouse(r2, t2, p2);
  }

  /** Straights that are not flushes: the higher straight is better, and the wheel
      (2399) is worse than every other straight of real ranks (1600..1608). */
  lemma StraightOrder(c1: seq<int>, lo1: int, c2: seq<int>, lo2: int)
    requires |c1| == 5 && !SameSuit(c1) && IsRun(Ranks(c1), lo1)
    requires |c2| == 5 && !SameSuit(c2) && IsRun(Ranks(c2), lo2)
    ensures Evaluate(c1) < Evaluate(c2) <==> lo1 > lo2
  {
    Straight(c1, lo1);
    Straight(c2, lo2);
  }

  lemma WheelLowestStraight(wheel: seq<int>, c: seq<int>, lo: int)
    requires |wheel| == 5 && !SameSuit(wheel) && IsWheel(Ranks(wheel))
    requires |c| == 5 && !SameSuit(c) && IsRun(Ranks(c), lo)
    requires forall i :: 0 <= i < 5 ==> RankOf(c[i]) <= Ace
    ensures Evaluate(c) < Evaluate(wheel)
  {
    WheelStraight(wheel);
    Straight(c, lo);
  }

  /** A straight flush beats every hand that is not one. */
  lemma StraightFlushBeatsAll(sf: seq<int>, c: seq<int>)
    requires |sf| == 5 && SameSuit(sf) && IsStraight(Ranks(sf))
    requires |c| == 5 && !(SameSuit(c) && IsStraight(Ranks(c)))
    requires forall i :: 0 <= i < 5 ==> RankOf(sf[i]) <= Ace && RankOf(c[i]) <= Ace
    ensures Evaluate(sf) < Evaluate(c)
  {
    EvaluateBands(sf);
    EvaluateBands(c);
  }

  /** High card: a higher top card always wins, since the other four cards add at
      most 42. */
  lemma HighCardTopDominates(r1: seq<int>, t1: seq<int>, r2: seq<int>, t2: seq<int>)
    requires |r1| == 5 && |t1| == 5 && StrictlyDesc(t1) && multiset(r1) == multiset(t1)
    requires |r2| == 5 && |t2| == 5 && StrictlyDesc(t2) && multiset(r2) == multiset(t2)
    requires t1[4] >= 0 && t2[4] >= 0 && t1[0] <= Ace && t2[0] <= Ace
    requires t1[0] > t2[0]
    ensures Classify(r1) < Classify(r2)
  {
    assert t1 == [t1[0], t1[1], t1[2], t1[3], t1[4]];
    assert t2 == [t2[0], t2[1], t2[2], t2[3], t2[4]];
    HighCard(r1, t1[0], t1[1], t1[2], t1[3], t1[4]);
    HighCard(r2, t2[0], t2[1], t2[2], t2[3], t2[4]);
  }

  // ----- Where the formulas depart from poker's order -----

  /** Two pair: `pairs` is built from the sorted ranks, so both `pairs[0]` and
      `pairs[1]` are the higher pair and the lower pair never counts: A-A-K-K-Q and
      A-A-2-2-Q are worth the same. */
  lemma TwoPairIgnoresLowerPair(r1: seq<int>, b1: int, r2: seq<int>, b2: int, a: int, k: int)
    requires |r1| == 5 && a > b1 && k != a && k != b1 && multiset(r1) == multiset{a, a, b1, b1, k}
    requires |r2| == 5 && a > b2 && k != a && k != b2 && multiset(r2) == multiset{a, a, b2, b2, k}
    ensures Classify(r1) == Classify(r2) == 3000 + 110 * (12 - a) + (12 - k)
  {
    TwoPair(r1, a, b1, k);
    TwoPair(r2, a, b2, k);
  }

  /** Three of a kind: the kickers A-6 and K-T are worth the same (100 + 225 and
      200 + 125). */
  lemma TripsKickerCollision(r1: seq<int>, r2: seq<int>, t: int)
    requires t != 12 && t != 4 && t != 11 && t != 8
    requires |r1| == 5 && multiset(r1) == multiset{t, t, t, 12, 4}
    requires |r2| == 5 && multiset(r2) == multiset{t, t, t, 11, 8}
    ensures Classify(r1) == Classify(r2)
  {
    Trips(r1, t, 12, 4);
    Trips(r2, t, 11, 8);
  }

  /** One pair: the kicker weights 100, 25, 6 let later kickers outweigh earlier
      ones, so K-4-3 behind a pair loses to Q-J-T. */
  lemma PairKickersMisordered(r1: seq<int>, r2: seq<int>, p: int)
    requires p != 11 && p != 2 && p != 1 && p != 10 && p != 9 && p != 8
    requires |r1| == 5 && multiset(r1) == multiset{p, p, 11, 2, 1}
    requires |r2| == 5 && multiset(r2) == multiset{p, p, 10, 9, 8}
    ensures Classify(r2) < Classify(r1)
  {
    Pair(r1, p, 11, 2, 1);
    Pair(r2, p, 10, 9, 8);
  }

  /** One pair: the kickers can outweigh the pair rank; A-A-4-3-2 (5478) loses to
      K-K-A-Q-J (5199). */
  lemma PairRankOutweighed(r1: seq<int>, r2: seq<int>)
    requires |r1| == 5 && multiset(r1) == multiset{12, 12, 2, 1, 0}
    requires |r2| == 5 && multiset(r2) == multiset{11, 11, 12, 10, 9}
    ensures Classify(r1) == 5478 && Classify(r2) == 5199
  {
    Pair(r1, 12, 2, 1, 0);
    Pair(r2, 11, 12, 10, 9);
  }

  /** A pair of deuces with A-K-Q (16168) loses to ace-high (6211): the pair band
      runs far past the start of the high-card band. */
  lemma LowPairLosesToAceHigh(pair: seq<int>, high: seq<int>)
    requires |pair| == 5 && multiset(pair) == multiset{0, 0, 12, 11, 10}
    requires |high| == 5 && multiset(high) == multiset{12, 11, 10, 9, 7}
    ensures Classify(pair) == 16168 && Classify(high) == 6211
  {
    Pair(pair, 0, 12, 11, 10);
    HighCard(high, 12, 11, 10, 9, 7);
  }

  /** High card: the four lower cards only count through their sum, so A-K-4-3-2 and
      A-Q-5-3-2 are worth the same. */
  lemma HighCardKickerCollision(r1: seq<int>, r2: seq<int>)
    requires |r1| == 5 && multiset(r1) == multiset{12, 11, 2, 1, 0}
    requires |r2| == 5 && multiset(r2) == multiset{12, 10, 3, 1, 0}
    ensures Classify(r1) == Classify(r2)
  {
    HighCard(r1, 12, 11, 2, 1, 0);
    HighCard(r2, 12, 10, 3, 1, 0);
  }

  /** The K-high straight flush (`12 - 11`) and the wheel straight flush share the
      value 1. */
  lemma KingHighStraightFlushTiesWheel(king: seq<int>, wheel: seq<int>)
    requires |king| == 5 && SameSuit(king) && IsRun(Ranks(king), 7)
    requires |wheel| == 5 && SameSuit(wheel) && IsWheel(Ranks(wheel))
    ensures Evaluate(king) == Evaluate(wheel) == 1
  {
    StraightFlush(king, 7);
    WheelFlush(wheel);
  }

  /** The wheel straight flush (1) beats every straight flush up to queen-high
      (`12 - high` is 8 for 6-high down to 2 for queen-high): it is not the weakest
      straight flush. */
  lemma WheelFlushBeatsLowStraightFlushes(wheel: seq<int>, sf: seq<int>, lo: int)
    requires |wheel| == 5 && SameSuit(wheel) && IsWheel(Ranks(wheel))
    requires |sf| == 5 && SameSuit(sf) && IsRun(Ranks(sf), lo)
    ensures Evaluate(wheel) < Evaluate(sf) <==> lo < 7
  {
    WheelFlush(wheel);
    StraightFlush(sf, lo);
  }

  /** A king-high flush K-J-9-7-5 (2424) loses to an ace-high straight (1600): a flush
      only beats a straight when it is ace-high. */
  lemma KingHighFlushLosesToStraight(flush: seq<int>, straight: seq<int>)
    requires |flush| == 5 && SameSuit(flush) && multiset(Ranks(flush)) == multiset{11, 9, 7, 5, 3}
    requires |straight| == 5 && !SameSuit(straight) && IsRun(Ranks(straight), 8)
    ensures Evaluate(flush) == 2424 && Evaluate(straight) == 1600
  {
    var ranks := Ranks(flush);
    forall x ensures x in ranks <==> x in multiset{11, 9, 7, 5, 3} {
      assert x in ranks <==> x in multiset(ranks);
    }
    NotStraight(ranks, 11, 3, 11);
    Flush(flush, 11, 9, 7, 5, 3);
    Straight(straight, 8);
  }
}
