/** The cases of `equity/tests/test_equity_calc.py`, worked out on the model. Three of
    them expect an even split of 0.5 for identical hands; the code credits a tie with
    `ties / len(opps)`, which for one opponent is the whole pot, so those estimates
    are 1. */
module EquityExamples {
  import opened Results
  import opened HandEval
  import opened Combinations
  import opened HandEvalFacts
  import opened HandEvalExamples
  import opened EquityCalc
  import opened EquityFacts

  // ----- Encoded hands -----

  lemma PairOfAcesMixedInts(ints: seq<int>)
    requires ints == [12, 44, 27, 58, 25]
    ensures Evaluate(ints) == 4299
  {
    RanksOfFive(ints);
    assert SuitOf(ints[0]) != SuitOf(ints[1]);
    PairOfAcesRanks(Ranks(ints), 9);
    Repeated(ints);
  }

  lemma SevenHighRanks(ranks: seq<int>)
    requires ranks == [0, 1, 2, 3, 5]
    ensures Classify(ranks) == 13242
  {
    assert multiset(ranks) == multiset{5, 3, 2, 1, 0};
    HighCard(ranks, 5, 3, 2, 1, 0);
  }

  lemma SevenHighNoStraight(ranks: seq<int>)
    requires ranks == [0, 1, 2, 3, 5]
    ensures !IsStraight(ranks)
  {
    NotStraight(ranks, 5, 0, 5);
  }

  lemma SevenHighInts(ints: seq<int>)
    requires ints == [0, 33, 18, 51, 21]
    ensures Evaluate(ints) == 13242
  {
    RanksOfFive(ints);
    assert SuitOf(ints[0]) != SuitOf(ints[1]);
    SevenHighRanks(Ranks(ints));
    SevenHighNoStraight(Ranks(ints));
    ByRanks(ints);
  }

  lemma NineHighRanks(ranks: seq<int>)
    requires ranks == [0, 2, 4, 6, 7]
    ensures Classify(ranks) == 11236
  {
    assert multiset(ranks) == multiset{7, 6, 4, 2, 0};
    HighCard(ranks, 7, 6, 4, 2, 0);
  }

  lemma NineHighNoStraight(ranks: seq<int>)
    requires ranks == [0, 2, 4, 6, 7]
    ensures !IsStraight(ranks)
  {
    NotStraight(ranks, 7, 0, 7);
  }

  lemma NineHighInts(ints: seq<int>)
    requires ints == [16, 34, 52, 6, 23]
    ensures Evaluate(ints) == 11236
  {
    RanksOfFive(ints);
    assert SuitOf(ints[0]) != SuitOf(ints[1]);
    NineHighRanks(Ranks(ints));
    NineHighNoStraight(Ranks(ints));
    ByRanks(ints);
  }

  /** The first five of seven cards are one of the combinations. */
  lemma FirstFiveOfSeven(ints: seq<int>)
    requires |ints| == 7
    ensures BestOfSeven(ints) <= Evaluate(ints[..5])
  {
    var idx := FirstFiveIndices(ints);
    BestOfSevenMinimum(ints);
    assert BestOfSeven(ints) <= Evaluate(Pick(ints, idx));
  }

  /** The positions 0 to 4 pick the first five cards. */
  lemma FirstFiveIndices(ints: seq<int>) returns (idx: seq<int>)
    requires |ints| == 7
    ensures |idx| == 5 && Increasing(idx, 7) && Pick(ints, idx) == ints[..5]
  {
    idx := [0, 1, 2, 3, 4];
    assert Increasing(idx, 7);
    assert Pick(ints, idx) == ints[..5];
  }

  lemma RoyalAmongSeven(ints: seq<int>)
    requires ints == [12, 11, 10, 9, 8, 7, 6]
    ensures BestOfSeven(ints) == 0
  {
    forall i | 0 <= i < 7 ensures RankOf(ints[i]) <= Ace {}
    BestOfSevenNonNegative(ints);
    FirstFiveOfSeven(ints);
    RoyalFlushInts(ints[..5]);
  }

  lemma NoAceAmongSeven(ints: seq<int>)
    requires ints == [0, 33, 18, 51, 21, 39, 54]
    ensures BestOfSeven(ints) > 0
  {
    forall i | 0 <= i < 7 ensures RankOf(ints[i]) < Ace {}
    BestOfSevenNonNegative(ints);
    BestOfSevenZeroHasAce(ints);
  }

  // ----- The test hands -----

  const PairOfAcesKqj: seq<CardValue> := [Text("as"), Text("ad"), Text("kh"), Text("qc"), Text("jh")]
  const SevenHigh: seq<CardValue> := [Text("2s"), Text("3d"), Text("4h"), Text("5c"), Text("7h")]
  const NineHigh: seq<CardValue> := [Text("2h"), Text("4d"), Text("6c"), Text("8s"), Text("9h")]
  const SpadesAceToEight: seq<CardValue> :=
    [Text("as"), Text("ks"), Text("qs"), Text("js"), Text("ts"), Text("9s"), Text("8s")]
  const WeakSeven: seq<CardValue> :=
    [Text("2s"), Text("3d"), Text("4h"), Text("5c"), Text("7h"), Text("9d"), Text("8c")]

  lemma PairOfAcesKqjValue(cards: seq<CardValue>)
    requires cards == PairOfAcesKqj
    ensures EvaluateFive(cards) == Ok(4299)
  {
    var ints := [12, 44, 27, 58, 25];
    TokenIs("as", 12, 0);
    TokenIs("ad", 12, 2);
    TokenIs("kh", 11, 1);
    TokenIs("qc", 10, 3);
    TokenIs("jh", 9, 1);
    FiveTokens(cards, ints);
    PairOfAcesMixedInts(ints);
  }

  lemma SevenHighValue(cards: seq<CardValue>)
    requires cards == SevenHigh
    ensures EvaluateFive(cards) == Ok(13242)
  {
    var ints := [0, 33, 18, 51, 21];
    TokenIs("2s", 0, 0);
    TokenIs("3d", 1, 2);
    TokenIs("4h", 2, 1);
    TokenIs("5c", 3, 3);
    TokenIs("7h", 5, 1);
    FiveTokens(cards, ints);
    SevenHighInts(ints);
  }

  lemma NineHighValue(cards: seq<CardValue>)
    requires cards == NineHigh
    ensures EvaluateFive(cards) == Ok(11236)
  {
    var ints := [16, 34, 52, 6, 23];
    TokenIs("2h", 0, 1);
    TokenIs("4d", 2, 2);
    TokenIs("6c", 4, 3);
    TokenIs("8s", 6, 0);
    TokenIs("9h", 7, 1);
    FiveTokens(cards, ints);
    NineHighInts(ints);
  }

  lemma SpadesAceToEightValue(cards: seq<CardValue>)
    requires cards == SpadesAceToEight
    ensures EvaluateSeven(cards) == Ok(0)
  {
    var ints := [12, 11, 10, 9, 8, 7, 6];
    TokenIs("as", 12, 0);
    TokenIs("ks", 11, 0);
    TokenIs("qs", 10, 0);
    TokenIs("js", 9, 0);
    TokenIs("ts", 8, 0);
    TokenIs("9s", 7, 0);
    TokenIs("8s", 6, 0);
    SevenTokens(cards, ints);
    RoyalAmongSeven(ints);
  }

  lemma WeakSevenValue(cards: seq<CardValue>)
    requires cards == WeakSeven
    ensures EvaluateSeven(cards).Ok? && EvaluateSeven(cards).value > 0
  {
    var ints := [0, 33, 18, 51, 21, 39, 54];
    TokenIs("2s", 0, 0);
    TokenIs("3d", 1, 2);
    TokenIs("4h", 2, 1);
    TokenIs("5c", 3, 3);
    TokenIs("7h", 5, 1);
    TokenIs("9d", 7, 2);
    TokenIs("8c", 6, 3);
    SevenTokens(cards, ints);
    NoAceAmongSeven(ints);
  }

  // ----- The estimates -----

  /** Identical royal flushes, one round and 500 rounds: the tests expect 0.5 and a
      value in [0.4, 0.6]; the code gives 1 for both. */
  lemma IdenticalRoyalFlushes(hand: seq<CardValue>)
    requires hand == RoyalFlushHand
    ensures Equity5(hand, [hand], 1) == Ok(1.0)
    ensures Equity5(hand, [hand], 500) == Ok(1.0)
  {
    RoyalFlushValue();
    Equity5IdenticalHands(hand, 1);
    Equity5IdenticalHands(hand, 500);
  }

  /** Two identical copies against the hero: a three-way tie, which the code credits
      with 1/2 rather than 1/3. */
  lemma ThreeWayTie(hand: seq<CardValue>)
    requires hand == RoyalFlushHand
    ensures Equity5(hand, [hand, hand], 1) == Ok(0.5)
  {
    RoyalFlushValue();
    Equity5TwoCopies(hand, 1);
  }

  /** A pair of aces against seven high wins the whole pot. */
  lemma PairBeatsSevenHigh(hero: seq<CardValue>, opp: seq<CardValue>)
    requires hero == PairOfAcesKqj && opp == SevenHigh
    ensures Equity5(hero, [opp], 1) == Ok(1.0)
  {
    PairOfAcesKqjValue(hero);
    SevenHighValue(opp);
    assert [opp][1..] == [];
    assert Scan5([opp], Infinity, None) == Ok((Finite(13242), Some(13242)));
    Equity5OneRound(hero, [opp], 1);
  }

  /** Against seven high and nine high the pair still wins outright: 1, above 0.66. */
  lemma PairBeatsTwoOpponents(hero: seq<CardValue>, opp1: seq<CardValue>, opp2: seq<CardValue>)
    requires hero == PairOfAcesKqj && opp1 == SevenHigh && opp2 == NineHigh
    ensures Equity5(hero, [opp1, opp2], 1) == Ok(1.0)
    ensures Equity5(hero, [opp1, opp2], 1).value > 0.66
  {
    PairOfAcesKqjValue(hero);
    SevenHighValue(opp1);
    NineHighValue(opp2);
    Scan5Pair(opp1, opp2);
    Equity5OneRound(hero, [opp1, opp2], 1);
  }

  /** Seven spades A to 8 against an identical set (the test expects 0.5; it is 1) and
      against a weak set without an ace (1). */
  lemma SevenCardTieAndWin(hero: seq<CardValue>, weak: seq<CardValue>)
    requires hero == SpadesAceToEight && weak == WeakSeven
    ensures Equity7(hero, [hero], 1) == Ok(1.0)
    ensures Equity7(hero, [weak], 1) == Ok(1.0)
  {
    SpadesAceToEightValue(hero);
    WeakSevenValue(weak);
    Equity7IdenticalHands(hero, 1);
    assert [weak][1..] == [];
    assert Scan7([weak], Infinity) == Ok(Finite(EvaluateSeven(weak).value));
    Equity7OneRound(hero, [weak], 1);
  }
}
