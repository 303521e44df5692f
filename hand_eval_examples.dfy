/** The hands of `equity/test_hand_eval.py`, evaluated by the model. Each hand is
    taken in two steps: an `...Ints` lemma gives the value of the encoded cards
    (stated for a variable bound to the encoded hand), and a lemma over the tokens
    adds the conversion by `string_to_card`. */
module HandEvalExamples {
  import opened Results
  import opened Sorting
  import opened Combinations
  import opened HandEval
  import opened HandEvalFacts

  /** Five tokens that convert one by one to `ints` evaluate to `_evaluate(ints)`. */
  lemma FiveTokens(cards: seq<CardValue>, ints: seq<int>)
    requires |cards| == 5 && |ints| == 5
    requires CardToInt(cards[0]) == Ok(ints[0]) && CardToInt(cards[1]) == Ok(ints[1])
    requires CardToInt(cards[2]) == Ok(ints[2]) && CardToInt(cards[3]) == Ok(ints[3])
    requires CardToInt(cards[4]) == Ok(ints[4])
    ensures EvaluateFive(cards) == Ok(Evaluate(ints))
  {
    assert forall i :: 0 <= i < 5 ==> CardToInt(cards[i]) == Ok(ints[i]);
    ConvertedLength(cards);
    assert Converted(cards).value == ints;
  }

  /** The same for seven tokens and the best of seven. */
  lemma SevenTokens(cards: seq<CardValue>, ints: seq<int>)
    requires |cards| == 7 && |ints| == 7
    requires CardToInt(cards[0]) == Ok(ints[0]) && CardToInt(cards[1]) == Ok(ints[1])
    requires CardToInt(cards[2]) == Ok(ints[2]) && CardToInt(cards[3]) == Ok(ints[3])
    requires CardToInt(cards[4]) == Ok(ints[4]) && CardToInt(cards[5]) == Ok(ints[5])
    requires CardToInt(cards[6]) == Ok(ints[6])
    ensures EvaluateSeven(cards) == Ok(BestOfSeven(ints))
  {
    assert forall i :: 0 <= i < 7 ==> CardToInt(cards[i]) == Ok(ints[i]);
    ConvertedLength(cards);
    assert Converted(cards).value == ints;
  }

  /** A two-character token spelled with the table characters of `rank` and `suit`
      converts to their encoding. */
  lemma TokenIs(token: string, rank: int, suit: int)
    requires 0 <= rank < |RankChars| && 0 <= suit < |SuitChars|
    requires |token| == 2 && token[0] == RankChars[rank] && token[1] == SuitChars[suit]
    ensures CardToInt(Text(token)) == Ok(Encode(rank, suit))
  {
    TablesLower();
    StringToCardTables(token, rank, suit);
  }

  lemma RanksOfFive(ints: seq<int>)
    requires |ints| == 5
    ensures Ranks(ints) == [RankOf(ints[0]), RankOf(ints[1]), RankOf(ints[2]), RankOf(ints[3]), RankOf(ints[4])]
  {
    RanksAt(ints);
  }

  /** Mixed suits and a repeated rank: `_evaluate` hands the ranks to the classifier. */
  lemma Repeated(ints: seq<int>)
    requires |ints| == 5 && !SameSuit(ints)
    ensures |Ranks(ints)| == 5
    ensures |Distinct(Ranks(ints))| < 5 ==> Evaluate(ints) == Classify(Ranks(ints))
  {
    RanksAt(ints);
    if |Distinct(Ranks(ints))| < 5 {
      NotStraightWhenRepeated(Ranks(ints));
      ByRanks(ints);
    }
  }

  // ----- Rank patterns (`_classify_hand`) -----

  lemma QuadAcesRanks(ranks: seq<int>)
    requires ranks == [12, 12, 12, 12, 11]
    ensures Classify(ranks) == 1000 && |Distinct(ranks)| == 2
  {
    assert multiset(ranks) == multiset{12, 12, 12, 12, 11};
    Quads(ranks, 12, 11);
  }

  lemma KingsFullRanks(ranks: seq<int>)
    requires ranks == [11, 11, 11, 10, 10]
    ensures Classify(ranks) == 1215 && |Distinct(ranks)| == 2
  {
    assert multiset(ranks) == multiset{11, 11, 11, 10, 10};
    FullHouse(ranks, 11, 10);
  }

  lemma TripAcesRanks(ranks: seq<int>)
    requires ranks == [12, 12, 12, 11, 10]
    ensures Classify(ranks) == 2275 && |Distinct(ranks)| == 3
  {
    assert multiset(ranks) == multiset{12, 12, 12, 11, 10};
    Trips(ranks, 12, 11, 10);
  }

  lemma AcesAndKingsRanks(ranks: seq<int>)
    requires ranks == [12, 12, 11, 11, 10]
    ensures Classify(ranks) == 3002 && |Distinct(ranks)| == 3
  {
    assert multiset(ranks) == multiset{12, 12, 11, 11, 10};
    TwoPair(ranks, 12, 11, 10);
  }

  /** A pair of aces with K, Q and a last kicker `low`. */
  lemma PairOfAcesRanks(ranks: seq<int>, low: int)
    requires low < 10 && ranks == [12, 12, 11, 10, low]
    ensures Classify(ranks) == 4275 + 6 * (13 - low) && |Distinct(ranks)| == 4
  {
    assert multiset(ranks) == multiset{12, 12, 11, 10, low};
    Pair(ranks, 12, 11, 10, low);
  }

  lemma PairOfKingsRanks(ranks: seq<int>)
    requires ranks == [11, 11, 12, 10, 9]
    ensures Classify(ranks) == 5199 && |Distinct(ranks)| == 4
  {
    assert multiset(ranks) == multiset{11, 11, 12, 10, 9};
    Pair(ranks, 11, 12, 10, 9);
  }

  lemma AceHighRanks(ranks: seq<int>)
    requires ranks == [12, 11, 10, 9, 7]
    ensures Classify(ranks) == 6211 && !IsStraight(ranks)
    ensures multiset(ranks) == multiset{12, 11, 10, 9, 7}
  {
    assert multiset(ranks) == multiset{12, 11, 10, 9, 7};
    HighCard(ranks, 12, 11, 10, 9, 7);
    NotStraight(ranks, 12, 7, 11);
  }

  // ----- Encoded hands (rank + 16 * suit; s = 0, h = 1, d = 2, c = 3) -----

  lemma RoyalFlushInts(ints: seq<int>)
    requires ints == [12, 11, 10, 9, 8]
    ensures Evaluate(ints) == 0
  {
    RanksOfFive(ints);
    assert IsRun(Ranks(ints), 8);
    StraightFlush(ints, 8);
  }

  lemma NineHighStraightFlushInts(ints: seq<int>)
    requires ints == [7, 6, 5, 4, 3]
    ensures Evaluate(ints) == 5
  {
    RanksOfFive(ints);
    assert IsRun(Ranks(ints), 3);
    StraightFlush(ints, 3);
  }

  lemma QuadAcesInts(ints: seq<int>)
    requires ints == [12, 44, 60, 28, 27]
    ensures Evaluate(ints) == 1000
  {
    RanksOfFive(ints);
    assert SuitOf(ints[0]) != SuitOf(ints[1]);
    QuadAcesRanks(Ranks(ints));
    Repeated(ints);
  }

  lemma KingsFullInts(ints: seq<int>)
    requires ints == [11, 43, 59, 10, 42]
    ensures Evaluate(ints) == 1215
  {
    RanksOfFive(ints);
    assert SuitOf(ints[0]) != SuitOf(ints[1]);
    KingsFullRanks(Ranks(ints));
    Repeated(ints);
  }

  lemma AceHighFlushInts(ints: seq<int>)
    requires ints == [12, 11, 10, 9, 7]
    ensures Evaluate(ints) == 1411
  {
    RanksOfFive(ints);
    assert SameSuit(ints) by {
      forall i | 0 <= i < 5 ensures SuitOf(ints[i]) == 0 {}
    }
    AceHighRanks(Ranks(ints));
    Flush(ints, 12, 11, 10, 9, 7);
  }

  lemma AceHighStraightInts(ints: seq<int>)
    requires ints == [44, 27, 58, 9, 8]
    ensures Evaluate(ints) == 1600
  {
    RanksOfFive(ints);
    assert IsRun(Ranks(ints), 8);
    assert SuitOf(ints[0]) != SuitOf(ints[1]);
    Straight(ints, 8);
  }

  lemma TripAcesInts(ints: seq<int>)
    requires ints == [12, 44, 60, 27, 58]
    ensures Evaluate(ints) == 2275
  {
    RanksOfFive(ints);
    assert SuitOf(ints[0]) != SuitOf(ints[1]);
    TripAcesRanks(Ranks(ints));
    Repeated(ints);
  }

  lemma AcesAndKingsInts(ints: seq<int>)
    requires ints == [12, 44, 11, 43, 26]
    ensures Evaluate(ints) == 3002
  {
    RanksOfFive(ints);
    assert SuitOf(ints[0]) != SuitOf(ints[1]);
    AcesAndKingsRanks(Ranks(ints));
    Repeated(ints);
  }

  lemma PairOfAcesKqjInts(ints: seq<int>)
    requires ints == [12, 44, 11, 42, 25]
    ensures Evaluate(ints) == 4299
  {
    RanksOfFive(ints);
    assert SuitOf(ints[0]) != SuitOf(ints[1]);
    PairOfAcesRanks(Ranks(ints), 9);
    Repeated(ints);
  }

  lemma PairOfAcesKqtInts(ints: seq<int>)
    requires ints == [12, 44, 11, 42, 24]
    ensures Evaluate(ints) == 4305
  {
    RanksOfFive(ints);
    assert SuitOf(ints[0]) != SuitOf(ints[1]);
    PairOfAcesRanks(Ranks(ints), 8);
    Repeated(ints);
  }

  lemma PairOfKingsInts(ints: seq<int>)
    requires ints == [11, 43, 28, 26, 25]
    ensures Evaluate(ints) == 5199
  {
    RanksOfFive(ints);
    assert SuitOf(ints[0]) != SuitOf(ints[1]);
    PairOfKingsRanks(Ranks(ints));
    Repeated(ints);
  }

  lemma AceHighInts(ints: seq<int>)
    requires ints == [44, 27, 58, 9, 7]
    ensures Evaluate(ints) == 6211
  {
    RanksOfFive(ints);
    assert SuitOf(ints[0]) != SuitOf(ints[1]);
    AceHighRanks(Ranks(ints));
    ByRanks(ints);
  }

  lemma WheelInts(ints: seq<int>)
    requires ints == [44, 16, 49, 2, 35]
    ensures Evaluate(ints) == 2399
  {
    RanksOfFive(ints);
    assert IsWheel(Ranks(ints));
    assert SuitOf(ints[0]) != SuitOf(ints[1]);
    WheelStraight(ints);
  }

  lemma WheelFlushInts(ints: seq<int>)
    requires ints == [44, 32, 33, 34, 35]
    ensures Evaluate(ints) == 1
  {
    RanksOfFive(ints);
    assert IsWheel(Ranks(ints));
    WheelFlush(ints);
  }

  // ----- The token hands of the test suite -----
  const RoyalFlushHand: seq<CardValue> := [Text("as"), Text("ks"), Text("qs"), Text("js"), Text("ts")]
  const NineHighStraightFlushHand: seq<CardValue> := [Text("9s"), Text("8s"), Text("7s"), Text("6s"), Text("5s")]
  const QuadAcesHand: seq<CardValue> := [Text("as"), Text("ad"), Text("ac"), Text("ah"), Text("kh")]
  const KingsFullHand: seq<CardValue> := [Text("ks"), Text("kd"), Text("kc"), Text("qs"), Text("qd")]
  const AceHighFlushHand: seq<CardValue> := [Text("as"), Text("ks"), Text("qs"), Text("js"), Text("9s")]
  const AceHighStraightHand: seq<CardValue> := [Text("ad"), Text("kh"), Text("qc"), Text("js"), Text("ts")]
  const TripAcesHand: seq<CardValue> := [Text("as"), Text("ad"), Text("ac"), Text("kh"), Text("qc")]
  const AcesAndKingsHand: seq<CardValue> := [Text("as"), Text("ad"), Text("ks"), Text("kd"), Text("qh")]
  const PairOfAcesHand: seq<CardValue> := [Text("as"), Text("ad"), Text("ks"), Text("qd"), Text("jh")]
  const AceHighHand: seq<CardValue> := [Text("ad"), Text("kh"), Text("qc"), Text("js"), Text("9s")]
  const WheelHand: seq<CardValue> := [Text("ad"), Text("2h"), Text("3c"), Text("4s"), Text("5d")]
  const WheelFlushHand: seq<CardValue> := [Text("ad"), Text("2d"), Text("3d"), Text("4d"), Text("5d")]
  const PairOfAcesKqtHand: seq<CardValue> := [Text("as"), Text("ad"), Text("ks"), Text("qd"), Text("th")]
  const PairOfKingsHand: seq<CardValue> := [Text("ks"), Text("kd"), Text("ah"), Text("qh"), Text("jh")]

  /** Royal Flush. */
  lemma RoyalFlushValue()
    ensures EvaluateFive(RoyalFlushHand) == Ok(0)
  {
    var ints := [12, 11, 10, 9, 8];
    TokenIs("as", 12, 0);
    TokenIs("ks", 11, 0);
    TokenIs("qs", 10, 0);
    TokenIs("js", 9, 0);
    TokenIs("ts", 8, 0);
    FiveTokens(RoyalFlushHand, ints);
    RoyalFlushInts(ints);
  }

  /** 9-high Straight Flush. */
  lemma NineHighStraightFlushValue()
    ensures EvaluateFive(NineHighStraightFlushHand) == Ok(5)
  {
    var ints := [7, 6, 5, 4, 3];
    TokenIs("9s", 7, 0);
    TokenIs("8s", 6, 0);
    TokenIs("7s", 5, 0);
    TokenIs("6s", 4, 0);
    TokenIs("5s", 3, 0);
    FiveTokens(NineHighStraightFlushHand, ints);
    NineHighStraightFlushInts(ints);
  }

  /** Four of a Kind (Aces). */
  lemma QuadAcesValue()
    ensures EvaluateFive(QuadAcesHand) == Ok(1000)
  {
    var ints := [12, 44, 60, 28, 27];
    TokenIs("as", 12, 0);
    TokenIs("ad", 12, 2);
    TokenIs("ac", 12, 3);
    TokenIs("ah", 12, 1);
    TokenIs("kh", 11, 1);
    FiveTokens(QuadAcesHand, ints);
    QuadAcesInts(ints);
  }

  /** Full House (K over Q). */
  lemma KingsFullValue()
    ensures EvaluateFive(KingsFullHand) == Ok(1215)
  {
    var ints := [11, 43, 59, 10, 42];
    TokenIs("ks", 11, 0);
    TokenIs("kd", 11, 2);
    TokenIs("kc", 11, 3);
    TokenIs("qs", 10, 0);
    TokenIs("qd", 10, 2);
    FiveTokens(KingsFullHand, ints);
    KingsFullInts(ints);
  }

  /** Ace-high Flush. */
  lemma AceHighFlushValue()
    ensures EvaluateFive(AceHighFlushHand) == Ok(1411)
  {
    var ints := [12, 11, 10, 9, 7];
    TokenIs("as", 12, 0);
    TokenIs("ks", 11, 0);
    TokenIs("qs", 10, 0);
    TokenIs("js", 9, 0);
    TokenIs("9s", 7, 0);
    FiveTokens(AceHighFlushHand, ints);
    AceHighFlushInts(ints);
  }

  /** Ace-high Straight. */
  lemma AceHighStraightValue()
    ensures EvaluateFive(AceHighStraightHand) == Ok(1600)
  {
    var ints := [44, 27, 58, 9, 8];
    TokenIs("ad", 12, 2);
    TokenIs("kh", 11, 1);
    TokenIs("qc", 10, 3);
    TokenIs("js", 9, 0);
    TokenIs("ts", 8, 0);
    FiveTokens(AceHighStraightHand, ints);
    AceHighStraightInts(ints);
  }

  /** Three of a Kind (Aces). */
  lemma TripAcesValue()
    ensures EvaluateFive(TripAcesHand) == Ok(2275)
  {
    var ints := [12, 44, 60, 27, 58];
    TokenIs("as", 12, 0);
    TokenIs("ad", 12, 2);
    TokenIs("ac", 12, 3);
    TokenIs("kh", 11, 1);
    TokenIs("qc", 10, 3);
    FiveTokens(TripAcesHand, ints);
    TripAcesInts(ints);
  }

  /** Two Pair (A and K). */
  lemma AcesAndKingsValue()
    ensures EvaluateFive(AcesAndKingsHand) == Ok(3002)
  {
    var ints := [12, 44, 11, 43, 26];
    TokenIs("as", 12, 0);
    TokenIs("ad", 12, 2);
    TokenIs("ks", 11, 0);
    TokenIs("kd", 11, 2);
    TokenIs("qh", 10, 1);
    FiveTokens(AcesAndKingsHand, ints);
    AcesAndKingsInts(ints);
  }

  /** Pair of Aces. */
  lemma PairOfAcesValue()
    ensures EvaluateFive(PairOfAcesHand) == Ok(4299)
  {
    var ints := [12, 44, 11, 42, 25];
    TokenIs("as", 12, 0);
    TokenIs("ad", 12, 2);
    TokenIs("ks", 11, 0);
    TokenIs("qd", 10, 2);
    TokenIs("jh", 9, 1);
    FiveTokens(PairOfAcesHand, ints);
    PairOfAcesKqjInts(ints);
  }

  /** High Card (Ace). */
  lemma AceHighValue()
    ensures EvaluateFive(AceHighHand) == Ok(6211)
  {
    var ints := [44, 27, 58, 9, 7];
    TokenIs("ad", 12, 2);
    TokenIs("kh", 11, 1);
    TokenIs("qc", 10, 3);
    TokenIs("js", 9, 0);
    TokenIs("9s", 7, 0);
    FiveTokens(AceHighHand, ints);
    AceHighInts(ints);
  }

  /** The wheel. */
  lemma WheelValue()
    ensures EvaluateFive(WheelHand) == Ok(2399)
  {
    var ints := [44, 16, 49, 2, 35];
    TokenIs("ad", 12, 2);
    TokenIs("2h", 0, 1);
    TokenIs("3c", 1, 3);
    TokenIs("4s", 2, 0);
    TokenIs("5d", 3, 2);
    FiveTokens(WheelHand, ints);
    WheelInts(ints);
  }

  /** The wheel flush. */
  lemma WheelFlushValue()
    ensures EvaluateFive(WheelFlushHand) == Ok(1)
  {
    var ints := [44, 32, 33, 34, 35];
    TokenIs("ad", 12, 2);
    TokenIs("2d", 0, 2);
    TokenIs("3d", 1, 2);
    TokenIs("4d", 2, 2);
    TokenIs("5d", 3, 2);
    FiveTokens(WheelFlushHand, ints);
    WheelFlushInts(ints);
  }

  /** Pair of aces with K-Q-T. */
  lemma PairOfAcesKqtValue()
    ensures EvaluateFive(PairOfAcesKqtHand) == Ok(4305)
  {
    var ints := [12, 44, 11, 42, 24];
    TokenIs("as", 12, 0);
    TokenIs("ad", 12, 2);
    TokenIs("ks", 11, 0);
    TokenIs("qd", 10, 2);
    TokenIs("th", 8, 1);
    FiveTokens(PairOfAcesKqtHand, ints);
    PairOfAcesKqtInts(ints);
  }

  /** Pair of kings with A-Q-J. */
  lemma PairOfKingsValue()
    ensures EvaluateFive(PairOfKingsHand) == Ok(5199)
  {
    var ints := [11, 43, 28, 26, 25];
    TokenIs("ks", 11, 0);
    TokenIs("kd", 11, 2);
    TokenIs("ah", 12, 1);
    TokenIs("qh", 10, 1);
    TokenIs("jh", 9, 1);
    FiveTokens(PairOfKingsHand, ints);
    PairOfKingsInts(ints);
  }

  // ----- The assertions of the test suite -----

  /** `test_hand_rankings`: the ten hands, from royal flush to ace-high, come out in
      non-decreasing order. */
  lemma HandRankingsAscending()
    ensures EvaluateFive(RoyalFlushHand).Ok? && EvaluateFive(NineHighStraightFlushHand).Ok?
    ensures EvaluateFive(QuadAcesHand).Ok? && EvaluateFive(KingsFullHand).Ok?
    ensures EvaluateFive(AceHighFlushHand).Ok? && EvaluateFive(AceHighStraightHand).Ok?
    ensures EvaluateFive(TripAcesHand).Ok? && EvaluateFive(AcesAndKingsHand).Ok?
    ensures EvaluateFive(PairOfAcesHand).Ok? && EvaluateFive(AceHighHand).Ok?
    ensures EvaluateFive(RoyalFlushHand).value <= EvaluateFive(NineHighStraightFlushHand).value
      <= EvaluateFive(QuadAcesHand).value <= EvaluateFive(KingsFullHand).value
      <= EvaluateFive(AceHighFlushHand).value <= EvaluateFive(AceHighStraightHand).value
      <= EvaluateFive(TripAcesHand).value <= EvaluateFive(AcesAndKingsHand).value
      <= EvaluateFive(PairOfAcesHand).value <= EvaluateFive(AceHighHand).value
  {
    RoyalFlushValue();
    NineHighStraightFlushValue();
    QuadAcesValue();
    KingsFullValue();
    AceHighFlushValue();
    AceHighStraightValue();
    TripAcesValue();
    AcesAndKingsValue();
    PairOfAcesValue();
    AceHighValue();
  }

  /** `test_wheel`: the wheel ranks below the ace-high straight of the test (which it
      calls king-high), and the wheel flush is worth 1. */
  lemma WheelBelowStraights()
    ensures EvaluateFive(WheelHand).Ok? && EvaluateFive(AceHighStraightHand).Ok?
    ensures EvaluateFive(WheelHand).value > EvaluateFive(AceHighStraightHand).value
    ensures EvaluateFive(WheelFlushHand) == Ok(1)
  {
    WheelValue();
    AceHighStraightValue();
    WheelFlushValue();
  }

  /** `test_kicker_ordering`: A-A with K-Q-J beats A-A with K-Q-T, which beats K-K with
      A-Q-J. */
  lemma KickerOrdering()
    ensures EvaluateFive(PairOfAcesHand).Ok? && EvaluateFive(PairOfAcesKqtHand).Ok?
    ensures EvaluateFive(PairOfKingsHand).Ok?
    ensures EvaluateFive(PairOfAcesHand).value < EvaluateFive(PairOfAcesKqtHand).value
      < EvaluateFive(PairOfKingsHand).value
  {
    PairOfAcesValue();
    PairOfAcesKqtValue();
    PairOfKingsValue();
  }

  // ----- Seven cards (`test_7card_evaluation`) -----

  /** Every straight holds a four, a seven or a jack (ranks 2, 5 and 9). */
  lemma StraightNeedsFourSevenOrJack(r: seq<int>)
    requires forall x :: x in r ==> 0 <= x <= Ace && x != 2 && x != 5 && x != 9
    ensures !IsStraight(r)
  {
    StraightIff(r);
    forall lo ensures !IsRun(r, lo) {
      RunHoldsFourSevenOrJack(r, lo);
    }
    assert 2 in Wheel;
  }

  /** A run of real ranks covers a four, a seven or a jack. */
  lemma RunHoldsFourSevenOrJack(r: seq<int>, lo: int)
    ensures (forall x :: x in r ==> 0 <= x <= Ace) && IsRun(r, lo) ==> 2 in r || 5 in r || 9 in r
  {
    if (forall x :: x in r ==> 0 <= x <= Ace) && IsRun(r, lo) {
      assert lo in r && lo + 4 in r;
      if lo <= 2 {
        assert 2 in r;
      } else if lo <= 5 {
        assert 5 in r;
      } else {
        assert 9 in r;
      }
    }
  }

  /** The ranks of five picked cards are ranks of the seven. */
  lemma PickedRanks(ints: seq<int>, idx: seq<int>)
    requires |ints| == 7 && |idx| == 5 && Increasing(idx, 7)
    ensures forall x :: x in Ranks(Pick(ints, idx)) ==> exists i :: 0 <= i < 7 && x == RankOf(ints[i])
  {
    var p := Pick(ints, idx);
    RanksAt(p);
    forall x | x in Ranks(p) ensures exists i :: 0 <= i < 7 && x == RankOf(ints[i]) {
      var i :| 0 <= i < 5 && Ranks(p)[i] == x;
      assert p[i] == ints[idx[i]];
    }
  }

  /** Seven cards with no four, seven or jack hold no straight flush, so the best of
      seven is at least 1000. */
  lemma NoStraightFlushAmong(ints: seq<int>)
    requires |ints| == 7
    requires forall i :: 0 <= i < 7 ==> RankOf(ints[i]) <= Ace && RankOf(ints[i]) != 2 && RankOf(ints[i]) != 5 && RankOf(ints[i]) != 9
    ensures BestOfSeven(ints) >= 1000
  {
    BestOfSevenBands(ints);
    forall idx | |idx| == 5 && Increasing(idx, 7) ensures !IsStraight(Ranks(Pick(ints, idx))) {
      PickedRanks(ints, idx);
      StraightNeedsFourSevenOrJack(Ranks(Pick(ints, idx)));
    }
  }

  lemma PickFive(ints: seq<int>) returns (idx: seq<int>)
    requires |ints| == 7
    ensures |idx| == 5 && Increasing(idx, 7)
    ensures Pick(ints, idx) == [ints[0], ints[1], ints[2], ints[5], ints[6]]
    ensures BestOfSeven(ints) <= Evaluate(Pick(ints, idx))
  {
    idx := [0, 1, 2, 5, 6];
    assert Increasing(idx, 7);
    assert Pick(ints, idx) == [ints[0], ints[1], ints[2], ints[5], ints[6]];
    BestOfSevenAtMost(ints, idx);
  }

  /** Cards 0, 1, 2, 5 and 6 worth `v` bound the best of seven by `v`. */
  lemma BestAtMost(ints: seq<int>, v: int)
    requires |ints| == 7 && Evaluate([ints[0], ints[1], ints[2], ints[5], ints[6]]) == v
    ensures BestOfSeven(ints) <= v
  {
    var idx := PickFive(ints);
  }

  lemma ReachesRoyalFlush(ints: seq<int>)
    requires ints == [12, 11, 10, 32, 17, 9, 8]
    ensures BestOfSeven(ints) == 0
  {
    forall i | 0 <= i < 7 ensures RankOf(ints[i]) <= Ace {}
    BestOfSevenNonNegative(ints);
    var idx := PickFive(ints);
    RoyalFlushInts(Pick(ints, idx));
  }

  lemma AceHighFlushRanks(ranks: seq<int>)
    requires ranks == [12, 11, 10, 7, 6]
    ensures !IsStraight(ranks) && multiset(ranks) == multiset{12, 11, 10, 7, 6}
  {
    NotStraight(ranks, 12, 6, 11);
  }

  lemma SpadeFlushInts(ints: seq<int>)
    requires ints == [12, 11, 10, 7, 6]
    ensures Evaluate(ints) == 1414
  {
    RanksOfFive(ints);
    assert SameSuit(ints) by {
      forall i | 0 <= i < 5 ensures SuitOf(ints[i]) == 0 {}
    }
    AceHighFlushRanks(Ranks(ints));
    Flush(ints, 12, 11, 10, 7, 6);
  }

  lemma ReachesFlush(ints: seq<int>)
    requires ints == [12, 11, 10, 32, 17, 7, 6]
    ensures 1000 <= BestOfSeven(ints) <= 1414
  {
    NoStraightFlushAmong(ints);
    SpadeFlushInts([ints[0], ints[1], ints[2], ints[5], ints[6]]);
    BestAtMost(ints, 1414);
  }

  lemma TripAcesKqRanks(ranks: seq<int>)
    requires ranks == [12, 11, 10, 12, 12]
    ensures Classify(ranks) == 2275 && |Distinct(ranks)| == 3
  {
    assert multiset(ranks) == multiset{12, 12, 12, 11, 10};
    Trips(ranks, 12, 11, 10);
  }

  lemma SevenTripAcesInts(ints: seq<int>)
    requires ints == [12, 11, 10, 44, 60]
    ensures Evaluate(ints) == 2275
  {
    RanksOfFive(ints);
    assert SuitOf(ints[0]) != SuitOf(ints[3]);
    TripAcesKqRanks(Ranks(ints));
    Repeated(ints);
  }

  lemma ReachesTrips(ints: seq<int>)
    requires ints == [12, 11, 10, 32, 17, 44, 60]
    ensures 1000 <= BestOfSeven(ints) <= 2275
  {
    NoStraightFlushAmong(ints);
    SevenTripAcesInts([ints[0], ints[1], ints[2], ints[5], ints[6]]);
    BestAtMost(ints, 2275);
  }

  const Community: seq<CardValue> := [Text("as"), Text("ks"), Text("qs"), Text("2d"), Text("3h")]
  const RoyalHole: seq<CardValue> := [Text("js"), Text("ts")]
  const NineEightHole: seq<CardValue> := [Text("9s"), Text("8s")]
  const AcesHole: seq<CardValue> := [Text("ad"), Text("ac")]

  /** The board with J-T of spades: the royal flush, 0. */
  lemma SevenCardRoyalFlush()
    ensures EvaluateSeven(Community + RoyalHole) == Ok(0)
  {
    var cards := Community + RoyalHole;
    var ints := [12, 11, 10, 32, 17, 9, 8];
    TokenIs("as", 12, 0);
    TokenIs("ks", 11, 0);
    TokenIs("qs", 10, 0);
    TokenIs("2d", 0, 2);
    TokenIs("3h", 1, 1);
    TokenIs("js", 9, 0);
    TokenIs("ts", 8, 0);
    SevenTokens(cards, ints);
    ReachesRoyalFlush(ints);
  }

  /** The board with 9-8 of spades: the test calls this a 9-high straight flush, but the
      seven cards hold no straight flush; the best is the spade flush A-K-Q-9-8 (1414). */
  lemma SevenCardNineEight()
    ensures EvaluateSeven(Community + NineEightHole).Ok?
    ensures 1000 <= EvaluateSeven(Community + NineEightHole).value <= 1414
  {
    var cards := Community + NineEightHole;
    var ints := [12, 11, 10, 32, 17, 7, 6];
    TokenIs("as", 12, 0);
    TokenIs("ks", 11, 0);
    TokenIs("qs", 10, 0);
    TokenIs("2d", 0, 2);
    TokenIs("3h", 1, 1);
    TokenIs("9s", 7, 0);
    TokenIs("8s", 6, 0);
    SevenTokens(cards, ints);
    ReachesFlush(ints);
  }

  /** The board with A-A: the test calls this a pair of aces, but the seven cards hold
      three aces, and the best is at most their value 2275, below every pair (4000 up). */
  lemma SevenCardAces()
    ensures EvaluateSeven(Community + AcesHole).Ok?
    ensures 1000 <= EvaluateSeven(Community + AcesHole).value <= 2275
  {
    var cards := Community + AcesHole;
    var ints := [12, 11, 10, 32, 17, 44, 60];
    TokenIs("as", 12, 0);
    TokenIs("ks", 11, 0);
    TokenIs("qs", 10, 0);
    TokenIs("2d", 0, 2);
    TokenIs("3h", 1, 1);
    TokenIs("ad", 12, 2);
    TokenIs("ac", 12, 3);
    SevenTokens(cards, ints);
    ReachesTrips(ints);
  }
}
