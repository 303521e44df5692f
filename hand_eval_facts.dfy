/** What the formulas of `HandEval` give, category by category, and the facts about
    the codec and the best-of-seven search. */
module HandEvalFacts {
  import opened Results
  import opened Sorting
  import opened Combinations
  import opened HandEval

  // ----- The card codec -----

  /** Every key of RANK_MAP is found at its own index in RANK_STR. */
  lemma RankTable()
    ensures forall c :: c in RankMap ==> 0 <= RankMap[c] < |RankChars| && RankChars[RankMap[c]] == c
    ensures forall i :: 0 <= i < |RankChars| ==> RankChars[i] in RankMap && RankMap[RankChars[i]] == i
  {
    assert RankMap.Keys == {'2', '3', '4', '5', '6', '7', '8', '9', 't', 'j', 'q', 'k', 'a'};
  }

  /** Every key of SUIT_MAP is found at its own index in SUIT_STR. */
  lemma SuitTable()
    ensures forall c :: c in SuitMap ==> 0 <= SuitMap[c] < |SuitChars| && SuitChars[SuitMap[c]] == c
    ensures forall i :: 0 <= i < |SuitChars| ==> SuitChars[i] in SuitMap && SuitMap[SuitChars[i]] == i
  {
    assert SuitMap.Keys == {'s', 'h', 'd', 'c'};
  }

  /** The two bit fields come back out of an encoded card. */
  lemma DecodeEncode(rank: int, suit: int)
    requires 0 <= rank < 16 && 0 <= suit < 4
    ensures RankOf(Encode(rank, suit)) == rank && SuitOf(Encode(rank, suit)) == suit
  {
  }

  /** `rank + 16 * suit` is injective over the 52 (rank, suit) pairs and lies in 0..63. */
  lemma EncodeInjective(r1: int, s1: int, r2: int, s2: int)
    requires 0 <= r1 < 13 && 0 <= s1 < 4 && 0 <= r2 < 13 && 0 <= s2 < 4
    ensures 0 <= Encode(r1, s1) < 64
    ensures Encode(r1, s1) == Encode(r2, s2) <==> r1 == r2 && s1 == s2
  {
    DecodeEncode(r1, s1);
    DecodeEncode(r2, s2);
  }

  /** A token succeeds exactly when its lowered first two characters are in the
      tables, and then it encodes their indices in RANK_STR and SUIT_STR. */
  lemma StringToCardTables(token: string, rank: int, suit: int)
    requires 0 <= rank < |RankChars| && 0 <= suit < |SuitChars|
    ensures StringToCard(token) == Ok(Encode(rank, suit)) <==>
      |token| >= 2 && Lower(token[0]) == RankChars[rank] && Lower(token[1]) == SuitChars[suit]
  {
    RankTable();
    SuitTable();
    if StringToCard(token) == Ok(Encode(rank, suit)) {
      var r, s := RankMap[Lower(token[0])], SuitMap[Lower(token[1])];
      DecodeEncode(r, s);
      DecodeEncode(rank, suit);
    }
  }

  /** `string_to_card` raises ValueError exactly for a token of two or more characters
      whose rank or suit character is unknown, and IndexError below two characters. */
  lemma StringToCardErrors(token: string)
    ensures StringToCard(token) == Err(IndexOutOfRange) <==> |token| < 2
    ensures StringToCard(token) == Err(InvalidCardString(token)) <==>
      |token| >= 2 &&
      ((forall i :: 0 <= i < |RankChars| ==> Lower(token[0]) != RankChars[i]) ||
       (forall j :: 0 <= j < |SuitChars| ==> Lower(token[1]) != SuitChars[j]))
  {
    RankTable();
    SuitTable();
  }

  /** Case-insensitive round trip from the string side: a valid token comes back as
      its first two characters in lower case. */
  lemma StringRoundTrip(token: string)
    requires |token| >= 2 && Lower(token[0]) in RankMap && Lower(token[1]) in SuitMap
    ensures StringToCard(token).Ok?
    ensures CardToString(StringToCard(token).value) == Ok([Lower(token[0]), Lower(token[1])])
  {
    RankTable();
    SuitTable();
    DecodeEncode(RankMap[Lower(token[0])], SuitMap[Lower(token[1])]);
  }

  /** Round trip from the integer side, for every one of the 52 cards. */
  lemma CardRoundTrip(rank: int, suit: int)
    requires 0 <= rank < 13 && 0 <= suit < 4
    ensures CardToString(Encode(rank, suit)).Ok?
    ensures StringToCard(CardToString(Encode(rank, suit)).value) == Ok(Encode(rank, suit))
  {
    DecodeEncode(rank, suit);
    var token := CardToString(Encode(rank, suit)).value;
    assert token == [RankChars[rank], SuitChars[suit]];
    TablesLower();
    StringToCardTables(token, rank, suit);
  }

  /** Both tables are already in lower case. */
  lemma TablesLower()
    ensures forall i :: 0 <= i < |RankChars| ==> Lower(RankChars[i]) == RankChars[i]
    ensures forall i :: 0 <= i < |SuitChars| ==> Lower(SuitChars[i]) == SuitChars[i]
  {
  }

  /** `card_to_string` fails exactly when the rank nibble is 13, 14 or 15, whatever the
      other bits hold. */
  lemma CardToStringErrors(card: int)
    ensures CardToString(card).Err? <==> 13 <= card % 16
    ensures CardToString(card).Ok? ==> |CardToString(card).value| == 2
  {
  }

  // ----- Rank-frequency categories (`_classify_hand`) -----

  /** The frequency pattern from any duplicate-free list of the hand's ranks. */
  lemma CountsAre(ranks: seq<int>, keys: seq<int>, pattern: seq<int>)
    requires NoDuplicates(keys) && forall x :: x in keys <==> x in ranks
    requires SortedDesc(pattern)
    requires |keys| == |pattern|
    requires forall i :: 0 <= i < |keys| ==> multiset(ranks)[keys[i]] == pattern[i]
    ensures Counts(ranks) == pattern
    ensures |Distinct(ranks)| == |keys|
  {
    FrequenciesAt(keys, multiset(ranks));
    assert Frequencies(keys, multiset(ranks)) == pattern;
    DistinctSize(ranks, keys);
    FrequenciesPermutation(Distinct(ranks), keys, multiset(ranks));
    SortDescIs(Frequencies(Distinct(ranks), multiset(ranks)), pattern);
  }

  lemma MembersOf(ranks: seq<int>)
    ensures forall x :: x in ranks <==> multiset(ranks)[x] > 0
  {
    forall x ensures x in ranks <==> multiset(ranks)[x] > 0 {
      assert x in ranks <==> x in multiset(ranks);
    }
  }

  /** `[r for r in ranks_sorted if ranks.count(r) == c][0]` when only `x` occurs `c` times. */
  lemma FirstWithCount(ranks: seq<int>, c: int, x: int)
    requires multiset(ranks)[x] == c && c > 0
    requires forall y :: y in ranks && multiset(ranks)[y] == c ==> y == x
    ensures WithCount(SortDesc(ranks), multiset(ranks), c) != []
    ensures WithCount(SortDesc(ranks), multiset(ranks), c)[0] == x
  {
    assert x in multiset(ranks);
    SortDescMembers(ranks);
    WithCountHead(SortDesc(ranks), multiset(ranks), c, x);
  }

  /** `sorted([r for r in s if ranks.count(r) == c], reverse=True)`, given the result's
      elements up to order. */
  lemma SortedWithCount(s: seq<int>, m: multiset<int>, c: int, t: seq<int>)
    requires SortedDesc(t)
    requires forall x :: multiset(t)[x] == if m[x] == c then multiset(s)[x] else 0
    ensures SortDesc(WithCount(s, m, c)) == t
  {
    WithCountIs(s, m, c, t);
    SortDescIs(WithCount(s, m, c), t);
  }

  lemma QuadsOccurrences(ranks: seq<int>, q: int, k: int)
    requires q != k && multiset(ranks) == multiset{q, q, q, q, k}
    ensures forall x :: multiset(ranks)[x] == if x == q then 4 else if x == k then 1 else 0
  {
  }

  lemma QuadsPattern(ranks: seq<int>, q: int, k: int)
    requires q != k
    requires forall x :: multiset(ranks)[x] == if x == q then 4 else if x == k then 1 else 0
    ensures Counts(ranks) == [4, 1] && |Distinct(ranks)| == 2
  {
    MembersOf(ranks);
    CountsAre(ranks, [q, k], [4, 1]);
  }

  /** Four of a kind: `1000 + (12 - q)`, whatever the kicker. */
  lemma Quads(ranks: seq<int>, q: int, k: int)
    requires |ranks| == 5 && q != k && multiset(ranks) == multiset{q, q, q, q, k}
    ensures Classify(ranks) == 1000 + (12 - q)
    ensures |Distinct(ranks)| == 2
  {
    QuadsOccurrences(ranks, q, k);
    QuadsPattern(ranks, q, k);
    FirstWithCount(ranks, 4, q);
  }

  lemma FullHouseOccurrences(ranks: seq<int>, t: int, p: int)
    requires t != p && multiset(ranks) == multiset{t, t, t, p, p}
    ensures forall x :: multiset(ranks)[x] == if x == t then 3 else if x == p then 2 else 0
  {
  }

  lemma FullHousePattern(ranks: seq<int>, t: int, p: int)
    requires t != p
    requires forall x :: multiset(ranks)[x] == if x == t then 3 else if x == p then 2 else 0
    ensures Counts(ranks) == [3, 2] && |Distinct(ranks)| == 2
  {
    MembersOf(ranks);
    CountsAre(ranks, [t, p], [3, 2]);
  }

  /** Full house: `1200 + 13 * (12 - t) + (12 - p)`, which for real ranks lies in
      1201 (aces full of kings) to 1367 (deuces full of threes). */
  lemma FullHouse(ranks: seq<int>, t: int, p: int)
    requires |ranks| == 5 && t != p && multiset(ranks) == multiset{t, t, t, p, p}
    ensures Classify(ranks) == 1200 + 13 * (12 - t) + (12 - p)
    ensures 0 <= t <= Ace && 0 <= p <= Ace ==> 1201 <= Classify(ranks) <= 1367
    ensures |Distinct(ranks)| == 2
  {
    FullHouseOccurrences(ranks, t, p);
    FullHousePattern(ranks, t, p);
    FirstWithCount(ranks, 3, t);
    FirstWithCount(ranks, 2, p);
  }

  lemma TripsOccurrences(ranks: seq<int>, t: int, a: int, b: int)
    requires a > b && t != a && t != b && multiset(ranks) == multiset{t, t, t, a, b}
    ensures forall x :: multiset(ranks)[x] == if x == t then 3 else if x == a || x == b then 1 else 0
  {
  }

  lemma TripsPattern(ranks: seq<int>, t: int, a: int, b: int)
    requires a > b && t != a && t != b
    requires forall x :: multiset(ranks)[x] == if x == t then 3 else if x == a || x == b then 1 else 0
    ensures Counts(ranks) == [3, 1, 1] && |Distinct(ranks)| == 3
    ensures SortDesc(WithCount(ranks, multiset(ranks), 1)) == [a, b]
  {
    MembersOf(ranks);
    CountsAre(ranks, [t, a, b], [3, 1, 1]);
    SortedWithCount(ranks, multiset(ranks), 1, [a, b]);
  }

  /** The kicker term of three of a kind. */
  lemma KickerValueTwo(a: int, b: int)
    ensures KickerValue([a, b], 2) == 100 * (13 - a) + 25 * (13 - b)
  {
    assert Take([a, b], 2) == [a, b];
    assert [a, b][1..] == [b];
    assert [b][1..] == [];
    assert WeightedKickers([b], 1) == (13 - b) * ShiftRight(100, 2);
    assert ShiftRight(100, 2) == 25;
  }

  /** Three of a kind with kickers a > b: the first kicker weighs 100, the second 25. */
  lemma Trips(ranks: seq<int>, t: int, a: int, b: int)
    requires |ranks| == 5 && a > b && t != a && t != b
    requires multiset(ranks) == multiset{t, t, t, a, b}
    ensures Classify(ranks) == 2000 + 100 * (12 - t) + 100 * (13 - a) + 25 * (13 - b)
    ensures |Distinct(ranks)| == 3
  {
    TripsOccurrences(ranks, t, a, b);
    TripsPattern(ranks, t, a, b);
    KickerValueTwo(a, b);
    FirstWithCount(ranks, 3, t);
  }

  lemma TwoPairOccurrences(ranks: seq<int>, a: int, b: int, k: int)
    requires a > b && k != a && k != b && multiset(ranks) == multiset{a, a, b, b, k}
    ensures forall x :: multiset(ranks)[x] == if x == a || x == b then 2 else if x == k then 1 else 0
  {
  }

  lemma TwoPairPattern(ranks: seq<int>, a: int, b: int, k: int)
    requires a > b && k != a && k != b
    requires forall x :: multiset(ranks)[x] == if x == a || x == b then 2 else if x == k then 1 else 0
    ensures Counts(ranks) == [2, 2, 1] && |Distinct(ranks)| == 3
    ensures WithCount(ranks, multiset(ranks), 1) != []
    ensures WithCount(ranks, multiset(ranks), 1)[0] == k
  {
    MembersOf(ranks);
    CountsAre(ranks, [a, b, k], [2, 2, 1]);
    WithCountHead(ranks, multiset(ranks), 1, k);
  }

  /** `pairs` is filtered from `ranks_sorted`, which still holds both cards of each pair. */
  lemma TwoPairList(ranks: seq<int>, a: int, b: int, k: int)
    requires a > b && k != a && k != b
    requires forall x :: multiset(ranks)[x] == if x == a || x == b then 2 else if x == k then 1 else 0
    ensures SortDesc(WithCount(SortDesc(ranks), multiset(ranks), 2)) == [a, a, b, b]
  {
    SortDescSorted(ranks);
    SortedWithCount(SortDesc(ranks), multiset(ranks), 2, [a, a, b, b]);
  }

  /** Two pair, as written: `pairs[1]` is the higher pair again, so the value is
      `3000 + 110 * (12 - a) + (12 - k)` and the lower pair `b` does not enter it. */
  lemma TwoPair(ranks: seq<int>, a: int, b: int, k: int)
    requires |ranks| == 5 && a > b && k != a && k != b
    requires multiset(ranks) == multiset{a, a, b, b, k}
    ensures Classify(ranks) == 3000 + 110 * (12 - a) + (12 - k)
    ensures |Distinct(ranks)| == 3
  {
    TwoPairOccurrences(ranks, a, b, k);
    TwoPairPattern(ranks, a, b, k);
    TwoPairList(ranks, a, b, k);
  }

  lemma PairOccurrences(ranks: seq<int>, p: int, a: int, b: int, c: int)
    requires a > b > c && p != a && p != b && p != c
    requires multiset(ranks) == multiset{p, p, a, b, c}
    ensures forall x :: multiset(ranks)[x] == if x == p then 2 else if x == a || x == b || x == c then 1 else 0
  {
  }

  lemma PairPattern(ranks: seq<int>, p: int, a: int, b: int, c: int)
    requires a > b > c && p != a && p != b && p != c
    requires forall x :: multiset(ranks)[x] == if x == p then 2 else if x == a || x == b || x == c then 1 else 0
    ensures Counts(ranks) == [2, 1, 1, 1] && |Distinct(ranks)| == 4
  {
    MembersOf(ranks);
    CountsAre(ranks, [p, a, b, c], [2, 1, 1, 1]);
  }

  lemma PairKickers(ranks: seq<int>, p: int, a: int, b: int, c: int)
    requires a > b > c && p != a && p != b && p != c
    requires forall x :: multiset(ranks)[x] == if x == p then 2 else if x == a || x == b || x == c then 1 else 0
    ensures SortDesc(WithCount(ranks, multiset(ranks), 1)) == [a, b, c]
  {
    SortedWithCount(ranks, multiset(ranks), 1, [a, b, c]);
  }

  /** The kicker term of one pair: weights 100, 25 and `100 >> 4 == 6`. */
  lemma KickerValueThree(a: int, b: int, c: int)
    ensures KickerValue([a, b, c], 3) == 100 * (13 - a) + 25 * (13 - b) + 6 * (13 - c)
  {
    assert Take([a, b, c], 3) == [a, b, c];
    assert [a, b, c][1..] == [b, c];
    assert [b, c][1..] == [c];
    assert [c][1..] == [];
    assert WeightedKickers([c], 2) == (13 - c) * ShiftRight(100, 4);
    assert WeightedKickers([b, c], 1) == (13 - b) * ShiftRight(100, 2) + WeightedKickers([c], 2);
    assert ShiftRight(100, 2) == 25;
    assert ShiftRight(100, 4) == 6;
  }

  /** One pair with kickers a > b > c. */
  lemma Pair(ranks: seq<int>, p: int, a: int, b: int, c: int)
    requires |ranks| == 5 && a > b > c && p != a && p != b && p != c
    requires multiset(ranks) == multiset{p, p, a, b, c}
    ensures Classify(ranks) == 4000 + 1000 * (12 - p) + 100 * (13 - a) + 25 * (13 - b) + 6 * (13 - c)
    ensures |Distinct(ranks)| == 4
  {
    PairOccurrences(ranks, p, a, b, c);
    PairPattern(ranks, p, a, b, c);
    PairKickers(ranks, p, a, b, c);
    KickerValueThree(a, b, c);
    FirstWithCount(ranks, 2, p);
  }

  lemma SumBelowAceFour(s: seq<int>)
    requires |s| == 4
    ensures SumBelowAce(s) == 48 - s[0] - s[1] - s[2] - s[3]
  {
    assert s[3..][1..] == [];
    assert SumBelowAce(s[3..]) == 12 - s[3];
    assert s[2..][1..] == s[3..];
    assert SumBelowAce(s[2..]) == (12 - s[2]) + SumBelowAce(s[3..]);
    assert s[1..][1..] == s[2..];
    assert SumBelowAce(s[1..]) == (12 - s[1]) + SumBelowAce(s[2..]);
  }

  lemma HighCardPattern(ranks: seq<int>, t: seq<int>)
    requires |t| == 5 && StrictlyDesc(t) && multiset(ranks) == multiset(t)
    ensures Counts(ranks) == [1, 1, 1, 1, 1] && |Distinct(ranks)| == 5
    ensures SortDesc(ranks) == t
  {
    var m := multiset(ranks);
    StrictNoDuplicates(t);
    forall i | 0 <= i < 5 ensures m[t[i]] == 1 {
      NoDuplicatesCount(t, t[i]);
    }
    MembersOf(ranks);
    MembersOf(t);
    CountsAre(ranks, t, [1, 1, 1, 1, 1]);
    SortDescIs(ranks, t);
  }

  /** Five different ranks t[0] > .. > t[4] (the classifier does not look for straights):
      the highest card weighs 1000 and the others one each. */
  lemma HighCardOf(ranks: seq<int>, t: seq<int>)
    requires |ranks| == 5 && |t| == 5 && StrictlyDesc(t) && multiset(ranks) == multiset(t)
    ensures Classify(ranks) == 6200 + 1000 * (12 - t[0]) + (48 - t[1] - t[2] - t[3] - t[4])
    ensures |Distinct(ranks)| == 5
  {
    HighCardPattern(ranks, t);
    SumBelowAceFour(t[1..]);
  }

  /** The same for five ranks a > b > c > d > e given one by one. */
  lemma HighCard(ranks: seq<int>, a: int, b: int, c: int, d: int, e: int)
    requires |ranks| == 5 && a > b > c > d > e && multiset(ranks) == multiset{a, b, c, d, e}
    ensures Classify(ranks) == 6200 + 1000 * (12 - a) + (48 - b - c - d - e)
    ensures |Distinct(ranks)| == 5
  {
    var t := [a, b, c, d, e];
    assert multiset(t) == multiset{a, b, c, d, e};
    HighCardOf(ranks, t);
  }

  lemma FiveOfAKindPattern(ranks: seq<int>, r: int)
    requires forall x :: multiset(ranks)[x] == if x == r then 5 else 0
    ensures Counts(ranks) == [5] && |Distinct(ranks)| == 1
  {
    MembersOf(ranks);
    CountsAre(ranks, [r], [5]);
  }

  /** Five equal ranks, which integer card lists or a repeated token can produce, fall
      through to the high-card formula. */
  lemma FiveOfAKind(ranks: seq<int>, r: int)
    requires |ranks| == 5 && multiset(ranks) == multiset{r, r, r, r, r}
    ensures Classify(ranks) == 6200 + 1000 * (12 - r) + 4 * (12 - r)
    ensures |Distinct(ranks)| == 1
  {
    assert forall x :: multiset(ranks)[x] == if x == r then 5 else 0;
    FiveOfAKindPattern(ranks, r);
    assert multiset(ranks) == multiset([r, r, r, r, r]);
    SortDescIs(ranks, [r, r, r, r, r]);
    SumBelowAceFour([r, r, r, r]);
    assert [r, r, r, r, r][1..] == [r, r, r, r];
  }

  // ----- Flushes and straights (`_evaluate`, `_is_straight`) -----

  /** Every card has the suit of the first. */
  ghost predicate SameSuit(cards: seq<int>) {
    forall i :: 0 <= i < |cards| ==> SuitOf(cards[i]) == SuitOf(cards[0])
  }

  /** The ranks present are exactly `lo`, `lo + 1`, .., `lo + 4`. */
  ghost predicate IsRun(ranks: seq<int>, lo: int) {
    forall x :: x in ranks <==> lo <= x <= lo + 4
  }

  /** The ranks present are exactly A, 2, 3, 4, 5. */
  ghost predicate IsWheel(ranks: seq<int>) {
    forall x :: x in ranks <==> x in Wheel
  }

  /** `len(set(suits)) == 1` holds exactly when all the suits are equal. */
  lemma FlushIff(cards: seq<int>)
    requires cards != []
    ensures |Distinct(Suits(cards))| == 1 <==> SameSuit(cards)
  {
    var suits := Suits(cards);
    var d := Distinct(suits);
    SuitsAt(cards);
    DistinctProperties(suits);
    assert suits[0] in suits;
    if |d| == 1 {
      forall i | 0 <= i < |cards| ensures SuitOf(cards[i]) == SuitOf(cards[0]) {
        assert suits[i] in suits;
        assert d[0] in d;
      }
    }
    if SameSuit(cards) {
      forall x ensures x in [suits[0]] <==> x in suits {
        if x in suits {
          var i :| 0 <= i < |suits| && suits[i] == x;
        }
      }
      DistinctIs(suits, [suits[0]]);
    }
  }

  lemma RunDistinct(ranks: seq<int>, lo: int)
    requires IsRun(ranks, lo)
    ensures Distinct(ranks) == [lo + 4, lo + 3, lo + 2, lo + 1, lo]
  {
    DistinctIs(ranks, [lo + 4, lo + 3, lo + 2, lo + 1, lo]);
  }

  lemma WheelDistinct(ranks: seq<int>)
    requires IsWheel(ranks)
    ensures Distinct(ranks) == Wheel
  {
    DistinctIs(ranks, Wheel);
  }

  /** Five distinct ranks spanning four are consecutive. */
  lemma DistinctRun(ranks: seq<int>)
    requires |Distinct(ranks)| == 5 && Distinct(ranks)[0] - Distinct(ranks)[4] == 4
    ensures IsRun(ranks, Distinct(ranks)[4])
  {
    var d := Distinct(ranks);
    DistinctProperties(ranks);
    assert d[0] > d[1] > d[2] > d[3] > d[4];
    assert d == [d[4] + 4, d[4] + 3, d[4] + 2, d[4] + 1, d[4]];
  }

  /** `_is_straight`: five ranks that are consecutive, or exactly A-2-3-4-5; any other
      length is never a straight. */
  lemma StraightIff(ranks: seq<int>)
    ensures IsStraight(ranks) <==> |ranks| == 5 && ((exists lo :: IsRun(ranks, lo)) || IsWheel(ranks))
  {
    if |ranks| == 5 {
      var d := Distinct(ranks);
      DistinctProperties(ranks);
      if IsStraight(ranks) {
        if |d| == 5 && d[0] - d[4] == 4 {
          DistinctRun(ranks);
        } else {
          assert d == Wheel;
        }
      }
      if exists lo :: IsRun(ranks, lo) {
        var lo :| IsRun(ranks, lo);
        RunDistinct(ranks, lo);
      }
      if IsWheel(ranks) {
        WheelDistinct(ranks);
      }
    }
  }

  /** The test only looks at the set of ranks, so sorting first changes nothing. */
  lemma StraightSorted(ranks: seq<int>)
    ensures IsStraight(SortDesc(ranks)) == IsStraight(ranks)
  {
    SortDescSorted(ranks);
    DistinctOfSorted(ranks);
  }

  /** A repeated rank rules out a straight. */
  lemma NotStraightWhenRepeated(ranks: seq<int>)
    requires |Distinct(ranks)| < 5
    ensures !IsStraight(ranks)
  {
  }

  /** The head of the sorted ranks is `max(ranks)`. */
  lemma SortedHead(s: seq<int>)
    requires s != []
    ensures SortDesc(s)[0] in s && forall x :: x in s ==> x <= SortDesc(s)[0]
  {
    SortDescSorted(s);
    SortDescMembers(s);
    var t := SortDesc(s);
    assert t[0] in t;
    forall x | x in s ensures x <= t[0] {
      var i :| 0 <= i < |t| && t[i] == x;
    }
  }

  /** The facts `_evaluate` branches on, for a hand of five cards. */
  lemma EvaluateFacts(cards: seq<int>)
    requires |cards| == 5
    ensures |Ranks(cards)| == 5
    ensures IsStraight(SortDesc(Ranks(cards))) == IsStraight(Ranks(cards))
    ensures |Distinct(Suits(cards))| == 1 <==> SameSuit(cards)
    ensures forall i :: 0 <= i < 5 ==> 0 <= Ranks(cards)[i] < 16
  {
    RanksAt(cards);
    StraightSorted(Ranks(cards));
    FlushIff(cards);
  }

  /** A straight flush other than the wheel: `12 - high`, which lies in 0..8 for ranks
      below 13; the royal flush (`lo == 8`) is 0. */
  lemma StraightFlush(cards: seq<int>, lo: int)
    requires |cards| == 5 && SameSuit(cards) && IsRun(Ranks(cards), lo)
    ensures Evaluate(cards) == 12 - (lo + 4)
    ensures (forall i :: 0 <= i < 5 ==> RankOf(cards[i]) < 13) ==> 0 <= Evaluate(cards) <= 8
  {
    EvaluateFacts(cards);
    StraightIff(Ranks(cards));
    RunDistinct(Ranks(cards), lo);
    SortedHead(Ranks(cards));
    RanksAt(cards);
    assert lo in Ranks(cards) && lo + 4 in Ranks(cards);
  }

  /** The wheel straight flush evaluates to 1. */
  lemma WheelFlush(cards: seq<int>)
    requires |cards| == 5 && SameSuit(cards) && IsWheel(Ranks(cards))
    ensures Evaluate(cards) == 1
  {
    EvaluateFacts(cards);
    StraightIff(Ranks(cards));
    WheelDistinct(Ranks(cards));
  }

  /** A straight that is not a flush, other than the wheel: `1600 + (12 - high)`, in
      1600..1608 for ranks below 13. */
  lemma Straight(cards: seq<int>, lo: int)
    requires |cards| == 5 && !SameSuit(cards) && IsRun(Ranks(cards), lo)
    ensures Evaluate(cards) == 1600 + (12 - (lo + 4))
    ensures (forall i :: 0 <= i < 5 ==> RankOf(cards[i]) < 13) ==> 1600 <= Evaluate(cards) <= 1608
  {
    EvaluateFacts(cards);
    StraightIff(Ranks(cards));
    RunDistinct(Ranks(cards), lo);
    SortedHead(Ranks(cards));
    RanksAt(cards);
    assert lo in Ranks(cards) && lo + 4 in Ranks(cards);
  }

  /** The wheel that is not a flush evaluates to 2399, worse than every other straight. */
  lemma WheelStraight(cards: seq<int>)
    requires |cards| == 5 && !SameSuit(cards) && IsWheel(Ranks(cards))
    ensures Evaluate(cards) == 2399
  {
    EvaluateFacts(cards);
    StraightIff(Ranks(cards));
    WheelDistinct(Ranks(cards));
  }

  lemma SortedFive(a: int, b: int, c: int, d: int, e: int)
    requires a >= b >= c >= d >= e
    ensures SortedDesc([a, b, c, d, e]) && multiset([a, b, c, d, e]) == multiset{a, b, c, d, e}
  {
    ConsSorted(d, [e]);
    assert [d] + [e] == [d, e];
    ConsSorted(c, [d, e]);
    assert [c] + [d, e] == [c, d, e];
    ConsSorted(b, [c, d, e]);
    assert [b] + [c, d, e] == [b, c, d, e];
    ConsSorted(a, [b, c, d, e]);
    assert [a] + [b, c, d, e] == [a, b, c, d, e];
  }

  /** A flush that is not a straight, with ranks `t` from highest to lowest. */
  lemma FlushOf(cards: seq<int>, t: seq<int>)
    requires |cards| == 5 && SameSuit(cards) && !IsStraight(Ranks(cards))
    requires |t| == 5 && SortedDesc(t) && multiset(Ranks(cards)) == multiset(t)
    ensures Evaluate(cards) == 1400 + 1000 * (12 - t[0]) + (48 - t[1] - t[2] - t[3] - t[4])
  {
    EvaluateFacts(cards);
    SortDescIs(Ranks(cards), t);
    SumBelowAceFour(t[1..]);
  }

  /** The same for five ranks a >= b >= c >= d >= e given one by one. */
  lemma Flush(cards: seq<int>, a: int, b: int, c: int, d: int, e: int)
    requires |cards| == 5 && SameSuit(cards) && !IsStraight(Ranks(cards))
    requires a >= b >= c >= d >= e && multiset(Ranks(cards)) == multiset{a, b, c, d, e}
    ensures Evaluate(cards) == 1400 + 1000 * (12 - a) + (48 - b - c - d - e)
  {
    var t := [a, b, c, d, e];
    SortedFive(a, b, c, d, e);
    FlushOf(cards, t);
    assert t[0] == a && t[1] == b && t[2] == c && t[3] == d && t[4] == e;
  }

  /** Two ranks more than four apart and one rank outside the wheel rule out both
      kinds of straight. */
  lemma NotStraight(ranks: seq<int>, x: int, y: int, z: int)
    requires x in ranks && y in ranks && x - y > 4
    requires z in ranks && z !in Wheel
    ensures !IsStraight(ranks)
  {
    StraightIff(ranks);
    if lo :| IsRun(ranks, lo) {
      assert false;
    }
    assert !IsWheel(ranks);
  }

  /** Neither a flush nor a straight: the rank-frequency classifier decides. */
  lemma ByRanks(cards: seq<int>)
    requires |cards| == 5 && !SameSuit(cards) && !IsStraight(Ranks(cards))
    ensures |Ranks(cards)| == 5
    ensures Evaluate(cards) == Classify(Ranks(cards))
  {
    EvaluateFacts(cards);
  }

  // ----- Value bands -----

  /** Every rank is a real rank, deuce to ace. */
  ghost predicate RealRanks(ranks: seq<int>) {
    forall x :: x in ranks ==> 0 <= x <= Ace
  }

  lemma {:induction false} WeightedKickersNonNegative(ks: seq<int>, first: nat)
    requires forall x :: x in ks ==> x <= 13
    ensures WeightedKickers(ks, first) >= 0
  {
    if ks != [] {
      assert ks[0] in ks;
      assert forall x :: x in ks[1..] ==> x in ks;
      WeightedKickersNonNegative(ks[1..], first + 1);
    }
  }

  lemma {:induction false} SumBelowAceNonNegative(s: seq<int>)
    requires RealRanks(s)
    ensures SumBelowAce(s) >= 0
  {
    if s != [] {
      assert s[0] in s;
      assert forall x :: x in s[1..] ==> x in s;
      SumBelowAceNonNegative(s[1..]);
    }
  }

  lemma KickerValueNonNegative(kickers: seq<int>, n: nat)
    requires RealRanks(kickers)
    ensures KickerValue(kickers, n) >= 0
  {
    assert forall x :: x in Take(kickers, n) ==> x in kickers;
    WeightedKickersNonNegative(Take(kickers, n), 0);
  }

  /** Every rank-frequency category of real ranks is worth at least 1000, so none
      of them reaches the straight-flush band. */
  lemma ClassifyAtLeast(ranks: seq<int>)
    requires |ranks| == 5 && RealRanks(ranks)
    ensures Classify(ranks) >= 1000
  {
    var m := multiset(ranks);
    var sorted := SortDesc(ranks);
    SortDescSorted(ranks);
    SortDescMembers(ranks);
    var counts := Counts(ranks);
    if counts == [4, 1] || counts == [3, 2] || counts == [2, 2, 1] {
      // each of these reads the head of a non-empty selection from `sorted`
      var c := counts[0];
      assert c in counts;
      CountWitness(ranks, sorted, c);
      WithCountMembers(sorted, m, c);
      assert WithCount(sorted, m, c)[0] in WithCount(sorted, m, c);
      if counts == [3, 2] {
        assert 2 in counts;
        CountWitness(ranks, sorted, 2);
        WithCountMembers(sorted, m, 2);
        assert WithCount(sorted, m, 2)[0] in WithCount(sorted, m, 2);
      }
      if counts == [2, 2, 1] {
        var pairs := WithCount(sorted, m, 2);
        SortDescSorted(pairs);
        SortDescMembers(pairs);
        assert SortDesc(pairs)[0] in SortDesc(pairs) && SortDesc(pairs)[1] in SortDesc(pairs);
        assert 1 in counts;
        CountWitness(ranks, ranks, 1);
        WithCountMembers(ranks, m, 1);
        assert WithCount(ranks, m, 1)[0] in WithCount(ranks, m, 1);
      }
    } else if counts == [3, 1, 1] || counts == [2, 1, 1, 1] {
      var c := counts[0];
      assert c in counts;
      CountWitness(ranks, sorted, c);
      WithCountMembers(sorted, m, c);
      assert WithCount(sorted, m, c)[0] in WithCount(sorted, m, c);
      var singles := WithCount(ranks, m, 1);
      WithCountMembers(ranks, m, 1);
      SortDescMembers(singles);
      KickerValueNonNegative(SortDesc(singles), 2);
      KickerValueNonNegative(SortDesc(singles), 3);
    } else {
      assert sorted[0] in sorted;
      assert forall x :: x in sorted[1..] ==> x in sorted;
      SumBelowAceNonNegative(sorted[1..]);
    }
  }
  /** For real ranks every value is non-negative, and the values below 1000 are
      exactly the straight flushes. */
  lemma EvaluateBands(cards: seq<int>)
    requires |cards| == 5 && forall i :: 0 <= i < 5 ==> RankOf(cards[i]) <= Ace
    ensures Evaluate(cards) >= 0
    ensures Evaluate(cards) < 1000 <==> SameSuit(cards) && IsStraight(Ranks(cards))
  {
    EvaluateFacts(cards);
    RanksAt(cards);
    var ranks := Ranks(cards);
    assert RealRanks(ranks) by {
      forall x | x in ranks ensures 0 <= x <= Ace {
        var i :| 0 <= i < 5 && ranks[i] == x;
      }
    }
    var sorted := SortDesc(ranks);
    SortDescSorted(ranks);
    SortDescMembers(ranks);
    assert sorted[0] in sorted;
    assert forall x :: x in sorted[1..] ==> x in sorted;
    SumBelowAceNonNegative(sorted[1..]);
    ClassifyAtLeast(ranks);
  }

  /** Only a hand holding an ace reaches 0, the best value: any other straight flush is
      `12 - high` with a lower high card, or the wheel's 1. */
  lemma EvaluateZeroHasAce(cards: seq<int>)
    requires |cards| == 5 && forall i :: 0 <= i < 5 ==> RankOf(cards[i]) <= Ace
    ensures Evaluate(cards) == 0 ==> exists i :: 0 <= i < 5 && RankOf(cards[i]) == Ace
  {
    if Evaluate(cards) == 0 {
      EvaluateBands(cards);
      EvaluateFacts(cards);
      RanksAt(cards);
      var sorted := SortDesc(Ranks(cards));
      SortDescMembers(Ranks(cards));
      assert sorted[0] == Ace;
      assert sorted[0] in Ranks(cards);
    }
  }

  /** `hand_rank_name` names nothing below 1000 and calls everything else a flush. */
  lemma HandRankNameCases(rank: int)
    ensures HandRankName(rank) == None <==> rank < 1000
    ensures rank >= 1000 ==> HandRankName(rank) == Some("Flush")
  {
  }

  /** On the value of a hand of real ranks, `hand_rank_name` returns `None` exactly
      for the straight flushes and "Flush" for every other hand. */
  lemma HandRankNameOfHand(cards: seq<int>)
    requires |cards| == 5 && forall i :: 0 <= i < 5 ==> RankOf(cards[i]) <= Ace
    ensures HandRankName(Evaluate(cards)) == None <==> SameSuit(cards) && IsStraight(Ranks(cards))
    ensures !(SameSuit(cards) && IsStraight(Ranks(cards))) ==> HandRankName(Evaluate(cards)) == Some("Flush")
  {
    EvaluateBands(cards);
  }

  // ----- Best of seven (`evaluate_7cards`) -----

  /** After the loop, `best_rank` is at most every value and equal to one of them. */
  lemma {:induction false} LowestBounds(values: seq<int>)
    requires values != []
    ensures Lowest(values).Finite?
    ensures forall i :: 0 <= i < |values| ==> Lowest(values).n <= values[i]
    ensures exists i :: 0 <= i < |values| && Lowest(values).n == values[i]
  {
    var init, last := values[..|values| - 1], values[|values| - 1];
    if init == [] {
      assert Lowest(values).n == values[0];
    } else {
      LowestBounds(init);
      var w :| 0 <= w < |init| && Lowest(init).n == init[w];
      assert init[w] == values[w];
      if last < Lowest(init).n {
        assert Lowest(values).n == values[|values| - 1];
      } else {
        assert Lowest(values).n == values[w];
      }
    }
  }

  /** `evaluate_7cards` is the minimum of `_evaluate` over the 21 five-card subsets:
      at most the value of every subset, and equal to the value of one. */
  lemma BestOfSevenMinimum(ints: seq<int>)
    requires |ints| == 7
    ensures forall idx :: |idx| == 5 && Increasing(idx, 7) ==> BestOfSeven(ints) <= Evaluate(Pick(ints, idx))
    ensures exists idx :: |idx| == 5 && Increasing(idx, 7) && BestOfSeven(ints) == Evaluate(Pick(ints, idx))
  {
    forall idx | |idx| == 5 && Increasing(idx, 7) ensures BestOfSeven(ints) <= Evaluate(Pick(ints, idx)) {
      BestOfSevenAtMost(ints, idx);
    }
    var idx := BestOfSevenAttained(ints);
  }

  /** Folding `min` over the values of `combos` gives at most the value of each. */
  lemma LowestAtMost(eval: seq<int> --> int, combos: seq<seq<int>>, c: seq<int>)
    requires forall c :: c in combos ==> eval.requires(c)
    requires c in combos
    ensures Lowest(Values(eval, combos)).Finite? && Lowest(Values(eval, combos)).n <= eval(c)
  {
    ValuesAt(eval, combos);
    LowestBounds(Values(eval, combos));
    var j :| 0 <= j < |combos| && combos[j] == c;
    assert Values(eval, combos)[j] == eval(c);
  }

  /** Folding `min` over the values of non-empty `combos` gives the value of one. */
  lemma LowestAttained(eval: seq<int> --> int, combos: seq<seq<int>>) returns (c: seq<int>)
    requires forall c :: c in combos ==> eval.requires(c)
    requires combos != []
    ensures c in combos && Lowest(Values(eval, combos)) == Finite(eval(c))
  {
    ValuesAt(eval, combos);
    LowestBounds(Values(eval, combos));
    var j :| 0 <= j < |combos| && Lowest(Values(eval, combos)).n == Values(eval, combos)[j];
    c := combos[j];
  }

  /** The best of seven is at most the value of any five of the cards. */
  lemma BestOfSevenAtMost(ints: seq<int>, idx: seq<int>)
    requires |ints| == 7 && |idx| == 5 && Increasing(idx, 7)
    ensures BestOfSeven(ints) <= Evaluate(Pick(ints, idx))
  {
    ChooseLengths(ints, 5);
    ChooseComplete(ints, idx);
    LowestAtMost(Evaluate, Choose(ints, 5), Pick(ints, idx));
  }

  /** The best of seven is the value of some five of the cards. */
  lemma BestOfSevenAttained(ints: seq<int>) returns (idx: seq<int>)
    requires |ints| == 7
    ensures |idx| == 5 && Increasing(idx, 7) && BestOfSeven(ints) == Evaluate(Pick(ints, idx))
  {
    ChooseLengths(ints, 5);
    ChooseNonEmpty(ints, 5);
    var c := LowestAttained(Evaluate, Choose(ints, 5));
    idx := ChooseSound(ints, 5, c);
  }

  /** For real ranks the best of seven is never negative. */
  lemma BestOfSevenNonNegative(ints: seq<int>)
    requires |ints| == 7 && forall i :: 0 <= i < 7 ==> RankOf(ints[i]) <= Ace
    ensures BestOfSeven(ints) >= 0
  {
    var idx := BestOfSevenAttained(ints);
    var hand := Pick(ints, idx);
    assert forall k :: 0 <= k < 5 ==> hand[k] == ints[idx[k]];
    EvaluateBands(hand);
  }

  /** C(7, 5) = 21, worked out through Pascal's rule. */
  lemma SevenFive()
    ensures Binomial(7, 5) == 21
  {
    BinomialEdges(1);
    BinomialEdges(2);
    BinomialEdges(3);
    BinomialEdges(4);
    BinomialEdges(5);
    Pascal(1, 0);
    Pascal(2, 1);
    Pascal(3, 2);
    Pascal(4, 3);
    Pascal(2, 0);
    Pascal(3, 1);
    Pascal(4, 2);
    Pascal(5, 3);
    Pascal(5, 4);
    Pascal(6, 4);
  }

  /** For real ranks the best of seven is non-negative, and it lies in the
      straight-flush band exactly when some five of the seven cards form a straight
      flush. */
  lemma BestOfSevenBands(ints: seq<int>)
    requires |ints| == 7 && forall i :: 0 <= i < 7 ==> RankOf(ints[i]) <= Ace
    ensures BestOfSeven(ints) >= 0
    ensures BestOfSeven(ints) < 1000 <==>
      exists idx :: |idx| == 5 && Increasing(idx, 7) && SameSuit(Pick(ints, idx)) && IsStraight(Ranks(Pick(ints, idx)))
  {
    BestOfSevenMinimum(ints);
    var best :| |best| == 5 && Increasing(best, 7) && BestOfSeven(ints) == Evaluate(Pick(ints, best));
    EvaluateBands(Pick(ints, best));
    forall idx | |idx| == 5 && Increasing(idx, 7) && SameSuit(Pick(ints, idx)) && IsStraight(Ranks(Pick(ints, idx)))
      ensures BestOfSeven(ints) < 1000
    {
      EvaluateBands(Pick(ints, idx));
    }
  }
  /** The best of seven is 0 only when one of the seven cards is an ace. */
  lemma BestOfSevenZeroHasAce(ints: seq<int>)
    requires |ints| == 7 && forall i :: 0 <= i < 7 ==> RankOf(ints[i]) <= Ace
    ensures BestOfSeven(ints) == 0 ==> exists i :: 0 <= i < 7 && RankOf(ints[i]) == Ace
  {
    BestOfSevenMinimum(ints);
    var best :| |best| == 5 && Increasing(best, 7) && BestOfSeven(ints) == Evaluate(Pick(ints, best));
    var hand := Pick(ints, best);
    assert forall k :: 0 <= k < 5 ==> hand[k] == ints[best[k]];
    EvaluateZeroHasAce(hand);
    if BestOfSeven(ints) == 0 {
      var k :| 0 <= k < 5 && RankOf(hand[k]) == Ace;
      assert RankOf(ints[best[k]]) == Ace;
    }
  }



  /** `combinations(card_ints, 5)` yields C(7, 5) = 21 subsets. */
  lemma SevenChooseFive(ints: seq<int>)
    requires |ints| == 7
    ensures |Choose(ints, 5)| == 21
  {
    ChooseCount(ints, 5);
    SevenFive();
  }

  /** The length check of `evaluate_5cards` and the conversion errors. */
  lemma EvaluateFiveErrors(cards: seq<CardValue>)
    ensures EvaluateFive(cards).Err? <==>
      |cards| != 5 || exists i :: 0 <= i < |cards| && CardToInt(cards[i]).Err?
    ensures |cards| != 5 ==> EvaluateFive(cards) == Err(WrongCardCount(5, |cards|))
  {
    ConvertedLength(cards);
  }

  /** The length check of `evaluate_7cards` and the conversion errors. */
  lemma EvaluateSevenErrors(cards: seq<CardValue>)
    ensures EvaluateSeven(cards).Err? <==>
      |cards| != 7 || exists i :: 0 <= i < |cards| && CardToInt(cards[i]).Err?
    ensures |cards| != 7 ==> EvaluateSeven(cards) == Err(WrongCardCount(7, |cards|))
  {
    ConvertedLength(cards);
  }
}
