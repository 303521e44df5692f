/** The Cactus-Kev-style poker hand evaluator of `equity/hand_eval.py`: the card
    codec, the 5-card classifier and the best-of-7 search.

    A card is the integer `rank + 16 * suit` (ranks 0 = deuce .. 12 = ace, suits
    0 = spades, 1 = hearts, 2 = diamonds, 3 = clubs). A hand value is an integer and
    LOWER IS BETTER. The values are computed by the code's own formulas, which do not
    give a collision-free order over hands; the lemmas in `hand_eval_facts.dfy` say
    exactly what each formula gives. */
module HandEval {
  import opened Results
  import opened Sorting
  import opened Combinations

  const Ace := 12

  /** RANK_MAP and SUIT_MAP: lower-case characters to indices. */
  const RankMap: map<char, int> := map[
    '2' := 0, '3' := 1, '4' := 2, '5' := 3, '6' := 4, '7' := 5, '8' := 6,
    '9' := 7, 't' := 8, 'j' := 9, 'q' := 10, 'k' := 11, 'a' := 12]
  const SuitMap: map<char, int> := map['s' := 0, 'h' := 1, 'd' := 2, 'c' := 3]

  /** RANK_STR and SUIT_STR: indices back to characters. */
  const RankChars: string := "23456789tjqka"
  const SuitChars: string := "shdc"

  /** Python's `str.lower()` on one character, as far as the two maps can observe it:
      ASCII capitals become small letters and the Kelvin sign U+212A becomes 'k'.
      Every other character either has no lower-case form or lowers to something that
      is not a key of either map, in Python as here. */
  function Lower(c: char): char {
    if 'A' <= c <= 'Z' then (c as int + 32) as char
    else if c == '\U{212A}' then 'k'
    else c
  }

  /** `(rank & 0xF) | ((suit & 0x3) << 4)`; both masks are identities on the values the
      maps produce, and the two bit fields do not overlap, so the `|` is a sum. */
  function Encode(rank: int, suit: int): int {
    rank + 16 * suit
  }

  /** `card & 0xF`; Python's `&` on a negative integer also yields the floored remainder. */
  function RankOf(card: int): int {
    card % 16
  }

  /** `(card >> 4) & 0x3`; `>>` is floor division by 16 in Python. */
  function SuitOf(card: int): int {
    (card / 16) % 4
  }

  /** `string_to_card`: only the first two characters are read; a shorter token
      fails on the indexing. */
  function StringToCard(token: string): Result<int> {
    if |token| < 2 then Err(IndexOutOfRange)
    else
      var rankChar, suitChar := Lower(token[0]), Lower(token[1]);
      if rankChar !in RankMap || suitChar !in SuitMap then Err(InvalidCardString(token))
      else Ok(Encode(RankMap[rankChar], SuitMap[suitChar]))
  }

  /** `card_to_string`: a rank nibble of 13, 14 or 15 has no character and fails on
      the table lookup; the suit field always has one. */
  function CardToString(card: int): Result<string> {
    if RankOf(card) >= |RankChars| then Err(IndexOutOfRange)
    else Ok([RankChars[RankOf(card)], SuitChars[SuitOf(card)]])
  }

  // ----- Python's list comprehensions over card lists -----

  /** `[card & 0xF for card in cards]`. */
  function Ranks(cards: seq<int>): seq<int> {
    if cards == [] then [] else [RankOf(cards[0])] + Ranks(cards[1..])
  }

  /** `[(card >> 4) & 0x3 for card in cards]`. */
  function Suits(cards: seq<int>): seq<int> {
    if cards == [] then [] else [SuitOf(cards[0])] + Suits(cards[1..])
  }

  lemma {:induction false} RanksAt(cards: seq<int>)
    ensures |Ranks(cards)| == |cards|
    ensures forall i :: 0 <= i < |cards| ==> Ranks(cards)[i] == RankOf(cards[i])
  {
    if cards != [] { RanksAt(cards[1..]); }
  }

  lemma {:induction false} SuitsAt(cards: seq<int>)
    ensures |Suits(cards)| == |cards|
    ensures forall i :: 0 <= i < |cards| ==> Suits(cards)[i] == SuitOf(cards[i])
  {
    if cards != [] { SuitsAt(cards[1..]); }
  }

  /** `sum(12 - r for r in s)`. */
  function SumBelowAce(s: seq<int>): int {
    if s == [] then 0 else (12 - s[0]) + SumBelowAce(s[1..])
  }

  /** `x >> k` for a non-negative `x`. */
  function ShiftRight(x: nat, k: nat): nat {
    if k == 0 then x else ShiftRight(x / 2, k - 1)
  }

  /** `s[:n]`, which Python allows past the end. */
  function Take(s: seq<int>, n: nat): seq<int> {
    if |s| <= n then s else s[..n]
  }

  /** `sum((13 - k) * (100 >> (i * 2)) for i, k in enumerate(ks))`, with `i` starting at `first`. */
  function WeightedKickers(ks: seq<int>, first: nat): int {
    if ks == [] then 0 else (13 - ks[0]) * ShiftRight(100, first * 2) + WeightedKickers(ks[1..], first + 1)
  }

  /** The kicker term of three of a kind (n = 2) and of one pair (n = 3). */
  function KickerValue(kickers: seq<int>, n: nat): int {
    WeightedKickers(Take(kickers, n), 0)
  }

  // ----- The classifier -----

  /** `sorted(Counter(ranks_sorted).values(), reverse=True)`: the Counter sees the
      distinct ranks from highest to lowest. */
  function Counts(ranks: seq<int>): seq<int> {
    SortDesc(Frequencies(Distinct(ranks), multiset(ranks)))
  }

  lemma CountBound(s: seq<int>, x: int)
    ensures multiset(s)[x] <= |s|
  {
    if s != [] {
      assert s == [s[0]] + s[1..];
      CountBound(s[1..], x);
    }
  }

  /** A frequency `c` in the pattern belongs to some rank, and the comprehension
      `[r for r in s if ranks.count(r) == c]` keeps its `c` occurrences. */
  lemma CountWitness(ranks: seq<int>, s: seq<int>, c: int)
    requires c in Counts(ranks) && multiset(s) == multiset(ranks)
    ensures c >= 0 && |WithCount(s, multiset(ranks), c)| >= c
  {
    var m := multiset(ranks);
    var d := Distinct(ranks);
    var freqs := Frequencies(d, m);
    SortDescSorted(freqs);
    DistinctProperties(ranks);
    FrequenciesAt(d, m);
    assert c in multiset(Counts(ranks));
    assert c in freqs;
    var i :| 0 <= i < |freqs| && freqs[i] == c;
    var x := d[i];
    assert x in d;
    assert x in multiset(ranks);
    WithCountMultiset(s, m, c, x);
    CountBound(WithCount(s, m, c), x);
  }

  /** `_classify_hand`: the pair / trips / quads categories and the high-card fallback. */
  function Classify(ranks: seq<int>): int
    requires |ranks| == 5
  {
    SortDescSorted(ranks);
    var ranksSorted := SortDesc(ranks);
    var m := multiset(ranks);
    var counts := Counts(ranks);
    if counts == [4, 1] then
      CountWitness(ranks, ranksSorted, 4);
      var quadRank := WithCount(ranksSorted, m, 4)[0];
      1000 + (12 - quadRank)
    else if counts == [3, 2] then
      CountWitness(ranks, ranksSorted, 3);
      CountWitness(ranks, ranksSorted, 2);
      var tripRank := WithCount(ranksSorted, m, 3)[0];
      var pairRank := WithCount(ranksSorted, m, 2)[0];
      1200 + (12 - tripRank) * 13 + (12 - pairRank)
    else if counts == [3, 1, 1] then
      CountWitness(ranks, ranksSorted, 3);
      var tripRank := WithCount(ranksSorted, m, 3)[0];
      var kickers := SortDesc(WithCount(ranks, m, 1));
      2000 + (12 - tripRank) * 100 + KickerValue(kickers, 2)
    else if counts == [2, 2, 1] then
      CountWitness(ranks, ranksSorted, 2);
      CountWitness(ranks, ranks, 1);
      SortDescSorted(WithCount(ranksSorted, m, 2));
      // built from ranks_sorted, so each pair rank is listed twice
      var pairs := SortDesc(WithCount(ranksSorted, m, 2));
      var kicker := WithCount(ranks, m, 1)[0];
      3000 + (12 - pairs[0]) * 100 + (12 - pairs[1]) * 10 + (12 - kicker)
    else if counts == [2, 1, 1, 1] then
      CountWitness(ranks, ranksSorted, 2);
      var pairRank := WithCount(ranksSorted, m, 2)[0];
      var kickers := SortDesc(WithCount(ranks, m, 1));
      4000 + (12 - pairRank) * 1000 + KickerValue(kickers, 3)
    else
      6200 + (12 - ranksSorted[0]) * 1000 + SumBelowAce(ranksSorted[1..])
  }

  /** `set(ranks) == {0, 1, 2, 3, 12}`, written as the set listed from highest to lowest. */
  const Wheel: seq<int> := [12, 3, 2, 1, 0]

  /** `_is_straight`. */
  predicate IsStraight(ranks: seq<int>) {
    if |ranks| != 5 then false
    else
      DistinctProperties(ranks);
      var sortedRanks := Distinct(ranks);   // sorted(set(ranks)), read from the top
      (sortedRanks[0] - sortedRanks[|sortedRanks| - 1] == 4 && |sortedRanks| == 5)
      || sortedRanks == Wheel
  }

  /** `_evaluate`: flushes and straights first, the rest by rank frequencies. */
  function Evaluate(cards: seq<int>): int
    requires |cards| == 5
  {
    RanksAt(cards);
    SortDescSorted(Ranks(cards));
    var suits := Suits(cards);
    var ranks := Ranks(cards);
    var isFlush := |Distinct(suits)| == 1;
    var ranksSorted := SortDesc(ranks);
    var isStraight := IsStraight(ranksSorted);
    if isFlush && isStraight then
      if Distinct(ranks) == Wheel then 1
      else 12 - ranksSorted[0]   // max(ranks)
    else if isFlush then
      1400 + (12 - ranksSorted[0]) * 1000 + SumBelowAce(ranksSorted[1..])
    else if isStraight then
      if Distinct(ranks) == Wheel then 1600 + 799
      else 1600 + (12 - ranksSorted[0])
    else
      Classify(ranks)
  }

  // ----- Card lists -----

  /** An element of a card list, which Python lets be a token such as "As" or an
      already encoded card. */
  datatype CardValue = Text(token: string) | Code(code: int)

  /** The body of the conversion loop: strings go through `string_to_card`, anything
      else is kept as it is. */
  function CardToInt(card: CardValue): Result<int> {
    match card
    case Text(token) => StringToCard(token)
    case Code(code) => Ok(code)
  }

  /** `card_ints` once the conversion loop has run: the first element that fails
      decides the error. */
  function Converted(cards: seq<CardValue>): Result<seq<int>> {
    if cards == [] then Ok([])
    else
      var first :- CardToInt(cards[0]);
      var rest :- Converted(cards[1..]);
      Ok([first] + rest)
  }

  /** `ints` in front of a successful conversion, or the conversion's error. */
  function AfterPrefix(ints: seq<int>, r: Result<seq<int>>): Result<seq<int>> {
    if r.Err? then r else Ok(ints + r.value)
  }

  /** The loop shared by `evaluate_5cards` and `evaluate_7cards` that builds `card_ints`. */
  method ConvertCards(cards: seq<CardValue>) returns (r: Result<seq<int>>)
    ensures r == Converted(cards)
  {
    var cardInts: seq<int> := [];
    var i := 0;
    assert cards[0..] == cards;
    AfterPrefixEmpty(Converted(cards));
    while i < |cards|
      invariant 0 <= i <= |cards|
      invariant Converted(cards) == AfterPrefix(cardInts, Converted(cards[i..]))
    {
      assert cards[i..][1..] == cards[i + 1..];
      ConvertedCons(cards[i..]);
      var card := CardToInt(cards[i]);
      if card.Err? {
        return Err(card.error);
      }
      AfterPrefixAppend(cardInts, [card.value], Converted(cards[i + 1..]));
      cardInts := cardInts + [card.value];
      i := i + 1;
    }
    assert cards[i..] == [];
    assert cardInts + [] == cardInts;
    return Ok(cardInts);
  }

  /** `best_rank`: `float('inf')` before the first combination, an integer after it. */
  datatype Bound = Infinity | Finite(n: int)

  /** `min(best_rank, rank)`; Python keeps the first argument on a tie, which for equal
      integers is the same value. */
  function MinBound(best: Bound, rank: int): Bound {
    if best.Infinity? || rank < best.n then Finite(rank) else best
  }

  /** `eval(combo)` for each combination, in loop order; the loop of `evaluate_7cards`
      applies `_evaluate`. */
  function Values(eval: seq<int> --> int, combos: seq<seq<int>>): seq<int>
    requires forall c :: c in combos ==> eval.requires(c)
  {
    if combos == [] then []
    else Values(eval, combos[..|combos| - 1]) + [eval(combos[|combos| - 1])]
  }

  /** `best_rank` after folding `min` over `values`, starting from `float('inf')`. */
  function Lowest(values: seq<int>): Bound {
    if values == [] then Infinity
    else MinBound(Lowest(values[..|values| - 1]), values[|values| - 1])
  }

  /** The best value over the combinations of five of seven cards. */
  function BestOfSeven(ints: seq<int>): int
    requires |ints| == 7
  {
    ChooseLengths(ints, 5);
    ChooseNonEmpty(ints, 5);
    ValuesAt(Evaluate, Choose(ints, 5));
    LowestFinite(Values(Evaluate, Choose(ints, 5)));
    Lowest(Values(Evaluate, Choose(ints, 5))).n
  }

  /** `evaluate_5cards` and `evaluate_hand`. */
  function EvaluateFive(cards: seq<CardValue>): Result<int> {
    if |cards| != 5 then Err(WrongCardCount(5, |cards|))
    else
      var ints :- Converted(cards);
      ConvertedLength(cards);
      Ok(Evaluate(ints))
  }

  /** `evaluate_7cards` and `evaluate_best_hand`. */
  function EvaluateSeven(cards: seq<CardValue>): Result<int> {
    if |cards| != 7 then Err(WrongCardCount(7, |cards|))
    else
      var ints :- Converted(cards);
      ConvertedLength(cards);
      Ok(BestOfSeven(ints))
  }

  /** `HandEvaluator.evaluate_5cards`. */
  method Evaluate5Cards(cards: seq<CardValue>) returns (r: Result<int>)
    ensures r == EvaluateFive(cards)
  {
    if |cards| != 5 {
      return Err(WrongCardCount(5, |cards|));
    }
    var cardInts := ConvertCards(cards);
    if cardInts.Err? {
      return Err(cardInts.error);
    }
    ConvertedLength(cards);
    return Ok(Evaluate(cardInts.value));
  }

  /** `HandEvaluator.evaluate_7cards`: the minimum over `combinations(card_ints, 5)`. */
  method Evaluate7Cards(cards: seq<CardValue>) returns (r: Result<int>)
    ensures r == EvaluateSeven(cards)
  {
    if |cards| != 7 {
      return Err(WrongCardCount(7, |cards|));
    }
    var converted := ConvertCards(cards);
    if converted.Err? {
      return Err(converted.error);
    }
    ConvertedLength(cards);
    var cardInts := converted.value;
    var combos := Choose(cardInts, 5);
    ChooseLengths(cardInts, 5);
    ChooseNonEmpty(cardInts, 5);
    var bestRank := BestRank(combos);
    ValuesAt(Evaluate, combos);
    LowestFinite(Values(Evaluate, combos));
    return Ok(bestRank.n);
  }

  /** The loop of `evaluate_7cards`: `best_rank = min(best_rank, rank)` over the
      combinations. */
  method BestRank(combos: seq<seq<int>>) returns (bestRank: Bound)
    requires forall c :: c in combos ==> |c| == 5
    ensures bestRank == Lowest(Values(Evaluate, combos))
  {
    bestRank := Infinity;
    var i := 0;
    while i < |combos|
      invariant 0 <= i <= |combos|
      invariant bestRank == Lowest(Values(Evaluate, combos[..i]))
    {
      assert combos[..i + 1][..i] == combos[..i];
      var rank := Evaluate(combos[i]);
      var before := Values(Evaluate, combos[..i]);
      assert Values(Evaluate, combos[..i + 1]) == before + [rank];
      assert (before + [rank])[..|before|] == before;
      bestRank := MinBound(bestRank, rank);
      i := i + 1;
    }
    assert combos[..i] == combos;
  }

  /** The module-level `evaluate_hand`, which forwards to the shared evaluator. */
  method EvaluateHand(cards: seq<CardValue>) returns (r: Result<int>)
    ensures r == EvaluateFive(cards)
  {
    r := Evaluate5Cards(cards);
  }

  /** The module-level `evaluate_best_hand`. */
  method EvaluateBestHand(cards: seq<CardValue>) returns (r: Result<int>)
    ensures r == EvaluateSeven(cards)
  {
    r := Evaluate7Cards(cards);
  }

  /** `hand_rank_name`. Its inner tests (4096, 3072, 2560, ...) sit under
      `rank < 1000` and can never hold, so below 1000 the function falls off its end
      and Python returns `None`; everything else is called a flush. */
  function HandRankName(rank: int): Option<string> {
    if rank < 1000 then
      if rank >= 4096 then Some("Straight")
      else if rank >= 2048 then
        if rank >= 3072 then Some("Four of a Kind")
        else if rank >= 2560 then Some("Full House")
        else if rank >= 2560 then Some("Flush")   // repeats the test above
        else if rank >= 2304 then Some("Three of a Kind")
        else if rank >= 2176 then Some("Two Pair")
        else if rank >= 2144 then Some("Pair")
        else Some("High Card")
      else None
    else Some("Flush")
  }

  // ----- Facts the definitions above rely on -----

  /** A successful conversion has one integer per element, each the element's own
      conversion; it succeeds exactly when every element converts. */
  lemma {:induction false} ConvertedLength(cards: seq<CardValue>)
    ensures Converted(cards).Ok? <==> forall i :: 0 <= i < |cards| ==> CardToInt(cards[i]).Ok?
    ensures Converted(cards).Ok? ==> |Converted(cards).value| == |cards|
    ensures Converted(cards).Ok? ==>
      forall i :: 0 <= i < |cards| ==> Converted(cards).value[i] == CardToInt(cards[i]).value
  {
    if cards != [] {
      ConvertedLength(cards[1..]);
      assert forall i :: 1 <= i < |cards| ==> cards[1..][i - 1] == cards[i];
    }
  }

  lemma ConvertedCons(cards: seq<CardValue>)
    requires cards != []
    ensures Converted(cards) ==
      if CardToInt(cards[0]).Err? then Err(CardToInt(cards[0]).error)
      else AfterPrefix([CardToInt(cards[0]).value], Converted(cards[1..]))
  {
  }

  lemma AfterPrefixEmpty(r: Result<seq<int>>)
    ensures AfterPrefix([], r) == r
  {
    if r.Ok? {
      assert [] + r.value == r.value;
    }
  }

  lemma AfterPrefixAppend(a: seq<int>, b: seq<int>, r: Result<seq<int>>)
    ensures AfterPrefix(a, AfterPrefix(b, r)) == AfterPrefix(a + b, r)
  {
    if r.Ok? {
      assert a + (b + r.value) == (a + b) + r.value;
    }
  }

  /** One value per combination, in order. */
  lemma {:induction false} ValuesAt(eval: seq<int> --> int, combos: seq<seq<int>>)
    requires forall c :: c in combos ==> eval.requires(c)
    ensures |Values(eval, combos)| == |combos|
    ensures forall i :: 0 <= i < |combos| ==> Values(eval, combos)[i] == eval(combos[i])
  {
    if combos != [] {
      var init := combos[..|combos| - 1];
      assert forall c :: c in init ==> c in combos;
      ValuesAt(eval, init);
    }
  }

  /** After at least one value the bound is finite. */
  lemma LowestFinite(values: seq<int>)
    ensures values != [] <==> Lowest(values).Finite?
  {
  }
}
