# Poker hand evaluator, equity estimator and preflop position

A Dafny model of three pieces of a six-handed Texas Hold'em bot:

- **the hand evaluator** (`equity/hand_eval.py`), which covers:
  - the card codec: a card is the integer `rank + 16 * suit`, with ranks 0 for a deuce up to 12 for an ace and suits s, h, d, c as 0 to 3;
  - the 5-card classifier, `_evaluate` and `_classify_hand`, where a lower value is a better hand;
  - the best-of-seven search over the 21 five-card subsets;
  - the module-level wrappers `evaluate_hand` and `evaluate_best_hand`;
  - `hand_rank_name`.
- **the equity estimator** (`equity/equity_calc.py`), covering `estimate_equity_5cards` and `estimate_equity_7cards`.
  - Every simulated round is identical: nothing random is drawn.
  - Each round compares the hero's value with the best opponent value, and adds one win, one tie or nothing.
- **the preflop position helper** (`bot.py`), covering `Preflop_Position` and `get_preflop_position`.

## Layout

| file | module | contents |
|---|---|---|
| `results.dfy` | `Results` | The exceptions the modelled code raises, and a `Result`/`Option` pair. |
| `sorting.dfy` | `Sorting` | Python's `sorted(..., reverse=True)`, `sorted(set(...))`, `Counter` frequencies and filtering comprehensions, as sequences. |
| `combinations.dfy` | `Combinations` | `itertools.combinations`, in its output order, with completeness and soundness lemmas. |
| `hand_eval.dfy` | `HandEval` | See below. |
| `hand_eval_facts.dfy` | `HandEvalFacts` | What each formula of the evaluator gives, the error cases, and the codec round trips. |
| `hand_eval_order.dfy` | `HandEvalOrder` | Where the formulas order hands correctly, and where they collide or misorder. |
| `hand_eval_examples.dfy` | `HandEvalExamples` | The hands of `equity/test_hand_eval.py`, evaluated. |
| `equity_calc.dfy` | `EquityCalc` | Specification functions for one round and for the estimate; the two estimator methods with their loops. |
| `equity_facts.dfy` | `EquityFacts` | Properties of the estimate: the one-round share, the range, the degenerate inputs, ties, and the opponents' loop. |
| `equity_examples.dfy` | `EquityExamples` | The cases of `equity/tests/test_equity_calc.py`. |
| `bot.dfy` | `Bot` | The positions and the seat arithmetic, with their properties and the test cases. |

`HandEval` holds:
- the codec;
- the classifier and `_evaluate`, as functions;
- the conversion loop and the best-of-seven loop, as methods proved equal to the functions.

The form of each piece follows the source:
- The classifier and the position arithmetic are expressions and calls, so they are functions.
- The conversion loop, the combination loop and the two estimators are loops with counters, so they are methods with loop invariants.
- Each of those methods is proved equal to a specification function.
- The properties are proved about the specification functions.

## Model

| member | source | states |
|---|---|---|
| HandEvalFacts.RankTable | equity/hand_eval.py:40-49 | Every key of RANK_MAP sits at its own index in RANK_STR, and every index of RANK_STR maps back. |
| HandEvalFacts.SuitTable | equity/hand_eval.py:47-50 | The same two-way agreement between SUIT_MAP and SUIT_STR. |
| HandEvalFacts.DecodeEncode | equity/hand_eval.py:72-80 | `card & 0xF` and `(card >> 4) & 0x3` recover the rank and the suit of an encoded card. |
| HandEvalFacts.EncodeInjective | equity/hand_eval.py:72-73 | The encoding lies in 0..63 and is injective on the 52 (rank, suit) pairs. |
| HandEvalFacts.StringToCardTables | equity/hand_eval.py:63-73 | A token gives the encoding of (rank, suit) iff its first two characters, lowered, are RANK_STR[rank] and SUIT_STR[suit]. |
| HandEvalFacts.StringToCardErrors | equity/hand_eval.py:63-67 | IndexError iff the token has fewer than two characters. ValueError iff it has two or more and its rank or suit character is not in the tables. |
| HandEvalFacts.StringRoundTrip | equity/hand_eval.py:53-80 | A valid token converts, and converts back to its first two characters in lower case. |
| HandEvalFacts.CardRoundTrip | equity/hand_eval.py:53-80 | Every one of the 52 cards converts to a string, and that string converts back to the card. |
| HandEvalFacts.TablesLower | equity/hand_eval.py:49-50 | Both character tables are already lower case. |
| HandEvalFacts.CardToStringErrors | equity/hand_eval.py:76-80 | `card_to_string` fails iff the rank nibble is 13..15; otherwise it returns two characters. |
| HandEvalFacts.Quads | equity/hand_eval.py:165-168 | Four of a kind is `1000 + (12 - q)`, whatever the kicker. |
| HandEvalFacts.FullHouse | equity/hand_eval.py:169-173 | A full house is `1200 + 13 * (12 - t) + (12 - p)`, and for real ranks it lies in 1201..1367, inside the 1200..1368 band. |
| HandEvalFacts.KickerValueTwo | equity/hand_eval.py:178 | The trips kicker term weighs the two kickers by 100 and 25. |
| HandEvalFacts.Trips | equity/hand_eval.py:174-179 | Trips with kickers a > b is `2000 + 100 * (12 - t) + 100 * (13 - a) + 25 * (13 - b)`. |
| HandEvalFacts.TwoPairList | equity/hand_eval.py:182 | `pairs` is `[a, a, b, b]`: it still holds both cards of each pair. |
| HandEvalFacts.TwoPair | equity/hand_eval.py:180-184 | Two pair is `3000 + 110 * (12 - a) + (12 - k)`. The lower pair does not enter the value. |
| HandEvalFacts.KickerValueThree | equity/hand_eval.py:190 | The pair kicker term weighs the three kickers by 100, 25 and `100 >> 4 == 6`. |
| HandEvalFacts.Pair | equity/hand_eval.py:185-191 | One pair is `4000 + 1000 * (12 - p) + 100 * (13 - a) + 25 * (13 - b) + 6 * (13 - c)`. |
| HandEvalFacts.HighCardOf | equity/hand_eval.py:192-195 | Five distinct ranks give `6200 + 1000 * (12 - high) + (48 - the other four)`. |
| HandEvalFacts.HighCard | equity/hand_eval.py:192-195 | The same, with the five ranks given one by one. |
| HandEvalFacts.FiveOfAKind | equity/hand_eval.py:185-195 | Five equal ranks match no pattern and fall through to the high-card formula. |
| HandEvalFacts.FlushIff | equity/hand_eval.py:275 | `len(set(suits)) == 1` holds iff all suits are equal. |
| HandEvalFacts.StraightIff | equity/hand_eval.py:197-212 | `_is_straight` holds iff there are five ranks and they are consecutive or exactly A-2-3-4-5. |
| HandEvalFacts.StraightSorted | equity/hand_eval.py:278-279 | Sorting the ranks before the straight test changes nothing. |
| HandEvalFacts.NotStraightWhenRepeated | equity/hand_eval.py:205-209 | A repeated rank rules out a straight. |
| HandEvalFacts.SortedHead | equity/hand_eval.py:283-290 | The head of the descending sort is `max(ranks)`. |
| HandEvalFacts.EvaluateFacts | equity/hand_eval.py:271-279 | The facts `_evaluate` branches on: five ranks, each a nibble; an order-free straight test; the flush test as "all suits equal". |
| HandEvalFacts.StraightFlush | equity/hand_eval.py:281-286 | A non-wheel straight flush is `12 - high`, in 0..8 for real ranks. |
| HandEvalFacts.WheelFlush | equity/hand_eval.py:284-285 | The wheel straight flush is 1. |
| HandEvalFacts.Straight | equity/hand_eval.py:292-297 | A non-wheel straight that is not a flush is `1600 + (12 - high)`, in 1600..1608. |
| HandEvalFacts.WheelStraight | equity/hand_eval.py:295-296 | The wheel that is not a flush is 2399. |
| HandEvalFacts.FlushOf | equity/hand_eval.py:287-291 | A flush that is not a straight is `1400 + 1000 * (12 - high) + (48 - the other four)`. |
| HandEvalFacts.Flush | equity/hand_eval.py:287-291 | The same, with the ranks given one by one. |
| HandEvalFacts.NotStraight | equity/hand_eval.py:197-212 | Two ranks more than four apart, plus a rank outside the wheel, rule out a straight. |
| HandEvalFacts.ByRanks | equity/hand_eval.py:298-300 | Neither a flush nor a straight: the value is `_classify_hand` of the ranks. |
| HandEvalFacts.ClassifyAtLeast | equity/hand_eval.py:140-195 | For real ranks every rank-frequency category is worth at least 1000. |
| HandEvalFacts.EvaluateBands | equity/hand_eval.py:268-300 | For real ranks the value is non-negative, and below 1000 iff the hand is a straight flush. |
| HandEvalFacts.EvaluateZeroHasAce | equity/hand_eval.py:281-286 | A value of 0, the best, needs an ace. |
| HandEvalFacts.HandRankNameCases | equity/hand_eval.py:334-355 | `hand_rank_name` returns None iff rank < 1000; otherwise it returns "Flush". |
| HandEvalFacts.HandRankNameOfHand | equity/hand_eval.py:334-355 | On the value of a hand, `hand_rank_name` returns None iff the hand is a straight flush, and "Flush" for every other hand. |
| HandEvalFacts.LowestBounds | equity/hand_eval.py:260-266 | After the min loop, `best_rank` is finite, at most every value, and equal to one of them. |
| HandEvalFacts.LowestAtMost | equity/hand_eval.py:260-264 | Folding `min` from `float('inf')` over the values of the combinations gives a finite value at most the value of each combination. |
| HandEvalFacts.LowestAttained | equity/hand_eval.py:260-264 | Over a non-empty list of combinations the fold gives the value of one of them. |
| HandEvalFacts.BestOfSevenAtMost | equity/hand_eval.py:258-266 | The 7-card value is at most `_evaluate` of the cards at any five increasing positions. |
| HandEvalFacts.BestOfSevenAttained | equity/hand_eval.py:258-266 | The 7-card value is `_evaluate` of the cards at some five increasing positions. |
| HandEvalFacts.BestOfSevenNonNegative | equity/hand_eval.py:258-266 | For real ranks the 7-card value is never negative. |
| HandEvalFacts.BestOfSevenMinimum | equity/hand_eval.py:258-266 | The 7-card value is at most `_evaluate` of every 5-card subset, and equal to one of them. |
| HandEvalFacts.SevenChooseFive | equity/hand_eval.py:259-262 | `combinations(card_ints, 5)` yields 21 subsets. |
| HandEvalFacts.BestOfSevenBands | equity/hand_eval.py:258-266 | For real ranks the 7-card value is non-negative. It is below 1000 iff some five of the cards form a straight flush. |
| HandEvalFacts.BestOfSevenZeroHasAce | equity/hand_eval.py:258-266 | A 7-card value of 0 needs an ace among the seven. |
| HandEvalFacts.EvaluateFiveErrors | equity/hand_eval.py:224-235 | `evaluate_5cards` fails iff the count is not 5 or some card does not convert; a wrong count gives the count error. |
| HandEvalFacts.EvaluateSevenErrors | equity/hand_eval.py:247-256 | The same for `evaluate_7cards` with 7. |
| HandEval.StringToCard | equity/hand_eval.py:53-73 | `string_to_card` as written: the first two characters lowered, IndexError below two characters, ValueError for a character outside the maps, otherwise rank + 16 * suit. Its contract is stated by `HandEvalFacts.StringToCardTables`, `StringToCardErrors` and `StringRoundTrip`. |
| HandEval.CardToString | equity/hand_eval.py:76-80 | `card_to_string` as written: the rank nibble and the suit field looked up in RANK_STR and SUIT_STR. Its contract is stated by `HandEvalFacts.CardToStringErrors` and `CardRoundTrip`. |
| HandEval.Classify | equity/hand_eval.py:140-195 | `_classify_hand` with its five formulas as written; the two-pair formula reads the higher pair twice, as the code does. Its values are stated by `HandEvalFacts.Quads`, `FullHouse`, `Trips`, `TwoPair`, `Pair`, `HighCard` and `FiveOfAKind`. |
| HandEval.IsStraight | equity/hand_eval.py:197-212 | `_is_straight` as written. `HandEvalFacts.StraightIff` proves it equal to a run of five ranks or the wheel. |
| HandEval.Evaluate | equity/hand_eval.py:268-300 | `_evaluate` as written: straight flush, flush, straight, then `_classify_hand`. Its values are stated by `HandEvalFacts.StraightFlush`, `WheelFlush`, `FlushOf`, `Straight`, `WheelStraight`, `ByRanks` and `EvaluateBands`. |
| HandEval.Converted | equity/hand_eval.py:228-233 | The `card_ints` list the conversion loop builds. `HandEval.ConvertedLength` states it: one integer per element, or the first error. |
| HandEval.BestOfSeven | equity/hand_eval.py:258-266 | The fold of `min` over `_evaluate` of `combinations(card_ints, 5)`. `HandEvalFacts.BestOfSevenMinimum` proves it is the minimum over every five increasing positions. |
| HandEval.EvaluateFive | equity/hand_eval.py:214-235 | `evaluate_5cards`: the count check, the conversion, then `_evaluate`. Its errors are stated by `HandEvalFacts.EvaluateFiveErrors`. |
| HandEval.EvaluateSeven | equity/hand_eval.py:237-266 | `evaluate_7cards`: the count check, the conversion, then the best of the 21 subsets. Its errors are stated by `HandEvalFacts.EvaluateSevenErrors`. |
| HandEval.HandRankName | equity/hand_eval.py:334-355 | `hand_rank_name` with its branches as written. `HandEvalFacts.HandRankNameCases` proves it gives None below 1000 and "Flush" otherwise. |
| HandEval.ConvertedLength | equity/hand_eval.py:228-233 | The conversion succeeds iff every element converts, and gives one integer per element, in order. |
| HandEval.ConvertCards | equity/hand_eval.py:228-233 | The conversion loop returns the first element's error, or the converted list. |
| HandEval.Evaluate5Cards | equity/hand_eval.py:214-235 | The method equals `EvaluateFive`: the count check, the conversion, then `_evaluate`. |
| HandEval.BestRank | equity/hand_eval.py:260-266 | The min loop over the combinations equals the fold of `min` over their values. |
| HandEval.Evaluate7Cards | equity/hand_eval.py:237-266 | The method equals `EvaluateSeven`: the count check, the conversion, and the minimum over `combinations`. |
| HandEval.EvaluateHand | equity/hand_eval.py:307-317 | The module-level `evaluate_hand` equals `EvaluateFive`. |
| HandEval.EvaluateBestHand | equity/hand_eval.py:320-330 | The module-level `evaluate_best_hand` equals `EvaluateSeven`. |
| Combinations.ChooseCount | equity/hand_eval.py:259-262 | `combinations(s, k)` yields C(len(s), k) tuples. |
| Combinations.ChooseLengths | equity/hand_eval.py:262 | Every combination has k elements. |
| Combinations.ChooseComplete | equity/hand_eval.py:262 | Every choice of k increasing positions is among the combinations. |
| Combinations.ChooseSound | equity/hand_eval.py:262 | Every combination is the pick of k increasing positions. |
| Sorting.SortDescSorted | equity/hand_eval.py:158 | `sorted(s, reverse=True)` is a descending permutation of s. |
| Sorting.SortDescIs | equity/hand_eval.py:158 | It is the only one. |
| Sorting.DistinctProperties | equity/hand_eval.py:202 | The distinct ranks are listed once each, from highest to lowest. |
| Sorting.FrequenciesPermutation | equity/hand_eval.py:162-163 | The order in which `Counter` lists its keys does not change the sorted counts. |
| HandEvalOrder.QuadsOrder | equity/hand_eval.py:165-168 | Four of a kind: the higher quad rank wins, iff; the kicker never counts. |
| HandEvalOrder.FullHouseOrder | equity/hand_eval.py:169-173 | A full house is ordered by the trips rank, then by the pair rank, iff. |
| HandEvalOrder.StraightOrder | equity/hand_eval.py:292-297 | Of two non-wheel straights, the higher one wins, iff. |
| HandEvalOrder.WheelLowestStraight | equity/hand_eval.py:295-297 | The wheel loses to every other straight. |
| HandEvalOrder.StraightFlushBeatsAll | equity/hand_eval.py:281-300 | A straight flush beats every hand that is not one. |
| HandEvalOrder.WheelFlushBeatsLowStraightFlushes | equity/hand_eval.py:281-286 | The wheel straight flush (1) beats a straight flush iff that flush is queen-high or lower (2 for queen-high up to 8 for 6-high). It is not the weakest straight flush. |
| HandEvalOrder.KingHighStraightFlushTiesWheel | equity/hand_eval.py:284-286 | The king-high and the wheel straight flush are both 1. |
| HandEvalOrder.HighCardTopDominates | equity/hand_eval.py:192-195 | High card: the higher top card always wins. |
| HandEvalOrder.HighCardKickerCollision | equity/hand_eval.py:195 | High card: A-K-4-3-2 and A-Q-5-3-2 are worth the same. |
| HandEvalOrder.TwoPairIgnoresLowerPair | equity/hand_eval.py:182-184 | Two pair: A-A-K-K-x and A-A-2-2-x are worth the same. |
| HandEvalOrder.TripsKickerCollision | equity/hand_eval.py:178-179 | Trips: the kickers A-6 and K-T are worth the same. |
| HandEvalOrder.PairKickersMisordered | equity/hand_eval.py:190-191 | One pair: the kickers K-4-3 lose to Q-J-T. |
| HandEvalOrder.PairRankOutweighed | equity/hand_eval.py:185-191 | A-A-4-3-2 is 5478 and K-K-A-Q-J is 5199, so the pair of kings wins. |
| HandEvalOrder.LowPairLosesToAceHigh | equity/hand_eval.py:185-195 | A pair of deuces with A-K-Q (16168) loses to ace-high (6211). |
| HandEvalOrder.KingHighFlushLosesToStraight | equity/hand_eval.py:287-297 | A king-high flush (2424) loses to an ace-high straight (1600). |
| HandEvalExamples.FiveTokens | equity/hand_eval.py:224-235 | Five tokens that convert one by one evaluate as their integers. |
| HandEvalExamples.SevenTokens | equity/hand_eval.py:247-266 | Seven tokens that convert one by one give the best of their integers. |
| HandEvalExamples.RoyalFlushValue | equity/test_hand_eval.py:17 | as ks qs js ts is 0. |
| HandEvalExamples.NineHighStraightFlushValue | equity/test_hand_eval.py:18 | 9s 8s 7s 6s 5s is 5. |
| HandEvalExamples.QuadAcesValue | equity/test_hand_eval.py:19 | as ad ac ah kh is 1000. |
| HandEvalExamples.KingsFullValue | equity/test_hand_eval.py:20 | ks kd kc qs qd is 1215. |
| HandEvalExamples.AceHighFlushValue | equity/test_hand_eval.py:21 | as ks qs js 9s is 1411. |
| HandEvalExamples.AceHighStraightValue | equity/test_hand_eval.py:22 | ad kh qc js ts is 1600. |
| HandEvalExamples.TripAcesValue | equity/test_hand_eval.py:23 | as ad ac kh qc is 2275. |
| HandEvalExamples.AcesAndKingsValue | equity/test_hand_eval.py:24 | as ad ks kd qh is 3002. |
| HandEvalExamples.PairOfAcesValue | equity/test_hand_eval.py:25 | as ad ks qd jh is 4299. |
| HandEvalExamples.AceHighValue | equity/test_hand_eval.py:26 | ad kh qc js 9s is 6211. |
| HandEvalExamples.HandRankingsAscending | equity/test_hand_eval.py:16-39 | The ten test hands all evaluate, in non-decreasing order. |
| HandEvalExamples.WheelValue | equity/test_hand_eval.py:71 | ad 2h 3c 4s 5d is 2399. |
| HandEvalExamples.WheelFlushValue | equity/test_hand_eval.py:72 | ad 2d 3d 4d 5d is 1. |
| HandEvalExamples.WheelBelowStraights | equity/test_hand_eval.py:65-87 | The wheel ranks worse than the ace-high straight, and the wheel flush is 1. |
| HandEvalExamples.PairOfAcesKqtValue | equity/test_hand_eval.py:97 | as ad ks qd th is 4305. |
| HandEvalExamples.PairOfKingsValue | equity/test_hand_eval.py:98 | ks kd ah qh jh is 5199. |
| HandEvalExamples.KickerOrdering | equity/test_hand_eval.py:90-113 | A-A-K-Q-J < A-A-K-Q-T < K-K-A-Q-J, strictly. |
| HandEvalExamples.StraightNeedsFourSevenOrJack | equity/hand_eval.py:197-212 | Ranks without a four, a seven or a jack are never a straight. |
| HandEvalExamples.NoStraightFlushAmong | equity/hand_eval.py:258-266 | Seven such cards hold no straight flush, so their best is at least 1000. |
| HandEvalExamples.ReachesRoyalFlush | equity/hand_eval.py:258-266 | A-K-Q-2-3 of the board with J-T of spades is worth 0. |
| HandEvalExamples.ReachesFlush | equity/hand_eval.py:258-266 | With 9-8 of spades the best lies in 1000..1414. |
| HandEvalExamples.ReachesTrips | equity/hand_eval.py:258-266 | With A-A the best lies in 1000..2275. |
| HandEvalExamples.SevenCardRoyalFlush | equity/test_hand_eval.py:48-50 | The board with js ts is 0. |
| HandEvalExamples.SevenCardNineEight | equity/test_hand_eval.py:48-51 | The board with 9s 8s holds no straight flush. Its best is in 1000..1414. |
| HandEvalExamples.SevenCardAces | equity/test_hand_eval.py:48-52 | The board with ad ac holds three aces. Its best is in 1000..2275, better than any pair. |
| EquityCalc.Scan5 | equity/equity_calc.py:39-43 | The opponents' loop of `estimate_equity_5cards` as written, with `opp_rank` carried in and out. `EquityFacts.Scan5Minimum`, `Scan5Pair` and `Scan5ShortHand` state it. |
| EquityCalc.Scan7 | equity/equity_calc.py:75-80 | The opponents' loop of `estimate_equity_7cards`, with the ValueError for a hand that is not seven cards. `EquityFacts.Scan7Minimum` and `Scan7SizeError` state it. |
| EquityCalc.Outcome | equity/equity_calc.py:44-47 | What one round adds to `wins` and `ties`: a win below the best opponent or against `float('inf')`, a tie on equality. `EquityCalc.Round7` and `EquityFacts.TallyOneRound` state it. |
| EquityCalc.Share | equity/equity_calc.py:50 | The return expression: 0 without opponents, ZeroDivisionError for zero rounds, otherwise `(wins + ties / len(opps)) / num_simulations`. `EquityFacts.Equity5Degenerate` and `Equity7Degenerate` state its cases. |
| EquityCalc.Counts | equity/equity_calc.py:74-85 | The counters after the rounds of `estimate_equity_7cards`. `EquityCalc.Rounds7` is proved equal to it. |
| EquityCalc.Tally | equity/equity_calc.py:37-50 | The estimate after rounds that all end the same way. `EquityFacts.TallyOneRound` proves it equal to one round's share. |
| EquityCalc.Equity5 | equity/equity_calc.py:17-50 | `estimate_equity_5cards` as a function. `EquityCalc.EstimateEquity5Cards` is proved equal to it, and `EquityFacts.Equity5OneRound`, `Equity5Range` and `Equity5HeroChecks` state its values. |
| EquityCalc.Equity7 | equity/equity_calc.py:54-87 | `estimate_equity_7cards` as a function. `EquityCalc.EstimateEquity7Cards` is proved equal to it, and `EquityFacts.Equity7OneRound`, `Equity7Range` and `Equity7HeroChecks` state its values. |
| EquityCalc.EstimateEquity5Cards | equity/equity_calc.py:17-51 | The method, with its counters, its loops and `opp_rank` kept across rounds, equals `Equity5`. |
| EquityCalc.EstimateEquity7Cards | equity/equity_calc.py:54-87 | The method equals `Equity7`. |
| EquityCalc.Rounds7 | equity/equity_calc.py:74-85 | The simulation loop gives `wins` and `ties` as `simulations` copies of one round's outcome, or the first round's error. |
| EquityCalc.Round7 | equity/equity_calc.py:75-85 | One round fails as the opponents' loop fails. Otherwise it adds (1, 0), (0, 1) or (0, 0) as the hero is better, equal or worse. |
| EquityCalc.OpponentsRound5 | equity/equity_calc.py:39-43 | Entered with the previous round's `opp_rank`, the opponents' loop equals `Scan5` from `float('inf')`. It returns the best value and the `opp_rank` it leaves, or the error. |
| EquityCalc.OpponentsRound7 | equity/equity_calc.py:75-80 | The opponents' loop equals `Scan7` from `float('inf')`. |
| EquityCalc.Equity5Cases | equity/equity_calc.py:35-51 | Once the hero's hand is valid, the estimate's value in each of three cases: no rounds, a failed round, or a tallied round. |
| EquityCalc.Equity7Cases | equity/equity_calc.py:72-87 | Once the hero's cards are valid, the estimate is the share of the loop's counters, or their error. |
| EquityCalc.ScanRebinds | equity/equity_calc.py:40-43 | After a successful round the carried-over `opp_rank` no longer matters: the first opponent rebinds it. |
| EquityFacts.TallyOneRound | equity/equity_calc.py:45-51 | n equal rounds earn exactly what one round earns. |
| EquityFacts.RoundShareRange | equity/equity_calc.py:51 | One round's share lies in [0, 1]. |
| EquityFacts.Equity5OneRound | equity/equity_calc.py:37-51 | With rounds and opponents, the 5-card estimate is 1 for a win, 1/len(opps) for a tie and 0 for a loss. |
| EquityFacts.Equity5RoundsIrrelevant | equity/equity_calc.py:37-51 | Any two positive round counts give the same 5-card estimate. |
| EquityFacts.Equity5Range | equity/equity_calc.py:51 | A successful 5-card estimate lies in [0, 1]. |
| EquityFacts.Equity5HeroChecks | equity/equity_calc.py:29-35 | A hero hand that is not 5 cards raises the length error. A hero hand that does not evaluate raises the evaluator's error. |
| EquityFacts.Equity5Degenerate | equity/equity_calc.py:37-51 | No opponents give 0. With opponents, 0 rounds raise ZeroDivisionError and a negative count gives 0. |
| EquityFacts.Equity5IdenticalHands | equity/equity_calc.py:45-51 | A hand against an identical copy gives 1. |
| EquityFacts.Equity5TwoCopies | equity/equity_calc.py:45-51 | A hand against two identical copies gives 0.5. |
| EquityFacts.Scan5Minimum | equity/equity_calc.py:39-43 | After a successful round, every 5-card opponent evaluated and the best is at most each of them and the start. It is the start, the carried `opp_rank` or one opponent's value. |
| EquityFacts.Scan5Pair | equity/equity_calc.py:39-43 | Two 5-card opponents give the lower of their values, with the second in `opp_rank`. |
| EquityFacts.Scan5ShortHand | equity/equity_calc.py:41-43 | A short hand after a valid one reuses that value; a short hand first raises UnboundLocalError. |
| EquityFacts.Equity7OneRound | equity/equity_calc.py:74-87 | With rounds and opponents, the 7-card estimate is one round's share. |
| EquityFacts.Equity7RoundsIrrelevant | equity/equity_calc.py:74-87 | Any two positive round counts give the same 7-card estimate. |
| EquityFacts.Equity7Range | equity/equity_calc.py:87 | A successful 7-card estimate lies in [0, 1]. |
| EquityFacts.Equity7HeroChecks | equity/equity_calc.py:66-72 | The hero's length error, then the evaluator's error. |
| EquityFacts.Equity7Degenerate | equity/equity_calc.py:74-87 | No opponents give 0. With opponents, 0 rounds raise ZeroDivisionError and a negative count gives 0. |
| EquityFacts.Equity7IdenticalHands | equity/equity_calc.py:82-87 | Identical seven-card sets give 1. |
| EquityFacts.Scan7Minimum | equity/equity_calc.py:75-80 | A round succeeds iff every opponent has 7 cards that evaluate. Its best is then at most each opponent and the start, and is one of them. |
| EquityFacts.Scan7SizeError | equity/equity_calc.py:77-78 | The first opponent that is not 7 cards, after valid ones, raises ValueError. |
| EquityExamples.PairOfAcesKqjValue | equity/tests/test_equity_calc.py:47 | as ad kh qc jh is 4299. |
| EquityExamples.SevenHighValue | equity/tests/test_equity_calc.py:48 | 2s 3d 4h 5c 7h is 13242. |
| EquityExamples.NineHighValue | equity/tests/test_equity_calc.py:69 | 2h 4d 6c 8s 9h is 11236. |
| EquityExamples.SpadesAceToEightValue | equity/tests/test_equity_calc.py:86 | as ks qs js ts 9s 8s is 0. |
| EquityExamples.WeakSevenValue | equity/tests/test_equity_calc.py:93 | 2s 3d 4h 5c 7h 9d 8c has a positive value. |
| EquityExamples.FirstFiveOfSeven | equity/hand_eval.py:258-266 | The best of seven is at most the value of the first five. |
| EquityExamples.IdenticalRoyalFlushes | equity/tests/test_equity_calc.py:24-38 | Identical royal flushes give 1.0 for 1 round and for 500 rounds. The tests expect 0.5. |
| EquityExamples.PairBeatsSevenHigh | equity/tests/test_equity_calc.py:41-55 | A pair of aces against seven high gives 1.0. |
| EquityExamples.PairBeatsTwoOpponents | equity/tests/test_equity_calc.py:58-76 | Against seven high and nine high the estimate is 1.0, above 0.66. |
| EquityExamples.SevenCardTieAndWin | equity/tests/test_equity_calc.py:79-99 | The identical 7-card sets give 1.0, where the test expects 0.5; the weak set gives 1.0. |
| EquityExamples.ThreeWayTie | equity/equity_calc.py:45-51 | Two identical royal flushes against the hero give 0.5, not a third. |
| Bot.PreflopPosition.Value | bot.py:32-38 | Every member's value lies in 0..5. |
| Bot.PositionOf | bot.py:52 | `Preflop_Position(v)` succeeds iff 0 <= v < 6, with the member whose value is v; otherwise it raises ValueError carrying v. |
| Bot.ClockwiseDistance | bot.py:41-50 | The distance is congruent to `p - sb` modulo 6, and is `p - sb` or `p - sb + 6`. For seats on the table it is `(p - sb) % 6`, in 0..5. |
| Bot.GetPreflopPosition | bot.py:41-52 | The position succeeds iff the distance is in 0..5, and then its value is the distance. |
| Bot.SeatOf | bot.py:32-52 | The seat holding a position lies on the table, at that distance from the small blind. |
| Bot.ValuesRoundTrip | bot.py:32-38 | Every member converts back from its value, and SB < BB < UTG < MP < CO < BTN. |
| Bot.ValuesDistinct | bot.py:32-38 | Two members have equal values iff they are the same member. |
| Bot.SmallBlindIsSB | bot.py:46-52 | The player in the small blind's seat is SB. |
| Bot.PositionOnTable | bot.py:41-52 | For seats in 0..5 the result is always a member, the one whose value is `(p - sb) % 6`. |
| Bot.PositionError | bot.py:46-52 | ValueError iff `p - sb >= 6` or `p - sb < -6`. |
| Bot.SeatOfInverse | bot.py:41-52 | `SeatOf` and `get_preflop_position` are inverse on the table. |
| Bot.RotationInvariant | bot.py:41-52 | Moving the player and the small blind one seat together keeps the position. |
| Bot.TestPositions | equity/tests/test_bot_preflop.py:42-132 | (0,0) is SB, (1,0) BB, (2,0) UTG, (5,0) BTN, (3,2) BB and (1,3) CO. |

## Left out

- `HandEvaluator._build_tables`, `_build_flush_table`, `_build_unique_table` (equity/hand_eval.py:90-138) are left out: their tables are built but never read by any evaluation path.
- The `HandEvaluator` class and its global instance `_evaluator` are left out. They hold no state that evaluation reads, so the evaluator is modelled as module functions.
- The `isinstance(card, str)` test is modelled as a choice between a token and an integer. Other Python values, such as floats or tuples in a card list, are not modelled.
- The `__main__` demonstration blocks are left out: they print.
- The unused `random` import of `equity/equity_calc.py` is left out, and no sampling is modelled: the code draws nothing.
  - The "Monte Carlo" test at equity/tests/test_equity_calc.py:102-121 is therefore the deterministic 500-round case in `EquityExamples.IdenticalRoyalFlushes`.
- Python floats are modelled as exact reals, so the results carry no rounding.
  - An empty opponent list returns the integer 0, modelled as 0.0.
  - For a negative round count the code computes `0 / n`, which is -0.0; this is modelled as 0.0.
- `bet()`, `Memory`, `Pot`, `GameState`'s other fields and `helpers` are not part of this model, nor are `opp_eval/opp_eval.py` and the harnesses `bot_test.py`, `bot_long_test.py` and `tests/bot_long_test.py`.
  - This is betting policy, an opponent model and random game loops with file output.
  - `GameState` appears only as the two fields `get_preflop_position` reads.
- `EstimateEquity7Cards`: the loops of `estimate_equity_7cards` are split over the helper methods `Rounds7`, `Round7` and `OpponentsRound7`. The method calls run in the same order as the loops.
- `EstimateEquity5Cards`: the opponents' loop of `estimate_equity_5cards` is the helper method `OpponentsRound5`. It gets `opp_rank` as a parameter and hands it back, so the value still carries from one round into the next.
- `HandEvalExamples.SevenCardNineEight` and `HandEvalExamples.SevenCardAces` state bounds (1000..1414 and 1000..2275), not the exact values. The exact minimum over the 21 subsets is not worked out; the bounds fix the category the test describes wrongly.
- `HandEval.Classify`: the two-pair formula is modelled as written, so the lower pair never counts (see `HandEvalOrder.TwoPairIgnoresLowerPair`). It is not corrected.
- `EquityFacts.Equity5IdenticalHands` and `EquityFacts.Equity7IdenticalHands` state 1.0, not the even split of 0.5 that the tests expect: a tie is credited with `ties / len(opponent_hands)`, which is the whole pot against one opponent.
  - `EquityFacts.Equity5TwoCopies` gives a three-way tie 1/2 rather than 1/3 for the same reason.
- `EquityCalc.Scan5`: an opponent hand that is not five cards is not skipped. It reuses `opp_rank` from the previous hand, or the previous round, and raises UnboundLocalError when there is none. This is modelled as written.
- `EquityCalc.Equity5`, `EquityCalc.Equity7` and `Bot.GetPreflopPosition` model the raising inputs as `Result` errors, not preconditions:
  - a wrong card count;
  - an invalid token;
  - zero rounds with opponents;
  - a seat distance of 6 or more.
- `HandEval.Evaluate` follows the code's formulas, not a collision-free order over poker hands. Its category bands overlap:
  - pairs run far past the start of high card;
  - a flush can lose to trips;
  - kickers collide and misorder.

  The lemmas in `hand_eval_order.dfy` exhibit each case, and no total-order theorem is claimed.
- `HandEval.HandRankName` is modelled as written: it returns None below 1000 and "Flush" elsewhere. Its inner tests are unreachable.
