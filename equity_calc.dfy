/** The equity estimates of `equity/equity_calc.py`.

    Both functions run `num_simulations` identical rounds: the hands are fixed and
    nothing random is drawn, so every round compares the hero's value with the best
    opponent value and adds one win, one tie or nothing. The specification functions
    below evaluate one round and scale it; the methods keep the code's counters and
    loops and are proved equal to them. Python's floats are modelled as exact reals. */
module EquityCalc {
  import opened Results
  import opened HandEval

  // ----- One round -----

  /** The inner loop of `estimate_equity_5cards`, from opponent `opps[0]` on, with the
      running minimum `best` and the current `opp_rank` (`None` while unbound). A
      five-card hand is evaluated and rebinds `opp_rank`; any other hand leaves it as
      it is, so the previous opponent's value is used again, and Python raises
      `UnboundLocalError` when there is none. */
  function Scan5(opps: seq<seq<CardValue>>, best: Bound, last: Option<int>): Result<(Bound, Option<int>)>
    decreases |opps|
  {
    if opps == [] then Ok((best, last))
    else if |opps[0]| == 5 then
      var rank :- EvaluateFive(opps[0]);
      Scan5(opps[1..], MinBound(best, rank), Some(rank))
    else if last.None? then Err(UnboundOpponentRank)
    else Scan5(opps[1..], MinBound(best, last.value), last)
  }

  /** The inner loop of `estimate_equity_7cards`: a hand that is not seven cards
      raises, any other is evaluated by `evaluate_best_hand`. */
  function Scan7(opps: seq<seq<CardValue>>, best: Bound): Result<Bound>
    decreases |opps|
  {
    if opps == [] then Ok(best)
    else if |opps[0]| != 7 then Err(OpponentHandSize)
    else
      var rank :- EvaluateSeven(opps[0]);
      Scan7(opps[1..], MinBound(best, rank))
  }

  /** The counters one round adds: `(1, 0)` when the hero is strictly better than the
      best opponent (every integer is below `float('inf')`), `(0, 1)` on equality and
      `(0, 0)` otherwise. */
  function Outcome(mine: int, best: Bound): (int, int) {
    if best.Infinity? || mine < best.n then (1, 0)
    else if mine == best.n then (0, 1)
    else (0, 0)
  }

  /** The return expression `(wins + ties / len(opps)) / num_simulations if opps else 0`:
      the conditional is tested first, so an empty opponent list gives 0 even for zero
      simulations. */
  function Share(wins: int, ties: int, opponents: nat, simulations: int): Result<real> {
    if opponents == 0 then Ok(0.0)
    else if simulations == 0 then Err(ZeroDivision)
    else Ok((wins as real + ties as real / opponents as real) / simulations as real)
  }

  /** The counters after `simulations` rounds that each end as `round` does: no round
      is played for a non-positive count, and the first round's error ends the loop. */
  function Counts(mine: int, round: Result<Bound>, simulations: int): Result<(int, int)> {
    if simulations <= 0 then Ok((0, 0))
    else if round.Err? then Err(round.error)
    else
      var (w, t) := Outcome(mine, round.value);
      Ok((w * simulations, t * simulations))
  }

  /** The result after `simulations` rounds that each end the same way. */
  function Tally(mine: int, best: Bound, opponents: nat, simulations: int): Result<real> {
    var (w, t) := Outcome(mine, best);
    Share(w * simulations, t * simulations, opponents, simulations)
  }

  // ----- The estimates -----

  /** `estimate_equity_5cards`: the hero's length check, the hero's value, then
      `num_simulations` copies of one round (`range` of a non-positive count is empty). */
  function Equity5(myHand: seq<CardValue>, opps: seq<seq<CardValue>>, simulations: int): Result<real> {
    if |myHand| != 5 then Err(HeroHandSize(5))
    else
      var mine :- EvaluateFive(myHand);
      if simulations <= 0 then Share(0, 0, |opps|, simulations)
      else
        var round :- Scan5(opps, Infinity, None);
        Tally(mine, round.0, |opps|, simulations)
  }

  /** `estimate_equity_7cards`. */
  function Equity7(myCards: seq<CardValue>, opps: seq<seq<CardValue>>, simulations: int): Result<real> {
    if |myCards| != 7 then Err(HeroHandSize(7))
    else
      var mine :- EvaluateSeven(myCards);
      if simulations <= 0 then Share(0, 0, |opps|, simulations)
      else
        var best :- Scan7(opps, Infinity);
        Tally(mine, best, |opps|, simulations)
  }

  /** `estimate_equity_5cards` with its counters and loops. `opp_rank` is a local of
      the whole function, so it keeps its value from one round into the next. */
  method EstimateEquity5Cards(myHand: seq<CardValue>, opps: seq<seq<CardValue>>, simulations: int)
    returns (r: Result<real>)
    ensures r == Equity5(myHand, opps, simulations)
  {
    if |myHand| != 5 {
      return Err(HeroHandSize(5));
    }
    var wins, ties := 0, 0;
    var myRank := EvaluateHand(myHand);
    if myRank.Err? {
      return Err(myRank.error);
    }
    var oppRank: Option<int> := None;
    ghost var round := Scan5(opps, Infinity, None);
    Equity5Cases(myHand, opps, simulations, myRank.value);
    ghost var outcome := if round.Ok? then Outcome(myRank.value, round.value.0) else (0, 0);
    var k := 0;
    while k < simulations
      invariant 0 <= k <= (if simulations > 0 then simulations else 0)
      invariant k == 0 ==> wins == 0 && ties == 0 && oppRank == None
      invariant k > 0 ==> round.Ok? && oppRank == round.value.1
      invariant wins == (if outcome.0 == 1 then k else 0) && ties == (if outcome.1 == 1 then k else 0)
      invariant wins + ties <= k
    {
      if k > 0 && opps != [] {
        ScanRebinds(opps, Infinity, oppRank);
      }
      var scan := OpponentsRound5(opps, oppRank);
      if scan.Err? {
        return Err(scan.error);
      }
      var best := scan.value.0;
      oppRank := scan.value.1;
      if best.Infinity? || myRank.value < best.n {
        wins := wins + 1;
      } else if myRank.value == best.n {
        ties := ties + 1;
      }
      k := k + 1;
    }
    if simulations > 0 {
      TallyOfRounds(myRank.value, round.value.0, |opps|, simulations);
    }
    r := Share(wins, ties, |opps|, simulations);
  }

  /** The opponents' loop of one round of `estimate_equity_5cards`, entered with the
      `opp_rank` left by the previous round; it returns the best opponent value and
      the `opp_rank` it leaves. */
  method OpponentsRound5(opps: seq<seq<CardValue>>, last: Option<int>) returns (r: Result<(Bound, Option<int>)>)
    ensures r == Scan5(opps, Infinity, last)
  {
    var oppRank := last;
    var best := Infinity;
    var j := 0;
    assert opps[0..] == opps;
    while j < |opps|
      invariant 0 <= j <= |opps|
      invariant Scan5(opps, Infinity, last) == Scan5(opps[j..], best, oppRank)
    {
      assert opps[j..][1..] == opps[j + 1..];
      if |opps[j]| == 5 {
        var rank := EvaluateHand(opps[j]);
        if rank.Err? {
          return Err(rank.error);
        }
        oppRank := Some(rank.value);
      }
      if oppRank.None? {
        return Err(UnboundOpponentRank);
      }
      best := MinBound(best, oppRank.value);
      j := j + 1;
    }
    assert opps[j..] == [];
    return Ok((best, oppRank));
  }

  /** `estimate_equity_7cards`: the checks on the hero's cards, the rounds, and the
      share computed from the counters. */
  method EstimateEquity7Cards(myCards: seq<CardValue>, opps: seq<seq<CardValue>>, simulations: int)
    returns (r: Result<real>)
    ensures r == Equity7(myCards, opps, simulations)
  {
    if |myCards| != 7 {
      return Err(HeroHandSize(7));
    }
    var myBestRank := EvaluateBestHand(myCards);
    if myBestRank.Err? {
      return Err(myBestRank.error);
    }
    var counts := Rounds7(myBestRank.value, opps, simulations);
    Equity7Cases(myCards, opps, simulations, myBestRank.value);
    if counts.Err? {
      return Err(counts.error);
    }
    var (wins, ties) := counts.value;
    r := Share(wins, ties, |opps|, simulations);
  }

  /** The simulation loop of `estimate_equity_7cards`: the `wins` and `ties` counters
      after `simulations` rounds, for a hero whose best value is `mine`. */
  method Rounds7(mine: int, opps: seq<seq<CardValue>>, simulations: int) returns (r: Result<(int, int)>)
    ensures r == Counts(mine, Scan7(opps, Infinity), simulations)
  {
    var wins, ties := 0, 0;
    ghost var round := Scan7(opps, Infinity);
    ghost var outcome := if round.Ok? then Outcome(mine, round.value) else (0, 0);
    var k := 0;
    while k < simulations
      invariant 0 <= k <= (if simulations > 0 then simulations else 0)
      invariant k > 0 ==> round.Ok?
      invariant wins == (if outcome.0 == 1 then k else 0) && ties == (if outcome.1 == 1 then k else 0)
      invariant wins + ties <= k
    {
      var added := Round7(mine, opps);
      if added.Err? {
        return Err(added.error);
      }
      wins, ties := wins + added.value.0, ties + added.value.1;
      k := k + 1;
    }
    if simulations > 0 {
      CountsOfRounds(mine, round, simulations);
    }
    return Ok((wins, ties));
  }

  /** One round of `estimate_equity_7cards`: the opponents' loop, then the comparison
      that adds a win, a tie or nothing. */
  method Round7(mine: int, opps: seq<seq<CardValue>>) returns (r: Result<(int, int)>)
    ensures Scan7(opps, Infinity).Err? ==> r == Err(Scan7(opps, Infinity).error)
    ensures Scan7(opps, Infinity).Ok? ==> r == Ok(Outcome(mine, Scan7(opps, Infinity).value))
  {
    var best := OpponentsRound7(opps);
    if best.Err? {
      return Err(best.error);
    }
    if best.value.Infinity? || mine < best.value.n {
      r := Ok((1, 0));
    } else if mine == best.value.n {
      r := Ok((0, 1));
    } else {
      r := Ok((0, 0));
    }
  }

  /** The opponents' loop of one round of `estimate_equity_7cards`. */
  method OpponentsRound7(opps: seq<seq<CardValue>>) returns (r: Result<Bound>)
    ensures r == Scan7(opps, Infinity)
  {
    var best := Infinity;
    var j := 0;
    assert opps[0..] == opps;
    while j < |opps|
      invariant 0 <= j <= |opps|
      invariant Scan7(opps, Infinity) == Scan7(opps[j..], best)
    {
      assert opps[j..][1..] == opps[j + 1..];
      if |opps[j]| != 7 {
        return Err(OpponentHandSize);
      }
      var oppBestRank := EvaluateBestHand(opps[j]);
      if oppBestRank.Err? {
        return Err(oppBestRank.error);
      }
      best := MinBound(best, oppBestRank.value);
      j := j + 1;
    }
    assert opps[j..] == [];
    return Ok(best);
  }

  /** The counters after `simulations` rounds that all succeed with the same outcome:
      the count itself for the counter that outcome adds to, zero for the other. */
  lemma CountsOfRounds(mine: int, round: Result<Bound>, simulations: int)
    requires simulations > 0 && round.Ok?
    ensures var (w, t) := Outcome(mine, round.value);
      Counts(mine, round, simulations) ==
        Ok((if w == 1 then simulations else 0, if t == 1 then simulations else 0))
  {
  }

  /** The result after `simulations` rounds with the same outcome, from the counters
      that outcome leaves. */
  lemma TallyOfRounds(mine: int, best: Bound, opponents: nat, simulations: int)
    requires simulations > 0
    ensures var (w, t) := Outcome(mine, best);
      Tally(mine, best, opponents, simulations) ==
        Share(if w == 1 then simulations else 0, if t == 1 then simulations else 0, opponents, simulations)
  {
  }

  /** `Equity5` once the hero's hand is known to be valid with value `mine`. */
  lemma Equity5Cases(myHand: seq<CardValue>, opps: seq<seq<CardValue>>, simulations: int, mine: int)
    requires |myHand| == 5 && EvaluateFive(myHand) == Ok(mine)
    ensures simulations <= 0 ==> Equity5(myHand, opps, simulations) == Share(0, 0, |opps|, simulations)
    ensures simulations > 0 && Scan5(opps, Infinity, None).Err? ==>
      Equity5(myHand, opps, simulations) == Err(Scan5(opps, Infinity, None).error)
    ensures simulations > 0 && Scan5(opps, Infinity, None).Ok? ==>
      Equity5(myHand, opps, simulations) == Tally(mine, Scan5(opps, Infinity, None).value.0, |opps|, simulations)
  {
  }

  /** `Equity7` once the hero's cards are known to be valid with value `mine`. */
  lemma Equity7Cases(myCards: seq<CardValue>, opps: seq<seq<CardValue>>, simulations: int, mine: int)
    requires |myCards| == 7 && EvaluateSeven(myCards) == Ok(mine)
    ensures var counts := Counts(mine, Scan7(opps, Infinity), simulations);
      Equity7(myCards, opps, simulations) ==
        if counts.Err? then Err(counts.error) else Share(counts.value.0, counts.value.1, |opps|, simulations)
  {
  }

  // ----- Facts about one round -----

  /** Once a round has succeeded, the first opponent is a five-card hand, so the round
      rebinds `opp_rank` before reading it and the value left over from the previous
      round does not matter. */
  lemma ScanRebinds(opps: seq<seq<CardValue>>, best: Bound, last: Option<int>)
    requires opps != [] && Scan5(opps, best, None).Ok?
    ensures Scan5(opps, best, last) == Scan5(opps, best, None)
  {
  }
}
