/** The preflop seat arithmetic of `bot.py`: the six positions at a six-handed
    table, numbered clockwise from the small blind, and the position of the player
    to act given the small blind's seat. */
module Bot {
  import opened Results

  /** `Preflop_Position`: the members and their values, the clockwise distance from
      the small blind. */
  datatype PreflopPosition = SB | BB | UTG | MP | CO | BTN {
    /** The member's `value`. */
    function Value(): (v: int)
      ensures 0 <= v < Seats
    {
      match this
      case SB => 0
      case BB => 1
      case UTG => 2
      case MP => 3
      case CO => 4
      case BTN => 5
    }
  }

  /** The table is always six-handed. */
  const Seats := 6

  /** The two fields of the game state the position depends on; the other fields are
      not read. */
  datatype GameState = GameState(indexToAction: int, indexOfSmallBlind: int)

  /** `Preflop_Position(value)`: the member with that value, and `ValueError` for any
      other integer. */
  function PositionOf(value: int): (r: Result<PreflopPosition>)
    ensures r.Ok? <==> 0 <= value < Seats
    ensures r.Ok? ==> r.value.Value() == value
    ensures r.Err? ==> r.error == InvalidPosition(value)
  {
    match value
    case 0 => Ok(SB)
    case 1 => Ok(BB)
    case 2 => Ok(UTG)
    case 3 => Ok(MP)
    case 4 => Ok(CO)
    case 5 => Ok(BTN)
    case _ => Err(InvalidPosition(value))
  }

  /** The clockwise distance from the small blind to the player: the difference of
      the seats when the player sits at or after the small blind, and the difference
      plus six when the player sits before it. It is always the difference modulo
      six up to a whole turn, and exactly that residue for seats on the table. */
  function ClockwiseDistance(player: int, smallBlind: int): (d: int)
    ensures d % Seats == (player - smallBlind) % Seats
    ensures d == player - smallBlind || d == player - smallBlind + Seats
    ensures 0 <= player < Seats && 0 <= smallBlind < Seats ==>
      d == (player - smallBlind) % Seats && 0 <= d < Seats
  {
    if player - smallBlind < 0 then player + (Seats - smallBlind)
    else player - smallBlind
  }

  /** `get_preflop_position`. */
  function GetPreflopPosition(state: GameState): (r: Result<PreflopPosition>)
    ensures var d := ClockwiseDistance(state.indexToAction, state.indexOfSmallBlind);
      (r.Ok? <==> 0 <= d < Seats) && (r.Ok? ==> r.value.Value() == d)
  {
    PositionOf(ClockwiseDistance(state.indexToAction, state.indexOfSmallBlind))
  }

  /** The seat that holds position `pos` when the small blind sits at `smallBlind`. */
  function SeatOf(pos: PreflopPosition, smallBlind: int): (seat: int)
    requires 0 <= smallBlind < Seats
    ensures 0 <= seat < Seats
    ensures (seat - smallBlind) % Seats == pos.Value()
  {
    (smallBlind + pos.Value()) % Seats
  }

  // ----- Properties -----

  /** Every member's value converts back to the member, and the values run
      SB < BB < UTG < MP < CO < BTN. */
  lemma ValuesRoundTrip(pos: PreflopPosition)
    ensures PositionOf(pos.Value()) == Ok(pos)
    ensures SB.Value() < BB.Value() < UTG.Value() < MP.Value() < CO.Value() < BTN.Value()
  {
  }

  /** Distinct members have distinct values. */
  lemma ValuesDistinct(p: PreflopPosition, q: PreflopPosition)
    ensures p.Value() == q.Value() <==> p == q
  {
    ValuesRoundTrip(p);
    ValuesRoundTrip(q);
  }

  /** The player in the small blind's seat is the small blind. */
  lemma SmallBlindIsSB(state: GameState)
    requires state.indexToAction == state.indexOfSmallBlind
    ensures GetPreflopPosition(state) == Ok(SB)
  {
  }

  /** For seats on the table the result is always a member, the one whose value is
      the clockwise distance modulo six. */
  lemma PositionOnTable(state: GameState)
    requires 0 <= state.indexToAction < Seats && 0 <= state.indexOfSmallBlind < Seats
    ensures GetPreflopPosition(state).Ok?
    ensures GetPreflopPosition(state).value.Value() == (state.indexToAction - state.indexOfSmallBlind) % Seats
  {
  }

  /** `ValueError` exactly when the distance is off the table: a seat of six or more
      at or after the small blind, or a player more than a whole turn before it. */
  lemma PositionError(state: GameState)
    ensures GetPreflopPosition(state).Err? <==>
      state.indexToAction - state.indexOfSmallBlind >= Seats ||
      state.indexToAction - state.indexOfSmallBlind < -Seats
    ensures GetPreflopPosition(state).Err? ==>
      GetPreflopPosition(state) == Err(InvalidPosition(ClockwiseDistance(state.indexToAction, state.indexOfSmallBlind)))
  {
  }

  /** `SeatOf` and `GetPreflopPosition` are inverse: the seat of a position has that
      position, and the seat of the position of a seat on the table is that seat. */
  lemma SeatOfInverse(pos: PreflopPosition, seat: int, smallBlind: int)
    requires 0 <= smallBlind < Seats
    ensures GetPreflopPosition(GameState(SeatOf(pos, smallBlind), smallBlind)) == Ok(pos)
    ensures 0 <= seat < Seats ==>
      SeatOf(GetPreflopPosition(GameState(seat, smallBlind)).value, smallBlind) == seat
  {
    var s := SeatOf(pos, smallBlind);
    PositionOnTable(GameState(s, smallBlind));
    ValuesDistinct(GetPreflopPosition(GameState(s, smallBlind)).value, pos);
    if 0 <= seat < Seats {
      PositionOnTable(GameState(seat, smallBlind));
      var q := GetPreflopPosition(GameState(seat, smallBlind)).value;
      assert q.Value() == (seat - smallBlind) % Seats;
      var t := SeatOf(q, smallBlind);
      assert (t - seat) % Seats == 0;
    }
  }

  /** Moving the player and the small blind one seat clockwise together does not
      change the position. */
  lemma RotationInvariant(state: GameState)
    requires 0 <= state.indexToAction < Seats && 0 <= state.indexOfSmallBlind < Seats
    ensures GetPreflopPosition(GameState((state.indexToAction + 1) % Seats, (state.indexOfSmallBlind + 1) % Seats)) ==
      GetPreflopPosition(state)
  {
    var moved := GameState((state.indexToAction + 1) % Seats, (state.indexOfSmallBlind + 1) % Seats);
    PositionOnTable(state);
    PositionOnTable(moved);
    ValuesDistinct(GetPreflopPosition(state).value, GetPreflopPosition(moved).value);
  }

  /** The cases of `equity/tests/test_bot_preflop.py`. */
  lemma TestPositions()
    ensures GetPreflopPosition(GameState(0, 0)) == Ok(SB)
    ensures GetPreflopPosition(GameState(1, 0)) == Ok(BB)
    ensures GetPreflopPosition(GameState(2, 0)) == Ok(UTG)
    ensures GetPreflopPosition(GameState(5, 0)) == Ok(BTN)
    ensures GetPreflopPosition(GameState(3, 2)) == Ok(BB)
    ensures GetPreflopPosition(GameState(1, 3)) == Ok(CO)
  {
  }
}
