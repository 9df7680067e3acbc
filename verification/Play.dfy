/** The game over whole runs: its books, its Tickets, and that it cannot get stuck. */
module Play {
  import opened Machine
  import opened Ledger
  import opened Touching
  import opened Boards
  import opened Sums
  import opened Program
  import opened Shape
  import opened Books
  import opened Reserve
  import opened Meters
  import opened Draws
  import opened Yield
  import opened Games
  import opened Grants
  import opened Invariant
  import opened Accrual
  import R = Rounds
  import Vrf

  /** A running round's books: every tile total is the sum of the stakes placed on it, the pot is what was carried
      in plus all stakes of all positions, which is what lies on the 36 tiles, and the counter counts the open
      positions. */
  lemma RoundBooks(w: World, id: nat)
    requires Reachable(w) && id in w.s.rounds
    ensures var r := w.s.rounds[id];
            && r.openPositions == |r.positions|
            && (R.Running(r.status) ==>
                  && id in w.carryIn && r.pot == w.carryIn[id] + Sum(r.positions, COST)
                  && r.pot == w.carryIn[id] + BoardUpTo(r.tileTotals, TILE_COUNT)
                  && forall tile :: 0 <= tile < TILE_COUNT ==> r.tileTotals[tile] == Sum(r.positions, StakesOn(tile)))
  {
    hide Reachable, ShapeOk, BooksOk, ReserveOk, MetersOk, DrawsOk, YieldOk, GrantsOk, PlaceOk;
    ReachableInv(w);
    assert RoundOk(w.s.rounds[id], w.carryIn[id]);
  }

  /** At most one round runs, it is the one the pool names, and nothing is carried meanwhile. */
  lemma OneRunningRound(w: World, id: nat)
    requires Reachable(w) && id in w.s.rounds && R.Running(w.s.rounds[id].status)
    ensures id == w.s.pool.openRoundId && w.s.pool.carryPot == 0
    ensures forall other :: other in w.s.rounds && R.Running(w.s.rounds[other].status) ==> other == id
  {
    hide Reachable, ShapeOk, BooksOk, ReserveOk, MetersOk, DrawsOk, YieldOk, GrantsOk, RoundOk;
    ReachableInv(w);
    assert PlaceOk(id, w.s.rounds[id], w.s);
  }

  /** When a running round may be voided. */
  function Deadline(pool: Pool, r: Round): int {
    (if r.status.Live? then r.endsAt else r.requestedAt) + pool.params.vrfTimeout
  }

  lemma VoidOutcome(s: State, id: nat)
    requires id in s.rounds && R.Running(s.rounds[id].status) && s.pool.carryPot == 0
    requires s.rounds[id].status.Live? ==> s.rounds[id].oracle.None?
    ensures R.VoidRound(s, id).Ok? <==> s.rounds[id].oracle.None? && Deadline(s.pool, s.rounds[id]) < s.now
    ensures s.rounds[id].oracle.Some? ==> R.VoidRound(s, id) == Err(RandomnessAlreadyFulfilled)
    ensures R.VoidRound(s, id).Ok? ==> R.VoidRound(s, id).value.pool.openRoundId == 0
  {
  }

  /** A running round can be voided exactly when it has no answer and its deadline has passed; the pot it
      carries over never overflows. */
  lemma VoidableExactly(w: World, id: nat)
    requires Reachable(w) && id in w.s.rounds && R.Running(w.s.rounds[id].status)
    ensures R.VoidRound(w.s, id).Ok? <==>
            w.s.rounds[id].oracle.None? && Deadline(w.s.pool, w.s.rounds[id]) < w.s.now
    ensures w.s.rounds[id].oracle.Some? ==> R.VoidRound(w.s, id) == Err(RandomnessAlreadyFulfilled)
  {
    hide Reachable, Inv, R.VoidRound;
    ReachableInv(w);
    OneRunningRound(w, id);
    LiveUnanswered(w, id);
    VoidOutcome(w.s, id);
  }

  /** So waiting is enough: from any reachable world, once the clock passes the deadline, anyone frees the pool of
      an unanswered round. */
  lemma {:induction false} WaitingFreesRound(w: World, id: nat, to: clock)
    requires Reachable(w) && id in w.s.rounds && R.Running(w.s.rounds[id].status) && w.s.rounds[id].oracle.None?
    requires w.s.now <= to && Deadline(w.s.pool, w.s.rounds[id]) < to
    ensures Run(w, [Tick(to), Game(VoidRound(id))]).s.pool.openRoundId == 0
  {
    hide Reachable, Inv, GamesOk, R.VoidRound, MeterNext, LogNext;
    ReachableInv(w);
    OneRunningRound(w, id);
    var wait, void := Tick(to), Game(VoidRound(id));
    var v := Next(w, wait);
    assert v.s == w.s.(now := to);
    VoidOutcome(v.s, id);
    RunOfTwo(w, wait, void);
  }

  lemma {:induction false} RunOfTwo(w: World, i: Instr, j: Instr)
    ensures Run(w, [i, j]) == Next(Next(w, i), j)
  {
    hide Next;
    assert [i, j][..1] == [i] && [i][..0] == [];
    assert Run(w, [i]) == Next(Run(w, []), i);
  }

  lemma LiveUnanswered(w: World, id: nat)
    requires Inv(w) && id in w.s.rounds
    ensures w.s.rounds[id].status.Live? ==> w.s.rounds[id].oracle.None?
  {
    hide ShapeOk, BooksOk, ReserveOk, MetersOk, DrawsOk, YieldOk, GrantsOk, PlaceOk;
    assert RoundOk(w.s.rounds[id], w.carryIn[id]);
  }

  /** What settling on `tile` credits the House, if anything. */
  function HouseCredit(s: State, r: Round, tile: nat): Option<u64>
    requires tile < TILE_COUNT
  {
    if r.epochId != s.pool.currentEpochId then None
    else if r.tileTotals[tile] == 0 then Some(r.pot)
    else
      var cut := R.HouseCut(r.pot, s.pool.params.houseCutBps);
      if cut > 0 then Some(cut) else None
  }

  /** The House can take that credit. */
  predicate HouseHasRoom(s: State, credit: Option<u64>)
    requires s.pool.house in s.players
  {
    credit.Some? ==>
      && WeightFits(s.players[s.pool.house], s.pool, s.now)
      && EffectiveEntries(s.players[s.pool.house], s.pool.currentEpochId) + credit.value <= U64_MAX
  }

  /** The round is over, won by `tile` unless nothing lies on it, and the pool may open another. */
  predicate Decided(s: State, id: nat, tile: nat, t: State)
    requires id in s.rounds && tile < TILE_COUNT
  {
    && t.pool.openRoundId == 0 && id in t.rounds && t.rounds[id].winningTile == tile
    && t.rounds[id].status == if s.rounds[id].tileTotals[tile] == 0 then Forfeited else Settled
  }

  lemma SettleOutcome(s: State, id: nat, tile: nat)
    requires id in s.rounds && s.rounds[id].status.Requested? && s.rounds[id].oracle.Some? && PlayersOk(s)
    requires Vrf.Unbiased(s.rounds[id].oracle.value, U64_MAX, TILE_COUNT) == Ok(tile) && tile < TILE_COUNT
    requires Touch(s.players[s.pool.house], s.pool, s.now).Ok? <==> WeightFits(s.players[s.pool.house], s.pool, s.now)
    ensures match R.SettleRound(s, id)
            case Ok(t) => HouseHasRoom(s, HouseCredit(s, s.rounds[id], tile)) && Decided(s, id, tile, t)
            case Err(e) => e == ArithmeticOverflow && !HouseHasRoom(s, HouseCredit(s, s.rounds[id], tile))
  {
    hide Vrf.Unbiased, Touch, R.HouseCut, WeightFits, PlayerOk;
    var house := s.players[s.pool.house];
    TouchFails(house, s.pool, s.now);
    if Touch(house, s.pool, s.now).Ok? { TouchOk(s.pool.house, house, s.pool, s.now); }
  }

  /** An answered round can be settled if and only if a sample is accepted and the House has room for its credit; the
      settlement records the drawn tile and frees the pool. */
  lemma AnsweredSettles(w: World, id: nat)
    requires Reachable(w) && id in w.s.rounds && w.s.rounds[id].status.Requested? && w.s.rounds[id].oracle.Some?
    ensures w.s.pool.house in w.s.players
    ensures match Vrf.Unbiased(w.s.rounds[id].oracle.value, U64_MAX, TILE_COUNT)
            case Err(e) => e == RandomnessRejection && R.SettleRound(w.s, id) == Err(e)
            case Ok(tile) =>
              && tile < TILE_COUNT
              && match R.SettleRound(w.s, id)
                 case Ok(t) =>
                   && HouseHasRoom(w.s, HouseCredit(w.s, w.s.rounds[id], tile)) && Decided(w.s, id, tile, t)
                 case Err(e) => e == ArithmeticOverflow && !HouseHasRoom(w.s, HouseCredit(w.s, w.s.rounds[id], tile))
  {
    hide Reachable, BooksOk, ReserveOk, MetersOk, DrawsOk, YieldOk, GrantsOk, GamesOk, Vrf.Unbiased, EpochsOk, Touch,
      R.SettleRound, HouseHasRoom, WeightFits, PlayerOk;
    ReachableInv(w);
    TouchSucceedsExactly(w, w.s.pool.house);
    var answer := Vrf.Unbiased(w.s.rounds[id].oracle.value, U64_MAX, TILE_COUNT);
    Vrf.UnbiasedOutcome(w.s.rounds[id].oracle.value, U64_MAX, TILE_COUNT);
    if answer.Ok? { SettleOutcome(w.s, id, answer.value); } else { SettleRejected(w.s, id); }
  }

  /** Nobody's position covers the tile. */
  predicate Uncovered(r: Round, tile: nat) {
    forall k :: k in r.positions ==> !TileIsCovered(r.positions[k].tiles, tile)
  }

  lemma CoveredCounts(r: Round, tile: nat)
    requires forall k :: k in r.positions ==> 1 <= r.positions[k].stakePerTile
    ensures Sum(r.positions, StakesOn(tile)) == 0 <==> Uncovered(r, tile)
  {
    if Uncovered(r, tile) {
      var none: map<Key, Position> := map[];
      SumSame(none, StakesOn(tile), r.positions, StakesOn(tile));
    } else {
      var k :| k in r.positions && TileIsCovered(r.positions[k].tiles, tile);
      SumMember(r.positions, StakesOn(tile), k);
    }
  }

  /** A settled round was won by the tile that was drawn: the recorded tile is what the first accepted sample of the
      oracle's answer leaves, read at 64 bits, over whole multiples of 36, and the round is forfeited if and only if
      nobody's position covers that tile. Positions, pot and board stay as they were. */
  lemma DrawnTileWins(w: World, id: nat, t: State) returns (i: nat, high: nat, q: nat)
    requires Reachable(w) && R.SettleRound(w.s, id) == Ok(t)
    ensures id in w.s.rounds && id in t.rounds && w.s.rounds[id].oracle.Some?
    ensures var r, samples, tile := t.rounds[id], w.s.rounds[id].oracle.value, t.rounds[id].winningTile;
            && Vrf.Accepts(samples, U64_MAX, TILE_COUNT, i)
            && tile < TILE_COUNT && samples[i] == high * (U64_MAX + 1) + q * TILE_COUNT + tile
            && (q + 1) * TILE_COUNT <= U64_MAX
            && r.status == (if Uncovered(r, tile) then Forfeited else Settled)
            && r == w.s.rounds[id].(status := r.status, winningTile := tile, houseCut := r.houseCut)
  {
    hide Reachable, ShapeOk, BooksOk, ReserveOk, MetersOk, DrawsOk, YieldOk, GrantsOk, PlaceOk, R.SettleRound,
      Vrf.Accepts, Vrf.SampleAt, Vrf.Limit, TileIsCovered, R.HouseCut, StakesOn;
    ReachableInv(w);
    SettleDecides(w.s, id, t);
    SettlesDrawn(w.s, id, t);
    var samples := w.s.rounds[id].oracle.value;
    i := Vrf.FirstOne(samples, U64_MAX, TILE_COUNT);
    high, q := Vrf.ResultIs(samples, U64_MAX, TILE_COUNT, i);
    assert RoundOk(w.s.rounds[id], w.carryIn[id]);
    CoveredCounts(w.s.rounds[id], t.rounds[id].winningTile);
  }

  lemma SettlesDrawn(s: State, id: nat, t: State)
    requires R.SettleRound(s, id) == Ok(t)
    ensures id in s.rounds && s.rounds[id].oracle.Some? && id in t.rounds
    ensures Vrf.Unbiased(s.rounds[id].oracle.value, U64_MAX, TILE_COUNT) == Ok(t.rounds[id].winningTile)
  {
    hide Touch, Vrf.Unbiased, R.HouseCut;
  }

  lemma SettleRejected(s: State, id: nat)
    requires id in s.rounds && s.rounds[id].status.Requested? && s.rounds[id].oracle.Some? && s.pool.house in s.players
    requires Vrf.Unbiased(s.rounds[id].oracle.value, U64_MAX, TILE_COUNT) == Err(RandomnessRejection)
    ensures R.SettleRound(s, id) == Err(RandomnessRejection)
  {
    hide Vrf.Unbiased, Touch, R.HouseCut;
  }

  /** An answered round cannot be voided, re-answered or joined: no instruction but its settlement changes it. */
  lemma AnsweredOnlySettles(w: World, i: Instr, id: nat)
    requires Reachable(w) && id in w.s.rounds && w.s.rounds[id].status.Requested? && w.s.rounds[id].oracle.Some?
    requires i != Game(SettleRound(id))
    ensures id in Next(w, i).s.rounds && Next(w, i).s.rounds[id] == w.s.rounds[id]
  {
    hide Reachable, ShapeOk, BooksOk, ReserveOk, MetersOk, DrawsOk, YieldOk, GrantsOk, RoundOk, CustodyStep, EpochStep,
      RoundStep, MeterNext, LogNext;
    ReachableInv(w);
    assert PlaceOk(id, w.s.rounds[id], w.s);
    if Step(w.s, i).Ok? {
      var t := Step(w.s, i).value;
      match i
      case Tick(_) =>
      case Custodial(c) => CustodyGame(w.s, c, t);
      case Game(g) => AnsweredStays(w.s, g, t, id);
      case Epochal(e) =>
        if e.BeginEpoch? {
          BeginEpochIs(w.s, e, t);
          BeginEpochBooks(w.s, e.signer, t);
        } else {
          EpochGame(w.s, e, t);
        }
    }
  }

  lemma AnsweredStays(s: State, g: RoundInstr, t: State, id: nat)
    requires RoundStep(s, g) == Ok(t) && id in s.rounds && id < s.pool.nextRoundId && g != SettleRound(id)
    requires s.rounds[id].status.Requested? && s.rounds[id].oracle.Some?
    ensures id in t.rounds && t.rounds[id] == s.rounds[id]
  {
    hide Touch, R.Quote, R.Joined, R.Staker, R.Reward, R.HouseCut;
    if g.BuyPosition? {
      QuotePositive(s, Touch(s.players[g.k], s.pool, s.now).value, s.rounds[g.id], Position(g.tiles, g.stakePerTile));
    }
  }
}
