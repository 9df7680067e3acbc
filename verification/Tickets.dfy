/** Rounds move tickets around and may lose some; they never create any. */
module Tickets {
  import opened Machine
  import opened Ledger
  import opened Touching
  import opened Boards
  import opened Sums
  import opened Program
  import opened Shape
  import opened Games
  import Meters
  import R = Rounds

  function EntriesIn(current: nat): Player -> int { (p: Player) => EffectiveEntries(p, current) }

  /** What a settled round owes a position. */
  function RewardValue(r: Round, p: Position): int
    requires r.winningTile < TILE_COUNT && 0 < r.tileTotals[r.winningTile]
  {
    if TileIsCovered(p.tiles, r.winningTile)
    then (r.pot - r.houseCut) * p.stakePerTile / r.tileTotals[r.winningTile] else 0
  }

  function RewardOf(r: Round): Position -> int {
    (p: Position) => if r.winningTile < TILE_COUNT && 0 < r.tileTotals[r.winningTile] then RewardValue(r, p) else 0
  }

  /** Tickets a round of the current epoch still owes: its pot while it runs, its open rewards once settled.
      A round of an earlier epoch owes nothing. */
  ghost function Owed(r: Round, current: nat): int {
    if r.epochId != current then 0
    else if R.Running(r.status) then r.pot
    else if r.status.Settled? then Sum(r.positions, RewardOf(r))
    else 0
  }

  ghost function OwedIn(current: nat): Round -> int { (r: Round) => Owed(r, current) }

  /** All tickets there are: held, carried, or owed by a round. */
  ghost function TicketTotal(s: State): int {
    Sum(s.players, EntriesIn(s.pool.currentEpochId)) + s.pool.carryPot + Sum(s.rounds, OwedIn(s.pool.currentEpochId))
  }

  /** One winner's share, rounded down. */
  lemma ShareBounds(payable: nat, stake: nat, total: nat)
    requires total > 0
    ensures var share := payable * stake / total;
            payable * stake - (total - 1) <= share * total <= payable * stake
  {
    var n := payable * stake;
    assert n == n / total * total + n % total;
  }

  function WinnersOn(tile: nat): Position -> int { (p: Position) => if TileIsCovered(p.tiles, tile) then 1 else 0 }

  /** `paid` is `payable` shared out over stakes `staked` of `total`, each of `n` shares rounded down. */
  predicate Shared(payable: int, total: int, paid: int, staked: int, n: int) {
    && paid * total <= payable * staked
    && payable * staked - n * (total - 1) <= paid * total
  }

  lemma ShareOf(r: Round, p: Position)
    requires r.winningTile < TILE_COUNT && 0 < r.tileTotals[r.winningTile] && r.houseCut <= r.pot
    ensures Shared(r.pot - r.houseCut, r.tileTotals[r.winningTile],
                   RewardOf(r)(p), StakesOn(r.winningTile)(p), WinnersOn(r.winningTile)(p))
  {
    ShareBounds(r.pot - r.houseCut, p.stakePerTile, r.tileTotals[r.winningTile]);
  }

  lemma SharesAdd(payable: int, total: int, r: int, s: int, n: int, r1: int, s1: int, n1: int)
    requires Shared(payable, total, r, s, n) && Shared(payable, total, r1, s1, n1)
    ensures Shared(payable, total, r1 + r, s1 + s, n1 + n)
  {
    assert (r1 + r) * total == r1 * total + r * total;
    assert payable * (s1 + s) == payable * s1 + payable * s;
    assert (n1 + n) * (total - 1) == n1 * (total - 1) + n * (total - 1);
  }

  lemma SharesNone(payable: int, total: int)
    ensures Shared(payable, total, 0, 0, 0)
  {
  }

  /** All shares together, rounded down one by one: never more than the whole, and at most one unit
      short per winner. */
  lemma {:induction false} SharesBounds(r: Round, open: map<Key, Position>)
    requires r.winningTile < TILE_COUNT && 0 < r.tileTotals[r.winningTile] && r.houseCut <= r.pot
    ensures Shared(r.pot - r.houseCut, r.tileTotals[r.winningTile], Sum(open, RewardOf(r)),
                   Sum(open, StakesOn(r.winningTile)), Sum(open, WinnersOn(r.winningTile)))
    decreases |open|
  {
    hide Shared, RewardOf, StakesOn, WinnersOn;
    var tile, payable, total := r.winningTile, r.pot - r.houseCut, r.tileTotals[r.winningTile];
    if open == map[] {
      SharesNone(payable, total);
    } else {
      var k :| k in open;
      SumPick(open, RewardOf(r), k);
      SumPick(open, StakesOn(tile), k);
      SumPick(open, WinnersOn(tile), k);
      SharesBounds(r, open - {k});
      ShareOf(r, open[k]);
      SharesAdd(payable, total,
                Sum(open - {k}, RewardOf(r)), Sum(open - {k}, StakesOn(tile)), Sum(open - {k}, WinnersOn(tile)),
                RewardOf(r)(open[k]), StakesOn(tile)(open[k]), WinnersOn(tile)(open[k]));
    }
  }

  lemma CancelTotal(a: int, payable: int, staked: int, total: int)
    requires 0 < total && a * total <= payable * staked && 0 <= payable && staked <= total
    ensures a <= payable
  {
    if a > payable {
      MulLe(payable + 1, a, total);
      MulLe(staked, total, payable);
    }
  }

  /** The rewards of a settled round never exceed its pot less the House's cut. */
  lemma RewardsWithinPot(r: Round, carry: int)
    requires RoundOk(r, carry) && r.status.Settled?
    ensures Sum(r.positions, RewardOf(r)) <= r.pot - r.houseCut
  {
    SharesBounds(r, r.positions);
    CancelTotal(Sum(r.positions, RewardOf(r)), r.pot - r.houseCut,
                Sum(r.positions, StakesOn(r.winningTile)), r.tileTotals[r.winningTile]);
  }

  lemma {:induction false} SomeWinner(open: map<Key, Position>, tile: nat)
    requires Sum(open, StakesOn(tile)) > 0
    ensures Sum(open, WinnersOn(tile)) > 0
  {
    var none: map<Key, Position> := map[];
    SumLe(none, WinnersOn(tile), open, WinnersOn(tile));
    if Sum(open, WinnersOn(tile)) == 0 {
      forall k | k in open
        ensures StakesOn(tile)(open[k]) == 0
      {
        SumMember(open, WinnersOn(tile), k);
      }
      SumSame(none, StakesOn(tile), open, StakesOn(tile));
    }
  }

  /** What rounding leaves behind when a round is settled is less than one unit per winner. */
  lemma DustPerWinner(r: Round)
    requires r.winningTile < TILE_COUNT && 0 < r.tileTotals[r.winningTile] && r.houseCut <= r.pot
    requires Sum(r.positions, StakesOn(r.winningTile)) == r.tileTotals[r.winningTile]
    ensures 0 <= r.pot - r.houseCut - Sum(r.positions, RewardOf(r)) < Sum(r.positions, WinnersOn(r.winningTile))
  {
    SharesBounds(r, r.positions);
    SomeWinner(r.positions, r.winningTile);
    var payable, total, paid := r.pot - r.houseCut, r.tileTotals[r.winningTile], Sum(r.positions, RewardOf(r));
    var n := Sum(r.positions, WinnersOn(r.winningTile));
    CancelTotal(paid, payable, total, total);
    DustArith(payable, total, paid, n);
  }

  lemma DustArith(payable: int, total: int, paid: int, n: int)
    requires Shared(payable, total, paid, total, n) && 0 < total && 0 < n
    ensures payable - paid < n
  {
    if payable - paid >= n { MulLe(n, payable - paid, total); }
  }

  /** One player and one round change: the total moves by what they and the carried pot move. */
  lemma TicketsMoved(s: State, t: State, k: Key, id: nat)
    requires k in s.players && k in t.players && t.players == s.players[k := t.players[k]]
    requires id in s.rounds && id in t.rounds && t.rounds == s.rounds[id := t.rounds[id]]
    requires t.pool.currentEpochId == s.pool.currentEpochId
    ensures var c := s.pool.currentEpochId;
            TicketTotal(t) - TicketTotal(s) ==
            EffectiveEntries(t.players[k], c) - EffectiveEntries(s.players[k], c)
            + t.pool.carryPot - s.pool.carryPot + Owed(t.rounds[id], c) - Owed(s.rounds[id], c)
  {
    hide Owed;
    var c := s.pool.currentEpochId;
    SumSet(s.players, EntriesIn(c), k, t.players[k]);
    SumSet(s.rounds, OwedIn(c), id, t.rounds[id]);
  }

  /** Only rounds change. */
  lemma RoundOnlyMoved(s: State, t: State, id: nat)
    requires t.players == s.players && t.pool.currentEpochId == s.pool.currentEpochId
    requires id in t.rounds && t.rounds == s.rounds[id := t.rounds[id]]
    ensures var c := s.pool.currentEpochId;
            TicketTotal(t) - TicketTotal(s) ==
            t.pool.carryPot - s.pool.carryPot + Owed(t.rounds[id], c)
            - (if id in s.rounds then Owed(s.rounds[id], c) else 0)
  {
    hide Owed;
    SumSet(s.rounds, OwedIn(s.pool.currentEpochId), id, t.rounds[id]);
  }

  lemma BuyMoves(s: State, g: RoundInstr, t: State)
    requires g.BuyPosition? && RoundStep(s, g) == Ok(t) && PlayersOk(s)
    ensures g.id in s.rounds && g.id in t.rounds && t.rounds == s.rounds[g.id := t.rounds[g.id]]
    ensures g.k in s.players && g.k in t.players && t.players == s.players[g.k := t.players[g.k]] && t.pool == s.pool
    ensures t.rounds[g.id].status == s.rounds[g.id].status && s.rounds[g.id].status.Live?
    ensures t.rounds[g.id].epochId == s.rounds[g.id].epochId
    ensures t.rounds[g.id].pot >= s.rounds[g.id].pot
    ensures EffectiveEntries(t.players[g.k], s.pool.currentEpochId)
         == EffectiveEntries(s.players[g.k], s.pool.currentEpochId) - (t.rounds[g.id].pot - s.rounds[g.id].pot)
  {
    hide Touch, R.Quote, R.Joined;
    TouchOk(g.k, s.players[g.k], s.pool, s.now);
    var position, p := Position(g.tiles, g.stakePerTile), Touch(s.players[g.k], s.pool, s.now).value;
    Meters.QuotePositive(s, p, s.rounds[g.id], position);
    JoinedKeeps(s.rounds[g.id], g.k, position, R.Quote(s, p, s.rounds[g.id], position).value);
  }

  lemma SettleRoundMoves(s: State, id: nat, t: State)
    requires R.SettleRound(s, id) == Ok(t) && PlayersOk(s)
    ensures id in s.rounds && id in t.rounds
    ensures s.pool.house in s.players && s.pool.house in t.players
    ensures t.players == s.players[s.pool.house := t.players[s.pool.house]]
    ensures var r, c := t.rounds[id], s.pool.currentEpochId;
            EffectiveEntries(t.players[s.pool.house], c) - EffectiveEntries(s.players[s.pool.house], c) ==
            if r.epochId != c then 0 else if r.status.Forfeited? then r.pot else r.houseCut
  {
    hide Touch, R.HouseCut;
    var house := s.players[s.pool.house];
    if Touch(house, s.pool, s.now).Ok? { TouchOk(s.pool.house, house, s.pool, s.now); }
  }

  lemma RewardIsValue(r: Round, p: Position)
    requires R.Reward(r, p).Ok? && r.winningTile < TILE_COUNT && 0 < r.tileTotals[r.winningTile]
    ensures R.Reward(r, p).value == RewardOf(r)(p)
  {
  }

  lemma SettlePositionMoves(s: State, id: nat, k: Key, t: State)
    requires R.SettlePosition(s, id, k) == Ok(t) && PlayersOk(s) && id in s.rounds && k in s.rounds[id].positions
    requires s.rounds[id].status.Settled? ==>
               s.rounds[id].winningTile < TILE_COUNT && 0 < s.rounds[id].tileTotals[s.rounds[id].winningTile]
    ensures k in s.players && k in t.players && t.players == s.players[k := t.players[k]]
    ensures var r, c := s.rounds[id], s.pool.currentEpochId;
            EffectiveEntries(t.players[k], c) - EffectiveEntries(s.players[k], c) ==
            if r.epochId == c && r.status.Settled? then RewardOf(r)(r.positions[k]) else 0
  {
    hide Touch, R.Reward, RewardOf;
    TouchOk(k, s.players[k], s.pool, s.now);
    var r := s.rounds[id];
    if r.epochId == s.pool.currentEpochId && r.status.Settled? { RewardIsValue(r, r.positions[k]); }
  }

  /** What a round owes falls by the reward of the position that leaves it. */
  lemma OwedAfter(r: Round, q: Round, k: Key, c: nat)
    requires !R.Running(r.status) && k in r.positions
    requires q == r.(openPositions := q.openPositions, positions := r.positions - {k})
    ensures Owed(r, c) - Owed(q, c) ==
            if r.epochId == c && r.status.Settled? then RewardOf(r)(r.positions[k]) else 0
  {
    hide RewardOf;
    SameRewards(r, q);
    SumPick(r.positions, RewardOf(r), k);
  }

  /** Settling a position hands over exactly what the round owed it; nothing else moves. */
  lemma SettlePositionTickets(w: World, id: nat, k: Key, t: State)
    requires R.SettlePosition(w.s, id, k) == Ok(t) && PlayersOk(w.s) && GamesOk(w)
    ensures TicketTotal(t) == TicketTotal(w.s)
    ensures id in w.s.rounds && id in t.rounds && k in w.s.rounds[id].positions
    ensures var c, r := w.s.pool.currentEpochId, w.s.rounds[id];
            Owed(r, c) - Owed(t.rounds[id], c) ==
            if r.epochId == c && r.status.Settled? then RewardOf(r)(r.positions[k]) else 0
  {
    hide R.SettlePosition, RewardOf, Owed, TicketTotal, EffectiveEntries, PlaceOk, PlayersOk;
    SettlePositionShape(w.s, id, k, t);
    SettledHasWinner(w.s.rounds[id], w.carryIn[id]);
    SettlePositionMoves(w.s, id, k, t);
    TicketsMoved(w.s, t, k, id);
    OwedAfter(w.s.rounds[id], t.rounds[id], k, w.s.pool.currentEpochId);
  }

  lemma SettledHasWinner(r: Round, carry: int)
    requires RoundOk(r, carry)
    ensures r.status.Settled? ==> r.winningTile < TILE_COUNT && 0 < r.tileTotals[r.winningTile]
  {
  }

  /** A reward depends on the round's result, not on which positions are still open. */
  lemma SameRewards(r: Round, q: Round)
    requires q == r.(openPositions := q.openPositions, positions := q.positions)
    ensures Sum(q.positions, RewardOf(q)) == Sum(q.positions, RewardOf(r))
  {
    SumSame(q.positions, RewardOf(q), q.positions, RewardOf(r));
  }

  lemma SettleRoundTickets(w: World, id: nat, t: State)
    requires R.SettleRound(w.s, id) == Ok(t) && PlayersOk(w.s) && GamesOk(w)
    ensures TicketTotal(t) <= TicketTotal(w.s)
  {
    hide R.SettleRound, R.HouseCut, RewardOf;
    SettleDecides(w.s, id, t);
    SettleRoundMoves(w.s, id, t);
    TicketsMoved(w.s, t, w.s.pool.house, id);
    SettleGame(w, id, t);
    assert RoundOk(t.rounds[id], w.carryIn[id]) by { hide LogNext, MeterNext; assert id in t.rounds; }
    if t.rounds[id].status.Settled? { RewardsWithinPot(t.rounds[id], w.carryIn[id]); }
  }

  lemma BuyTickets(s: State, g: RoundInstr, t: State)
    requires g.BuyPosition? && RoundStep(s, g) == Ok(t) && PlayersOk(s)
    ensures TicketTotal(t) <= TicketTotal(s)
  {
    hide RoundStep, TicketTotal;
    BuyMoves(s, g, t);
    TicketsMoved(s, t, g.k, g.id);
  }

  /** Requests, answers, voids and new rounds only move tickets between pots. */
  lemma PotMoves(w: World, g: RoundInstr, t: State)
    requires RoundStep(w.s, g) == Ok(t) && GamesOk(w)
    requires g.CreateRound? || g.RequestRandomness? || g.FulfilRound? || g.VoidRound?
    ensures TicketTotal(t) == TicketTotal(w.s)
  {
    hide TicketTotal, RoundOk, RewardOf;
    RoundOnlyMoved(w.s, t, if g.CreateRound? then w.s.pool.nextRoundId else g.id);
  }

  lemma CloseTickets(w: World, id: nat, t: State)
    requires R.CloseRound(w.s, id) == Ok(t) && GamesOk(w)
    ensures TicketTotal(t) == TicketTotal(w.s)
  {
    hide EntriesIn, RewardOf;
    var r, c := w.s.rounds[id], w.s.pool.currentEpochId;
    assert RoundOk(r, w.carryIn[id]);
    assert r.positions == map[];
    SumPick(w.s.rounds, OwedIn(c), id);
  }

  /** No round instruction increases the number of tickets, whenever it runs. */
  lemma GameNeverMints(w: World, g: RoundInstr, t: State)
    requires RoundStep(w.s, g) == Ok(t) && PlayersOk(w.s) && GamesOk(w)
    ensures TicketTotal(t) <= TicketTotal(w.s)
  {
    hide R.SettleRound, R.SettlePosition, R.BuyPosition, R.VoidRound, R.CloseRound, R.CreateRound, TicketTotal,
      R.RequestRandomness, R.FulfilRound, GamesOk, PlayersOk;
    match g
    case BuyPosition(_, _, _, _) => BuyTickets(w.s, g, t);
    case SettleRound(id) => SettleRoundTickets(w, id, t);
    case SettlePosition(id, k) => SettlePositionTickets(w, id, k, t);
    case CloseRound(id) => CloseTickets(w, id, t);
    case _ => PotMoves(w, g, t);
  }
}
