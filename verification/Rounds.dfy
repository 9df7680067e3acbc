/** The round instructions (rounds.rs). */
module Rounds {
  import opened Machine
  import opened Ledger
  import opened Touching
  import opened Boards
  import Vrf

  predicate Running(status: RoundStatus) { status.Live? || status.Requested? }

  function NewRound(epochId: u64, startsAt: i64, endsAt: i64, pot: u64): Round {
    Round(epochId, startsAt, endsAt, Live, seq(TILE_COUNT, i => 0), pot, 0, 0, 0, 0, None, map[])
  }

  function CreateRound(s: State, signer: Signer, startsAt: i64, endsAt: i64): Result<State> {
    var pool := s.pool;
    :- Require(signer.operator, Unauthorized);
    :- Require(!pool.shutdown, PoolShutDown);
    :- Require(!pool.paused, PoolPaused);
    :- Require(!pool.gamePaused, GamePaused);
    :- Require(pool.openRoundId == 0, RoundAlreadyOpen);
    :- Require(endsAt - startsAt == pool.params.roundSeconds, InvalidRoundLength);
    :- Require(pool.currentEpochId == 0 || pool.currentEpochId in s.epochs, AccountMissing);
    :- Require(pool.currentEpochId == 0 || endsAt <= s.epochs[pool.currentEpochId].endsAt, RoundOutsideEpoch);
    var id := pool.nextRoundId;
    :- Require(id !in s.rounds, AccountExists);
    var next :- U64(id + 1);
    Ok(s.(rounds := s.rounds[id := NewRound(pool.currentEpochId, startsAt, endsAt, pool.carryPot)],
          pool := pool.(nextRoundId := next, carryPot := 0, openRoundId := id)))
  }

  /** The board with one more position on it. */
  function Staked(board: Board, p: Position): Result<Board> {
    if forall t :: 0 <= t < TILE_COUNT ==> board[t] + StakeOn(p, t) <= U64_MAX then
      Ok(seq(TILE_COUNT, t requires 0 <= t < TILE_COUNT && board[t] + StakeOn(p, t) <= U64_MAX =>
           (board[t] + StakeOn(p, t)) as u64))
    else Err(ArithmeticOverflow)
  }

  /** The price of a position, once the round may still be joined. */
  function Quote(s: State, p: Player, round: Round, position: Position): Result<u64> {
    var pool := s.pool;
    :- Require(!pool.shutdown, PoolShutDown);
    :- Require(!pool.paused, PoolPaused);
    :- Require(!pool.gamePaused, GamePaused);
    :- Require(!p.isHouse, HouseCannotPlay);
    :- Require(round.status.Live?, RoundNotOpen);
    var closeAt :- I64(round.endsAt - pool.params.closeBuffer);
    :- Require(s.now < closeAt, RoundClosed);
    var count :- TileCount(position.tiles);
    :- Require(position.stakePerTile >= 1, InvalidStake);
    var total :- U64(position.stakePerTile * count);
    :- Require(p.entries >= total, InsufficientEntries);
    Ok(total)
  }

  /** The buyer pays, and is credited the weight the stake would have earned to the round's end. */
  function Staker(p: Player, round: Round, now: i64, total: u64): Result<Player> {
    var remaining :- U64(round.endsAt - now);
    var credited :- U128(total * remaining);
    var weightAcc :- U128(p.weightAcc + credited);
    var entries :- U64(p.entries - total);
    Ok(p.(weightAcc := weightAcc, entries := entries))
  }

  function Joined(round: Round, k: Key, position: Position, total: u64): Result<Round> {
    var board :- Staked(round.tileTotals, position);
    var pot :- U64(round.pot + total);
    var open :- U32(round.openPositions + 1);
    Ok(round.(tileTotals := board, pot := pot, openPositions := open, positions := round.positions[k := position]))
  }

  function BuyPosition(s: State, id: nat, k: Key, tiles: u64, stakePerTile: u64): Result<State> {
    var pool := s.pool;
    :- Require(id in s.rounds && k in s.players, AccountMissing);
    :- Require(k !in s.rounds[id].positions, AccountExists);
    var p :- Touch(s.players[k], pool, s.now);
    var total :- Quote(s, p, s.rounds[id], Position(tiles, stakePerTile));
    var q :- Staker(p, s.rounds[id], s.now, total);
    var round :- Joined(s.rounds[id], k, Position(tiles, stakePerTile), total);
    Ok(s.(players := s.players[k := q], rounds := s.rounds[id := round]))
  }

  function RequestRandomness(s: State, id: nat): Result<State> {
    var pool := s.pool;
    :- Require(id in s.rounds, AccountMissing);
    var round := s.rounds[id];
    :- Require(round.status.Live?, RoundNotOpen);
    var closeAt :- I64(round.endsAt - pool.params.closeBuffer);
    :- Require(s.now >= closeAt, RoundNotEnded);
    Ok(s.(rounds := s.rounds[id := round.(status := Requested, requestedAt := s.now)]))
  }

  function HouseCut(pot: u64, houseCutBps: bps): u64 {
    assert pot * houseCutBps <= pot * BPS_DENOMINATOR by { MulLe(houseCutBps, BPS_DENOMINATOR, pot); }
    pot * houseCutBps / BPS_DENOMINATOR
  }

  function SettleRound(s: State, id: nat): Result<State> {
    var pool := s.pool;
    :- Require(id in s.rounds && pool.house in s.players, AccountMissing);
    var round := s.rounds[id];
    :- Require(round.status.Requested?, RoundNotRequested);
    :- Require(round.oracle.Some?, RandomnessNotFulfilled);
    var tile :- Vrf.Unbiased(round.oracle.value, U64_MAX, TILE_COUNT);
    :- Require(tile < TILE_COUNT, InvalidTileSelection);
    var forfeited := round.tileTotals[tile] == 0;
    var houseCut := if forfeited then 0 else HouseCut(round.pot, pool.params.houseCutBps);
    var houseCredit := if forfeited then round.pot else houseCut;
    var settled := s.(
      rounds := s.rounds[id := round.(status := if forfeited then Forfeited else Settled,
                                      houseCut := houseCut, winningTile := tile)],
      pool := pool.(openRoundId := 0));
    if round.epochId == pool.currentEpochId && (forfeited || houseCredit > 0) then
      var house :- Touch(s.players[pool.house], pool, s.now);
      var entries :- U64(house.entries + houseCredit);
      Ok(settled.(players := s.players[pool.house := house.(entries := entries)]))
    else Ok(settled)
  }

  /** What a settled round pays one of its positions. */
  function Reward(round: Round, p: Position): Result<u64> {
    if TileIsCovered(p.tiles, round.winningTile) then
      var payable :- U64(round.pot - round.houseCut);
      var scaled :- U128(payable * p.stakePerTile);
      :- Require(round.tileTotals[round.winningTile] > 0, DivisionByZero);
      U64(scaled / round.tileTotals[round.winningTile])
    else Ok(0)
  }

  function SettlePosition(s: State, id: nat, k: Key): Result<State> {
    var pool := s.pool;
    :- Require(id in s.rounds && k in s.players && k in s.rounds[id].positions, AccountMissing);
    var p :- Touch(s.players[k], pool, s.now);
    var round := s.rounds[id];
    :- Require(!Running(round.status), RoundNotSettled);
    var reward :- if round.epochId == pool.currentEpochId && round.status.Settled?
                  then Reward(round, round.positions[k]) else Ok(0);
    var entries :- U64(p.entries + reward);
    var open :- U32(round.openPositions - 1);
    Ok(s.(players := s.players[k := p.(entries := entries)],
          rounds := s.rounds[id := round.(openPositions := open, positions := round.positions - {k})]))
  }

  /** The guards of voiding: nothing was requested, or nothing was answered, in time. */
  function VoidDue(s: State, round: Round): Result<()> {
    var pool := s.pool;
    :- Require(Running(round.status), RoundNotRequested);
    :- Require(round.status.Live? || round.oracle.None?, RandomnessAlreadyFulfilled);
    var timeoutAt :- I64((if round.status.Live? then round.endsAt else round.requestedAt) + pool.params.vrfTimeout);
    :- Require(s.now > timeoutAt, VrfTimeoutNotElapsed);
    Ok(())
  }

  function VoidRound(s: State, id: nat): Result<State> {
    var pool := s.pool;
    :- Require(id in s.rounds, AccountMissing);
    var round := s.rounds[id];
    var _ :- VoidDue(s, round);
    var carry :- U64(if round.epochId == pool.currentEpochId then pool.carryPot + round.pot else pool.carryPot);
    Ok(s.(rounds := s.rounds[id := round.(status := Voided)], pool := pool.(carryPot := carry, openRoundId := 0)))
  }

  function CloseRound(s: State, id: nat): Result<State> {
    var rounds := s.rounds;
    :- Require(id in rounds, AccountMissing);
    :- Require(!Running(rounds[id].status), RoundNotSettled);
    :- Require(rounds[id].openPositions == 0, RoundHasOpenPositions);
    Ok(s.(rounds := rounds - {id}))
  }

  /** The oracle answers a pending round. It answers once. */
  function FulfilRound(s: State, id: nat, samples: Samples): Result<State> {
    var pending := id in s.rounds && s.rounds[id].status.Requested? && s.rounds[id].oracle.None?;
    :- Require(pending, RandomnessNotFulfilled);
    Ok(s.(rounds := s.rounds[id := s.rounds[id].(oracle := Some(samples))]))
  }
}
