/** The accounts the program owns, as values. An account address is a map key. */
module Ledger {
  import opened Machine

  /** A wallet's key, and so the key of its Player account. */
  type Key = nat

  const TILE_COUNT: nat := 36
  const TRIES: nat := 256

  /** The stakes placed on each tile of the board. */
  type Board = t: seq<u64> | |t| == TILE_COUNT witness seq(TILE_COUNT, i => 0)

  /** What the oracle delivers: the sample the draw reads at each value of its 8-bit counter. */
  type Samples = t: seq<u128> | |t| == TRIES witness seq(TRIES, i => 0)

  datatype Params = Params(
    epochSeconds: period, epochAnchor: i64, roundSeconds: period, closeBuffer: clock, vrfTimeout: period,
    minDeposit: u64, houseCutBps: bps, minJackpot: u64, registrationWindow: clock, payoutTimeout: period,
    baseRateBps: bps, ticketsPerUsdc: u16, bonusCapBps: bps)

  datatype Pool = Pool(
    params: Params, house: Key,
    paused: bool, gamePaused: bool, jackpotPaused: bool, shutdown: bool,
    currentEpochId: u64, currentEpochStart: i64, currentEpochEndsAt: i64,
    previousEpochStart: i64, previousEpochEndsAt: i64,
    nextRoundId: u64, openRoundId: u64, carryPot: u64,
    totalPrincipal: u64, pendingWithdrawals: u64, jackpotReserved: u64, yieldBudget: u64,
    bonusEpoch: u64, bonusGranted: u64)

  datatype Player = Player(
    principal: u64, entries: u64, weightAcc: u128, principalAcc: u128, lastUpdate: i64, epochId: u64,
    frozenWeight: u128, frozenPrincipalAcc: u128, frozenEpoch: u64,
    regEpoch: u64, regStart: u128, regEnd: u128, isHouse: bool,
    pendingWithdraw: u64, pendingEpoch: u64, requestedAt: i64, yieldEpoch: u64,
    boughtEpoch: u64, boughtAmount: u64, bonusEpoch: u64, bonusGranted: u64)

  datatype EpochStatus = Open | Registering | Drawing | Drawn | Paid | RolledOver

  datatype Epoch = Epoch(
    startsAt: i64, endsAt: i64, status: EpochStatus, registeredWeight: u128, registeredCount: u32,
    jackpotAmount: u64, requestedAt: i64, target: u128, winner: Option<Key>, drawnAt: i64,
    registrationOpenedAt: i64, oracle: Option<Samples>)

  datatype RoundStatus = Live | Requested | Settled | Forfeited | Voided

  datatype Position = Position(tiles: u64, stakePerTile: u64)

  /** A round together with the Position accounts that are open on it. */
  datatype Round = Round(
    epochId: u64, startsAt: i64, endsAt: i64, status: RoundStatus, tileTotals: Board, pot: u64, houseCut: u64,
    requestedAt: i64, winningTile: nat, openPositions: u32, oracle: Option<Samples>,
    positions: map<Key, Position>)

  datatype State = State(
    pool: Pool, players: map<Key, Player>, epochs: map<nat, Epoch>, rounds: map<nat, Round>,
    principalVault: u64, jackpotVault: u64, now: clock)

  /** Which of the two privileged keys signed. One key may hold both roles. */
  datatype Signer = Signer(admin: bool, operator: bool)

  /** A Player account as `init_if_fresh` fills it. */
  function FreshPlayer(pool: Pool, now: i64): Player {
    BLANK_PLAYER.(lastUpdate := now, epochId := pool.currentEpochId)
  }

  const BLANK_PLAYER: Player :=
    Player(0, 0, 0, 0, 0, 0, 0, 0, 0, 0, 0, 0, false, 0, 0, 0, 0, 0, 0, 0, 0)
}
