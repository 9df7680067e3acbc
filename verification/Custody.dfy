/** Custody of principal, tickets and the pool's switches (custody.rs). */
module Custody {
  import opened Machine
  import opened Ledger
  import opened Touching

  const MIN_VRF_TIMEOUT: int := 60
  const MIN_PAYOUT_TIMEOUT: int := 600

  datatype ParamsUpdate = ParamsUpdate(
    epochSeconds: Option<i64>, epochAnchor: Option<i64>, roundSeconds: Option<i64>, closeBuffer: Option<i64>,
    vrfTimeout: Option<i64>, minDeposit: Option<u64>, houseCutBps: Option<u16>, minJackpot: Option<u64>,
    registrationWindow: Option<i64>, payoutTimeout: Option<i64>, baseRateBps: Option<u16>,
    ticketsPerUsdc: Option<u16>, bonusCapBps: Option<u16>)

  datatype PauseFeature = Game | Jackpot

  function Or<T>(v: Option<T>, kept: T): T {
    if v.Some? then v.value else kept
  }

  predicate AtLeast(v: Option<int>, low: int) { v.Some? ==> v.value >= low }

  predicate AtMost(v: Option<int>, high: int) { v.Some? ==> v.value <= high }

  /** The pool as `create_pool` leaves it, with the House as its only player. */
  function CreatePool(params: Params, house: Key, now: clock): Result<State> {
    var sound := params.epochAnchor > 0 && params.vrfTimeout >= MIN_VRF_TIMEOUT
      && params.closeBuffer < params.roundSeconds && params.ticketsPerUsdc > 0
      && params.registrationWindow < params.epochSeconds && params.payoutTimeout >= MIN_PAYOUT_TIMEOUT;
    :- Require(sound, InvalidParameter);
    var pool := Pool(params, house, false, true, true, false, 0, 0, 0, 0, 0, 1, 0, 0, 0, 0, 0, 0, 0, 0);
    Ok(State(pool, map[house := BLANK_PLAYER.(lastUpdate := now, isHouse := true)], map[], map[], 0, 0, now))
  }

  function SetParams(s: State, signer: Signer, u: ParamsUpdate): Result<State> {
    var pool := s.pool;
    :- Require(signer.admin, Unauthorized);
    var p := pool.params;
    :- Require(AtLeast(u.epochSeconds, 1) && AtLeast(u.epochAnchor, 1) && AtLeast(u.roundSeconds, 1)
               && AtLeast(u.closeBuffer, 0) && AtLeast(u.registrationWindow, 0) && AtLeast(u.vrfTimeout, MIN_VRF_TIMEOUT)
               && AtMost(u.houseCutBps, BPS_DENOMINATOR) && AtLeast(u.payoutTimeout, MIN_PAYOUT_TIMEOUT)
               && AtMost(u.baseRateBps, BPS_DENOMINATOR) && AtLeast(u.ticketsPerUsdc, 1)
               && AtMost(u.bonusCapBps, BPS_DENOMINATOR), InvalidParameter);
    var q := Params(
      Or(u.epochSeconds, p.epochSeconds), Or(u.epochAnchor, p.epochAnchor), Or(u.roundSeconds, p.roundSeconds),
      Or(u.closeBuffer, p.closeBuffer), Or(u.vrfTimeout, p.vrfTimeout), Or(u.minDeposit, p.minDeposit),
      Or(u.houseCutBps, p.houseCutBps), Or(u.minJackpot, p.minJackpot),
      Or(u.registrationWindow, p.registrationWindow), Or(u.payoutTimeout, p.payoutTimeout),
      Or(u.baseRateBps, p.baseRateBps), Or(u.ticketsPerUsdc, p.ticketsPerUsdc), Or(u.bonusCapBps, p.bonusCapBps));
    :- Require(q.registrationWindow < q.epochSeconds && q.payoutTimeout < q.epochSeconds
               && q.roundSeconds > q.closeBuffer, InvalidParameter);
    Ok(s.(pool := pool.(params := q)))
  }

  function SetPause(s: State, signer: Signer, paused: bool): Result<State> {
    var pool := s.pool;
    :- Require(signer.admin || (paused && signer.operator), Unauthorized);
    :- Require(paused || !pool.shutdown, PoolShutDown);
    Ok(s.(pool := pool.(paused := paused)))
  }

  function SetFeaturePause(s: State, signer: Signer, feature: PauseFeature, paused: bool): Result<State> {
    var pool := s.pool;
    :- Require(signer.admin || (paused && signer.operator), Unauthorized);
    :- Require(paused || !pool.shutdown, PoolShutDown);
    Ok(s.(pool := if feature.Game? then pool.(gamePaused := paused) else pool.(jackpotPaused := paused)))
  }

  function Shutdown(s: State, signer: Signer): Result<State> {
    var pool := s.pool;
    :- Require(signer.admin, Unauthorized);
    :- Require(!pool.shutdown, PoolShutDown);
    Ok(s.(pool := pool.(shutdown := true, paused := true, gamePaused := true, jackpotPaused := true)))
  }

  function Deposit(s: State, k: Key, amount: u64): Result<State> {
    var p :- Touch(if k in s.players then s.players[k] else FreshPlayer(s.pool, s.now), s.pool, s.now);
    :- Require(!p.isHouse, HouseCannotDeposit);
    :- Require(!s.pool.shutdown, PoolShutDown);
    :- Require(!s.pool.paused, PoolPaused);
    :- Require(amount >= s.pool.params.minDeposit, BelowMinimumDeposit);
    var vault :- U64(s.principalVault + amount);
    var principal :- U64(p.principal + amount);
    var entries :- U64(p.entries + amount);
    var total :- U64(s.pool.totalPrincipal + amount);
    Ok(s.(principalVault := vault, players := s.players[k := p.(principal := principal, entries := entries)],
          pool := s.pool.(totalPrincipal := total)))
  }

  function RequestWithdraw(s: State, k: Key, amount: u64): Result<State> {
    var pool := s.pool;
    :- Require(k in s.players, AccountMissing);
    var p :- Touch(s.players[k], pool, s.now);
    :- Require(amount > 0, ZeroAmount);
    :- Require(p.principal >= amount, InsufficientPrincipal);
    var total :- U64(pool.totalPrincipal - amount);
    var pending :- U64(p.pendingWithdraw + amount);
    var pendings :- U64(pool.pendingWithdrawals + amount);
    Ok(s.(players := s.players[k := p.(principal := p.principal - amount, entries := SatSub(p.entries, amount),
                                       pendingWithdraw := pending, pendingEpoch := pool.currentEpochId,
                                       requestedAt := s.now)],
          pool := pool.(totalPrincipal := total, pendingWithdrawals := pendings)))
  }

  function ProcessWithdraw(s: State, k: Key): Result<State> {
    var pool := s.pool;
    :- Require(k in s.players, AccountMissing);
    var p := s.players[k];
    :- Require(p.pendingWithdraw > 0, NothingPending);
    var deadline :- I64(p.requestedAt + pool.params.epochSeconds);
    :- Require(pool.shutdown || pool.currentEpochId > p.pendingEpoch || s.now > deadline, WithdrawalNotDue);
    :- Require(s.principalVault >= p.pendingWithdraw, InsufficientVaultLiquidity);
    var pendings :- U64(pool.pendingWithdrawals - p.pendingWithdraw);
    Ok(s.(principalVault := s.principalVault - p.pendingWithdraw,
          players := s.players[k := p.(pendingWithdraw := 0)],
          pool := pool.(pendingWithdrawals := pendings)))
  }

  function AdminWithdraw(s: State, signer: Signer, amount: u64): Result<State> {
    var pool := s.pool;
    :- Require(signer.admin, Unauthorized);
    :- Require(amount > 0, ZeroAmount);
    :- Require(s.principalVault >= amount, InsufficientVaultLiquidity);
    :- Require(s.principalVault - amount >= pool.pendingWithdrawals, BelowPendingWithdrawals);
    Ok(s.(principalVault := s.principalVault - amount))
  }

  /** A plain token transfer into the principal vault: how lent principal comes back. */
  function TransferIn(s: State, amount: u64): Result<State> {
    var vault :- U64(s.principalVault + amount);
    Ok(s.(principalVault := vault))
  }

  function EmergencyWithdraw(s: State, k: Key): Result<State> {
    var pool := s.pool;
    :- Require(k in s.players, AccountMissing);
    var p :- Touch(s.players[k], pool, s.now);
    :- Require(pool.shutdown, PoolNotShutDown);
    :- Require(!p.isHouse, HouseCannotEmergencyWithdraw);
    var claim :- U64(p.principal + p.pendingWithdraw);
    :- Require(claim > 0, ZeroAmount);
    :- Require(s.principalVault >= claim, InsufficientVault);
    var total :- U64(pool.totalPrincipal - p.principal);
    var pendings :- U64(pool.pendingWithdrawals - p.pendingWithdraw);
    Ok(s.(principalVault := s.principalVault - claim,
          players := s.players[k := p.(principal := 0, entries := 0, pendingWithdraw := 0)],
          pool := pool.(totalPrincipal := total, pendingWithdrawals := pendings)))
  }

  /** What of the yield budget the principal vault holds above its obligations. */
  function SweepableYield(s: State): u64 {
    Min(s.pool.yieldBudget, SatSub(SatSub(s.principalVault, s.pool.totalPrincipal), s.pool.pendingWithdrawals))
  }

  function SweepHouse(s: State, signer: Signer): Result<State> {
    var pool := s.pool;
    :- Require(signer.admin, Unauthorized);
    :- Require(pool.shutdown, PoolNotShutDown);
    Ok(s.(jackpotVault := s.jackpotVault - SatSub(s.jackpotVault, pool.jackpotReserved),
          principalVault := s.principalVault - SweepableYield(s),
          pool := pool.(yieldBudget := pool.yieldBudget - SweepableYield(s))))
  }

  /** A counter that restarts in each epoch: reset, add, check against the cap. */
  function CounterAfter(epoch: u64, count: u64, current: u64, cap: u64, amount: u64, error: Error): Result<u64> {
    var total :- U64((if epoch == current then count else 0) + amount);
    :- Require(total <= cap, error);
    Ok(total)
  }

  function BuyTickets(s: State, k: Key, amount: u64): Result<State> {
    var pool := s.pool;
    :- Require(k in s.players, AccountMissing);
    var p :- Touch(s.players[k], pool, s.now);
    :- Require(!pool.shutdown, PoolShutDown);
    :- Require(!pool.paused, PoolPaused);
    :- Require(pool.currentEpochId > 0, NoEpochYet);
    :- Require(!pool.jackpotPaused, JackpotPaused);
    :- Require(amount > 0, ZeroAmount);
    :- Require(!p.isHouse, HouseCannotBuyTickets);
    var bought :- CounterAfter(p.boughtEpoch, p.boughtAmount, pool.currentEpochId, p.principal, amount,
                               DailyBuyCapExceeded);
    var vault :- U64(s.jackpotVault + amount);
    var tickets :- U64(amount * pool.params.ticketsPerUsdc);
    var entries :- U64(p.entries + tickets);
    Ok(s.(jackpotVault := vault,
          players := s.players[k := p.(boughtEpoch := pool.currentEpochId, boughtAmount := bought,
                                       entries := entries)]))
  }

  function PoolBonusCap(totalPrincipal: u64, bonusCapBps: bps): u64 {
    assert totalPrincipal * bonusCapBps <= totalPrincipal * BPS_DENOMINATOR by {
      MulLe(bonusCapBps, BPS_DENOMINATOR, totalPrincipal);
    }
    totalPrincipal * bonusCapBps / BPS_DENOMINATOR
  }

  function GrantTickets(s: State, signer: Signer, k: Key, amount: u64): Result<State> {
    var pool := s.pool;
    :- Require(signer.admin || signer.operator, Unauthorized);
    :- Require(k in s.players, AccountMissing);
    var p :- Touch(s.players[k], pool, s.now);
    :- Require(!pool.shutdown, PoolShutDown);
    :- Require(!pool.paused, PoolPaused);
    :- Require(!pool.jackpotPaused, JackpotPaused);
    :- Require(amount > 0, ZeroAmount);
    if signer.admin then
      var entries :- U64(p.entries + amount);
      Ok(s.(players := s.players[k := p.(entries := entries)]))
    else
      var current := pool.currentEpochId;
      :- Require(!p.isHouse, HouseCannotBeGranted);
      var mine :- CounterAfter(p.bonusEpoch, p.bonusGranted, current, p.principal, amount,
                               DailyPlayerGrantCapExceeded);
      var all :- CounterAfter(pool.bonusEpoch, pool.bonusGranted, current,
                              PoolBonusCap(pool.totalPrincipal, pool.params.bonusCapBps), amount,
                              DailyPoolGrantCapExceeded);
      var entries :- U64(p.entries + amount);
      Ok(s.(players := s.players[k := p.(bonusEpoch := current, bonusGranted := mine, entries := entries)],
            pool := pool.(bonusEpoch := current, bonusGranted := all)))
  }
}
