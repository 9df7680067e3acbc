/** The epoch instructions (epochs.rs), each as the state it commits or the error it aborts with. */
module Epochs {
  import opened Machine
  import opened Ledger
  import opened Touching
  import Vrf

  const SECONDS_PER_YEAR: int := 31_536_000
  const YIELD_DENOMINATOR: int := BPS_DENOMINATOR * SECONDS_PER_YEAR

  function YieldFor(principalSeconds: u128, baseRateBps: bps): Result<u64> {
    var numerator :- U128(principalSeconds * baseRateBps);
    U64(numerator / YIELD_DENOMINATOR)
  }

  /** Weight and principal-seconds that an ended epoch owes a player. */
  function WeightAndPrincipalSeconds(id: nat, epoch: Epoch, p: Player): Result<(u128, u128)> {
    if p.epochId == id then
      var tail := Elapsed(p.lastUpdate, epoch.endsAt);
      var earned :- WeightOf(p.entries, tail);
      var weight :- U128(p.weightAcc + earned);
      var held :- WeightOf(p.principal, tail);
      var principalSeconds :- U128(p.principalAcc + held);
      Ok((weight, principalSeconds))
    else if p.epochId > id then
      :- Require(p.frozenEpoch == id, FrozenEpochMismatch);
      Ok((p.frozenWeight, p.frozenPrincipalAcc))
    else
      var idle :- WeightOf(p.principal, Elapsed(epoch.startsAt, epoch.endsAt));
      Ok((idle, idle))
  }

  function CreditYield(pool: Pool, p: Player, principalSeconds: u128, now: i64): Result<(Pool, Player)> {
    var desired :- YieldFor(principalSeconds, pool.params.baseRateBps);
    var credited: u64 := Min(desired, pool.yieldBudget);
    var q :- if credited > 0 then Touch(p, pool, now) else Ok(p);
    var principal :- U64(q.principal + credited);
    var entries :- U64(q.entries + credited);
    var total :- U64(pool.totalPrincipal + credited);
    Ok((pool.(totalPrincipal := total, yieldBudget := pool.yieldBudget - credited),
        q.(principal := principal, entries := entries)))
  }

  /** The last point of the grid `anchor + k * length` at or before `t`. */
  function GridFloor(anchor: i64, length: period, t: i64): Result<i64> {
    var offset :- I64(t - anchor);
    var steps :- I64(offset / length * length);
    I64(anchor + steps)
  }

  function NextEpochStart(s: State): Result<i64> {
    if s.pool.currentEpochId == 0 then Ok(s.now)
    else
      :- Require(s.pool.currentEpochId in s.epochs, AccountMissing);
      var endsAt := s.epochs[s.pool.currentEpochId].endsAt;
      :- Require(s.now >= endsAt, EpochNotEnded);
      var floor :- GridFloor(s.pool.params.epochAnchor, s.pool.params.epochSeconds, s.now);
      Ok(Max(endsAt, floor))
  }

  function NewEpoch(startsAt: i64, endsAt: i64): Epoch {
    Epoch(startsAt, endsAt, Open, 0, 0, 0, 0, 0, None, 0, 0, None)
  }

  /** The epoch whose winner's interval a new epoch could overwrite has finished its draw. */
  predicate MayLeaveBehind(s: State) {
    s.pool.currentEpochId >= 2 ==>
      && s.pool.currentEpochId - 1 in s.epochs
      && !s.epochs[s.pool.currentEpochId - 1].status.Drawing?
      && !s.epochs[s.pool.currentEpochId - 1].status.Drawn?
  }

  function BeginEpoch(s: State, signer: Signer): Result<State> {
    var pool := s.pool;
    :- Require(signer.operator, Unauthorized);
    :- Require(!pool.shutdown, PoolShutDown);
    :- Require(!pool.jackpotPaused, JackpotPaused);
    :- Require(MayLeaveBehind(s), PreviousEpochStillDrawing);
    var current := pool.currentEpochId;
    var startsAt :- NextEpochStart(s);
    var floor :- GridFloor(pool.params.epochAnchor, pool.params.epochSeconds, startsAt);
    var endsAt :- I64(floor + pool.params.epochSeconds);
    var id :- U64(current + 1);
    :- Require(id !in s.epochs, AccountExists);
    var left := if current == 0 then s.epochs
                else s.epochs[current := s.epochs[current].(status := Registering, registrationOpenedAt := s.now)];
    Ok(s.(epochs := left[id := NewEpoch(startsAt, endsAt)],
          pool := pool.(currentEpochId := id,
                          previousEpochStart := pool.currentEpochStart, currentEpochStart := startsAt,
                          previousEpochEndsAt := pool.currentEpochEndsAt, currentEpochEndsAt := endsAt)))
  }

  /** Credits the ended epoch's yield unless this player already had it. */
  function CreditOnce(s: State, id: nat, p: Player, principalSeconds: u128): Result<(Pool, Player)>
    requires 0 <= id <= U64_MAX
  {
    if p.yieldEpoch == id then Ok((s.pool, p))
    else
      var credit :- CreditYield(s.pool, p, principalSeconds, s.now);
      Ok((credit.0, credit.1.(yieldEpoch := id)))
  }

  function Register(s: State, id: nat, k: Key): Result<State> {
    var pool := s.pool;
    :- Require(id in s.epochs && k in s.players, AccountMissing);
    var epoch, p := s.epochs[id], s.players[k];
    :- Require(epoch.status.Registering?, EpochNotRegistering);
    :- Require(pool.currentEpochId > 0 && id == pool.currentEpochId - 1, NotPreviousEpoch);
    :- Require(p.regEpoch != id, AlreadyRegistered);
    var owed :- WeightAndPrincipalSeconds(id, epoch, p);
    var credit :- CreditOnce(s, id, p, owed.1);
    if owed.0 == 0 then
      Ok(s.(pool := credit.0, players := s.players[k := credit.1]))
    else
      var regEnd :- U128(epoch.registeredWeight + owed.0);
      var count :- U32(epoch.registeredCount + 1);
      Ok(s.(pool := credit.0,
            players := s.players[k := credit.1.(regEpoch := id, regStart := epoch.registeredWeight, regEnd := regEnd)],
            epochs := s.epochs[id := epoch.(registeredWeight := regEnd, registeredCount := count)]))
  }

  function FundJackpot(s: State, amount: u64): Result<State> {
    var vault :- U64(s.jackpotVault + amount);
    Ok(s.(jackpotVault := vault))
  }

  function FundYield(s: State, amount: u64): Result<State> {
    var pool := s.pool;
    :- Require(!pool.shutdown, PoolShutDown);
    var vault :- U64(s.principalVault + amount);
    var budget :- U64(pool.yieldBudget + amount);
    Ok(s.(principalVault := vault, pool := pool.(yieldBudget := budget)))
  }

  function RegistrationClosesAt(s: State, epoch: Epoch): Result<i64> {
    I64(Max(epoch.registrationOpenedAt, epoch.endsAt) + s.pool.params.registrationWindow)
  }

  function CloseRegistration(s: State, signer: Signer, id: nat): Result<State> {
    var pool := s.pool;
    :- Require(signer.operator, Unauthorized);
    :- Require(id in s.epochs, AccountMissing);
    var epoch := s.epochs[id];
    :- Require(!pool.shutdown, PoolShutDown);
    :- Require(!pool.jackpotPaused, JackpotPaused);
    :- Require(epoch.status.Registering?, EpochNotRegistering);
    var closesAt :- RegistrationClosesAt(s, epoch);
    :- Require(s.now >= closesAt, RegistrationWindowOpen);
    var prize: u64 := SatSub(s.jackpotVault, pool.jackpotReserved);
    if epoch.registeredWeight == 0 || prize < pool.params.minJackpot then
      Ok(s.(epochs := s.epochs[id := epoch.(jackpotAmount := prize, status := RolledOver)]))
    else
      var reserved :- U64(pool.jackpotReserved + prize);
      Ok(s.(epochs := s.epochs[id := epoch.(jackpotAmount := prize, status := Drawing, requestedAt := s.now)],
            pool := pool.(jackpotReserved := reserved)))
  }

  function Draw(s: State, id: nat): Result<State> {
    var epochs := s.epochs;
    :- Require(id in epochs, AccountMissing);
    var epoch := epochs[id];
    :- Require(epoch.status.Drawing?, EpochNotDrawing);
    :- Require(epoch.oracle.Some?, RandomnessNotFulfilled);
    var target :- Vrf.Unbiased(epoch.oracle.value, U128_MAX, epoch.registeredWeight);
    var point :- U128(target);
    Ok(s.(epochs := epochs[id := epoch.(target := point, status := Drawn, drawnAt := s.now)]))
  }

  /** What `payout` checks of the account it is asked to pay. */
  predicate HoldsTarget(id: nat, epoch: Epoch, p: Player) {
    p.regEpoch == id && p.regStart <= epoch.target < p.regEnd
  }

  function Payout(s: State, id: nat, k: Key): Result<State> {
    var pool := s.pool;
    :- Require(id in s.epochs && k in s.players, AccountMissing);
    var epoch, p := s.epochs[id], s.players[k];
    :- Require(epoch.status.Drawn?, EpochNotDrawn);
    :- Require(p.regEpoch == id, NotRegistered);
    :- Require(p.regStart <= epoch.target < p.regEnd, NotTheWinner);
    var amount := epoch.jackpotAmount;
    var paid := s.epochs[id := epoch.(winner := Some(k), status := Paid)];
    if p.isHouse then
      :- Require(s.jackpotVault >= amount / 2 + amount / 5, InsufficientFunds);
      var reserved :- U64(pool.jackpotReserved - amount);
      Ok(s.(jackpotVault := s.jackpotVault - amount / 2 - amount / 5, epochs := paid,
            pool := pool.(jackpotReserved := reserved)))
    else
      var w :- Touch(p, pool, s.now);
      :- Require(s.jackpotVault >= amount, InsufficientFunds);
      var vault :- U64(s.principalVault + amount);
      var principal :- U64(w.principal + amount);
      var entries :- U64(w.entries + amount);
      var total :- U64(pool.totalPrincipal + amount);
      var reserved :- U64(pool.jackpotReserved - amount);
      Ok(s.(jackpotVault := s.jackpotVault - amount, principalVault := vault, epochs := paid,
            players := s.players[k := w.(principal := principal, entries := entries)],
            pool := pool.(totalPrincipal := total, jackpotReserved := reserved)))
  }

  /** The guards of the three ways an epoch may end without paying. */
  function RolloverDue(s: State, epoch: Epoch): Result<()> {
    match epoch.status
    case Registering =>
      :- Require(!s.pool.jackpotPaused, JackpotPaused);
      var closesAt :- RegistrationClosesAt(s, epoch);
      var deadline :- I64(closesAt + s.pool.params.vrfTimeout);
      :- Require(s.now > deadline, VrfTimeoutNotElapsed);
      Ok(())
    case Drawing =>
      :- Require(epoch.oracle.None?, RandomnessAlreadyFulfilled);
      var deadline :- I64(epoch.requestedAt + s.pool.params.vrfTimeout);
      :- Require(s.now > deadline, VrfTimeoutNotElapsed);
      Ok(())
    case Drawn =>
      var deadline :- I64(epoch.drawnAt + s.pool.params.payoutTimeout);
      :- Require(s.now > deadline, PayoutTimeoutNotElapsed);
      Ok(())
    case _ => Err(EpochNotDrawing)
  }

  function RolloverEpoch(s: State, id: nat): Result<State> {
    var pool := s.pool;
    :- Require(id in s.epochs, AccountMissing);
    var epoch := s.epochs[id];
    var _ :- RolloverDue(s, epoch);
    var reserved :- U64(pool.jackpotReserved - epoch.jackpotAmount);
    Ok(s.(epochs := s.epochs[id := epoch.(status := RolledOver)], pool := pool.(jackpotReserved := reserved)))
  }

  /** The oracle answers a pending draw. It answers once. */
  function FulfilDraw(s: State, id: nat, samples: Samples): Result<State> {
    var pending := id in s.epochs && s.epochs[id].status.Drawing? && s.epochs[id].oracle.None?;
    :- Require(pending, RandomnessNotFulfilled);
    Ok(s.(epochs := s.epochs[id := s.epochs[id].(oracle := Some(samples))]))
  }
}
