/** The touch rule (touch.rs): lazy accrual of a player's weight and the reset at an epoch boundary. */
module Touching {
  import opened Machine
  import opened Ledger

  /** Seconds from one instant to another, zero if the second is earlier. Saturates like `i64`. */
  function Elapsed(from: i64, to: i64): nat {
    if to <= from then 0 else Min(to - from, I64_MAX)
  }

  function WeightOf(amount: u64, seconds: nat): Result<u128> {
    U128(amount * seconds)
  }

  /** Where accrual in the current epoch stops: at its end, or nowhere before the first epoch. */
  function AccrueUntil(pool: Pool, now: i64): i64 {
    if pool.currentEpochId == 0 then now else Min(now, pool.currentEpochEndsAt)
  }

  function TouchWithin(p: Player, pool: Pool, now: i64): Result<Player> {
    var tail := Elapsed(p.lastUpdate, AccrueUntil(pool, now));
    var earned :- WeightOf(p.entries, tail);
    var weightAcc :- U128(p.weightAcc + earned);
    var held :- WeightOf(p.principal, tail);
    var principalAcc :- U128(p.principalAcc + held);
    Ok(p.(weightAcc := weightAcc, principalAcc := principalAcc, lastUpdate := now))
  }

  /** Weight and principal-seconds a player brings out of the epoch before the current one. */
  function Freeze(p: Player, pool: Pool): Result<(u128, u128)>
    requires p.epochId < pool.currentEpochId
  {
    if p.epochId == pool.currentEpochId - 1 then
      var tail := Elapsed(p.lastUpdate, pool.previousEpochEndsAt);
      var earned :- WeightOf(p.entries, tail);
      var weight :- U128(p.weightAcc + earned);
      var held :- WeightOf(p.principal, tail);
      var principalSeconds :- U128(p.principalAcc + held);
      Ok((weight, principalSeconds))
    else
      var idle :- WeightOf(p.principal, Elapsed(pool.previousEpochStart, pool.previousEpochEndsAt));
      Ok((idle, idle))
  }

  function TouchAcross(p: Player, pool: Pool, now: i64): Result<Player>
    requires p.epochId < pool.currentEpochId
  {
    var frozen :- Freeze(p, pool);
    var head :- WeightOf(p.principal, Elapsed(pool.currentEpochStart, AccrueUntil(pool, now)));
    Ok(p.(frozenWeight := frozen.0, frozenPrincipalAcc := frozen.1, frozenEpoch := pool.currentEpochId - 1,
          entries := p.principal, weightAcc := head, principalAcc := head,
          lastUpdate := now, epochId := pool.currentEpochId))
  }

  function Touch(p: Player, pool: Pool, now: i64): Result<Player> {
    if p.epochId >= pool.currentEpochId then TouchWithin(p, pool, now) else TouchAcross(p, pool, now)
  }

  /** What a touch leaves: claims, registration, stamps and counters are kept, Tickets are Principal again if an
      epoch began since. */
  predicate Touched(p: Player, q: Player, pool: Pool, now: i64) {
    && q.principal == p.principal && q.pendingWithdraw == p.pendingWithdraw && q.isHouse == p.isHouse
    && q.regEpoch == p.regEpoch && q.regStart == p.regStart && q.regEnd == p.regEnd && q.yieldEpoch == p.yieldEpoch
    && q.pendingEpoch == p.pendingEpoch && q.requestedAt == p.requestedAt
    && q.bonusEpoch == p.bonusEpoch && q.bonusGranted == p.bonusGranted
    && q.boughtEpoch == p.boughtEpoch && q.boughtAmount == p.boughtAmount
    && q.lastUpdate == now && q.epochId == Max(p.epochId, pool.currentEpochId)
    && q.entries == if p.epochId < pool.currentEpochId then p.principal else p.entries
  }

  lemma TouchKeeps(p: Player, pool: Pool, now: i64)
    requires Touch(p, pool, now).Ok?
    ensures Touched(p, Touch(p, pool, now).value, pool, now)
  {
  }

  lemma TouchFails(p: Player, pool: Pool, now: i64)
    ensures Touch(p, pool, now).Err? ==> Touch(p, pool, now).error == ArithmeticOverflow
  {
  }
}
