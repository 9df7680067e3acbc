/** The backend's own copies of the program's arithmetic (decode.ts, api.service.ts). */
module Mirrors {
  import opened Machine
  import opened Ledger
  import opened Touching
  import opened Program
  import opened Shape
  import opened Meters
  import C = Custody
  import E = Epochs

  function Max0(x: int): int { if x > 0 then x else 0 }

  /** The operator's prediction of what `register` records. */
  function RegistrationWeight(p: Player, id: nat, startsAt: int, endsAt: int): int {
    if p.epochId == id then Max0(p.weightAcc + p.entries * Max0(endsAt - p.lastUpdate))
    else if p.epochId > id then if p.frozenEpoch == id then Max0(p.frozenWeight) else 0
    else Max0(p.principal * Max0(endsAt - startsAt))
  }

  /** The API's weight of a player in an epoch at an instant. */
  function WeightAt(p: Player, id: nat, epochStart: int, at: int): int {
    if p.frozenEpoch == id then p.frozenWeight
    else if p.epochId == id then
      var elapsed := at - p.lastUpdate;
      if elapsed <= 0 then p.weightAcc else p.weightAcc + p.entries * elapsed
    else if p.epochId < id then
      var elapsed := at - epochStart;
      if elapsed <= 0 then 0 else p.principal * elapsed
    else 0
  }

  function PrincipalOut(totalPrincipal: int, pendingWithdrawals: int, yieldBudget: int, vaultAmount: int): int {
    var owed := totalPrincipal + pendingWithdrawals + yieldBudget;
    if owed > vaultAmount then owed - vaultAmount else 0
  }

  /** An epoch counter as the API shows it: stale counters read 0. */
  function IfCurrentEpoch(counterEpoch: nat, currentEpochId: nat, value: nat): nat {
    if counterEpoch == currentEpochId then value else 0
  }

  /** `buyAllowanceLeft` of `playerTicketExtras`. */
  function BuyAllowanceLeft(p: Player, currentEpochId: nat): nat {
    var boughtToday := IfCurrentEpoch(p.boughtEpoch, currentEpochId, p.boughtAmount);
    if p.principal > boughtToday then p.principal - boughtToday else 0
  }

  /** The allowance the API shows is exactly what `buy_tickets` accepts of a purchase that passes the other guards:
      anything more is refused, anything less only if a total overflows, and the purchase uses it up. */
  lemma BuyAllowanceIsExact(s: State, k: Key, amount: u64)
    requires k in s.players && Touch(s.players[k], s.pool, s.now).Ok? && amount > 0 && s.pool.currentEpochId > 0
    requires !s.pool.shutdown && !s.pool.paused && !s.pool.jackpotPaused && !s.players[k].isHouse
    ensures amount <= BuyAllowanceLeft(s.players[k], s.pool.currentEpochId) ==>
              C.BuyTickets(s, k, amount).Ok? || C.BuyTickets(s, k, amount) == Err(ArithmeticOverflow)
    ensures amount > BuyAllowanceLeft(s.players[k], s.pool.currentEpochId) ==> C.BuyTickets(s, k, amount).Err?
    ensures C.BuyTickets(s, k, amount).Ok? ==>
              var t := C.BuyTickets(s, k, amount).value;
              && k in t.players && t.jackpotVault - s.jackpotVault == amount
              && BuyAllowanceLeft(t.players[k], t.pool.currentEpochId)
                 == BuyAllowanceLeft(s.players[k], s.pool.currentEpochId) - amount
  {
    hide Touch;
    TouchKeeps(s.players[k], s.pool, s.now);
  }

  lemma WeightsAgree(id: nat, epoch: Epoch, k: Key, p: Player, pool: Pool, now: i64)
    requires PlayerOk(k, p, pool, now) && id >= 1 && id == pool.currentEpochId - 1
    requires 0 <= epoch.startsAt <= epoch.endsAt
    ensures var onChain := E.WeightAndPrincipalSeconds(id, epoch, p);
            var operator, api := RegistrationWeight(p, id, epoch.startsAt, epoch.endsAt),
                WeightAt(p, id, epoch.startsAt, epoch.endsAt);
            && operator == api
            && (onChain.Ok? ==> operator == onChain.value.0)
            && (onChain == Err(FrozenEpochMismatch) ==> operator == 0)
  {
    MulNonNegative(p.entries, Max0(epoch.endsAt - p.lastUpdate));
    MulNonNegative(p.principal, Max0(epoch.endsAt - epoch.startsAt));
  }

  /** The operator's copy does not see a touch either, even where the program would overflow. */
  lemma TouchKeepsMirror(id: nat, epoch: Epoch, k: Key, p: Player, pool: Pool, now: i64)
    requires PlayerOk(k, p, pool, now) && id >= 1 && id == pool.currentEpochId - 1 && Touch(p, pool, now).Ok?
    requires 0 <= epoch.startsAt == pool.previousEpochStart <= epoch.endsAt == pool.previousEpochEndsAt
    ensures RegistrationWeight(Touch(p, pool, now).value, id, epoch.startsAt, epoch.endsAt)
         == RegistrationWeight(p, id, epoch.startsAt, epoch.endsAt)
  {
    MulNonNegative(p.entries, Max0(epoch.endsAt - p.lastUpdate));
    MulNonNegative(p.principal, Max0(epoch.endsAt - epoch.startsAt));
  }

  lemma MulNonNegative(a: nat, b: nat)
    ensures 0 <= a * b
  {
  }

  /** For the epoch just ended all three implementations give one number, 0 where the program refuses. */
  lemma ThreeWeightsAgree(w: World, k: Key)
    requires ShapeOk(w.s) && w.s.pool.currentEpochId >= 2 && k in w.s.players
    ensures var id := w.s.pool.currentEpochId - 1;
            var epoch, p := w.s.epochs[id], w.s.players[k];
            var onChain := E.WeightAndPrincipalSeconds(id, epoch, p);
            var operator, api := RegistrationWeight(p, id, epoch.startsAt, epoch.endsAt),
                WeightAt(p, id, epoch.startsAt, epoch.endsAt);
            && operator == api
            && (onChain.Ok? ==> operator == onChain.value.0)
            && (onChain == Err(FrozenEpochMismatch) ==> operator == 0)
  {
    hide Ordered, RegistrationWeight, WeightAt, E.WeightAndPrincipalSeconds, PlayerOk;
    var id := w.s.pool.currentEpochId - 1;
    assert id in w.s.epochs;
    WeightsAgree(id, w.s.epochs[id], k, w.s.players[k], w.s.pool, w.s.now);
  }

  /** What the API adds by not stopping at the epoch's end when the next epoch is late. */
  function Overshoot(p: Player, pool: Pool, now: i64): int {
    var from := if p.epochId == pool.currentEpochId then p.lastUpdate else pool.currentEpochStart;
    EffectiveEntries(p, pool.currentEpochId) * Elapsed(Max(from, pool.currentEpochEndsAt), now)
  }

  lemma SpanSplits(from: int, now: i64, pool: Pool)
    requires 0 <= from <= now && pool.currentEpochId >= 1 && 0 <= pool.currentEpochEndsAt
    ensures Elapsed(from, AccrueUntil(pool, now)) + Elapsed(Max(from, pool.currentEpochEndsAt), now) == now - from
  {
  }

  lemma ShownIsLazy(k: Key, p: Player, pool: Pool, now: clock)
    requires PlayerOk(k, p, pool, now) && pool.currentEpochId >= 1 && 0 <= pool.currentEpochStart <= now
    requires 0 <= pool.currentEpochEndsAt
    ensures WeightAt(p, pool.currentEpochId, pool.currentEpochStart, now)
         == Lazy(p, pool, now).weight + Overshoot(p, pool, now)
  {
    hide Elapsed, AccrueUntil;
    var from := if p.epochId == pool.currentEpochId then p.lastUpdate else pool.currentEpochStart;
    SpanSplits(from, now, pool);
    MulSum(EffectiveEntries(p, pool.currentEpochId), Elapsed(from, AccrueUntil(pool, now)),
           Elapsed(Max(from, pool.currentEpochEndsAt), now));
  }

  lemma NoOvershoot(p: Player, pool: Pool, now: i64)
    requires now <= pool.currentEpochEndsAt
    ensures Overshoot(p, pool, now) == 0
  {
  }

  /** The live weight the API shows is the eager integral plus that overshoot, so it is exact as long as the
      epoch has not run over. */
  lemma LiveWeightShown(w: World, k: Key)
    requires ShapeOk(w.s) && MetersOk(w) && w.s.pool.currentEpochId >= 1 && k in w.s.players
    ensures var p, pool := w.s.players[k], w.s.pool;
            var shown := WeightAt(p, pool.currentEpochId, pool.currentEpochStart, w.s.now);
            && shown == w.live[k].weight + Overshoot(p, pool, w.s.now)
            && (w.s.now <= pool.currentEpochEndsAt ==> shown == w.live[k].weight)
  {
    hide Ordered, WeightAt, Overshoot, Lazy, LazyPast;
    assert MeterOk(w, k) && PlayerOk(k, w.s.players[k], w.s.pool, w.s.now);
    ShownIsLazy(k, w.s.players[k], w.s.pool, w.s.now);
    if w.s.now <= w.s.pool.currentEpochEndsAt { NoOvershoot(w.s.players[k], w.s.pool, w.s.now); }
  }
}
