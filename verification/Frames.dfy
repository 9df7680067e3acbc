/** What whole families of instructions leave alone. */
module Frames {
  import opened Machine
  import opened Ledger
  import opened Touching
  import opened Program
  import C = Custody
  import E = Epochs
  import R = Rounds
  import Vrf

  /** Pools that differ at most in what a custody instruction may write. */
  predicate CustodyPool(a: Pool, c: CustodyInstr, b: Pool) {
    && b == a.(params := b.params, paused := b.paused, gamePaused := b.gamePaused, jackpotPaused := b.jackpotPaused,
               shutdown := b.shutdown, totalPrincipal := b.totalPrincipal, pendingWithdrawals := b.pendingWithdrawals,
               yieldBudget := b.yieldBudget, bonusEpoch := b.bonusEpoch, bonusGranted := b.bonusGranted)
    && (!c.SetParams? ==> b.params == a.params)
    && (!c.GrantTickets? ==> b.bonusEpoch == a.bonusEpoch && b.bonusGranted == a.bonusGranted)
    && b.yieldBudget <= a.yieldBudget && (!c.SweepHouse? ==> b.yieldBudget == a.yieldBudget)
    && ShutKept(a, b)
  }

  /** Shutdown comes with all three pauses. */
  predicate ShutOk(pool: Pool) { pool.shutdown ==> pool.paused && pool.gamePaused && pool.jackpotPaused }

  predicate ShutKept(a: Pool, b: Pool) { (a.shutdown ==> b.shutdown) && (ShutOk(a) ==> ShutOk(b)) }

  predicate CustodyFrame(s: State, c: CustodyInstr, t: State) {
    && CustodyPool(s.pool, c, t.pool)
    && t.rounds == s.rounds && t.epochs == s.epochs && t.now == s.now && s.players.Keys <= t.players.Keys
    && (s.pool.jackpotReserved <= s.jackpotVault ==> s.pool.jackpotReserved <= t.jackpotVault)
  }

  lemma ParamsFrame(s: State, c: CustodyInstr, t: State)
    requires c.SetParams? && C.SetParams(s, c.signer, c.update) == Ok(t)
    ensures CustodyFrame(s, c, t)
  {
  }

  lemma GrantFrame(s: State, c: CustodyInstr, t: State)
    requires c.GrantTickets? && C.GrantTickets(s, c.signer, c.k, c.amount) == Ok(t)
    ensures CustodyFrame(s, c, t)
  {
    hide Touch, C.CounterAfter, C.PoolBonusCap;
  }

  /** The switches, and the instructions that move claims. */
  predicate IsClaim(c: CustodyInstr) {
    c.Deposit? || c.RequestWithdraw? || c.ProcessWithdraw? || c.EmergencyWithdraw? || c.BuyTickets?
  }

  lemma ClaimFrame(s: State, c: CustodyInstr, t: State)
    requires IsClaim(c) && CustodyStep(s, c) == Ok(t)
    ensures CustodyFrame(s, c, t)
  {
    hide Touch, C.CounterAfter, C.SetParams, C.GrantTickets, C.SweepHouse;
  }

  lemma SwitchFrame(s: State, c: CustodyInstr, t: State)
    requires !IsClaim(c) && !c.SetParams? && !c.GrantTickets? && CustodyStep(s, c) == Ok(t)
    ensures CustodyFrame(s, c, t)
  {
    hide Touch, C.SetParams, C.GrantTickets, C.Deposit, C.RequestWithdraw, C.ProcessWithdraw, C.EmergencyWithdraw,
      C.BuyTickets;
  }

  lemma CustodyLeaves(s: State, c: CustodyInstr, t: State)
    requires CustodyStep(s, c) == Ok(t)
    ensures CustodyFrame(s, c, t)
  {
    hide CustodyFrame;
    if c.SetParams? {
      CustodyIs(s, c, t);
      ParamsFrame(s, c, t);
    } else if c.GrantTickets? {
      CustodyIs(s, c, t);
      GrantFrame(s, c, t);
    } else if IsClaim(c) {
      ClaimFrame(s, c, t);
    } else {
      SwitchFrame(s, c, t);
    }
  }

  lemma CustodyIs(s: State, c: CustodyInstr, t: State)
    requires CustodyStep(s, c) == Ok(t)
    ensures c.SetParams? ==> C.SetParams(s, c.signer, c.update) == Ok(t)
    ensures c.GrantTickets? ==> C.GrantTickets(s, c.signer, c.k, c.amount) == Ok(t)
  {
    hide C.SetParams, C.GrantTickets;
  }

  /** A round instruction leaves epochs, vaults and all of the pool but its three game fields. */
  predicate RoundFrame(s: State, t: State) {
    && t.pool == s.pool.(nextRoundId := t.pool.nextRoundId, carryPot := t.pool.carryPot, openRoundId := t.pool.openRoundId)
    && t.epochs == s.epochs && t.principalVault == s.principalVault && t.jackpotVault == s.jackpotVault && t.now == s.now
  }

  lemma RoundLeaves(s: State, g: RoundInstr, t: State)
    requires RoundStep(s, g) == Ok(t)
    ensures RoundFrame(s, t)
  {
    hide Touch, R.Quote, R.Joined, R.Staker, R.VoidDue, R.Reward, R.HouseCut, Vrf.Unbiased;
  }

  /** A registration leaves the vaults, the rounds and all of the pool but the two sides of a credit. */
  predicate CreditFrame(a: Pool, b: Pool) {
    b == a.(totalPrincipal := b.totalPrincipal, yieldBudget := b.yieldBudget)
  }

  lemma CreditLeaves(s: State, id: nat, p: Player, principalSeconds: u128)
    requires 0 <= id <= U64_MAX && E.CreditOnce(s, id, p, principalSeconds).Ok?
    ensures CreditFrame(s.pool, E.CreditOnce(s, id, p, principalSeconds).value.0)
  {
    hide Touch, E.YieldFor;
  }

  lemma RegisterLeaves(s: State, id: nat, k: Key, t: State)
    requires E.Register(s, id, k) == Ok(t)
    ensures CreditFrame(s.pool, t.pool) && t.rounds == s.rounds && t.now == s.now
    ensures t.principalVault == s.principalVault && t.jackpotVault == s.jackpotVault
    ensures id in s.epochs && id in t.epochs && t.epochs[id].status == s.epochs[id].status
    ensures t.epochs[id].jackpotAmount == s.epochs[id].jackpotAmount
  {
    hide E.WeightAndPrincipalSeconds, E.CreditOnce;
    CreditLeaves(s, id, s.players[k], E.WeightAndPrincipalSeconds(id, s.epochs[id], s.players[k]).value.1);
  }

  /** An epoch instruction other than `begin_epoch` leaves the rounds and all of the pool but three amounts. */
  predicate EpochFrame(s: State, t: State) {
    && t.pool == s.pool.(totalPrincipal := t.pool.totalPrincipal, yieldBudget := t.pool.yieldBudget,
                         jackpotReserved := t.pool.jackpotReserved)
    && t.rounds == s.rounds && t.now == s.now
  }

  lemma EpochLeaves(s: State, e: EpochInstr, t: State)
    requires EpochStep(s, e) == Ok(t) && !e.BeginEpoch?
    ensures EpochFrame(s, t)
  {
    hide Touch, E.Register, E.RegistrationClosesAt, E.RolloverDue, E.BeginEpoch, Vrf.Unbiased;
    if e.Register? { RegisterLeaves(s, e.id, e.k, t); }
  }
}
