/** What every custody instruction does: exactly when it succeeds, and the whole of what it then changes. */
module Movements {
  import opened Machine
  import opened Ledger
  import opened Touching
  import opened Program
  import opened Effects
  import opened Shape
  import opened Books
  import opened Reserve
  import opened Meters
  import opened Draws
  import opened Yield
  import opened Games
  import opened Grants
  import opened Invariant
  import opened Accrual
  import opened Visible
  import C = Custody

  // ----- claims -----

  predicate MayDeposit(s: State, k: Key, amount: u64) {
    && k != s.pool.house && !s.pool.shutdown && !s.pool.paused && s.pool.params.minDeposit <= amount && Touchable(s, k)
    && s.principalVault + amount <= U64_MAX && s.pool.totalPrincipal + amount <= U64_MAX
    && SeenIn(s, k).tickets + amount <= U64_MAX
  }

  predicate Deposited(s: State, k: Key, amount: u64, t: State) {
    var v := SeenIn(s, k);
    && Becomes(s, k, t, v.(principal := v.principal + amount, tickets := v.tickets + amount))
    && t == s.(players := t.players, principalVault := t.principalVault,
               pool := s.pool.(totalPrincipal := t.pool.totalPrincipal))
    && t.principalVault - s.principalVault == t.pool.totalPrincipal - s.pool.totalPrincipal == amount
  }

  /** A deposit is taken if and only if it comes from a player, the pool is open, it is large enough and there is room
      for it; it then moves its amount into the vault, and adds it to the player's Principal and Tickets alike. */
  lemma DepositExactly(w: World, k: Key, amount: u64)
    requires Reachable(w)
    ensures C.Deposit(w.s, k, amount).Ok? <==> MayDeposit(w.s, k, amount)
    ensures C.Deposit(w.s, k, amount).Ok? ==> Deposited(w.s, k, amount, C.Deposit(w.s, k, amount).value)
  {
    hide Reachable, Touch, WeightFits;
    UsableAt(w, k);
  }

  predicate MayRequest(s: State, k: Key, amount: u64) {
    && k in s.players && Touchable(s, k) && 0 < amount <= s.players[k].principal
    && s.pool.pendingWithdrawals + amount <= U64_MAX
  }

  predicate Requested(s: State, k: Key, amount: u64, t: State) {
    var v := SeenIn(s, k);
    && v.principal >= amount
    && Becomes(s, k, t, v.(principal := v.principal - amount,
                           tickets := if v.tickets > amount then v.tickets - amount else 0,
                           pending := v.pending + amount, pendingEpoch := s.pool.currentEpochId, requestedAt := s.now))
    && t == s.(players := t.players, pool := s.pool.(totalPrincipal := t.pool.totalPrincipal,
                                                     pendingWithdrawals := t.pool.pendingWithdrawals))
    && s.pool.totalPrincipal - t.pool.totalPrincipal == t.pool.pendingWithdrawals - s.pool.pendingWithdrawals == amount
  }

  /** A withdrawal can be requested, whatever is paused, if and only if the player holds the Principal; it turns
      Principal into a pending claim stamped with this epoch and instant, takes as many Tickets as there are, and moves
      no money. */
  lemma RequestExactly(w: World, k: Key, amount: u64)
    requires Reachable(w)
    ensures C.RequestWithdraw(w.s, k, amount).Ok? <==> MayRequest(w.s, k, amount)
    ensures C.RequestWithdraw(w.s, k, amount).Ok? ==> Requested(w.s, k, amount, C.RequestWithdraw(w.s, k, amount).value)
  {
    hide Reachable, Touch, WeightFits;
    UsableAt(w, k);
  }

  predicate MayProcess(s: State, k: Key) {
    && k in s.players && s.players[k].pendingWithdraw > 0 && s.players[k].pendingWithdraw <= s.principalVault
    && s.players[k].requestedAt + s.pool.params.epochSeconds <= I64_MAX
    && (s.pool.shutdown || s.players[k].pendingEpoch < s.pool.currentEpochId
        || s.players[k].requestedAt + s.pool.params.epochSeconds < s.now)
  }

  predicate Processed(s: State, k: Key, t: State) {
    var v := SeenIn(s, k);
    && Becomes(s, k, t, v.(pending := 0))
    && t == s.(players := t.players, principalVault := t.principalVault,
               pool := s.pool.(pendingWithdrawals := t.pool.pendingWithdrawals))
    && s.principalVault - t.principalVault == s.pool.pendingWithdrawals - t.pool.pendingWithdrawals == v.pending
  }

  /** A request is paid if and only if the epoch it was made in was left behind, or a whole period has passed, or the pool
      is shut down, and the vault holds it; exactly the pending claim leaves the vault. */
  lemma ProcessExactly(w: World, k: Key)
    requires Reachable(w)
    ensures C.ProcessWithdraw(w.s, k).Ok? <==> MayProcess(w.s, k)
    ensures C.ProcessWithdraw(w.s, k).Ok? ==> Processed(w.s, k, C.ProcessWithdraw(w.s, k).value)
  {
    hide Reachable, Touch, WeightFits;
    UsableAt(w, k);
  }

  predicate MayExit(s: State, k: Key) {
    && k in s.players && k != s.pool.house && s.pool.shutdown && Touchable(s, k)
    && 0 < s.players[k].principal + s.players[k].pendingWithdraw <= s.principalVault
  }

  predicate Exited(s: State, k: Key, t: State) {
    var v := SeenIn(s, k);
    && Becomes(s, k, t, v.(principal := 0, tickets := 0, pending := 0))
    && s.principalVault - t.principalVault == v.principal + v.pending
    && t == s.(players := t.players, principalVault := t.principalVault,
               pool := s.pool.(totalPrincipal := t.pool.totalPrincipal,
                               pendingWithdrawals := t.pool.pendingWithdrawals))
    && s.pool.totalPrincipal - t.pool.totalPrincipal == v.principal
    && s.pool.pendingWithdrawals - t.pool.pendingWithdrawals == v.pending
  }

  /** An emergency exit goes through if and only if the pool is shut down and the vault holds the player's whole claim;
      it takes exactly that, and leaves the player nothing. */
  lemma ExitExactly(w: World, k: Key)
    requires Reachable(w)
    ensures C.EmergencyWithdraw(w.s, k).Ok? <==> MayExit(w.s, k)
    ensures C.EmergencyWithdraw(w.s, k).Ok? ==> Exited(w.s, k, C.EmergencyWithdraw(w.s, k).value)
  {
    hide Reachable, Touch, WeightFits;
    UsableAt(w, k);
  }

  // ----- the admin and the vaults -----

  /** The admin may take principal down to the pending withdrawals and no further, and no claim changes with it. */
  lemma BorrowExactly(s: State, signer: Signer, amount: u64)
    ensures C.AdminWithdraw(s, signer, amount).Ok? <==>
            signer.admin && 0 < amount && s.pool.pendingWithdrawals + amount <= s.principalVault
    ensures C.AdminWithdraw(s, signer, amount).Ok? ==>
              var t := C.AdminWithdraw(s, signer, amount).value;
              t == s.(principalVault := t.principalVault) && s.principalVault - t.principalVault == amount
  {
  }

  /** A plain transfer is what comes back. */
  lemma TransferExactly(s: State, amount: u64)
    ensures C.TransferIn(s, amount).Ok? <==> s.principalVault + amount <= U64_MAX
    ensures C.TransferIn(s, amount).Ok? ==>
              var t := C.TransferIn(s, amount).value;
              t == s.(principalVault := t.principalVault) && t.principalVault - s.principalVault == amount
  {
  }

  predicate Swept(s: State, t: State) {
    var yielded := s.pool.yieldBudget - t.pool.yieldBudget;
    && t == s.(jackpotVault := s.pool.jackpotReserved, principalVault := t.principalVault,
               pool := s.pool.(yieldBudget := t.pool.yieldBudget))
    && 0 <= yielded == s.principalVault - t.principalVault
    && (yielded > 0 ==> s.pool.totalPrincipal + s.pool.pendingWithdrawals <= t.principalVault)
    && (t.pool.yieldBudget == 0 || t.principalVault <= s.pool.totalPrincipal + s.pool.pendingWithdrawals)
  }

  /** After shutdown, and only then, the admin may sweep: the jackpot vault is left with what draws were promised, and
      as much of the yield budget goes as the vault holds above players' claims, and no more. */
  lemma SweepExactly(w: World, signer: Signer)
    requires Reachable(w)
    ensures C.SweepHouse(w.s, signer).Ok? <==> signer.admin && w.s.pool.shutdown
    ensures C.SweepHouse(w.s, signer).Ok? ==> Swept(w.s, C.SweepHouse(w.s, signer).value)
  {
    hide Reachable, ShapeOk, BooksOk, MetersOk, DrawsOk, YieldOk, GamesOk, GrantsOk;
    ReachableInv(w);
  }

  // ----- Tickets -----

  /** What a counter that starts over in each epoch shows. */
  function Today(epoch: nat, count: nat, current: nat): nat { if epoch == current then count else 0 }

  /** The switches that stop purchases and grants. */
  predicate TicketsMove(pool: Pool) { !pool.shutdown && !pool.paused && !pool.jackpotPaused }

  predicate MayBuy(s: State, k: Key, amount: u64) {
    var v, c := SeenIn(s, k), s.pool.currentEpochId;
    && k in s.players && k != s.pool.house && Touchable(s, k) && TicketsMove(s.pool) && c > 0 && amount > 0
    && Today(v.boughtEpoch, v.boughtAmount, c) + amount <= v.principal
    && s.jackpotVault + amount <= U64_MAX && v.tickets + amount * s.pool.params.ticketsPerUsdc <= U64_MAX
  }

  predicate Bought(s: State, k: Key, amount: u64, t: State) {
    var v, c := SeenIn(s, k), s.pool.currentEpochId;
    && Becomes(s, k, t, v.(tickets := v.tickets + amount * s.pool.params.ticketsPerUsdc, boughtEpoch := c,
                           boughtAmount := Today(v.boughtEpoch, v.boughtAmount, c) + amount))
    && t == s.(players := t.players, jackpotVault := t.jackpotVault) && t.jackpotVault - s.jackpotVault == amount
  }

  /** Tickets are sold if and only if an epoch runs, nothing is paused, and what the player bought in this epoch stays
      within its Principal; the price goes into the jackpot vault. */
  lemma BuyExactly(w: World, k: Key, amount: u64)
    requires Reachable(w)
    ensures C.BuyTickets(w.s, k, amount).Ok? <==> MayBuy(w.s, k, amount)
    ensures C.BuyTickets(w.s, k, amount).Ok? ==> Bought(w.s, k, amount, C.BuyTickets(w.s, k, amount).value)
  {
    hide Reachable, Touch, WeightFits;
    UsableAt(w, k);
    MulLe(0, amount, w.s.pool.params.ticketsPerUsdc);
  }

  /** What the operator, but not the admin, is bound by: each player's Principal, and the pool's share of all Principal,
      per epoch. */
  predicate WithinCaps(s: State, k: Key, amount: u64) {
    var v, c := SeenIn(s, k), s.pool.currentEpochId;
    && k != s.pool.house && Today(v.bonusEpoch, v.bonusGranted, c) + amount <= v.principal
    && (Today(s.pool.bonusEpoch, s.pool.bonusGranted, c) + amount) * BPS_DENOMINATOR
       <= s.pool.totalPrincipal * s.pool.params.bonusCapBps
  }

  predicate MayGrant(s: State, signer: Signer, k: Key, amount: u64) {
    && k in s.players && Touchable(s, k) && TicketsMove(s.pool) && amount > 0
    && SeenIn(s, k).tickets + amount <= U64_MAX && (signer.admin || (signer.operator && WithinCaps(s, k, amount)))
  }

  predicate Granted(s: State, signer: Signer, k: Key, amount: u64, t: State) {
    var v, c := SeenIn(s, k), s.pool.currentEpochId;
    var more := v.(tickets := v.tickets + amount);
    if signer.admin then Becomes(s, k, t, more) && t == s.(players := t.players)
    else
      && Becomes(s, k, t, more.(bonusEpoch := c, bonusGranted := Today(v.bonusEpoch, v.bonusGranted, c) + amount))
      && t == s.(players := t.players, pool := s.pool.(bonusEpoch := c, bonusGranted := t.pool.bonusGranted))
      && t.pool.bonusGranted == Today(s.pool.bonusEpoch, s.pool.bonusGranted, c) + amount
  }

  lemma ShareIs(total: u64, rate: bps, x: int)
    ensures x <= C.PoolBonusCap(total, rate) <==> x * BPS_DENOMINATOR <= total * rate
  {
    var n, q := total * rate, C.PoolBonusCap(total, rate);
    assert n == q * BPS_DENOMINATOR + n % BPS_DENOMINATOR;
    if x <= q { MulLe(x, q, BPS_DENOMINATOR); } else { MulLe(q + 1, x, BPS_DENOMINATOR); }
  }

  /** A grant is made if and only if the admin signs, or the operator within both of its caps, nothing is paused, and
      there is room for it; an operator's grant counts against the caps, an admin's does not. */
  lemma GrantExactly(w: World, signer: Signer, k: Key, amount: u64)
    requires Reachable(w)
    ensures C.GrantTickets(w.s, signer, k, amount).Ok? <==> MayGrant(w.s, signer, k, amount)
    ensures C.GrantTickets(w.s, signer, k, amount).Ok? ==>
              Granted(w.s, signer, k, amount, C.GrantTickets(w.s, signer, k, amount).value)
  {
    hide Reachable, Touch, WeightFits, C.PoolBonusCap;
    UsableAt(w, k);
    ShareIs(w.s.pool.totalPrincipal, w.s.pool.params.bonusCapBps,
            Today(w.s.pool.bonusEpoch, w.s.pool.bonusGranted, w.s.pool.currentEpochId) + amount);
  }

  // ----- switches and parameters -----

  /** Who may turn a switch: the admin either way, the operator only off, and nobody back on after shutdown. */
  predicate MayTurn(pool: Pool, signer: Signer, paused: bool) {
    (signer.admin || (signer.operator && paused)) && (pool.shutdown ==> paused)
  }

  /** The three switches of a pool. */
  function Switches(pool: Pool): (bool, bool, bool) { (pool.paused, pool.gamePaused, pool.jackpotPaused) }

  /** Two states that differ in nothing but the switches and the shutdown flag. */
  predicate OnlySwitches(s: State, t: State) {
    t == s.(pool := s.pool.(paused := t.pool.paused, gamePaused := t.pool.gamePaused,
                            jackpotPaused := t.pool.jackpotPaused, shutdown := t.pool.shutdown))
  }

  /** A switch is set if and only if the signer may turn it, and no other; shutdown is the admin's, once, and sets all
      three. */
  lemma SwitchesExactly(s: State, signer: Signer, feature: C.PauseFeature, paused: bool)
    ensures C.SetPause(s, signer, paused).Ok? <==> MayTurn(s.pool, signer, paused)
    ensures C.SetFeaturePause(s, signer, feature, paused).Ok? <==> MayTurn(s.pool, signer, paused)
    ensures C.Shutdown(s, signer).Ok? <==> signer.admin && !s.pool.shutdown
    ensures C.SetPause(s, signer, paused).Ok? ==>
              var t := C.SetPause(s, signer, paused).value;
              && OnlySwitches(s, t) && t.pool.shutdown == s.pool.shutdown
              && Switches(t.pool) == (paused, s.pool.gamePaused, s.pool.jackpotPaused)
    ensures C.SetFeaturePause(s, signer, feature, paused).Ok? ==>
              var t := C.SetFeaturePause(s, signer, feature, paused).value;
              && OnlySwitches(s, t) && t.pool.shutdown == s.pool.shutdown
              && Switches(t.pool) == match feature
                                     case Game => (s.pool.paused, paused, s.pool.jackpotPaused)
                                     case Jackpot => (s.pool.paused, s.pool.gamePaused, paused)
    ensures C.Shutdown(s, signer).Ok? ==>
              var t := C.Shutdown(s, signer).value;
              OnlySwitches(s, t) && t.pool.shutdown && Switches(t.pool) == (true, true, true)
  {
  }

  /** Parameters a pool can run with. */
  predicate Sound(p: Params) {
    && p.epochSeconds > 0 && p.roundSeconds > 0 && 0 <= p.closeBuffer < p.roundSeconds
    && 0 <= p.registrationWindow < p.epochSeconds && p.payoutTimeout < p.epochSeconds
    && p.houseCutBps <= 10_000 && p.baseRateBps <= 10_000 && p.bonusCapBps <= 10_000
  }

  /** The bounds on what an update names; the timeouts of the production build are a minute and ten minutes. */
  predicate Admissible(u: C.ParamsUpdate) {
    && (u.epochSeconds.Some? ==> u.epochSeconds.value > 0) && (u.epochAnchor.Some? ==> u.epochAnchor.value > 0)
    && (u.roundSeconds.Some? ==> u.roundSeconds.value > 0) && (u.closeBuffer.Some? ==> u.closeBuffer.value >= 0)
    && (u.vrfTimeout.Some? ==> u.vrfTimeout.value >= 60) && (u.payoutTimeout.Some? ==> u.payoutTimeout.value >= 600)
    && (u.registrationWindow.Some? ==> u.registrationWindow.value >= 0)
    && (u.houseCutBps.Some? ==> u.houseCutBps.value <= 10_000) && (u.baseRateBps.Some? ==> u.baseRateBps.value <= 10_000)
    && (u.bonusCapBps.Some? ==> u.bonusCapBps.value <= 10_000) && (u.ticketsPerUsdc.Some? ==> u.ticketsPerUsdc.value > 0)
  }

  /** A value is the one the update names, or stays. */
  predicate Takes(named: Option<int>, before: int, after: int) {
    match named
    case Some(v) => after == v
    case None => after == before
  }

  predicate Updated(p: Params, u: C.ParamsUpdate, q: Params) {
    && Takes(u.epochSeconds, p.epochSeconds, q.epochSeconds) && Takes(u.epochAnchor, p.epochAnchor, q.epochAnchor)
    && Takes(u.roundSeconds, p.roundSeconds, q.roundSeconds) && Takes(u.closeBuffer, p.closeBuffer, q.closeBuffer)
    && Takes(u.vrfTimeout, p.vrfTimeout, q.vrfTimeout) && Takes(u.minDeposit, p.minDeposit, q.minDeposit)
    && Takes(u.houseCutBps, p.houseCutBps, q.houseCutBps) && Takes(u.minJackpot, p.minJackpot, q.minJackpot)
    && Takes(u.registrationWindow, p.registrationWindow, q.registrationWindow)
    && Takes(u.payoutTimeout, p.payoutTimeout, q.payoutTimeout) && Takes(u.baseRateBps, p.baseRateBps, q.baseRateBps)
    && Takes(u.ticketsPerUsdc, p.ticketsPerUsdc, q.ticketsPerUsdc) && Takes(u.bonusCapBps, p.bonusCapBps, q.bonusCapBps)
  }

  /** An update is taken if and only if the admin signs, what it names is within its bounds, and the parameters it leads
      to are sound; those are then the named values and the old ones, and nothing else changes. */
  lemma ParamsExactly(s: State, signer: Signer, u: C.ParamsUpdate)
    ensures C.SetParams(s, signer, u).Ok? <==>
            signer.admin && Admissible(u) && exists q: Params :: Updated(s.pool.params, u, q) && Sound(q)
    ensures C.SetParams(s, signer, u).Ok? ==>
              var t := C.SetParams(s, signer, u).value;
              && t == s.(pool := s.pool.(params := t.pool.params))
              && Updated(s.pool.params, u, t.pool.params) && Sound(t.pool.params)
  {
    if C.SetParams(s, signer, u).Ok? {
      assert Updated(s.pool.params, u, C.SetParams(s, signer, u).value.pool.params);
    }
  }

  /** Parameters a pool can be created with; types keep periods positive and shares at most 100%. */
  predicate Acceptable(p: Params) {
    && p.epochAnchor > 0 && p.vrfTimeout >= 60 && p.payoutTimeout >= 600 && p.closeBuffer < p.roundSeconds
    && p.ticketsPerUsdc > 0 && p.registrationWindow < p.epochSeconds
  }

  /** A pool is created if and only if its parameters are acceptable. It starts with the game and the jackpot paused, with
      the House as its only player, without an epoch, a round, a Ticket or any money. */
  lemma CreatesPoolExactly(params: Params, house: Key, now: clock)
    ensures C.CreatePool(params, house, now).Ok? <==> Acceptable(params)
    ensures C.CreatePool(params, house, now).Ok? ==>
              var s := C.CreatePool(params, house, now).value;
              && s.pool.params == params && s.pool.house == house && s.now == now && !s.pool.shutdown
              && (s.pool.paused, s.pool.gamePaused, s.pool.jackpotPaused) == (false, true, true)
              && s.players.Keys == {house} && s.players[house].isHouse && s.players[house].lastUpdate == now
              && SeenIn(s, house) == Seen(BLANK_PLAYER, 0).(isHouse := true)
              && s.epochs == map[] && s.rounds == map[] && s.pool.currentEpochId == 0 && s.pool.nextRoundId == 1
              && s.pool.openRoundId == s.pool.carryPot == s.principalVault == s.jackpotVault == 0
              && s.pool.totalPrincipal == s.pool.pendingWithdrawals == s.pool.jackpotReserved == s.pool.yieldBudget == 0
              && s.pool.bonusEpoch == s.pool.bonusGranted == 0
  {
  }
}
