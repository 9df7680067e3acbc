/** The program as it runs: accounts are loaded, changed step by step, and written back when the instruction
    succeeds. Every instruction is proved to compute its specification, success or abort. */
module Vault {
  import opened Machine
  import opened Ledger
  import opened Touching
  import opened Boards
  import C = Custody
  import E = Epochs
  import R = Rounds
  import P = Program
  import I = Invariant
  import Vrf

  /** The instruction is one step of the run so far: it commits that step, or reports why there is none and leaves
      everything as it was. */
  ghost predicate Takes(before: P.World, i: P.Instr, outcome: Result<()>, after: P.World) {
    && after == P.Next(before, i)
    && outcome == match P.Step(before.s, i) case Ok(_) => Ok(()) case Err(e) => Err(e)
  }

  lemma Committed(w: P.World, i: P.Instr, t: State)
    requires P.Reachable(w) && P.Step(w.s, i) == Ok(t)
    ensures P.Next(w, i).s == t && P.Reachable(P.Next(w, i))
  {
    hide P.Reachable, P.Step, P.MeterNext, P.LogNext;
    I.ReachableNext(w, i);
  }

  /** `touch`: both accumulators are brought up to now; across a boundary they are frozen and restarted. */
  method TouchPlayer(account: Player, pool: Pool, now: i64) returns (r: Result<Player>)
    ensures r == Touch(account, pool, now)
  {
    var player := account;
    if player.epochId >= pool.currentEpochId {
      var accrueUntil := now;
      if pool.currentEpochId != 0 { accrueUntil := Min(now, pool.currentEpochEndsAt); }
      var tail := Elapsed(player.lastUpdate, accrueUntil);
      var earned :- WeightOf(player.entries, tail);
      var weightAcc :- U128(player.weightAcc + earned);
      player := player.(weightAcc := weightAcc);
      var held :- WeightOf(player.principal, tail);
      var principalAcc :- U128(player.principalAcc + held);
      player := player.(principalAcc := principalAcc);
      return Ok(player.(lastUpdate := now));
    }
    var previousId := pool.currentEpochId - 1;
    if player.epochId == previousId {
      var tail := Elapsed(player.lastUpdate, pool.previousEpochEndsAt);
      var earned :- WeightOf(player.entries, tail);
      var frozenWeight :- U128(player.weightAcc + earned);
      player := player.(frozenWeight := frozenWeight);
      var held :- WeightOf(player.principal, tail);
      var frozenPrincipalAcc :- U128(player.principalAcc + held);
      player := player.(frozenPrincipalAcc := frozenPrincipalAcc);
    } else {
      var idle :- WeightOf(player.principal, Elapsed(pool.previousEpochStart, pool.previousEpochEndsAt));
      player := player.(frozenWeight := idle, frozenPrincipalAcc := idle);
    }
    player := player.(frozenEpoch := previousId);
    player := player.(entries := player.principal);
    var head :- WeightOf(player.principal, Elapsed(pool.currentEpochStart, Min(now, pool.currentEpochEndsAt)));
    player := player.(weightAcc := head, principalAcc := head);
    player := player.(lastUpdate := now, epochId := pool.currentEpochId);
    return Ok(player);
  }

  /** The loop of `buy_position` over the board. */
  method AddToTiles(board: Board, position: Position) returns (r: Result<Board>)
    ensures r == R.Staked(board, position)
  {
    var tiles: seq<u64> := board;
    var tile := 0;
    while tile < TILE_COUNT
      invariant 0 <= tile <= TILE_COUNT && |tiles| == TILE_COUNT
      invariant forall t :: 0 <= t < tile ==> tiles[t] == board[t] + StakeOn(position, t)
      invariant forall t :: tile <= t < TILE_COUNT ==> tiles[t] == board[t]
    {
      if TileIsCovered(position.tiles, tile) {
        if tiles[tile] + position.stakePerTile > U64_MAX {
          assert board[tile] + StakeOn(position, tile) > U64_MAX;
          return Err(ArithmeticOverflow);
        }
        tiles := tiles[tile := tiles[tile] + position.stakePerTile];
      }
      tile := tile + 1;
    }
    assert tiles == R.Staked(board, position).value;
    return Ok(tiles);
  }

  /** `credit_yield`: touched on the balance before the credit, and only when there is a credit. */
  method CreditYield(poolIn: Pool, playerIn: Player, principalSeconds: u128, now: i64)
    returns (r: Result<(Pool, Player)>)
    ensures r == E.CreditYield(poolIn, playerIn, principalSeconds, now)
  {
    hide Touch, E.YieldFor;
    var pool, player := poolIn, playerIn;
    var desired :- E.YieldFor(principalSeconds, pool.params.baseRateBps);
    var credited: u64 := Min(desired, pool.yieldBudget);
    if credited > 0 {
      player :- TouchPlayer(player, pool, now);
    }
    var principal :- U64(player.principal + credited);
    player := player.(principal := principal);
    var entries :- U64(player.entries + credited);
    player := player.(entries := entries);
    var total :- U64(pool.totalPrincipal + credited);
    pool := pool.(totalPrincipal := total);
    pool := pool.(yieldBudget := pool.yieldBudget - credited);
    return Ok((pool, player));
  }

  /** `set_params`, the fields that are lengths of time. */
  method SetClocks(params: Params, u: C.ParamsUpdate) returns (r: Result<Params>)
    ensures r == if C.AtLeast(u.epochSeconds, 1) && C.AtLeast(u.epochAnchor, 1) && C.AtLeast(u.roundSeconds, 1)
                    && C.AtLeast(u.closeBuffer, 0) && C.AtLeast(u.vrfTimeout, C.MIN_VRF_TIMEOUT)
                    && (u.closeBuffer.Some? ==> u.closeBuffer.value < C.Or(u.roundSeconds, params.roundSeconds))
                 then Ok(params.(epochSeconds := C.Or(u.epochSeconds, params.epochSeconds),
                                 epochAnchor := C.Or(u.epochAnchor, params.epochAnchor),
                                 roundSeconds := C.Or(u.roundSeconds, params.roundSeconds),
                                 closeBuffer := C.Or(u.closeBuffer, params.closeBuffer),
                                 vrfTimeout := C.Or(u.vrfTimeout, params.vrfTimeout)))
                 else Err(InvalidParameter)
  {
    var p := params;
    if u.epochSeconds.Some? {
      :- Require(u.epochSeconds.value > 0, InvalidParameter);
      p := p.(epochSeconds := u.epochSeconds.value);
    }
    if u.epochAnchor.Some? {
      :- Require(u.epochAnchor.value > 0, InvalidParameter);
      p := p.(epochAnchor := u.epochAnchor.value);
    }
    if u.roundSeconds.Some? {
      :- Require(u.roundSeconds.value > 0, InvalidParameter);
      p := p.(roundSeconds := u.roundSeconds.value);
    }
    if u.closeBuffer.Some? {
      :- Require(0 <= u.closeBuffer.value < p.roundSeconds, InvalidParameter);
      p := p.(closeBuffer := u.closeBuffer.value);
    }
    if u.vrfTimeout.Some? {
      :- Require(u.vrfTimeout.value >= C.MIN_VRF_TIMEOUT, InvalidParameter);
      p := p.(vrfTimeout := u.vrfTimeout.value);
    }
    return Ok(p);
  }

  /** `set_params`, the deposit, cut, prize and payout fields. */
  method SetAmounts(params: Params, u: C.ParamsUpdate) returns (r: Result<Params>)
    ensures r == if C.AtMost(u.houseCutBps, BPS_DENOMINATOR) && C.AtLeast(u.payoutTimeout, C.MIN_PAYOUT_TIMEOUT)
                 then Ok(params.(minDeposit := C.Or(u.minDeposit, params.minDeposit),
                                 houseCutBps := C.Or(u.houseCutBps, params.houseCutBps),
                                 minJackpot := C.Or(u.minJackpot, params.minJackpot),
                                 payoutTimeout := C.Or(u.payoutTimeout, params.payoutTimeout)))
                 else Err(InvalidParameter)
  {
    var p := params;
    if u.minDeposit.Some? { p := p.(minDeposit := u.minDeposit.value); }
    if u.houseCutBps.Some? {
      :- Require(u.houseCutBps.value <= BPS_DENOMINATOR, InvalidParameter);
      p := p.(houseCutBps := u.houseCutBps.value);
    }
    if u.minJackpot.Some? { p := p.(minJackpot := u.minJackpot.value); }
    if u.payoutTimeout.Some? {
      :- Require(u.payoutTimeout.value >= C.MIN_PAYOUT_TIMEOUT, InvalidParameter);
      p := p.(payoutTimeout := u.payoutTimeout.value);
    }
    return Ok(p);
  }

  /** `set_params`, the rates. */
  method SetRates(params: Params, u: C.ParamsUpdate) returns (r: Result<Params>)
    ensures r == if C.AtMost(u.baseRateBps, BPS_DENOMINATOR) && C.AtLeast(u.ticketsPerUsdc, 1)
                    && C.AtMost(u.bonusCapBps, BPS_DENOMINATOR)
                 then Ok(params.(baseRateBps := C.Or(u.baseRateBps, params.baseRateBps),
                                 ticketsPerUsdc := C.Or(u.ticketsPerUsdc, params.ticketsPerUsdc),
                                 bonusCapBps := C.Or(u.bonusCapBps, params.bonusCapBps)))
                 else Err(InvalidParameter)
  {
    var p := params;
    if u.baseRateBps.Some? {
      :- Require(u.baseRateBps.value <= BPS_DENOMINATOR, InvalidParameter);
      p := p.(baseRateBps := u.baseRateBps.value);
    }
    if u.ticketsPerUsdc.Some? {
      :- Require(u.ticketsPerUsdc.value > 0, InvalidParameter);
      p := p.(ticketsPerUsdc := u.ticketsPerUsdc.value);
    }
    if u.bonusCapBps.Some? {
      :- Require(u.bonusCapBps.value <= BPS_DENOMINATOR, InvalidParameter);
      p := p.(bonusCapBps := u.bonusCapBps.value);
    }
    return Ok(p);
  }

  // Which instruction a step dispatches to.

  lemma PayoutStep(s: State, id: nat, k: Key)
    ensures P.Step(s, P.Epochal(P.Payout(id, k))) == E.Payout(s, id, k)
  {
    hide E.Payout;
  }

  lemma BeginEpochStep(s: State, signer: Signer)
    ensures P.Step(s, P.Epochal(P.BeginEpoch(signer))) == E.BeginEpoch(s, signer)
  {
    hide E.BeginEpoch;
  }

  lemma BuyPositionStep(s: State, id: nat, k: Key, tiles: u64, stakePerTile: u64)
    ensures P.Step(s, P.Game(P.BuyPosition(id, k, tiles, stakePerTile))) == R.BuyPosition(s, id, k, tiles, stakePerTile)
  {
    hide R.BuyPosition;
  }

  lemma SettlePositionStep(s: State, id: nat, k: Key)
    ensures P.Step(s, P.Game(P.SettlePosition(id, k))) == R.SettlePosition(s, id, k)
  {
    hide R.SettlePosition;
  }

  lemma DepositStep(s: State, k: Key, amount: u64)
    ensures P.Step(s, P.Custodial(P.Deposit(k, amount))) == C.Deposit(s, k, amount)
  {
    hide C.Deposit;
  }

  lemma EmergencyStep(s: State, k: Key)
    ensures P.Step(s, P.Custodial(P.EmergencyWithdraw(k))) == C.EmergencyWithdraw(s, k)
  {
    hide C.EmergencyWithdraw;
  }

  class HexVault {
    var pool: Pool
    var players: map<Key, Player>
    var epochs: map<nat, Epoch>
    var rounds: map<nat, Round>
    var principalVault: u64
    var jackpotVault: u64
    var now: clock

    /** The run that led here, and what the observer wrote down along it. */
    ghost var world: P.World

    /** The accounts are those of a world that some run of some pool reaches. Every property of reachable worlds is a
        property of a valid object. */
    ghost predicate Valid()
      reads this
    {
      world.s == View() && P.Reachable(world)
    }

    function View(): State
      reads this
    {
      State(pool, players, epochs, rounds, principalVault, jackpotVault, now)
    }

    /** `create_pool`, with parameters that it accepts. */
    constructor (params: Params, house: Key, at: clock)
      requires C.CreatePool(params, house, at).Ok?
      ensures C.CreatePool(params, house, at) == Ok(View())
      ensures Valid() && world == P.Genesis(View())
    {
      pool := Pool(params, house, false, true, true, false, 0, 0, 0, 0, 0, 1, 0, 0, 0, 0, 0, 0, 0, 0);
      players := map[house := BLANK_PLAYER.(lastUpdate := at, isHouse := true)];
      epochs, rounds := map[], map[];
      principalVault, jackpotVault := 0, 0;
      now := at;
      world := P.Genesis(C.CreatePool(params, house, at).value);
      new;
      hide P.Reachable;
      I.GenesisReachable(params, house, at);
    }

    /** Writes the instruction that was just carried out into the run. */
    ghost method Record(i: P.Instr)
      requires P.Reachable(world) && P.Step(world.s, i) == Ok(View())
      modifies this`world
      ensures Valid() && world == P.Next(old(world), i)
    {
      hide P.Reachable, P.Step, P.Next;
      Committed(world, i, View());
      world := P.Next(world, i);
    }

    /** Time passes. */
    method Tick(until: clock) returns (r: Result<()>)
      requires Valid()
      modifies this
      ensures Valid() && Takes(old(world), P.Tick(until), r, world)
    {
      hide P.Reachable, P.Observe;
      if until < now {
        return Err(ClockWentBack);
      }
      now := until;
      Record(P.Tick(until));
      return Ok(());
    }

    // ----- custody -----

    method SetParams(signer: Signer, u: C.ParamsUpdate) returns (r: Result<()>)
      requires Valid()
      modifies this
      ensures Valid() && Takes(old(world), P.Custodial(P.SetParams(signer, u)), r, world)
    {
      hide P.Reachable, P.Observe;
      r := Ok(());
      :- Require(signer.admin, Unauthorized);
      var clocks :- SetClocks(pool.params, u);
      var amounts :- SetAmounts(clocks, u);
      var p :- SetRates(amounts, u);
      var window: i64 := p.registrationWindow;
      if u.registrationWindow.Some? { window := u.registrationWindow.value; }
      :- Require(0 <= window < p.epochSeconds, InvalidParameter);
      p := p.(registrationWindow := window);
      :- Require(p.payoutTimeout < p.epochSeconds, InvalidParameter);
      :- Require(p.roundSeconds > p.closeBuffer, InvalidParameter);
      pool := pool.(params := p);
      Record(P.Custodial(P.SetParams(signer, u)));
    }

    method SetPause(signer: Signer, paused: bool) returns (r: Result<()>)
      requires Valid()
      modifies this
      ensures Valid() && Takes(old(world), P.Custodial(P.SetPause(signer, paused)), r, world)
    {
      hide P.Reachable, P.Observe;
      r := Ok(());
      :- Require(signer.admin || (paused && signer.operator), Unauthorized);
      :- Require(paused || !pool.shutdown, PoolShutDown);
      pool := pool.(paused := paused);
      Record(P.Custodial(P.SetPause(signer, paused)));
    }

    method SetFeaturePause(signer: Signer, feature: C.PauseFeature, paused: bool) returns (r: Result<()>)
      requires Valid()
      modifies this
      ensures Valid() && Takes(old(world), P.Custodial(P.SetFeaturePause(signer, feature, paused)), r, world)
    {
      hide P.Reachable, P.Observe;
      r := Ok(());
      :- Require(signer.admin || (paused && signer.operator), Unauthorized);
      :- Require(paused || !pool.shutdown, PoolShutDown);
      match feature {
        case Game => pool := pool.(gamePaused := paused);
        case Jackpot => pool := pool.(jackpotPaused := paused);
      }
      Record(P.Custodial(P.SetFeaturePause(signer, feature, paused)));
    }

    method Shutdown(signer: Signer) returns (r: Result<()>)
      requires Valid()
      modifies this
      ensures Valid() && Takes(old(world), P.Custodial(P.Shutdown(signer)), r, world)
    {
      hide P.Reachable, P.Observe;
      r := Ok(());
      :- Require(signer.admin, Unauthorized);
      :- Require(!pool.shutdown, PoolShutDown);
      pool := pool.(shutdown := true);
      pool := pool.(paused := true, gamePaused := true, jackpotPaused := true);
      Record(P.Custodial(P.Shutdown(signer)));
    }

    method Deposit(k: Key, amount: u64) returns (r: Result<()>)
      requires Valid()
      modifies this
      ensures Valid() && Takes(old(world), P.Custodial(P.Deposit(k, amount)), r, world)
      ensures r.Ok? ==> k in players && principalVault == old(principalVault) + amount
      ensures r.Ok? ==> players[k].principal == amount + old(if k in players then players[k].principal else 0)
    {
      hide P.Reachable, P.Observe, P.Step, Touch;
      DepositStep(world.s, k, amount);
      var player := FreshPlayer(pool, now);
      if k in players { player := players[k]; }
      ghost var account := player;
      player :- TouchPlayer(player, pool, now);
      TouchKeeps(account, pool, now);
      :- Require(!player.isHouse, HouseCannotDeposit);
      :- Require(!pool.shutdown, PoolShutDown);
      :- Require(!pool.paused, PoolPaused);
      :- Require(amount >= pool.params.minDeposit, BelowMinimumDeposit);
      var vault :- U64(principalVault + amount);
      var principal :- U64(player.principal + amount);
      player := player.(principal := principal);
      var entries :- U64(player.entries + amount);
      player := player.(entries := entries);
      var total :- U64(pool.totalPrincipal + amount);
      pool := pool.(totalPrincipal := total);
      players := players[k := player];
      principalVault := vault;
      Record(P.Custodial(P.Deposit(k, amount)));
      return Ok(());
    }

    method RequestWithdraw(k: Key, amount: u64) returns (r: Result<()>)
      requires Valid()
      modifies this
      ensures Valid() && Takes(old(world), P.Custodial(P.RequestWithdraw(k, amount)), r, world)
    {
      hide P.Reachable, P.Observe, Touch;
      :- Require(k in players, AccountMissing);
      var player := players[k];
      player :- TouchPlayer(player, pool, now);
      :- Require(amount > 0, ZeroAmount);
      :- Require(player.principal >= amount, InsufficientPrincipal);
      player := player.(principal := player.principal - amount);
      player := player.(entries := SatSub(player.entries, amount));
      var total :- U64(pool.totalPrincipal - amount);
      var pending :- U64(player.pendingWithdraw + amount);
      player := player.(pendingWithdraw := pending);
      var pendings :- U64(pool.pendingWithdrawals + amount);
      player := player.(pendingEpoch := pool.currentEpochId, requestedAt := now);
      pool := pool.(totalPrincipal := total, pendingWithdrawals := pendings);
      players := players[k := player];
      Record(P.Custodial(P.RequestWithdraw(k, amount)));
      return Ok(());
    }

    method ProcessWithdraw(k: Key) returns (r: Result<()>)
      requires Valid()
      modifies this
      ensures Valid() && Takes(old(world), P.Custodial(P.ProcessWithdraw(k)), r, world)
    {
      hide P.Reachable, P.Observe;
      r := Ok(());
      :- Require(k in players, AccountMissing);
      var player := players[k];
      var amount := player.pendingWithdraw;
      :- Require(amount > 0, NothingPending);
      var deadline :- I64(player.requestedAt + pool.params.epochSeconds);
      :- Require(pool.shutdown || pool.currentEpochId > player.pendingEpoch || now > deadline, WithdrawalNotDue);
      :- Require(principalVault >= amount, InsufficientVaultLiquidity);
      var pendings :- U64(pool.pendingWithdrawals - amount);
      principalVault := principalVault - amount;
      players := players[k := player.(pendingWithdraw := 0)];
      pool := pool.(pendingWithdrawals := pendings);
      Record(P.Custodial(P.ProcessWithdraw(k)));
    }

    method AdminWithdraw(signer: Signer, amount: u64) returns (r: Result<()>)
      requires Valid()
      modifies this
      ensures Valid() && Takes(old(world), P.Custodial(P.AdminWithdraw(signer, amount)), r, world)
    {
      hide P.Reachable, P.Observe;
      r := Ok(());
      :- Require(signer.admin, Unauthorized);
      :- Require(amount > 0, ZeroAmount);
      :- Require(principalVault >= amount, InsufficientVaultLiquidity);
      var remaining := principalVault - amount;
      :- Require(remaining >= pool.pendingWithdrawals, BelowPendingWithdrawals);
      principalVault := remaining;
      Record(P.Custodial(P.AdminWithdraw(signer, amount)));
    }

    /** A plain token transfer into the principal vault. */
    method TransferIn(amount: u64) returns (r: Result<()>)
      requires Valid()
      modifies this
      ensures Valid() && Takes(old(world), P.Custodial(P.TransferIn(amount)), r, world)
    {
      hide P.Reachable, P.Observe;
      var vault :- U64(principalVault + amount);
      principalVault := vault;
      Record(P.Custodial(P.TransferIn(amount)));
      return Ok(());
    }

    method EmergencyWithdraw(k: Key) returns (r: Result<()>)
      requires Valid()
      modifies this
      ensures Valid() && Takes(old(world), P.Custodial(P.EmergencyWithdraw(k)), r, world)
      ensures r.Ok? ==> k in old(players) && k in players
      ensures r.Ok? ==> principalVault == old(principalVault - players[k].principal - players[k].pendingWithdraw)
      ensures r.Ok? ==> players[k].principal == players[k].pendingWithdraw == players[k].entries == 0
    {
      hide P.Reachable, P.Observe, P.Step, Touch;
      EmergencyStep(world.s, k);
      :- Require(k in players, AccountMissing);
      var player := players[k];
      ghost var account := player;
      player :- TouchPlayer(player, pool, now);
      TouchKeeps(account, pool, now);
      :- Require(pool.shutdown, PoolNotShutDown);
      :- Require(!player.isHouse, HouseCannotEmergencyWithdraw);
      var principal: int, pending: int := player.principal, player.pendingWithdraw;
      var claim :- U64(principal + pending);
      :- Require(claim > 0, ZeroAmount);
      :- Require(principalVault >= claim, InsufficientVault);
      player := player.(principal := 0, entries := 0, pendingWithdraw := 0);
      var total :- U64(pool.totalPrincipal - principal);
      var pendings :- U64(pool.pendingWithdrawals - pending);
      pool := pool.(totalPrincipal := total, pendingWithdrawals := pendings);
      players := players[k := player];
      principalVault := principalVault - claim;
      Record(P.Custodial(P.EmergencyWithdraw(k)));
      return Ok(());
    }

    method SweepHouse(signer: Signer) returns (r: Result<()>)
      requires Valid()
      modifies this
      ensures Valid() && Takes(old(world), P.Custodial(P.SweepHouse(signer)), r, world)
    {
      hide P.Reachable, P.Observe;
      r := Ok(());
      :- Require(signer.admin, Unauthorized);
      :- Require(pool.shutdown, PoolNotShutDown);
      var jackpot := SatSub(jackpotVault, pool.jackpotReserved);
      if jackpot > 0 { jackpotVault := jackpotVault - jackpot; }
      var spare := SatSub(SatSub(principalVault, pool.totalPrincipal), pool.pendingWithdrawals);
      var swept := Min(pool.yieldBudget, spare);
      if swept > 0 {
        principalVault := principalVault - swept;
        pool := pool.(yieldBudget := pool.yieldBudget - swept);
      }
      Record(P.Custodial(P.SweepHouse(signer)));
    }

    method BuyTickets(k: Key, amount: u64) returns (r: Result<()>)
      requires Valid()
      modifies this
      ensures Valid() && Takes(old(world), P.Custodial(P.BuyTickets(k, amount)), r, world)
    {
      hide P.Reachable, P.Observe, Touch, C.CounterAfter;
      :- Require(k in players, AccountMissing);
      var player := players[k];
      player :- TouchPlayer(player, pool, now);
      :- Require(!pool.shutdown, PoolShutDown);
      :- Require(!pool.paused, PoolPaused);
      :- Require(pool.currentEpochId > 0, NoEpochYet);
      :- Require(!pool.jackpotPaused, JackpotPaused);
      :- Require(amount > 0, ZeroAmount);
      :- Require(!player.isHouse, HouseCannotBuyTickets);
      var bought :- C.CounterAfter(player.boughtEpoch, player.boughtAmount, pool.currentEpochId, player.principal, amount,
                                   DailyBuyCapExceeded);
      player := player.(boughtEpoch := pool.currentEpochId, boughtAmount := bought);
      var vault :- U64(jackpotVault + amount);
      var tickets :- U64(amount * pool.params.ticketsPerUsdc);
      var entries :- U64(player.entries + tickets);
      player := player.(entries := entries);
      jackpotVault := vault;
      players := players[k := player];
      Record(P.Custodial(P.BuyTickets(k, amount)));
      return Ok(());
    }

    method GrantTickets(signer: Signer, k: Key, amount: u64) returns (r: Result<()>)
      requires Valid()
      modifies this
      ensures Valid() && Takes(old(world), P.Custodial(P.GrantTickets(signer, k, amount)), r, world)
    {
      hide P.Reachable, P.Observe, Touch, C.CounterAfter, C.PoolBonusCap;
      :- Require(signer.admin || signer.operator, Unauthorized);
      :- Require(k in players, AccountMissing);
      var player := players[k];
      player :- TouchPlayer(player, pool, now);
      :- Require(!pool.shutdown, PoolShutDown);
      :- Require(!pool.paused, PoolPaused);
      :- Require(!pool.jackpotPaused, JackpotPaused);
      :- Require(amount > 0, ZeroAmount);
      var granting := pool;
      if !signer.admin {
        :- Require(!player.isHouse, HouseCannotBeGranted);
        var mine :- C.CounterAfter(player.bonusEpoch, player.bonusGranted, pool.currentEpochId, player.principal, amount,
                                   DailyPlayerGrantCapExceeded);
        var cap := C.PoolBonusCap(pool.totalPrincipal, pool.params.bonusCapBps);
        var all :- C.CounterAfter(pool.bonusEpoch, pool.bonusGranted, pool.currentEpochId, cap, amount,
                                  DailyPoolGrantCapExceeded);
        player := player.(bonusEpoch := pool.currentEpochId, bonusGranted := mine);
        granting := granting.(bonusEpoch := pool.currentEpochId, bonusGranted := all);
      }
      var entries :- U64(player.entries + amount);
      players := players[k := player.(entries := entries)];
      pool := granting;
      Record(P.Custodial(P.GrantTickets(signer, k, amount)));
      return Ok(());
    }

    // ----- epochs -----

    method BeginEpoch(signer: Signer) returns (r: Result<()>)
      requires Valid()
      modifies this
      ensures Valid() && Takes(old(world), P.Epochal(P.BeginEpoch(signer)), r, world)
    {
      hide P.Reachable, P.Observe, P.Step, E.GridFloor;
      BeginEpochStep(world.s, signer);
      :- Require(signer.operator, Unauthorized);
      :- Require(!pool.shutdown, PoolShutDown);
      :- Require(!pool.jackpotPaused, JackpotPaused);
      var current: nat := pool.currentEpochId;
      if current >= 2 {
        :- Require(current - 1 in epochs, PreviousEpochStillDrawing);
        var status := epochs[current - 1].status;
        :- Require(!status.Drawing? && !status.Drawn?, PreviousEpochStillDrawing);
      }
      var startsAt: i64 := now;
      var accounts := epochs;
      if current != 0 {
        :- Require(current in epochs, AccountMissing);
        var previous := epochs[current];
        :- Require(now >= previous.endsAt, EpochNotEnded);
        accounts := accounts[current := previous.(status := Registering, registrationOpenedAt := now)];
        var floor :- E.GridFloor(pool.params.epochAnchor, pool.params.epochSeconds, now);
        startsAt := Max(previous.endsAt, floor);
      }
      var floor :- E.GridFloor(pool.params.epochAnchor, pool.params.epochSeconds, startsAt);
      var endsAt :- I64(floor + pool.params.epochSeconds);
      var id :- U64(current + 1);
      :- Require(id !in epochs, AccountExists);
      pool := pool.(previousEpochStart := pool.currentEpochStart, currentEpochStart := startsAt);
      pool := pool.(previousEpochEndsAt := pool.currentEpochEndsAt, currentEpochEndsAt := endsAt);
      pool := pool.(currentEpochId := id);
      epochs := accounts[id := E.NewEpoch(startsAt, endsAt)];
      Record(P.Epochal(P.BeginEpoch(signer)));
      return Ok(());
    }

    method Register(id: nat, k: Key) returns (r: Result<()>)
      requires Valid()
      modifies this
      ensures Valid() && Takes(old(world), P.Epochal(P.Register(id, k)), r, world)
    {
      hide P.Reachable, P.Observe, Touch, E.WeightAndPrincipalSeconds, E.CreditYield;
      :- Require(id in epochs && k in players, AccountMissing);
      var epoch, player, credited := epochs[id], players[k], pool;
      :- Require(epoch.status.Registering?, EpochNotRegistering);
      :- Require(pool.currentEpochId > 0 && id == pool.currentEpochId - 1, NotPreviousEpoch);
      :- Require(player.regEpoch != id, AlreadyRegistered);
      var owed :- E.WeightAndPrincipalSeconds(id, epoch, player);
      if player.yieldEpoch != id {
        var credit :- CreditYield(pool, player, owed.1, now);
        credited := credit.0;
        player := credit.1.(yieldEpoch := id);
      }
      if owed.0 == 0 {
        pool := credited;
        players := players[k := player];
        Record(P.Epochal(P.Register(id, k)));
        return Ok(());
      }
      var regStart: nat := epoch.registeredWeight;
      var regEnd :- U128(regStart + owed.0);
      player := player.(regEpoch := id, regStart := regStart, regEnd := regEnd);
      epoch := epoch.(registeredWeight := regEnd);
      var count :- U32(epoch.registeredCount + 1);
      epoch := epoch.(registeredCount := count);
      pool := credited;
      players := players[k := player];
      epochs := epochs[id := epoch];
      Record(P.Epochal(P.Register(id, k)));
      return Ok(());
    }

    method FundJackpot(amount: u64) returns (r: Result<()>)
      requires Valid()
      modifies this
      ensures Valid() && Takes(old(world), P.Epochal(P.FundJackpot(amount)), r, world)
    {
      hide P.Reachable, P.Observe;
      var vault :- U64(jackpotVault + amount);
      jackpotVault := vault;
      Record(P.Epochal(P.FundJackpot(amount)));
      return Ok(());
    }

    method FundYield(amount: u64) returns (r: Result<()>)
      requires Valid()
      modifies this
      ensures Valid() && Takes(old(world), P.Epochal(P.FundYield(amount)), r, world)
    {
      hide P.Reachable, P.Observe;
      r := Ok(());
      :- Require(!pool.shutdown, PoolShutDown);
      var vault :- U64(principalVault + amount);
      var budget :- U64(pool.yieldBudget + amount);
      principalVault := vault;
      pool := pool.(yieldBudget := budget);
      Record(P.Epochal(P.FundYield(amount)));
    }

    method CloseRegistration(signer: Signer, id: nat) returns (r: Result<()>)
      requires Valid()
      modifies this
      ensures Valid() && Takes(old(world), P.Epochal(P.CloseRegistration(signer, id)), r, world)
    {
      hide P.Reachable, P.Observe;
      r := Ok(());
      :- Require(signer.operator, Unauthorized);
      :- Require(id in epochs, AccountMissing);
      var epoch := epochs[id];
      :- Require(!pool.shutdown, PoolShutDown);
      :- Require(!pool.jackpotPaused, JackpotPaused);
      :- Require(epoch.status.Registering?, EpochNotRegistering);
      var openedAt := Max(epoch.registrationOpenedAt, epoch.endsAt);
      var closesAt :- I64(openedAt + pool.params.registrationWindow);
      :- Require(now >= closesAt, RegistrationWindowOpen);
      var prize: u64 := SatSub(jackpotVault, pool.jackpotReserved);
      epoch := epoch.(jackpotAmount := prize);
      if epoch.registeredWeight == 0 || prize < pool.params.minJackpot {
        epochs := epochs[id := epoch.(status := RolledOver)];
        Record(P.Epochal(P.CloseRegistration(signer, id)));
        return Ok(());
      }
      epoch := epoch.(status := Drawing, requestedAt := now);
      pool := pool.(jackpotReserved := pool.jackpotReserved + prize);
      epochs := epochs[id := epoch];
      Record(P.Epochal(P.CloseRegistration(signer, id)));
    }

    /** The oracle answers a pending draw. */
    method FulfilDraw(id: nat, samples: Samples) returns (r: Result<()>)
      requires Valid()
      modifies this
      ensures Valid() && Takes(old(world), P.Epochal(P.FulfilDraw(id, samples)), r, world)
    {
      hide P.Reachable, P.Observe;
      if id !in epochs || !epochs[id].status.Drawing? || epochs[id].oracle.Some? {
        return Err(RandomnessNotFulfilled);
      }
      epochs := epochs[id := epochs[id].(oracle := Some(samples))];
      Record(P.Epochal(P.FulfilDraw(id, samples)));
      return Ok(());
    }

    method Draw(id: nat) returns (r: Result<()>)
      requires Valid()
      modifies this
      ensures Valid() && Takes(old(world), P.Epochal(P.Draw(id)), r, world)
    {
      hide P.Reachable, P.Observe, Vrf.Unbiased;
      :- Require(id in epochs, AccountMissing);
      var epoch := epochs[id];
      :- Require(epoch.status.Drawing?, EpochNotDrawing);
      :- Require(epoch.oracle.Some?, RandomnessNotFulfilled);
      var target :- Vrf.DrawBelow(epoch.oracle.value, U128_MAX, epoch.registeredWeight);
      var point :- U128(target);
      epoch := epoch.(target := point);
      epoch := epoch.(status := Drawn, drawnAt := now);
      epochs := epochs[id := epoch];
      Record(P.Epochal(P.Draw(id)));
      return Ok(());
    }

    method Payout(id: nat, k: Key) returns (r: Result<()>)
      requires Valid()
      modifies this
      ensures Valid() && Takes(old(world), P.Epochal(P.Payout(id, k)), r, world)
    {
      hide P.Reachable, P.Observe, P.Step, Touch;
      PayoutStep(world.s, id, k);
      :- Require(id in epochs && k in players, AccountMissing);
      var epoch, player := epochs[id], players[k];
      :- Require(epoch.status.Drawn?, EpochNotDrawn);
      :- Require(player.regEpoch == id, NotRegistered);
      :- Require(player.regStart <= epoch.target < player.regEnd, NotTheWinner);
      var amount := epoch.jackpotAmount;
      if player.isHouse {
        var half, fifth := amount / 2, amount / 5;
        :- Require(jackpotVault >= half + fifth, InsufficientFunds);
        var reserved :- U64(pool.jackpotReserved - amount);
        pool := pool.(jackpotReserved := reserved);
        jackpotVault := jackpotVault - half - fifth;
      } else {
        player :- TouchPlayer(player, pool, now);
        :- Require(jackpotVault >= amount, InsufficientFunds);
        var vault :- U64(principalVault + amount);
        var principal :- U64(player.principal + amount);
        var entries :- U64(player.entries + amount);
        player := player.(principal := principal, entries := entries);
        var total :- U64(pool.totalPrincipal + amount);
        var reserved :- U64(pool.jackpotReserved - amount);
        pool := pool.(totalPrincipal := total, jackpotReserved := reserved);
        jackpotVault := jackpotVault - amount;
        principalVault := vault;
        players := players[k := player];
      }
      epochs := epochs[id := epoch.(winner := Some(k), status := Paid)];
      Record(P.Epochal(P.Payout(id, k)));
      return Ok(());
    }

    method RolloverEpoch(id: nat) returns (r: Result<()>)
      requires Valid()
      modifies this
      ensures Valid() && Takes(old(world), P.Epochal(P.RolloverEpoch(id)), r, world)
    {
      hide P.Reachable, P.Observe;
      r := Ok(());
      :- Require(id in epochs, AccountMissing);
      var epoch := epochs[id];
      if epoch.status.Registering? {
        :- Require(!pool.jackpotPaused, JackpotPaused);
        var openedAt := Max(epoch.registrationOpenedAt, epoch.endsAt);
        var closesAt :- I64(openedAt + pool.params.registrationWindow);
        var deadline :- I64(closesAt + pool.params.vrfTimeout);
        :- Require(now > deadline, VrfTimeoutNotElapsed);
      } else if epoch.status.Drawing? {
        :- Require(epoch.oracle.None?, RandomnessAlreadyFulfilled);
        var deadline :- I64(epoch.requestedAt + pool.params.vrfTimeout);
        :- Require(now > deadline, VrfTimeoutNotElapsed);
      } else if epoch.status.Drawn? {
        var deadline :- I64(epoch.drawnAt + pool.params.payoutTimeout);
        :- Require(now > deadline, PayoutTimeoutNotElapsed);
      } else {
        return Err(EpochNotDrawing);
      }
      var reserved :- U64(pool.jackpotReserved - epoch.jackpotAmount);
      pool := pool.(jackpotReserved := reserved);
      epochs := epochs[id := epoch.(status := RolledOver)];
      Record(P.Epochal(P.RolloverEpoch(id)));
    }

    // ----- rounds -----

    method CreateRound(signer: Signer, startsAt: i64, endsAt: i64) returns (r: Result<()>)
      requires Valid()
      modifies this
      ensures Valid() && Takes(old(world), P.Game(P.CreateRound(signer, startsAt, endsAt)), r, world)
    {
      hide P.Reachable, P.Observe;
      r := Ok(());
      :- Require(signer.operator, Unauthorized);
      :- Require(!pool.shutdown, PoolShutDown);
      :- Require(!pool.paused, PoolPaused);
      :- Require(!pool.gamePaused, GamePaused);
      :- Require(pool.openRoundId == 0, RoundAlreadyOpen);
      :- Require(endsAt - startsAt == pool.params.roundSeconds, InvalidRoundLength);
      if pool.currentEpochId != 0 {
        :- Require(pool.currentEpochId in epochs, AccountMissing);
        :- Require(endsAt <= epochs[pool.currentEpochId].endsAt, RoundOutsideEpoch);
      }
      var id: nat := pool.nextRoundId;
      :- Require(id !in rounds, AccountExists);
      var next :- U64(id + 1);
      rounds := rounds[id := R.NewRound(pool.currentEpochId, startsAt, endsAt, pool.carryPot)];
      pool := pool.(carryPot := 0);
      pool := pool.(openRoundId := id, nextRoundId := next);
      Record(P.Game(P.CreateRound(signer, startsAt, endsAt)));
    }

    method BuyPosition(id: nat, k: Key, tiles: u64, stakePerTile: u64) returns (r: Result<()>)
      requires Valid()
      modifies this
      ensures Valid() && Takes(old(world), P.Game(P.BuyPosition(id, k, tiles, stakePerTile)), r, world)
    {
      hide P.Reachable, P.Observe, P.Step, Touch, R.Staked, TileCount;
      BuyPositionStep(world.s, id, k, tiles, stakePerTile);
      :- Require(id in rounds && k in players, AccountMissing);
      var round := rounds[id];
      :- Require(k !in round.positions, AccountExists);
      var player := players[k];
      player :- TouchPlayer(player, pool, now);
      :- Require(!pool.shutdown, PoolShutDown);
      :- Require(!pool.paused, PoolPaused);
      :- Require(!pool.gamePaused, GamePaused);
      :- Require(!player.isHouse, HouseCannotPlay);
      :- Require(round.status.Live?, RoundNotOpen);
      var closeAt :- I64(round.endsAt - pool.params.closeBuffer);
      :- Require(now < closeAt, RoundClosed);
      var count :- TileCount(tiles);
      :- Require(stakePerTile >= 1, InvalidStake);
      var total: nat :- U64(stakePerTile * count);
      :- Require(player.entries >= total, InsufficientEntries);
      var remaining: nat := round.endsAt - now;
      var credited :- U128(total * remaining);
      var weightAcc :- U128(player.weightAcc + credited);
      player := player.(weightAcc := weightAcc);
      player := player.(entries := player.entries - total);
      var position := Position(tiles, stakePerTile);
      var board :- AddToTiles(round.tileTotals, position);
      round := round.(tileTotals := board);
      var pot :- U64(round.pot + total);
      round := round.(pot := pot);
      var open :- U32(round.openPositions + 1);
      round := round.(openPositions := open);
      round := round.(positions := round.positions[k := position]);
      players := players[k := player];
      rounds := rounds[id := round];
      Record(P.Game(P.BuyPosition(id, k, tiles, stakePerTile)));
      return Ok(());
    }

    method RequestRandomness(id: nat) returns (r: Result<()>)
      requires Valid()
      modifies this
      ensures Valid() && Takes(old(world), P.Game(P.RequestRandomness(id)), r, world)
    {
      hide P.Reachable, P.Observe;
      r := Ok(());
      :- Require(id in rounds, AccountMissing);
      var round := rounds[id];
      :- Require(round.status.Live?, RoundNotOpen);
      var closeAt :- I64(round.endsAt - pool.params.closeBuffer);
      :- Require(now >= closeAt, RoundNotEnded);
      round := round.(status := Requested, requestedAt := now);
      rounds := rounds[id := round];
      Record(P.Game(P.RequestRandomness(id)));
    }

    /** The oracle answers a pending round. */
    method FulfilRound(id: nat, samples: Samples) returns (r: Result<()>)
      requires Valid()
      modifies this
      ensures Valid() && Takes(old(world), P.Game(P.FulfilRound(id, samples)), r, world)
    {
      hide P.Reachable, P.Observe;
      if id !in rounds || !rounds[id].status.Requested? || rounds[id].oracle.Some? {
        return Err(RandomnessNotFulfilled);
      }
      rounds := rounds[id := rounds[id].(oracle := Some(samples))];
      Record(P.Game(P.FulfilRound(id, samples)));
      return Ok(());
    }

    method SettleRound(id: nat) returns (r: Result<()>)
      requires Valid()
      modifies this
      ensures Valid() && Takes(old(world), P.Game(P.SettleRound(id)), r, world)
    {
      hide P.Reachable, P.Observe, Touch, Vrf.Unbiased, R.HouseCut;
      :- Require(id in rounds && pool.house in players, AccountMissing);
      var round := rounds[id];
      :- Require(round.status.Requested?, RoundNotRequested);
      :- Require(round.oracle.Some?, RandomnessNotFulfilled);
      var tile :- Vrf.DrawBelow(round.oracle.value, U64_MAX, TILE_COUNT);
      :- Require(tile < TILE_COUNT, InvalidTileSelection);
      var pot := round.pot;
      var forfeited := round.tileTotals[tile] == 0;
      var houseCut := 0;
      if !forfeited { houseCut := R.HouseCut(pot, pool.params.houseCutBps); }
      var houseCredit := houseCut;
      if forfeited { houseCredit := pot; }
      if round.epochId == pool.currentEpochId && (forfeited || houseCredit > 0) {
        var house := players[pool.house];
        house :- TouchPlayer(house, pool, now);
        var entries :- U64(house.entries + houseCredit);
        players := players[pool.house := house.(entries := entries)];
      }
      if forfeited { round := round.(status := Forfeited); } else { round := round.(status := Settled); }
      round := round.(houseCut := houseCut, winningTile := tile);
      pool := pool.(openRoundId := 0);
      rounds := rounds[id := round];
      Record(P.Game(P.SettleRound(id)));
      return Ok(());
    }

    method SettlePosition(id: nat, k: Key) returns (r: Result<()>)
      requires Valid()
      modifies this
      ensures Valid() && Takes(old(world), P.Game(P.SettlePosition(id, k)), r, world)
    {
      hide P.Reachable, P.Observe, P.Step, Touch;
      SettlePositionStep(world.s, id, k);
      :- Require(id in rounds && k in players && k in rounds[id].positions, AccountMissing);
      var player, round := players[k], rounds[id];
      player :- TouchPlayer(player, pool, now);
      :- Require(round.status.Settled? || round.status.Forfeited? || round.status.Voided?, RoundNotSettled);
      var position := round.positions[k];
      var reward: u64 := 0;
      if round.epochId == pool.currentEpochId && round.status.Settled?
         && TileIsCovered(position.tiles, round.winningTile) {
        var payable :- U64(round.pot - round.houseCut);
        var scaled :- U128(payable * position.stakePerTile);
        :- Require(round.tileTotals[round.winningTile] > 0, DivisionByZero);
        reward :- U64(scaled / round.tileTotals[round.winningTile]);
      }
      if reward > 0 {
        var entries :- U64(player.entries + reward);
        player := player.(entries := entries);
      }
      var open :- U32(round.openPositions - 1);
      round := round.(openPositions := open);
      round := round.(positions := round.positions - {k});
      players := players[k := player];
      rounds := rounds[id := round];
      Record(P.Game(P.SettlePosition(id, k)));
      return Ok(());
    }

    method VoidRound(id: nat) returns (r: Result<()>)
      requires Valid()
      modifies this
      ensures Valid() && Takes(old(world), P.Game(P.VoidRound(id)), r, world)
    {
      hide P.Reachable, P.Observe;
      r := Ok(());
      :- Require(id in rounds, AccountMissing);
      var round := rounds[id];
      :- Require(round.status.Requested? || round.status.Live?, RoundNotRequested);
      if round.status.Requested? {
        :- Require(round.oracle.None?, RandomnessAlreadyFulfilled);
        var timeoutAt :- I64(round.requestedAt + pool.params.vrfTimeout);
        :- Require(now > timeoutAt, VrfTimeoutNotElapsed);
      } else {
        var timeoutAt :- I64(round.endsAt + pool.params.vrfTimeout);
        :- Require(now > timeoutAt, VrfTimeoutNotElapsed);
      }
      if round.epochId == pool.currentEpochId {
        var carry :- U64(pool.carryPot + round.pot);
        pool := pool.(carryPot := carry);
      }
      round := round.(status := Voided);
      pool := pool.(openRoundId := 0);
      rounds := rounds[id := round];
      Record(P.Game(P.VoidRound(id)));
    }

    method CloseRound(id: nat) returns (r: Result<()>)
      requires Valid()
      modifies this
      ensures Valid() && Takes(old(world), P.Game(P.CloseRound(id)), r, world)
    {
      hide P.Reachable, P.Observe;
      r := Ok(());
      :- Require(id in rounds, AccountMissing);
      :- Require(!rounds[id].status.Live? && !rounds[id].status.Requested?, RoundNotSettled);
      :- Require(rounds[id].openPositions == 0, RoundHasOpenPositions);
      rounds := rounds - {id};
      Record(P.Game(P.CloseRound(id)));
    }
  }
}
