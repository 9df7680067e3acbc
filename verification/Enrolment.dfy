/** When `register` succeeds: the exact condition of the whole instruction, and a run in which a grant made after the
    epoch keeps a player out of its draw and out of its yield. */
module Enrolment {
  import opened Machine
  import opened Ledger
  import opened Touching
  import opened Program
  import opened Shape
  import opened Books
  import opened Reserve
  import opened Meters
  import opened Draws
  import opened Yield
  import opened Games
  import opened Grants
  import opened Invariant
  import opened Accrual
  import opened Scenario
  import C = Custody
  import E = Epochs

  /** The guards of `register`: the epoch is the one just ended, still takes registrations, and has none of this
      player. */
  predicate MayEnrol(s: State, id: nat, k: Key) {
    && id in s.epochs && k in s.players && id + 1 == s.pool.currentEpochId
    && s.epochs[id].status.Registering? && s.players[k].regEpoch != id
  }

  /** Room to credit the yield of some principal-seconds: the rate on them does not overflow, and if anything is
      credited, the player can be touched, and the pool's total and the player's Tickets have room for it. */
  predicate CreditRoom(s: State, p: Player, seconds: nat) {
    var due := seconds * s.pool.params.baseRateBps;
    var credit := Min(due / E.YIELD_DENOMINATOR, s.pool.yieldBudget);
    && due <= U128_MAX && due / E.YIELD_DENOMINATOR <= U64_MAX
    && (credit > 0 ==>
          && WeightFits(p, s.pool, s.now) && s.pool.totalPrincipal + credit <= U64_MAX
          && EffectiveEntries(p, s.pool.currentEpochId) + credit <= U64_MAX)
  }

  /** Room for one more interval in the epoch's layout; a player without weight needs none. */
  predicate LayoutRoom(epoch: Epoch, weight: nat) {
    weight > 0 ==> epoch.registeredWeight + weight <= U128_MAX && epoch.registeredCount < 0xFFFF_FFFF
  }

  lemma CreditOutcome(s: State, k: Key, p: Player, seconds: u128)
    requires PlayerOk(k, p, s.pool, s.now) && p.principal <= s.pool.totalPrincipal
    requires Touch(p, s.pool, s.now).Ok? <==> WeightFits(p, s.pool, s.now)
    ensures E.CreditYield(s.pool, p, seconds, s.now).Ok? <==> CreditRoom(s, p, seconds)
    ensures E.CreditYield(s.pool, p, seconds, s.now).Err? ==>
              E.CreditYield(s.pool, p, seconds, s.now) == Err(ArithmeticOverflow)
  {
    hide Touch, WeightFits, PlayerOk;
    MulLe(0, seconds, s.pool.params.baseRateBps);
    TouchFails(p, s.pool, s.now);
    if Touch(p, s.pool, s.now).Ok? { TouchOk(k, p, s.pool, s.now); }
  }

  lemma RegisterOutcome(s: State, id: nat, k: Key, past: Meter)
    requires MayEnrol(s, id, k) && PlayerOk(k, s.players[k], s.pool, s.now)
    requires s.players[k].principal <= s.pool.totalPrincipal
    requires Touch(s.players[k], s.pool, s.now).Ok? <==> WeightFits(s.players[k], s.pool, s.now)
    requires E.WeightAndPrincipalSeconds(id, s.epochs[id], s.players[k]) == Ok((past.weight, past.principal))
    ensures E.Register(s, id, k).Ok? <==>
            && (s.players[k].yieldEpoch == id || CreditRoom(s, s.players[k], past.principal))
            && LayoutRoom(s.epochs[id], past.weight)
    ensures E.Register(s, id, k).Err? ==> E.Register(s, id, k) == Err(ArithmeticOverflow)
  {
    hide Touch, WeightFits, PlayerOk, E.WeightAndPrincipalSeconds, E.CreditYield, CreditRoom;
    CreditOutcome(s, k, s.players[k], past.principal);
  }

  /** In every reachable world `register` succeeds if and only if its guards pass, the player was there, its weight
      fits 128 bits, there is room for the yield unless it was credited before, and room in the layout. A player who
      was not there is told so; any other refusal past the guards is an overflow. */
  lemma RegisterSucceedsExactly(w: World, id: nat, k: Key)
    requires Reachable(w)
    ensures E.Register(w.s, id, k).Ok? <==>
            && MayEnrol(w.s, id, k) && k in w.past && PastOf(w, k).weight <= U128_MAX
            && (w.s.players[k].yieldEpoch == id || CreditRoom(w.s, w.s.players[k], PastOf(w, k).principal))
            && LayoutRoom(w.s.epochs[id], PastOf(w, k).weight)
    ensures MayEnrol(w.s, id, k) && E.Register(w.s, id, k).Err? ==>
              E.Register(w.s, id, k).error == if k in w.past then ArithmeticOverflow else FrozenEpochMismatch
  {
    hide Reachable, BooksOk, ReserveOk, MetersOk, DrawsOk, YieldOk, GamesOk, GrantsOk, ShapeOk, PlayerOk, Touch,
      WeightFits, E.WeightAndPrincipalSeconds, E.CreditOnce, CreditRoom, LayoutRoom;
    ReachableInv(w);
    if MayEnrol(w.s, id, k) {
      FirstIsOne(w.s, id);
      ShapePlayers(w.s);
      assert PlayerOk(k, w.s.players[k], w.s.pool, w.s.now);
      ClaimWithinTotals(w, k);
      TouchSucceedsExactly(w, k);
      WeightRefusesExactly(w, k);
      RegisterFindsIntegral(w, k);
      if E.WeightAndPrincipalSeconds(id, w.s.epochs[id], w.s.players[k]).Ok? {
        RegisterOutcome(w.s, id, k, PastOf(w, k));
      }
    }
  }

  // ----- a grant that keeps a player out -----

  const PAYING := EXAMPLE.(baseRateBps := BPS_DENOMINATOR)

  const SAVER := DEPOSITOR.(principal := 40000, entries := 40000)

  const LATE_GRANT := Custodial(GrantTickets(BOTH, 7, U64_MAX - 40000))

  /** A pool that pays 100% a year, with one depositor and a yield budget of 1. */
  ghost predicate Saving(s: State) {
    && s.pool == C.CreatePool(PAYING, 0, 1).value.pool.(gamePaused := false, jackpotPaused := false,
                                                        totalPrincipal := 40000, yieldBudget := 1)
    && s.players == map[0 := HOUSE, 7 := SAVER] && s.epochs == map[] && s.principalVault == 40001 && s.now == 1
  }

  lemma RateSet(s: State)
    requires Waiting(s)
    ensures C.SetParams(s, BOTH, UNCHANGED.(baseRateBps := Some(BPS_DENOMINATOR)))
         == Ok(s.(pool := s.pool.(params := PAYING)))
  {
  }

  lemma SavingStarts(s: State) returns (t: State)
    requires s.pool == C.CreatePool(PAYING, 0, 1).value.pool.(gamePaused := false, jackpotPaused := false,
                                                              totalPrincipal := 10)
    requires s.players == map[0 := HOUSE, 7 := DEPOSITOR] && s.principalVault == 10 && s.now == 1
    ensures C.Deposit(s, 7, 39990) == Ok(t) && t.pool == s.pool.(totalPrincipal := 40000) && t.epochs == s.epochs
    ensures t.players == map[0 := HOUSE, 7 := SAVER] && t.principalVault == 40000 && t.now == 1
  {
    hide Touch;
    StillTouch(DEPOSITOR, s.pool);
    t := C.Deposit(s, 7, 39990).value;
  }

  lemma SavingPool() returns (w: World)
    ensures Reachable(w) && Saving(w.s)
  {
    hide Reachable, C.Deposit, C.SetParams;
    w := WaitingPool();
    RateSet(w.s);
    w := Reach(w, Custodial(SetParams(BOTH, UNCHANGED.(baseRateBps := Some(BPS_DENOMINATOR)))),
               w.s.(pool := w.s.pool.(params := PAYING)));
    var t := SavingStarts(w.s);
    w := Reach(w, Custodial(Deposit(7, 39990)), t);
    w := Reach(w, Epochal(FundYield(1)), t.(principalVault := 40001, pool := t.pool.(yieldBudget := 1)));
  }

  /** Its second epoch, begun on time, with the first open for registration. */
  ghost predicate Saved(s: State) {
    && s.pool == C.CreatePool(PAYING, 0, 1).value.pool.(
         gamePaused := false, jackpotPaused := false, totalPrincipal := 40000, yieldBudget := 1, currentEpochId := 2,
         currentEpochStart := 1001, currentEpochEndsAt := 2001, previousEpochStart := 1, previousEpochEndsAt := 1001)
    && s.players == map[0 := HOUSE, 7 := SAVER] && s.epochs == map[1 := ENDED, 2 := E.NewEpoch(1001, 2001)]
    && s.now == 1001
  }

  lemma FirstSaved(s: State) returns (t: State)
    requires Saving(s)
    ensures E.BeginEpoch(s, BOTH) == Ok(t) && t.players == s.players && t.now == 1
    ensures t.pool == s.pool.(currentEpochId := 1, currentEpochStart := 1, currentEpochEndsAt := 1001)
    ensures t.epochs == map[1 := E.NewEpoch(1, 1001)]
  {
    t := E.BeginEpoch(s, BOTH).value;
  }

  lemma SecondSaved(s: State) returns (t: State)
    requires s.pool.currentEpochId == 1 && s.pool.currentEpochStart == 1 && s.pool.currentEpochEndsAt == 1001
    requires s.pool.params == PAYING && !s.pool.shutdown && !s.pool.jackpotPaused && s.now == 1001
    requires s.epochs == map[1 := E.NewEpoch(1, 1001)]
    ensures E.BeginEpoch(s, BOTH) == Ok(t) && t.players == s.players && t.now == 1001
    ensures t.pool == s.pool.(currentEpochId := 2, currentEpochStart := 1001, currentEpochEndsAt := 2001,
                              previousEpochStart := 1, previousEpochEndsAt := 1001)
    ensures t.epochs == map[1 := ENDED, 2 := E.NewEpoch(1001, 2001)]
  {
    t := E.BeginEpoch(s, BOTH).value;
  }

  lemma SavedPool() returns (w: World)
    ensures Reachable(w) && Saved(w.s)
  {
    hide Reachable, E.BeginEpoch;
    w := SavingPool();
    var t := FirstSaved(w.s);
    w := Reach(w, Epochal(BeginEpoch(BOTH)), t);
    w := Reach(w, Tick(1001), t.(now := 1001));
    t := SecondSaved(w.s);
    w := Reach(w, Epochal(BeginEpoch(BOTH)), t);
  }

  /** The player is owed a yield of 1 and a weight of 40000 times 1000 seconds, and may have both. */
  lemma SavedOwes(s: State)
    requires Saved(s)
    ensures E.WeightAndPrincipalSeconds(1, ENDED, SAVER) == Ok((40000000, 40000000))
    ensures E.YieldFor(40000000, BPS_DENOMINATOR) == Ok(1) && E.Register(s, 1, 7).Ok?
  {
    assert E.YieldFor(40000000, BPS_DENOMINATOR) == Ok(1);
    assert E.CreditYield(s.pool, SAVER, 40000000, 1001).Ok?;
  }

  lemma GrantFills(s: State) returns (t: State)
    requires Saved(s)
    ensures Step(s, LATE_GRANT) == Ok(t) && t.pool == s.pool && t.epochs == s.epochs && t.now == 1001 && 7 in t.players
    ensures var p := t.players[7];
            && p.principal == 40000 && p.entries == U64_MAX && p.regEpoch == p.yieldEpoch == 0 && p.epochId == 2
            && p.lastUpdate == 1001 && p.weightAcc == p.principalAcc == 0 && p.frozenEpoch == 1
            && p.frozenWeight == p.frozenPrincipalAcc == 40000000
  {
    t := C.GrantTickets(s, BOTH, 7, U64_MAX - 40000).value;
  }

  lemma FullCannotEnrol(s: State, p: Player)
    requires s.pool.currentEpochId == 2 && s.pool.currentEpochEndsAt == 2001 && s.now == 1001 && s.pool.yieldBudget == 1
    requires s.pool.params.baseRateBps == BPS_DENOMINATOR
    requires 1 in s.epochs && s.epochs[1] == ENDED && 7 in s.players && s.players[7] == p
    requires p.entries == U64_MAX && p.regEpoch == p.yieldEpoch == 0 && p.epochId == 2 && p.lastUpdate == 1001
    requires p.frozenEpoch == 1 && p.frozenWeight == p.frozenPrincipalAcc == 40000000
    ensures E.WeightAndPrincipalSeconds(1, s.epochs[1], p) == Ok((40000000, 40000000))
    ensures E.Register(s, 1, 7) == Err(ArithmeticOverflow)
  {
    hide Touch;
    assert E.YieldFor(40000000, BPS_DENOMINATOR) == Ok(1);
    TouchFails(p, s.pool, 1001);
    if Touch(p, s.pool, 1001).Ok? { TouchKeeps(p, s.pool, 1001); }
  }

  /** A player who may register, is owed weight and yield for the epoch just ended, and is kept out of both by a grant
      made after it: the credit no longer fits its Tickets, and `register` overflows. */
  lemma GrantKeepsOut() returns (w: World)
    ensures Reachable(w) && Reachable(Next(w, LATE_GRANT)) && MayEnrol(w.s, 1, 7) && E.Register(w.s, 1, 7).Ok?
    ensures var s := Next(w, LATE_GRANT).s;
            && MayEnrol(s, 1, 7) && E.Register(s, 1, 7) == Err(ArithmeticOverflow)
            && E.WeightAndPrincipalSeconds(1, s.epochs[1], s.players[7]) == Ok((40000000, 40000000))
  {
    hide Reachable, E.Register, E.WeightAndPrincipalSeconds, Step, MeterNext, LogNext;
    w := SavedPool();
    SavedOwes(w.s);
    var t := GrantFills(w.s);
    FullCannotEnrol(t, t.players[7]);
    ReachableNext(w, LATE_GRANT);
  }
}
