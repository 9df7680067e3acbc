/** A small pool, and short runs of it, for the results that name an input. */
module Scenario {
  import opened Machine
  import opened Ledger
  import opened Touching
  import opened Boards
  import opened Program
  import opened Invariant
  import C = Custody
  import E = Epochs
  import Vrf

  /** Epochs of 1000 seconds, and rounds as long as the clock. */
  const EXAMPLE := Params(1000, 1, I64_MAX, 0, 60, 0, 0, 0, 0, 600, 0, 1, 0)

  const BOTH := Signer(true, true)

  const DEPOSITOR: Player := BLANK_PLAYER.(lastUpdate := 1, principal := 10, entries := 10)

  const HOUSE: Player := BLANK_PLAYER.(lastUpdate := 1, isHouse := true)

  /** A parameter update that sets nothing. */
  const UNCHANGED := C.ParamsUpdate(
    None, None, None, None, None, None, None, None, None, None, None, None, None)

  function Zeros(): Samples { seq(TRIES, i => 0) }

  /** The step from `w` commits `t`, so a reachable world holds `t`. */
  lemma Reach(w: World, i: Instr, t: State) returns (v: World)
    requires Reachable(w) && Step(w.s, i) == Ok(t)
    ensures Reachable(v) && v.s == t
  {
    hide Reachable, Step, MeterNext, LogNext;
    ReachableNext(w, i);
    v := Next(w, i);
  }

  /** An open pool with one depositor and no epoch yet. */
  ghost predicate Waiting(s: State) {
    && s.pool == C.CreatePool(EXAMPLE, 0, 1).value.pool.(gamePaused := false, jackpotPaused := false, totalPrincipal := 10)
    && s.players == map[0 := HOUSE, 7 := DEPOSITOR] && s.epochs == map[] && s.rounds == map[]
    && s.principalVault == 10 && s.jackpotVault == 0 && s.now == 1
  }

  lemma WaitingPool() returns (w: World)
    ensures Reachable(w) && Waiting(w.s)
  {
    hide Reachable;
    var s := C.CreatePool(EXAMPLE, 0, 1).value;
    GenesisReachable(EXAMPLE, 0, 1);
    w := Reach(Genesis(s), Custodial(SetFeaturePause(BOTH, C.Game, false)), s.(pool := s.pool.(gamePaused := false)));
    w := Reach(w, Custodial(SetFeaturePause(BOTH, C.Jackpot, false)), w.s.(pool := w.s.pool.(jackpotPaused := false)));
    w := Reach(w, Custodial(Deposit(7, 10)), C.Deposit(w.s, 7, 10).value);
  }

  /** Before the first epoch, touching a player again in the same instant changes nothing. */
  lemma StillTouch(p: Player, pool: Pool)
    requires pool.currentEpochId == 0 && p.lastUpdate == 1
    ensures Touch(p, pool, 1) == Ok(p)
  {
    assert p.(weightAcc := p.weightAcc, principalAcc := p.principalAcc, lastUpdate := 1) == p;
  }

  lemma OneTile()
    ensures TileCount(1) == Ok(1)
  {
    assert Pow2(TILE_COUNT) == 2 * Pow2(TILE_COUNT - 1);
    assert CountOnes(1) == 1 + CountOnes(0);
  }

  lemma ZeroIsDrawn(max: nat, range: nat)
    requires 0 < range < max
    ensures Vrf.Unbiased(Zeros(), max, range) == Ok(0)
  {
    assert Vrf.SampleAt(Zeros(), max, 0) == 0;
    assert max % range < range;
  }

  // ----- an epoch, and the draw of the first one -----

  /** The pool in its first epoch, with a jackpot of 1. */
  ghost predicate Running(s: State) {
    && s.pool.currentEpochId == 1 && s.pool.currentEpochStart == 1 && s.pool.currentEpochEndsAt == 1001
    && Funded(s) && s.players == map[0 := HOUSE, 7 := DEPOSITOR] && s.epochs == map[1 := E.NewEpoch(1, 1001)] && s.now == 1
  }

  /** What the runs below leave alone. */
  ghost predicate Funded(s: State) {
    && s.pool.params == EXAMPLE && !s.pool.shutdown && !s.pool.paused && !s.pool.jackpotPaused && s.pool.house == 0
    && s.pool.totalPrincipal == 10 && s.pool.jackpotReserved == 0 && s.principalVault == 10 && s.jackpotVault == 1
  }

  lemma RunningPool() returns (w: World)
    ensures Reachable(w) && Running(w.s)
  {
    hide Reachable;
    w := WaitingPool();
    w := Reach(w, Epochal(FundJackpot(1)), w.s.(jackpotVault := 1));
    w := Reach(w, Epochal(BeginEpoch(BOTH)), E.BeginEpoch(w.s, BOTH).value);
  }

  const ENDED := E.NewEpoch(1, 1001).(status := Registering, registrationOpenedAt := 1001)

  const ENTERED := ENDED.(registeredWeight := 10000, registeredCount := 1)

  /** The second epoch, on time, with the depositor registered for the first. */
  ghost predicate Registered(s: State) {
    && s.pool.currentEpochId == 2 && s.pool.currentEpochStart == 1001 && s.pool.currentEpochEndsAt == 2001
    && s.pool.previousEpochStart == 1 && s.pool.previousEpochEndsAt == 1001 && Funded(s) && s.now == 1001
    && s.players == map[0 := HOUSE, 7 := DEPOSITOR.(yieldEpoch := 1, regEpoch := 1, regEnd := 10000)]
    && s.epochs == map[1 := ENTERED, 2 := E.NewEpoch(1001, 2001)]
  }

  lemma SecondBegins(s: State) returns (t: State)
    requires Running(s)
    ensures E.BeginEpoch(s.(now := 1001), BOTH) == Ok(t) && t.players == s.players && t.now == 1001
    ensures t.pool == s.pool.(currentEpochId := 2, currentEpochStart := 1001, currentEpochEndsAt := 2001,
                              previousEpochStart := 1, previousEpochEndsAt := 1001)
    ensures t.epochs == map[1 := ENDED, 2 := E.NewEpoch(1001, 2001)]
    ensures t.principalVault == s.principalVault && t.jackpotVault == s.jackpotVault
  {
    t := E.BeginEpoch(s.(now := 1001), BOTH).value;
  }

  /** A registration of the idle depositor: no yield at rate 0, and the whole epoch's weight. */
  lemma Registers(s: State, id: nat, p: Player, epoch: Epoch)
    requires id in s.epochs && s.epochs[id] == epoch && 7 in s.players && s.players[7] == p
    requires s.pool.currentEpochId == id + 1 && id >= 1 && s.pool.params.baseRateBps == 0 && s.pool.totalPrincipal == 10
    requires epoch.status.Registering? && epoch.registeredWeight == epoch.registeredCount == 0
    requires 0 <= epoch.startsAt && epoch.endsAt == epoch.startsAt + 1000
    requires p.epochId < id && p.regEpoch != id && p.yieldEpoch != id && p.principal == p.entries == 10
    ensures E.Register(s, id, 7) ==
            Ok(s.(players := s.players[7 := p.(yieldEpoch := id, regEpoch := id, regStart := 0, regEnd := 10000)],
                  epochs := s.epochs[id := epoch.(registeredWeight := 10000, registeredCount := 1)]))
  {
    hide Touch;
    assert E.WeightAndPrincipalSeconds(id, epoch, p) == Ok((10000, 10000));
    assert E.YieldFor(10000, 0) == Ok(0);
    assert s.pool.(totalPrincipal := 10, yieldBudget := s.pool.yieldBudget) == s.pool;
  }

  lemma SecondPool() returns (w: World, s: State)
    ensures Running(s) && Reachable(w) && E.BeginEpoch(s.(now := 1001), BOTH) == Ok(w.s)
  {
    hide Reachable, E.BeginEpoch;
    w := RunningPool();
    s := w.s;
    var t := SecondBegins(s);
    w := Reach(w, Tick(1001), s.(now := 1001));
    w := Reach(w, Epochal(BeginEpoch(BOTH)), t);
  }

  lemma RegisteredPool() returns (w: World)
    ensures Reachable(w) && Registered(w.s)
  {
    hide Reachable, E.BeginEpoch, E.Register;
    var s: State;
    w, s := SecondPool();
    var t := SecondBegins(s);
    Registers(w.s, 1, DEPOSITOR, ENDED);
    w := Reach(w, Epochal(Register(1, 7)), E.Register(w.s, 1, 7).value);
  }

  /** The first epoch with its draw closed, answered and made. */
  function DrawnFirst(s: State): State {
    s.(epochs := s.epochs[1 := ENTERED.(status := Drawn, jackpotAmount := 1, requestedAt := s.now, drawnAt := s.now,
                                        oracle := Some(Zeros()))],
       pool := s.pool.(jackpotReserved := 1))
  }

  lemma DrawFirst(w: World) returns (v: World)
    requires Reachable(w) && Funded(w.s) && 1 in w.s.epochs && w.s.epochs[1] == ENTERED && w.s.now >= 1001
    ensures Reachable(v) && v.s == DrawnFirst(w.s)
  {
    hide Reachable, Vrf.Unbiased;
    var s, closed := w.s, ENTERED.(status := Drawing, jackpotAmount := 1, requestedAt := w.s.now);
    var reserved := s.pool.(jackpotReserved := 1);
    v := Reach(w, Epochal(CloseRegistration(BOTH, 1)), s.(epochs := s.epochs[1 := closed], pool := reserved));
    v := Reach(v, Epochal(FulfilDraw(1, Zeros())), v.s.(epochs := v.s.epochs[1 := closed.(oracle := Some(Zeros()))]));
    ZeroIsDrawn(U128_MAX, 10000);
    v := Reach(v, Epochal(Draw(1)), E.Draw(v.s, 1).value);
    assert v.s.epochs == DrawnFirst(s).epochs;
  }
}
