/** Runs that show the exceptions of the main results are real. */
module Witnesses {
  import opened Machine
  import opened Ledger
  import opened Touching
  import opened Program
  import opened Shape
  import opened Books
  import opened Reserve
  import opened Meters
  import opened Draws
  import opened Yield
  import opened Games
  import opened Grants
  import opened Invariant
  import opened Scenario
  import M = Mirrors
  import S = Solvency
  import P = Progress
  import X = Exit
  import Vrf
  import C = Custody
  import E = Epochs

  /** A late epoch: 500 seconds past its end the API shows half as much again as the player has earned. */
  lemma LateEpochOvershoots() returns (w: World)
    ensures Reachable(w) && w.s.pool.currentEpochId == 1 && 7 in w.s.players && 7 in w.live
    ensures M.WeightAt(w.s.players[7], 1, w.s.pool.currentEpochStart, w.s.now) == 15000
    ensures w.live[7].weight == 10000
  {
    hide Reachable, BooksOk, ReserveOk, DrawsOk, YieldOk, GamesOk, GrantsOk, EpochsOk;
    w := RunningPool();
    w := Reach(w, Tick(1501), w.s.(now := 1501));
    ReachableInv(w);
    assert MeterOk(w, 7);
  }

  lemma LaterBegins(s: State) returns (t: State)
    requires Registered(s)
    ensures E.BeginEpoch(s.(now := 2001), BOTH) == Ok(t) && t.players == s.players && t.now == 2001 && Funded(t)
    ensures t.pool.currentEpochId == 3 && t.epochs.Keys == {1, 2, 3} && t.epochs[1] == ENTERED
    ensures t.epochs[2] == E.NewEpoch(1001, 2001).(status := Registering, registrationOpenedAt := 2001)
  {
    t := E.BeginEpoch(s.(now := 2001), BOTH).value;
  }

  /** An epoch left behind while Registering: its only registrant registers again, it is drawn, and nobody holds the
      point. */
  lemma LostOwner() returns (w: World)
    ensures Reachable(w) && 1 in w.s.epochs && w.s.epochs[1].status.Drawn? && w.s.epochs[1].jackpotAmount > 0
    ensures w.s.epochs[1].target < w.s.epochs[1].registeredWeight
    ensures forall k :: k in w.s.players ==> !E.HoldsTarget(1, w.s.epochs[1], w.s.players[k])
  {
    hide Reachable, E.BeginEpoch, E.Register;
    w := RegisteredPool();
    var t := LaterBegins(w.s);
    w := Reach(w, Tick(2001), w.s.(now := 2001));
    w := Reach(w, Epochal(BeginEpoch(BOTH)), t);
    w := RegisterAgain(w);
    w := DrawFirst(w);
  }

  lemma RegisterAgain(w: World) returns (v: World)
    requires Reachable(w) && Funded(w.s) && w.s.now == 2001 && w.s.pool.currentEpochId == 3
    requires 1 in w.s.epochs && w.s.epochs[1] == ENTERED && 2 in w.s.epochs
    requires w.s.epochs[2] == E.NewEpoch(1001, 2001).(status := Registering, registrationOpenedAt := 2001)
    requires w.s.players == map[0 := HOUSE, 7 := DEPOSITOR.(yieldEpoch := 1, regEpoch := 1, regEnd := 10000)]
    ensures Reachable(v) && Funded(v.s) && v.s.now == 2001 && 1 in v.s.epochs && v.s.epochs[1] == ENTERED
    ensures v.s.players.Keys == {0, 7} && v.s.players[0].regEpoch == 0 && v.s.players[7].regEpoch == 2
  {
    hide Reachable, E.Register;
    Scenario.Registers(w.s, 2, w.s.players[7], w.s.epochs[2]);
    v := Reach(w, Epochal(Register(2, 7)), E.Register(w.s, 2, 7).value);
  }

  /** The admin's grant that fills the depositor's Tickets to the brim. */
  lemma FillUp(s: State) returns (t: State)
    requires s.pool.currentEpochId == 2 && s.pool.currentEpochStart == 1001 && s.pool.currentEpochEndsAt == 2001
    requires s.pool.previousEpochStart == 1 && s.pool.previousEpochEndsAt == 1001 && s.now == 1001
    requires !s.pool.shutdown && !s.pool.paused && !s.pool.jackpotPaused
    requires 7 in s.players && s.players[7] == DEPOSITOR.(yieldEpoch := 1, regEpoch := 1, regEnd := 10000)
    ensures C.GrantTickets(s, BOTH, 7, U64_MAX - 10) == Ok(t) && t.pool == s.pool && t.epochs == s.epochs && 7 in t.players
    ensures EffectiveEntries(t.players[7], 2) == U64_MAX && !t.players[7].isHouse
    ensures t.players[7].regEpoch == 1 && t.players[7].regStart == 0 && t.players[7].regEnd == 10000
  {
    t := C.GrantTickets(s, BOTH, 7, U64_MAX - 10).value;
  }

  /** A drawn prize that its rightful winner cannot collect: a grant after the draw leaves no room for it, and after
      the payout timeout anyone rolls the prize over. */
  lemma UncollectablePrize() returns (w: World)
    ensures Reachable(w) && 1 in w.s.epochs && 7 in w.s.players && w.s.epochs[1].status.Drawn?
    ensures E.HoldsTarget(1, w.s.epochs[1], w.s.players[7]) && E.Payout(w.s, 1, 7) == Err(ArithmeticOverflow)
    ensures E.RolloverEpoch(w.s.(now := 1602), 1).Ok?
  {
    hide Reachable, E.Payout, C.GrantTickets;
    w := RegisteredPool();
    w := DrawFirst(w);
    var t := FillUp(w.s);
    w := Reach(w, Custodial(GrantTickets(BOTH, 7, U64_MAX - 10)), t);
    S.PrizeIsPayable(w, 1, 7);
  }

  /** The largest sample there is, 256 times. */
  function Highest(): Samples { seq(TRIES, i => U128_MAX) }

  lemma HighestIsRejected(epoch: Epoch)
    requires epoch.oracle == Some(Highest()) && epoch.registeredWeight > 0
    ensures P.Rejected(epoch)
  {
    forall i | 0 <= i < TRIES
      ensures Vrf.Limit(U128_MAX, epoch.registeredWeight) <= Vrf.SampleAt(epoch.oracle.value, U128_MAX, i)
    {
      assert Vrf.SampleAt(epoch.oracle.value, U128_MAX, i) == U128_MAX;
    }
  }

  /** An answer that jams an epoch: no sample of it is accepted, so whatever runs, the epoch just ended is never drawn,
      paid or rolled over, its prize of 1 stays reserved, and no epoch begins any more. */
  lemma RejectedDraw() returns (w: World)
    ensures Reachable(w) && w.s.pool.currentEpochId == 2 && P.Jammed(w.s, 1) && w.s.epochs[1].jackpotAmount == 1
    ensures forall trace: seq<Instr>, k: Key, signer: Signer :: P.JammedAfter(w, 1, trace, k, signer)
  {
    hide Reachable, P.Rejected, P.JammedAfter;
    w := RegisteredPool();
    var s, closed := w.s, ENTERED.(status := Drawing, jackpotAmount := 1, requestedAt := w.s.now);
    w := Reach(w, Epochal(CloseRegistration(BOTH, 1)),
               s.(epochs := s.epochs[1 := closed], pool := s.pool.(jackpotReserved := 1)));
    w := Reach(w, Epochal(FulfilDraw(1, Highest())),
               w.s.(epochs := w.s.epochs[1 := closed.(oracle := Some(Highest()))]));
    HighestIsRejected(w.s.epochs[1]);
    forall trace: seq<Instr>, k: Key, signer: Signer
      ensures P.JammedAfter(w, 1, trace, k, signer)
    {
      P.RejectedForGood(w, 1, trace, k, signer);
    }
  }

  /** The depositor asks for everything in a period as long as the clock. */
  function Asked(s: State): State {
    s.(players := s.players[7 := DEPOSITOR.(principal := 0, entries := 0, pendingWithdraw := 10, requestedAt := 1)],
       pool := s.pool.(params := LONG, totalPrincipal := 0, pendingWithdrawals := 10))
  }

  const LONG := EXAMPLE.(epochSeconds := I64_MAX)

  lemma AsksForAll(s: State)
    requires Waiting(s)
    ensures C.RequestWithdraw(s.(pool := s.pool.(params := LONG)), 7, 10) == Ok(Asked(s))
  {
    hide Touch;
    StillTouch(DEPOSITOR, s.pool.(params := LONG));
  }

  lemma LongEpochs(s: State)
    requires Waiting(s)
    ensures C.SetParams(s, BOTH, UNCHANGED.(epochSeconds := Some(I64_MAX))) == Ok(s.(pool := s.pool.(params := LONG)))
  {
  }

  /** A pending request that the vault covers and nobody can process: with the longest epoch the admin can set, its
      deadline is past the end of the clock. The emergency exit still pays it. */
  lemma UnprocessableRequest() returns (w: World)
    ensures Reachable(w) && w.s.pool.shutdown && X.Covered(w.s) && 7 in w.s.players && w.s.players[7].pendingWithdraw == 10
    ensures C.ProcessWithdraw(w.s, 7) == Err(ArithmeticOverflow)
    ensures C.EmergencyWithdraw(w.s, 7).Ok? && X.PaysClaim(w.s, 7, C.EmergencyWithdraw(w.s, 7).value)
  {
    hide Reachable, C.SetParams, C.RequestWithdraw, C.EmergencyWithdraw, X.PaysClaim;
    w := WaitingPool();
    var s := w.s;
    LongEpochs(s);
    w := Reach(w, Custodial(SetParams(BOTH, UNCHANGED.(epochSeconds := Some(I64_MAX)))),
               s.(pool := s.pool.(params := LONG)));
    AsksForAll(s);
    w := Reach(w, Custodial(RequestWithdraw(7, 10)), Asked(s));
    w := Reach(w, Custodial(Shutdown(BOTH)), C.Shutdown(w.s, BOTH).value);
    X.EveryClaimPayable(w, [], 7);
  }
}
