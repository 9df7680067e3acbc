/** How a deposit can be locked for good: credits for positions bought before the first epoch fill the weight
    accumulator until no touch succeeds. */
module Locked {
  import opened Machine
  import opened Ledger
  import opened Touching
  import opened Boards
  import opened Program
  import opened Exit
  import opened Scenario
  import C = Custody
  import R = Rounds
  import Vrf

  /** What one purchase with every Ticket there can be credits, with the whole clock still ahead. */
  const CREDIT: u128 := U64_MAX * (I64_MAX - 1)

  /** The depositor with all the Tickets a grant can give. */
  function Staker(acc: u128): Player { DEPOSITOR.(entries := U64_MAX, weightAcc := acc) }

  /** No epoch, no round open, nothing paused, nothing out. */
  ghost predicate Idle(s: State, n: nat) {
    && s.pool.currentEpochId == 0 && s.pool.nextRoundId == n && s.pool.openRoundId == 0 && s.pool.carryPot == 0
    && s.pool.params == EXAMPLE && s.pool.house == 0 && 0 in s.players
    && !s.pool.shutdown && !s.pool.paused && !s.pool.gamePaused && !s.pool.jackpotPaused
    && (forall id :: id in s.rounds ==> id < n) && s.now == 1 && Covered(s)
  }

  ghost predicate Ready(s: State, n: nat, acc: u128) {
    Idle(s, n) && 7 in s.players && s.players[7] == Staker(acc)
  }

  /** A grant to a player who holds nothing, or only the deposit. */
  lemma Refill(s: State, p: Player, amount: u64)
    requires s.pool.currentEpochId == 0 && s.now == 1 && 7 in s.players && s.players[7] == p && p.lastUpdate == 1
    requires !s.pool.shutdown && !s.pool.paused && !s.pool.jackpotPaused && p.entries + amount == U64_MAX && amount > 0
    ensures C.GrantTickets(s, BOTH, 7, amount) == Ok(s.(players := s.players[7 := p.(entries := U64_MAX)]))
  {
    hide Touch;
    StillTouch(p, s.pool);
  }

  lemma FirstFill() returns (w: World)
    ensures Reachable(w) && Ready(w.s, 1, 0)
  {
    hide Reachable, C.GrantTickets;
    w := WaitingPool();
    Refill(w.s, DEPOSITOR, U64_MAX - 10);
    w := Reach(w, Custodial(GrantTickets(BOTH, 7, U64_MAX - 10)),
               w.s.(players := w.s.players[7 := DEPOSITOR.(entries := U64_MAX)]));
  }

  /** The round everything is staked in. */
  function FullRound(): Round {
    R.NewRound(0, 0, I64_MAX, 0).(tileTotals := seq(TILE_COUNT, t => if t == 0 then U64_MAX else 0), pot := U64_MAX,
                                  openPositions := 1, positions := map[7 := Position(1, U64_MAX)])
  }

  lemma OnlyFirstTile(t: nat)
    requires t < TILE_COUNT
    ensures StakeOn(Position(1, U64_MAX), t) == if t == 0 then U64_MAX else 0
  {
    if t > 0 {
      assert Pow2(t) == 2 * Pow2(t - 1);
      DivUnique(1, Pow2(t), 0, 1);
    } else {
      assert Pow2(0) == 1;
    }
  }

  lemma JoinAll()
    ensures R.Joined(R.NewRound(0, 0, I64_MAX, 0), 7, Position(1, U64_MAX), U64_MAX) == Ok(FullRound())
  {
    var empty, position := R.NewRound(0, 0, I64_MAX, 0), Position(1, U64_MAX);
    forall t | 0 <= t < TILE_COUNT
      ensures StakeOn(position, t) == if t == 0 then U64_MAX else 0
    {
      OnlyFirstTile(t);
    }
    assert R.Staked(empty.tileTotals, position).value == FullRound().tileTotals;
  }

  lemma BuyAll(s: State, n: nat, acc: u128)
    requires n in s.rounds && s.rounds[n] == R.NewRound(0, 0, I64_MAX, 0) && acc + CREDIT <= U128_MAX
    requires 7 in s.players && s.players[7] == Staker(acc) && s.pool.currentEpochId == 0 && s.pool.params == EXAMPLE
    requires !s.pool.shutdown && !s.pool.paused && !s.pool.gamePaused && s.now == 1
    ensures R.BuyPosition(s, n, 7, 1, U64_MAX) ==
            Ok(s.(players := s.players[7 := Staker(acc + CREDIT).(entries := 0)], rounds := s.rounds[n := FullRound()]))
  {
    hide Touch, TileCount, R.Joined;
    StillTouch(Staker(acc), s.pool);
    OneTile();
    JoinAll();
    assert R.Quote(s, Staker(acc), s.rounds[n], Position(1, U64_MAX)) == Ok(U64_MAX);
    assert R.Staker(Staker(acc), s.rounds[n], 1, U64_MAX) == Ok(Staker(acc + CREDIT).(entries := 0));
  }

  const CLOSING := EXAMPLE.(closeBuffer := I64_MAX - 1)

  /** Moving the close buffer makes the round closed at once, and back again. */
  lemma MoveBuffer(s: State, buffer: clock)
    requires s.pool.params == EXAMPLE.(closeBuffer := s.pool.params.closeBuffer) && buffer < I64_MAX
    ensures C.SetParams(s, BOTH, UNCHANGED.(closeBuffer := Some(buffer)))
         == Ok(s.(pool := s.pool.(params := EXAMPLE.(closeBuffer := buffer))))
  {
  }

  lemma SettleAll(s: State, n: nat)
    requires n in s.rounds && s.rounds[n] == FullRound().(status := Requested, requestedAt := 1, oracle := Some(Zeros()))
    requires s.pool.params.houseCutBps == 0 && s.pool.house in s.players
    ensures R.SettleRound(s, n) ==
            Ok(s.(rounds := s.rounds[n := s.rounds[n].(status := Settled)], pool := s.pool.(openRoundId := 0)))
  {
    hide Touch, Vrf.Unbiased;
    ZeroIsDrawn(U64_MAX, TILE_COUNT);
  }

  /** First half of a cycle: a round is created and everything staked in it. */
  lemma Stake(w: World, n: nat, acc: u128) returns (v: World)
    requires Reachable(w) && Ready(w.s, n, acc) && 1 <= n < U64_MAX && acc + CREDIT <= U128_MAX
    ensures Reachable(v)
    ensures v.s == w.s.(pool := w.s.pool.(nextRoundId := n + 1, openRoundId := n),
                        players := w.s.players[7 := Staker(acc + CREDIT).(entries := 0)],
                        rounds := w.s.rounds[n := FullRound()])
  {
    hide Reachable, R.BuyPosition, FullRound;
    var s := w.s;
    var created := s.(pool := s.pool.(nextRoundId := n + 1, openRoundId := n),
                      rounds := s.rounds[n := R.NewRound(0, 0, I64_MAX, 0)]);
    v := Reach(w, Game(CreateRound(BOTH, 0, I64_MAX)), created);
    BuyAll(v.s, n, acc);
    v := Reach(v, Game(BuyPosition(n, 7, 1, U64_MAX)), R.BuyPosition(v.s, n, 7, 1, U64_MAX).value);
  }

  /** Second half: the round is closed, answered and settled, and the Tickets are granted again. */
  lemma Recover(w: World, n: nat, acc: u128) returns (v: World)
    requires Reachable(w) && n in w.s.rounds && w.s.rounds[n] == FullRound() && w.s.pool.params == EXAMPLE
    requires w.s.pool.currentEpochId == 0 && w.s.now == 1 && w.s.pool.house in w.s.players
    requires 7 in w.s.players && w.s.players[7] == Staker(acc).(entries := 0)
    requires !w.s.pool.shutdown && !w.s.pool.paused && !w.s.pool.jackpotPaused
    ensures Reachable(v) && v.s.rounds.Keys == w.s.rounds.Keys
    ensures v.s == w.s.(pool := w.s.pool.(openRoundId := 0), rounds := v.s.rounds,
                        players := w.s.players[7 := Staker(acc)])
  {
    hide Reachable, R.SettleRound, C.SetParams, C.GrantTickets;
    var s := w.s;
    MoveBuffer(s, I64_MAX - 1);
    v := Reach(w, Custodial(SetParams(BOTH, UNCHANGED.(closeBuffer := Some(I64_MAX - 1)))),
               s.(pool := s.pool.(params := CLOSING)));
    v := Ask(v, n);
    SettleAll(v.s, n);
    v := Reach(v, Game(SettleRound(n)), R.SettleRound(v.s, n).value);
    MoveBuffer(v.s, 0);
    v := Reach(v, Custodial(SetParams(BOTH, UNCHANGED.(closeBuffer := Some(0)))),
               v.s.(pool := v.s.pool.(params := EXAMPLE)));
    Refill(v.s, Staker(acc).(entries := 0), U64_MAX);
    v := Reach(v, Custodial(GrantTickets(BOTH, 7, U64_MAX)), v.s.(players := v.s.players[7 := Staker(acc)]));
  }

  lemma Ask(w: World, n: nat) returns (v: World)
    requires Reachable(w) && n in w.s.rounds && w.s.rounds[n] == FullRound() && w.s.pool.params == CLOSING && w.s.now == 1
    ensures Reachable(v)
    ensures v.s == w.s.(rounds := w.s.rounds[n := FullRound().(status := Requested, requestedAt := 1,
                                                               oracle := Some(Zeros()))])
  {
    hide Reachable;
    var asked := FullRound().(status := Requested, requestedAt := 1);
    v := Reach(w, Game(RequestRandomness(n)), w.s.(rounds := w.s.rounds[n := asked]));
    v := Reach(v, Game(FulfilRound(n, Zeros())), R.FulfilRound(v.s, n, Zeros()).value);
    assert v.s.rounds == w.s.rounds[n := asked.(oracle := Some(Zeros()))];
  }

  lemma Cycle(w: World, n: nat, acc: u128) returns (v: World)
    requires Reachable(w) && Ready(w.s, n, acc) && 1 <= n < U64_MAX && acc + CREDIT <= U128_MAX
    ensures Reachable(v) && Ready(v.s, n + 1, acc + CREDIT)
  {
    hide Reachable, FullRound;
    v := Stake(w, n, acc);
    v := Recover(v, n, acc + CREDIT);
  }

  /** A reachable, shut-down pool that holds every claim, with a deposit that nobody can ever withdraw. */
  lemma LockedDeposit() returns (w: World)
    ensures Reachable(w) && Covered(w.s) && Stuck(w.s, 7) && w.s.players[7].principal == 10 && 7 != w.s.pool.house
  {
    hide Reachable;
    w := FirstFill();
    w := Cycle(w, 1, 0);
    w := Cycle(w, 2, CREDIT);
    w := Reach(w, Custodial(Shutdown(BOTH)), C.Shutdown(w.s, BOTH).value);
    w := Reach(w, Tick(7), w.s.(now := 7));
  }

  /** After a run from `w`, the deposit of 10 is still there and still refused, however it is asked for. */
  predicate Refused(w: World, trace: seq<Instr>, amount: u64) {
    var s := Run(w, trace).s;
    && 7 in s.players && s.players[7].principal == 10
    && C.EmergencyWithdraw(s, 7).Err? && C.RequestWithdraw(s, 7, amount).Err?
  }

  /** So the exception of an orderly exit is real, and for good: in one and the same pool the claim is refused after
      every run. */
  lemma LockedForGood() returns (w: World)
    ensures Reachable(w) && Covered(w.s) && w.s.pool.shutdown && 7 in w.s.players && w.s.players[7].principal == 10
    ensures forall trace: seq<Instr>, amount: u64 :: Refused(w, trace, amount)
  {
    hide Reachable, Run, C.EmergencyWithdraw, C.RequestWithdraw;
    w := LockedDeposit();
    forall trace: seq<Instr>, amount: u64
      ensures Refused(w, trace, amount)
    {
      RefusalIsPermanent(w, trace, 7, amount);
    }
  }
}
