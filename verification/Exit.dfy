/** The way out after shutdown: what is covered stays covered, and every claim can be paid in any order. */
module Exit {
  import opened Machine
  import opened Ledger
  import opened Touching
  import opened Program
  import opened Effects
  import opened Frames
  import opened Shape
  import opened Books
  import opened Reserve
  import opened Meters
  import opened Draws
  import opened Yield
  import opened Games
  import opened Grants
  import opened Invariant
  import opened Accrual
  import C = Custody
  import E = Epochs

  /** Nothing is out: the vault holds at least every claim on it. */
  predicate Covered(s: State) {
    s.principalVault >= s.pool.totalPrincipal + s.pool.pendingWithdrawals + s.pool.yieldBudget
  }

  predicate Borrows(i: Instr) { i.Custodial? && i.c.AdminWithdraw? }

  predicate NoBorrowing(trace: seq<Instr>) { forall j :: 0 <= j < |trace| ==> !Borrows(trace[j]) }

  lemma {:induction false} OutNeverGrows(w: World, trace: seq<Instr>)
    requires NoBorrowing(trace)
    ensures Run(w, trace).netOut <= w.netOut
  {
    hide Step, MeterNext, LogNext;
    if trace != [] {
      OutNeverGrows(w, trace[..|trace| - 1]);
      OutNext(Run(w, trace[..|trace| - 1]), trace[|trace| - 1]);
    }
  }

  lemma OutNext(v: World, i: Instr)
    requires !Borrows(i)
    ensures Next(v, i).netOut <= v.netOut
  {
    hide Step, MeterNext, LogNext;
  }

  lemma CoveredIsNothingOut(w: World)
    requires Inv(w)
    ensures Covered(w.s) <==> w.netOut <= 0
  {
    hide ShapeOk, ReserveOk, MetersOk, DrawsOk, YieldOk, GamesOk, GrantsOk;
  }

  /** As long as the admin takes nothing more, every run keeps what is covered covered. */
  lemma {:induction false} StaysCovered(w: World, trace: seq<Instr>)
    requires Reachable(w) && Covered(w.s) && NoBorrowing(trace)
    ensures Covered(Run(w, trace).s)
  {
    hide Reachable, Inv, Run, Covered;
    ReachableInv(w);
    InvRun(w, trace);
    OutNeverGrows(w, trace);
    CoveredIsNothingOut(w);
    CoveredIsNothingOut(Run(w, trace));
  }

  lemma CustodyShut(s: State, c: CustodyInstr, t: State)
    requires CustodyStep(s, c) == Ok(t)
    ensures ShutKept(s.pool, t.pool)
  {
    hide CustodyStep;
    CustodyLeaves(s, c, t);
  }

  lemma RoundShut(s: State, g: RoundInstr, t: State)
    requires RoundStep(s, g) == Ok(t)
    ensures ShutKept(s.pool, t.pool)
  {
    hide RoundStep;
    RoundLeaves(s, g, t);
  }

  lemma BeginShut(s: State, signer: Signer, t: State)
    requires E.BeginEpoch(s, signer) == Ok(t)
    ensures ShutKept(s.pool, t.pool)
  {
    hide E.GridFloor, E.NextEpochStart;
  }

  lemma EpochShut(s: State, e: EpochInstr, t: State)
    requires EpochStep(s, e) == Ok(t)
    ensures ShutKept(s.pool, t.pool)
  {
    hide EpochStep;
    if e.BeginEpoch? {
      BeginEpochIs(s, e, t);
      BeginShut(s, e.signer, t);
    } else {
      EpochLeaves(s, e, t);
    }
  }

  lemma ShutNext(w: World, i: Instr)
    ensures ShutKept(w.s.pool, Next(w, i).s.pool)
  {
    hide CustodyStep, EpochStep, RoundStep, MeterNext, LogNext;
    if Step(w.s, i).Ok? {
      var t := Step(w.s, i).value;
      match i
      case Tick(_) =>
      case Custodial(c) => CustodyShut(w.s, c, t);
      case Game(g) => RoundShut(w.s, g, t);
      case Epochal(e) => EpochShut(w.s, e, t);
    }
  }

  lemma {:induction false} ShutRun(w: World, trace: seq<Instr>)
    ensures ShutKept(w.s.pool, Run(w, trace).s.pool)
  {
    hide Next;
    if trace != [] {
      ShutRun(w, trace[..|trace| - 1]);
      ShutNext(Run(w, trace[..|trace| - 1]), trace[|trace| - 1]);
    }
  }

  lemma ReachableShut(w: World)
    requires Reachable(w)
    ensures ShutOk(w.s.pool)
  {
    var params: Params, house: Key, now: clock, trace: seq<Instr> :|
      C.CreatePool(params, house, now).Ok? && w == Run(Genesis(C.CreatePool(params, house, now).value), trace);
    ShutRun(Genesis(C.CreatePool(params, house, now).value), trace);
  }

  /** Shutdown is for ever: no run resumes anything, whoever signs. */
  lemma {:induction false} ShutdownIsFinal(w: World, trace: seq<Instr>)
    requires Reachable(w) && w.s.pool.shutdown
    ensures var pool := Run(w, trace).s.pool;
            pool.shutdown && pool.paused && pool.gamePaused && pool.jackpotPaused
  {
    hide Reachable, Run;
    ReachableShut(w);
    ShutRun(w, trace);
  }

  /** An emergency withdrawal pays the whole claim, and only that: the player is left with nothing owed and
      every other claim is as it was. */
  predicate PaysClaim(s: State, k: Key, t: State)
    requires k in s.players
  {
    var claim := s.players[k].principal + s.players[k].pendingWithdraw;
    && t.principalVault == s.principalVault - claim
    && k in t.players && t.players[k].principal == t.players[k].pendingWithdraw == 0
    && t.players == s.players[k := t.players[k]]
    && t.pool.totalPrincipal == s.pool.totalPrincipal - s.players[k].principal
    && t.pool.pendingWithdrawals == s.pool.pendingWithdrawals - s.players[k].pendingWithdraw
    && t.pool.yieldBudget == s.pool.yieldBudget
  }

  lemma EmergencyPays(s: State, k: Key)
    requires PlayersOk(s) && k in s.players && k != s.pool.house && s.pool.shutdown && Covered(s)
    requires s.players[k].principal <= s.pool.totalPrincipal
    requires s.players[k].pendingWithdraw <= s.pool.pendingWithdrawals
    requires s.players[k].principal + s.players[k].pendingWithdraw > 0
    ensures C.EmergencyWithdraw(s, k).Ok? <==> Touch(s.players[k], s.pool, s.now).Ok?
    ensures C.EmergencyWithdraw(s, k).Ok? ==> PaysClaim(s, k, C.EmergencyWithdraw(s, k).value)
  {
    hide Touch;
    assert PlayerOk(k, s.players[k], s.pool, s.now);
    if Touch(s.players[k], s.pool, s.now).Ok? { TouchOk(k, s.players[k], s.pool, s.now); }
  }

  /** After shutdown with nothing out, whatever else runs and in whatever order, every player's full claim stays
      payable if and only if the player's finished weight accumulator fits 128 bits. */
  lemma {:induction false} EveryClaimPayable(w: World, trace: seq<Instr>, k: Key)
    requires Reachable(w) && w.s.pool.shutdown && Covered(w.s) && NoBorrowing(trace)
    requires var s := Run(w, trace).s;
             k in s.players && k != s.pool.house && s.players[k].principal + s.players[k].pendingWithdraw > 0
    ensures var s := Run(w, trace).s;
            && (C.EmergencyWithdraw(s, k).Ok? <==> WeightFits(s.players[k], s.pool, s.now))
            && (C.EmergencyWithdraw(s, k).Ok? ==> PaysClaim(s, k, C.EmergencyWithdraw(s, k).value))
  {
    hide Reachable, Run, ReserveOk, MetersOk, DrawsOk, YieldOk, GamesOk, GrantsOk, Covered, BooksOk, PlayersOk,
      EpochsOk, C.EmergencyWithdraw, Touch, PaysClaim, NoBorrowing, WeightFits;
    ReachableInv(w);
    ReachableRun(w, trace);
    TouchSucceedsExactly(Run(w, trace), k);
    InvRun(w, trace);
    StaysCovered(w, trace);
    ShutdownIsFinal(w, trace);
    ClaimWithinTotals(Run(w, trace), k);
    EmergencyPays(Run(w, trace).s, k);
  }

  /** The requested part of a claim is payable too, by anyone, without a touch. */
  lemma {:induction false} EveryRequestPayable(w: World, trace: seq<Instr>, k: Key)
    requires Reachable(w) && w.s.pool.shutdown && Covered(w.s) && NoBorrowing(trace)
    requires var s := Run(w, trace).s; k in s.players && s.players[k].pendingWithdraw > 0
    ensures var s := Run(w, trace).s;
            && (C.ProcessWithdraw(s, k).Ok? <==> s.players[k].requestedAt + s.pool.params.epochSeconds <= I64_MAX)
            && (C.ProcessWithdraw(s, k).Ok? ==>
                  C.ProcessWithdraw(s, k).value.principalVault == s.principalVault - s.players[k].pendingWithdraw)
  {
    hide Reachable, Run, ReserveOk, MetersOk, DrawsOk, YieldOk, GamesOk, GrantsOk, BooksOk, PlayersOk, EpochsOk,
      NoBorrowing;
    ReachableInv(w);
    InvRun(w, trace);
    StaysCovered(w, trace);
    ShutdownIsFinal(w, trace);
    ClaimWithinTotals(Run(w, trace), k);
  }

  /** A shut-down pool and a player whose weight accumulator no longer fits. */
  predicate Stuck(s: State, k: Key) {
    s.pool.shutdown && k in s.players && !WeightFits(s.players[k], s.pool, s.now)
  }

  lemma StuckCannotBeTouched(p: Player, pool: Pool, now: i64)
    requires !WeightFits(p, pool, now)
    ensures Touch(p, pool, now).Err?
  {
  }

  /** A player that no touch succeeds on keeps its balances, its accumulator and its clock. */
  lemma StuckUnmoved(s: State, i: Instr, t: State, k: Key)
    requires Stuck(s, k) && OnlyActor(s, i, t)
    ensures k in t.players && SameClock(s.players[k], t.players[k])
    ensures var p, q := s.players[k], t.players[k];
            q.principal == p.principal && q.entries == p.entries && q.weightAcc == p.weightAcc
  {
    hide Touch, WeightFits;
    StuckCannotBeTouched(s.players[k], s.pool, s.now);
  }

  lemma FitsNoLater(p: Player, q: Player, a: Pool, b: Pool, now: i64, later: i64)
    requires SameEpochs(a, b) && SameClock(p, q) && q.entries == p.entries && q.weightAcc == p.weightAcc && now <= later
    requires !WeightFits(p, a, now)
    ensures !WeightFits(q, b, later)
  {
    var short, long := Elapsed(p.lastUpdate, Until(p, a, now)), Elapsed(q.lastUpdate, Until(q, b, later));
    assert short <= long;
    MulLe(short, long, p.entries);
  }

  lemma StuckNext(w: World, i: Instr, k: Key)
    requires Stuck(w.s, k)
    ensures Stuck(Next(w, i).s, k) && Next(w, i).s.players[k].principal == w.s.players[k].principal
  {
    hide CustodyStep, EpochStep, RoundStep, OnlyActor, MeterNext, LogNext, WeightFits;
    if Step(w.s, i).Ok? {
      var s, t := w.s, Step(w.s, i).value;
      match i
      case Tick(_) => FitsNoLater(s.players[k], t.players[k], s.pool, t.pool, s.now, t.now);
      case Custodial(c) =>
        CustodyEffect(s, c, t);
        CustodyShut(s, c, t);
        CustodyLeaves(s, c, t);
        StuckStep(s, i, t, k);
      case Game(g) =>
        RoundEffect(s, g, t);
        RoundLeaves(s, g, t);
        StuckStep(s, i, t, k);
      case Epochal(e) =>
        if e.BeginEpoch? {
          BeginEpochIs(s, e, t);
          assert false;
        }
        EpochEffect(s, e, t);
        EpochLeaves(s, e, t);
        StuckStep(s, i, t, k);
    }
  }

  lemma StuckStep(s: State, i: Instr, t: State, k: Key)
    requires Stuck(s, k) && OnlyActor(s, i, t) && t.pool.shutdown
    ensures Stuck(t, k) && t.players[k].principal == s.players[k].principal
  {
    hide Moved, WeightFits;
    StuckUnmoved(s, i, t, k);
    FitsNoLater(s.players[k], t.players[k], s.pool, t.pool, s.now, t.now);
  }

  /** A refusal after shutdown is permanent: over every run the player's principal neither moves nor can be asked
      for. */
  lemma {:induction false} RefusalIsPermanent(w: World, trace: seq<Instr>, k: Key, amount: u64)
    requires Stuck(w.s, k)
    ensures var s := Run(w, trace).s;
            && Stuck(s, k) && s.players[k].principal == w.s.players[k].principal
            && C.EmergencyWithdraw(s, k).Err? && C.RequestWithdraw(s, k, amount).Err?
  {
    hide Next, WeightFits, Touch;
    if trace != [] {
      RefusalIsPermanent(w, trace[..|trace| - 1], k, amount);
      StuckNext(Run(w, trace[..|trace| - 1]), trace[|trace| - 1], k);
    }
    var s := Run(w, trace).s;
    StuckCannotBeTouched(s.players[k], s.pool, s.now);
  }
}
