/** Conservation of principal: the principal vault against every claim on it. */
module Books {
  import opened Machine
  import opened Ledger
  import opened Touching
  import opened Sums
  import opened Program
  import opened Effects
  import opened Frames
  import opened Shape
  import C = Custody
  import E = Epochs
  import R = Rounds

  const PRINCIPAL: Player -> int := (p: Player) => p.principal
  const PENDING: Player -> int := (p: Player) => p.pendingWithdraw

  /** Both totals are the sums over the players, and the vault holds every claim less what is out. */
  ghost predicate BooksOk(w: World) {
    var s := w.s;
    && s.pool.totalPrincipal == Sum(s.players, PRINCIPAL)
    && s.pool.pendingWithdrawals == Sum(s.players, PENDING)
    && s.principalVault + w.netOut == s.pool.totalPrincipal + s.pool.pendingWithdrawals + s.pool.yieldBudget
  }

  /** How far an instruction moves the claims of the player it works on. */
  ghost predicate Balances(s: State, i: Instr, t: State) {
    var actor := Actor(s, i);
    var dp := t.pool.totalPrincipal - s.pool.totalPrincipal;
    var dw := t.pool.pendingWithdrawals - s.pool.pendingWithdrawals;
    && (actor.None? ==> dp == dw == 0)
    && (actor.Some? && actor.value in t.players ==>
          && t.players[actor.value].principal == Before(s, actor.value).principal + dp
          && t.players[actor.value].pendingWithdraw == Before(s, actor.value).pendingWithdraw + dw)
    && t.principalVault + Taken(i) - s.principalVault == dp + dw + t.pool.yieldBudget - s.pool.yieldBudget
  }

  lemma SwitchBalances(s: State, c: CustodyInstr, t: State)
    requires CustodyStep(s, c) == Ok(t) && Actor(s, Custodial(c)).None?
    ensures Balances(s, Custodial(c), t)
  {
  }

  lemma PaymentBalances(s: State, c: CustodyInstr, t: State)
    requires (c.Deposit? || c.BuyTickets?) && CustodyStep(s, c) == Ok(t)
    ensures Balances(s, Custodial(c), t)
  {
    hide Touch, C.CounterAfter, C.GrantTickets, C.SetParams, C.SweepHouse, C.RequestWithdraw, C.EmergencyWithdraw;
    if Touch(Before(s, c.k), s.pool, s.now).Ok? { TouchKeeps(Before(s, c.k), s.pool, s.now); }
  }

  lemma WithdrawalBalances(s: State, c: CustodyInstr, t: State)
    requires (c.RequestWithdraw? || c.ProcessWithdraw? || c.EmergencyWithdraw?) && CustodyStep(s, c) == Ok(t)
    ensures Balances(s, Custodial(c), t)
  {
    hide Touch, C.GrantTickets, C.SetParams, C.SweepHouse, C.Deposit, C.BuyTickets;
    if Touch(Before(s, c.k), s.pool, s.now).Ok? { TouchKeeps(Before(s, c.k), s.pool, s.now); }
  }

  lemma ClaimBalances(s: State, c: CustodyInstr, t: State, k: Key)
    requires CustodyStep(s, c) == Ok(t) && Actor(s, Custodial(c)) == Some(k)
    ensures Balances(s, Custodial(c), t)
  {
    hide Balances, C.GrantTickets, C.Deposit, C.BuyTickets, C.RequestWithdraw, C.ProcessWithdraw, C.EmergencyWithdraw;
    if c.GrantTickets? {
      GrantBalances(s, c, t);
    } else if c.Deposit? || c.BuyTickets? {
      PaymentBalances(s, c, t);
    } else {
      WithdrawalBalances(s, c, t);
    }
  }

  lemma GrantBalances(s: State, c: CustodyInstr, t: State)
    requires c.GrantTickets? && C.GrantTickets(s, c.signer, c.k, c.amount) == Ok(t)
    ensures Balances(s, Custodial(c), t)
  {
    hide Touch, C.CounterAfter, C.PoolBonusCap;
    if Touch(s.players[c.k], s.pool, s.now).Ok? { TouchKeeps(s.players[c.k], s.pool, s.now); }
  }

  lemma CustodyBalances(s: State, c: CustodyInstr, t: State)
    requires CustodyStep(s, c) == Ok(t)
    ensures Balances(s, Custodial(c), t)
  {
    hide CustodyStep, Balances;
    var actor := Actor(s, Custodial(c));
    if actor.Some? { ClaimBalances(s, c, t, actor.value); } else { SwitchBalances(s, c, t); }
  }

  /** A credit moves from the budget to the player and the total alike. */
  lemma CreditBalances(s: State, id: nat, p: Player, principalSeconds: u128)
    requires 0 <= id <= U64_MAX && E.CreditOnce(s, id, p, principalSeconds).Ok?
    ensures var (pool, q) := E.CreditOnce(s, id, p, principalSeconds).value;
            && q.principal - p.principal == pool.totalPrincipal - s.pool.totalPrincipal
                == s.pool.yieldBudget - pool.yieldBudget
            && q.pendingWithdraw == p.pendingWithdraw && pool.pendingWithdrawals == s.pool.pendingWithdrawals
  {
    hide Touch, E.YieldFor;
    if Touch(p, s.pool, s.now).Ok? { TouchKeeps(p, s.pool, s.now); }
  }

  lemma RegisterBalances(s: State, id: nat, k: Key, t: State)
    requires E.Register(s, id, k) == Ok(t)
    ensures Balances(s, Epochal(Register(id, k)), t)
  {
    hide E.WeightAndPrincipalSeconds, E.CreditOnce;
    CreditBalances(s, id, s.players[k], E.WeightAndPrincipalSeconds(id, s.epochs[id], s.players[k]).value.1);
  }

  lemma PayoutBalances(s: State, id: nat, k: Key, t: State)
    requires E.Payout(s, id, k) == Ok(t)
    ensures Balances(s, Epochal(Payout(id, k)), t)
  {
    hide Touch;
    if Touch(s.players[k], s.pool, s.now).Ok? { TouchKeeps(s.players[k], s.pool, s.now); }
  }

  lemma EpochBalances(s: State, e: EpochInstr, t: State)
    requires EpochStep(s, e) == Ok(t) && !e.BeginEpoch?
    ensures Balances(s, Epochal(e), t)
  {
    hide E.Payout, E.Register, E.RegistrationClosesAt, E.RolloverDue, Touch;
    match e
    case Register(id, k) => RegisterBalances(s, id, k, t);
    case Payout(id, k) => PayoutBalances(s, id, k, t);
    case _ =>
  }

  lemma RoundClaims(s: State, g: RoundInstr, t: State, k: Key)
    requires RoundStep(s, g) == Ok(t) && Actor(s, Game(g)) == Some(k)
    ensures k in t.players && t.players[k].principal == Before(s, k).principal
    ensures t.players[k].pendingWithdraw == Before(s, k).pendingWithdraw
  {
    hide Touch, R.Quote, R.Joined, R.Reward, R.HouseCut, R.CreateRound, R.VoidRound, R.CloseRound, R.RequestRandomness,
      R.FulfilRound;
    if Touch(Before(s, k), s.pool, s.now).Ok? { TouchKeeps(Before(s, k), s.pool, s.now); }
  }

  lemma RoundBalances(s: State, g: RoundInstr, t: State)
    requires RoundStep(s, g) == Ok(t)
    ensures Balances(s, Game(g), t)
  {
    hide RoundStep;
    RoundLeaves(s, g, t);
    if Actor(s, Game(g)).Some? { RoundClaims(s, g, t, Actor(s, Game(g)).value); }
  }

  lemma BooksMoved(w: World, i: Instr, t: State)
    requires BooksOk(w) && OnlyActor(w.s, i, t) && Balances(w.s, i, t)
    ensures BooksOk(Observe(w, i, t))
  {
    hide Moved, LogNext, MeterNext;
    var s := w.s;
    if Actor(s, i).Some? {
      var k := Actor(s, i).value;
      SumSet(s.players, PRINCIPAL, k, t.players[k]);
      SumSet(s.players, PENDING, k, t.players[k]);
    }
  }

  lemma BooksStep(w: World, i: Instr, t: State)
    requires Step(w.s, i) == Ok(t) && ShapeOk(w.s) && BooksOk(w)
    ensures BooksOk(Observe(w, i, t))
  {
    hide CustodyStep, EpochStep, RoundStep, OnlyActor, Balances, LogNext, MeterNext;
    var s := w.s;
    match i
    case Tick(_) =>
    case Custodial(c) =>
      CustodyEffect(s, c, t);
      CustodyBalances(s, c, t);
      BooksMoved(w, i, t);
    case Game(g) =>
      RoundEffect(s, g, t);
      RoundBalances(s, g, t);
      BooksMoved(w, i, t);
    case Epochal(e) =>
      if e.BeginEpoch? {
        BeginEpochIs(s, e, t);
        BeginEpochBooks(s, e.signer, t);
      } else {
        EpochEffect(s, e, t);
        EpochBalances(s, e, t);
        BooksMoved(w, i, t);
      }
  }

  lemma BeginEpochBooks(s: State, signer: Signer, t: State)
    requires E.BeginEpoch(s, signer) == Ok(t)
    ensures t.players == s.players && t.principalVault == s.principalVault && t.jackpotVault == s.jackpotVault
    ensures t.pool.totalPrincipal == s.pool.totalPrincipal && t.pool.yieldBudget == s.pool.yieldBudget
    ensures t.pool.pendingWithdrawals == s.pool.pendingWithdrawals && t.rounds == s.rounds
    ensures t.pool.jackpotReserved == s.pool.jackpotReserved && t.pool.carryPot == s.pool.carryPot
    ensures t.pool.openRoundId == s.pool.openRoundId && t.pool.nextRoundId == s.pool.nextRoundId
    ensures t.pool.bonusEpoch == s.pool.bonusEpoch && t.pool.bonusGranted == s.pool.bonusGranted
    ensures t.pool.params == s.pool.params && t.pool.shutdown == s.pool.shutdown
  {
    hide E.GridFloor;
  }

  lemma ClaimWithinTotals(w: World, k: Key)
    requires BooksOk(w) && k in w.s.players
    ensures 0 <= w.s.players[k].principal <= w.s.pool.totalPrincipal
    ensures 0 <= w.s.players[k].pendingWithdraw <= w.s.pool.pendingWithdrawals
  {
    SumMember(w.s.players, PRINCIPAL, k);
    SumMember(w.s.players, PENDING, k);
  }
}
