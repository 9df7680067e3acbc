/** Money: conservation, the prize, the yield, and the way out after shutdown, over every run. */
module Solvency {
  import opened Machine
  import opened Ledger
  import opened Touching
  import opened Sums
  import opened Program
  import opened Shape
  import opened Books
  import opened Reserve
  import opened Meters
  import opened Draws
  import opened Yield
  import opened Games
  import opened Grants
  import opened Invariant
  import opened Accrual
  import M = Mirrors
  import C = Custody
  import E = Epochs

  /** The vault plus what the admin has out is every claim there is, and the backend reports exactly that. */
  lemma PrincipalIsConserved(w: World)
    requires Reachable(w)
    ensures w.s.principalVault + w.netOut
         == Sum(w.s.players, PRINCIPAL) + Sum(w.s.players, PENDING) + w.s.pool.yieldBudget
    ensures w.s.pool.totalPrincipal == Sum(w.s.players, PRINCIPAL)
    ensures w.s.pool.pendingWithdrawals == Sum(w.s.players, PENDING)
    ensures M.PrincipalOut(w.s.pool.totalPrincipal, w.s.pool.pendingWithdrawals, w.s.pool.yieldBudget,
                           w.s.principalVault) == M.Max0(w.netOut)
    ensures w.s.pool.yieldBudget == w.funded - w.paid - w.swept
  {
    hide Reachable, ShapeOk, ReserveOk, MetersOk, DrawsOk, GamesOk, GrantsOk;
    ReachableInv(w);
  }

  /** The reserve is exactly what epochs being drawn were promised, and the vault holds all of it. */
  lemma ReserveIsExact(w: World)
    requires Reachable(w)
    ensures w.s.pool.jackpotReserved == Sum(w.s.epochs, RESERVED) <= w.s.jackpotVault
  {
    hide Reachable, BooksOk, ShapeOk, MetersOk, DrawsOk, GamesOk, GrantsOk, YieldOk;
    ReachableInv(w);
  }

  /** An epoch that may roll over does: giving its prize back never underflows the reserve, and the prize stays in
      the vault for the next epoch. */
  lemma RolloverNeverUnderflows(w: World, id: nat)
    requires Reachable(w) && id in w.s.epochs && E.RolloverDue(w.s, w.s.epochs[id]).Ok?
    ensures E.RolloverEpoch(w.s, id).Ok?
    ensures var t := E.RolloverEpoch(w.s, id).value;
            && t.jackpotVault == w.s.jackpotVault && id in t.epochs && t.epochs[id].status.RolledOver?
            && t.pool.jackpotReserved == w.s.pool.jackpotReserved - RESERVED(w.s.epochs[id])
  {
    hide Reachable, BooksOk, ShapeOk, MetersOk, DrawsOk, GamesOk, GrantsOk, YieldOk, E.RegistrationClosesAt;
    ReachableInv(w);
    SumMember(w.s.epochs, RESERVED, id);
  }

  /** Closing registration promises the whole unreserved jackpot or nothing: a draw starts if and only if somebody
      registered and the jackpot is large enough, and it then holds everything in the vault. */
  lemma PrizeIsAllThereIs(w: World, signer: Signer, id: nat, t: State)
    requires Reachable(w) && E.CloseRegistration(w.s, signer, id) == Ok(t)
    ensures id in w.s.epochs && id in t.epochs && t.jackpotVault == w.s.jackpotVault
    ensures t.epochs[id].jackpotAmount == w.s.jackpotVault - w.s.pool.jackpotReserved
    ensures t.epochs[id].status.Drawing? <==>
            w.s.epochs[id].registeredWeight > 0 && t.epochs[id].jackpotAmount >= w.s.pool.params.minJackpot
    ensures t.epochs[id].status.Drawing? ==> t.pool.jackpotReserved == t.jackpotVault
    ensures !t.epochs[id].status.Drawing? ==>
              t.epochs[id].status.RolledOver? && t.pool.jackpotReserved == w.s.pool.jackpotReserved
  {
    hide Reachable, E.RegistrationClosesAt;
    ReserveIsExact(w);
  }

  /** Outside shutdown as well, a request is paid exactly when it is due and the vault can pay it: the books never
      stand in the way. */
  lemma RequestPaidExactly(w: World, k: Key)
    requires Reachable(w) && k in w.s.players
    ensures var p, deadline := w.s.players[k], w.s.players[k].requestedAt + w.s.pool.params.epochSeconds;
            C.ProcessWithdraw(w.s, k).Ok? <==>
            && p.pendingWithdraw > 0 && deadline <= I64_MAX && p.pendingWithdraw <= w.s.principalVault
            && (w.s.pool.shutdown || w.s.pool.currentEpochId > p.pendingEpoch || w.s.now > deadline)
  {
    hide Reachable, ShapeOk, ReserveOk, MetersOk, DrawsOk, GamesOk, GrantsOk, YieldOk;
    ReachableInv(w);
    SumMember(w.s.players, PENDING, k);
  }

  /** The pool's counter of operator grants is the sum of the players' counters for the current epoch. */
  lemma GrantCountersAgree(w: World)
    requires Reachable(w)
    ensures PoolGranted(w.s.pool) == Sum(w.s.players, GrantedIn(w.s.pool.currentEpochId))
  {
    hide Reachable, BooksOk, ShapeOk, MetersOk, DrawsOk, GamesOk, ReserveOk, YieldOk;
    ReachableInv(w);
  }

  /** What compounding a prize needs: the winner can be touched, and the vault, the pool's total and the winner's
      Tickets have room for it. */
  predicate RoomFor(s: State, p: Player, amount: u64) {
    && WeightFits(p, s.pool, s.now)
    && s.principalVault + amount <= U64_MAX && s.pool.totalPrincipal + amount <= U64_MAX
    && EffectiveEntries(p, s.pool.currentEpochId) + amount <= U64_MAX
  }

  /** The account owns the point that the epoch drew. */
  predicate Won(s: State, id: nat, k: Key) {
    && id in s.epochs && k in s.players && s.epochs[id].status.Drawn?
    && s.players[k].regEpoch == id && s.players[k].regStart <= s.epochs[id].target < s.players[k].regEnd
  }

  /** The prize of a drawn epoch is in the vault, whatever else happened. Asked to pay any account, `payout` does so if
      and only if that account owns the drawn point and is the House or has room to compound the prize; the rightful
      winner is refused for an overflow and nothing else, and anybody else for not being it. */
  lemma PrizeIsPayable(w: World, id: nat, k: Key)
    requires Reachable(w)
    ensures id in w.s.epochs && w.s.epochs[id].status.Drawn? ==>
              w.s.epochs[id].jackpotAmount <= w.s.pool.jackpotReserved <= w.s.jackpotVault
    ensures E.Payout(w.s, id, k).Ok? <==>
            Won(w.s, id, k) && (w.s.players[k].isHouse || RoomFor(w.s, w.s.players[k], w.s.epochs[id].jackpotAmount))
    ensures Paid(w.s, id, k, E.Payout(w.s, id, k))
  {
    hide Reachable, BooksOk, EpochsOk, MetersOk, DrawsOk, GamesOk, GrantsOk, YieldOk, Paid, E.Payout, WeightFits, Touch;
    ReachableInv(w);
    if Won(w.s, id, k) {
      SumMember(w.s.epochs, RESERVED, id);
      TouchSucceedsExactly(w, k);
      ClaimWithinTotals(w, k);
      PayoutOutcome(w.s, id, k);
    } else {
      PayoutRefused(w.s, id, k);
      if id in w.s.epochs { SumMember(w.s.epochs, RESERVED, id); }
    }
  }

  /** The outcome of a payout: the prize leaves the vault for the winner, or the reason for a refusal is true. */
  predicate Paid(s: State, id: nat, k: Key, r: Result<State>) {
    match r
    case Err(e) =>
      if Won(s, id, k) then e == ArithmeticOverflow
      else if id !in s.epochs || k !in s.players then e == AccountMissing
      else if !s.epochs[id].status.Drawn? then e == EpochNotDrawn
      else if s.players[k].regEpoch != id then e == NotRegistered
      else e == NotTheWinner
    case Ok(t) =>
      && Won(s, id, k) && id in t.epochs && t.epochs[id].status.Paid? && t.epochs[id].winner == Some(k)
      && s.jackpotVault - t.jackpotVault == PrizeOut(s.epochs[id], s.players[k])
  }

  lemma PayoutRefused(s: State, id: nat, k: Key)
    requires !Won(s, id, k)
    ensures E.Payout(s, id, k).Err? && Paid(s, id, k, E.Payout(s, id, k))
  {
    hide Touch;
  }

  lemma PayoutOutcome(s: State, id: nat, k: Key)
    requires Won(s, id, k) && PlayersOk(s)
    requires s.epochs[id].jackpotAmount <= s.pool.jackpotReserved <= s.jackpotVault
    requires s.players[k].principal <= s.pool.totalPrincipal
    requires Touch(s.players[k], s.pool, s.now).Ok? <==> WeightFits(s.players[k], s.pool, s.now)
    ensures E.Payout(s, id, k).Ok? <==> s.players[k].isHouse || RoomFor(s, s.players[k], s.epochs[id].jackpotAmount)
    ensures Paid(s, id, k, E.Payout(s, id, k))
  {
    hide Touch, WeightFits, PlayerOk;
    TouchFails(s.players[k], s.pool, s.now);
    if Touch(s.players[k], s.pool, s.now).Ok? { TouchOk(k, s.players[k], s.pool, s.now); }
  }

  /** Sweeping never reaches into a promised prize. */
  lemma SweepSparesPrize(w: World, signer: Signer, t: State)
    requires Reachable(w) && C.SweepHouse(w.s, signer) == Ok(t)
    ensures t.jackpotVault == t.pool.jackpotReserved == Sum(t.epochs, RESERVED)
    ensures w.s.principalVault >= w.s.pool.totalPrincipal + w.s.pool.pendingWithdrawals ==>
              t.principalVault >= t.pool.totalPrincipal + t.pool.pendingWithdrawals
  {
    hide Reachable, BooksOk, ShapeOk, MetersOk, DrawsOk, GamesOk, GrantsOk, YieldOk;
    ReachableInv(w);
  }

  /** An epoch that is over stays exactly as it is for the rest of any run. */
  lemma {:induction false} OverIsFinal(w: World, trace: seq<Instr>, id: nat)
    requires Inv(w) && id in w.s.epochs && Rank(w.s.epochs[id].status) == 4
    ensures id in Run(w, trace).s.epochs && Run(w, trace).s.epochs[id] == w.s.epochs[id]
  {
    hide Inv;
    if trace != [] {
      var v, i := Run(w, trace[..|trace| - 1]), trace[|trace| - 1];
      OverIsFinal(w, trace[..|trace| - 1], id);
      InvRun(w, trace[..|trace| - 1]);
      OverStays(v, i, id);
    }
  }

  lemma OverStays(v: World, i: Instr, id: nat)
    requires Inv(v) && id in v.s.epochs && Rank(v.s.epochs[id].status) == 4
    ensures id in Next(v, i).s.epochs && Next(v, i).s.epochs[id] == v.s.epochs[id]
  {
    hide Step, ShapeOk, BooksOk, ReserveOk, MetersOk, DrawsOk, YieldOk, GamesOk, GrantsOk, MeterNext, LogNext;
    if Step(v.s, i).Ok? { ShapeStep(v.s, i, Step(v.s, i).value); }
  }

  /** Each epoch pays at most once: after a payout, no run leads to a second one. */
  lemma {:induction false} PaysAtMostOnce(w: World, id: nat, k: Key, trace: seq<Instr>, other: Key)
    requires Reachable(w) && Step(w.s, Epochal(Payout(id, k))).Ok?
    ensures Step(Run(Next(w, Epochal(Payout(id, k))), trace).s, Epochal(Payout(id, other))).Err?
  {
    hide Reachable, Inv, Run, MeterNext, LogNext, Touch;
    ReachableInv(w);
    var i := Epochal(Payout(id, k));
    var v := Next(w, i);
    InvNext(w, i);
    assert v.s.epochs[id].status.Paid?;
    OverIsFinal(v, trace, id);
  }
}
