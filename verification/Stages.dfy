/** What the epoch instructions do: when registration closes and money comes in, and the whole of what each of them
    changes. When they succeed otherwise is in `Progress`, `Enrolment` and `Solvency`. */
module Stages {
  import opened Machine
  import opened Ledger
  import opened Touching
  import opened Program
  import opened Effects
  import opened Shape
  import opened Books
  import opened Reserve
  import opened Meters
  import opened Draws
  import opened Yield
  import opened Games
  import opened Grants
  import opened Invariant
  import opened Accrual
  import opened Visible
  import Enrolment
  import Progress
  import Earnings
  import Solvency
  import E = Epochs

  // ----- the next epoch -----

  /** The start and the end of an epoch that begins now: from its predecessor's end or the last grid point, whichever
      is later, to the next grid point. */
  predicate Spans(s: State, start: int, end: int) {
    var p := s.pool.params;
    var into := (s.now - p.epochAnchor) % p.epochSeconds;
    && start == (if s.pool.currentEpochId == 0 then s.now else Max(s.pool.currentEpochEndsAt, s.now - into))
    && end == s.now - into + p.epochSeconds
  }

  predicate BeganWith(s: State, t: State, c: nat) {
    && c == s.pool.currentEpochId && t.pool.currentEpochId == c + 1
    && Spans(s, t.pool.currentEpochStart, t.pool.currentEpochEndsAt)
    && t == s.(epochs := t.epochs,
               pool := s.pool.(currentEpochId := t.pool.currentEpochId,
                               currentEpochStart := t.pool.currentEpochStart,
                               currentEpochEndsAt := t.pool.currentEpochEndsAt,
                               previousEpochStart := s.pool.currentEpochStart,
                               previousEpochEndsAt := s.pool.currentEpochEndsAt))
    && t.epochs.Keys == s.epochs.Keys + {c + 1}
    && (forall e :: e in s.epochs && e != c ==> t.epochs[e] == s.epochs[e])
    && (c in s.epochs ==> t.epochs[c] == s.epochs[c].(status := Registering, registrationOpenedAt := s.now))
    && t.epochs[c + 1] == Epoch(t.pool.currentEpochStart, t.pool.currentEpochEndsAt, Open, 0, 0, 0, 0, 0, None, 0, 0, None)
  }

  lemma BeginSpans(s: State, signer: Signer, t: State)
    requires E.BeginEpoch(s, signer) == Ok(t) && EpochsOk(s)
    ensures Spans(s, t.pool.currentEpochStart, t.pool.currentEpochEndsAt)
  {
    hide Ordered, E.GridFloor, E.MayLeaveBehind;
    Progress.StartIs(s);
    Progress.FloorExactly(s.pool.params.epochAnchor, s.pool.params.epochSeconds, s.now);
  }

  /** `begin_epoch` leaves the current epoch for registration, from this instant on, opens the next one over its span,
      and changes nothing else. */
  lemma BeginDoes(w: World, signer: Signer, t: State)
    requires Reachable(w) && E.BeginEpoch(w.s, signer) == Ok(t)
    ensures BeganWith(w.s, t, w.s.pool.currentEpochId)
  {
    hide Reachable, PlayersOk, BooksOk, ReserveOk, MetersOk, DrawsOk, YieldOk, GamesOk, GrantsOk, Spans, E.BeginEpoch,
      Ordered;
    ReachableInv(w);
    BeginSpans(w.s, signer, t);
    BeginFrame(w.s, signer, t);
    BeginEpochBegins(w.s, signer, t);
  }

  lemma BeginFrame(s: State, signer: Signer, t: State)
    requires E.BeginEpoch(s, signer) == Ok(t)
    ensures t == s.(epochs := t.epochs,
                    pool := s.pool.(currentEpochId := t.pool.currentEpochId,
                                    currentEpochStart := t.pool.currentEpochStart,
                                    currentEpochEndsAt := t.pool.currentEpochEndsAt,
                                    previousEpochStart := s.pool.currentEpochStart,
                                    previousEpochEndsAt := s.pool.currentEpochEndsAt))
  {
    hide E.GridFloor, E.NextEpochStart, E.MayLeaveBehind;
  }

  // ----- registration -----

  predicate MayClose(s: State, signer: Signer, id: nat) {
    && signer.operator && id in s.epochs && s.epochs[id].status.Registering? && !s.pool.shutdown && !s.pool.jackpotPaused
    && Max(s.epochs[id].registrationOpenedAt, s.epochs[id].endsAt) + s.pool.params.registrationWindow <= s.now
  }

  /** Everything no draw was promised yet is the prize. It is promised, and the draw asked for, if someone registered and
      it is large enough; otherwise the epoch is over. */
  predicate Closed(s: State, id: nat, t: State)
    requires id in s.epochs
  {
    var prize, drawn := s.jackpotVault - s.pool.jackpotReserved, t.pool.jackpotReserved == s.jackpotVault;
    && 0 <= prize && id in t.epochs
    && t == s.(epochs := s.epochs[id := t.epochs[id]], pool := s.pool.(jackpotReserved := t.pool.jackpotReserved))
    && t.epochs[id] == s.epochs[id].(jackpotAmount := prize, status := t.epochs[id].status,
                                     requestedAt := t.epochs[id].requestedAt)
    && if s.epochs[id].registeredWeight > 0 && prize >= s.pool.params.minJackpot
       then t.epochs[id].status.Drawing? && t.epochs[id].requestedAt == s.now && drawn
       else t.epochs[id].status.RolledOver? && t.epochs[id].requestedAt == s.epochs[id].requestedAt && t.pool == s.pool
  }

  /** Registration closes if and only if the operator asks for it, nothing is paused, and the window, which opens with
      the epoch's end or with its leaving, is over. */
  lemma ClosesExactly(w: World, signer: Signer, id: nat)
    requires Reachable(w)
    ensures E.CloseRegistration(w.s, signer, id).Ok? <==> MayClose(w.s, signer, id)
    ensures E.CloseRegistration(w.s, signer, id).Ok? ==> Closed(w.s, id, E.CloseRegistration(w.s, signer, id).value)
  {
    hide Reachable, EpochsOk, PlayersOk, BooksOk, MetersOk, DrawsOk, YieldOk, GamesOk, GrantsOk;
    ReachableInv(w);
  }

  /** What a registration credits: the rate on the principal-seconds the player held over the epoch, up to the budget,
      once. */
  function Gained(pool: Pool, id: nat, p: Player, held: nat): nat {
    if p.yieldEpoch == id then 0 else Min(held * pool.params.baseRateBps / E.YIELD_DENOMINATOR, pool.yieldBudget)
  }

  predicate Registered(s: State, id: nat, k: Key, past: Meter, t: State)
    requires id in s.epochs && k in s.players
  {
    var e, v, gain := s.epochs[id], SeenIn(s, k), Gained(s.pool, id, s.players[k], past.principal);
    var credited := v.(principal := v.principal + gain, tickets := v.tickets + gain, yieldEpoch := id);
    && t == s.(players := t.players, epochs := t.epochs, pool := s.pool.(totalPrincipal := t.pool.totalPrincipal,
                                                                        yieldBudget := t.pool.yieldBudget))
    && t.pool.totalPrincipal - s.pool.totalPrincipal == s.pool.yieldBudget - t.pool.yieldBudget == gain
    && if past.weight == 0 then Becomes(s, k, t, credited) && t.epochs == s.epochs
       else
         && Becomes(s, k, t, credited.(regEpoch := id, regStart := e.registeredWeight,
                                       regEnd := e.registeredWeight + past.weight))
         && id in t.epochs && t.epochs == s.epochs[id := t.epochs[id]]
         && t.epochs[id] == e.(registeredWeight := t.epochs[id].registeredWeight,
                               registeredCount := t.epochs[id].registeredCount)
         && t.epochs[id].registeredWeight - e.registeredWeight == past.weight
         && t.epochs[id].registeredCount - e.registeredCount == 1
  }

  lemma YieldIs(seconds: u128, rate: bps)
    requires E.YieldFor(seconds, rate).Ok?
    ensures E.YieldFor(seconds, rate).value == seconds * rate / E.YIELD_DENOMINATOR
  {
  }

  lemma CreditDoes(s: State, id: nat, p: Player, seconds: u128)
    requires Touch(p, s.pool, s.now).Ok? ==> TouchSeen(p, Touch(p, s.pool, s.now).value, s.pool)
    requires 0 <= id <= U64_MAX && p.epochId <= s.pool.currentEpochId && E.CreditOnce(s, id, p, seconds).Ok?
    ensures var (pool, q) := E.CreditOnce(s, id, p, seconds).value;
            var v, gain := Seen(p, s.pool.currentEpochId), Gained(s.pool, id, p, seconds);
            && pool == s.pool.(totalPrincipal := pool.totalPrincipal, yieldBudget := pool.yieldBudget)
            && pool.totalPrincipal - s.pool.totalPrincipal == s.pool.yieldBudget - pool.yieldBudget == gain
            && Seen(q, s.pool.currentEpochId)
               == v.(principal := v.principal + gain, tickets := v.tickets + gain, yieldEpoch := id)
  {
    hide Touch, E.YieldFor;
    if p.yieldEpoch != id { YieldIs(seconds, s.pool.params.baseRateBps); }
  }

  lemma OwedRead(s: State, id: nat, k: Key, t: State)
    requires E.Register(s, id, k) == Ok(t)
    ensures id in s.epochs && k in s.players && E.WeightAndPrincipalSeconds(id, s.epochs[id], s.players[k]).Ok?
  {
    hide E.WeightAndPrincipalSeconds, E.CreditOnce;
  }

  lemma RegisterWrites(s: State, id: nat, k: Key, past: Meter, t: State)
    requires id in s.epochs && k in s.players && id <= U64_MAX && E.Register(s, id, k) == Ok(t)
    requires s.players[k].epochId <= s.pool.currentEpochId
    requires var p, pool := s.players[k], s.pool;
             Touch(p, pool, s.now).Ok? ==> TouchSeen(p, Touch(p, pool, s.now).value, pool)
    requires E.WeightAndPrincipalSeconds(id, s.epochs[id], s.players[k]) == Ok((past.weight, past.principal))
    ensures Registered(s, id, k, past, t)
  {
    hide E.WeightAndPrincipalSeconds, E.CreditOnce, Touch, TouchSeen, Gained;
    CreditDoes(s, id, s.players[k], past.principal);
  }

  /** Registering credits the yield of what the observer saw the player hold, once, adds an interval as long as the weight
      it saw, if there is any, and changes nothing else. */
  lemma RegisterDoes(w: World, id: nat, k: Key, t: State)
    requires Reachable(w) && E.Register(w.s, id, k) == Ok(t)
    ensures id in w.s.epochs && k in w.s.players && Registered(w.s, id, k, PastOf(w, k), t)
  {
    hide Reachable, BooksOk, ReserveOk, MetersOk, DrawsOk, YieldOk, GamesOk, GrantsOk, EpochsOk, PlayersOk, Touch,
      E.WeightAndPrincipalSeconds, WeightFits, TouchSeen, Enrolment.CreditRoom, Enrolment.LayoutRoom, E.Register,
      Registered;
    ReachableInv(w);
    UsableAt(w, k);
    Enrolment.RegisterSucceedsExactly(w, id, k);
    FirstIsOne(w.s, id);
    RegisterFindsIntegral(w, k);
    OwedRead(w.s, id, k, t);
    RegisterWrites(w.s, id, k, PastOf(w, k), t);
  }

  // ----- the prize -----

  predicate PaidOut(s: State, id: nat, k: Key, t: State)
    requires id in s.epochs && k in s.players
  {
    var e, v, prize := s.epochs[id], SeenIn(s, k), s.epochs[id].jackpotAmount;
    && t == s.(players := t.players, epochs := s.epochs[id := e.(status := Paid, winner := Some(k))],
               jackpotVault := t.jackpotVault, principalVault := t.principalVault,
               pool := s.pool.(jackpotReserved := t.pool.jackpotReserved, totalPrincipal := t.pool.totalPrincipal))
    && s.pool.jackpotReserved - t.pool.jackpotReserved == prize
    && s.jackpotVault - t.jackpotVault == PrizeOut(e, s.players[k])
    && if s.players[k].isHouse
       then t.players == s.players && t.principalVault == s.principalVault && t.pool.totalPrincipal == s.pool.totalPrincipal
       else
         && Becomes(s, k, t, v.(principal := v.principal + prize, tickets := v.tickets + prize))
         && t.principalVault - s.principalVault == t.pool.totalPrincipal - s.pool.totalPrincipal == prize
  }

  /** A prize leaves the reserve whole. A player's is compounded: it moves into the principal vault, and into its Principal
      and Tickets. The House takes half and a fifth of its own, and the rest starts the next jackpot. */
  lemma PayoutDoes(w: World, id: nat, k: Key, t: State)
    requires Reachable(w) && E.Payout(w.s, id, k) == Ok(t)
    ensures id in w.s.epochs && k in w.s.players && PaidOut(w.s, id, k, t)
  {
    hide Reachable, Touch, WeightFits, PlayerOk;
    UsableAt(w, k);
  }

  /** An epoch that rolls over gives back what it held, and nothing else changes. */
  lemma RolloverDoes(w: World, id: nat, t: State)
    requires Reachable(w) && E.RolloverEpoch(w.s, id) == Ok(t)
    ensures id in w.s.epochs && t.pool.jackpotReserved == w.s.pool.jackpotReserved - RESERVED(w.s.epochs[id])
    ensures t == w.s.(epochs := w.s.epochs[id := w.s.epochs[id].(status := RolledOver)],
                      pool := w.s.pool.(jackpotReserved := t.pool.jackpotReserved))
  {
    hide Reachable, E.RegistrationClosesAt;
    Solvency.RolloverNeverUnderflows(w, id);
  }

  // ----- what comes in -----

  /** Anyone may add to the jackpot, and to the yield budget until shutdown; the amount arrives in the vault it backs. */
  lemma FundsExactly(s: State, amount: u64)
    ensures E.FundJackpot(s, amount).Ok? <==> s.jackpotVault + amount <= U64_MAX
    ensures E.FundYield(s, amount).Ok? <==> !s.pool.shutdown && s.principalVault + amount <= U64_MAX
                                            && s.pool.yieldBudget + amount <= U64_MAX
    ensures E.FundJackpot(s, amount).Ok? ==>
              var t := E.FundJackpot(s, amount).value;
              t == s.(jackpotVault := t.jackpotVault) && t.jackpotVault - s.jackpotVault == amount
    ensures E.FundYield(s, amount).Ok? ==>
              var t := E.FundYield(s, amount).value;
              && t == s.(principalVault := t.principalVault, pool := s.pool.(yieldBudget := t.pool.yieldBudget))
              && t.principalVault - s.principalVault == t.pool.yieldBudget - s.pool.yieldBudget == amount
  {
  }

  /** The oracle answers a draw that was asked for, once, and its answer is all that changes. */
  lemma DrawAnswered(s: State, id: nat, samples: Samples)
    ensures E.FulfilDraw(s, id, samples).Ok? <==>
            id in s.epochs && s.epochs[id].status.Drawing? && s.epochs[id].oracle.None?
    ensures E.FulfilDraw(s, id, samples).Ok? ==>
              E.FulfilDraw(s, id, samples).value == s.(epochs := s.epochs[id := s.epochs[id].(oracle := Some(samples))])
  {
  }
}
