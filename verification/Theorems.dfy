/** The main results, for every reachable world. */
module Theorems {
  import opened Machine
  import opened Ledger
  import opened Touching
  import opened Program
  import opened Shape
  import opened Books
  import opened Reserve
  import opened Meters
  import opened Draws
  import opened Yield
  import opened Games
  import opened Invariant
  import opened Accrual
  import M = Mirrors
  import S = Solvency
  import E = Epochs
  import Vrf

  /** Lazy accrual refines eager integration: whatever touches happened and whenever, what `register` computes
      for the ended epoch is the player's integral over that epoch. The weight rule itself refuses exactly the players
      who were not there yet, whose integral is nothing, and a weight that does not fit 128 bits; when the whole
      instruction succeeds is `Enrolment.RegisterSucceedsExactly`. */
  lemma LazyRefinesEager(w: World, k: Key)
    requires Reachable(w) && k in w.s.players && w.s.pool.currentEpochId >= 2
    ensures var id := w.s.pool.currentEpochId - 1;
            && id in w.s.epochs
            && var owed := E.WeightAndPrincipalSeconds(id, w.s.epochs[id], w.s.players[k]);
               && (owed.Ok? ==> Meter(owed.value.0, owed.value.1) == PastOf(w, k))
               && (owed == Err(FrozenEpochMismatch) <==> k !in w.past)
               && (owed == Err(ArithmeticOverflow) <==> PastOf(w, k).weight > U128_MAX)
               && (owed.Err? ==> owed.error == FrozenEpochMismatch || owed.error == ArithmeticOverflow)
               && (owed.Ok? ==> M.RegistrationWeight(w.s.players[k], id, w.s.epochs[id].startsAt, w.s.epochs[id].endsAt)
                                == PastOf(w, k).weight)
  {
    hide Reachable, MetersOk, DrawsOk, YieldOk, GamesOk, ReserveOk, Ordered, E.WeightAndPrincipalSeconds,
      M.RegistrationWeight, M.WeightAt;
    ReachableInv(w);
    RegisterFindsIntegral(w, k);
    WeightRefusesExactly(w, k);
    M.ThreeWeightsAgree(w, k);
  }

  lemma TouchKeepsOwed(id: nat, epoch: Epoch, k: Key, p: Player, pool: Pool, now: i64)
    requires PlayerOk(k, p, pool, now) && id >= 1 && id == pool.currentEpochId - 1 && Touch(p, pool, now).Ok?
    requires epoch.startsAt == pool.previousEpochStart && epoch.endsAt == pool.previousEpochEndsAt
    ensures E.WeightAndPrincipalSeconds(id, epoch, Touch(p, pool, now).value) == E.WeightAndPrincipalSeconds(id, epoch, p)
  {
  }

  /** Touching commutes with registering: for the epoch just ended, `register` finds the same weight and
      principal-seconds, or the same refusal, before a touch and after it; the backend's two copies do too. */
  lemma TouchCommutes(w: World, k: Key)
    requires Reachable(w) && k in w.s.players && w.s.pool.currentEpochId >= 2
    requires Touch(w.s.players[k], w.s.pool, w.s.now).Ok?
    ensures var id, p, q := w.s.pool.currentEpochId - 1, w.s.players[k], Touch(w.s.players[k], w.s.pool, w.s.now).value;
            && id in w.s.epochs
            && var epoch := w.s.epochs[id];
               && E.WeightAndPrincipalSeconds(id, epoch, q) == E.WeightAndPrincipalSeconds(id, epoch, p)
               && M.RegistrationWeight(q, id, epoch.startsAt, epoch.endsAt)
                  == M.RegistrationWeight(p, id, epoch.startsAt, epoch.endsAt)
               && M.WeightAt(q, id, epoch.startsAt, epoch.endsAt) == M.WeightAt(p, id, epoch.startsAt, epoch.endsAt)
  {
    hide Reachable, BooksOk, MetersOk, DrawsOk, YieldOk, GamesOk, ReserveOk, Ordered, E.WeightAndPrincipalSeconds,
      M.RegistrationWeight, M.WeightAt, Touch, PlayerOk;
    ReachableInv(w);
    var id: nat := w.s.pool.currentEpochId - 1;
    var p, pool, epoch := w.s.players[k], w.s.pool, w.s.epochs[id];
    TouchKeepsOwed(id, epoch, k, p, pool, w.s.now);
    TouchOk(k, p, pool, w.s.now);
    M.WeightsAgree(id, epoch, k, p, pool, w.s.now);
    M.WeightsAgree(id, epoch, k, Touch(p, pool, w.s.now).value, pool, w.s.now);
    M.TouchKeepsMirror(id, epoch, k, p, pool, w.s.now);
  }

  /** Who passes `payout`'s checks, given the log entry that contains the target. */
  lemma HolderIsOwner(w: World, id: nat, j: nat, k: Key)
    requires DrawsOk(w) && id in w.s.epochs && id > 0 && k in w.s.players
    requires j < |w.log[id]| && Contains(w.log[id][j], w.s.epochs[id].target)
    requires forall i :: 0 <= i < |w.log[id]| && Contains(w.log[id][i], w.s.epochs[id].target) ==> i == j
    ensures E.HoldsTarget(id, w.s.epochs[id], w.s.players[k]) <==>
            k == w.log[id][j].k && w.s.players[k].regEpoch == id
  {
    hide JustEndedOk, Tiled;
    var p, log := w.s.players[k], w.log[id];
    assert HeldOk(w, k) && LogOk(w.s.epochs[id], log);
    if p.regEpoch == id {
      var i :| 0 <= i < |log| && log[i] == Interval(k, p.regStart, p.regEnd);
      if k == log[j].k { assert i == j; }
    }
  }

  lemma DrawnOwner(w: World, id: nat) returns (j: nat)
    requires ShapeOk(w.s) && DrawsOk(w) && id in w.s.epochs && w.s.epochs[id].status.Drawn?
    ensures id in w.log && j < |w.log[id]| && Contains(w.log[id][j], w.s.epochs[id].target)
    ensures forall k :: k in w.s.players ==>
              (E.HoldsTarget(id, w.s.epochs[id], w.s.players[k]) <==>
               k == w.log[id][j].k && w.s.players[k].regEpoch == id)
  {
    hide Ordered, PlayersOk, JustEndedOk, E.HoldsTarget, Contains, HeldOk, Tiled, Distinct;
    assert LogOk(w.s.epochs[id], w.log[id]);
    j := OneOwner(w.log[id], w.s.epochs[id].registeredWeight, w.s.epochs[id].target);
    forall k | k in w.s.players
      ensures E.HoldsTarget(id, w.s.epochs[id], w.s.players[k]) <==>
              k == w.log[id][j].k && w.s.players[k].regEpoch == id
    {
      HolderIsOwner(w, id, j, k);
    }
  }

  /** Once an epoch is drawn, the point it drew belongs to one registration; an account passes `payout` exactly
      when it is that registrant and has not registered for a later epoch since. */
  lemma AtMostOneWinner(w: World, id: nat) returns (j: nat)
    requires Reachable(w) && id in w.s.epochs && w.s.epochs[id].status.Drawn?
    ensures id in w.log && j < |w.log[id]| && Contains(w.log[id][j], w.s.epochs[id].target)
    ensures forall k :: k in w.s.players ==>
              (E.HoldsTarget(id, w.s.epochs[id], w.s.players[k]) <==>
               k == w.log[id][j].k && w.s.players[k].regEpoch == id)
    ensures forall k :: E.Payout(w.s, id, k).Ok? ==>
              k == w.log[id][j].k && k in w.s.players && w.s.players[k].regEpoch == id
  {
    hide Reachable, ShapeOk, DrawsOk, E.HoldsTarget, Contains, E.Payout, S.Paid;
    ReachableInv(w);
    j := DrawnOwner(w, id);
    forall k | E.Payout(w.s, id, k).Ok?
      ensures k == w.log[id][j].k && k in w.s.players && w.s.players[k].regEpoch == id
    {
      PaysHolder(w, id, k);
    }
  }

  lemma PaysHolder(w: World, id: nat, k: Key)
    requires Reachable(w) && E.Payout(w.s, id, k).Ok?
    ensures id in w.s.epochs && w.s.epochs[id].status.Drawn? && k in w.s.players
    ensures E.HoldsTarget(id, w.s.epochs[id], w.s.players[k])
  {
    hide Reachable, E.Payout, S.Paid;
    S.PrizeIsPayable(w, id, k);
  }

  /** A payout goes to the owner of the drawn point: in every reachable world, a payout that succeeds pays the player
      whose registration, the only one in the epoch's log to do so, contains the target. */
  lemma PaysTheOwner(w: World, id: nat, k: Key) returns (j: nat)
    requires Reachable(w) && Step(w.s, Epochal(Payout(id, k))).Ok?
    ensures id in w.s.epochs && w.s.epochs[id].status.Drawn? && id in w.log
    ensures j < |w.log[id]| && w.log[id][j].k == k && Contains(w.log[id][j], w.s.epochs[id].target)
    ensures forall i :: 0 <= i < |w.log[id]| && Contains(w.log[id][i], w.s.epochs[id].target) ==> i == j
  {
    hide Reachable, ShapeOk, E.Payout, Contains, JustEndedOk, HeldOk, Tiled, Distinct, E.HoldsTarget;
    PaysHolder(w, id, k);
    ReachableInv(w);
    j := AtMostOneWinner(w, id);
    assert LogOk(w.s.epochs[id], w.log[id]);
    var i := OneOwner(w.log[id], w.s.epochs[id].registeredWeight, w.s.epochs[id].target);
  }

  /** In the epoch just ended there is exactly one winner, its interval is exactly as long as the weight it
      earned, and no new epoch can begin until it is paid or rolled over. */
  lemma ExactlyOneWinner(w: World, signer: Signer) returns (winner: Key)
    requires Reachable(w) && w.s.pool.currentEpochId >= 2
    requires w.s.pool.currentEpochId - 1 in w.s.epochs && w.s.epochs[w.s.pool.currentEpochId - 1].status.Drawn?
    ensures winner in w.s.players
    ensures var id := w.s.pool.currentEpochId - 1;
            forall k :: k in w.s.players ==>
              (E.HoldsTarget(id, w.s.epochs[id], w.s.players[k]) <==> k == winner)
    ensures w.s.players[winner].regEnd - w.s.players[winner].regStart == PastOf(w, winner).weight
    ensures OnlyPays(w.s, w.s.pool.currentEpochId - 1, winner)
    ensures E.BeginEpoch(w.s, signer).Err?
  {
    hide Reachable, ShapeOk, E.HoldsTarget, Contains, LogOk, HeldOk, MetersOk, YieldOk, GamesOk, E.Payout, OnlyPays;
    ReachableInv(w);
    var id: nat := w.s.pool.currentEpochId - 1;
    var j := DrawnOwner(w, id);
    assert StillHeld(w, id, w.log[id][j]);
    winner := w.log[id][j].k;
    OthersRefused(w, id, winner);
  }

  /** A payout of the epoch can go to nobody but the winner, and every other player is told why. */
  ghost predicate OnlyPays(s: State, id: nat, winner: Key) {
    && (forall k :: E.Payout(s, id, k).Ok? ==> k == winner)
    && forall k :: k in s.players && k != winner ==>
         E.Payout(s, id, k) == Err(NotRegistered) || E.Payout(s, id, k) == Err(NotTheWinner)
  }

  lemma OthersRefused(w: World, id: nat, winner: Key)
    requires Reachable(w) && id in w.s.epochs && w.s.epochs[id].status.Drawn?
    requires forall k :: k in w.s.players ==> (E.HoldsTarget(id, w.s.epochs[id], w.s.players[k]) <==> k == winner)
    ensures OnlyPays(w.s, id, winner)
  {
    hide Reachable, E.Payout, E.HoldsTarget;
    forall k | E.Payout(w.s, id, k).Ok? ensures k == winner { PaysHolder(w, id, k); }
    forall k | k in w.s.players && k != winner
      ensures E.Payout(w.s, id, k) == Err(NotRegistered) || E.Payout(w.s, id, k) == Err(NotTheWinner)
    {
      RefusesOthers(w, id, k);
    }
  }

  lemma RefusesOthers(w: World, id: nat, k: Key)
    requires Reachable(w) && id in w.s.epochs && w.s.epochs[id].status.Drawn? && k in w.s.players
    requires !E.HoldsTarget(id, w.s.epochs[id], w.s.players[k])
    ensures E.Payout(w.s, id, k) == Err(NotRegistered) || E.Payout(w.s, id, k) == Err(NotTheWinner)
  {
    hide Reachable, E.Payout;
    S.PrizeIsPayable(w, id, k);
  }

  /** While the epoch just ended is being drawn or waits to be paid, whoever signs, no epoch begins: the intervals it
      was drawn over cannot be overwritten. */
  lemma DrawHoldsNextEpoch(w: World, signer: Signer)
    requires Reachable(w) && w.s.pool.currentEpochId >= 2
    ensures w.s.pool.currentEpochId - 1 in w.s.epochs
    ensures var status := w.s.epochs[w.s.pool.currentEpochId - 1].status;
            status.Drawing? || status.Drawn? ==> E.BeginEpoch(w.s, signer).Err?
  {
    hide Reachable, PlayersOk, BooksOk, ReserveOk, DrawsOk, MetersOk, YieldOk, GamesOk, Ordered, E.GridFloor;
    ReachableInv(w);
  }

  /** While the epoch just ended is Registering, Drawing or Drawn, its registered players tile the whole
      registered weight: every point has exactly one owner, with the weight it earned. */
  lemma RegistrationTiles(w: World, x: nat) returns (owner: Key)
    requires Reachable(w) && w.s.pool.currentEpochId >= 2 && w.s.pool.currentEpochId - 1 in w.s.epochs
    requires x < w.s.epochs[w.s.pool.currentEpochId - 1].registeredWeight
    ensures owner in w.s.players
    ensures var id := w.s.pool.currentEpochId - 1;
            && (forall k :: k in w.s.players ==>
                 (w.s.players[k].regEpoch == id && w.s.players[k].regStart <= x < w.s.players[k].regEnd
                  <==> k == owner))
            && w.s.players[owner].regEnd - w.s.players[owner].regStart == PastOf(w, owner).weight
  {
    hide Reachable, ShapeOk, Tiled, Distinct, MetersOk, YieldOk, GamesOk;
    ReachableInv(w);
    var id: nat := w.s.pool.currentEpochId - 1;
    var log := w.log[id];
    assert LogOk(w.s.epochs[id], log);
    var j := OneOwner(log, w.s.epochs[id].registeredWeight, x);
    owner := log[j].k;
    assert StillHeld(w, id, log[j]);
    forall k | k in w.s.players && w.s.players[k].regEpoch == id && w.s.players[k].regStart <= x < w.s.players[k].regEnd
      ensures k == owner
    {
      assert HeldOk(w, k);
      var i :| 0 <= i < |log| && log[i] == Interval(k, w.s.players[k].regStart, w.s.players[k].regEnd);
      assert Contains(log[i], x);
    }
  }

  /** The point a sample draws is the remainder it leaves over whole multiples of the registered weight. */
  lemma DrawnPoint(s: State, id: nat, i: nat) returns (t: State, q: nat)
    requires id in s.epochs && s.epochs[id].status.Drawing? && s.epochs[id].oracle.Some?
    requires s.epochs[id].registeredWeight > 0
    requires Vrf.Accepts(s.epochs[id].oracle.value, U128_MAX, s.epochs[id].registeredWeight, i)
    ensures E.Draw(s, id) == Ok(t) && id in t.epochs && t == s.(epochs := t.epochs)
    ensures t.epochs == s.epochs[id := s.epochs[id].(status := Drawn, drawnAt := s.now, target := t.epochs[id].target)]
    ensures var x, total := s.epochs[id].oracle.value[i], s.epochs[id].registeredWeight;
            x == q * total + t.epochs[id].target && 0 <= t.epochs[id].target < total && (q + 1) * total <= U128_MAX
  {
    hide Vrf.Unbiased, Vrf.Limit, Vrf.SampleAt;
    var high: nat;
    var x: u128 := s.epochs[id].oracle.value[i];
    high, q := Vrf.ResultIs(s.epochs[id].oracle.value, U128_MAX, s.epochs[id].registeredWeight, i);
    LowWhole(high, q * s.epochs[id].registeredWeight
                   + Vrf.Unbiased(s.epochs[id].oracle.value, U128_MAX, s.epochs[id].registeredWeight).value);
    t := E.Draw(s, id).value;
  }

  lemma LowWhole(high: nat, low: nat)
    requires high * (U128_MAX + 1) + low <= U128_MAX
    ensures high == 0
  {
  }

  /** Drawing and then paying makes a registered player of the epoch just ended the winner exactly on those samples:
      if the first accepted sample is the one at `i`, the draw succeeds, and `payout` to the player gets past the
      winner's check if and only if that sample favours the player's interval. */
  lemma SampleDecides(w: World, k: Key, i: nat)
    requires Reachable(w) && w.s.pool.currentEpochId >= 2 && k in w.s.players
    requires w.s.players[k].regEpoch == w.s.pool.currentEpochId - 1
    requires var id := w.s.pool.currentEpochId - 1;
             && id in w.s.epochs && w.s.epochs[id].status.Drawing? && w.s.epochs[id].oracle.Some?
             && w.s.epochs[id].registeredWeight > 0
             && Vrf.Accepts(w.s.epochs[id].oracle.value, U128_MAX, w.s.epochs[id].registeredWeight, i)
    ensures var id, p := w.s.pool.currentEpochId - 1, w.s.players[k];
            && E.Draw(w.s, id).Ok?
            && var total := w.s.epochs[id].registeredWeight;
               (E.Payout(E.Draw(w.s, id).value, id, k) != Err(NotTheWinner) <==>
                w.s.epochs[id].oracle.value[i]
                in Vrf.Favours(Vrf.Limit(U128_MAX, total), total, p.regStart, p.regEnd))
  {
    hide Reachable, Vrf.Limit, E.Draw, Touch;
    var id: nat, p := w.s.pool.currentEpochId - 1, w.s.players[k];
    var total := w.s.epochs[id].registeredWeight;
    var t, q := DrawnPoint(w.s, id, i);
    DivUnique(w.s.epochs[id].oracle.value[i], total, q, t.epochs[id].target);
    Vrf.LimitMeaning(U128_MAX, total, q, t.epochs[id].target);
    WinnerCheck(t, id, k);
  }

  lemma WinnerCheck(t: State, id: nat, k: Key)
    requires id in t.epochs && k in t.players && t.epochs[id].status.Drawn? && t.players[k].regEpoch == id
    ensures E.Payout(t, id, k) != Err(NotTheWinner) <==>
            t.players[k].regStart <= t.epochs[id].target < t.players[k].regEnd
  {
    hide Touch;
    TouchFails(t.players[k], t.pool, t.now);
  }

  lemma SamplesDecide(w: World, k: Key)
    requires Reachable(w) && w.s.pool.currentEpochId >= 2 && k in w.s.players
    requires w.s.players[k].regEpoch == w.s.pool.currentEpochId - 1
    requires var id := w.s.pool.currentEpochId - 1;
             && id in w.s.epochs && w.s.epochs[id].status.Drawing? && w.s.epochs[id].oracle.Some?
             && w.s.epochs[id].registeredWeight > 0
    ensures var id, p := w.s.pool.currentEpochId - 1, w.s.players[k];
            var total := w.s.epochs[id].registeredWeight;
            WinsExactlyOn(w.s, id, k, Vrf.Favours(Vrf.Limit(U128_MAX, total), total, p.regStart, p.regEnd))
  {
    hide Reachable, Vrf.Limit, Vrf.SampleAt, Vrf.Favours, E.Draw, E.Payout;
    var id: nat, p := w.s.pool.currentEpochId - 1, w.s.players[k];
    var total := w.s.epochs[id].registeredWeight;
    forall i: nat | Vrf.Accepts(w.s.epochs[id].oracle.value, U128_MAX, total, i)
      ensures E.Draw(w.s, id).Ok?
      ensures E.Payout(E.Draw(w.s, id).value, id, k) != Err(NotTheWinner) <==>
              w.s.epochs[id].oracle.value[i] in Vrf.Favours(Vrf.Limit(U128_MAX, total), total, p.regStart, p.regEnd)
    {
      SampleDecides(w, k, i);
    }
  }

  /** Drawing the epoch makes `k` the winner exactly on the samples in `favoured`: whatever sample is the first to be
      accepted, the draw succeeds, and then `payout` to `k` gets past the winner's check if and only if it is one of them. */
  ghost predicate WinsExactlyOn(s: State, id: nat, k: Key, favoured: set<nat>)
    requires id in s.epochs && s.epochs[id].status.Drawing? && s.epochs[id].oracle.Some?
    requires s.epochs[id].registeredWeight > 0
  {
    forall i: nat :: Vrf.Accepts(s.epochs[id].oracle.value, U128_MAX, s.epochs[id].registeredWeight, i) ==>
      && E.Draw(s, id).Ok?
      && (E.Payout(E.Draw(s, id).value, id, k) != Err(NotTheWinner) <==> s.epochs[id].oracle.value[i] in favoured)
  }

  /** The draw is fair: of the samples it accepts, the number that make a registered player of the epoch just ended
      win, through `draw` and `payout`, is the same multiple of the weight that player earned, whoever it is. */
  lemma DrawIsFair(w: World, k: Key)
    requires Reachable(w) && w.s.pool.currentEpochId >= 2 && k in w.s.players
    requires w.s.players[k].regEpoch == w.s.pool.currentEpochId - 1
    ensures var id, p := w.s.pool.currentEpochId - 1, w.s.players[k];
            && id in w.s.epochs && w.s.epochs[id].registeredWeight > 0
            && var total := w.s.epochs[id].registeredWeight;
               && p.regStart <= p.regEnd <= total
               && |Vrf.Favours(Vrf.Limit(U128_MAX, total), total, p.regStart, p.regEnd)|
                  == Vrf.Limit(U128_MAX, total) / total * PastOf(w, k).weight
               && (w.s.epochs[id].status.Drawing? && w.s.epochs[id].oracle.Some? ==>
                     WinsExactlyOn(w.s, id, k, Vrf.Favours(Vrf.Limit(U128_MAX, total), total, p.regStart, p.regEnd)))
  {
    hide Reachable, PlayersOk, Ordered, Tiled, Distinct, MetersOk, YieldOk, GamesOk, BooksOk, ReserveOk, Vrf.Limit,
      Vrf.Favours, WinsExactlyOn;
    ReachableInv(w);
    var id: nat, p := w.s.pool.currentEpochId - 1, w.s.players[k];
    assert HeldOk(w, k) && LogOk(w.s.epochs[id], w.log[id]);
    var j :| 0 <= j < |w.log[id]| && w.log[id][j] == Interval(k, p.regStart, p.regEnd);
    assert StillHeld(w, id, w.log[id][j]);
    TiledBounds(w.log[id], w.s.epochs[id].registeredWeight, j);
    Vrf.IntervalHits(U128_MAX, w.s.epochs[id].registeredWeight, p.regStart, p.regEnd);
    if w.s.epochs[id].status.Drawing? && w.s.epochs[id].oracle.Some? { SamplesDecide(w, k); }
  }
}
