/** The epochs over whole runs: when a draw, a rollover and the next epoch go through, that waiting frees an epoch from
    an unanswered or unpaid draw, and the one draw that nothing frees it from. */
module Progress {
  import opened Machine
  import opened Ledger
  import opened Touching
  import opened Program
  import opened Effects
  import opened Frames
  import opened Shape
  import opened Books
  import opened Reserve
  import opened Meters
  import opened Draws
  import opened Yield
  import opened Games
  import opened Grants
  import opened Invariant
  import opened Grid
  import opened Sums
  import Play
  import Solvency
  import E = Epochs
  import Vrf

  /** Every sample of the answer to an epoch's draw lies at or above the rejection limit. */
  predicate Rejected(epoch: Epoch) {
    && epoch.oracle.Some? && epoch.registeredWeight > 0
    && forall i :: 0 <= i < TRIES ==>
         Vrf.Limit(U128_MAX, epoch.registeredWeight) <= Vrf.SampleAt(epoch.oracle.value, U128_MAX, i)
  }

  lemma DrawOutcome(s: State, id: nat)
    requires id in s.epochs && s.epochs[id].status.Drawing? && s.epochs[id].registeredWeight > 0
    ensures match E.Draw(s, id)
            case Ok(t) => s.epochs[id].oracle.Some? && !Rejected(s.epochs[id])
            case Err(e) =>
              if s.epochs[id].oracle.None? then e == RandomnessNotFulfilled
              else e == RandomnessRejection && Rejected(s.epochs[id])
  {
    hide Vrf.Unbiased, Vrf.Limit, Vrf.SampleAt;
    if s.epochs[id].oracle.Some? {
      Vrf.UnbiasedOutcome(s.epochs[id].oracle.value, U128_MAX, s.epochs[id].registeredWeight);
    }
  }

  lemma DrawingWeighs(w: World, id: nat)
    requires DrawsOk(w) && id in w.s.epochs && w.s.epochs[id].status.Drawing?
    ensures w.s.epochs[id].registeredWeight > 0
  {
    hide HeldOk, JustEndedOk, Tiled, Distinct;
    assert LogOk(w.s.epochs[id], w.log[id]);
  }

  /** A draw goes through if and only if it was asked for and not made, the oracle answered, and some sample of the answer
      is accepted; one that is pending fails only for want of an answer or of an accepted sample. */
  lemma DrawsExactly(w: World, id: nat)
    requires Reachable(w)
    ensures E.Draw(w.s, id).Ok? <==>
            && id in w.s.epochs && w.s.epochs[id].status.Drawing? && w.s.epochs[id].oracle.Some?
            && !Rejected(w.s.epochs[id])
    ensures id in w.s.epochs && w.s.epochs[id].status.Drawing? && E.Draw(w.s, id).Err? ==>
              E.Draw(w.s, id).error
              == if w.s.epochs[id].oracle.None? then RandomnessNotFulfilled else RandomnessRejection
  {
    hide Reachable, ShapeOk, BooksOk, ReserveOk, MetersOk, DrawsOk, YieldOk, GamesOk, GrantsOk, E.Draw, Rejected;
    ReachableInv(w);
    if id in w.s.epochs && w.s.epochs[id].status.Drawing? {
      DrawingWeighs(w, id);
      DrawOutcome(w.s, id);
    } else {
      DrawRefused(w.s, id);
    }
  }

  lemma DrawRefused(s: State, id: nat)
    requires id !in s.epochs || !s.epochs[id].status.Drawing?
    ensures E.Draw(s, id).Err?
  {
  }

  /** When anyone may end an epoch without paying: the wait for what has not come is over. */
  predicate Overdue(pool: Pool, epoch: Epoch, now: clock) {
    match epoch.status
    case Registering =>
      && !pool.jackpotPaused
      && Max(epoch.registrationOpenedAt, epoch.endsAt) + pool.params.registrationWindow + pool.params.vrfTimeout < now
    case Drawing => epoch.oracle.None? && epoch.requestedAt + pool.params.vrfTimeout < now
    case Drawn => epoch.drawnAt + pool.params.payoutTimeout < now
    case _ => false
  }

  lemma DueExactly(s: State, epoch: Epoch)
    ensures E.RolloverDue(s, epoch).Ok? <==> Overdue(s.pool, epoch, s.now)
  {
  }

  /** An epoch rolls over if and only if it is overdue; neither the deadline nor the reserve ever stands in the way. */
  lemma RollsOverExactly(w: World, id: nat)
    requires Reachable(w) && id in w.s.epochs
    ensures E.RolloverEpoch(w.s, id).Ok? <==> Overdue(w.s.pool, w.s.epochs[id], w.s.now)
  {
    hide Reachable, Overdue;
    DueExactly(w.s, w.s.epochs[id]);
    if E.RolloverDue(w.s, w.s.epochs[id]).Ok? { Solvency.RolloverNeverUnderflows(w, id); }
  }

  // ----- the next epoch -----

  /** The grid's period around an instant is representable, from the steps that lead to it to its end. */
  predicate PeriodFits(params: Params, t: clock) {
    var offset, into := t - params.epochAnchor, (t - params.epochAnchor) % params.epochSeconds;
    -I64_MAX - 1 <= offset - into && offset <= I64_MAX && t - into + params.epochSeconds <= I64_MAX
  }

  lemma FloorExactly(anchor: i64, length: period, t: clock)
    ensures E.GridFloor(anchor, length, t).Ok? <==>
            -I64_MAX - 1 <= t - anchor - (t - anchor) % length && t - anchor <= I64_MAX
    ensures E.GridFloor(anchor, length, t).Ok? ==> E.GridFloor(anchor, length, t).value == t - (t - anchor) % length
  {
    assert t - anchor == (t - anchor) / length * length + (t - anchor) % length;
  }

  /** An instant between the last grid point and now has that grid point too. */
  lemma FloorOfStart(anchor: i64, length: period, now: clock, start: clock)
    requires E.GridFloor(anchor, length, now).Ok? && E.GridFloor(anchor, length, now).value <= start <= now
    ensures E.GridFloor(anchor, length, start) == E.GridFloor(anchor, length, now)
  {
    FloorExactly(anchor, length, now);
    FloorExactly(anchor, length, start);
    var into, q := (now - anchor) % length, (now - anchor) / length;
    assert now - anchor == q * length + into;
    DivUnique(start - anchor, length, q, start - (now - into));
    hide E.GridFloor;
  }

  /** What `begin_epoch` needs, but for the epoch it could overwrite: the operator, nothing paused, the current epoch
      over, and numbers and a grid that do not run out. */
  predicate Ready(pool: Pool, signer: Signer, now: clock) {
    && signer.operator && !pool.shutdown && !pool.jackpotPaused && pool.currentEpochId < U64_MAX
    && (pool.currentEpochId > 0 ==> pool.currentEpochEndsAt <= now) && PeriodFits(pool.params, now)
  }

  lemma StartIs(s: State)
    requires EpochsOk(s)
    ensures E.NextEpochStart(s).Ok? <==>
            s.pool.currentEpochId == 0
            || (s.pool.currentEpochEndsAt <= s.now
                && E.GridFloor(s.pool.params.epochAnchor, s.pool.params.epochSeconds, s.now).Ok?)
    ensures E.NextEpochStart(s).Ok? ==>
              var start := E.NextEpochStart(s).value;
              && 0 <= start <= s.now
              && (E.GridFloor(s.pool.params.epochAnchor, s.pool.params.epochSeconds, start)
                  == E.GridFloor(s.pool.params.epochAnchor, s.pool.params.epochSeconds, s.now))
  {
    hide Ordered, E.GridFloor;
    var floor := E.GridFloor(s.pool.params.epochAnchor, s.pool.params.epochSeconds, s.now);
    if s.pool.currentEpochId > 0 && s.pool.currentEpochEndsAt <= s.now && floor.Ok? {
      FloorBelow(s.pool.params, s.now);
      FloorOfStart(s.pool.params.epochAnchor, s.pool.params.epochSeconds, s.now,
                   Max(s.pool.currentEpochEndsAt, floor.value));
    }
  }

  lemma FloorBelow(params: Params, t: clock)
    requires E.GridFloor(params.epochAnchor, params.epochSeconds, t).Ok?
    ensures E.GridFloor(params.epochAnchor, params.epochSeconds, t).value <= t
  {
    FloorExactly(params.epochAnchor, params.epochSeconds, t);
  }

  lemma BeginOutcome(s: State, signer: Signer)
    requires EpochsOk(s)
    ensures E.BeginEpoch(s, signer).Ok? <==> Ready(s.pool, signer, s.now) && E.MayLeaveBehind(s)
  {
    hide Ordered, E.GridFloor, E.NextEpochStart, E.MayLeaveBehind;
    StartIs(s);
    FloorExactly(s.pool.params.epochAnchor, s.pool.params.epochSeconds, s.now);
  }

  /** An epoch begins if and only if the operator signs, nothing is paused, the epoch before the current one is not
      being drawn or waiting to be paid, the current one has ended, and the numbers and the grid do not run out. */
  lemma BeginsExactly(w: World, signer: Signer)
    requires Reachable(w)
    ensures E.BeginEpoch(w.s, signer).Ok? <==> Ready(w.s.pool, signer, w.s.now) && E.MayLeaveBehind(w.s)
  {
    hide Reachable, EpochsOk, PlayersOk, BooksOk, ReserveOk, MetersOk, DrawsOk, YieldOk, GamesOk, GrantsOk, E.BeginEpoch,
      E.MayLeaveBehind, Ready;
    ReachableInv(w);
    BeginOutcome(w.s, signer);
  }

  // ----- waiting is enough -----

  lemma RolloverWrites(s: State, id: nat, t: State)
    requires E.RolloverEpoch(s, id) == Ok(t)
    ensures id in s.epochs && t.epochs == s.epochs[id := s.epochs[id].(status := RolledOver)]
    ensures t.pool == s.pool.(jackpotReserved := t.pool.jackpotReserved) && t.now == s.now
  {
    hide E.RolloverDue;
  }

  /** After waiting until an epoch is overdue, anyone's call rolls it over and gives its prize back, so waiting frees
      `begin_epoch` from a draw that is not answered or not paid: the next epoch can then begin if and only if
      everything but that draw allows it. */
  lemma {:induction false} WaitingFreesEpoch(w: World, id: nat, to: clock, signer: Signer)
    requires Reachable(w) && id in w.s.epochs && w.s.now <= to && Overdue(w.s.pool, w.s.epochs[id], to)
    ensures var v := Run(w, [Tick(to), Epochal(RolloverEpoch(id))]);
            && id in v.s.epochs && v.s.epochs[id].status.RolledOver? && v.s.jackpotVault == w.s.jackpotVault
            && v.s.pool.jackpotReserved == w.s.pool.jackpotReserved - RESERVED(w.s.epochs[id])
            && (id + 1 == w.s.pool.currentEpochId ==>
                  (E.BeginEpoch(v.s, signer).Ok? <==> Ready(w.s.pool, signer, to)))
  {
    hide Reachable, E.RolloverEpoch, E.BeginEpoch, MeterNext, LogNext, Overdue, Ready;
    var wait, over := Tick(to), Epochal(RolloverEpoch(id));
    var v := Next(w, wait);
    assert v.s == w.s.(now := to);
    ReachableNext(w, wait);
    DueExactly(v.s, v.s.epochs[id]);
    Solvency.RolloverNeverUnderflows(v, id);
    RolloverWrites(v.s, id, E.RolloverEpoch(v.s, id).value);
    ReachableNext(v, over);
    BeginsExactly(Next(v, over), signer);
    SameReady(w.s.pool, Next(v, over).s.pool, signer, to);
    Play.RunOfTwo(w, wait, over);
  }

  lemma SameReady(a: Pool, b: Pool, signer: Signer, now: clock)
    requires b == a.(jackpotReserved := b.jackpotReserved)
    ensures Ready(a, signer, now) <==> Ready(b, signer, now)
  {
  }

  // ----- the draw that nothing frees -----

  /** An epoch whose draw was answered, and every sample rejected. */
  predicate Jammed(s: State, id: nat) {
    id in s.epochs && s.epochs[id].status.Drawing? && Rejected(s.epochs[id])
  }

  lemma JammedStays(s: State, e: EpochInstr, t: State, id: nat)
    requires EpochStep(s, e) == Ok(t) && HasEpoch(e) && Jammed(s, id)
    ensures e.id != id
  {
    hide Rejected, E.Draw, Vrf.Unbiased, E.WeightAndPrincipalSeconds, E.CreditOnce, Touch, E.RegistrationClosesAt;
    JammedWeighs(s.epochs[id]);
    DrawOutcome(s, id);
  }

  lemma JammedWeighs(epoch: Epoch)
    requires Rejected(epoch)
    ensures epoch.oracle.Some? && epoch.registeredWeight > 0
  {
  }

  lemma JammedNext(w: World, i: Instr, id: nat)
    requires Inv(w) && Jammed(w.s, id)
    ensures id in Next(w, i).s.epochs && Next(w, i).s.epochs[id] == w.s.epochs[id]
    ensures id + 1 == w.s.pool.currentEpochId ==> Next(w, i).s.pool.currentEpochId == w.s.pool.currentEpochId
  {
    hide CustodyStep, EpochStep, RoundStep, MeterNext, LogNext, PlayersOk, BooksOk, ReserveOk, MetersOk, DrawsOk, YieldOk,
      GamesOk, GrantsOk, Rejected, Ordered;
    if Step(w.s, i).Ok? {
      var t := Step(w.s, i).value;
      match i
      case Tick(_) =>
      case Custodial(c) => CustodyLeaves(w.s, c, t);
      case Game(g) => RoundLeaves(w.s, g, t);
      case Epochal(e) => JammedEpochal(w.s, e, t, id);
    }
  }

  lemma JammedEpochal(s: State, e: EpochInstr, t: State, id: nat)
    requires EpochStep(s, e) == Ok(t) && EpochsOk(s) && Jammed(s, id)
    ensures id in t.epochs && t.epochs[id] == s.epochs[id]
    ensures id + 1 == s.pool.currentEpochId ==> t.pool.currentEpochId == s.pool.currentEpochId
  {
    hide EpochStep, Rejected, Ordered, Begun;
    if e.BeginEpoch? {
      BeginEpochIs(s, e, t);
      JammedBegin(s, e.signer, t, id);
    } else {
      EpochLeaves(s, e, t);
      if HasEpoch(e) {
        JammedStays(s, e, t, id);
        NamedEpoch(s, e, t);
      } else {
        FundingEpochs(s, e, t);
      }
    }
  }

  lemma JammedBegin(s: State, signer: Signer, t: State, id: nat)
    requires E.BeginEpoch(s, signer) == Ok(t) && EpochsOk(s) && Jammed(s, id)
    ensures id in t.epochs && t.epochs[id] == s.epochs[id] && id + 1 != s.pool.currentEpochId
  {
    hide E.GridFloor, E.NextEpochStart, Rejected, Ordered;
  }

  /** What is for ever after a rejected draw, whatever runs: the epoch is as it was, its prize stays reserved, no call
      draws it, pays it or rolls it over, and if it was the one just ended, no epoch begins. */
  predicate JammedAfter(w: World, id: nat, trace: seq<Instr>, k: Key, signer: Signer)
    requires id in w.s.epochs
  {
    var s := Run(w, trace).s;
    && id in s.epochs && s.epochs[id] == w.s.epochs[id] && s.epochs[id].jackpotAmount <= s.pool.jackpotReserved
    && E.Draw(s, id).Err? && E.Payout(s, id, k).Err? && E.RolloverEpoch(s, id).Err?
    && (id + 1 == w.s.pool.currentEpochId ==> E.BeginEpoch(s, signer).Err? && s.pool.currentEpochId == id + 1)
  }

  lemma {:induction false} JammedRun(w: World, id: nat, trace: seq<Instr>)
    requires Inv(w) && Jammed(w.s, id)
    ensures var s := Run(w, trace).s;
            && id in s.epochs && s.epochs[id] == w.s.epochs[id]
            && (id + 1 == w.s.pool.currentEpochId ==> s.pool.currentEpochId == id + 1)
  {
    hide Inv, Next, Rejected;
    if trace != [] {
      JammedRun(w, id, trace[..|trace| - 1]);
      InvRun(w, trace[..|trace| - 1]);
      JammedNext(Run(w, trace[..|trace| - 1]), trace[|trace| - 1], id);
    }
  }

  lemma JammedRefuses(w: World, id: nat, k: Key, signer: Signer)
    requires Inv(w) && Jammed(w.s, id)
    ensures w.s.epochs[id].jackpotAmount <= w.s.pool.jackpotReserved
    ensures E.Draw(w.s, id).Err? && E.Payout(w.s, id, k).Err? && E.RolloverEpoch(w.s, id).Err?
    ensures id + 1 == w.s.pool.currentEpochId ==> E.BeginEpoch(w.s, signer).Err?
  {
    hide ShapeOk, BooksOk, MetersOk, DrawsOk, YieldOk, GamesOk, GrantsOk, Rejected, E.Draw, E.GridFloor;
    JammedWeighs(w.s.epochs[id]);
    DrawOutcome(w.s, id);
    SumMember(w.s.epochs, RESERVED, id);
    if id + 1 == w.s.pool.currentEpochId { FirstIsOne(w.s, id); }
  }

  /** A rejected answer is for good: over every run nothing changes the epoch, its prize stays reserved, and if it is the
      epoch just ended, no epoch begins ever again. */
  lemma RejectedForGood(w: World, id: nat, trace: seq<Instr>, k: Key, signer: Signer)
    requires Reachable(w) && Jammed(w.s, id)
    ensures JammedAfter(w, id, trace, k, signer)
  {
    hide Reachable, Inv, Run, Rejected, E.Draw, E.Payout, E.RolloverEpoch, E.BeginEpoch;
    ReachableInv(w);
    InvRun(w, trace);
    JammedRun(w, id, trace);
    JammedRefuses(Run(w, trace), id, k, signer);
  }
}
