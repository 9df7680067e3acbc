/** Registration lays the players out as intervals; the draw picks a point; one player owns it. */
module Draws {
  import opened Machine
  import opened Ledger
  import opened Touching
  import opened Program
  import opened Effects
  import opened Shape
  import opened Meters
  import Vrf
  import C = Custody
  import E = Epochs
  import R = Rounds

  /** The intervals follow one another, each non-empty, from 0 to `total`. */
  ghost predicate Tiled(log: seq<Interval>, total: nat) {
    if log == [] then total == 0
    else
      var last := log[|log| - 1];
      last.start < last.end == total && Tiled(log[..|log| - 1], last.start)
  }

  predicate Contains(v: Interval, x: nat) { v.start <= x < v.end }

  lemma {:induction false} TiledBounds(log: seq<Interval>, total: nat, j: nat)
    requires Tiled(log, total) && j < |log|
    ensures log[j].start < log[j].end <= total
  {
    if j < |log| - 1 {
      TiledBounds(log[..|log| - 1], log[|log| - 1].start, j);
    }
  }

  /** Every point below the total is in exactly one interval. */
  lemma {:induction false} OneOwner(log: seq<Interval>, total: nat, x: nat) returns (j: nat)
    requires Tiled(log, total) && x < total
    ensures j < |log| && Contains(log[j], x)
    ensures forall i :: 0 <= i < |log| && Contains(log[i], x) ==> i == j
  {
    var n := |log| - 1;
    if log[n].start <= x {
      j := n;
      forall i | 0 <= i < n
        ensures !Contains(log[i], x)
      {
        TiledBounds(log[..n], log[n].start, i);
      }
    } else {
      j := OneOwner(log[..n], log[n].start, x);
    }
  }

  ghost predicate Distinct(log: seq<Interval>) {
    forall i, j :: 0 <= i < j < |log| ==> log[i].k != log[j].k
  }

  /** One epoch against the observer's log of it. */
  ghost predicate LogOk(epoch: Epoch, log: seq<Interval>) {
    && Tiled(log, epoch.registeredWeight) && Distinct(log) && |log| == epoch.registeredCount
    && (epoch.status.Open? ==> log == [])
    && (epoch.status.Drawing? ==> epoch.registeredWeight > 0)
    && (epoch.status.Drawn? ==> epoch.target < epoch.registeredWeight)
  }

  /** A player's registration is the one the log has for it. */
  ghost predicate HeldOk(w: World, k: Key)
    requires k in w.s.players
  {
    var p := w.s.players[k];
    p.regEpoch > 0 ==> p.regEpoch in w.log && Interval(k, p.regStart, p.regEnd) in w.log[p.regEpoch]
  }

  /** In the epoch just ended, a logged interval is still held, and is as long as the player's integral. */
  ghost predicate StillHeld(w: World, id: nat, v: Interval) {
    && v.k in w.s.players
    && w.s.players[v.k].regEpoch == id && w.s.players[v.k].regStart == v.start && w.s.players[v.k].regEnd == v.end
    && v.end - v.start == PastOf(w, v.k).weight
  }

  ghost predicate JustEndedOk(w: World) {
    var id := w.s.pool.currentEpochId - 1;
    id >= 1 && id in w.log ==> forall j :: 0 <= j < |w.log[id]| ==> StillHeld(w, id, w.log[id][j])
  }

  ghost predicate DrawsOk(w: World) {
    && w.log.Keys == w.s.epochs.Keys
    && (forall e :: e in w.s.epochs ==> LogOk(w.s.epochs[e], w.log[e]))
    && (forall k :: k in w.s.players ==> HeldOk(w, k))
    && JustEndedOk(w)
  }

  predicate SameReg(p: Player, q: Player) {
    p.regEpoch == q.regEpoch && p.regStart == q.regStart && p.regEnd == q.regEnd
  }

  predicate SameBonus(p: Player, q: Player) { p.bonusEpoch == q.bonusEpoch && p.bonusGranted == q.bonusGranted }

  lemma CustodyReg(s: State, c: CustodyInstr, t: State, k: Key)
    requires CustodyStep(s, c) == Ok(t) && Actor(s, Custodial(c)) == Some(k) && k in t.players
    ensures SameReg(Before(s, k), t.players[k]) && Before(s, k).yieldEpoch == t.players[k].yieldEpoch
    ensures !c.GrantTickets? ==> SameBonus(Before(s, k), t.players[k])
  {
    hide Touch, C.CounterAfter, C.PoolBonusCap, C.SetParams, C.SetPause, C.SetFeaturePause, C.Shutdown, C.AdminWithdraw,
      C.TransferIn, C.SweepHouse;
    if Touch(Before(s, k), s.pool, s.now).Ok? { TouchKeeps(Before(s, k), s.pool, s.now); }
  }

  lemma RoundReg(s: State, g: RoundInstr, t: State, k: Key)
    requires RoundStep(s, g) == Ok(t) && Actor(s, Game(g)) == Some(k) && k in t.players && k in s.players
    ensures SameReg(s.players[k], t.players[k]) && s.players[k].yieldEpoch == t.players[k].yieldEpoch
    ensures SameBonus(s.players[k], t.players[k])
  {
    hide Touch, R.Quote, R.Joined, R.Reward, R.HouseCut;
    if Touch(s.players[k], s.pool, s.now).Ok? { TouchKeeps(s.players[k], s.pool, s.now); }
  }

  /** An instruction that leaves registrations alone leaves the layout alone. */
  lemma DrawsKept(w: World, i: Instr, t: State)
    requires DrawsOk(w) && OnlyActor(w.s, i, t) && !Opens(i)
    requires LogNext(w, i, t) == w.log && t.epochs.Keys == w.s.epochs.Keys
    requires forall e :: e in w.s.epochs ==> LogOk(t.epochs[e], w.log[e])
    requires Actor(w.s, i).Some? && Actor(w.s, i).value in t.players ==>
               SameReg(Before(w.s, Actor(w.s, i).value), t.players[Actor(w.s, i).value])
    ensures DrawsOk(Observe(w, i, t))
  {
    hide Moved, MeterNext, LogOk, LogNext;
    var v := Observe(w, i, t);
    forall k | k in t.players
      ensures HeldOk(v, k)
    {
      if k in w.s.players { assert HeldOk(w, k); }
    }
    var id := w.s.pool.currentEpochId - 1;
    if id >= 1 && id in w.log {
      forall j | 0 <= j < |w.log[id]|
        ensures StillHeld(v, id, w.log[id][j])
      {
        assert StillHeld(w, id, w.log[id][j]);
      }
    }
  }

  lemma NamedLog(s: State, e: EpochInstr, t: State, log: seq<Interval>)
    requires EpochStep(s, e) == Ok(t) && HasEpoch(e) && !e.Register? && e.id in s.epochs && e.id in t.epochs
    requires LogOk(s.epochs[e.id], log)
    ensures LogOk(t.epochs[e.id], log)
  {
    hide Touch, Tiled, Distinct, E.RegistrationClosesAt, Vrf.Unbiased;
    if e.Draw? { Vrf.UnbiasedOutcome(s.epochs[e.id].oracle.value, U128_MAX, s.epochs[e.id].registeredWeight); }
  }

  lemma PayoutReg(s: State, id: nat, k: Key, t: State)
    requires E.Payout(s, id, k) == Ok(t)
    ensures k in s.players && k in t.players && SameReg(s.players[k], t.players[k])
    ensures s.players[k].yieldEpoch == t.players[k].yieldEpoch && SameBonus(s.players[k], t.players[k])
  {
    hide Touch;
    if Touch(s.players[k], s.pool, s.now).Ok? { TouchKeeps(s.players[k], s.pool, s.now); }
  }

  /** What `register` writes, in terms of the weight it found. */
  ghost predicate Registers(s: State, id: nat, k: Key, t: State) {
    && id in s.epochs && k in s.players && k in t.players
    && s.epochs[id].status.Registering? && id == s.pool.currentEpochId - 1 && s.players[k].regEpoch != id
    && E.WeightAndPrincipalSeconds(id, s.epochs[id], s.players[k]).Ok?
    && var weight, epoch := E.WeightAndPrincipalSeconds(id, s.epochs[id], s.players[k]).value.0, s.epochs[id];
       if weight == 0 then t.epochs == s.epochs && SameReg(s.players[k], t.players[k])
       else
         && id in t.epochs && t.epochs == s.epochs[id := t.epochs[id]]
         && t.epochs[id].registeredWeight == epoch.registeredWeight + weight
         && t.epochs[id].registeredCount == epoch.registeredCount + 1
         && t.epochs[id].status == epoch.status
         && t.players[k].regEpoch == id && t.players[k].regStart == epoch.registeredWeight
         && t.players[k].regEnd == epoch.registeredWeight + weight
  }

  lemma CreditReg(s: State, id: nat, p: Player, principalSeconds: u128)
    requires 0 <= id <= U64_MAX && E.CreditOnce(s, id, p, principalSeconds).Ok?
    ensures SameReg(p, E.CreditOnce(s, id, p, principalSeconds).value.1)
    ensures SameBonus(p, E.CreditOnce(s, id, p, principalSeconds).value.1)
  {
    hide Touch, E.YieldFor;
    if Touch(p, s.pool, s.now).Ok? { TouchKeeps(p, s.pool, s.now); }
  }

  lemma RegisterWrites(s: State, id: nat, k: Key, t: State)
    requires E.Register(s, id, k) == Ok(t)
    ensures Registers(s, id, k, t) && SameBonus(s.players[k], t.players[k])
  {
    hide Touch, E.WeightAndPrincipalSeconds, E.CreditOnce;
    CreditReg(s, id, s.players[k], E.WeightAndPrincipalSeconds(id, s.epochs[id], s.players[k]).value.1);
  }

  /** `register` reads off the fields what they stand for, or refuses what does not fit. */
  ghost predicate Reads(owed: Result<(u128, u128)>, past: Meter) {
    && (owed.Ok? ==> Meter(owed.value.0, owed.value.1) == past)
    && (owed == Err(FrozenEpochMismatch) ==> past == Meter(0, 0))
    && (owed.Err? ==> owed.error == FrozenEpochMismatch || owed.error == ArithmeticOverflow)
    && (owed == Err(ArithmeticOverflow) <==> past.weight > U128_MAX || past.principal > U128_MAX)
  }

  lemma AddChecked(acc: u128, balance: u64, seconds: nat)
    ensures acc + balance * seconds <= U128_MAX ==> 0 <= balance * seconds <= U128_MAX
    ensures 0 <= balance * seconds
  {
    MulLe(0, balance, seconds);
  }

  lemma OwedIsPast(id: nat, epoch: Epoch, k: Key, p: Player, pool: Pool, now: i64)
    requires PlayerOk(k, p, pool, now) && id >= 1 && id == pool.currentEpochId - 1
    requires epoch.startsAt == pool.previousEpochStart && epoch.endsAt == pool.previousEpochEndsAt
    ensures Reads(E.WeightAndPrincipalSeconds(id, epoch, p), LazyPast(p, pool))
  {
    AddChecked(p.weightAcc, p.entries, Elapsed(p.lastUpdate, epoch.endsAt));
    AddChecked(p.principalAcc, p.principal, Elapsed(p.lastUpdate, epoch.endsAt));
    AddChecked(0, p.principal, Elapsed(epoch.startsAt, epoch.endsAt));
    hide Elapsed;
  }

  /** The weight `register` finds is the eager integral; where it refuses a player who was touched again
      without having been there, that integral is zero. */
  lemma RegisterFindsIntegral(w: World, k: Key)
    requires ShapeOk(w.s) && MetersOk(w) && w.s.pool.currentEpochId >= 2 && k in w.s.players
    ensures var id := w.s.pool.currentEpochId - 1;
            Reads(E.WeightAndPrincipalSeconds(id, w.s.epochs[id], w.s.players[k]), PastOf(w, k))
  {
    hide Ordered, E.WeightAndPrincipalSeconds, LazyPast, Lazy, Reads;
    assert MeterOk(w, k) && PlayerOk(k, w.s.players[k], w.s.pool, w.s.now);
    var id: nat := w.s.pool.currentEpochId - 1;
    OwedIsPast(id, w.s.epochs[id], k, w.s.players[k], w.s.pool, w.s.now);
  }

  lemma DrawsRegister(w: World, id: nat, k: Key, t: State)
    requires ShapeOk(w.s) && MetersOk(w) && DrawsOk(w) && Registers(w.s, id, k, t)
    requires OnlyActor(w.s, Epochal(Register(id, k)), t)
    ensures DrawsOk(Observe(w, Epochal(Register(id, k)), t))
  {
    hide Moved, MeterNext, E.WeightAndPrincipalSeconds, MetersOk, Ordered, PlayersOk;
    var i := Epochal(Register(id, k));
    var weight := E.WeightAndPrincipalSeconds(id, w.s.epochs[id], w.s.players[k]).value.0;
    if weight == 0 {
      DrawsKept(w, i, t);
    } else {
      RegisterFindsIntegral(w, k);
      DrawsAppend(w, id, k, t, weight);
    }
  }

  /** One more interval at the end of the layout, for a player that is not in it yet. */
  lemma LogAppend(epoch: Epoch, after: Epoch, log: seq<Interval>, k: Key)
    requires LogOk(epoch, log) && epoch.status.Registering? && after.status.Registering?
    requires epoch.registeredWeight < after.registeredWeight && after.registeredCount == epoch.registeredCount + 1
    requires forall j :: 0 <= j < |log| ==> log[j].k != k
    ensures LogOk(after, log + [Interval(k, epoch.registeredWeight, after.registeredWeight)])
  {
    var next := log + [Interval(k, epoch.registeredWeight, after.registeredWeight)];
    assert next[..|next| - 1] == log;
  }

  lemma DrawsAppend(w: World, id: nat, k: Key, t: State, weight: nat)
    requires DrawsOk(w) && Registers(w.s, id, k, t) && OnlyActor(w.s, Epochal(Register(id, k)), t)
    requires id >= 1 && weight == E.WeightAndPrincipalSeconds(id, w.s.epochs[id], w.s.players[k]).value.0 > 0
    requires weight == PastOf(w, k).weight
    ensures DrawsOk(Observe(w, Epochal(Register(id, k)), t))
  {
    hide Moved, MeterNext, E.WeightAndPrincipalSeconds, LogOk;
    var v := Observe(w, Epochal(Register(id, k)), t);
    var before := w.log[id];
    var added := Interval(k, w.s.epochs[id].registeredWeight, t.epochs[id].registeredWeight);
    assert v.log == w.log[id := before + [added]];
    forall j | 0 <= j < |before| ensures before[j].k != k { assert StillHeld(w, id, before[j]); }
    LogAppend(w.s.epochs[id], t.epochs[id], before, k);
    forall j | 0 <= j < |v.log[id]|
      ensures StillHeld(v, id, v.log[id][j])
    {
      if j < |before| { assert StillHeld(w, id, before[j]); }
    }
    HeldAfterAppend(w, v, id, k, added);
  }

  lemma HeldAfterAppend(w: World, v: World, id: nat, k: Key, added: Interval)
    requires id > 0 && id in w.log && v.log == w.log[id := w.log[id] + [added]]
    requires k in v.s.players && v.s.players == w.s.players[k := v.s.players[k]]
    requires v.s.players[k].regEpoch == id && added == Interval(k, v.s.players[k].regStart, v.s.players[k].regEnd)
    requires forall p :: p in w.s.players ==> HeldOk(w, p)
    ensures forall p :: p in v.s.players ==> HeldOk(v, p)
  {
    forall p | p in v.s.players
      ensures HeldOk(v, p)
    {
      if p == k {
        assert v.log[id][|w.log[id]|] == added;
      } else {
        assert HeldOk(w, p);
        var q := w.s.players[p];
        if q.regEpoch == id { MemberStays(w.log[id], added, Interval(p, q.regStart, q.regEnd)); }
      }
    }
  }

  lemma MemberStays(log: seq<Interval>, added: Interval, v: Interval)
    requires v in log
    ensures v in log + [added]
  {
  }

  lemma BegunLogs(w: World, t: State, e: nat)
    requires Begun(w.s, t) && EpochsOk(w.s) && e in t.epochs && w.log.Keys == w.s.epochs.Keys
    requires forall e :: e in w.s.epochs ==> LogOk(w.s.epochs[e], w.log[e])
    ensures e != w.s.pool.currentEpochId + 1 ==> e in w.log && LogOk(t.epochs[e], w.log[e])
    ensures e == w.s.pool.currentEpochId + 1 ==> LogOk(t.epochs[e], [])
    ensures e == w.s.pool.currentEpochId ==> w.log[e] == []
  {
    hide Ordered, Tiled;
    TiledEmpty();
    if e in w.s.epochs { assert LogOk(w.s.epochs[e], w.log[e]); }
  }

  lemma BegunDraws(w: World, i: Instr, t: State)
    requires Begun(w.s, t) && ShapeOk(w.s) && DrawsOk(w) && Opens(i)
    ensures DrawsOk(Observe(w, i, t))
  {
    hide MeterNext, LogOk, Ordered, HeldOk, PlayerOk;
    var v := Observe(w, i, t);
    var c: nat := w.s.pool.currentEpochId;
    assert v.log == w.log[c + 1 := []];
    forall e | e in t.epochs ensures LogOk(t.epochs[e], v.log[e]) { BegunLogs(w, t, e); }
    forall k | k in t.players ensures HeldOk(v, k) { BegunHeld(w, v, c, k); }
    if c >= 1 { BegunLogs(w, t, c); }
  }

  /** A registration is never for the epoch that is just beginning. */
  lemma BegunHeld(w: World, v: World, c: nat, k: Key)
    requires k in w.s.players && v.s.players == w.s.players && v.log == w.log[c + 1 := []]
    requires HeldOk(w, k) && PlayerOk(k, w.s.players[k], w.s.pool, w.s.now) && c == w.s.pool.currentEpochId
    ensures HeldOk(v, k)
  {
  }

  lemma TiledEmpty()
    ensures Tiled([], 0)
  {
  }

  lemma EpochDraws(w: World, e: EpochInstr, t: State)
    requires EpochStep(w.s, e) == Ok(t) && !e.BeginEpoch? && ShapeOk(w.s) && MetersOk(w) && DrawsOk(w)
    ensures DrawsOk(Observe(w, Epochal(e), t))
  {
    hide EpochStep, OnlyActor, LogOk, MetersOk, MeterNext, Observe, Registers, ShapeOk, JustEndedOk, HeldOk;
    var s := w.s;
    EpochEffect(s, e, t);
    if e.Register? {
      RegisterStepIs(s, e, t);
      RegisterWrites(s, e.id, e.k, t);
      DrawsRegister(w, e.id, e.k, t);
    } else {
      if HasEpoch(e) {
        NamedEpoch(s, e, t);
        NamedLog(s, e, t, w.log[e.id]);
      } else {
        EpochEpochs(s, e, t);
        FundingEpochs(s, e, t);
      }
      if e.Payout? { PayoutStepIs(s, e, t); PayoutReg(s, e.id, e.k, t); }
      DrawsKept(w, Epochal(e), t);
    }
  }

  lemma RegisterStepIs(s: State, e: EpochInstr, t: State)
    requires EpochStep(s, e) == Ok(t) && e.Register?
    ensures E.Register(s, e.id, e.k) == Ok(t)
  {
    hide E.Register;
  }

  lemma PayoutStepIs(s: State, e: EpochInstr, t: State)
    requires EpochStep(s, e) == Ok(t) && e.Payout?
    ensures E.Payout(s, e.id, e.k) == Ok(t)
  {
    hide E.Payout;
  }

  lemma FundingEpochs(s: State, e: EpochInstr, t: State)
    requires EpochStep(s, e) == Ok(t) && (e.FundJackpot? || e.FundYield?)
    ensures t.epochs == s.epochs
  {
  }

  lemma DrawsStep(w: World, i: Instr, t: State)
    requires Step(w.s, i) == Ok(t) && ShapeOk(w.s) && MetersOk(w) && DrawsOk(w)
    ensures DrawsOk(Observe(w, i, t))
  {
    hide CustodyStep, EpochStep, RoundStep, OnlyActor, LogOk, MetersOk, MeterNext, Observe, Begun, ShapeOk;
    var s := w.s;
    match i
    case Tick(to) => TickDraws(w, to);
    case Custodial(c) =>
      CustodyEffect(s, c, t);
      CustodyEpochs(s, c, t);
      if Actor(s, i).Some? && Actor(s, i).value in t.players { CustodyReg(s, c, t, Actor(s, i).value); }
      DrawsKept(w, i, t);
    case Game(g) =>
      RoundEffect(s, g, t);
      RoundEpochs(s, g, t);
      if Actor(s, i).Some? && Actor(s, i).value in t.players { RoundRegAll(s, g, t, Actor(s, i).value); }
      DrawsKept(w, i, t);
    case Epochal(e) =>
      if e.BeginEpoch? {
        BeginEpochIs(s, e, t);
        BeginEpochBegins(s, e.signer, t);
        BegunDraws(w, i, t);
      } else {
        EpochDraws(w, e, t);
      }
  }

  lemma RoundRegAll(s: State, g: RoundInstr, t: State, k: Key)
    requires RoundStep(s, g) == Ok(t) && Actor(s, Game(g)) == Some(k) && k in t.players
    ensures SameReg(Before(s, k), t.players[k]) && Before(s, k).yieldEpoch == t.players[k].yieldEpoch
    ensures SameBonus(Before(s, k), t.players[k])
  {
    RoundPlayerExists(s, g, t, k);
    RoundReg(s, g, t, k);
  }

  lemma RoundPlayerExists(s: State, g: RoundInstr, t: State, k: Key)
    requires RoundStep(s, g) == Ok(t) && Actor(s, Game(g)) == Some(k)
    ensures k in s.players
  {
    hide Touch, R.Quote, R.Joined, R.Staker, R.VoidDue, R.Reward;
  }

  lemma TickDraws(w: World, to: clock)
    requires DrawsOk(w) && w.s.now <= to
    ensures DrawsOk(Observe(w, Tick(to), w.s.(now := to)))
  {
    hide MeterNext, LogOk;
    var v := Observe(w, Tick(to), w.s.(now := to));
    forall k | k in v.s.players ensures HeldOk(v, k) { assert HeldOk(w, k); }
    var id := w.s.pool.currentEpochId - 1;
    if id >= 1 && id in w.log {
      forall j | 0 <= j < |w.log[id]| ensures StillHeld(v, id, w.log[id][j]) { assert StillHeld(w, id, w.log[id][j]); }
    }
  }
}
