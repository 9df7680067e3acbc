/** Base yield: what is credited, out of what budget, against what principal. */
module Yield {
  import opened Machine
  import opened Ledger
  import opened Touching
  import opened Sums
  import opened Program
  import opened Effects
  import opened Frames
  import opened Shape
  import opened Meters
  import Books
  import Draws
  import E = Epochs
  import Vrf

  const PRINCIPAL_SECONDS: Meter -> int := (m: Meter) => m.principal

  /** Every unit put into the yield budget is still there, credited, or swept. */
  ghost predicate BudgetOk(w: World) {
    w.s.pool.yieldBudget + w.paid + w.swept == w.funded
  }

  /** Seconds of the current epoch that have passed. */
  function Age(pool: Pool, now: i64): nat { Elapsed(pool.currentEpochStart, AccrueUntil(pool, now)) }

  /** All players' principal-seconds together stay below the peak of the total times the time. */
  ghost predicate LiveBound(w: World) {
    && w.s.pool.totalPrincipal <= w.peak
    && Sum(w.live, PRINCIPAL_SECONDS) <= w.peak * Age(w.s.pool, w.s.now)
  }

  ghost predicate PastBound(w: World) {
    Sum(w.past, PRINCIPAL_SECONDS) <= w.pastPeak * Elapsed(w.s.pool.previousEpochStart, w.s.pool.previousEpochEndsAt)
  }

  /** The principal-seconds of the players already credited for the epoch just ended. */
  ghost function CreditedSeconds(w: World): map<Key, int> {
    map k | k in w.past && k in w.s.players && w.s.players[k].yieldEpoch == w.s.pool.currentEpochId - 1
      :: w.past[k].principal
  }

  ghost predicate CreditBound(w: World) {
    w.credited * E.YIELD_DENOMINATOR <= Sum(CreditedSeconds(w), IDENTITY) * w.topRate
  }

  ghost predicate YieldOk(w: World) {
    && BudgetOk(w)
    && w.s.pool.params.baseRateBps <= w.topRate
    && (w.s.pool.currentEpochId >= 1 ==> LiveBound(w))
    && (w.s.pool.currentEpochId >= 2 ==> PastBound(w) && CreditBound(w))
  }

  /** If every meter gains its player's principal times `d`, the sum gains the total times `d`. */
  lemma {:induction false} MetersGain(players: map<Key, Player>, before: map<Key, Meter>, after: map<Key, Meter>, d: nat)
    requires before.Keys == after.Keys == players.Keys
    requires forall k :: k in after ==> after[k].principal == before[k].principal + players[k].principal * d
    ensures Sum(after, PRINCIPAL_SECONDS) == Sum(before, PRINCIPAL_SECONDS) + Sum(players, Books.PRINCIPAL) * d
  {
    var gain := Scaled(Books.PRINCIPAL, d);
    SumAdd(before, PRINCIPAL_SECONDS, players, gain, after, PRINCIPAL_SECONDS);
    SumScaled(players, Books.PRINCIPAL, d);
  }

  lemma {:induction false} MetersHead(players: map<Key, Player>, live: map<Key, Meter>, d: nat)
    requires live.Keys == players.Keys
    requires forall k :: k in live ==> live[k].principal == players[k].principal * d
    ensures Sum(live, PRINCIPAL_SECONDS) == Sum(players, Books.PRINCIPAL) * d
  {
    var head := Scaled(Books.PRINCIPAL, d);
    SumSame(live, PRINCIPAL_SECONDS, players, head);
    SumScaled(players, Books.PRINCIPAL, d);
  }

  lemma TickLive(w: World, to: clock)
    requires ShapeOk(w.s) && Books.BooksOk(w) && MetersOk(w) && w.s.now <= to
    requires w.s.pool.currentEpochId >= 1 && LiveBound(w)
    ensures LiveBound(Observe(w, Tick(to), w.s.(now := to)))
  {
    hide MeterOk, LogNext, PlayersOk, Ordered, Overlap, Age;
    var t := w.s.(now := to);
    var v := Observe(w, Tick(to), t);
    var d := Overlap(t.pool, w.s.now, to);
    MetersGain(w.s.players, w.live, v.live, d);
    BoundGrows(Sum(w.live, PRINCIPAL_SECONDS), w.s.pool.totalPrincipal, w.peak, Age(w.s.pool, w.s.now), d);
    AgeAdds(w.s.pool, w.s.now, to);
  }

  lemma BoundGrows(sum: int, total: nat, peak: nat, age: nat, d: nat)
    requires sum <= peak * age && total <= peak
    ensures sum + total * d <= peak * (age + d)
  {
    MulLe(total, peak, d);
    assert peak * (age + d) == peak * age + peak * d;
  }

  lemma AgeAdds(pool: Pool, now: clock, to: clock)
    requires now <= to && pool.currentEpochId >= 1 && 0 <= pool.currentEpochStart <= now
    ensures Age(pool, to) == Age(pool, now) + Overlap(pool, now, to)
  {
  }

  lemma BegunUncredited(w: World, i: Instr, t: State)
    requires Begun(w.s, t) && Opens(i) && PlayersOk(w.s) && w.s.pool.currentEpochId >= 1
    ensures CreditedSeconds(Observe(w, i, t)) == map[]
  {
    hide LogNext, MeterNext;
    forall k | k in t.players
      ensures t.players[k].yieldEpoch != t.pool.currentEpochId - 1
    {
      assert PlayerOk(k, w.s.players[k], w.s.pool, w.s.now);
    }
  }

  lemma BegunLive(w: World, i: Instr, t: State)
    requires Begun(w.s, t) && Opens(i) && Books.BooksOk(w) && EpochsOk(w.s)
    requires t.pool.totalPrincipal == w.s.pool.totalPrincipal
    ensures LiveBound(Observe(w, i, t))
  {
    hide LogNext, Age, Gain, Min, EpochsOk;
    var v := Observe(w, i, t);
    assert forall k :: k in v.live ==> v.live[k].principal == t.players[k].principal * Age(t.pool, t.now) by {
      BegunAge(w.s, t);
    }
    MetersHead(t.players, v.live, Age(t.pool, t.now));
  }

  lemma BegunAge(s: State, t: State)
    requires Begun(s, t) && EpochsOk(s)
    ensures Age(t.pool, t.now) == Gain(t.pool.currentEpochStart, Min(t.now, t.pool.currentEpochEndsAt))
  {
  }

  lemma BegunYield(w: World, i: Instr, t: State)
    requires Begun(w.s, t) && Opens(i) && ShapeOk(w.s) && Books.BooksOk(w) && YieldOk(w)
    requires t.pool.totalPrincipal == w.s.pool.totalPrincipal && t.pool.yieldBudget == w.s.pool.yieldBudget
    ensures YieldOk(Observe(w, i, t))
  {
    hide LogNext, MeterNext, Ordered, CreditedSeconds, PlayersOk;
    BegunLive(w, i, t);
    if w.s.pool.currentEpochId >= 1 { BegunUncredited(w, i, t); }
  }

  /** Any instruction inside an epoch leaves everybody's principal-seconds alone. */
  lemma MovedLive(w: World, i: Instr, t: State)
    requires MetersOk(w) && OnlyActor(w.s, i, t) && !i.Tick? && !Opens(i) && w.s.pool.currentEpochId >= 1
    requires i.Game? && i.g.BuyPosition? ==> i.g.id in w.s.rounds && i.g.id in t.rounds && Pays(w.s, i, t)
    requires LiveBound(w)
    ensures LiveBound(Observe(w, i, t))
  {
    hide MeterOk, LogNext, Moved, MeterNext, Age;
    var v := Observe(w, i, t);
    forall k | k in t.players
      ensures k in w.live ==> v.live[k].principal == w.live[k].principal
      ensures k !in w.live ==> v.live[k].principal == 0
    {
      MeterNextMoved(w, i, t, k);
    }
    SumSame(w.live, PRINCIPAL_SECONDS, v.live, PRINCIPAL_SECONDS);
    MulLe(w.peak, v.peak, Age(w.s.pool, w.s.now));
    AgeSame(w.s.pool, t.pool, w.s.now);
  }

  lemma AgeSame(a: Pool, b: Pool, now: i64)
    requires SameEpochs(a, b)
    ensures Age(a, now) == Age(b, now)
  {
  }

  /** Who has been credited does not change, and the rate can only have been higher before. */
  lemma MovedCredit(w: World, i: Instr, t: State)
    requires MetersOk(w) && OnlyActor(w.s, i, t) && !i.Tick? && !Opens(i) && w.s.pool.currentEpochId >= 2
    requires !(i.Epochal? && i.e.Register?) && CreditBound(w)
    requires Actor(w.s, i).Some? && Actor(w.s, i).value in t.players ==>
               Before(w.s, Actor(w.s, i).value).yieldEpoch == t.players[Actor(w.s, i).value].yieldEpoch
    ensures CreditBound(Observe(w, i, t))
  {
    hide MeterOk, LogNext, Moved, MeterNext;
    var v := Observe(w, i, t);
    assert CreditedSeconds(v) == CreditedSeconds(w);
    CreditGrows(w.credited, w.credited, CreditedSeconds(w), w.topRate, v.topRate);
  }

  lemma {:induction false} CreditGrows(before: nat, after: nat, seconds: map<Key, int>, rate: nat, top: nat)
    requires before * E.YIELD_DENOMINATOR <= Sum(seconds, IDENTITY) * rate && rate <= top && before == after
    requires forall k :: k in seconds ==> seconds[k] >= 0
    ensures after * E.YIELD_DENOMINATOR <= Sum(seconds, IDENTITY) * top
  {
    var none: map<Key, int> := map[];
    SumLe(none, IDENTITY, seconds, IDENTITY);
    MulLe(rate, top, Sum(seconds, IDENTITY));
  }

  lemma CustodyBudget(s: State, c: CustodyInstr, t: State)
    requires CustodyStep(s, c) == Ok(t)
    ensures t.pool.yieldBudget <= s.pool.yieldBudget
    ensures !c.SweepHouse? ==> t.pool.yieldBudget == s.pool.yieldBudget
  {
    hide CustodyStep;
    CustodyLeaves(s, c, t);
  }

  lemma RoundBudget(s: State, g: RoundInstr, t: State)
    requires RoundStep(s, g) == Ok(t)
    ensures t.pool.yieldBudget == s.pool.yieldBudget
  {
    hide RoundStep;
    RoundLeaves(s, g, t);
  }

  lemma EpochBudget(s: State, e: EpochInstr, t: State)
    requires EpochStep(s, e) == Ok(t) && !e.BeginEpoch? && !e.Register?
    ensures t.pool.yieldBudget == s.pool.yieldBudget + if e.FundYield? then e.amount else 0
  {
    hide Touch, E.RegistrationClosesAt, E.RolloverDue, E.Register, E.Payout, E.BeginEpoch, Vrf.Unbiased;
    if e.Payout? { PayoutBudget(s, e.id, e.k, t); }
  }

  lemma PayoutBudget(s: State, id: nat, k: Key, t: State)
    requires E.Payout(s, id, k) == Ok(t)
    ensures t.pool.yieldBudget == s.pool.yieldBudget
  {
    hide Touch;
  }

  /** A registration credits at most the yield of the principal-seconds it found, once. */
  ghost predicate Credits(s: State, id: nat, k: Key, t: State) {
    && id in s.epochs && k in s.players && k in t.players && t.players[k].yieldEpoch == id
    && t.pool.yieldBudget + t.pool.totalPrincipal == s.pool.yieldBudget + s.pool.totalPrincipal
    && s.pool.totalPrincipal <= t.pool.totalPrincipal
    && (s.players[k].yieldEpoch == id ==> t.pool.totalPrincipal == s.pool.totalPrincipal)
    && E.WeightAndPrincipalSeconds(id, s.epochs[id], s.players[k]).Ok?
    && (t.pool.totalPrincipal - s.pool.totalPrincipal) * E.YIELD_DENOMINATOR
       <= E.WeightAndPrincipalSeconds(id, s.epochs[id], s.players[k]).value.1 * s.pool.params.baseRateBps
    && t.pool.params == s.pool.params
  }

  lemma YieldForBound(principalSeconds: u128, rate: bps)
    requires E.YieldFor(principalSeconds, rate).Ok?
    ensures E.YieldFor(principalSeconds, rate).value * E.YIELD_DENOMINATOR <= principalSeconds * rate
  {
  }

  lemma CreditOnceCredits(s: State, id: nat, p: Player, principalSeconds: u128)
    requires 0 <= id <= U64_MAX && E.CreditOnce(s, id, p, principalSeconds).Ok?
    ensures var (pool, q) := E.CreditOnce(s, id, p, principalSeconds).value;
            && q.yieldEpoch == id && pool.params == s.pool.params
            && pool.yieldBudget + pool.totalPrincipal == s.pool.yieldBudget + s.pool.totalPrincipal
            && s.pool.totalPrincipal <= pool.totalPrincipal
            && (p.yieldEpoch == id ==> pool.totalPrincipal == s.pool.totalPrincipal)
            && (pool.totalPrincipal - s.pool.totalPrincipal) * E.YIELD_DENOMINATOR
               <= principalSeconds * s.pool.params.baseRateBps
  {
    hide Touch, E.YieldFor;
    if p.yieldEpoch != id { YieldForBound(principalSeconds, s.pool.params.baseRateBps); }
  }

  lemma RegisterCredits(s: State, id: nat, k: Key, t: State)
    requires E.Register(s, id, k) == Ok(t)
    ensures Credits(s, id, k, t)
  {
    hide Touch, E.WeightAndPrincipalSeconds, E.CreditOnce;
    CreditOnceCredits(s, id, s.players[k], E.WeightAndPrincipalSeconds(id, s.epochs[id], s.players[k]).value.1);
  }

  /** The new registrant joins the credited ones. */
  lemma CreditedAfter(w: World, id: nat, k: Key, t: State)
    requires OnlyActor(w.s, Epochal(Register(id, k)), t) && k in t.players && t.players[k].yieldEpoch == id
    requires id == w.s.pool.currentEpochId - 1 && k in w.s.players
    ensures var before, after := CreditedSeconds(w), CreditedSeconds(Observe(w, Epochal(Register(id, k)), t));
            after == if k in w.past then before[k := w.past[k].principal] else before
  {
    hide LogNext, Moved, MeterNext;
  }

  /** What a registration credits, against the player's integral. */
  lemma GainBound(w: World, id: nat, k: Key, t: State)
    requires ShapeOk(w.s) && MetersOk(w) && Credits(w.s, id, k, t) && id == w.s.pool.currentEpochId - 1 && id >= 1
    ensures (t.pool.totalPrincipal - w.s.pool.totalPrincipal) * E.YIELD_DENOMINATOR
            <= PastOf(w, k).principal * w.s.pool.params.baseRateBps
  {
    hide MetersOk, ShapeOk, E.WeightAndPrincipalSeconds;
    Draws.RegisterFindsIntegral(w, k);
  }

  /** One more credited player, or the same ones again. */
  lemma {:induction false} BoundAfter(
      before: map<Key, int>, after: map<Key, int>, k: Key, seconds: nat, known: bool, credited: nat, gain: nat,
      rate: nat, top: nat, next: nat)
    requires after == if known then before[k := seconds] else before
    requires (k in before ==> before[k] == seconds && gain == 0) && (!known ==> seconds == 0)
    requires credited * E.YIELD_DENOMINATOR <= Sum(before, IDENTITY) * top && gain * E.YIELD_DENOMINATOR <= seconds * rate
    requires rate <= next && top <= next && forall j :: j in before ==> before[j] >= 0
    ensures (credited + gain) * E.YIELD_DENOMINATOR <= Sum(after, IDENTITY) * next
  {
    CreditGrows(credited, credited, before, top, next);
    if known && k !in before {
      SumSet(before, IDENTITY, k, seconds);
      CreditAdds(credited, gain, Sum(before, IDENTITY), seconds, rate, next);
    } else {
      if !known { NoGain(gain, rate); }
      assert after == before;
    }
  }

  lemma NoGain(gain: nat, rate: nat)
    requires gain * E.YIELD_DENOMINATOR <= 0 * rate
    ensures gain == 0
  {
  }

  lemma RegisterBound(w: World, id: nat, k: Key, t: State)
    requires ShapeOk(w.s) && MetersOk(w) && YieldOk(w) && OnlyActor(w.s, Epochal(Register(id, k)), t)
    requires Credits(w.s, id, k, t) && id == w.s.pool.currentEpochId - 1 && id >= 1
    ensures CreditBound(Observe(w, Epochal(Register(id, k)), t))
  {
    hide MetersOk, LogNext, OnlyActor, MeterNext, ShapeOk, E.WeightAndPrincipalSeconds, LiveBound, PastBound;
    var v := Observe(w, Epochal(Register(id, k)), t);
    GainBound(w, id, k, t);
    CreditedAfter(w, id, k, t);
    BoundAfter(CreditedSeconds(w), CreditedSeconds(v), k, PastOf(w, k).principal, k in w.past, w.credited,
               t.pool.totalPrincipal - w.s.pool.totalPrincipal, w.s.pool.params.baseRateBps, w.topRate, v.topRate);
  }

  lemma CreditAdds(credited: nat, gain: nat, sum: int, seconds: nat, rate: nat, top: nat)
    requires credited * E.YIELD_DENOMINATOR <= sum * top && gain * E.YIELD_DENOMINATOR <= seconds * rate && rate <= top
    ensures (credited + gain) * E.YIELD_DENOMINATOR <= (sum + seconds) * top
  {
    MulLe(rate, top, seconds);
    assert (sum + seconds) * top == sum * top + seconds * top;
  }

  lemma MovedPast(w: World, i: Instr, t: State)
    requires OnlyActor(w.s, i, t) && !Opens(i) && PastBound(w)
    ensures PastBound(Observe(w, i, t))
  {
    hide Moved, LogNext, MeterNext;
  }

  lemma RegisterYield(w: World, id: nat, k: Key, t: State)
    requires E.Register(w.s, id, k) == Ok(t) && ShapeOk(w.s) && MetersOk(w) && YieldOk(w)
    ensures YieldOk(Observe(w, Epochal(Register(id, k)), t))
  {
    hide E.Register, MetersOk, OnlyActor, LogNext, MeterNext, Ordered, LiveBound, PastBound, CreditBound;
    RegisterEffect(w.s, id, k, t);
    RegisterCredits(w.s, id, k, t);
    Draws.RegisterWrites(w.s, id, k, t);
    var i := Epochal(Register(id, k));
    assert id >= 1;
    RegisterBound(w, id, k, t);
    MovedLive(w, i, t);
    MovedPast(w, i, t);
  }

  lemma YieldMoved(w: World, i: Instr, t: State)
    requires MetersOk(w) && YieldOk(w) && OnlyActor(w.s, i, t) && !i.Tick? && !Opens(i)
    requires !(i.Epochal? && i.e.Register?)
    requires i.Game? && i.g.BuyPosition? ==> i.g.id in w.s.rounds && i.g.id in t.rounds && Pays(w.s, i, t)
    requires Actor(w.s, i).Some? && Actor(w.s, i).value in t.players ==>
               Before(w.s, Actor(w.s, i).value).yieldEpoch == t.players[Actor(w.s, i).value].yieldEpoch
    requires BudgetOk(Observe(w, i, t))
    ensures YieldOk(Observe(w, i, t))
  {
    hide MetersOk, LogNext, MeterNext, LiveBound, PastBound, CreditBound, Pays, BudgetOk, Moved;
    if w.s.pool.currentEpochId >= 1 { MovedLive(w, i, t); }
    if w.s.pool.currentEpochId >= 2 {
      MovedPast(w, i, t);
      MovedCredit(w, i, t);
    }
  }

  lemma TickCredit(w: World, to: clock)
    requires CreditBound(w)
    ensures CreditBound(Observe(w, Tick(to), w.s.(now := to)))
  {
    hide LogNext, MeterNext;
    var v := Observe(w, Tick(to), w.s.(now := to));
    assert CreditedSeconds(v) == CreditedSeconds(w);
    CreditGrows(w.credited, v.credited, CreditedSeconds(w), w.topRate, v.topRate);
  }

  lemma TickYield(w: World, to: clock)
    requires ShapeOk(w.s) && Books.BooksOk(w) && MetersOk(w) && YieldOk(w) && w.s.now <= to
    ensures YieldOk(Observe(w, Tick(to), w.s.(now := to)))
  {
    hide MetersOk, LogNext, MeterNext, LiveBound, ShapeOk, Books.BooksOk, CreditBound;
    if w.s.pool.currentEpochId >= 1 { TickLive(w, to); }
    if w.s.pool.currentEpochId >= 2 { TickCredit(w, to); }
  }

  lemma YieldStep(w: World, i: Instr, t: State)
    requires Step(w.s, i) == Ok(t) && ShapeOk(w.s) && Books.BooksOk(w) && MetersOk(w) && YieldOk(w)
    ensures YieldOk(Observe(w, i, t))
  {
    hide CustodyStep, EpochStep, RoundStep, OnlyActor, MetersOk, MeterNext, LogNext, Begun, ShapeOk, YieldOk,
      Books.BooksOk, Pays;
    var s := w.s;
    match i
    case Tick(to) => TickYield(w, to);
    case Custodial(c) =>
      CustodyEffect(s, c, t);
      if Actor(s, i).Some? && Actor(s, i).value in t.players { Draws.CustodyReg(s, c, t, Actor(s, i).value); }
      CustodyBudget(s, c, t);
      YieldHasBudget(w);
      YieldMoved(w, i, t);
    case Game(g) =>
      RoundEffect(s, g, t);
      if Actor(s, i).Some? && Actor(s, i).value in t.players { Draws.RoundRegAll(s, g, t, Actor(s, i).value); }
      if g.BuyPosition? { BuyPays(s, g, t); }
      RoundBudget(s, g, t);
      YieldHasBudget(w);
      YieldMoved(w, i, t);
    case Epochal(e) =>
      if e.BeginEpoch? {
        BeginEpochIs(s, e, t);
        BeginEpochBegins(s, e.signer, t);
        Books.BeginEpochBooks(s, e.signer, t);
        BegunYield(w, i, t);
      } else if e.Register? {
        Draws.RegisterStepIs(s, e, t);
        RegisterYield(w, e.id, e.k, t);
      } else {
        EpochEffect(s, e, t);
        if e.Payout? { Draws.PayoutStepIs(s, e, t); Draws.PayoutReg(s, e.id, e.k, t); }
        EpochBudget(s, e, t);
        YieldHasBudget(w);
        YieldMoved(w, i, t);
      }
  }

  lemma YieldHasBudget(w: World)
    requires YieldOk(w)
    ensures BudgetOk(w)
  {
  }
}
