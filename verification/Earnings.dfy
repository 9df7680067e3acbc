/** Base yield over whole runs: how much, from what, how often, and from when it counts. */
module Earnings {
  import opened Machine
  import opened Ledger
  import opened Touching
  import opened Sums
  import opened Program
  import opened Effects
  import opened Shape
  import opened Books
  import opened Reserve
  import opened Meters
  import opened Draws
  import opened Yield
  import opened Games
  import opened Grants
  import opened Invariant
  import E = Epochs

  /** Everything credited for an epoch together is at most the yield of the highest total principal of that
      epoch held over its whole length, and nothing is credited that was not put in. */
  lemma YieldIsBounded(w: World)
    requires Reachable(w) && w.s.pool.currentEpochId >= 2
    ensures var length := Elapsed(w.s.pool.previousEpochStart, w.s.pool.previousEpochEndsAt);
            w.credited * E.YIELD_DENOMINATOR <= w.pastPeak * length * w.topRate
    ensures w.paid + w.swept + w.s.pool.yieldBudget == w.funded
  {
    hide Reachable, ShapeOk, ReserveOk, MetersOk, DrawsOk, GamesOk, GrantsOk, BooksOk, Elapsed;
    ReachableInv(w);
    var credited := CreditedSeconds(w);
    PastCovers(w);
    MulLe(Sum(credited, IDENTITY), w.pastPeak * Elapsed(w.s.pool.previousEpochStart, w.s.pool.previousEpochEndsAt),
          w.topRate);
  }

  lemma PastCovers(w: World)
    ensures Sum(CreditedSeconds(w), IDENTITY) <= Sum(w.past, PRINCIPAL_SECONDS)
  {
    SumLe(CreditedSeconds(w), IDENTITY, w.past, PRINCIPAL_SECONDS);
  }

  /** The same bound through `yield_for` itself. */
  lemma YieldForBoundsCredit(w: World, seconds: u128, rate: bps)
    requires Reachable(w) && w.s.pool.currentEpochId >= 2 && E.YieldFor(seconds, rate).Ok?
    requires seconds == w.pastPeak * Elapsed(w.s.pool.previousEpochStart, w.s.pool.previousEpochEndsAt)
    requires rate == w.topRate
    ensures w.credited <= E.YieldFor(seconds, rate).value
  {
    hide Reachable, Elapsed;
    YieldIsBounded(w);
    FloorBound(w.credited, seconds * rate, E.YIELD_DENOMINATOR);
  }

  lemma FloorBound(x: int, n: int, d: int)
    requires 0 < d && x * d <= n
    ensures x <= n / d
  {
    assert n == n / d * d + n % d;
    if x > n / d { MulLe(n / d + 1, x, d); }
  }

  /** What a first registration credits, in terms of what it found. */
  lemma CreditOnceExact(s: State, id: nat, p: Player, principalSeconds: u128)
    requires 0 <= id <= U64_MAX && E.CreditOnce(s, id, p, principalSeconds).Ok? && p.yieldEpoch != id
    ensures E.CreditOnce(s, id, p, principalSeconds).value.0.totalPrincipal - s.pool.totalPrincipal
         == Min(principalSeconds * s.pool.params.baseRateBps / E.YIELD_DENOMINATOR, s.pool.yieldBudget)
  {
    hide Touch;
  }

  lemma RegisterCreditExact(s: State, id: nat, k: Key, t: State)
    requires E.Register(s, id, k) == Ok(t) && k in s.players && s.players[k].yieldEpoch != id
    ensures id in s.epochs && E.WeightAndPrincipalSeconds(id, s.epochs[id], s.players[k]).Ok?
    ensures var seconds := E.WeightAndPrincipalSeconds(id, s.epochs[id], s.players[k]).value.1;
            t.pool.totalPrincipal - s.pool.totalPrincipal
            == Min(seconds * s.pool.params.baseRateBps / E.YIELD_DENOMINATOR, s.pool.yieldBudget)
  {
    hide E.CreditOnce, E.WeightAndPrincipalSeconds;
    CreditOnceExact(s, id, s.players[k], E.WeightAndPrincipalSeconds(id, s.epochs[id], s.players[k]).value.1);
  }

  /** A player's first registration for an epoch credits the rate on its principal integrated second by second over
      that epoch, rounded down, as far as the budget goes. */
  lemma CreditIsExact(w: World, id: nat, k: Key, t: State)
    requires Reachable(w) && E.Register(w.s, id, k) == Ok(t) && k in w.s.players && w.s.players[k].yieldEpoch != id
    ensures t.pool.totalPrincipal - w.s.pool.totalPrincipal
         == Min(PastOf(w, k).principal * w.s.pool.params.baseRateBps / E.YIELD_DENOMINATOR, w.s.pool.yieldBudget)
  {
    hide Reachable, E.Register, ShapeOk, BooksOk, ReserveOk, MetersOk, DrawsOk, YieldOk, GamesOk, GrantsOk,
      E.WeightAndPrincipalSeconds;
    ReachableInv(w);
    RegisterCreditExact(w.s, id, k, t);
    RegisterWrites(w.s, id, k, t);
    ShapeSpan(w.s, id);
    RegisterFindsIntegral(w, k);
  }

  /** A player's yield stamp never goes back. */
  lemma StampStep(s: State, i: Instr, t: State, k: Key)
    requires Step(s, i) == Ok(t) && ShapeOk(s) && k in s.players
    ensures k in t.players && s.players[k].yieldEpoch <= t.players[k].yieldEpoch
  {
    hide CustodyStep, EpochStep, RoundStep, Moved, EpochsOk, Begun, Registers, SameReg, SameBonus, PlayerOk;
    match i
    case Tick(_) =>
    case Custodial(c) =>
      CustodyEffect(s, c, t);
      if Actor(s, i) == Some(k) { CustodyReg(s, c, t, k); }
    case Game(g) =>
      RoundEffect(s, g, t);
      if Actor(s, i) == Some(k) { RoundRegAll(s, g, t, k); }
    case Epochal(e) =>
      if e.BeginEpoch? {
        BeginEpochIs(s, e, t);
        BeginEpochBooks(s, e.signer, t);
      } else {
        EpochEffect(s, e, t);
        if e.Register? && e.k == k {
          RegisterStepIs(s, e, t);
          RegisterStamps(s, e.id, k, t);
        } else if e.Payout? && e.k == k {
          PayoutStepIs(s, e, t);
          PayoutReg(s, e.id, k, t);
        }
      }
  }

  lemma RegisterStamps(s: State, id: nat, k: Key, t: State)
    requires E.Register(s, id, k) == Ok(t) && PlayersOk(s) && k in s.players
    ensures k in t.players && t.players[k].yieldEpoch == id >= s.players[k].yieldEpoch
    ensures id == s.pool.currentEpochId - 1
  {
    hide E.Register, E.WeightAndPrincipalSeconds;
    RegisterCredits(s, id, k, t);
    RegisterWrites(s, id, k, t);
    assert PlayerOk(k, s.players[k], s.pool, s.now);
  }

  lemma {:induction false} StampRun(w: World, trace: seq<Instr>, k: Key)
    requires Inv(w) && k in w.s.players
    ensures k in Run(w, trace).s.players
    ensures w.s.players[k].yieldEpoch <= Run(w, trace).s.players[k].yieldEpoch
  {
    hide Inv;
    if trace != [] {
      var v, i := Run(w, trace[..|trace| - 1]), trace[|trace| - 1];
      StampRun(w, trace[..|trace| - 1], k);
      InvRun(w, trace[..|trace| - 1]);
      StampNext(v, i, k);
    }
  }

  lemma StampNext(v: World, i: Instr, k: Key)
    requires Inv(v) && k in v.s.players
    ensures k in Next(v, i).s.players && v.s.players[k].yieldEpoch <= Next(v, i).s.players[k].yieldEpoch
  {
    hide Step, ShapeOk, BooksOk, ReserveOk, MetersOk, DrawsOk, YieldOk, GamesOk, GrantsOk, MeterNext, LogNext;
    if Step(v.s, i).Ok? { StampStep(v.s, i, Step(v.s, i).value, k); }
  }

  /** A player is credited at most once for an epoch: after one registration, a further one for the same epoch,
      whatever ran in between, moves no principal. */
  lemma {:induction false} CreditedAtMostOnce(w: World, id: nat, k: Key, trace: seq<Instr>, t: State)
    requires Reachable(w) && Step(w.s, Epochal(Register(id, k))).Ok?
    requires Step(Run(Next(w, Epochal(Register(id, k))), trace).s, Epochal(Register(id, k))) == Ok(t)
    ensures var s := Run(Next(w, Epochal(Register(id, k))), trace).s;
            && t.pool.totalPrincipal == s.pool.totalPrincipal && t.pool.yieldBudget == s.pool.yieldBudget
            && k in s.players && k in t.players && t.players[k].principal == s.players[k].principal
  {
    hide Reachable, Run, E.Register, MeterNext, LogNext, ShapeOk, BooksOk, ReserveOk, MetersOk, DrawsOk, YieldOk,
      GamesOk, GrantsOk, Credits, Registers;
    ReachableInv(w);
    var i := Epochal(Register(id, k));
    var v := Next(w, i);
    InvNext(w, i);
    assert E.Register(w.s, id, k) == Ok(v.s);
    RegisterNeeds(w.s, id, k, v.s);
    RegisterStamps(w.s, id, k, v.s) by { ShapePlayers(w.s); }
    StampRun(v, trace, k);
    InvRun(v, trace);
    var s := Run(v, trace).s;
    ShapePlayers(s);
    SecondCredit(s, id, k, t);
  }

  lemma RegisterNeeds(s: State, id: nat, k: Key, t: State)
    requires E.Register(s, id, k) == Ok(t)
    ensures k in s.players && id in s.epochs
  {
    hide E.Register;
    RegisterWrites(s, id, k, t);
  }

  lemma SecondCredit(s: State, id: nat, k: Key, t: State)
    requires E.Register(s, id, k) == Ok(t) && PlayersOk(s) && k in s.players && s.players[k].yieldEpoch >= id
    ensures t.pool.totalPrincipal == s.pool.totalPrincipal && t.pool.yieldBudget == s.pool.yieldBudget
    ensures k in t.players && t.players[k].principal == s.players[k].principal
  {
    hide E.Register, E.WeightAndPrincipalSeconds;
    RegisterStamps(s, id, k, t);
    RegisterCredits(s, id, k, t);
    RegisterBalances(s, id, k, t);
  }

  lemma CreditGains(s: State, id: nat, k: Key, p: Player, principalSeconds: u128)
    requires 0 <= id <= U64_MAX && PlayerOk(k, p, s.pool, s.now) && E.CreditOnce(s, id, p, principalSeconds).Ok?
    ensures var (pool, q) := E.CreditOnce(s, id, p, principalSeconds).value;
            var gain, c := pool.totalPrincipal - s.pool.totalPrincipal, s.pool.currentEpochId;
            && q.principal == p.principal + gain && EffectiveEntries(q, c) == EffectiveEntries(p, c) + gain
  {
    hide Touch, E.YieldFor, PlayerOk;
    if Touch(p, s.pool, s.now).Ok? { TouchOk(k, p, s.pool, s.now); }
  }

  /** What a registration credits is added to Principal and to Tickets alike. */
  lemma RegisterGains(s: State, id: nat, k: Key, t: State)
    requires E.Register(s, id, k) == Ok(t) && PlayersOk(s) && k in s.players
    ensures k in t.players
    ensures var gain, c := t.pool.totalPrincipal - s.pool.totalPrincipal, s.pool.currentEpochId;
            && t.players[k].principal == s.players[k].principal + gain
            && EffectiveEntries(t.players[k], c) == EffectiveEntries(s.players[k], c) + gain
  {
    hide E.CreditOnce, E.WeightAndPrincipalSeconds, PlayerOk;
    CreditGains(s, id, k, s.players[k], E.WeightAndPrincipalSeconds(id, s.epochs[id], s.players[k]).value.1);
  }

  /** A credit counts from the instant it lands: at any later instant of the epoch, weight and principal-seconds
      exceed those of the uncredited player by the credit times the seconds since, and the epoch just ended
      is not touched by it. */
  lemma CreditCountsFromNow(w: World, id: nat, k: Key, t: State, to: clock)
    requires Reachable(w) && E.Register(w.s, id, k) == Ok(t) && k in w.s.players && w.s.now <= to
    ensures k in t.players
    ensures var gain, seconds := t.pool.totalPrincipal - w.s.pool.totalPrincipal, Overlap(w.s.pool, w.s.now, to);
            var with, without := Lazy(t.players[k], t.pool, to), Lazy(w.s.players[k], w.s.pool, to);
            && with.weight == without.weight + gain * seconds
            && with.principal == without.principal + gain * seconds
            && LazyPast(t.players[k], t.pool) == LazyPast(w.s.players[k], w.s.pool)
  {
    hide Reachable, E.Register, BooksOk, ReserveOk, MetersOk, DrawsOk, YieldOk, GamesOk, GrantsOk, ShapeOk, Lazy,
      LazyPast, Overlap, Moved, EffectiveEntries, Registers;
    ReachableInv(w);
    ShapePlayers(w.s);
    var s, p := w.s, w.s.players[k];
    RegisterEffect(s, id, k, t);
    RegisterStamps(s, id, k, t);
    RegisterGains(s, id, k, t);
    RegisterNeeds(s, id, k, t);
    ShapeSpan(s, id);
    CreditLater(k, p, t.players[k], s.pool, s.now, to, t.pool.totalPrincipal - s.pool.totalPrincipal);
    LazySameEpochs(t.players[k], s.pool, t.pool, to);
  }

  lemma ShapeSpan(s: State, id: nat)
    requires ShapeOk(s) && id == s.pool.currentEpochId - 1 && id in s.epochs
    ensures 0 <= s.pool.currentEpochStart <= s.now && id >= 1
  {
    hide Ordered, PlayersOk;
  }

  lemma CreditLater(k: Key, p: Player, q: Player, pool: Pool, now: clock, to: clock, gain: int)
    requires PlayerOk(k, p, pool, now) && pool.currentEpochId >= 1 && 0 <= pool.currentEpochStart <= now <= to
    requires Moved(p, q, pool, now, 0) && q.principal == p.principal + gain
    requires EffectiveEntries(q, pool.currentEpochId) == EffectiveEntries(p, pool.currentEpochId) + gain
    ensures Lazy(q, pool, to).weight == Lazy(p, pool, to).weight + gain * Overlap(pool, now, to)
    ensures Lazy(q, pool, to).principal == Lazy(p, pool, to).principal + gain * Overlap(pool, now, to)
    ensures pool.currentEpochId >= 2 ==> LazyPast(q, pool) == LazyPast(p, pool)
  {
    hide Lazy, LazyPast, Overlap, Touch, EffectiveEntries;
    MovedMeter(k, p, q, pool, now, 0);
    MovedStamp(k, p, q, pool, now, 0);
    TickMeter(p, pool, now, to);
    TickMeter(q, pool, now, to);
    var d := Overlap(pool, now, to);
    assert (EffectiveEntries(p, pool.currentEpochId) + gain) * d == EffectiveEntries(p, pool.currentEpochId) * d + gain * d;
    assert (p.principal + gain) * d == p.principal * d + gain * d;
  }
}
