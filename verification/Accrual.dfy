/** When a touch can fail: the principal accumulator never overflows, the weight accumulator may. */
module Accrual {
  import opened Machine
  import opened Ledger
  import opened Touching
  import opened Program
  import opened Effects
  import opened Shape
  import opened Books
  import opened Reserve
  import opened Meters
  import opened Draws
  import opened Yield
  import opened Games
  import opened Grants
  import opened Invariant
  import C = Custody
  import E = Epochs

  /** Nobody can have held more than all there is since the clock's origin. */
  predicate Bounded(p: Player) { p.principalAcc <= U64_MAX * p.lastUpdate }

  /** The player was there in the epoch just ended. */
  predicate Known(p: Player, current: nat) { p.epochId < current || p.frozenEpoch + 1 == current }

  ghost predicate AccrualOk(w: World) {
    forall k :: k in w.s.players ==>
      && Bounded(w.s.players[k])
      && (w.s.pool.currentEpochId >= 2 ==> (k in w.past <==> Known(w.s.players[k], w.s.pool.currentEpochId)))
  }

  /** The instant up to which a touch finishes the accumulators a player already has. */
  function Until(p: Player, pool: Pool, now: i64): i64 {
    if p.epochId >= pool.currentEpochId then AccrueUntil(pool, now) else pool.previousEpochEndsAt
  }

  /** The weight accumulator, finished, fits its 128 bits; one that no touch will read again always does. */
  predicate WeightFits(p: Player, pool: Pool, now: i64) {
    || p.epochId + 1 < pool.currentEpochId
    || p.weightAcc + p.entries * Elapsed(p.lastUpdate, Until(p, pool, now)) <= U128_MAX
  }

  lemma SpanBound(balance: u64, from: i64, until: i64, now: i64)
    requires 0 <= from <= now && until <= now
    ensures 0 <= balance * Elapsed(from, until) <= U64_MAX * (now - from) <= U64_MAX * I64_MAX
  {
    MulLe(balance, U64_MAX, Elapsed(from, until));
    MulLe(0, balance, Elapsed(from, until));
  }

  lemma TouchBounded(k: Key, p: Player, pool: Pool, now: i64)
    requires PlayerOk(k, p, pool, now) && Bounded(p) && Touch(p, pool, now).Ok?
    requires pool.currentEpochId == 0 || 0 <= pool.currentEpochStart <= now
    ensures Bounded(Touch(p, pool, now).value)
  {
    if p.epochId >= pool.currentEpochId {
      SpanBound(p.principal, p.lastUpdate, AccrueUntil(pool, now), now);
    } else {
      SpanBound(p.principal, pool.currentEpochStart, AccrueUntil(pool, now), now);
    }
  }

  lemma MovedAccrual(k: Key, p: Player, q: Player, pool: Pool, now: i64, credit: int)
    requires PlayerOk(k, p, pool, now) && Bounded(p) && Moved(p, q, pool, now, credit)
    requires pool.currentEpochId == 0 || 0 <= pool.currentEpochStart <= now
    ensures Bounded(q) && Known(q, pool.currentEpochId) == Known(p, pool.currentEpochId)
  {
    if Touch(p, pool, now).Ok? {
      TouchBounded(k, p, pool, now);
      TouchKnown(k, p, pool, now);
    }
    hide Touch;
  }

  lemma TouchKnown(k: Key, p: Player, pool: Pool, now: i64)
    requires PlayerOk(k, p, pool, now) && Touch(p, pool, now).Ok?
    ensures Known(Touch(p, pool, now).value, pool.currentEpochId) == Known(p, pool.currentEpochId)
  {
  }

  lemma ShapeStart(s: State)
    requires ShapeOk(s)
    ensures s.pool.currentEpochId == 0 || 0 <= s.pool.currentEpochStart <= s.now
  {
    hide Ordered, PlayersOk;
  }

  lemma AccrualMoved(w: World, i: Instr, t: State)
    requires ShapeOk(w.s) && MetersOk(w) && AccrualOk(w) && OnlyActor(w.s, i, t) && !Opens(i)
    requires Actor(w.s, i).Some? ==>
               PlayerOk(Actor(w.s, i).value, Before(w.s, Actor(w.s, i).value), w.s.pool, w.s.now)
    ensures AccrualOk(Observe(w, i, t))
  {
    hide Moved, LogNext, MeterNext, MeterOk, ShapeOk, PlayerOk, Credit;
    if Actor(w.s, i).Some? {
      var k := Actor(w.s, i).value;
      ShapeStart(w.s);
      MovedAccrual(k, Before(w.s, k), t.players[k], w.s.pool, w.s.now, Credit(w.s, i, t));
    }
  }

  lemma AccrualBegun(w: World, i: Instr, t: State)
    requires Begun(w.s, t) && ShapeOk(w.s) && MetersOk(w) && AccrualOk(w) && Opens(i)
    ensures AccrualOk(Observe(w, i, t))
  {
    hide LogNext, MeterNext, MeterOk, EpochsOk;
    forall k | k in t.players
      ensures Bounded(t.players[k]) && k in w.live && Known(t.players[k], t.pool.currentEpochId)
    {
      assert PlayerOk(k, w.s.players[k], w.s.pool, w.s.now);
    }
  }

  lemma AccrualTick(w: World, to: clock)
    requires AccrualOk(w)
    ensures AccrualOk(Observe(w, Tick(to), w.s.(now := to)))
  {
    hide LogNext, MeterNext;
  }

  lemma AccrualStep(w: World, i: Instr, t: State)
    requires Step(w.s, i) == Ok(t) && ShapeOk(w.s) && MetersOk(w) && AccrualOk(w)
    ensures AccrualOk(Observe(w, i, t))
  {
    hide CustodyStep, EpochStep, RoundStep, OnlyActor, EpochsOk, MetersOk, Begun, Observe, PlayerOk, AccrualOk;
    var s := w.s;
    match i
    case Tick(to) => AccrualTick(w, to);
    case Custodial(c) =>
      CustodyEffect(s, c, t);
      if Actor(s, i).Some? { CustodyActor(s, c, t, Actor(s, i).value); }
      AccrualMoved(w, i, t);
    case Game(g) =>
      RoundEffect(s, g, t);
      RoundActor(s, g, t);
      AccrualMoved(w, i, t);
    case Epochal(e) =>
      if e.BeginEpoch? {
        BeginEpochIs(s, e, t);
        BeginEpochBegins(s, e.signer, t);
        AccrualBegun(w, i, t);
      } else {
        EpochEffect(s, e, t);
        EpochActor(s, e, t);
        AccrualMoved(w, i, t);
      }
  }

  lemma AccrualNext(w: World, i: Instr)
    requires Inv(w) && AccrualOk(w)
    ensures AccrualOk(Next(w, i))
  {
    hide Step, Observe, ShapeOk, BooksOk, ReserveOk, MetersOk, DrawsOk, YieldOk, GamesOk, GrantsOk, AccrualOk;
    if Step(w.s, i).Ok? { AccrualStep(w, i, Step(w.s, i).value); }
  }

  lemma {:induction false} AccrualRun(w: World, trace: seq<Instr>)
    requires Inv(w) && AccrualOk(w)
    ensures AccrualOk(Run(w, trace))
  {
    hide Inv, Next, AccrualOk;
    if trace != [] {
      AccrualRun(w, trace[..|trace| - 1]);
      InvRun(w, trace[..|trace| - 1]);
      AccrualNext(Run(w, trace[..|trace| - 1]), trace[|trace| - 1]);
    }
  }

  lemma ReachableAccrual(w: World)
    requires Reachable(w)
    ensures AccrualOk(w)
  {
    hide Inv;
    var params: Params, house: Key, now: clock, trace: seq<Instr> :|
      C.CreatePool(params, house, now).Ok? && w == Run(Genesis(C.CreatePool(params, house, now).value), trace);
    InvGenesis(params, house, now);
    AccrualRun(Genesis(C.CreatePool(params, house, now).value), trace);
  }

  lemma WithinFits(k: Key, p: Player, pool: Pool, now: clock)
    requires PlayerOk(k, p, pool, now) && Bounded(p) && p.epochId >= pool.currentEpochId
    ensures Touch(p, pool, now).Ok? <==> WeightFits(p, pool, now)
  {
    SpanBound(p.principal, p.lastUpdate, AccrueUntil(pool, now), now);
    SpanBound(p.entries, p.lastUpdate, AccrueUntil(pool, now), now);
    hide Elapsed, AccrueUntil;
  }

  lemma AcrossFits(k: Key, p: Player, pool: Pool, now: clock)
    requires PlayerOk(k, p, pool, now) && Bounded(p) && p.epochId < pool.currentEpochId
    requires 0 <= pool.currentEpochStart && (p.epochId + 1 < pool.currentEpochId ==> 0 <= pool.previousEpochStart)
    ensures Touch(p, pool, now).Ok? <==> WeightFits(p, pool, now)
  {
    SpanBound(p.principal, pool.currentEpochStart, AccrueUntil(pool, now), I64_MAX);
    if p.epochId + 1 < pool.currentEpochId {
      SpanBound(p.principal, pool.previousEpochStart, pool.previousEpochEndsAt, I64_MAX);
    }
    SpanBound(p.principal, p.lastUpdate, pool.previousEpochEndsAt, I64_MAX);
    SpanBound(p.entries, p.lastUpdate, pool.previousEpochEndsAt, I64_MAX);
    hide Elapsed, AccrueUntil;
  }

  lemma ShapeSpans(s: State)
    requires ShapeOk(s) && s.pool.currentEpochId >= 1
    ensures 0 <= s.pool.currentEpochStart <= s.now
    ensures s.pool.currentEpochId >= 2 ==> 0 <= s.pool.previousEpochStart
  {
    hide Ordered, PlayersOk;
  }

  /** In a reachable world a touch succeeds if and only if the finished weight accumulator fits: the principal
      accumulator never stands in the way. */
  lemma TouchSucceedsExactly(w: World, k: Key)
    requires Reachable(w) && k in w.s.players
    ensures Touch(w.s.players[k], w.s.pool, w.s.now).Ok? <==> WeightFits(w.s.players[k], w.s.pool, w.s.now)
  {
    hide Reachable, ShapeOk, BooksOk, ReserveOk, MetersOk, DrawsOk, YieldOk, GamesOk, GrantsOk, Touch, WeightFits;
    ReachableInv(w);
    ReachableAccrual(w);
    ShapePlayers(w.s);
    var p := w.s.players[k];
    assert PlayerOk(k, p, w.s.pool, w.s.now);
    if p.epochId >= w.s.pool.currentEpochId {
      WithinFits(k, p, w.s.pool, w.s.now);
    } else {
      ShapeSpans(w.s);
      AcrossFits(k, p, w.s.pool, w.s.now);
    }
  }

  lemma PastFits(k: Key, p: Player, pool: Pool, now: clock)
    requires PlayerOk(k, p, pool, now) && Bounded(p) && pool.currentEpochId >= 2 && 0 <= pool.previousEpochStart
    ensures LazyPast(p, pool).principal <= U128_MAX
  {
    SpanBound(p.principal, p.lastUpdate, pool.previousEpochEndsAt, I64_MAX);
    SpanBound(p.principal, pool.previousEpochStart, pool.previousEpochEndsAt, I64_MAX);
    hide Elapsed;
  }

  lemma MismatchIsUnknown(id: nat, epoch: Epoch, k: Key, p: Player, pool: Pool, now: i64)
    requires PlayerOk(k, p, pool, now) && id >= 1 && id == pool.currentEpochId - 1
    ensures E.WeightAndPrincipalSeconds(id, epoch, p) == Err(FrozenEpochMismatch) <==> !Known(p, pool.currentEpochId)
  {
  }

  /** When the weight rule of `register` refuses, for the epoch just ended: a player who was not there yet, or a
      weight that does not fit. */
  lemma WeightRefusesExactly(w: World, k: Key)
    requires Reachable(w) && k in w.s.players && w.s.pool.currentEpochId >= 2
    ensures var id := w.s.pool.currentEpochId - 1;
            && id in w.s.epochs
            && var owed := E.WeightAndPrincipalSeconds(id, w.s.epochs[id], w.s.players[k]);
               && (owed == Err(FrozenEpochMismatch) <==> k !in w.past)
               && (owed == Err(ArithmeticOverflow) <==> PastOf(w, k).weight > U128_MAX)
  {
    hide Reachable, BooksOk, ReserveOk, DrawsOk, YieldOk, GamesOk, GrantsOk, E.WeightAndPrincipalSeconds, LazyPast, Lazy,
      Ordered, Known, PlayerOk;
    ReachableInv(w);
    ReachableAccrual(w);
    var id: nat, p := w.s.pool.currentEpochId - 1, w.s.players[k];
    assert MeterOk(w, k) && PlayerOk(k, p, w.s.pool, w.s.now);
    ShapeSpans(w.s);
    PastFits(k, p, w.s.pool, w.s.now);
    MismatchIsUnknown(id, w.s.epochs[id], k, p, w.s.pool, w.s.now);
    RegisterFindsIntegral(w, k);
  }
}
