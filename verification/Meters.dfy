/** Lazy accrual refines eager integration: the accumulators, wherever they were last touched, stand for
    the integrals that the observer keeps up to date for everyone, every second. */
module Meters {
  import opened Machine
  import opened Ledger
  import opened Touching
  import opened Program
  import opened Effects
  import opened Shape
  import opened Boards
  import E = Epochs
  import R = Rounds

  /** What a player's accumulators imply for the current epoch so far. */
  function Lazy(p: Player, pool: Pool, now: i64): Meter {
    var until := AccrueUntil(pool, now);
    if p.epochId == pool.currentEpochId then
      var tail := Elapsed(p.lastUpdate, until);
      Meter(p.weightAcc + p.entries * tail, p.principalAcc + p.principal * tail)
    else
      var span := Elapsed(pool.currentEpochStart, until);
      Meter(p.principal * span, p.principal * span)
  }

  /** What they imply for the epoch before the current one. */
  function LazyPast(p: Player, pool: Pool): Meter {
    if p.epochId == pool.currentEpochId then
      if p.frozenEpoch + 1 == pool.currentEpochId then Meter(p.frozenWeight, p.frozenPrincipalAcc) else Meter(0, 0)
    else if p.epochId + 1 == pool.currentEpochId then
      var tail := Elapsed(p.lastUpdate, pool.previousEpochEndsAt);
      Meter(p.weightAcc + p.entries * tail, p.principalAcc + p.principal * tail)
    else
      var span := Elapsed(pool.previousEpochStart, pool.previousEpochEndsAt);
      Meter(p.principal * span, p.principal * span)
  }

  function PastOf(w: World, k: Key): Meter { if k in w.past then w.past[k] else Meter(0, 0) }

  ghost predicate MeterOk(w: World, k: Key)
    requires k in w.s.players && k in w.live
  {
    var p, pool := w.s.players[k], w.s.pool;
    && (pool.currentEpochId >= 1 ==> Lazy(p, pool, w.s.now) == w.live[k])
    && (pool.currentEpochId >= 2 ==> LazyPast(p, pool) == PastOf(w, k))
  }

  ghost predicate MetersOk(w: World) {
    && w.live.Keys == w.s.players.Keys && w.past.Keys <= w.s.players.Keys
    && forall k :: k in w.s.players ==> MeterOk(w, k)
  }

  /** Touching a player changes neither integral, whenever and however often it happens. */
  lemma TouchIsInvisible(k: Key, p: Player, pool: Pool, now: i64)
    requires PlayerOk(k, p, pool, now) && pool.currentEpochId >= 1 && Touch(p, pool, now).Ok?
    ensures var q := Touch(p, pool, now).value;
            Lazy(q, pool, now) == Lazy(p, pool, now)
            && (pool.currentEpochId >= 2 ==> LazyPast(q, pool) == LazyPast(p, pool))
  {
    var q := Touch(p, pool, now).value;
    NothingSince(q.entries, now, AccrueUntil(pool, now));
    NothingSince(q.principal, now, AccrueUntil(pool, now));
  }

  lemma NothingSince(balance: int, from: i64, to: i64)
    requires to <= from
    ensures balance * Elapsed(from, to) == 0
  {
  }

  /** A balance changed right after a touch counts only from that instant; a credit is added as it is. */
  lemma MovedMeter(k: Key, p: Player, q: Player, pool: Pool, now: i64, credit: int)
    requires PlayerOk(k, p, pool, now) && pool.currentEpochId >= 1 && Moved(p, q, pool, now, credit)
    ensures Lazy(q, pool, now).weight == Lazy(p, pool, now).weight + credit
    ensures Lazy(q, pool, now).principal == Lazy(p, pool, now).principal
    ensures pool.currentEpochId >= 2 ==> LazyPast(q, pool) == LazyPast(p, pool)
  {
    hide Touch;
    if !(SameClock(p, q) && p.principal == q.principal && p.entries == q.entries && p.weightAcc == q.weightAcc
         && credit == 0) {
      TouchIsInvisible(k, p, pool, now);
      TouchOk(k, p, pool, now);
      var touched, until := Touch(p, pool, now).value, AccrueUntil(pool, now);
      NothingSince(touched.entries, now, until);
      NothingSince(touched.principal, now, until);
      NothingSince(q.entries, now, until);
      NothingSince(q.principal, now, until);
    }
  }

  lemma MovedStamp(k: Key, p: Player, q: Player, pool: Pool, now: i64, credit: int)
    requires PlayerOk(k, p, pool, now) && Moved(p, q, pool, now, credit)
    ensures 0 <= q.lastUpdate <= now && q.epochId <= pool.currentEpochId
  {
    hide Touch;
    if Touch(p, pool, now).Ok? { TouchOk(k, p, pool, now); }
  }

  lemma FreshMeter(pool: Pool, now: clock)
    ensures Lazy(FreshPlayer(pool, now), pool, now) == Meter(0, 0)
    ensures pool.currentEpochId >= 2 ==> LazyPast(FreshPlayer(pool, now), pool) == Meter(0, 0)
  {
  }

  /** What the observer writes for a player, given what the instruction did. */
  lemma MeterNextMoved(w: World, i: Instr, t: State, k: Key)
    requires k in t.players && !i.Tick? && !Opens(i) && t.now == w.s.now
    requires i.Game? && i.g.BuyPosition? ==>
               i.g.id in w.s.rounds && i.g.id in t.rounds && Pays(w.s, i, t) && i.g.k in w.live
    ensures k in w.live ==> MeterNext(w, i, t, k).principal == w.live[k].principal
    ensures k in w.live ==>
              MeterNext(w, i, t, k).weight ==
              w.live[k].weight + (if Actor(w.s, i) == Some(k) then Credit(w.s, i, t) else 0)
    ensures k !in w.live ==> MeterNext(w, i, t, k) == Meter(0, 0)
    ensures k !in w.live && Actor(w.s, i) == Some(k) ==> Credit(w.s, i, t) == 0
  {
  }

  lemma MeterMoved(w: World, i: Instr, t: State, k: Key)
    requires ShapeOk(w.s) && MetersOk(w) && OnlyActor(w.s, i, t) && !i.Tick? && !Opens(i) && k in t.players
    requires Actor(w.s, i) == Some(k) ==> PlayerOk(k, Before(w.s, k), w.s.pool, w.s.now)
    requires i.Game? && i.g.BuyPosition? ==> i.g.id in w.s.rounds && i.g.id in t.rounds && Pays(w.s, i, t)
    ensures MeterOk(Observe(w, i, t), k)
  {
    hide Moved, LogNext, EpochsOk, Touch, Lazy, LazyPast, MeterNext, Credit, PlayersOk;
    var s := w.s;
    MeterNextMoved(w, i, t, k);
    LazySameEpochs(t.players[k], s.pool, t.pool, s.now);
    if Actor(s, i) == Some(k) {
      if s.pool.currentEpochId >= 1 { MovedMeter(k, Before(s, k), t.players[k], s.pool, s.now, Credit(s, i, t)); }
      if k in s.players { assert MeterOk(w, k); } else { FreshMeter(s.pool, s.now); }
    } else {
      assert MeterOk(w, k);
    }
  }

  lemma MetersMoved(w: World, i: Instr, t: State)
    requires ShapeOk(w.s) && MetersOk(w) && OnlyActor(w.s, i, t) && !i.Tick? && !Opens(i)
    requires Actor(w.s, i).Some? ==>
               PlayerOk(Actor(w.s, i).value, Before(w.s, Actor(w.s, i).value), w.s.pool, w.s.now)
    requires i.Game? && i.g.BuyPosition? ==> i.g.id in w.s.rounds && i.g.id in t.rounds && Pays(w.s, i, t)
    ensures MetersOk(Observe(w, i, t))
  {
    hide Moved, LogNext, MeterNext, MeterOk, ShapeOk, Before;
    forall k | k in t.players ensures MeterOk(Observe(w, i, t), k) { MeterMoved(w, i, t, k); }
  }

  /** A purchase moves a positive stake into a round that still has time to run. */
  predicate Pays(s: State, i: Instr, t: State)
    requires i.Game? && i.g.BuyPosition? && i.g.id in s.rounds && i.g.id in t.rounds
  {
    && i.g.k in s.players
    && t.rounds[i.g.id].pot > s.rounds[i.g.id].pot
    && t.rounds[i.g.id].endsAt == s.rounds[i.g.id].endsAt > s.now == t.now
  }

  lemma LazySameEpochs(p: Player, a: Pool, b: Pool, now: i64)
    requires SameEpochs(a, b)
    ensures Lazy(p, a, now) == Lazy(p, b, now) && LazyPast(p, a) == LazyPast(p, b)
  {
  }

  lemma {:induction false} CountOnesPositive(mask: nat)
    requires mask > 0
    ensures CountOnes(mask) > 0
  {
    if mask % 2 == 0 { CountOnesPositive(mask / 2); }
  }

  lemma QuotePositive(s: State, p: Player, round: Round, position: Position)
    requires R.Quote(s, p, round, position).Ok?
    ensures R.Quote(s, p, round, position).value > 0 && s.now < round.endsAt && round.status.Live?
    ensures TileCount(position.tiles).Ok? && 1 <= position.stakePerTile
    ensures R.Quote(s, p, round, position).value == position.stakePerTile * TileCount(position.tiles).value
    ensures R.Quote(s, p, round, position).value <= p.entries
  {
    CountOnesPositive(position.tiles);
    MulLe(1, CountOnes(position.tiles), position.stakePerTile);
  }

  lemma BuyPays(s: State, g: RoundInstr, t: State)
    requires g.BuyPosition? && RoundStep(s, g) == Ok(t)
    ensures g.id in s.rounds && g.id in t.rounds && Pays(s, Game(g), t)
  {
    hide Touch, R.Staked, R.Staker, R.Quote;
    QuotePositive(s, Touch(s.players[g.k], s.pool, s.now).value, s.rounds[g.id], Position(g.tiles, g.stakePerTile));
  }

  /** Time passing: the lazy reading grows by the balance times the seconds that fall in the epoch. */
  lemma TickMeter(p: Player, pool: Pool, now: clock, to: clock)
    requires 0 <= p.lastUpdate <= now <= to && p.epochId <= pool.currentEpochId
    requires pool.currentEpochId >= 1 && 0 <= pool.currentEpochStart <= now
    ensures Lazy(p, pool, to).weight ==
            Lazy(p, pool, now).weight + EffectiveEntries(p, pool.currentEpochId) * Overlap(pool, now, to)
    ensures Lazy(p, pool, to).principal == Lazy(p, pool, now).principal + p.principal * Overlap(pool, now, to)
  {
    var from := if p.epochId == pool.currentEpochId then p.lastUpdate else pool.currentEpochStart;
    var a, b, d := Elapsed(from, AccrueUntil(pool, now)), Elapsed(from, AccrueUntil(pool, to)), Overlap(pool, now, to);
    SpansAdd(pool, now, to, from);
    hide Elapsed, AccrueUntil, Overlap;
    MulSum(EffectiveEntries(p, pool.currentEpochId), a, d);
    MulSum(p.principal, a, d);
  }

  lemma SpansAdd(pool: Pool, now: clock, to: clock, from: i64)
    requires 0 <= from <= now <= to && pool.currentEpochId >= 1
    ensures Elapsed(from, AccrueUntil(pool, to)) == Elapsed(from, AccrueUntil(pool, now)) + Overlap(pool, now, to)
  {
  }

  lemma TickMeterOk(w: World, to: clock, k: Key)
    requires ShapeOk(w.s) && MetersOk(w) && w.s.now <= to && k in w.s.players
    ensures MeterOk(Observe(w, Tick(to), w.s.(now := to)), k)
  {
    hide Lazy, LazyPast, Overlap, LogNext, Ordered;
    assert MeterOk(w, k) && PlayerOk(k, w.s.players[k], w.s.pool, w.s.now);
    if w.s.pool.currentEpochId >= 1 { TickMeter(w.s.players[k], w.s.pool, w.s.now, to); }
  }

  lemma TickMeters(w: World, to: clock)
    requires ShapeOk(w.s) && MetersOk(w) && w.s.now <= to
    ensures MetersOk(Observe(w, Tick(to), w.s.(now := to)))
  {
    hide MeterOk, LogNext, MeterNext, ShapeOk;
    var t := w.s.(now := to);
    forall k | k in t.players ensures MeterOk(Observe(w, Tick(to), t), k) { TickMeterOk(w, to, k); }
  }

  /** Opening an epoch turns the current integrals into the past ones, at the old epoch's end. */
  lemma BegunMeter(k: Key, p: Player, s: State, t: State)
    requires Begun(s, t) && EpochsOk(s) && PlayerOk(k, p, s.pool, s.now)
    ensures var seconds := Gain(t.pool.currentEpochStart, Min(t.now, t.pool.currentEpochEndsAt));
            Lazy(p, t.pool, t.now) == Meter(p.principal * seconds, p.principal * seconds)
    ensures s.pool.currentEpochId >= 1 && s.now >= s.pool.currentEpochEndsAt ==>
              LazyPast(p, t.pool) == Lazy(p, s.pool, s.now)
  {
    hide Ordered;
  }

  lemma BegunMeterOk(w: World, i: Instr, t: State, k: Key)
    requires Begun(w.s, t) && EpochsOk(w.s) && PlayersOk(w.s) && MetersOk(w) && Opens(i) && k in t.players
    ensures MeterOk(Observe(w, i, t), k)
  {
    hide Lazy, LazyPast, LogNext, Ordered, Gain, Min, PlayerOk;
    assert MeterOk(w, k) && PlayerOk(k, w.s.players[k], w.s.pool, w.s.now);
    BegunMeter(k, w.s.players[k], w.s, t);
  }

  lemma BegunMeters(w: World, i: Instr, t: State)
    requires Begun(w.s, t) && ShapeOk(w.s) && MetersOk(w) && Opens(i)
    ensures MetersOk(Observe(w, i, t))
  {
    hide MeterOk, MeterNext, LogNext, EpochsOk, PlayersOk;
    forall k | k in t.players ensures MeterOk(Observe(w, i, t), k) { BegunMeterOk(w, i, t, k); }
  }

  lemma CustodyActor(s: State, c: CustodyInstr, t: State, k: Key)
    requires CustodyStep(s, c) == Ok(t) && Actor(s, Custodial(c)) == Some(k) && PlayersOk(s)
    ensures PlayerOk(k, Before(s, k), s.pool, s.now)
  {
    hide CustodyStep, Moved;
    CustodyEffect(s, c, t);
    if k !in s.players { FreshOk(k, s.pool, s.now); }
  }

  lemma MetersStep(w: World, i: Instr, t: State)
    requires Step(w.s, i) == Ok(t) && ShapeOk(w.s) && MetersOk(w)
    ensures MetersOk(Observe(w, i, t))
  {
    hide CustodyStep, EpochStep, RoundStep, Moved, EpochsOk, MetersOk, Begun, Observe, PlayerOk;
    var s := w.s;
    match i
    case Tick(to) => TickMeters(w, to);
    case Custodial(c) =>
      CustodyEffect(s, c, t);
      if Actor(s, i).Some? { CustodyActor(s, c, t, Actor(s, i).value); }
      MetersMoved(w, i, t);
    case Game(g) =>
      RoundEffect(s, g, t);
      RoundActor(s, g, t);
      if g.BuyPosition? { BuyPays(s, g, t); }
      MetersMoved(w, i, t);
    case Epochal(e) =>
      if e.BeginEpoch? {
        BeginEpochIs(s, e, t);
        BeginEpochBegins(s, e.signer, t);
        BegunMeters(w, i, t);
      } else {
        EpochEffect(s, e, t);
        EpochActor(s, e, t);
        MetersMoved(w, i, t);
      }
  }

  lemma RoundActor(s: State, g: RoundInstr, t: State)
    requires RoundStep(s, g) == Ok(t) && PlayersOk(s)
    ensures Actor(s, Game(g)).Some? ==>
              PlayerOk(Actor(s, Game(g)).value, Before(s, Actor(s, Game(g)).value), s.pool, s.now)
  {
    hide Touch, R.Quote, R.Joined, R.Staker, R.VoidDue, R.Reward, PlayerOk;
  }

  lemma EpochActor(s: State, e: EpochInstr, t: State)
    requires EpochStep(s, e) == Ok(t) && PlayersOk(s)
    ensures Actor(s, Epochal(e)).Some? ==>
              PlayerOk(Actor(s, Epochal(e)).value, Before(s, Actor(s, Epochal(e)).value), s.pool, s.now)
  {
    hide Touch, E.CreditOnce, E.WeightAndPrincipalSeconds, E.GridFloor, PlayerOk;
  }
}
