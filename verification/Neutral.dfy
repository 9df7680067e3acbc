/** Buying a position costs no weight: what the stake would have earned to the round's end is credited. */
module Neutral {
  import opened Machine
  import opened Ledger
  import opened Touching
  import opened Boards
  import opened Program
  import opened Effects
  import opened Shape
  import opened Books
  import opened Reserve
  import opened Meters
  import opened Draws
  import opened Yield
  import opened Games
  import opened Grants
  import opened Tickets
  import opened Invariant
  import opened Scenario
  import E = Epochs
  import R = Rounds

  /** A player touched at each of several instants, in order. */
  function TouchedAt(p: Player, pool: Pool, times: seq<clock>): Result<Player> {
    if times == [] then Ok(p)
    else
      var before :- TouchedAt(p, pool, times[..|times| - 1]);
      Touch(before, pool, times[|times| - 1])
  }

  /** Instants in order, none before `from` and none after `to`. */
  predicate Between(times: seq<clock>, from: int, to: int) {
    && (forall j :: 0 <= j < |times| ==> from <= times[j] <= to)
    && (forall i, j :: 0 <= i < j < |times| ==> times[i] <= times[j])
  }

  lemma TouchLater(k: Key, p: Player, pool: Pool, now: clock, at: clock)
    requires PlayerOk(k, p, pool, now) && pool.currentEpochId >= 1 && 0 <= pool.currentEpochStart <= now <= at
    requires Touch(p, pool, now).Ok?
    ensures Lazy(Touch(p, pool, now).value, pool, at) == Lazy(p, pool, at)
  {
    hide Touch, Lazy, Overlap;
    TouchIsInvisible(k, p, pool, now);
    TouchOk(k, p, pool, now);
    TickMeter(p, pool, now, at);
    TickMeter(Touch(p, pool, now).value, pool, now, at);
  }

  lemma PlayerOkLater(k: Key, p: Player, pool: Pool, now: i64, later: i64)
    requires PlayerOk(k, p, pool, now) && now <= later
    ensures PlayerOk(k, p, pool, later)
  {
  }

  /** No schedule of touches changes what a player will have earned by a later instant. */
  lemma {:induction false} ScheduleIsInvisible(k: Key, p: Player, pool: Pool, now: clock, times: seq<clock>, at: clock)
    requires PlayerOk(k, p, pool, now) && pool.currentEpochId >= 1 && 0 <= pool.currentEpochStart <= now
    requires Between(times, now, at) && TouchedAt(p, pool, times).Ok?
    ensures PlayerOk(k, TouchedAt(p, pool, times).value, pool, if times == [] then now else times[|times| - 1])
    ensures Lazy(TouchedAt(p, pool, times).value, pool, at) == Lazy(p, pool, at)
  {
    hide Touch, Lazy, PlayerOk;
    if times != [] {
      var before, last := times[..|times| - 1], times[|times| - 1];
      ScheduleIsInvisible(k, p, pool, now, before, at);
      var q := TouchedAt(p, pool, before).value;
      PlayerOkLater(k, q, pool, if before == [] then now else before[|before| - 1], last);
      TouchLater(k, q, pool, last, at);
      TouchOk(k, q, pool, last);
    }
  }

  /** What a purchase does to the buyer. */
  ghost predicate Bought(s: State, id: nat, k: Key, t: State, stake: nat) {
    && id in s.rounds && k in s.players && k in t.players && t.pool == s.pool && t.now == s.now
    && s.now < s.rounds[id].endsAt && 0 < stake
    && Moved(s.players[k], t.players[k], s.pool, s.now, stake * (s.rounds[id].endsAt - s.now))
    && EffectiveEntries(t.players[k], s.pool.currentEpochId)
       == EffectiveEntries(s.players[k], s.pool.currentEpochId) - stake
    && t.players[k].principal == s.players[k].principal
  }

  lemma PurchaseMoves(s: State, g: RoundInstr, t: State) returns (stake: nat)
    requires g.BuyPosition? && RoundStep(s, g) == Ok(t) && PlayersOk(s)
    ensures Bought(s, g.id, g.k, t, stake)
  {
    hide RoundStep, Moved, Balances, PlayersOk, EffectiveEntries;
    BuyMoves(s, g, t);
    BuyPays(s, g, t);
    RoundEffect(s, g, t);
    RoundBalances(s, g, t);
    stake := t.rounds[g.id].pot - s.rounds[g.id].pot;
    BuyKeepsPrincipal(s, g, t);
  }

  lemma BuyKeepsPrincipal(s: State, g: RoundInstr, t: State)
    requires g.BuyPosition? && Balances(s, Game(g), t) && g.k in s.players && g.k in t.players && t.pool == s.pool
    ensures t.players[g.k].principal == s.players[g.k].principal
  {
  }

  /** At any later instant the buyer has the credit more, and the stake's accrual less, than without buying. */
  lemma BoughtLater(k: Key, s: State, id: nat, t: State, stake: nat, at: clock)
    requires PlayersOk(s) && Bought(s, id, k, t, stake) && s.pool.currentEpochId >= 1
    requires 0 <= s.pool.currentEpochStart <= s.now <= at
    ensures Lazy(t.players[k], t.pool, at).weight == Lazy(s.players[k], s.pool, at).weight
            + stake * (s.rounds[id].endsAt - s.now) - stake * Overlap(s.pool, s.now, at)
    ensures Lazy(t.players[k], t.pool, at).principal == Lazy(s.players[k], s.pool, at).principal
  {
    hide Lazy, Overlap, Touch, EffectiveEntries, LazyPast;
    var p, q, pool, now := s.players[k], t.players[k], s.pool, s.now;
    assert PlayerOk(k, p, pool, now);
    MovedMeter(k, p, q, pool, now, stake * (s.rounds[id].endsAt - now));
    MovedStamp(k, p, q, pool, now, stake * (s.rounds[id].endsAt - now));
    TickMeter(p, pool, now, at);
    TickMeter(q, pool, now, at);
    MulSum(Overlap(pool, now, at), EffectiveEntries(q, pool.currentEpochId), stake);
  }

  /** A round that belongs to an epoch can be joined only in that epoch, and ends no later than it. */
  lemma JoinedInItsEpoch(w: World, id: nat)
    requires Reachable(w) && id in w.s.rounds && w.s.rounds[id].epochId >= 1 && w.s.now < w.s.rounds[id].endsAt
    ensures w.s.rounds[id].epochId == w.s.pool.currentEpochId
    ensures w.s.rounds[id].endsAt <= w.s.pool.currentEpochEndsAt
  {
    hide Reachable, PlayersOk, BooksOk, ReserveOk, MetersOk, DrawsOk, YieldOk, GrantsOk, RoundOk;
    ReachableInv(w);
    assert PlaceOk(id, w.s.rounds[id], w.s);
  }

  /** By the round's end the buyer has exactly the weight of the same player who did not buy, whoever touches
      either of them and when, if and only if the round ends within the current epoch. */
  lemma {:induction false} NeutralExactly(w: World, g: RoundInstr, t: State, times: seq<clock>, others: seq<clock>)
    requires Reachable(w) && w.s.pool.currentEpochId >= 1 && g.BuyPosition? && RoundStep(w.s, g) == Ok(t)
    requires g.id in w.s.rounds && g.k in w.s.players && g.k in t.players
    requires Between(times, w.s.now, w.s.rounds[g.id].endsAt) && TouchedAt(t.players[g.k], t.pool, times).Ok?
    requires Between(others, w.s.now, w.s.rounds[g.id].endsAt) && TouchedAt(w.s.players[g.k], w.s.pool, others).Ok?
    ensures var buyer, same := TouchedAt(t.players[g.k], t.pool, times).value,
                               TouchedAt(w.s.players[g.k], w.s.pool, others).value;
            var end := w.s.rounds[g.id].endsAt;
            && (Lazy(buyer, t.pool, end).weight == Lazy(same, w.s.pool, end).weight
                <==> end <= w.s.pool.currentEpochEndsAt)
            && Lazy(buyer, t.pool, end).principal == Lazy(same, w.s.pool, end).principal
  {
    hide Reachable, RoundStep, BooksOk, ReserveOk, MetersOk, DrawsOk, YieldOk, GrantsOk, GamesOk, Bought, Lazy, Ordered,
      PlayerOk, TouchedAt, Between;
    ReachableInv(w);
    var s := w.s;
    var stake := PurchaseMoves(s, g, t);
    RoundPlayers(s, g, t);
    BoughtFacts(s, g.id, g.k, t, stake);
    var end: clock := s.rounds[g.id].endsAt;
    ScheduleIsInvisible(g.k, s.players[g.k], s.pool, s.now, others, end);
    ScheduleIsInvisible(g.k, t.players[g.k], t.pool, s.now, times, end);
    BoughtLater(g.k, s, g.id, t, stake, end);
    OverlapFull(s.pool, s.now, end, stake);
  }

  lemma BoughtFacts(s: State, id: nat, k: Key, t: State, stake: nat)
    requires Bought(s, id, k, t, stake)
    ensures id in s.rounds && s.now < s.rounds[id].endsAt && stake > 0 && t.pool == s.pool && t.now == s.now
  {
  }

  lemma OverlapFull(pool: Pool, now: clock, end: clock, stake: nat)
    requires pool.currentEpochId >= 1 && now < end && stake > 0
    ensures stake * (end - now) == stake * Overlap(pool, now, end) <==> end <= pool.currentEpochEndsAt
  {
    var d := Overlap(pool, now, end);
    if end > pool.currentEpochEndsAt { MulLe(1, end - now - d, stake); }
  }

  /** For rounds created in an epoch that condition always holds. */
  lemma {:induction false} BuyIsNeutral(w: World, g: RoundInstr, t: State, times: seq<clock>, others: seq<clock>)
    requires Reachable(w) && g.BuyPosition? && RoundStep(w.s, g) == Ok(t)
    requires g.id in w.s.rounds && w.s.rounds[g.id].epochId >= 1 && g.k in w.s.players && g.k in t.players
    requires Between(times, w.s.now, w.s.rounds[g.id].endsAt) && TouchedAt(t.players[g.k], t.pool, times).Ok?
    requires Between(others, w.s.now, w.s.rounds[g.id].endsAt) && TouchedAt(w.s.players[g.k], w.s.pool, others).Ok?
    ensures w.s.rounds[g.id].endsAt <= w.s.pool.currentEpochEndsAt
    ensures Lazy(TouchedAt(t.players[g.k], t.pool, times).value, t.pool, w.s.rounds[g.id].endsAt)
         == Lazy(TouchedAt(w.s.players[g.k], w.s.pool, others).value, w.s.pool, w.s.rounds[g.id].endsAt)
  {
    hide Reachable, ShapeOk, BooksOk, ReserveOk, MetersOk, DrawsOk, YieldOk, GrantsOk, GamesOk, RoundStep, TouchedAt, Lazy,
      Between, EffectiveEntries;
    ReachableInv(w);
    ShapePlayers(w.s);
    var stake := PurchaseMoves(w.s, g, t);
    JoinedInItsEpoch(w, g.id);
    NeutralExactly(w, g, t, times, others);
  }

  /** The example pool once a round was created and then an epoch begun. */
  ghost predicate Outlasting(s: State) {
    && s.pool.currentEpochId == 1 && s.pool.currentEpochStart == 1 && s.pool.currentEpochEndsAt == 1001
    && s.pool.previousEpochEndsAt == 0 && s.pool.params == EXAMPLE
    && !s.pool.shutdown && !s.pool.paused && !s.pool.gamePaused
    && 7 in s.players && s.players[7] == DEPOSITOR && s.rounds == map[1 := R.NewRound(0, 0, I64_MAX, 0)] && s.now == 1
  }

  lemma WaitingMoves(s: State) returns (t: State, u: State)
    requires Waiting(s)
    ensures R.CreateRound(s, BOTH, 0, I64_MAX) == Ok(t) && E.BeginEpoch(t, BOTH) == Ok(u) && Outlasting(u)
  {
    t := R.CreateRound(s, BOTH, 0, I64_MAX).value;
    u := E.BeginEpoch(t, BOTH).value;
  }

  /** A reachable pool whose round was created before its first epoch and outlasts it. */
  lemma OutlastingRound() returns (w: World)
    ensures Reachable(w) && Outlasting(w.s)
  {
    hide Reachable, Waiting, Outlasting, R.CreateRound, E.BeginEpoch;
    w := WaitingPool();
    var t, u := WaitingMoves(w.s);
    w := Reach(w, Game(CreateRound(BOTH, 0, I64_MAX)), t);
    w := Reach(w, Epochal(BeginEpoch(BOTH)), u);
  }

  lemma ExampleTouch(pool: Pool)
    requires pool.currentEpochId == 1 && pool.currentEpochStart == 1 && pool.currentEpochEndsAt == 1001
    requires pool.previousEpochEndsAt == 0
    ensures Touch(DEPOSITOR, pool, 1).Ok?
    ensures var p := Touch(DEPOSITOR, pool, 1).value; p.entries == 10 && p.weightAcc == 0 && !p.isHouse
  {
  }

  lemma ExampleJoin(round: Round, k: Key, position: Position, total: u64)
    requires round == R.NewRound(0, 0, I64_MAX, 0) && total == 1 && position == Position(1, 1)
    ensures R.Joined(round, k, position, total).Ok?
  {
  }

  lemma ExampleBuy(s: State) returns (t: State)
    requires Outlasting(s)
    ensures R.BuyPosition(s, 1, 7, 1, 1) == Ok(t) && 7 in t.players
  {
    hide Touch, TileCount, R.Joined;
    ExampleTouch(s.pool);
    var p := Touch(DEPOSITOR, s.pool, 1).value;
    OneTile();
    assert R.Quote(s, p, s.rounds[1], Position(1, 1)) == Ok(1);
    ExampleJoin(s.rounds[1], 7, Position(1, 1), 1);
    t := R.BuyPosition(s, 1, 7, 1, 1).value;
  }

  /** Neutrality does fail for such a round: a purchase there changes the buyer's weight. */
  lemma EpochZeroRoundIsNotNeutral() returns (w: World, g: RoundInstr, t: State)
    ensures Reachable(w) && w.s.pool.currentEpochId == 1 && g.BuyPosition? && RoundStep(w.s, g) == Ok(t)
    ensures g.id in w.s.rounds && g.k in w.s.players && g.k in t.players && w.s.rounds[g.id].epochId == 0
    ensures Lazy(t.players[g.k], t.pool, w.s.rounds[g.id].endsAt).weight
         != Lazy(w.s.players[g.k], w.s.pool, w.s.rounds[g.id].endsAt).weight
  {
    hide Reachable, R.BuyPosition, Lazy;
    w := OutlastingRound();
    g := BuyPosition(1, 7, 1, 1);
    t := ExampleBuy(w.s);
    NeutralExactly(w, g, t, [], []);
  }
}
