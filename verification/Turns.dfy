/** What every round instruction does: exactly when it succeeds, and the whole of what it then changes. Which tile a
    settlement draws is in `Play`, what it pays altogether in `Settlement`. */
module Turns {
  import opened Machine
  import opened Ledger
  import opened Touching
  import opened Boards
  import opened Sums
  import opened Program
  import opened Effects
  import opened Shape
  import opened Books
  import opened Reserve
  import opened Meters
  import opened Draws
  import opened Yield
  import opened Games
  import opened Grants
  import opened Invariant
  import opened Accrual
  import opened Visible
  import Play
  import R = Rounds
  import Vrf

  /** The switches that stop the game. */
  predicate GameOn(pool: Pool) { !pool.shutdown && !pool.paused && !pool.gamePaused }

  // ----- creating -----

  predicate MayCreate(s: State, signer: Signer, startsAt: int, endsAt: int) {
    && signer.operator && GameOn(s.pool) && s.pool.openRoundId == 0 && s.pool.nextRoundId < U64_MAX
    && endsAt - startsAt == s.pool.params.roundSeconds
    && (s.pool.currentEpochId > 0 ==> endsAt <= s.pool.currentEpochEndsAt)
  }

  predicate Created(s: State, startsAt: int, endsAt: int, t: State) {
    var id: nat := s.pool.nextRoundId;
    && id in t.rounds && t.rounds == s.rounds[id := t.rounds[id]]
    && t == s.(rounds := t.rounds, pool := s.pool.(nextRoundId := t.pool.nextRoundId, carryPot := 0, openRoundId := id))
    && t.pool.nextRoundId - id == 1
    && var r := t.rounds[id];
       && r.status.Live? && r.epochId == s.pool.currentEpochId && r.startsAt == startsAt && r.endsAt == endsAt
       && r.pot == s.pool.carryPot && r.positions == map[] && r.openPositions == 0 && r.oracle.None?
       && forall tile :: 0 <= tile < TILE_COUNT ==> r.tileTotals[tile] == 0
  }

  /** A round is created if and only if the operator asks for it, the game is on, no other round runs, it has the length
      the pool is set to, and it ends within the running epoch, if there is one. It starts with what was carried. */
  lemma CreatesExactly(w: World, signer: Signer, startsAt: i64, endsAt: i64)
    requires Reachable(w)
    ensures R.CreateRound(w.s, signer, startsAt, endsAt).Ok? <==> MayCreate(w.s, signer, startsAt, endsAt)
    ensures R.CreateRound(w.s, signer, startsAt, endsAt).Ok? ==>
              Created(w.s, startsAt, endsAt, R.CreateRound(w.s, signer, startsAt, endsAt).value)
  {
    hide Reachable, PlayersOk, BooksOk, ReserveOk, MetersOk, DrawsOk, YieldOk, GrantsOk, RoundOk, Ordered;
    ReachableInv(w);
    assert w.s.pool.nextRoundId !in w.s.rounds;
  }

  // ----- buying -----

  /** A choice of tiles that can be bought: some, and none beyond the board. */
  predicate ValidTiles(mask: nat) { 0 < mask < Pow2(TILE_COUNT) }

  /** The price: the stake once for every tile covered. */
  function Price(p: Position): nat { p.stakePerTile * BitsUpTo(p.tiles, TILE_COUNT) }

  /** The round can still be joined. */
  predicate Joinable(s: State, r: Round) { r.status.Live? && s.now < r.endsAt - s.pool.params.closeBuffer }

  predicate MayJoin(s: State, id: nat, k: Key, p: Position) {
    && id in s.rounds && k in s.players && k !in s.rounds[id].positions && k != s.pool.house && GameOn(s.pool)
    && Joinable(s, s.rounds[id]) && ValidTiles(p.tiles) && 1 <= p.stakePerTile && Price(p) <= SeenIn(s, k).tickets
    && Touchable(s, k)
    && Lazy(s.players[k], s.pool, s.now).weight + Price(p) * (s.rounds[id].endsAt - s.now) <= U128_MAX
    && s.rounds[id].pot + Price(p) <= U64_MAX && s.rounds[id].openPositions < 0xFFFF_FFFF
  }

  /** A round with one more position in it, paid for. */
  predicate Enters(r: Round, q: Round, k: Key, p: Position) {
    && q == r.(tileTotals := q.tileTotals, pot := q.pot, openPositions := q.openPositions,
               positions := r.positions[k := p])
    && q.pot - r.pot == Price(p) && q.openPositions - r.openPositions == 1
    && forall tile :: 0 <= tile < TILE_COUNT ==>
         q.tileTotals[tile] == r.tileTotals[tile] + if Bit(p.tiles, tile) then p.stakePerTile else 0
  }

  predicate Entered(s: State, id: nat, k: Key, p: Position, t: State) {
    var v := SeenIn(s, k);
    && id in s.rounds && id in t.rounds && Enters(s.rounds[id], t.rounds[id], k, p)
    && t == s.(players := t.players, rounds := s.rounds[id := t.rounds[id]])
    && Price(p) <= v.tickets && Becomes(s, k, t, v.(tickets := v.tickets - Price(p)))
  }

  lemma {:induction false} BoardBounds(board: Board, n: nat, tile: nat)
    requires tile < n <= TILE_COUNT
    ensures 0 <= BoardUpTo(board, n - 1) && board[tile] <= BoardUpTo(board, n)
  {
    if n > 1 { BoardBounds(board, n - 1, if tile < n - 1 then tile else 0); }
  }

  lemma {:induction false} StakeWithin(p: Position, n: nat, tile: nat)
    requires tile < n
    ensures 0 <= StakeUpTo(p, n - 1) && StakeOn(p, tile) <= StakeUpTo(p, n)
  {
    if n > 1 { StakeWithin(p, n - 1, if tile < n - 1 then tile else 0); }
  }

  lemma TilesCounted(p: Position)
    ensures TileCount(p.tiles).Ok? <==> ValidTiles(p.tiles)
    ensures TileCount(p.tiles).Ok? ==> Price(p) == p.stakePerTile * TileCount(p.tiles).value == StakeUpTo(p, TILE_COUNT)
  {
    hide Pow2;
    if TileCount(p.tiles).Ok? {
      CountOnesIsBits(p.tiles, TILE_COUNT);
      StakeIsBits(p, TILE_COUNT);
    }
  }

  lemma QuotesExactly(s: State, p: Player, r: Round, position: Position)
    requires 0 <= s.now
    ensures R.Quote(s, p, r, position).Ok? <==>
            && GameOn(s.pool) && !p.isHouse && Joinable(s, r) && ValidTiles(position.tiles) && 1 <= position.stakePerTile
            && Price(position) <= p.entries
    ensures R.Quote(s, p, r, position).Ok? ==> R.Quote(s, p, r, position).value == Price(position)
  {
    hide Pow2, TileCount, ValidTiles, Price;
    TilesCounted(position);
  }

  lemma BoardHasRoom(r: Round, carry: nat, p: Position)
    requires r.pot == carry + BoardUpTo(r.tileTotals, TILE_COUNT) && ValidTiles(p.tiles) && r.pot + Price(p) <= U64_MAX
    ensures R.Staked(r.tileTotals, p).Ok?
    ensures forall tile :: 0 <= tile < TILE_COUNT ==>
              R.Staked(r.tileTotals, p).value[tile] == r.tileTotals[tile] + StakeOn(p, tile)
  {
    hide Pow2, StakeOn, Price;
    TilesCounted(p);
    forall tile | 0 <= tile < TILE_COUNT ensures r.tileTotals[tile] + StakeOn(p, tile) <= U64_MAX {
      BoardBounds(r.tileTotals, TILE_COUNT, tile);
      StakeWithin(p, TILE_COUNT, tile);
    }
  }

  lemma TouchWeighs(k: Key, p: Player, pool: Pool, now: i64)
    requires PlayerOk(k, p, pool, now) && Touch(p, pool, now).Ok?
    ensures Touch(p, pool, now).value.weightAcc == Lazy(p, pool, now).weight
  {
  }

  lemma JoinsExactly(r: Round, carry: nat, k: Key, p: Position)
    requires r.pot == carry + BoardUpTo(r.tileTotals, TILE_COUNT) && ValidTiles(p.tiles) && Price(p) <= U64_MAX
    ensures R.Joined(r, k, p, Price(p)).Ok? <==> r.pot + Price(p) <= U64_MAX && r.openPositions < 0xFFFF_FFFF
    ensures R.Joined(r, k, p, Price(p)).Ok? ==> Enters(r, R.Joined(r, k, p, Price(p)).value, k, p)
  {
    hide Price, ValidTiles, Pow2, Bit, R.Staked;
    if r.pot + Price(p) <= U64_MAX { BoardHasRoom(r, carry, p); }
  }

  lemma StakesExactly(p: Player, r: Round, now: i64, price: u64)
    requires 0 <= now < r.endsAt
    ensures R.Staker(p, r, now, price).Ok? <==>
            p.weightAcc + price * (r.endsAt - now) <= U128_MAX && price <= p.entries
    ensures R.Staker(p, r, now, price).Ok? ==>
              var q := R.Staker(p, r, now, price).value;
              q == p.(weightAcc := q.weightAcc, entries := p.entries - price)
  {
    MulLe(0, price, r.endsAt - now);
  }

  lemma BuyOutcome(s: State, id: nat, k: Key, p: Position, carry: nat)
    requires id in s.rounds && k in s.players && Usable(s, k)
    requires s.rounds[id].status.Live? ==> s.rounds[id].pot == carry + BoardUpTo(s.rounds[id].tileTotals, TILE_COUNT)
    ensures R.BuyPosition(s, id, k, p.tiles, p.stakePerTile).Ok? <==> MayJoin(s, id, k, p)
    ensures R.BuyPosition(s, id, k, p.tiles, p.stakePerTile).Ok? ==>
              Entered(s, id, k, p, R.BuyPosition(s, id, k, p.tiles, p.stakePerTile).value)
  {
    hide R.Quote, R.Joined, R.Staker, Price, ValidTiles, WeightFits, Touch, Lazy, GameOn, Enters;
    if k !in s.rounds[id].positions && Touchable(s, k) {
      var q, r := Touch(s.players[k], s.pool, s.now).value, s.rounds[id];
      QuotesExactly(s, q, r, p);
      TouchWeighs(k, s.players[k], s.pool, s.now);
      if R.Quote(s, q, r, p).Ok? {
        StakesExactly(q, r, s.now, Price(p));
        JoinsExactly(r, carry, k, p);
      }
    }
  }

  /** A position can be bought if and only if the game is on, the round is live and not about to close, the buyer is not
      the House and not in it, the tiles are on the board, the Tickets are there, and the numbers have room for it. The
      price leaves the buyer's Tickets and lies on the tiles it covers, and in the pot. */
  lemma BuysExactly(w: World, id: nat, k: Key, tiles: u64, stake: u64)
    requires Reachable(w)
    ensures R.BuyPosition(w.s, id, k, tiles, stake).Ok? <==> MayJoin(w.s, id, k, Position(tiles, stake))
    ensures R.BuyPosition(w.s, id, k, tiles, stake).Ok? ==>
              Entered(w.s, id, k, Position(tiles, stake), R.BuyPosition(w.s, id, k, tiles, stake).value)
  {
    hide Reachable, R.BuyPosition, MayJoin, Entered, Usable;
    if id in w.s.rounds && k in w.s.players {
      UsableAt(w, k);
      if w.s.rounds[id].status.Live? { Play.RoundBooks(w, id); }
      BuyOutcome(w.s, id, k, Position(tiles, stake), if id in w.carryIn then w.carryIn[id] else 0);
    } else {
      BuyNeedsBoth(w.s, id, k, tiles, stake);
    }
  }

  lemma BuyNeedsBoth(s: State, id: nat, k: Key, tiles: u64, stake: u64)
    requires id !in s.rounds || k !in s.players
    ensures R.BuyPosition(s, id, k, tiles, stake).Err? && !MayJoin(s, id, k, Position(tiles, stake))
  {
  }

  // ----- closing and drawing -----

  /** A round stops taking positions, and waits for its draw, from the instant it can no longer be joined. */
  lemma AsksExactly(s: State, id: nat)
    ensures R.RequestRandomness(s, id).Ok? <==>
            && id in s.rounds && s.rounds[id].status.Live?
            && -I64_MAX - 1 <= s.rounds[id].endsAt - s.pool.params.closeBuffer <= s.now
    ensures R.RequestRandomness(s, id).Ok? ==>
              R.RequestRandomness(s, id).value
              == s.(rounds := s.rounds[id := s.rounds[id].(status := Requested, requestedAt := s.now)])
  {
  }

  /** The oracle answers a round that was asked for, once, and its answer is all that changes. */
  lemma RoundAnswered(s: State, id: nat, samples: Samples)
    ensures R.FulfilRound(s, id, samples).Ok? <==>
            id in s.rounds && s.rounds[id].status.Requested? && s.rounds[id].oracle.None?
    ensures R.FulfilRound(s, id, samples).Ok? ==>
              R.FulfilRound(s, id, samples).value == s.(rounds := s.rounds[id := s.rounds[id].(oracle := Some(samples))])
  {
  }

  // ----- settling -----

  /** A settlement changes its round, lets the pool open another one, and at most credits the House what
      `Settlement.HouseTakesItsShare` says. */
  lemma SettleDoes(w: World, id: nat, t: State)
    requires Reachable(w) && R.SettleRound(w.s, id) == Ok(t)
    ensures id in w.s.rounds && id in t.rounds && w.s.pool.house in w.s.players
    ensures t == w.s.(rounds := w.s.rounds[id := t.rounds[id]], players := t.players,
                      pool := w.s.pool.(openRoundId := 0))
    ensures var house := w.s.pool.house;
            var credit := if t.rounds[id].epochId != w.s.pool.currentEpochId then 0
                          else if t.rounds[id].status.Forfeited? then t.rounds[id].pot else t.rounds[id].houseCut;
            && t.rounds[id].positions == w.s.rounds[id].positions && t.rounds[id].tileTotals == w.s.rounds[id].tileTotals
            && t.rounds[id].pot == w.s.rounds[id].pot
            && Becomes(w.s, house, t, SeenIn(w.s, house).(tickets := SeenIn(w.s, house).tickets + credit))
  {
    hide Reachable, ShapeOk, BooksOk, ReserveOk, MetersOk, DrawsOk, YieldOk, GamesOk, GrantsOk, Touch, WeightFits,
      R.HouseCut, Vrf.Unbiased, PlayerOk;
    ReachableInv(w);
    UsableAt(w, w.s.pool.house);
  }

  /** What a position of a settled round wins: its stake's share of the pot less the House's cut, rounded down, among the
      stakes on the winning tile. */
  predicate Wins(r: Round, p: Position, reward: nat)
    requires r.winningTile < TILE_COUNT
  {
    if !Bit(p.tiles, r.winningTile) then reward == 0
    else
      && r.tileTotals[r.winningTile] > 0
      && reward * r.tileTotals[r.winningTile] <= (r.pot - r.houseCut) * p.stakePerTile
      && (r.pot - r.houseCut) * p.stakePerTile < (reward + 1) * r.tileTotals[r.winningTile]
  }

  /** Nothing is won in a round that was voided or forfeited, or that outlived its epoch. */
  predicate IsReward(s: State, id: nat, k: Key, reward: nat)
    requires id in s.rounds && k in s.rounds[id].positions
  {
    var r := s.rounds[id];
    if r.status.Settled? && r.epochId == s.pool.currentEpochId
    then r.winningTile < TILE_COUNT && Wins(r, r.positions[k], reward) else reward == 0
  }

  lemma ShareIs(payable: u64, stake: u64, total: u64) returns (reward: u64)
    requires 0 < stake <= total
    ensures reward == payable * stake / total && payable * stake <= U128_MAX
    ensures reward * total <= payable * stake < (reward + 1) * total
  {
    var n, q := payable * stake, payable * stake / total;
    assert n == q * total + n % total;
    MulLe(payable, U64_MAX, stake);
    MulLe(stake, U64_MAX, U64_MAX);
    MulLe(stake, total, payable);
    MulLe(0, payable, stake);
    if q > payable { MulLe(payable + 1, q, total); }
    if q < 0 { MulLe(q + 1, 0, total); }
    reward := q;
  }

  lemma RewardExactly(r: Round, carry: int, k: Key)
    requires RoundOk(r, carry) && r.status.Settled? && k in r.positions
    ensures r.winningTile < TILE_COUNT && R.Reward(r, r.positions[k]).Ok?
    ensures Wins(r, r.positions[k], R.Reward(r, r.positions[k]).value)
  {
    var p := r.positions[k];
    if Bit(p.tiles, r.winningTile) {
      hide Bit;
      SumMember(r.positions, StakesOn(r.winningTile), k);
      var reward := ShareIs(r.pot - r.houseCut, p.stakePerTile, r.tileTotals[r.winningTile]);
    }
  }

  predicate MaySettle(s: State, id: nat, k: Key, reward: nat) {
    && id in s.rounds && k in s.players && k in s.rounds[id].positions && !R.Running(s.rounds[id].status)
    && Touchable(s, k) && SeenIn(s, k).tickets + reward <= U64_MAX
  }

  predicate LeavesRound(s: State, id: nat, k: Key, reward: nat, t: State) {
    var v := SeenIn(s, k);
    && id in s.rounds && id in t.rounds && Becomes(s, k, t, v.(tickets := v.tickets + reward))
    && t == s.(players := t.players, rounds := s.rounds[id := t.rounds[id]])
    && var r, q := s.rounds[id], t.rounds[id];
       && q == r.(openPositions := q.openPositions, positions := q.positions) && r.openPositions - q.openPositions == 1
       && q.positions.Keys == r.positions.Keys - {k} && forall o :: o in q.positions ==> q.positions[o] == r.positions[o]
  }

  lemma LeaveOutcome(s: State, id: nat, k: Key, carry: int) returns (reward: nat)
    requires id in s.rounds && k in s.players && k in s.rounds[id].positions && Usable(s, k)
    requires RoundOk(s.rounds[id], carry)
    ensures IsReward(s, id, k, reward)
    ensures R.SettlePosition(s, id, k).Ok? <==> MaySettle(s, id, k, reward)
    ensures R.SettlePosition(s, id, k).Ok? ==> LeavesRound(s, id, k, reward, R.SettlePosition(s, id, k).value)
  {
    hide R.Reward, Touch, WeightFits, PlayerOk, Wins;
    var r := s.rounds[id];
    reward := 0;
    if r.status.Settled? && r.epochId == s.pool.currentEpochId {
      RewardExactly(r, carry, k);
      reward := R.Reward(r, r.positions[k]).value;
    }
  }

  /** Once a round is over, each of its positions can be settled by anyone, with its reward and without waiting for the
      others, if and only if the reward fits its owner's Tickets; the position is then gone, and the others stay. */
  lemma SettlesExactly(w: World, id: nat, k: Key) returns (reward: nat)
    requires Reachable(w)
    ensures id in w.s.rounds && k in w.s.rounds[id].positions ==> IsReward(w.s, id, k, reward)
    ensures R.SettlePosition(w.s, id, k).Ok? <==> MaySettle(w.s, id, k, reward)
    ensures R.SettlePosition(w.s, id, k).Ok? ==> LeavesRound(w.s, id, k, reward, R.SettlePosition(w.s, id, k).value)
  {
    hide Reachable, ShapeOk, BooksOk, ReserveOk, MetersOk, DrawsOk, YieldOk, GrantsOk, Usable, RoundOk, PlaceOk, IsReward,
      LeavesRound, Touch, R.Reward;
    ReachableInv(w);
    reward := 0;
    if id in w.s.rounds && k in w.s.rounds[id].positions {
      assert RoundOk(w.s.rounds[id], w.carryIn[id]) && PlaceOk(id, w.s.rounds[id], w.s);
      PlayersJoined(id, w.s.rounds[id], w.s);
      UsableAt(w, k);
      reward := LeaveOutcome(w.s, id, k, w.carryIn[id]);
    }
  }

  lemma PlayersJoined(id: nat, r: Round, s: State)
    requires PlaceOk(id, r, s)
    ensures r.positions.Keys <= s.players.Keys
  {
  }

  // ----- giving up and clearing away -----

  predicate Voided(s: State, id: nat, t: State) {
    && id in s.rounds
    && t == s.(rounds := s.rounds[id := s.rounds[id].(status := RoundStatus.Voided)],
               pool := s.pool.(carryPot := t.pool.carryPot, openRoundId := 0))
    && t.pool.carryPot == if s.rounds[id].epochId == s.pool.currentEpochId then s.rounds[id].pot else 0
  }

  /** A round is voided if and only if it still runs, has no answer, and its deadline has passed. Its pot is carried to the
      next one within its epoch, and lost after it. */
  lemma VoidsExactly(w: World, id: nat)
    requires Reachable(w)
    ensures R.VoidRound(w.s, id).Ok? <==>
            && id in w.s.rounds && R.Running(w.s.rounds[id].status) && w.s.rounds[id].oracle.None?
            && Play.Deadline(w.s.pool, w.s.rounds[id]) < w.s.now
    ensures R.VoidRound(w.s, id).Ok? ==> Voided(w.s, id, R.VoidRound(w.s, id).value)
  {
    hide Reachable;
    if id in w.s.rounds && R.Running(w.s.rounds[id].status) {
      Play.OneRunningRound(w, id);
      Play.VoidableExactly(w, id);
    }
  }

  /** A round that is over goes away if and only if no position is left on it, and takes nothing with it. */
  lemma ClearsExactly(w: World, id: nat)
    requires Reachable(w)
    ensures R.CloseRound(w.s, id).Ok? <==>
            id in w.s.rounds && !R.Running(w.s.rounds[id].status) && w.s.rounds[id].positions == map[]
    ensures R.CloseRound(w.s, id).Ok? ==>
              var t := R.CloseRound(w.s, id).value;
              && t == w.s.(rounds := t.rounds) && t.rounds.Keys == w.s.rounds.Keys - {id}
              && forall other :: other in t.rounds ==> t.rounds[other] == w.s.rounds[other]
  {
    hide Reachable, ShapeOk, BooksOk, ReserveOk, MetersOk, DrawsOk, YieldOk, GrantsOk, PlaceOk;
    ReachableInv(w);
    if id in w.s.rounds { assert RoundOk(w.s.rounds[id], w.carryIn[id]); }
  }
}
