/** Rounds: what the board, the pot and the open positions say about each other. */
module Games {
  import opened Machine
  import opened Ledger
  import opened Touching
  import opened Boards
  import opened Sums
  import opened Program
  import opened Effects
  import opened Frames
  import opened Shape
  import Meters
  import Books
  import Vrf
  import R = Rounds

  function StakesOn(tile: nat): Position -> int { (p: Position) => StakeOn(p, tile) }

  const COST: Position -> int := (p: Position) => p.stakePerTile * CountOnes(p.tiles)

  /** The round's own books. While it runs, every tile total is the sum of the stakes on it and the pot is
      what it started with plus what its positions cost. Once it is settled, the stakes still open on the
      winning tile are part of its total. */
  ghost predicate RoundOk(r: Round, carry: int) {
    && r.openPositions == |r.positions|
    && (forall k :: k in r.positions ==> 1 <= r.positions[k].stakePerTile)
    && (R.Running(r.status) ==>
          && (forall t :: 0 <= t < TILE_COUNT ==> r.tileTotals[t] == Sum(r.positions, StakesOn(t)))
          && r.pot == carry + Sum(r.positions, COST)
          && r.pot == carry + BoardUpTo(r.tileTotals, TILE_COUNT))
    && (r.status.Live? ==> r.oracle.None?)
    && (r.status.Settled? ==>
          && r.winningTile < TILE_COUNT && r.houseCut <= r.pot
          && 0 < r.tileTotals[r.winningTile]
          && Sum(r.positions, StakesOn(r.winningTile)) <= r.tileTotals[r.winningTile])
  }

  /** Where a round stands in its pool. */
  ghost predicate PlaceOk(id: nat, r: Round, s: State) {
    && 1 <= id < s.pool.nextRoundId
    && (R.Running(r.status) ==> id == s.pool.openRoundId)
    && r.epochId <= s.pool.currentEpochId
    && (r.epochId >= 1 ==> r.epochId in s.epochs && r.endsAt <= s.epochs[r.epochId].endsAt)
    && r.positions.Keys <= s.players.Keys
  }

  /** At most one round runs, the pool knows which, and nothing is being carried meanwhile. */
  ghost predicate GamesOk(w: World) {
    var s := w.s;
    && 1 <= s.pool.nextRoundId
    && s.rounds.Keys <= w.carryIn.Keys
    && (forall id :: id in s.rounds ==> RoundOk(s.rounds[id], w.carryIn[id]) && PlaceOk(id, s.rounds[id], s))
    && (s.pool.openRoundId != 0 ==>
          s.pool.openRoundId in s.rounds && R.Running(s.rounds[s.pool.openRoundId].status) && s.pool.carryPot == 0)
  }

  predicate SameGame(a: Pool, b: Pool) {
    a.nextRoundId == b.nextRoundId && a.openRoundId == b.openRoundId && a.carryPot == b.carryPot
  }

  /** Instructions outside the game leave it alone. */
  lemma GamesKept(w: World, i: Instr, t: State)
    requires GamesOk(w) && !i.Game? && t.rounds == w.s.rounds && SameGame(w.s.pool, t.pool)
    requires w.s.players.Keys <= t.players.Keys && w.s.pool.currentEpochId <= t.pool.currentEpochId
    requires EpochsAdvance(w.s, t)
    ensures GamesOk(Observe(w, i, t))
  {
    hide RoundOk, LogNext, MeterNext;
    var v := Observe(w, i, t);
    forall id | id in t.rounds
      ensures RoundOk(t.rounds[id], v.carryIn[id]) && PlaceOk(id, t.rounds[id], t)
    {
      var r := w.s.rounds[id];
      assert PlaceOk(id, r, w.s);
      if r.epochId >= 1 { assert Advances(w.s.epochs[r.epochId], t.epochs[r.epochId]); }
    }
  }

  /** A step of one round: the others stay as they were. */
  lemma GamesMoved(w: World, g: RoundInstr, t: State, id: nat)
    requires GamesOk(w) && id in w.s.rounds && id in t.rounds && !g.CreateRound?
    requires t.rounds == w.s.rounds[id := t.rounds[id]]
    requires t.players.Keys == w.s.players.Keys && t.epochs == w.s.epochs
    requires t.pool.currentEpochId == w.s.pool.currentEpochId && t.pool.nextRoundId == w.s.pool.nextRoundId
    requires RoundOk(t.rounds[id], w.carryIn[id]) && PlaceOk(id, t.rounds[id], t)
    requires if R.Running(t.rounds[id].status) then SameGame(w.s.pool, t.pool)
             else t.pool.openRoundId == (if R.Running(w.s.rounds[id].status) then 0 else w.s.pool.openRoundId)
    requires t.pool.openRoundId != 0 ==> t.pool.carryPot == w.s.pool.carryPot
    ensures GamesOk(Observe(w, Game(g), t))
  {
    hide RoundOk, LogNext, MeterNext;
    forall other | other in t.rounds
      ensures RoundOk(t.rounds[other], w.carryIn[other]) && PlaceOk(other, t.rounds[other], t)
    {
      if other != id {
        assert PlaceOk(other, w.s.rounds[other], w.s) && PlaceOk(id, w.s.rounds[id], w.s);
      }
    }
  }

  lemma JoinedTotals(r: Round, k: Key, p: Position, total: u64, tile: nat)
    requires R.Joined(r, k, p, total).Ok? && k !in r.positions && tile < TILE_COUNT
    requires r.tileTotals[tile] == Sum(r.positions, StakesOn(tile))
    ensures var q := R.Joined(r, k, p, total).value; q.tileTotals[tile] == Sum(q.positions, StakesOn(tile))
  {
    SumSet(r.positions, StakesOn(tile), k, p);
  }

  /** A position joins: each tile total and the pot grow by exactly what it places there. */
  lemma JoinedOk(r: Round, k: Key, p: Position, total: u64, carry: int)
    requires RoundOk(r, carry) && r.status.Live? && k !in r.positions
    requires R.Joined(r, k, p, total).Ok? && total == COST(p) && TileCount(p.tiles).Ok? && 1 <= p.stakePerTile
    ensures RoundOk(R.Joined(r, k, p, total).value, carry)
    ensures R.Joined(r, k, p, total).value.positions == r.positions[k := p]
  {
    hide StakesOn;
    var q := R.Joined(r, k, p, total).value;
    forall t | 0 <= t < TILE_COUNT ensures q.tileTotals[t] == Sum(q.positions, StakesOn(t)) {
      JoinedTotals(r, k, p, total, t);
    }
    SumSet(r.positions, COST, k, p);
    CostIsBoardTotal(p);
    BoardGrows(r.tileTotals, q.tileTotals, p, TILE_COUNT);
  }

  lemma BuyGame(w: World, g: RoundInstr, t: State)
    requires g.BuyPosition? && RoundStep(w.s, g) == Ok(t) && GamesOk(w)
    ensures GamesOk(Observe(w, Game(g), t))
  {
    hide Touch, R.Joined, R.Staker, R.Quote, LogNext, MeterNext, Observe, RoundOk;
    var s, position := w.s, Position(g.tiles, g.stakePerTile);
    var p := Touch(s.players[g.k], s.pool, s.now).value;
    Meters.QuotePositive(s, p, s.rounds[g.id], position);
    var total := R.Quote(s, p, s.rounds[g.id], position).value;
    JoinedOk(s.rounds[g.id], g.k, position, total, w.carryIn[g.id]);
    JoinedKeeps(s.rounds[g.id], g.k, position, total);
    GamesMoved(w, g, t, g.id);
  }

  lemma JoinedKeeps(r: Round, k: Key, p: Position, total: u64)
    requires R.Joined(r, k, p, total).Ok?
    ensures var q := R.Joined(r, k, p, total).value;
            && q.status == r.status && q.epochId == r.epochId && q.endsAt == r.endsAt && q.pot == r.pot + total
            && q.positions == r.positions[k := p]
  {
  }

  /** Asking for a winner, or answering, changes no books. */
  lemma AskedOk(r: Round, q: Round, carry: int)
    requires RoundOk(r, carry) && R.Running(r.status)
    requires q == r.(status := Requested, requestedAt := q.requestedAt, oracle := q.oracle)
    ensures RoundOk(q, carry)
  {
  }

  lemma RequestGame(w: World, g: RoundInstr, t: State)
    requires (g.RequestRandomness? || g.FulfilRound?) && RoundStep(w.s, g) == Ok(t) && GamesOk(w)
    ensures GamesOk(Observe(w, Game(g), t))
  {
    hide LogNext, MeterNext, Observe, RoundOk, R.BuyPosition, R.SettleRound, R.SettlePosition, R.VoidRound;
    AskedOk(w.s.rounds[g.id], t.rounds[g.id], w.carryIn[g.id]);
    GamesMoved(w, g, t, g.id);
  }

  /** What settling a round decides. */
  ghost predicate Decides(r: Round, q: Round, cut: nat) {
    && r.status.Requested? && q.winningTile < TILE_COUNT
    && (r.tileTotals[q.winningTile] == 0 <==> q.status.Forfeited?)
    && (r.tileTotals[q.winningTile] > 0 <==> q.status.Settled?)
    && q.houseCut == (if q.status.Settled? then cut else 0) <= r.pot
    && q == r.(status := q.status, winningTile := q.winningTile, houseCut := q.houseCut)
  }

  lemma HouseCutBound(pot: u64, houseCutBps: bps)
    ensures R.HouseCut(pot, houseCutBps) <= pot
  {
    MulLe(houseCutBps, BPS_DENOMINATOR, pot);
  }

  lemma SettleDecides(s: State, id: nat, t: State)
    requires R.SettleRound(s, id) == Ok(t)
    ensures id in s.rounds && id in t.rounds && t.rounds == s.rounds[id := t.rounds[id]]
    ensures Decides(s.rounds[id], t.rounds[id], R.HouseCut(s.rounds[id].pot, s.pool.params.houseCutBps))
    ensures t.players.Keys == s.players.Keys && t.epochs == s.epochs && t.pool == s.pool.(openRoundId := 0)
  {
    hide Touch, Vrf.Unbiased, R.HouseCut;
    Vrf.UnbiasedOutcome(s.rounds[id].oracle.value, U64_MAX, TILE_COUNT);
    HouseCutBound(s.rounds[id].pot, s.pool.params.houseCutBps);
  }

  lemma SettleGame(w: World, id: nat, t: State)
    requires R.SettleRound(w.s, id) == Ok(t) && GamesOk(w)
    ensures GamesOk(Observe(w, Game(SettleRound(id)), t))
  {
    hide R.SettleRound, LogNext, MeterNext, Observe, R.HouseCut;
    SettleDecides(w.s, id, t);
    assert RoundOk(w.s.rounds[id], w.carryIn[id]);
    GamesMoved(w, SettleRound(id), t, id);
  }

  /** A settled position leaves: one fewer open, and no more stake than before on the winning tile. */
  lemma PositionGone(r: Round, q: Round, k: Key, carry: int)
    requires RoundOk(r, carry) && !R.Running(r.status) && k in r.positions
    requires r.openPositions >= 1 && q == r.(openPositions := r.openPositions - 1, positions := r.positions - {k})
    ensures RoundOk(q, carry)
  {
    assert |r.positions - {k}| == |r.positions| - 1 by {
      assert (r.positions - {k}).Keys == r.positions.Keys - {k};
    }
    if r.status.Settled? { SumPick(r.positions, StakesOn(r.winningTile), k); }
  }

  lemma SettlePositionShape(s: State, id: nat, k: Key, t: State)
    requires R.SettlePosition(s, id, k) == Ok(t)
    ensures id in s.rounds && k in s.rounds[id].positions && !R.Running(s.rounds[id].status)
    ensures id in t.rounds && t.rounds == s.rounds[id := t.rounds[id]] && s.rounds[id].openPositions >= 1
    ensures t.rounds[id] == s.rounds[id].(openPositions := s.rounds[id].openPositions - 1,
                                          positions := s.rounds[id].positions - {k})
    ensures t.players.Keys == s.players.Keys && t.epochs == s.epochs && t.pool == s.pool
  {
    hide Touch, R.Reward;
  }

  lemma SettlePositionGame(w: World, id: nat, k: Key, t: State)
    requires R.SettlePosition(w.s, id, k) == Ok(t) && GamesOk(w)
    ensures GamesOk(Observe(w, Game(SettlePosition(id, k)), t))
  {
    hide R.SettlePosition, LogNext, MeterNext, Observe, RoundOk;
    SettlePositionShape(w.s, id, k, t);
    PositionGone(w.s.rounds[id], t.rounds[id], k, w.carryIn[id]);
    GamesMoved(w, SettlePosition(id, k), t, id);
  }

  lemma VoidGame(w: World, id: nat, t: State)
    requires R.VoidRound(w.s, id) == Ok(t) && GamesOk(w)
    ensures GamesOk(Observe(w, Game(VoidRound(id)), t))
  {
    hide LogNext, MeterNext, Observe;
    assert RoundOk(w.s.rounds[id], w.carryIn[id]);
    GamesMoved(w, VoidRound(id), t, id);
  }

  lemma CloseGame(w: World, id: nat, t: State)
    requires R.CloseRound(w.s, id) == Ok(t) && GamesOk(w)
    ensures GamesOk(Observe(w, Game(CloseRound(id)), t))
  {
    hide LogNext, MeterNext, RoundOk;
    forall other | other in t.rounds
      ensures RoundOk(t.rounds[other], w.carryIn[other]) && PlaceOk(other, t.rounds[other], t)
    {
      assert PlaceOk(other, w.s.rounds[other], w.s);
    }
  }

  lemma NewRoundOk(epochId: u64, startsAt: i64, endsAt: i64, pot: u64)
    ensures RoundOk(R.NewRound(epochId, startsAt, endsAt, pot), pot)
  {
    var r := R.NewRound(epochId, startsAt, endsAt, pot);
    assert r.positions == map[];
    BoardEmpty(r.tileTotals, TILE_COUNT);
  }

  /** Where a new round stands, and that it is the only one running. */
  lemma CreatePlaces(s: State, signer: Signer, startsAt: i64, endsAt: i64, t: State, other: nat)
    requires R.CreateRound(s, signer, startsAt, endsAt) == Ok(t) && EpochsOk(s) && 1 <= s.pool.nextRoundId
    requires other in t.rounds && (other in s.rounds ==> PlaceOk(other, s.rounds[other], s))
    ensures PlaceOk(other, t.rounds[other], t)
    ensures t.rounds == s.rounds[s.pool.nextRoundId := R.NewRound(s.pool.currentEpochId, startsAt, endsAt, s.pool.carryPot)]
    ensures s.pool.nextRoundId !in s.rounds
  {
    hide Ordered;
  }

  lemma CreateGame(w: World, signer: Signer, startsAt: i64, endsAt: i64, t: State)
    requires R.CreateRound(w.s, signer, startsAt, endsAt) == Ok(t) && GamesOk(w) && EpochsOk(w.s)
    ensures GamesOk(Observe(w, Game(CreateRound(signer, startsAt, endsAt)), t))
  {
    hide LogNext, MeterNext, RoundOk, EpochsOk, PlaceOk;
    var s, v := w.s, Observe(w, Game(CreateRound(signer, startsAt, endsAt)), t);
    var id: nat := s.pool.nextRoundId;
    NewRoundOk(s.pool.currentEpochId, startsAt, endsAt, s.pool.carryPot);
    forall other | other in t.rounds
      ensures RoundOk(t.rounds[other], v.carryIn[other]) && PlaceOk(other, t.rounds[other], t)
    {
      CreatePlaces(s, signer, startsAt, endsAt, t, other);
    }
  }

  lemma GamesGame(w: World, g: RoundInstr, t: State)
    requires RoundStep(w.s, g) == Ok(t) && GamesOk(w) && EpochsOk(w.s)
    ensures GamesOk(Observe(w, Game(g), t))
  {
    hide R.BuyPosition, R.SettleRound, R.SettlePosition, R.VoidRound, R.CreateRound, R.CloseRound, Observe, GamesOk,
      R.RequestRandomness, R.FulfilRound;
    match g
    case CreateRound(signer, startsAt, endsAt) => CreateGame(w, signer, startsAt, endsAt, t);
    case BuyPosition(_, _, _, _) => BuyGame(w, g, t);
    case RequestRandomness(_) => RequestGame(w, g, t);
    case FulfilRound(_, _) => RequestGame(w, g, t);
    case SettleRound(id) => SettleGame(w, id, t);
    case SettlePosition(id, k) => SettlePositionGame(w, id, k, t);
    case VoidRound(id) => VoidGame(w, id, t);
    case CloseRound(id) => CloseGame(w, id, t);
  }

  lemma CustodyGame(s: State, c: CustodyInstr, t: State)
    requires CustodyStep(s, c) == Ok(t)
    ensures t.rounds == s.rounds && SameGame(s.pool, t.pool) && s.players.Keys <= t.players.Keys
    ensures t.pool.currentEpochId == s.pool.currentEpochId
  {
    hide CustodyStep;
    CustodyLeaves(s, c, t);
  }

  lemma EpochGame(s: State, e: EpochInstr, t: State)
    requires EpochStep(s, e) == Ok(t) && !e.BeginEpoch?
    ensures t.rounds == s.rounds && SameGame(s.pool, t.pool)
  {
    hide EpochStep;
    EpochLeaves(s, e, t);
  }

  lemma GamesStep(w: World, i: Instr, t: State)
    requires Step(w.s, i) == Ok(t) && ShapeOk(w.s) && GamesOk(w)
    ensures GamesOk(Observe(w, i, t))
  {
    hide CustodyStep, EpochStep, RoundStep, Observe, GamesOk, OnlyActor, EpochsAdvance;
    ShapeStep(w.s, i, t);
    match i
    case Tick(_) => GamesKept(w, i, t);
    case Custodial(c) =>
      CustodyGame(w.s, c, t);
      GamesKept(w, i, t);
    case Game(g) => GamesGame(w, g, t);
    case Epochal(e) =>
      if e.BeginEpoch? {
        BeginEpochIs(w.s, e, t);
        Books.BeginEpochBooks(w.s, e.signer, t);
        BeginEpochBegins(w.s, e.signer, t);
      } else {
        EpochGame(w.s, e, t);
        EpochEffect(w.s, e, t);
        OnlyActorKeys(w.s, i, t);
      }
      GamesKept(w, i, t);
  }

  lemma OnlyActorKeys(s: State, i: Instr, t: State)
    requires OnlyActor(s, i, t)
    ensures s.players.Keys <= t.players.Keys && t.pool.currentEpochId == s.pool.currentEpochId
  {
    hide Moved;
  }
}
