/** Settling a round, over whole runs: whoever settles when, and whatever else happens in between. */
module Settlement {
  import opened Machine
  import opened Ledger
  import opened Touching
  import opened Sums
  import opened Program
  import opened Effects
  import opened Shape
  import opened Books
  import opened Reserve
  import opened Meters
  import opened Draws
  import opened Yield
  import opened Games
  import opened Grants
  import opened Tickets
  import opened Invariant
  import R = Rounds

  /** What a step hands out as a reward of round `id`: the Tickets its player has more than before. */
  function RewardIn(w: World, i: Instr, id: nat): int {
    if i.Game? && i.g.SettlePosition? && i.g.id == id && Step(w.s, i).Ok? then
      var t := Step(w.s, i).value;
      if i.g.k in w.s.players && i.g.k in t.players then
        EffectiveEntries(t.players[i.g.k], t.pool.currentEpochId)
        - EffectiveEntries(w.s.players[i.g.k], w.s.pool.currentEpochId)
      else 0
    else 0
  }

  /** All rewards of round `id` that a run hands out. */
  function Rewarded(w: World, trace: seq<Instr>, id: nat): int {
    if trace == [] then 0
    else
      var before := trace[..|trace| - 1];
      Rewarded(w, before, id) + RewardIn(Run(w, before), trace[|trace| - 1], id)
  }

  /** The rewards of the positions still open on a round. */
  ghost function Remaining(s: State, id: nat): int {
    if id in s.rounds then Sum(s.rounds[id].positions, RewardOf(s.rounds[id])) else 0
  }

  /** A round that is over: settled or already closed, so that only positions can still leave it. */
  ghost predicate Over(w: World, id: nat) {
    && id < w.s.pool.nextRoundId
    && (id in w.s.rounds ==> w.s.rounds[id].status.Settled?)
  }

  /** What an instruction other than settling one of its positions does to a round that is over. */
  ghost predicate LeftAlone(s: State, t: State, id: nat) {
    && s.pool.nextRoundId <= t.pool.nextRoundId
    && (id in t.rounds ==> id in s.rounds && t.rounds[id] == s.rounds[id])
    && (id in s.rounds && id !in t.rounds ==> s.rounds[id].openPositions == 0)
  }

  lemma GameLeaves(s: State, g: RoundInstr, t: State, id: nat)
    requires RoundStep(s, g) == Ok(t) && id < s.pool.nextRoundId
    requires id in s.rounds ==> s.rounds[id].status.Settled?
    requires !(g.SettlePosition? && g.id == id)
    ensures LeftAlone(s, t, id)
  {
    hide Touch, R.Quote, R.Joined, R.Staker, R.Reward, R.HouseCut;
    if g.BuyPosition? {
      QuotePositive(s, Touch(s.players[g.k], s.pool, s.now).value, s.rounds[g.id], Position(g.tiles, g.stakePerTile));
    }
  }

  lemma OthersLeave(s: State, i: Instr, t: State, id: nat)
    requires Step(s, i) == Ok(t) && !i.Game?
    ensures LeftAlone(s, t, id)
  {
    hide CustodyStep, EpochStep;
    match i
    case Tick(_) =>
    case Custodial(c) => CustodyGame(s, c, t);
    case Epochal(e) =>
      if e.BeginEpoch? {
        BeginEpochIs(s, e, t);
        BeginEpochBooks(s, e.signer, t);
      } else {
        EpochGame(s, e, t);
      }
  }

  lemma StepLeaves(s: State, i: Instr, t: State, id: nat)
    requires Step(s, i) == Ok(t) && id < s.pool.nextRoundId
    requires id in s.rounds ==> s.rounds[id].status.Settled?
    requires !(i.Game? && i.g.SettlePosition? && i.g.id == id)
    ensures LeftAlone(s, t, id)
  {
    hide CustodyStep, EpochStep, RoundStep, LeftAlone;
    if i.Game? { GameLeaves(s, i.g, t, id); } else { OthersLeave(s, i, t, id); }
  }

  lemma LeftRemaining(w: World, t: State, id: nat)
    requires GamesOk(w) && LeftAlone(w.s, t, id) && Over(w, id)
    ensures Remaining(t, id) == Remaining(w.s, id)
  {
    hide RewardOf, PlaceOk;
    if id in w.s.rounds && id !in t.rounds {
      assert RoundOk(w.s.rounds[id], w.carryIn[id]);
      assert w.s.rounds[id].positions == map[];
    }
  }

  lemma SettleRemaining(w: World, id: nat, k: Key, t: State)
    requires R.SettlePosition(w.s, id, k) == Ok(t) && PlayersOk(w.s) && GamesOk(w) && Over(w, id)
    ensures id in w.s.rounds && id in t.rounds && t.rounds[id].status.Settled? && t.pool == w.s.pool
    ensures k in w.s.players && k in t.players
    ensures var c := w.s.pool.currentEpochId;
            var reward := EffectiveEntries(t.players[k], c) - EffectiveEntries(w.s.players[k], c);
            && 0 <= reward <= Remaining(w.s, id) - Remaining(t, id)
            && (w.s.rounds[id].epochId == c ==> reward == Remaining(w.s, id) - Remaining(t, id))
  {
    hide R.SettlePosition, RewardOf, EffectiveEntries, PlayersOk, PlaceOk;
    SettlePositionShape(w.s, id, k, t);
    SettledHasWinner(w.s.rounds[id], w.carryIn[id]);
    SettlePositionMoves(w.s, id, k, t);
    var r, q := w.s.rounds[id], t.rounds[id];
    SameRewards(r, q);
    SumPick(r.positions, RewardOf(r), k);
    RewardNatural(r, r.positions[k]);
  }

  lemma RewardNatural(r: Round, p: Position)
    requires r.winningTile < TILE_COUNT && r.houseCut <= r.pot
    ensures RewardOf(r)(p) >= 0
  {
    ShareNatural(r.pot - r.houseCut, p.stakePerTile, r.tileTotals[r.winningTile]);
  }

  lemma ShareNatural(payable: nat, stake: nat, total: nat)
    ensures total > 0 ==> payable * stake / total >= 0
  {
    assert payable * stake >= 0;
  }

  /** One step of any kind: rewards come out of what remains, all of it while the round's epoch lasts. */
  lemma RewardNext(w: World, i: Instr, id: nat)
    requires Inv(w) && Over(w, id)
    ensures Over(Next(w, i), id)
    ensures id in Next(w, i).s.rounds ==>
              id in w.s.rounds && Next(w, i).s.rounds[id].epochId == w.s.rounds[id].epochId
    ensures 0 <= RewardIn(w, i, id) <= Remaining(w.s, id) - Remaining(Next(w, i).s, id)
    ensures (id in w.s.rounds ==> w.s.rounds[id].epochId == w.s.pool.currentEpochId) ==>
              RewardIn(w, i, id) == Remaining(w.s, id) - Remaining(Next(w, i).s, id)
  {
    hide Step, Remaining, ShapeOk, BooksOk, ReserveOk, MetersOk, DrawsOk, YieldOk, GamesOk, GrantsOk, EffectiveEntries,
      MeterNext, LogNext;
    if Step(w.s, i).Ok? {
      var t := Step(w.s, i).value;
      if i.Game? && i.g.SettlePosition? && i.g.id == id {
        SettleStepIs(w.s, i.g, t);
        ShapePlayers(w.s);
        SettleRemaining(w, id, i.g.k, t);
        SettlePositionShape(w.s, id, i.g.k, t);
      } else {
        StepLeaves(w.s, i, t, id);
        LeftRemaining(w, t, id);
      }
    }
  }

  lemma SettleStepIs(s: State, g: RoundInstr, t: State)
    requires Step(s, Game(g)) == Ok(t) && g.SettlePosition?
    ensures R.SettlePosition(s, g.id, g.k) == Ok(t)
  {
    hide R.SettlePosition;
  }

  lemma EpochNext(w: World, i: Instr)
    requires Inv(w)
    ensures w.s.pool.currentEpochId <= Next(w, i).s.pool.currentEpochId
  {
    hide CustodyStep, EpochStep, RoundStep, ShapeOk, BooksOk, ReserveOk, MetersOk, DrawsOk, YieldOk, GamesOk, GrantsOk,
      MeterNext, LogNext, Moved, Begun;
    if Step(w.s, i).Ok? {
      var t := Step(w.s, i).value;
      match i
      case Tick(_) =>
      case Custodial(c) => CustodyEffect(w.s, c, t);
      case Game(g) => RoundEffect(w.s, g, t);
      case Epochal(e) =>
        if e.BeginEpoch? {
          BeginEpochIs(w.s, e, t);
          BeginEpochBegins(w.s, e.signer, t);
          BegunCurrent(w.s, t);
        } else {
          EpochEffect(w.s, e, t);
        }
    }
  }

  lemma BegunCurrent(s: State, t: State)
    requires Begun(s, t)
    ensures t.pool.currentEpochId == s.pool.currentEpochId + 1
  {
  }

  /** Over any run the rewards handed out come out of what remained at its start. */
  lemma {:induction false} RewardRun(w: World, trace: seq<Instr>, id: nat, epoch: nat)
    requires Inv(w) && Over(w, id) && (id in w.s.rounds ==> w.s.rounds[id].epochId == epoch)
    ensures var v := Run(w, trace);
            && Inv(v) && Over(v, id) && (id in v.s.rounds ==> v.s.rounds[id].epochId == epoch)
            && w.s.pool.currentEpochId <= v.s.pool.currentEpochId
            && 0 <= Rewarded(w, trace, id) <= Remaining(w.s, id) - Remaining(v.s, id)
            && (w.s.pool.currentEpochId == epoch == v.s.pool.currentEpochId ==>
                  Rewarded(w, trace, id) == Remaining(w.s, id) - Remaining(v.s, id))
  {
    hide Inv, Over, Next, Remaining, RewardIn;
    if trace != [] {
      var before, i := trace[..|trace| - 1], trace[|trace| - 1];
      RewardRun(w, before, id, epoch);
      InvNext(Run(w, before), i);
      RewardNext(Run(w, before), i, id);
      EpochNext(Run(w, before), i);
    }
  }

  /** From the settlement of a round on, in any run: the House's cut and all rewards together stay within the
      pot, and once every position has settled in the round's own epoch, what rounding left over is less than
      one unit per winner. */
  lemma {:induction false} PaidInAnyOrder(w: World, id: nat, trace: seq<Instr>)
    requires Reachable(w) && Step(w.s, Game(SettleRound(id))).Ok?
    requires var v := Next(w, Game(SettleRound(id))); id in v.s.rounds && v.s.rounds[id].status.Settled?
    ensures var v := Next(w, Game(SettleRound(id)));
            var r, end, paid := v.s.rounds[id], Run(v, trace).s, Rewarded(v, trace, id);
            && 0 <= paid && r.houseCut + paid <= r.pot
            && (end.pool.currentEpochId == r.epochId && (id in end.rounds ==> end.rounds[id].positions == map[]) ==>
                  r.pot - r.houseCut - paid < Sum(r.positions, WinnersOn(r.winningTile)))
  {
    hide Reachable, Inv, Next, Over, Run, Rewarded, RewardOf, WinnersOn, Step, Remaining;
    ReachableInv(w);
    var i := Game(SettleRound(id));
    var v := Next(w, i);
    InvNext(w, i);
    JustSettled(w, id);
    RewardRun(v, trace, id, v.s.rounds[id].epochId);
    RemainingNatural(Run(v, trace), id);
  }

  lemma RemainingNatural(w: World, id: nat)
    requires Inv(w) && Over(w, id)
    ensures Remaining(w.s, id) >= 0
    ensures (id in w.s.rounds ==> w.s.rounds[id].positions == map[]) ==> Remaining(w.s, id) == 0
  {
    hide ShapeOk, BooksOk, ReserveOk, MetersOk, DrawsOk, YieldOk, GrantsOk, PlaceOk, RewardOf;
    if id in w.s.rounds {
      var r := w.s.rounds[id];
      assert RoundOk(r, w.carryIn[id]);
      var none: map<Key, Position> := map[];
      forall k | k in r.positions ensures RewardOf(r)(r.positions[k]) >= 0 { RewardNatural(r, r.positions[k]); }
      SumLe(none, RewardOf(r), r.positions, RewardOf(r));
    }
  }

  /** The moment a round is settled, its rewards are the whole pot less the cut, up to dust. */
  lemma JustSettled(w: World, id: nat)
    requires Inv(w) && Step(w.s, Game(SettleRound(id))).Ok?
    requires var v := Next(w, Game(SettleRound(id))); id in v.s.rounds && v.s.rounds[id].status.Settled?
    ensures var v := Next(w, Game(SettleRound(id)));
            && Over(v, id) && v.s.pool.currentEpochId == w.s.pool.currentEpochId
            && v.s.rounds[id].epochId <= v.s.pool.currentEpochId
            && var r := v.s.rounds[id];
               0 <= r.pot - r.houseCut - Remaining(v.s, id) < Sum(r.positions, WinnersOn(r.winningTile))
  {
    hide R.SettleRound, ShapeOk, BooksOk, ReserveOk, MetersOk, DrawsOk, YieldOk, GrantsOk, MeterNext, LogNext, RewardOf,
      WinnersOn, R.HouseCut;
    var t := Step(w.s, Game(SettleRound(id))).value;
    SettleDecides(w.s, id, t);
    assert RoundOk(w.s.rounds[id], w.carryIn[id]) && PlaceOk(id, w.s.rounds[id], w.s);
    DustPerWinner(t.rounds[id]);
  }

  /** The House's cut is its share of the pot, rounded down, and settling hands the House exactly the cut, the whole
      pot if nobody covered the tile, and nothing once the round's epoch is over. */
  lemma HouseTakesItsShare(w: World, id: nat, t: State)
    requires Reachable(w) && R.SettleRound(w.s, id) == Ok(t)
    ensures id in t.rounds && w.s.pool.house in w.s.players && w.s.pool.house in t.players
    ensures var r, rate, house, c := t.rounds[id], w.s.pool.params.houseCutBps, w.s.pool.house, w.s.pool.currentEpochId;
            && (r.status.Settled? ==> r.houseCut * BPS_DENOMINATOR <= r.pot * rate < (r.houseCut + 1) * BPS_DENOMINATOR)
            && EffectiveEntries(t.players[house], c) - EffectiveEntries(w.s.players[house], c)
               == if r.epochId != c then 0 else if r.status.Forfeited? then r.pot else r.houseCut
  {
    hide Reachable, R.SettleRound, EpochsOk, BooksOk, ReserveOk, MetersOk, DrawsOk, YieldOk, GamesOk, GrantsOk, PlayersOk,
      R.HouseCut, EffectiveEntries;
    ReachableInv(w);
    SettleRoundMoves(w.s, id, t);
    SettleDecides(w.s, id, t);
    CutIsShare(w.s.rounds[id].pot, w.s.pool.params.houseCutBps);
  }

  lemma CutIsShare(pot: u64, rate: bps)
    ensures R.HouseCut(pot, rate) * BPS_DENOMINATOR <= pot * rate < (R.HouseCut(pot, rate) + 1) * BPS_DENOMINATOR
  {
    var n := pot * rate;
    assert n == n / BPS_DENOMINATOR * BPS_DENOMINATOR + n % BPS_DENOMINATOR;
  }
}
