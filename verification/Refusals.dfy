/** What a refusal says: every error an instruction can abort with names something that is the case, whatever the order of
    its checks. An overflow alone says only that some number has no room; the exact conditions are with the instructions. */
module Refusals {
  import opened Machine
  import opened Ledger
  import opened Touching
  import opened Boards
  import opened Program
  import opened Effects
  import opened Shape
  import opened Books
  import opened Reserve
  import opened Meters
  import opened Draws
  import opened Yield
  import opened Games
  import opened Grants
  import opened Invariant
  import opened Accrual
  import opened Visible
  import Movements
  import Stages
  import Turns
  import Enrolment
  import Progress
  import Solvency
  import Play
  import C = Custody
  import E = Epochs
  import R = Rounds
  import Vrf

  /** The amount a custody instruction names. */
  function AmountOf(c: CustodyInstr): int {
    if c.Deposit? || c.RequestWithdraw? || c.AdminWithdraw? || c.TransferIn? || c.BuyTickets? || c.GrantTickets?
    then c.amount else 0
  }

  predicate MovesTickets(c: CustodyInstr) { c.BuyTickets? || c.GrantTickets? }

  /** A custody instruction about a player is about the House. */
  predicate OnHouse(s: State, c: CustodyInstr) { Actor(s, Custodial(c)) == Some(s.pool.house) }

  /** What the player the instruction is about has. */
  function Subject(s: State, c: CustodyInstr): View {
    match Actor(s, Custodial(c))
    case Some(k) => SeenIn(s, k)
    case None => Seen(BLANK_PLAYER, 0)
  }

  predicate Unsigned(c: CustodyInstr) {
    match c
    case SetParams(signer, _) => !signer.admin
    case SetPause(signer, paused) => !signer.admin && !(signer.operator && paused)
    case SetFeaturePause(signer, _, paused) => !signer.admin && !(signer.operator && paused)
    case Shutdown(signer) => !signer.admin
    case AdminWithdraw(signer, _) => !signer.admin
    case SweepHouse(signer) => !signer.admin
    case GrantTickets(signer, _, _) => !signer.admin && !signer.operator
    case _ => false
  }

  ghost predicate CustodySays(s: State, c: CustodyInstr, e: Error) {
    var v, amount, current := Subject(s, c), AmountOf(c), s.pool.currentEpochId;
    || e.ArithmeticOverflow?
    || (e.AccountMissing? && Actor(s, Custodial(c)).Some? && Actor(s, Custodial(c)).value !in s.players)
    || (e.Unauthorized? && Unsigned(c))
    || (e.InvalidParameter? && c.SetParams?
        && !(Movements.Admissible(c.update)
             && exists q: Params :: Movements.Updated(s.pool.params, c.update, q) && Movements.Sound(q)))
    || (e.PoolShutDown? && s.pool.shutdown)
    || (e.PoolNotShutDown? && !s.pool.shutdown && (c.EmergencyWithdraw? || c.SweepHouse?))
    || (e.PoolPaused? && s.pool.paused && (c.Deposit? || MovesTickets(c)))
    || (e.JackpotPaused? && s.pool.jackpotPaused && MovesTickets(c))
    || (e.HouseCannotDeposit? && c.Deposit? && OnHouse(s, c))
    || (e.HouseCannotBuyTickets? && c.BuyTickets? && OnHouse(s, c))
    || (e.HouseCannotBeGranted? && c.GrantTickets? && OnHouse(s, c) && !c.signer.admin)
    || (e.HouseCannotEmergencyWithdraw? && c.EmergencyWithdraw? && OnHouse(s, c))
    || (e.BelowMinimumDeposit? && c.Deposit? && amount < s.pool.params.minDeposit)
    || (e.ZeroAmount? && (if c.EmergencyWithdraw? then v.principal + v.pending == 0 else !c.Deposit? && amount == 0))
    || (e.InsufficientPrincipal? && c.RequestWithdraw? && v.principal < amount)
    || (e.NothingPending? && c.ProcessWithdraw? && v.pending == 0)
    || (e.WithdrawalNotDue? && c.ProcessWithdraw? && !s.pool.shutdown && current <= v.pendingEpoch
        && s.now <= v.requestedAt + s.pool.params.epochSeconds)
    || (e.InsufficientVaultLiquidity? && s.principalVault < if c.ProcessWithdraw? then v.pending else amount)
    || (e.BelowPendingWithdrawals? && c.AdminWithdraw? && s.principalVault < s.pool.pendingWithdrawals + amount)
    || (e.InsufficientVault? && c.EmergencyWithdraw? && s.principalVault < v.principal + v.pending)
    || (e.NoEpochYet? && c.BuyTickets? && current == 0)
    || (e.DailyBuyCapExceeded? && c.BuyTickets?
        && v.principal < Movements.Today(v.boughtEpoch, v.boughtAmount, current) + amount)
    || (e.DailyPlayerGrantCapExceeded? && c.GrantTickets? && !c.signer.admin
        && v.principal < Movements.Today(v.bonusEpoch, v.bonusGranted, current) + amount)
    || (e.DailyPoolGrantCapExceeded? && c.GrantTickets? && !c.signer.admin
        && s.pool.totalPrincipal * s.pool.params.bonusCapBps
           < (Movements.Today(s.pool.bonusEpoch, s.pool.bonusGranted, current) + amount) * BPS_DENOMINATOR)
  }

  lemma {:induction false} DepositTells(s: State, c: CustodyInstr, k: Key)
    requires Actor(s, Custodial(c)) == Some(k) && Usable(s, k) && CustodyStep(s, c).Err? && c.Deposit?
    ensures CustodySays(s, c, CustodyStep(s, c).error)
  {
    hide Touch, WeightFits;
    TouchFails(Before(s, k), s.pool, s.now);
  }

  lemma {:induction false} RequestTells(s: State, c: CustodyInstr, k: Key)
    requires Actor(s, Custodial(c)) == Some(k) && Usable(s, k) && CustodyStep(s, c).Err? && c.RequestWithdraw?
    ensures CustodySays(s, c, CustodyStep(s, c).error)
  {
    hide Touch, WeightFits;
    TouchFails(Before(s, k), s.pool, s.now);
  }

  lemma {:induction false} ProcessTells(s: State, c: CustodyInstr, k: Key)
    requires Actor(s, Custodial(c)) == Some(k) && Usable(s, k) && CustodyStep(s, c).Err? && c.ProcessWithdraw?
    ensures CustodySays(s, c, CustodyStep(s, c).error)
  {
    hide Touch, WeightFits;
    TouchFails(Before(s, k), s.pool, s.now);
  }

  lemma {:induction false} ExitTells(s: State, c: CustodyInstr, k: Key)
    requires Actor(s, Custodial(c)) == Some(k) && Usable(s, k) && CustodyStep(s, c).Err? && c.EmergencyWithdraw?
    ensures CustodySays(s, c, CustodyStep(s, c).error)
  {
    hide Touch, WeightFits;
    TouchFails(Before(s, k), s.pool, s.now);
  }

  lemma {:induction false} PurchaseTells(s: State, c: CustodyInstr, k: Key)
    requires Actor(s, Custodial(c)) == Some(k) && Usable(s, k) && CustodyStep(s, c).Err? && c.BuyTickets?
    ensures CustodySays(s, c, CustodyStep(s, c).error)
  {
    hide Touch, WeightFits;
    TouchFails(Before(s, k), s.pool, s.now);
  }

  lemma {:induction false} GrantTells(s: State, c: CustodyInstr, k: Key)
    requires Actor(s, Custodial(c)) == Some(k) && Usable(s, k) && CustodyStep(s, c).Err? && c.GrantTickets?
    ensures CustodySays(s, c, CustodyStep(s, c).error)
  {
    hide Touch, WeightFits, C.PoolBonusCap;
    TouchFails(Before(s, k), s.pool, s.now);
    Movements.ShareIs(s.pool.totalPrincipal, s.pool.params.bonusCapBps,
                      Movements.Today(s.pool.bonusEpoch, s.pool.bonusGranted, s.pool.currentEpochId) + AmountOf(c));
  }

  lemma {:induction false} AdminTells(s: State, c: CustodyInstr)
    requires Actor(s, Custodial(c)).None? && CustodyStep(s, c).Err? && !c.SetParams?
    ensures CustodySays(s, c, CustodyStep(s, c).error)
  {
  }

  lemma {:induction false} ParamsTell(s: State, c: CustodyInstr)
    requires c.SetParams? && CustodyStep(s, c).Err?
    ensures CustodySays(s, c, CustodyStep(s, c).error)
  {
    hide Movements.Admissible, Movements.Updated, Movements.Sound;
    Movements.ParamsExactly(s, c.signer, c.update);
  }

  lemma {:induction false} CustodyTells(w: World, c: CustodyInstr)
    requires Reachable(w) && CustodyStep(w.s, c).Err?
    ensures CustodySays(w.s, c, CustodyStep(w.s, c).error)
  {
    hide Reachable, CustodyStep, CustodySays, Usable;
    match Actor(w.s, Custodial(c)) {
      case None => if c.SetParams? { ParamsTell(w.s, c); } else { AdminTells(w.s, c); }
      case Some(k) =>
        UsableAt(w, k);
        match c {
          case Deposit(_, _) => DepositTells(w.s, c, k);
          case RequestWithdraw(_, _) => RequestTells(w.s, c, k);
          case ProcessWithdraw(_) => ProcessTells(w.s, c, k);
          case EmergencyWithdraw(_) => ExitTells(w.s, c, k);
          case BuyTickets(_, _) => PurchaseTells(w.s, c, k);
          case GrantTickets(_, _, _) => GrantTells(w.s, c, k);
        }
    }
  }

  // ----- epochs -----

  /** The epoch's draw was asked for and not answered. */
  predicate Waits(s: State, id: nat) { id in s.epochs && s.epochs[id].status.Drawing? && s.epochs[id].oracle.None? }

  predicate EpochSays(w: World, e: EpochInstr, error: Error) {
    var s, current := w.s, w.s.pool.currentEpochId;
    || error.ArithmeticOverflow?
    || (error.AccountMissing? && HasEpoch(e)
        && (e.id !in s.epochs || ((e.Register? || e.Payout?) && e.k !in s.players)))
    || (error.Unauthorized? && (e.BeginEpoch? || e.CloseRegistration?) && !e.signer.operator)
    || (error.PoolShutDown? && s.pool.shutdown)
    || (error.PreviousEpochStillDrawing? && e.BeginEpoch? && !E.MayLeaveBehind(s))
    || (error.EpochNotEnded? && e.BeginEpoch? && current > 0 && s.now < s.pool.currentEpochEndsAt)
    || (error.JackpotPaused? && s.pool.jackpotPaused)
    || (error.RandomnessNotFulfilled? && e.FulfilDraw? && !Waits(s, e.id))
    || (error.RandomnessNotFulfilled? && e.Draw? && e.id in s.epochs && s.epochs[e.id].oracle.None?)
    || (HasEpoch(e) && e.id in s.epochs && EpochIs(w, e, s.epochs[e.id], error))
  }

  /** What is said about the epoch an instruction names, or about the player's place in it. */
  predicate EpochIs(w: World, e: EpochInstr, epoch: Epoch, error: Error)
    requires HasEpoch(e)
  {
    var s, params := w.s, w.s.pool.params;
    || (error.EpochNotRegistering? && (e.Register? || e.CloseRegistration?) && !epoch.status.Registering?)
    || (error.NotPreviousEpoch? && e.Register? && e.id + 1 != s.pool.currentEpochId)
    || (error.AlreadyRegistered? && e.Register? && SeenIn(s, e.k).regEpoch == e.id)
    || (error.FrozenEpochMismatch? && e.Register? && e.k !in w.past)
    || (error.RegistrationWindowOpen? && e.CloseRegistration?
        && s.now < Max(epoch.registrationOpenedAt, epoch.endsAt) + params.registrationWindow)
    || (error.EpochNotDrawing? && !epoch.status.Drawing?)
    || (error.RandomnessRejection? && e.Draw? && Progress.Rejected(epoch))
    || (error.EpochNotDrawn? && e.Payout? && !epoch.status.Drawn?)
    || (error.NotRegistered? && e.Payout? && SeenIn(s, e.k).regEpoch != e.id)
    || (error.NotTheWinner? && e.Payout? && !(SeenIn(s, e.k).regStart <= epoch.target < SeenIn(s, e.k).regEnd))
    || (error.RandomnessAlreadyFulfilled? && e.RolloverEpoch? && epoch.oracle.Some?)
    || (error.VrfTimeoutNotElapsed? && e.RolloverEpoch?
        && s.now <= params.vrfTimeout
                    + if epoch.status.Drawing? then epoch.requestedAt
                      else Max(epoch.registrationOpenedAt, epoch.endsAt) + params.registrationWindow)
    || (error.PayoutTimeoutNotElapsed? && e.RolloverEpoch? && s.now <= epoch.drawnAt + params.payoutTimeout)
  }

  lemma {:induction false} BeginTells(s: State, e: EpochInstr, w: World)
    requires w.s == s && e.BeginEpoch? && EpochStep(s, e).Err? && EpochsOk(s)
    ensures EpochSays(w, e, EpochStep(s, e).error)
  {
    hide Ordered, E.GridFloor, E.MayLeaveBehind;
    FloorTells(s.pool.params.epochAnchor, s.pool.params.epochSeconds, s.now);
    if E.NextEpochStart(s).Ok? {
      FloorTells(s.pool.params.epochAnchor, s.pool.params.epochSeconds, E.NextEpochStart(s).value);
    }
  }

  lemma {:induction false} FloorTells(anchor: i64, length: period, t: i64)
    ensures E.GridFloor(anchor, length, t).Err? ==> E.GridFloor(anchor, length, t).error == ArithmeticOverflow
  {
  }

  lemma {:induction false} RegisterTells(w: World, e: EpochInstr)
    requires Reachable(w) && e.Register? && EpochStep(w.s, e).Err?
    ensures EpochSays(w, e, EpochStep(w.s, e).error)
  {
    hide Reachable, E.WeightAndPrincipalSeconds, E.CreditOnce, Enrolment.CreditRoom, Enrolment.LayoutRoom,
      Progress.Rejected, E.MayLeaveBehind;
    Enrolment.RegisterSucceedsExactly(w, e.id, e.k);
  }

  lemma {:induction false} DrawTells(w: World, e: EpochInstr)
    requires Reachable(w) && e.Draw? && EpochStep(w.s, e).Err?
    ensures EpochSays(w, e, EpochStep(w.s, e).error)
  {
    hide Reachable, Vrf.Unbiased, Progress.Rejected;
    if e.id in w.s.epochs && w.s.epochs[e.id].status.Drawing? { Progress.DrawsExactly(w, e.id); }
  }

  lemma {:induction false} PayoutTells(w: World, e: EpochInstr)
    requires Reachable(w) && e.Payout? && EpochStep(w.s, e).Err?
    ensures EpochSays(w, e, EpochStep(w.s, e).error)
  {
    hide Reachable, E.Payout;
    Solvency.PrizeIsPayable(w, e.id, e.k);
  }

  lemma {:induction false} CloseTells(w: World, e: EpochInstr)
    requires e.CloseRegistration? && EpochStep(w.s, e).Err?
    ensures EpochSays(w, e, EpochStep(w.s, e).error)
  {
    hide Progress.Rejected, E.MayLeaveBehind, SeenIn;
  }

  lemma {:induction false} RolloverTells(w: World, e: EpochInstr)
    requires e.RolloverEpoch? && EpochStep(w.s, e).Err?
    ensures EpochSays(w, e, EpochStep(w.s, e).error)
  {
    hide Progress.Rejected, E.MayLeaveBehind, SeenIn;
  }

  lemma {:induction false} IncomeTells(w: World, e: EpochInstr)
    requires e.FundJackpot? || e.FundYield? || e.FulfilDraw?
    requires EpochStep(w.s, e).Err?
    ensures EpochSays(w, e, EpochStep(w.s, e).error)
  {
    hide Progress.Rejected, E.MayLeaveBehind, SeenIn;
  }

  lemma {:induction false} EpochTells(w: World, e: EpochInstr)
    requires Reachable(w) && EpochStep(w.s, e).Err?
    ensures EpochSays(w, e, EpochStep(w.s, e).error)
  {
    hide Reachable, EpochStep, EpochSays, PlayersOk, BooksOk, ReserveOk, MetersOk, DrawsOk, YieldOk, GamesOk, GrantsOk,
      EpochsOk;
    ReachableInv(w);
    match e
    case BeginEpoch(_) => BeginTells(w.s, e, w);
    case Register(_, _) => RegisterTells(w, e);
    case Draw(_) => DrawTells(w, e);
    case Payout(_, _) => PayoutTells(w, e);
    case CloseRegistration(_, _) => CloseTells(w, e);
    case RolloverEpoch(_) => RolloverTells(w, e);
    case _ => IncomeTells(w, e);
  }

  // ----- rounds -----

  predicate RoundSays(s: State, g: RoundInstr, e: Error) {
    || e.ArithmeticOverflow?
    || (e.Unauthorized? && g.CreateRound? && !g.signer.operator)
    || (e.PoolShutDown? && (g.CreateRound? || g.BuyPosition?) && s.pool.shutdown)
    || (e.PoolPaused? && (g.CreateRound? || g.BuyPosition?) && s.pool.paused)
    || (e.GamePaused? && (g.CreateRound? || g.BuyPosition?) && s.pool.gamePaused)
    || (e.RoundAlreadyOpen? && g.CreateRound? && s.pool.openRoundId != 0)
    || (e.InvalidRoundLength? && g.CreateRound? && g.endsAt - g.startsAt != s.pool.params.roundSeconds)
    || (e.RoundOutsideEpoch? && g.CreateRound? && s.pool.currentEpochId > 0 && s.pool.currentEpochEndsAt < g.endsAt)
    || (e.AccountMissing? && !g.CreateRound? && Missing(s, g))
    || (e.RandomnessNotFulfilled? && g.FulfilRound? && !Pending(s, g.id))
    || (e.RandomnessNotFulfilled? && g.SettleRound? && !Answered(s, g.id))
    || (!g.CreateRound? && g.id in s.rounds && RoundIs(s, g, s.rounds[g.id], e))
  }

  predicate Pending(s: State, id: nat) { id in s.rounds && s.rounds[id].status.Requested? && s.rounds[id].oracle.None? }

  predicate Answered(s: State, id: nat) { id in s.rounds && s.rounds[id].oracle.Some? }

  /** The round is not there, or the player, or the player's position. */
  predicate Missing(s: State, g: RoundInstr)
    requires !g.CreateRound?
  {
    || g.id !in s.rounds
    || ((g.BuyPosition? || g.SettlePosition?) && g.k !in s.players)
    || (g.SettlePosition? && g.k !in s.rounds[g.id].positions)
  }

  /** What is said about the round an instruction names, or about the position to be bought. */
  predicate RoundIs(s: State, g: RoundInstr, r: Round, e: Error)
    requires !g.CreateRound?
  {
    var buffer := s.pool.params.closeBuffer;
    || (e.AccountExists? && g.BuyPosition? && g.k in r.positions)
    || (e.HouseCannotPlay? && g.BuyPosition? && g.k == s.pool.house)
    || (e.RoundNotOpen? && (g.BuyPosition? || g.RequestRandomness?) && !r.status.Live?)
    || (e.RoundClosed? && g.BuyPosition? && r.endsAt - buffer <= s.now)
    || (e.InvalidTileSelection? && g.BuyPosition? && !Turns.ValidTiles(g.tiles))
    || (e.InvalidStake? && g.BuyPosition? && g.stakePerTile == 0)
    || (e.InsufficientEntries? && g.BuyPosition?
        && SeenIn(s, g.k).tickets < Turns.Price(Position(g.tiles, g.stakePerTile)))
    || (e.RoundNotEnded? && g.RequestRandomness? && s.now < r.endsAt - buffer)
    || (e.RoundNotRequested? && g.SettleRound? && !r.status.Requested?)
    || (e.RoundNotRequested? && g.VoidRound? && !R.Running(r.status))
    || (e.RandomnessRejection? && g.SettleRound? && AllRejected(r))
    || (e.RandomnessAlreadyFulfilled? && g.VoidRound? && r.oracle.Some?)
    || (e.VrfTimeoutNotElapsed? && g.VoidRound? && s.now <= Play.Deadline(s.pool, r))
    || (e.RoundNotSettled? && (g.SettlePosition? || g.CloseRound?) && R.Running(r.status))
    || (e.RoundHasOpenPositions? && g.CloseRound? && r.positions != map[])
  }

  /** Every sample of the answer lies at or above the rejection limit. */
  predicate AllRejected(r: Round) {
    && r.oracle.Some?
    && forall i :: 0 <= i < TRIES ==>
         Vrf.Limit(U64_MAX, TILE_COUNT) <= Vrf.SampleAt(r.oracle.value, U64_MAX, i)
  }

  lemma {:induction false} CreateTells(s: State, g: RoundInstr)
    requires EpochsOk(s) && s.pool.nextRoundId !in s.rounds && g.CreateRound? && RoundStep(s, g).Err?
    ensures RoundSays(s, g, RoundStep(s, g).error)
  {
    hide Ordered, RoundIs;
  }

  lemma {:induction false} QuoteTells(s: State, k: Key, p: Player, g: RoundInstr)
    requires g.BuyPosition? && g.id in s.rounds && 0 <= s.now
    requires p.isHouse <==> k == s.pool.house
    requires g.k == k && p.entries == SeenIn(s, k).tickets
    requires R.Quote(s, p, s.rounds[g.id], Position(g.tiles, g.stakePerTile)).Err?
    ensures var e := R.Quote(s, p, s.rounds[g.id], Position(g.tiles, g.stakePerTile)).error;
            || e.ArithmeticOverflow?
            || (e.PoolShutDown? && s.pool.shutdown) || (e.PoolPaused? && s.pool.paused)
            || (e.GamePaused? && s.pool.gamePaused)
            || RoundIs(s, g, s.rounds[g.id], e)
  {
    hide Turns.Price, Pow2, Turns.ValidTiles, TileCount, SeenIn;
    Turns.TilesCounted(Position(g.tiles, g.stakePerTile));
    TileCountTells(g.tiles);
  }

  lemma {:induction false} TileCountTells(tiles: u64)
    ensures TileCount(tiles).Err? ==> TileCount(tiles).error == InvalidTileSelection
  {
  }

  lemma {:induction false} BuyTells(w: World, g: RoundInstr)
    requires Reachable(w) && g.BuyPosition? && RoundStep(w.s, g).Err?
    ensures RoundSays(w.s, g, RoundStep(w.s, g).error)
  {
    hide Reachable, R.Quote, R.Joined, R.Staker, Touch, WeightFits, Turns.Price, Turns.ValidTiles;
    var s := w.s;
    if g.id in s.rounds && g.k in s.players {
      UsableAt(w, g.k);
      TouchFails(s.players[g.k], s.pool, s.now);
      if Touch(s.players[g.k], s.pool, s.now).Ok? {
        var q, r := Touch(s.players[g.k], s.pool, s.now).value, s.rounds[g.id];
        var position := Position(g.tiles, g.stakePerTile);
        if R.Quote(s, q, r, position).Err? {
          QuoteTells(s, g.k, q, g);
        } else {
          JoinTells(q, r, s.now, g.k, position, R.Quote(s, q, r, position).value);
        }
      }
    }
  }

  lemma {:induction false} JoinTells(p: Player, r: Round, now: i64, k: Key, position: Position, price: u64)
    ensures R.Staker(p, r, now, price).Err? ==> R.Staker(p, r, now, price).error == ArithmeticOverflow
    ensures R.Joined(r, k, position, price).Err? ==> R.Joined(r, k, position, price).error == ArithmeticOverflow
  {
  }

  /** What `settle_round` can say, before it is put in terms of the samples. */
  lemma {:induction false} SettleErrors(s: State, id: nat)
    requires s.pool.house in s.players && R.SettleRound(s, id).Err?
    ensures var e := R.SettleRound(s, id).error;
            || e.ArithmeticOverflow?
            || (e.AccountMissing? && id !in s.rounds)
            || (e.RoundNotRequested? && id in s.rounds && !s.rounds[id].status.Requested?)
            || (e.RandomnessNotFulfilled? && id in s.rounds && s.rounds[id].oracle.None?)
            || (e.RandomnessRejection? && Answered(s, id) && AllRejected(s.rounds[id]))
  {
    hide R.HouseCut, Vrf.Unbiased, Touch, Vrf.Limit, Vrf.SampleAt;
    TouchFails(s.players[s.pool.house], s.pool, s.now);
    if Answered(s, id) { Vrf.UnbiasedOutcome(s.rounds[id].oracle.value, U64_MAX, TILE_COUNT); }
  }

  lemma {:induction false} SettleTells(s: State, g: RoundInstr)
    requires s.pool.house in s.players && g.SettleRound? && RoundStep(s, g).Err?
    ensures RoundSays(s, g, RoundStep(s, g).error)
  {
    hide R.SettleRound, AllRejected, Turns.ValidTiles, Turns.Price, SeenIn, Play.Deadline;
    SettleErrors(s, g.id);
  }

  /** The next round is new, and the House has its account. */
  lemma {:induction false} Unopened(w: World)
    requires Inv(w)
    ensures EpochsOk(w.s) && w.s.pool.nextRoundId !in w.s.rounds && w.s.pool.house in w.s.players
  {
    hide EpochsOk, BooksOk, ReserveOk, MetersOk, DrawsOk, YieldOk, GrantsOk, RoundOk;
  }

  lemma {:induction false} LeaveTells(w: World, g: RoundInstr)
    requires Reachable(w) && g.SettlePosition? && RoundStep(w.s, g).Err?
    ensures RoundSays(w.s, g, RoundStep(w.s, g).error)
  {
    hide Reachable, R.Reward, Touch, ShapeOk, BooksOk, ReserveOk, MetersOk, DrawsOk, YieldOk, GrantsOk, RoundOk, PlaceOk,
      Turns.ValidTiles, Turns.Price, AllRejected, SeenIn, Turns.Wins;
    ReachableInv(w);
    if g.id in w.s.rounds && g.k in w.s.players && g.k in w.s.rounds[g.id].positions {
      TouchFails(w.s.players[g.k], w.s.pool, w.s.now);
      var r := w.s.rounds[g.id];
      if r.status.Settled? {
        assert RoundOk(r, w.carryIn[g.id]);
        Turns.RewardExactly(r, w.carryIn[g.id], g.k);
      }
    }
  }

  lemma {:induction false} AnswerTells(w: World, g: RoundInstr)
    requires (g.RequestRandomness? || g.FulfilRound?) && RoundStep(w.s, g).Err?
    ensures RoundSays(w.s, g, RoundStep(w.s, g).error)
  {
    hide Turns.ValidTiles, Turns.Price, AllRejected, SeenIn;
  }

  lemma {:induction false} VoidTells(w: World, g: RoundInstr)
    requires g.VoidRound? && RoundStep(w.s, g).Err?
    ensures RoundSays(w.s, g, RoundStep(w.s, g).error)
  {
    hide Turns.ValidTiles, Turns.Price, AllRejected, SeenIn;
  }

  lemma {:induction false} ClearTells(w: World, g: RoundInstr)
    requires Reachable(w) && g.CloseRound? && RoundStep(w.s, g).Err?
    ensures RoundSays(w.s, g, RoundStep(w.s, g).error)
  {
    hide Reachable;
    Turns.ClearsExactly(w, g.id);
  }

  lemma {:induction false} RoundTells(w: World, g: RoundInstr)
    requires Reachable(w) && RoundStep(w.s, g).Err?
    ensures RoundSays(w.s, g, RoundStep(w.s, g).error)
  {
    hide Reachable, RoundStep, RoundSays, Inv;
    ReachableInv(w);
    match g
    case CreateRound(_, _, _) =>
      Unopened(w);
      CreateTells(w.s, g);
    case BuyPosition(_, _, _, _) => BuyTells(w, g);
    case SettleRound(_) =>
      Unopened(w);
      SettleTells(w.s, g);
    case SettlePosition(_, _) => LeaveTells(w, g);
    case VoidRound(_) => VoidTells(w, g);
    case CloseRound(_) => ClearTells(w, g);
    case _ => AnswerTells(w, g);
  }

  // ----- all of them -----

  ghost predicate Says(w: World, i: Instr, e: Error) {
    match i
    case Tick(to) => e == ClockWentBack && to < w.s.now
    case Custodial(c) => CustodySays(w.s, c, e)
    case Epochal(epochal) => EpochSays(w, epochal, e)
    case Game(g) => RoundSays(w.s, g, e)
  }

  /** In every reachable world, what an instruction that aborts says is the case. */
  lemma {:induction false} RefusalsAreTrue(w: World, i: Instr)
    requires Reachable(w) && Step(w.s, i).Err?
    ensures Says(w, i, Step(w.s, i).error)
  {
    hide Reachable, CustodyStep, EpochStep, RoundStep, CustodySays, EpochSays, RoundSays;
    match i
    case Tick(_) =>
    case Custodial(c) => CustodyTells(w, c);
    case Epochal(e) => EpochTells(w, e);
    case Game(g) => RoundTells(w, g);
  }
}
