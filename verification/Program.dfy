/** Instructions, runs, and the observer that every property over runs is stated against. */
module Program {
  import opened Machine
  import opened Ledger
  import opened Touching
  import C = Custody
  import E = Epochs
  import R = Rounds

  datatype CustodyInstr =
    | SetParams(signer: Signer, update: C.ParamsUpdate) | SetPause(signer: Signer, paused: bool)
    | SetFeaturePause(signer: Signer, feature: C.PauseFeature, paused: bool) | Shutdown(signer: Signer)
    | Deposit(k: Key, amount: u64) | RequestWithdraw(k: Key, amount: u64) | ProcessWithdraw(k: Key)
    | AdminWithdraw(signer: Signer, amount: u64) | TransferIn(amount: u64) | EmergencyWithdraw(k: Key)
    | SweepHouse(signer: Signer) | BuyTickets(k: Key, amount: u64)
    | GrantTickets(signer: Signer, k: Key, amount: u64)

  datatype EpochInstr =
    | BeginEpoch(signer: Signer) | Register(id: nat, k: Key) | FundJackpot(amount: u64) | FundYield(amount: u64)
    | CloseRegistration(signer: Signer, id: nat) | Draw(id: nat) | Payout(id: nat, k: Key) | RolloverEpoch(id: nat)
    | FulfilDraw(id: nat, samples: Samples)

  datatype RoundInstr =
    | CreateRound(signer: Signer, startsAt: i64, endsAt: i64)
    | BuyPosition(id: nat, k: Key, tiles: u64, stakePerTile: u64) | RequestRandomness(id: nat)
    | SettleRound(id: nat) | SettlePosition(id: nat, k: Key) | VoidRound(id: nat) | CloseRound(id: nat)
    | FulfilRound(id: nat, samples: Samples)

  /** One transaction, or the passing of time. */
  datatype Instr = Tick(to: clock) | Custodial(c: CustodyInstr) | Epochal(e: EpochInstr) | Game(g: RoundInstr)

  function CustodyStep(s: State, c: CustodyInstr): Result<State> {
    match c
    case SetParams(signer, u) => C.SetParams(s, signer, u)
    case SetPause(signer, paused) => C.SetPause(s, signer, paused)
    case SetFeaturePause(signer, feature, paused) => C.SetFeaturePause(s, signer, feature, paused)
    case Shutdown(signer) => C.Shutdown(s, signer)
    case Deposit(k, amount) => C.Deposit(s, k, amount)
    case RequestWithdraw(k, amount) => C.RequestWithdraw(s, k, amount)
    case ProcessWithdraw(k) => C.ProcessWithdraw(s, k)
    case AdminWithdraw(signer, amount) => C.AdminWithdraw(s, signer, amount)
    case TransferIn(amount) => C.TransferIn(s, amount)
    case EmergencyWithdraw(k) => C.EmergencyWithdraw(s, k)
    case SweepHouse(signer) => C.SweepHouse(s, signer)
    case BuyTickets(k, amount) => C.BuyTickets(s, k, amount)
    case GrantTickets(signer, k, amount) => C.GrantTickets(s, signer, k, amount)
  }

  function EpochStep(s: State, e: EpochInstr): Result<State> {
    match e
    case BeginEpoch(signer) => E.BeginEpoch(s, signer)
    case Register(id, k) => E.Register(s, id, k)
    case FundJackpot(amount) => E.FundJackpot(s, amount)
    case FundYield(amount) => E.FundYield(s, amount)
    case CloseRegistration(signer, id) => E.CloseRegistration(s, signer, id)
    case Draw(id) => E.Draw(s, id)
    case Payout(id, k) => E.Payout(s, id, k)
    case RolloverEpoch(id) => E.RolloverEpoch(s, id)
    case FulfilDraw(id, samples) => E.FulfilDraw(s, id, samples)
  }

  function RoundStep(s: State, g: RoundInstr): Result<State> {
    match g
    case CreateRound(signer, startsAt, endsAt) => R.CreateRound(s, signer, startsAt, endsAt)
    case BuyPosition(id, k, tiles, stakePerTile) => R.BuyPosition(s, id, k, tiles, stakePerTile)
    case RequestRandomness(id) => R.RequestRandomness(s, id)
    case SettleRound(id) => R.SettleRound(s, id)
    case SettlePosition(id, k) => R.SettlePosition(s, id, k)
    case VoidRound(id) => R.VoidRound(s, id)
    case CloseRound(id) => R.CloseRound(s, id)
    case FulfilRound(id, samples) => R.FulfilRound(s, id, samples)
  }

  function Step(s: State, i: Instr): Result<State> {
    match i
    case Tick(to) => if s.now <= to then Ok(s.(now := to)) else Err(ClockWentBack)
    case Custodial(c) => CustodyStep(s, c)
    case Epochal(e) => EpochStep(s, e)
    case Game(g) => RoundStep(s, g)
  }

  /** An eager integrator: entries times seconds, and principal times seconds. */
  datatype Meter = Meter(weight: nat, principal: nat)

  /** One registration: the stretch of the draw that a player owns. */
  datatype Interval = Interval(k: Key, start: nat, end: nat)

  /** What ever went into the jackpot vault, as funding and as the price of Tickets, and what left it, as prizes and swept. */
  datatype JackpotBook = JackpotBook(funded: nat, bought: nat, paidOut: nat, swept: nat)

  /** The state, and what an observer who watches every second and every transaction writes down.
      Nothing here reads an accumulator, a freeze or a registration field of a player. */
  datatype World = World(
    s: State,
    live: map<Key, Meter>,          // the current epoch's integrals so far
    past: map<Key, Meter>,          // the integrals of the epoch before it
    log: map<nat, seq<Interval>>,   // registrations per epoch, in order
    netOut: int,                    // principal the admin took, less plain transfers back in
    peak: nat, pastPeak: nat,       // highest total principal of the current epoch and of the one before it
    topRate: nat,                   // highest base rate since the current epoch began
    credited: nat,                  // yield credited for the epoch before the current one
    funded: nat, paid: nat, swept: nat,   // yield budget put in, credited and swept, ever
    carryIn: map<nat, nat>,         // what the pool was carrying when each round was created
    jackpot: JackpotBook)           // the jackpot vault's inflows and outflows, ever

  /** Tickets a player holds: Principal again as soon as a new epoch has begun. */
  function EffectiveEntries(p: Player, current: nat): nat {
    if p.epochId < current then p.principal else p.entries
  }

  /** By how much a quantity grew, if it did. */
  function Gain(before: int, after: int): nat { if before < after then after - before else 0 }

  /** Seconds of the current epoch that pass between now and a later instant. */
  function Overlap(pool: Pool, now: clock, to: clock): nat {
    if pool.currentEpochId == 0 then 0 else Gain(now, Min(to, pool.currentEpochEndsAt))
  }

  predicate Opens(i: Instr) { i.Epochal? && i.e.BeginEpoch? }

  predicate Buys(i: Instr, k: Key) { i.Game? && i.g.BuyPosition? && i.g.k == k }

  /** What the observer adds to a player's integrals: balance times seconds as time passes, the whole
      head start when an epoch opens late, and the weight a stake would have earned to its round's end. */
  function MeterNext(w: World, i: Instr, t: State, k: Key): Meter
    requires k in t.players
  {
    var p := t.players[k];
    if Opens(i) then
      var seconds := Gain(t.pool.currentEpochStart, Min(t.now, t.pool.currentEpochEndsAt));
      Meter(p.principal * seconds, p.principal * seconds)
    else if k !in w.live then Meter(0, 0)
    else if i.Tick? then
      var seconds := Overlap(t.pool, w.s.now, i.to);
      Meter(w.live[k].weight + EffectiveEntries(p, t.pool.currentEpochId) * seconds,
            w.live[k].principal + p.principal * seconds)
    else if Buys(i, k) && i.g.id in w.s.rounds && i.g.id in t.rounds then
      var stake := t.rounds[i.g.id].pot - w.s.rounds[i.g.id].pot;
      var seconds := t.rounds[i.g.id].endsAt - t.now;
      w.live[k].(weight := w.live[k].weight + if stake > 0 && seconds > 0 then stake * seconds else 0)
    else w.live[k]
  }

  function LogNext(w: World, i: Instr, t: State): map<nat, seq<Interval>> {
    if Opens(i) then w.log[t.pool.currentEpochId := []]
    else if i.Epochal? && i.e.Register? && i.e.id in w.s.epochs && i.e.id in t.epochs && i.e.id in w.log then
      var before, after := w.s.epochs[i.e.id].registeredWeight, t.epochs[i.e.id].registeredWeight;
      if before == after then w.log else w.log[i.e.id := w.log[i.e.id] + [Interval(i.e.k, before, after)]]
    else w.log
  }

  /** Principal that an instruction takes out of the books' sight, or brings back. */
  function Taken(i: Instr): int {
    if i.Custodial? && i.c.AdminWithdraw? then i.c.amount as int
    else if i.Custodial? && i.c.TransferIn? then -(i.c.amount as int)
    else 0
  }

  /** What leaves the jackpot vault for a prize: all of it to a player, half and a fifth of it, each rounded down, if the
      House won. */
  function PrizeOut(epoch: Epoch, winner: Player): nat {
    if winner.isHouse then epoch.jackpotAmount / 2 + epoch.jackpotAmount / 5 else epoch.jackpotAmount
  }

  /** The entry an instruction makes in the jackpot's book: the amount it names, the prize it pays, or everything no
      draw was promised. */
  function JackpotNext(book: JackpotBook, s: State, i: Instr): JackpotBook {
    if i.Epochal? && i.e.FundJackpot? then book.(funded := book.funded + i.e.amount)
    else if i.Custodial? && i.c.BuyTickets? then book.(bought := book.bought + i.c.amount)
    else if i.Custodial? && i.c.SweepHouse? then book.(swept := book.swept + Gain(s.pool.jackpotReserved, s.jackpotVault))
    else if i.Epochal? && i.e.Payout? && i.e.id in s.epochs && i.e.k in s.players then
      book.(paidOut := book.paidOut + PrizeOut(s.epochs[i.e.id], s.players[i.e.k]))
    else book
  }

  function Observe(w: World, i: Instr, t: State): World {
    var yielded := if i.Epochal? && i.e.Register? then Gain(w.s.pool.totalPrincipal, t.pool.totalPrincipal) else 0;
    World(
      t,
      map k | k in t.players :: MeterNext(w, i, t, k),
      if Opens(i) then w.live else w.past,
      LogNext(w, i, t),
      w.netOut + Taken(i),
      if Opens(i) then t.pool.totalPrincipal else Max(w.peak, t.pool.totalPrincipal),
      if Opens(i) then w.peak else w.pastPeak,
      if Opens(i) then t.pool.params.baseRateBps else Max(w.topRate, t.pool.params.baseRateBps),
      if Opens(i) then 0 else w.credited + yielded,
      w.funded + (if i.Epochal? && i.e.FundYield? then i.e.amount else 0),
      w.paid + yielded,
      w.swept + (if i.Custodial? && i.c.SweepHouse? then Gain(t.pool.yieldBudget, w.s.pool.yieldBudget) else 0),
      if i.Game? && i.g.CreateRound?
        then w.carryIn[t.pool.openRoundId := w.s.pool.carryPot] else w.carryIn,
      JackpotNext(w.jackpot, w.s, i))
  }

  /** A transaction that aborts changes nothing. */
  function Next(w: World, i: Instr): World {
    match Step(w.s, i)
    case Ok(t) => Observe(w, i, t)
    case Err(_) => w
  }

  function Run(w: World, trace: seq<Instr>): World {
    if trace == [] then w else Next(Run(w, trace[..|trace| - 1]), trace[|trace| - 1])
  }

  function Genesis(s: State): World {
    World(s, map k | k in s.players :: Meter(0, 0), map[], map[], 0, 0, 0, s.pool.params.baseRateBps, 0, 0, 0, 0, map[],
          JackpotBook(0, 0, 0, 0))
  }

  /** Every world that some pool can reach by some run. */
  ghost predicate Reachable(w: World) {
    exists params: Params, house: Key, now: clock, trace: seq<Instr> ::
      C.CreatePool(params, house, now).Ok? && w == Run(Genesis(C.CreatePool(params, house, now).value), trace)
  }
}
