/** Where Tickets come from and where they go, instruction by instruction. */
module Issuance {
  import opened Machine
  import opened Ledger
  import opened Touching
  import opened Sums
  import opened Program
  import opened Effects
  import opened Frames
  import opened Shape
  import opened Books
  import opened Reserve
  import opened Meters
  import opened Draws
  import opened Yield
  import opened Games
  import opened Grants
  import opened Tickets
  import opened Invariant
  import Earnings
  import C = Custody
  import E = Epochs

  /** Tickets that a custody instruction issues, or burns if negative: a deposit one for one, a purchase at the
      pool's rate, a grant its amount; a withdrawal request burns up to what the player holds, an emergency
      withdrawal all of it. */
  function CustodyIssue(s: State, c: CustodyInstr): int {
    match c
    case Deposit(_, amount) => amount
    case BuyTickets(_, amount) => amount * s.pool.params.ticketsPerUsdc
    case GrantTickets(_, _, amount) => amount
    case RequestWithdraw(k, amount) => -Min(amount, EffectiveEntries(Before(s, k), s.pool.currentEpochId))
    case EmergencyWithdraw(k) => 0 - EffectiveEntries(Before(s, k), s.pool.currentEpochId)
    case _ => 0
  }

  /** A registration issues what it credits, a payout what it compounds. */
  function EpochIssue(s: State, e: EpochInstr, t: State): int {
    if e.Register? || e.Payout? then t.pool.totalPrincipal - s.pool.totalPrincipal else 0
  }

  function Held(s: State, k: Key): int { EffectiveEntries(Before(s, k), s.pool.currentEpochId) }

  lemma DepositIssues(s: State, k: Key, amount: u64, t: State)
    requires C.Deposit(s, k, amount) == Ok(t) && PlayersOk(s)
    ensures k in t.players && Held(t, k) == Held(s, k) + amount
  {
    hide Touch;
    TouchKeeps(Before(s, k), s.pool, s.now);
    assert k in s.players ==> PlayerOk(k, s.players[k], s.pool, s.now);
  }

  lemma PurchaseIssues(s: State, k: Key, amount: u64, t: State)
    requires C.BuyTickets(s, k, amount) == Ok(t) && PlayersOk(s)
    ensures k in t.players && Held(t, k) == Held(s, k) + amount * s.pool.params.ticketsPerUsdc
  {
    hide Touch, C.CounterAfter;
    TouchKeeps(s.players[k], s.pool, s.now);
    assert PlayerOk(k, s.players[k], s.pool, s.now);
  }

  lemma GrantIssues(s: State, signer: Signer, k: Key, amount: u64, t: State)
    requires C.GrantTickets(s, signer, k, amount) == Ok(t) && PlayersOk(s)
    ensures k in t.players && Held(t, k) == Held(s, k) + amount
  {
    hide Touch, C.CounterAfter, C.PoolBonusCap;
    TouchKeeps(s.players[k], s.pool, s.now);
    assert PlayerOk(k, s.players[k], s.pool, s.now);
  }

  lemma PromiseIssues(s: State, c: CustodyInstr, t: State)
    requires (c.Deposit? || c.BuyTickets? || c.GrantTickets?) && CustodyStep(s, c) == Ok(t) && PlayersOk(s)
    ensures c.k in t.players && Held(t, c.k) == Held(s, c.k) + CustodyIssue(s, c)
  {
    hide C.Deposit, C.BuyTickets, C.GrantTickets, Held;
    match c
    case Deposit(k, amount) => DepositIssues(s, k, amount, t);
    case BuyTickets(k, amount) => PurchaseIssues(s, k, amount, t);
    case GrantTickets(signer, k, amount) => GrantIssues(s, signer, k, amount, t);
  }

  lemma WithdrawalIssues(s: State, c: CustodyInstr, t: State)
    requires (c.RequestWithdraw? || c.ProcessWithdraw? || c.EmergencyWithdraw?) && CustodyStep(s, c) == Ok(t) && PlayersOk(s)
    ensures c.k in t.players && Held(t, c.k) == Held(s, c.k) + CustodyIssue(s, c)
  {
    hide Touch, PlayerOk;
    if c.k in s.players && Touch(s.players[c.k], s.pool, s.now).Ok? { TouchOk(c.k, s.players[c.k], s.pool, s.now); }
  }

  lemma PayoutIssues(s: State, id: nat, k: Key, t: State)
    requires E.Payout(s, id, k) == Ok(t) && PlayersOk(s)
    ensures k in s.players && k in t.players && Held(t, k) == Held(s, k) + t.pool.totalPrincipal - s.pool.totalPrincipal
    ensures id in s.epochs
    ensures t.pool.totalPrincipal - s.pool.totalPrincipal == if s.players[k].isHouse then 0 else s.epochs[id].jackpotAmount
  {
    hide Touch, PlayerOk;
    if Touch(s.players[k], s.pool, s.now).Ok? { TouchOk(k, s.players[k], s.pool, s.now); }
  }

  /** If only `k` moves and the game does not, the total moves by what `k` holds. */
  lemma TotalMoves(s: State, i: Instr, t: State, issue: int)
    requires OnlyActor(s, i, t) && t.rounds == s.rounds && t.pool.carryPot == s.pool.carryPot
    requires match Actor(s, i)
             case None => issue == 0
             case Some(k) => k in t.players && Held(t, k) == Held(s, k) + issue
    ensures TicketTotal(t) == TicketTotal(s) + issue
  {
    hide Moved, OwedIn;
    if Actor(s, i).Some? {
      var k := Actor(s, i).value;
      SumSet(s.players, EntriesIn(s.pool.currentEpochId), k, t.players[k]);
    }
  }

  /** Custody instructions issue and burn exactly the Tickets they promise. */
  lemma CustodyIssuesExactly(s: State, c: CustodyInstr, t: State)
    requires CustodyStep(s, c) == Ok(t) && PlayersOk(s)
    ensures TicketTotal(t) == TicketTotal(s) + CustodyIssue(s, c)
  {
    hide CustodyStep, OnlyActor, TicketTotal, PlayersOk, Held;
    CustodyEffect(s, c, t);
    CustodyGame(s, c, t);
    if c.Deposit? || c.BuyTickets? || c.GrantTickets? { PromiseIssues(s, c, t); }
    if c.RequestWithdraw? || c.ProcessWithdraw? || c.EmergencyWithdraw? { WithdrawalIssues(s, c, t); }
    TotalMoves(s, Custodial(c), t, CustodyIssue(s, c));
  }

  /** Epoch instructions issue exactly what they add to Principal; all but a credit and a compounded prize issue
      nothing. */
  lemma EpochIssuesExactly(s: State, e: EpochInstr, t: State)
    requires EpochStep(s, e) == Ok(t) && !e.BeginEpoch? && PlayersOk(s)
    ensures TicketTotal(t) == TicketTotal(s) + EpochIssue(s, e, t)
  {
    hide EpochStep, OnlyActor, TicketTotal, PlayersOk, E.Register, E.Payout;
    EpochEffect(s, e, t);
    EpochGame(s, e, t);
    EpochLeaves(s, e, t);
    if e.Register? {
      RegisterStepIs(s, e, t);
      Earnings.RegisterNeeds(s, e.id, e.k, t);
      Earnings.RegisterGains(s, e.id, e.k, t);
    }
    if e.Payout? {
      PayoutStepIs(s, e, t);
      PayoutIssues(s, e.id, e.k, t);
    }
    TotalMoves(s, Epochal(e), t, EpochIssue(s, e, t));
  }

  /** A new epoch resets every player's Tickets to Principal and cancels what earlier rounds owe: the total is then
      exactly all Principal plus the pot that is being carried. */
  lemma BeginIssuesExactly(w: World, signer: Signer, t: State)
    requires E.BeginEpoch(w.s, signer) == Ok(t) && PlayersOk(w.s) && GamesOk(w) && BooksOk(w)
    ensures TicketTotal(t) == t.pool.totalPrincipal + t.pool.carryPot
  {
    hide E.BeginEpoch, RoundOk;
    BeginEpochBegins(w.s, signer, t);
    BeginEpochBooks(w.s, signer, t);
    var c: nat := t.pool.currentEpochId;
    forall k | k in t.players ensures EntriesIn(c)(t.players[k]) == PRINCIPAL(t.players[k]) {
      assert PlayerOk(k, w.s.players[k], w.s.pool, w.s.now);
    }
    SumSame(t.players, EntriesIn(c), t.players, PRINCIPAL);
    forall id | id in t.rounds ensures OwedIn(c)(t.rounds[id]) == 0 { assert PlaceOk(id, w.s.rounds[id], w.s); }
    var none: map<nat, Round> := map[];
    SumSame(none, OwedIn(c), t.rounds, OwedIn(c));
  }

  /** Tickets that a step inside an epoch issues, less what it burns; a step that aborts issues none. */
  function Issue(w: World, i: Instr): int {
    match Step(w.s, i)
    case Err(_) => 0
    case Ok(t) => if i.Custodial? then CustodyIssue(w.s, i.c) else if i.Epochal? then EpochIssue(w.s, i.e, t) else 0
  }

  function Issued(w: World, trace: seq<Instr>): int {
    if trace == [] then 0
    else
      var before := trace[..|trace| - 1];
      Issued(w, before) + Issue(Run(w, before), trace[|trace| - 1])
  }

  lemma IssueNext(w: World, i: Instr)
    requires Inv(w) && (Opens(i) ==> Step(w.s, i).Err?)
    ensures TicketTotal(Next(w, i).s) <= TicketTotal(w.s) + Issue(w, i)
  {
    hide CustodyStep, EpochStep, RoundStep, EpochsOk, PlayersOk, BooksOk, ReserveOk, MetersOk, DrawsOk, YieldOk, GamesOk,
      GrantsOk, MeterNext, LogNext, TicketTotal, CustodyIssue, EpochIssue;
    if Step(w.s, i).Ok? {
      var t := Step(w.s, i).value;
      match i
      case Tick(_) => TickKeepsTickets(w.s, t);
      case Custodial(c) => CustodyIssuesExactly(w.s, c, t);
      case Epochal(e) => EpochIssuesExactly(w.s, e, t);
      case Game(g) => GameNeverMints(w, g, t);
    }
  }

  /** A `begin_epoch` that succeeds leaves the epoch. */
  lemma BeginLeaves(s: State, e: EpochInstr, t: State)
    requires EpochStep(s, e) == Ok(t) && e.BeginEpoch?
    ensures t.pool.currentEpochId == s.pool.currentEpochId + 1
  {
    hide E.GridFloor, E.NextEpochStart, E.MayLeaveBehind;
  }

  lemma TickKeepsTickets(s: State, t: State)
    requires t == s.(now := t.now)
    ensures TicketTotal(t) == TicketTotal(s)
  {
  }

  /** The epoch's number never goes back, and only a `begin_epoch` that succeeds moves it. */
  lemma EpochIdNext(w: World, i: Instr)
    ensures Next(w, i).s.pool.currentEpochId
         == w.s.pool.currentEpochId + if Opens(i) && Step(w.s, i).Ok? then 1 else 0
  {
    hide CustodyStep, EpochStep, RoundStep, OnlyActor, MeterNext, LogNext;
    if Step(w.s, i).Ok? {
      var t := Step(w.s, i).value;
      match i
      case Tick(_) =>
      case Custodial(c) => CustodyLeaves(w.s, c, t);
      case Game(g) => RoundLeaves(w.s, g, t);
      case Epochal(e) => if e.BeginEpoch? { BeginLeaves(w.s, e, t); } else { EpochLeaves(w.s, e, t); }
    }
  }

  lemma {:induction false} EpochIdRun(w: World, trace: seq<Instr>)
    ensures w.s.pool.currentEpochId <= Run(w, trace).s.pool.currentEpochId
  {
    hide Next;
    if trace != [] {
      EpochIdRun(w, trace[..|trace| - 1]);
      EpochIdNext(Run(w, trace[..|trace| - 1]), trace[|trace| - 1]);
    }
  }

  lemma {:induction false} IssueRun(w: World, trace: seq<Instr>)
    requires Inv(w) && Run(w, trace).s.pool.currentEpochId == w.s.pool.currentEpochId
    ensures TicketTotal(Run(w, trace).s) <= TicketTotal(w.s) + Issued(w, trace)
  {
    hide Inv, Next, TicketTotal, Issue;
    if trace != [] {
      var before, last := trace[..|trace| - 1], trace[|trace| - 1];
      EpochIdRun(w, before);
      EpochIdNext(Run(w, before), last);
      IssueRun(w, before);
      InvRun(w, before);
      IssueNext(Run(w, before), last);
    }
  }

  /** The ledger closes: in every state of every run that is still in the epoch, the Tickets there are do not exceed the
      Principal and the carried pot at the epoch's start plus what was issued since. */
  lemma {:induction false} TicketsAreAccountedFor(w: World, signer: Signer, trace: seq<Instr>)
    requires Reachable(w) && E.BeginEpoch(w.s, signer).Ok?
    requires var v := Next(w, Epochal(BeginEpoch(signer)));
             Run(v, trace).s.pool.currentEpochId == v.s.pool.currentEpochId
    ensures var v := Next(w, Epochal(BeginEpoch(signer)));
            TicketTotal(Run(v, trace).s) <= v.s.pool.totalPrincipal + v.s.pool.carryPot + Issued(v, trace)
  {
    hide Reachable, Run, E.BeginEpoch, EpochsOk, PlayersOk, BooksOk, ReserveOk, MetersOk, DrawsOk, YieldOk, GamesOk,
      GrantsOk, MeterNext, LogNext, TicketTotal, Issued;
    ReachableInv(w);
    var i := Epochal(BeginEpoch(signer));
    InvNext(w, i);
    BeginIssuesExactly(w, signer, E.BeginEpoch(w.s, signer).value);
    IssueRun(Next(w, i), trace);
  }

  /** The instructions that hand out Tickets by design. */
  predicate Mints(i: Instr) {
    || (i.Custodial? && (i.c.Deposit? || i.c.BuyTickets? || i.c.GrantTickets?))
    || (i.Epochal? && (i.e.BeginEpoch? || i.e.Register? || i.e.Payout?))
  }

  /** Rounds never create Tickets: over any run without the instructions that grant them, what players hold,
      what is carried and what rounds owe together never grows. */
  lemma {:induction false} TicketsNeverGrow(w: World, trace: seq<Instr>)
    requires Inv(w) && forall j :: 0 <= j < |trace| ==> !Mints(trace[j])
    ensures TicketTotal(Run(w, trace).s) <= TicketTotal(w.s)
  {
    hide Inv, Next, TicketTotal, Issue;
    if trace != [] {
      TicketsNeverGrow(w, trace[..|trace| - 1]);
      InvRun(w, trace[..|trace| - 1]);
      IssueNext(Run(w, trace[..|trace| - 1]), trace[|trace| - 1]);
      NothingMinted(Run(w, trace[..|trace| - 1]), trace[|trace| - 1]);
    }
  }

  lemma NothingMinted(w: World, i: Instr)
    requires !Mints(i)
    ensures Issue(w, i) <= 0
  {
    hide Step;
  }
}
