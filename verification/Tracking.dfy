/** The hold tracker of a referred wallet, fed with the events the program emits: over every run it follows the wallet's
    Principal on the chain, except for an emergency exit, which it is not told of. */
module Tracking {
  import opened Machine
  import opened Ledger
  import opened Touching
  import opened Program
  import opened Effects
  import opened Shape
  import opened Invariant
  import opened Visible
  import opened Movements
  import opened Stages
  import Turns
  import Exit
  import opened Referral
  import C = Custody
  import E = Epochs
  import R = Rounds

  function PrincipalOf(s: State, k: Key): nat { if k in s.players then s.players[k].principal else 0 }

  /** The event about `k`'s Principal that an instruction emits, if any: the balance a deposit leaves, the amount a request
      asks for, what a first registration credits, and a prize that is compounded. */
  function Told(s: State, i: Instr, t: State, k: Key): Option<Event> {
    if Actor(s, i) != Some(k) then None
    else if i.Custodial? && i.c.Deposit? then Some(Deposited(PrincipalOf(t, k)))
    else if i.Custodial? && i.c.RequestWithdraw? then Some(WithdrawRequested(i.c.amount))
    else if i.Epochal? && i.e.Register? && k in s.players && s.players[k].yieldEpoch != i.e.id then
      Some(YieldCredited(t.pool.totalPrincipal - s.pool.totalPrincipal))
    else if i.Epochal? && i.e.Payout? && k in s.players && !s.players[k].isHouse && i.e.id in s.epochs then
      Some(JackpotPaid(s.epochs[i.e.id].jackpotAmount))
    else None
  }

  /** The tracker's history of `k`: the balance it is bound with, and every event since. */
  function History(w: World, trace: seq<Instr>, k: Key): seq<Stamped> {
    if trace == [] then [Stamped(Deposited(PrincipalOf(w.s, k)), w.s.now)]
    else
      var before, i := trace[..|trace| - 1], trace[|trace| - 1];
      var v := Run(w, before);
      match Step(v.s, i)
      case Ok(t) =>
        (match Told(v.s, i, t, k)
         case Some(event) => History(w, before, k) + [Stamped(event, t.now)]
         case None => History(w, before, k))
      case Err(_) => History(w, before, k)
  }

  /** Principal of `k` that an instruction takes out by an emergency exit. */
  function ExitOf(s: State, i: Instr, k: Key): nat {
    if i == Custodial(EmergencyWithdraw(k)) then PrincipalOf(s, k) else 0
  }

  function Exits(w: World, trace: seq<Instr>, k: Key): nat {
    if trace == [] then 0
    else
      var before, i := trace[..|trace| - 1], trace[|trace| - 1];
      Exits(w, before, k) + if Step(Run(w, before).s, i).Ok? then ExitOf(Run(w, before).s, i, k) else 0
  }

  /** The Principal of `k` after an instruction, from what was told of it. */
  ghost predicate Follows(s: State, i: Instr, t: State, k: Key) {
    match Told(s, i, t, k)
    case None => PrincipalOf(t, k) == PrincipalOf(s, k) - ExitOf(s, i, k)
    case Some(Deposited(principal)) => PrincipalOf(t, k) == principal && !s.pool.shutdown
    case Some(WithdrawRequested(amount)) => PrincipalOf(t, k) == PrincipalOf(s, k) - amount
    case Some(YieldCredited(amount)) => PrincipalOf(t, k) == PrincipalOf(s, k) + amount
    case Some(JackpotPaid(amount)) => PrincipalOf(t, k) == PrincipalOf(s, k) + amount
  }

  lemma CustodyFollows(w: World, c: CustodyInstr, t: State, k: Key)
    requires Reachable(w) && CustodyStep(w.s, c) == Ok(t) && Actor(w.s, Custodial(c)) == Some(k)
    ensures Follows(w.s, Custodial(c), t, k) && (ExitOf(w.s, Custodial(c), k) > 0 ==> w.s.pool.shutdown)
  {
    hide Reachable, Touch, C.Deposit, C.RequestWithdraw, C.ProcessWithdraw, C.EmergencyWithdraw, C.BuyTickets,
      C.GrantTickets, Touchable;
    match c
    case Deposit(_, amount) => DepositExactly(w, k, amount);
    case RequestWithdraw(_, amount) => RequestExactly(w, k, amount);
    case ProcessWithdraw(_) => ProcessExactly(w, k);
    case EmergencyWithdraw(_) => ExitExactly(w, k);
    case BuyTickets(_, amount) => BuyExactly(w, k, amount);
    case GrantTickets(signer, _, amount) => GrantExactly(w, signer, k, amount);
  }

  lemma EpochFollows(w: World, e: EpochInstr, t: State, k: Key)
    requires Reachable(w) && EpochStep(w.s, e) == Ok(t) && Actor(w.s, Epochal(e)) == Some(k)
    ensures Follows(w.s, Epochal(e), t, k)
  {
    hide Reachable, E.Register, E.Payout;
    if e.Register? { RegisterDoes(w, e.id, k, t); } else { PayoutDoes(w, e.id, k, t); }
  }

  lemma RoundFollows(w: World, g: RoundInstr, t: State, k: Key)
    requires Reachable(w) && RoundStep(w.s, g) == Ok(t) && Actor(w.s, Game(g)) == Some(k)
    ensures Follows(w.s, Game(g), t, k)
  {
    hide Reachable, R.BuyPosition, R.SettlePosition, R.SettleRound, Turns.MayJoin, Turns.Enters, Turns.MaySettle;
    if g.BuyPosition? {
      Turns.BuysExactly(w, g.id, k, g.tiles, g.stakePerTile);
    } else if g.SettlePosition? {
      var reward := Turns.SettlesExactly(w, g.id, k);
    } else {
      Turns.SettleDoes(w, g.id, t);
    }
  }

  lemma OthersFollow(s: State, i: Instr, t: State, k: Key)
    requires OnlyActor(s, i, t) && Actor(s, i) != Some(k)
    ensures Follows(s, i, t, k) && ExitOf(s, i, k) == 0
  {
  }

  lemma BeginFollows(s: State, e: EpochInstr, t: State, k: Key)
    requires e.BeginEpoch? && E.BeginEpoch(s, e.signer) == Ok(t)
    ensures Follows(s, Epochal(e), t, k)
  {
    hide E.GridFloor, E.NextEpochStart, E.MayLeaveBehind;
  }

  lemma StepFollows(w: World, i: Instr, t: State, k: Key)
    requires Reachable(w) && Step(w.s, i) == Ok(t)
    ensures Follows(w.s, i, t, k) && (ExitOf(w.s, i, k) > 0 ==> w.s.pool.shutdown)
  {
    hide Reachable, CustodyStep, EpochStep, RoundStep, Follows, OnlyActor, PrincipalOf;
    match i
    case Tick(_) => TickFollows(w.s, i, t, k);
    case Custodial(c) =>
      CustodyEffect(w.s, c, t);
      if Actor(w.s, i) == Some(k) { CustodyFollows(w, c, t, k); } else { OthersFollow(w.s, i, t, k); }
    case Game(g) =>
      RoundEffect(w.s, g, t);
      if Actor(w.s, i) == Some(k) { RoundFollows(w, g, t, k); } else { OthersFollow(w.s, i, t, k); }
    case Epochal(e) =>
      if e.BeginEpoch? {
        BeginEpochIs(w.s, e, t);
        BeginFollows(w.s, e, t, k);
      } else {
        EpochEffect(w.s, e, t);
        if Actor(w.s, i) == Some(k) { EpochFollows(w, e, t, k); } else { OthersFollow(w.s, i, t, k); }
      }
  }

  lemma TickFollows(s: State, i: Instr, t: State, k: Key)
    requires i.Tick? && Step(s, i) == Ok(t)
    ensures Follows(s, i, t, k)
  {
  }

  /** What the tracker knows at the end of a run: the Principal, but for what left by emergency exits, which come only
      after shutdown. */
  ghost predicate Knows(w: World, trace: seq<Instr>, k: Key) {
    var s := Run(w, trace).s;
    && Replay(History(w, trace, k)).principal == PrincipalOf(s, k) + Exits(w, trace, k)
    && (Exits(w, trace, k) > 0 ==> s.pool.shutdown)
  }

  lemma {:induction false} AppendReplay(history: seq<Stamped>, last: Stamped)
    ensures Replay(history + [last]) == ApplyEvent(Replay(history), last.event, last.time)
  {
    assert (history + [last])[..|history|] == history;
  }

  lemma {:induction false} ShutdownStays(w: World, i: Instr)
    requires Reachable(w) && w.s.pool.shutdown
    ensures Next(w, i).s.pool.shutdown
  {
    hide Reachable, Next;
    Exit.ShutdownIsFinal(w, [i]);
    assert [i][..0] == [] && Run(w, [i]) == Next(Run(w, []), i);
  }

  lemma KnowsNext(w: World, trace: seq<Instr>, k: Key)
    requires trace != [] && Reachable(Run(w, trace[..|trace| - 1])) && Knows(w, trace[..|trace| - 1], k)
    ensures Knows(w, trace, k)
  {
    hide Reachable, Step, Follows, PrincipalOf, Told, ExitOf, Replay, MeterNext, LogNext, JackpotNext;
    var before, i := trace[..|trace| - 1], trace[|trace| - 1];
    var v := Run(w, before);
    if Step(v.s, i).Ok? {
      var t := Step(v.s, i).value;
      StepFollows(v, i, t, k);
      if v.s.pool.shutdown { ShutdownStays(v, i); }
      var told := Told(v.s, i, t, k);
      if told.Some? { AppendReplay(History(w, before, k), Stamped(told.value, t.now)); }
      ToldFollows(Replay(History(w, before, k)), v.s, i, t, k, Exits(w, before, k));
    }
  }

  /** One event brings a tracker that knows the Principal to the next one. */
  lemma ToldFollows(tracker: Tracker, s: State, i: Instr, t: State, k: Key, exits: nat)
    requires Follows(s, i, t, k) && tracker.principal == PrincipalOf(s, k) + exits && (exits > 0 ==> s.pool.shutdown)
    ensures var told := Told(s, i, t, k);
            (if told.Some? then ApplyEvent(tracker, told.value, t.now).principal else tracker.principal)
            == PrincipalOf(t, k) + exits + ExitOf(s, i, k)
  {
  }

  /** Over every run, from whenever the wallet was bound: what the tracker holds is the wallet's Principal on the chain,
      plus what the wallet has taken out by emergency exits since. */
  lemma {:induction false} TrackerFollowsChain(w: World, trace: seq<Instr>, k: Key)
    requires Reachable(w)
    ensures Replay(History(w, trace, k)).principal == PrincipalOf(Run(w, trace).s, k) + Exits(w, trace, k)
    ensures Exits(w, trace, k) > 0 ==> Run(w, trace).s.pool.shutdown
  {
    hide Reachable, Next, Replay, PrincipalOf;
    if trace != [] {
      var before := trace[..|trace| - 1];
      TrackerFollowsChain(w, before, k);
      ReachableRun(w, before);
      KnowsNext(w, trace, k);
    } else {
      Bound(w, k);
    }
  }

  lemma {:induction false} Bound(w: World, k: Key)
    ensures Replay(History(w, [], k)) == ApplyEvent(Tracker(0, None), Deposited(PrincipalOf(w.s, k)), w.s.now)
  {
    AppendReplay([], Stamped(Deposited(PrincipalOf(w.s, k)), w.s.now));
    assert [] + History(w, [], k) == History(w, [], k);
  }

  // ----- qualifying -----

  predicate Enough(s: State, k: Key) { PrincipalOf(s, k) >= QUALIFY_PRINCIPAL }

  /** The state after `n` instructions had enough Principal, unless it gave way by `from`. */
  predicate EnoughAt(w: World, trace: seq<Instr>, k: Key, from: int, n: nat)
    requires n < |trace|
  {
    from < Run(w, trace[..n + 1]).s.now ==> Enough(Run(w, trace[..n]).s, k)
  }

  /** Every state that gave way to another after `from` had enough Principal. */
  ghost predicate EnoughUntil(w: World, trace: seq<Instr>, k: Key, from: int) {
    forall n: nat :: n < |trace| ==> EnoughAt(w, trace, k, from, n)
  }

  /** On the chain, the Principal of `k` was at or above the threshold in every state in force at `from` or since. */
  ghost predicate HeldOnChain(w: World, trace: seq<Instr>, k: Key, from: int) {
    w.s.now <= from && EnoughUntil(w, trace, k, from) && Enough(Run(w, trace).s, k)
  }

  /** The tracker is set exactly while the Principal is at or above the threshold, and to an instant no later than `from`
      exactly if it has been there since. */
  ghost predicate Tracks(w: World, trace: seq<Instr>, k: Key, from: int) {
    var since := Replay(History(w, trace, k)).aboveSince;
    && (since.Some? <==> Enough(Run(w, trace).s, k))
    && (since.Some? && since.value <= from <==> HeldOnChain(w, trace, k, from))
  }

  lemma {:induction false} ClockGrows(w: World, trace: seq<Instr>, n: nat)
    requires n <= |trace|
    ensures Run(w, trace[..n]).s.now <= Run(w, trace).s.now
  {
    hide Next;
    if n < |trace| {
      var before := trace[..|trace| - 1];
      ClockGrows(w, before, n);
      assert before[..n] == trace[..n];
      ClockStep(Run(w, before), trace[|trace| - 1]);
    } else {
      assert trace[..n] == trace;
    }
  }

  lemma ClockStep(w: World, i: Instr)
    ensures w.s.now <= Next(w, i).s.now
  {
    hide CustodyStep, EpochStep, RoundStep, Moved, MeterNext, LogNext;
    if Step(w.s, i).Ok? {
      var t := Step(w.s, i).value;
      match i
      case Tick(_) =>
      case Custodial(c) => CustodyEffect(w.s, c, t);
      case Game(g) => RoundEffect(w.s, g, t);
      case Epochal(e) =>
        if e.BeginEpoch? {
          BeginEpochIs(w.s, e, t);
          BeginFrame(w.s, e.signer, t);
        } else {
          EpochEffect(w.s, e, t);
        }
    }
  }

  lemma {:induction false} UntilNext(w: World, trace: seq<Instr>, k: Key, from: int)
    requires trace != []
    ensures var before := trace[..|trace| - 1];
            EnoughUntil(w, trace, k, from) <==>
            EnoughUntil(w, before, k, from) && (from < Run(w, trace).s.now ==> Enough(Run(w, before).s, k))
  {
    hide Run, Enough;
    var before := trace[..|trace| - 1];
    assert trace[..|before| + 1] == trace;
    forall n: nat | n < |before| ensures EnoughAt(w, trace, k, from, n) == EnoughAt(w, before, k, from, n) {
      assert before[..n] == trace[..n] && before[..n + 1] == trace[..n + 1];
    }
    assert EnoughAt(w, trace, k, from, |before|) == (from < Run(w, trace).s.now ==> Enough(Run(w, before).s, k));
  }

  lemma {:induction false} NothingRan(w: World)
    ensures Run(w, []) == w
  {
  }

  lemma {:induction false} NeverUntil(w: World, trace: seq<Instr>, k: Key, from: int)
    requires Run(w, trace).s.now <= from
    ensures w.s.now <= from && EnoughUntil(w, trace, k, from)
  {
    hide Run, Enough;
    forall n: nat | n <= |trace| ensures Run(w, trace[..n]).s.now <= from { ClockGrows(w, trace, n); }
    NothingRan(w);
    assert trace[..0] == [] && Run(w, trace[..0]) == w;
  }

  /** One instruction on a tracker that is right about the balance: it is set, kept or cleared as the balance says. */
  lemma TrackerNext(tracker: Tracker, s: State, i: Instr, t: State, k: Key)
    requires Follows(s, i, t, k) && tracker.principal == PrincipalOf(s, k) && (tracker.aboveSince.Some? <==> Enough(s, k))
    ensures var told := Told(s, i, t, k);
            var next := if told.Some? then ApplyEvent(tracker, told.value, t.now) else tracker;
            && (ExitOf(s, i, k) == 0 ==>
                  next.aboveSince == if !Enough(t, k) then None
                                     else if Enough(s, k) then tracker.aboveSince
                                     else Some(t.now))
  {
  }

  lemma TracksNext(w: World, trace: seq<Instr>, k: Key, from: int)
    requires trace != [] && Exits(w, trace, k) == 0
    requires var before := trace[..|trace| - 1];
             Reachable(Run(w, before)) && Knows(w, before, k) && Tracks(w, before, k, from)
    ensures Tracks(w, trace, k, from)
  {
    hide Reachable, Step, Follows, PrincipalOf, Told, ExitOf, Replay, MeterNext, LogNext, JackpotNext, EnoughUntil, Enough;
    var before, i := trace[..|trace| - 1], trace[|trace| - 1];
    var v := Run(w, before);
    UntilNext(w, trace, k, from);
    ClockStep(v, i);
    if Step(v.s, i).Ok? {
      var t := Step(v.s, i).value;
      StepFollows(v, i, t, k);
      var told := Told(v.s, i, t, k);
      if told.Some? { AppendReplay(History(w, before, k), Stamped(told.value, t.now)); }
      TrackerNext(Replay(History(w, before, k)), v.s, i, t, k);
      if t.now <= from { NeverUntil(w, trace, k, from); }
    }
  }

  lemma {:induction false} TracksRun(w: World, trace: seq<Instr>, k: Key, from: int)
    requires Reachable(w) && Exits(w, trace, k) == 0
    ensures Tracks(w, trace, k, from)
  {
    hide Reachable, Run, Replay, PrincipalOf, Tracks, Step;
    if trace != [] {
      var before := trace[..|trace| - 1];
      TracksRun(w, before, k, from);
      ReachableRun(w, before);
      TrackerFollowsChain(w, before, k);
      TracksNext(w, trace, k, from);
    } else {
      TracksBound(w, k, from);
    }
  }

  lemma {:induction false} TracksBound(w: World, k: Key, from: int)
    ensures Tracks(w, [], k, from)
  {
    Bound(w, k);
    NothingRan(w);
  }

  /** A wallet qualifies exactly when it was bound by the start of the period and has held the threshold on the chain
      ever since, in every state of the run: as long as it makes no emergency exit, no event is missing or too many. */
  lemma QualifiesOnChain(w: World, trace: seq<Instr>, k: Key, now: int, qualifySeconds: int)
    requires Reachable(w) && Exits(w, trace, k) == 0
    ensures IsQualified(Replay(History(w, trace, k)).aboveSince, now, qualifySeconds)
            <==> HeldOnChain(w, trace, k, now - qualifySeconds)
  {
    hide Reachable, Replay, History, HeldOnChain;
    TracksRun(w, trace, k, now - qualifySeconds);
  }
}
