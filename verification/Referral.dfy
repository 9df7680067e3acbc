/** The hold tracker of a referred wallet (referral.ts): one event at a time, two numbers of state. */
module Referral {
  import opened Machine

  const QUALIFY_PRINCIPAL: int := 50_000_000
  const SECONDS_PER_DAY: int := 86_400

  datatype Tracker = Tracker(principal: int, aboveSince: Option<int>)

  datatype Event = Deposited(principal: int) | WithdrawRequested(amount: int) | YieldCredited(amount: int)
    | JackpotPaid(amount: int)

  datatype Stamped = Stamped(event: Event, time: int)

  function NextPrincipal(previous: int, event: Event): int {
    match event
    case Deposited(principal) => principal
    case WithdrawRequested(amount) => if previous - amount > 0 then previous - amount else 0
    case YieldCredited(amount) => previous + amount
    case JackpotPaid(amount) => previous + amount
  }

  function ApplyEvent(state: Tracker, event: Event, blockTime: int): Tracker {
    var principal := NextPrincipal(state.principal, event);
    var above := principal >= QUALIFY_PRINCIPAL;
    if above && state.aboveSince.None? then Tracker(principal, Some(blockTime))
    else if !above && state.aboveSince.Some? then Tracker(principal, None)
    else Tracker(principal, state.aboveSince)
  }

  predicate IsQualified(aboveSince: Option<int>, now: int, qualifySeconds: int) {
    aboveSince.Some? && now - aboveSince.value >= qualifySeconds
  }

  function DaysToQualify(aboveSince: Option<int>, now: int, qualifySeconds: int): Option<int> {
    if aboveSince.None? then None
    else
      var remaining := qualifySeconds - (now - aboveSince.value);
      if remaining <= 0 then Some(0) else Some((remaining + SECONDS_PER_DAY - 1) / SECONDS_PER_DAY)
  }

  /** The tracker after a whole history, from a wallet that was never seen before. */
  function Replay(history: seq<Stamped>): Tracker {
    if history == [] then Tracker(0, None)
    else
      var last := history[|history| - 1];
      ApplyEvent(Replay(history[..|history| - 1]), last.event, last.time)
  }

  /** Principal alone after a history. */
  function Balance(history: seq<Stamped>): int {
    if history == [] then 0 else NextPrincipal(Balance(history[..|history| - 1]), history[|history| - 1].event)
  }

  predicate Above(history: seq<Stamped>) { Balance(history) >= QUALIFY_PRINCIPAL }

  /** Events are applied in the order of their blocks. */
  predicate InOrder(history: seq<Stamped>) {
    forall i, j :: 0 <= i < j < |history| ==> history[i].time <= history[j].time
  }

  /** How many events had happened by an instant. */
  function EventsBy(history: seq<Stamped>, at: int): (n: nat)
    ensures n <= |history|
  {
    if history == [] then 0
    else if history[|history| - 1].time <= at then |history|
    else EventsBy(history[..|history| - 1], at)
  }

  /** The balance at `from` was above the threshold, and so was the balance after every event since. */
  ghost predicate HeldSince(history: seq<Stamped>, from: int) {
    forall n :: EventsBy(history, from) <= n <= |history| ==> Above(history[..n])
  }

  /** Event `c` lifted the balance over the threshold and no later one brought it down again. */
  ghost predicate LastCrossing(history: seq<Stamped>, c: nat) {
    && c < |history| && !Above(history[..c])
    && forall n :: c < n <= |history| ==> Above(history[..n])
  }

  /** What the two numbers mean: the balance, and the instant of the latest upward crossing while above. */
  lemma {:induction false} TrackerMeaning(history: seq<Stamped>)
    ensures Replay(history).principal == Balance(history)
    ensures Replay(history).aboveSince.Some? <==> Above(history)
    ensures Above(history) ==>
              exists c: nat :: LastCrossing(history, c) && Replay(history).aboveSince == Some(history[c].time)
  {
    if history != [] {
      var n := |history| - 1;
      var before := history[..n];
      TrackerMeaning(before);
      assert history[..|history|] == history;
      if Above(history) {
        if Above(before) {
          var c: nat :| LastCrossing(before, c) && Replay(before).aboveSince == Some(before[c].time);
          assert before[..c] == history[..c];
          forall m | c < m <= |history|
            ensures Above(history[..m])
          {
            if m <= n { assert before[..m] == history[..m]; }
          }
          assert LastCrossing(history, c);
        } else {
          assert LastCrossing(history, n);
        }
      }
    }
  }

  /** Amounts and balances that the program emits. */
  predicate Natural(event: Event) {
    match event
    case Deposited(principal) => principal >= 0
    case WithdrawRequested(amount) => amount >= 0
    case YieldCredited(amount) => amount >= 0
    case JackpotPaid(amount) => amount >= 0
  }

  /** Even on a history that has drifted from the chain, the balance is never negative, and a request takes its amount from
      it as far as it goes. */
  lemma {:induction false} NeverNegative(history: seq<Stamped>)
    requires forall i :: 0 <= i < |history| ==> Natural(history[i].event)
    ensures Balance(history) >= 0
    ensures history != [] && history[|history| - 1].event.WithdrawRequested? ==>
              var before := Balance(history[..|history| - 1]);
              Min(before, history[|history| - 1].event.amount) == before - Balance(history)
  {
    if history != [] {
      assert Natural(history[|history| - 1].event);
      NeverNegative(history[..|history| - 1]);
    }
  }

  lemma {:induction false} EventsByIs(history: seq<Stamped>, at: int)
    requires InOrder(history)
    ensures forall i :: 0 <= i < |history| ==> (history[i].time <= at <==> i < EventsBy(history, at))
  {
    if history != [] && history[|history| - 1].time > at {
      EventsByIs(history[..|history| - 1], at);
    }
  }

  /** A wallet qualifies exactly when its principal was at or above the threshold at the start of the period and
      after every event since. */
  lemma {:induction false} QualifiedMeansHeld(history: seq<Stamped>, now: int, qualifySeconds: int)
    requires InOrder(history)
    ensures IsQualified(Replay(history).aboveSince, now, qualifySeconds) <==> HeldSince(history, now - qualifySeconds)
  {
    TrackerMeaning(history);
    EventsByIs(history, now - qualifySeconds);
    var n := EventsBy(history, now - qualifySeconds);
    assert history[..|history|] == history;
    if Above(history) {
      var c: nat :| LastCrossing(history, c) && Replay(history).aboveSince == Some(history[c].time);
      assert history[c].time <= now - qualifySeconds <==> c < n;
      if c >= n { assert !Above(history[..c]); }
    }
  }

  /** The countdown: none below the threshold, 0 exactly when qualified, and otherwise the number of whole days
      after which, and not one day earlier, an undisturbed wallet qualifies. */
  lemma {:induction false} CountdownMeaning(history: seq<Stamped>, now: int, qualifySeconds: int)
    ensures var since := Replay(history).aboveSince;
            match DaysToQualify(since, now, qualifySeconds)
            case None => !Above(history)
            case Some(d) =>
              && Above(history) && d >= 0
              && (d == 0 <==> IsQualified(since, now, qualifySeconds))
              && IsQualified(since, now + d * SECONDS_PER_DAY, qualifySeconds)
              && (d > 0 ==> !IsQualified(since, now + (d - 1) * SECONDS_PER_DAY, qualifySeconds))
  {
    TrackerMeaning(history);
  }
}
