/** The epoch schedule over whole runs. */
module Schedule {
  import opened Machine
  import opened Ledger
  import opened Touching
  import opened Program
  import opened Frames
  import opened Shape
  import opened Books
  import opened Reserve
  import opened Meters
  import opened Draws
  import opened Yield
  import opened Games
  import opened Grants
  import opened Invariant
  import opened Grid
  import C = Custody
  import E = Epochs

  /** No two epochs overlap, in any reachable state, whatever the parameters were changed to. */
  lemma EpochsNeverOverlap(w: World, e: nat, f: nat, x: int)
    requires Reachable(w) && e in w.s.epochs && f in w.s.epochs
    requires w.s.epochs[e].startsAt <= x < w.s.epochs[e].endsAt && w.s.epochs[f].startsAt <= x < w.s.epochs[f].endsAt
    ensures e == f
  {
    hide Reachable, PlayersOk, BooksOk, ReserveOk, MetersOk, DrawsOk, YieldOk, GrantsOk, GamesOk;
    ReachableInv(w);
  }

  /** The instruction leaves the grid where it is. */
  predicate Steady(i: Instr) {
    i.Custodial? && i.c.SetParams? ==> i.c.update.epochSeconds.None? && i.c.update.epochAnchor.None?
  }

  /** One epoch on the grid: it ends on it; after the first it also starts on it, lasts one period, and follows
      its predecessor at once or after whole missed periods. */
  ghost predicate EpochOnGrid(epochs: map<nat, Epoch>, e: nat, anchor: int, length: int)
    requires length > 0 && e in epochs
  {
    && OnGrid(anchor, length, epochs[e].endsAt)
    && (e >= 2 ==>
          && OnGrid(anchor, length, epochs[e].startsAt)
          && epochs[e].endsAt == epochs[e].startsAt + length
          && e - 1 in epochs
          && (epochs[e].startsAt == epochs[e - 1].endsAt || epochs[e].startsAt >= epochs[e - 1].endsAt + length))
  }

  ghost predicate AllOnGrid(s: State, anchor: int, length: int)
    requires length > 0
  {
    && s.pool.params.epochAnchor == anchor && s.pool.params.epochSeconds == length
    && forall e :: e in s.epochs ==> EpochOnGrid(s.epochs, e, anchor, length)
  }

  predicate SameGrid(a: Pool, b: Pool) {
    a.params.epochAnchor == b.params.epochAnchor && a.params.epochSeconds == b.params.epochSeconds
  }

  lemma CustodyGrid(s: State, c: CustodyInstr, t: State)
    requires CustodyStep(s, c) == Ok(t) && Steady(Custodial(c))
    ensures SameGrid(s.pool, t.pool)
  {
    hide Touch, C.Deposit, C.RequestWithdraw, C.ProcessWithdraw, C.EmergencyWithdraw, C.BuyTickets, C.GrantTickets;
    CustodyLeaves(s, c, t);
  }

  lemma RoundGrid(s: State, g: RoundInstr, t: State)
    requires RoundStep(s, g) == Ok(t)
    ensures SameGrid(s.pool, t.pool)
  {
    hide RoundStep;
    RoundLeaves(s, g, t);
  }

  lemma EpochGrid(s: State, e: EpochInstr, t: State)
    requires EpochStep(s, e) == Ok(t) && !e.BeginEpoch?
    ensures SameGrid(s.pool, t.pool)
  {
    hide EpochStep;
    EpochLeaves(s, e, t);
  }

  lemma GridFrame(s: State, t: State, anchor: int, length: period)
    requires AllOnGrid(s, anchor, length) && SameGrid(s.pool, t.pool)
    requires t.epochs.Keys == s.epochs.Keys && EpochsAdvance(s, t)
    ensures AllOnGrid(t, anchor, length)
  {
    hide OnGrid;
    forall e | e in t.epochs
      ensures EpochOnGrid(t.epochs, e, anchor, length)
    {
      assert EpochOnGrid(s.epochs, e, anchor, length) && Advances(s.epochs[e], t.epochs[e]);
      if e >= 2 { assert Advances(s.epochs[e - 1], t.epochs[e - 1]); }
    }
  }

  lemma GridBegun(s: State, signer: Signer, t: State, anchor: int, length: period)
    requires E.BeginEpoch(s, signer) == Ok(t) && EpochsOk(s) && AllOnGrid(s, anchor, length)
    ensures AllOnGrid(t, anchor, length)
  {
    hide E.BeginEpoch, OnGrid, Ordered;
    BeginEpochBegins(s, signer, t);
    BeginEpochBooks(s, signer, t);
    EpochSpan(s, signer, t);
    var c: nat := s.pool.currentEpochId;
    if c >= 1 { assert EpochOnGrid(s.epochs, c, anchor, length); }
    forall e | e in t.epochs
      ensures EpochOnGrid(t.epochs, e, anchor, length)
    {
      if e <= c { assert EpochOnGrid(s.epochs, e, anchor, length); }
    }
  }

  lemma GridNextStep(w: World, i: Instr, anchor: int, length: period)
    requires Inv(w) && Steady(i) && AllOnGrid(w.s, anchor, length)
    ensures AllOnGrid(Next(w, i).s, anchor, length)
  {
    hide CustodyStep, EpochStep, RoundStep, PlayersOk, EpochsOk, BooksOk, ReserveOk, MetersOk, DrawsOk, YieldOk, GrantsOk,
      GamesOk, AllOnGrid, MeterNext, LogNext, EpochsAdvance, Steady;
    if Step(w.s, i).Ok? {
      var s, t := w.s, Step(w.s, i).value;
      ShapeStep(s, i, t);
      match i
      case Tick(_) => GridFrame(s, t, anchor, length);
      case Custodial(c) =>
        CustodyEpochs(s, c, t);
        CustodyGrid(s, c, t);
        GridFrame(s, t, anchor, length);
      case Game(g) =>
        RoundEpochs(s, g, t);
        RoundGrid(s, g, t);
        GridFrame(s, t, anchor, length);
      case Epochal(e) =>
        if e.BeginEpoch? {
          BeginEpochIs(s, e, t);
          GridBegun(s, e.signer, t, anchor, length);
        } else {
          EpochGrid(s, e, t);
          EpochEpochs(s, e, t);
          GridFrame(s, t, anchor, length);
        }
    }
  }

  /** While nobody moves the grid, every epoch of every run lies on it. */
  lemma {:induction false} EpochsStayOnGrid(params: Params, house: Key, now: clock, trace: seq<Instr>)
    requires C.CreatePool(params, house, now).Ok?
    requires forall j :: 0 <= j < |trace| ==> Steady(trace[j])
    ensures AllOnGrid(Run(Genesis(C.CreatePool(params, house, now).value), trace).s,
                      params.epochAnchor, params.epochSeconds)
  {
    hide Inv, Next, Steady;
    var w := Genesis(C.CreatePool(params, house, now).value);
    if trace != [] {
      EpochsStayOnGrid(params, house, now, trace[..|trace| - 1]);
      InvGenesis(params, house, now);
      InvRun(w, trace[..|trace| - 1]);
      GridNextStep(Run(w, trace[..|trace| - 1]), trace[|trace| - 1], params.epochAnchor, params.epochSeconds);
    }
  }
}
