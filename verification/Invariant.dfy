/** What every step of every run keeps. */
module Invariant {
  import opened Machine
  import opened Ledger
  import opened Sums
  import opened Program
  import opened Shape
  import opened Books
  import opened Reserve
  import opened Meters
  import opened Draws
  import opened Yield
  import opened Games
  import opened Grants
  import C = Custody

  ghost predicate Inv(w: World) {
    && ShapeOk(w.s) && BooksOk(w) && ReserveOk(w.s) && MetersOk(w) && DrawsOk(w) && YieldOk(w) && GamesOk(w)
    && GrantsOk(w.s)
  }

  lemma InvNext(w: World, i: Instr)
    requires Inv(w)
    ensures Inv(Next(w, i))
  {
    hide Step, Observe, ShapeOk, BooksOk, ReserveOk, MetersOk, DrawsOk, YieldOk, GamesOk, GrantsOk;
    match Step(w.s, i)
    case Err(_) =>
    case Ok(t) =>
      ObserveState(w, i, t);
      ShapeStep(w.s, i, t);
      BooksStep(w, i, t);
      ReserveStep(w.s, i, t);
      MetersStep(w, i, t);
      DrawsStep(w, i, t);
      YieldStep(w, i, t);
      GamesStep(w, i, t);
      GrantsStep(w.s, i, t);
  }

  lemma ObserveState(w: World, i: Instr, t: State)
    ensures Observe(w, i, t).s == t
  {
    hide LogNext, MeterNext;
  }

  lemma {:induction false} InvRun(w: World, trace: seq<Instr>)
    requires Inv(w)
    ensures Inv(Run(w, trace))
  {
    hide Inv, Next;
    if trace != [] {
      InvRun(w, trace[..|trace| - 1]);
      InvNext(Run(w, trace[..|trace| - 1]), trace[|trace| - 1]);
    }
  }

  lemma InvGenesis(params: Params, house: Key, now: clock)
    requires C.CreatePool(params, house, now).Ok?
    ensures Inv(Genesis(C.CreatePool(params, house, now).value))
  {
    var s := C.CreatePool(params, house, now).value;
    var w := Genesis(s);
    var none: map<Key, Player> := map[];
    var zero := s.players[house];
    SumSet(none, PRINCIPAL, house, zero);
    SumSet(none, PENDING, house, zero);
    SumSet(none, GrantedIn(0), house, zero);
    assert s.players == none[house := zero];
    assert YieldOk(w);
    assert MetersOk(w) && DrawsOk(w);
  }

  /** The invariant holds in every reachable world. */
  lemma ReachableInv(w: World)
    requires Reachable(w)
    ensures Inv(w)
  {
    hide Inv;
    var params: Params, house: Key, now: clock, trace: seq<Instr> :|
      C.CreatePool(params, house, now).Ok? && w == Run(Genesis(C.CreatePool(params, house, now).value), trace);
    InvGenesis(params, house, now);
    InvRun(Genesis(C.CreatePool(params, house, now).value), trace);
  }

  lemma ReachableNext(w: World, i: Instr)
    requires Reachable(w)
    ensures Reachable(Next(w, i))
  {
    hide Next;
    var params: Params, house: Key, now: clock, trace: seq<Instr> :|
      C.CreatePool(params, house, now).Ok? && w == Run(Genesis(C.CreatePool(params, house, now).value), trace);
    assert (trace + [i])[..|trace|] == trace;
    assert Next(w, i) == Run(Genesis(C.CreatePool(params, house, now).value), trace + [i]);
  }

  lemma GenesisReachable(params: Params, house: Key, now: clock)
    requires C.CreatePool(params, house, now).Ok?
    ensures Reachable(Genesis(C.CreatePool(params, house, now).value))
  {
    var w := Genesis(C.CreatePool(params, house, now).value);
    assert w == Run(w, []);
  }

  lemma {:induction false} ReachableRun(w: World, trace: seq<Instr>)
    requires Reachable(w)
    ensures Reachable(Run(w, trace))
  {
    hide Reachable, Next;
    if trace != [] {
      ReachableRun(w, trace[..|trace| - 1]);
      ReachableNext(Run(w, trace[..|trace| - 1]), trace[|trace| - 1]);
    }
  }
}
