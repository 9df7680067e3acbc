/** Conservation of the jackpot: what is in its vault is what was put in less what was taken out. */
module Jackpot {
  import opened Machine
  import opened Ledger
  import opened Touching
  import opened Program
  import opened Frames
  import opened Shape
  import opened Books
  import C = Custody
  import E = Epochs

  ghost predicate JackpotOk(w: World) {
    w.s.jackpotVault == w.jackpot.funded + w.jackpot.bought - w.jackpot.paidOut - w.jackpot.swept
  }

  /** What an instruction does to the jackpot vault is what the book says it does. */
  ghost predicate Booked(s: State, i: Instr, t: State, book: JackpotBook) {
    var after := JackpotNext(book, s, i);
    t.jackpotVault - s.jackpotVault
    == after.funded - book.funded + (after.bought - book.bought)
       - (after.paidOut - book.paidOut) - (after.swept - book.swept)
  }

  lemma PurchaseBooked(s: State, k: Key, amount: u64, t: State, book: JackpotBook)
    requires C.BuyTickets(s, k, amount) == Ok(t)
    ensures Booked(s, Custodial(BuyTickets(k, amount)), t, book)
  {
    hide Touch, C.CounterAfter;
  }

  lemma CustodyBooked(s: State, c: CustodyInstr, t: State, book: JackpotBook)
    requires CustodyStep(s, c) == Ok(t)
    ensures Booked(s, Custodial(c), t, book)
  {
    hide Touch, C.CounterAfter, C.PoolBonusCap, C.BuyTickets, C.SetParams;
    if c.BuyTickets? { PurchaseBooked(s, c.k, c.amount, t, book); }
    if c.SetParams? { ParamsVault(s, c, t); }
  }

  lemma ParamsVault(s: State, c: CustodyInstr, t: State)
    requires c.SetParams? && C.SetParams(s, c.signer, c.update) == Ok(t)
    ensures t.jackpotVault == s.jackpotVault
  {
  }

  lemma PayoutBooked(s: State, id: nat, k: Key, t: State, book: JackpotBook)
    requires E.Payout(s, id, k) == Ok(t)
    ensures Booked(s, Epochal(Payout(id, k)), t, book)
  {
    hide Touch;
  }

  lemma EpochBooked(s: State, e: EpochInstr, t: State, book: JackpotBook)
    requires EpochStep(s, e) == Ok(t)
    ensures Booked(s, Epochal(e), t, book)
  {
    hide Touch, E.Register, E.Payout, E.BeginEpoch, E.RegistrationClosesAt, E.RolloverDue;
    if e.Register? { RegisterLeaves(s, e.id, e.k, t); }
    if e.Payout? { PayoutBooked(s, e.id, e.k, t, book); }
    if e.BeginEpoch? { BeginEpochBooks(s, e.signer, t); }
  }

  lemma JackpotStep(w: World, i: Instr, t: State)
    requires Step(w.s, i) == Ok(t) && JackpotOk(w)
    ensures JackpotOk(Observe(w, i, t))
  {
    hide CustodyStep, EpochStep, RoundStep, MeterNext, LogNext, JackpotNext;
    match i
    case Tick(_) => TickBooked(w.s, i, t, w.jackpot);
    case Custodial(c) => CustodyBooked(w.s, c, t, w.jackpot);
    case Epochal(e) => EpochBooked(w.s, e, t, w.jackpot);
    case Game(g) =>
      RoundLeaves(w.s, g, t);
      TickBooked(w.s, i, t, w.jackpot);
  }

  lemma TickBooked(s: State, i: Instr, t: State, book: JackpotBook)
    requires (i.Tick? || i.Game?) && t.jackpotVault == s.jackpotVault
    ensures Booked(s, i, t, book)
  {
  }

  lemma {:induction false} JackpotRun(w: World, trace: seq<Instr>)
    requires JackpotOk(w)
    ensures JackpotOk(Run(w, trace))
  {
    hide Step, Observe, JackpotOk;
    if trace != [] {
      var v, i := Run(w, trace[..|trace| - 1]), trace[|trace| - 1];
      JackpotRun(w, trace[..|trace| - 1]);
      if Step(v.s, i).Ok? { JackpotStep(v, i, Step(v.s, i).value); }
    }
  }

  /** In every reachable world the jackpot vault holds exactly all funding and all purchases, less the prizes that left
      it and what was swept. */
  lemma JackpotIsConserved(w: World)
    requires Reachable(w)
    ensures w.s.jackpotVault == w.jackpot.funded + w.jackpot.bought - w.jackpot.paidOut - w.jackpot.swept
  {
    var params: Params, house: Key, now: clock, trace: seq<Instr> :|
      C.CreatePool(params, house, now).Ok? && w == Run(Genesis(C.CreatePool(params, house, now).value), trace);
    JackpotRun(Genesis(C.CreatePool(params, house, now).value), trace);
  }
}
