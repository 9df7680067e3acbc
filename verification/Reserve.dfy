/** The jackpot reserve: what is promised to epochs that are being drawn is always in the vault. */
module Reserve {
  import opened Machine
  import opened Ledger
  import opened Touching
  import opened Sums
  import opened Program
  import opened Frames
  import opened Shape
  import Books
  import Vrf
  import E = Epochs

  const RESERVED: Epoch -> int := (e: Epoch) => if e.status.Drawing? || e.status.Drawn? then e.jackpotAmount else 0

  ghost predicate ReserveOk(s: State) {
    && s.pool.jackpotReserved == Sum(s.epochs, RESERVED) <= s.jackpotVault
    && forall e :: e in s.epochs && Rank(s.epochs[e].status) <= 1 ==> s.epochs[e].jackpotAmount == 0
  }

  lemma CustodyReserve(s: State, c: CustodyInstr, t: State)
    requires CustodyStep(s, c) == Ok(t)
    ensures t.pool.jackpotReserved == s.pool.jackpotReserved
    ensures s.pool.jackpotReserved <= s.jackpotVault ==> s.pool.jackpotReserved <= t.jackpotVault
  {
    hide CustodyStep;
    CustodyLeaves(s, c, t);
  }

  lemma RoundReserve(s: State, g: RoundInstr, t: State)
    requires RoundStep(s, g) == Ok(t)
    ensures t.pool.jackpotReserved == s.pool.jackpotReserved && t.jackpotVault == s.jackpotVault
  {
    hide RoundStep;
    RoundLeaves(s, g, t);
  }

  lemma PayoutReserve(s: State, id: nat, k: Key, t: State)
    requires E.Payout(s, id, k) == Ok(t) && id in s.epochs && s.pool.jackpotReserved <= s.jackpotVault
    ensures id in t.epochs && s.epochs[id].status.Drawn? && t.epochs[id].status.Paid?
    ensures t.pool.jackpotReserved == s.pool.jackpotReserved - s.epochs[id].jackpotAmount <= t.jackpotVault
  {
    hide Touch;
  }

  /** The reserve moves by exactly what the named epoch starts or stops holding. */
  lemma NamedReserve(s: State, e: EpochInstr, t: State)
    requires EpochStep(s, e) == Ok(t) && HasEpoch(e) && e.id in s.epochs && e.id in t.epochs
    requires Rank(s.epochs[e.id].status) <= 1 ==> s.epochs[e.id].jackpotAmount == 0
    requires RESERVED(s.epochs[e.id]) <= s.pool.jackpotReserved <= s.jackpotVault
    ensures t.pool.jackpotReserved - s.pool.jackpotReserved == RESERVED(t.epochs[e.id]) - RESERVED(s.epochs[e.id])
    ensures Rank(t.epochs[e.id].status) <= 1 ==> t.epochs[e.id].jackpotAmount == 0
    ensures t.pool.jackpotReserved <= t.jackpotVault
  {
    hide Touch, E.Register, E.RegistrationClosesAt, E.Payout, Vrf.Unbiased;
    if e.Register? { RegisterLeaves(s, e.id, e.k, t); }
    if e.Payout? { PayoutReserve(s, e.id, e.k, t); }
  }

  lemma FundingReserve(s: State, e: EpochInstr, t: State)
    requires EpochStep(s, e) == Ok(t) && (e.FundJackpot? || e.FundYield?)
    ensures t.epochs == s.epochs && t.pool.jackpotReserved == s.pool.jackpotReserved
    ensures s.jackpotVault <= t.jackpotVault
  {
  }

  lemma EpochReserve(s: State, e: EpochInstr, t: State)
    requires EpochStep(s, e) == Ok(t) && !e.BeginEpoch? && ReserveOk(s)
    ensures ReserveOk(t)
  {
    hide EpochStep;
    if HasEpoch(e) {
      NamedEpoch(s, e, t);
      SumMember(s.epochs, RESERVED, e.id);
      NamedReserve(s, e, t);
      SumSet(s.epochs, RESERVED, e.id, t.epochs[e.id]);
    } else {
      FundingReserve(s, e, t);
    }
  }

  lemma BegunReserve(s: State, t: State)
    requires Begun(s, t) && EpochsOk(s) && ReserveOk(s)
    requires t.pool.jackpotReserved == s.pool.jackpotReserved && t.jackpotVault == s.jackpotVault
    ensures ReserveOk(t)
  {
    hide Ordered;
    var c: nat := s.pool.currentEpochId;
    if c == 0 {
      SumSet<nat, Epoch>(s.epochs, RESERVED, c + 1, t.epochs[c + 1]);
    } else {
      SumSet<nat, Epoch>(s.epochs, RESERVED, c, t.epochs[c]);
      SumSet<nat, Epoch>(s.epochs[c := t.epochs[c]], RESERVED, c + 1, t.epochs[c + 1]);
      assert t.epochs == s.epochs[c := t.epochs[c]][c + 1 := t.epochs[c + 1]];
    }
  }

  lemma ReserveStep(s: State, i: Instr, t: State)
    requires Step(s, i) == Ok(t) && ShapeOk(s) && ReserveOk(s)
    ensures ReserveOk(t)
  {
    hide CustodyStep, EpochStep, RoundStep, Begun;
    match i
    case Tick(_) =>
    case Custodial(c) =>
      CustodyEpochs(s, c, t);
      CustodyReserve(s, c, t);
    case Game(g) =>
      RoundEpochs(s, g, t);
      RoundReserve(s, g, t);
    case Epochal(e) =>
      if e.BeginEpoch? {
        BeginEpochIs(s, e, t);
        BeginEpochBegins(s, e.signer, t);
        Books.BeginEpochBooks(s, e.signer, t);
        BegunReserve(s, t);
      } else {
        EpochReserve(s, e, t);
      }
  }
}
