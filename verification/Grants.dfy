/** The operator's grants: the pool's counter and the players' counters count the same tickets. */
module Grants {
  import opened Machine
  import opened Ledger
  import opened Touching
  import opened Sums
  import opened Program
  import opened Effects
  import opened Frames
  import opened Shape
  import Books
  import D = Draws
  import C = Custody
  import E = Epochs

  function GrantedIn(current: nat): Player -> int { (p: Player) => if p.bonusEpoch == current then p.bonusGranted else 0 }

  function PoolGranted(pool: Pool): int { if pool.bonusEpoch == pool.currentEpochId then pool.bonusGranted else 0 }

  ghost predicate GrantsOk(s: State) {
    && s.pool.bonusEpoch <= s.pool.currentEpochId
    && PoolGranted(s.pool) == Sum(s.players, GrantedIn(s.pool.currentEpochId))
  }

  /** What a grant does to the two counters. */
  lemma GrantCounts(s: State, signer: Signer, k: Key, amount: u64, t: State)
    requires C.GrantTickets(s, signer, k, amount) == Ok(t)
    ensures k in s.players && k in t.players && t.players == s.players[k := t.players[k]]
    ensures t.pool.currentEpochId == s.pool.currentEpochId
    ensures var c := s.pool.currentEpochId;
            PoolGranted(t.pool) - PoolGranted(s.pool) == GrantedIn(c)(t.players[k]) - GrantedIn(c)(s.players[k])
    ensures t.pool.bonusEpoch == s.pool.bonusEpoch || t.pool.bonusEpoch == s.pool.currentEpochId
  {
    hide Touch, C.PoolBonusCap;
    TouchKeeps(s.players[k], s.pool, s.now);
  }

  lemma GrantsMoved(s: State, i: Instr, t: State)
    requires GrantsOk(s) && OnlyActor(s, i, t)
    requires t.pool.bonusEpoch == s.pool.bonusEpoch && t.pool.bonusGranted == s.pool.bonusGranted
    requires Actor(s, i).Some? && Actor(s, i).value in t.players ==>
               D.SameBonus(Before(s, Actor(s, i).value), t.players[Actor(s, i).value])
    ensures GrantsOk(t)
  {
    hide Moved;
    if Actor(s, i).Some? {
      var k := Actor(s, i).value;
      SumSet(s.players, GrantedIn(s.pool.currentEpochId), k, t.players[k]);
    }
  }

  lemma BegunGrants(s: State, t: State)
    requires Begun(s, t) && PlayersOk(s) && GrantsOk(s)
    requires t.pool.bonusEpoch == s.pool.bonusEpoch && t.pool.bonusGranted == s.pool.bonusGranted
    ensures GrantsOk(t)
  {
    var none: map<Key, Player> := map[];
    var count := GrantedIn(t.pool.currentEpochId);
    forall k | k in t.players
      ensures count(t.players[k]) == 0
    {
      assert PlayerOk(k, s.players[k], s.pool, s.now);
    }
    SumSame(none, count, t.players, count);
  }

  lemma CustodyGrants(s: State, c: CustodyInstr, t: State)
    requires CustodyStep(s, c) == Ok(t) && !c.GrantTickets?
    ensures t.pool.bonusEpoch == s.pool.bonusEpoch && t.pool.bonusGranted == s.pool.bonusGranted
  {
    hide CustodyStep;
    CustodyLeaves(s, c, t);
  }

  lemma RoundGrants(s: State, g: RoundInstr, t: State)
    requires RoundStep(s, g) == Ok(t)
    ensures t.pool.bonusEpoch == s.pool.bonusEpoch && t.pool.bonusGranted == s.pool.bonusGranted
  {
    hide RoundStep;
    RoundLeaves(s, g, t);
  }

  lemma EpochGrants(s: State, e: EpochInstr, t: State)
    requires EpochStep(s, e) == Ok(t) && !e.BeginEpoch?
    ensures t.pool.bonusEpoch == s.pool.bonusEpoch && t.pool.bonusGranted == s.pool.bonusGranted
  {
    hide EpochStep;
    EpochLeaves(s, e, t);
  }

  lemma GrantStepIs(s: State, c: CustodyInstr, t: State)
    requires CustodyStep(s, c) == Ok(t) && c.GrantTickets?
    ensures C.GrantTickets(s, c.signer, c.k, c.amount) == Ok(t)
  {
    hide C.GrantTickets;
  }

  lemma GrantsStep(s: State, i: Instr, t: State)
    requires Step(s, i) == Ok(t) && ShapeOk(s) && GrantsOk(s)
    ensures GrantsOk(t)
  {
    hide CustodyStep, EpochStep, RoundStep, OnlyActor, Begun, EpochsOk, D.Registers;
    match i
    case Tick(_) =>
    case Custodial(c) =>
      if c.GrantTickets? {
        GrantStepIs(s, c, t);
        GrantCounts(s, c.signer, c.k, c.amount, t);
        SumSet(s.players, GrantedIn(s.pool.currentEpochId), c.k, t.players[c.k]);
      } else {
        CustodyEffect(s, c, t);
        CustodyGrants(s, c, t);
        if Actor(s, i).Some? && Actor(s, i).value in t.players { D.CustodyReg(s, c, t, Actor(s, i).value); }
        GrantsMoved(s, i, t);
      }
    case Game(g) =>
      RoundEffect(s, g, t);
      RoundGrants(s, g, t);
      if Actor(s, i).Some? && Actor(s, i).value in t.players { D.RoundRegAll(s, g, t, Actor(s, i).value); }
      GrantsMoved(s, i, t);
    case Epochal(e) =>
      if e.BeginEpoch? {
        BeginEpochIs(s, e, t);
        BeginEpochBegins(s, e.signer, t);
        Books.BeginEpochBooks(s, e.signer, t);
        BegunGrants(s, t);
      } else {
        EpochEffect(s, e, t);
        EpochGrants(s, e, t);
        if e.Register? { D.RegisterStepIs(s, e, t); RegisterBonus(s, e.id, e.k, t); }
        if e.Payout? { D.PayoutStepIs(s, e, t); D.PayoutReg(s, e.id, e.k, t); }
        GrantsMoved(s, i, t);
      }
  }

  lemma RegisterBonus(s: State, id: nat, k: Key, t: State)
    requires E.Register(s, id, k) == Ok(t)
    ensures k in s.players && k in t.players && D.SameBonus(s.players[k], t.players[k])
  {
    hide E.Register;
    D.RegisterWrites(s, id, k, t);
  }
}
