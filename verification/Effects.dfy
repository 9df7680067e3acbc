/** What an instruction may change of a player: everything that moves a balance touches it first. */
module Effects {
  import opened Machine
  import opened Ledger
  import opened Touching
  import opened Program
  import C = Custody
  import E = Epochs
  import R = Rounds

  predicate SameEpochs(a: Pool, b: Pool) {
    && a.currentEpochId == b.currentEpochId && a.house == b.house
    && a.currentEpochStart == b.currentEpochStart && a.currentEpochEndsAt == b.currentEpochEndsAt
    && a.previousEpochStart == b.previousEpochStart && a.previousEpochEndsAt == b.previousEpochEndsAt
  }

  predicate SameClock(p: Player, q: Player) {
    && p.lastUpdate == q.lastUpdate && p.epochId == q.epochId && p.principalAcc == q.principalAcc
    && p.frozenWeight == q.frozenWeight && p.frozenPrincipalAcc == q.frozenPrincipalAcc
    && p.frozenEpoch == q.frozenEpoch && p.isHouse == q.isHouse
  }

  /** The one player an instruction may change. */
  function Actor(s: State, i: Instr): Option<Key> {
    match i
    case Tick(_) => None
    case Custodial(c) =>
      if c.Deposit? || c.RequestWithdraw? || c.ProcessWithdraw? || c.EmergencyWithdraw? || c.BuyTickets?
         || c.GrantTickets? then Some(c.k) else None
    case Epochal(e) => if e.Register? || e.Payout? then Some(e.k) else None
    case Game(g) =>
      if g.BuyPosition? || g.SettlePosition? then Some(g.k)
      else if g.SettleRound? then Some(s.pool.house) else None
  }

  function Before(s: State, k: Key): Player {
    if k in s.players then s.players[k] else FreshPlayer(s.pool, s.now)
  }

  /** Balances stay put, or the player is touched before they move. */
  predicate Moved(p: Player, q: Player, pool: Pool, now: i64, credit: int) {
    || (SameClock(p, q) && p.principal == q.principal && p.entries == q.entries && p.weightAcc == q.weightAcc
        && credit == 0)
    || (var touched := Touch(p, pool, now);
        touched.Ok? && SameClock(touched.value, q) && q.weightAcc == touched.value.weightAcc + credit)
  }

  /** The weight credited to the buyer of a position ahead of time. */
  function Credit(s: State, i: Instr, t: State): int {
    if i.Game? && i.g.BuyPosition? && i.g.id in s.rounds && i.g.id in t.rounds then
      (t.rounds[i.g.id].pot - s.rounds[i.g.id].pot) * (t.rounds[i.g.id].endsAt - t.now)
    else 0
  }

  predicate OnlyActor(s: State, i: Instr, t: State) {
    && t.now == s.now && SameEpochs(s.pool, t.pool)
    && match Actor(s, i)
       case None => t.players == s.players
       case Some(k) => k in t.players && t.players == s.players[k := t.players[k]]
                       && Moved(Before(s, k), t.players[k], s.pool, s.now, Credit(s, i, t))
  }

  lemma DepositEffect(s: State, k: Key, amount: u64, t: State)
    requires C.Deposit(s, k, amount) == Ok(t)
    ensures OnlyActor(s, Custodial(Deposit(k, amount)), t)
  {
  }

  lemma RequestEffect(s: State, k: Key, amount: u64, t: State)
    requires C.RequestWithdraw(s, k, amount) == Ok(t)
    ensures OnlyActor(s, Custodial(RequestWithdraw(k, amount)), t)
  {
  }

  lemma EmergencyEffect(s: State, k: Key, t: State)
    requires C.EmergencyWithdraw(s, k) == Ok(t)
    ensures OnlyActor(s, Custodial(EmergencyWithdraw(k)), t)
  {
  }

  lemma BuyTicketsEffect(s: State, k: Key, amount: u64, t: State)
    requires C.BuyTickets(s, k, amount) == Ok(t)
    ensures OnlyActor(s, Custodial(BuyTickets(k, amount)), t)
  {
  }

  lemma GrantEffect(s: State, signer: Signer, k: Key, amount: u64, t: State)
    requires C.GrantTickets(s, signer, k, amount) == Ok(t)
    ensures OnlyActor(s, Custodial(GrantTickets(signer, k, amount)), t)
  {
  }

  lemma CustodyEffect(s: State, c: CustodyInstr, t: State)
    requires CustodyStep(s, c) == Ok(t)
    ensures OnlyActor(s, Custodial(c), t)
  {
    match c
    case Deposit(k, amount) => DepositEffect(s, k, amount, t);
    case RequestWithdraw(k, amount) => RequestEffect(s, k, amount, t);
    case EmergencyWithdraw(k) => EmergencyEffect(s, k, t);
    case BuyTickets(k, amount) => BuyTicketsEffect(s, k, amount, t);
    case GrantTickets(signer, k, amount) => GrantEffect(s, signer, k, amount, t);
    case _ =>
  }

  lemma CreditEffect(s: State, id: nat, p: Player, principalSeconds: u128)
    requires 0 <= id <= U64_MAX && E.CreditOnce(s, id, p, principalSeconds).Ok?
    ensures var (pool, q) := E.CreditOnce(s, id, p, principalSeconds).value;
            SameEpochs(s.pool, pool) && Moved(p, q, s.pool, s.now, 0)
  {
    hide Touch, E.YieldFor;
  }

  lemma RegisterEffect(s: State, id: nat, k: Key, t: State)
    requires E.Register(s, id, k) == Ok(t)
    ensures OnlyActor(s, Epochal(Register(id, k)), t)
  {
    hide Touch, E.CreditOnce, E.WeightAndPrincipalSeconds;
    CreditEffect(s, id, s.players[k], E.WeightAndPrincipalSeconds(id, s.epochs[id], s.players[k]).value.1);
  }

  lemma PayoutEffect(s: State, id: nat, k: Key, t: State)
    requires E.Payout(s, id, k) == Ok(t)
    ensures OnlyActor(s, Epochal(Payout(id, k)), t)
  {
  }

  lemma EpochEffect(s: State, e: EpochInstr, t: State)
    requires EpochStep(s, e) == Ok(t) && !e.BeginEpoch?
    ensures OnlyActor(s, Epochal(e), t)
  {
    match e
    case Register(id, k) => RegisterEffect(s, id, k, t);
    case Payout(id, k) => PayoutEffect(s, id, k, t);
    case _ =>
  }

  lemma StakerEffect(p: Player, round: Round, now: i64, total: u64)
    requires R.Staker(p, round, now, total).Ok?
    ensures var q := R.Staker(p, round, now, total).value;
            SameClock(p, q) && q.weightAcc == p.weightAcc + total * (round.endsAt - now)
  {
  }

  lemma BuyPositionEffect(s: State, id: nat, k: Key, tiles: u64, stakePerTile: u64, t: State)
    requires R.BuyPosition(s, id, k, tiles, stakePerTile) == Ok(t)
    ensures OnlyActor(s, Game(BuyPosition(id, k, tiles, stakePerTile)), t)
  {
    hide R.Quote, R.Staked, R.Staker, Touch;
    var touched := Touch(s.players[k], s.pool, s.now).value;
    var total := R.Quote(s, touched, s.rounds[id], Position(tiles, stakePerTile)).value;
    StakerEffect(touched, s.rounds[id], s.now, total);
    assert t.rounds[id].pot - s.rounds[id].pot == total;
  }

  lemma SettleRoundEffect(s: State, id: nat, t: State)
    requires R.SettleRound(s, id) == Ok(t)
    ensures OnlyActor(s, Game(SettleRound(id)), t)
  {
  }

  lemma SettlePositionEffect(s: State, id: nat, k: Key, t: State)
    requires R.SettlePosition(s, id, k) == Ok(t)
    ensures OnlyActor(s, Game(SettlePosition(id, k)), t)
  {
  }

  lemma RoundEffect(s: State, g: RoundInstr, t: State)
    requires RoundStep(s, g) == Ok(t)
    ensures OnlyActor(s, Game(g), t)
  {
    match g
    case BuyPosition(id, k, tiles, stakePerTile) => BuyPositionEffect(s, id, k, tiles, stakePerTile, t);
    case SettleRound(id) => SettleRoundEffect(s, id, t);
    case SettlePosition(id, k) => SettlePositionEffect(s, id, k, t);
    case _ =>
  }
}
