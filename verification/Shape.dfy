/** The shape every reachable state keeps: epoch ids, epoch spans, and each player's stamps. */
module Shape {
  import opened Machine
  import opened Ledger
  import opened Touching
  import opened Program
  import opened Effects
  import opened Frames
  import Grid
  import C = Custody
  import E = Epochs
  import R = Rounds

  /** An epoch stamp that only an ended epoch can leave; 0 stands for none. */
  predicate PastStamp(epoch: nat, current: nat) { epoch == 0 || epoch < current }

  ghost predicate PlayerOk(k: Key, p: Player, pool: Pool, now: i64) {
    && 0 <= p.lastUpdate <= now
    && p.epochId <= pool.currentEpochId
    && (p.frozenEpoch == 0 || p.frozenEpoch + 1 == p.epochId)
    && PastStamp(p.regEpoch, pool.currentEpochId) && PastStamp(p.yieldEpoch, pool.currentEpochId)
    && p.bonusEpoch <= pool.currentEpochId
    && (p.isHouse <==> k == pool.house)
    && (p.isHouse ==> p.principal == p.pendingWithdraw == p.principalAcc == p.frozenPrincipalAcc == 0)
  }

  ghost predicate PlayersOk(s: State) {
    && s.pool.house in s.players
    && forall k :: k in s.players ==> PlayerOk(k, s.players[k], s.pool, s.now)
  }

  /** Epochs follow one another without overlap. */
  ghost predicate Ordered(epochs: map<nat, Epoch>) {
    forall e, f :: e in epochs && f in epochs && e < f ==> epochs[e].endsAt <= epochs[f].startsAt
  }

  /** Ids run from 1 to the current epoch's, which is the one still open. */
  ghost predicate Numbered(epochs: map<nat, Epoch>, current: nat) {
    && (forall e :: e in epochs <==> 1 <= e <= current)
    && (forall e :: e in epochs ==>
          0 <= epochs[e].startsAt < epochs[e].endsAt && (epochs[e].status.Open? <==> e == current))
  }

  ghost predicate EpochsOk(s: State) {
    var current := s.pool.currentEpochId;
    && Numbered(s.epochs, current) && Ordered(s.epochs)
    && (current >= 1 ==>
          s.epochs[current].startsAt == s.pool.currentEpochStart <= s.now
          && s.epochs[current].endsAt == s.pool.currentEpochEndsAt)
    && (current >= 2 ==>
          s.epochs[current - 1].startsAt == s.pool.previousEpochStart
          && s.epochs[current - 1].endsAt == s.pool.previousEpochEndsAt)
  }

  ghost predicate ShapeOk(s: State) { PlayersOk(s) && EpochsOk(s) }

  lemma FirstIsOne(s: State, id: nat)
    requires ShapeOk(s) && id in s.epochs
    ensures id >= 1
  {
    hide Ordered, PlayersOk;
  }

  lemma ShapePlayers(s: State)
    requires ShapeOk(s)
    ensures PlayersOk(s)
  {
  }

  lemma TouchOk(k: Key, p: Player, pool: Pool, now: i64)
    requires PlayerOk(k, p, pool, now) && Touch(p, pool, now).Ok?
    ensures PlayerOk(k, Touch(p, pool, now).value, pool, now)
    ensures Touched(p, Touch(p, pool, now).value, pool, now)
  {
    TouchKeeps(p, pool, now);
  }

  lemma FreshOk(k: Key, pool: Pool, now: clock)
    requires k != pool.house
    ensures PlayerOk(k, FreshPlayer(pool, now), pool, now)
  {
  }

  lemma TicketPlayer(s: State, c: CustodyInstr, t: State, k: Key)
    requires CustodyStep(s, c) == Ok(t) && (c.BuyTickets? || c.GrantTickets?) && c.k == k
    requires PlayerOk(k, Before(s, k), s.pool, s.now)
    ensures k in t.players && PlayerOk(k, t.players[k], t.pool, t.now)
  {
    hide Touch, C.CounterAfter, C.PoolBonusCap;
    if Touch(Before(s, k), s.pool, s.now).Ok? { TouchOk(k, Before(s, k), s.pool, s.now); }
  }

  lemma DepositPlayer(s: State, k: Key, amount: u64, t: State)
    requires C.Deposit(s, k, amount) == Ok(t) && PlayerOk(k, Before(s, k), s.pool, s.now)
    ensures k in t.players && PlayerOk(k, t.players[k], t.pool, t.now)
  {
    hide Touch;
    if Touch(Before(s, k), s.pool, s.now).Ok? { TouchOk(k, Before(s, k), s.pool, s.now); }
  }

  lemma CustodyPlayer(s: State, c: CustodyInstr, t: State, k: Key)
    requires CustodyStep(s, c) == Ok(t) && Actor(s, Custodial(c)) == Some(k) && k in t.players
    requires s.pool.house in s.players && PlayerOk(k, Before(s, k), s.pool, s.now)
    ensures PlayerOk(k, t.players[k], t.pool, t.now)
  {
    hide Touch, C.GrantTickets, C.BuyTickets, C.Deposit;
    if c.BuyTickets? || c.GrantTickets? {
      TicketPlayer(s, c, t, k);
    } else if c.Deposit? {
      DepositPlayer(s, k, c.amount, t);
    } else if Touch(Before(s, k), s.pool, s.now).Ok? {
      TouchOk(k, Before(s, k), s.pool, s.now);
    }
  }

  lemma CustodyPlayers(s: State, c: CustodyInstr, t: State)
    requires CustodyStep(s, c) == Ok(t) && PlayersOk(s)
    ensures PlayersOk(t)
  {
    hide Touch, Moved, CustodyStep;
    CustodyEffect(s, c, t);
    var actor := Actor(s, Custodial(c));
    if actor.Some? {
      if actor.value !in s.players { FreshOk(actor.value, s.pool, s.now); }
      CustodyPlayer(s, c, t, actor.value);
    }
  }

  /** The House holds no principal, so it has earned no principal-seconds. */
  lemma HouseHoldsNothing(id: nat, epoch: Epoch, k: Key, p: Player, pool: Pool, now: i64)
    requires PlayerOk(k, p, pool, now) && p.isHouse && E.WeightAndPrincipalSeconds(id, epoch, p).Ok?
    ensures E.WeightAndPrincipalSeconds(id, epoch, p).value.1 == 0
  {
  }

  /** The yield credit: either nothing moves, or the player is touched and then credited. */
  lemma CreditOncePlayer(s: State, id: nat, k: Key, p: Player, principalSeconds: u128)
    requires 0 <= id <= U64_MAX && PlayerOk(k, p, s.pool, s.now) && (p.isHouse ==> principalSeconds == 0)
    requires PastStamp(id, s.pool.currentEpochId)
    requires E.CreditOnce(s, id, p, principalSeconds).Ok?
    ensures PlayerOk(k, E.CreditOnce(s, id, p, principalSeconds).value.1, s.pool, s.now)
  {
    hide Touch;
    if Touch(p, s.pool, s.now).Ok? { TouchOk(k, p, s.pool, s.now); }
  }

  lemma RegisterPlayer(s: State, id: nat, k: Key, t: State)
    requires E.Register(s, id, k) == Ok(t) && PlayersOk(s)
    ensures PlayerOk(k, t.players[k], t.pool, t.now)
  {
    hide Touch, Moved, E.CreditOnce, E.WeightAndPrincipalSeconds;
    var p := s.players[k];
    var owed := E.WeightAndPrincipalSeconds(id, s.epochs[id], p).value;
    if p.isHouse { HouseHoldsNothing(id, s.epochs[id], k, p, s.pool, s.now); }
    CreditOncePlayer(s, id, k, p, owed.1);
    RegisterEffect(s, id, k, t);
  }

  lemma PayoutPlayer(s: State, id: nat, k: Key, t: State)
    requires E.Payout(s, id, k) == Ok(t) && PlayersOk(s)
    ensures PlayerOk(k, t.players[k], t.pool, t.now)
  {
    hide Touch;
    if Touch(s.players[k], s.pool, s.now).Ok? { TouchOk(k, s.players[k], s.pool, s.now); }
  }

  lemma EpochPlayers(s: State, e: EpochInstr, t: State)
    requires EpochStep(s, e) == Ok(t) && PlayersOk(s) && !e.BeginEpoch?
    ensures PlayersOk(t)
  {
    hide Touch, E.CreditOnce, E.WeightAndPrincipalSeconds;
    EpochEffect(s, e, t);
    match e
    case Register(id, k) => RegisterPlayer(s, id, k, t);
    case Payout(id, k) => PayoutPlayer(s, id, k, t);
    case _ =>
  }

  lemma BuyPlayer(s: State, g: RoundInstr, t: State)
    requires g.BuyPosition? && R.BuyPosition(s, g.id, g.k, g.tiles, g.stakePerTile) == Ok(t) && PlayersOk(s)
    ensures g.k in t.players && PlayerOk(g.k, t.players[g.k], t.pool, t.now)
  {
    hide Touch, R.Quote, R.Joined;
    if Touch(s.players[g.k], s.pool, s.now).Ok? { TouchOk(g.k, s.players[g.k], s.pool, s.now); }
  }

  lemma WinnerPlayer(s: State, id: nat, k: Key, t: State)
    requires R.SettlePosition(s, id, k) == Ok(t) && PlayersOk(s)
    ensures k in t.players && PlayerOk(k, t.players[k], t.pool, t.now)
  {
    hide Touch, R.Reward;
    if Touch(s.players[k], s.pool, s.now).Ok? { TouchOk(k, s.players[k], s.pool, s.now); }
  }

  lemma HousePlayer(s: State, id: nat, t: State)
    requires R.SettleRound(s, id) == Ok(t) && PlayersOk(s)
    ensures s.pool.house in t.players && PlayerOk(s.pool.house, t.players[s.pool.house], t.pool, t.now)
  {
    hide Touch, R.HouseCut;
    var k := s.pool.house;
    if Touch(s.players[k], s.pool, s.now).Ok? { TouchOk(k, s.players[k], s.pool, s.now); }
  }

  lemma RoundPlayers(s: State, g: RoundInstr, t: State)
    requires RoundStep(s, g) == Ok(t) && PlayersOk(s)
    ensures PlayersOk(t)
  {
    hide Touch, Moved, PlayerOk, R.BuyPosition, R.SettlePosition, R.SettleRound, R.VoidDue;
    RoundEffect(s, g, t);
    if g.BuyPosition? { BuyPlayer(s, g, t); }
    if g.SettlePosition? { WinnerPlayer(s, g.id, g.k, t); }
    if g.SettleRound? { HousePlayer(s, g.id, t); }
    PlayersFrame(s, t);
  }

  /** Players that an instruction leaves alone stay as they should be. */
  lemma PlayersFrame(s: State, t: State)
    requires PlayersOk(s) && SameEpochs(s.pool, t.pool) && t.now == s.now && s.players.Keys <= t.players.Keys
    requires forall k :: k in t.players ==>
               PlayerOk(k, t.players[k], t.pool, t.now) || (k in s.players && t.players[k] == s.players[k])
    ensures PlayersOk(t)
  {
    forall k | k in t.players
      ensures PlayerOk(k, t.players[k], t.pool, t.now)
    {
      if k in s.players { assert PlayerOk(k, s.players[k], s.pool, s.now); }
    }
  }

  function Rank(status: EpochStatus): nat {
    match status
    case Open => 0
    case Registering => 1
    case Drawing => 2
    case Drawn => 3
    case _ => 4
  }

  /** An epoch keeps its span, never goes back a stage, and never changes again once it is over. */
  predicate Advances(a: Epoch, b: Epoch) {
    && a.startsAt == b.startsAt && a.endsAt == b.endsAt
    && Rank(a.status) <= Rank(b.status) && (Rank(a.status) == 4 ==> a == b)
  }

  predicate EpochsAdvance(s: State, t: State) {
    && s.epochs.Keys <= t.epochs.Keys
    && forall e :: e in s.epochs ==> Advances(s.epochs[e], t.epochs[e])
  }

  lemma CustodyEpochs(s: State, c: CustodyInstr, t: State)
    requires CustodyStep(s, c) == Ok(t)
    ensures t.epochs == s.epochs
  {
    hide CustodyStep;
    CustodyLeaves(s, c, t);
  }

  lemma RoundEpochs(s: State, g: RoundInstr, t: State)
    requires RoundStep(s, g) == Ok(t)
    ensures t.epochs == s.epochs
  {
    hide RoundStep;
    RoundLeaves(s, g, t);
  }

  predicate HasEpoch(e: EpochInstr) { !e.BeginEpoch? && !e.FundJackpot? && !e.FundYield? }

  /** Every other epoch instruction works on the one epoch it names. */
  lemma NamedEpoch(s: State, e: EpochInstr, t: State)
    requires EpochStep(s, e) == Ok(t) && HasEpoch(e)
    ensures e.id in s.epochs && e.id in t.epochs && t.epochs == s.epochs[e.id := t.epochs[e.id]]
    ensures Advances(s.epochs[e.id], t.epochs[e.id])
    ensures s.epochs[e.id].status.Open? <==> t.epochs[e.id].status.Open?
  {
    hide Touch, E.CreditOnce, E.WeightAndPrincipalSeconds, E.RegistrationClosesAt;
  }

  lemma EpochEpochs(s: State, e: EpochInstr, t: State)
    requires EpochStep(s, e) == Ok(t) && !e.BeginEpoch?
    ensures t.epochs.Keys == s.epochs.Keys && EpochsAdvance(s, t)
    ensures forall id :: id in s.epochs ==> (s.epochs[id].status.Open? <==> t.epochs[id].status.Open?)
  {
    if HasEpoch(e) {
      hide EpochStep;
      NamedEpoch(s, e, t);
    }
  }

  /** What `begin_epoch` writes: the epoch it leaves, the epoch it opens, and the pool's copy of both. */
  ghost predicate Begun(s: State, t: State) {
    var c := s.pool.currentEpochId;
    && t.players == s.players && t.now == s.now && t.pool.house == s.pool.house
    && t.pool.currentEpochId == c + 1 && c + 1 !in s.epochs && (c > 0 ==> c in s.epochs)
    && t.epochs == (if c == 0 then s.epochs
                    else s.epochs[c := s.epochs[c].(status := Registering, registrationOpenedAt := s.now)])
                   [c + 1 := E.NewEpoch(t.pool.currentEpochStart, t.pool.currentEpochEndsAt)]
    && t.pool.previousEpochStart == s.pool.currentEpochStart
    && t.pool.previousEpochEndsAt == s.pool.currentEpochEndsAt
    && t.pool.currentEpochStart <= s.now < t.pool.currentEpochEndsAt
    && (c == 0 ==> t.pool.currentEpochStart == s.now)
    && (c > 0 ==> s.epochs[c].endsAt <= t.pool.currentEpochStart)
  }

  lemma BeginEpochBegins(s: State, signer: Signer, t: State)
    requires E.BeginEpoch(s, signer) == Ok(t)
    ensures Begun(s, t)
  {
    hide E.GridFloor;
    Grid.EpochSpan(s, signer, t);
  }

  lemma BegunOrder(s: State, t: State)
    requires Begun(s, t) && EpochsOk(s)
    ensures Ordered(t.epochs)
  {
    var c := s.pool.currentEpochId;
    forall e, f | e in t.epochs && f in t.epochs && e < f
      ensures t.epochs[e].endsAt <= t.epochs[f].startsAt
    {
      if f == c + 1 && e < c { assert s.epochs[e].endsAt <= s.epochs[c].startsAt; }
    }
  }

  lemma BegunNumbers(s: State, t: State)
    requires Begun(s, t) && EpochsOk(s)
    ensures EpochsAdvance(s, t) && Numbered(t.epochs, t.pool.currentEpochId)
  {
    hide Ordered;
    var c := s.pool.currentEpochId;
    assert t.epochs.Keys == s.epochs.Keys + {c + 1};
    forall e | e in t.epochs
      ensures 0 <= t.epochs[e].startsAt < t.epochs[e].endsAt && (t.epochs[e].status.Open? <==> e == c + 1)
    {
      if e <= c { assert e in s.epochs; }
    }
  }

  lemma BegunEpochs(s: State, t: State)
    requires Begun(s, t) && EpochsOk(s)
    ensures EpochsOk(t) && EpochsAdvance(s, t)
  {
    BegunOrder(s, t);
    BegunNumbers(s, t);
    hide Ordered, EpochsAdvance;
  }

  lemma BegunPlayers(s: State, t: State)
    requires Begun(s, t) && PlayersOk(s)
    ensures PlayersOk(t)
  {
    assert forall k :: k in s.players ==> PlayerOk(k, s.players[k], s.pool, s.now);
  }

  predicate SameSpans(a: map<nat, Epoch>, b: map<nat, Epoch>) {
    && b.Keys == a.Keys
    && forall e :: e in a ==> b[e].startsAt == a[e].startsAt && b[e].endsAt == a[e].endsAt
  }

  lemma SpansKept(s: State, t: State)
    requires t.epochs.Keys == s.epochs.Keys && EpochsAdvance(s, t)
    ensures SameSpans(s.epochs, t.epochs)
  {
    forall e | e in s.epochs
      ensures t.epochs[e].startsAt == s.epochs[e].startsAt && t.epochs[e].endsAt == s.epochs[e].endsAt
    {
      assert Advances(s.epochs[e], t.epochs[e]);
    }
  }

  lemma NumbersFrame(a: map<nat, Epoch>, b: map<nat, Epoch>, current: nat)
    requires Numbered(a, current) && SameSpans(a, b)
    requires forall e :: e in a ==> (a[e].status.Open? <==> b[e].status.Open?)
    ensures Numbered(b, current)
  {
  }

  lemma EpochsFrame(s: State, t: State)
    requires EpochsOk(s) && SameEpochs(s.pool, t.pool) && s.now <= t.now
    requires t.epochs.Keys == s.epochs.Keys && EpochsAdvance(s, t)
    requires forall id :: id in s.epochs ==> (s.epochs[id].status.Open? <==> t.epochs[id].status.Open?)
    ensures EpochsOk(t)
  {
    OrderFrame(s, t);
    SpansKept(s, t);
    NumbersFrame(s.epochs, t.epochs, s.pool.currentEpochId);
    hide Ordered, EpochsAdvance;
  }

  lemma OrderFrame(s: State, t: State)
    requires Ordered(s.epochs) && t.epochs.Keys == s.epochs.Keys && EpochsAdvance(s, t)
    ensures Ordered(t.epochs)
  {
    forall e, f | e in t.epochs && f in t.epochs && e < f
      ensures t.epochs[e].endsAt <= t.epochs[f].startsAt
    {
      assert Advances(s.epochs[e], t.epochs[e]) && Advances(s.epochs[f], t.epochs[f]);
    }
  }

  lemma ShapeStep(s: State, i: Instr, t: State)
    requires Step(s, i) == Ok(t) && ShapeOk(s)
    ensures ShapeOk(t) && EpochsAdvance(s, t)
  {
    hide CustodyStep, EpochStep, RoundStep, Moved, EpochsOk;
    match i
    case Tick(_) =>
      assert forall k :: k in s.players ==> PlayerOk(k, s.players[k], s.pool, s.now);
      EpochsFrame(s, t);
    case Custodial(c) =>
      CustodyEffect(s, c, t);
      CustodyPlayers(s, c, t);
      CustodyEpochs(s, c, t);
      EpochsFrame(s, t);
    case Game(g) =>
      RoundEffect(s, g, t);
      RoundPlayers(s, g, t);
      RoundEpochs(s, g, t);
      EpochsFrame(s, t);
    case Epochal(e) =>
      if e.BeginEpoch? {
        BeginEpochIs(s, e, t);
        BeginEpochBegins(s, e.signer, t);
        BegunEpochs(s, t);
        BegunPlayers(s, t);
      } else {
        EpochEffect(s, e, t);
        EpochPlayers(s, e, t);
        EpochEpochs(s, e, t);
        EpochsFrame(s, t);
      }
  }

  lemma BeginEpochIs(s: State, e: EpochInstr, t: State)
    requires EpochStep(s, e) == Ok(t) && e.BeginEpoch?
    ensures E.BeginEpoch(s, e.signer) == Ok(t)
  {
  }
}
