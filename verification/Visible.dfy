/** A player as a caller sees it, without the fields that accrual keeps: what instructions promise to change is stated
    on this view, so that it says nothing about when the player was last touched. */
module Visible {
  import opened Machine
  import opened Ledger
  import opened Touching
  import opened Program
  import opened Effects
  import opened Shape
  import opened Books
  import opened Reserve
  import opened Meters
  import opened Draws
  import opened Yield
  import opened Games
  import opened Grants
  import opened Invariant
  import opened Accrual

  datatype View = View(
    principal: nat, tickets: nat, pending: nat, pendingEpoch: nat, requestedAt: int, isHouse: bool,
    regEpoch: nat, regStart: nat, regEnd: nat, yieldEpoch: nat,
    boughtEpoch: nat, boughtAmount: nat, bonusEpoch: nat, bonusGranted: nat)

  function Seen(p: Player, current: nat): View {
    View(p.principal, EffectiveEntries(p, current), p.pendingWithdraw, p.pendingEpoch, p.requestedAt, p.isHouse,
         p.regEpoch, p.regStart, p.regEnd, p.yieldEpoch, p.boughtEpoch, p.boughtAmount, p.bonusEpoch, p.bonusGranted)
  }

  /** What is seen of an account that may not exist yet. */
  function SeenIn(s: State, k: Key): View { Seen(Before(s, k), s.pool.currentEpochId) }

  /** Only `k` changes among the players, and it is then seen as `v`. */
  predicate Becomes(s: State, k: Key, t: State, v: View) {
    && k in t.players && t.players == s.players[k := t.players[k]]
    && t.pool.currentEpochId == s.pool.currentEpochId && SeenIn(t, k) == v
  }

  /** The player can be touched, which is all an instruction needs of its accrual fields. */
  predicate Touchable(s: State, k: Key) { WeightFits(Before(s, k), s.pool, s.now) }

  /** What a touch leaves visible, and where it leaves the player. */
  predicate TouchSeen(p: Player, q: Player, pool: Pool) {
    && Seen(q, pool.currentEpochId) == Seen(p, pool.currentEpochId)
    && q.epochId == pool.currentEpochId && q.entries == EffectiveEntries(p, pool.currentEpochId)
  }

  lemma TouchIsSeen(k: Key, p: Player, pool: Pool, now: i64)
    requires PlayerOk(k, p, pool, now) && Touch(p, pool, now).Ok?
    ensures TouchSeen(p, Touch(p, pool, now).value, pool)
  {
    hide Touch;
    TouchOk(k, p, pool, now);
  }

  /** What the outcomes below need to know of the player they work on. */
  ghost predicate Usable(s: State, k: Key) {
    && PlayerOk(k, Before(s, k), s.pool, s.now) && 0 <= s.now
    && (Touch(Before(s, k), s.pool, s.now).Ok? <==> Touchable(s, k))
    && (Touch(Before(s, k), s.pool, s.now).Ok? ==>
          TouchSeen(Before(s, k), Touch(Before(s, k), s.pool, s.now).value, s.pool))
    && Before(s, k).principal <= s.pool.totalPrincipal && Before(s, k).pendingWithdraw <= s.pool.pendingWithdrawals
  }

  lemma UsableAt(w: World, k: Key)
    requires Reachable(w)
    ensures Usable(w.s, k)
  {
    hide Reachable, ReserveOk, MetersOk, DrawsOk, YieldOk, GamesOk, GrantsOk, BooksOk, EpochsOk, Touch, WeightFits,
      TouchSeen, PlayerOk;
    ReachableInv(w);
    var s := w.s;
    if k in s.players {
      assert PlayerOk(k, s.players[k], s.pool, s.now);
      TouchSucceedsExactly(w, k);
      ClaimWithinTotals(w, k);
    } else {
      FreshOk(k, s.pool, s.now);
      FreshTouch(s.pool, s.now);
    }
    if Touch(Before(s, k), s.pool, s.now).Ok? { TouchIsSeen(k, Before(s, k), s.pool, s.now); }
  }

  lemma FreshTouch(pool: Pool, now: clock)
    ensures Touch(FreshPlayer(pool, now), pool, now).Ok? && WeightFits(FreshPlayer(pool, now), pool, now)
    ensures FreshPlayer(pool, now).principal == FreshPlayer(pool, now).pendingWithdraw == 0
  {
  }
}
