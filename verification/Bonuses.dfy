/** The daily referral bonus (referral-bonus.ts), and that the program accepts what it computes. */
module Bonuses {
  import opened Machine
  import opened Ledger
  import opened Touching
  import opened Sums
  import opened Program
  import opened Shape
  import opened Books
  import opened Reserve
  import opened Meters
  import opened Draws
  import opened Yield
  import opened Games
  import opened Grants
  import opened Invariant
  import C = Custody

  const BASIS_CAP: int := 2_500_000_000

  datatype ReferrerInput = ReferrerInput(
    referrer: Key, principal: nat, alreadyGrantedToday: nat, qualifiedReferralPrincipals: seq<nat>)

  datatype ReferrerBonus = ReferrerBonus(referrer: Key, amount: int, uncapped: int, qualifiedCount: nat, rateBps: nat)

  function RateBpsFor(qualifiedCount: nat): nat {
    if qualifiedCount >= 11 then 500
    else if qualifiedCount >= 6 then 400
    else if qualifiedCount >= 3 then 300
    else if qualifiedCount >= 1 then 200
    else 0
  }

  function RemainingGrantCap(principal: int, alreadyGrantedToday: int): int {
    if principal - alreadyGrantedToday > 0 then principal - alreadyGrantedToday else 0
  }

  function Basis(principals: seq<nat>): nat {
    if principals == [] then 0
    else Basis(principals[..|principals| - 1]) + Min(principals[|principals| - 1], BASIS_CAP)
  }

  function PreScaleBonus(input: ReferrerInput): ReferrerBonus {
    var count := |input.qualifiedReferralPrincipals|;
    var rate := RateBpsFor(count);
    if rate == 0 then ReferrerBonus(input.referrer, 0, 0, count, rate)
    else
      var cap := RemainingGrantCap(input.principal, input.alreadyGrantedToday);
      var raw := Basis(input.qualifiedReferralPrincipals) * rate / 10_000;
      ReferrerBonus(input.referrer, if raw < cap then raw else cap, raw, count, rate)
  }

  /** `filter` on a positive amount. */
  function Positive(bonuses: seq<ReferrerBonus>): seq<ReferrerBonus> {
    if bonuses == [] then []
    else
      var last := bonuses[|bonuses| - 1];
      Positive(bonuses[..|bonuses| - 1]) + if last.amount > 0 then [last] else []
  }

  function Total(bonuses: seq<ReferrerBonus>): int {
    if bonuses == [] then 0 else Total(bonuses[..|bonuses| - 1]) + bonuses[|bonuses| - 1].amount
  }

  function PreScaled(referrers: seq<ReferrerInput>): seq<ReferrerBonus> {
    Positive(seq(|referrers|, i requires 0 <= i < |referrers| => PreScaleBonus(referrers[i])))
  }

  function Scale(bonuses: seq<ReferrerBonus>, cap: nat, sum: nat): seq<ReferrerBonus>
    requires sum > 0
  {
    seq(|bonuses|, i requires 0 <= i < |bonuses| =>
      bonuses[i].(amount := bonuses[i].amount * cap / sum, uncapped := bonuses[i].uncapped * cap / sum))
  }

  /** What the pool may still grant in this epoch. */
  function Headroom(totalPrincipal: nat, capBps: nat, alreadyGrantedThisEpoch: nat): nat {
    var headroom := totalPrincipal * capBps / 10_000 - alreadyGrantedThisEpoch;
    if headroom > 0 then headroom else 0
  }

  function ComputeBonuses(
      referrers: seq<ReferrerInput>, totalPrincipal: nat, capBps: nat, alreadyGrantedThisEpoch: nat): seq<ReferrerBonus> {
    var preScaled := PreScaled(referrers);
    if preScaled == [] then []
    else
      var sum, cap := Total(preScaled), Headroom(totalPrincipal, capBps, alreadyGrantedThisEpoch);
      if sum <= cap then preScaled
      else Positive(Scale(preScaled, cap, sum))
  }

  /** Every bonus is positive and belongs to an input whose own remaining cap it respects. */
  ghost predicate Backed(bonuses: seq<ReferrerBonus>, referrers: seq<ReferrerInput>) {
    forall j :: 0 <= j < |bonuses| ==>
      0 < bonuses[j].amount && exists i :: 0 <= i < |referrers| && Backs(bonuses[j], referrers[i])
  }

  predicate Backs(b: ReferrerBonus, input: ReferrerInput) {
    && b.referrer == input.referrer && b.amount <= RemainingGrantCap(input.principal, input.alreadyGrantedToday)
    && b.amount <= b.uncapped
  }

  /** At most one bonus per referrer. */
  predicate OncePerReferrer(bonuses: seq<ReferrerBonus>) {
    forall i, j :: 0 <= i < j < |bonuses| ==> bonuses[i].referrer != bonuses[j].referrer
  }

  predicate DistinctReferrers(referrers: seq<ReferrerInput>) {
    forall i, j :: 0 <= i < j < |referrers| ==> referrers[i].referrer != referrers[j].referrer
  }

  lemma {:induction false} PositiveMembers(bonuses: seq<ReferrerBonus>)
    ensures forall b :: b in Positive(bonuses) ==> b in bonuses && b.amount > 0
  {
    if bonuses != [] { PositiveMembers(bonuses[..|bonuses| - 1]); }
  }

  lemma {:induction false} PositiveTotal(bonuses: seq<ReferrerBonus>)
    requires forall j :: 0 <= j < |bonuses| ==> bonuses[j].amount >= 0
    ensures Total(Positive(bonuses)) == Total(bonuses)
  {
    if bonuses != [] {
      var front, last := bonuses[..|bonuses| - 1], bonuses[|bonuses| - 1];
      PositiveTotal(front);
      var kept := Positive(front);
      if last.amount > 0 {
        assert Positive(bonuses) == kept + [last];
        assert (kept + [last])[..|kept|] == kept;
      } else {
        assert Positive(bonuses) == kept;
      }
    }
  }

  lemma {:induction false} PositiveOnce(bonuses: seq<ReferrerBonus>)
    requires OncePerReferrer(bonuses)
    ensures OncePerReferrer(Positive(bonuses))
  {
    if bonuses != [] {
      var front, last := bonuses[..|bonuses| - 1], bonuses[|bonuses| - 1];
      PositiveOnce(front);
      PositiveMembers(front);
      forall j | 0 <= j < |Positive(front)|
        ensures Positive(front)[j].referrer != last.referrer
      {
        assert Positive(front)[j] in front;
        var i :| 0 <= i < |front| && front[i] == Positive(front)[j];
        assert bonuses[i].referrer != bonuses[|bonuses| - 1].referrer;
      }
    }
  }

  lemma PreScaleBounds(input: ReferrerInput)
    ensures var b := PreScaleBonus(input);
            b.referrer == input.referrer && Backs(b, input) && 0 <= b.amount <= b.uncapped
  {
    MulLe(0, Basis(input.qualifiedReferralPrincipals), RateBpsFor(|input.qualifiedReferralPrincipals|));
  }

  lemma PreScaledOk(referrers: seq<ReferrerInput>)
    ensures Backed(PreScaled(referrers), referrers)
    ensures DistinctReferrers(referrers) ==> OncePerReferrer(PreScaled(referrers))
  {
    hide PreScaleBonus, Backs;
    var all := seq(|referrers|, i requires 0 <= i < |referrers| => PreScaleBonus(referrers[i]));
    PositiveMembers(all);
    forall i | 0 <= i < |all| ensures all[i].referrer == referrers[i].referrer && Backs(all[i], referrers[i]) {
      PreScaleBounds(referrers[i]);
    }
    if DistinctReferrers(referrers) { PositiveOnce(all); }
    forall j | 0 <= j < |PreScaled(referrers)|
      ensures exists i :: 0 <= i < |referrers| && Backs(PreScaled(referrers)[j], referrers[i])
    {
      assert PreScaled(referrers)[j] in all;
      var i :| 0 <= i < |all| && all[i] == PreScaled(referrers)[j];
      assert Backs(all[i], referrers[i]);
    }
  }

  /** Scaling one amount: it never grows, and rounds down. */
  lemma ScaledAmount(amount: nat, cap: nat, sum: nat)
    requires sum > 0
    ensures 0 <= amount * cap / sum && amount * cap - (sum - 1) <= amount * cap / sum * sum <= amount * cap
    ensures cap <= sum ==> amount * cap / sum <= amount
  {
    var n := amount * cap;
    assert n == n / sum * sum + n % sum;
    if cap <= sum && n / sum > amount {
      MulLe(amount + 1, n / sum, sum);
      MulLe(cap, sum, amount);
    }
  }

  lemma ScaledOrder(a: nat, b: nat, cap: nat, sum: nat)
    requires sum > 0 && a <= b
    ensures a * cap / sum <= b * cap / sum
  {
    MulLe(a, b, cap);
    DivLe(a * cap, b * cap, sum);
  }

  lemma DivLe(x: int, y: int, d: int)
    requires d > 0 && x <= y
    ensures x / d <= y / d
  {
    assert x == x / d * d + x % d && y == y / d * d + y % d;
    if x / d > y / d { MulLe(y / d + 1, x / d, d); }
  }

  lemma {:induction false} ScaledTotal(bonuses: seq<ReferrerBonus>, cap: nat, sum: nat)
    requires sum > 0 && forall j :: 0 <= j < |bonuses| ==> bonuses[j].amount >= 0
    ensures Total(Scale(bonuses, cap, sum)) * sum <= Total(bonuses) * cap
    ensures Total(bonuses) * cap - |bonuses| * (sum - 1) <= Total(Scale(bonuses, cap, sum)) * sum
  {
    if bonuses != [] {
      var front, last := bonuses[..|bonuses| - 1], bonuses[|bonuses| - 1];
      var scaled := Scale(bonuses, cap, sum);
      assert scaled[..|scaled| - 1] == Scale(front, cap, sum);
      ScaledTotal(front, cap, sum);
      ScaledAmount(last.amount, cap, sum);
      AddProducts(Total(Scale(front, cap, sum)), last.amount * cap / sum, sum, Total(front), last.amount, cap, |front|);
    }
  }

  lemma AddProducts(a: int, b: int, c: int, d: int, e: int, f: int, n: int)
    requires d * f - n * (c - 1) <= a * c <= d * f && e * f - (c - 1) <= b * c <= e * f
    ensures (d + e) * f - (n + 1) * (c - 1) <= (a + b) * c <= (d + e) * f
  {
    assert (a + b) * c == a * c + b * c && (d + e) * f == d * f + e * f;
    assert (n + 1) * (c - 1) == n * (c - 1) + (c - 1);
  }

  /** Scaled bonuses still belong to their inputs. */
  lemma ScaledOk(bonuses: seq<ReferrerBonus>, referrers: seq<ReferrerInput>, cap: nat, sum: nat)
    requires Backed(bonuses, referrers) && sum > 0 && cap <= sum
    ensures Backed(Positive(Scale(bonuses, cap, sum)), referrers)
    ensures OncePerReferrer(bonuses) ==> OncePerReferrer(Positive(Scale(bonuses, cap, sum)))
    ensures forall j :: 0 <= j < |bonuses| ==> Scale(bonuses, cap, sum)[j].amount >= 0
  {
    var scaled := Scale(bonuses, cap, sum);
    PositiveMembers(scaled);
    forall j | 0 <= j < |bonuses|
      ensures 0 <= scaled[j].amount <= bonuses[j].amount && scaled[j].referrer == bonuses[j].referrer
      ensures exists i :: 0 <= i < |referrers| && Backs(scaled[j], referrers[i])
    {
      ScaledAmount(bonuses[j].amount, cap, sum);
      var i :| 0 <= i < |referrers| && Backs(bonuses[j], referrers[i]);
      ScaledOrder(bonuses[j].amount, bonuses[j].uncapped, cap, sum);
      assert Backs(scaled[j], referrers[i]);
    }
    if OncePerReferrer(bonuses) { PositiveOnce(scaled); }
    var kept := Positive(scaled);
    forall j | 0 <= j < |kept|
      ensures exists i :: 0 <= i < |referrers| && Backs(kept[j], referrers[i])
    {
      assert kept[j] in scaled;
      var n :| 0 <= n < |scaled| && scaled[n] == kept[j];
    }
  }

  /** Whatever is computed stays within the pool's headroom and within each referrer's own, is positive, and names
      each referrer at most once. */
  lemma ComputedWithinCaps(referrers: seq<ReferrerInput>, totalPrincipal: nat, capBps: nat, already: nat)
    ensures var batch := ComputeBonuses(referrers, totalPrincipal, capBps, already);
            && Total(batch) <= Headroom(totalPrincipal, capBps, already)
            && Backed(batch, referrers)
            && (DistinctReferrers(referrers) ==> OncePerReferrer(batch))
  {
    hide PreScaled, Backed, OncePerReferrer, DistinctReferrers, Headroom, Scale, Positive;
    var preScaled, cap := PreScaled(referrers), Headroom(totalPrincipal, capBps, already);
    PreScaledOk(referrers);
    var sum := Total(preScaled);
    if preScaled == [] {
      NoBonuses(referrers);
    } else if sum > cap {
      BackedNatural(preScaled, referrers);
      ScaledTotal(preScaled, cap, sum);
      ScaledOk(preScaled, referrers, cap, sum);
      ScaleLength(preScaled, cap, sum);
      PositiveTotal(Scale(preScaled, cap, sum));
      CancelSum(Total(Scale(preScaled, cap, sum)), cap, sum);
    }
  }

  // ----- what is due -----

  /** The rate a number of qualified referrals earns, in basis points: 2% from 1, 3% from 3, 4% from 6, 5% from 11. */
  predicate Band(count: nat, rate: nat) {
    || (count == 0 && rate == 0) || (1 <= count <= 2 && rate == 200) || (3 <= count <= 5 && rate == 300)
    || (6 <= count <= 10 && rate == 400) || (11 <= count && rate == 500)
  }

  /** The referrals' Principal, each up to 2500 USDC at six decimals. */
  function Capped(principals: seq<nat>): nat {
    if principals == [] then 0 else Min(principals[0], 2_500_000_000) + Capped(principals[1..])
  }

  /** `due` is the rate on the capped Principal, rounded down. */
  predicate IsDue(input: ReferrerInput, due: nat, rate: nat) {
    && Band(|input.qualifiedReferralPrincipals|, rate)
    && due * 10_000 <= Capped(input.qualifiedReferralPrincipals) * rate < (due + 1) * 10_000
  }

  /** What is due to every referrer, and at what rate. */
  predicate AreDue(referrers: seq<ReferrerInput>, dues: seq<nat>, rates: seq<nat>) {
    |dues| == |rates| == |referrers| && forall i :: 0 <= i < |referrers| ==> IsDue(referrers[i], dues[i], rates[i])
  }

  /** No more than what is due, nor than the referrer's own Principal less what it was granted already. */
  function Own(input: ReferrerInput, due: nat): nat {
    if input.principal <= input.alreadyGrantedToday then 0
    else Min(due, input.principal - input.alreadyGrantedToday)
  }

  function OwnTotal(referrers: seq<ReferrerInput>, dues: seq<nat>): nat
    requires |referrers| == |dues|
  {
    if referrers == [] then 0
    else
      var n := |referrers| - 1;
      OwnTotal(referrers[..n], dues[..n]) + Own(referrers[n], dues[n])
  }

  /** `room` is the share of all Principal that may be granted, rounded down, less what was granted, if positive. */
  ghost predicate IsRoom(totalPrincipal: nat, capBps: nat, already: nat, room: nat) {
    exists share: nat ::
      share * 10_000 <= totalPrincipal * capBps < (share + 1) * 10_000
      && room == if share > already then share - already else 0
  }

  /** The amount is paid in full if everybody's fits the room, and otherwise as its part of the room, rounded down. */
  predicate Pays(amount: nat, total: nat, room: nat, paid: nat) {
    if total <= room then paid == amount else paid * total <= amount * room < (paid + 1) * total
  }

  /** The bonus of one referrer, whose record also names what was due, scaled alike. */
  predicate Bonus(b: ReferrerBonus, input: ReferrerInput, due: nat, rate: nat, total: nat, room: nat) {
    && b.referrer == input.referrer && b.qualifiedCount == |input.qualifiedReferralPrincipals| && b.rateBps == rate
    && b.amount > 0 && Pays(Own(input, due), total, room, b.amount)
    && b.uncapped >= 0 && Pays(due, total, room, b.uncapped)
  }

  lemma FloorIs(x: int, d: int, q: int)
    requires d > 0 && q * d <= x < (q + 1) * d
    ensures x / d == q
  {
    assert (q + 1) * d == q * d + d;
    DivUnique(x, d, q, x - q * d);
  }

  lemma FloorBounds(x: int, d: int)
    requires d > 0
    ensures x / d * d <= x < (x / d + 1) * d
  {
    assert x == x / d * d + x % d;
    assert (x / d + 1) * d == x / d * d + d;
  }

  lemma {:induction false} CappedIsBasis(principals: seq<nat>)
    ensures Capped(principals) == Basis(principals)
  {
    if |principals| > 1 {
      var n := |principals| - 1;
      CappedIsBasis(principals[1..]);
      CappedIsBasis(principals[..n]);
      CappedIsBasis(principals[1..n]);
      assert principals[1..][..n - 1] == principals[1..n] == principals[..n][1..];
    }
  }

  lemma PreScaleIs(input: ReferrerInput, due: nat, rate: nat)
    requires IsDue(input, due, rate)
    ensures PreScaleBonus(input)
         == ReferrerBonus(input.referrer, Own(input, due), due, |input.qualifiedReferralPrincipals|, rate)
  {
    CappedIsBasis(input.qualifiedReferralPrincipals);
    FloorIs(Basis(input.qualifiedReferralPrincipals) * rate, 10_000, due);
  }

  function All(referrers: seq<ReferrerInput>): seq<ReferrerBonus> {
    seq(|referrers|, i requires 0 <= i < |referrers| => PreScaleBonus(referrers[i]))
  }

  lemma {:induction false} AllTotal(referrers: seq<ReferrerInput>, dues: seq<nat>, rates: seq<nat>)
    requires AreDue(referrers, dues, rates)
    ensures Total(All(referrers)) == OwnTotal(referrers, dues)
  {
    if referrers != [] {
      var n := |referrers| - 1;
      AllTotal(referrers[..n], dues[..n], rates[..n]);
      PreScaleIs(referrers[n], dues[n], rates[n]);
      assert All(referrers)[..n] == All(referrers[..n]);
    }
  }

  lemma {:induction false} PositiveKeeps(bonuses: seq<ReferrerBonus>, b: ReferrerBonus)
    requires b in bonuses && b.amount > 0
    ensures b in Positive(bonuses)
  {
    if b != bonuses[|bonuses| - 1] { PositiveKeeps(bonuses[..|bonuses| - 1], b); }
  }

  lemma RoomIs(totalPrincipal: nat, capBps: nat, already: nat, room: nat)
    requires IsRoom(totalPrincipal, capBps, already, room)
    ensures Headroom(totalPrincipal, capBps, already) == room
  {
    var share: nat :|
      share * 10_000 <= totalPrincipal * capBps < (share + 1) * 10_000
      && room == if share > already then share - already else 0;
    FloorIs(totalPrincipal * capBps, 10_000, share);
  }

  /** What the batch makes of the record of one referrer. */
  function Final(b: ReferrerBonus, total: nat, room: nat): ReferrerBonus
    requires total > 0
  {
    if total <= room then b else b.(amount := b.amount * room / total, uncapped := b.uncapped * room / total)
  }

  lemma FinalIs(input: ReferrerInput, due: nat, rate: nat, total: nat, room: nat)
    requires IsDue(input, due, rate) && total > 0 && Final(PreScaleBonus(input), total, room).amount > 0
    ensures Bonus(Final(PreScaleBonus(input), total, room), input, due, rate, total, room)
  {
    hide PreScaleBonus;
    PreScaleIs(input, due, rate);
    FloorBounds(Own(input, due) * room, total);
    FloorBounds(due * room, total);
    MulLe(0, due, room);
    if due * room / total < 0 { MulLe(due * room / total + 1, 0, total); }
  }

  lemma FinalUnique(b: ReferrerBonus, input: ReferrerInput, due: nat, rate: nat, total: nat, room: nat)
    requires IsDue(input, due, rate) && total > 0 && Bonus(b, input, due, rate, total, room)
    ensures b == Final(PreScaleBonus(input), total, room)
  {
    hide PreScaleBonus;
    PreScaleIs(input, due, rate);
    if total > room {
      FloorIs(Own(input, due) * room, total, b.amount);
      FloorIs(due * room, total, b.uncapped);
    }
  }

  /** The batch consists of exactly the final records that are positive. */
  lemma BatchIs(referrers: seq<ReferrerInput>, totalPrincipal: nat, capBps: nat, already: nat, i: nat)
    requires i < |referrers| && Total(All(referrers)) > 0
    ensures var b := Final(PreScaleBonus(referrers[i]), Total(All(referrers)), Headroom(totalPrincipal, capBps, already));
            b.amount > 0 ==> b in ComputeBonuses(referrers, totalPrincipal, capBps, already)
  {
    hide PreScaleBonus, Headroom;
    var all, kept := All(referrers), PreScaled(referrers);
    AllNatural(referrers);
    PositiveTotal(all);
    var sum, room := Total(all), Headroom(totalPrincipal, capBps, already);
    var b := PreScaleBonus(referrers[i]);
    assert all[i] == b;
    if Final(b, sum, room).amount > 0 {
      if b.amount <= 0 { ZeroScaled(b.amount, room, sum); }
      PositiveKeeps(all, b);
      if sum > room {
        var j :| 0 <= j < |kept| && kept[j] == b;
        assert Scale(kept, room, sum)[j] == Final(b, sum, room);
        PositiveKeeps(Scale(kept, room, sum), Final(b, sum, room));
      }
    }
  }

  lemma ZeroScaled(amount: int, room: nat, sum: nat)
    requires amount <= 0 && sum > 0
    ensures amount * room / sum <= 0
  {
    MulLe(amount, 0, room);
    DivLe(amount * room, 0, sum);
  }

  lemma AllNatural(referrers: seq<ReferrerInput>)
    ensures forall j :: 0 <= j < |All(referrers)| ==> All(referrers)[j].amount >= 0
  {
    hide PreScaleBonus;
    forall j | 0 <= j < |referrers| ensures All(referrers)[j].amount >= 0 { PreScaleBounds(referrers[j]); }
  }

  lemma BatchFrom(referrers: seq<ReferrerInput>, totalPrincipal: nat, capBps: nat, already: nat, b: ReferrerBonus)
      returns (i: nat)
    requires b in ComputeBonuses(referrers, totalPrincipal, capBps, already)
    ensures i < |referrers| && Total(All(referrers)) > 0 && b.amount > 0
    ensures b == Final(PreScaleBonus(referrers[i]), Total(All(referrers)), Headroom(totalPrincipal, capBps, already))
  {
    hide PreScaleBonus, Headroom;
    var all, kept := All(referrers), PreScaled(referrers);
    AllNatural(referrers);
    PositiveTotal(all);
    PositiveMembers(all);
    var sum, room := Total(all), Headroom(totalPrincipal, capBps, already);
    PositiveSum(kept);
    var from := b;
    if sum > room {
      PositiveMembers(Scale(kept, room, sum));
      var j :| 0 <= j < |kept| && Scale(kept, room, sum)[j] == b;
      from := kept[j];
    }
    assert from in all;
    i :| 0 <= i < |all| && all[i] == from;
  }

  lemma {:induction false} PositiveSum(bonuses: seq<ReferrerBonus>)
    requires forall j :: 0 <= j < |bonuses| ==> bonuses[j].amount > 0
    ensures bonuses != [] ==> Total(bonuses) > 0
    ensures Total(bonuses) >= 0
  {
    if bonuses != [] { PositiveSum(bonuses[..|bonuses| - 1]); }
  }

  /** What the daily job computes: a record is in the batch if and only if it is the positive bonus of some referrer,
      which is the rate of its band on its referrals' capped Principal, rounded down, no more than its own Principal
      less what it was granted, and scaled down to the room if everybody's together exceed it. */
  lemma ComputesWhatIsDue(
      referrers: seq<ReferrerInput>, totalPrincipal: nat, capBps: nat, already: nat,
      dues: seq<nat>, rates: seq<nat>, room: nat, b: ReferrerBonus)
    requires AreDue(referrers, dues, rates) && IsRoom(totalPrincipal, capBps, already, room)
    ensures b in ComputeBonuses(referrers, totalPrincipal, capBps, already) <==>
            exists i :: 0 <= i < |referrers|
              && Bonus(b, referrers[i], dues[i], rates[i], OwnTotal(referrers, dues), room)
  {
    hide PreScaleBonus, Headroom, Final, ComputeBonuses, Bonus, IsDue, All, Own, IsRoom;
    AllTotal(referrers, dues, rates);
    RoomIs(totalPrincipal, capBps, already, room);
    var total := OwnTotal(referrers, dues);
    if b in ComputeBonuses(referrers, totalPrincipal, capBps, already) {
      var i := BatchFrom(referrers, totalPrincipal, capBps, already, b);
      FinalIs(referrers[i], dues[i], rates[i], total, room);
    }
    if i :| 0 <= i < |referrers| && Bonus(b, referrers[i], dues[i], rates[i], total, room) {
      SomeTotal(referrers, dues, i, b, rates[i], room);
      FinalUnique(b, referrers[i], dues[i], rates[i], total, room);
      BonusPositive(b, referrers[i], dues[i], rates[i], total, room);
      BatchIs(referrers, totalPrincipal, capBps, already, i);
    }
  }

  lemma BonusPositive(b: ReferrerBonus, input: ReferrerInput, due: nat, rate: nat, total: nat, room: nat)
    requires Bonus(b, input, due, rate, total, room)
    ensures b.amount > 0 && Pays(Own(input, due), total, room, b.amount)
  {
  }

  /** If a bonus is paid at all, something was earned. */
  lemma {:induction false} SomeTotal(
      referrers: seq<ReferrerInput>, dues: seq<nat>, i: nat, b: ReferrerBonus, rate: nat, room: nat)
    requires |referrers| == |dues| && i < |referrers|
    requires Bonus(b, referrers[i], dues[i], rate, OwnTotal(referrers, dues), room)
    ensures OwnTotal(referrers, dues) > 0
  {
    hide Own;
    BonusPositive(b, referrers[i], dues[i], rate, OwnTotal(referrers, dues), room);
    OwnWithinTotal(referrers, dues, i);
  }

  lemma {:induction false} OwnWithinTotal(referrers: seq<ReferrerInput>, dues: seq<nat>, i: nat)
    requires |referrers| == |dues| && i < |referrers|
    ensures Own(referrers[i], dues[i]) <= OwnTotal(referrers, dues)
  {
    var n := |referrers| - 1;
    if i < n { OwnWithinTotal(referrers[..n], dues[..n], i); }
  }

  lemma DuesExist(referrers: seq<ReferrerInput>) returns (dues: seq<nat>, rates: seq<nat>)
    ensures AreDue(referrers, dues, rates)
  {
    dues := seq(|referrers|, i requires 0 <= i < |referrers| => DueOf(referrers[i]));
    rates := seq(|referrers|, i requires 0 <= i < |referrers| => RateBpsFor(|referrers[i].qualifiedReferralPrincipals|));
  }

  /** The due of one referrer. */
  function DueOf(input: ReferrerInput): (due: nat)
    ensures IsDue(input, due, RateBpsFor(|input.qualifiedReferralPrincipals|))
  {
    var n := Capped(input.qualifiedReferralPrincipals) * RateBpsFor(|input.qualifiedReferralPrincipals|);
    FloorBounds(n, 10_000);
    n / 10_000
  }

  /** Nothing is withheld: together the bonuses are everything earned if the room allows, and otherwise use the room up
      to less than one unit per referrer. */
  lemma ComputedUsesHeadroom(
      referrers: seq<ReferrerInput>, totalPrincipal: nat, capBps: nat, already: nat,
      dues: seq<nat>, rates: seq<nat>, room: nat)
    requires AreDue(referrers, dues, rates) && IsRoom(totalPrincipal, capBps, already, room)
    ensures var batch, total := ComputeBonuses(referrers, totalPrincipal, capBps, already), OwnTotal(referrers, dues);
            if total <= room then Total(batch) == total else room - |referrers| < Total(batch) <= room
  {
    hide PreScaled, Backed, Headroom, Scale, PreScaleBonus;
    AllTotal(referrers, dues, rates);
    RoomIs(totalPrincipal, capBps, already, room);
    AllNatural(referrers);
    AllKept(referrers);
    var preScaled := PreScaled(referrers);
    PreScaledOk(referrers);
    var sum := Total(preScaled);
    if sum > room {
      BackedNatural(preScaled, referrers);
      ScaledTotal(preScaled, room, sum);
      ScaledOk(preScaled, referrers, room, sum);
      ScaleLength(preScaled, room, sum);
      PositiveTotal(Scale(preScaled, room, sum));
      WithinUnits(Total(Scale(preScaled, room, sum)), room, sum, |preScaled|);
      CancelSum(Total(Scale(preScaled, room, sum)), room, sum);
    }
  }

  lemma AllKept(referrers: seq<ReferrerInput>)
    ensures Total(PreScaled(referrers)) == Total(All(referrers)) && |PreScaled(referrers)| <= |referrers|
  {
    hide PreScaleBonus;
    AllNatural(referrers);
    PositiveTotal(All(referrers));
    PositiveShorter(All(referrers));
  }

  lemma {:induction false} PositiveShorter(bonuses: seq<ReferrerBonus>)
    ensures |Positive(bonuses)| <= |bonuses|
  {
    if bonuses != [] { PositiveShorter(bonuses[..|bonuses| - 1]); }
  }

  lemma WithinUnits(a: int, cap: int, sum: int, n: nat)
    requires sum > 0 && n > 0 && sum * cap - n * (sum - 1) <= a * sum
    ensures cap - a < n
  {
    if cap - a >= n {
      MulLe(n, cap - a, sum);
    }
  }

  lemma NoBonuses(referrers: seq<ReferrerInput>)
    ensures Backed([], referrers) && OncePerReferrer([])
  {
  }

  lemma BackedNatural(bonuses: seq<ReferrerBonus>, referrers: seq<ReferrerInput>)
    requires Backed(bonuses, referrers)
    ensures forall j :: 0 <= j < |bonuses| ==> bonuses[j].amount >= 0
  {
  }

  lemma ScaleLength(bonuses: seq<ReferrerBonus>, cap: nat, sum: nat)
    requires sum > 0
    ensures |Scale(bonuses, cap, sum)| == |bonuses|
  {
  }

  lemma CancelSum(a: int, b: int, sum: int)
    requires sum > 0 && a * sum <= sum * b
    ensures a <= b
  {
    if a > b { MulLe(b + 1, a, sum); }
  }

  // ----- sending a batch -----

  /** A batch by referrer. */
  function Amounts(bonuses: seq<ReferrerBonus>): map<Key, int> {
    if bonuses == [] then map[]
    else
      var last := bonuses[|bonuses| - 1];
      Amounts(bonuses[..|bonuses| - 1])[last.referrer := last.amount]
  }

  lemma {:induction false} AmountsKeys(bonuses: seq<ReferrerBonus>, k: Key)
    ensures k in Amounts(bonuses) <==> exists j :: 0 <= j < |bonuses| && bonuses[j].referrer == k
  {
    if bonuses != [] {
      var n := |bonuses| - 1;
      AmountsKeys(bonuses[..n], k);
      if k in Amounts(bonuses[..n]) {
        var j :| 0 <= j < n && bonuses[..n][j].referrer == k;
        assert bonuses[j].referrer == k;
      } else if bonuses[n].referrer != k {
        assert forall j :: 0 <= j < n ==> bonuses[..n][j] == bonuses[j];
      }
    }
  }

  lemma {:induction false} AmountsTotal(bonuses: seq<ReferrerBonus>)
    requires OncePerReferrer(bonuses)
    ensures Sum(Amounts(bonuses), IDENTITY) == Total(bonuses)
  {
    if bonuses != [] {
      var n := |bonuses| - 1;
      AmountsTotal(bonuses[..n]);
      AmountsKeys(bonuses[..n], bonuses[n].referrer);
      SumSet(Amounts(bonuses[..n]), IDENTITY, bonuses[n].referrer, bonuses[n].amount);
    }
  }

  lemma {:induction false} AmountsAt(bonuses: seq<ReferrerBonus>, j: nat)
    requires OncePerReferrer(bonuses) && j < |bonuses|
    ensures bonuses[j].referrer in Amounts(bonuses) && Amounts(bonuses)[bonuses[j].referrer] == bonuses[j].amount
  {
    var n := |bonuses| - 1;
    if j < n { AmountsAt(bonuses[..n], j); }
  }

  lemma {:induction false} AmountsAre(bonuses: seq<ReferrerBonus>)
    requires OncePerReferrer(bonuses)
    ensures forall j :: 0 <= j < |bonuses| ==>
              bonuses[j].referrer in Amounts(bonuses) && Amounts(bonuses)[bonuses[j].referrer] == bonuses[j].amount
  {
    forall j | 0 <= j < |bonuses|
      ensures bonuses[j].referrer in Amounts(bonuses) && Amounts(bonuses)[bonuses[j].referrer] == bonuses[j].amount
    {
      AmountsAt(bonuses, j);
    }
  }

  /** Grants still to be sent fit into both caps. */
  ghost predicate Fits(s: State, due: map<Key, int>) {
    && (forall k :: k in due ==>
          && k in s.players && !s.players[k].isHouse && 0 < due[k]
          && GrantedIn(s.pool.currentEpochId)(s.players[k]) + due[k] <= s.players[k].principal)
    && PoolGranted(s.pool) + Sum(due, IDENTITY) <= C.PoolBonusCap(s.pool.totalPrincipal, s.pool.params.bonusCapBps)
  }

  /** One grant sent by the operator at some instant. */
  datatype Send = Send(referrer: Key, at: clock)

  const OPERATOR := Signer(false, true)

  function Arrive(s: State, at: clock): State { s.(now := Max(s.now, at)) }

  predicate CapError(r: Result<State>) {
    r == Err(DailyPlayerGrantCapExceeded) || r == Err(DailyPoolGrantCapExceeded)
  }

  /** No grant is refused for a cap, one after another; a grant refused for another reason changes nothing. */
  predicate NoneRefused(s: State, due: map<Key, int>, sends: seq<Send>)
    decreases |sends|
  {
    sends == [] ||
    (var k, at := sends[0].referrer, Arrive(s, sends[0].at);
     k in due && 0 <= due[k] <= U64_MAX
     && var r := C.GrantTickets(at, OPERATOR, k, due[k]);
        !CapError(r) && NoneRefused(if r.Ok? then r.value else at, due - {k}, sends[1..]))
  }

  /** A grant that fits is not refused for a cap, and moves only its own counter and the pool's. */
  lemma GrantFits(s: State, k: Key, amount: u64)
    requires k in s.players && !s.players[k].isHouse && 0 < amount
    requires GrantedIn(s.pool.currentEpochId)(s.players[k]) + amount <= s.players[k].principal
    requires PoolGranted(s.pool) + amount <= C.PoolBonusCap(s.pool.totalPrincipal, s.pool.params.bonusCapBps)
    ensures var r := C.GrantTickets(s, OPERATOR, k, amount);
            && !CapError(r)
            && (r.Ok? ==>
                  && PoolGranted(r.value.pool) == PoolGranted(s.pool) + amount
                  && r.value.pool.currentEpochId == s.pool.currentEpochId
                  && r.value.pool.totalPrincipal == s.pool.totalPrincipal && r.value.pool.params == s.pool.params
                  && k in r.value.players && r.value.players == s.players[k := r.value.players[k]])
  {
    hide Touch, C.PoolBonusCap;
    TouchFails(s.players[k], s.pool, s.now);
    if Touch(s.players[k], s.pool, s.now).Ok? { TouchKeeps(s.players[k], s.pool, s.now); }
  }

  lemma FitsAfter(s: State, t: State, due: map<Key, int>, k: Key)
    requires Fits(s, due) && k in due && PoolGranted(t.pool) <= PoolGranted(s.pool) + due[k]
    requires t.pool.currentEpochId == s.pool.currentEpochId
    requires t.pool.totalPrincipal == s.pool.totalPrincipal && t.pool.params == s.pool.params
    requires k in t.players && t.players == s.players[k := t.players[k]]
    ensures Fits(t, due - {k})
  {
    hide C.PoolBonusCap;
    SumPick(due, IDENTITY, k);
  }

  lemma {:induction false} FittingNeverRefused(s: State, due: map<Key, int>, sends: seq<Send>)
    requires Fits(s, due)
    requires forall j :: 0 <= j < |sends| ==> sends[j].referrer in due
    requires forall i, j :: 0 <= i < j < |sends| ==> sends[i].referrer != sends[j].referrer
    ensures NoneRefused(s, due, sends)
    decreases |sends|
  {
    hide C.GrantTickets, Fits;
    if sends != [] {
      var k, at := sends[0].referrer, Arrive(s, sends[0].at);
      FitsMember(s, due, k);
      ArriveFits(s, sends[0].at, due);
      GrantFits(at, k, due[k]);
      var r := C.GrantTickets(at, OPERATOR, k, due[k]);
      var t := if r.Ok? then r.value else at;
      FitsAfter(at, t, due, k);
      FittingNeverRefused(t, due - {k}, sends[1..]);
    }
  }

  lemma ArriveFits(s: State, at: clock, due: map<Key, int>)
    requires Fits(s, due)
    ensures Fits(Arrive(s, at), due)
  {
  }

  lemma FitsMember(s: State, due: map<Key, int>, k: Key)
    requires Fits(s, due) && k in due
    ensures k in s.players && !s.players[k].isHouse && 0 < due[k] <= U64_MAX
    ensures GrantedIn(s.pool.currentEpochId)(s.players[k]) + due[k] <= s.players[k].principal
    ensures PoolGranted(s.pool) + due[k] <= C.PoolBonusCap(s.pool.totalPrincipal, s.pool.params.bonusCapBps)
  {
    hide C.PoolBonusCap;
    SumMember(due, IDENTITY, k);
  }

  /** The inputs describe the pool: players that are not the House, each with its own counter. */
  ghost predicate Describes(referrers: seq<ReferrerInput>, s: State) {
    && DistinctReferrers(referrers)
    && forall i :: 0 <= i < |referrers| ==>
         && referrers[i].referrer in s.players && referrers[i].referrer != s.pool.house
         && referrers[i].principal == s.players[referrers[i].referrer].principal
         && referrers[i].alreadyGrantedToday == GrantedIn(s.pool.currentEpochId)(s.players[referrers[i].referrer])
  }

  lemma {:induction false} BatchFits(s: State, referrers: seq<ReferrerInput>, batch: seq<ReferrerBonus>, already: nat)
    requires PlayersOk(s) && Describes(referrers, s) && Backed(batch, referrers) && OncePerReferrer(batch) && batch != []
    requires already == PoolGranted(s.pool)
    requires Total(batch) <= Headroom(s.pool.totalPrincipal, s.pool.params.bonusCapBps, already)
    ensures Fits(s, Amounts(batch))
  {
    AmountsTotal(batch);
    var due := Amounts(batch);
    forall k | k in due
      ensures k in s.players && !s.players[k].isHouse && 0 < due[k]
      ensures GrantedIn(s.pool.currentEpochId)(s.players[k]) + due[k] <= s.players[k].principal
    {
      AmountsKeys(batch, k);
      var j :| 0 <= j < |batch| && batch[j].referrer == k;
      AmountsAt(batch, j);
      var i :| 0 <= i < |referrers| && Backs(batch[j], referrers[i]);
      assert PlayerOk(k, s.players[k], s.pool, s.now);
    }
    AmountsAt(batch, 0);
    SumMember(due, IDENTITY, batch[0].referrer);
  }

  /** Computed bonuses are always accepted: for any reachable pool, any inputs that describe it, and the grants so
      far as the players' counters add up to, the batch can be sent whole or in part, in any order and at any
      pace within the epoch, and no cap refuses any of it. */
  lemma {:induction false} ComputedBonusesAccepted(w: World, referrers: seq<ReferrerInput>, already: nat, sends: seq<Send>)
    requires Reachable(w) && Describes(referrers, w.s)
    requires already == Sum(w.s.players, GrantedIn(w.s.pool.currentEpochId))
    requires var batch := ComputeBonuses(referrers, w.s.pool.totalPrincipal, w.s.pool.params.bonusCapBps, already);
             forall j :: 0 <= j < |sends| ==> sends[j].referrer in Amounts(batch)
    requires forall i, j :: 0 <= i < j < |sends| ==> sends[i].referrer != sends[j].referrer
    ensures var batch := ComputeBonuses(referrers, w.s.pool.totalPrincipal, w.s.pool.params.bonusCapBps, already);
            && NoneRefused(w.s, Amounts(batch), sends)
            && forall j :: 0 <= j < |batch| ==>
                 batch[j].referrer in Amounts(batch) && Amounts(batch)[batch[j].referrer] == batch[j].amount
  {
    hide Reachable, EpochsOk, BooksOk, ReserveOk, MetersOk, DrawsOk, YieldOk, GamesOk, PlayersOk, Backed, Fits, NoneRefused,
      ComputeBonuses, Total, Headroom;
    ReachableInv(w);
    var s := w.s;
    var batch := ComputeBonuses(referrers, s.pool.totalPrincipal, s.pool.params.bonusCapBps, already);
    ComputedWithinCaps(referrers, s.pool.totalPrincipal, s.pool.params.bonusCapBps, already);
    AmountsAre(batch);
    if batch != [] {
      BatchFits(s, referrers, batch, already);
      FittingNeverRefused(s, Amounts(batch), sends);
    } else {
      NothingSent(s, Amounts(batch), sends);
    }
  }

  lemma {:induction false} NothingSent(s: State, due: map<Key, int>, sends: seq<Send>)
    requires due == map[] && forall j :: 0 <= j < |sends| ==> sends[j].referrer in due
    ensures NoneRefused(s, due, sends)
  {
  }
}
