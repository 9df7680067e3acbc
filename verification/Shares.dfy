/** The largest-remainder split of a grant (`splitShares` in referral-bonus.ts). */
module Shares {
  import opened Machine
  import opened Sums

  /** Referees compare like their addresses. */
  type Referee = nat

  datatype ShareWeight = ShareWeight(referee: Referee, weight: nat)

  datatype RefereeShare = RefereeShare(referee: Referee, amount: int)

  datatype Floor = Floor(referee: Referee, amount: int, remainder: int)

  function TotalWeight(weights: seq<ShareWeight>): nat {
    if weights == [] then 0 else TotalWeight(weights[..|weights| - 1]) + weights[|weights| - 1].weight
  }

  function TotalShare(shares: seq<RefereeShare>): int {
    if shares == [] then 0 else TotalShare(shares[..|shares| - 1]) + shares[|shares| - 1].amount
  }

  function FloorOf(grant: nat, w: ShareWeight, total: nat): Floor
    requires total > 0
  {
    Floor(w.referee, grant * w.weight / total, grant * w.weight % total)
  }

  function Floors(grant: nat, weights: seq<ShareWeight>, total: nat): seq<Floor>
    requires total > 0
  {
    seq(|weights|, i requires 0 <= i < |weights| => FloorOf(grant, weights[i], total))
  }

  function FloorSum(floors: seq<Floor>): int {
    if floors == [] then 0 else FloorSum(floors[..|floors| - 1]) + floors[|floors| - 1].amount
  }

  /** The order of the extra units: the larger remainder first, then the smaller referee. */
  predicate Earlier(a: Floor, b: Floor) {
    a.remainder > b.remainder || (a.remainder == b.remainder && a.referee < b.referee)
  }

  function Insert(f: Floor, sorted: seq<Floor>): seq<Floor> {
    if sorted == [] then [f]
    else
      var n := |sorted| - 1;
      if Earlier(f, sorted[n]) then Insert(f, sorted[..n]) + [sorted[n]] else sorted + [f]
  }

  function Sort(floors: seq<Floor>): seq<Floor> {
    if floors == [] then [] else Insert(floors[|floors| - 1], Sort(floors[..|floors| - 1]))
  }

  predicate Ordered(s: seq<Floor>) { forall i, j :: 0 <= i < j < |s| ==> !Earlier(s[j], s[i]) }

  predicate DistinctFloors(s: seq<Floor>) { forall i, j :: 0 <= i < j < |s| ==> s[i].referee != s[j].referee }

  predicate Distinct(weights: seq<ShareWeight>) {
    forall i, j :: 0 <= i < j < |weights| ==> weights[i].referee != weights[j].referee
  }

  /** The split: exact, each share the floor or one more, no extra without a remainder, and extras go strictly in
      order. */
  ghost predicate Apportioned(grant: nat, weights: seq<ShareWeight>, shares: seq<RefereeShare>) {
    var total := TotalWeight(weights);
    && total > 0 && |shares| == |weights| && TotalShare(shares) == grant
    && (forall i :: 0 <= i < |weights| ==> Rounded(FloorOf(grant, weights[i], total), shares[i]))
    && (forall i, j :: 0 <= i < |weights| && 0 <= j < |weights| ==>
          InTurn(FloorOf(grant, weights[i], total), shares[i], FloorOf(grant, weights[j], total), shares[j]))
  }

  predicate Rounded(f: Floor, share: RefereeShare) {
    && share.referee == f.referee && f.amount <= share.amount <= f.amount + 1
    && (f.remainder == 0 ==> share.amount == f.amount)
  }

  /** Nobody gets an extra unit before somebody who comes earlier. */
  predicate InTurn(f: Floor, a: RefereeShare, g: Floor, b: RefereeShare) {
    Earlier(f, g) && b.amount > g.amount ==> a.amount > f.amount
  }

  // ----- sorting -----

  lemma {:induction false} InsertKeeps(f: Floor, sorted: seq<Floor>)
    ensures multiset(Insert(f, sorted)) == multiset(sorted) + multiset{f}
  {
    if sorted != [] {
      var n := |sorted| - 1;
      assert sorted == sorted[..n] + [sorted[n]];
      InsertKeeps(f, sorted[..n]);
    }
  }

  lemma {:induction false} InsertMember(f: Floor, sorted: seq<Floor>, x: Floor)
    requires x in Insert(f, sorted)
    ensures x == f || x in sorted
  {
    InsertKeeps(f, sorted);
    assert x in multiset(Insert(f, sorted));
  }

  lemma {:induction false} InsertOrdered(f: Floor, sorted: seq<Floor>)
    requires Ordered(sorted)
    ensures Ordered(Insert(f, sorted))
  {
    if sorted != [] {
      var n := |sorted| - 1;
      if Earlier(f, sorted[n]) {
        var r := Insert(f, sorted[..n]);
        InsertOrdered(f, sorted[..n]);
        forall i | 0 <= i < |r|
          ensures !Earlier(sorted[n], r[i])
        {
          InsertMember(f, sorted[..n], r[i]);
        }
      }
    }
  }

  lemma {:induction false} SortKeeps(floors: seq<Floor>)
    ensures multiset(Sort(floors)) == multiset(floors) && Ordered(Sort(floors))
  {
    if floors != [] {
      var n := |floors| - 1;
      assert floors == floors[..n] + [floors[n]];
      SortKeeps(floors[..n]);
      InsertKeeps(floors[n], Sort(floors[..n]));
      InsertOrdered(floors[n], Sort(floors[..n]));
    }
  }

  lemma {:induction false} InsertDistinct(f: Floor, sorted: seq<Floor>)
    requires DistinctFloors(sorted) && forall i :: 0 <= i < |sorted| ==> sorted[i].referee != f.referee
    ensures DistinctFloors(Insert(f, sorted))
  {
    if sorted != [] {
      var n := |sorted| - 1;
      if Earlier(f, sorted[n]) {
        var r := Insert(f, sorted[..n]);
        InsertDistinct(f, sorted[..n]);
        forall i | 0 <= i < |r|
          ensures r[i].referee != sorted[n].referee
        {
          InsertMember(f, sorted[..n], r[i]);
        }
      }
    }
  }

  lemma {:induction false} SortMembers(floors: seq<Floor>)
    ensures |Sort(floors)| == |floors|
    ensures forall f :: f in Sort(floors) <==> f in floors
  {
    SortKeeps(floors);
    assert |multiset(Sort(floors))| == |multiset(floors)|;
    forall f
      ensures f in Sort(floors) <==> f in floors
    {
      assert f in multiset(Sort(floors)) <==> f in multiset(floors);
    }
  }

  lemma {:induction false} SortDistinct(floors: seq<Floor>)
    requires DistinctFloors(floors)
    ensures DistinctFloors(Sort(floors))
  {
    if floors != [] {
      var n := |floors| - 1;
      SortDistinct(floors[..n]);
      SortMembers(floors[..n]);
      forall i | 0 <= i < n
        ensures Sort(floors[..n])[i].referee != floors[n].referee
      {
        assert Sort(floors[..n])[i] in floors[..n];
      }
      InsertDistinct(floors[n], Sort(floors[..n]));
    }
  }

  /** How many floors have a remainder. */
  function Broken(floors: seq<Floor>): nat {
    if floors == [] then 0
    else Broken(floors[..|floors| - 1]) + if floors[|floors| - 1].remainder > 0 then 1 else 0
  }

  lemma {:induction false} InsertBroken(f: Floor, sorted: seq<Floor>)
    ensures Broken(Insert(f, sorted)) == Broken(sorted) + if f.remainder > 0 then 1 else 0
  {
    if sorted == [] {
      assert [f][..0] == [];
    } else {
      var n := |sorted| - 1;
      if Earlier(f, sorted[n]) {
        InsertBroken(f, sorted[..n]);
        var r := Insert(f, sorted[..n]);
        assert (r + [sorted[n]])[..|r|] == r;
      } else {
        assert (sorted + [f])[..|sorted|] == sorted;
      }
    }
  }

  lemma {:induction false} SortBroken(floors: seq<Floor>)
    ensures Broken(Sort(floors)) == Broken(floors)
  {
    if floors != [] {
      var n := |floors| - 1;
      SortBroken(floors[..n]);
      InsertBroken(floors[n], Sort(floors[..n]));
    }
  }

  /** In order, everything after a zero remainder is zero. */
  lemma {:induction false} BrokenFirst(s: seq<Floor>, j: nat)
    requires Ordered(s) && j < |s| && s[j].remainder <= 0
    ensures Broken(s) <= j
  {
    var n := |s| - 1;
    if j < n {
      assert !Earlier(s[n], s[j]);
      BrokenFirst(s[..n], j);
    } else {
      BrokenAtMost(s[..n]);
    }
  }

  lemma {:induction false} BrokenAtMost(s: seq<Floor>)
    ensures Broken(s) <= |s|
  {
    if s != [] { BrokenAtMost(s[..|s| - 1]); }
  }

  // ----- the leftover -----

  /** The floors leave between 0 and as many units over as there are remainders. */
  lemma {:induction false} FloorsLeave(grant: nat, weights: seq<ShareWeight>, total: nat)
    requires total > 0
    ensures var floors := Floors(grant, weights, total);
            FloorSum(floors) * total <= grant * TotalWeight(weights)
            <= FloorSum(floors) * total + Broken(floors) * (total - 1)
  {
    var floors := Floors(grant, weights, total);
    if weights != [] {
      var n := |weights| - 1;
      assert floors[..n] == Floors(grant, weights[..n], total);
      FloorsLeave(grant, weights[..n], total);
      OneFloor(grant, weights[n].weight, total);
      var b := if floors[n].remainder > 0 then 1 else 0;
      LeaveAdds(grant, TotalWeight(weights[..n]), weights[n].weight, FloorSum(floors[..n]), floors[n].amount, total,
                Broken(floors[..n]), b);
    }
  }

  lemma OneFloor(grant: nat, weight: nat, total: nat)
    requires total > 0
    ensures var q, r := grant * weight / total, grant * weight % total;
            q * total <= grant * weight <= q * total + (if r > 0 then 1 else 0) * (total - 1)
    ensures grant * weight / total >= 0
  {
    var n := grant * weight;
    assert n == n / total * total + n % total;
  }

  lemma LeaveAdds(grant: int, w: int, v: int, f: int, q: int, total: int, b: int, c: int)
    requires f * total <= grant * w <= f * total + b * (total - 1)
    requires q * total <= grant * v <= q * total + c * (total - 1)
    ensures (f + q) * total <= grant * (w + v) <= (f + q) * total + (b + c) * (total - 1)
  {
    assert (f + q) * total == f * total + q * total && grant * (w + v) == grant * w + grant * v;
    assert (b + c) * (total - 1) == b * (total - 1) + c * (total - 1);
  }

  lemma {:induction false} LeftoverBounds(grant: nat, weights: seq<ShareWeight>)
    requires TotalWeight(weights) > 0
    ensures var floors := Floors(grant, weights, TotalWeight(weights));
            0 <= grant - FloorSum(floors) <= Broken(floors)
  {
    var total := TotalWeight(weights);
    var floors := Floors(grant, weights, total);
    FloorsLeave(grant, weights, total);
    LeftoverArith(grant, FloorSum(floors), Broken(floors), total);
  }

  lemma LeftoverArith(grant: int, sum: int, b: nat, total: int)
    requires total > 0 && sum * total <= grant * total <= sum * total + b * (total - 1)
    ensures 0 <= grant - sum <= b
  {
    if sum > grant { MulLe(grant + 1, sum, total); }
    if grant - sum > b { MulLe(b + 1, grant - sum, total); }
  }

  // ----- the map of amounts -----

  function AmountsOf(floors: seq<Floor>): map<Referee, int> {
    if floors == [] then map[]
    else AmountsOf(floors[..|floors| - 1])[floors[|floors| - 1].referee := floors[|floors| - 1].amount]
  }

  lemma {:induction false} AmountsKeys(floors: seq<Floor>, r: Referee)
    ensures r in AmountsOf(floors) <==> exists i :: 0 <= i < |floors| && floors[i].referee == r
  {
    if floors != [] {
      var n := |floors| - 1;
      AmountsKeys(floors[..n], r);
      if r in AmountsOf(floors[..n]) {
        var i :| 0 <= i < n && floors[..n][i].referee == r;
        assert floors[i].referee == r;
      } else if floors[n].referee != r {
        assert forall i :: 0 <= i < n ==> floors[..n][i] == floors[i];
      }
    }
  }

  lemma {:induction false} AmountsSum(floors: seq<Floor>)
    requires DistinctFloors(floors)
    ensures Sum(AmountsOf(floors), IDENTITY) == FloorSum(floors)
  {
    if floors != [] {
      var n := |floors| - 1;
      AmountsSum(floors[..n]);
      AmountsKeys(floors[..n], floors[n].referee);
      SumSet(AmountsOf(floors[..n]), IDENTITY, floors[n].referee, floors[n].amount);
    }
  }

  lemma {:induction false} AmountsAt(floors: seq<Floor>, i: nat)
    requires DistinctFloors(floors) && i < |floors|
    ensures floors[i].referee in AmountsOf(floors) && AmountsOf(floors)[floors[i].referee] == floors[i].amount
  {
    var n := |floors| - 1;
    if i < n { AmountsAt(floors[..n], i); }
  }

  /** Reading every referee's amount adds up to the whole map. */
  lemma {:induction false} SharesSum(shares: seq<RefereeShare>, amounts: map<Referee, int>)
    requires forall i :: 0 <= i < |shares| ==>
               shares[i].referee in amounts && shares[i].amount == amounts[shares[i].referee]
    requires forall i, j :: 0 <= i < j < |shares| ==> shares[i].referee != shares[j].referee
    requires forall r :: r in amounts ==> exists i :: 0 <= i < |shares| && shares[i].referee == r
    ensures TotalShare(shares) == Sum(amounts, IDENTITY)
  {
    if shares == [] {
      assert amounts == map[];
    } else {
      var n := |shares| - 1;
      var last := shares[n];
      SumPick(amounts, IDENTITY, last.referee);
      forall r | r in amounts - {last.referee}
        ensures exists i :: 0 <= i < n && shares[..n][i].referee == r
      {
        var i :| 0 <= i < |shares| && shares[i].referee == r;
        assert shares[..n][i].referee == r;
      }
      SharesSum(shares[..n], amounts - {last.referee});
    }
  }

  /** After `n` extras, in order: the first `n` floors have one more, the others are as they were. */
  ghost predicate Extras(amounts: map<Referee, int>, sorted: seq<Floor>, n: nat) {
    forall j :: 0 <= j < |sorted| ==>
      sorted[j].referee in amounts && amounts[sorted[j].referee] == sorted[j].amount + if j < n then 1 else 0
  }

  lemma NextExtra(amounts: map<Referee, int>, sorted: seq<Floor>, n: nat)
    requires DistinctFloors(sorted) && n < |sorted| && Extras(amounts, sorted, n)
    ensures var next := amounts[sorted[n].referee := amounts[sorted[n].referee] + 1];
            Extras(next, sorted, n + 1) && Sum(next, IDENTITY) == Sum(amounts, IDENTITY) + 1 && next.Keys == amounts.Keys
  {
    SumSet(amounts, IDENTITY, sorted[n].referee, amounts[sorted[n].referee] + 1);
  }

  lemma FloorsDistinct(grant: nat, weights: seq<ShareWeight>, total: nat)
    requires total > 0 && Distinct(weights)
    ensures DistinctFloors(Floors(grant, weights, total))
  {
  }

  lemma {:induction false} StartsWithFloors(floors: seq<Floor>)
    requires DistinctFloors(floors)
    ensures DistinctFloors(Sort(floors)) && Extras(AmountsOf(floors), Sort(floors), 0)
    ensures Sum(AmountsOf(floors), IDENTITY) == FloorSum(floors)
  {
    SortDistinct(floors);
    SortMembers(floors);
    AmountsSum(floors);
    forall j | 0 <= j < |Sort(floors)|
      ensures Sort(floors)[j].referee in AmountsOf(floors)
              && AmountsOf(floors)[Sort(floors)[j].referee] == Sort(floors)[j].amount
    {
      assert Sort(floors)[j] in floors;
      var i :| 0 <= i < |floors| && floors[i] == Sort(floors)[j];
      AmountsAt(floors, i);
    }
  }

  /** Where floor `f` stands in the order. */
  lemma Rank(floors: seq<Floor>, i: nat) returns (j: nat)
    requires i < |floors|
    ensures j < |Sort(floors)| && Sort(floors)[j] == floors[i]
  {
    SortMembers(floors);
    assert floors[i] in Sort(floors);
    j :| 0 <= j < |Sort(floors)| && Sort(floors)[j] == floors[i];
  }

  lemma {:induction false} OneRounded(floors: seq<Floor>, amounts: map<Referee, int>, n: nat, i: nat)
    requires Extras(amounts, Sort(floors), n) && n <= Broken(floors) && i < |floors| && floors[i].remainder >= 0
    ensures floors[i].referee in amounts
    ensures Rounded(floors[i], RefereeShare(floors[i].referee, amounts[floors[i].referee]))
  {
    var j := Rank(floors, i);
    SortKeeps(floors);
    SortBroken(floors);
    if floors[i].remainder == 0 { BrokenFirst(Sort(floors), j); }
  }

  lemma {:induction false} TwoInTurn(floors: seq<Floor>, amounts: map<Referee, int>, n: nat, i: nat, k: nat)
    requires Extras(amounts, Sort(floors), n) && i < |floors| && k < |floors|
    requires floors[i].referee in amounts && floors[k].referee in amounts
    ensures InTurn(floors[i], RefereeShare(floors[i].referee, amounts[floors[i].referee]),
                   floors[k], RefereeShare(floors[k].referee, amounts[floors[k].referee]))
  {
    var j := Rank(floors, i);
    var m := Rank(floors, k);
    SortKeeps(floors);
    if Earlier(floors[i], floors[k]) { assert !(m < j); }
  }

  /** The final amounts, read back in the order of the weights, are the split. */
  lemma {:induction false} ReadBack(
      grant: nat, weights: seq<ShareWeight>, amounts: map<Referee, int>, shares: seq<RefereeShare>)
    requires TotalWeight(weights) > 0 && Distinct(weights) && |shares| == |weights|
    requires var floors := Floors(grant, weights, TotalWeight(weights));
             && amounts.Keys == AmountsOf(floors).Keys && Sum(amounts, IDENTITY) == grant
             && grant - FloorSum(floors) >= 0 && Extras(amounts, Sort(floors), grant - FloorSum(floors))
    requires forall i :: 0 <= i < |shares| ==>
               shares[i] == RefereeShare(weights[i].referee,
                                         if weights[i].referee in amounts then amounts[weights[i].referee] else 0)
    ensures Apportioned(grant, weights, shares)
  {
    hide Extras, Rounded, InTurn, Earlier, Distinct, Sort;
    var total := TotalWeight(weights);
    var floors := Floors(grant, weights, total);
    LeftoverBounds(grant, weights);
    forall i | 0 <= i < |weights|
      ensures weights[i].referee in amounts && Rounded(FloorOf(grant, weights[i], total), shares[i])
    {
      assert floors[i] == FloorOf(grant, weights[i], total);
      OneRounded(floors, amounts, grant - FloorSum(floors), i);
    }
    forall i, j | 0 <= i < |weights| && 0 <= j < |weights|
      ensures InTurn(FloorOf(grant, weights[i], total), shares[i], FloorOf(grant, weights[j], total), shares[j])
    {
      assert floors[i] == FloorOf(grant, weights[i], total) && floors[j] == FloorOf(grant, weights[j], total);
      TwoInTurn(floors, amounts, grant - FloorSum(floors), i, j);
    }
    ReadsAll(weights, floors, amounts, shares);
    SharesSum(shares, amounts);
  }

  lemma {:induction false} ReadsAll(
      weights: seq<ShareWeight>, floors: seq<Floor>, amounts: map<Referee, int>, shares: seq<RefereeShare>)
    requires |shares| == |weights| == |floors| && Distinct(weights) && amounts.Keys == AmountsOf(floors).Keys
    requires forall i :: 0 <= i < |weights| ==> weights[i].referee == shares[i].referee == floors[i].referee
    ensures forall i, j :: 0 <= i < j < |shares| ==> shares[i].referee != shares[j].referee
    ensures forall r :: r in amounts ==> exists i :: 0 <= i < |shares| && shares[i].referee == r
  {
    forall r | r in amounts
      ensures exists i :: 0 <= i < |shares| && shares[i].referee == r
    {
      AmountsKeys(floors, r);
      var i :| 0 <= i < |floors| && floors[i].referee == r;
      assert shares[i].referee == r;
    }
  }

  /** `splitShares`: floors first, then one extra unit each in order of the remainders until none is left. */
  method SplitShares(grantAmount: int, weights: seq<ShareWeight>) returns (shares: seq<RefereeShare>)
    ensures |shares| == |weights|
    ensures forall i :: 0 <= i < |weights| ==> shares[i].referee == weights[i].referee
    ensures grantAmount <= 0 || TotalWeight(weights) == 0 ==> forall i :: 0 <= i < |shares| ==> shares[i].amount == 0
    ensures grantAmount > 0 && TotalWeight(weights) > 0 && Distinct(weights) ==> Apportioned(grantAmount, weights, shares)
  {
    hide Extras, Apportioned, Sort, DistinctFloors, Distinct, Earlier;
    var totalWeight := TotalWeight(weights);
    if grantAmount <= 0 || totalWeight <= 0 {
      return seq(|weights|, i requires 0 <= i < |weights| => RefereeShare(weights[i].referee, 0));
    }
    var floors := Floors(grantAmount, weights, totalWeight);
    var leftover := grantAmount - FloorSum(floors);
    var byLargestRemainder := Sort(floors);
    var amounts := AmountsOf(floors);
    if Distinct(weights) {
      FloorsDistinct(grantAmount, weights, totalWeight);
      StartsWithFloors(floors);
    }
    LeftoverBounds(grantAmount, weights);
    BrokenAtMost(floors);
    SortMembers(floors);
    var n := 0;
    while n < |byLargestRemainder| && leftover > 0
      invariant 0 <= n <= |byLargestRemainder| && 0 <= leftover == grantAmount - FloorSum(floors) - n
      invariant Distinct(weights) ==>
                  && Extras(amounts, byLargestRemainder, n) && amounts.Keys == AmountsOf(floors).Keys
                  && Sum(amounts, IDENTITY) == FloorSum(floors) + n
    {
      var f := byLargestRemainder[n];
      if Distinct(weights) { NextExtra(amounts, byLargestRemainder, n); }
      amounts := amounts[f.referee := (if f.referee in amounts then amounts[f.referee] else 0) + 1];
      leftover := leftover - 1;
      n := n + 1;
    }
    shares := seq(|weights|, i requires 0 <= i < |weights| =>
      RefereeShare(weights[i].referee, if weights[i].referee in amounts then amounts[weights[i].referee] else 0));
    if Distinct(weights) { ReadBack(grantAmount, weights, amounts, shares); }
  }

  // ----- what the split promises -----

  /** A strictly larger weight never gets a smaller share. */
  lemma LargerWeightNeverLess(grant: nat, weights: seq<ShareWeight>, shares: seq<RefereeShare>, i: nat, j: nat)
    requires grant > 0 && Apportioned(grant, weights, shares) && i < |weights| && j < |weights|
    requires weights[i].weight > weights[j].weight
    ensures shares[i].amount >= shares[j].amount
  {
    var total := TotalWeight(weights);
    var f, g := FloorOf(grant, weights[i], total), FloorOf(grant, weights[j], total);
    FloorOrder(grant, weights[i].weight, weights[j].weight, total);
    assert Rounded(f, shares[i]) && Rounded(g, shares[j]) && InTurn(f, shares[i], g, shares[j]);
  }

  lemma FloorOrder(grant: nat, a: nat, b: nat, total: nat)
    requires grant > 0 && a > b && total > 0
    ensures var q, r, p, s := grant * a / total, grant * a % total, grant * b / total, grant * b % total;
            q > p || (q == p && r > s)
  {
    var q, r, p, s := grant * a / total, grant * a % total, grant * b / total, grant * b % total;
    assert grant * a == q * total + r && grant * b == p * total + s;
    assert grant * (a - b) > 0 && grant * (a - b) == grant * a - grant * b;
    if q < p { MulLe(q + 1, p, total); }
  }

  lemma {:induction false} TotalShareLess(a: seq<RefereeShare>, b: seq<RefereeShare>, i: nat)
    requires |a| == |b| && i < |a| && a[i].amount < b[i].amount
    requires forall j :: 0 <= j < |a| ==> a[j].amount <= b[j].amount
    ensures TotalShare(a) < TotalShare(b)
  {
    var n := |a| - 1;
    if i < n { TotalShareLess(a[..n], b[..n], i); } else { TotalShareLe(a[..n], b[..n]); }
  }

  lemma {:induction false} TotalShareLe(a: seq<RefereeShare>, b: seq<RefereeShare>)
    requires |a| == |b| && forall j :: 0 <= j < |a| ==> a[j].amount <= b[j].amount
    ensures TotalShare(a) <= TotalShare(b)
  {
    if a != [] { TotalShareLe(a[..|a| - 1], b[..|b| - 1]); }
  }

  /** Two splits cannot differ in both directions: the extras are handed out in one order. */
  lemma NotBothWays(grant: nat, weights: seq<ShareWeight>, a: seq<RefereeShare>, b: seq<RefereeShare>, i: nat, j: nat)
    requires Distinct(weights) && Apportioned(grant, weights, a) && Apportioned(grant, weights, b)
    requires i < |weights| && j < |weights|
    ensures a[i].amount >= b[i].amount || a[j].amount <= b[j].amount
  {
    var total := TotalWeight(weights);
    var f, g := FloorOf(grant, weights[i], total), FloorOf(grant, weights[j], total);
    assert Rounded(f, a[i]) && Rounded(f, b[i]) && Rounded(g, a[j]) && Rounded(g, b[j]);
    assert InTurn(f, a[i], g, a[j]) && InTurn(g, b[j], f, b[i]);
    if i != j { assert Earlier(f, g) || Earlier(g, f); }
  }

  lemma NotMore(grant: nat, weights: seq<ShareWeight>, a: seq<RefereeShare>, b: seq<RefereeShare>, i: nat)
    requires Distinct(weights) && Apportioned(grant, weights, a) && Apportioned(grant, weights, b) && i < |weights|
    ensures a[i].amount >= b[i].amount
  {
    forall j | 0 <= j < |weights|
      ensures a[i].amount >= b[i].amount || a[j].amount <= b[j].amount
    {
      NotBothWays(grant, weights, a, b, i, j);
    }
    if a[i].amount < b[i].amount { TotalShareLess(a, b, i); }
  }

  /** Those promises leave only one split. */
  lemma SplitIsUnique(grant: nat, weights: seq<ShareWeight>, a: seq<RefereeShare>, b: seq<RefereeShare>)
    requires Distinct(weights) && Apportioned(grant, weights, a) && Apportioned(grant, weights, b)
    ensures a == b
  {
    var total := TotalWeight(weights);
    forall i | 0 <= i < |weights|
      ensures a[i] == b[i]
    {
      NotMore(grant, weights, a, b, i);
      NotMore(grant, weights, b, a, i);
      assert Rounded(FloorOf(grant, weights[i], total), a[i]) && Rounded(FloorOf(grant, weights[i], total), b[i]);
    }
  }
}
