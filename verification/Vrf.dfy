/** The random mapping (vrf.rs): rejection sampling with a rehash per try. */
module Vrf {
  import opened Machine
  import opened Ledger

  /** The sample at one counter value, read at the width of `max`: the low bytes of the same randomness. */
  function SampleAt(samples: Samples, max: nat, c: nat): nat
    requires c < TRIES
  {
    samples[c] % (max + 1)
  }

  /** Samples at or above this are rejected: the last whole multiple of the range. */
  function Limit(max: nat, range: nat): nat
    requires range > 0
  {
    max - max % range
  }

  function FirstAccepted(samples: Samples, max: nat, limit: nat, c: nat): Result<nat>
    requires c <= TRIES
    decreases TRIES - c
  {
    if c == TRIES then Err(RandomnessRejection)
    else if SampleAt(samples, max, c) < limit then Ok(SampleAt(samples, max, c))
    else FirstAccepted(samples, max, limit, c + 1)
  }

  function Unbiased(samples: Samples, max: nat, range: nat): Result<nat> {
    if range == 0 then Err(RandomnessRejection)
    else
      var x :- FirstAccepted(samples, max, Limit(max, range), 0);
      Ok(x % range)
  }

  /** The first sample that is not rejected is the one at `i`. */
  predicate Accepts(samples: Samples, max: nat, range: nat, i: nat)
    requires range > 0
  {
    && i < TRIES && SampleAt(samples, max, i) < Limit(max, range)
    && forall j :: 0 <= j < i ==> Limit(max, range) <= SampleAt(samples, max, j)
  }

  function Whole(q: int, range: nat): int { q * range }

  /** The program's loop: an 8-bit counter that aborts when it would wrap. */
  method DrawBelow(samples: Samples, max: nat, range: nat) returns (r: Result<nat>)
    ensures r == Unbiased(samples, max, range)
    ensures range > 0 && r.Ok? ==>
              exists i: nat, q: int ::
                Accepts(samples, max, range, i) && SampleAt(samples, max, i) == Whole(q, range) + r.value
  {
    hide Whole;
    if range == 0 {
      return Err(RandomnessRejection);
    }
    var limit := max - max % range;
    var counter := 0;
    while true
      invariant 0 <= counter < TRIES
      invariant FirstAccepted(samples, max, limit, 0) == FirstAccepted(samples, max, limit, counter)
      invariant forall j :: 0 <= j < counter ==> limit <= SampleAt(samples, max, j)
      decreases TRIES - counter
    {
      var sample := samples[counter] % (max + 1);
      if sample < limit {
        assert Accepts(samples, max, range, counter);
        WholeAndRest(sample, range);
        return Ok(sample % range);
      }
      if counter == TRIES - 1 {
        assert FirstAccepted(samples, max, limit, counter) == FirstAccepted(samples, max, limit, TRIES);
        return Err(RandomnessRejection);
      }
      counter := counter + 1;
    }
  }

  lemma {:induction false} FirstAcceptedIsFirst(samples: Samples, max: nat, limit: nat, c: nat)
    requires c <= TRIES
    ensures FirstAccepted(samples, max, limit, c).Ok? <==>
            exists i :: c <= i < TRIES && SampleAt(samples, max, i) < limit
    ensures forall i :: c <= i < TRIES && SampleAt(samples, max, i) < limit
              && (forall j :: c <= j < i ==> limit <= SampleAt(samples, max, j))
              ==> FirstAccepted(samples, max, limit, c) == Ok(SampleAt(samples, max, i))
    decreases TRIES - c
  {
    if c < TRIES {
      FirstAcceptedIsFirst(samples, max, limit, c + 1);
    }
  }

  lemma WholeAndRest(x: int, range: nat)
    requires range > 0
    ensures x == Whole(x / range, range) + x % range
  {
  }

  lemma ReturnsRest(samples: Samples, max: nat, range: nat, i: nat)
    requires range > 0 && Accepts(samples, max, range, i)
    ensures Unbiased(samples, max, range) == Ok(SampleAt(samples, max, i) % range)
  {
    hide FirstAccepted, SampleAt, Limit;
    FirstAcceptedIsFirst(samples, max, Limit(max, range), 0);
  }

  lemma Leaves(samples: Samples, max: nat, range: nat, i: nat)
    requires range > 0 && Accepts(samples, max, range, i)
    ensures exists q :: Unbiased(samples, max, range) == Ok(SampleAt(samples, max, i) - Whole(q, range))
  {
    hide Unbiased, SampleAt, Limit, Whole;
    ReturnsRest(samples, max, range, i);
    WholeAndRest(SampleAt(samples, max, i), range);
    assert Unbiased(samples, max, range)
        == Ok(SampleAt(samples, max, i) - Whole(SampleAt(samples, max, i) / range, range));
  }

  /** The draw lands below its range, on what the first accepted sample leaves over whole multiples of it, and fails only
      on an empty range or on 256 rejected samples. */
  lemma UnbiasedOutcome(samples: Samples, max: nat, range: nat)
    ensures Unbiased(samples, max, range).Ok? ==> 0 <= Unbiased(samples, max, range).value < range
    ensures range > 0 ==>
              forall i: nat :: Accepts(samples, max, range, i) ==>
                exists q :: Unbiased(samples, max, range) == Ok(SampleAt(samples, max, i) - Whole(q, range))
    ensures Unbiased(samples, max, range).Err? <==>
            range == 0 || forall i :: 0 <= i < TRIES ==> Limit(max, range) <= SampleAt(samples, max, i)
    ensures Unbiased(samples, max, range).Err? ==> Unbiased(samples, max, range).error == RandomnessRejection
  {
    if range > 0 {
      FirstAcceptedIsFirst(samples, max, Limit(max, range), 0);
      FirstAcceptedError(samples, max, Limit(max, range), 0);
      hide Limit, SampleAt;
      forall i: nat | Accepts(samples, max, range, i)
        ensures exists q :: Unbiased(samples, max, range) == Ok(SampleAt(samples, max, i) - Whole(q, range))
      {
        Leaves(samples, max, range, i);
      }
    }
  }

  lemma {:induction false} FirstAcceptedError(samples: Samples, max: nat, limit: nat, c: nat)
    requires c <= TRIES
    ensures FirstAccepted(samples, max, limit, c).Err? ==>
              FirstAccepted(samples, max, limit, c).error == RandomnessRejection
    decreases TRIES - c
  {
    if c < TRIES {
      FirstAcceptedError(samples, max, limit, c + 1);
    }
  }

  /** Below the limit are exactly the values whose whole block of the range lies at or below `max`. */
  lemma LimitMeaning(max: nat, range: nat, q: nat, r: nat)
    requires r < range
    ensures q * range + r < Limit(max, range) <==> (q + 1) * range <= max
  {
    var whole := max / range;
    assert Limit(max, range) == whole * range && max < (whole + 1) * range;
    if q < whole {
      MulLe(q + 1, whole, range);
    } else {
      MulLe(whole, q, range);
      MulLe(whole + 1, q + 1, range);
    }
  }

  /** What the draw returns: written to base 2^64 or 2^128, the first accepted sample has a low part that is some whole
      multiple of the range, which fits below the maximum with one range to spare, plus the result. */
  lemma ResultIs(samples: Samples, max: nat, range: nat, i: nat) returns (high: nat, q: nat)
    requires range > 0 && Accepts(samples, max, range, i)
    ensures Unbiased(samples, max, range).Ok?
    ensures var r := Unbiased(samples, max, range).value;
            && 0 <= r < range && (q + 1) * range <= max && q * range + r == SampleAt(samples, max, i)
            && samples[i] == high * (max + 1) + q * range + r
  {
    FirstAcceptedIsFirst(samples, max, Limit(max, range), 0);
    var x := SampleAt(samples, max, i);
    high, q := Multiples(samples[i], max + 1), Multiples(x, range);
    LimitMeaning(max, range, q, x % range);
    hide Limit, SampleAt;
  }

  /** Division as the whole multiples that it counts. */
  ghost function Multiples(x: nat, d: nat): (q: nat)
    requires d > 0
    ensures x == q * d + x % d
  {
    x / d
  }

  /** Unless all are rejected, some sample is the first accepted one. */
  lemma FirstOne(samples: Samples, max: nat, range: nat) returns (i: nat)
    requires range > 0 && Unbiased(samples, max, range).Ok?
    ensures Accepts(samples, max, range, i)
  {
    FirstAcceptedIsFirst(samples, max, Limit(max, range), 0);
    i := 0;
    while Limit(max, range) <= SampleAt(samples, max, i)
      invariant i < TRIES && forall j :: 0 <= j < i ==> Limit(max, range) <= SampleAt(samples, max, j)
      invariant exists n :: i <= n < TRIES && SampleAt(samples, max, n) < Limit(max, range)
      decreases TRIES - i
    {
      i := i + 1;
    }
  }

  /** The samples below `bound` that the mapping sends to `residue`. */
  ghost function Hits(bound: nat, range: nat, residue: nat): set<nat>
    requires range > 0
  {
    set x: nat | x < bound && x % range == residue
  }

  lemma {:induction false} HitsOfMultiple(q: nat, range: nat, residue: nat)
    requires residue < range
    ensures |Hits(q * range, range, residue)| == q
  {
    if q == 0 {
      assert Hits(0, range, residue) == {};
    } else {
      HitsOfMultiple(q - 1, range, residue);
      var low := (q - 1) * range;
      assert q * range == low + range;
      HitsNext(q - 1, low, range, residue);
    }
  }

  /** One more whole range adds one more hit. */
  lemma HitsNext(q: nat, low: nat, range: nat, residue: nat)
    requires residue < range && low == q * range
    ensures |Hits(low + range, range, residue)| == |Hits(low, range, residue)| + 1
  {
    var x := low + residue;
    DivUnique(x, range, q, residue);
    forall y: nat | low <= y < low + range && y % range == residue
      ensures y == x
    {
      DivUnique(y, range, q, y - low);
    }
    assert Hits(low + range, range, residue) == Hits(low, range, residue) + {x};
  }

  /** The samples that the mapping rejects. */
  ghost function Rejected(max: nat, range: nat): set<nat>
    requires range > 0
  {
    Span(Limit(max, range), max)
  }

  ghost predicate FromOn(first: nat, x: nat) { first <= x }

  ghost function Span(first: nat, last: nat): set<nat> { set x: nat | x <= last && FromOn(first, x) }

  lemma {:induction false} SpanSize(first: nat, last: nat)
    requires first <= last + 1
    ensures |Span(first, last)| == last + 1 - first
    decreases last + 1 - first
  {
    if first == last + 1 {
      assert Span(first, last) == {};
    } else {
      SpanSize(first + 1, last);
      assert Span(first, last) == {first} + Span(first + 1, last);
    }
  }

  /** No bias: every residue is hit by exactly `limit / range` of the accepted samples, namely those from which the draw
      returns it, and no more samples are rejected than the range has residues. */
  lemma DrawIsUnbiased(max: nat, range: nat, residue: nat)
    requires residue < range
    ensures forall samples: Samples, i: nat :: Accepts(samples, max, range, i) ==>
              (Unbiased(samples, max, range) == Ok(residue)
               <==> SampleAt(samples, max, i) in Hits(Limit(max, range), range, residue))
    ensures |Hits(Limit(max, range), range, residue)| == Limit(max, range) / range
    ensures |Rejected(max, range)| == max % range + 1 <= range
  {
    var q := max / range;
    assert Limit(max, range) == q * range;
    DivUnique(q * range, range, q, 0);
    HitsOfMultiple(q, range, residue);
    SpanSize(Limit(max, range), max);
    forall samples: Samples, i: nat | Accepts(samples, max, range, i)
      ensures Unbiased(samples, max, range) == Ok(residue)
              <==> SampleAt(samples, max, i) in Hits(Limit(max, range), range, residue)
    {
      FirstAcceptedIsFirst(samples, max, Limit(max, range), 0);
    }
  }

  /** The samples below `bound` that the mapping sends into `[start, end)`. */
  ghost function Favours(bound: nat, range: nat, start: nat, end: nat): set<nat>
    requires range > 0
  {
    set x: nat | x < bound && start <= x % range < end
  }

  /** An interval is hit in proportion to its length. */
  lemma {:induction false} IntervalHits(max: nat, range: nat, start: nat, end: nat)
    requires range > 0 && start <= end <= range
    ensures |Favours(Limit(max, range), range, start, end)| == Limit(max, range) / range * (end - start)
    decreases end - start
  {
    var bound := Limit(max, range);
    if start == end {
      assert Favours(bound, range, start, end) == {};
    } else {
      IntervalHits(max, range, start, end - 1);
      DrawIsUnbiased(max, range, end - 1);
      assert Favours(bound, range, start, end) == Favours(bound, range, start, end - 1) + Hits(bound, range, end - 1);
      MulSum(bound / range, end - 1 - start, 1);
    }
  }
}
