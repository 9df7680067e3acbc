/** The arithmetic of the epoch grid. */
module Grid {
  import opened Machine
  import opened Ledger
  import E = Epochs

  ghost predicate OnGrid(anchor: int, length: int, x: int)
    requires length > 0
  {
    (x - anchor) % length == 0
  }

  lemma GridOrder(anchor: int, length: int, x: int, y: int)
    requires length > 0 && OnGrid(anchor, length, x) && OnGrid(anchor, length, y) && x < y + length
    ensures x <= y
  {
    var p, q := (x - anchor) / length, (y - anchor) / length;
    assert x == anchor + p * length && y == anchor + q * length;
    if p > q {
      MulLe(q + 1, p, length);
    } else {
      MulLe(p, q, length);
    }
  }

  lemma GridNext(anchor: int, length: int, x: int)
    requires length > 0 && OnGrid(anchor, length, x)
    ensures OnGrid(anchor, length, x + length)
  {
    var q := (x - anchor) / length;
    assert (q + 1) * length == q * length + length;
    DivUnique(x + length - anchor, length, q + 1, 0);
  }

  /** `grid_floor` is the last grid point at or before its argument. */
  lemma GridFloorMeaning(anchor: i64, length: period, t: i64)
    requires E.GridFloor(anchor, length, t).Ok?
    ensures var g := E.GridFloor(anchor, length, t).value;
            g <= t < g + length && OnGrid(anchor, length, g)
  {
    var q := (t - anchor) / length;
    assert t - anchor == q * length + (t - anchor) % length;
    DivUnique(q * length, length, q, 0);
  }

  /** Two instants with no grid point in between have the same floor. */
  lemma FloorShared(anchor: i64, length: period, now: i64, start: i64)
    requires E.GridFloor(anchor, length, now).Ok? && E.GridFloor(anchor, length, start).Ok?
    requires E.GridFloor(anchor, length, now).value <= start <= now
    ensures E.GridFloor(anchor, length, start) == E.GridFloor(anchor, length, now)
  {
    GridFloorMeaning(anchor, length, now);
    GridFloorMeaning(anchor, length, start);
    var f, g := E.GridFloor(anchor, length, now).value, E.GridFloor(anchor, length, start).value;
    GridOrder(anchor, length, f, g);
    GridOrder(anchor, length, g, f);
  }

  /** Every epoch opens around the instant it is begun, after its predecessor's end, and ends on the grid
      within one period. It is contiguous with its predecessor when that ended on the grid and no whole
      period was missed. */
  lemma EpochSpan(s: State, signer: Signer, t: State)
    requires E.BeginEpoch(s, signer) == Ok(t)
    ensures var length, anchor := s.pool.params.epochSeconds, s.pool.params.epochAnchor;
            var start, end := t.pool.currentEpochStart, t.pool.currentEpochEndsAt;
            && start <= t.now < end <= start + length
            && OnGrid(anchor, length, end)
            && (s.pool.currentEpochId == 0 ==> start == t.now)
            && (s.pool.currentEpochId > 0 ==>
                  var before := s.epochs[s.pool.currentEpochId].endsAt;
                  && before <= start
                  && (OnGrid(anchor, length, before) ==>
                        && OnGrid(anchor, length, start) && end == start + length
                        && (start == before || start >= before + length)
                        && (start == before <==> s.now < before + length)))
  {
    var length, anchor := s.pool.params.epochSeconds, s.pool.params.epochAnchor;
    var start, end := t.pool.currentEpochStart, t.pool.currentEpochEndsAt;
    var floor := E.GridFloor(anchor, length, start).value;
    GridFloorMeaning(anchor, length, start);
    GridNext(anchor, length, floor);
    if s.pool.currentEpochId > 0 {
      var before := s.epochs[s.pool.currentEpochId].endsAt;
      var f := E.GridFloor(anchor, length, s.now).value;
      GridFloorMeaning(anchor, length, s.now);
      FloorShared(anchor, length, s.now, start);
      if OnGrid(anchor, length, before) {
        GridOrder(anchor, length, start, floor);
        if start != before && start < before + length { GridOrder(anchor, length, start, before); }
        GridNext(anchor, length, before);
        if before + length <= s.now { GridOrder(anchor, length, before + length, f); }
      }
    }
  }
}
