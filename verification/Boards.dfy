/** Tile masks (utils.rs): a position is a set of tiles, one bit each. */
module Boards {
  import opened Machine
  import opened Ledger

  function Pow2(n: nat): (p: nat)
    ensures p > 0
  {
    if n == 0 then 1 else 2 * Pow2(n - 1)
  }

  predicate Bit(mask: nat, t: nat) { mask / Pow2(t) % 2 == 1 }

  /** `count_ones`. */
  function CountOnes(mask: nat): nat {
    if mask == 0 then 0 else mask % 2 + CountOnes(mask / 2)
  }

  /** Number of tiles a mask covers; an empty mask or a bit above tile 35 is refused. */
  function TileCount(mask: u64): Result<nat> {
    if mask != 0 && mask < Pow2(TILE_COUNT) then Ok(CountOnes(mask)) else Err(InvalidTileSelection)
  }

  predicate TileIsCovered(mask: u64, tile: nat) { tile < TILE_COUNT && Bit(mask, tile) }

  /** What a position adds to one tile. */
  function StakeOn(p: Position, tile: nat): nat {
    if TileIsCovered(p.tiles, tile) then p.stakePerTile else 0
  }

  function StakeUpTo(p: Position, n: nat): nat {
    if n == 0 then 0 else StakeUpTo(p, n - 1) + StakeOn(p, n - 1)
  }

  /** What lies on the first `n` tiles of a board. */
  function BoardUpTo(board: Board, n: nat): nat
    requires n <= TILE_COUNT
  {
    if n == 0 then 0 else BoardUpTo(board, n - 1) + board[n - 1]
  }

  function BitsUpTo(mask: nat, n: nat): nat {
    if n == 0 then 0 else BitsUpTo(mask, n - 1) + if Bit(mask, n - 1) then 1 else 0
  }

  lemma BitShift(mask: nat, t: nat)
    ensures Bit(mask, t + 1) == Bit(mask / 2, t)
  {
    assert mask / Pow2(t + 1) == mask / 2 / Pow2(t) by { DivDiv(mask, Pow2(t)); }
  }

  lemma DivDiv(x: nat, d: nat)
    requires d > 0
    ensures x / (2 * d) == x / 2 / d
  {
    var q, r := x / 2 / d, x / 2 % d;
    assert x / 2 == q * d + r;
    assert x == q * (2 * d) + (2 * r + x % 2) by {
      assert x == 2 * (x / 2) + x % 2;
      assert q * (2 * d) == 2 * (q * d);
    }
    DivUnique(x, 2 * d, q, 2 * r + x % 2);
  }

  lemma {:induction false} BitsShift(mask: nat, n: nat)
    ensures BitsUpTo(mask, n + 1) == mask % 2 + BitsUpTo(mask / 2, n)
  {
    if n > 0 {
      BitsShift(mask, n - 1);
      BitShift(mask, n - 1);
    } else {
      assert Pow2(0) == 1;
      assert BitsUpTo(mask, 1) == BitsUpTo(mask, 0) + if Bit(mask, 0) then 1 else 0;
    }
  }

  /** The population count is the number of tiles counted one by one. */
  lemma {:induction false} CountOnesIsBits(mask: nat, n: nat)
    requires mask < Pow2(n)
    ensures CountOnes(mask) == BitsUpTo(mask, n)
  {
    if n > 0 {
      CountOnesIsBits(mask / 2, n - 1);
      BitsShift(mask, n - 1);
      if mask == 0 { assert mask / 2 == 0; }
    }
  }

  lemma {:induction false} StakeIsBits(p: Position, n: nat)
    requires n <= TILE_COUNT
    ensures StakeUpTo(p, n) == p.stakePerTile * BitsUpTo(p.tiles, n)
  {
    if n > 0 {
      StakeIsBits(p, n - 1);
      MulSum(p.stakePerTile, BitsUpTo(p.tiles, n - 1), if Bit(p.tiles, n - 1) then 1 else 0);
    }
  }

  /** A position's cost, stake times population count, is what it places on the board. */
  lemma {:induction false} CostIsBoardTotal(p: Position)
    requires TileCount(p.tiles).Ok?
    ensures p.stakePerTile * TileCount(p.tiles).value == StakeUpTo(p, TILE_COUNT)
  {
    CountOnesIsBits(p.tiles, TILE_COUNT);
    StakeIsBits(p, TILE_COUNT);
  }

  lemma {:induction false} BoardGrows(before: Board, after: Board, p: Position, n: nat)
    requires n <= TILE_COUNT && forall t :: 0 <= t < TILE_COUNT ==> after[t] == before[t] + StakeOn(p, t)
    ensures BoardUpTo(after, n) == BoardUpTo(before, n) + StakeUpTo(p, n)
  {
    if n > 0 { BoardGrows(before, after, p, n - 1); }
  }

  lemma {:induction false} BoardEmpty(board: Board, n: nat)
    requires n <= TILE_COUNT && forall t :: 0 <= t < TILE_COUNT ==> board[t] == 0
    ensures BoardUpTo(board, n) == 0
  {
    if n > 0 { BoardEmpty(board, n - 1); }
  }
}
