/** Fixed-width integers, the program's error codes and its checked arithmetic.
    A checked operation that leaves its width aborts the instruction. */
module Machine {
  const U64_MAX: int := 0xFFFF_FFFF_FFFF_FFFF
  const U128_MAX: int := 0xFFFF_FFFF_FFFF_FFFF_FFFF_FFFF_FFFF_FFFF
  const I64_MAX: int := 0x7FFF_FFFF_FFFF_FFFF
  const BPS_DENOMINATOR: int := 10_000

  type u16 = x: int | 0 <= x <= 0xFFFF
  type u32 = x: int | 0 <= x <= 0xFFFF_FFFF
  type u64 = x: int | 0 <= x <= U64_MAX
  type u128 = x: int | 0 <= x <= U128_MAX
  type i64 = x: int | -I64_MAX - 1 <= x <= I64_MAX
  /** A basis-point share; every instruction that stores one refuses more than 100%. */
  type bps = x: int | 0 <= x <= BPS_DENOMINATOR
  /** A length of time that its setters require to be positive. */
  type period = x: int | 0 < x <= I64_MAX witness 1
  /** The chain clock. Unix time: never negative. */
  type clock = x: int | 0 <= x <= I64_MAX

  datatype Error =
    | AccountMissing | AccountExists | ArithmeticOverflow | DivisionByZero | InsufficientFunds
    | Unauthorized | InvalidParameter | PoolShutDown | PoolNotShutDown | PoolPaused | GamePaused | JackpotPaused
    | HouseCannotDeposit | HouseCannotBuyTickets | HouseCannotBeGranted | HouseCannotPlay
    | HouseCannotEmergencyWithdraw | BelowMinimumDeposit | ZeroAmount | InsufficientPrincipal | NothingPending
    | WithdrawalNotDue | InsufficientVaultLiquidity | BelowPendingWithdrawals | InsufficientVault | NoEpochYet
    | DailyBuyCapExceeded | DailyPlayerGrantCapExceeded | DailyPoolGrantCapExceeded
    | PreviousEpochStillDrawing | EpochNotEnded | EpochNotRegistering | NotPreviousEpoch | AlreadyRegistered
    | FrozenEpochMismatch | RegistrationWindowOpen | EpochNotDrawing | EpochNotDrawn | NotRegistered | NotTheWinner
    | RandomnessNotFulfilled | RandomnessAlreadyFulfilled | RandomnessRejection | VrfTimeoutNotElapsed
    | PayoutTimeoutNotElapsed | RoundAlreadyOpen | InvalidRoundLength | RoundOutsideEpoch | RoundNotOpen | RoundClosed
    | InvalidTileSelection | InvalidStake | InsufficientEntries | RoundNotEnded | RoundNotRequested | RoundNotSettled
    | RoundHasOpenPositions | ClockWentBack

  datatype Option<+T> = None | Some(value: T)

  datatype Result<+T> = Ok(value: T) | Err(error: Error) {
    predicate IsFailure() { Err? }

    function PropagateFailure<U>(): Result<U>
      requires Err?
    {
      Err(error)
    }

    function Extract(): T
      requires Ok?
    {
      value
    }
  }

  /** The outcome of a guard, and of an instruction that commits or aborts. */
  datatype Outcome = Pass | Fail(error: Error) {
    predicate IsFailure() { Fail? }

    function PropagateFailure<U>(): Result<U>
      requires Fail?
    {
      Err(error)
    }
  }

  function Require(condition: bool, error: Error): Outcome {
    if condition then Pass else Fail(error)
  }

  function U32(x: int): Result<u32> {
    if 0 <= x <= 0xFFFF_FFFF then Ok(x) else Err(ArithmeticOverflow)
  }

  function U64(x: int): Result<u64> {
    if 0 <= x <= U64_MAX then Ok(x) else Err(ArithmeticOverflow)
  }

  function U128(x: int): Result<u128> {
    if 0 <= x <= U128_MAX then Ok(x) else Err(ArithmeticOverflow)
  }

  function I64(x: int): Result<i64> {
    if -I64_MAX - 1 <= x <= I64_MAX then Ok(x) else Err(ArithmeticOverflow)
  }

  function Min(a: int, b: int): int { if a <= b then a else b }

  function Max(a: int, b: int): int { if a <= b then b else a }

  /** Subtraction that stops at zero. */
  function SatSub(a: int, b: int): int { if b <= a then a - b else 0 }

  lemma QuotientsAgree(d: int, q: int, r: int, q': int, r': int)
    requires 0 <= r < d && 0 <= r' < d && q * d + r == q' * d + r'
    ensures q == q' && r == r'
  {
    if q > q' {
      MulLe(1, q - q', d);
    } else if q < q' {
      MulLe(1, q' - q, d);
    }
  }

  lemma MulLe(a: int, b: int, c: int)
    requires a <= b && 0 <= c
    ensures a * c <= b * c
  {
    assert (b - a) * c >= 0;
  }

  lemma MulSum(a: int, b: int, c: int)
    ensures a * (b + c) == a * b + a * c
  {
  }

  /** A quotient is the only one that leaves a remainder in range. */
  lemma DivUnique(x: int, d: int, q: int, r: int)
    requires 0 <= r < d && x == q * d + r
    ensures x / d == q && x % d == r
  {
    QuotientsAgree(d, q, r, x / d, x % d);
  }
}
