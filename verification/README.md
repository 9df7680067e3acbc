# A verified model of hex_vault

`hex_vault` is a no-loss lottery. Players deposit Principal; for every second they hold Tickets they earn Weight; at the
end of an epoch every player registers its Weight as an interval, a random point is drawn, and the owner of the interval
that contains it wins the jackpot. Tickets can also be staked on a 36-tile game whose pot goes to the winning tile.
Players are updated lazily: an account is brought up to date (`touch`) only when somebody acts on it.

The project models the program's instructions over one state (the pool, the player, epoch, round and position accounts,
the two token vaults and a clock that never goes back), and proves what holds in every state that any run can reach.
It also models the off-chain arithmetic that has to agree with the program.

## How it is built

- `Ledger` holds the accounts as values, `Touching`, `Boards`, `Vrf`, `Epochs`, `Custody` and `Rounds` the instructions,
  each as the state it commits or the error it aborts with. Overflow checks are aborts, with the widths of the source.
- `Vault` is the program as it runs: a class whose fields are the accounts, one method per instruction, working on
  loaded copies in the source's order and writing them back at the end. A valid object carries the run that led to it:
  its accounts are those of a reachable world. Every method is proved to be one step of that run, or to report exactly
  the specified error and change nothing. The oracle's answers, plain transfers and time are methods too.
- `Program` defines runs, and the observer that the properties are stated against: it integrates every player's
  balances second by second, logs registrations, and tracks what the admin took, the peak of the total principal, the
  yield put in and credited, what each pot started with, and what went into the jackpot and came out of it. It never
  reads an accumulator, a freeze or a registration field of a player.
- `Effects`, `Frames` and `Grid` say what one instruction may change. `Shape`, `Books`, `Reserve`, `Meters`, `Draws`, `Yield`,
  `Games` and `Grants` are the parts of the invariant, each kept by every step; `Invariant` puts them together
  for every run.
- `Movements`, `Stages` and `Turns` say of every instruction exactly when it succeeds and what it changes, field by field,
  on the view of a player that `Visible` gives, without the fields accrual keeps; `Refusals` says that every error is true.
- `Tickets` and `Issuance` count Tickets, step by step; `Jackpot` books the jackpot vault.
- `Theorems`, `Solvency`, `Earnings`, `Exit`, `Settlement`, `Play`, `Neutral` and `Schedule` are the results about runs.
- `Accrual` says exactly when a touch can fail, `Enrolment` when a registration can, `Progress` when epochs move on.
  `Scenario`, `Witnesses` and `Locked` hold short runs of a small pool that show the exceptions below are real.
- `Mirrors`, `Referral`, `Bonuses` and `Shares` are the backend's side; `Tracking` feeds its hold tracker with the events of
  runs of the program.

`dafny verify dfyconfig.toml` checks everything.

## Findings

- A purchase is weight-neutral at the round's end if and only if the round ends within the current epoch
  (`Neutral.NeutralExactly`). `create_round` checks that only once there is an epoch, so rounds created before the first
  epoch can outlast it, and then the promise of `buy_position`'s comment does not hold
  (`Neutral.EpochZeroRoundIsNotNeutral` gives a run). For every other round it holds (`Neutral.BuyIsNeutral`).
- A drawn prize cannot always be paid: compounding it can overflow. `Solvency.PrizeIsPayable` gives the exact condition;
  in `Witnesses.UncollectablePrize` an admin's grant after the draw fills the winner's Tickets, the payout overflows, and
  after the timeout the prize is rolled over.
- After shutdown with nothing out, a claim is payable if and only if the player's weight accumulator fits 128 bits
  (`Exit.EveryClaimPayable`); if not, it is refused for ever (`Exit.RefusalIsPermanent`). The credits of `buy_position` can
  bring that about: `Locked.LockedForGood` fills an accumulator with two purchases of all Tickets in rounds that end
  with the clock, and locks a deposit in a pool that holds every claim. The principal accumulator never overflows
  (`Accrual.TouchSucceedsExactly`).
- A pending request is refused as long as its deadline does not fit 64 bits (`Solvency.RequestPaidExactly`), which the
  admin can bring about by setting the longest period (`Witnesses.UnprocessableRequest`); the emergency exit still pays.
- `register` can refuse a player who earned weight: crediting its yield can overflow, and then it is not in the draw
  either. `Enrolment.RegisterSucceedsExactly` gives the exact condition of the whole instruction; in
  `Enrolment.GrantKeepsOut` a grant made after the epoch leaves no room for a yield of 1.
- A draw whose 256 samples are all rejected leaves its epoch Drawing for ever, because an answered draw cannot be rolled
  over: its prize stays reserved, and no further epoch can begin (`Progress.RejectedForGood`, with the run
  `Witnesses.RejectedDraw`). An honest oracle delivers such an answer with negligible probability. From every other draw
  that is not answered or not paid, waiting frees the pool (`Progress.WaitingFreesEpoch`).
- The API's live weight does not stop at the epoch's end when `begin_epoch` is late; it then shows exactly the excess
  `Mirrors.Overshoot` more than the program would count (`Mirrors.LiveWeightShown`, with the run
  `Witnesses.LateEpochOvershoots`). The weight it shows for a draw is exact.
- `begin_epoch` refuses while the epoch before the current one is Drawing or Drawn, but not while it is Registering. An
  epoch left behind that way keeps disjoint intervals but may lose their owners, so for older epochs an account passes
  `payout` if and only if it owns the drawn point and has not registered again since (`Theorems.AtMostOneWinner`); in
  `Witnesses.LostOwner` nobody passes.
- The hold tracker is not told of emergency exits: afterwards it still holds the Principal that left, and nothing else
  (`Tracking.TrackerFollowsChain`), until the indexer next compares it with the account. Without one it is exact.

## Model

| member | source | states |
|---|---|---|
| `Theorems.LazyRefinesEager` | programs/hex_vault/src/touch.rs:35-109 | In every reachable state, the weight and principal-seconds `register` computes for the epoch just ended are the player's second-by-second integrals over that epoch, whatever touches happened; the weight rule refuses with FrozenEpochMismatch exactly the players who were not there in that epoch, and with an overflow exactly a weight that exceeds 128 bits; what else `register` refuses is `Enrolment.RegisterSucceedsExactly` |
| `Enrolment.RegisterSucceedsExactly` | programs/hex_vault/src/epochs.rs:262-330 | In every reachable state `register` succeeds if and only if the epoch is the one just ended, is Registering and has no interval of the player, the player was there, its weight fits 128 bits, its yield was credited before or there is room for it (the rate on its principal integral does not overflow and, if anything is credited, the player's weight accumulator fits and the pool's total and the player's Tickets have room), and the layout has room for the weight; past the guards it refuses only with FrozenEpochMismatch for a player who was not there, or with an overflow |
| `Enrolment.GrantKeepsOut` | programs/hex_vault/src/epochs.rs:108-148 | A reachable state in which a player can register, and in which an admin's grant makes its registration overflow, so that it gets neither the draw nor the yield of the epoch it earned them in |
| `Accrual.TouchSucceedsExactly` | programs/hex_vault/src/touch.rs:35-109 | In every reachable state a touch succeeds if and only if the weight accumulator, finished at the instant the touch finishes it, fits 128 bits; the principal accumulator never overflows |
| `Accrual.WeightRefusesExactly` | programs/hex_vault/src/epochs.rs:62-94 | The exact conditions of both refusals of the weight rule |
| `Theorems.TouchCommutes` | programs/hex_vault/src/epochs.rs:62-94 | A touch before registering changes nothing: same weight, principal-seconds or refusal from the program, same number from both backend copies |
| `Meters.TouchIsInvisible` | programs/hex_vault/src/touch.rs:64-108 | A touch changes neither the current epoch's integral nor the past one's that a player's fields stand for |
| `Meters.MovedMeter` | programs/hex_vault/src/touch.rs:26-34 | A balance moved right after a touch counts only from that instant, and a pre-credit is added as it is |
| `Meters.TickMeter` | programs/hex_vault/src/touch.rs:36-62 | As time passes, what the fields stand for grows by Tickets and Principal times the seconds that fall inside the epoch |
| `Meters.MetersStep` | programs/hex_vault/src/touch.rs:35-109 | Every instruction and every tick keeps the fields of all players equal to the eager integrals |
| `Theorems.RegistrationTiles` | programs/hex_vault/src/epochs.rs:271-330 | In the epoch just ended, every point below the registered weight has exactly one owner among the players, and the owner's interval is as long as the weight it earned |
| `Theorems.DrawIsFair` | programs/hex_vault/src/epochs.rs:464-507 | Of the samples a draw of the epoch just ended accepts, exactly (limit / registered weight) × the weight the player earned favour a registered player; and whatever sample is the first to be accepted, `draw` succeeds, and `payout` to the player then gets past the winner's check if and only if that sample is one of them |
| `Theorems.ExactlyOneWinner` | programs/hex_vault/src/epochs.rs:464-507 | Once the epoch just ended is drawn, exactly one player holds the drawn point; a payout of that epoch that succeeds goes to it, every other player is told NotRegistered or NotTheWinner, and no epoch can begin |
| `Theorems.AtMostOneWinner` | programs/hex_vault/src/epochs.rs:491-507 | In any drawn epoch the drawn point belongs to one registration; an account holds it if and only if it is that registrant and has not registered for another epoch since, and a payout that succeeds goes to no other account |
| `Theorems.PaysTheOwner` | programs/hex_vault/src/epochs.rs:491-507 | In every reachable state, whenever `payout` succeeds, its epoch is Drawn and the only registration in the epoch's log that contains the drawn point is that of the account it pays |
| `Theorems.DrawnPoint` | programs/hex_vault/src/epochs.rs:464-489 | A draw records as its point what the first accepted sample leaves over whole multiples of the registered weight, marks the epoch Drawn now, and changes nothing else |
| `Witnesses.LostOwner` | programs/hex_vault/src/epochs.rs:178-185 | A reachable state with an older epoch drawn for a positive prize whose point nobody holds any more |
| `Theorems.DrawHoldsNextEpoch` | programs/hex_vault/src/epochs.rs:171-185 | `begin_epoch` fails for every signer while the epoch just ended is Drawing or Drawn |
| `Progress.DrawsExactly` | programs/hex_vault/src/epochs.rs:464-489 | An epoch is drawn if and only if it is Drawing, the oracle answered and one of the 256 samples is accepted; a Drawing one fails only as unanswered or as rejected |
| `Progress.RollsOverExactly` | programs/hex_vault/src/epochs.rs:607-679 | An epoch rolls over if and only if it is overdue: Registering, not paused and past its window and the timeout; Drawing, unanswered and past the timeout; or Drawn and past the payout timeout. Neither the deadlines nor the reserve overflow |
| `Progress.BeginsExactly` | programs/hex_vault/src/epochs.rs:165-260 | `begin_epoch` succeeds if and only if the operator signs, nothing is shut or paused, the epoch before the current one is neither Drawing nor Drawn, the current one has ended, and the epoch number and the grid's period around now are representable |
| `Progress.WaitingFreesEpoch` | programs/hex_vault/src/epochs.rs:607-679 | From any reachable state, waiting until an epoch is overdue and rolling it over succeeds and gives back its prize; if it was the one just ended, the next epoch then begins if and only if everything else allows it |
| `Progress.RejectedForGood` | programs/hex_vault/src/epochs.rs:464-489 | An answered epoch whose samples are all rejected is changed by no run, keeps its prize reserved, is never drawn, paid or rolled over, and if it is the one just ended, no epoch ever begins again |
| `Witnesses.RejectedDraw` | programs/hex_vault/src/epochs.rs:634-651 | One reachable pool for which all that holds over every run |
| `Draws.OneOwner` | programs/hex_vault/src/epochs.rs:308-320 | Intervals laid end to end contain every point of their total exactly once |
| `Draws.RegisterFindsIntegral` | programs/hex_vault/src/epochs.rs:62-94 | The three branches of the weight rule all give the eager integral |
| `Draws.DrawsStep` | programs/hex_vault/src/epochs.rs:262-330 | Every step keeps: each epoch's log tiles its registered weight with distinct players, every player's interval is in it, and those of the epoch just ended are still held |
| `Solvency.PrincipalIsConserved` | programs/hex_vault/src/custody.rs:434-726 | In every reachable state vault + principal out = sum of Principal + sum of pending withdrawals + yield budget, both totals are those sums, and the backend's `principalOut` is exactly the amount out |
| `Books.BooksStep` | programs/hex_vault/src/epochs.rs:551-586 | Every instruction moves the vault, the totals and the one player's claims by matching amounts |
| `Solvency.ReserveIsExact` | programs/hex_vault/src/epochs.rs:412-460 | The reserve is the sum of the prizes of Drawing and Drawn epochs and never exceeds the jackpot vault |
| `Solvency.PrizeIsPayable` | programs/hex_vault/src/epochs.rs:509-595 | A drawn prize is in the vault. Asked to pay any account for any epoch, `payout` succeeds if and only if the epoch is Drawn, the account's interval for it contains the drawn point, and the account is the House (70% leaves the vault) or its weight accumulator fits and the principal vault, the pool's total and its Tickets have room; the rightful winner is refused only for an overflow, and any other account for the true reason |
| `Witnesses.UncollectablePrize` | programs/hex_vault/src/epochs.rs:551-586 | A reachable state in which a grant made after the draw leaves the rightful winner no room, so that payout overflows and the prize can later be rolled over |
| `Solvency.RolloverNeverUnderflows` | programs/hex_vault/src/epochs.rs:607-672 | A rollover whose guards pass always succeeds and gives back exactly what was reserved |
| `Solvency.PrizeIsAllThereIs` | programs/hex_vault/src/epochs.rs:391-462 | Closing registration starts a draw if and only if somebody registered and the unreserved jackpot reaches the minimum; the prize is then everything unreserved |
| `Solvency.SweepSparesPrize` | programs/hex_vault/src/custody.rs:755-792 | `sweep_house` leaves exactly the reserved prizes in the jackpot vault and never uncovers players' claims |
| `Jackpot.JackpotIsConserved` | programs/hex_vault/src/custody.rs:856-915 | In every reachable state the jackpot vault holds exactly what was funded plus what purchases paid, less the prizes that left it and what was swept, each read from the instructions |
| `Solvency.OverIsFinal` | programs/hex_vault/src/epochs.rs:391-672 | A Paid or RolledOver epoch is unchanged by every run |
| `Solvency.PaysAtMostOnce` | programs/hex_vault/src/epochs.rs:491-605 | After a payout no run leads to another payout of the same epoch |
| `Reserve.ReserveStep` | programs/hex_vault/src/epochs.rs:412-460 | Every step moves the reserve by exactly what the epoch it works on starts or stops holding |
| `Earnings.YieldIsBounded` | programs/hex_vault/src/epochs.rs:46-57 | All yield credited for an epoch is at most the highest rate on (peak total principal of that epoch × its length); what was funded is credited, swept or still in the budget |
| `Earnings.YieldForBoundsCredit` | programs/hex_vault/src/epochs.rs:46-57 | The same bound through `yield_for` |
| `Earnings.CreditIsExact` | programs/hex_vault/src/epochs.rs:284-302 | A first registration for an epoch credits exactly the rate on the player's principal integrated second by second over that epoch, rounded down, or what is left of the budget |
| `Earnings.CreditedAtMostOnce` | programs/hex_vault/src/epochs.rs:286-302 | After a registration, a later one of the same player for the same epoch moves no principal, whatever ran in between |
| `Earnings.CreditCountsFromNow` | programs/hex_vault/src/epochs.rs:100-148 | A credit adds weight and principal-seconds only for the seconds after it lands, and nothing to the epoch just ended |
| `Yield.YieldStep` | programs/hex_vault/src/epochs.rs:108-148 | Every step keeps the budget identity, the bounds on all players' principal-seconds together and the bound on what was credited |
| `Exit.StaysCovered` | programs/hex_vault/src/custody.rs:614-656 | A vault that covers all claims keeps covering them over every run without `admin_withdraw` |
| `Exit.EveryClaimPayable` | programs/hex_vault/src/custody.rs:663-726 | After shutdown with nothing out, over every such run each non-House player's full claim can be withdrawn, exactly that amount, if and only if its finished weight accumulator fits 128 bits |
| `Exit.RefusalIsPermanent` | programs/hex_vault/src/custody.rs:497-726 | After shutdown a player whose accumulator does not fit keeps its principal unmoved and unwithdrawable over every run |
| `Locked.LockedForGood` | programs/hex_vault/src/rounds.rs:132-147 | One reachable, shut-down pool that covers every claim, with a deposit that is still there and still refused after every run |
| `Exit.EveryRequestPayable` | programs/hex_vault/src/custody.rs:546-607 | Then a pending request is payable if and only if its deadline is representable, and pays exactly the pending amount |
| `Witnesses.UnprocessableRequest` | programs/hex_vault/src/custody.rs:546-607 | A reachable, shut-down and covered pool in which the longest period the admin can set makes a pending request overflow, while the emergency exit still pays it |
| `Solvency.RequestPaidExactly` | programs/hex_vault/src/custody.rs:546-607 | In every reachable state a request is paid if and only if it is pending and due, its deadline is representable and the vault holds it |
| `Exit.ShutdownIsFinal` | programs/hex_vault/src/custody.rs:312-383 | After shutdown the three pauses stay set over every run, whoever signs |
| `Issuance.TicketsNeverGrow` | programs/hex_vault/src/rounds.rs:148-165 | Over any run without the instructions that hand out Tickets by design, Tickets held + carried + owed by rounds never grow |
| `Tickets.GameNeverMints` | programs/hex_vault/src/rounds.rs:249-293 | No round instruction increases that total, in whatever epoch it runs |
| `Issuance.CustodyIssuesExactly` | programs/hex_vault/src/custody.rs:434-1028 | Custody instructions change the Ticket total by exactly what they promise: a deposit one for one, a purchase at the pool's rate, a grant its amount, a request minus at most what is held, an emergency withdrawal minus all of it, the others nothing |
| `Issuance.EpochIssuesExactly` | programs/hex_vault/src/epochs.rs:262-605 | Epoch instructions inside an epoch change it by exactly what they add to Principal, which is nothing but a yield credit or a compounded prize |
| `Issuance.BeginIssuesExactly` | programs/hex_vault/src/touch.rs:64-108 | When an epoch begins the Ticket total becomes exactly all Principal plus the carried pot |
| `Issuance.TicketsAreAccountedFor` | programs/hex_vault/src/rounds.rs:249-293 | From the start of an epoch on, in every state of every run that is still in that epoch, aborted instructions of any kind included, the Ticket total is at most the Principal and carried pot at that start plus what was issued since |
| `Tickets.SettlePositionTickets` | programs/hex_vault/src/rounds.rs:322-354 | Settling a position keeps the total and takes off what the round owes exactly that position's reward |
| `Play.RoundBooks` | programs/hex_vault/src/rounds.rs:125-165 | In every reachable running round each tile total is the sum of the stakes covering it, the pot is what the pool was carrying plus all stakes of all positions, which is what lies on the 36 tiles, and the counter counts the positions |
| `Settlement.PaidInAnyOrder` | programs/hex_vault/src/rounds.rs:259-359 | From a settlement on, over any run: House cut + all rewards ≤ pot; once all positions settled in the round's epoch the rest is less than one unit per winner |
| `Settlement.HouseTakesItsShare` | programs/hex_vault/src/rounds.rs:259-291 | The cut is the House's share of the pot rounded down; settling gives the House exactly the cut, the pot of a forfeited round, or nothing once the epoch is over |
| `Tickets.DustPerWinner` | programs/hex_vault/src/rounds.rs:336-347 | The rewards of a settled round, each rounded down, fall short of the pot less the cut by less than the number of winners |
| `Games.GamesStep` | programs/hex_vault/src/rounds.rs:25-98 | Every step keeps every round's books and at most one running round |
| `Play.OneRunningRound` | programs/hex_vault/src/rounds.rs:31-68 | A running round is the only one, is the pool's open round, and nothing is carried meanwhile |
| `Play.VoidableExactly` | programs/hex_vault/src/rounds.rs:369-421 | A running round can be voided if and only if it has no answer and its deadline has passed; the carried pot never overflows |
| `Play.WaitingFreesRound` | programs/hex_vault/src/rounds.rs:369-421 | From any reachable state, letting time pass and voiding frees the pool of an unanswered round |
| `Play.AnsweredSettles` | programs/hex_vault/src/rounds.rs:228-304 | An answered round can be settled if and only if a sample is accepted and the House has room for its credit; it then records the drawn tile, is Forfeited if nothing lies on it and Settled otherwise, and frees the pool; a refusal is the rejection or an overflow |
| `Play.DrawnTileWins` | programs/hex_vault/src/rounds.rs:240-293 | Whenever a settlement succeeds, the recorded winning tile is what the first accepted sample, read at 64 bits, leaves over whole multiples of 36, and the round is Forfeited if and only if no position covers that tile |
| `Play.AnsweredOnlySettles` | programs/hex_vault/src/rounds.rs:379-391 | No instruction but its settlement changes an answered round |
| `Neutral.NeutralExactly` | programs/hex_vault/src/rounds.rs:135-155 | At the round's end a buyer has the weight of the same player who did not buy, under any two touch schedules, if and only if the round ends within the current epoch; principal-seconds always agree |
| `Neutral.BuyIsNeutral` | programs/hex_vault/src/rounds.rs:41-59 | For a round created in an epoch every accepted purchase meets that condition and is neutral |
| `Neutral.EpochZeroRoundIsNotNeutral` | programs/hex_vault/src/rounds.rs:41-59 | A reachable pool, a round created before its first epoch and an accepted purchase that is not neutral |
| `Neutral.JoinedInItsEpoch` | programs/hex_vault/src/rounds.rs:119-124 | A round of an epoch that has not ended belongs to the current epoch and ends no later |
| `Neutral.ScheduleIsInvisible` | programs/hex_vault/src/touch.rs:36-62 | No sequence of touches changes what a player will have earned by a later instant |
| `Grid.GridFloorMeaning` | programs/hex_vault/src/epochs.rs:150-163 | `grid_floor` is the last grid point at or before its argument |
| `Grid.EpochSpan` | programs/hex_vault/src/epochs.rs:187-235 | `begin_epoch` opens an epoch with start ≤ now < end ≤ start + period, ending on the grid, after its predecessor; after a predecessor that ended on the grid it starts on it, lasts a whole period, and is contiguous if and only if no whole period was missed |
| `Schedule.EpochsNeverOverlap` | programs/hex_vault/src/epochs.rs:187-235 | No instant lies in two epochs of a reachable state |
| `Schedule.EpochsStayOnGrid` | programs/hex_vault/src/epochs.rs:212-226 | Over every run that does not move the grid, every epoch ends on it and every epoch after the first starts on it, lasts one period and follows its predecessor at once or after whole periods |
| `Vrf.DrawIsUnbiased` | programs/hex_vault/src/vrf.rs:205-222 | Below the rejection limit every residue is hit by exactly limit / range samples; the draw returns a residue if and only if its first accepted sample is one of them; and the rejected samples number max mod range + 1, at most range |
| `Vrf.UnbiasedOutcome` | programs/hex_vault/src/vrf.rs:226-243 | The draw is below its range and differs from the first accepted sample by a whole multiple of it; it fails if and only if the range is empty or all 256 samples are rejected |
| `Vrf.DrawBelow` | programs/hex_vault/src/vrf.rs:205-243 | The loop stops, and returns what the first accepted sample leaves over a whole multiple of the range, or the rejection error |
| `Vrf.ResultIs` | programs/hex_vault/src/vrf.rs:205-243 | If all samples before one lie at or above the limit and that one below, then that sample is high × 2^64 (or 2^128) + q × range + the result, which is below the range, and the next multiple of the range still fits below the maximum |
| `Vrf.LimitMeaning` | programs/hex_vault/src/vrf.rs:205-222 | A value lies below the limit if and only if its whole block of the range fits below the maximum |
| `Boards.CountOnesIsBits` | programs/hex_vault/src/utils.rs:13-23 | The population count of a mask is the number of its tiles counted one by one |
| `Boards.CostIsBoardTotal` | programs/hex_vault/src/rounds.rs:126-131 | Stake times tile count is what a position places on the whole board |
| `Mirrors.ThreeWeightsAgree` | apps/backend/src/indexer/decode.ts:393-405 | For the epoch just ended the operator's weight and the API's are equal, equal to the program's where it gives one, and 0 where it refuses with FrozenEpochMismatch |
| `Mirrors.LiveWeightShown` | apps/backend/src/api/api.service.ts:84-101 | The API's live weight is the eager integral plus the overshoot after a late epoch's end, so exact until then |
| `Witnesses.LateEpochOvershoots` | apps/backend/src/api/api.service.ts:84-101 | A reachable state, 500 seconds past an epoch of 1000, where the API shows 15000 for a player who earned 10000 |
| `Mirrors.BuyAllowanceIsExact` | apps/backend/src/api/api.service.ts:1110-1123 | The allowance shown is what `buy_tickets` accepts, and a purchase lowers it by its amount and raises the jackpot vault by the same |
| `Solvency.GrantCountersAgree` | programs/hex_vault/src/custody.rs:989-1014 | The pool's operator-grant counter is the sum of the players' counters for the current epoch |
| `Grants.GrantsStep` | programs/hex_vault/src/custody.rs:922-945 | Every step, also the lazy reset at a new epoch, keeps the two counters in agreement |
| `Bonuses.ComputedWithinCaps` | apps/backend/src/api/referral-bonus.ts:70-132 | Computed bonuses are positive, name each referrer once, stay within each one's own remaining cap and together within the pool's headroom |
| `Bonuses.ComputedUsesHeadroom` | apps/backend/src/api/referral-bonus.ts:113-131 | Together the bonuses are everything earned if the room allows it, and otherwise use the room up to less than one unit per referrer |
| `Bonuses.ComputesWhatIsDue` | apps/backend/src/api/referral-bonus.ts:70-132 | A record is in the batch if and only if it is the positive bonus of some referrer: the rate of its band (2% from 1 qualified referral, 3% from 3, 4% from 6, 5% from 11) on the sum of its referrals' Principal up to 2500 USDC each, rounded down, no more than its own Principal less what it was granted, in full if everybody's fit the room, and otherwise that amount × room / sum, rounded down |
| `Bonuses.ComputedBonusesAccepted` | apps/backend/src/api/referral-bonus.ts:95-132 | For every reachable pool and inputs that describe it, the batch passes both on-chain caps, sent whole or in part, in any order, at any pace within the epoch |
| `Shares.SplitShares` | apps/backend/src/api/referral-bonus.ts:161-187 | Shares follow the weights' order; all are 0 without grant or weight; for distinct referees they sum exactly to the grant, each is the floor or one more, no remainder means no extra, and extras go strictly by remainder, then referee |
| `Shares.LargerWeightNeverLess` | apps/backend/src/api/referral-bonus.ts:146-152 | A strictly larger weight never gets a smaller share |
| `Shares.SplitIsUnique` | apps/backend/src/api/referral-bonus.ts:176-185 | Only one split has those properties |
| `Shares.LeftoverBounds` | apps/backend/src/api/referral-bonus.ts:170-174 | The floors leave between 0 and as many units as there are remainders |
| `Referral.TrackerMeaning` | apps/backend/src/api/referral.ts:58-81 | After any history the tracker's principal is the balance, and `aboveSince` is set exactly while it is at or above the threshold and names the latest upward crossing |
| `Referral.NeverNegative` | apps/backend/src/api/referral.ts:43-56 | Even on a history that has drifted from the chain the balance is never negative, and a request takes its amount from it as far as it goes |
| `Referral.QualifiedMeansHeld` | apps/backend/src/api/referral.ts:83-90 | A wallet qualifies if and only if its balance was at or above the threshold at the start of the period and after every event since |
| `Referral.CountdownMeaning` | apps/backend/src/api/referral.ts:92-105 | The countdown is absent below the threshold, 0 exactly when qualified, and otherwise the least number of whole days after which an undisturbed wallet qualifies |
| `Tracking.TrackerFollowsChain` | apps/backend/src/indexer/indexer.service.ts:86-117 | Fed with the events of any run from any reachable state, the tracker's principal is always the wallet's Principal on the chain plus what the wallet took out by emergency exits since it was bound, which can only be after shutdown |
| `Tracking.QualifiesOnChain` | apps/backend/src/api/referral.ts:67-90 | Without an emergency exit, a wallet qualifies if and only if it was bound by the start of the period and its Principal on the chain was at or above the threshold in every state of the run in force then or since |
| `Invariant.InvNext` | programs/hex_vault/src/epochs.rs:165-672 | Every instruction, successful or aborted, and every tick keeps the whole invariant |
| `Invariant.ReachableInv` | programs/hex_vault/src/custody.rs:81-215 | From every pool that `create_pool` accepts, every run stays in the invariant |
| `Effects.CustodyEffect` | programs/hex_vault/src/custody.rs:434-542 | A custody instruction changes at most one player, and touches it before its balances move |
| `Effects.EpochEffect` | programs/hex_vault/src/epochs.rs:262-605 | The same for epoch instructions |
| `Effects.RoundEffect` | programs/hex_vault/src/rounds.rs:100-367 | The same for round instructions; a buyer is credited stake times the seconds to the round's end |
| `Movements.CreatesPoolExactly` | programs/hex_vault/src/custody.rs:81-215 | A pool is created if and only if its parameters are acceptable; it starts with the game and the jackpot paused, the House as its only player, and no epoch, round, Ticket or money |
| `Movements.ParamsExactly` | programs/hex_vault/src/custody.rs:217-310 | Parameters are set if and only if the admin signs, every named value is within its bounds and the resulting parameters are sound; they are then the named values and the old ones, and nothing else changes |
| `Movements.SwitchesExactly` | programs/hex_vault/src/custody.rs:312-383 | A pause is set if and only if the admin signs, or the operator turns it on, and nothing is resumed after shutdown; it sets that switch and no other; shutdown is the admin's, once, and sets all three |
| `Movements.DepositExactly` | programs/hex_vault/src/custody.rs:434-487 | Exactly when a deposit succeeds, and that vault, total, Principal and Tickets all grow by its amount and nothing else changes |
| `Movements.RequestExactly` | programs/hex_vault/src/custody.rs:497-542 | A withdrawal can be requested, whatever is paused, if and only if the Principal is there and the numbers fit; Principal becomes a pending claim stamped with the current epoch and instant, as many Tickets go as there are, and no money moves |
| `Movements.ProcessExactly` | programs/hex_vault/src/custody.rs:546-607 | A request is paid if and only if it is pending, its epoch was left, a period has passed or the pool is shut down, and the vault holds it; exactly the claim leaves vault and books |
| `Movements.BorrowExactly` | programs/hex_vault/src/custody.rs:614-656 | The admin can take any amount that leaves the pending withdrawals in the vault, and no claim changes with it |
| `Movements.ExitExactly` | programs/hex_vault/src/custody.rs:663-726 | An emergency exit succeeds if and only if the pool is shut down and the vault holds the player's whole claim, which leaves it, the books and the player |
| `Movements.SweepExactly` | programs/hex_vault/src/custody.rs:751-814 | After shutdown, and only then, the admin's sweep leaves the reserved prizes in the jackpot vault and takes the yield budget as far as the principal vault exceeds the claims, to the last unit and no further |
| `Movements.BuyExactly` | programs/hex_vault/src/custody.rs:856-915 | Tickets are sold if and only if an epoch runs, nothing is paused and the epoch's purchases stay within the Principal; the price goes into the jackpot vault, the Tickets to the player at the pool's rate, the amount onto its counter, which starts over in each epoch |
| `Movements.GrantExactly` | programs/hex_vault/src/custody.rs:966-1028 | A grant is made if and only if the admin signs, or the operator within the player's Principal and the pool's share of all Principal per epoch; an operator's grant is counted on both, an admin's on neither |
| `Stages.BeginDoes` | programs/hex_vault/src/epochs.rs:165-260 | `begin_epoch` leaves the current epoch to registration from now on, opens the next from its predecessor's end or the last grid point, whichever is later, to the next grid point, and changes nothing else |
| `Stages.RegisterDoes` | programs/hex_vault/src/epochs.rs:262-330 | Registering credits the yield of the principal the observer integrated, once, to Principal, Tickets and total, out of the budget; adds an interval as long as the weight the observer integrated, if any, at the end of the others; and changes nothing else |
| `Stages.ClosesExactly` | programs/hex_vault/src/epochs.rs:391-462 | Registration closes if and only if the operator signs, nothing is shut or paused, and the window after the epoch's end or its leaving is over; all that no draw was promised is then the prize, and is reserved for a draw asked for now if someone registered and it reaches the minimum, or else the epoch is over |
| `Stages.PayoutDoes` | programs/hex_vault/src/epochs.rs:509-605 | A prize leaves the reserve whole; a player's moves into the principal vault, the total, its Principal and its Tickets, the House takes half and a fifth of its own out of the jackpot vault; the epoch names its winner, and nothing else changes |
| `Stages.RolloverDoes` | programs/hex_vault/src/epochs.rs:607-679 | An epoch that rolls over gives back what it held, and nothing else changes |
| `Stages.FundsExactly` | programs/hex_vault/src/epochs.rs:332-385 | Anyone can add to the jackpot, and to the yield budget until shutdown; the amount arrives in the vault it backs, and nothing else changes |
| `Turns.CreatesExactly` | programs/hex_vault/src/rounds.rs:25-98 | A round is created if and only if the operator signs, the game is on, none is open, it has the set length and ends within the running epoch, if there is one; it starts empty, with what was carried |
| `Turns.BuysExactly` | programs/hex_vault/src/rounds.rs:100-185 | A position is sold if and only if the game is on, the round is live and more than the close buffer from its end, the buyer is neither the House nor in it, its tiles are on the board, its Tickets cover the price and the numbers have room; the price leaves its Tickets, lies on exactly its tiles, and is in the pot |
| `Turns.AsksExactly` | programs/hex_vault/src/rounds.rs:191-226 | A round waits for its draw from the instant it can no longer be joined |
| `Turns.SettleDoes` | programs/hex_vault/src/rounds.rs:228-304 | A settlement changes its round's result, the House's Tickets and the open round of the pool, and nothing else |
| `Turns.SettlesExactly` | programs/hex_vault/src/rounds.rs:306-367 | A position of a round that no longer runs can be settled by anyone, in any order, if and only if its reward fits the owner's Tickets; the reward is its stake's share of the pot less the cut, rounded down, if it covers the winning tile and the round's epoch lasts, and nothing otherwise; the position is gone, and the others stay |
| `Turns.VoidsExactly` | programs/hex_vault/src/rounds.rs:369-425 | A round is voided if and only if it runs, has no answer and its deadline has passed; its pot is carried within its epoch and lost after it |
| `Turns.ClearsExactly` | programs/hex_vault/src/rounds.rs:436-455 | A round can be closed if and only if it no longer runs and no position is left on it, and takes nothing with it |
| `Refusals.RefusalsAreTrue` | programs/hex_vault/src/errors.rs:1-153 | In every reachable state, whatever instruction aborts, the error it aborts with is one of that instruction's and names something that is the case; an overflow alone says only that a number has no room |
| `Shape.ShapeStep` | programs/hex_vault/src/epochs.rs:187-252 | Every step keeps ids in sequence, epochs ordered and only ever advancing, and every player's stamps in the past |
| `Vault.AddToTiles` | programs/hex_vault/src/rounds.rs:156-160 | The loop over 36 tiles adds the stake to exactly the covered ones, or overflows if any would |
| `Vault.HexVault.constructor` | programs/hex_vault/src/custody.rs:81-215 | A new vault is the specified pool and is valid: its accounts are those of a reachable world |
| `Vault.HexVault.SetParams` | programs/hex_vault/src/custody.rs:217-310 | Field by field in the source's order, is one step of the run or aborts with its error and changes nothing; keeps the object valid, so that every property of reachable states holds of it afterwards |
| `Vault.HexVault.Deposit` | programs/hex_vault/src/custody.rs:434-487 | Vault and Principal of a new or touched player grow by the amount, or it aborts and changes nothing; keeps the object valid, so that every property of reachable states holds of it afterwards |
| `Vault.HexVault.EmergencyWithdraw` | programs/hex_vault/src/custody.rs:663-726 | Exactly the player's whole claim leaves the vault and nothing is left of it, or it aborts and changes nothing; keeps the object valid, so that every property of reachable states holds of it afterwards |
| `Vault.HexVault.BeginEpoch` | programs/hex_vault/src/epochs.rs:165-260 | Leaves one epoch and opens the next as one step of the run, or aborts and changes nothing; keeps the object valid, so that every property of reachable states holds of it afterwards |
| `Vault.HexVault.Register` | programs/hex_vault/src/epochs.rs:262-330 | Credits at most once and lays the interval at the end of the others as one step of the run, or aborts and changes nothing; keeps the object valid, so that every property of reachable states holds of it afterwards |
| `Vault.HexVault.CloseRegistration` | programs/hex_vault/src/epochs.rs:391-462 | Reserves the prize for a draw or rolls the epoch over as one step of the run, or aborts and changes nothing; keeps the object valid, so that every property of reachable states holds of it afterwards |
| `Vault.HexVault.Payout` | programs/hex_vault/src/epochs.rs:491-605 | Pays the House's share or compounds the prize as one step of the run, or aborts and changes nothing; keeps the object valid, so that every property of reachable states holds of it before and afterwards, `Theorems.PaysTheOwner` of whom it pays and `Stages.PayoutDoes` of what |
| `Vault.HexVault.RolloverEpoch` | programs/hex_vault/src/epochs.rs:607-679 | Ends one of three kinds of overdue epoch as one step of the run, or aborts and changes nothing; keeps the object valid, so that every property of reachable states holds of it afterwards |
| `Vault.HexVault.BuyPosition` | programs/hex_vault/src/rounds.rs:100-185 | Pre-credits, takes the stake and places it tile by tile as one step of the run, or aborts and changes nothing; keeps the object valid, so that every property of reachable states holds of it afterwards |
| `Vault.HexVault.SettleRound` | programs/hex_vault/src/rounds.rs:228-304 | Draws the tile by the rejection loop and credits the House as one step of the run, or aborts and changes nothing; keeps the object valid, so that every property of reachable states holds of it before and afterwards, `Play.DrawnTileWins` of the tile and `Turns.SettleDoes` of what changes |
| `Vault.HexVault.SettlePosition` | programs/hex_vault/src/rounds.rs:306-367 | Pays the reward and closes the position as one step of the run, or aborts and changes nothing; keeps the object valid, so that every property of reachable states holds of it afterwards |
| `Vault.HexVault.VoidRound` | programs/hex_vault/src/rounds.rs:369-425 | Carries or drops the pot and frees the pool as one step of the run, or aborts and changes nothing; keeps the object valid, so that every property of reachable states holds of it afterwards |

## Left out

- Roles: `set_operator`, `propose_admin` and `accept_admin` are single-branch; the signer's roles are a parameter.
- Accounts: addresses, account sizes, rent, signer seeds and token accounts of users are not modelled. An account is a
  map entry, a transfer a checked change of a vault balance, and the sender's own balance is not checked.
- Position accounts are kept in the map of the round they belong to.
- Error order: where several account constraints fail at once, the model reports one missing or existing account before
  the checks of the instruction's body.
- Randomness: the hash, the oracle's account format and its requests are not modelled. A fulfilled request holds an
  arbitrary list of 256 samples, and fulfilment is a step that happens at most once per request.
- The clock is a parameter that never decreases and is never negative.
- The minimum timeouts are those of the production build, not of the `test-vrf` feature.
- Third-party transfers into the principal vault count as principal brought back, and transfers into the jackpot vault
  as funding.
- Account versions, and events but for the four that the hold tracker reads, have no behaviour here.
- The operator's and the indexer's services are not part of this model: the hold tracker is fed every event once, in order,
  and its hourly comparison with the accounts is left out.
- Refusals.RefusalsAreTrue: says nothing about an overflow beyond the exact conditions of success of each instruction.
- Invite codes, referral pages, rate bands, odds formatting, the web and landing applications, and the API's caches: they
  display or look up what is modelled here, and decide nothing about it.
- Shares.SplitShares: exactness is stated for distinct referees and non-negative weights, which is what its callers pass;
  with a repeated referee the source's map keeps one floor for both entries, and the sum need not be the grant.
- Neutral.BuyIsNeutral: says nothing of rounds created before the first epoch, for which it is false; the exact condition
  is `Neutral.NeutralExactly`.
- Exit.EveryClaimPayable: claims whose weight accumulator does not fit are excepted, because the program does refuse
  them; `Exit.RefusalIsPermanent` and `Locked.LockedForGood` say what happens to them.
- Exit.EveryRequestPayable: a request whose deadline is past the end of the clock is excepted, because the program does
  refuse it (`Witnesses.UnprocessableRequest`).
- Solvency.PrizeIsPayable: a prize there is no room for is excepted, because the program does refuse it
  (`Witnesses.UncollectablePrize`).
- Vault.HexVault: the methods for switches, funding and single-guard instructions have contracts of the same form as the
  others and no row of their own.
