# SoroPerps in Dafny

A model of the on-chain core of SoroPerps, a pool-based perpetual futures exchange on Soroban, and
proofs of what it promises to its LPs, its traders and its keepers. It covers the LP vault, the
position manager, the liquidation engine, the funding-rate contract, the oracle adapter and the
USDC token they move.

`dafny verify dfyconfig.toml` checks the whole project.

## How the model is built

- **Arithmetic** (`Arithmetic.dfy`). Rust's `/` truncates toward zero, so `TDiv` does too. Every i128
  or u64 result is checked and an overflow is the error `ArithmeticTrap`, as the release profile keeps
  overflow checks on (Cargo.toml:29). `as u32` keeps the low 32 bits (`AsU32`).
- **Formulas** (`Shares.dfy`, `PositionMath.dfy`) are pure functions in exact integers, each beside the
  version that makes its overflow checks.
- **Contracts** (`Token`, `Oracle`, `Vault`, `PositionManager`, `LiquidationEngine`, `FundingRate`). Each
  has its storage as a value, its entry points as functions from storage to new storage or an error,
  and a class whose fields are the storage keys and whose methods update them in the order the
  contract does. A method's contract ties the new fields to the function. Where a contract writes
  before its last error (`SettleBody`, `OpenBody`, ...), the body leaves the writes in place and the
  entry point (`...Call`) restores its frame, which is what the host does with a call that fails.
- **Runs** (`Protocol.dfy`). A `World` holds all storage, the token and the clock. A `Call` is any
  external call by anyone with any arguments, a plain USDC transfer, time passing, or the host dropping
  a cached price. `Exec` runs a call and reverts a failing one; `Run` folds it over any sequence;
  `Deploy` is the state after the five `initialize` calls.
- **Deployed objects** (`Chain.dfy`). A `Ledger` holds one object per contract, wired as the deployment
  wires them. Submitting a call to it runs the methods and leaves what `Exec` says, so that every
  theorem about runs is one about the fields of these objects.
- **Theorems**: `Books` (all ledgers agree), `Solvency`, `Utilization`, `Exit` (everyone can leave),
  `ShareFairness`, `LiquidationHealth`, `FundingRuns`, `FundingSettlement`, `Isolation`,
  `PriceProvenance`; and what every call answers, and when: `VaultOutcomes`, `TradeOutcomes`,
  `Settings`, `NoOverflow`. `Scenarios` holds runs from a deployment on which a promise fails.

## Main results

1. In every reachable state all books agree (`Books.ReachableIsSound`).
2. Over every run, vault USDC + uncovered close fees = pool deposits + open collateral + donations
   (`Solvency.Conservation`). So the vault holds every USDC it books exactly when the donations make up
   for the uncovered fees (`Solvency.SolventIffShortfallDonated`); timely liquidation leaves none
   uncovered (`Solvency.SolventUnderTimelyLiquidation`).
3. For any limit of at most 9999 bps: on a run on which every closed position won at most its size, the
   admin set no higher maximum, no lock was made on an empty pool and no utilization check lost bits,
   locked liquidity never leaves the limit (`Utilization.OrdinaryRunStaysWithin`). At its end, if no USDC
   is missing, every position that wins at most its size can be closed and every liquidatable position
   can be liquidated (`Utilization.OrdinaryRunSettlesEveryone`). With USDC also for the close fees still
   to be left uncovered, all can be ended one after the other, in any order, after which nothing is
   locked, all LPs can redeem in any order, and the pool is empty (`Exit.EveryoneCanLeaveAfter`); only
   overflows and amounts that round to zero stand in the way. At 10000 bps this fails
   (`Scenarios.FullUtilizationIsTooMuch`). Whatever the limit, with no USDC missing, a close at a fresh
   price that overflows nothing succeeds exactly when the pool holds what the position wins
   (`Utilization.WinnerIsPaidIff`).
4. An LP who does nothing never loses redemption value to others' deposits, withdrawals, or trades
   that do not cost the pool (`ShareFairness.IdleLpNeverLoses`), and those are exactly the runs on which
   no call lowers the share price (`ShareFairness.SteadyIffNoCallLowersPrice`); splitting gains nothing.
5. A position is liquidatable on exactly one side of a single price, given in closed form
   (`LiquidationHealth.SingleLiquidationPrice`).
6. Funding indices grow by twice the spread per live application and funding is paced by its interval
   (`FundingRuns.FundingFromDeployment`); settling it lazily is accurate to less than one unit a step.
   But nothing settles it: on every run, the rest of the protocol ends where it ends without the funding
   calls (`FundingSettlement.FundingMovesNothing`).
7. An account that no call names keeps everything it has (`Isolation.BystanderIsUntouched`), and every
   price is served exactly when it is the last one that the oracle's admin set for the asset and is
   still fresh (`PriceProvenance.PriceIsServedIff`).
8. Every call succeeds exactly under a condition stated without its divisions, casts and branches, fails
   with a named error otherwise, and on success moves exactly the stated figures
   (`VaultOutcomes.DepositOutcome`, `VaultOutcomes.WithdrawOutcome`, `TradeOutcomes.OpenOutcome`,
   `TradeOutcomes.CloseOutcome`, `TradeOutcomes.LiquidateOutcome`, `TradeOutcomes.FundingCharges`,
   `Settings.SettingOutcome`, ...). The one exception, an overflow, does not happen while the figures of
   the protocol are at most 2^56, some 7.2 billion USDC (`NoOverflow.ModestCallNeverOverflows`).
9. The contract objects, through any sequence of submitted calls, hold what the run of these calls
   holds (`Chain.Ledger.Submit`).

## Where the code and its documentation disagree

The model follows the code.

- SoroPerps' own README (line 54) and the comment at
  contracts/integration-tests/src/test_edge_cases.rs:361 say that capping losses keeps pool deposits
  from being inflated. The pool still books a close fee that the trader cannot pay.
  `Scenarios.ShippedScenarioIsShort` is that test's own scenario: 100102 USDC booked, 100101 held.
  `Solvency.SolventIffShortfallDonated` says exactly which runs end solvent, and
  `Solvency.DonationsIntactIffFeesCovered` which end so without drawing on a donation.
- The maximum utilization is not always enforced, neither on a lock nor on a withdrawal: the cast to
  u32 drops high bits, and an empty pool counts as not utilized. `Utilization.LockRespectsLimitIff` and
  `Utilization.WithdrawRespectsLimitIff` give the exact conditions, `Scenarios.LimitCanBePassed`,
  `Scenarios.EmptyPoolPassesLimit` and `Scenarios.WithdrawalPassesLimit` runs from deployment.
- A winner is not always paid within the limit: a long can win more than its size, and at a limit of
  100% not even a win of the size is covered. `Utilization.WinnerIsPaidIff` gives the exact condition,
  `Scenarios.BigWinnerIsNotPaid` and `Scenarios.FullUtilizationIsTooMuch` runs from deployment.
- contracts/funding-rate/src/lib.rs:201-202 and line 47 of SoroPerps' own README say that the lighter
  side receives funding. It does exactly when both the rate cap and the skew exceed the spread
  (`FundingRuns.LighterSideIsPaidIff`); at the default rates both sides can pay
  (`Scenarios.BothSidesPayAtDefaults`).
- Line 55 of SoroPerps' own README says that funding is settled when a position closes. No call settles
  it, and every position records index 0 at its opening (contracts/position-manager/src/lib.rs:166).
  `FundingSettlement.FundingMovesNothing` is the statement for all runs,
  `FundingSettlement.EndingSettlesFundingIff` says exactly when an ending pays what it would if funding
  were settled, and `Scenarios.FundingIsNotSettled` is a run on which it does not.
- contracts/position-manager/src/lib.rs:426-443 accepts an open fee of 0, with which no position can be
  opened, because the vault refuses to collect nothing. `Books.OpenNeedsFee` gives the exact condition
  for every rate, `Scenarios.FreeOpeningFails` a run.

## Model

| member | source | states |
|---|---|---|
| Shares.RoundTrip | contracts/vault/src/shares.rs:7-24 | From a pool with shares and deposits, depositing `amount` and redeeming the minted shares returns r with 0 <= r <= amount and (amount - r - 1) * S < D. |
| Shares.MintKeepsPrice | contracts/vault/src/shares.rs:7-13 | A mint is non-negative and leaves deposits per share no lower. |
| Shares.RedeemKeepsPrice | contracts/vault/src/shares.rs:18-24 | A redemption returns between 0 and the pool and leaves deposits per share no lower. |
| Shares.RedeemAll | contracts/vault/src/shares.rs:18-24 | Redeeming every share returns the whole pool. |
| Shares.IdleShareValue | contracts/vault/src/shares.rs:18-24 | A fixed balance is redeemable for no less at a price that is no lower, through the truncation. |
| Shares.UtilizationBound | contracts/vault/src/shares.rs:40-46 | When the cast loses nothing, utilization <= m if and only if locked * 10000 < (m + 1) * deposits. |
| Shares.UtilizationCastExact | contracts/vault/src/shares.rs:40-46 | The u32 utilization is the true one if and only if the true one is below 2^32. |
| VaultOutcomes.SharePriceIsFloor | contracts/vault/src/shares.rs:29-35 | The displayed price P satisfies P * S <= D * 10^7 < (P + 1) * S, and is 10^7 without shares. |
| VaultOutcomes.CheckPassesIff | contracts/vault/src/shares.rs:40-46 | The utilization check passes if and only if the pool is empty or, for some k, k * 2^32 * D <= locked * 10000 < (k * 2^32 + max + 1) * D: the wrap-around of the cast included. |
| VaultOutcomes.AcceptedWithinCast | contracts/vault/src/shares.rs:40-46 | Below 2^32 bps that is locked * 10000 < (max + 1) * D. |
| PositionMath.PnlIsZeroSum | contracts/position-manager/src/math.rs:7-17 | Long and short PnL on the same terms are exact negatives, truncation included. |
| PositionMath.PnlWithinSize | contracts/position-manager/src/math.rs:7-17 | At a positive price long PnL >= -size and short PnL <= size; long PnL <= size exactly up to twice the entry price plus rounding. |
| PositionMath.FeeBounds | contracts/position-manager/src/math.rs:20-22 | The fee is the largest amount whose 10000-fold is at most size * rate. |
| PositionMath.NoPaymentIff | contracts/position-manager/src/math.rs:28-34 | A position owes and receives nothing if and only if size times the index move is below 10000. |
| PositionMath.LazyFundingIsAccurate | contracts/position-manager/src/math.rs:28-34 | Over a path of n >= 1 index steps, the per-step payments differ from one payment over the span by at most n - 1, for any signs. |
| Token.TransferConserves | contracts/vault/src/lib.rs:170-172 | A transfer keeps the sum of all balances. |
| VaultOutcomes.TransferOutcome | contracts/vault/src/lib.rs:170-172 | A transfer goes through if and only if 0 <= amount <= the sender's balance, and then moves the amount and nothing else, also to the sender itself. |
| Token.UsdcToken.TransferFrom | contracts/vault/src/lib.rs:170-172 | The token method moves the amount or refuses and changes nothing. |
| Oracle.OracleAdapter.Set | contracts/oracle-adapter/src/lib.rs:109-128 | The admin stores a positive price with the current time; anything else is refused and changes nothing. |
| Oracle.OracleAdapter.SetThreshold | contracts/oracle-adapter/src/lib.rs:157-173 | The admin stores a positive staleness threshold; anything else changes nothing. |
| VaultOutcomes.PriceOutcome | contracts/oracle-adapter/src/lib.rs:132-145 | A cached price is served if its age is at most the threshold; otherwise, or without one, the answer is StalePrice. |
| Vault.LpVault.DepositCall | contracts/vault/src/lib.rs:154-185 | A deposit moves token, deposits, shares and the depositor's balance as `Deposit` says, or fails and leaves vault and token unchanged. |
| Vault.LpVault.WithdrawCall | contracts/vault/src/lib.rs:188-235 | A withdrawal does what `Withdraw` says, or fails and leaves vault and token unchanged. |
| Vault.LpVault.Lock | contracts/vault/src/lib.rs:254-275 | A lock adds to `locked` if the utilization check passes, or changes nothing. |
| Vault.LpVault.Collect | contracts/vault/src/lib.rs:388-402 | A positive fee is added to the deposits; anything else changes nothing. |
| Vault.LpVault.SettleBody | contracts/vault/src/lib.rs:341-384 | A settlement unlocks, books PnL and fee, and pays the trader as `SettleClose` says; on an error nothing is promised but the error, since `locked` is already written. |
| Vault.LpVault.SetMax | contracts/vault/src/lib.rs:468-480 | The admin sets a maximum in 1..10000; anything else changes nothing. |
| VaultOutcomes.DepositOutcome | contracts/vault/src/lib.rs:154-185 | A deposit succeeds if and only if the amount is positive, the pool has no shares or no deposits or amount * S >= D, and the depositor holds it; each failing condition has its error; what is locked plays no part. |
| VaultOutcomes.DepositEffect | contracts/vault/src/lib.rs:164-180 | It mints the largest m with m * D <= amount * S (or the amount, in a new pool), and moves deposits, shares, this LP's balance and USDC by these figures and nothing else. |
| VaultOutcomes.WithdrawOutcome | contracts/vault/src/lib.rs:188-235 | A withdrawal, also with liquidity locked, succeeds if and only if 0 < shares <= balance, shares * D >= S, the check accepts what stays behind `locked` (nothing may stay locked behind an empty pool), and the vault holds the USDC; each failing condition has its error. |
| VaultOutcomes.WithdrawEffect | contracts/vault/src/lib.rs:204-230 | It pays the largest u with u * S <= shares * D and moves deposits, shares, this LP's balance and USDC by these figures and nothing else. |
| VaultOutcomes.LockOutcome | contracts/vault/src/lib.rs:254-275 | A lock succeeds if and only if it is positive and the check accepts it; otherwise InvalidAmount or MaxUtilizationExceeded. |
| VaultOutcomes.LockWithinCastOutcome | contracts/vault/src/lib.rs:262-271 | Below 2^32 bps in a funded pool: Ok with `locked` up by the amount if and only if (locked + amount) * 10000 < (max + 1) * D, so exactly at the maximum too. |
| PositionManager.Manager.OpenCall | contracts/position-manager/src/lib.rs:113-199 | Opening takes collateral and fee, locks the size and records the position as `OpenPosition` says, or fails and leaves manager, vault and token unchanged. |
| PositionManager.Manager.CloseCall | contracts/position-manager/src/lib.rs:202-288 | Closing does what `ClosePosition` says and returns the net PnL, or fails and leaves everything unchanged. |
| PositionManager.Manager.LiquidateBody | contracts/position-manager/src/lib.rs:327-401 | A force-close settles without a fee as `LiquidatePosition` says and returns collateral and PnL. |
| PositionManager.Manager.RecordBody | contracts/position-manager/src/storage.rs:153-231 | The id counter, the position map, open interest and the trader's count move together as `Record` says. |
| PositionManager.Manager.EraseBody | contracts/position-manager/src/lib.rs:260-276 | The position, its open interest and its trader's count are taken off together as `Erase` says. |
| PositionManager.Manager.SetFees | contracts/position-manager/src/lib.rs:426-443 | The admin sets fee rates up to 1000 bps; anything else changes nothing. |
| PositionManager.Manager.SetLeverage | contracts/position-manager/src/lib.rs:445-456 | The admin sets a positive maximum leverage; anything else changes nothing. |
| TradeOutcomes.OpenOutcome | contracts/position-manager/src/lib.rs:113-199 | An open succeeds if and only if collateral and leverage are within the settings, the price is fresh, the trader holds collateral and fee, the size is positive, the utilization check accepts it and size * rate >= 10000; each failing condition has its error. |
| TradeOutcomes.OpenReturnsId | contracts/position-manager/src/lib.rs:153-198 | It returns the id under which the position is recorded, the next one is one more. |
| TradeOutcomes.CloseOutcome | contracts/position-manager/src/lib.rs:202-288 | A close succeeds if and only if the position is there with the named asset, its price is fresh, the pool holds what it wins net of the fee and the vault what is paid out; it returns capped PnL less fee; each failing condition has its error. |
| TradeOutcomes.CloseReturnsWhatItMoves | contracts/position-manager/src/lib.rs:245-287 | For the returned r: deposits move by -r, the trader gets max(0, collateral + r), and the vault pays it. |
| TradeOutcomes.ForceCloseOutcome | contracts/position-manager/src/lib.rs:327-401 | The same for a force-close, without a fee; it returns collateral and capped PnL. |
| LiquidationEngine.Engine.LiquidateCall | contracts/liquidation-engine/src/lib.rs:230-326 | A liquidation checks health, force-closes and reports as `Liquidate` says, or fails and leaves everything unchanged. |
| LiquidationEngine.Engine.SetMaintenance | contracts/liquidation-engine/src/lib.rs:332-343 | The admin sets a maintenance margin in 1..5000; anything else changes nothing. |
| LiquidationEngine.Engine.SetPenalty | contracts/liquidation-engine/src/lib.rs:345-353 | Only the admin sets the penalty rate. |
| LiquidationEngine.Engine.SetReward | contracts/liquidation-engine/src/lib.rs:355-363 | Only the admin sets the keeper rate. |
| TradeOutcomes.EngineRatioOutcome | contracts/liquidation-engine/src/lib.rs:181-202 | At every fresh price the engine gives the margin ratio: with equity E, ratio * size <= E * 10000 < (ratio + 1) * size for E >= 0, and (ratio - 1) * size < E * 10000 <= ratio * size, ratio <= 0, for E < 0. |
| TradeOutcomes.HealthOutcome | contracts/liquidation-engine/src/lib.rs:208-221 | At every fresh price it answers whether an open position is liquidatable, by the exact check. |
| TradeOutcomes.LiquidateOutcome | contracts/liquidation-engine/src/lib.rs:230-326 | A liquidation succeeds if and only if the position is there, the named asset's price is fresh, the position is below maintenance at it and has that asset, the pool holds what it wins and the vault what is paid out; it reports that price and the true margin ratio; each failing condition has its error. |
| FundingRate.Funding.ApplyCall | contracts/funding-rate/src/lib.rs:239-273 | Funding moves both indices and the last time as `ApplyFunding` says, or is too early (or overflows) and changes nothing. |
| FundingRate.Funding.SetInterval | contracts/funding-rate/src/lib.rs:298-309 | The admin sets a positive interval; anything else changes nothing. |
| FundingRate.Funding.SetMax | contracts/funding-rate/src/lib.rs:311-322 | The admin sets a positive rate cap; anything else changes nothing. |
| TradeOutcomes.FundingOutcome | contracts/funding-rate/src/lib.rs:239-262 | Funding is applied if and only if the interval has passed, at any time from then on, and its time is then now; before it is FundingTooEarly. |
| TradeOutcomes.FundingCharges | contracts/funding-rate/src/lib.rs:200-259 | An application moves the heavier side's index by spread + b and the other's by spread - b, where b is the skew in bps rounded down and capped, whichever side is heavier; without open interest nothing moves. |
| TradeOutcomes.HeavierSideIsCharged | contracts/funding-rate/src/lib.rs:200-259 | The index of the heavier side never moves less than that of the lighter side. |
| Settings.SettingOutcome | contracts/vault/src/lib.rs:468-480 | For all ten settings and prices of the five contracts: accepted if and only if the administrator makes it within its range, with the error otherwise, and then in force. |
| Settings.SettingSetsOnlyItself | contracts/position-manager/src/lib.rs:426-456 | Making one setting leaves every other setting and price in force or not as it was. |
| Settings.DeploymentOutcome | contracts/integration-tests/src/harness.rs:30-85 | A deployment is accepted if and only if each of its settings would be and keeper reward <= penalty; each setting is then in force, and nobody holds or owes anything. |
| NoOverflow.ModestCallNeverOverflows | Cargo.toml:29 | In a sound state whose shares, deposits, locked liquidity, balances, prices, counters, clock and indices are at most 2^56, no call with arguments up to 2^56 overflows. |
| Books.ReachableIsSound | contracts/position-manager/src/lib.rs:155-184 | In every reachable state: `locked` = long + short open interest = sum of open sizes; each side's open interest is the sum over its side; each count is the number of that trader's positions; ids are distinct and below the next; every position has collateral > 0, leverage >= 1, size = collateral * leverage, entry price > 0; total shares = sum of balances; prices positive; settings in range. |
| Books.RunKeepsSound | contracts/position-manager/src/lib.rs:259-276 | Any run from a state whose books agree ends in one whose books agree. |
| Books.OpenedPositionIsSound | contracts/position-manager/src/lib.rs:124-170 | A successful open records a position with positive collateral, size and entry price even under a non-positive minimum collateral, at the oracle's price and within the leverage limit. |
| Books.OpenNeedsFee | contracts/vault/src/lib.rs:388-402 | An open that succeeds has size * open rate >= 10000; one that passes the other checks and overflows nothing succeeds if so, and otherwise fails with InvalidAmount. |
| Scenarios.FreeOpeningFails | contracts/position-manager/src/lib.rs:426-443 | A run from deployment: the admin sets the open fee to 0 and an ordinary open fails with InvalidAmount. |
| Books.EraseKeepsCounts | contracts/position-manager/src/lib.rs:272-276 | When a position is removed its trader's count is positive and drops by one, so the guard never takes its failing side, and all counts still agree. |
| Books.LockedCoversSize | contracts/vault/src/lib.rs:353-358 | Every open size is part of what is locked, so unlocking it never goes negative. |
| Books.WithdrawKeepsShares | contracts/vault/src/lib.rs:196-225 | A successful withdrawal burns at most the total shares, pays at most the deposits, keeps shares = sum of balances, and leaves deposits 0 when it burns the last share. |
| Books.DepositKeepsShares | contracts/vault/src/lib.rs:174-180 | A successful deposit keeps shares = sum of balances. |
| Books.SettlementOf | contracts/position-manager/src/lib.rs:229-257 | A successful close or liquidation settles an open position of the named asset at its capped PnL, with the close fee on a close and none on a liquidation. |
| Solvency.Conservation | contracts/vault/src/lib.rs:366-378 | Over every run from deployment, vault USDC + total shortfall = deposits + open collateral + donations. |
| Solvency.RunMovesSurplus | contracts/vault/src/lib.rs:366-378 | From any sound state, a run moves the surplus by exactly the donations less the shortfalls of its closes. |
| Solvency.ShortfallAtMostFee | contracts/position-manager/src/lib.rs:235-257 | A close leaves at most its own fee uncovered. |
| Solvency.SupplyIsFixed | contracts/vault/src/lib.rs:170-172 | Over every run the total USDC supply is unchanged. |
| Solvency.SolventIffShortfallDonated | contracts/vault/src/lib.rs:366-378 | At the end of any run from deployment, the vault's USDC is at least deposits + open collateral if and only if the shortfalls of the run sum to at most its donations. |
| Solvency.DonationsIntactIffFeesCovered | contracts/vault/src/lib.rs:366-378 | The vault's USDC is exactly deposits + open collateral + donations if and only if every successful close covered its fee. |
| Solvency.SolventUnderTimelyLiquidation | contracts/liquidation-engine/src/lib.rs:200-219 | If every close that succeeds happens at a fee rate at most the maintenance margin, on a position the engine would not liquidate, the vault holds exactly deposits + open collateral + donations. |
| Solvency.HealthyPaysFeeIff | contracts/position-manager/src/math.rs:20-22 | Every position the engine calls healthy can pay its close fee if and only if the fee rate is at most the maintenance margin. |
| Scenarios.ShippedScenarioIsShort | contracts/integration-tests/src/test_edge_cases.rs:333-369 | From deployment, the shipped loss-cap scenario ends with 100102 USDC booked, 100101 held, 399 with the trader and no position open. |
| Scenarios.DonationMakesWhole | contracts/vault/src/lib.rs:366-378 | After a plain transfer of 1 USDC to the vault the same run ends with 100102 USDC booked and held. |
| Solvency.WithdrawalIsPaid | contracts/vault/src/lib.rs:227-230 | With no USDC missing, the token never refuses a withdrawal the vault grants. |
| Utilization.LockRespectsLimitIff | contracts/vault/src/lib.rs:262-271 | A successful lock leaves the pool within the configured maximum, or any m from there to 100%, if and only if the pool is not empty and the cast loses nothing. |
| Utilization.WithdrawRespectsLimitIff | contracts/vault/src/lib.rs:211-220 | A successful withdrawal leaves the pool within it if and only if the cast loses nothing. |
| Scenarios.LimitCanBePassed | contracts/vault/src/shares.rs:40-46 | A run from deployment: 2^28 units are locked in a pool of one unit at a limit of 80%. |
| Scenarios.EmptyPoolPassesLimit | contracts/vault/src/lib.rs:262-271 | A run from deployment: a position of 100 USDC opens on a pool that nobody has funded. |
| Scenarios.WithdrawalPassesLimit | contracts/vault/src/lib.rs:211-220 | A run from deployment: a withdrawal leaves 2 units of deposits behind 2^29 locked. |
| Utilization.CallKeepsLimitIff | contracts/vault/src/lib.rs:188-275 | In a sound pool within a limit m <= 9999, any one call keeps it within m if and only if the call fails or is prudent: no higher maximum set, no lock on an empty pool, no cast that loses bits, and of a close, that the limit holds for the figures it leaves, computed before the call. |
| Utilization.StaysWithinIffPrudent | contracts/vault/src/lib.rs:188-275 | For m <= 9999, every state of a run that starts within m is within m if and only if every call on it that succeeds is prudent in this sense. |
| Utilization.OrdinaryRunIsPrudent | contracts/vault/src/lib.rs:353-370 | For m <= 9999, a run that starts within m, and whose closes are only required to win at most the position's size, is prudent: that the limit survives each close is derived. |
| Utilization.OrdinaryRunStaysWithin | contracts/vault/src/lib.rs:188-275 | So every state of such a run is within m: locked is 0 or locked * 10000 < (m + 1) * deposits. |
| Utilization.OrdinaryCloseIsPrudent | contracts/vault/src/lib.rs:353-370 | Within a limit m <= 9999, closing a position that wins at most its size is prudent. |
| Utilization.PrudentRunKeepsLimit | contracts/vault/src/lib.rs:211-220 | With limit m <= 9999, at the end of a prudent run locked is 0 or locked * 10000 < (m + 1) * deposits. |
| Utilization.SettlementNeverRaisesUtilization | contracts/vault/src/lib.rs:353-370 | Settling with size <= locked <= deposits and pnl - fee <= size gives locked' * D <= locked * D'. |
| Utilization.OrdinaryWinIsWithinSize | contracts/position-manager/src/math.rs:7-17 | Every short, and every long up to twice its entry price, wins at most its size. |
| Utilization.SettlementSucceedsIff | contracts/vault/src/lib.rs:341-384 | In a sound market with no USDC missing, a settlement that overflows nothing succeeds if pnl - fee <= deposits and otherwise fails with InsufficientLiquidity. |
| Utilization.WinnerIsPaidIff | contracts/position-manager/src/lib.rs:202-288 | So does a close of an open position at a fresh price. |
| Utilization.WinnerIsPaid | contracts/vault/src/lib.rs:353-378 | In a pool within a limit of at most 9999 bps with no USDC missing, closing a position that wins at most its size succeeds unless a number overflows: never OverflowError, InsufficientLiquidity or a refused transfer. |
| Scenarios.BigWinnerIsNotPaid | contracts/vault/src/lib.rs:366-369 | A run from deployment: within the limit, a 7x long whose price has tripled cannot be closed, for lack of liquidity. |
| Scenarios.FullUtilizationIsTooMuch | contracts/vault/src/lib.rs:468-480 | A run from a deployment with a maximum of 10000 bps: within the limit, a position that wins exactly its size cannot be closed, so 9999 cannot be raised. |
| Utilization.LiquidatableIsLiquidated | contracts/liquidation-engine/src/lib.rs:230-268 | In such a pool, at a limit of at most 9999 bps, every position the engine calls liquidatable can be liquidated, unless a number overflows, with no condition on the price. |
| Utilization.EveryoneCanBeSettled | contracts/vault/src/lib.rs:211-220 | For a limit of at most 9999 bps: both promises, and locked = 0 or locked < deposits, at the end of every prudent run from deployment whose donations make up for its shortfalls. |
| Utilization.OrdinaryRunSettlesEveryone | contracts/vault/src/lib.rs:211-220 | The same at the end of every such run whose closes are only required to win at most the position's size. |
| Exit.EndingsGoThrough | contracts/vault/src/lib.rs:341-384 | When the pool, also less any USDC missing, covers what is locked, closes at fresh prices of positions that win at most their size and liquidations of liquidatable ones succeed one after the other in any order, unless a number overflows. |
| Exit.RedemptionsGoThrough | contracts/vault/src/lib.rs:188-235 | With nothing locked and no USDC missing, LPs can redeem their whole balances in any order; a redemption fails only by overflow or for an amount of zero. |
| Exit.EveryoneCanLeave | contracts/vault/src/lib.rs:188-384 | From a sound state within a limit of at most 9999 bps, with USDC for the close fees that will not be covered, all positions can be ended in any order, then nothing is locked, all LPs can redeem in any order, and then no shares and (if there were any shares) no deposits are left; only overflows and amounts of zero stand in the way. |
| Exit.EveryoneCanLeaveAfter | contracts/vault/src/lib.rs:188-384 | So it is at the end of every run from deployment whose closes won at most the position's size, when donations make up for the shortfalls. |
| Utilization.LiquidatableWinsLittle | contracts/liquidation-engine/src/lib.rs:253-259 | A position below a maintenance margin of at most 50% is worth less than half its size. |
| ShareFairness.SharePriceNeverFalls | contracts/vault/src/lib.rs:154-235 | Over any run with shares outstanding, on which no settled position wins more than its fee, D_n * S_0 >= D_0 * S_n. |
| ShareFairness.CallKeepsPriceIff | contracts/vault/src/lib.rs:154-235 | In a sound pool with shares, any one call keeps the share price if and only if it does not settle a position that wins more than its fee. |
| ShareFairness.SteadyIffNoCallLowersPrice | contracts/vault/src/lib.rs:154-235 | While shares are outstanding, no call of a run lowers the price if and only if no settled position on it wins more than its fee. |
| ShareFairness.EndingKeepsPriceIff | contracts/vault/src/lib.rs:361-370 | A close or liquidation keeps the share price if and only if the position wins at most the fee it pays. |
| ShareFairness.IdleLpNeverLoses | contracts/vault/src/lib.rs:154-235 | On such a run an LP whom no deposit or withdrawal names can redeem at least as much at the end. |
| ShareFairness.DisplayedPriceNeverFalls | contracts/vault/src/lib.rs:435-440 | Nor does the displayed share price fall. |
| ShareFairness.WithdrawingInPiecesGainsNothing | contracts/vault/src/lib.rs:188-235 | Any number of withdrawals in a row returns at most the redemption price of their sum. |
| ShareFairness.DepositingInPiecesGainsNothing | contracts/vault/src/lib.rs:154-185 | Any number of deposits in a row mints at most what one deposit of their sum does. |
| ShareFairness.DepositThenWithdraw | contracts/vault/src/lib.rs:154-235 | Depositing and withdrawing the minted shares returns at most the deposit, loses less than one share's worth plus one unit, and leaves shares and balance as they were. |
| ShareFairness.NextDepositorOwnsLeftovers | contracts/vault/src/shares.rs:8-9 | With no shares outstanding, the next depositor can redeem the deposit and everything the pool still held. |
| LiquidationHealth.EngineChecksMaintenance | contracts/liquidation-engine/src/lib.rs:181-220 | The engine's answer is the exact two-division check at the oracle's price. |
| LiquidationHealth.SingleLiquidationPrice | contracts/liquidation-engine/src/lib.rs:195-219 | A long is liquidatable if and only if the price is below, a short if and only if it is above, one closed-form price. |
| LiquidationHealth.WorsePriceStaysLiquidatable | contracts/liquidation-engine/src/lib.rs:195-219 | A liquidatable position stays so at every worse price. |
| LiquidationHealth.BankruptIsLiquidatable | contracts/liquidation-engine/src/lib.rs:253-259 | A position with collateral + PnL <= 0 is liquidatable. |
| LiquidationHealth.BornLiquidatableIff | contracts/integration-tests/src/test_edge_cases.rs:380-410 | At its entry price a position is liquidatable if and only if leverage * maintenance exceeds 100%. |
| LiquidationHealth.LiquidationAgrees | contracts/liquidation-engine/src/lib.rs:244-291 | A successful liquidation ended a position of the named asset that was below maintenance at the settled price; the trader received exactly max(0, collateral + raw PnL), the pool the rest; penalty and reward are the levies on that equity, within it, and reward <= penalty while the rates are so ordered. |
| LiquidationHealth.LevyIsLargest | contracts/liquidation-engine/src/lib.rs:278-291 | A levy is the largest amount allowed by both the rate on the collateral and the equity. |
| LiquidationHealth.ClosingAPairPaysFees | contracts/position-manager/src/lib.rs:229-257 | Closing a long and a short of equal size and entry at one price moves the pool by exactly the two fees if and only if neither loss reaches past the collateral. |
| FundingRuns.RateBounds | contracts/funding-rate/src/lib.rs:204-236 | Both rates lie within cap + spread and sum to twice the spread, or to 0 without open interest. |
| FundingRuns.LighterSideIsPaidIff | contracts/funding-rate/src/lib.rs:200-235 | The heavier side never has the lower rate; the lighter side receives if and only if cap and skew both exceed the spread. |
| Scenarios.BothSidesPayAtDefaults | contracts/integration-tests/src/harness.rs:74-80 | A run from deployment at the default rates: one application with 100.01 USDC long against 99.99 short raises the indices by 6 and 4: nobody receives. |
| FundingRuns.IndicesGrowBySpread | contracts/funding-rate/src/lib.rs:254-259 | Over every run the indices together grow by twice the spread per application at non-zero open interest. |
| FundingRuns.IndicesAreBounded | contracts/funding-rate/src/lib.rs:226-259 | After n applications, the admin having set no cap above M, each index has moved at most n * (M + spread). |
| FundingRuns.FundingIsPaced | contracts/funding-rate/src/lib.rs:243-260 | After n applications, the admin having set no interval below I, last time >= initial + n * I and never past the clock. |
| FundingRuns.FundingFromDeployment | contracts/funding-rate/src/lib.rs:192-260 | From deployment all three hold together, and n <= elapsed / I. |
| FundingSettlement.FundingMovesNothing | contracts/position-manager/src/lib.rs:202-288 | On every run, from any funding state, token, oracle, vault, manager and engine end exactly where they end when the calls to the funding contract are left out. |
| FundingSettlement.EndingPaysEquity | contracts/vault/src/lib.rs:372-378 | A close or liquidation pays max(0, collateral + PnL - fee), whatever funding is due. |
| FundingSettlement.EndingSettlesFundingIff | contracts/position-manager/src/math.rs:28-34 | An ending pays max(0, equity - funding due), for any entry index, if and only if size times index move is below 10000 or neither equity nor equity less the due is positive. |
| Scenarios.FundingIsNotSettled | contracts/position-manager/src/lib.rs:166-257 | A run from deployment: 1.5 USDC of funding is due on a long and its close at the entry price takes the fee of 1 USDC only. |
| Isolation.BystanderIsUntouched | contracts/position-manager/src/lib.rs:202-288 | Over every run an account that no call names keeps its USDC, shares, count and positions. |
| Isolation.SettingsNeedTheAdmin | contracts/vault/src/lib.rs:468-480 | Over every run without the admin's signature no setting of the five contracts changes and no price is set. |
| Isolation.OpenThenClose | contracts/position-manager/src/lib.rs:113-288 | Opening and closing at one price restores positions, open interest, counts, locked and shares; the trader pays the two fees (the close fee as far as the collateral goes) and the pool books both. |
| PriceProvenance.CachedIffLastSet | contracts/oracle-adapter/src/lib.rs:109-128 | An asset's cached price is this price at this time if and only if the last call of the run to set or drop it is the admin setting this price then. |
| PriceProvenance.TradedPriceIsFresh | contracts/oracle-adapter/src/lib.rs:109-145 | Any price the protocol trades at was set for that asset by a successful call of the oracle's admin on this run, was not set again or dropped since, is positive, and is no older than the threshold in force. |
| PriceProvenance.PriceIsServedIff | contracts/oracle-adapter/src/lib.rs:109-145 | At the end of any run from deployment a price is served if and only if some call is the last to set or drop the asset's price, set this price, and is no longer ago than the threshold. |
| Chain.Ledger.constructor | contracts/integration-tests/src/harness.rs:30-85 | A deployment creates one object per contract, wired together, in the state `Deploy` gives. |
| Chain.Ledger.Submit | contracts/integration-tests/src/harness.rs:13-27 | Whatever call is submitted, the contract objects go from their state to what `Exec` makes of it, report success or the error of `Apply`, and so hold the state of the run of all calls so far. |
| Chain.ContractsAgree | contracts/position-manager/src/lib.rs:155-184 | At every moment after a deployment the fields of the contract objects agree on every book. |

## Left out

- Vault.LpVault.SettleBody: on an error it promises the error only, because `locked` may already be written; the entry point that called it restores its frame. The same holds of the other `...Body` methods.
- Solvency.SolventUnderTimelyLiquidation: timeliness is sufficient, not necessary; `Solvency.DonationsIntactIffFeesCovered` is the exact condition.
- Utilization.PrudentRunKeepsLimit: a run may leave the limit and come back; `Utilization.StaysWithinIffPrudent` is exact for runs that never leave it.
- Utilization.WinnerIsPaid: sufficient; `Utilization.WinnerIsPaidIff` is exact.
- Utilization.StaysWithinIffPrudent: for a close its condition is the limit itself in figures known before the call; `Utilization.OrdinaryRunIsPrudent` derives it from a condition on the position alone.
- NoOverflow.ModestCallNeverOverflows: the bound is sufficient, and for one call; that figures stay below it over a run is not claimed.
- Exit.EveryoneCanLeave: says what can fail, not that nothing overflows; its calls are closes, liquidations and whole redemptions with nothing in between.
- ShareFairness.SharePriceNeverFalls: excludes runs that pass through a state with no shares, where the next depositor owns what is left (`ShareFairness.NextDepositorOwnsLeftovers`).
- The Go keeper, indexer, store and API server, and the deploy scripts: off-chain plumbing.
- Soroban host details: TTLs, archival of persistent entries, events, XDR. The expiry of a cached price is modelled as a call of its own.
- Signatures and caller checks between contracts: callers are as named, the position manager is the vault's only privileged caller and the engine the manager's, and traders and LPs are not the vault.
- `initialize` as a call: `Deploy` applies the checks of all five and gives the state after them; calls on an uninitialised contract and a second initialisation are not modelled.
- Rewiring of contract addresses by the admin; all contracts have one admin, one oracle and one token.
- Vault `settle_pnl` and `unlock_liquidity`: nothing in the repository calls them, and as free calls they would break the shared ledgers.
- Payment of penalty and keeper reward: the contract only reports the numbers, and their bounds are proved.
- Settlement of funding at close: no close path performs it.
- Bounds of the u32 and u64 arguments: arguments are naturals; computed i128, id, count and elapsed-time values are range-checked.
- The share price and utilization views are modelled as formulas, not as entry points.
