/** The vocabulary every contract of the protocol shares: errors, results, positions. */
module PerpsTypes {

  /** The error codes of the contracts, followed by the two ways a call can panic in the host:
      an arithmetic overflow (the release profile keeps overflow checks on) and a token
      transfer that the USDC contract refuses. */
  datatype PerpsError =
    | NotInitialized
    | AlreadyInitialized
    | InsufficientBalance
    | InsufficientLiquidity
    | InvalidAmount
    | InvalidLeverage
    | PositionNotFound
    | StalePrice
    | MaxUtilizationExceeded
    | NotLiquidatable
    | Unauthorized
    | InvalidConfig
    | OverflowError
    | ZeroShares
    | MinCollateralNotMet
    | FundingTooEarly
    | AssetMismatch
    | ArithmeticTrap
    | TransferTrap

  /** A failure-compatible result, so that `:-` reads like the `?` of the contracts. */
  datatype Result<+T> = Ok(value: T) | Err(error: PerpsError) {
    predicate IsFailure() {
      Err?
    }

    function PropagateFailure<U>(): Result<U>
      requires Err?
    {
      Err(error)
    }

    function Extract(): T
      requires Ok?
    {
      value
    }
  }

  type Account = nat
  type Asset = nat

  /** Whose USDC it is: the vault contract's, or a user's. */
  datatype Holder = VaultContract | User(account: Account)

  datatype Direction = Long | Short

  datatype Position = Position(
    id: nat,
    trader: Account,
    asset: Asset,
    direction: Direction,
    size: int,
    collateral: int,
    entryPrice: int,
    leverage: nat,
    fundingIndex: int,
    openedAt: nat)

  datatype PositionKey = PositionKey(trader: Account, id: nat)

  const DECIMALS := 10_000_000
  const BPS := 10_000
}
