/** The LP vault: pool shares, pool deposits and the liquidity locked behind open positions. */
module Vault {
  import opened PerpsTypes
  import opened Arithmetic
  import opened Shares
  import opened Token

  datatype VaultState = VaultState(
    admin: Account,
    totalShares: int,
    totalDeposits: int,
    locked: int,
    maxUtilizationBps: nat,
    shareBalances: map<Account, int>)

  /** The vault and the token after a successful LP call, and the shares minted or USDC returned. */
  datatype LpReceipt = LpReceipt(vault: VaultState, token: Balances, amount: int)

  function ShareBalance(v: VaultState, lp: Account): int {
    if lp in v.shareBalances then v.shareBalances[lp] else 0
  }

  function Deposit(v: VaultState, t: Balances, depositor: Account, amount: int): Result<LpReceipt> {
    if amount <= 0 then Err(InvalidAmount)
    else
      var minted :- SharesToMint(amount, v.totalShares, v.totalDeposits);
      if minted <= 0 then Err(ZeroShares)
      else
        var token :- Transfer(t, User(depositor), VaultContract, amount);
        var deposits :- I128(v.totalDeposits + amount);
        var shares :- I128(v.totalShares + minted);
        var balance :- I128(ShareBalance(v, depositor) + minted);
        Ok(LpReceipt(
          v.(totalDeposits := deposits, totalShares := shares,
             shareBalances := v.shareBalances[depositor := balance]),
          token, minted))
  }

  /** Whether the pool may shrink to `deposits` while `locked` stays behind positions. */
  function CheckRemaining(v: VaultState, deposits: int): Result<()> {
    if deposits > 0 then
      var util :- UtilizationBps(v.locked, deposits);
      if util > v.maxUtilizationBps then Err(MaxUtilizationExceeded) else Ok(())
    else if v.locked > 0 then Err(InsufficientLiquidity)
    else Ok(())
  }

  function Withdraw(v: VaultState, t: Balances, depositor: Account, shareAmount: int): Result<LpReceipt> {
    if shareAmount <= 0 then Err(InvalidAmount)
    else if shareAmount > ShareBalance(v, depositor) then Err(InsufficientBalance)
    else
      var usdc :- WithdrawalAmount(shareAmount, v.totalShares, v.totalDeposits);
      if usdc <= 0 then Err(ZeroShares)
      else
        var deposits :- I128(v.totalDeposits - usdc);
        var _ :- CheckRemaining(v, deposits);
        var shares :- I128(v.totalShares - shareAmount);
        var balance :- I128(ShareBalance(v, depositor) - shareAmount);
        var token :- Transfer(t, VaultContract, User(depositor), usdc);
        Ok(LpReceipt(
          v.(totalDeposits := deposits, totalShares := shares,
             shareBalances := v.shareBalances[depositor := balance]),
          token, usdc))
  }

  function LockLiquidity(v: VaultState, amount: int): Result<VaultState> {
    if amount <= 0 then Err(InvalidAmount)
    else
      var locked :- I128(v.locked + amount);
      var util :- UtilizationBps(locked, v.totalDeposits);
      if util > v.maxUtilizationBps then Err(MaxUtilizationExceeded)
      else Ok(v.(locked := locked))
  }

  function CollectFee(v: VaultState, amount: int): Result<VaultState> {
    if amount <= 0 then Err(InvalidAmount)
    else
      var deposits :- I128(v.totalDeposits + amount);
      Ok(v.(totalDeposits := deposits))
  }

  /** Unlock, move the profit or loss and the fee between pool and trader, pay out what is left. */
  function SettleClose(v: VaultState, t: Balances, trader: Account, size: int, collateral: int, pnl: int, fee: int)
    : Result<(VaultState, Balances)>
  {
    var locked :- I128(v.locked - size);
    if locked < 0 then Err(OverflowError)
    else
      var afterPnl :- I128(v.totalDeposits - pnl);
      var deposits :- I128(afterPnl + fee);
      if deposits < 0 then Err(InsufficientLiquidity)
      else
        var gross :- I128(collateral + pnl);
        var payout :- I128(gross - fee);
        var token :- if payout > 0 then Transfer(t, VaultContract, User(trader), payout) else Ok(t);
        Ok((v.(locked := locked, totalDeposits := deposits), token))
  }

  function SetMaxUtilization(v: VaultState, caller: Account, maxBps: nat): Result<VaultState> {
    if caller != v.admin then Err(Unauthorized)
    else if maxBps == 0 || maxBps > BPS then Err(InvalidConfig)
    else Ok(v.(maxUtilizationBps := maxBps))
  }

  class LpVault {
    const admin: Account
    const token: UsdcToken
    var totalShares: int
    var totalDeposits: int
    var locked: int
    var maxUtilizationBps: nat
    var shareBalances: map<Account, int>

    function State(): VaultState
      reads this
    {
      VaultState(admin, totalShares, totalDeposits, locked, maxUtilizationBps, shareBalances)
    }

    constructor (v: VaultState, token: UsdcToken)
      ensures State() == v && this.token == token
    {
      this.admin, this.token := v.admin, token;
      totalShares, totalDeposits, locked := v.totalShares, v.totalDeposits, v.locked;
      maxUtilizationBps, shareBalances := v.maxUtilizationBps, v.shareBalances;
    }

    /** What the host does with the frame of a call that returned an error. */
    method RollBack(v: VaultState, t: Balances)
      requires v.admin == admin
      modifies this, token
      ensures State() == v && token.balances == t
    {
      totalShares, totalDeposits, locked := v.totalShares, v.totalDeposits, v.locked;
      maxUtilizationBps, shareBalances := v.maxUtilizationBps, v.shareBalances;
      token.balances := t;
    }

    method DepositBody(depositor: Account, amount: int) returns (r: Result<int>)
      modifies this, token
      ensures match Deposit(old(State()), old(token.balances), depositor, amount)
              case Ok(out) => r == Ok(out.amount) && State() == out.vault && token.balances == out.token
              case Err(e) => r == Err(e)
    {
      if amount <= 0 {
        return Err(InvalidAmount);
      }
      var minted :- SharesToMint(amount, totalShares, totalDeposits);
      if minted <= 0 {
        return Err(ZeroShares);
      }
      var _ :- token.TransferFrom(User(depositor), VaultContract, amount);
      totalDeposits :- I128(totalDeposits + amount);
      totalShares :- I128(totalShares + minted);
      var balance :- I128(ShareBalance(State(), depositor) + minted);
      shareBalances := shareBalances[depositor := balance];
      r := Ok(minted);
    }

    /** An LP deposits USDC for shares; a failing call leaves no trace. */
    method DepositCall(depositor: Account, amount: int) returns (r: Result<int>)
      modifies this, token
      ensures match Deposit(old(State()), old(token.balances), depositor, amount)
              case Ok(out) => r == Ok(out.amount) && State() == out.vault && token.balances == out.token
              case Err(e) => r == Err(e) && State() == old(State()) && token.balances == old(token.balances)
    {
      var v, t := State(), token.balances;
      r := DepositBody(depositor, amount);
      if r.Err? {
        RollBack(v, t);
      }
    }

    method WithdrawBody(depositor: Account, shareAmount: int) returns (r: Result<int>)
      modifies this, token
      ensures match Withdraw(old(State()), old(token.balances), depositor, shareAmount)
              case Ok(out) => r == Ok(out.amount) && State() == out.vault && token.balances == out.token
              case Err(e) => r == Err(e)
    {
      if shareAmount <= 0 {
        return Err(InvalidAmount);
      }
      var balance := ShareBalance(State(), depositor);
      if shareAmount > balance {
        return Err(InsufficientBalance);
      }
      var usdc :- WithdrawalAmount(shareAmount, totalShares, totalDeposits);
      if usdc <= 0 {
        return Err(ZeroShares);
      }
      var deposits :- I128(totalDeposits - usdc);
      if deposits > 0 {
        var util :- UtilizationBps(locked, deposits);
        if util > maxUtilizationBps {
          return Err(MaxUtilizationExceeded);
        }
      } else if locked > 0 {
        return Err(InsufficientLiquidity);
      }
      totalShares :- I128(totalShares - shareAmount);
      totalDeposits := deposits;
      balance :- I128(balance - shareAmount);
      shareBalances := shareBalances[depositor := balance];
      var _ :- token.TransferFrom(VaultContract, User(depositor), usdc);
      r := Ok(usdc);
    }

    /** An LP burns shares for USDC; a failing call leaves no trace. */
    method WithdrawCall(depositor: Account, shareAmount: int) returns (r: Result<int>)
      modifies this, token
      ensures match Withdraw(old(State()), old(token.balances), depositor, shareAmount)
              case Ok(out) => r == Ok(out.amount) && State() == out.vault && token.balances == out.token
              case Err(e) => r == Err(e) && State() == old(State()) && token.balances == old(token.balances)
    {
      var v, t := State(), token.balances;
      r := WithdrawBody(depositor, shareAmount);
      if r.Err? {
        RollBack(v, t);
      }
    }

    method Lock(amount: int) returns (r: Result<()>)
      modifies this
      ensures match LockLiquidity(old(State()), amount)
              case Ok(v) => r == Ok(()) && State() == v
              case Err(e) => r == Err(e) && State() == old(State())
    {
      if amount <= 0 {
        return Err(InvalidAmount);
      }
      var newLocked :- I128(locked + amount);
      var util :- UtilizationBps(newLocked, totalDeposits);
      if util > maxUtilizationBps {
        return Err(MaxUtilizationExceeded);
      }
      locked := newLocked;
      r := Ok(());
    }

    method Collect(amount: int) returns (r: Result<()>)
      modifies this
      ensures match CollectFee(old(State()), amount)
              case Ok(v) => r == Ok(()) && State() == v
              case Err(e) => r == Err(e) && State() == old(State())
    {
      if amount <= 0 {
        return Err(InvalidAmount);
      }
      totalDeposits :- I128(totalDeposits + amount);
      r := Ok(());
    }

    /** Settle a position. `locked` is written before the last error can be returned, so an
        error leaves a half-settled vault that the caller's frame rolls back. */
    method SettleBody(trader: Account, size: int, collateral: int, pnl: int, fee: int) returns (r: Result<()>)
      modifies this, token
      ensures match SettleClose(old(State()), old(token.balances), trader, size, collateral, pnl, fee)
              case Ok(out) => r == Ok(()) && State() == out.0 && token.balances == out.1
              case Err(e) => r == Err(e)
    {
      var newLocked :- I128(locked - size);
      if newLocked < 0 {
        return Err(OverflowError);
      }
      locked := newLocked;
      var newDeposits :- I128(totalDeposits - pnl);
      newDeposits :- I128(newDeposits + fee);
      if newDeposits < 0 {
        return Err(InsufficientLiquidity);
      }
      totalDeposits := newDeposits;
      var payout :- I128(collateral + pnl);
      payout :- I128(payout - fee);
      if payout > 0 {
        var _ :- token.TransferFrom(VaultContract, User(trader), payout);
      }
      r := Ok(());
    }

    method SetMax(caller: Account, maxBps: nat) returns (r: Result<()>)
      modifies this
      ensures match SetMaxUtilization(old(State()), caller, maxBps)
              case Ok(v) => r == Ok(()) && State() == v
              case Err(e) => r == Err(e) && State() == old(State())
    {
      if caller != admin {
        return Err(Unauthorized);
      }
      if maxBps == 0 || maxBps > BPS {
        return Err(InvalidConfig);
      }
      maxUtilizationBps := maxBps;
      r := Ok(());
    }
  }
}
