/** What every call to the token, the oracle and the vault answers, and when: each succeeds exactly
    under a condition stated without divisions, fails with a named error otherwise, and on success
    moves exactly these figures. Overflows apart, which `NoOverflow` confines. */
module VaultOutcomes {
  import opened PerpsTypes
  import opened Arithmetic
  import opened Shares
  import opened Token
  import opened Oracle
  import opened Vault
  import opened Books

  /** What a transfer does to one holder's balance, also when it is to the sender. */
  function Moved(from: Holder, to: Holder, amount: int, h: Holder): int {
    (if h == to then amount else 0) - (if h == from then amount else 0)
  }

  ghost predicate Transferred(t: Balances, from: Holder, to: Holder, amount: int, t': Balances) {
    forall h :: BalanceOf(t', h) == BalanceOf(t, h) + Moved(from, to, amount, h)
  }

  /** A transfer goes through exactly when the sender holds the amount and it is not negative. */
  lemma TransferOutcome(t: Balances, from: Holder, to: Holder, amount: int)
    ensures var r := Transfer(t, from, to, amount);
            || r == Err(ArithmeticTrap)
            || (if 0 <= amount <= BalanceOf(t, from)
                then r.Ok? && Transferred(t, from, to, amount, r.value)
                else r == Err(TransferTrap))
  {
  }

  /** The oracle holds a price of the asset that is no older than the threshold. */
  predicate Fresh(o: OracleState, now: nat, asset: Asset) {
    asset in o.prices && now - o.prices[asset].timestamp <= o.stalenessThreshold
  }

  /** A price is served exactly when it is fresh, up to and including the threshold; otherwise the
      answer is that it is stale. */
  lemma PriceOutcome(o: OracleState, now: nat, asset: Asset)
    requires asset in o.prices ==> o.prices[asset].timestamp <= now <= U64_MAX
    ensures GetPriceValue(o, now, asset)
            == if Fresh(o, now, asset) then Ok(o.prices[asset].price) else Err(StalePrice)
  {
  }

  /** A deposit buys at least one share exactly when the pool is new or the amount is worth one. */
  lemma MintsIff(amount: int, s: int, d: int)
    requires amount > 0 && s >= 0 && d >= 0
    ensures CalcSharesToMint(amount, s, d) > 0 <==> s == 0 || d == 0 || amount * s >= d
  {
    if s > 0 && d > 0 {
      TDivBelow(amount * s, d, 1);
    }
  }

  /** The vault has `amount` more deposits and shares, in this LP's hands. */
  predicate SharesMoved(v: VaultState, lp: Account, deposits: int, shares: int, v': VaultState) {
    && v'.totalDeposits == v.totalDeposits + deposits && v'.totalShares == v.totalShares + shares
    && v'.locked == v.locked && v'.maxUtilizationBps == v.maxUtilizationBps && v'.admin == v.admin
    && v'.shareBalances == v.shareBalances[lp := ShareBalance(v, lp) + shares]
  }

  /** A deposit succeeds exactly when the amount is positive, is worth a share and is held, whatever
      is locked. */
  lemma DepositOutcome(v: VaultState, t: Balances, lp: Account, amount: int)
    requires v.totalShares >= 0 && v.totalDeposits >= 0
    ensures var r := Deposit(v, t, lp, amount);
            var worthAShare := v.totalShares == 0 || v.totalDeposits == 0
                               || amount * v.totalShares >= v.totalDeposits;
            || r == Err(ArithmeticTrap)
            || (if amount <= 0 then r == Err(InvalidAmount)
                else if !worthAShare then r == Err(ZeroShares)
                else if amount > BalanceOf(t, User(lp)) then r == Err(TransferTrap)
                else r.Ok?)
  {
    if amount > 0 {
      MintsIff(amount, v.totalShares, v.totalDeposits);
    }
  }

  /** It mints as many shares as the amount is worth, and moves nothing else. */
  lemma DepositEffect(v: VaultState, t: Balances, lp: Account, amount: int)
    requires v.totalShares >= 0 && v.totalDeposits >= 0 && Deposit(v, t, lp, amount).Ok?
    ensures var out := Deposit(v, t, lp, amount).value;
            && SharesMoved(v, lp, amount, out.amount, out.vault)
            && Transferred(t, User(lp), VaultContract, amount, out.token)
            && (if v.totalShares == 0 || v.totalDeposits == 0 then out.amount == amount
                else out.amount * v.totalDeposits <= amount * v.totalShares < (out.amount + 1) * v.totalDeposits)
  {
    TransferOutcome(t, User(lp), VaultContract, amount);
    if v.totalShares > 0 && v.totalDeposits > 0 {
      TDivBounds(amount * v.totalShares, v.totalDeposits);
    }
  }

  /** The utilization is `turns` times 2^32 and at most `max` bps more. */
  predicate AcceptedAfter(turns: nat, locked: int, deposits: int, max: nat) {
    turns * U32_MODULUS * deposits <= locked * BPS < (turns * U32_MODULUS + max + 1) * deposits
  }

  /** What the utilization check lets pass, without a division or a cast: an empty pool, and a pool
      whose utilization is at most `max` bps over a multiple of 2^32. */
  ghost predicate Accepted(locked: int, deposits: int, max: nat) {
    deposits == 0 || exists turns: nat :: AcceptedAfter(turns, locked, deposits, max)
  }

  lemma RemainderIs(u: int, turns: nat)
    requires turns * U32_MODULUS <= u < (turns + 1) * U32_MODULUS
    ensures u % U32_MODULUS == u - turns * U32_MODULUS
  {
    DivBounds(u, U32_MODULUS);
    MulLess(u / U32_MODULUS, turns + 1, U32_MODULUS);
    MulLess(turns, u / U32_MODULUS + 1, U32_MODULUS);
  }

  lemma AcceptedAfterIff(turns: nat, locked: int, deposits: int, max: nat)
    requires locked >= 0 && deposits > 0
    ensures AcceptedAfter(turns, locked, deposits, max)
            <==> turns * U32_MODULUS <= WideUtilizationBps(locked, deposits) <= turns * U32_MODULUS + max
  {
    var u := WideUtilizationBps(locked, deposits);
    TDivBelow(locked * BPS, deposits, turns * U32_MODULUS);
    TDivBelow(locked * BPS, deposits, turns * U32_MODULUS + max + 1);
    TDivBounds(locked * BPS, deposits);
  }

  /** A utilization check passes exactly when it accepts. */
  lemma CheckPassesIff(locked: int, deposits: int, max: nat)
    requires locked >= 0 && deposits >= 0 && max <= BPS
    ensures var r := UtilizationBps(locked, deposits);
            || r == Err(ArithmeticTrap)
            || (r.Ok? && (r.value <= max <==> Accepted(locked, deposits, max)))
  {
    if deposits > 0 {
      var u := WideUtilizationBps(locked, deposits);
      TDivBounds(locked * BPS, deposits);
      DivBounds(u, U32_MODULUS);
      var turns := u / U32_MODULUS;
      RemainderIs(u, turns);
      AcceptedAfterIff(turns, locked, deposits, max);
      forall t: nat | AcceptedAfter(t, locked, deposits, max)
        ensures u % U32_MODULUS <= max
      {
        AcceptedAfterIff(t, locked, deposits, max);
        RemainderIs(u, t);
      }
    }
  }

  /** Below 2^32 bps it accepts exactly what is below the next basis point over the maximum. */
  lemma AcceptedWithinCast(locked: int, deposits: int, max: nat)
    requires locked >= 0 && deposits > 0 && locked * BPS < U32_MODULUS * deposits
    ensures Accepted(locked, deposits, max) <==> locked * BPS < (max + 1) * deposits
  {
    forall turns: nat | AcceptedAfter(turns, locked, deposits, max)
      ensures turns == 0
    {
      if turns >= 1 {
        MulMono(U32_MODULUS, turns * U32_MODULUS, deposits);
      }
    }
    assert AcceptedAfter(0, locked, deposits, max) <==> locked * BPS < (max + 1) * deposits;
  }

  /** A lock succeeds exactly when it is positive and the check accepts it. */
  lemma LockOutcome(v: VaultState, amount: int)
    requires v.locked >= 0 && v.totalDeposits >= 0 && v.maxUtilizationBps <= BPS
    ensures var r := LockLiquidity(v, amount);
            || r == Err(ArithmeticTrap)
            || (if amount <= 0 then r == Err(InvalidAmount)
                else if Accepted(v.locked + amount, v.totalDeposits, v.maxUtilizationBps)
                then r == Ok(v.(locked := v.locked + amount))
                else r == Err(MaxUtilizationExceeded))
  {
    if amount > 0 {
      CheckPassesIff(v.locked + amount, v.totalDeposits, v.maxUtilizationBps);
    }
  }

  /** Below 2^32 bps of utilization, that is when the pool stays below the next basis point over its
      maximum. */
  lemma LockWithinCastOutcome(v: VaultState, amount: int)
    requires amount > 0 && v.locked >= 0 && v.totalDeposits > 0 && v.maxUtilizationBps <= BPS
    requires (v.locked + amount) * BPS < U32_MODULUS * v.totalDeposits
    ensures var r := LockLiquidity(v, amount);
            || r == Err(ArithmeticTrap)
            || r == (if (v.locked + amount) * BPS < (v.maxUtilizationBps + 1) * v.totalDeposits
                     then Ok(v.(locked := v.locked + amount)) else Err(MaxUtilizationExceeded))
  {
    LockOutcome(v, amount);
    AcceptedWithinCast(v.locked + amount, v.totalDeposits, v.maxUtilizationBps);
  }

  /** What is left of the pool after a redemption. */
  function Rest(v: VaultState, shares: int): int {
    v.totalDeposits - CalcWithdrawalAmount(shares, v.totalShares, v.totalDeposits)
  }

  /** A redemption is worth at least one unit exactly when shares * D reaches S. */
  lemma RedeemsIff(shares: int, s: int, d: int)
    requires s > 0
    ensures CalcWithdrawalAmount(shares, s, d) > 0 <==> shares * d >= s
  {
    TDivBelow(shares * d, s, 1);
  }

  lemma RemainingCheckOutcome(v: VaultState, rest: int)
    requires v.locked >= 0 && rest >= 0 && v.maxUtilizationBps <= BPS
    ensures var r := CheckRemaining(v, rest);
            || r == Err(ArithmeticTrap)
            || r == (if rest == 0 && v.locked > 0 then Err(InsufficientLiquidity)
                     else if Accepted(v.locked, rest, v.maxUtilizationBps) then Ok(())
                     else Err(MaxUtilizationExceeded))
  {
    if rest > 0 {
      CheckPassesIff(v.locked, rest, v.maxUtilizationBps);
    }
  }

  lemma WithdrawFollowsCheck(v: VaultState, t: Balances, lp: Account, shares: int)
    requires ShareBook(v) && 0 < shares <= ShareBalance(v, lp) && v.totalShares > 0
    ensures var r := Withdraw(v, t, lp, shares);
            var usdc := CalcWithdrawalAmount(shares, v.totalShares, v.totalDeposits);
            || r == Err(ArithmeticTrap)
            || (if usdc <= 0 then r == Err(ZeroShares)
                else if CheckRemaining(v, Rest(v, shares)).Err? then r == Err(CheckRemaining(v, Rest(v, shares)).error)
                else if usdc > BalanceOf(t, VaultContract) then r == Err(TransferTrap)
                else r.Ok?)
  {
  }

  /** A withdrawal, also from behind open positions, succeeds exactly when the LP has the shares, they
      are worth a unit, the check accepts what stays behind `locked`, and the vault holds the USDC. */
  lemma WithdrawOutcome(v: VaultState, t: Balances, lp: Account, shares: int)
    requires ShareBook(v) && v.locked >= 0 && v.maxUtilizationBps <= BPS
    ensures var r := Withdraw(v, t, lp, shares);
            || r == Err(ArithmeticTrap)
            || (if shares <= 0 then r == Err(InvalidAmount)
                else if shares > ShareBalance(v, lp) then r == Err(InsufficientBalance)
                else if shares * v.totalDeposits < v.totalShares then r == Err(ZeroShares)
                else if Rest(v, shares) == 0 && v.locked > 0 then r == Err(InsufficientLiquidity)
                else if !Accepted(v.locked, Rest(v, shares), v.maxUtilizationBps)
                then r == Err(MaxUtilizationExceeded)
                else if v.totalDeposits - Rest(v, shares) > BalanceOf(t, VaultContract) then r == Err(TransferTrap)
                else r.Ok?)
  {
    BalanceWithinTotal(v, lp);
    if 0 < shares <= ShareBalance(v, lp) {
      WithdrawFollowsCheck(v, t, lp, shares);
      RedeemsIff(shares, v.totalShares, v.totalDeposits);
      RedeemKeepsPrice(shares, v.totalShares, v.totalDeposits);
      RemainingCheckOutcome(v, Rest(v, shares));
    }
  }

  /** It pays what the shares are worth, and moves nothing else. */
  lemma WithdrawEffect(v: VaultState, t: Balances, lp: Account, shares: int)
    requires ShareBook(v) && Withdraw(v, t, lp, shares).Ok?
    ensures var out := Withdraw(v, t, lp, shares).value;
            && SharesMoved(v, lp, -out.amount, -shares, out.vault)
            && Transferred(t, VaultContract, User(lp), out.amount, out.token)
            && out.amount * v.totalShares <= shares * v.totalDeposits < (out.amount + 1) * v.totalShares
  {
    BalanceWithinTotal(v, lp);
    TransferOutcome(t, VaultContract, User(lp), Withdraw(v, t, lp, shares).value.amount);
    FloorOfRatio(shares, v.totalDeposits, v.totalShares);
  }

  /** The displayed share price is the pool's deposits per share, rounded down to 10^-7; without
      shares it is one. */
  lemma SharePriceIsFloor(s: int, d: int)
    requires s >= 0 && d >= 0
    ensures if s == 0 then CalcSharePrice(s, d) == DECIMALS
            else CalcSharePrice(s, d) * s <= d * DECIMALS < (CalcSharePrice(s, d) + 1) * s
  {
    if s > 0 {
      TDivBounds(d * DECIMALS, s);
    }
  }
}
