/** What the LPs are promised: nobody's deposit, withdrawal or trade takes value from the shares
    of an LP who does nothing, and cutting a deposit or a withdrawal into pieces gains nothing. */
module ShareFairness {
  import opened PerpsTypes
  import opened Arithmetic
  import opened Shares
  import opened PositionMath
  import opened Token
  import opened Vault
  import opened PositionManager
  import opened Protocol
  import opened Books

  /** If the call succeeds in ending a position, the position wins no more than the fee it pays;
      a liquidated position pays none. All of it is visible before the call. */
  predicate PoolDoesNotLose(w: World, c: Call) {
    var m := w.market;
    (c.CloseCall? || c.LiquidateCall?) && Apply(w, c).Ok? ==>
      var p := m.manager.positions[PositionKey(c.trader, c.id)];
      var fee := if c.CloseCall? then CalculateFee(p.size, m.manager.closeFeeBps) else 0;
      PricePnl(m, p).value <= fee
  }

  /** Shares stay outstanding all along the run, and no settlement on it costs the pool. */
  predicate SteadyRun(w: World, calls: seq<Call>)
    decreases |calls|
  {
    && w.market.vault.totalShares > 0
    && (calls == [] || (PoolDoesNotLose(w, calls[0]) && SteadyRun(Exec(w, calls[0]), calls[1..])))
  }

  predicate VaultPriceNotLower(v: VaultState, v': VaultState) {
    PriceNotLower(v.totalShares, v.totalDeposits, v'.totalShares, v'.totalDeposits)
  }

  lemma DepositKeepsPrice(v: VaultState, t: Balances, lp: Account, amount: int)
    requires v.totalShares > 0 && v.totalDeposits >= 0 && Deposit(v, t, lp, amount).Ok?
    ensures VaultPriceNotLower(v, Deposit(v, t, lp, amount).value.vault)
  {
    MintKeepsPrice(amount, v.totalShares, v.totalDeposits);
  }

  lemma WithdrawKeepsPrice(v: VaultState, t: Balances, lp: Account, shares: int)
    requires ShareBook(v) && Withdraw(v, t, lp, shares).Ok?
    ensures VaultPriceNotLower(v, Withdraw(v, t, lp, shares).value.vault)
  {
    WithdrawKeepsShares(v, t, lp, shares);
    RedeemKeepsPrice(shares, v.totalShares, v.totalDeposits);
  }

  /** Ending a position keeps the share price exactly when the position wins at most its fee. */
  lemma EndingKeepsPriceIff(w: World, c: Call)
    requires w.market.vault.totalShares > 0 && (c.CloseCall? || c.LiquidateCall?) && Apply(w, c).Ok?
    ensures VaultPriceNotLower(w.market.vault, Apply(w, c).value.market.vault) <==> PoolDoesNotLose(w, c)
  {
    var key, pnl, fee := SettlementOf(w, c);
    var v := w.market.vault;
    if pnl <= fee {
      MulMono(v.totalDeposits, v.totalDeposits - pnl + fee, v.totalShares);
    } else {
      MulLess(v.totalDeposits - pnl + fee, v.totalDeposits, v.totalShares);
    }
  }

  /** Only deposits and withdrawals touch the shares; every other call only moves the deposits. */
  lemma OtherCallsKeepShares(w: World, c: Call)
    requires !c.DepositCall? && !c.WithdrawCall? && PoolDoesNotLose(w, c)
    ensures var v, v' := w.market.vault, Exec(w, c).market.vault;
            && v'.totalShares == v.totalShares && v'.shareBalances == v.shareBalances
            && v'.totalDeposits >= v.totalDeposits
  {
    if !MovesValue(c) {
      QuietCall(w, c);
    } else if Apply(w, c).Ok? && (c.CloseCall? || c.LiquidateCall?) {
      var key, pnl, fee := SettlementOf(w, c);
    }
  }

  /** A call keeps the share price exactly when it does not settle a position at the pool's cost. */
  lemma CallKeepsPriceIff(w: World, c: Call)
    requires Sound(w) && w.market.vault.totalShares > 0
    ensures VaultPriceNotLower(w.market.vault, Exec(w, c).market.vault) <==> PoolDoesNotLose(w, c)
  {
    var m, v' := w.market, Exec(w, c).market.vault;
    if !PoolDoesNotLose(w, c) {
      EndingKeepsPriceIff(w, c);
    } else if c.DepositCall? {
      if Apply(w, c).Ok? {
        DepositKeepsPrice(m.vault, m.token, c.lp, c.amount);
      }
    } else if c.WithdrawCall? {
      if Apply(w, c).Ok? {
        WithdrawKeepsPrice(m.vault, m.token, c.lp, c.shares);
      }
    } else {
      OtherCallsKeepShares(w, c);
      MulMono(m.vault.totalDeposits, v'.totalDeposits, m.vault.totalShares);
    }
  }

  /** Shares stay outstanding all along the run, and no call on it lowers their price. */
  predicate NoCallLowersPrice(w: World, calls: seq<Call>)
    decreases |calls|
  {
    && w.market.vault.totalShares > 0
    && (calls == []
        || (VaultPriceNotLower(w.market.vault, Exec(w, calls[0]).market.vault)
            && NoCallLowersPrice(Exec(w, calls[0]), calls[1..])))
  }

  /** While shares are outstanding, a steady run is exactly one on which the price never steps down. */
  lemma {:induction false} SteadyIffNoCallLowersPrice(w: World, calls: seq<Call>)
    requires Sound(w)
    ensures SteadyRun(w, calls) <==> NoCallLowersPrice(w, calls)
    decreases |calls|
  {
    if calls != [] && w.market.vault.totalShares > 0 {
      CallKeepsPriceIff(w, calls[0]);
      CallKeepsSettings(w, calls[0]);
      CallKeepsMarket(w, calls[0]);
      SteadyIffNoCallLowersPrice(Exec(w, calls[0]), calls[1..]);
    }
  }

  /** Over a whole run the price of a share does not fall. */
  lemma {:induction false} SharePriceNeverFalls(w: World, calls: seq<Call>)
    requires Sound(w) && SteadyRun(w, calls)
    ensures VaultPriceNotLower(w.market.vault, Run(w, calls).market.vault)
    ensures Run(w, calls).market.vault.totalShares > 0
    decreases |calls|
  {
    if calls != [] {
      var w1 := Exec(w, calls[0]);
      CallKeepsPriceIff(w, calls[0]);
      CallKeepsSettings(w, calls[0]);
      CallKeepsMarket(w, calls[0]);
      SharePriceNeverFalls(w1, calls[1..]);
      var v0, v1, v2 := w.market.vault, w1.market.vault, Run(w1, calls[1..]).market.vault;
      PriceNotLowerTransitive(
        v0.totalShares, v0.totalDeposits, v1.totalShares, v1.totalDeposits, v2.totalShares, v2.totalDeposits);
    }
  }

  /** Nor does the price that the vault displays. */
  lemma DisplayedPriceNeverFalls(w: World, calls: seq<Call>)
    requires Sound(w) && SteadyRun(w, calls)
    ensures var v, v' := w.market.vault, Run(w, calls).market.vault;
            CalcSharePrice(v'.totalShares, v'.totalDeposits) >= CalcSharePrice(v.totalShares, v.totalDeposits)
  {
    SharePriceNeverFalls(w, calls);
    RunKeepsSound(w, calls);
    var v, v' := w.market.vault, Run(w, calls).market.vault;
    IdleShareValue(DECIMALS, v.totalShares, v.totalDeposits, v'.totalShares, v'.totalDeposits);
    assert v.totalDeposits * DECIMALS == DECIMALS * v.totalDeposits;
    assert v'.totalDeposits * DECIMALS == DECIMALS * v'.totalDeposits;
  }

  predicate LeavesAlone(c: Call, lp: Account) {
    (c.DepositCall? || c.WithdrawCall?) ==> c.lp != lp
  }

  lemma OneCallLeavesBalance(w: World, c: Call, lp: Account)
    requires LeavesAlone(c, lp)
    ensures ShareBalance(Exec(w, c).market.vault, lp) == ShareBalance(w.market.vault, lp)
  {
    if !MovesValue(c) {
      QuietCall(w, c);
    } else if Apply(w, c).Ok? && (c.CloseCall? || c.LiquidateCall?) {
      var key, pnl, fee := SettlementOf(w, c);
    }
  }

  lemma {:induction false} IdleBalanceUnchanged(w: World, calls: seq<Call>, lp: Account)
    requires forall c | c in calls :: LeavesAlone(c, lp)
    ensures ShareBalance(Run(w, calls).market.vault, lp) == ShareBalance(w.market.vault, lp)
    decreases |calls|
  {
    if calls != [] {
      var c := calls[0];
      assert LeavesAlone(c, lp);
      OneCallLeavesBalance(w, c, lp);
      IdleBalanceUnchanged(Exec(w, c), calls[1..], lp);
    }
  }

  /** What an LP could redeem for all of its shares. */
  function Worth(v: VaultState, lp: Account): int {
    CalcWithdrawalAmount(ShareBalance(v, lp), v.totalShares, v.totalDeposits)
  }

  /** An LP who does nothing can redeem at least as much at the end of the run as at its start. */
  lemma IdleLpNeverLoses(w: World, calls: seq<Call>, lp: Account)
    requires Sound(w) && SteadyRun(w, calls)
    requires forall c | c in calls :: LeavesAlone(c, lp)
    ensures Worth(Run(w, calls).market.vault, lp) >= Worth(w.market.vault, lp)
  {
    SharePriceNeverFalls(w, calls);
    IdleBalanceUnchanged(w, calls, lp);
    RunKeepsSound(w, calls);
    var v, v' := w.market.vault, Run(w, calls).market.vault;
    assert ShareBalance(v, lp) >= 0;
    IdleShareValue(ShareBalance(v, lp), v.totalShares, v.totalDeposits, v'.totalShares, v'.totalDeposits);
  }

  /** Several withdrawals, or deposits, by one LP in a row, and what they add up to. */
  function WithdrawEach(v: VaultState, t: Balances, lp: Account, pieces: seq<int>): Result<LpReceipt>
    decreases |pieces|
  {
    if pieces == [] then Ok(LpReceipt(v, t, 0))
    else
      var first :- Withdraw(v, t, lp, pieces[0]);
      var rest :- WithdrawEach(first.vault, first.token, lp, pieces[1..]);
      Ok(rest.(amount := first.amount + rest.amount))
  }

  function DepositEach(v: VaultState, t: Balances, lp: Account, pieces: seq<int>): Result<LpReceipt>
    decreases |pieces|
  {
    if pieces == [] then Ok(LpReceipt(v, t, 0))
    else
      var first :- Deposit(v, t, lp, pieces[0]);
      var rest :- DepositEach(first.vault, first.token, lp, pieces[1..]);
      Ok(rest.(amount := first.amount + rest.amount))
  }

  function SumOf(pieces: seq<int>): int {
    if pieces == [] then 0 else pieces[0] + SumOf(pieces[1..])
  }

  /** How one withdrawal moves the pool, with its rounding as a product. */
  lemma WithdrawMovesPool(v: VaultState, t: Balances, lp: Account, shares: int)
    requires ShareBook(v) && Withdraw(v, t, lp, shares).Ok?
    ensures var out := Withdraw(v, t, lp, shares).value;
            && out.vault.totalShares == v.totalShares - shares
            && out.vault.totalDeposits == v.totalDeposits - out.amount
            && ShareBalance(out.vault, lp) == ShareBalance(v, lp) - shares
            && out.amount * v.totalShares <= shares * v.totalDeposits
  {
    BalanceWithinTotal(v, lp);
    FloorOfRatio(shares, v.totalDeposits, v.totalShares);
  }

  /** The pieces are parts of the balance they are taken from. */
  lemma {:induction false} PiecesWithinBalance(v: VaultState, t: Balances, lp: Account, pieces: seq<int>)
    requires ShareBook(v) && WithdrawEach(v, t, lp, pieces).Ok?
    ensures 0 <= SumOf(pieces) <= ShareBalance(v, lp) <= v.totalShares
    decreases |pieces|
  {
    BalanceWithinTotal(v, lp);
    if pieces != [] {
      var first := Withdraw(v, t, lp, pieces[0]).value;
      WithdrawKeepsShares(v, t, lp, pieces[0]);
      WithdrawMovesPool(v, t, lp, pieces[0]);
      PiecesWithinBalance(first.vault, first.token, lp, pieces[1..]);
    }
  }

  lemma {:induction false} WithdrawEachBound(v: VaultState, t: Balances, lp: Account, pieces: seq<int>)
    requires ShareBook(v) && WithdrawEach(v, t, lp, pieces).Ok?
    ensures WithdrawEach(v, t, lp, pieces).value.amount * v.totalShares <= SumOf(pieces) * v.totalDeposits
    decreases |pieces|
  {
    if pieces != [] {
      var first := Withdraw(v, t, lp, pieces[0]).value;
      WithdrawKeepsShares(v, t, lp, pieces[0]);
      WithdrawMovesPool(v, t, lp, pieces[0]);
      PiecesWithinBalance(first.vault, first.token, lp, pieces[1..]);
      WithdrawEachBound(first.vault, first.token, lp, pieces[1..]);
      if first.vault.totalShares > 0 {
        RedeemTwiceBound(pieces[0], SumOf(pieces[1..]), v.totalShares, v.totalDeposits,
          first.amount, WithdrawEach(first.vault, first.token, lp, pieces[1..]).value.amount);
      }
    }
  }

  /** Withdrawing in pieces returns at most what one withdrawal of the sum is priced at. */
  lemma WithdrawingInPiecesGainsNothing(v: VaultState, t: Balances, lp: Account, pieces: seq<int>)
    requires ShareBook(v) && v.totalShares > 0 && WithdrawEach(v, t, lp, pieces).Ok?
    ensures WithdrawEach(v, t, lp, pieces).value.amount
            <= CalcWithdrawalAmount(SumOf(pieces), v.totalShares, v.totalDeposits)
  {
    PiecesWithinBalance(v, t, lp, pieces);
    WithdrawEachBound(v, t, lp, pieces);
    FloorIsLargest(WithdrawEach(v, t, lp, pieces).value.amount, SumOf(pieces), v.totalDeposits, v.totalShares);
  }

  /** How one deposit moves the pool, with its rounding as a product. */
  lemma DepositMovesPool(v: VaultState, t: Balances, lp: Account, amount: int)
    requires v.totalShares > 0 && v.totalDeposits > 0 && Deposit(v, t, lp, amount).Ok?
    ensures var out := Deposit(v, t, lp, amount).value;
            && amount > 0 && out.amount > 0
            && out.vault.totalShares == v.totalShares + out.amount
            && out.vault.totalDeposits == v.totalDeposits + amount
            && out.amount * v.totalDeposits <= amount * v.totalShares
  {
    FloorOfRatio(amount, v.totalShares, v.totalDeposits);
  }

  lemma {:induction false} DepositEachBound(v: VaultState, t: Balances, lp: Account, pieces: seq<int>)
    requires v.totalShares > 0 && v.totalDeposits > 0 && DepositEach(v, t, lp, pieces).Ok?
    ensures 0 <= SumOf(pieces)
    ensures DepositEach(v, t, lp, pieces).value.amount * v.totalDeposits <= SumOf(pieces) * v.totalShares
    decreases |pieces|
  {
    if pieces != [] {
      var first := Deposit(v, t, lp, pieces[0]).value;
      DepositMovesPool(v, t, lp, pieces[0]);
      DepositEachBound(first.vault, first.token, lp, pieces[1..]);
      MintTwiceBound(pieces[0], SumOf(pieces[1..]), v.totalShares, v.totalDeposits,
        first.amount, DepositEach(first.vault, first.token, lp, pieces[1..]).value.amount);
    }
  }

  /** Depositing in pieces mints at most what one deposit of the sum mints. */
  lemma DepositingInPiecesGainsNothing(v: VaultState, t: Balances, lp: Account, pieces: seq<int>)
    requires v.totalShares > 0 && v.totalDeposits > 0 && DepositEach(v, t, lp, pieces).Ok?
    ensures DepositEach(v, t, lp, pieces).value.amount
            <= CalcSharesToMint(SumOf(pieces), v.totalShares, v.totalDeposits)
  {
    DepositEachBound(v, t, lp, pieces);
    FloorIsLargest(DepositEach(v, t, lp, pieces).value.amount, SumOf(pieces), v.totalShares, v.totalDeposits);
  }

  /** Depositing and at once withdrawing the minted shares returns at most the deposit, and
      loses less than one share's worth plus one unit. */
  lemma DepositThenWithdraw(v: VaultState, t: Balances, lp: Account, amount: int)
    requires v.totalShares > 0 && v.totalDeposits > 0 && Deposit(v, t, lp, amount).Ok?
    requires var d := Deposit(v, t, lp, amount).value; Withdraw(d.vault, d.token, lp, d.amount).Ok?
    ensures var d := Deposit(v, t, lp, amount).value;
            var back := Withdraw(d.vault, d.token, lp, d.amount).value;
            && 0 < back.amount <= amount
            && (amount - back.amount - 1) * v.totalShares < v.totalDeposits
            && back.vault.totalShares == v.totalShares
            && ShareBalance(back.vault, lp) == ShareBalance(v, lp)
            && back.vault.totalDeposits >= v.totalDeposits
  {
    RoundTrip(amount, v.totalShares, v.totalDeposits);
  }

  /** The case the price claims exclude: with no shares outstanding, the fees left in the pool
      belong to whoever deposits next. */
  lemma NextDepositorOwnsLeftovers(v: VaultState, t: Balances, lp: Account, amount: int)
    requires v.totalShares == 0 && ShareBalance(v, lp) == 0 && v.totalDeposits >= 0
    requires Deposit(v, t, lp, amount).Ok?
    ensures Worth(Deposit(v, t, lp, amount).value.vault, lp) == v.totalDeposits + amount
  {
    RedeemAll(amount, v.totalDeposits + amount);
  }
}
