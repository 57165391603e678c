/** No call overflows while the figures of the protocol stay modest: up to 2^56, some 7.2 billion
    USDC. So below that size the answers of the other modules hold without their overflow case. */
module NoOverflow {
  import opened PerpsTypes
  import opened Arithmetic
  import opened Shares
  import opened PositionMath
  import opened Token
  import opened Oracle
  import opened Vault
  import opened PositionManager
  import opened LiquidationEngine
  import opened FundingRate
  import opened Protocol
  import opened Books

  const MODEST := 0x100_0000_0000_0000

  predicate Modest(x: int) {
    -MODEST <= x <= MODEST
  }

  predicate ModestVault(v: VaultState) {
    Modest(v.totalShares) && Modest(v.totalDeposits) && Modest(v.locked)
  }

  predicate ModestToken(t: Balances) {
    forall h | h in t :: Modest(t[h])
  }

  predicate ModestPrices(o: OracleState) {
    forall a | a in o.prices :: Modest(o.prices[a].price)
  }

  /** Sizes and collateral need no bound of their own: they are part of what is locked. */
  predicate ModestManager(s: ManagerState) {
    && s.nextId <= MODEST
    && (forall k | k in s.positions :: Modest(s.positions[k].entryPrice))
    && (forall t | t in s.counts :: s.counts[t] <= MODEST)
  }

  predicate ModestMarket(m: Market) {
    && ModestVault(m.vault) && ModestToken(m.token) && ModestPrices(m.oracle) && ModestManager(m.manager)
    && m.now <= MODEST
  }

  predicate ModestWorld(w: World) {
    && ModestMarket(w.market)
    && w.engine.penaltyBps < U32_MODULUS && w.engine.keeperBps < U32_MODULUS
    && Modest(w.funding.cumulativeLong) && Modest(w.funding.cumulativeShort)
    && w.funding.maxRateBps < U32_MODULUS && w.funding.spreadBps < U32_MODULUS
  }

  /** Only a deposit and an open bring in figures that nothing else bounds. */
  predicate ModestCall(c: Call) {
    match c
    case DepositCall(_, amount) => Modest(amount)
    case OpenCall(_, _, _, collateral, leverage) => Modest(collateral) && Modest(collateral * leverage)
    case _ => true
  }

  lemma ProductIsWithin(x: int, y: int, b: nat, c: nat)
    requires -(b as int) <= x <= b && -(c as int) <= y <= c
    ensures -(b * c) <= x * y <= b * c
  {
    MulMono(Abs(x), b, Abs(y));
    MulMono(Abs(y), c, b);
    assert Abs(x) * Abs(y) == x * y || Abs(x) * Abs(y) == -(x * y);
  }

  lemma QuotientIsWithin(a: int, b: int)
    requires b > 0
    ensures -(Abs(a) as int) <= TDiv(a, b) <= Abs(a)
  {
    TDivBounds(a, b);
    var q := TDiv(a, b);
    if a >= 0 {
      MulMono(1, b, q);
    } else {
      MulMono(1, b, -q);
      assert (-q) * b == -(q * b);
    }
  }

  lemma RatioIsWithin(x: int, y: int, z: int, b: nat, c: nat)
    requires -(b as int) <= x <= b && -(c as int) <= y <= c && z > 0
    ensures -(b * c) <= x * y <= b * c && -(b * c) <= TDiv(x * y, z) <= b * c
  {
    ProductIsWithin(x, y, b, c);
    QuotientIsWithin(x * y, z);
  }

  lemma ModestTransferFits(t: Balances, from: Holder, to: Holder, amount: int)
    requires TokenSound(t) && ModestToken(t)
    ensures Transfer(t, from, to, amount) != Err(ArithmeticTrap)
  {
  }

  lemma ModestMintFits(amount: int, s: int, d: int)
    requires Modest(amount) && 0 <= s <= MODEST && 0 <= d <= MODEST
    ensures SharesToMint(amount, s, d).Ok?
    ensures -MODEST * MODEST <= SharesToMint(amount, s, d).value <= MODEST * MODEST
  {
    if d > 0 {
      RatioIsWithin(amount, s, d, MODEST, MODEST);
    }
  }

  lemma ModestDepositFits(v: VaultState, t: Balances, lp: Account, amount: int)
    requires ShareBook(v) && ModestVault(v) && TokenSound(t) && ModestToken(t) && Modest(amount)
    ensures Deposit(v, t, lp, amount) != Err(ArithmeticTrap)
  {
    BalanceWithinTotal(v, lp);
    ModestMintFits(amount, v.totalShares, v.totalDeposits);
    ModestTransferFits(t, User(lp), VaultContract, amount);
  }

  lemma ModestUtilizationFits(locked: int, deposits: int)
    requires 0 <= locked <= 2 * MODEST && 0 <= deposits
    ensures UtilizationBps(locked, deposits).Ok?
  {
    if deposits > 0 {
      QuotientIsWithin(locked * BPS, deposits);
    }
  }

  lemma ModestRedemptionFits(shares: int, s: int, d: int)
    requires 0 < shares <= s <= MODEST && 0 <= d <= MODEST
    ensures WithdrawalAmount(shares, s, d).Ok? && 0 <= WithdrawalAmount(shares, s, d).value <= d
  {
    RatioIsWithin(shares, d, s, MODEST, MODEST);
    RedeemKeepsPrice(shares, s, d);
  }

  lemma ModestWithdrawFits(v: VaultState, t: Balances, lp: Account, shares: int)
    requires ShareBook(v) && ModestVault(v) && v.locked >= 0 && TokenSound(t) && ModestToken(t)
    ensures Withdraw(v, t, lp, shares) != Err(ArithmeticTrap)
  {
    BalanceWithinTotal(v, lp);
    if 0 < shares <= ShareBalance(v, lp) {
      ModestRedemptionFits(shares, v.totalShares, v.totalDeposits);
      var usdc := CalcWithdrawalAmount(shares, v.totalShares, v.totalDeposits);
      ModestUtilizationFits(v.locked, v.totalDeposits - usdc);
      ModestTransferFits(t, VaultContract, User(lp), usdc);
    }
  }

  lemma TenthIsWithin(x: int)
    requires -1000 * MODEST <= x <= 1000 * MODEST
    ensures Modest(TDiv(x, BPS))
  {
    TDivBounds(x, BPS);
  }

  lemma ModestFeeFits(size: int, feeBps: nat)
    requires Modest(size) && feeBps <= 1000
    ensures Fee(size, feeBps).Ok? && Modest(Fee(size, feeBps).value)
  {
    ProductIsWithin(size, feeBps, MODEST, 1000);
    TenthIsWithin(size * feeBps);
  }

  lemma ModestLockFits(v: VaultState, amount: int)
    requires ModestVault(v) && v.locked >= 0 && v.totalDeposits >= 0 && Modest(amount)
    ensures LockLiquidity(v, amount) != Err(ArithmeticTrap)
  {
    if amount > 0 {
      ModestUtilizationFits(v.locked + amount, v.totalDeposits);
    }
  }

  lemma ModestPriceIsServed(m: Market, asset: Asset)
    requires PricesSound(m.oracle, m.now) && ModestMarket(m)
    ensures GetPriceValue(m.oracle, m.now, asset) != Err(ArithmeticTrap)
    ensures GetPriceValue(m.oracle, m.now, asset).Ok? ==> 0 < GetPriceValue(m.oracle, m.now, asset).value <= MODEST
  {
  }

  /** Each side's open interest is part of what is locked. */
  lemma SidesWithinLocked(m: Market)
    requires MarketSound(m)
    ensures 0 <= m.manager.oiLong <= m.vault.locked && 0 <= m.manager.oiShort <= m.vault.locked
  {
    var ps := m.manager.positions;
    forall k | k in ps
      ensures Weigh(SizeOn(Long), ps[k]) >= 0 && Weigh(SizeOn(Short), ps[k]) >= 0
    {
      assert PositionSound(k, ps[k], m.manager.nextId);
    }
    SumsNonNegative(ps, SizeOn(Long));
    SumsNonNegative(ps, SizeOn(Short));
  }

  lemma ModestRecordFits(s: ManagerState, trader: Account, id: nat, p: Position)
    requires ModestManager(s) && id <= MODEST && Modest(p.size) && Modest(s.oiLong) && Modest(s.oiShort)
    ensures Record(s, trader, id, p).Ok?
  {
  }

  lemma ModestOpenFits(
      m: Market, trader: Account, asset: Asset, direction: Direction, collateral: int, leverage: nat)
    requires MarketSound(m) && ModestMarket(m) && m.manager.openFeeBps <= 1000
    requires Modest(collateral) && Modest(collateral * leverage)
    ensures OpenPosition(m, trader, asset, direction, collateral, leverage) != Err(ArithmeticTrap)
  {
    var s, size := m.manager, collateral * leverage;
    ModestPriceIsServed(m, asset);
    SidesWithinLocked(m);
    ModestFeeFits(size, s.openFeeBps);
    var fee := CalculateFee(size, s.openFeeBps);
    ModestTransferFits(m.token, User(trader), VaultContract, collateral + fee);
    ModestLockFits(m.vault, size);
    if GetPriceValue(m.oracle, m.now, asset).Ok? {
      var price := GetPriceValue(m.oracle, m.now, asset).value;
      ModestRecordFits(s, trader, s.nextId, Position(
        s.nextId, trader, asset, direction, size, collateral, price, leverage, 0, m.now));
    }
  }

  /** An open position is no larger than what is locked, and its collateral no larger than its size. */
  lemma PositionWithinLocked(m: Market, key: PositionKey)
    requires MarketSound(m) && ModestMarket(m) && key in m.manager.positions
    ensures var p := m.manager.positions[key];
            0 < p.collateral <= p.size <= MODEST && 0 < p.entryPrice <= MODEST
  {
    LockedCoversSize(m, key);
    var p := m.manager.positions[key];
    assert PositionSound(key, p, m.manager.nextId);
    MulMono(1, p.leverage, p.collateral);
  }

  lemma ModestPnlFits(p: Position, price: int)
    requires 0 < p.size <= MODEST && 0 < p.entryPrice <= MODEST && 0 < price <= MODEST
    ensures var r := Pnl(p.direction, p.size, p.entryPrice, price);
            r.Ok? && -MODEST * MODEST <= r.value <= MODEST * MODEST
  {
    RatioIsWithin(p.size, PriceMove(p.direction, p.entryPrice, price), p.entryPrice, MODEST, MODEST);
  }

  lemma ModestPricePnlFits(m: Market, key: PositionKey)
    requires MarketSound(m) && ModestMarket(m) && key in m.manager.positions
    ensures var p := m.manager.positions[key];
            && PricePnl(m, p) != Err(ArithmeticTrap)
            && (PricePnl(m, p).Ok? ==> -p.collateral <= PricePnl(m, p).value <= MODEST * MODEST)
  {
    var p := m.manager.positions[key];
    PositionWithinLocked(m, key);
    ModestPriceIsServed(m, p.asset);
    if GetPriceValue(m.oracle, m.now, p.asset).Ok? {
      ModestPnlFits(p, GetPriceValue(m.oracle, m.now, p.asset).value);
    }
  }

  lemma ModestSettleCloseFits(
      v: VaultState, t: Balances, trader: Account, size: int, collateral: int, pnl: int, fee: int)
    requires ModestVault(v) && TokenSound(t) && ModestToken(t)
    requires Modest(size) && Modest(collateral) && Modest(fee) && -MODEST <= pnl <= MODEST * MODEST
    ensures SettleClose(v, t, trader, size, collateral, pnl, fee) != Err(ArithmeticTrap)
  {
    ModestTransferFits(t, VaultContract, User(trader), collateral + pnl - fee);
  }

  lemma ModestSettlementFits(m: Market, key: PositionKey, pnl: int, fee: int)
    requires MarketSound(m) && ModestMarket(m) && key in m.manager.positions
    requires Modest(fee) && -MODEST <= pnl <= MODEST * MODEST
    ensures SettleAndRemove(m, key, pnl, fee) != Err(ArithmeticTrap)
  {
    var p := m.manager.positions[key];
    PositionWithinLocked(m, key);
    SidesWithinLocked(m);
    ModestSettleCloseFits(m.vault, m.token, key.trader, p.size, p.collateral, pnl, fee);
  }

  lemma ModestCloseFits(m: Market, trader: Account, id: nat, asset: Asset)
    requires MarketSound(m) && ModestMarket(m) && m.manager.closeFeeBps <= 1000
    ensures ClosePosition(m, trader, id, asset) != Err(ArithmeticTrap)
  {
    var key := PositionKey(trader, id);
    if key in m.manager.positions {
      var p := m.manager.positions[key];
      PositionWithinLocked(m, key);
      ModestPricePnlFits(m, key);
      ModestFeeFits(p.size, m.manager.closeFeeBps);
      if PricePnl(m, p).Ok? {
        ModestSettlementFits(m, key, PricePnl(m, p).value, CalculateFee(p.size, m.manager.closeFeeBps));
      }
    }
  }

  lemma ModestForceCloseFits(m: Market, key: PositionKey, asset: Asset)
    requires MarketSound(m) && ModestMarket(m) && key in m.manager.positions
    ensures var r, p := LiquidatePosition(m, key.trader, key.id, asset), m.manager.positions[key];
            && r != Err(ArithmeticTrap)
            && (r.Ok? ==> r.value.1 == p.collateral && -p.collateral <= r.value.2 <= MODEST * MODEST)
  {
    assert key == PositionKey(key.trader, key.id);
    var p := m.manager.positions[key];
    PositionWithinLocked(m, key);
    ModestPricePnlFits(m, key);
    if PricePnl(m, p).Ok? {
      ModestSettlementFits(m, key, PricePnl(m, p).value, 0);
    }
  }

  lemma ModestRatioFits(collateral: int, pnl: int, size: int)
    requires Modest(collateral) && size > 0 && -MODEST * MODEST <= pnl <= MODEST * MODEST
    ensures MarginRatioOf(collateral, pnl, size).Ok?
  {
    QuotientIsWithin((collateral + pnl) * BPS, size);
  }

  lemma ModestLevyFits(equity: int, collateral: int, bps: nat)
    requires Modest(collateral) && bps < U32_MODULUS
    ensures Levy(equity, collateral, bps).Ok?
  {
    ProductIsWithin(collateral, bps, MODEST, U32_MODULUS);
  }

  lemma ModestUnrealizedFits(m: Market, key: PositionKey, asset: Asset)
    requires MarketSound(m) && ModestMarket(m) && key in m.manager.positions
    ensures var r := GetUnrealizedPnl(m, key.trader, key.id, asset);
            r != Err(ArithmeticTrap) && (r.Ok? ==> -MODEST * MODEST <= r.value <= MODEST * MODEST)
  {
    assert key == PositionKey(key.trader, key.id);
    PositionWithinLocked(m, key);
    ModestPriceIsServed(m, asset);
    if GetPriceValue(m.oracle, m.now, asset).Ok? {
      ModestPnlFits(m.manager.positions[key], GetPriceValue(m.oracle, m.now, asset).value);
    }
  }

  lemma ModestLiquidationFits(e: EngineState, m: Market, key: PositionKey, asset: Asset)
    requires MarketSound(m) && ModestMarket(m)
    requires e.penaltyBps < U32_MODULUS && e.keeperBps < U32_MODULUS
    ensures Liquidate(e, m, key.trader, key.id, asset) != Err(ArithmeticTrap)
  {
    assert key == PositionKey(key.trader, key.id);
    ModestPriceIsServed(m, asset);
    if key in m.manager.positions {
      var p := m.manager.positions[key];
      PositionWithinLocked(m, key);
      ModestUnrealizedFits(m, key, asset);
      ModestForceCloseFits(m, key, asset);
      if GetUnrealizedPnl(m, key.trader, key.id, asset).Ok? {
        ModestRatioFits(p.collateral, GetUnrealizedPnl(m, key.trader, key.id, asset).value, p.size);
      }
      var closed := LiquidatePosition(m, key.trader, key.id, asset);
      if closed.Ok? {
        ModestLevyFits(p.collateral + closed.value.2, p.collateral, e.penaltyBps);
        ModestLevyFits(p.collateral + closed.value.2, p.collateral, e.keeperBps);
      }
    }
  }

  lemma ModestRatesFit(f: FundingState, oiLong: int, oiShort: int)
    requires 0 <= oiLong <= MODEST && 0 <= oiShort <= MODEST
    requires f.maxRateBps < U32_MODULUS && f.spreadBps < U32_MODULUS
    ensures var r := CurrentRate(f, oiLong, oiShort);
            r.Ok? && Modest(r.value.0) && Modest(r.value.1)
  {
    if oiLong + oiShort > 0 {
      QuotientIsWithin((oiLong - oiShort) * BPS, oiLong + oiShort);
    }
  }

  lemma ModestFundingFits(f: FundingState, now: nat, oiLong: int, oiShort: int)
    requires 0 <= oiLong <= MODEST && 0 <= oiShort <= MODEST && f.lastTime <= now <= MODEST
    requires f.maxRateBps < U32_MODULUS && f.spreadBps < U32_MODULUS
    requires Modest(f.cumulativeLong) && Modest(f.cumulativeShort)
    ensures ApplyFunding(f, now, oiLong, oiShort) != Err(ArithmeticTrap)
  {
    ModestRatesFit(f, oiLong, oiShort);
  }

  lemma ModestTransferringCallFits(w: World, c: Call)
    requires Sound(w) && ModestWorld(w) && ModestCall(c)
    requires c.DepositCall? || c.WithdrawCall? || c.TransferCall?
    ensures Apply(w, c) != Err(ArithmeticTrap)
  {
    var m := w.market;
    if c.DepositCall? {
      ModestDepositFits(m.vault, m.token, c.lp, c.amount);
    } else if c.WithdrawCall? {
      SidesWithinLocked(m);
      ModestWithdrawFits(m.vault, m.token, c.lp, c.shares);
    } else {
      ModestTransferFits(m.token, User(c.from), c.to, c.amount);
    }
  }

  lemma ModestTradeFits(w: World, c: Call)
    requires Sound(w) && ModestWorld(w) && ModestCall(c)
    requires c.OpenCall? || c.CloseCall? || c.LiquidateCall?
    ensures Apply(w, c) != Err(ArithmeticTrap)
  {
    var m := w.market;
    if c.OpenCall? {
      ModestOpenFits(m, c.trader, c.asset, c.direction, c.collateral, c.leverage);
    } else if c.CloseCall? {
      ModestCloseFits(m, c.trader, c.id, c.asset);
    } else {
      ModestLiquidationFits(w.engine, m, PositionKey(c.trader, c.id), c.asset);
    }
  }

  lemma ModestFundingCallFits(w: World)
    requires Sound(w) && ModestWorld(w)
    ensures Apply(w, ApplyFundingCall) != Err(ArithmeticTrap)
  {
    SidesWithinLocked(w.market);
    ModestFundingFits(w.funding, w.market.now, w.market.manager.oiLong, w.market.manager.oiShort);
  }

  lemma OtherCallsComputeNothing(w: World, c: Call)
    requires !MovesValue(c) && !c.ApplyFundingCall?
    ensures Apply(w, c) != Err(ArithmeticTrap)
  {
  }

  /** Whatever is called by whomever, no number overflows while the protocol's figures are modest. */
  lemma ModestCallNeverOverflows(w: World, c: Call)
    requires Sound(w) && ModestWorld(w) && ModestCall(c)
    ensures Apply(w, c) != Err(ArithmeticTrap)
  {
    if c.ApplyFundingCall? {
      ModestFundingCallFits(w);
    } else if !MovesValue(c) {
      OtherCallsComputeNothing(w, c);
    } else if c.OpenCall? || c.CloseCall? || c.LiquidateCall? {
      ModestTradeFits(w, c);
    } else {
      ModestTransferringCallFits(w, c);
    }
  }
}
