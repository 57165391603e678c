/** What every trade, liquidation and funding application answers, and when. Overflows apart, which
    `NoOverflow` confines. */
module TradeOutcomes {
  import opened PerpsTypes
  import opened Arithmetic
  import opened PositionMath
  import opened Token
  import opened Oracle
  import opened Vault
  import opened PositionManager
  import opened LiquidationEngine
  import opened FundingRate
  import opened Books
  import opened LiquidationHealth
  import opened VaultOutcomes

  // Opening.

  lemma CollectFeeOutcome(v: VaultState, size: int, feeBps: nat)
    ensures var r := CollectFee(v, CalculateFee(size, feeBps));
            || r == Err(ArithmeticTrap)
            || (if size * feeBps >= BPS then r.Ok? else r == Err(InvalidAmount))
  {
    FeeIsPositiveIff(size, feeBps);
  }

  /** Past the manager's own checks, an open answers what its payment, its lock and its fee do. */
  lemma OpenFollowsVault(
      m: Market, trader: Account, asset: Asset, direction: Direction, collateral: int, leverage: nat)
    requires collateral >= m.manager.minCollateral && 1 <= leverage <= m.manager.maxLeverage
    requires GetPriceValue(m.oracle, m.now, asset).Ok?
    ensures var r := OpenPosition(m, trader, asset, direction, collateral, leverage);
            var size := collateral * leverage;
            var fee := CalculateFee(size, m.manager.openFeeBps);
            var paid := Transfer(m.token, User(trader), VaultContract, collateral + fee);
            var lock := LockLiquidity(m.vault, size);
            || r == Err(ArithmeticTrap)
            || (if paid.Err? then r == Err(paid.error)
                else if lock.Err? then r == Err(lock.error)
                else if CollectFee(lock.value, fee).Err? then r == Err(CollectFee(lock.value, fee).error)
                else r.Ok?)
  {
  }

  /** An open succeeds exactly when collateral and leverage are within the settings, the price is
      fresh, the trader holds collateral and fee, the size is positive, the utilization check accepts
      it, and the fee is not zero. */
  lemma OpenOutcome(
      m: Market, trader: Account, asset: Asset, direction: Direction, collateral: int, leverage: nat)
    requires m.vault.locked >= 0 && m.vault.totalDeposits >= 0
    requires m.vault.maxUtilizationBps <= BPS && PricesSound(m.oracle, m.now) && m.now <= U64_MAX
    ensures var r := OpenPosition(m, trader, asset, direction, collateral, leverage);
            var size, v := collateral * leverage, m.vault;
            var cost := collateral + CalculateFee(size, m.manager.openFeeBps);
            || r == Err(ArithmeticTrap)
            || (if collateral < m.manager.minCollateral then r == Err(MinCollateralNotMet)
                else if leverage < 1 || leverage > m.manager.maxLeverage then r == Err(InvalidLeverage)
                else if !Fresh(m.oracle, m.now, asset) then r == Err(StalePrice)
                else if cost < 0 || cost > BalanceOf(m.token, User(trader)) then r == Err(TransferTrap)
                else if size <= 0 then r == Err(InvalidAmount)
                else if !Accepted(v.locked + size, v.totalDeposits, v.maxUtilizationBps)
                then r == Err(MaxUtilizationExceeded)
                else if size * m.manager.openFeeBps < BPS then r == Err(InvalidAmount)
                else r.Ok?)
  {
    PriceOutcome(m.oracle, m.now, asset);
    var s := m.manager;
    if collateral >= s.minCollateral && 1 <= leverage <= s.maxLeverage && Fresh(m.oracle, m.now, asset) {
      var size := collateral * leverage;
      OpenFollowsVault(m, trader, asset, direction, collateral, leverage);
      TransferOutcome(
        m.token, User(trader), VaultContract, collateral + CalculateFee(size, m.manager.openFeeBps));
      LockOutcome(m.vault, size);
      if LockLiquidity(m.vault, size).Ok? {
        CollectFeeOutcome(LockLiquidity(m.vault, size).value, size, m.manager.openFeeBps);
      }
    }
  }

  /** The id it returns is the one it records the position under. */
  lemma OpenReturnsId(
      m: Market, trader: Account, asset: Asset, direction: Direction, collateral: int, leverage: nat)
    requires OpenPosition(m, trader, asset, direction, collateral, leverage).Ok?
    ensures var out := OpenPosition(m, trader, asset, direction, collateral, leverage).value;
            && out.1 == m.manager.nextId && out.0.manager.nextId == out.1 + 1
            && PositionKey(trader, out.1) in out.0.manager.positions
            && out.0.manager.positions[PositionKey(trader, out.1)].id == out.1
  {
  }

  // Closing and liquidating.

  /** What ending a position with this net win needs: the pool holds the win, and the vault the payout. */
  predicate CanSettle(m: Market, collateral: int, net: int) {
    net <= m.vault.totalDeposits && (collateral + net <= 0 || collateral + net <= BalanceOf(m.token, VaultContract))
  }

  lemma SettlementOutcome(m: Market, key: PositionKey, pnl: int, fee: int)
    requires key in m.manager.positions && m.manager.positions[key].size <= m.vault.locked
    ensures var r, p := SettleAndRemove(m, key, pnl, fee), m.manager.positions[key];
            || r == Err(ArithmeticTrap)
            || (if pnl - fee > m.vault.totalDeposits then r == Err(InsufficientLiquidity)
                else if CanSettle(m, p.collateral, pnl - fee) then r.Ok?
                else r == Err(TransferTrap))
  {
  }

  /** The profit or loss of a position at a price, its loss capped at the collateral. */
  function CappedPnl(p: Position, price: int): int
    requires p.entryPrice != 0
  {
    CapLoss(CalculatePnl(p.direction, p.size, p.entryPrice, price), p.collateral)
  }

  lemma PricePnlOutcome(m: Market, p: Position)
    requires p.entryPrice > 0 && PricesSound(m.oracle, m.now) && m.now <= U64_MAX
    ensures var r := PricePnl(m, p);
            || r == Err(ArithmeticTrap)
            || r == (if Fresh(m.oracle, m.now, p.asset) then Ok(CappedPnl(p, m.oracle.prices[p.asset].price))
                     else Err(StalePrice))
  {
    PriceOutcome(m.oracle, m.now, p.asset);
  }

  lemma CloseFollowsSettlement(m: Market, key: PositionKey)
    requires key in m.manager.positions && m.manager.positions[key].trader == key.trader
    ensures var p := m.manager.positions[key];
            var r, pnl := ClosePosition(m, key.trader, key.id, p.asset), PricePnl(m, p);
            var fee := CalculateFee(p.size, m.manager.closeFeeBps);
            || r == Err(ArithmeticTrap)
            || (if pnl.Err? then r == Err(pnl.error)
                else if SettleAndRemove(m, key, pnl.value, fee).Err?
                then r == Err(SettleAndRemove(m, key, pnl.value, fee).error)
                else r.Ok? && r.value.1 == pnl.value - fee)
  {
    assert key == PositionKey(key.trader, key.id);
  }

  /** A close succeeds exactly when the position is there and has the named asset, its price is
      fresh, the pool holds what it wins net of the fee, and the vault what is paid out. It returns
      the capped PnL less the fee. */
  lemma CloseOutcome(m: Market, trader: Account, id: nat, asset: Asset)
    requires MarketSound(m) && m.now <= U64_MAX
    ensures var r, key := ClosePosition(m, trader, id, asset), PositionKey(trader, id);
            || r == Err(ArithmeticTrap)
            || (if key !in m.manager.positions then r == Err(PositionNotFound)
                else
                  var p := m.manager.positions[key];
                  if p.asset != asset then r == Err(AssetMismatch)
                  else if !Fresh(m.oracle, m.now, asset) then r == Err(StalePrice)
                  else
                    p.entryPrice > 0
                    && var net := CappedPnl(p, m.oracle.prices[asset].price)
                                  - CalculateFee(p.size, m.manager.closeFeeBps);
                       if net > m.vault.totalDeposits then r == Err(InsufficientLiquidity)
                       else if CanSettle(m, p.collateral, net) then r.Ok? && r.value.1 == net
                       else r == Err(TransferTrap))
  {
    var key := PositionKey(trader, id);
    if key in m.manager.positions {
      var p := m.manager.positions[key];
      assert PositionSound(key, p, m.manager.nextId);
      LockedCoversSize(m, key);
      PricePnlOutcome(m, p);
      CloseFollowsSettlement(m, key);
      if PricePnl(m, p).Ok? {
        SettlementOutcome(m, key, PricePnl(m, p).value, CalculateFee(p.size, m.manager.closeFeeBps));
      }
    }
  }

  /** What a close returns is what it moved: the pool loses it, and the trader gets it on top of the
      collateral, as far as that is positive. */
  lemma CloseReturnsWhatItMoves(m: Market, trader: Account, id: nat, asset: Asset)
    requires ClosePosition(m, trader, id, asset).Ok?
    ensures PositionKey(trader, id) in m.manager.positions
    ensures var out, p := ClosePosition(m, trader, id, asset).value, m.manager.positions[PositionKey(trader, id)];
            && out.0.vault.totalDeposits == m.vault.totalDeposits - out.1
            && BalanceOf(out.0.token, User(trader)) == BalanceOf(m.token, User(trader)) + Max(0, p.collateral + out.1)
            && BalanceOf(out.0.token, VaultContract)
               == BalanceOf(m.token, VaultContract) - Max(0, p.collateral + out.1)
  {
  }

  /** The margin ratio is the equity in basis points of the size, rounded toward zero for either sign. */
  predicate IsMarginRatio(ratio: int, equity: int, size: int) {
    if equity >= 0 then 0 <= ratio && ratio * size <= equity * BPS < (ratio + 1) * size
    else ratio <= 0 && (ratio - 1) * size < equity * BPS <= ratio * size
  }

  lemma MarginRatioOutcome(collateral: int, pnl: int, size: int)
    requires size > 0
    ensures var r := MarginRatioOf(collateral, pnl, size);
            || r == Err(ArithmeticTrap)
            || (r.Ok? && IsMarginRatio(r.value, collateral + pnl, size))
  {
    TDivBounds((collateral + pnl) * BPS, size);
  }

  lemma UnrealizedPnlOutcome(m: Market, trader: Account, id: nat, asset: Asset)
    requires MarketSound(m) && m.now <= U64_MAX
    ensures var r, key := GetUnrealizedPnl(m, trader, id, asset), PositionKey(trader, id);
            || r == Err(ArithmeticTrap)
            || (if key !in m.manager.positions then r == Err(PositionNotFound)
                else if !Fresh(m.oracle, m.now, asset) then r == Err(StalePrice)
                else
                  var p := m.manager.positions[key];
                  p.entryPrice > 0
                  && r == Ok(CalculatePnl(p.direction, p.size, p.entryPrice, m.oracle.prices[asset].price)))
  {
    PriceOutcome(m.oracle, m.now, asset);
    var key := PositionKey(trader, id);
    if key in m.manager.positions {
      assert PositionSound(key, m.manager.positions[key], m.manager.nextId);
    }
  }

  lemma RatioFollows(m: Market, trader: Account, id: nat, asset: Asset)
    requires var key := PositionKey(trader, id); key in m.manager.positions ==> m.manager.positions[key].size > 0
    ensures var r, pnl := GetMarginRatio(m, trader, id, asset), GetUnrealizedPnl(m, trader, id, asset);
            || r == Err(ArithmeticTrap)
            || (if pnl.Err? then r == Err(pnl.error)
                else
                  var p := m.manager.positions[PositionKey(trader, id)];
                  r == MarginRatioOf(p.collateral, pnl.value, p.size))
  {
  }

  /** The engine gives the ratio of every open position at a fresh price of the asset it is asked
      about, negative when the position is under water. */
  lemma EngineRatioOutcome(m: Market, trader: Account, id: nat, asset: Asset)
    requires MarketSound(m) && m.now <= U64_MAX
    ensures var r, key := GetMarginRatio(m, trader, id, asset), PositionKey(trader, id);
            || r == Err(ArithmeticTrap)
            || (if key !in m.manager.positions then r == Err(PositionNotFound)
                else if !Fresh(m.oracle, m.now, asset) then r == Err(StalePrice)
                else
                  var p := m.manager.positions[key];
                  p.entryPrice > 0 && r.Ok?
                  && IsMarginRatio(
                       r.value,
                       p.collateral + CalculatePnl(p.direction, p.size, p.entryPrice, m.oracle.prices[asset].price),
                       p.size))
  {
    var key := PositionKey(trader, id);
    UnrealizedPnlOutcome(m, trader, id, asset);
    if key in m.manager.positions {
      var p := m.manager.positions[key];
      assert PositionSound(key, p, m.manager.nextId);
      RatioFollows(m, trader, id, asset);
      if GetUnrealizedPnl(m, trader, id, asset).Ok? {
        MarginRatioOutcome(p.collateral, GetUnrealizedPnl(m, trader, id, asset).value, p.size);
      }
    }
  }

  lemma ForceCloseFollowsSettlement(m: Market, key: PositionKey, asset: Asset)
    requires key in m.manager.positions
    ensures var p := m.manager.positions[key];
            var r, pnl := LiquidatePosition(m, key.trader, key.id, asset), PricePnl(m, p);
            if p.asset != asset then r == Err(AssetMismatch)
            else if pnl.Err? then r == Err(pnl.error)
            else if SettleAndRemove(m, key, pnl.value, 0).Err?
            then r == Err(SettleAndRemove(m, key, pnl.value, 0).error)
            else r == Ok((SettleAndRemove(m, key, pnl.value, 0).value, p.collateral, pnl.value))
  {
    assert key == PositionKey(key.trader, key.id);
  }

  /** A force-close succeeds exactly when the asset is the position's, its price is fresh, the pool
      holds what it wins, and the vault what is paid out. */
  lemma ForceCloseOutcome(m: Market, key: PositionKey, asset: Asset)
    requires MarketSound(m) && m.now <= U64_MAX && key in m.manager.positions
    ensures var r, p := LiquidatePosition(m, key.trader, key.id, asset), m.manager.positions[key];
            || r == Err(ArithmeticTrap)
            || (if p.asset != asset then r == Err(AssetMismatch)
                else if !Fresh(m.oracle, m.now, asset) then r == Err(StalePrice)
                else
                  p.entryPrice > 0
                  && var pnl := CappedPnl(p, m.oracle.prices[asset].price);
                     if pnl > m.vault.totalDeposits then r == Err(InsufficientLiquidity)
                     else if CanSettle(m, p.collateral, pnl) then r.Ok? && r.value.1 == p.collateral && r.value.2 == pnl
                     else r == Err(TransferTrap))
  {
    var p := m.manager.positions[key];
    assert PositionSound(key, p, m.manager.nextId);
    LockedCoversSize(m, key);
    PricePnlOutcome(m, p);
    ForceCloseFollowsSettlement(m, key, asset);
    if PricePnl(m, p).Ok? {
      SettlementOutcome(m, key, PricePnl(m, p).value, 0);
    }
  }

  /** The engine calls an open position liquidatable, or not, by the exact health check, at every
      fresh price of the asset it is asked about. */
  lemma HealthOutcome(e: EngineState, m: Market, trader: Account, id: nat, asset: Asset)
    requires MarketSound(m) && m.now <= U64_MAX
    ensures var r, key := IsLiquidatable(e, m, trader, id, asset), PositionKey(trader, id);
            || r == Err(ArithmeticTrap)
            || (if key !in m.manager.positions then r == Err(PositionNotFound)
                else if !Fresh(m.oracle, m.now, asset) then r == Err(StalePrice)
                else
                  var p := m.manager.positions[key];
                  p.entryPrice > 0 && p.size > 0
                  && r == Ok(BelowMaintenance(p, e.maintenanceBps, m.oracle.prices[asset].price)))
  {
    PriceOutcome(m.oracle, m.now, asset);
    EngineRatioOutcome(m, trader, id, asset);
    var key := PositionKey(trader, id);
    if key in m.manager.positions {
      assert PositionSound(key, m.manager.positions[key], m.manager.nextId);
    }
    if IsLiquidatable(e, m, trader, id, asset).Ok? {
      EngineChecksMaintenance(e, m, trader, id, asset);
    }
  }

  /** A liquidation does what the health check and the force-close do, and reports the price and the
      ratio. */
  lemma LiquidateFollows(e: EngineState, m: Market, key: PositionKey, asset: Asset)
    requires key in m.manager.positions && m.manager.positions[key].size > 0
    ensures var r := Liquidate(e, m, key.trader, key.id, asset);
            var price, ratio := GetPriceValue(m.oracle, m.now, asset), GetMarginRatio(m, key.trader, key.id, asset);
            var closed := LiquidatePosition(m, key.trader, key.id, asset);
            || r == Err(ArithmeticTrap)
            || (if price.Err? then r == Err(price.error)
                else if ratio.Err? then r == Err(ratio.error)
                else if ratio.value >= e.maintenanceBps then r == Err(NotLiquidatable)
                else if closed.Err? then r == Err(closed.error)
                else r.Ok? && r.value.market == closed.value.0
                     && r.value.markPrice == price.value && r.value.marginRatio == ratio.value)
  {
    assert key == PositionKey(key.trader, key.id);
  }

  /** A liquidation succeeds exactly when the position is there, the price of the named asset is
      fresh, the position is below maintenance at it and has that asset, the pool holds what it wins,
      and the vault what is paid out. It reports that price and the true margin ratio. */
  lemma LiquidateOutcome(e: EngineState, m: Market, key: PositionKey, asset: Asset)
    requires MarketSound(m) && m.now <= U64_MAX
    ensures var r := Liquidate(e, m, key.trader, key.id, asset);
            || r == Err(ArithmeticTrap)
            || (if key !in m.manager.positions then r == Err(PositionNotFound)
                else if !Fresh(m.oracle, m.now, asset) then r == Err(StalePrice)
                else
                  var p, price := m.manager.positions[key], m.oracle.prices[asset].price;
                  && p.entryPrice > 0 && p.size > 0
                  && (if !BelowMaintenance(p, e.maintenanceBps, price) then r == Err(NotLiquidatable)
                      else if p.asset != asset then r == Err(AssetMismatch)
                      else if CappedPnl(p, price) > m.vault.totalDeposits then r == Err(InsufficientLiquidity)
                      else if !CanSettle(m, p.collateral, CappedPnl(p, price)) then r == Err(TransferTrap)
                      else r.Ok? && r.value.markPrice == price
                           && IsMarginRatio(
                                r.value.marginRatio,
                                p.collateral + CalculatePnl(p.direction, p.size, p.entryPrice, price), p.size)))
  {
    assert key == PositionKey(key.trader, key.id);
    PriceOutcome(m.oracle, m.now, asset);
    if key in m.manager.positions {
      assert PositionSound(key, m.manager.positions[key], m.manager.nextId);
      LiquidateFollows(e, m, key, asset);
      EngineRatioOutcome(m, key.trader, key.id, asset);
      HealthOutcome(e, m, key.trader, key.id, asset);
      ForceCloseOutcome(m, key, asset);
    }
  }

  // Funding.

  /** Funding is applied exactly when the interval has passed; its time is then now. */
  lemma FundingOutcome(f: FundingState, now: nat, oiLong: int, oiShort: int)
    requires f.lastTime <= now <= U64_MAX
    ensures var r := ApplyFunding(f, now, oiLong, oiShort);
            || r == Err(ArithmeticTrap)
            || (if now < f.lastTime + f.interval then r == Err(FundingTooEarly)
                else r.Ok? && r.value.lastTime == now
                     && r.value == f.(cumulativeLong := r.value.cumulativeLong,
                                      cumulativeShort := r.value.cumulativeShort, lastTime := now))
  {
  }

  /** The heavier side is charged the spread and this base, the lighter side the spread less it: the
      skew in basis points, rounded down, up to the cap. */
  predicate IsBase(base: int, heavier: int, lighter: int, cap: nat) {
    && 0 <= base <= cap
    && base * (heavier + lighter) <= (heavier - lighter) * BPS
    && (base == cap || (heavier - lighter) * BPS < (base + 1) * (heavier + lighter))
  }

  lemma BaseRate(heavier: int, lighter: int, cap: nat)
    requires 0 <= lighter <= heavier && heavier > 0
    ensures IsBase(
              Clamp(TDiv((heavier - lighter) * BPS, heavier + lighter), -(cap as int), cap), heavier, lighter, cap)
  {
    var x, total := (heavier - lighter) * BPS, heavier + lighter;
    TDivBounds(x, total);
    MulMono(Min(cap, TDiv(x, total)), TDiv(x, total), total);
  }

  /** Which side an application charges, and how much: without open interest nobody; otherwise the
      longs when they are the heavier side, and the shorts when they are. */
  lemma FundingCharges(f: FundingState, now: nat, oiLong: int, oiShort: int)
    requires oiLong >= 0 && oiShort >= 0 && ApplyFunding(f, now, oiLong, oiShort).Ok?
    ensures var f' := ApplyFunding(f, now, oiLong, oiShort).value;
            var dl, ds := f'.cumulativeLong - f.cumulativeLong, f'.cumulativeShort - f.cumulativeShort;
            && (oiLong == oiShort == 0 ==> dl == ds == 0)
            && (oiLong >= oiShort && oiLong > 0 ==>
                  dl - f.spreadBps == f.spreadBps - ds && IsBase(dl - f.spreadBps, oiLong, oiShort, f.maxRateBps))
            && (oiShort >= oiLong && oiShort > 0 ==>
                  ds - f.spreadBps == f.spreadBps - dl && IsBase(ds - f.spreadBps, oiShort, oiLong, f.maxRateBps))
  {
    if oiLong >= oiShort && oiLong > 0 {
      BaseRate(oiLong, oiShort, f.maxRateBps);
    }
    if oiShort >= oiLong && oiShort > 0 {
      BaseRate(oiShort, oiLong, f.maxRateBps);
      TDivNegates((oiShort - oiLong) * BPS, oiShort + oiLong);
      assert (oiLong - oiShort) * BPS == -((oiShort - oiLong) * BPS);
    }
  }

  /** So the index of the heavier side never moves less than that of the lighter side. */
  lemma HeavierSideIsCharged(f: FundingState, now: nat, oiLong: int, oiShort: int)
    requires oiLong >= 0 && oiShort >= 0 && ApplyFunding(f, now, oiLong, oiShort).Ok?
    ensures var f' := ApplyFunding(f, now, oiLong, oiShort).value;
            var dl, ds := f'.cumulativeLong - f.cumulativeLong, f'.cumulativeShort - f.cumulativeShort;
            (oiLong >= oiShort ==> dl >= ds) && (oiShort >= oiLong ==> ds >= dl)
  {
    FundingCharges(f, now, oiLong, oiShort);
  }
}
