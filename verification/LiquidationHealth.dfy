/** When a position is liquidatable, and what a liquidation then does. */
module LiquidationHealth {
  import opened PerpsTypes
  import opened Arithmetic
  import opened PositionMath
  import opened Token
  import opened Oracle
  import opened PositionManager
  import opened LiquidationEngine
  import opened Books

  /** The engine's health check at a price, in exact arithmetic: two nested truncating divisions. */
  predicate BelowMaintenance(p: Position, maintenanceBps: nat, price: int)
    requires p.entryPrice != 0 && p.size != 0
  {
    TDiv((p.collateral + CalculatePnl(p.direction, p.size, p.entryPrice, price)) * BPS, p.size) < maintenanceBps
  }

  /** The engine's answer, when no number overflows, is that check at the oracle's price. */
  lemma EngineChecksMaintenance(e: EngineState, m: Market, trader: Account, id: nat, asset: Asset)
    requires IsLiquidatable(e, m, trader, id, asset).Ok?
    ensures GetPosition(m, trader, id).Ok? && GetPriceValue(m.oracle, m.now, asset).Ok?
    ensures var p, price := GetPosition(m, trader, id).value, GetPriceValue(m.oracle, m.now, asset).value;
            p.entryPrice != 0 && p.size != 0
            && IsLiquidatable(e, m, trader, id, asset).value == BelowMaintenance(p, e.maintenanceBps, price)
  {
  }

  /** The equity below which a position of this size is under maintenance. */
  function RequiredMargin(size: int, maintenanceBps: nat): int {
    CeilDiv(maintenanceBps * size, BPS)
  }

  /** How far the price must have moved in the position's favour for it to be healthy. */
  function RequiredMove(p: Position, maintenanceBps: nat): int
    requires p.size > 0
  {
    var need := RequiredMargin(p.size, maintenanceBps) - p.collateral;
    CeilDiv(if need >= 1 then need * p.entryPrice else (need - 1) * p.entryPrice + 1, p.size)
  }

  /** The last unhealthy price is just below this for a long, just above it for a short. */
  function LiquidationPrice(p: Position, maintenanceBps: nat): int
    requires p.size > 0
  {
    match p.direction
    case Long => p.entryPrice + RequiredMove(p, maintenanceBps)
    case Short => p.entryPrice - RequiredMove(p, maintenanceBps)
  }

  /** A position is liquidatable exactly on one side of a single price, given in closed form. */
  lemma SingleLiquidationPrice(p: Position, maintenanceBps: nat, price: int)
    requires p.size > 0 && p.entryPrice > 0 && maintenanceBps >= 1
    ensures BelowMaintenance(p, maintenanceBps, price) <==>
            match p.direction
            case Long => price < LiquidationPrice(p, maintenanceBps)
            case Short => price > LiquidationPrice(p, maintenanceBps)
  {
    var pnl := CalculatePnl(p.direction, p.size, p.entryPrice, price);
    TDivBelow((p.collateral + pnl) * BPS, p.size, maintenanceBps);
    CeilDivAbove(p.collateral + pnl, maintenanceBps * p.size, BPS);
    var need := RequiredMargin(p.size, maintenanceBps) - p.collateral;
    assert BelowMaintenance(p, maintenanceBps, price) <==> pnl < need;
    var move := PriceMove(p.direction, p.entryPrice, price);
    var bound := if need >= 1 then need * p.entryPrice else (need - 1) * p.entryPrice + 1;
    TDivBelow(p.size * move, p.entryPrice, need);
    CeilDivAbove(move, bound, p.size);
  }

  /** So a worse price never makes a liquidatable position healthy. */
  lemma WorsePriceStaysLiquidatable(p: Position, maintenanceBps: nat, price: int, worse: int)
    requires p.size > 0 && p.entryPrice > 0 && maintenanceBps >= 1
    requires BelowMaintenance(p, maintenanceBps, price)
    requires if p.direction.Long? then worse <= price else worse >= price
    ensures BelowMaintenance(p, maintenanceBps, worse)
  {
    SingleLiquidationPrice(p, maintenanceBps, price);
    SingleLiquidationPrice(p, maintenanceBps, worse);
  }

  /** Any position whose losses have reached its collateral is liquidatable. */
  lemma BankruptIsLiquidatable(p: Position, maintenanceBps: nat, price: int)
    requires p.size > 0 && p.entryPrice > 0 && maintenanceBps >= 1
    requires p.collateral + CalculatePnl(p.direction, p.size, p.entryPrice, price) <= 0
    ensures BelowMaintenance(p, maintenanceBps, price)
  {
  }

  /** Born unhealthy: at its entry price a position is liquidatable exactly when its leverage
      times the maintenance margin exceeds 100%. */
  lemma BornLiquidatableIff(p: Position, maintenanceBps: nat)
    requires PositionSound(PositionKey(p.trader, p.id), p, p.id + 1) && maintenanceBps >= 1
    ensures BelowMaintenance(p, maintenanceBps, p.entryPrice) <==> p.leverage * maintenanceBps > BPS
  {
    assert p.size * PriceMove(p.direction, p.entryPrice, p.entryPrice) == 0;
    TDivOfZero(p.entryPrice);
    assert CalculatePnl(p.direction, p.size, p.entryPrice, p.entryPrice) == 0;
    TDivBelow(p.collateral * BPS, p.size, maintenanceBps);
    assert maintenanceBps * p.size == p.collateral * (p.leverage * maintenanceBps);
    MulLess(BPS, p.leverage * maintenanceBps, p.collateral);
  }

  lemma LevyBounds(equity: int, collateral: int, bps: nat)
    requires collateral >= 0 && Levy(equity, collateral, bps).Ok?
    ensures 0 <= Levy(equity, collateral, bps).value <= Max(0, equity)
  {
  }

  /** A levy is the largest amount that the rate allows on the collateral and the equity can pay. */
  lemma LevyIsLargest(equity: int, collateral: int, bps: nat, x: int)
    requires collateral >= 0 && equity > 0 && Levy(equity, collateral, bps).Ok?
    ensures x <= Levy(equity, collateral, bps).value <==> x <= equity && x * BPS <= collateral * bps
  {
  }

  lemma LevyMonotone(equity: int, collateral: int, low: nat, high: nat)
    requires collateral >= 0 && low <= high
    requires Levy(equity, collateral, low).Ok? && Levy(equity, collateral, high).Ok?
    ensures Levy(equity, collateral, low).value <= Levy(equity, collateral, high).value
  {
  }

  /** A successful liquidation is a successful settlement, without a fee, of a position that had
      the named asset and was below maintenance at the price that settled it. */
  lemma LiquidationSettles(e: EngineState, m: Market, key: PositionKey, asset: Asset, out: Liquidation)
    requires Liquidate(e, m, key.trader, key.id, asset) == Ok(out)
    ensures key in m.manager.positions
    ensures var p := m.manager.positions[key];
            && p.asset == asset && p.entryPrice != 0 && p.size != 0
            && GetPriceValue(m.oracle, m.now, asset) == Ok(out.markPrice)
            && BelowMaintenance(p, e.maintenanceBps, out.markPrice)
            && var pnl := CapLoss(CalculatePnl(p.direction, p.size, p.entryPrice, out.markPrice), p.collateral);
               && Settles(m, key, pnl, 0, out.market)
               && Levy(p.collateral + pnl, p.collateral, e.penaltyBps) == Ok(out.penalty)
               && Levy(p.collateral + pnl, p.collateral, e.keeperBps) == Ok(out.keeperReward)
  {
    assert key == PositionKey(key.trader, key.id);
    SettlementEffect(m, key, PricePnl(m, m.manager.positions[key]).value, 0);
  }

  /** A settlement without a fee pays the trader exactly the equity that is left, and the pool
      keeps the rest of the collateral. */
  lemma FeelessSettlementPays(m: Market, key: PositionKey, pnl: int, m': Market)
    requires Settles(m, key, pnl, 0, m')
    ensures var p := m.manager.positions[key];
            && BalanceOf(m'.token, User(key.trader))
               == BalanceOf(m.token, User(key.trader)) + Max(0, p.collateral + pnl)
            && m'.vault.locked == m.vault.locked - p.size
            && m'.vault.totalDeposits == m.vault.totalDeposits - pnl
  {
  }

  /** The trader gets the equity, if there is any, and the pool the rest of the collateral. */
  predicate EquityPaidOut(m: Market, key: PositionKey, out: Liquidation, equity: int) {
    && key in m.manager.positions
    && BalanceOf(out.market.token, User(key.trader)) == BalanceOf(m.token, User(key.trader)) + Max(0, equity)
    && out.market.vault.locked == m.vault.locked - m.manager.positions[key].size
    && out.market.vault.totalDeposits == m.vault.totalDeposits + m.manager.positions[key].collateral - Max(0, equity)
  }

  /** The reported penalty and reward are the levies on this equity, fit into it, and are ordered
      as their rates are. */
  predicate LeviesFit(e: EngineState, collateral: int, out: Liquidation, equity: int) {
    && Levy(equity, collateral, e.penaltyBps) == Ok(out.penalty)
    && Levy(equity, collateral, e.keeperBps) == Ok(out.keeperReward)
    && 0 <= out.keeperReward <= Max(0, equity) && 0 <= out.penalty <= Max(0, equity)
    && (e.keeperBps <= e.penaltyBps ==> out.keeperReward <= out.penalty)
  }

  lemma LeviesFitEquity(e: EngineState, collateral: int, raw: int, out: Liquidation)
    requires collateral > 0
    requires Levy(collateral + CapLoss(raw, collateral), collateral, e.penaltyBps) == Ok(out.penalty)
    requires Levy(collateral + CapLoss(raw, collateral), collateral, e.keeperBps) == Ok(out.keeperReward)
    ensures LeviesFit(e, collateral, out, collateral + raw)
  {
    var equity := collateral + CapLoss(raw, collateral);
    LevyBounds(equity, collateral, e.penaltyBps);
    LevyBounds(equity, collateral, e.keeperBps);
    if e.keeperBps <= e.penaltyBps {
      LevyMonotone(equity, collateral, e.keeperBps, e.penaltyBps);
    }
  }

  /** The health check and the settlement of a liquidation agree: the position it ends had the
      named asset and was below maintenance at the price that settled it; the trader receives
      exactly the equity that was left and the pool the rest of the collateral; the figures
      reported for penalty and reward fit into that equity. */
  lemma LiquidationAgrees(e: EngineState, m: Market, key: PositionKey, asset: Asset, out: Liquidation)
    requires MarketSound(m) && Liquidate(e, m, key.trader, key.id, asset) == Ok(out)
    ensures key in m.manager.positions
    ensures var p := m.manager.positions[key];
            && p.asset == asset && out.markPrice > 0 && p.entryPrice > 0 && p.size > 0
            && BelowMaintenance(p, e.maintenanceBps, out.markPrice)
            && var equity := p.collateral + CalculatePnl(p.direction, p.size, p.entryPrice, out.markPrice);
               EquityPaidOut(m, key, out, equity) && LeviesFit(e, p.collateral, out, equity)
  {
    LiquidationSettles(e, m, key, asset, out);
    var p := m.manager.positions[key];
    assert PositionSound(key, p, m.manager.nextId);
    var raw := CalculatePnl(p.direction, p.size, p.entryPrice, out.markPrice);
    FeelessSettlementPays(m, key, CapLoss(raw, p.collateral), out.market);
    LeviesFitEquity(e, p.collateral, raw, out);
  }

  /** A close moves the pool by its fee less the capped PnL, and leaves prices and rates alone. */
  lemma CloseMovesPool(m: Market, key: PositionKey, m': Market)
    requires PositionsSound(m.manager) && key in m.manager.positions
    requires var r := ClosePosition(m, key.trader, key.id, m.manager.positions[key].asset); r.Ok? && r.value.0 == m'
    ensures var p := m.manager.positions[key];
            GetPriceValue(m.oracle, m.now, p.asset).Ok? && p.entryPrice > 0
    ensures var p := m.manager.positions[key];
            var price := GetPriceValue(m.oracle, m.now, p.asset).value;
            var pnl := CapLoss(CalculatePnl(p.direction, p.size, p.entryPrice, price), p.collateral);
            && p.collateral > 0
            && m'.vault.totalDeposits
               == m.vault.totalDeposits - pnl + CalculateFee(p.size, m.manager.closeFeeBps)
            && m'.oracle == m.oracle && m'.now == m.now && m'.manager.closeFeeBps == m.manager.closeFeeBps
            && m'.manager.positions == m.manager.positions - {key} && PositionsSound(m'.manager)
  {
  }

  /** Closing a long and a short of the same size and entry at one price: what the two sides win
      and lose cancels, so the pool moves by the two close fees, exactly when neither loss
      reaches past the loser's collateral. */
  lemma ClosingAPairPaysFees(m: Market, long: PositionKey, m1: Market, short: PositionKey, m2: Market)
    requires MarketSound(m) && long in m.manager.positions && short in m.manager.positions
    requires var l, s := m.manager.positions[long], m.manager.positions[short];
             l.direction == Long && s.direction == Short
             && l.size == s.size && l.entryPrice == s.entryPrice && l.asset == s.asset
    requires var r := ClosePosition(m, long.trader, long.id, m.manager.positions[long].asset);
             r.Ok? && r.value.0 == m1
    requires var r := ClosePosition(m1, short.trader, short.id, m.manager.positions[short].asset);
             r.Ok? && r.value.0 == m2
    ensures var l := m.manager.positions[long];
            GetPriceValue(m.oracle, m.now, l.asset).Ok? && l.entryPrice > 0
    ensures var l, s := m.manager.positions[long], m.manager.positions[short];
            var price := GetPriceValue(m.oracle, m.now, l.asset).value;
            var move := CalculatePnl(Long, l.size, l.entryPrice, price);
            m2.vault.totalDeposits == m.vault.totalDeposits + 2 * CalculateFee(l.size, m.manager.closeFeeBps)
            <==> -l.collateral <= move <= s.collateral
  {
    var l := m.manager.positions[long];
    CloseMovesPool(m, long, m1);
    CloseMovesPool(m1, short, m2);
    PnlIsZeroSum(l.size, l.entryPrice, GetPriceValue(m.oracle, m.now, l.asset).value);
  }
}
