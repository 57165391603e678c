/** Who a call can touch: only the accounts it names. And what opening and closing a position
    at one price leaves behind: the two fees. */
module Isolation {
  import opened PerpsTypes
  import opened Arithmetic
  import opened PositionMath
  import opened Token
  import opened Oracle
  import opened Vault
  import opened PositionManager
  import opened Protocol
  import opened Books

  /** The call acts for this account, on its position, or on its USDC. */
  predicate Names(c: Call, a: Account) {
    match c
    case DepositCall(lp, _) => lp == a
    case WithdrawCall(lp, _) => lp == a
    case OpenCall(trader, _, _, _, _) => trader == a
    case CloseCall(trader, _, _) => trader == a
    case LiquidateCall(trader, _, _) => trader == a
    case TransferCall(from, to, _) => from == a || to == User(a)
    case _ => false
  }

  function PositionsOf(s: ManagerState, a: Account): Positions {
    map k | k in s.positions && k.trader == a :: s.positions[k]
  }

  /** Everything account `a` owns is the same in both markets. */
  predicate SameHoldings(m: Market, m': Market, a: Account) {
    && BalanceOf(m'.token, User(a)) == BalanceOf(m.token, User(a))
    && ShareBalance(m'.vault, a) == ShareBalance(m.vault, a)
    && TraderCount(m'.manager, a) == TraderCount(m.manager, a)
    && PositionsOf(m'.manager, a) == PositionsOf(m.manager, a)
  }

  lemma OpeningTouchesOnlyTrader(m: Market, p: Position, m': Market, a: Account)
    requires Opens(m, p, m') && p.trader != a
    ensures SameHoldings(m, m', a)
  {
  }

  lemma SettlementTouchesOnlyTrader(m: Market, key: PositionKey, pnl: int, fee: int, m': Market, a: Account)
    requires Settles(m, key, pnl, fee, m') && key.trader != a
    ensures SameHoldings(m, m', a)
  {
  }

  lemma TradeTouchesOnlyNamed(w: World, c: Call, a: Account)
    requires Sound(w) && !Names(c, a) && Apply(w, c).Ok?
    requires c.OpenCall? || c.CloseCall? || c.LiquidateCall?
    ensures SameHoldings(w.market, Apply(w, c).value.market, a)
  {
    if c.OpenCall? {
      var p := OpenedPositionIsSound(w.market, c.trader, c.asset, c.direction, c.collateral, c.leverage);
      OpeningTouchesOnlyTrader(w.market, p, Apply(w, c).value.market, a);
    } else {
      var key, pnl, fee := SettlementOf(w, c);
      SettlementTouchesOnlyTrader(w.market, key, pnl, fee, Apply(w, c).value.market, a);
    }
  }

  lemma TransferringCallTouchesOnlyNamed(w: World, c: Call, a: Account)
    requires !Names(c, a) && Apply(w, c).Ok?
    requires c.DepositCall? || c.WithdrawCall? || c.TransferCall?
    ensures SameHoldings(w.market, Apply(w, c).value.market, a)
  {
  }

  lemma CallTouchesOnlyNamed(w: World, c: Call, a: Account)
    requires Sound(w) && !Names(c, a)
    ensures SameHoldings(w.market, Exec(w, c).market, a)
  {
    if !MovesValue(c) {
      QuietCall(w, c);
    } else if Apply(w, c).Ok? {
      if c.OpenCall? || c.CloseCall? || c.LiquidateCall? {
        TradeTouchesOnlyNamed(w, c, a);
      } else {
        TransferringCallTouchesOnlyNamed(w, c, a);
      }
    }
  }

  /** Over a whole run, an account that no call names keeps its USDC, its shares, its count and
      its positions to the last field. */
  lemma {:induction false} BystanderIsUntouched(w: World, calls: seq<Call>, a: Account)
    requires Sound(w) && forall c | c in calls :: !Names(c, a)
    ensures SameHoldings(w.market, Run(w, calls).market, a)
    decreases |calls|
  {
    if calls != [] {
      assert !Names(calls[0], a);
      CallTouchesOnlyNamed(w, calls[0], a);
      CallKeepsSettings(w, calls[0]);
      CallKeepsMarket(w, calls[0]);
      BystanderIsUntouched(Exec(w, calls[0]), calls[1..], a);
    }
  }

  /** The call is signed by this account as an administrator. */
  predicate SignedBy(c: Call, a: Account) {
    match c
    case SetPriceCall(caller, _, _) => caller == a
    case SetStalenessCall(caller, _) => caller == a
    case SetMaxUtilizationCall(caller, _) => caller == a
    case SetFeesCall(caller, _, _) => caller == a
    case SetMaxLeverageCall(caller, _) => caller == a
    case SetMaintenanceCall(caller, _) => caller == a
    case SetPenaltyCall(caller, _) => caller == a
    case SetKeeperRewardCall(caller, _) => caller == a
    case SetIntervalCall(caller, _) => caller == a
    case SetMaxRateCall(caller, _) => caller == a
    case _ => false
  }

  predicate Administers(w: World, a: Account) {
    w.market.oracle.admin == w.market.vault.admin == w.market.manager.admin == w.engine.admin == w.funding.admin == a
  }

  /** No setting differs, and no price is there that was not there before. */
  predicate SameSettings(w: World, w': World) {
    var s, s' := w.market.manager, w'.market.manager;
    && w'.engine == w.engine
    && w'.funding == w.funding.(cumulativeLong := w'.funding.cumulativeLong,
                                cumulativeShort := w'.funding.cumulativeShort, lastTime := w'.funding.lastTime)
    && w'.market.vault.admin == w.market.vault.admin
    && w'.market.vault.maxUtilizationBps == w.market.vault.maxUtilizationBps
    && w'.market.oracle == w.market.oracle.(prices := w'.market.oracle.prices)
    && (forall a | a in w'.market.oracle.prices ::
          a in w.market.oracle.prices && w'.market.oracle.prices[a] == w.market.oracle.prices[a])
    && (s'.admin, s'.openFeeBps, s'.closeFeeBps, s'.maxLeverage, s'.minCollateral)
       == (s.admin, s.openFeeBps, s.closeFeeBps, s.maxLeverage, s.minCollateral)
  }

  lemma EndingKeepsSettingsSame(w: World, c: Call)
    requires (c.CloseCall? || c.LiquidateCall?) && Apply(w, c).Ok?
    ensures SameSettings(w, Apply(w, c).value)
  {
    var key, pnl, fee := SettlementOf(w, c);
  }

  lemma UnsignedCallKeepsSettings(w: World, c: Call, admin: Account)
    requires Administers(w, admin) && !SignedBy(c, admin)
    ensures SameSettings(w, Exec(w, c))
  {
    if Apply(w, c).Ok? && (c.CloseCall? || c.LiquidateCall?) {
      EndingKeepsSettingsSame(w, c);
    }
  }

  /** Over a whole run without the administrator's signature no setting changes and no price is
      set, in any of the five contracts. */
  lemma {:induction false} SettingsNeedTheAdmin(w: World, calls: seq<Call>, admin: Account)
    requires Administers(w, admin) && forall c | c in calls :: !SignedBy(c, admin)
    ensures SameSettings(w, Run(w, calls))
    decreases |calls|
  {
    if calls != [] {
      assert !SignedBy(calls[0], admin);
      UnsignedCallKeepsSettings(w, calls[0], admin);
      SettingsNeedTheAdmin(Exec(w, calls[0]), calls[1..], admin);
    }
  }

  /** At the price it was opened at, a position has neither won nor lost. */
  lemma UnmovedPriceEarnsNothing(m: Market, p: Position)
    requires p.entryPrice > 0 && p.collateral > 0
    requires GetPriceValue(m.oracle, m.now, p.asset) == Ok(p.entryPrice)
    requires PricePnl(m, p).Ok?
    ensures PricePnl(m, p) == Ok(0)
  {
  }

  /** A close is a settlement at the position's price PnL and the close fee. */
  lemma CloseSettles(m: Market, key: PositionKey, m': Market)
    requires key in m.manager.positions
    requires var r := ClosePosition(m, key.trader, key.id, m.manager.positions[key].asset); r.Ok? && r.value.0 == m'
    ensures var p := m.manager.positions[key];
            PricePnl(m, p).Ok? && Settles(m, key, PricePnl(m, p).value, CalculateFee(p.size, m.manager.closeFeeBps), m')
  {
  }

  /** Opening a position and settling it at no profit or loss: only the fees have moved. */
  lemma OpeningThenSettling(m: Market, p: Position, m1: Market, fee: int, m2: Market)
    requires Opens(m, p, m1) && PositionKey(p.trader, p.id) !in m.manager.positions && p.collateral > 0
    requires m1.manager.positions == m.manager.positions[PositionKey(p.trader, p.id) := p]
    requires Settles(m1, PositionKey(p.trader, p.id), 0, fee, m2)
    ensures var openFee := CalculateFee(p.size, m.manager.openFeeBps);
            && m2.manager.positions == m.manager.positions
            && m2.manager.oiLong == m.manager.oiLong && m2.manager.oiShort == m.manager.oiShort
            && (forall t :: TraderCount(m2.manager, t) == TraderCount(m.manager, t))
            && m2.vault == m.vault.(totalDeposits := m.vault.totalDeposits + openFee + fee)
            && BalanceOf(m2.token, User(p.trader))
               == BalanceOf(m.token, User(p.trader)) - openFee - Min(fee, p.collateral)
  {
    var key := PositionKey(p.trader, p.id);
    assert m2.manager.positions == m1.manager.positions - {key};
    assert m.manager.positions[key := p] - {key} == m.manager.positions;
  }

  lemma RecordedOnce(m: Market, p: Position, m1: Market)
    requires Opens(m, p, m1)
    ensures m1.manager.positions == m.manager.positions[PositionKey(p.trader, p.id) := p]
    ensures m1.manager.closeFeeBps == m.manager.closeFeeBps
  {
  }

  /** Opening a position and closing it at the same price leaves every book where it was, except
      that the trader has paid the two fees, as far as the collateral goes, and the pool has
      booked them. */
  lemma OpenThenClose(
      m: Market, trader: Account, asset: Asset, direction: Direction, collateral: int, leverage: nat,
      m1: Market, m2: Market)
    requires MarketSound(m)
    requires OpenPosition(m, trader, asset, direction, collateral, leverage) == Ok((m1, m.manager.nextId))
    requires var r := ClosePosition(m1, trader, m.manager.nextId, asset); r.Ok? && r.value.0 == m2
    ensures var openFee := CalculateFee(collateral * leverage, m.manager.openFeeBps);
            var closeFee := CalculateFee(collateral * leverage, m.manager.closeFeeBps);
            && m2.manager.positions == m.manager.positions
            && m2.manager.oiLong == m.manager.oiLong && m2.manager.oiShort == m.manager.oiShort
            && (forall t :: TraderCount(m2.manager, t) == TraderCount(m.manager, t))
            && m2.vault == m.vault.(totalDeposits := m.vault.totalDeposits + openFee + closeFee)
            && BalanceOf(m2.token, User(trader))
               == BalanceOf(m.token, User(trader)) - openFee - Min(closeFee, collateral)
  {
    var p := OpenedPositionIsSound(m, trader, asset, direction, collateral, leverage);
    var key := PositionKey(trader, m.manager.nextId);
    assert key !in m.manager.positions;
    RecordedOnce(m, p, m1);
    CloseSettles(m1, key, m2);
    UnmovedPriceEarnsNothing(m1, p);
    OpeningThenSettling(m, p, m1, CalculateFee(p.size, m.manager.closeFeeBps), m2);
  }
}
