/** How much of the pool stands behind open positions: the utilization limit over every run, and
    what it is for, that every position can be settled and paid. */
module Utilization {
  import opened PerpsTypes
  import opened Arithmetic
  import opened Shares
  import opened PositionMath
  import opened Token
  import opened Oracle
  import opened Vault
  import opened PositionManager
  import opened LiquidationEngine
  import opened Protocol
  import opened Books
  import opened Solvency

  /** The limit `m` is set no higher than it should be, and what is locked respects it. */
  predicate WithinLimit(v: VaultState, m: nat) {
    && v.maxUtilizationBps <= m
    && (v.locked == 0 || v.locked * BPS < (m + 1) * v.totalDeposits)
  }

  /** The position wins at most its size, after the close fee, at the current price. */
  predicate WinWithinSize(m: Market, p: Position) {
    PricePnl(m, p).Ok? ==> PricePnl(m, p).value - CalculateFee(p.size, m.manager.closeFeeBps) <= p.size
  }

  /** What a settlement leaves locked is within the limit of what it leaves in the pool. */
  predicate SettlementLeavesEnough(v: VaultState, size: int, pnl: int, fee: int, m: nat) {
    v.locked == size || (v.locked - size) * BPS < (m + 1) * (v.totalDeposits - pnl + fee)
  }

  /** The conditions, all visible before the call, under which a call that succeeds keeps the pool
      within `m`: the admin sets no higher limit, no lock is made on an empty pool, no utilization
      check loses bits in its cast to u32, and no close pays out what must stay behind the other
      positions. Of a call that fails, and so changes nothing, nothing is asked. */
  predicate Prudent(w: World, c: Call, m: nat) {
    var v := w.market.vault;
    Apply(w, c).Ok? ==>
      match c
      case SetMaxUtilizationCall(_, bps) => bps <= m
      case OpenCall(_, _, _, collateral, leverage) =>
        v.totalDeposits > 0 && WideUtilizationBps(v.locked + collateral * leverage, v.totalDeposits) < U32_MODULUS
      case WithdrawCall(_, shares) =>
        var rest := v.totalDeposits - CalcWithdrawalAmount(shares, v.totalShares, v.totalDeposits);
        WideUtilizationBps(v.locked, rest) < U32_MODULUS
      case CloseCall(trader, id, _) =>
        var p := w.market.manager.positions[PositionKey(trader, id)];
        SettlementLeavesEnough(
          v, p.size, PricePnl(w.market, p).value, CalculateFee(p.size, w.market.manager.closeFeeBps), m)
      case _ => true
  }

  /** Every short wins at most its size, and so does a long up to twice its entry price. */
  lemma OrdinaryWinIsWithinSize(m: Market, p: Position)
    requires PositionSound(PositionKey(p.trader, p.id), p, p.id + 1) && PricesSound(m.oracle, m.now)
    requires p.direction.Short? || (p.asset in m.oracle.prices && m.oracle.prices[p.asset].price <= 2 * p.entryPrice)
    ensures WinWithinSize(m, p)
  {
    if PricePnl(m, p).Ok? {
      var price := m.oracle.prices[p.asset].price;
      PnlWithinSize(p.size, p.entryPrice, price);
      FeeBounds(p.size, m.manager.closeFeeBps);
      if p.direction.Long? {
        MulMono(price - 2 * p.entryPrice, 0, p.size);
      }
    }
  }

  predicate EveryCallPrudent(w: World, calls: seq<Call>, m: nat)
    decreases |calls|
  {
    calls == [] || (Prudent(w, calls[0], m) && EveryCallPrudent(Exec(w, calls[0]), calls[1..], m))
  }

  /** Prudence as it is met in practice: of a close that succeeds only that the position wins at
      most its size. */
  predicate Ordinary(w: World, c: Call, m: nat) {
    if c.CloseCall? then
      Apply(w, c).Ok? ==> WinWithinSize(w.market, w.market.manager.positions[PositionKey(c.trader, c.id)])
    else Prudent(w, c, m)
  }

  predicate EveryCallOrdinary(w: World, calls: seq<Call>, m: nat)
    decreases |calls|
  {
    calls == [] || (Ordinary(w, calls[0], m) && EveryCallOrdinary(Exec(w, calls[0]), calls[1..], m))
  }

  /** Every state of the run is within the limit. */
  predicate StaysWithin(w: World, calls: seq<Call>, m: nat)
    decreases |calls|
  {
    WithinLimit(w.market.vault, m) && (calls == [] || StaysWithin(Exec(w, calls[0]), calls[1..], m))
  }

  /** A utilization check that passes enforces its limit, and any higher one up to 100%, exactly
      when the cast loses nothing. */
  lemma CheckEnforcesLimitIff(locked: int, deposits: int, max: nat, m: nat)
    requires locked >= 0 && deposits > 0 && max <= m <= BPS
    requires UtilizationBps(locked, deposits).Ok? && UtilizationBps(locked, deposits).value <= max
    ensures locked * BPS < (m + 1) * deposits <==> WideUtilizationBps(locked, deposits) < U32_MODULUS
  {
    if WideUtilizationBps(locked, deposits) < U32_MODULUS {
      UtilizationBound(locked, deposits, m);
    } else {
      TDivBounds(locked * BPS, deposits);
      MulMono(m + 1, TDiv(locked * BPS, deposits), deposits);
    }
  }

  /** A successful lock keeps the pool within the limit exactly when the pool is not empty and the
      cast loses nothing: the check alone does not enforce the limit. */
  lemma LockRespectsLimitIff(v: VaultState, amount: int, m: nat)
    requires v.locked >= 0 && v.totalDeposits >= 0 && v.maxUtilizationBps <= m <= BPS
    requires LockLiquidity(v, amount).Ok?
    ensures WithinLimit(LockLiquidity(v, amount).value, m)
            <==> v.totalDeposits > 0 && WideUtilizationBps(v.locked + amount, v.totalDeposits) < U32_MODULUS
  {
    if v.totalDeposits > 0 {
      CheckEnforcesLimitIff(v.locked + amount, v.totalDeposits, v.maxUtilizationBps, m);
    }
  }

  /** A successful withdrawal keeps the pool within the limit exactly when the cast loses nothing. */
  lemma WithdrawRespectsLimitIff(v: VaultState, t: Balances, lp: Account, shares: int, m: nat)
    requires ShareBook(v) && v.locked >= 0 && v.maxUtilizationBps <= m <= BPS
    requires Withdraw(v, t, lp, shares).Ok?
    ensures var rest := v.totalDeposits - CalcWithdrawalAmount(shares, v.totalShares, v.totalDeposits);
            WithinLimit(Withdraw(v, t, lp, shares).value.vault, m)
            <==> WideUtilizationBps(v.locked, rest) < U32_MODULUS
  {
    var rest := v.totalDeposits - CalcWithdrawalAmount(shares, v.totalShares, v.totalDeposits);
    WithdrawKeepsShares(v, t, lp, shares);
    if rest > 0 {
      CheckEnforcesLimitIff(v.locked, rest, v.maxUtilizationBps, m);
    }
  }

  /** Locked liquidity is never negative, nor are deposits. */
  lemma VaultFiguresNonNegative(m: Market)
    requires MarketSound(m)
    ensures m.vault.locked >= 0 && m.vault.totalDeposits >= 0
  {
    var ps := m.manager.positions;
    forall k | k in ps
      ensures Weigh(Size, ps[k]) >= 0
    {
      assert PositionSound(k, ps[k], m.manager.nextId);
    }
    SumsNonNegative(ps, Size);
  }

  /** In a pool within its limit, a settlement that pays at most the position's size leaves enough. */
  lemma SmallWinLeavesEnough(v: VaultState, size: int, pnl: int, fee: int, m: nat)
    requires WithinLimit(v, m) && m < BPS
    requires 0 < size <= v.locked && pnl - fee <= size
    ensures SettlementLeavesEnough(v, size, pnl, fee, m)
  {
    MulMono(v.totalDeposits - size, v.totalDeposits - pnl + fee, m + 1);
    MulMono(m + 1, BPS, size);
    assert (m + 1) * (v.totalDeposits - size) == (m + 1) * v.totalDeposits - (m + 1) * size;
  }

  lemma SmallSettlementKeepsLimit(m: Market, key: PositionKey, pnl: int, fee: int, m': Market, limit: nat)
    requires Settles(m, key, pnl, fee, m') && WithinLimit(m.vault, limit) && limit < BPS
    requires var size := m.manager.positions[key].size; 0 < size <= m.vault.locked && pnl - fee <= size
    ensures WithinLimit(m'.vault, limit)
  {
    SmallWinLeavesEnough(m.vault, m.manager.positions[key].size, pnl, fee, limit);
  }

  /** So every ordinary close is prudent. */
  lemma OrdinaryCloseIsPrudent(w: World, c: Call, m: nat)
    requires Sound(w) && WithinLimit(w.market.vault, m) && m < BPS
    requires c.CloseCall? && Apply(w, c).Ok?
    requires WinWithinSize(w.market, w.market.manager.positions[PositionKey(c.trader, c.id)])
    ensures Prudent(w, c, m)
  {
    var key, pnl, fee := SettlementOf(w, c);
    LockedCoversSize(w.market, key);
    SmallWinLeavesEnough(w.market.vault, w.market.manager.positions[key].size, pnl, fee, m);
  }

  /** Settling a position that wins at most its size never raises the utilization. */
  lemma SettlementNeverRaisesUtilization(
      v: VaultState, t: Balances, trader: Account, size: int, collateral: int, pnl: int, fee: int)
    requires 0 <= size <= v.locked <= v.totalDeposits && pnl - fee <= size
    requires SettleClose(v, t, trader, size, collateral, pnl, fee).Ok?
    ensures var v' := SettleClose(v, t, trader, size, collateral, pnl, fee).value.0;
            v'.locked * v.totalDeposits <= v.locked * v'.totalDeposits
  {
    var d, d' := v.totalDeposits, v.totalDeposits - pnl + fee;
    MulMono(v.locked, d, size);
    MulMono(d - size, d', v.locked);
    assert (v.locked - size) * d == v.locked * d - size * d;
    assert (d - size) * v.locked == v.locked * d - size * v.locked;
  }

  /** A liquidatable position is worth less than half its size: it cannot be winning more. */
  lemma LiquidatableWinsLittle(size: int, collateral: int, raw: int, maintenanceBps: nat)
    requires size > 0 && collateral > 0 && 1 <= maintenanceBps <= 5000
    requires TDiv((collateral + raw) * BPS, size) < maintenanceBps
    ensures 2 * (collateral + raw) < size
    ensures CapLoss(raw, collateral) <= size
  {
    TDivBelow((collateral + raw) * BPS, size, maintenanceBps);
    MulMono(maintenanceBps, 5000, size);
  }

  lemma CloseKeepsLimitIff(w: World, c: Call, m: nat)
    requires w.market.vault.maxUtilizationBps <= m && c.CloseCall? && Apply(w, c).Ok?
    ensures WithinLimit(Apply(w, c).value.market.vault, m) <==> Prudent(w, c, m)
  {
    var key, pnl, fee := SettlementOf(w, c);
  }

  lemma LiquidationSettlesLittle(w: World, c: Call)
    requires Sound(w) && c.LiquidateCall? && Apply(w, c).Ok?
    ensures var p := w.market.manager.positions[PositionKey(c.trader, c.id)];
            PricePnl(w.market, p).Ok? && PricePnl(w.market, p).value <= p.size
  {
    var m, key := w.market, PositionKey(c.trader, c.id);
    var p := m.manager.positions[key];
    assert PositionSound(key, p, m.manager.nextId);
    var raw := Pnl(p.direction, p.size, p.entryPrice, GetPriceValue(m.oracle, m.now, c.asset).value).value;
    LiquidatableWinsLittle(p.size, p.collateral, raw, w.engine.maintenanceBps);
  }

  lemma LiquidationKeepsLimit(w: World, c: Call, m: nat)
    requires Sound(w) && WithinLimit(w.market.vault, m) && m < BPS
    requires c.LiquidateCall? && Apply(w, c).Ok?
    ensures WithinLimit(Apply(w, c).value.market.vault, m)
  {
    var key, pnl, fee := SettlementOf(w, c);
    LockedCoversSize(w.market, key);
    LiquidationSettlesLittle(w, c);
    SmallSettlementKeepsLimit(w.market, key, pnl, fee, Apply(w, c).value.market, m);
  }

  /** What a lower limit and a smaller pool allow, a higher limit and a larger pool allow. */
  lemma LimitCarries(locked: int, d: int, d': int, low: nat, high: nat)
    requires locked * BPS < (low + 1) * d && 0 <= d <= d' && low <= high
    ensures locked * BPS < (high + 1) * d'
  {
  }

  /** A lock past the range of the cast is past the limit even after the open fee comes in. */
  lemma FeeDoesNotHelp(locked: int, size: int, rate: nat, fee: int, d: int, m: nat)
    requires 0 < size <= locked && 0 <= fee && fee * BPS <= size * rate && rate <= 1000
    requires 0 <= d && U32_MODULUS * d <= locked * BPS && m < BPS
    ensures locked * BPS >= (m + 1) * (d + fee)
  {
    MulMono(rate, 1000, size);
    MulMono(m + 1, BPS, d + fee);
  }

  lemma OpeningKeepsLimitIff(m: Market, p: Position, m': Market, limit: nat)
    requires m.vault.maxUtilizationBps <= limit < BPS && Opens(m, p, m')
    requires m.vault.locked >= 0 && m.vault.totalDeposits >= 0 && p.size > 0 && m.manager.openFeeBps <= 1000
    ensures WithinLimit(m'.vault, limit)
            <==> m.vault.totalDeposits > 0
                 && WideUtilizationBps(m.vault.locked + p.size, m.vault.totalDeposits) < U32_MODULUS
  {
    var locked, d := m.vault.locked + p.size, m.vault.totalDeposits;
    if d > 0 && WideUtilizationBps(locked, d) < U32_MODULUS {
      UtilizationBound(locked, d, m.vault.maxUtilizationBps);
      LimitCarries(locked, d, m'.vault.totalDeposits, m.vault.maxUtilizationBps, limit);
    } else {
      if d > 0 {
        TDivBounds(locked * BPS, d);
        MulMono(U32_MODULUS, TDiv(locked * BPS, d), d);
      }
      FeeBounds(p.size, m.manager.openFeeBps);
      FeeDoesNotHelp(
        locked, p.size, m.manager.openFeeBps, CalculateFee(p.size, m.manager.openFeeBps), d, limit);
    }
  }

  lemma OpenKeepsLimitIff(w: World, c: Call, m: nat)
    requires PricesSound(w.market.oracle, w.market.now) && w.market.manager.nextId >= 1 && SettingsSound(w)
    requires WithinLimit(w.market.vault, m) && m < BPS
    requires w.market.vault.locked >= 0 && w.market.vault.totalDeposits >= 0
    requires c.OpenCall? && Apply(w, c).Ok?
    ensures WithinLimit(Apply(w, c).value.market.vault, m) <==> Prudent(w, c, m)
  {
    var p := OpenedPositionIsSound(w.market, c.trader, c.asset, c.direction, c.collateral, c.leverage);
    OpeningKeepsLimitIff(w.market, p, Apply(w, c).value.market, m);
  }

  lemma DepositKeepsLimit(v: VaultState, t: Balances, lp: Account, amount: int, m: nat)
    requires WithinLimit(v, m) && Deposit(v, t, lp, amount).Ok?
    ensures WithinLimit(Deposit(v, t, lp, amount).value.vault, m)
  {
    MulMono(v.totalDeposits, v.totalDeposits + amount, m + 1);
  }

  lemma TransferringCallKeepsLimitIff(w: World, c: Call, m: nat)
    requires c.DepositCall? || c.WithdrawCall? || c.TransferCall?
    requires ShareBook(w.market.vault) && w.market.vault.locked >= 0
    requires WithinLimit(w.market.vault, m) && m < BPS && Apply(w, c).Ok?
    ensures WithinLimit(Apply(w, c).value.market.vault, m) <==> Prudent(w, c, m)
  {
    var v, t := w.market.vault, w.market.token;
    if c.DepositCall? {
      DepositKeepsLimit(v, t, c.lp, c.amount, m);
    } else if c.WithdrawCall? {
      WithdrawRespectsLimitIff(v, t, c.lp, c.shares, m);
    }
  }

  lemma QuietCallKeepsMaxIff(w: World, c: Call, m: nat)
    requires !MovesValue(c) && w.market.vault.maxUtilizationBps <= m
    ensures Exec(w, c).market.vault.maxUtilizationBps <= m <==> Prudent(w, c, m)
  {
  }

  /** In a pool within its limit, a call keeps it there exactly when the call is prudent. */
  lemma CallKeepsLimitIff(w: World, c: Call, m: nat)
    requires Sound(w) && WithinLimit(w.market.vault, m) && m < BPS
    ensures WithinLimit(Exec(w, c).market.vault, m) <==> Prudent(w, c, m)
  {
    if !MovesValue(c) {
      QuietCall(w, c);
      QuietCallKeepsMaxIff(w, c, m);
    } else if Apply(w, c).Ok? {
      VaultFiguresNonNegative(w.market);
      if c.CloseCall? {
        CloseKeepsLimitIff(w, c, m);
      } else if c.LiquidateCall? {
        LiquidationKeepsLimit(w, c, m);
      } else if c.OpenCall? {
        OpenKeepsLimitIff(w, c, m);
      } else {
        TransferringCallKeepsLimitIff(w, c, m);
      }
    }
  }

  /** A run never leaves the limit exactly when its calls are prudent. */
  lemma {:induction false} StaysWithinIffPrudent(w: World, calls: seq<Call>, m: nat)
    requires Sound(w) && WithinLimit(w.market.vault, m) && m < BPS
    ensures StaysWithin(w, calls, m) <==> EveryCallPrudent(w, calls, m)
    decreases |calls|
  {
    if calls != [] {
      CallKeepsLimitIff(w, calls[0], m);
      CallKeepsSettings(w, calls[0]);
      CallKeepsMarket(w, calls[0]);
      if Prudent(w, calls[0], m) {
        StaysWithinIffPrudent(Exec(w, calls[0]), calls[1..], m);
      }
    }
  }

  /** So a prudent run ends within the limit. */
  lemma {:induction false} PrudentRunKeepsLimit(w: World, calls: seq<Call>, m: nat)
    requires Sound(w) && WithinLimit(w.market.vault, m) && m < BPS && EveryCallPrudent(w, calls, m)
    ensures WithinLimit(Run(w, calls).market.vault, m)
    decreases |calls|
  {
    if calls != [] {
      CallKeepsLimitIff(w, calls[0], m);
      CallKeepsSettings(w, calls[0]);
      CallKeepsMarket(w, calls[0]);
      PrudentRunKeepsLimit(Exec(w, calls[0]), calls[1..], m);
    }
  }

  /** When every settled position wins at most its size, the limit that a run starts within is all
      that its closes need: such a run is prudent. */
  lemma {:induction false} OrdinaryRunIsPrudent(w: World, calls: seq<Call>, m: nat)
    requires Sound(w) && WithinLimit(w.market.vault, m) && m < BPS && EveryCallOrdinary(w, calls, m)
    ensures EveryCallPrudent(w, calls, m)
    decreases |calls|
  {
    if calls != [] {
      if calls[0].CloseCall? && Apply(w, calls[0]).Ok? {
        OrdinaryCloseIsPrudent(w, calls[0], m);
      }
      CallKeepsLimitIff(w, calls[0], m);
      CallKeepsSettings(w, calls[0]);
      CallKeepsMarket(w, calls[0]);
      OrdinaryRunIsPrudent(Exec(w, calls[0]), calls[1..], m);
    }
  }

  /** So on such a run every state is within the limit. */
  lemma OrdinaryRunStaysWithin(w: World, calls: seq<Call>, m: nat)
    requires Sound(w) && WithinLimit(w.market.vault, m) && m < BPS && EveryCallOrdinary(w, calls, m)
    ensures StaysWithin(w, calls, m) && WithinLimit(Run(w, calls).market.vault, m)
  {
    OrdinaryRunIsPrudent(w, calls, m);
    StaysWithinIffPrudent(w, calls, m);
    PrudentRunKeepsLimit(w, calls, m);
  }

  lemma LimitLeavesSlack(v: VaultState, m: nat)
    requires WithinLimit(v, m) && m < BPS && v.locked >= 0 && v.totalDeposits >= 0
    ensures v.locked == 0 || v.locked < v.totalDeposits
  {
    MulMono(m + 1, BPS, v.totalDeposits);
  }

  // What the limit is for: settlements go through.

  /** The collateral of the open positions is non-negative altogether. */
  lemma CollateralCovers(m: Market, key: PositionKey)
    requires MarketSound(m) && key in m.manager.positions
    ensures 0 < m.manager.positions[key].collateral <= Total(m.manager.positions, Collateral)
  {
    forall k | k in m.manager.positions
      ensures Weigh(Collateral, m.manager.positions[k]) >= 0
    {
      assert PositionSound(k, m.manager.positions[k], m.manager.nextId);
    }
    TotalCovers(m.manager.positions, key, Collateral);
  }

  lemma SettleCloseSucceedsIff(
      v: VaultState, t: Balances, trader: Account, size: int, collateral: int, pnl: int, fee: int)
    requires size <= v.locked
    requires pnl - fee <= v.totalDeposits ==> collateral + pnl - fee <= BalanceOf(t, VaultContract)
    ensures var r := SettleClose(v, t, trader, size, collateral, pnl, fee);
            || r == Err(ArithmeticTrap)
            || (if pnl - fee <= v.totalDeposits then r.Ok? else r == Err(InsufficientLiquidity))
  {
  }

  lemma EraseOnlyOverflows(s: ManagerState, key: PositionKey)
    requires key in s.positions
    ensures Erase(s, key).Ok? || Erase(s, key) == Err(ArithmeticTrap)
  {
  }

  /** With no USDC missing, a settlement that overflows nothing goes through exactly when the pool
      holds what the position wins after its fee: the unlock and the payout are always covered. */
  lemma SettlementSucceedsIff(m: Market, key: PositionKey, pnl: int, fee: int)
    requires MarketSound(m) && key in m.manager.positions && Surplus(m) >= 0
    ensures var r := SettleAndRemove(m, key, pnl, fee);
            || r == Err(ArithmeticTrap)
            || (if pnl - fee <= m.vault.totalDeposits then r.Ok? else r == Err(InsufficientLiquidity))
  {
    LockedCoversSize(m, key);
    CollateralCovers(m, key);
    var p := m.manager.positions[key];
    SettleCloseSucceedsIff(m.vault, m.token, key.trader, p.size, p.collateral, pnl, fee);
    EraseOnlyOverflows(m.manager, key);
  }

  /** So a trader's close goes through exactly when the pool holds what the trader wins. */
  lemma WinnerIsPaidIff(w: World, trader: Account, id: nat, asset: Asset)
    requires Sound(w) && Surplus(w.market) >= 0
    requires PositionKey(trader, id) in w.market.manager.positions
    requires var p := w.market.manager.positions[PositionKey(trader, id)];
             p.asset == asset && GetPriceValue(w.market.oracle, w.market.now, asset).Ok?
    ensures var m, p := w.market, w.market.manager.positions[PositionKey(trader, id)];
            var r := ClosePosition(m, trader, id, asset);
            || r == Err(ArithmeticTrap)
            || (PricePnl(m, p).Ok?
                && if PricePnl(m, p).value - CalculateFee(p.size, m.manager.closeFeeBps) <= m.vault.totalDeposits
                   then r.Ok? else r == Err(InsufficientLiquidity))
  {
    var m, key := w.market, PositionKey(trader, id);
    var p := m.manager.positions[key];
    assert PositionSound(key, p, m.manager.nextId);
    if PricePnl(m, p).Ok? {
      SettlementSucceedsIff(m, key, PricePnl(m, p).value, CalculateFee(p.size, m.manager.closeFeeBps));
    }
  }

  /** The pool, and the USDC behind it, cover every unit that is locked. */
  ghost predicate Covered(m: Market) {
    m.vault.locked <= m.vault.totalDeposits && m.vault.locked <= m.vault.totalDeposits + Surplus(m)
  }

  /** A pool within a limit below 100% with no USDC missing is covered. */
  lemma LimitCovers(m: Market, limit: nat)
    requires MarketSound(m) && WithinLimit(m.vault, limit) && limit < BPS && Surplus(m) >= 0
    ensures Covered(m)
  {
    VaultFiguresNonNegative(m);
    LimitLeavesSlack(m.vault, limit);
  }

  /** In a covered pool, even one with some USDC missing, a position that wins at most its size can
      be settled. */
  lemma SettlementGoesThrough(m: Market, key: PositionKey, pnl: int, fee: int)
    requires MarketSound(m) && key in m.manager.positions && Covered(m)
    requires pnl - fee <= m.manager.positions[key].size
    ensures var r := SettleAndRemove(m, key, pnl, fee); r.Ok? || r == Err(ArithmeticTrap)
  {
    LockedCoversSize(m, key);
    CollateralCovers(m, key);
    var p := m.manager.positions[key];
    SettleCloseSucceedsIff(m.vault, m.token, key.trader, p.size, p.collateral, pnl, fee);
    EraseOnlyOverflows(m.manager, key);
  }

  lemma CloseGoesThrough(m: Market, key: PositionKey)
    requires MarketSound(m) && key in m.manager.positions && Covered(m)
    requires var p := m.manager.positions[key];
             GetPriceValue(m.oracle, m.now, p.asset).Ok? && WinWithinSize(m, p)
    ensures var r := ClosePosition(m, key.trader, key.id, m.manager.positions[key].asset);
            r.Ok? || r == Err(ArithmeticTrap)
  {
    var p := m.manager.positions[key];
    assert PositionSound(key, p, m.manager.nextId);
    assert key == PositionKey(key.trader, key.id);
    if PricePnl(m, p).Ok? {
      SettlementGoesThrough(m, key, PricePnl(m, p).value, CalculateFee(p.size, m.manager.closeFeeBps));
    }
  }

  /** A winner's close succeeds, unless a number leaves the i128 range. */
  lemma WinnerIsPaid(w: World, trader: Account, id: nat, asset: Asset, limit: nat)
    requires Sound(w) && WithinLimit(w.market.vault, limit) && limit < BPS && Surplus(w.market) >= 0
    requires PositionKey(trader, id) in w.market.manager.positions
    requires var p := w.market.manager.positions[PositionKey(trader, id)];
             p.asset == asset && GetPriceValue(w.market.oracle, w.market.now, asset).Ok? && WinWithinSize(w.market, p)
    ensures var r := ClosePosition(w.market, trader, id, asset); r.Ok? || r == Err(ArithmeticTrap)
  {
    LimitCovers(w.market, limit);
    CloseGoesThrough(w.market, PositionKey(trader, id));
  }

  lemma LiquidatableSettlesLittle(e: EngineState, m: Market, key: PositionKey)
    requires key in m.manager.positions && PositionSound(key, m.manager.positions[key], m.manager.nextId)
    requires 1 <= e.maintenanceBps <= 5000
    requires IsLiquidatable(e, m, key.trader, key.id, m.manager.positions[key].asset) == Ok(true)
    ensures var p := m.manager.positions[key]; PricePnl(m, p).Ok? ==> PricePnl(m, p).value <= p.size
  {
    var p := m.manager.positions[key];
    assert key == PositionKey(key.trader, key.id);
    var raw := Pnl(p.direction, p.size, p.entryPrice, GetPriceValue(m.oracle, m.now, p.asset).value).value;
    LiquidatableWinsLittle(p.size, p.collateral, raw, e.maintenanceBps);
  }

  lemma ForceCloseGoesThrough(m: Market, key: PositionKey)
    requires MarketSound(m) && key in m.manager.positions && Covered(m)
    requires GetPriceValue(m.oracle, m.now, m.manager.positions[key].asset).Ok?
    requires var p := m.manager.positions[key]; PricePnl(m, p).Ok? ==> PricePnl(m, p).value <= p.size
    ensures var r := LiquidatePosition(m, key.trader, key.id, m.manager.positions[key].asset);
            r.Ok? || r == Err(ArithmeticTrap)
  {
    var p := m.manager.positions[key];
    assert PositionSound(key, p, m.manager.nextId);
    assert key == PositionKey(key.trader, key.id);
    if PricePnl(m, p).Ok? {
      SettlementGoesThrough(m, key, PricePnl(m, p).value, 0);
    }
  }

  /** Past its health check, a liquidation does what the force-close does. */
  lemma LiquidateFollows(e: EngineState, m: Market, key: PositionKey)
    requires key in m.manager.positions
    requires IsLiquidatable(e, m, key.trader, key.id, m.manager.positions[key].asset) == Ok(true)
    requires var r := LiquidatePosition(m, key.trader, key.id, m.manager.positions[key].asset);
             r.Ok? || r == Err(ArithmeticTrap)
    ensures var r := Liquidate(e, m, key.trader, key.id, m.manager.positions[key].asset);
            r.Ok? || r == Err(ArithmeticTrap)
  {
  }

  lemma LiquidationGoesThrough(e: EngineState, m: Market, key: PositionKey)
    requires MarketSound(m) && key in m.manager.positions && Covered(m) && 1 <= e.maintenanceBps <= 5000
    requires IsLiquidatable(e, m, key.trader, key.id, m.manager.positions[key].asset) == Ok(true)
    ensures var r := Liquidate(e, m, key.trader, key.id, m.manager.positions[key].asset);
            r.Ok? || r == Err(ArithmeticTrap)
  {
    assert PositionSound(key, m.manager.positions[key], m.manager.nextId);
    LiquidatableSettlesLittle(e, m, key);
    ForceCloseGoesThrough(m, key);
    LiquidateFollows(e, m, key);
  }

  /** A liquidatable position can be liquidated, whatever its price did, unless a number leaves
      the i128 range. */
  lemma LiquidatableIsLiquidated(w: World, trader: Account, id: nat, asset: Asset, limit: nat)
    requires Sound(w) && WithinLimit(w.market.vault, limit) && limit < BPS && Surplus(w.market) >= 0
    requires PositionKey(trader, id) in w.market.manager.positions
    requires w.market.manager.positions[PositionKey(trader, id)].asset == asset
    requires IsLiquidatable(w.engine, w.market, trader, id, asset) == Ok(true)
    ensures var r := Liquidate(w.engine, w.market, trader, id, asset); r.Ok? || r == Err(ArithmeticTrap)
  {
    LimitCovers(w.market, limit);
    LiquidationGoesThrough(w.engine, w.market, PositionKey(trader, id));
  }

  /** Both promises at the end of any prudent run whose donations make up for its shortfalls. */
  lemma EveryoneCanBeSettled(c: Config, usdc: Balances, calls: seq<Call>, limit: nat, trader: Account, id: nat)
    requires Deploy(c, usdc).Ok? && FairStart(usdc)
    requires c.maxUtilizationBps <= limit < BPS
    requires var w0 := Deploy(c, usdc).value;
             EveryCallPrudent(w0, calls, limit) && TotalShortfall(w0, calls) <= TotalDonated(w0, calls)
    requires PositionKey(trader, id) in Run(Deploy(c, usdc).value, calls).market.manager.positions
    ensures var w := Run(Deploy(c, usdc).value, calls);
            var p := w.market.manager.positions[PositionKey(trader, id)];
            var close := ClosePosition(w.market, trader, id, p.asset);
            var liquidate := Liquidate(w.engine, w.market, trader, id, p.asset);
            && (w.market.vault.locked == 0 || w.market.vault.locked < w.market.vault.totalDeposits)
            && (GetPriceValue(w.market.oracle, w.market.now, p.asset).Ok? && WinWithinSize(w.market, p)
                ==> close.Ok? || close == Err(ArithmeticTrap))
            && (IsLiquidatable(w.engine, w.market, trader, id, p.asset) == Ok(true)
                ==> liquidate.Ok? || liquidate == Err(ArithmeticTrap))
  {
    var w0 := Deploy(c, usdc).value;
    var w := Run(w0, calls);
    var p := w.market.manager.positions[PositionKey(trader, id)];
    DeployIsSound(c, usdc);
    RunKeepsSound(w0, calls);
    PrudentRunKeepsLimit(w0, calls, limit);
    SolventIffShortfallDonated(c, usdc, calls);
    VaultFiguresNonNegative(w.market);
    LimitLeavesSlack(w.market.vault, limit);
    if GetPriceValue(w.market.oracle, w.market.now, p.asset).Ok? && WinWithinSize(w.market, p) {
      WinnerIsPaid(w, trader, id, p.asset, limit);
    }
    if IsLiquidatable(w.engine, w.market, trader, id, p.asset) == Ok(true) {
      LiquidatableIsLiquidated(w, trader, id, p.asset, limit);
    }
  }

  /** Both promises at the end of any run on which every settled position won at most its size. */
  lemma OrdinaryRunSettlesEveryone(
      c: Config, usdc: Balances, calls: seq<Call>, limit: nat, trader: Account, id: nat)
    requires Deploy(c, usdc).Ok? && FairStart(usdc)
    requires c.maxUtilizationBps <= limit < BPS
    requires var w0 := Deploy(c, usdc).value;
             EveryCallOrdinary(w0, calls, limit) && TotalShortfall(w0, calls) <= TotalDonated(w0, calls)
    requires PositionKey(trader, id) in Run(Deploy(c, usdc).value, calls).market.manager.positions
    ensures var w := Run(Deploy(c, usdc).value, calls);
            var p := w.market.manager.positions[PositionKey(trader, id)];
            var close := ClosePosition(w.market, trader, id, p.asset);
            var liquidate := Liquidate(w.engine, w.market, trader, id, p.asset);
            && (w.market.vault.locked == 0 || w.market.vault.locked < w.market.vault.totalDeposits)
            && (GetPriceValue(w.market.oracle, w.market.now, p.asset).Ok? && WinWithinSize(w.market, p)
                ==> close.Ok? || close == Err(ArithmeticTrap))
            && (IsLiquidatable(w.engine, w.market, trader, id, p.asset) == Ok(true)
                ==> liquidate.Ok? || liquidate == Err(ArithmeticTrap))
  {
    DeployIsSound(c, usdc);
    OrdinaryRunIsPrudent(Deploy(c, usdc).value, calls, limit);
    EveryoneCanBeSettled(c, usdc, calls, limit, trader, id);
  }
}
