/** Where every USDC of the vault belongs: conservation over every run, and exactly which runs stay
    solvent. */
module Solvency {
  import opened PerpsTypes
  import opened Arithmetic
  import opened MapSums
  import opened Shares
  import opened PositionMath
  import opened Token
  import opened Oracle
  import opened Vault
  import opened PositionManager
  import opened LiquidationEngine
  import opened Protocol
  import opened Books

  /** The vault's real USDC, less what it books as pool deposits and as posted collateral. */
  ghost function Surplus(m: Market): int {
    BalanceOf(m.token, VaultContract) - m.vault.totalDeposits - Total(m.manager.positions, Collateral)
  }

  /** The part of a close fee that the trader's remaining equity does not cover, and that the
      pool books all the same. */
  function Shortfall(w: World, c: Call): nat {
    if c.CloseCall? && Apply(w, c).Ok? then
      var p := w.market.manager.positions[PositionKey(c.trader, c.id)];
      Max(0, CalculateFee(p.size, w.market.manager.closeFeeBps) - p.collateral - PricePnl(w.market, p).value)
    else 0
  }

  /** USDC sent to the vault outside the protocol. */
  function Donation(w: World, c: Call): nat {
    if c.TransferCall? && c.to == VaultContract && Apply(w, c).Ok? then c.amount else 0
  }

  function TotalShortfall(w: World, calls: seq<Call>): nat
    decreases |calls|
  {
    if calls == [] then 0 else Shortfall(w, calls[0]) + TotalShortfall(Exec(w, calls[0]), calls[1..])
  }

  function TotalDonated(w: World, calls: seq<Call>): nat
    decreases |calls|
  {
    if calls == [] then 0 else Donation(w, calls[0]) + TotalDonated(Exec(w, calls[0]), calls[1..])
  }

  lemma SettlementMovesSurplus(m: Market, key: PositionKey, pnl: int, fee: int, m': Market)
    requires Settles(m, key, pnl, fee, m')
    ensures Surplus(m') == Surplus(m) - Max(0, fee - m.manager.positions[key].collateral - pnl)
  {
    TotalRemove(m.manager.positions, key, Collateral);
  }

  lemma OpeningKeepsSurplus(m: Market, p: Position, m': Market)
    requires Opens(m, p, m') && PositionKey(p.trader, p.id) !in m.manager.positions
    ensures Surplus(m') == Surplus(m)
  {
    TotalInsert(m.manager.positions, PositionKey(p.trader, p.id), p, Collateral);
  }

  /** A capped loss never exceeds the collateral. */
  lemma PricePnlIsCapped(m: Market, p: Position)
    requires PricePnl(m, p).Ok?
    ensures PricePnl(m, p).value >= -p.collateral
  {
  }

  lemma TradeMovesSurplus(w: World, c: Call)
    requires MarketSound(w.market) && Apply(w, c).Ok?
    requires c.OpenCall? || c.CloseCall? || c.LiquidateCall?
    ensures Surplus(Apply(w, c).value.market) == Surplus(w.market) - Shortfall(w, c)
  {
    var m := w.market;
    if c.OpenCall? {
      var p := OpenedPositionIsSound(m, c.trader, c.asset, c.direction, c.collateral, c.leverage);
      RecordKeepsPositions(m.manager, p);
      OpeningKeepsSurplus(m, p, Apply(w, c).value.market);
    } else {
      var key, pnl, fee := SettlementOf(w, c);
      SettlementMovesSurplus(m, key, pnl, fee, Apply(w, c).value.market);
      PricePnlIsCapped(m, m.manager.positions[key]);
    }
  }

  lemma TransferringCallMovesSurplus(w: World, c: Call)
    requires Apply(w, c).Ok? && (c.DepositCall? || c.WithdrawCall? || c.TransferCall?)
    ensures Surplus(Apply(w, c).value.market) == Surplus(w.market) + Donation(w, c)
  {
  }

  lemma CallMovesSurplus(w: World, c: Call)
    requires Sound(w)
    ensures Surplus(Exec(w, c).market) == Surplus(w.market) - Shortfall(w, c) + Donation(w, c)
  {
    if !MovesValue(c) {
      QuietCall(w, c);
    } else if Apply(w, c).Ok? {
      if c.OpenCall? || c.CloseCall? || c.LiquidateCall? {
        TradeMovesSurplus(w, c);
      } else {
        TransferringCallMovesSurplus(w, c);
      }
    }
  }

  lemma {:induction false} RunMovesSurplus(w: World, calls: seq<Call>)
    requires Sound(w)
    ensures Surplus(Run(w, calls).market) == Surplus(w.market) - TotalShortfall(w, calls) + TotalDonated(w, calls)
    decreases |calls|
  {
    if calls != [] {
      CallMovesSurplus(w, calls[0]);
      CallKeepsSettings(w, calls[0]);
      CallKeepsMarket(w, calls[0]);
      RunMovesSurplus(Exec(w, calls[0]), calls[1..]);
    }
  }

  /** Conservation over every run of every deployment. */
  lemma Conservation(c: Config, usdc: Balances, calls: seq<Call>)
    requires Deploy(c, usdc).Ok? && FairStart(usdc)
    ensures var w0 := Deploy(c, usdc).value;
            var m := Run(w0, calls).market;
            BalanceOf(m.token, VaultContract) + TotalShortfall(w0, calls)
            == m.vault.totalDeposits + Total(m.manager.positions, Collateral) + TotalDonated(w0, calls)
  {
    var w0 := Deploy(c, usdc).value;
    DeployIsSound(c, usdc);
    assert Weights(w0.market.manager.positions, Collateral) == map[];
    RunMovesSurplus(w0, calls);
  }

  lemma EndingKeepsSupply(w: World, c: Call)
    requires Apply(w, c).Ok? && (c.CloseCall? || c.LiquidateCall?)
    ensures Sum(Apply(w, c).value.market.token) == Sum(w.market.token)
  {
    var key, pnl, fee := SettlementOf(w, c);
    var payout := w.market.manager.positions[key].collateral + pnl - fee;
    if payout > 0 {
      TransferConserves(w.market.token, VaultContract, User(key.trader), payout);
    }
  }

  lemma OpenKeepsSupply(w: World, c: Call)
    requires c.OpenCall? && Apply(w, c).Ok?
    ensures Sum(Apply(w, c).value.market.token) == Sum(w.market.token)
  {
    TransferConserves(w.market.token, User(c.trader), VaultContract,
      c.collateral + CalculateFee(c.collateral * c.leverage, w.market.manager.openFeeBps));
  }

  lemma CallKeepsSupply(w: World, c: Call)
    ensures Sum(Exec(w, c).market.token) == Sum(w.market.token)
  {
    var m := w.market;
    if Apply(w, c).Ok? {
      match c
      case DepositCall(lp, amount) => TransferConserves(m.token, User(lp), VaultContract, amount);
      case WithdrawCall(lp, shares) =>
        TransferConserves(m.token, VaultContract, User(lp), Withdraw(m.vault, m.token, lp, shares).value.amount);
      case OpenCall(_, _, _, _, _) => OpenKeepsSupply(w, c);
      case CloseCall(_, _, _) => EndingKeepsSupply(w, c);
      case LiquidateCall(_, _, _) => EndingKeepsSupply(w, c);
      case TransferCall(from, to, amount) => TransferConserves(m.token, User(from), to, amount);
      case _ =>
    }
  }

  /** No call creates or destroys USDC. */
  lemma {:induction false} SupplyIsFixed(w: World, calls: seq<Call>)
    ensures Sum(Run(w, calls).market.token) == Sum(w.market.token)
    decreases |calls|
  {
    if calls != [] {
      CallKeepsSupply(w, calls[0]);
      SupplyIsFixed(Exec(w, calls[0]), calls[1..]);
    }
  }

  // Which runs are solvent.

  /** A close whose trader can pay the close fee out of what the position is still worth. */
  predicate FeeCovered(w: World, c: Call) {
    c.CloseCall? && Apply(w, c).Ok? ==>
      var p := w.market.manager.positions[PositionKey(c.trader, c.id)];
      CalculateFee(p.size, w.market.manager.closeFeeBps) <= p.collateral + PricePnl(w.market, p).value
  }

  predicate EveryFeeCovered(w: World, calls: seq<Call>)
    decreases |calls|
  {
    calls == [] || (FeeCovered(w, calls[0]) && EveryFeeCovered(Exec(w, calls[0]), calls[1..]))
  }

  /** A close that succeeds is timely when its fee rate is at most the maintenance margin and the
      engine would not liquidate the position at that moment. */
  predicate Timely(w: World, c: Call) {
    c.CloseCall? && Apply(w, c).Ok? ==>
      && w.market.manager.closeFeeBps <= w.engine.maintenanceBps
      && IsLiquidatable(w.engine, w.market, c.trader, c.id, c.asset) == Ok(false)
  }

  predicate EveryCloseTimely(w: World, calls: seq<Call>)
    decreases |calls|
  {
    calls == [] || (Timely(w, calls[0]) && EveryCloseTimely(Exec(w, calls[0]), calls[1..]))
  }

  lemma {:induction false} NoShortfallIffCovered(w: World, calls: seq<Call>)
    ensures TotalShortfall(w, calls) == 0 <==> EveryFeeCovered(w, calls)
    decreases |calls|
  {
    if calls != [] {
      NoShortfallIffCovered(Exec(w, calls[0]), calls[1..]);
    }
  }

  /** A close can leave at most its own fee uncovered. */
  lemma ShortfallAtMostFee(w: World, c: Call)
    requires Sound(w) && c.CloseCall? && Apply(w, c).Ok?
    ensures var p := w.market.manager.positions[PositionKey(c.trader, c.id)];
            Shortfall(w, c) <= CalculateFee(p.size, w.market.manager.closeFeeBps)
  {
    var p := w.market.manager.positions[PositionKey(c.trader, c.id)];
    assert PositionSound(PositionKey(c.trader, c.id), p, w.market.manager.nextId);
    FeeBounds(p.size, w.market.manager.closeFeeBps);
    PricePnlIsCapped(w.market, p);
  }

  /** The engine would not liquidate a position of this size with this margin left. */
  predicate Healthy(size: int, margin: int, maintenanceBps: nat)
    requires size != 0
  {
    TDiv(margin * BPS, size) >= maintenanceBps
  }

  predicate PaysFee(size: int, margin: int, feeBps: nat) {
    CalculateFee(size, feeBps) <= margin
  }

  /** What is left of a position at or above the maintenance margin pays any fee at or below it. */
  lemma HealthyPaysFee(size: int, margin: int, maintenanceBps: nat, feeBps: nat)
    requires size > 0 && maintenanceBps >= 1 && feeBps <= maintenanceBps
    requires Healthy(size, margin, maintenanceBps)
    ensures PaysFee(size, margin, feeBps)
  {
    TDivBelow(margin * BPS, size, maintenanceBps);
    FeeBounds(size, feeBps);
    MulMono(feeBps, maintenanceBps, size);
  }

  /** Every healthy position can pay its close fee exactly when the fee rate is at most the
      maintenance margin. */
  lemma HealthyPaysFeeIff(maintenanceBps: nat, feeBps: nat)
    requires maintenanceBps >= 1
    ensures (forall size: int, margin: int | size > 0 && Healthy(size, margin, maintenanceBps) ::
               PaysFee(size, margin, feeBps))
            <==> feeBps <= maintenanceBps
  {
    if feeBps <= maintenanceBps {
      forall size: int, margin: int | size > 0 && Healthy(size, margin, maintenanceBps)
        ensures PaysFee(size, margin, feeBps)
      {
        HealthyPaysFee(size, margin, maintenanceBps, feeBps);
      }
    } else {
      assert Healthy(BPS, maintenanceBps, maintenanceBps);
      assert !PaysFee(BPS, maintenanceBps, feeBps);
    }
  }

  lemma HealthyPositionPaysFee(e: EngineState, m: Market, key: PositionKey)
    requires key in m.manager.positions && PositionSound(key, m.manager.positions[key], m.manager.nextId)
    requires m.manager.closeFeeBps <= e.maintenanceBps && e.maintenanceBps >= 1
    requires var p := m.manager.positions[key];
             IsLiquidatable(e, m, key.trader, key.id, p.asset) == Ok(false) && PricePnl(m, p).Ok?
    ensures var p := m.manager.positions[key];
            CalculateFee(p.size, m.manager.closeFeeBps) <= p.collateral + PricePnl(m, p).value
  {
    var p := m.manager.positions[key];
    assert key == PositionKey(key.trader, key.id);
    var raw := CalculatePnl(p.direction, p.size, p.entryPrice, GetPriceValue(m.oracle, m.now, p.asset).value);
    HealthyPaysFee(p.size, p.collateral + raw, e.maintenanceBps, m.manager.closeFeeBps);
    FeeBounds(p.size, m.manager.closeFeeBps);
  }

  lemma TimelyCloseIsCovered(w: World, c: Call)
    requires Sound(w) && Timely(w, c)
    ensures FeeCovered(w, c)
  {
    if c.CloseCall? && Apply(w, c).Ok? {
      var key, pnl, fee := SettlementOf(w, c);
      assert PositionSound(key, w.market.manager.positions[key], w.market.manager.nextId);
      HealthyPositionPaysFee(w.engine, w.market, key);
    }
  }

  lemma {:induction false} TimelyRunIsCovered(w: World, calls: seq<Call>)
    requires Sound(w) && EveryCloseTimely(w, calls)
    ensures EveryFeeCovered(w, calls)
    decreases |calls|
  {
    if calls != [] {
      TimelyCloseIsCovered(w, calls[0]);
      CallKeepsSettings(w, calls[0]);
      CallKeepsMarket(w, calls[0]);
      TimelyRunIsCovered(Exec(w, calls[0]), calls[1..]);
    }
  }

  /** The vault holds every USDC it books exactly when the donations of the run make up for the
      close fees it left uncovered. */
  lemma SolventIffShortfallDonated(c: Config, usdc: Balances, calls: seq<Call>)
    requires Deploy(c, usdc).Ok? && FairStart(usdc)
    ensures var w0 := Deploy(c, usdc).value;
            Surplus(Run(w0, calls).market) >= 0 <==> TotalShortfall(w0, calls) <= TotalDonated(w0, calls)
  {
    Conservation(c, usdc, calls);
  }

  /** The vault holds every USDC it books and, untouched, every USDC that was donated to it exactly
      when no close on the run left a fee uncovered. */
  lemma DonationsIntactIffFeesCovered(c: Config, usdc: Balances, calls: seq<Call>)
    requires Deploy(c, usdc).Ok? && FairStart(usdc)
    ensures var w0 := Deploy(c, usdc).value;
            var m := Run(w0, calls).market;
            BalanceOf(m.token, VaultContract)
              == m.vault.totalDeposits + Total(m.manager.positions, Collateral) + TotalDonated(w0, calls)
            <==> EveryFeeCovered(w0, calls)
  {
    Conservation(c, usdc, calls);
    NoShortfallIffCovered(Deploy(c, usdc).value, calls);
  }

  /** Solvency under timely liquidation. */
  lemma SolventUnderTimelyLiquidation(c: Config, usdc: Balances, calls: seq<Call>)
    requires Deploy(c, usdc).Ok? && FairStart(usdc)
    requires EveryCloseTimely(Deploy(c, usdc).value, calls)
    ensures var w0 := Deploy(c, usdc).value;
            var m := Run(w0, calls).market;
            BalanceOf(m.token, VaultContract)
            == m.vault.totalDeposits + Total(m.manager.positions, Collateral) + TotalDonated(w0, calls)
  {
    DeployIsSound(c, usdc);
    TimelyRunIsCovered(Deploy(c, usdc).value, calls);
    DonationsIntactIffFeesCovered(c, usdc, calls);
  }

  lemma CollateralNonNegative(m: Market)
    requires MarketSound(m)
    ensures Total(m.manager.positions, Collateral) >= 0
  {
    var ps := m.manager.positions;
    forall k | k in ps
      ensures Weigh(Collateral, ps[k]) >= 0
    {
      assert PositionSound(k, ps[k], m.manager.nextId);
    }
    SumsNonNegative(ps, Collateral);
  }

  /** With no USDC missing, the token never refuses to pay a withdrawal that the vault grants. */
  lemma WithdrawalIsPaid(m: Market, lp: Account, shares: int)
    requires MarketSound(m) && Surplus(m) >= 0
    ensures Withdraw(m.vault, m.token, lp, shares) != Err(TransferTrap)
  {
    var v := m.vault;
    BalanceWithinTotal(v, lp);
    CollateralNonNegative(m);
    if 0 < shares <= ShareBalance(v, lp) {
      RedeemKeepsPrice(shares, v.totalShares, v.totalDeposits);
    }
  }
}
