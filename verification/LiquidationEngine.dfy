/** Health check of a position, and forced settlement of one that fails it. */
module LiquidationEngine {
  import opened PerpsTypes
  import opened Arithmetic
  import opened Oracle
  import opened PositionManager

  datatype EngineState = EngineState(admin: Account, maintenanceBps: nat, penaltyBps: nat, keeperBps: nat)

  /** The market after a liquidation, and the figures of its event. */
  datatype Liquidation = Liquidation(market: Market, markPrice: int, marginRatio: int, penalty: int, keeperReward: int)

  function MarginRatioOf(collateral: int, pnl: int, size: int): Result<int> {
    var margin :- I128(collateral + pnl);
    var scaled :- I128(margin * BPS);
    if size == 0 then Err(ArithmeticTrap) else I128(TDiv(scaled, size))
  }

  function GetMarginRatio(m: Market, trader: Account, id: nat, asset: Asset): Result<int> {
    var p :- GetPosition(m, trader, id);
    var pnl :- GetUnrealizedPnl(m, trader, id, asset);
    var _ :- I128(p.collateral + pnl);
    if p.size == 0 then Err(PositionNotFound) else MarginRatioOf(p.collateral, pnl, p.size)
  }

  function IsLiquidatable(e: EngineState, m: Market, trader: Account, id: nat, asset: Asset): Result<bool> {
    var ratio :- GetMarginRatio(m, trader, id, asset);
    Ok(ratio < e.maintenanceBps)
  }

  /** A share of the collateral, at most what equity is left. */
  function Levy(equity: int, collateral: int, bps: nat): Result<int> {
    if equity > 0 then
      var scaled :- I128(collateral * bps);
      Ok(Min(TDiv(scaled, BPS), equity))
    else Ok(0)
  }

  function Liquidate(e: EngineState, m: Market, trader: Account, id: nat, asset: Asset): Result<Liquidation> {
    var p :- GetPosition(m, trader, id);
    var markPrice :- GetPriceValue(m.oracle, m.now, asset);
    var unrealized :- GetUnrealizedPnl(m, trader, id, asset);
    var ratio :- MarginRatioOf(p.collateral, unrealized, p.size);
    if ratio >= e.maintenanceBps then Err(NotLiquidatable)
    else
      var closed :- LiquidatePosition(m, trader, id, asset);
      var equity :- I128(closed.1 + closed.2);
      var penalty :- Levy(equity, closed.1, e.penaltyBps);
      var reward :- Levy(equity, closed.1, e.keeperBps);
      Ok(Liquidation(closed.0, markPrice, ratio, penalty, reward))
  }

  function SetMaintenanceMargin(e: EngineState, caller: Account, bps: nat): Result<EngineState> {
    if caller != e.admin then Err(Unauthorized)
    else if bps == 0 || bps > 5000 then Err(InvalidConfig)
    else Ok(e.(maintenanceBps := bps))
  }

  function SetLiquidationPenalty(e: EngineState, caller: Account, bps: nat): Result<EngineState> {
    if caller != e.admin then Err(Unauthorized) else Ok(e.(penaltyBps := bps))
  }

  function SetKeeperReward(e: EngineState, caller: Account, bps: nat): Result<EngineState> {
    if caller != e.admin then Err(Unauthorized) else Ok(e.(keeperBps := bps))
  }

  class Engine {
    const admin: Account
    const manager: Manager
    var maintenanceBps: nat
    var penaltyBps: nat
    var keeperBps: nat

    function State(): EngineState
      reads this
    {
      EngineState(admin, maintenanceBps, penaltyBps, keeperBps)
    }

    constructor (e: EngineState, manager: Manager)
      ensures State() == e && this.manager == manager
    {
      this.admin, this.manager := e.admin, manager;
      maintenanceBps, penaltyBps, keeperBps := e.maintenanceBps, e.penaltyBps, e.keeperBps;
    }

    method LiquidateBody(now: nat, trader: Account, id: nat, asset: Asset) returns (r: Result<(int, int, int, int)>)
      requires manager.Wired()
      modifies manager, manager.vault, manager.token
      ensures match Liquidate(State(), old(manager.Snapshot(now)), trader, id, asset)
              case Ok(out) => r == Ok((out.markPrice, out.marginRatio, out.penalty, out.keeperReward))
                              && manager.Snapshot(now) == out.market
              case Err(e) => r == Err(e)
    {
      var m := manager.Snapshot(now);
      var p :- GetPosition(m, trader, id);
      var markPrice :- GetPriceValue(m.oracle, now, asset);
      var unrealized :- GetUnrealizedPnl(m, trader, id, asset);
      var ratio :- MarginRatioOf(p.collateral, unrealized, p.size);
      if ratio >= maintenanceBps {
        return Err(NotLiquidatable);
      }
      var closed :- manager.LiquidateBody(now, trader, id, asset);
      var equity :- I128(closed.0 + closed.1);
      var penalty, reward := 0, 0;
      if equity > 0 {
        var rawPenalty :- I128(closed.0 * penaltyBps);
        penalty := Min(TDiv(rawPenalty, BPS), equity);
        var rawReward :- I128(closed.0 * keeperBps);
        reward := Min(TDiv(rawReward, BPS), equity);
      }
      r := Ok((markPrice, ratio, penalty, reward));
    }

    /** Anyone liquidates an unhealthy position; a failing call leaves no trace. */
    method LiquidateCall(now: nat, trader: Account, id: nat, asset: Asset) returns (r: Result<(int, int, int, int)>)
      requires manager.Wired()
      modifies manager, manager.vault, manager.token
      ensures match Liquidate(State(), old(manager.Snapshot(now)), trader, id, asset)
              case Ok(out) => r == Ok((out.markPrice, out.marginRatio, out.penalty, out.keeperReward))
                              && manager.Snapshot(now) == out.market
              case Err(e) => r == Err(e) && manager.Snapshot(now) == old(manager.Snapshot(now))
    {
      var frame := manager.Snapshot(now);
      r := LiquidateBody(now, trader, id, asset);
      if r.Err? {
        manager.RollBack(frame);
      }
    }

    method SetMaintenance(caller: Account, bps: nat) returns (r: Result<()>)
      modifies this
      ensures match SetMaintenanceMargin(old(State()), caller, bps)
              case Ok(e) => r == Ok(()) && State() == e
              case Err(e) => r == Err(e) && State() == old(State())
    {
      if caller != admin {
        return Err(Unauthorized);
      }
      if bps == 0 || bps > 5000 {
        return Err(InvalidConfig);
      }
      maintenanceBps := bps;
      r := Ok(());
    }

    method SetPenalty(caller: Account, bps: nat) returns (r: Result<()>)
      modifies this
      ensures match SetLiquidationPenalty(old(State()), caller, bps)
              case Ok(e) => r == Ok(()) && State() == e
              case Err(e) => r == Err(e) && State() == old(State())
    {
      if caller != admin {
        return Err(Unauthorized);
      }
      penaltyBps := bps;
      r := Ok(());
    }

    method SetReward(caller: Account, bps: nat) returns (r: Result<()>)
      modifies this
      ensures match SetKeeperReward(old(State()), caller, bps)
              case Ok(e) => r == Ok(()) && State() == e
              case Err(e) => r == Err(e) && State() == old(State())
    {
      if caller != admin {
        return Err(Unauthorized);
      }
      keeperBps := bps;
      r := Ok(());
    }
  }
}
