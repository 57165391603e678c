/** Position lifecycle: open, close, force-close, and the books kept beside the positions. */
module PositionManager {
  import opened PerpsTypes
  import opened Arithmetic
  import opened PositionMath
  import opened Token
  import opened Oracle
  import opened Vault

  type Positions = map<PositionKey, Position>

  datatype ManagerState = ManagerState(
    admin: Account,
    openFeeBps: nat,
    closeFeeBps: nat,
    maxLeverage: nat,
    minCollateral: int,
    nextId: nat,
    oiLong: int,
    oiShort: int,
    positions: Positions,
    counts: map<Account, nat>)

  /** Everything a trade can touch: the ledger time, the token, the oracle, the vault, the manager. */
  datatype Market = Market(now: nat, token: Balances, oracle: OracleState, vault: VaultState, manager: ManagerState)

  function TraderCount(s: ManagerState, trader: Account): nat {
    if trader in s.counts then s.counts[trader] else 0
  }

  function OpenInterest(s: ManagerState, direction: Direction): int {
    match direction
    case Long => s.oiLong
    case Short => s.oiShort
  }

  function WithOpenInterest(s: ManagerState, direction: Direction, oi: int): ManagerState {
    match direction
    case Long => s.(oiLong := oi)
    case Short => s.(oiShort := oi)
  }

  /** Enter a new position on the manager's books: id counter, positions, open interest, count. */
  function Record(s: ManagerState, trader: Account, id: nat, p: Position): Result<ManagerState> {
    var nextId :- U64(id + 1);
    var oi :- I128(OpenInterest(s, p.direction) + p.size);
    var count :- U64(TraderCount(s, trader) + 1);
    Ok(WithOpenInterest(s, p.direction, oi).(
      nextId := nextId,
      positions := s.positions[PositionKey(trader, id) := p],
      counts := s.counts[trader := count]))
  }

  function OpenPosition(m: Market, trader: Account, asset: Asset, direction: Direction, collateral: int, leverage: nat)
    : Result<(Market, nat)>
  {
    var s := m.manager;
    if collateral < s.minCollateral then Err(MinCollateralNotMet)
    else if leverage == 0 || leverage > s.maxLeverage then Err(InvalidLeverage)
    else
      var entryPrice :- GetPriceValue(m.oracle, m.now, asset);
      var size :- I128(collateral * leverage);
      var openFee :- Fee(size, s.openFeeBps);
      var cost :- I128(collateral + openFee);
      var token :- Transfer(m.token, User(trader), VaultContract, cost);
      var lockedVault :- LockLiquidity(m.vault, size);
      var vault :- CollectFee(lockedVault, openFee);
      var manager :- Record(s, trader, s.nextId, Position(
        s.nextId, trader, asset, direction, size, collateral, entryPrice, leverage, 0, m.now));
      Ok((m.(token := token, vault := vault, manager := manager), s.nextId))
  }

  /** Take a position off the manager's books. */
  function Erase(s: ManagerState, key: PositionKey): Result<ManagerState>
    requires key in s.positions
  {
    var p := s.positions[key];
    var oi :- I128(OpenInterest(s, p.direction) - p.size);
    var count := TraderCount(s, key.trader);
    Ok(WithOpenInterest(s, p.direction, oi).(
      positions := s.positions - {key},
      counts := if count > 0 then s.counts[key.trader := count - 1] else s.counts))
  }

  /** Settle with the vault, then take the position off every book. */
  function SettleAndRemove(m: Market, key: PositionKey, pnl: int, fee: int): Result<Market>
    requires key in m.manager.positions
  {
    var s, p := m.manager, m.manager.positions[key];
    var settled :- SettleClose(m.vault, m.token, key.trader, p.size, p.collateral, pnl, fee);
    var manager :- Erase(s, key);
    Ok(m.(token := settled.1, vault := settled.0, manager := manager))
  }

  /** The price profit or loss a position would book now, its loss capped at the collateral. */
  function PricePnl(m: Market, p: Position): Result<int> {
    var price :- GetPriceValue(m.oracle, m.now, p.asset);
    var raw :- Pnl(p.direction, p.size, p.entryPrice, price);
    var _ :- I128(-p.collateral);
    Ok(CapLoss(raw, p.collateral))
  }

  function ClosePosition(m: Market, trader: Account, id: nat, asset: Asset): Result<(Market, int)> {
    var key := PositionKey(trader, id);
    if key !in m.manager.positions then Err(PositionNotFound)
    else
      var p := m.manager.positions[key];
      if p.trader != trader then Err(Unauthorized)
      else if p.asset != asset then Err(AssetMismatch)
      else
        var pnl :- PricePnl(m, p);
        var fee :- Fee(p.size, m.manager.closeFeeBps);
        var net :- I128(pnl - fee);
        var m' :- SettleAndRemove(m, key, pnl, fee);
        Ok((m', net))
  }

  /** Force-close, without a fee; the engine is the only caller. Also returns collateral and PnL. */
  function LiquidatePosition(m: Market, trader: Account, id: nat, asset: Asset): Result<(Market, int, int)> {
    var key := PositionKey(trader, id);
    if key !in m.manager.positions then Err(PositionNotFound)
    else
      var p := m.manager.positions[key];
      if p.asset != asset then Err(AssetMismatch)
      else
        var pnl :- PricePnl(m, p);
        var m' :- SettleAndRemove(m, key, pnl, 0);
        Ok((m', p.collateral, pnl))
  }

  function GetPosition(m: Market, trader: Account, id: nat): Result<Position> {
    var key := PositionKey(trader, id);
    if key in m.manager.positions then Ok(m.manager.positions[key]) else Err(PositionNotFound)
  }

  /** The uncapped PnL at the current price of the asset the caller names. */
  function GetUnrealizedPnl(m: Market, trader: Account, id: nat, asset: Asset): Result<int> {
    var p :- GetPosition(m, trader, id);
    var price :- GetPriceValue(m.oracle, m.now, asset);
    Pnl(p.direction, p.size, p.entryPrice, price)
  }

  function SetFeeRates(s: ManagerState, caller: Account, openBps: nat, closeBps: nat): Result<ManagerState> {
    if caller != s.admin then Err(Unauthorized)
    else if openBps > 1000 || closeBps > 1000 then Err(InvalidConfig)
    else Ok(s.(openFeeBps := openBps, closeFeeBps := closeBps))
  }

  function SetMaxLeverage(s: ManagerState, caller: Account, max: nat): Result<ManagerState> {
    if caller != s.admin then Err(Unauthorized)
    else if max == 0 then Err(InvalidConfig)
    else Ok(s.(maxLeverage := max))
  }

  class Manager {
    const admin: Account
    const token: UsdcToken
    const oracle: OracleAdapter
    const vault: LpVault
    var openFeeBps: nat
    var closeFeeBps: nat
    var maxLeverage: nat
    var minCollateral: int
    var nextId: nat
    var oiLong: int
    var oiShort: int
    var positions: Positions
    var counts: map<Account, nat>

    function State(): ManagerState
      reads this
    {
      ManagerState(
        admin, openFeeBps, closeFeeBps, maxLeverage, minCollateral, nextId, oiLong, oiShort, positions, counts)
    }

    /** The wiring of the deployment: manager and vault hold the same token. */
    predicate Wired() {
      vault.token == token
    }

    function Snapshot(now: nat): Market
      reads this, token, oracle, vault
    {
      Market(now, token.balances, oracle.State(), vault.State(), State())
    }

    constructor (s: ManagerState, token: UsdcToken, oracle: OracleAdapter, vault: LpVault)
      ensures State() == s && this.token == token && this.oracle == oracle && this.vault == vault
    {
      this.admin, this.token, this.oracle, this.vault := s.admin, token, oracle, vault;
      openFeeBps, closeFeeBps := s.openFeeBps, s.closeFeeBps;
      maxLeverage, minCollateral := s.maxLeverage, s.minCollateral;
      nextId, oiLong, oiShort, positions, counts := s.nextId, s.oiLong, s.oiShort, s.positions, s.counts;
    }

    /** What the host does with the frame of a trade that returned an error. */
    method RollBack(m: Market)
      requires Wired() && m.manager.admin == admin && m.vault.admin == vault.admin
      modifies this, vault, token
      ensures token.balances == m.token && vault.State() == m.vault && State() == m.manager
    {
      vault.RollBack(m.vault, m.token);
      var s := m.manager;
      openFeeBps, closeFeeBps := s.openFeeBps, s.closeFeeBps;
      maxLeverage, minCollateral := s.maxLeverage, s.minCollateral;
      nextId, oiLong, oiShort, positions, counts := s.nextId, s.oiLong, s.oiShort, s.positions, s.counts;
    }

    method RecordBody(trader: Account, id: nat, p: Position) returns (r: Result<()>)
      modifies this
      ensures match Record(old(State()), trader, id, p)
              case Ok(s) => r == Ok(()) && State() == s
              case Err(e) => r == Err(e)
    {
      nextId :- U64(id + 1);
      positions := positions[PositionKey(trader, id) := p];
      match p.direction {
        case Long => oiLong :- I128(oiLong + p.size);
        case Short => oiShort :- I128(oiShort + p.size);
      }
      var count :- U64(TraderCount(State(), trader) + 1);
      counts := counts[trader := count];
      r := Ok(());
    }

    method OpenBody(now: nat, trader: Account, asset: Asset, direction: Direction, collateral: int, leverage: nat)
      returns (r: Result<nat>)
      requires Wired()
      modifies this, vault, token
      ensures match OpenPosition(old(Snapshot(now)), trader, asset, direction, collateral, leverage)
              case Ok(out) => r == Ok(out.1) && Snapshot(now) == out.0
              case Err(e) => r == Err(e)
    {
      if collateral < minCollateral {
        return Err(MinCollateralNotMet);
      }
      if leverage == 0 || leverage > maxLeverage {
        return Err(InvalidLeverage);
      }
      var entryPrice :- GetPriceValue(oracle.State(), now, asset);
      var size :- I128(collateral * leverage);
      var openFee :- Fee(size, openFeeBps);
      var cost :- I128(collateral + openFee);
      var _ :- token.TransferFrom(User(trader), VaultContract, cost);
      var _ :- vault.Lock(size);
      var _ :- vault.Collect(openFee);
      var id := nextId;
      var _ :- RecordBody(trader, id,
        Position(id, trader, asset, direction, size, collateral, entryPrice, leverage, 0, now));
      r := Ok(id);
    }

    /** A trader opens a position; a failing call leaves no trace. */
    method OpenCall(now: nat, trader: Account, asset: Asset, direction: Direction, collateral: int, leverage: nat)
      returns (r: Result<nat>)
      requires Wired()
      modifies this, vault, token
      ensures match OpenPosition(old(Snapshot(now)), trader, asset, direction, collateral, leverage)
              case Ok(out) => r == Ok(out.1) && Snapshot(now) == out.0
              case Err(e) => r == Err(e) && Snapshot(now) == old(Snapshot(now))
    {
      var frame := Snapshot(now);
      r := OpenBody(now, trader, asset, direction, collateral, leverage);
      if r.Err? {
        RollBack(frame);
      }
    }

    method EraseBody(key: PositionKey) returns (r: Result<()>)
      requires key in positions
      modifies this
      ensures match Erase(old(State()), key)
              case Ok(s) => r == Ok(()) && State() == s
              case Err(e) => r == Err(e)
    {
      var p := positions[key];
      positions := positions - {key};
      match p.direction {
        case Long => oiLong :- I128(oiLong - p.size);
        case Short => oiShort :- I128(oiShort - p.size);
      }
      var count := TraderCount(State(), key.trader);
      if count > 0 {
        counts := counts[key.trader := count - 1];
      }
      r := Ok(());
    }

    method RemoveBody(now: nat, key: PositionKey, pnl: int, fee: int) returns (r: Result<()>)
      requires Wired() && key in positions
      modifies this, vault, token
      ensures match SettleAndRemove(old(Snapshot(now)), key, pnl, fee)
              case Ok(m) => r == Ok(()) && Snapshot(now) == m
              case Err(e) => r == Err(e)
    {
      var p := positions[key];
      var _ :- vault.SettleBody(key.trader, p.size, p.collateral, pnl, fee);
      var _ :- EraseBody(key);
      r := Ok(());
    }

    /** A trader closes a position; a failing call leaves no trace. */
    method CloseCall(now: nat, trader: Account, id: nat, asset: Asset) returns (r: Result<int>)
      requires Wired()
      modifies this, vault, token
      ensures match ClosePosition(old(Snapshot(now)), trader, id, asset)
              case Ok(out) => r == Ok(out.1) && Snapshot(now) == out.0
              case Err(e) => r == Err(e) && Snapshot(now) == old(Snapshot(now))
    {
      var frame, key := Snapshot(now), PositionKey(trader, id);
      if key !in positions {
        return Err(PositionNotFound);
      }
      var p := positions[key];
      if p.trader != trader {
        return Err(Unauthorized);
      }
      if p.asset != asset {
        return Err(AssetMismatch);
      }
      var pnl :- PricePnl(frame, p);
      var fee :- Fee(p.size, closeFeeBps);
      var net :- I128(pnl - fee);
      var removed := RemoveBody(now, key, pnl, fee);
      if removed.Err? {
        RollBack(frame);
        return Err(removed.error);
      }
      r := Ok(net);
    }

    /** The engine force-closes a position; its own frame rolls an error back. */
    method LiquidateBody(now: nat, trader: Account, id: nat, asset: Asset) returns (r: Result<(int, int)>)
      requires Wired()
      modifies this, vault, token
      ensures match LiquidatePosition(old(Snapshot(now)), trader, id, asset)
              case Ok(out) => r == Ok((out.1, out.2)) && Snapshot(now) == out.0
              case Err(e) => r == Err(e)
    {
      var key := PositionKey(trader, id);
      if key !in positions {
        return Err(PositionNotFound);
      }
      var p := positions[key];
      if p.asset != asset {
        return Err(AssetMismatch);
      }
      var pnl :- PricePnl(Snapshot(now), p);
      var _ :- RemoveBody(now, key, pnl, 0);
      r := Ok((p.collateral, pnl));
    }

    method SetFees(caller: Account, openBps: nat, closeBps: nat) returns (r: Result<()>)
      modifies this
      ensures match SetFeeRates(old(State()), caller, openBps, closeBps)
              case Ok(s) => r == Ok(()) && State() == s
              case Err(e) => r == Err(e) && State() == old(State())
    {
      if caller != admin {
        return Err(Unauthorized);
      }
      if openBps > 1000 || closeBps > 1000 {
        return Err(InvalidConfig);
      }
      openFeeBps := openBps;
      closeFeeBps := closeBps;
      r := Ok(());
    }

    method SetLeverage(caller: Account, max: nat) returns (r: Result<()>)
      modifies this
      ensures match SetMaxLeverage(old(State()), caller, max)
              case Ok(s) => r == Ok(()) && State() == s
              case Err(e) => r == Err(e) && State() == old(State())
    {
      if caller != admin {
        return Err(Unauthorized);
      }
      if max == 0 {
        return Err(InvalidConfig);
      }
      maxLeverage := max;
      r := Ok(());
    }
  }
}
