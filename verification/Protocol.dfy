/** The deployed protocol as one transition system: every external call, in any order. */
module Protocol {
  import opened PerpsTypes
  import opened Token
  import opened Oracle
  import opened Vault
  import opened PositionManager
  import opened LiquidationEngine
  import opened FundingRate

  datatype World = World(market: Market, engine: EngineState, funding: FundingState)

  /** What the five `initialize` calls of a deployment are given. */
  datatype Config = Config(
    admin: Account,
    now: nat,
    stalenessThreshold: nat,
    maxUtilizationBps: nat,
    openFeeBps: nat,
    closeFeeBps: nat,
    maxLeverage: nat,
    minCollateral: int,
    maintenanceBps: nat,
    penaltyBps: nat,
    keeperBps: nat,
    fundingInterval: nat,
    maxRateBps: nat,
    spreadBps: nat)

  predicate ConfigAccepted(c: Config) {
    && c.stalenessThreshold != 0
    && 0 < c.maxUtilizationBps <= BPS
    && c.maxLeverage != 0 && c.openFeeBps <= 1000 && c.closeFeeBps <= 1000
    && 0 < c.maintenanceBps <= 5000 && c.keeperBps <= c.penaltyBps
    && c.fundingInterval != 0 && c.maxRateBps != 0
  }

  /** The protocol right after deployment; `usdc` is what the users hold. */
  function Deploy(c: Config, usdc: Balances): Result<World> {
    if !ConfigAccepted(c) then Err(InvalidConfig)
    else
      var oracle := OracleState(c.admin, c.stalenessThreshold, map[]);
      var vault := VaultState(c.admin, 0, 0, 0, c.maxUtilizationBps, map[]);
      var manager := ManagerState(
        c.admin, c.openFeeBps, c.closeFeeBps, c.maxLeverage, c.minCollateral, 1, 0, 0, map[], map[]);
      Ok(World(
        Market(c.now, usdc, oracle, vault, manager),
        EngineState(c.admin, c.maintenanceBps, c.penaltyBps, c.keeperBps),
        FundingState(c.admin, c.fundingInterval, c.maxRateBps, c.spreadBps, 0, 0, c.now)))
  }

  datatype Call =
    | DepositCall(lp: Account, amount: int)
    | WithdrawCall(lp: Account, shares: int)
    | OpenCall(trader: Account, asset: Asset, direction: Direction, collateral: int, leverage: nat)
    | CloseCall(trader: Account, id: nat, asset: Asset)
    | LiquidateCall(trader: Account, id: nat, asset: Asset)
    | ApplyFundingCall
    | SetPriceCall(caller: Account, asset: Asset, price: int)
    | SetStalenessCall(caller: Account, threshold: nat)
    | SetMaxUtilizationCall(caller: Account, bps: nat)
    | SetFeesCall(caller: Account, openBps: nat, closeBps: nat)
    | SetMaxLeverageCall(caller: Account, max: nat)
    | SetMaintenanceCall(caller: Account, bps: nat)
    | SetPenaltyCall(caller: Account, bps: nat)
    | SetKeeperRewardCall(caller: Account, bps: nat)
    | SetIntervalCall(caller: Account, interval: nat)
    | SetMaxRateCall(caller: Account, bps: nat)
    | TransferCall(from: Account, to: Holder, amount: int)
    | TimePasses(seconds: nat)
    | PriceExpires(asset: Asset)

  function OnVault(w: World, v: VaultState, t: Balances): World {
    w.(market := w.market.(vault := v, token := t))
  }

  function OnOracle(w: World, o: OracleState): World {
    w.(market := w.market.(oracle := o))
  }

  function OnManager(w: World, s: ManagerState): World {
    w.(market := w.market.(manager := s))
  }

  /** The state after a successful call, or the error of a failing one. */
  function Apply(w: World, c: Call): Result<World> {
    var m := w.market;
    match c
    case DepositCall(lp, amount) =>
      var out :- Deposit(m.vault, m.token, lp, amount);
      Ok(OnVault(w, out.vault, out.token))
    case WithdrawCall(lp, shares) =>
      var out :- Withdraw(m.vault, m.token, lp, shares);
      Ok(OnVault(w, out.vault, out.token))
    case OpenCall(trader, asset, direction, collateral, leverage) =>
      var out :- OpenPosition(m, trader, asset, direction, collateral, leverage);
      Ok(w.(market := out.0))
    case CloseCall(trader, id, asset) =>
      var out :- ClosePosition(m, trader, id, asset);
      Ok(w.(market := out.0))
    case LiquidateCall(trader, id, asset) =>
      var out :- Liquidate(w.engine, m, trader, id, asset);
      Ok(w.(market := out.market))
    case ApplyFundingCall =>
      var f :- ApplyFunding(w.funding, m.now, m.manager.oiLong, m.manager.oiShort);
      Ok(w.(funding := f))
    case SetPriceCall(caller, asset, price) =>
      var o :- SetPrice(m.oracle, m.now, caller, asset, price);
      Ok(OnOracle(w, o))
    case SetStalenessCall(caller, threshold) =>
      var o :- SetStalenessThreshold(m.oracle, caller, threshold);
      Ok(OnOracle(w, o))
    case SetMaxUtilizationCall(caller, bps) =>
      var v :- SetMaxUtilization(m.vault, caller, bps);
      Ok(OnVault(w, v, m.token))
    case SetFeesCall(caller, openBps, closeBps) =>
      var s :- SetFeeRates(m.manager, caller, openBps, closeBps);
      Ok(OnManager(w, s))
    case SetMaxLeverageCall(caller, max) =>
      var s :- SetMaxLeverage(m.manager, caller, max);
      Ok(OnManager(w, s))
    case SetMaintenanceCall(caller, bps) =>
      var e :- SetMaintenanceMargin(w.engine, caller, bps);
      Ok(w.(engine := e))
    case SetPenaltyCall(caller, bps) =>
      var e :- SetLiquidationPenalty(w.engine, caller, bps);
      Ok(w.(engine := e))
    case SetKeeperRewardCall(caller, bps) =>
      var e :- SetKeeperReward(w.engine, caller, bps);
      Ok(w.(engine := e))
    case SetIntervalCall(caller, interval) =>
      var f :- SetFundingInterval(w.funding, caller, interval);
      Ok(w.(funding := f))
    case SetMaxRateCall(caller, bps) =>
      var f :- SetMaxRate(w.funding, caller, bps);
      Ok(w.(funding := f))
    case TransferCall(from, to, amount) =>
      var t :- Transfer(m.token, User(from), to, amount);
      Ok(OnVault(w, m.vault, t))
    case TimePasses(seconds) =>
      Ok(w.(market := m.(now := m.now + seconds)))
    case PriceExpires(asset) =>
      Ok(OnOracle(w, ExpirePrice(m.oracle, asset)))
  }

  /** A call as the chain executes it: an error reverts everything. */
  function Exec(w: World, c: Call): World {
    match Apply(w, c)
    case Ok(w') => w'
    case Err(_) => w
  }

  function Run(w: World, calls: seq<Call>): World
    decreases |calls|
  {
    if calls == [] then w else Run(Exec(w, calls[0]), calls[1..])
  }

  /** A run goes on from where it stood. */
  lemma {:induction false} RunAppend(w: World, calls: seq<Call>, c: Call)
    ensures Run(w, calls + [c]) == Exec(Run(w, calls), c)
    decreases |calls|
  {
    if calls == [] {
      assert (calls + [c])[1..] == [];
    } else {
      assert (calls + [c])[1..] == calls[1..] + [c];
      RunAppend(Exec(w, calls[0]), calls[1..], c);
    }
  }

  /** The vault starts with no USDC, and nobody with a negative balance. */
  ghost predicate FairStart(usdc: Balances) {
    BalanceOf(usdc, VaultContract) == 0 && forall h | h in usdc :: usdc[h] >= 0
  }

  ghost predicate ReachedBy(w: World, c: Config, usdc: Balances, calls: seq<Call>) {
    && Deploy(c, usdc).Ok? && FairStart(usdc)
    && w == Run(Deploy(c, usdc).value, calls)
  }

  /** A world some deployment can reach through some calls. */
  ghost predicate Reachable(w: World) {
    exists c: Config, usdc: Balances, calls: seq<Call> :: ReachedBy(w, c, usdc, calls)
  }
}
