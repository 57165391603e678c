/** The deployed contracts as objects that hold references to each other, and the ledger that submits
    calls to them. What they store is at every moment what the run of their calls says. */
module Chain {
  import opened PerpsTypes
  import opened Token
  import opened Oracle
  import opened Vault
  import opened PositionManager
  import opened LiquidationEngine
  import opened FundingRate
  import opened Protocol
  import opened Books

  class Ledger {
    var now: nat
    const token: UsdcToken
    const oracle: OracleAdapter
    const vault: LpVault
    const manager: Manager
    const engine: Engine
    const funding: Funding
    ghost const start: World
    ghost var history: seq<Call>

    /** One token, one oracle, one vault and one manager, wherever a contract refers to them. */
    predicate Wired() {
      && vault.token == token
      && manager.token == token && manager.oracle == oracle && manager.vault == vault
      && engine.manager == manager && funding.manager == manager
    }

    function State(): World
      reads this, token, oracle, vault, manager, engine, funding
    {
      World(
        Market(now, token.balances, oracle.State(), vault.State(), manager.State()),
        engine.State(), funding.State())
    }

    /** The contracts are wired, and hold what the calls submitted so far have left. */
    ghost predicate Valid()
      reads this, token, oracle, vault, manager, engine, funding
    {
      Wired() && State() == Run(start, history)
    }

    /** Deploy the five contracts beside the token and wire them together. */
    constructor (c: Config, usdc: Balances)
      requires Deploy(c, usdc).Ok?
      ensures Valid() && history == [] && start == Deploy(c, usdc).value
    {
      var w := Deploy(c, usdc).value;
      now := w.market.now;
      var usdcToken := new UsdcToken(w.market.token);
      var adapter := new OracleAdapter(w.market.oracle);
      var lpVault := new LpVault(w.market.vault, usdcToken);
      var positions := new Manager(w.market.manager, usdcToken, adapter, lpVault);
      token, oracle, vault, manager := usdcToken, adapter, lpVault, positions;
      engine := new Engine(w.engine, positions);
      funding := new Funding(w.funding, positions);
      start, history := w, [];
    }

    method SubmitTransfer(c: Call) returns (r: Result<()>)
      requires Wired() && (c.DepositCall? || c.WithdrawCall? || c.TransferCall?)
      modifies token, vault
      ensures match Apply(old(State()), c)
              case Ok(w) => r == Ok(()) && State() == w
              case Err(e) => r == Err(e) && State() == old(State())
    {
      match c {
        case DepositCall(lp, amount) =>
          var _ :- vault.DepositCall(lp, amount);
        case WithdrawCall(lp, shares) =>
          var _ :- vault.WithdrawCall(lp, shares);
        case TransferCall(from, to, amount) =>
          var _ :- token.TransferFrom(User(from), to, amount);
      }
      r := Ok(());
    }

    method SubmitTrade(c: Call) returns (r: Result<()>)
      requires Wired() && (c.OpenCall? || c.CloseCall? || c.LiquidateCall?)
      modifies token, vault, manager
      ensures match Apply(old(State()), c)
              case Ok(w) => r == Ok(()) && State() == w
              case Err(e) => r == Err(e) && State() == old(State())
    {
      match c {
        case OpenCall(trader, asset, direction, collateral, leverage) =>
          var _ :- manager.OpenCall(now, trader, asset, direction, collateral, leverage);
        case CloseCall(trader, id, asset) =>
          var _ :- manager.CloseCall(now, trader, id, asset);
        case LiquidateCall(trader, id, asset) =>
          var _ :- engine.LiquidateCall(now, trader, id, asset);
      }
      r := Ok(());
    }

    method SubmitToOracle(c: Call) returns (r: Result<()>)
      requires Wired()
      requires c.SetPriceCall? || c.SetStalenessCall? || c.PriceExpires? || c.TimePasses?
      modifies this`now, oracle
      ensures match Apply(old(State()), c)
              case Ok(w) => r == Ok(()) && State() == w
              case Err(e) => r == Err(e) && State() == old(State())
    {
      match c {
        case SetPriceCall(caller, asset, price) =>
          var _ :- oracle.Set(now, caller, asset, price);
        case SetStalenessCall(caller, threshold) =>
          var _ :- oracle.SetThreshold(caller, threshold);
        case PriceExpires(asset) =>
          oracle.Expire(asset);
        case TimePasses(seconds) =>
          now := now + seconds;
      }
      r := Ok(());
    }

    method SubmitToFunding(c: Call) returns (r: Result<()>)
      requires Wired() && (c.ApplyFundingCall? || c.SetIntervalCall? || c.SetMaxRateCall?)
      modifies funding
      ensures match Apply(old(State()), c)
              case Ok(w) => r == Ok(()) && State() == w
              case Err(e) => r == Err(e) && State() == old(State())
    {
      match c {
        case ApplyFundingCall =>
          var _ :- funding.ApplyCall(now);
        case SetIntervalCall(caller, interval) =>
          var _ :- funding.SetInterval(caller, interval);
        case SetMaxRateCall(caller, bps) =>
          var _ :- funding.SetMax(caller, bps);
      }
      r := Ok(());
    }

    method SubmitLimit(c: Call) returns (r: Result<()>)
      requires Wired() && (c.SetMaxUtilizationCall? || c.SetFeesCall? || c.SetMaxLeverageCall?)
      modifies vault, manager
      ensures match Apply(old(State()), c)
              case Ok(w) => r == Ok(()) && State() == w
              case Err(e) => r == Err(e) && State() == old(State())
    {
      match c {
        case SetMaxUtilizationCall(caller, bps) =>
          var _ :- vault.SetMax(caller, bps);
        case SetFeesCall(caller, openBps, closeBps) =>
          var _ :- manager.SetFees(caller, openBps, closeBps);
        case SetMaxLeverageCall(caller, max) =>
          var _ :- manager.SetLeverage(caller, max);
      }
      r := Ok(());
    }

    method SubmitToEngine(c: Call) returns (r: Result<()>)
      requires Wired() && (c.SetMaintenanceCall? || c.SetPenaltyCall? || c.SetKeeperRewardCall?)
      modifies engine
      ensures match Apply(old(State()), c)
              case Ok(w) => r == Ok(()) && State() == w
              case Err(e) => r == Err(e) && State() == old(State())
    {
      match c {
        case SetMaintenanceCall(caller, bps) =>
          var _ :- engine.SetMaintenance(caller, bps);
        case SetPenaltyCall(caller, bps) =>
          var _ :- engine.SetPenalty(caller, bps);
        case SetKeeperRewardCall(caller, bps) =>
          var _ :- engine.SetReward(caller, bps);
      }
      r := Ok(());
    }

    /** Submit a call: the contracts do what `Exec` says, and report what `Apply` reports. */
    method Submit(c: Call) returns (r: Result<()>)
      requires Valid()
      modifies this, token, oracle, vault, manager, engine, funding
      ensures Valid() && history == old(history) + [c] && State() == Exec(old(State()), c)
      ensures match Apply(old(State()), c)
              case Ok(_) => r == Ok(())
              case Err(e) => r == Err(e)
    {
      if c.DepositCall? || c.WithdrawCall? || c.TransferCall? {
        r := SubmitTransfer(c);
      } else if c.OpenCall? || c.CloseCall? || c.LiquidateCall? {
        r := SubmitTrade(c);
      } else if c.SetPriceCall? || c.SetStalenessCall? || c.PriceExpires? || c.TimePasses? {
        r := SubmitToOracle(c);
      } else if c.ApplyFundingCall? || c.SetIntervalCall? || c.SetMaxRateCall? {
        r := SubmitToFunding(c);
      } else if c.SetMaxUtilizationCall? || c.SetFeesCall? || c.SetMaxLeverageCall? {
        r := SubmitLimit(c);
      } else {
        r := SubmitToEngine(c);
      }
      RunAppend(start, history, c);
      history := history + [c];
    }
  }

  /** So every theorem about runs is one about the running contracts: at any moment their fields
      agree on every book. */
  lemma ContractsAgree(ledger: Ledger, c: Config, usdc: Balances)
    requires ledger.Valid() && Deploy(c, usdc).Ok? && FairStart(usdc)
    requires ledger.start == Deploy(c, usdc).value
    ensures Sound(ledger.State())
  {
    assert ReachedBy(ledger.State(), c, usdc, ledger.history);
    ReachableIsSound(ledger.State());
  }
}
