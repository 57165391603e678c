/** Runs of a deployment on which a promise fails: what the exact conditions of the other modules
    exclude does happen. Most use the deployment of the integration tests. */
module Scenarios {
  import opened PerpsTypes
  import opened Token
  import opened Oracle
  import opened Vault
  import opened PositionManager
  import opened Protocol
  import opened Utilization
  import opened FundingSettlement

  const ADMIN: Account := 0
  const LP: Account := 1
  const TRADER: Account := 2

  const SHIPPED_CONFIG :=
    Config(ADMIN, 0, 300, 8000, 10, 10, 30, 100_000_000, 500, 250, 50, 3600, 10, 5)
  const SHIPPED_USDC: Balances :=
    map[VaultContract := 0, User(LP) := 1_000_000_000_000, User(TRADER) := 5_000_000_000]

  function Deployed(c: Config): World
    requires ConfigAccepted(c)
  {
    Deploy(c, SHIPPED_USDC).value
  }

  function Shipped(): World {
    Deployed(SHIPPED_CONFIG)
  }

  /** The deployment accepts the configuration, so these runs are among those of the theorems. */
  lemma ShippedIsDeployed()
    ensures Deploy(SHIPPED_CONFIG, SHIPPED_USDC).Ok? && FairStart(SHIPPED_USDC)
  {
  }

  lemma RunTwo(w: World, a: Call, b: Call)
    ensures Run(w, [a, b]) == Exec(Exec(w, a), b)
  {
    RunAppend(w, [a], b);
    assert [a] + [b] == [a, b];
    assert [a][1..] == [];
  }

  /** The LP funds the pool, and the oracle's admin sets a price. */
  function Fund(amount: int, price: int): seq<Call> {
    [DepositCall(LP, amount), SetPriceCall(ADMIN, 0, price)]
  }

  function Funded(c: Config, amount: int, price: int): Market {
    Market(
      0,
      map[VaultContract := amount, User(LP) := 1_000_000_000_000 - amount, User(TRADER) := 5_000_000_000],
      OracleState(ADMIN, c.stalenessThreshold, map[0 := CachedPrice(price, 0)]),
      VaultState(ADMIN, amount, amount, 0, c.maxUtilizationBps, map[LP := amount]),
      ManagerState(
        ADMIN, c.openFeeBps, c.closeFeeBps, c.maxLeverage, c.minCollateral, 1, 0, 0, map[], map[]))
  }

  lemma PoolIsFunded(c: Config, amount: int, price: int)
    requires ConfigAccepted(c) && c.admin == ADMIN && c.now == 0
    requires 0 < amount <= 1_000_000_000_000 && price > 0
    ensures Run(Deployed(c), Fund(amount, price)) == Deployed(c).(market := Funded(c, amount, price))
  {
    RunTwo(Deployed(c), Fund(amount, price)[0], Fund(amount, price)[1]);
  }

  /** The same pool with one open long of this collateral, leverage, size and open fee. */
  function Opened(m: Market, d: int, price: int, collateral: int, leverage: nat, size: int, fee: int): Market {
    Market(
      0,
      m.token[User(TRADER) := 5_000_000_000 - (collateral + fee)][VaultContract := d + (collateral + fee)],
      m.oracle,
      m.vault.(totalDeposits := d + fee, locked := size),
      m.manager.(
        nextId := 2, oiLong := size,
        positions := m.manager.positions[PositionKey(TRADER, 1) :=
          Position(1, TRADER, 0, Long, size, collateral, price, leverage, 0, 0)],
        counts := m.manager.counts[TRADER := 1]))
  }

  predicate OpensLong(c: Config, d: int, price: int, collateral: int, leverage: nat, size: int, fee: int) {
    OpenPosition(Funded(c, d, price), TRADER, 0, Long, collateral, leverage)
    == Ok((Opened(Funded(c, d, price), d, price, collateral, leverage, size, fee), 1))
  }

  lemma LongIsOpened(c: Config, d: int, price: int, collateral: int, leverage: nat, size: int, fee: int)
    requires ConfigAccepted(c) && c.admin == ADMIN && c.now == 0
    requires 0 < d <= 1_000_000_000_000 && price > 0
    requires OpensLong(c, d, price, collateral, leverage, size, fee)
    ensures Run(Deployed(c), Fund(d, price) + [OpenCall(TRADER, 0, Long, collateral, leverage)])
            == Deployed(c).(market := Opened(Funded(c, d, price), d, price, collateral, leverage, size, fee))
  {
    PoolIsFunded(c, d, price);
    RunAppend(Deployed(c), Fund(d, price), OpenCall(TRADER, 0, Long, collateral, leverage));
  }

  const PRICE := 10_000_000_000

  /** The market after the admin has set another price, at the same time. */
  function Repriced(m: Market, price: int): Market {
    m.(oracle := m.oracle.(prices := m.oracle.prices[0 := CachedPrice(price, m.now)]))
  }

  lemma Reprices(w: World, price: int)
    requires w.market.oracle.admin == ADMIN && price > 0
    ensures Exec(w, SetPriceCall(ADMIN, 0, price)) == w.(market := Repriced(w.market, price))
  {
  }

  lemma TimeGoesBy(w: World, seconds: nat)
    ensures Exec(w, TimePasses(seconds)) == w.(market := w.market.(now := w.market.now + seconds))
  {
  }

  // The shipped loss-cap scenario: 100 USDC at 10x, closed after the price has halved.

  const LOSS_OPENS := Fund(1_000_000_000_000, PRICE) + [OpenCall(TRADER, 0, Long, 1_000_000_000, 10)]
  const LOSS_OPEN :=
    Opened(Funded(SHIPPED_CONFIG, 1_000_000_000_000, PRICE),
      1_000_000_000_000, PRICE, 1_000_000_000, 10, 10_000_000_000, 10_000_000)
  const LOSS_HALVES := LOSS_OPENS + [SetPriceCall(ADMIN, 0, 5_000_000_000)]
  const LOSS_CALLS := LOSS_HALVES + [CloseCall(TRADER, 1, 0)]

  lemma ShippedScenarioOpens()
    ensures Run(Shipped(), LOSS_OPENS) == Shipped().(market := LOSS_OPEN)
  {
    LongIsOpened(
      SHIPPED_CONFIG, 1_000_000_000_000, PRICE, 1_000_000_000, 10, 10_000_000_000, 10_000_000);
  }

  lemma ShippedScenarioHalves()
    ensures Run(Shipped(), LOSS_HALVES).market == Repriced(LOSS_OPEN, 5_000_000_000)
  {
    ShippedScenarioOpens();
    RunAppend(Shipped(), LOSS_OPENS, SetPriceCall(ADMIN, 0, 5_000_000_000));
    Reprices(Shipped().(market := LOSS_OPEN), 5_000_000_000);
  }

  lemma ShippedScenarioCloses(w: World)
    requires w.market == Repriced(LOSS_OPEN, 5_000_000_000)
    ensures var m := Exec(w, CloseCall(TRADER, 1, 0)).market;
            && m.manager.positions == map[]
            && m.vault.totalDeposits == 100_102 * DECIMALS
            && BalanceOf(m.token, VaultContract) == 100_101 * DECIMALS
            && BalanceOf(m.token, User(TRADER)) == 399 * DECIMALS
  {
    assert PricePnl(w.market, w.market.manager.positions[PositionKey(TRADER, 1)]) == Ok(-1_000_000_000);
  }

  /** Solvency is not automatic: in the shipped scenario the pool books 100102 USDC while the
      vault holds 100101. */
  lemma ShippedScenarioIsShort()
    ensures Deploy(SHIPPED_CONFIG, SHIPPED_USDC).Ok? && FairStart(SHIPPED_USDC)
    ensures var m := Run(Shipped(), LOSS_CALLS).market;
            && m.manager.positions == map[]
            && m.vault.totalDeposits == 100_102 * DECIMALS
            && BalanceOf(m.token, VaultContract) == 100_101 * DECIMALS
            && BalanceOf(m.token, User(TRADER)) == 399 * DECIMALS
  {
    ShippedIsDeployed();
    ShippedScenarioHalves();
    ShippedScenarioCloses(Run(Shipped(), LOSS_HALVES));
    RunAppend(Shipped(), LOSS_HALVES, CloseCall(TRADER, 1, 0));
  }

  /** Nor is a shortfall final: a donation of 1 USDC makes the same pool whole. */
  lemma DonationMakesWhole()
    ensures var m := Run(Shipped(), LOSS_CALLS + [TransferCall(TRADER, VaultContract, DECIMALS)]).market;
            && m.manager.positions == map[]
            && m.vault.totalDeposits == BalanceOf(m.token, VaultContract) == 100_102 * DECIMALS
  {
    ShippedScenarioIsShort();
    RunAppend(Shipped(), LOSS_CALLS, TransferCall(TRADER, VaultContract, DECIMALS));
  }

  // The same long, charged an hour's funding that its close does not settle.

  const HOUR_CALLS := LOSS_OPENS + [TimePasses(3600)]
  const PRICED_CALLS := HOUR_CALLS + [SetPriceCall(ADMIN, 0, PRICE)]
  const CHARGED_CALLS := PRICED_CALLS + [ApplyFundingCall]
  const HOUR_LATER := Shipped().(market := LOSS_OPEN.(now := 3600))
  const PRICED := HOUR_LATER.(market := Repriced(HOUR_LATER.market, PRICE))
  const CHARGED :=
    PRICED.(funding := Shipped().funding.(cumulativeLong := 15, cumulativeShort := -5, lastTime := 3600))

  lemma HourPasses()
    ensures Run(Shipped(), HOUR_CALLS) == HOUR_LATER
  {
    ShippedScenarioOpens();
    TimeGoesBy(Shipped().(market := LOSS_OPEN), 3600);
    RunAppend(Shipped(), LOSS_OPENS, TimePasses(3600));
  }

  lemma PriceIsRenewed()
    ensures Run(Shipped(), PRICED_CALLS) == PRICED
  {
    HourPasses();
    RunAppend(Shipped(), HOUR_CALLS, SetPriceCall(ADMIN, 0, PRICE));
    Reprices(HOUR_LATER, PRICE);
  }

  lemma FundingIsCharged()
    ensures Run(Shipped(), CHARGED_CALLS) == CHARGED
  {
    PriceIsRenewed();
    RunAppend(Shipped(), PRICED_CALLS, ApplyFundingCall);
  }

  lemma ChargedCloses(w: World)
    requires w == CHARGED
    ensures BalanceOf(Exec(w, CloseCall(TRADER, 1, 0)).market.token, User(TRADER)) == 4_980_000_000
  {
    assert PricePnl(w.market, w.market.manager.positions[PositionKey(TRADER, 1)]) == Ok(0);
  }

  /** The long owes 1.5 USDC of funding since it opened, and its close at the entry price takes only
      the fee of 1 USDC. */
  lemma FundingIsNotSettled()
    ensures var w := Run(Shipped(), CHARGED_CALLS);
            && PositionKey(TRADER, 1) in w.market.manager.positions
            && var p := w.market.manager.positions[PositionKey(TRADER, 1)];
               && FundingDue(w.funding, p, p.fundingIndex) == 15_000_000
               && BalanceOf(w.market.token, User(TRADER)) + p.collateral == 4_990_000_000
    ensures BalanceOf(Run(Shipped(), CHARGED_CALLS + [CloseCall(TRADER, 1, 0)]).market.token, User(TRADER))
            == 4_980_000_000
  {
    FundingIsCharged();
    ChargedCloses(CHARGED);
    RunAppend(Shipped(), CHARGED_CALLS, CloseCall(TRADER, 1, 0));
  }

  // An hour's funding at the default rates that both sides pay.

  const LONG_CALLS := Fund(1_000_000_000_000, PRICE) + [OpenCall(TRADER, 0, Long, 1_000_100_000, 1)]
  const LONG_OPEN :=
    Opened(Funded(SHIPPED_CONFIG, 1_000_000_000_000, PRICE),
      1_000_000_000_000, PRICE, 1_000_100_000, 1, 1_000_100_000, 1_000_100)
  const EVEN_CALLS := LONG_CALLS + [OpenCall(TRADER, 0, Short, 999_900_000, 1)]

  lemma NearlyEvenLongOpens()
    ensures Run(Shipped(), LONG_CALLS) == Shipped().(market := LONG_OPEN)
  {
    LongIsOpened(SHIPPED_CONFIG, 1_000_000_000_000, PRICE, 1_000_100_000, 1, 1_000_100_000, 1_000_100);
  }

  /** The open interest is nearly even, and funding has not been applied yet. */
  predicate NearlyEven(w: World, now: nat) {
    && w.funding == Shipped().funding && w.market.now == now
    && w.market.manager.oiLong == 1_000_100_000 && w.market.manager.oiShort == 999_900_000
  }

  lemma NearlyEvenShortOpens(m: Market)
    requires m == LONG_OPEN
    ensures var r := OpenPosition(m, TRADER, 0, Short, 999_900_000, 1);
            && r.Ok? && r.value.0.now == 0
            && r.value.0.manager.oiLong == 1_000_100_000 && r.value.0.manager.oiShort == 999_900_000
  {
    assert LockLiquidity(m.vault, 999_900_000).Ok?;
  }

  lemma NearlyEvenOpens()
    ensures NearlyEven(Run(Shipped(), EVEN_CALLS), 0)
  {
    NearlyEvenLongOpens();
    NearlyEvenShortOpens(LONG_OPEN);
    RunAppend(Shipped(), LONG_CALLS, OpenCall(TRADER, 0, Short, 999_900_000, 1));
  }

  lemma NearlyEvenIsCharged(w: World)
    requires NearlyEven(w, 3600)
    ensures var f := Exec(w, ApplyFundingCall).funding; f.cumulativeLong == 6 && f.cumulativeShort == 4
  {
  }

  /** At the default rates, with open interest this close to even, both indices grow: both sides are
      charged and nobody receives. */
  lemma BothSidesPayAtDefaults()
    ensures var w := Run(Shipped(), EVEN_CALLS + [TimePasses(3600)] + [ApplyFundingCall]);
            w.funding.cumulativeLong == 6 && w.funding.cumulativeShort == 4
  {
    NearlyEvenOpens();
    RunAppend(Shipped(), EVEN_CALLS, TimePasses(3600));
    NearlyEvenIsCharged(Run(Shipped(), EVEN_CALLS + [TimePasses(3600)]));
    RunAppend(Shipped(), EVEN_CALLS + [TimePasses(3600)], ApplyFundingCall);
  }

  // Runs past the utilization limit of 80%.

  const TINY_CALLS := Fund(1, PRICE) + [OpenCall(TRADER, 0, Long, 268_435_456, 1)]

  lemma TinyPoolOpens()
    ensures Run(Shipped(), TINY_CALLS)
            == Shipped().(market :=
                 Opened(Funded(SHIPPED_CONFIG, 1, PRICE), 1, PRICE, 268_435_456, 1, 268_435_456, 268_435))
  {
    LongIsOpened(SHIPPED_CONFIG, 1, PRICE, 268_435_456, 1, 268_435_456, 268_435);
  }

  /** In a pool of one unit, a lock of 2^28 units passes the check, because its utilization is a
      multiple of 2^32. */
  lemma LimitCanBePassed()
    ensures var v := Run(Shipped(), TINY_CALLS).market.vault;
            && v.locked == 268_435_456 && v.totalDeposits == 268_436
            && !WithinLimit(v, 8000)
  {
    TinyPoolOpens();
  }

  /** An empty pool counts as not utilized, so any position opens on it. */
  lemma EmptyPoolPassesLimit()
    ensures var v := Run(Shipped(), [
              SetPriceCall(ADMIN, 0, PRICE),
              OpenCall(TRADER, 0, Long, 1_000_000_000, 1)]).market.vault;
            && v.locked == 1_000_000_000 && v.totalDeposits == 1_000_000
            && !WithinLimit(v, 8000)
  {
    RunTwo(Shipped(), SetPriceCall(ADMIN, 0, PRICE), OpenCall(TRADER, 0, Long, 1_000_000_000, 1));
  }

  const HALF_CALLS := Fund(1_000_000_000, PRICE) + [OpenCall(TRADER, 0, Long, 536_870_912, 1)]
  const HALF_LOCKED :=
    Opened(Funded(SHIPPED_CONFIG, 1_000_000_000, PRICE), 1_000_000_000, PRICE, 536_870_912, 1, 536_870_912, 536_870)

  lemma HalfIsLocked()
    ensures Run(Shipped(), HALF_CALLS).market == HALF_LOCKED
  {
    LongIsOpened(SHIPPED_CONFIG, 1_000_000_000, PRICE, 536_870_912, 1, 536_870_912, 536_870);
  }

  lemma AllButOneShareLeaves(w: World)
    requires w.market == HALF_LOCKED
    ensures var v := Exec(w, WithdrawCall(LP, 999_999_999)).market.vault;
            v.locked == 536_870_912 && v.totalDeposits == 2 && v.totalShares == 1
  {
  }

  /** An LP withdraws all but one share from behind a position, and leaves two units in the pool. */
  lemma WithdrawalPassesLimit()
    ensures var v := Run(Shipped(), HALF_CALLS + [WithdrawCall(LP, 999_999_999)]).market.vault;
            && v.locked == 536_870_912 && v.totalDeposits == 2 && v.totalShares == 1
            && !WithinLimit(v, 8000)
  {
    HalfIsLocked();
    AllButOneShareLeaves(Run(Shipped(), HALF_CALLS));
    RunAppend(Shipped(), HALF_CALLS, WithdrawCall(LP, 999_999_999));
  }

  // Winners whom the pool cannot pay.

  const WINNER_CALLS := Fund(1_000_000_000, PRICE) + [OpenCall(TRADER, 0, Long, 100_000_000, 7)]
  const WINNER_OPEN :=
    Opened(Funded(SHIPPED_CONFIG, 1_000_000_000, PRICE), 1_000_000_000, PRICE, 100_000_000, 7, 700_000_000, 700_000)

  lemma WinnerIsOpened()
    ensures Run(Shipped(), WINNER_CALLS).market == WINNER_OPEN
  {
    LongIsOpened(SHIPPED_CONFIG, 1_000_000_000, PRICE, 100_000_000, 7, 700_000_000, 700_000);
  }

  lemma WinnerCannotClose(m: Market)
    requires m == Repriced(WINNER_OPEN, 30_000_000_000)
    ensures WithinLimit(m.vault, 8000)
    ensures ClosePosition(m, TRADER, 1, 0) == Err(InsufficientLiquidity)
  {
    assert PricePnl(m, m.manager.positions[PositionKey(TRADER, 1)]) == Ok(1_400_000_000);
  }

  /** The pool is within its limit when the price of a 7x long triples; the long cannot be closed. */
  lemma BigWinnerIsNotPaid()
    ensures var m := Run(Shipped(), WINNER_CALLS + [SetPriceCall(ADMIN, 0, 30_000_000_000)]).market;
            WithinLimit(m.vault, 8000) && ClosePosition(m, TRADER, 1, 0) == Err(InsufficientLiquidity)
  {
    var triple := SetPriceCall(ADMIN, 0, 30_000_000_000);
    WinnerIsOpened();
    RunAppend(Shipped(), WINNER_CALLS, triple);
    Reprices(Run(Shipped(), WINNER_CALLS), 30_000_000_000);
    WinnerCannotClose(Run(Shipped(), WINNER_CALLS + [triple]).market);
  }

  /** A deployment that accepts full utilization, without a close fee or a minimum collateral. */
  const FULL_CONFIG := SHIPPED_CONFIG.(maxUtilizationBps := 10_000, closeFeeBps := 0, minCollateral := 1)
  const FULL_OPENS := Fund(24_980, 10) + [OpenCall(TRADER, 0, Long, 20_001, 1)]
  const FULL_OPEN := Opened(Funded(FULL_CONFIG, 24_980, 10), 24_980, 10, 20_001, 1, 20_001, 20)
  const FULL_SHRINKS := FULL_OPENS + [WithdrawCall(LP, 4_996)]

  lemma FullPoolOpens()
    ensures Run(Deployed(FULL_CONFIG), FULL_OPENS).market == FULL_OPEN
  {
    LongIsOpened(FULL_CONFIG, 24_980, 10, 20_001, 1, 20_001, 20);
  }

  lemma FullPoolShrinks()
    ensures var m := Run(Deployed(FULL_CONFIG), FULL_SHRINKS).market;
            && m.vault.locked == 20_001 && m.vault.totalDeposits == 20_000 && m.vault.maxUtilizationBps == 10_000
            && m.oracle == FULL_OPEN.oracle && m.now == 0 && m.manager == FULL_OPEN.manager
  {
    FullPoolOpens();
    RunAppend(Deployed(FULL_CONFIG), FULL_OPENS, WithdrawCall(LP, 4_996));
  }

  /** At a limit of 100% the promise fails even for a position that wins no more than its size: the
      check rounds down, so one unit more can be locked than the pool holds. */
  lemma FullUtilizationIsTooMuch()
    ensures Deploy(FULL_CONFIG, SHIPPED_USDC).Ok?
    ensures var m := Run(Deployed(FULL_CONFIG), FULL_SHRINKS + [SetPriceCall(ADMIN, 0, 20)]).market;
            && WithinLimit(m.vault, 10_000)
            && PositionKey(TRADER, 1) in m.manager.positions
            && WinWithinSize(m, m.manager.positions[PositionKey(TRADER, 1)])
            && ClosePosition(m, TRADER, 1, 0) == Err(InsufficientLiquidity)
  {
    FullPoolShrinks();
    var w := Run(Deployed(FULL_CONFIG), FULL_SHRINKS);
    RunAppend(Deployed(FULL_CONFIG), FULL_SHRINKS, SetPriceCall(ADMIN, 0, 20));
    Reprices(w, 20);
    var m := Repriced(w.market, 20);
    assert PricePnl(m, m.manager.positions[PositionKey(TRADER, 1)]) == Ok(20_001);
  }

  // An open fee of zero, which the admin may set.

  const FREE_CALLS := Fund(1_000_000_000_000, PRICE) + [SetFeesCall(ADMIN, 0, 10)]
  const FUNDED := Funded(SHIPPED_CONFIG, 1_000_000_000_000, PRICE)
  const FREE := FUNDED.(manager := FUNDED.manager.(openFeeBps := 0, closeFeeBps := 10))

  lemma OpenFeeIsDropped(w: World)
    requires w.market == FUNDED
    ensures Exec(w, SetFeesCall(ADMIN, 0, 10)).market == FREE
  {
  }

  lemma OpeningIsFree()
    ensures Run(Shipped(), FREE_CALLS).market == FREE
  {
    PoolIsFunded(SHIPPED_CONFIG, 1_000_000_000_000, PRICE);
    OpenFeeIsDropped(Run(Shipped(), Fund(1_000_000_000_000, PRICE)));
    RunAppend(Shipped(), Fund(1_000_000_000_000, PRICE), SetFeesCall(ADMIN, 0, 10));
  }

  lemma FreeOpeningIsRefused(w: World)
    requires w.market == FREE
    ensures Apply(w, OpenCall(TRADER, 0, Long, 1_000_000_000, 10)) == Err(InvalidAmount)
  {
  }

  /** After it no position opens, because the vault does not collect a fee of nothing. */
  lemma FreeOpeningFails()
    ensures var w := Run(Shipped(), FREE_CALLS);
            && w.market.manager.openFeeBps == 0
            && Apply(w, OpenCall(TRADER, 0, Long, 1_000_000_000, 10)) == Err(InvalidAmount)
  {
    OpeningIsFree();
    FreeOpeningIsRefused(Run(Shipped(), FREE_CALLS));
  }
}
