/** Every setting: who can make it, in which range, that it is then the one in force, and that it
    changes no other. And that a deployment is what making its settings one by one would give. */
module Settings {
  import opened PerpsTypes
  import opened Token
  import opened Oracle
  import opened Protocol
  import opened Isolation

  function CallerOf(c: Call): Account {
    match c
    case SetPriceCall(caller, _, _) => caller
    case SetStalenessCall(caller, _) => caller
    case SetMaxUtilizationCall(caller, _) => caller
    case SetFeesCall(caller, _, _) => caller
    case SetMaxLeverageCall(caller, _) => caller
    case SetMaintenanceCall(caller, _) => caller
    case SetPenaltyCall(caller, _) => caller
    case SetKeeperRewardCall(caller, _) => caller
    case SetIntervalCall(caller, _) => caller
    case SetMaxRateCall(caller, _) => caller
    case _ => 0
  }

  /** The calls by which an administrator makes a setting or a price. */
  predicate IsSetting(c: Call) {
    SignedBy(c, CallerOf(c))
  }

  predicate InRange(c: Call) {
    match c
    case SetPriceCall(_, _, price) => price > 0
    case SetStalenessCall(_, threshold) => threshold > 0
    case SetMaxUtilizationCall(_, bps) => 1 <= bps <= 10_000
    case SetFeesCall(_, openBps, closeBps) => openBps <= 1000 && closeBps <= 1000
    case SetMaxLeverageCall(_, max) => max > 0
    case SetMaintenanceCall(_, bps) => 1 <= bps <= 5000
    case SetPenaltyCall(_, _) => true
    case SetKeeperRewardCall(_, _) => true
    case SetIntervalCall(_, interval) => interval > 0
    case SetMaxRateCall(_, bps) => bps > 0
    case _ => false
  }

  /** What the call would set is what holds in this world, at this time. */
  predicate InForce(w: World, c: Call) {
    var m := w.market;
    match c
    case SetPriceCall(_, asset, price) =>
      asset in m.oracle.prices && m.oracle.prices[asset] == CachedPrice(price, m.now)
    case SetStalenessCall(_, threshold) => m.oracle.stalenessThreshold == threshold
    case SetMaxUtilizationCall(_, bps) => m.vault.maxUtilizationBps == bps
    case SetFeesCall(_, openBps, closeBps) => m.manager.openFeeBps == openBps && m.manager.closeFeeBps == closeBps
    case SetMaxLeverageCall(_, max) => m.manager.maxLeverage == max
    case SetMaintenanceCall(_, bps) => w.engine.maintenanceBps == bps
    case SetPenaltyCall(_, bps) => w.engine.penaltyBps == bps
    case SetKeeperRewardCall(_, bps) => w.engine.keeperBps == bps
    case SetIntervalCall(_, interval) => w.funding.interval == interval
    case SetMaxRateCall(_, bps) => w.funding.maxRateBps == bps
    case _ => true
  }

  /** The two calls set the same thing. */
  predicate SameSlot(c: Call, d: Call) {
    match c
    case SetPriceCall(_, asset, _) => d.SetPriceCall? && d.asset == asset
    case SetStalenessCall(_, _) => d.SetStalenessCall?
    case SetMaxUtilizationCall(_, _) => d.SetMaxUtilizationCall?
    case SetFeesCall(_, _, _) => d.SetFeesCall?
    case SetMaxLeverageCall(_, _) => d.SetMaxLeverageCall?
    case SetMaintenanceCall(_, _) => d.SetMaintenanceCall?
    case SetPenaltyCall(_, _) => d.SetPenaltyCall?
    case SetKeeperRewardCall(_, _) => d.SetKeeperRewardCall?
    case SetIntervalCall(_, _) => d.SetIntervalCall?
    case SetMaxRateCall(_, _) => d.SetMaxRateCall?
    case _ => false
  }

  /** A setting is accepted exactly when the administrator makes it within its range; it is then in
      force. */
  lemma SettingOutcome(w: World, c: Call, admin: Account)
    requires Administers(w, admin) && IsSetting(c)
    ensures var r := Apply(w, c);
            if CallerOf(c) != admin then r == Err(Unauthorized)
            else if !InRange(c) then r == Err(if c.SetPriceCall? then InvalidAmount else InvalidConfig)
            else r.Ok? && InForce(r.value, c)
  {
  }

  /** It leaves every other setting and price as it was, and the administrator and the clock. */
  lemma SettingSetsOnlyItself(w: World, c: Call, d: Call, admin: Account)
    requires Administers(w, admin) && IsSetting(c) && IsSetting(d) && !SameSlot(c, d)
    ensures InForce(Exec(w, c), d) <==> InForce(w, d)
    ensures Administers(Exec(w, c), admin) && Exec(w, c).market.now == w.market.now
  {
  }

  /** The call makes one of the settings of the configuration. */
  predicate Configures(c: Config, d: Call) {
    match d
    case SetStalenessCall(caller, threshold) => caller == c.admin && threshold == c.stalenessThreshold
    case SetMaxUtilizationCall(caller, bps) => caller == c.admin && bps == c.maxUtilizationBps
    case SetFeesCall(caller, openBps, closeBps) =>
      caller == c.admin && openBps == c.openFeeBps && closeBps == c.closeFeeBps
    case SetMaxLeverageCall(caller, max) => caller == c.admin && max == c.maxLeverage
    case SetMaintenanceCall(caller, bps) => caller == c.admin && bps == c.maintenanceBps
    case SetPenaltyCall(caller, bps) => caller == c.admin && bps == c.penaltyBps
    case SetKeeperRewardCall(caller, bps) => caller == c.admin && bps == c.keeperBps
    case SetIntervalCall(caller, interval) => caller == c.admin && interval == c.fundingInterval
    case SetMaxRateCall(caller, bps) => caller == c.admin && bps == c.maxRateBps
    case _ => false
  }

  /** Nobody holds or owes anything yet. */
  predicate IsNew(w: World, c: Config, usdc: Balances) {
    var m := w.market;
    && m.now == c.now && m.token == usdc && m.oracle.prices == map[]
    && m.vault.totalShares == m.vault.totalDeposits == m.vault.locked == 0 && m.vault.shareBalances == map[]
    && m.manager.positions == map[] && m.manager.counts == map[] && m.manager.nextId == 1
    && m.manager.oiLong == m.manager.oiShort == 0 && m.manager.minCollateral == c.minCollateral
    && w.funding.cumulativeLong == w.funding.cumulativeShort == 0
    && w.funding.lastTime == c.now && w.funding.spreadBps == c.spreadBps
  }

  lemma SettingsInRangeIff(c: Config)
    ensures (forall d | Configures(c, d) :: InRange(d)) && c.keeperBps <= c.penaltyBps <==> ConfigAccepted(c)
  {
    if forall d | Configures(c, d) :: InRange(d) {
      assert Configures(c, SetStalenessCall(c.admin, c.stalenessThreshold));
      assert Configures(c, SetMaxUtilizationCall(c.admin, c.maxUtilizationBps));
      assert Configures(c, SetFeesCall(c.admin, c.openFeeBps, c.closeFeeBps));
      assert Configures(c, SetMaxLeverageCall(c.admin, c.maxLeverage));
      assert Configures(c, SetMaintenanceCall(c.admin, c.maintenanceBps));
      assert Configures(c, SetIntervalCall(c.admin, c.fundingInterval));
      assert Configures(c, SetMaxRateCall(c.admin, c.maxRateBps));
    }
  }

  /** A deployment is accepted exactly when each of its settings would be and the keeper reward is
      no more than the penalty; each setting is then in force, under the one administrator. */
  lemma DeploymentOutcome(c: Config, usdc: Balances)
    ensures var accepted := (forall d | Configures(c, d) :: InRange(d)) && c.keeperBps <= c.penaltyBps;
            if !accepted then Deploy(c, usdc) == Err(InvalidConfig)
            else
              && Deploy(c, usdc).Ok?
              && var w := Deploy(c, usdc).value;
                 && IsNew(w, c, usdc) && Administers(w, c.admin)
                 && forall d | Configures(c, d) :: InForce(w, d)
  {
    SettingsInRangeIff(c);
  }
}
