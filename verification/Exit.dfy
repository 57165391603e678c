/** Everyone can leave: from a covered pool all positions can be ended, in any order, and then all
    LPs can redeem, in any order. */
module Exit {
  import opened PerpsTypes
  import opened Arithmetic
  import opened MapSums
  import opened Shares
  import opened PositionMath
  import opened Token
  import opened Oracle
  import opened Vault
  import opened PositionManager
  import opened LiquidationEngine
  import opened Protocol
  import opened Books
  import opened Solvency
  import opened Utilization

  /** No call of the run fails, except with one of these errors. */
  predicate FailsOnlyWith(w: World, calls: seq<Call>, errors: set<PerpsError>)
    decreases |calls|
  {
    calls == []
    || (match Apply(w, calls[0])
        case Ok(w') => FailsOnlyWith(w', calls[1..], errors)
        case Err(e) => e in errors && FailsOnlyWith(w, calls[1..], errors))
  }

  /** The call closes a position at a fresh price, winning at most its size, or liquidates one that
      the engine calls liquidatable. */
  predicate MayEnd(w: World, c: Call) {
    && (c.CloseCall? || c.LiquidateCall?)
    && PositionKey(c.trader, c.id) in w.market.manager.positions
    && var p := w.market.manager.positions[PositionKey(c.trader, c.id)];
       && p.asset == c.asset
       && (if c.CloseCall? then GetPriceValue(w.market.oracle, w.market.now, p.asset).Ok? && WinWithinSize(w.market, p)
           else IsLiquidatable(w.engine, w.market, c.trader, c.id, c.asset) == Ok(true))
  }

  /** The calls end these positions, each once, in some order. */
  predicate EndsEach(ps: Positions, calls: seq<Call>)
    decreases |calls|
  {
    if calls == [] then ps == map[]
    else
      var c := calls[0];
      && (c.CloseCall? || c.LiquidateCall?)
      && PositionKey(c.trader, c.id) in ps
      && EndsEach(ps - {PositionKey(c.trader, c.id)}, calls[1..])
  }

  lemma SettlingKeepsCovered(m: Market, key: PositionKey, pnl: int, fee: int, m': Market)
    requires Settles(m, key, pnl, fee, m') && Covered(m)
    requires var p := m.manager.positions[key]; p.size > 0 && p.collateral > 0 && pnl - fee <= p.size
    ensures Covered(m')
  {
    SettlementMovesSurplus(m, key, pnl, fee, m');
  }

  /** In a covered pool an ending goes through, and leaves the pool covered. */
  lemma EndingGoesThrough(w: World, c: Call)
    requires Sound(w) && Covered(w.market) && MayEnd(w, c)
    ensures Apply(w, c).Ok? || Apply(w, c) == Err(ArithmeticTrap)
  {
    var key := PositionKey(c.trader, c.id);
    if c.CloseCall? {
      CloseGoesThrough(w.market, key);
    } else {
      LiquidationGoesThrough(w.engine, w.market, key);
    }
  }

  /** What an ending leaves as it was. */
  predicate OnlyEnds(w: World, key: PositionKey, w': World) {
    && w'.engine == w.engine && w'.funding == w.funding
    && w'.market.oracle == w.market.oracle && w'.market.now == w.market.now
    && w'.market.manager.closeFeeBps == w.market.manager.closeFeeBps
    && w'.market.manager.positions == w.market.manager.positions - {key}
    && w'.market.vault.shareBalances == w.market.vault.shareBalances
    && w'.market.vault.totalShares == w.market.vault.totalShares
  }

  lemma EndingOnlyEnds(w: World, c: Call)
    requires (c.CloseCall? || c.LiquidateCall?) && Apply(w, c).Ok?
    ensures OnlyEnds(w, PositionKey(c.trader, c.id), Apply(w, c).value)
  {
    var key, pnl, fee := SettlementOf(w, c);
  }

  lemma EndingWinsLittle(w: World, c: Call)
    requires Sound(w) && MayEnd(w, c) && Apply(w, c).Ok?
    ensures var p := w.market.manager.positions[PositionKey(c.trader, c.id)];
            PricePnl(w.market, p).Ok?
            && PricePnl(w.market, p).value
               - (if c.CloseCall? then CalculateFee(p.size, w.market.manager.closeFeeBps) else 0) <= p.size
  {
    if c.CloseCall? {
      var key, pnl, fee := SettlementOf(w, c);
    } else {
      LiquidationSettlesLittle(w, c);
    }
  }

  lemma EndingKeepsCovered(w: World, c: Call)
    requires Sound(w) && Covered(w.market) && MayEnd(w, c) && Apply(w, c).Ok?
    ensures Covered(Apply(w, c).value.market)
  {
    var key, pnl, fee := SettlementOf(w, c);
    EndingWinsLittle(w, c);
    assert PositionSound(key, w.market.manager.positions[key], w.market.manager.nextId);
    SettlingKeepsCovered(w.market, key, pnl, fee, Apply(w, c).value.market);
  }

  /** What may end may still end after another position has ended. */
  lemma MayEndPersists(w: World, key: PositionKey, w': World, c: Call)
    requires OnlyEnds(w, key, w') && MayEnd(w, c) && PositionKey(c.trader, c.id) != key
    ensures MayEnd(w', c)
  {
  }

  /** The positions among `ps` are open, and the calls may end them. */
  ghost predicate MayEndEach(w: World, ps: Positions, calls: seq<Call>) {
    && EndsEach(ps, calls)
    && (forall k | k in ps :: k in w.market.manager.positions)
    && (forall c | c in calls :: MayEnd(w, c))
  }

  lemma EndsOnlyThese(ps: Positions, calls: seq<Call>, c: Call)
    requires EndsEach(ps, calls) && c in calls && (c.CloseCall? || c.LiquidateCall?)
    ensures PositionKey(c.trader, c.id) in ps
    decreases |calls|
  {
    if c != calls[0] {
      assert c in calls[1..];
      EndsOnlyThese(ps - {PositionKey(calls[0].trader, calls[0].id)}, calls[1..], c);
    }
  }

  lemma RestMayEnd(w: World, ps: Positions, calls: seq<Call>, w': World)
    requires calls != [] && MayEndEach(w, ps, calls)
    requires w' == w || OnlyEnds(w, PositionKey(calls[0].trader, calls[0].id), w')
    ensures MayEndEach(w', ps - {PositionKey(calls[0].trader, calls[0].id)}, calls[1..])
  {
    var key := PositionKey(calls[0].trader, calls[0].id);
    forall c | c in calls[1..]
      ensures MayEnd(w', c)
    {
      assert c in calls;
      EndsOnlyThese(ps - {key}, calls[1..], c);
      if w' != w {
        MayEndPersists(w, key, w', c);
      }
    }
  }

  lemma RemoveOneThenRest(open: Positions, ps: Positions, key: PositionKey)
    requires key in ps
    ensures (open - {key}) - (ps - {key}).Keys == open - ps.Keys
  {
  }

  /** One ending of a run of endings, and what it leaves for the rest. */
  lemma EndingStep(w: World, ps: Positions, calls: seq<Call>)
    requires Sound(w) && Covered(w.market) && calls != [] && MayEndEach(w, ps, calls)
    ensures var c, w1 := calls[0], Exec(w, calls[0]);
            var key := PositionKey(c.trader, c.id);
            && Sound(w1) && Covered(w1.market) && MayEndEach(w1, ps - {key}, calls[1..])
            && (Apply(w, c) == Ok(w1) || (Apply(w, c) == Err(ArithmeticTrap) && w1 == w))
            && (Apply(w, c).Ok? ==> w1.market.manager.positions == w.market.manager.positions - {key})
            && w1.market.vault.shareBalances == w.market.vault.shareBalances
            && w1.market.vault.totalShares == w.market.vault.totalShares
  {
    var c := calls[0];
    assert MayEnd(w, c);
    EndingGoesThrough(w, c);
    if Apply(w, c).Ok? {
      EndingOnlyEnds(w, c);
      EndingKeepsCovered(w, c);
    }
    RestMayEnd(w, ps, calls, Exec(w, c));
    CallKeepsSettings(w, c);
    CallKeepsMarket(w, c);
  }

  /** From a covered pool, endings in any order go through unless a number overflows; what they end
      is gone, and the shares are as they were. */
  lemma {:induction false} EndingsGoThrough(w: World, ps: Positions, calls: seq<Call>)
    requires Sound(w) && Covered(w.market) && MayEndEach(w, ps, calls)
    ensures FailsOnlyWith(w, calls, {ArithmeticTrap})
    ensures FailsOnlyWith(w, calls, {})
            ==> Run(w, calls).market.manager.positions == w.market.manager.positions - ps.Keys
    ensures Run(w, calls).market.vault.shareBalances == w.market.vault.shareBalances
    ensures Run(w, calls).market.vault.totalShares == w.market.vault.totalShares
    decreases |calls|
  {
    if calls != [] {
      var key := PositionKey(calls[0].trader, calls[0].id);
      var w1, ps1 := Exec(w, calls[0]), ps - {key};
      EndingStep(w, ps, calls);
      EndingsGoThrough(w1, ps1, calls[1..]);
      RemoveOneThenRest(w.market.manager.positions, ps, key);
    }
  }

  /** The calls redeem these balances, each whole and once, in some order. */
  predicate RedeemsEach(balances: map<Account, int>, calls: seq<Call>)
    decreases |calls|
  {
    if calls == [] then forall lp | lp in balances :: balances[lp] == 0
    else
      var c := calls[0];
      && c.WithdrawCall? && c.lp in balances && c.shares == balances[c.lp] > 0
      && RedeemsEach(balances - {c.lp}, calls[1..])
  }

  /** With nothing locked, the check of what remains passes. */
  lemma NothingLockedPassesCheck(v: VaultState, deposits: int)
    requires v.locked == 0
    ensures CheckRemaining(v, deposits) == Ok(())
  {
    if deposits > 0 {
      TDivOfZero(deposits);
    }
  }

  lemma UnlockedWithdrawalErrors(v: VaultState, t: Balances, lp: Account, shares: int)
    requires v.locked == 0 && 0 < shares <= ShareBalance(v, lp)
    ensures var r := Withdraw(v, t, lp, shares);
            r.Ok? || r == Err(ArithmeticTrap) || r == Err(ZeroShares) || r == Err(TransferTrap)
  {
    NothingLockedPassesCheck(v, v.totalDeposits - CalcWithdrawalAmount(shares, v.totalShares, v.totalDeposits));
  }

  /** With nothing locked and no USDC missing, an LP can redeem any part of its balance, unless it
      is worth less than one unit or a number overflows. */
  lemma UnlockedWithdrawalGoesThrough(m: Market, lp: Account, shares: int)
    requires MarketSound(m) && m.vault.locked == 0 && Surplus(m) >= 0
    requires 0 < shares <= ShareBalance(m.vault, lp)
    ensures var r := Withdraw(m.vault, m.token, lp, shares);
            r.Ok? || r == Err(ArithmeticTrap) || r == Err(ZeroShares)
  {
    UnlockedWithdrawalErrors(m.vault, m.token, lp, shares);
    WithdrawalIsPaid(m, lp, shares);
  }

  /** The vault can be redeemed from: nothing is locked and no USDC is missing. */
  ghost predicate Redeemable(m: Market) {
    m.vault.locked == 0 && Surplus(m) >= 0
  }

  /** A pool without shares holds no deposits. */
  predicate LeavesNothing(v: VaultState) {
    v.totalShares == 0 ==> v.totalDeposits == 0
  }

  predicate HasBalances(v: VaultState, balances: map<Account, int>) {
    forall lp | lp in balances :: ShareBalance(v, lp) == balances[lp]
  }

  /** In `v'` these balances are gone, and all others are what they were in `v`. */
  ghost predicate Redeemed(v: VaultState, balances: map<Account, int>, v': VaultState) {
    forall lp :: ShareBalance(v', lp) == (if lp in balances then 0 else ShareBalance(v, lp))
  }

  /** A withdrawal of a whole balance, and what it leaves of the vault. */
  lemma WholeWithdrawal(v: VaultState, t: Balances, lp: Account)
    requires ShareBook(v) && Withdraw(v, t, lp, ShareBalance(v, lp)).Ok?
    ensures var v' := Withdraw(v, t, lp, ShareBalance(v, lp)).value.vault;
            && v'.locked == v.locked && LeavesNothing(v')
            && ShareBalance(v', lp) == 0
            && (forall other | other != lp :: ShareBalance(v', other) == ShareBalance(v, other))
  {
    WithdrawKeepsShares(v, t, lp, ShareBalance(v, lp));
  }

  /** One redemption of a run of redemptions, and what it leaves for the rest. */
  lemma RedemptionStep(w: World, balances: map<Account, int>, calls: seq<Call>)
    requires Sound(w) && Redeemable(w.market)
    requires calls != [] && RedeemsEach(balances, calls) && HasBalances(w.market.vault, balances)
    ensures var c, w1 := calls[0], Exec(w, calls[0]);
            && Sound(w1) && Redeemable(w1.market)
            && (if Apply(w, c).Ok? then
                  LeavesNothing(w1.market.vault) && ShareBalance(w1.market.vault, c.lp) == 0
                  && (forall lp | lp != c.lp ::
                        ShareBalance(w1.market.vault, lp) == ShareBalance(w.market.vault, lp))
                else w1 == w && (Apply(w, c) == Err(ArithmeticTrap) || Apply(w, c) == Err(ZeroShares)))
  {
    var c := calls[0];
    UnlockedWithdrawalGoesThrough(w.market, c.lp, c.shares);
    if Apply(w, c).Ok? {
      TransferringCallMovesSurplus(w, c);
      WholeWithdrawal(w.market.vault, w.market.token, c.lp);
    }
    CallKeepsSettings(w, c);
    CallKeepsMarket(w, c);
  }

  lemma RedeemedStep(v: VaultState, balances: map<Account, int>, lp: Account, v1: VaultState, v2: VaultState)
    requires lp in balances && Redeemed(v1, balances - {lp}, v2)
    requires ShareBalance(v1, lp) == 0
    requires forall other | other != lp :: ShareBalance(v1, other) == ShareBalance(v, other)
    ensures Redeemed(v, balances, v2)
  {
  }

  /** Then redemptions in any order go through, but for amounts that round to zero or overflow, and
      leave every LP they name with no shares. */
  lemma {:induction false} RedemptionsGoThrough(w: World, balances: map<Account, int>, calls: seq<Call>)
    requires Sound(w) && Redeemable(w.market)
    requires RedeemsEach(balances, calls) && HasBalances(w.market.vault, balances)
    ensures FailsOnlyWith(w, calls, {ArithmeticTrap, ZeroShares})
    ensures FailsOnlyWith(w, calls, {}) ==> Redeemed(w.market.vault, balances, Run(w, calls).market.vault)
    ensures LeavesNothing(w.market.vault) ==> LeavesNothing(Run(w, calls).market.vault)
    decreases |calls|
  {
    if calls != [] {
      var c, w1 := calls[0], Exec(w, calls[0]);
      RedemptionStep(w, balances, calls);
      RedemptionsGoThrough(w1, balances - {c.lp}, calls[1..]);
      if FailsOnlyWith(w, calls, {}) {
        RedeemedStep(w.market.vault, balances, c.lp, w1.market.vault, Run(w, calls).market.vault);
      }
    }
  }

  /** When every balance is gone, so is the pool. */
  lemma NoBalancesNoPool(v: VaultState)
    requires ShareBook(v) && LeavesNothing(v) && forall lp :: ShareBalance(v, lp) == 0
    ensures v.totalShares == 0 && v.totalDeposits == 0
  {
    forall lp | lp in v.shareBalances
      ensures v.shareBalances[lp] == 0
    {
      assert ShareBalance(v, lp) == 0;
    }
    SumOfZeros(v.shareBalances);
  }

  lemma NoPositionsNothingLocked(m: Market)
    requires MarketSound(m) && m.manager.positions == map[]
    ensures m.vault.locked == 0
  {
    assert Weights(m.manager.positions, Size) == map[];
  }

  /** Everyone leaves: the endings go through, then nothing is locked and the redemptions go through,
      and then the pool is empty; but for calls that overflow or are worth less than one unit. */
  ghost predicate EveryoneLeaves(w: World, endings: seq<Call>, redemptions: seq<Call>) {
    && FailsOnlyWith(w, endings, {ArithmeticTrap})
    && (FailsOnlyWith(w, endings, {}) ==>
          var w1 := Run(w, endings);
          && w1.market.manager.positions == map[] && w1.market.vault.locked == 0
          && FailsOnlyWith(w1, redemptions, {ArithmeticTrap, ZeroShares})
          && (FailsOnlyWith(w1, redemptions, {}) && w.market.vault.totalShares > 0 ==>
                var v := Run(w1, redemptions).market.vault;
                v.totalShares == 0 && v.totalDeposits == 0))
  }

  lemma EndingsEndAll(w: World, endings: seq<Call>)
    requires Sound(w) && Covered(w.market) && MayEndEach(w, w.market.manager.positions, endings)
    requires TotalShortfall(w, endings) <= Surplus(w.market) && FailsOnlyWith(w, endings, {})
    ensures var m := Run(w, endings).market;
            Sound(Run(w, endings)) && m.manager.positions == map[] && Redeemable(m)
  {
    EndingsGoThrough(w, w.market.manager.positions, endings);
    RunKeepsSound(w, endings);
    RunMovesSurplus(w, endings);
    NoPositionsNothingLocked(Run(w, endings).market);
  }

  lemma RedemptionsEmptyPool(w: World, redemptions: seq<Call>)
    requires Sound(w) && Redeemable(w.market) && RedeemsEach(w.market.vault.shareBalances, redemptions)
    requires LeavesNothing(w.market.vault) && FailsOnlyWith(w, redemptions, {})
    ensures var v := Run(w, redemptions).market.vault; v.totalShares == 0 && v.totalDeposits == 0
  {
    RedemptionsGoThrough(w, w.market.vault.shareBalances, redemptions);
    RunKeepsSound(w, redemptions);
    NoBalancesNoPool(Run(w, redemptions).market.vault);
  }

  /** From a sound state within a limit below 100%, with enough USDC for the close fees that will not
      be covered, everyone can leave, in any order. */
  lemma EveryoneCanLeave(w: World, endings: seq<Call>, redemptions: seq<Call>, limit: nat)
    requires Sound(w) && WithinLimit(w.market.vault, limit) && limit < BPS
    requires MayEndEach(w, w.market.manager.positions, endings)
    requires TotalShortfall(w, endings) <= Surplus(w.market)
    requires RedeemsEach(w.market.vault.shareBalances, redemptions)
    ensures EveryoneLeaves(w, endings, redemptions)
  {
    LimitCovers(w.market, limit);
    EndingsGoThrough(w, w.market.manager.positions, endings);
    if FailsOnlyWith(w, endings, {}) {
      var w1 := Run(w, endings);
      EndingsEndAll(w, endings);
      RedemptionsGoThrough(w1, w1.market.vault.shareBalances, redemptions);
      if FailsOnlyWith(w1, redemptions, {}) && w.market.vault.totalShares > 0 {
        RedemptionsEmptyPool(w1, redemptions);
      }
    }
  }

  /** So everyone can leave at the end of any run from deployment on which every settled position won
      at most its size, when donations make up for the close fees left uncovered until then and by
      the leaving itself. */
  lemma EveryoneCanLeaveAfter(
      c: Config, usdc: Balances, calls: seq<Call>, endings: seq<Call>, redemptions: seq<Call>, limit: nat)
    requires Deploy(c, usdc).Ok? && FairStart(usdc)
    requires c.maxUtilizationBps <= limit < BPS && EveryCallOrdinary(Deploy(c, usdc).value, calls, limit)
    requires var w0 := Deploy(c, usdc).value;
             var w := Run(w0, calls);
             && MayEndEach(w, w.market.manager.positions, endings)
             && RedeemsEach(w.market.vault.shareBalances, redemptions)
             && TotalShortfall(w0, calls) + TotalShortfall(w, endings) <= TotalDonated(w0, calls)
    ensures EveryoneLeaves(Run(Deploy(c, usdc).value, calls), endings, redemptions)
  {
    var w0 := Deploy(c, usdc).value;
    DeployIsSound(c, usdc);
    RunKeepsSound(w0, calls);
    OrdinaryRunStaysWithin(w0, calls, limit);
    Conservation(c, usdc, calls);
    EveryoneCanLeave(Run(w0, calls), endings, redemptions, limit);
  }
}
