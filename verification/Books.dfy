/** The redundant books of the protocol, and the proof that no call lets them disagree. */
module Books {
  import opened PerpsTypes
  import opened Arithmetic
  import opened MapSums
  import opened Shares
  import opened PositionMath
  import opened Token
  import opened Oracle
  import opened Vault
  import opened PositionManager
  import opened Protocol

  /** What a position adds to a book: its size, its collateral, its size if it is on one side,
      or one unit if it belongs to one trader. */
  datatype Measure = Size | Collateral | SizeOn(direction: Direction) | OwnedBy(trader: Account)

  function Weigh(w: Measure, p: Position): int {
    match w
    case Size => p.size
    case Collateral => p.collateral
    case SizeOn(d) => if p.direction == d then p.size else 0
    case OwnedBy(t) => if p.trader == t then 1 else 0
  }

  function Weights(ps: Positions, w: Measure): map<PositionKey, int> {
    map k | k in ps :: Weigh(w, ps[k])
  }

  ghost function Total(ps: Positions, w: Measure): int {
    Sum(Weights(ps, w))
  }

  lemma TotalInsert(ps: Positions, k: PositionKey, p: Position, w: Measure)
    requires k !in ps
    ensures Total(ps[k := p], w) == Total(ps, w) + Weigh(w, p)
  {
    SumUpdate(Weights(ps, w), k, Weigh(w, p));
    assert Weights(ps[k := p], w) == Weights(ps, w)[k := Weigh(w, p)];
  }

  lemma TotalRemove(ps: Positions, k: PositionKey, w: Measure)
    requires k in ps
    ensures Total(ps - {k}, w) == Total(ps, w) - Weigh(w, ps[k])
  {
    SumRemove(Weights(ps, w), k);
    assert Weights(ps - {k}, w) == Weights(ps, w) - {k};
  }

  /** One position's part of a book of non-negative entries. */
  lemma TotalCovers(ps: Positions, k: PositionKey, w: Measure)
    requires k in ps
    requires forall j | j in ps :: Weigh(w, ps[j]) >= 0
    ensures 0 <= Weigh(w, ps[k]) <= Total(ps, w)
  {
    SumBounds(Weights(ps, w));
    assert Weights(ps, w)[k] == Weigh(w, ps[k]);
  }

  lemma SumsNonNegative(ps: Positions, w: Measure)
    requires forall j | j in ps :: Weigh(w, ps[j]) >= 0
    ensures Total(ps, w) >= 0
  {
    SumBounds(Weights(ps, w));
  }

  predicate PositionSound(k: PositionKey, p: Position, nextId: nat) {
    && k == PositionKey(p.trader, p.id)
    && 1 <= p.id < nextId
    && p.collateral > 0 && p.leverage >= 1
    && p.size == p.collateral * p.leverage && p.size > 0
    && p.entryPrice > 0
  }

  /** Open positions are sound, and ids are distinct and below the next one. */
  ghost predicate PositionsSound(s: ManagerState) {
    && s.nextId >= 1
    && (forall k | k in s.positions :: PositionSound(k, s.positions[k], s.nextId))
    && (forall j, k | j in s.positions && k in s.positions && j.id == k.id :: j == k)
  }

  /** The open interest of each side is what the positions on that side add up to. */
  ghost predicate OpenInterestBook(s: ManagerState) {
    && s.oiLong == Total(s.positions, SizeOn(Long))
    && s.oiShort == Total(s.positions, SizeOn(Short))
    && s.oiLong + s.oiShort == Total(s.positions, Size)
  }

  /** Each trader's count is the number of that trader's positions. */
  ghost predicate CountBook(s: ManagerState) {
    forall t :: TraderCount(s, t) == Total(s.positions, OwnedBy(t))
  }

  ghost predicate ManagerBooks(s: ManagerState) {
    PositionsSound(s) && OpenInterestBook(s) && CountBook(s)
  }

  /** The vault's share ledger adds up. */
  ghost predicate ShareBook(v: VaultState) {
    && v.totalShares == Sum(v.shareBalances)
    && (forall lp | lp in v.shareBalances :: v.shareBalances[lp] >= 0)
    && v.totalDeposits >= 0
  }

  predicate PricesSound(o: OracleState, now: nat) {
    forall a | a in o.prices :: o.prices[a].price > 0 && o.prices[a].timestamp <= now
  }

  predicate TokenSound(t: Balances) {
    forall h | h in t :: t[h] >= 0
  }

  predicate LockedIsOpenInterest(v: VaultState, s: ManagerState) {
    v.locked == s.oiLong + s.oiShort
  }

  ghost predicate MarketSound(m: Market) {
    && ManagerBooks(m.manager)
    && LockedIsOpenInterest(m.vault, m.manager)
    && ShareBook(m.vault)
    && PricesSound(m.oracle, m.now)
    && TokenSound(m.token)
  }

  predicate SettingsSound(w: World) {
    && 0 < w.market.vault.maxUtilizationBps <= BPS
    && w.market.manager.openFeeBps <= 1000 && w.market.manager.closeFeeBps <= 1000
    && 0 < w.engine.maintenanceBps <= 5000
    && w.funding.interval > 0
    && w.funding.lastTime <= w.market.now
  }

  ghost predicate Sound(w: World) {
    MarketSound(w.market) && SettingsSound(w)
  }

  // Every kind of call keeps the books.

  lemma RecordKeepsPositions(s: ManagerState, p: Position)
    requires PositionsSound(s) && PositionSound(PositionKey(p.trader, s.nextId), p, s.nextId + 1)
    requires Record(s, p.trader, s.nextId, p).Ok?
    ensures PositionKey(p.trader, s.nextId) !in s.positions
    ensures PositionsSound(Record(s, p.trader, s.nextId, p).value)
  {
  }

  lemma RecordKeepsOpenInterest(s: ManagerState, p: Position)
    requires OpenInterestBook(s) && PositionKey(p.trader, s.nextId) !in s.positions
    requires Record(s, p.trader, s.nextId, p).Ok?
    ensures OpenInterestBook(Record(s, p.trader, s.nextId, p).value)
  {
    var k := PositionKey(p.trader, s.nextId);
    TotalInsert(s.positions, k, p, Size);
    TotalInsert(s.positions, k, p, SizeOn(Long));
    TotalInsert(s.positions, k, p, SizeOn(Short));
  }

  lemma RecordKeepsCounts(s: ManagerState, p: Position)
    requires CountBook(s) && PositionKey(p.trader, s.nextId) !in s.positions
    requires Record(s, p.trader, s.nextId, p).Ok?
    ensures CountBook(Record(s, p.trader, s.nextId, p).value)
  {
    var s' := Record(s, p.trader, s.nextId, p).value;
    forall t
      ensures TraderCount(s', t) == Total(s'.positions, OwnedBy(t))
    {
      TotalInsert(s.positions, PositionKey(p.trader, s.nextId), p, OwnedBy(t));
      assert TraderCount(s, t) == Total(s.positions, OwnedBy(t));
    }
  }

  lemma EraseKeepsPositions(s: ManagerState, key: PositionKey)
    requires PositionsSound(s) && key in s.positions && Erase(s, key).Ok?
    ensures PositionsSound(Erase(s, key).value)
  {
  }

  lemma EraseKeepsOpenInterest(s: ManagerState, key: PositionKey)
    requires OpenInterestBook(s) && key in s.positions && Erase(s, key).Ok?
    ensures OpenInterestBook(Erase(s, key).value)
  {
    TotalRemove(s.positions, key, Size);
    TotalRemove(s.positions, key, SizeOn(Long));
    TotalRemove(s.positions, key, SizeOn(Short));
  }

  /** Removing a position finds its trader's count positive, so the guard on the count never
      takes its failing side. */
  lemma EraseKeepsCounts(s: ManagerState, key: PositionKey)
    requires PositionsSound(s) && CountBook(s) && key in s.positions && Erase(s, key).Ok?
    ensures CountBook(Erase(s, key).value)
    ensures TraderCount(s, key.trader) > 0
    ensures TraderCount(Erase(s, key).value, key.trader) == TraderCount(s, key.trader) - 1
  {
    var s' := Erase(s, key).value;
    assert PositionSound(key, s.positions[key], s.nextId);
    TotalCovers(s.positions, key, OwnedBy(key.trader));
    assert TraderCount(s, key.trader) == Total(s.positions, OwnedBy(key.trader));
    forall t
      ensures TraderCount(s', t) == Total(s'.positions, OwnedBy(t))
    {
      TotalRemove(s.positions, key, OwnedBy(t));
      assert TraderCount(s, t) == Total(s.positions, OwnedBy(t));
    }
  }

  /** What opening position `p` does to the market: its size is locked, the trader pays
      collateral and fee into the vault, the pool books the fee, the manager records `p`. */
  predicate Opens(m: Market, p: Position, m': Market) {
    var fee := CalculateFee(p.size, m.manager.openFeeBps);
    && p.id == m.manager.nextId
    && fee > 0
    && LockLiquidity(m.vault, p.size).Ok?
    && m'.vault == LockLiquidity(m.vault, p.size).value.(totalDeposits := m.vault.totalDeposits + fee)
    && Transfer(m.token, User(p.trader), VaultContract, p.collateral + fee) == Ok(m'.token)
    && Record(m.manager, p.trader, p.id, p) == Ok(m'.manager)
    && m'.oracle == m.oracle && m'.now == m.now
  }

  /** What settling a position does to the market: its size is unlocked, the pool books the fee
      less the PnL, the vault pays out what is left of the collateral, the manager forgets it. */
  predicate Settles(m: Market, key: PositionKey, pnl: int, fee: int, m': Market) {
    && key in m.manager.positions
    && var p := m.manager.positions[key];
       var payout := p.collateral + pnl - fee;
       && m'.vault == m.vault.(locked := m.vault.locked - p.size, totalDeposits := m.vault.totalDeposits - pnl + fee)
       && m'.vault.locked >= 0 && m'.vault.totalDeposits >= 0
       && (if payout > 0 then Transfer(m.token, VaultContract, User(key.trader), payout) else Ok(m.token))
          == Ok(m'.token)
       && Erase(m.manager, key) == Ok(m'.manager)
       && m'.oracle == m.oracle && m'.now == m.now
  }

  lemma SettlementEffect(m: Market, key: PositionKey, pnl: int, fee: int)
    requires key in m.manager.positions && SettleAndRemove(m, key, pnl, fee).Ok?
    ensures Settles(m, key, pnl, fee, SettleAndRemove(m, key, pnl, fee).value)
  {
  }

  /** A successful open enters a sound position at the oracle's price, whatever the minimum
      collateral is set to. */
  lemma OpenedPositionIsSound(
      m: Market, trader: Account, asset: Asset, direction: Direction, collateral: int, leverage: nat)
    returns (p: Position)
    requires PricesSound(m.oracle, m.now) && m.manager.nextId >= 1
    requires OpenPosition(m, trader, asset, direction, collateral, leverage).Ok?
    ensures Opens(m, p, OpenPosition(m, trader, asset, direction, collateral, leverage).value.0)
    ensures PositionSound(PositionKey(trader, p.id), p, p.id + 1)
    ensures p.trader == trader && p.asset == asset && p.direction == direction
    ensures p.collateral == collateral && p.leverage == leverage && p.size == collateral * leverage
    ensures collateral >= m.manager.minCollateral && leverage <= m.manager.maxLeverage
    ensures GetPriceValue(m.oracle, m.now, asset) == Ok(p.entryPrice)
    ensures p.openedAt == m.now && p.fundingIndex == 0
  {
    var price := GetPriceValue(m.oracle, m.now, asset).value;
    p := Position(
      m.manager.nextId, trader, asset, direction, collateral * leverage, collateral, price, leverage, 0, m.now);
    if collateral <= 0 {
      MulMono(collateral, 0, leverage);
    }
  }

  /** No position opens whose size times the open fee rate is below 10000: its fee rounds to zero,
      and the vault refuses to collect nothing. An open that passes the other checks and overflows
      nothing succeeds exactly otherwise. */
  lemma OpenNeedsFee(
      m: Market, trader: Account, asset: Asset, direction: Direction, collateral: int, leverage: nat)
    ensures var r := OpenPosition(m, trader, asset, direction, collateral, leverage);
            var size, rate := collateral * leverage, m.manager.openFeeBps;
            && (r.Ok? ==> size * rate >= BPS)
            && (collateral >= m.manager.minCollateral && 0 < leverage <= m.manager.maxLeverage
                && GetPriceValue(m.oracle, m.now, asset).Ok?
                && Transfer(m.token, User(trader), VaultContract, collateral + CalculateFee(size, rate)).Ok?
                && LockLiquidity(m.vault, size).Ok?
                ==> r == Err(ArithmeticTrap)
                    || (if size * rate >= BPS then r.Ok? else r == Err(InvalidAmount)))
  {
    FeeIsPositiveIff(collateral * leverage, m.manager.openFeeBps);
  }

  lemma RecordKeepsBooks(s: ManagerState, p: Position)
    requires ManagerBooks(s) && PositionSound(PositionKey(p.trader, s.nextId), p, s.nextId + 1)
    requires Record(s, p.trader, s.nextId, p).Ok?
    ensures ManagerBooks(Record(s, p.trader, s.nextId, p).value)
  {
    RecordKeepsPositions(s, p);
    RecordKeepsOpenInterest(s, p);
    RecordKeepsCounts(s, p);
  }

  lemma EraseKeepsBooks(s: ManagerState, key: PositionKey)
    requires ManagerBooks(s) && key in s.positions && Erase(s, key).Ok?
    ensures ManagerBooks(Erase(s, key).value)
  {
    EraseKeepsPositions(s, key);
    EraseKeepsOpenInterest(s, key);
    EraseKeepsCounts(s, key);
  }

  lemma TransferKeepsToken(t: Balances, from: Holder, to: Holder, amount: int)
    requires TokenSound(t) && Transfer(t, from, to, amount).Ok?
    ensures TokenSound(Transfer(t, from, to, amount).value)
  {
  }

  lemma OpeningKeepsVault(m: Market, p: Position, m': Market)
    requires LockedIsOpenInterest(m.vault, m.manager) && ShareBook(m.vault) && Opens(m, p, m')
    ensures LockedIsOpenInterest(m'.vault, m'.manager) && ShareBook(m'.vault)
  {
  }

  lemma OpeningKeepsManager(m: Market, p: Position, m': Market)
    requires ManagerBooks(m.manager) && Opens(m, p, m')
    requires PositionSound(PositionKey(p.trader, p.id), p, p.id + 1)
    ensures ManagerBooks(m'.manager)
  {
    RecordKeepsBooks(m.manager, p);
  }

  lemma OpeningKeepsToken(m: Market, p: Position, m': Market)
    requires TokenSound(m.token) && Opens(m, p, m')
    ensures TokenSound(m'.token)
  {
  }

  lemma OpeningKeepsMarket(m: Market, p: Position, m': Market)
    requires MarketSound(m) && Opens(m, p, m')
    requires PositionSound(PositionKey(p.trader, p.id), p, p.id + 1)
    ensures MarketSound(m')
  {
    OpeningKeepsManager(m, p, m');
    OpeningKeepsVault(m, p, m');
    OpeningKeepsToken(m, p, m');
  }

  lemma SettlingKeepsVault(m: Market, key: PositionKey, pnl: int, fee: int, m': Market)
    requires LockedIsOpenInterest(m.vault, m.manager) && ShareBook(m.vault) && Settles(m, key, pnl, fee, m')
    ensures LockedIsOpenInterest(m'.vault, m'.manager) && ShareBook(m'.vault)
  {
  }

  lemma SettlingKeepsToken(m: Market, key: PositionKey, pnl: int, fee: int, m': Market)
    requires TokenSound(m.token) && Settles(m, key, pnl, fee, m')
    ensures TokenSound(m'.token)
  {
  }

  lemma SettlingKeepsMarket(m: Market, key: PositionKey, pnl: int, fee: int, m': Market)
    requires MarketSound(m) && Settles(m, key, pnl, fee, m')
    ensures MarketSound(m')
  {
    EraseKeepsBooks(m.manager, key);
    SettlingKeepsVault(m, key, pnl, fee, m');
    SettlingKeepsToken(m, key, pnl, fee, m');
  }

  /** An unlock at settlement never goes below zero: every open size is part of what is locked. */
  lemma LockedCoversSize(m: Market, key: PositionKey)
    requires MarketSound(m) && key in m.manager.positions
    ensures 0 < m.manager.positions[key].size <= m.vault.locked
  {
    TotalCovers(m.manager.positions, key, Size);
  }

  lemma DepositKeepsShares(v: VaultState, t: Balances, lp: Account, amount: int)
    requires ShareBook(v) && Deposit(v, t, lp, amount).Ok?
    ensures ShareBook(Deposit(v, t, lp, amount).value.vault)
  {
    SumUpdate(v.shareBalances, lp, ShareBalance(v, lp) + Deposit(v, t, lp, amount).value.amount);
  }

  /** A balance is between nothing and all the shares. */
  lemma BalanceWithinTotal(v: VaultState, lp: Account)
    requires ShareBook(v)
    ensures 0 <= ShareBalance(v, lp) <= v.totalShares
  {
    SumBounds(v.shareBalances);
  }

  /** A withdrawal keeps the share ledger, never pays more than the pool holds, and empties the
      pool when it burns the last share. */
  lemma WithdrawKeepsShares(v: VaultState, t: Balances, lp: Account, shares: int)
    requires ShareBook(v) && Withdraw(v, t, lp, shares).Ok?
    ensures var out := Withdraw(v, t, lp, shares).value;
            && ShareBook(out.vault)
            && 0 < shares <= ShareBalance(v, lp) <= v.totalShares
            && 0 < out.amount <= v.totalDeposits
            && (out.vault.totalShares == 0 ==> out.vault.totalDeposits == 0)
  {
    BalanceWithinTotal(v, lp);
    SumUpdate(v.shareBalances, lp, ShareBalance(v, lp) - shares);
    RedeemKeepsPrice(shares, v.totalShares, v.totalDeposits);
    RedeemAll(v.totalShares, v.totalDeposits);
  }

  /** Both ways to end a position settle it at its capped price PnL; only a close takes a fee. */
  lemma SettlementOf(w: World, c: Call) returns (key: PositionKey, pnl: int, fee: int)
    requires c.CloseCall? || c.LiquidateCall?
    requires Apply(w, c).Ok?
    ensures key == PositionKey(c.trader, c.id) && key in w.market.manager.positions
    ensures var p := w.market.manager.positions[key];
            && p.asset == c.asset
            && PricePnl(w.market, p) == Ok(pnl)
            && fee == (if c.CloseCall? then CalculateFee(p.size, w.market.manager.closeFeeBps) else 0)
    ensures Settles(w.market, key, pnl, fee, Apply(w, c).value.market)
    ensures Apply(w, c).value == w.(market := Apply(w, c).value.market)
  {
    key := PositionKey(c.trader, c.id);
    var p := w.market.manager.positions[key];
    pnl := PricePnl(w.market, p).value;
    fee := if c.CloseCall? then CalculateFee(p.size, w.market.manager.closeFeeBps) else 0;
    SettlementEffect(w.market, key, pnl, fee);
  }

  lemma OpenKeepsSettings(w: World, c: Call)
    requires SettingsSound(w) && c.OpenCall?
    ensures SettingsSound(Exec(w, c))
  {
  }

  lemma EndingKeepsSettings(w: World, c: Call)
    requires SettingsSound(w) && (c.CloseCall? || c.LiquidateCall?)
    ensures SettingsSound(Exec(w, c))
  {
    if Apply(w, c).Ok? {
      var key, pnl, fee := SettlementOf(w, c);
    }
  }

  lemma CallKeepsSettings(w: World, c: Call)
    requires SettingsSound(w)
    ensures SettingsSound(Exec(w, c))
  {
    if c.OpenCall? {
      OpenKeepsSettings(w, c);
    } else if c.CloseCall? || c.LiquidateCall? {
      EndingKeepsSettings(w, c);
    }
  }

  lemma TradeKeepsMarket(w: World, c: Call)
    requires MarketSound(w.market) && Apply(w, c).Ok?
    requires c.OpenCall? || c.CloseCall? || c.LiquidateCall?
    ensures MarketSound(Apply(w, c).value.market)
  {
    var m := w.market;
    if c.OpenCall? {
      var p := OpenedPositionIsSound(m, c.trader, c.asset, c.direction, c.collateral, c.leverage);
      OpeningKeepsMarket(m, p, Apply(w, c).value.market);
    } else {
      var key, pnl, fee := SettlementOf(w, c);
      SettlingKeepsMarket(m, key, pnl, fee, Apply(w, c).value.market);
    }
  }

  lemma LpCallKeepsMarket(w: World, c: Call)
    requires MarketSound(w.market) && Apply(w, c).Ok?
    requires c.DepositCall? || c.WithdrawCall?
    ensures MarketSound(Apply(w, c).value.market)
  {
    var m := w.market;
    if c.DepositCall? {
      DepositKeepsShares(m.vault, m.token, c.lp, c.amount);
      TransferKeepsToken(m.token, User(c.lp), VaultContract, c.amount);
    } else {
      WithdrawKeepsShares(m.vault, m.token, c.lp, c.shares);
      TransferKeepsToken(m.token, VaultContract, User(c.lp),
        Withdraw(m.vault, m.token, c.lp, c.shares).value.amount);
    }
  }

  /** The calls that move shares, positions or USDC. */
  predicate MovesValue(c: Call) {
    c.DepositCall? || c.WithdrawCall? || c.OpenCall? || c.CloseCall? || c.LiquidateCall? || c.TransferCall?
  }

  /** Every other call leaves the token and the books alone. */
  lemma QuietCall(w: World, c: Call)
    requires !MovesValue(c)
    ensures var m, m' := w.market, Exec(w, c).market;
            && m'.token == m.token
            && m'.vault == m.vault.(maxUtilizationBps := m'.vault.maxUtilizationBps)
            && m'.manager == m.manager.(openFeeBps := m'.manager.openFeeBps, closeFeeBps := m'.manager.closeFeeBps,
                                        maxLeverage := m'.manager.maxLeverage)
            && m'.now >= m.now
            && (PricesSound(m.oracle, m.now) ==> PricesSound(m'.oracle, m'.now))
  {
  }

  lemma CallKeepsMarket(w: World, c: Call)
    requires MarketSound(w.market)
    ensures MarketSound(Exec(w, c).market)
  {
    if !MovesValue(c) {
      QuietCall(w, c);
    } else if Apply(w, c).Ok? {
      if c.OpenCall? || c.CloseCall? || c.LiquidateCall? {
        TradeKeepsMarket(w, c);
      } else if c.DepositCall? || c.WithdrawCall? {
        LpCallKeepsMarket(w, c);
      } else {
        TransferKeepsToken(w.market.token, User(c.from), c.to, c.amount);
      }
    }
  }

  lemma DeployIsSound(c: Config, usdc: Balances)
    requires Deploy(c, usdc).Ok? && FairStart(usdc)
    ensures Sound(Deploy(c, usdc).value)
  {
  }

  lemma {:induction false} RunKeepsSound(w: World, calls: seq<Call>)
    requires Sound(w)
    ensures Sound(Run(w, calls))
    decreases |calls|
  {
    if calls != [] {
      CallKeepsSettings(w, calls[0]);
      CallKeepsMarket(w, calls[0]);
      RunKeepsSound(Exec(w, calls[0]), calls[1..]);
    }
  }

  /** In every reachable state all the books agree. */
  lemma ReachableIsSound(w: World)
    requires Reachable(w)
    ensures Sound(w)
  {
    var c: Config, usdc: Balances, calls: seq<Call> :| ReachedBy(w, c, usdc, calls);
    DeployIsSound(c, usdc);
    RunKeepsSound(Deploy(c, usdc).value, calls);
  }
}
