/** Where the price of a trade comes from: the last price the oracle's admin set for the asset, not
    longer ago than the threshold. */
module PriceProvenance {
  import opened PerpsTypes
  import opened Arithmetic
  import opened Oracle
  import opened Protocol
  import opened Books
  import opened VaultOutcomes

  /** The `i`-th call of the run succeeds in setting the asset's price. */
  predicate Sets(w0: World, calls: seq<Call>, i: nat, asset: Asset)
    requires i < |calls|
  {
    calls[i].SetPriceCall? && calls[i].asset == asset && Apply(Run(w0, calls[..i]), calls[i]).Ok?
  }

  /** The `i`-th call of the run sets the asset's price or drops it. */
  predicate Touches(w0: World, calls: seq<Call>, i: nat, asset: Asset)
    requires i < |calls|
  {
    Sets(w0, calls, i, asset) || calls[i] == PriceExpires(asset)
  }

  /** The `i`-th call of the run is the admin setting this price for this asset, and no later call
      sets or drops the price of the asset. */
  ghost predicate LastSet(w0: World, calls: seq<Call>, i: nat, asset: Asset, cached: CachedPrice) {
    && i < |calls| && Sets(w0, calls, i, asset)
    && calls[i] == SetPriceCall(w0.market.oracle.admin, asset, cached.price)
    && Run(w0, calls[..i]).market.now == cached.timestamp
    && (forall j: nat | i < j < |calls| :: !Touches(w0, calls, j, asset))
  }

  /** What one call can do to the cached price of one asset. */
  lemma OracleStep(w: World, c: Call, asset: Asset)
    ensures var o, o' := w.market.oracle, Exec(w, c).market.oracle;
            && o'.admin == o.admin
            && (if c.SetPriceCall? && c.asset == asset && Apply(w, c).Ok? then
                  c.caller == o.admin && asset in o'.prices
                  && o'.prices[asset] == CachedPrice(c.price, w.market.now)
                else if c == PriceExpires(asset) then asset !in o'.prices
                else (asset in o'.prices <==> asset in o.prices)
                     && (asset in o.prices ==> o'.prices[asset] == o.prices[asset]))
  {
    if Apply(w, c).Ok? && (c.CloseCall? || c.LiquidateCall?) {
      var key, pnl, fee := SettlementOf(w, c);
    }
  }

  lemma {:induction false} AdminStays(w: World, calls: seq<Call>)
    ensures Run(w, calls).market.oracle.admin == w.market.oracle.admin
    decreases |calls|
  {
    if calls != [] {
      OracleStep(w, calls[0], 0);
      AdminStays(Exec(w, calls[0]), calls[1..]);
    }
  }

  /** One more call that does not touch the asset's price leaves the last setting the last. */
  lemma LastSetExtends(w0: World, calls: seq<Call>, c: Call, i: nat, asset: Asset, cached: CachedPrice)
    requires !Touches(w0, calls + [c], |calls|, asset)
    ensures LastSet(w0, calls, i, asset, cached) <==> LastSet(w0, calls + [c], i, asset, cached)
  {
    var longer := calls + [c];
    forall j: nat | j < |calls|
      ensures Touches(w0, calls, j, asset) <==> Touches(w0, longer, j, asset)
    {
      assert longer[..j] == calls[..j];
    }
    if i < |calls| {
      assert longer[..i] == calls[..i];
    }
  }

  /** The cached price of an asset is what its last successful setting said, unless it was dropped
      since. */
  lemma {:induction false} CachedIffLastSet(w0: World, calls: seq<Call>, asset: Asset, cached: CachedPrice)
    requires asset !in w0.market.oracle.prices
    ensures var prices := Run(w0, calls).market.oracle.prices;
            asset in prices && prices[asset] == cached <==> exists i: nat :: LastSet(w0, calls, i, asset, cached)
    decreases |calls|
  {
    if calls != [] {
      var n := |calls| - 1;
      var before, c := calls[..n], calls[n];
      assert calls == before + [c];
      RunAppend(w0, before, c);
      CachedIffLastSet(w0, before, asset, cached);
      OracleStep(Run(w0, before), c, asset);
      AdminStays(w0, before);
      if Touches(w0, calls, n, asset) {
        assert forall i: nat | LastSet(w0, calls, i, asset, cached) :: i == n;
        assert LastSet(w0, calls, n, asset, cached) <==>
            Sets(w0, calls, n, asset) && cached == CachedPrice(c.price, Run(w0, before).market.now);
      } else {
        forall i: nat
          ensures LastSet(w0, before, i, asset, cached) <==> LastSet(w0, calls, i, asset, cached)
        {
          LastSetExtends(w0, before, c, i, asset, cached);
        }
      }
    }
  }

  /** Any price the protocol trades at is the last one set for that asset, and not dropped since,
      by the oracle's admin on this very run; it is positive, and no older than the staleness
      threshold now in force. */
  lemma TradedPriceIsFresh(c: Config, usdc: map<Holder, int>, calls: seq<Call>, asset: Asset, price: int)
    returns (i: nat)
    requires Deploy(c, usdc).Ok? && FairStart(usdc)
    requires var m := Run(Deploy(c, usdc).value, calls).market; GetPriceValue(m.oracle, m.now, asset) == Ok(price)
    ensures i < |calls| && calls[i] == SetPriceCall(c.admin, asset, price) && price > 0
    ensures var w0 := Deploy(c, usdc).value;
            var m := Run(w0, calls).market;
            && Sets(w0, calls, i, asset)
            && (forall j: nat | i < j < |calls| :: !Touches(w0, calls, j, asset))
            && 0 <= m.now - Run(w0, calls[..i]).market.now <= m.oracle.stalenessThreshold
  {
    var w0 := Deploy(c, usdc).value;
    var m := Run(w0, calls).market;
    DeployIsSound(c, usdc);
    RunKeepsSound(w0, calls);
    CachedIffLastSet(w0, calls, asset, m.oracle.prices[asset]);
    i :| LastSet(w0, calls, i, asset, m.oracle.prices[asset]);
  }

  /** At the end of the run the `i`-th call is the last to set or drop the asset's price, it set this
      price, and it is no older than the threshold. */
  ghost predicate ServedBy(w0: World, calls: seq<Call>, i: nat, asset: Asset, price: int) {
    var m := Run(w0, calls).market;
    && i < |calls| && LastSet(w0, calls, i, asset, CachedPrice(price, Run(w0, calls[..i]).market.now))
    && m.now - Run(w0, calls[..i]).market.now <= m.oracle.stalenessThreshold
  }

  /** A price is served exactly when it is the last one set, was not dropped, and is still fresh. */
  lemma PriceIsServedIff(c: Config, usdc: map<Holder, int>, calls: seq<Call>, asset: Asset, price: int)
    requires Deploy(c, usdc).Ok? && FairStart(usdc)
    requires Run(Deploy(c, usdc).value, calls).market.now <= U64_MAX
    ensures var w0 := Deploy(c, usdc).value;
            var m := Run(w0, calls).market;
            GetPriceValue(m.oracle, m.now, asset) == Ok(price)
            <==> exists i: nat :: ServedBy(w0, calls, i, asset, price)
  {
    var w0 := Deploy(c, usdc).value;
    var m := Run(w0, calls).market;
    DeployIsSound(c, usdc);
    RunKeepsSound(w0, calls);
    PriceOutcome(m.oracle, m.now, asset);
    if GetPriceValue(m.oracle, m.now, asset) == Ok(price) {
      var cached := m.oracle.prices[asset];
      CachedIffLastSet(w0, calls, asset, cached);
      var i: nat :| LastSet(w0, calls, i, asset, cached);
      assert cached == CachedPrice(price, Run(w0, calls[..i]).market.now);
      assert ServedBy(w0, calls, i, asset, price);
    }
    forall i: nat | ServedBy(w0, calls, i, asset, price)
      ensures GetPriceValue(m.oracle, m.now, asset) == Ok(price)
    {
      CachedIffLastSet(w0, calls, asset, CachedPrice(price, Run(w0, calls[..i]).market.now));
    }
  }
}
