/** The funding indices and their pace over whole runs, whatever else happens in between. */
module FundingRuns {
  import opened PerpsTypes
  import opened Arithmetic
  import opened FundingRate
  import opened Protocol
  import opened Books

  predicate Applies(w: World, c: Call) {
    c.ApplyFundingCall? && Apply(w, c).Ok?
  }

  /** How many times funding was applied on the run. */
  function Applications(w: World, calls: seq<Call>): nat
    decreases |calls|
  {
    if calls == [] then 0
    else (if Applies(w, calls[0]) then 1 else 0) + Applications(Exec(w, calls[0]), calls[1..])
  }

  /** Funding is applied while there is open interest. */
  predicate AppliesLive(w: World, c: Call) {
    Applies(w, c) && w.market.manager.oiLong + w.market.manager.oiShort != 0
  }

  /** How many times it was applied while there was open interest. */
  function LiveApplications(w: World, calls: seq<Call>): nat
    decreases |calls|
  {
    if calls == [] then 0
    else (if AppliesLive(w, calls[0]) then 1 else 0) + LiveApplications(Exec(w, calls[0]), calls[1..])
  }

  /** Both rates lie within the cap and the spread, and together they are twice the spread. */
  lemma RateBounds(f: FundingState, oiLong: int, oiShort: int)
    requires CurrentRate(f, oiLong, oiShort).Ok?
    ensures var rates := CurrentRate(f, oiLong, oiShort).value;
            && rates.0 + rates.1 == (if oiLong + oiShort == 0 then 0 else 2 * f.spreadBps)
            && -(f.maxRateBps as int) - f.spreadBps <= rates.0 <= f.maxRateBps + f.spreadBps
            && -(f.maxRateBps as int) - f.spreadBps <= rates.1 <= f.maxRateBps + f.spreadBps
  {
  }

  /** The side with more open interest never has the lower rate. The lighter side is paid, as
      the interface promises, exactly when the rate cap and the skew both exceed the spread. */
  lemma LighterSideIsPaidIff(f: FundingState, oiLong: int, oiShort: int)
    requires oiLong >= 0 && oiShort >= 0 && oiLong != oiShort
    requires CurrentRate(f, oiLong, oiShort).Ok?
    ensures var rates := CurrentRate(f, oiLong, oiShort).value;
            var skewed := Abs(oiLong - oiShort) * BPS >= (f.spreadBps + 1) * (oiLong + oiShort);
            && (oiLong > oiShort ==> rates.0 >= rates.1 && (rates.1 < 0 <==> f.maxRateBps > f.spreadBps && skewed))
            && (oiLong < oiShort ==> rates.0 <= rates.1 && (rates.0 < 0 <==> f.maxRateBps > f.spreadBps && skewed))
  {
    var x, total := (oiLong - oiShort) * BPS, oiLong + oiShort;
    TDivBounds(x, total);
    TDivBelow(x, total, f.spreadBps + 1);
    TDivNegates(x, total);
    TDivBelow(-x, total, f.spreadBps + 1);
  }

  /** The admin, whose word alone counts, sets no rate cap above `limit`. */
  predicate RatesAtMost(c: Call, admin: Account, limit: nat) {
    c.SetMaxRateCall? && c.caller == admin ==> c.bps <= limit
  }

  /** The admin sets no interval, 0 being refused, below `least`. */
  predicate IntervalsAtLeast(c: Call, admin: Account, least: nat) {
    c.SetIntervalCall? && c.caller == admin && c.interval > 0 ==> c.interval >= least
  }

  /** What any call does to the funding contract, if anything. */
  lemma FundingStep(w: World, c: Call)
    ensures var f, f' := w.funding, Exec(w, c).funding;
            && f'.admin == f.admin && f'.spreadBps == f.spreadBps
            && (f'.maxRateBps == f.maxRateBps
                || (c.SetMaxRateCall? && c.caller == f.admin && f'.maxRateBps == c.bps))
            && (f'.interval == f.interval
                || (c.SetIntervalCall? && c.caller == f.admin && f'.interval == c.interval > 0))
            && (Applies(w, c) ==> w.market.now == f'.lastTime >= f.lastTime + f.interval)
            && (!Applies(w, c) ==>
                 f'.cumulativeLong == f.cumulativeLong && f'.cumulativeShort == f.cumulativeShort
                 && f'.lastTime == f.lastTime)
  {
  }

  function IndexSum(f: FundingState): int {
    f.cumulativeLong + f.cumulativeShort
  }

  /** What any call does to the two indices together. */
  lemma IndexSumStep(w: World, c: Call)
    ensures var f, f' := w.funding, Exec(w, c).funding;
            && f'.spreadBps == f.spreadBps
            && IndexSum(f') == IndexSum(f) + (if AppliesLive(w, c) then 2 * f.spreadBps else 0)
  {
  }

  lemma OneMore(n: nat, b: nat)
    ensures (n + 1) * b == n * b + b
  {
  }

  lemma GrowthStep(x0: int, x1: int, x2: int, live: bool, k: nat, b: nat)
    requires x1 == x0 + (if live then b else 0)
    requires x2 == x1 + k * b
    ensures x2 == x0 + ((if live then 1 else 0) + k) * b
  {
  }

  lemma DriftStep(x0: int, x1: int, x2: int, moved: bool, n: nat, b: nat)
    requires Abs(x1 - x0) <= (if moved then b else 0)
    requires Abs(x2 - x1) <= n * b
    ensures Abs(x2 - x0) <= ((if moved then 1 else 0) + n) * b
  {
  }

  lemma {:induction false} IndicesGrow(w: World, calls: seq<Call>, growth: nat)
    requires growth == 2 * w.funding.spreadBps
    ensures IndexSum(Run(w, calls).funding) == IndexSum(w.funding) + LiveApplications(w, calls) * growth
    decreases |calls|
  {
    if calls == [] {
      assert 0 * growth == 0;
    } else {
      var c, w1 := calls[0], Exec(w, calls[0]);
      IndexSumStep(w, c);
      IndicesGrow(w1, calls[1..], growth);
      GrowthStep(IndexSum(w.funding), IndexSum(w1.funding), IndexSum(Run(w1, calls[1..]).funding),
        AppliesLive(w, c), LiveApplications(w1, calls[1..]), growth);
    }
  }

  /** The two indices together grow by twice the spread for every application made while there
      was open interest, and by nothing else. */
  lemma IndicesGrowBySpread(w: World, calls: seq<Call>)
    ensures var f, f' := w.funding, Run(w, calls).funding;
            f'.cumulativeLong + f'.cumulativeShort
            == f.cumulativeLong + f.cumulativeShort + LiveApplications(w, calls) * (2 * f.spreadBps)
  {
    IndicesGrow(w, calls, 2 * w.funding.spreadBps);
  }

  function Index(f: FundingState, side: Direction): int {
    match side
    case Long => f.cumulativeLong
    case Short => f.cumulativeShort
  }

  /** No application moves an index by more than `reach`. */
  predicate Reaches(f: FundingState, limit: nat, reach: nat) {
    f.maxRateBps <= limit && limit + f.spreadBps <= reach
  }

  lemma IndexStepWithin(w: World, c: Call, limit: nat, reach: nat, side: Direction)
    requires Reaches(w.funding, limit, reach) && RatesAtMost(c, w.funding.admin, limit)
    ensures var f, f' := w.funding, Exec(w, c).funding;
            && f'.admin == f.admin && Reaches(f', limit, reach)
            && Abs(Index(f', side) - Index(f, side)) <= (if Applies(w, c) then reach else 0)
  {
  }

  lemma {:induction false} IndicesDrift(w: World, calls: seq<Call>, limit: nat, reach: nat, side: Direction)
    requires Reaches(w.funding, limit, reach) && forall c | c in calls :: RatesAtMost(c, w.funding.admin, limit)
    ensures Abs(Index(Run(w, calls).funding, side) - Index(w.funding, side)) <= Applications(w, calls) * reach
    decreases |calls|
  {
    if calls == [] {
      assert 0 * reach == 0;
    } else {
      var c, w1 := calls[0], Exec(w, calls[0]);
      assert RatesAtMost(c, w.funding.admin, limit);
      IndexStepWithin(w, c, limit, reach, side);
      IndicesDrift(w1, calls[1..], limit, reach, side);
      DriftStep(Index(w.funding, side), Index(w1.funding, side), Index(Run(w1, calls[1..]).funding, side),
        Applies(w, c), Applications(w1, calls[1..]), reach);
    }
  }

  /** Neither index drifts further than one capped rate plus spread per application, however the
      admin moves the cap below `limit`. */
  lemma IndicesAreBounded(w: World, calls: seq<Call>, limit: nat, side: Direction)
    requires w.funding.maxRateBps <= limit && forall c | c in calls :: RatesAtMost(c, w.funding.admin, limit)
    ensures Abs(Index(Run(w, calls).funding, side) - Index(w.funding, side))
            <= Applications(w, calls) * (limit + w.funding.spreadBps)
  {
    IndicesDrift(w, calls, limit, limit + w.funding.spreadBps, side);
  }

  lemma ClockNeverGoesBack(w: World, c: Call)
    ensures Exec(w, c).market.now >= w.market.now
  {
    if !MovesValue(c) {
      QuietCall(w, c);
    } else if Apply(w, c).Ok? && (c.CloseCall? || c.LiquidateCall?) {
      var key, pnl, fee := SettlementOf(w, c);
    }
  }

  /** The last time moves by at least the interval in force, never past a clock that never goes back. */
  lemma PaceStep(w: World, c: Call, least: nat)
    requires w.funding.lastTime <= w.market.now && w.funding.interval >= least
    requires IntervalsAtLeast(c, w.funding.admin, least)
    ensures var w' := Exec(w, c);
            && w'.funding.admin == w.funding.admin
            && w'.funding.interval >= least
            && w'.funding.lastTime >= w.funding.lastTime + (if Applies(w, c) then least else 0)
            && w'.funding.lastTime <= w'.market.now
  {
    FundingStep(w, c);
    ClockNeverGoesBack(w, c);
  }

  /** Funding cannot be applied faster than the shortest interval ever configured: every
      application moves the last time forward by at least that much, and never past the clock. */
  lemma {:induction false} FundingIsPaced(w: World, calls: seq<Call>, least: nat)
    requires w.funding.lastTime <= w.market.now
    requires w.funding.interval >= least && forall c | c in calls :: IntervalsAtLeast(c, w.funding.admin, least)
    ensures var w' := Run(w, calls);
            w.funding.lastTime + Applications(w, calls) * least <= w'.funding.lastTime <= w'.market.now
    decreases |calls|
  {
    if calls == [] {
      assert 0 * least == 0;
    } else {
      var c, w1 := calls[0], Exec(w, calls[0]);
      assert IntervalsAtLeast(c, w.funding.admin, least);
      PaceStep(w, c, least);
      FundingIsPaced(w1, calls[1..], least);
      OneMore(Applications(w1, calls[1..]), least);
    }
  }

  /** From deployment: at most one application per interval of elapsed time, the indices add up
      to the spread collected, and each stays within its reach. */
  lemma FundingFromDeployment(cfg: Config, usdc: map<Holder, int>, calls: seq<Call>, least: nat, limit: nat)
    requires Deploy(cfg, usdc).Ok?
    requires 0 < least <= cfg.fundingInterval && cfg.maxRateBps <= limit
    requires forall c | c in calls :: IntervalsAtLeast(c, cfg.admin, least) && RatesAtMost(c, cfg.admin, limit)
    ensures var w0 := Deploy(cfg, usdc).value;
            var w, n := Run(w0, calls), Applications(w0, calls);
            && n <= (w.market.now - cfg.now) / least
            && w.funding.cumulativeLong + w.funding.cumulativeShort == LiveApplications(w0, calls) * (2 * cfg.spreadBps)
            && Abs(w.funding.cumulativeLong) <= n * (limit + cfg.spreadBps)
            && Abs(w.funding.cumulativeShort) <= n * (limit + cfg.spreadBps)
  {
    var w0 := Deploy(cfg, usdc).value;
    var n, elapsed := Applications(w0, calls), Run(w0, calls).market.now - cfg.now;
    FundingIsPaced(w0, calls, least);
    IndicesGrowBySpread(w0, calls);
    IndicesAreBounded(w0, calls, limit, Long);
    IndicesAreBounded(w0, calls, limit, Short);
    DivBounds(elapsed, least);
    MulLess(n, elapsed / least + 1, least);
  }
}
