/** The skew-based funding rate and its cumulative indices. */
module FundingRate {
  import opened PerpsTypes
  import opened Arithmetic
  import opened PositionManager

  datatype FundingState = FundingState(
    admin: Account,
    interval: nat,
    maxRateBps: nat,
    spreadBps: nat,
    cumulativeLong: int,
    cumulativeShort: int,
    lastTime: nat)

  function Clamp(value: int, min: int, max: int): int {
    if value < min then min else if value > max then max else value
  }

  /** The long and the short rate in basis points, from the skew of the open interest. */
  function CurrentRate(f: FundingState, oiLong: int, oiShort: int): Result<(int, int)> {
    var total :- I128(oiLong + oiShort);
    if total == 0 then Ok((0, 0))
    else
      var difference :- I128(oiLong - oiShort);
      var scaled :- I128(difference * BPS);
      var skew :- I128(TDiv(scaled, total));
      var base := Clamp(skew, -(f.maxRateBps as int), f.maxRateBps);
      var longRate :- I128(base + f.spreadBps);
      var shortRate :- I128(-(base - f.spreadBps));
      Ok((longRate, shortRate))
  }

  function ApplyFunding(f: FundingState, now: nat, oiLong: int, oiShort: int): Result<FundingState> {
    var elapsed :- U64(now - f.lastTime);
    if elapsed < f.interval then Err(FundingTooEarly)
    else
      var rates :- CurrentRate(f, oiLong, oiShort);
      var cumulativeLong :- I128(f.cumulativeLong + rates.0);
      var cumulativeShort :- I128(f.cumulativeShort + rates.1);
      Ok(f.(cumulativeLong := cumulativeLong, cumulativeShort := cumulativeShort, lastTime := now))
  }

  function SetFundingInterval(f: FundingState, caller: Account, interval: nat): Result<FundingState> {
    if caller != f.admin then Err(Unauthorized)
    else if interval == 0 then Err(InvalidConfig)
    else Ok(f.(interval := interval))
  }

  function SetMaxRate(f: FundingState, caller: Account, maxBps: nat): Result<FundingState> {
    if caller != f.admin then Err(Unauthorized)
    else if maxBps == 0 then Err(InvalidConfig)
    else Ok(f.(maxRateBps := maxBps))
  }

  class Funding {
    const admin: Account
    const manager: Manager
    var interval: nat
    var maxRateBps: nat
    var spreadBps: nat
    var cumulativeLong: int
    var cumulativeShort: int
    var lastTime: nat

    function State(): FundingState
      reads this
    {
      FundingState(admin, interval, maxRateBps, spreadBps, cumulativeLong, cumulativeShort, lastTime)
    }

    constructor (f: FundingState, manager: Manager)
      ensures State() == f && this.manager == manager
    {
      this.admin, this.manager := f.admin, manager;
      interval, maxRateBps, spreadBps := f.interval, f.maxRateBps, f.spreadBps;
      cumulativeLong, cumulativeShort, lastTime := f.cumulativeLong, f.cumulativeShort, f.lastTime;
    }

    /** A keeper applies one interval's funding. */
    method ApplyCall(now: nat) returns (r: Result<()>)
      modifies this
      ensures match ApplyFunding(old(State()), now, manager.oiLong, manager.oiShort)
              case Ok(f) => r == Ok(()) && State() == f
              case Err(e) => r == Err(e) && State() == old(State())
    {
      var elapsed :- U64(now - lastTime);
      if elapsed < interval {
        return Err(FundingTooEarly);
      }
      var rates :- CurrentRate(State(), manager.oiLong, manager.oiShort);
      var newLong :- I128(cumulativeLong + rates.0);
      var newShort :- I128(cumulativeShort + rates.1);
      cumulativeLong := newLong;
      cumulativeShort := newShort;
      lastTime := now;
      r := Ok(());
    }

    method SetInterval(caller: Account, newInterval: nat) returns (r: Result<()>)
      modifies this
      ensures match SetFundingInterval(old(State()), caller, newInterval)
              case Ok(f) => r == Ok(()) && State() == f
              case Err(e) => r == Err(e) && State() == old(State())
    {
      if caller != admin {
        return Err(Unauthorized);
      }
      if newInterval == 0 {
        return Err(InvalidConfig);
      }
      interval := newInterval;
      r := Ok(());
    }

    method SetMax(caller: Account, maxBps: nat) returns (r: Result<()>)
      modifies this
      ensures match SetMaxRate(old(State()), caller, maxBps)
              case Ok(f) => r == Ok(()) && State() == f
              case Err(e) => r == Err(e) && State() == old(State())
    {
      if caller != admin {
        return Err(Unauthorized);
      }
      if maxBps == 0 {
        return Err(InvalidConfig);
      }
      maxRateBps := maxBps;
      r := Ok(());
    }
  }
}
