/** The oracle adapter: one cached price per asset, trusted only while it is fresh. */
module Oracle {
  import opened PerpsTypes
  import opened Arithmetic

  datatype CachedPrice = CachedPrice(price: int, timestamp: nat)

  datatype OracleState = OracleState(admin: Account, stalenessThreshold: nat, prices: map<Asset, CachedPrice>)

  function SetPrice(o: OracleState, now: nat, caller: Account, asset: Asset, price: int): Result<OracleState> {
    if caller != o.admin then Err(Unauthorized)
    else if price <= 0 then Err(InvalidAmount)
    else Ok(o.(prices := o.prices[asset := CachedPrice(price, now)]))
  }

  function SetStalenessThreshold(o: OracleState, caller: Account, threshold: nat): Result<OracleState> {
    if caller != o.admin then Err(Unauthorized)
    else if threshold == 0 then Err(InvalidConfig)
    else Ok(o.(stalenessThreshold := threshold))
  }

  function GetPrice(o: OracleState, now: nat, asset: Asset): Result<CachedPrice> {
    if asset !in o.prices then Err(StalePrice)
    else
      var cached := o.prices[asset];
      var age :- U64(now - cached.timestamp);
      if age > o.stalenessThreshold then Err(StalePrice) else Ok(cached)
  }

  function GetPriceValue(o: OracleState, now: nat, asset: Asset): Result<int> {
    var cached :- GetPrice(o, now, asset);
    Ok(cached.price)
  }

  /** The host may drop a cached price, which lives in temporary storage. */
  function ExpirePrice(o: OracleState, asset: Asset): OracleState {
    o.(prices := o.prices - {asset})
  }

  class OracleAdapter {
    const admin: Account
    var stalenessThreshold: nat
    var prices: map<Asset, CachedPrice>

    function State(): OracleState
      reads this
    {
      OracleState(admin, stalenessThreshold, prices)
    }

    constructor (o: OracleState)
      ensures State() == o
    {
      admin, stalenessThreshold, prices := o.admin, o.stalenessThreshold, o.prices;
    }

    method Set(now: nat, caller: Account, asset: Asset, price: int) returns (r: Result<()>)
      modifies this
      ensures match SetPrice(old(State()), now, caller, asset, price)
              case Ok(o) => r == Ok(()) && State() == o
              case Err(e) => r == Err(e) && State() == old(State())
    {
      if caller != admin {
        return Err(Unauthorized);
      }
      if price <= 0 {
        return Err(InvalidAmount);
      }
      prices := prices[asset := CachedPrice(price, now)];
      r := Ok(());
    }

    method SetThreshold(caller: Account, threshold: nat) returns (r: Result<()>)
      modifies this
      ensures match SetStalenessThreshold(old(State()), caller, threshold)
              case Ok(o) => r == Ok(()) && State() == o
              case Err(e) => r == Err(e) && State() == old(State())
    {
      if caller != admin {
        return Err(Unauthorized);
      }
      if threshold == 0 {
        return Err(InvalidConfig);
      }
      stalenessThreshold := threshold;
      r := Ok(());
    }

    method Expire(asset: Asset)
      modifies this
      ensures State() == ExpirePrice(old(State()), asset)
    {
      prices := prices - {asset};
    }
  }
}
