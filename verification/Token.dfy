/** The USDC token, as far as the protocol uses it: balances and transfers. */
module Token {
  import opened PerpsTypes
  import opened Arithmetic
  import opened MapSums

  type Balances = map<Holder, int>

  function BalanceOf(t: Balances, h: Holder): int {
    if h in t then t[h] else 0
  }

  /** A transfer is refused when the amount is negative or exceeds the sender's balance. */
  function Transfer(t: Balances, from: Holder, to: Holder, amount: int): Result<Balances> {
    if amount < 0 || BalanceOf(t, from) < amount then Err(TransferTrap)
    else
      var debited := t[from := BalanceOf(t, from) - amount];
      var credit :- I128(BalanceOf(debited, to) + amount);
      Ok(debited[to := credit])
  }

  /** A transfer moves USDC between two holders and creates none. */
  lemma TransferConserves(t: Balances, from: Holder, to: Holder, amount: int)
    requires Transfer(t, from, to, amount).Ok?
    ensures Sum(Transfer(t, from, to, amount).value) == Sum(t)
  {
    var debited := t[from := BalanceOf(t, from) - amount];
    SumUpdate(t, from, BalanceOf(t, from) - amount);
    SumUpdate(debited, to, BalanceOf(debited, to) + amount);
  }

  class UsdcToken {
    var balances: Balances

    constructor (balances: Balances)
      ensures this.balances == balances
    {
      this.balances := balances;
    }

    method TransferFrom(from: Holder, to: Holder, amount: int) returns (r: Result<()>)
      modifies this
      ensures match Transfer(old(balances), from, to, amount)
              case Ok(t) => r == Ok(()) && balances == t
              case Err(e) => r == Err(e) && balances == old(balances)
    {
      if amount < 0 || BalanceOf(balances, from) < amount {
        return Err(TransferTrap);
      }
      var debited := balances[from := BalanceOf(balances, from) - amount];
      var credit :- I128(BalanceOf(debited, to) + amount);
      balances := debited[to := credit];
      r := Ok(());
    }
  }
}
