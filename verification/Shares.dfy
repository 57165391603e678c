/** Share mint, redemption, price and utilization arithmetic of the vault. */
module Shares {
  import opened PerpsTypes
  import opened Arithmetic

  function CalcSharesToMint(amount: int, totalShares: int, totalDeposits: int): int {
    if totalShares == 0 || totalDeposits == 0 then amount
    else TDiv(amount * totalShares, totalDeposits)
  }

  function CalcWithdrawalAmount(shares: int, totalShares: int, totalDeposits: int): int {
    if totalShares == 0 then 0
    else TDiv(shares * totalDeposits, totalShares)
  }

  function CalcSharePrice(totalShares: int, totalDeposits: int): int {
    if totalShares == 0 then DECIMALS
    else TDiv(totalDeposits * DECIMALS, totalShares)
  }

  /** The utilization before it is cast to u32. */
  function WideUtilizationBps(locked: int, totalDeposits: int): int {
    if totalDeposits == 0 then 0
    else TDiv(locked * BPS, totalDeposits)
  }

  function CalcUtilizationBps(locked: int, totalDeposits: int): nat {
    AsU32(WideUtilizationBps(locked, totalDeposits))
  }

  // The same formulas with their overflow checks.

  function SharesToMint(amount: int, totalShares: int, totalDeposits: int): Result<int> {
    var minted := CalcSharesToMint(amount, totalShares, totalDeposits);
    if totalShares == 0 || totalDeposits == 0 || (Fits(amount * totalShares) && Fits(minted)) then Ok(minted)
    else Err(ArithmeticTrap)
  }

  function WithdrawalAmount(shares: int, totalShares: int, totalDeposits: int): Result<int> {
    var usdc := CalcWithdrawalAmount(shares, totalShares, totalDeposits);
    if totalShares == 0 || (Fits(shares * totalDeposits) && Fits(usdc)) then Ok(usdc)
    else Err(ArithmeticTrap)
  }

  function UtilizationBps(locked: int, totalDeposits: int): Result<nat> {
    if totalDeposits == 0 || (Fits(locked * BPS) && Fits(WideUtilizationBps(locked, totalDeposits)))
    then Ok(CalcUtilizationBps(locked, totalDeposits))
    else Err(ArithmeticTrap)
  }

  /** Pool `(s1, d1)` prices a share no lower than pool `(s0, d0)` does: the comparison of
      `d1 / s1` with `d0 / s0`, without dividing. */
  predicate PriceNotLower(s0: int, d0: int, s1: int, d1: int) {
    d1 * s0 >= d0 * s1
  }

  lemma PriceNotLowerTransitive(s0: int, d0: int, s1: int, d1: int, s2: int, d2: int)
    requires s0 > 0 && s1 > 0 && s2 > 0
    requires PriceNotLower(s0, d0, s1, d1) && PriceNotLower(s1, d1, s2, d2)
    ensures PriceNotLower(s0, d0, s2, d2)
  {
  }

  /** The floor that both the mint and the redemption formula take. */
  lemma FloorOfRatio(x: int, y: int, z: int)
    requires x >= 0 && y >= 0 && z > 0
    ensures var q := TDiv(x * y, z); 0 <= q && q * z <= x * y < q * z + z
  {
    assert x * y >= 0;
    TDivBounds(x * y, z);
    var q := TDiv(x * y, z);
    assert (q + 1) * z == q * z + z;
  }

  lemma FloorIsLargest(q: int, x: int, y: int, z: int)
    requires x >= 0 && y >= 0 && z > 0
    requires q * z <= x * y
    ensures q <= TDiv(x * y, z)
  {
    FloorOfRatio(x, y, z);
    var t := TDiv(x * y, z);
    assert (t + 1) * z == t * z + z;
    if t < q {
      MulMono(t + 1, q, z);
    }
  }

  /** A balance that does not move is worth no less at a price that is no lower. */
  lemma IdleShareValue(balance: int, s0: int, d0: int, s1: int, d1: int)
    requires 0 <= balance && s0 > 0 && s1 > 0 && d0 >= 0 && d1 >= 0
    requires PriceNotLower(s0, d0, s1, d1)
    ensures CalcWithdrawalAmount(balance, s0, d0) <= CalcWithdrawalAmount(balance, s1, d1)
  {
    FloorOfRatio(balance, d0, s0);
    FloorOfRatio(balance, d1, s1);
    var q0 := CalcWithdrawalAmount(balance, s0, d0);
    MulMono(q0 * s0, balance * d0, s1);
    MulMono(d0 * s1, d1 * s0, balance);
    assert (q0 * s0) * s1 == (q0 * s1) * s0;
    assert (balance * d0) * s1 == (d0 * s1) * balance;
    assert (balance * d1) * s0 == (d1 * s0) * balance;
    if q0 * s1 > balance * d1 {
      MulLess(balance * d1, q0 * s1, s0);
    }
    FloorIsLargest(q0, balance, d1, s1);
  }

  /** A deposit never lowers the share price. */
  lemma MintKeepsPrice(amount: int, s: int, d: int)
    requires amount > 0 && s > 0 && d >= 0
    ensures var m := CalcSharesToMint(amount, s, d); m >= 0 && PriceNotLower(s, d, s + m, d + amount)
  {
    if d > 0 {
      FloorOfRatio(amount, s, d);
    } else {
      assert amount * s >= 0;
    }
    var m := CalcSharesToMint(amount, s, d);
    assert (d + amount) * s == d * s + amount * s;
    assert d * (s + m) == d * s + m * d;
  }

  /** A redemption never lowers it either. */
  lemma RedeemKeepsPrice(shares: int, s: int, d: int)
    requires 0 < shares <= s && d >= 0
    ensures var r := CalcWithdrawalAmount(shares, s, d); 0 <= r <= d && PriceNotLower(s, d, s - shares, d - r)
  {
    FloorOfRatio(shares, d, s);
    var r := CalcWithdrawalAmount(shares, s, d);
    assert (d - r) * s == d * s - r * s;
    assert d * (s - shares) == d * s - shares * d;
    assert (d + 1) * s == d * s + s;
    MulMono(shares, s, d);
    if r > d {
      MulMono(d + 1, r, s);
    }
  }

  /** Redeeming every share empties the pool. */
  lemma RedeemAll(s: int, d: int)
    requires s > 0 && d >= 0
    ensures CalcWithdrawalAmount(s, s, d) == d
  {
    FloorOfRatio(s, d, s);
    var r := CalcWithdrawalAmount(s, s, d);
    assert d * s == s * d;
    RedeemKeepsPrice(s, s, d);
    FloorIsLargest(d, s, d, s);
  }

  lemma RoundTripLoss(amount: int, s: int, d: int, m: int, r: int)
    requires s > 0 && d > 0 && m >= 0
    requires m * d <= amount * s < m * d + d
    requires r * (s + m) <= m * (d + amount) < r * (s + m) + (s + m)
    ensures r <= amount && (amount - r - 1) * s < d
  {
    var loss := amount - r - 1;
    assert r * (s + m) == r * s + r * m && m * (d + amount) == m * d + m * amount;
    assert loss * s == amount * s - r * s - s;
    assert loss * m == amount * m - r * m - m;
    assert loss * (s + m) == loss * s + loss * m;
    if loss >= 0 {
      MulMono(0, loss, m);
    } else {
      MulMono(loss, 0, s);
      if loss < -1 {
        MulMono(loss, -2, s + m);
      }
    }
  }

  /** Depositing and redeeming at once returns at most the deposit, and loses less than one
      share's worth plus one unit. */
  lemma RoundTrip(amount: int, s: int, d: int)
    requires amount > 0 && s > 0 && d > 0
    ensures var m := CalcSharesToMint(amount, s, d);
            var r := CalcWithdrawalAmount(m, s + m, d + amount);
            0 <= r <= amount && (amount - r - 1) * s < d
  {
    FloorOfRatio(amount, s, d);
    var m := CalcSharesToMint(amount, s, d);
    FloorOfRatio(m, d + amount, s + m);
    var r := CalcWithdrawalAmount(m, s + m, d + amount);
    RoundTripLoss(amount, s, d, m, r);
  }

  /** Redeeming in two pieces stays within the price of the whole: rounding the first piece down
      raises the price of the rest by no more than the first piece lost. */
  lemma RedeemTwiceBound(first: int, rest: int, s: int, d: int, r: int, r2: int)
    requires 0 < s - first && rest <= s - first && s > 0
    requires r * s <= first * d
    requires r2 * (s - first) <= rest * (d - r)
    ensures (r + r2) * s <= (first + rest) * d
  {
  }

  /** Minting in two pieces stays within the price of the whole. */
  lemma MintTwiceBound(first: int, rest: int, s: int, d: int, m: int, m2: int)
    requires first > 0 && rest >= 0 && d > 0
    requires m * d <= first * s
    requires m2 * (d + first) <= rest * (s + m)
    ensures (m + m2) * d <= (first + rest) * s
  {
  }

  /** What passing the utilization check means, when the cast to u32 loses nothing. */
  lemma UtilizationBound(locked: int, d: int, m: nat)
    requires locked >= 0 && d > 0
    requires WideUtilizationBps(locked, d) < U32_MODULUS
    ensures CalcUtilizationBps(locked, d) <= m <==> locked * BPS < (m + 1) * d
  {
    TDivBounds(locked * BPS, d);
    var u := TDiv(locked * BPS, d);
    if u <= m { MulMono(u + 1, m + 1, d); } else { MulMono(m + 1, u, d); }
  }

  /** The stored utilization is the true one exactly when the true one fits a u32. */
  lemma UtilizationCastExact(locked: int, d: int)
    requires locked >= 0 && d >= 0
    ensures CalcUtilizationBps(locked, d) == WideUtilizationBps(locked, d)
            <==> WideUtilizationBps(locked, d) < U32_MODULUS
  {
    if d > 0 {
      TDivBounds(locked * BPS, d);
    }
  }
}
