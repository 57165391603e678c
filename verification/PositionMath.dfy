/** Profit and loss, trading fees and funding payments of a position. */
module PositionMath {
  import opened PerpsTypes
  import opened Arithmetic

  function PriceMove(direction: Direction, entryPrice: int, currentPrice: int): int {
    match direction
    case Long => currentPrice - entryPrice
    case Short => entryPrice - currentPrice
  }

  function CalculatePnl(direction: Direction, size: int, entryPrice: int, currentPrice: int): int
    requires entryPrice != 0
  {
    TDiv(size * PriceMove(direction, entryPrice, currentPrice), entryPrice)
  }

  function CalculateFee(notionalSize: int, feeBps: nat): int {
    TDiv(notionalSize * feeBps, BPS)
  }

  function CalculateFundingPayment(size: int, entryIndex: int, currentIndex: int): int {
    TDiv(size * (currentIndex - entryIndex), BPS)
  }

  // The same formulas with their overflow and division checks.

  function Pnl(direction: Direction, size: int, entryPrice: int, currentPrice: int): Result<int> {
    var move := PriceMove(direction, entryPrice, currentPrice);
    if entryPrice != 0 && Fits(move) && Fits(size * move)
       && Fits(CalculatePnl(direction, size, entryPrice, currentPrice))
    then Ok(CalculatePnl(direction, size, entryPrice, currentPrice))
    else Err(ArithmeticTrap)
  }

  function Fee(notionalSize: int, feeBps: nat): Result<int> {
    if Fits(notionalSize * feeBps) then Ok(CalculateFee(notionalSize, feeBps))
    else Err(ArithmeticTrap)
  }

  /** The loss a trader can book is capped at the collateral. */
  function CapLoss(pnl: int, collateral: int): int {
    if pnl < -collateral then -collateral else pnl
  }

  /** Long and short on the same terms win and lose exactly the same. */
  lemma PnlIsZeroSum(size: int, entryPrice: int, currentPrice: int)
    requires entryPrice > 0
    ensures CalculatePnl(Long, size, entryPrice, currentPrice) == -CalculatePnl(Short, size, entryPrice, currentPrice)
  {
    var x := size * (currentPrice - entryPrice);
    assert size * (entryPrice - currentPrice) == -x;
    TDivNegates(x, entryPrice);
  }

  /** At a positive price a long cannot lose, and a short cannot win, more than its size; a
      long wins at most its size exactly up to twice its entry price (and the rounding above it). */
  lemma PnlWithinSize(size: int, entryPrice: int, currentPrice: int)
    requires size > 0 && entryPrice > 0 && currentPrice > 0
    ensures CalculatePnl(Long, size, entryPrice, currentPrice) >= -size
    ensures CalculatePnl(Short, size, entryPrice, currentPrice) <= size
    ensures CalculatePnl(Long, size, entryPrice, currentPrice) <= size
            <==> size * (currentPrice - 2 * entryPrice) < entryPrice
  {
    PnlIsZeroSum(size, entryPrice, currentPrice);
    var x := size * (currentPrice - entryPrice);
    MulMono(-entryPrice, currentPrice - entryPrice, size);
    TDivBelow(x, entryPrice, -size);
    assert (-size - 1) * entryPrice == -entryPrice * size - entryPrice;
    TDivBelow(x, entryPrice, size + 1);
    assert (size + 1) * entryPrice == size * entryPrice + entryPrice;
    assert size * (currentPrice - 2 * entryPrice) == x - size * entryPrice;
  }

  /** A fee at a non-negative rate is the largest amount whose `BPS`-fold the rate covers. */
  lemma FeeBounds(size: int, feeBps: nat)
    requires size >= 0
    ensures var fee := CalculateFee(size, feeBps);
            0 <= fee && fee * BPS <= size * feeBps < (fee + 1) * BPS
  {
  }

  lemma FeeIsPositiveIff(size: int, feeBps: nat)
    ensures CalculateFee(size, feeBps) > 0 <==> size * feeBps >= BPS
  {
    TDivBelow(size * feeBps, BPS, 1);
  }

  /** A position owes or receives nothing exactly when its size times the index move is below 10000. */
  lemma NoPaymentIff(size: int, entryIndex: int, currentIndex: int)
    requires size > 0
    ensures CalculateFundingPayment(size, entryIndex, currentIndex) == 0
            <==> size * Abs(currentIndex - entryIndex) < BPS
  {
  }

  /** What a position would pay if every step of the index path were settled as it happened. */
  ghost function SteppedPayments(size: int, path: seq<int>): int
    requires |path| > 0
  {
    if |path| == 1 then 0
    else SteppedPayments(size, path[..|path| - 1])
         + CalculateFundingPayment(size, path[|path| - 2], path[|path| - 1])
  }

  /** Splitting a span in two moves what is paid over it by at most one unit. */
  lemma SpanSplits(size: int, start: int, middle: int, end: int)
    ensures Abs(CalculateFundingPayment(size, start, middle) + CalculateFundingPayment(size, middle, end)
                - CalculateFundingPayment(size, start, end)) <= 1
  {
  }

  /** Settling funding lazily, over the whole span at once, is off from settling every step by
      less than one unit per step, whichever way the index moves. */
  lemma {:induction false} LazyFundingIsAccurate(size: int, path: seq<int>)
    requires |path| >= 2
    ensures Abs(SteppedPayments(size, path) - CalculateFundingPayment(size, path[0], path[|path| - 1])) <= |path| - 2
  {
    var n := |path| - 1;
    var init := path[..n];
    if n == 1 {
      assert SteppedPayments(size, init) == 0;
    } else {
      LazyFundingIsAccurate(size, init);
      assert init[0] == path[0] && init[|init| - 1] == path[n - 1];
      SpanSplits(size, path[0], path[n - 1], path[n]);
    }
  }
}
