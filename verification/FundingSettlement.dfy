/** The funding that positions owe and that no call settles: no USDC, position or share ever depends
    on it, and exactly when an ending pays what it would if funding were settled. */
module FundingSettlement {
  import opened PerpsTypes
  import opened Arithmetic
  import opened PositionMath
  import opened Token
  import opened PositionManager
  import opened FundingRate
  import opened Protocol
  import opened Books
  import opened FundingRuns

  /** What a position owes for the move of its side's index since it was `entryIndex`. */
  function FundingDue(f: FundingState, p: Position, entryIndex: int): int {
    CalculateFundingPayment(p.size, entryIndex, Index(f, p.direction))
  }

  predicate FundingOnly(c: Call) {
    c.ApplyFundingCall? || c.SetIntervalCall? || c.SetMaxRateCall?
  }

  /** The same calls without those to the funding contract. */
  function WithoutFunding(calls: seq<Call>): seq<Call> {
    if calls == [] then []
    else if FundingOnly(calls[0]) then WithoutFunding(calls[1..])
    else [calls[0]] + WithoutFunding(calls[1..])
  }

  /** The token, the oracle, the vault, the manager and the engine agree. */
  predicate SameButFunding(w: World, w': World) {
    w'.market == w.market && w'.engine == w.engine
  }

  lemma FundingCallMovesNothing(w: World, c: Call)
    requires FundingOnly(c)
    ensures SameButFunding(w, Exec(w, c))
  {
  }

  lemma CallIgnoresFunding(w: World, w': World, c: Call)
    requires SameButFunding(w, w') && !FundingOnly(c)
    ensures SameButFunding(Exec(w, c), Exec(w', c))
  {
  }

  /** Whatever the funding contract holds and whatever is called on it, a run leaves the rest of the
      protocol where the run without these calls leaves it. */
  lemma {:induction false} FundingMovesNothing(w: World, w': World, calls: seq<Call>)
    requires SameButFunding(w, w')
    ensures SameButFunding(Run(w, calls), Run(w', WithoutFunding(calls)))
    decreases |calls|
  {
    if calls != [] {
      var c := calls[0];
      if FundingOnly(c) {
        FundingCallMovesNothing(w, c);
        FundingMovesNothing(Exec(w, c), w', calls[1..]);
      } else {
        CallIgnoresFunding(w, w', c);
        FundingMovesNothing(Exec(w, c), Exec(w', c), calls[1..]);
        var rest := WithoutFunding(calls[1..]);
        assert WithoutFunding(calls)[0] == c && WithoutFunding(calls)[1..] == rest;
      }
    }
  }

  /** What is left of the position that a close or a liquidation ends: the collateral and the capped
      PnL, less the fee of a close. */
  function EquityLeft(m: Market, c: Call): int
    requires c.CloseCall? || c.LiquidateCall?
    requires PositionKey(c.trader, c.id) in m.manager.positions
    requires PricePnl(m, m.manager.positions[PositionKey(c.trader, c.id)]).Ok?
  {
    var p := m.manager.positions[PositionKey(c.trader, c.id)];
    p.collateral + PricePnl(m, p).value
    - (if c.CloseCall? then CalculateFee(p.size, m.manager.closeFeeBps) else 0)
  }

  /** The ending pays its trader this much. */
  predicate Pays(w: World, c: Call, amount: int)
    requires (c.CloseCall? || c.LiquidateCall?) && Apply(w, c).Ok?
  {
    BalanceOf(Apply(w, c).value.market.token, User(c.trader)) == BalanceOf(w.market.token, User(c.trader)) + amount
  }

  /** An ending pays what is left, if anything, and settles no funding. */
  lemma EndingPaysEquity(w: World, c: Call)
    requires (c.CloseCall? || c.LiquidateCall?) && Apply(w, c).Ok?
    ensures PositionKey(c.trader, c.id) in w.market.manager.positions
    ensures PricePnl(w.market, w.market.manager.positions[PositionKey(c.trader, c.id)]).Ok?
    ensures Pays(w, c, Max(0, EquityLeft(w.market, c)))
  {
    var key, pnl, fee := SettlementOf(w, c);
  }

  lemma EndingPaysIff(w: World, c: Call, due: int)
    requires (c.CloseCall? || c.LiquidateCall?) && Apply(w, c).Ok?
    ensures PositionKey(c.trader, c.id) in w.market.manager.positions
    ensures PricePnl(w.market, w.market.manager.positions[PositionKey(c.trader, c.id)]).Ok?
    ensures var equity := EquityLeft(w.market, c);
            Pays(w, c, Max(0, equity - due)) <==> due == 0 || (equity <= 0 && equity <= due)
  {
    EndingPaysEquity(w, c);
  }

  /** An ending pays what it would if the funding due were settled exactly when nothing is due, that
      is when size times index move is below 10000, or when nothing is left to pay either way. */
  lemma EndingSettlesFundingIff(w: World, c: Call, entryIndex: int)
    requires PositionsSound(w.market.manager)
    requires (c.CloseCall? || c.LiquidateCall?) && Apply(w, c).Ok?
    ensures PositionKey(c.trader, c.id) in w.market.manager.positions
    ensures PricePnl(w.market, w.market.manager.positions[PositionKey(c.trader, c.id)]).Ok?
    ensures var p, equity := w.market.manager.positions[PositionKey(c.trader, c.id)], EquityLeft(w.market, c);
            var due := FundingDue(w.funding, p, entryIndex);
            Pays(w, c, Max(0, equity - due))
            <==> p.size * Abs(Index(w.funding, p.direction) - entryIndex) < BPS || (equity <= 0 && equity <= due)
  {
    EndingPaysEquity(w, c);
    var p := w.market.manager.positions[PositionKey(c.trader, c.id)];
    EndingPaysIff(w, c, FundingDue(w.funding, p, entryIndex));
    assert PositionSound(PositionKey(c.trader, c.id), p, w.market.manager.nextId);
    NoPaymentIff(p.size, entryIndex, Index(w.funding, p.direction));
  }
}
