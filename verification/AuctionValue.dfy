/** The bargain of an auction: its terms stay what they were at the start, and what the winner pays, with
    the incentive on top, covers the risk fund the winner gets, to within one basis point of the
    incentivised debt and the truncation of each market's payment. */
module AuctionValue {
  import opened FixedPoint
  import opened Outcomes
  import opened Ledger
  import opened Totals
  import opened Auctions
  import opened AuctionLife

  // ---------- terms ----------

  predicate SameTerms(a: Auction, a': Auction) {
    && a'.start == a.start && a'.kind == a.kind && a'.markets == a.markets && a'.marketDebt == a.marketDebt
    && a'.seizedRiskFund == a.seizedRiskFund && a'.startBidBps == a.startBidBps
  }

  lemma BidTerms(c: Config, s: State, e: Event, pool: Pool)
    requires Inv(c, s) && e.Bid? && Auctions.Next(c, s, e).Done?
    ensures SameTerms(AuctionOf(s, pool), AuctionOf(Auctions.After(c, s, e), pool))
  {
    BidEffect(c, s, e.pool, e.bidder, e.bps, e.marker, e.how);
  }

  lemma CloseTerms(c: Config, s: State, e: Event, pool: Pool)
    requires Inv(c, s) && e.Close? && Auctions.Next(c, s, e).Done?
    ensures SameTerms(AuctionOf(s, pool), AuctionOf(Auctions.After(c, s, e), pool))
  {
    CloseEffect(c, s, e.pool, e.how, e.payment);
  }

  lemma TermsStep(c: Config, s: State, e: Event, pool: Pool)
    requires Inv(c, s)
    ensures var before, after := AuctionOf(s, pool), AuctionOf(Auctions.After(c, s, e), pool);
      before.start < after.start || SameTerms(before, after)
  {
    if Auctions.Next(c, s, e).Done? {
      if e.Start? || e.Restart? {
        StartTerms(c, s, e, pool);
      } else if e.Bid? {
        BidTerms(c, s, e, pool);
      } else if e.Close? {
        CloseTerms(c, s, e, pool);
      } else {
        QuietEvent(c, s, e);
      }
    }
  }

  lemma StartTerms(c: Config, s: State, e: Event, pool: Pool)
    requires Inv(c, s) && (e.Start? || e.Restart?) && Auctions.Next(c, s, e).Done?
    ensures var s' := Auctions.After(c, s, e);
      if pool == e.pool then AuctionOf(s, pool).start < AuctionOf(s', pool).start
      else AuctionOf(s', pool) == AuctionOf(s, pool)
  {
    StartOnward(c, s, e, pool);
    if e.Start? {
      ReadyToStart(c, s, e.pool);
      StartKeeps(c, s, e.pool, e.prices, e.basePrice, pool);
    } else {
      RestartKeeps(c, s, e.pool, e.prices, e.basePrice, pool);
    }
  }

  /// As long as a pool's auction is the same one, its terms and recorded debts are the same.
  lemma {:induction false} TermsStay(c: Config, s: State, events: seq<Event>, pool: Pool)
    requires Inv(c, s)
    requires AuctionOf(Auctions.Run(c, s, events), pool).start == AuctionOf(s, pool).start
    ensures SameTerms(AuctionOf(s, pool), AuctionOf(Auctions.Run(c, s, events), pool))
    decreases |events|
  {
    if |events| > 0 {
      var s1 := Auctions.After(c, s, events[0]);
      EventKeeps(c, s, events[0]);
      TermsStep(c, s, events[0], pool);
      MarkersOnlyGrow(c, s1, events[1..], pool);
      TermsStay(c, s1, events[1..], pool);
    }
  }

  // ---------- values ----------

  /// The exact value, times 1e18, of the debts, of the payments of a bid, and of one unit of each token.
  function ExactDebt(debts: map<MarketId, nat>, markets: seq<MarketId>, prices: map<MarketId, nat>): nat {
    if |markets| == 0 then 0
    else ExactDebt(debts, markets[..|markets| - 1], prices) + Product(prices, debts, markets[|markets| - 1])
  }

  function Product(prices: map<MarketId, nat>, amounts: map<MarketId, nat>, mk: MarketId): nat {
    Get(prices, mk) * Get(amounts, mk)
  }

  function Payments(kind: Kind, debts: map<MarketId, nat>, bps: nat): map<MarketId, nat> {
    map mk | mk in debts :: BidPayment(kind, debts[mk], bps)
  }

  function UnitPrices(markets: seq<MarketId>, prices: map<MarketId, nat>): nat {
    if |markets| == 0 then 0
    else UnitPrices(markets[..|markets| - 1], prices) + Get(prices, markets[|markets| - 1])
  }

  lemma PaymentOfOne(price: nat, debt: nat, bps: nat)
    ensures price * debt * bps <= MAX_BPS * (price * (debt * bps / MAX_BPS) + price)
  {
    var paid := debt * bps / MAX_BPS;
    DivBounds(debt * bps, MAX_BPS, paid + 1);
    MulLe(debt * bps, (paid + 1) * MAX_BPS, price);
    assert debt * bps * price == price * debt * bps;
    assert (paid + 1) * MAX_BPS * price == MAX_BPS * (price * paid + price);
  }

  lemma PaymentIn(debts: map<MarketId, nat>, bps: nat, mk: MarketId)
    ensures Get(Payments(LargePoolDebt, debts, bps), mk) == Get(debts, mk) * bps / MAX_BPS
  {
    if mk !in debts {
      assert 0 * bps / MAX_BPS == 0;
    }
  }

  /// A percentage of the debts is paid up to one unit of each token.
  lemma {:induction false} PaymentsCover(debts: map<MarketId, nat>, markets: seq<MarketId>, prices: map<MarketId, nat>, bps: nat)
    ensures ExactDebt(debts, markets, prices) * bps
         <= MAX_BPS * (ExactDebt(Payments(LargePoolDebt, debts, bps), markets, prices) + UnitPrices(markets, prices))
    decreases |markets|
  {
    if |markets| > 0 {
      var mk, rest := markets[|markets| - 1], markets[..|markets| - 1];
      var price, debt := Get(prices, mk), Get(debts, mk);
      PaymentsCover(debts, rest, prices, bps);
      PaymentOfOne(price, debt, bps);
      PaymentIn(debts, bps, mk);
      SumScaled(ExactDebt(debts, rest, prices), price * debt, bps);
    }
  }

  lemma SumScaled(x: nat, y: nat, bps: nat)
    ensures (x + y) * bps == x * bps + y * bps
  {
  }

  /// The value the contract computes is the exact one, less than one unit down for each market.
  lemma {:induction false} ExactDebtCovers(s: State, debts: map<MarketId, nat>, markets: seq<MarketId>, prices: map<MarketId, nat>)
    requires forall mk | mk in markets :: Get(debts, mk) == MarketAt(s, mk).badDebt
    ensures PoolBadDebt(s, markets, prices) * EXP_SCALE <= ExactDebt(debts, markets, prices)
         <= (PoolBadDebt(s, markets, prices) + |markets|) * EXP_SCALE
    decreases |markets|
  {
    if |markets| > 0 {
      var mk, rest := markets[|markets| - 1], markets[..|markets| - 1];
      ExactDebtCovers(s, debts, rest, prices);
      DivBounds(Get(prices, mk) * Get(debts, mk), EXP_SCALE, DebtValue(s, mk, prices));
      DivBounds(Get(prices, mk) * Get(debts, mk), EXP_SCALE, DebtValue(s, mk, prices) + 1);
    }
  }

  lemma CoverArithmetic(riskFund: nat, debt: nat, rate: nat, bps: nat, exact: nat, paid: nat, units: nat)
    requires 0 < debt * rate && MAX_BPS * MAX_BPS * riskFund / (debt * rate) <= bps
    requires debt * EXP_SCALE <= exact && exact * bps <= MAX_BPS * (paid + units)
    ensures MAX_BPS * MAX_BPS * riskFund * EXP_SCALE <= (MAX_BPS * (paid + units) + debt * EXP_SCALE) * rate
  {
    var x := debt * rate;
    DivBounds(MAX_BPS * MAX_BPS * riskFund, x, bps + 1);
    assert MAX_BPS * MAX_BPS * riskFund <= (bps + 1) * x;
    MulLe(MAX_BPS * MAX_BPS * riskFund, (bps + 1) * x, EXP_SCALE);
    assert (bps + 1) * x * EXP_SCALE == (bps + 1) * (debt * EXP_SCALE) * rate by {
      Regroup(bps + 1, debt, rate);
    }
    MulLe(debt * EXP_SCALE, exact, bps);
    assert (bps + 1) * (debt * EXP_SCALE) == debt * EXP_SCALE * bps + debt * EXP_SCALE;
    MulLe((bps + 1) * (debt * EXP_SCALE), MAX_BPS * (paid + units) + debt * EXP_SCALE, rate);
  }

  lemma Regroup(n: nat, debt: nat, rate: nat)
    ensures n * (debt * rate) * EXP_SCALE == n * (debt * EXP_SCALE) * rate
  {
  }

  // ---------- auctions from their start on ----------

  /// In s the event starts an auction of its pool, or restarts a stale one.
  ghost predicate Opens(c: Config, s: State, e: Event) {
    Inv(c, s) && (e.Start? || e.Restart?) && Auctions.Next(c, s, e).Done?
  }

  /// After some events more, a is still the auction that e opened in s, and somebody leads it.
  ghost predicate Leads(c: Config, s: State, e: Event, events: seq<Event>, a: Auction) {
    && Opens(c, s, e)
    && a == AuctionOf(Auctions.Run(c, Auctions.After(c, s, e), events), e.pool)
    && a.start == s.now && a.status == Started && a.highestBidder != Nobody
  }

  function RiskFund(s: State, pool: Pool, basePrice: nat): nat {
    MulTruncate(basePrice, Get(s.reserves, pool))
  }

  lemma FreshTerms(c: Config, s: State, pool: Pool, prices: map<MarketId, nat>, basePrice: nat)
    requires StartFresh(c, s, pool, prices, basePrice).Done?
    ensures var a := AuctionOf(StartFresh(c, s, pool, prices, basePrice).value, pool);
      && pool in c.pools && a.start == s.now && a.markets == MarketsOf(c, s, pool)
      && a.marketDebt == RecordedDebt(s, MarketsOf(c, s, pool))
      && AuctionTerms(RiskFund(s, pool, basePrice), PoolBadDebt(s, MarketsOf(c, s, pool), prices), s.incentiveBps)
           == Done(Terms(a.kind, a.seizedRiskFund, a.startBidBps))
  {
  }

  /// A restart is a start, once the stale auction is ended.
  lemma RestartIsStart(c: Config, s: State, pool: Pool, prices: map<MarketId, nat>, basePrice: nat) returns (ended: State)
    requires RestartAuction(c, s, pool, prices, basePrice).Done?
    ensures ended == s.(auctions := ended.auctions)
    ensures StartFresh(c, ended, pool, prices, basePrice) == RestartAuction(c, s, pool, prices, basePrice)
    ensures pool in c.pools
    ensures MarketsOf(c, ended, pool) == MarketsOf(c, s, pool)
    ensures RecordedDebt(ended, MarketsOf(c, s, pool)) == RecordedDebt(s, MarketsOf(c, s, pool))
    ensures PoolBadDebt(ended, MarketsOf(c, s, pool), prices) == PoolBadDebt(s, MarketsOf(c, s, pool), prices)
  {
    ended := s.(auctions := s.auctions[pool := AuctionOf(s, pool).(status := Ended)]);
    SameDebt(s, ended, MarketsOf(c, s, pool), prices);
    assert forall mk :: MarketAt(ended, mk) == MarketAt(s, mk);
  }

  lemma OpenedTerms(c: Config, s: State, e: Event)
    requires Opens(c, s, e)
    ensures var a := AuctionOf(Auctions.After(c, s, e), e.pool);
      && e.pool in c.pools && a.start == s.now && a.markets == MarketsOf(c, s, e.pool)
      && a.marketDebt == RecordedDebt(s, MarketsOf(c, s, e.pool))
      && AuctionTerms(RiskFund(s, e.pool, e.basePrice), PoolBadDebt(s, MarketsOf(c, s, e.pool), e.prices), s.incentiveBps)
           == Done(Terms(a.kind, a.seizedRiskFund, a.startBidBps))
  {
    if e.Start? {
      FreshTerms(c, s, e.pool, e.prices, e.basePrice);
    } else {
      var ended := RestartIsStart(c, s, e.pool, e.prices, e.basePrice);
      FreshTerms(c, ended, e.pool, e.prices, e.basePrice);
    }
  }

  /// What is known of such an auction.
  lemma LeaderTerms(c: Config, s: State, e: Event, events: seq<Event>, a: Auction)
    requires Leads(c, s, e, events, a)
    ensures e.pool in c.pools && a.markets == MarketsOf(c, s, e.pool) && a.marketDebt == RecordedDebt(s, MarketsOf(c, s, e.pool))
    ensures AuctionTerms(RiskFund(s, e.pool, e.basePrice), PoolBadDebt(s, MarketsOf(c, s, e.pool), e.prices), s.incentiveBps)
         == Done(Terms(a.kind, a.seizedRiskFund, a.startBidBps))
    ensures 1 <= a.highestBidBps <= MAX_BPS && IsFirstBid(a, a.highestBidBps)
  {
    var s1 := Auctions.After(c, s, e);
    OpenedTerms(c, s, e);
    EventKeeps(c, s, e);
    RunKeeps(c, s1, events);
    TermsStay(c, s1, events, e.pool);
    assert AuctionInv(c, Auctions.Run(c, s1, events), e.pool);
  }

  /// The payment with the incentive on top, and one basis point of the incentivised debt, and one unit of each
  /// token, cover what is seized.
  ghost predicate Covers(paid: nat, units: nat, debt: nat, incentiveBps: nat, seized: nat) {
    MAX_BPS * MAX_BPS * seized * EXP_SCALE <= (MAX_BPS * (paid + units) + debt * EXP_SCALE) * (MAX_BPS + incentiveBps)
  }

  /// Whoever leads an auction at any time after its start or restart: if the pool's debt was the larger side,
  /// the payment with the incentive on top covers the seized risk fund, short at most one basis point of
  /// the incentivised debt and, for each market, the value of one unit of its token.
  lemma WinnerCoversSeizedFund(c: Config, s: State, e: Event, events: seq<Event>, a: Auction)
    requires Leads(c, s, e, events, a) && a.kind == LargePoolDebt
    ensures e.pool in c.pools
    ensures Covers(ExactDebt(Payments(a.kind, a.marketDebt, a.highestBidBps), a.markets, e.prices),
                   UnitPrices(a.markets, e.prices), PoolBadDebt(s, MarketsOf(c, s, e.pool), e.prices), s.incentiveBps,
                   a.seizedRiskFund)
  {
    LeaderTerms(c, s, e, events, a);
    TermsAreCovered(s, a, e.prices, RiskFund(s, e.pool, e.basePrice), s.incentiveBps);
  }

  lemma TermsAreCovered(s: State, a: Auction, prices: map<MarketId, nat>, riskFund: nat, incentiveBps: nat)
    requires a.kind == LargePoolDebt && a.startBidBps <= a.highestBidBps
    requires a.marketDebt == RecordedDebt(s, a.markets)
    requires AuctionTerms(riskFund, PoolBadDebt(s, a.markets, prices), incentiveBps)
          == Done(Terms(a.kind, a.seizedRiskFund, a.startBidBps))
    ensures Covers(ExactDebt(Payments(a.kind, a.marketDebt, a.highestBidBps), a.markets, prices),
                   UnitPrices(a.markets, prices), PoolBadDebt(s, a.markets, prices), incentiveBps, a.seizedRiskFund)
  {
    ExactDebtCovers(s, a.marketDebt, a.markets, prices);
    PaymentsCover(a.marketDebt, a.markets, prices, a.highestBidBps);
    CoverArithmetic(a.seizedRiskFund, PoolBadDebt(s, a.markets, prices), MAX_BPS + incentiveBps, a.highestBidBps,
                    ExactDebt(a.marketDebt, a.markets, prices),
                    ExactDebt(Payments(a.kind, a.marketDebt, a.highestBidBps), a.markets, prices),
                    UnitPrices(a.markets, prices));
  }

  lemma PayoutOfTerms(a: Auction, riskFund: nat, debt: nat, incentiveBps: nat)
    requires AuctionTerms(riskFund, debt, incentiveBps) == Done(Terms(a.kind, a.seizedRiskFund, a.startBidBps))
    requires a.highestBidBps <= MAX_BPS
    ensures Payout(a) <= WithIncentive(debt, incentiveBps) && Payout(a) <= riskFund
    ensures a.kind == LargePoolDebt ==> Payout(a) == riskFund
    ensures a.kind == LargeRiskFund ==>
      && a.seizedRiskFund == WithIncentive(debt, incentiveBps)
      && Payout(a) * MAX_BPS <= a.seizedRiskFund * a.highestBidBps < (Payout(a) + 1) * MAX_BPS
  {
    TermsInRange(riskFund, debt, incentiveBps);
    PartOfSeized(a.seizedRiskFund, a.highestBidBps);
  }

  /// Of either kind, an auction never pays out more than the bad debt with the incentive, nor more than
  /// the risk fund there was. Over a large debt it pays out all of the risk fund; over a large risk fund
  /// it has the whole debt paid and pays out the bid's part of the incentivised debt.
  lemma PayoutWithinDebt(c: Config, s: State, e: Event, events: seq<Event>, a: Auction)
    requires Leads(c, s, e, events, a)
    ensures e.pool in c.pools
    ensures var owed := WithIncentive(PoolBadDebt(s, MarketsOf(c, s, e.pool), e.prices), s.incentiveBps);
      && Payout(a) <= owed && Payout(a) <= RiskFund(s, e.pool, e.basePrice)
      && (a.kind == LargePoolDebt ==> Payout(a) == RiskFund(s, e.pool, e.basePrice))
      && (a.kind == LargeRiskFund ==>
            && a.seizedRiskFund == owed
            && Payout(a) * MAX_BPS <= a.seizedRiskFund * a.highestBidBps < (Payout(a) + 1) * MAX_BPS)
      && (a.kind == LargeRiskFund ==>
            forall mk :: BidPayment(a.kind, Get(a.marketDebt, mk), a.highestBidBps) == Get(a.marketDebt, mk))
  {
    LeaderTerms(c, s, e, events, a);
    PayoutOfTerms(a, RiskFund(s, e.pool, e.basePrice), PoolBadDebt(s, MarketsOf(c, s, e.pool), e.prices), s.incentiveBps);
  }

  lemma PartOfSeized(seized: nat, bps: nat)
    requires bps <= MAX_BPS
    ensures seized * bps / MAX_BPS <= seized
    ensures seized * bps / MAX_BPS * MAX_BPS <= seized * bps < (seized * bps / MAX_BPS + 1) * MAX_BPS
  {
    FractionLe(bps, MAX_BPS, seized);
    assert seized * bps == bps * seized;
  }
}
