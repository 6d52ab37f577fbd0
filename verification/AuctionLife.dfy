/** The life of auctions: what holds in every reachable state, which calls a started auction accepts and
    when, that bids strictly improve, and that the bad debt an auction repays is always there. */
module AuctionLife {
  import opened FixedPoint
  import opened Totals
  import opened Outcomes
  import opened Ledger
  import opened Auctions

  // ---------- the invariant ----------

  ghost predicate HasBid(s: State, a: Auction) {
    && 1 <= a.highestBidBps <= MAX_BPS
    && IsFirstBid(a, a.highestBidBps)
    && a.start <= a.highestBidBlock <= s.now
    && forall mk | mk in a.markets :: Get(a.bidAmount, mk) <= Get(a.marketDebt, mk)
  }

  predicate IsFirstBid(a: Auction, bps: nat) {
    match a.kind
    case LargePoolDebt => a.startBidBps <= bps
    case LargeRiskFund => bps <= a.startBidBps
  }

  /// The debt recorded at the start is still owed to the markets.
  ghost predicate DebtIsOwed(s: State, a: Auction) {
    forall mk | mk in a.markets :: Get(a.marketDebt, mk) <= MarketAt(s, mk).badDebt
  }

  ghost predicate Running(c: Config, s: State, pool: Pool) {
    var a := AuctionOf(s, pool);
    && pool in c.pools && Distinct(a.markets) && (forall mk :: mk in a.markets ==> mk in c.pools[pool])
    && a.start <= s.now && 0 <= a.startBidBps <= MAX_BPS
    && (a.kind == LargeRiskFund ==> a.startBidBps == MAX_BPS)
    && DebtIsOwed(s, a)
    && (a.highestBidder != Nobody ==> HasBid(s, a))
  }

  ghost predicate AuctionInv(c: Config, s: State, pool: Pool) {
    match AuctionOf(s, pool).status
    case NotStarted => AuctionOf(s, pool).start == 0
    case Started => Running(c, s, pool)
    case Ended => AuctionOf(s, pool).start < s.now
  }

  ghost predicate Inv(c: Config, s: State) {
    && WellFormed(c)
    && 0 < s.now && 0 < s.nextBidderLimit
    && forall pool :: AuctionInv(c, s, pool)
  }

  // ---------- starting ----------

  /// The first acceptable bid never exceeds 10000 basis points, because of the test that decides the
  /// kind of auction, and the risk fund seized never exceeds the one that is there.
  lemma TermsInRange(riskFund: nat, debt: nat, incentiveBps: nat)
    ensures match AuctionTerms(riskFund, debt, incentiveBps)
      case Revert(_) => debt == 0 && riskFund == 0
      case Done(t) =>
        && t.startBidBps <= MAX_BPS && t.seized <= riskFund
        && (t.kind == LargePoolDebt <==> riskFund <= WithIncentive(debt, incentiveBps))
        && (t.kind == LargeRiskFund ==> t.startBidBps == MAX_BPS)
        && (t.kind == LargePoolDebt ==> t.seized == riskFund)
  {
    var x := debt * (MAX_BPS + incentiveBps);
    assert x == debt * MAX_BPS + debt * incentiveBps;
    DivBounds(debt * incentiveBps, MAX_BPS, debt * incentiveBps / MAX_BPS);
    DivNonNegative(debt * incentiveBps, MAX_BPS);
    if WithIncentive(debt, incentiveBps) >= riskFund {
      assert riskFund * MAX_BPS <= x;
      if x == 0 {
        assert debt == 0;
      } else {
        StartWithinRange(riskFund, x);
      }
    }
  }

  /// The incentivised debt is the debt times one plus the incentive, truncated.
  lemma IncentiveBounds(debt: nat, incentiveBps: nat)
    ensures WithIncentive(debt, incentiveBps) * MAX_BPS
         <= debt * (MAX_BPS + incentiveBps)
         < (WithIncentive(debt, incentiveBps) + 1) * MAX_BPS
  {
    DivBounds(debt * incentiveBps, MAX_BPS, debt * incentiveBps / MAX_BPS);
    DivBounds(debt * incentiveBps, MAX_BPS, debt * incentiveBps / MAX_BPS + 1);
    assert debt * (MAX_BPS + incentiveBps) == debt * MAX_BPS + debt * incentiveBps;
  }

  /// The repository's description holds an auction to be over a large debt when the debt exceeds the risk fund plus
  /// the incentive. The code agrees wherever that is so, and differs exactly where neither side exceeds the other
  /// with its incentive, or by nothing: there too it takes the debt for large. Equal sides are such a case.
  lemma KindAgainstDescription(riskFund: nat, debt: nat, incentiveBps: nat)
    requires AuctionTerms(riskFund, debt, incentiveBps).Done?
    ensures var kind := AuctionTerms(riskFund, debt, incentiveBps).value.kind;
      && (WithIncentive(riskFund, incentiveBps) < debt ==> kind == LargePoolDebt)
      && (kind == LargePoolDebt && !(WithIncentive(riskFund, incentiveBps) < debt) <==>
            riskFund <= WithIncentive(debt, incentiveBps) && debt <= WithIncentive(riskFund, incentiveBps))
      && (riskFund == debt ==> kind == LargePoolDebt && debt <= WithIncentive(riskFund, incentiveBps))
  {
    DivNonNegative(debt * incentiveBps, MAX_BPS);
    DivNonNegative(riskFund * incentiveBps, MAX_BPS);
  }

  lemma StartWithinRange(riskFund: nat, x: nat)
    requires 0 < x && riskFund * MAX_BPS <= x
    ensures MAX_BPS * MAX_BPS * riskFund / x <= MAX_BPS
  {
    MulLe(riskFund * MAX_BPS, x, MAX_BPS);
    DivBounds(MAX_BPS * MAX_BPS * riskFund, x, MAX_BPS + 1);
    assert (MAX_BPS + 1) * x == MAX_BPS * x + x;
  }

  lemma StartKeeps(c: Config, s: State, pool: Pool, prices: map<MarketId, nat>, basePrice: nat, p: Pool)
    requires Inv(c, s) && AuctionOf(s, pool).start < s.now
    requires StartFresh(c, s, pool, prices, basePrice).Done?
    ensures AuctionInv(c, StartFresh(c, s, pool, prices, basePrice).value, p)
    ensures AuctionOf(StartFresh(c, s, pool, prices, basePrice).value, pool).start == s.now
  {
    StartedRuns(c, s, pool, prices, basePrice);
    StartLeavesOthers(c, s, pool, prices, basePrice, p);
  }

  lemma StartedRuns(c: Config, s: State, pool: Pool, prices: map<MarketId, nat>, basePrice: nat)
    requires Inv(c, s) && StartFresh(c, s, pool, prices, basePrice).Done?
    ensures AuctionInv(c, StartFresh(c, s, pool, prices, basePrice).value, pool)
    ensures AuctionOf(StartFresh(c, s, pool, prices, basePrice).value, pool).start == s.now
  {
    TermsInRange(MulTruncate(basePrice, Get(s.reserves, pool)), PoolBadDebt(s, MarketsOf(c, s, pool), prices), s.incentiveBps);
  }

  lemma StartLeavesOthers(c: Config, s: State, pool: Pool, prices: map<MarketId, nat>, basePrice: nat, p: Pool)
    requires Inv(c, s) && StartFresh(c, s, pool, prices, basePrice).Done?
    ensures p != pool ==> AuctionInv(c, StartFresh(c, s, pool, prices, basePrice).value, p)
  {
    assert AuctionInv(c, s, p);
  }

  lemma ReadyToStart(c: Config, s: State, pool: Pool)
    requires Inv(c, s) && AuctionOf(s, pool).status != Started
    ensures AuctionOf(s, pool).start < s.now
  {
    assert AuctionInv(c, s, pool);
  }

  // ---------- bidding ----------

  /// What refunding and pulling leave alone.
  ghost predicate SameBut(s: State, s': State, pool: Pool) {
    && s'.now == s.now && s'.paused == s.paused && s'.vTokens == s.vTokens && s'.reserves == s.reserves
    && s'.nextBidderLimit == s.nextBidderLimit && s'.waitForFirstBidder == s.waitForFirstBidder
    && s'.incentiveBps == s.incentiveBps && s'.minimumPoolBadDebt == s.minimumPoolBadDebt
    && AuctionOf(s', pool) == AuctionOf(s, pool).(bidAmount := AuctionOf(s', pool).bidAmount)
    && forall p | p != pool :: AuctionOf(s', p) == AuctionOf(s, p)
  }

  lemma RefundEffect(s: State, a: Auction, token: Token, mk: MarketId, goesOut: bool)
    requires Refund(s, a, token, mk, goesOut).Done?
    ensures var s' := Refund(s, a, token, mk, goesOut).value;
      s' == s.(balance := s'.balance, sent := s'.sent, tokenDebt := s'.tokenDebt, totalTokenDebt := s'.totalTokenDebt)
  {
  }

  lemma PullEffect(c: Config, s: State, pool: Pool, bps: nat, how: Conducts, mk: MarketId)
    requires Pull(c, s, pool, bps, how, mk).Done?
    ensures var s' := Pull(c, s, pool, bps, how, mk).value;
      && SameBut(s, s', pool)
      && AuctionOf(s', pool).bidAmount
           == AuctionOf(s, pool).bidAmount[mk := Arrival(AuctionOf(s, pool), bps, how, mk)]
  {
    RefundEffect(s, AuctionOf(s, pool), TokenOf(c, mk), mk, ConductOf(how, mk).goesOut);
  }

  lemma {:induction false} PullAllEffect(c: Config, s: State, pool: Pool, bps: nat, how: Conducts, markets: seq<MarketId>)
    requires Distinct(markets) && PullAll(c, s, pool, bps, how, markets).Done?
    ensures var s' := PullAll(c, s, pool, bps, how, markets).value;
      && SameBut(s, s', pool)
      && forall mk :: Get(AuctionOf(s', pool).bidAmount, mk)
           == if mk in markets then Arrival(AuctionOf(s, pool), bps, how, mk) else Get(AuctionOf(s, pool).bidAmount, mk)
    decreases |markets|
  {
    if |markets| > 0 {
      var s1 := Pull(c, s, pool, bps, how, markets[0]).value;
      PullEffect(c, s, pool, bps, how, markets[0]);
      PullAllEffect(c, s1, pool, bps, how, markets[1..]);
      assert forall mk :: mk in markets <==> mk == markets[0] || mk in markets[1..];
      assert markets[0] !in markets[1..];
    }
  }

  lemma PaymentWithinDebt(kind: Kind, debt: nat, bps: nat)
    requires bps <= MAX_BPS
    ensures BidPayment(kind, debt, bps) <= debt
  {
    FractionLe(bps, MAX_BPS, debt);
    assert debt * bps == bps * debt;
  }

  /// A bid that is accepted, seen from the auction: who leads and with what, and that each market's
  /// escrow is what arrived for it.
  lemma BidEffect(c: Config, s: State, pool: Pool, bidder: Account, bps: nat, marker: nat, how: Conducts)
    requires Inv(c, s) && PlaceBid(c, s, pool, bidder, bps, marker, how).Done?
    ensures var s' := PlaceBid(c, s, pool, bidder, bps, marker, how).value;
      var a, a' := AuctionOf(s, pool), AuctionOf(s', pool);
      && a.status == Started && a.start == marker && 1 <= bps <= MAX_BPS && IsBetterBid(a, bps)
      && a' == a.(highestBidder := Bidder(bidder), highestBidBps := bps, highestBidBlock := s.now,
                  bidAmount := a'.bidAmount)
      && (forall mk | mk in a.markets :: Get(a'.bidAmount, mk) == Arrival(a, bps, how, mk) <= Get(a.marketDebt, mk))
      && (forall p | p != pool :: AuctionOf(s', p) == AuctionOf(s, p))
      && s'.now == s.now && s'.vTokens == s.vTokens && s'.nextBidderLimit == s.nextBidderLimit
  {
    var a := AuctionOf(s, pool);
    assert AuctionInv(c, s, pool);
    PullAllEffect(c, s, pool, bps, how, a.markets);
    forall mk | mk in a.markets
      ensures Arrival(a, bps, how, mk) <= Get(a.marketDebt, mk)
    {
      PaymentWithinDebt(a.kind, Get(a.marketDebt, mk), bps);
    }
  }

  lemma BidKeeps(c: Config, s: State, pool: Pool, bidder: Account, bps: nat, marker: nat, how: Conducts, p: Pool)
    requires Inv(c, s) && PlaceBid(c, s, pool, bidder, bps, marker, how).Done?
    ensures AuctionInv(c, PlaceBid(c, s, pool, bidder, bps, marker, how).value, p)
  {
    BidEffect(c, s, pool, bidder, bps, marker, how);
    assert AuctionInv(c, s, p);
  }

  // ---------- closing ----------

  ghost predicate SameAuctions(s: State, s': State) {
    && s'.now == s.now && s'.auctions == s.auctions && s'.nextBidderLimit == s.nextBidderLimit
    && s'.paused == s.paused && s'.waitForFirstBidder == s.waitForFirstBidder
    && s'.incentiveBps == s.incentiveBps && s'.minimumPoolBadDebt == s.minimumPoolBadDebt
  }

  /// What arrives at a market from a close.
  function Recovered(s: State, pool: Pool, how: Conducts, mk: MarketId): nat {
    Arrives(Get(AuctionOf(s, pool).bidAmount, mk), ConductOf(how, mk).fee)
  }

  /// The market's part in it: what arrives lowers its bad debt and adds to its cash.
  ghost predicate MarketRepaid(m: Market, m': Market, got: nat) {
    got <= m.badDebt && m' == m.(badDebt := m.badDebt - got, cash := m.cash + got)
  }

  ghost predicate MarketsRepaid(s: State, s': State, pool: Pool, how: Conducts, markets: seq<MarketId>) {
    && (forall mk | mk in markets :: MarketRepaid(MarketAt(s, mk), MarketAt(s', mk), Recovered(s, pool, how, mk)))
    && (forall mk | mk !in markets :: MarketAt(s', mk) == MarketAt(s, mk))
  }

  lemma DeliverEffect(c: Config, s: State, pool: Pool, how: Conducts, mk: MarketId)
    requires Deliver(c, s, pool, how, mk).Done?
    ensures var s' := Deliver(c, s, pool, how, mk).value;
      && s' == s.(balance := s'.balance, vTokens := s'.vTokens)
      && MarketRepaid(MarketAt(s, mk), MarketAt(s', mk), Recovered(s, pool, how, mk))
      && forall other | other != mk :: MarketAt(s', other) == MarketAt(s, other)
  {
  }

  lemma {:induction false} DeliverAllEffect(c: Config, s: State, pool: Pool, how: Conducts, markets: seq<MarketId>)
    requires Distinct(markets) && DeliverAll(c, s, pool, how, markets).Done?
    ensures var s' := DeliverAll(c, s, pool, how, markets).value;
      s' == s.(balance := s'.balance, vTokens := s'.vTokens) && MarketsRepaid(s, s', pool, how, markets)
    decreases |markets|
  {
    if |markets| > 0 {
      var s1 := Deliver(c, s, pool, how, markets[0]).value;
      DeliverEffect(c, s, pool, how, markets[0]);
      DeliverAllEffect(c, s1, pool, how, markets[1..]);
      assert forall mk :: mk in markets <==> mk == markets[0] || mk in markets[1..];
      assert markets[0] !in markets[1..];
    }
  }

  lemma PayWinnerEffect(c: Config, s: State, pool: Pool, winner: Account, payout: nat, t: Conduct)
    requires PayWinner(c, s, pool, winner, payout, t).Done?
    ensures var s' := PayWinner(c, s, pool, winner, payout, t).value;
      SameAuctions(s, s') && s'.vTokens == s.vTokens
  {
  }

  lemma CloseStages(c: Config, s: State, pool: Pool, how: Conducts, t: Conduct) returns (ended: State, delivered: State)
    requires CloseAuction(c, s, pool, how, t).Done?
    ensures var a, s' := AuctionOf(s, pool), CloseAuction(c, s, pool, how, t).value;
      && a.status == Started && MayClose(s, a)
      && ended == s.(auctions := s.auctions[pool := a.(status := Ended)])
      && DeliverAll(c, ended, pool, how, a.markets) == Done(delivered)
      && SameAuctions(delivered, s') && s'.vTokens == delivered.vTokens
      && PayWinner(c, delivered, pool, a.highestBidder.account, Payout(a), t) == Done(s')
  {
    var a := AuctionOf(s, pool);
    ended := s.(auctions := s.auctions[pool := a.(status := Ended)]);
    delivered := DeliverAll(c, ended, pool, how, a.markets).value;
    PayWinnerEffect(c, delivered, pool, a.highestBidder.account, Payout(a), t);
  }

  lemma RepaidFromEnded(s: State, ended: State, s': State, pool: Pool, how: Conducts, markets: seq<MarketId>)
    requires ended.vTokens == s.vTokens && AuctionOf(ended, pool).bidAmount == AuctionOf(s, pool).bidAmount
    requires MarketsRepaid(ended, s', pool, how, markets)
    ensures MarketsRepaid(s, s', pool, how, markets)
  {
    assert forall mk :: MarketAt(ended, mk) == MarketAt(s, mk);
    assert forall mk :: Recovered(ended, pool, how, mk) == Recovered(s, pool, how, mk);
  }

  /// The close seen from the markets and the auctions, given its two stages.
  lemma DeliveredEffect(c: Config, s: State, ended: State, delivered: State, pool: Pool, how: Conducts)
    requires Inv(c, s) && AuctionOf(s, pool).status == Started
    requires ended == s.(auctions := s.auctions[pool := AuctionOf(s, pool).(status := Ended)])
    requires DeliverAll(c, ended, pool, how, AuctionOf(s, pool).markets) == Done(delivered)
    ensures SameAuctions(ended, delivered) && MarketsRepaid(s, delivered, pool, how, AuctionOf(s, pool).markets)
  {
    assert AuctionInv(c, s, pool);
    DeliverAllEffect(c, ended, pool, how, AuctionOf(s, pool).markets);
    RepaidFromEnded(s, ended, delivered, pool, how, AuctionOf(s, pool).markets);
  }

  /// A close that succeeds: each market of the auction receives what is reported to it as recovered,
  /// and no other market changes.
  lemma CloseEffect(c: Config, s: State, pool: Pool, how: Conducts, t: Conduct)
    requires Inv(c, s) && CloseAuction(c, s, pool, how, t).Done?
    ensures var s' := CloseAuction(c, s, pool, how, t).value;
      var a := AuctionOf(s, pool);
      && a.status == Started && MayClose(s, a)
      && s'.auctions == s.auctions[pool := a.(status := Ended)] && s'.now == s.now
      && s'.nextBidderLimit == s.nextBidderLimit
      && MarketsRepaid(s, s', pool, how, a.markets)
  {
    var ended, delivered := CloseStages(c, s, pool, how, t);
    DeliveredEffect(c, s, ended, delivered, pool, how);
    SameMarkets(s, delivered, CloseAuction(c, s, pool, how, t).value, pool, how, AuctionOf(s, pool).markets);
  }

  lemma SameMarkets(s: State, s1: State, s2: State, pool: Pool, how: Conducts, markets: seq<MarketId>)
    requires s2.vTokens == s1.vTokens && MarketsRepaid(s, s1, pool, how, markets)
    ensures MarketsRepaid(s, s2, pool, how, markets)
  {
    assert forall mk :: MarketAt(s1, mk) == MarketAt(s2, mk);
  }

  /// What a close reports as recovered is at most the bid, hence at most the debt recorded at the start,
  /// hence at most the bad debt there is: in no interleaving of heals and auctions does it fall short.
  lemma RecoveredWithinBadDebt(c: Config, s: State, pool: Pool, how: Conducts, mk: MarketId)
    requires Inv(c, s) && AuctionOf(s, pool).status == Started && AuctionOf(s, pool).highestBidder != Nobody
    requires mk in AuctionOf(s, pool).markets
    ensures var a := AuctionOf(s, pool);
      Recovered(s, pool, how, mk) <= Get(a.bidAmount, mk) <= Get(a.marketDebt, mk) <= MarketAt(s, mk).badDebt
  {
    assert AuctionInv(c, s, pool);
  }

  lemma CloseKeeps(c: Config, s: State, pool: Pool, how: Conducts, t: Conduct, p: Pool)
    requires Inv(c, s) && CloseAuction(c, s, pool, how, t).Done?
    ensures AuctionInv(c, CloseAuction(c, s, pool, how, t).value, p)
  {
    CloseEffect(c, s, pool, how, t);
    assert AuctionInv(c, s, p) && AuctionInv(c, s, pool);
    var s' := CloseAuction(c, s, pool, how, t).value;
    if p != pool && AuctionOf(s, p).status == Started {
      forall mk | mk in AuctionOf(s, p).markets
        ensures MarketAt(s', mk) == MarketAt(s, mk)
      {
        assert mk !in AuctionOf(s, pool).markets;
      }
    }
  }

  // ---------- everything else ----------

  lemma BadDebtGrows(m: Market, step: Step)
    requires !step.action.Recover?
    ensures m.badDebt <= Ledger.After(m, step).badDebt
  {
    if step.action.Accrue? {
      AccrualKeepsBadDebt(step.settings, m, step.now, step.action.rate);
    }
  }

  lemma AccrualKeepsBadDebt(s: Settings, m: Market, now: nat, rate: nat)
    ensures AccrueInterest(s, m, now, rate).Done? ==> AccrueInterest(s, m, now, rate).value.badDebt == m.badDebt
  {
  }

  /// Auctions go on when time passes and bad debt grows.
  lemma QuietKeeps(c: Config, s: State, s': State, p: Pool)
    requires Inv(c, s) && s'.auctions == s.auctions && s.now <= s'.now
    requires forall mk :: MarketAt(s, mk).badDebt <= MarketAt(s', mk).badDebt
    ensures AuctionInv(c, s', p)
  {
    assert AuctionInv(c, s, p);
  }

  lemma MarketCallGrows(c: Config, s: State, mk: MarketId, settings: AllowedSettings, action: Action, other: MarketId)
    ensures MarketAt(s, other).badDebt
         <= MarketAt(Auctions.After(c, s, MarketCall(mk, settings, action)), other).badDebt
  {
    if !action.Recover? {
      BadDebtGrows(MarketAt(s, mk), Step(settings, s.now, action));
    }
  }

  lemma MarketCallKeeps(c: Config, s: State, mk: MarketId, settings: AllowedSettings, action: Action, p: Pool)
    requires Inv(c, s)
    ensures AuctionInv(c, Auctions.After(c, s, MarketCall(mk, settings, action)), p)
  {
    var s' := Auctions.After(c, s, MarketCall(mk, settings, action));
    forall other
      ensures MarketAt(s, other).badDebt <= MarketAt(s', other).badDebt
    {
      MarketCallGrows(c, s, mk, settings, action, other);
    }
    QuietKeeps(c, s, s', p);
  }

  lemma RestartKeeps(c: Config, s: State, pool: Pool, prices: map<MarketId, nat>, basePrice: nat, p: Pool)
    requires Inv(c, s) && RestartAuction(c, s, pool, prices, basePrice).Done?
    ensures AuctionInv(c, RestartAuction(c, s, pool, prices, basePrice).value, p)
    ensures AuctionOf(RestartAuction(c, s, pool, prices, basePrice).value, pool).start == s.now > AuctionOf(s, pool).start
  {
    var a := AuctionOf(s, pool);
    var ended := s.(auctions := s.auctions[pool := a.(status := Ended)]);
    forall q
      ensures AuctionInv(c, ended, q)
    {
      assert AuctionInv(c, s, q);
    }
    StartKeeps(c, ended, pool, prices, basePrice, p);
  }

  /// Every call keeps the invariant.
  lemma EventKeeps(c: Config, s: State, e: Event)
    requires Inv(c, s)
    ensures Inv(c, Auctions.After(c, s, e))
  {
    if Auctions.Next(c, s, e).Done? {
      forall p
        ensures AuctionInv(c, Auctions.After(c, s, e), p)
      {
        EventKeepsAuction(c, s, e, p);
      }
      EventKeepsClock(c, s, e);
    }
  }

  /// What a call that is none of an auction's own leaves alone.
  lemma QuietEvent(c: Config, s: State, e: Event)
    requires !e.Start? && !e.Restart? && !e.Bid? && !e.Close?
    ensures var s' := Auctions.After(c, s, e); s'.auctions == s.auctions && s.now <= s'.now
  {
  }

  lemma BidEventKeeps(c: Config, s: State, e: Event, p: Pool)
    requires Inv(c, s) && e.Bid? && Auctions.Next(c, s, e).Done?
    ensures AuctionInv(c, Auctions.After(c, s, e), p)
  {
    BidKeeps(c, s, e.pool, e.bidder, e.bps, e.marker, e.how, p);
  }

  lemma CloseEventKeeps(c: Config, s: State, e: Event, p: Pool)
    requires Inv(c, s) && e.Close? && Auctions.Next(c, s, e).Done?
    ensures AuctionInv(c, Auctions.After(c, s, e), p)
  {
    CloseKeeps(c, s, e.pool, e.how, e.payment, p);
  }

  lemma StartEventKeeps(c: Config, s: State, e: Event, p: Pool)
    requires Inv(c, s) && (e.Start? || e.Restart?) && Auctions.Next(c, s, e).Done?
    ensures AuctionInv(c, Auctions.After(c, s, e), p)
  {
    if e.Start? {
      ReadyToStart(c, s, e.pool);
      StartKeeps(c, s, e.pool, e.prices, e.basePrice, p);
    } else {
      RestartKeeps(c, s, e.pool, e.prices, e.basePrice, p);
    }
  }

  lemma OtherEventKeeps(c: Config, s: State, e: Event, p: Pool)
    requires Inv(c, s) && !e.Start? && !e.Restart? && !e.Bid? && !e.Close?
    ensures AuctionInv(c, Auctions.After(c, s, e), p)
  {
    if e.MarketCall? {
      MarketCallKeeps(c, s, e.mk, e.settings, e.action, p);
    } else {
      QuietEvent(c, s, e);
      OtherEventMarkets(c, s, e);
      QuietKeeps(c, s, Auctions.After(c, s, e), p);
    }
  }

  lemma OtherEventMarkets(c: Config, s: State, e: Event)
    requires !e.Start? && !e.Restart? && !e.Bid? && !e.Close? && !e.MarketCall?
    ensures Auctions.After(c, s, e).vTokens == s.vTokens
  {
  }

  lemma EventKeepsAuction(c: Config, s: State, e: Event, p: Pool)
    requires Inv(c, s) && Auctions.Next(c, s, e).Done?
    ensures AuctionInv(c, Auctions.After(c, s, e), p)
  {
    if e.Start? || e.Restart? {
      StartEventKeeps(c, s, e, p);
    } else if e.Bid? {
      BidEventKeeps(c, s, e, p);
    } else if e.Close? {
      CloseEventKeeps(c, s, e, p);
    } else {
      OtherEventKeeps(c, s, e, p);
    }
  }

  lemma EventKeepsClock(c: Config, s: State, e: Event)
    requires Inv(c, s) && Auctions.Next(c, s, e).Done?
    ensures s.now <= Auctions.After(c, s, e).now && 0 < Auctions.After(c, s, e).nextBidderLimit
  {
    if e.Bid? {
      BidEffect(c, s, e.pool, e.bidder, e.bps, e.marker, e.how);
    } else if e.Close? {
      CloseEffect(c, s, e.pool, e.how, e.payment);
    } else {
      OtherEventClock(c, s, e);
    }
  }

  lemma OtherEventClock(c: Config, s: State, e: Event)
    requires !e.Bid? && !e.Close? && 0 < s.nextBidderLimit
    ensures s.now <= Auctions.After(c, s, e).now && 0 < Auctions.After(c, s, e).nextBidderLimit
  {
  }

  lemma {:induction false} RunKeeps(c: Config, s: State, events: seq<Event>)
    requires Inv(c, s)
    ensures Inv(c, Auctions.Run(c, s, events))
    decreases |events|
  {
    if |events| > 0 {
      EventKeeps(c, s, events[0]);
      RunKeeps(c, Auctions.After(c, s, events[0]), events[1..]);
    }
  }

  // ---------- start markers ----------

  /// A pool's auction stays the same one, with no more bids left, or a later one has started.
  predicate Onward(before: Auction, after: Auction) {
    before.start < after.start || (before.start == after.start && BidsLeft(after) <= BidsLeft(before))
  }

  lemma BidOnward(c: Config, s: State, q: Pool, bidder: Account, bps: nat, marker: nat, how: Conducts, pool: Pool)
    requires Inv(c, s) && PlaceBid(c, s, q, bidder, bps, marker, how).Done?
    ensures Onward(AuctionOf(s, pool), AuctionOf(PlaceBid(c, s, q, bidder, bps, marker, how).value, pool))
  {
    BidEffect(c, s, q, bidder, bps, marker, how);
    if q == pool {
      BidImproves(c, s, pool, bidder, bps, marker, how);
    }
  }

  lemma StartOnward(c: Config, s: State, e: Event, pool: Pool)
    requires Inv(c, s) && (e.Start? || e.Restart?) && Auctions.Next(c, s, e).Done?
    ensures Onward(AuctionOf(s, pool), AuctionOf(Auctions.After(c, s, e), pool))
  {
    if e.Start? {
      ReadyToStart(c, s, e.pool);
      StartKeeps(c, s, e.pool, e.prices, e.basePrice, pool);
    } else {
      RestartKeeps(c, s, e.pool, e.prices, e.basePrice, pool);
    }
  }

  lemma BidEventOnward(c: Config, s: State, e: Event, pool: Pool)
    requires Inv(c, s) && e.Bid? && Auctions.Next(c, s, e).Done?
    ensures Onward(AuctionOf(s, pool), AuctionOf(Auctions.After(c, s, e), pool))
  {
    BidOnward(c, s, e.pool, e.bidder, e.bps, e.marker, e.how, pool);
  }

  lemma CloseEventOnward(c: Config, s: State, e: Event, pool: Pool)
    requires Inv(c, s) && e.Close? && Auctions.Next(c, s, e).Done?
    ensures Onward(AuctionOf(s, pool), AuctionOf(Auctions.After(c, s, e), pool))
  {
    CloseEffect(c, s, e.pool, e.how, e.payment);
  }

  lemma MarkerStep(c: Config, s: State, e: Event, pool: Pool)
    requires Inv(c, s)
    ensures Onward(AuctionOf(s, pool), AuctionOf(Auctions.After(c, s, e), pool))
  {
    if Auctions.Next(c, s, e).Done? {
      if e.Start? || e.Restart? {
        StartOnward(c, s, e, pool);
      } else if e.Bid? {
        BidEventOnward(c, s, e, pool);
      } else if e.Close? {
        CloseEventOnward(c, s, e, pool);
      } else {
        QuietEvent(c, s, e);
      }
    }
  }

  lemma {:induction false} MarkersOnlyGrow(c: Config, s: State, events: seq<Event>, pool: Pool)
    requires Inv(c, s)
    ensures Inv(c, Auctions.Run(c, s, events))
    ensures AuctionOf(s, pool).start <= AuctionOf(Auctions.Run(c, s, events), pool).start
    decreases |events|
  {
    if |events| > 0 {
      EventKeeps(c, s, events[0]);
      MarkerStep(c, s, events[0], pool);
      MarkersOnlyGrow(c, Auctions.After(c, s, events[0]), events[1..], pool);
    }
  }

  /// Once an auction has been started anew, bids that name an earlier start are rejected for ever.
  lemma OldMarkersRejected(c: Config, s: State, first: seq<Event>, later: seq<Event>, pool: Pool,
                           bidder: Account, bps: nat, how: Conducts)
    requires Inv(c, s)
    requires AuctionOf(Auctions.Run(c, s, first), pool).start != AuctionOf(s, pool).start
    ensures var s' := Auctions.Run(c, Auctions.Run(c, s, first), later);
      PlaceBid(c, s', pool, bidder, bps, AuctionOf(s, pool).start, how) == Revert(AuctionRestarted)
  {
    MarkersOnlyGrow(c, s, first, pool);
    MarkersOnlyGrow(c, Auctions.Run(c, s, first), later, pool);
  }

  // ---------- bids improve ----------

  /// How many more bids there can be.
  function BidsLeft(a: Auction): nat {
    if a.highestBidder == Nobody then MAX_BPS
    else if a.highestBidBps == 0 || a.highestBidBps > MAX_BPS then 0
    else if a.kind == LargeRiskFund then a.highestBidBps - 1
    else MAX_BPS - a.highestBidBps
  }

  lemma BidImproves(c: Config, s: State, pool: Pool, bidder: Account, bps: nat, marker: nat, how: Conducts)
    requires Inv(c, s) && PlaceBid(c, s, pool, bidder, bps, marker, how).Done?
    ensures var s' := PlaceBid(c, s, pool, bidder, bps, marker, how).value;
      BidsLeft(AuctionOf(s', pool)) < BidsLeft(AuctionOf(s, pool)) <= MAX_BPS
  {
    assert AuctionInv(c, s, pool);
    BidEffect(c, s, pool, bidder, bps, marker, how);
  }

  /// Accepted bids for the pool.
  function Bids(c: Config, s: State, events: seq<Event>, pool: Pool): nat
    decreases |events|
  {
    if |events| == 0 then 0
    else
      (if events[0].Bid? && events[0].pool == pool && Auctions.Next(c, s, events[0]).Done? then 1 else 0)
        + Bids(c, Auctions.After(c, s, events[0]), events[1..], pool)
  }

  /// Every bid strictly improves on the one before, so one auction takes at most 10000 of them.
  lemma {:induction false} BidsAreFinite(c: Config, s: State, events: seq<Event>, pool: Pool)
    requires Inv(c, s)
    requires AuctionOf(Auctions.Run(c, s, events), pool).start == AuctionOf(s, pool).start
    ensures Bids(c, s, events, pool)
         <= BidsLeft(AuctionOf(s, pool)) - BidsLeft(AuctionOf(Auctions.Run(c, s, events), pool)) <= MAX_BPS
    decreases |events|
  {
    if |events| > 0 {
      var s1 := Auctions.After(c, s, events[0]);
      EventKeeps(c, s, events[0]);
      MarkerStep(c, s, events[0], pool);
      MarkersOnlyGrow(c, s1, events[1..], pool);
      BidsAreFinite(c, s1, events[1..], pool);
      if events[0].Bid? && events[0].pool == pool && Auctions.Next(c, s, events[0]).Done? {
        var e := events[0];
        BidImproves(c, s, pool, e.bidder, e.bps, e.marker, e.how);
      }
    }
  }

  // ---------- what is open when ----------

  /// A started auction is never open to both a restart and a close; and once both waiting times have passed,
  /// whatever the auction's state was, exactly one of them has no more to wait for.
  lemma RestartOrClose(c: Config, s: State, pool: Pool, blocks: nat, prices: map<MarketId, nat>, basePrice: nat,
                       how: Conducts, t: Conduct)
    requires Inv(c, s) && AuctionOf(s, pool).status == Started
    requires s.waitForFirstBidder < blocks && s.nextBidderLimit < blocks
    ensures RestartAuction(c, s, pool, prices, basePrice).Revert? || CloseAuction(c, s, pool, how, t).Revert?
    ensures var later := Auctions.After(c, s, Elapse(blocks));
      && AuctionOf(later, pool) == AuctionOf(s, pool)
      && (IsStale(later, AuctionOf(later, pool)) <==> !MayClose(later, AuctionOf(later, pool)))
  {
    assert AuctionInv(c, s, pool);
  }

  /// A stale auction can be restarted exactly when the pool's bad debt is large enough; the only other
  /// obstacle is a pool without any bad debt and any risk fund.
  lemma StaleRestarts(c: Config, s: State, pool: Pool, prices: map<MarketId, nat>, basePrice: nat)
    requires Inv(c, s) && AuctionOf(s, pool).status == Started && !s.paused
    requires AuctionOf(s, pool).highestBidder == Nobody && AuctionOf(s, pool).start + s.waitForFirstBidder < s.now
    ensures pool in c.pools
    ensures var debt := PoolBadDebt(s, MarketsOf(c, s, pool), prices);
      var riskFund := MulTruncate(basePrice, Get(s.reserves, pool));
      RestartAuction(c, s, pool, prices, basePrice).Done? <==>
        (debt >= s.minimumPoolBadDebt && !(debt == 0 && riskFund == 0))
  {
    assert AuctionInv(c, s, pool);
    var a := AuctionOf(s, pool);
    var ended := s.(auctions := s.auctions[pool := a.(status := Ended)]);
    SameDebt(s, ended, MarketsOf(c, s, pool), prices);
    TermsExist(MulTruncate(basePrice, Get(s.reserves, pool)), PoolBadDebt(s, MarketsOf(c, s, pool), prices), s.incentiveBps);
  }

  lemma TermsExist(riskFund: nat, debt: nat, incentiveBps: nat)
    ensures AuctionTerms(riskFund, debt, incentiveBps).Done? <==> !(debt == 0 && riskFund == 0)
  {
    TermsInRange(riskFund, debt, incentiveBps);
  }

  lemma {:induction false} SameDebt(s: State, s': State, markets: seq<MarketId>, prices: map<MarketId, nat>)
    requires s'.vTokens == s.vTokens
    ensures PoolBadDebt(s', markets, prices) == PoolBadDebt(s, markets, prices)
    decreases |markets|
  {
    if |markets| > 0 {
      SameDebt(s, s', markets[..|markets| - 1], prices);
      SameValue(s, s', markets[|markets| - 1], prices);
    }
  }

  lemma SameValue(s: State, s': State, mk: MarketId, prices: map<MarketId, nat>)
    requires s'.vTokens == s.vTokens
    ensures DebtValue(s', mk, prices) == DebtValue(s, mk, prices)
  {
    assert MarketAt(s', mk) == MarketAt(s, mk);
  }
}
