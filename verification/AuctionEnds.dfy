/** Which auctions can be ended. The seized part of the risk fund is computed as a value in USD, and paid out as that
    many units of the base asset; so whether a due auction closes, and what its winner gets, depends on the price
    of the base asset at the start. */
module AuctionEnds {
  import opened FixedPoint
  import opened Totals
  import opened Outcomes
  import opened Ledger
  import opened Auctions
  import opened AuctionLife
  import opened AuctionEscrow
  import opened AuctionCredit
  import opened AuctionValue
  import AuctionLength

  /// The tokens of a close do as they should: all go out and come in, and the base asset keeps nothing.
  ghost predicate WellBehaved(how: Conducts, t: Conduct, markets: seq<MarketId>) {
    AllGoOut(how, markets) && t.comesIn && t.fee == 0
  }

  // ---------- closing ----------

  lemma NothingLost(c: Config, payout: nat, t: Conduct)
    requires t.fee == 0
    ensures FeeLost(c, payout, t, c.base) == 0
  {
  }

  lemma BidsAreHeld(c: Config, s: State, pool: Pool, how: Conducts, token: Token)
    requires Inv(c, s) && Solvent(c, s)
    requires AuctionOf(s, pool).status == Started && AuctionOf(s, pool).highestBidder != Nobody
    requires AllGoOut(how, AuctionOf(s, pool).markets)
    ensures BidsIn(c, AuctionOf(s, pool), AuctionOf(s, pool).markets, token) <= Get(s.balance, token)
  {
    var a := AuctionOf(s, pool);
    var ended := s.(auctions := s.auctions[pool := a.(status := Ended)]);
    ReadyToDeliver(c, s, ended, pool);
    DeliverAllSucceeds(c, ended, Escrow(c, s), pool, how, a.markets);
    DeliverAllBalance(c, ended, pool, how, a.markets, token);
    SameBids(c, a, AuctionOf(ended, pool), a.markets, token);
  }

  /// When the tokens do as they should, a due auction closes exactly when the risk fund holds the payout.
  lemma ReserveDecides(c: Config, s: State, pool: Pool, how: Conducts, t: Conduct)
    requires Inv(c, s) && Solvent(c, s) && WellBehaved(how, t, AuctionOf(s, pool).markets)
    requires AuctionOf(s, pool).status == Started && MayClose(s, AuctionOf(s, pool))
    ensures CloseAuction(c, s, pool, how, t).Done? <==> Payout(AuctionOf(s, pool)) <= Get(s.reserves, pool)
  {
    DueAuctionCloses(c, s, pool, how, t);
    NothingLost(c, Payout(AuctionOf(s, pool)), t);
    BidsAreHeld(c, s, pool, how, c.base);
  }

  lemma FundFits(price: nat, reserve: nat)
    ensures MulTruncate(price, reserve) <= reserve <==> price * reserve < (reserve + 1) * EXP_SCALE
    ensures reserve <= MulTruncate(price, reserve) <==> reserve * EXP_SCALE <= price * reserve
    ensures price <= EXP_SCALE ==> MulTruncate(price, reserve) <= reserve
  {
    DivBounds(price * reserve, EXP_SCALE, reserve + 1);
    DivBounds(price * reserve, EXP_SCALE, reserve);
    if price <= EXP_SCALE {
      MulLe(price, EXP_SCALE, reserve);
    }
  }

  /// A due auction, started or restarted at some price of the base asset, with the risk fund as it was then. Over a
  /// large debt it closes if and only if the risk fund's value is no larger a number than its units, so always
  /// at a price of at most one; over a large risk fund if and only if the bid's part of the incentivised debt is
  /// no larger a number than the risk fund's units, so for every bid when the incentivised debt is not.
  lemma PriceDecides(c: Config, s: State, e: Event, events: seq<Event>, a: Auction, how: Conducts, t: Conduct)
    requires Leads(c, s, e, events, a) && WellBehaved(how, t, a.markets)
    requires var s' := Auctions.Run(c, Auctions.After(c, s, e), events);
      Solvent(c, s') && MayClose(s', a) && Get(s'.reserves, e.pool) == Get(s.reserves, e.pool)
    ensures e.pool in c.pools
    ensures var s', reserve := Auctions.Run(c, Auctions.After(c, s, e), events), Get(s.reserves, e.pool);
      var closes := CloseAuction(c, s', e.pool, how, t).Done?;
      var owed := WithIncentive(PoolBadDebt(s, MarketsOf(c, s, e.pool), e.prices), s.incentiveBps);
      && (a.kind == LargePoolDebt ==>
            && (closes <==> MulTruncate(e.basePrice, reserve) <= reserve)
            && (closes <==> e.basePrice * reserve < (reserve + 1) * EXP_SCALE)
            && (e.basePrice <= EXP_SCALE ==> closes))
      && (a.kind == LargeRiskFund ==>
            && (closes <==> owed * a.highestBidBps / MAX_BPS <= reserve)
            && (owed <= reserve ==> closes))
  {
    var s1 := Auctions.After(c, s, e);
    var s' := Auctions.Run(c, s1, events);
    EventKeeps(c, s, e);
    RunKeeps(c, s1, events);
    PayoutWithinDebt(c, s, e, events, a);
    ReserveDecides(c, s', e.pool, how, t);
    FundFits(e.basePrice, Get(s.reserves, e.pool));
  }

  /// And if it closes, the winner is credited that many units of the base asset. Over a large debt, which is to win
  /// the entire risk fund, that is all of its tokens if and only if its value is the same number as its units.
  lemma WinnerGetsFund(c: Config, s: State, e: Event, events: seq<Event>, a: Auction, how: Conducts, t: Conduct)
    requires Leads(c, s, e, events, a) && a.kind == LargePoolDebt
    requires var s' := Auctions.Run(c, Auctions.After(c, s, e), events);
      CloseAuction(c, s', e.pool, how, t).Done? && Get(s'.reserves, e.pool) == Get(s.reserves, e.pool)
    ensures var s', reserve := Auctions.Run(c, Auctions.After(c, s, e), events), Get(s.reserves, e.pool);
      var closed, winner := CloseAuction(c, s', e.pool, how, t).value, a.highestBidder.account;
      && Credit(closed, c.base, winner) - Credit(s', c.base, winner) == MulTruncate(e.basePrice, reserve)
      && Get(closed.reserves, e.pool) == reserve - MulTruncate(e.basePrice, reserve)
      && (Get(closed.reserves, e.pool) == 0 <==> reserve * EXP_SCALE <= e.basePrice * reserve)
  {
    var s1 := Auctions.After(c, s, e);
    EventKeeps(c, s, e);
    RunKeeps(c, s1, events);
    PayoutWithinDebt(c, s, e, events, a);
    WinnerIsPaid(c, Auctions.Run(c, s1, events), e.pool, how, t, c.base, a.highestBidder.account);
    FundFits(e.basePrice, Get(s.reserves, e.pool));
  }

  // ---------- stuck ----------

  /// Somebody leads the pool's auction over a large debt, and the risk fund holds less than it is to pay.
  ghost predicate Stuck(s: State, pool: Pool) {
    var a := AuctionOf(s, pool);
    && a.status == Started && a.highestBidder != Nobody && a.kind == LargePoolDebt
    && Get(s.reserves, pool) < a.seizedRiskFund
  }

  /// The risk fund stays below an amount before every event of the run, and after it.
  predicate ReserveBelow(c: Config, s: State, events: seq<Event>, pool: Pool, amount: nat)
    decreases |events|
  {
    && Get(s.reserves, pool) < amount
    && (|events| == 0 || ReserveBelow(c, Auctions.After(c, s, events[0]), events[1..], pool, amount))
  }

  lemma StuckCannotClose(c: Config, s: State, pool: Pool, how: Conducts, t: Conduct)
    requires Inv(c, s) && Stuck(s, pool)
    ensures CloseAuction(c, s, pool, how, t).Revert?
  {
    if CloseAuction(c, s, pool, how, t).Done? {
      WinnerIsPaid(c, s, pool, how, t, c.base, 0);
    }
  }

  lemma StuckCannotStart(c: Config, s: State, pool: Pool, prices: map<MarketId, nat>, basePrice: nat)
    requires Stuck(s, pool)
    ensures StartAuction(c, s, pool, prices, basePrice).Revert? && RestartAuction(c, s, pool, prices, basePrice).Revert?
  {
  }

  /// The auction goes on as it is, at most with another leader.
  predicate SameAuction(a: Auction, a': Auction) {
    SameTerms(a, a') && a'.status == a.status && (a.highestBidder != Nobody ==> a'.highestBidder != Nobody)
  }

  lemma StuckBid(c: Config, s: State, e: Event, pool: Pool)
    requires Inv(c, s) && e.Bid? && Auctions.Next(c, s, e).Done?
    ensures SameAuction(AuctionOf(s, pool), AuctionOf(Auctions.After(c, s, e), pool))
  {
    BidEffect(c, s, e.pool, e.bidder, e.bps, e.marker, e.how);
  }

  lemma StuckClose(c: Config, s: State, e: Event, pool: Pool)
    requires Inv(c, s) && Stuck(s, pool) && e.Close? && Auctions.Next(c, s, e).Done?
    ensures SameAuction(AuctionOf(s, pool), AuctionOf(Auctions.After(c, s, e), pool))
  {
    if e.pool == pool {
      StuckCannotClose(c, s, pool, e.how, e.payment);
    } else {
      CloseEffect(c, s, e.pool, e.how, e.payment);
    }
  }

  lemma StuckStart(c: Config, s: State, e: Event, pool: Pool)
    requires Inv(c, s) && Stuck(s, pool) && (e.Start? || e.Restart?) && Auctions.Next(c, s, e).Done?
    ensures SameAuction(AuctionOf(s, pool), AuctionOf(Auctions.After(c, s, e), pool))
  {
    if e.pool == pool {
      StuckCannotStart(c, s, pool, e.prices, e.basePrice);
    } else {
      StartTerms(c, s, e, pool);
    }
  }

  lemma StuckStep(c: Config, s: State, e: Event, pool: Pool)
    requires Inv(c, s) && Stuck(s, pool)
    ensures SameAuction(AuctionOf(s, pool), AuctionOf(Auctions.After(c, s, e), pool))
  {
    if Auctions.Next(c, s, e).Done? {
      if e.Start? || e.Restart? {
        StuckStart(c, s, e, pool);
      } else if e.Bid? {
        StuckBid(c, s, e, pool);
      } else if e.Close? {
        StuckClose(c, s, e, pool);
      } else {
        QuietEvent(c, s, e);
      }
    }
  }

  /// For as long as the risk fund stays below the payout, whatever else happens and however much time passes, the
  /// auction neither closes nor restarts, and the bid stays in escrow.
  lemma {:induction false} StuckForEver(c: Config, s: State, events: seq<Event>, pool: Pool, how: Conducts, t: Conduct,
                                        prices: map<MarketId, nat>, basePrice: nat)
    requires Inv(c, s) && Stuck(s, pool) && ReserveBelow(c, s, events, pool, AuctionOf(s, pool).seizedRiskFund)
    ensures var s' := Auctions.Run(c, s, events);
      && Stuck(s', pool) && AuctionOf(s', pool).start == AuctionOf(s, pool).start
      && CloseAuction(c, s', pool, how, t).Revert? && RestartAuction(c, s', pool, prices, basePrice).Revert?
    decreases |events|
  {
    if |events| == 0 {
      StuckCannotClose(c, s, pool, how, t);
      StuckCannotStart(c, s, pool, prices, basePrice);
    } else {
      EventKeeps(c, s, events[0]);
      StuckStep(c, s, events[0], pool);
      StuckForEver(c, Auctions.After(c, s, events[0]), events[1..], pool, how, t, prices, basePrice);
    }
  }

  // ---------- one of the two ----------

  lemma ElapseStaysSolvent(c: Config, s: State, blocks: nat)
    requires Inv(c, s) && Solvent(c, s)
    ensures Inv(c, Auctions.After(c, s, Elapse(blocks))) && Solvent(c, Auctions.After(c, s, Elapse(blocks)))
  {
    EventKeeps(c, s, Elapse(blocks));
    forall token
      ensures 0.0 <= Slack(c, Auctions.After(c, s, Elapse(blocks)), token)
    {
      EventSlack(c, s, Elapse(blocks), token);
      assert 0.0 <= Slack(c, s, token);
    }
  }

  lemma LaterState(c: Config, s: State, blocks: nat)
    ensures Auctions.After(c, s, Elapse(blocks)) == s.(now := s.now + blocks)
  {
  }

  /// Once both waiting times have passed since any moment of a started auction, and the tokens do as they should, it
  /// can be ended by exactly one of restart and close, if and only if: with nobody leading, the pool's bad debt
  /// reaches the minimum and debt and risk fund are not both nothing; with a leader, the risk fund holds the payout.
  lemma EnoughTimeEnds(c: Config, s: State, pool: Pool, blocks: nat, prices: map<MarketId, nat>, basePrice: nat,
                       how: Conducts, t: Conduct)
    requires Inv(c, s) && Solvent(c, s) && !s.paused && AuctionOf(s, pool).status == Started
    requires s.waitForFirstBidder < blocks && s.nextBidderLimit < blocks
    requires WellBehaved(how, t, AuctionOf(s, pool).markets)
    ensures pool in c.pools
    ensures var later, a := Auctions.After(c, s, Elapse(blocks)), AuctionOf(s, pool);
      var restarts, closes := RestartAuction(c, later, pool, prices, basePrice).Done?, CloseAuction(c, later, pool, how, t).Done?;
      var debt := PoolBadDebt(later, MarketsOf(c, later, pool), prices);
      && !(restarts && closes)
      && (a.highestBidder == Nobody ==>
            (restarts || closes <==>
               s.minimumPoolBadDebt <= debt && !(debt == 0 && MulTruncate(basePrice, Get(s.reserves, pool)) == 0)))
      && (a.highestBidder != Nobody ==> (restarts || closes <==> Payout(a) <= Get(s.reserves, pool)))
  {
    var later, a := Auctions.After(c, s, Elapse(blocks)), AuctionOf(s, pool);
    assert AuctionInv(c, s, pool);
    LaterState(c, s, blocks);
    RestartOrClose(c, s, pool, blocks, prices, basePrice, how, t);
    ElapseStaysSolvent(c, s, blocks);
    if a.highestBidder == Nobody {
      StaleRestarts(c, later, pool, prices, basePrice);
    } else {
      ReserveDecides(c, later, pool, how, t);
    }
  }
}
