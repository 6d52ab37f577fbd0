/** Which bids an auction accepts, when it can be restarted or closed, in terms of its start, the waiting limits and the
    leading bid; and what every transfer out does to what was sent, what is owed and what is held. */
module AuctionBids {
  import opened FixedPoint
  import opened Totals
  import opened Outcomes
  import opened Ledger
  import opened Auctions
  import opened AuctionLife
  import opened AuctionEscrow
  import opened AuctionCredit

  // ---------- which bids are accepted ----------

  ghost predicate AllComeIn(how: Conducts, markets: seq<MarketId>) {
    forall mk | mk in markets :: ConductOf(how, mk).comesIn
  }

  /// Bids are whole basis points; over a large debt they start from the first bid and rise, over a large risk fund they
  /// start from it and fall.
  predicate InTurn(a: Auction, bps: nat) {
    && 1 <= bps <= 10_000
    && (a.kind == LargePoolDebt && a.highestBidder == Nobody ==> a.startBidBps <= bps)
    && (a.kind == LargePoolDebt && a.highestBidder != Nobody ==> a.highestBidBps < bps)
    && (a.kind == LargeRiskFund && a.highestBidder == Nobody ==> bps <= a.startBidBps)
    && (a.kind == LargeRiskFund && a.highestBidder != Nobody ==> bps < a.highestBidBps)
  }

  lemma {:induction false} PulledAllCameIn(c: Config, s: State, pool: Pool, bps: nat, how: Conducts, markets: seq<MarketId>)
    requires PullAll(c, s, pool, bps, how, markets).Done?
    ensures AllComeIn(how, markets)
    decreases |markets|
  {
    if |markets| > 0 {
      PulledAllCameIn(c, Pull(c, s, pool, bps, how, markets[0]).value, pool, bps, how, markets[1..]);
      assert forall mk :: mk in markets ==> mk == markets[0] || mk in markets[1..];
    }
  }

  /// While the contract is solvent a bid goes through exactly when it names the start of a started auction, somebody
  /// leads or the wait for the first bidder is not over, the bid is in turn, and the bidder's tokens come in.
  lemma BidPasses(c: Config, s: State, pool: Pool, bidder: Account, bps: nat, marker: nat, how: Conducts)
    requires Inv(c, s) && Solvent(c, s)
    ensures var a := AuctionOf(s, pool);
      PlaceBid(c, s, pool, bidder, bps, marker, how).Done? <==>
        (&& a.status == Started && a.start == marker
         && (a.highestBidder != Nobody || s.now <= a.start + s.waitForFirstBidder)
         && InTurn(a, bps) && AllComeIn(how, a.markets))
  {
    var a := AuctionOf(s, pool);
    BidAllowed(s, a, bps, marker);
    if BidRejected(s, a, bps, marker).Done? {
      if AllComeIn(how, a.markets) {
        AcceptedBidSucceeds(c, s, pool, bidder, bps, marker, how);
      } else if PlaceBid(c, s, pool, bidder, bps, marker, how).Done? {
        PulledAllCameIn(c, s, pool, bps, how, a.markets);
      }
    }
  }

  lemma BidAllowed(s: State, a: Auction, bps: nat, marker: nat)
    ensures BidRejected(s, a, bps, marker).Done? <==>
      (&& a.status == Started && a.start == marker
       && (a.highestBidder != Nobody || s.now <= a.start + s.waitForFirstBidder) && InTurn(a, bps))
    ensures a.start != marker ==> BidRejected(s, a, bps, marker) == Revert(AuctionRestarted)
    ensures a.status == Started && a.start == marker && a.highestBidder == Nobody && a.start + s.waitForFirstBidder < s.now ==>
      BidRejected(s, a, bps, marker) == Revert(AuctionStale)
  {
  }

  /// The window of a started auction that nobody leads: up to and including the last slot of the wait for the first
  /// bidder every first bid in turn goes through and a restart is refused; from the next slot on every bid is refused
  /// as stale, and a restart goes through exactly for enough bad debt.
  lemma FirstBidWindow(c: Config, s: State, pool: Pool, bidder: Account, bps: nat, how: Conducts,
                       prices: map<MarketId, nat>, basePrice: nat)
    requires Inv(c, s) && Solvent(c, s) && !s.paused
    requires AuctionOf(s, pool).status == Started && AuctionOf(s, pool).highestBidder == Nobody
    ensures pool in c.pools
    ensures var a := AuctionOf(s, pool);
      s.now <= a.start + s.waitForFirstBidder ==>
        && RestartAuction(c, s, pool, prices, basePrice) == Revert(AuctionNotStale)
        && (InTurn(a, bps) && AllComeIn(how, a.markets) ==> PlaceBid(c, s, pool, bidder, bps, a.start, how).Done?)
    ensures var a, debt := AuctionOf(s, pool), PoolBadDebt(s, MarketsOf(c, s, pool), prices);
      a.start + s.waitForFirstBidder < s.now ==>
        && PlaceBid(c, s, pool, bidder, bps, a.start, how) == Revert(AuctionStale)
        && (RestartAuction(c, s, pool, prices, basePrice).Done? <==>
              debt >= s.minimumPoolBadDebt && !(debt == 0 && MulTruncate(basePrice, Get(s.reserves, pool)) == 0))
  {
    var a := AuctionOf(s, pool);
    assert AuctionInv(c, s, pool);
    BidPasses(c, s, pool, bidder, bps, a.start, how);
    BidAllowed(s, a, bps, a.start);
    if a.start + s.waitForFirstBidder < s.now {
      StaleRestarts(c, s, pool, prices, basePrice);
    }
  }

  /// What is refused in any state: a restart of an auction that is led or still waits, or of none; a close of one that
  /// nobody leads or whose last bid may still be outbid; and starts and restarts while paused.
  lemma TooEarly(c: Config, s: State, pool: Pool, prices: map<MarketId, nat>, basePrice: nat, how: Conducts, t: Conduct)
    ensures var a := AuctionOf(s, pool);
      && (a.status != Started ==>
            CloseAuction(c, s, pool, how, t) == Revert(NoOngoingAuction) && RestartAuction(c, s, pool, prices, basePrice).Revert?)
      && (a.highestBidder != Nobody || s.now <= a.start + s.waitForFirstBidder ==> RestartAuction(c, s, pool, prices, basePrice).Revert?)
      && (a.status == Started && (a.highestBidder == Nobody || s.now <= a.highestBidBlock + s.nextBidderLimit) ==>
            CloseAuction(c, s, pool, how, t) == Revert(WaitingForNextBidder))
  {
  }

  /// An auction starts exactly in a registered pool without a started one, unless paused, when the pool's bad debt
  /// reaches the minimum and debt and risk fund are not both nothing; and it starts with nobody leading.
  lemma StartPasses(c: Config, s: State, pool: Pool, prices: map<MarketId, nat>, basePrice: nat)
    ensures StartAuction(c, s, pool, prices, basePrice).Done? <==>
      (&& !s.paused && pool in c.pools && AuctionOf(s, pool).status != Started
       && var debt := PoolBadDebt(s, MarketsOf(c, s, pool), prices);
          s.minimumPoolBadDebt <= debt && !(debt == 0 && MulTruncate(basePrice, Get(s.reserves, pool)) == 0))
    ensures StartAuction(c, s, pool, prices, basePrice).Done? ==>
      var a := AuctionOf(StartAuction(c, s, pool, prices, basePrice).value, pool);
      a.status == Started && a.highestBidder == Nobody && a.start == s.now
      && forall p | p != pool :: AuctionOf(StartAuction(c, s, pool, prices, basePrice).value, p) == AuctionOf(s, p)
  {
    if pool in c.pools {
      TermsExist(MulTruncate(basePrice, Get(s.reserves, pool)), PoolBadDebt(s, MarketsOf(c, s, pool), prices), s.incentiveBps);
    }
  }

  /// Over a large debt the first bid is the part of the incentivised debt that the risk fund is worth, less than one
  /// basis point down.
  lemma FirstBidIsFair(riskFund: nat, debt: nat, incentiveBps: nat)
    requires AuctionTerms(riskFund, debt, incentiveBps).Done?
    ensures var t := AuctionTerms(riskFund, debt, incentiveBps).value;
      t.kind == LargePoolDebt ==>
        t.startBidBps * (debt * (10_000 + incentiveBps)) <= 100_000_000 * riskFund < (t.startBidBps + 1) * (debt * (10_000 + incentiveBps))
  {
    var x := debt * (MAX_BPS + incentiveBps);
    if 0 < x {
      DivBounds(MAX_BPS * MAX_BPS * riskFund, x, MAX_BPS * MAX_BPS * riskFund / x);
      DivBounds(MAX_BPS * MAX_BPS * riskFund, x, MAX_BPS * MAX_BPS * riskFund / x + 1);
    }
  }

  /// What a bid asks for in one market: over a large debt its part of the debt, less than one unit down, over a large
  /// risk fund all of it; and that arrives when the token keeps nothing.
  lemma BidAsks(a: Auction, bps: nat, how: Conducts, mk: MarketId)
    ensures var asked, debt := BidPayment(a.kind, Get(a.marketDebt, mk), bps), Get(a.marketDebt, mk);
      && (a.kind == LargePoolDebt ==> asked * 10_000 <= debt * bps < (asked + 1) * 10_000)
      && (a.kind == LargeRiskFund ==> asked == debt)
      && (ConductOf(how, mk).fee == 0 ==> Arrival(a, bps, how, mk) == asked)
  {
    DivBounds(Get(a.marketDebt, mk) * bps, MAX_BPS, Get(a.marketDebt, mk) * bps / MAX_BPS);
    DivBounds(Get(a.marketDebt, mk) * bps, MAX_BPS, Get(a.marketDebt, mk) * bps / MAX_BPS + 1);
  }

  // ---------- what governance sets ----------

  /// Governance sets the minimum of bad debt and the wait for the first bidder to anything, the incentive and the wait
  /// for the next bidder to anything but nothing; each changes only itself. Pausing passes exactly when not paused,
  /// and resuming when paused.
  lemma SettersPass(c: Config, s: State, n: nat, paused: bool)
    ensures Auctions.After(c, s, SetMinimum(n)) == s.(minimumPoolBadDebt := n)
    ensures Auctions.After(c, s, SetWaitForFirstBidder(n)) == s.(waitForFirstBidder := n)
    ensures Auctions.Next(c, s, SetIncentive(n)).Done? <==> n != 0
    ensures n != 0 ==> Auctions.After(c, s, SetIncentive(n)) == s.(incentiveBps := n)
    ensures Auctions.Next(c, s, SetNextBidderLimit(n)).Done? <==> n != 0
    ensures n != 0 ==> Auctions.After(c, s, SetNextBidderLimit(n)) == s.(nextBidderLimit := n)
    ensures Auctions.Next(c, s, SetPaused(paused)).Done? <==> paused != s.paused
    ensures Auctions.After(c, s, SetPaused(paused)) == s.(paused := paused)
  {
  }

  /// A market is listed in a pool at the end of its list, as long as there is one; the lists of other pools stay.
  lemma ListingAppends(c: Config, s: State, pool: Pool, p: Pool)
    requires pool in c.pools && p in c.pools && Get(s.listed, pool) < |c.pools[pool]|
    ensures var s' := Auctions.After(c, s, ListMarket(pool));
      MarketsOf(c, s', p) == MarketsOf(c, s, p) + if p == pool then [c.pools[pool][Get(s.listed, pool)]] else []
  {
  }

  // ---------- what a transfer out does ----------

  function Sent(s: State, token: Token, u: Account): nat {
    Get(Row(s.sent, token), u)
  }

  function Owed(s: State, token: Token, u: Account): nat {
    Get(Row(s.tokenDebt, token), u)
  }

  /// One transfer out. With the balance for it, it always passes. What the token lets out is sent and leaves the
  /// balance, and no debt changes; what the token does not let out stays in the balance and is owed from then on,
  /// singly and in all.
  lemma TransferBooks(s: State, token: Token, to: Account, amount: nat, goesOut: bool, t: Token, u: Account)
    ensures TransferOutOrTrackDebt(s, token, to, amount, goesOut).Done? <==> amount <= Get(s.balance, token)
    ensures TransferOutOrTrackDebt(s, token, to, amount, goesOut).Done? ==>
      var s' := TransferOutOrTrackDebt(s, token, to, amount, goesOut).value;
      && (goesOut ==> s'.tokenDebt == s.tokenDebt && s'.totalTokenDebt == s.totalTokenDebt)
      && (!goesOut ==> s'.sent == s.sent && s'.balance == s.balance)
      && Booked(s, s', t, u, if t == token && u == to then amount else 0, if t == token then amount else 0, goesOut)
  {
    if amount <= Get(s.balance, token) {
      if goesOut {
        RaiseEntry(s.sent, token, to, amount, t, u);
      } else {
        RaiseEntry(s.tokenDebt, token, to, amount, t, u);
      }
    }
  }

  /// Of one token: `mine` was for this account, `all` in all.
  ghost predicate Booked(s: State, s': State, t: Token, u: Account, mine: nat, all: nat, goesOut: bool) {
    && Sent(s', t, u) == Sent(s, t, u) + (if goesOut then mine else 0)
    && Owed(s', t, u) == Owed(s, t, u) + (if goesOut then 0 else mine)
    && Get(s'.totalTokenDebt, t) == Get(s.totalTokenDebt, t) + (if goesOut then 0 else all)
    && Get(s'.balance, t) == Get(s.balance, t) - (if goesOut then all else 0)
  }

  // ---------- refunds ----------

  /// Of the recorded amounts in a token, those that its markets' tokens let out, or do not.
  function Refunds(c: Config, a: Auction, markets: seq<MarketId>, token: Token, how: Conducts, out: bool): nat
    decreases |markets|
  {
    if |markets| == 0 then 0
    else
      (if TokenOf(c, markets[0]) == token && ConductOf(how, markets[0]).goesOut == out && a.highestBidder != Nobody then
         Get(a.bidAmount, markets[0])
       else 0)
        + Refunds(c, a, markets[1..], token, how, out)
  }

  function Arrivals(c: Config, a: Auction, markets: seq<MarketId>, token: Token, bps: nat, how: Conducts): nat
    decreases |markets|
  {
    if |markets| == 0 then 0
    else
      (if TokenOf(c, markets[0]) == token then Arrival(a, bps, how, markets[0]) else 0)
        + Arrivals(c, a, markets[1..], token, bps, how)
  }

  /// What an out-bid does in a token: each refund to the last leader goes out or becomes a debt, and the new payments
  /// come in.
  ghost predicate OutbidBooked(c: Config, s: State, s': State, a: Auction, markets: seq<MarketId>, bps: nat, how: Conducts,
                               t: Token, u: Account)
  {
    var out, kept := Refunds(c, a, markets, t, how, true), Refunds(c, a, markets, t, how, false);
    var me := a.highestBidder == Bidder(u);
    && Sent(s', t, u) == Sent(s, t, u) + (if me then out else 0)
    && Owed(s', t, u) == Owed(s, t, u) + (if me then kept else 0)
    && Get(s'.totalTokenDebt, t) == Get(s.totalTokenDebt, t) + kept
    && Get(s'.balance, t) == Get(s.balance, t) - out + Arrivals(c, a, markets, t, bps, how)
  }

  lemma {:induction false} SameRefunds(c: Config, a: Auction, a': Auction, markets: seq<MarketId>, token: Token, how: Conducts,
                                       out: bool, bps: nat)
    requires a' == a.(bidAmount := a'.bidAmount)
    requires forall mk | mk in markets :: Get(a'.bidAmount, mk) == Get(a.bidAmount, mk)
    ensures Refunds(c, a', markets, token, how, out) == Refunds(c, a, markets, token, how, out)
    ensures Arrivals(c, a', markets, token, bps, how) == Arrivals(c, a, markets, token, bps, how)
    decreases |markets|
  {
    if |markets| > 0 {
      SameRefunds(c, a, a', markets[1..], token, how, out, bps);
    }
  }

  lemma RefundBooks(s: State, a: Auction, token: Token, mk: MarketId, goesOut: bool, t: Token, u: Account)
    requires Refund(s, a, token, mk, goesOut).Done?
    ensures var amount := if a.highestBidder == Nobody then 0 else Get(a.bidAmount, mk);
      Booked(s, Refund(s, a, token, mk, goesOut).value, t, u,
             if t == token && a.highestBidder == Bidder(u) then amount else 0, if t == token then amount else 0, goesOut)
  {
    if a.highestBidder != Nobody {
      TransferBooks(s, token, a.highestBidder.account, Get(a.bidAmount, mk), goesOut, t, u);
    }
  }

  lemma PullBooks(c: Config, s: State, pool: Pool, bps: nat, how: Conducts, mk: MarketId, t: Token, u: Account)
    requires Pull(c, s, pool, bps, how, mk).Done?
    ensures OutbidBooked(c, s, Pull(c, s, pool, bps, how, mk).value, AuctionOf(s, pool), [mk], bps, how, t, u)
  {
    var a := AuctionOf(s, pool);
    RefundBooks(s, a, TokenOf(c, mk), mk, ConductOf(how, mk).goesOut, t, u);
    OneRefund(c, a, mk, t, how, bps);
    PullAfterRefund(c, s, pool, bps, how, mk, t);
  }

  lemma OneRefund(c: Config, a: Auction, mk: MarketId, t: Token, how: Conducts, bps: nat)
    ensures forall out :: Refunds(c, a, [mk], t, how, out) ==
              if TokenOf(c, mk) == t && ConductOf(how, mk).goesOut == out && a.highestBidder != Nobody then Get(a.bidAmount, mk) else 0
    ensures Arrivals(c, a, [mk], t, bps, how) == if TokenOf(c, mk) == t then Arrival(a, bps, how, mk) else 0
  {
    assert [mk][1..] == [];
    assert forall out :: Refunds(c, a, [], t, how, out) == 0;
    assert Arrivals(c, a, [], t, bps, how) == 0;
  }

  lemma PullAfterRefund(c: Config, s: State, pool: Pool, bps: nat, how: Conducts, mk: MarketId, t: Token)
    requires Pull(c, s, pool, bps, how, mk).Done?
    ensures var a, s' := AuctionOf(s, pool), Pull(c, s, pool, bps, how, mk).value;
      var s1 := Refund(s, a, TokenOf(c, mk), mk, ConductOf(how, mk).goesOut);
      && s1.Done? && s'.sent == s1.value.sent && s'.tokenDebt == s1.value.tokenDebt
      && s'.totalTokenDebt == s1.value.totalTokenDebt
      && Get(s'.balance, t) == Get(s1.value.balance, t) + if t == TokenOf(c, mk) then Arrival(a, bps, how, mk) else 0
  {
  }

  /// The same for the rest of the markets, of the auction as it was before.
  ghost predicate RestSame(c: Config, a: Auction, a1: Auction, rest: seq<MarketId>, t: Token, bps: nat, how: Conducts) {
    && a1.highestBidder == a.highestBidder
    && Refunds(c, a1, rest, t, how, true) == Refunds(c, a, rest, t, how, true)
    && Refunds(c, a1, rest, t, how, false) == Refunds(c, a, rest, t, how, false)
    && Arrivals(c, a1, rest, t, bps, how) == Arrivals(c, a, rest, t, bps, how)
  }

  lemma RefundsSplit(c: Config, a: Auction, markets: seq<MarketId>, t: Token, how: Conducts, bps: nat)
    requires |markets| > 0
    ensures forall out: bool {:trigger Refunds(c, a, markets, t, how, out)} ::
      Refunds(c, a, markets, t, how, out) == Refunds(c, a, [markets[0]], t, how, out) + Refunds(c, a, markets[1..], t, how, out)
    ensures Arrivals(c, a, markets, t, bps, how) == Arrivals(c, a, [markets[0]], t, bps, how) + Arrivals(c, a, markets[1..], t, bps, how)
  {
    OneRefund(c, a, markets[0], t, how, bps);
  }

  lemma BookedBoth(c: Config, s: State, s1: State, s2: State, a: Auction, a1: Auction, markets: seq<MarketId>, bps: nat,
                   how: Conducts, t: Token, u: Account)
    requires |markets| > 0 && RestSame(c, a, a1, markets[1..], t, bps, how)
    requires OutbidBooked(c, s, s1, a, [markets[0]], bps, how, t, u)
    requires OutbidBooked(c, s1, s2, a1, markets[1..], bps, how, t, u)
    ensures OutbidBooked(c, s, s2, a, markets, bps, how, t, u)
  {
    RefundsSplit(c, a, markets, t, how, bps);
  }

  lemma {:induction false} PullAllBooks(c: Config, s: State, pool: Pool, bps: nat, how: Conducts, markets: seq<MarketId>,
                                        t: Token, u: Account)
    requires Distinct(markets) && PullAll(c, s, pool, bps, how, markets).Done?
    ensures OutbidBooked(c, s, PullAll(c, s, pool, bps, how, markets).value, AuctionOf(s, pool), markets, bps, how, t, u)
    decreases |markets|
  {
    if |markets| > 0 {
      var s1 := Pull(c, s, pool, bps, how, markets[0]).value;
      PullBooks(c, s, pool, bps, how, markets[0], t, u);
      PullEffect(c, s, pool, bps, how, markets[0]);
      PullAllBooks(c, s1, pool, bps, how, markets[1..], t, u);
      assert markets[0] !in markets[1..];
      SameRefunds(c, AuctionOf(s, pool), AuctionOf(s1, pool), markets[1..], t, how, true, bps);
      SameRefunds(c, AuctionOf(s, pool), AuctionOf(s1, pool), markets[1..], t, how, false, bps);
      BookedBoth(c, s, s1, PullAll(c, s1, pool, bps, how, markets[1..]).value, AuctionOf(s, pool), AuctionOf(s1, pool), markets,
                 bps, how, t, u);
    }
  }

  /// An accepted bid, in every token and for every account: of what was recorded for the last leader, what the tokens let
  /// out is sent and leaves the balance; what they do not is owed, singly and in all, and stays; nobody else is sent
  /// or owed anything; and what arrives of the new bid comes in.
  lemma OutbidIsBooked(c: Config, s: State, pool: Pool, bidder: Account, bps: nat, marker: nat, how: Conducts, t: Token, u: Account)
    requires Inv(c, s) && PlaceBid(c, s, pool, bidder, bps, marker, how).Done?
    ensures var a := AuctionOf(s, pool);
      OutbidBooked(c, s, PlaceBid(c, s, pool, bidder, bps, marker, how).value, a, a.markets, bps, how, t, u)
  {
    var a := AuctionOf(s, pool);
    assert AuctionInv(c, s, pool);
    PullAllBooks(c, s, pool, bps, how, a.markets, t, u);
    BidBalances(c, s, pool, bidder, bps, marker, how);
  }

  /// A close, in every token and for every account: the bids leave the balance for the markets, what arrives of the
  /// payout comes in; and the payout goes out to the winner or is owed to the winner and stays.
  lemma WinnerIsBooked(c: Config, s: State, pool: Pool, how: Conducts, payment: Conduct, t: Token, u: Account)
    requires Inv(c, s) && CloseAuction(c, s, pool, how, payment).Done?
    ensures var a, s' := AuctionOf(s, pool), CloseAuction(c, s, pool, how, payment).value;
      var payout := if t == c.base then Payout(a) else 0;
      var mine := if a.highestBidder == Bidder(u) then payout else 0;
      && Sent(s', t, u) == Sent(s, t, u) + (if payment.goesOut then mine else 0)
      && Owed(s', t, u) == Owed(s, t, u) + (if payment.goesOut then 0 else mine)
      && Get(s'.totalTokenDebt, t) == Get(s.totalTokenDebt, t) + (if payment.goesOut then 0 else payout)
      && Get(s'.balance, t) == Get(s.balance, t) - BidsIn(c, a, a.markets, t) + Arrives(payout, payment.fee)
                               - (if payment.goesOut then payout else 0)
  {
    var ended, delivered := CloseStages(c, s, pool, how, payment);
    var a := AuctionOf(s, pool);
    assert AuctionInv(c, s, pool);
    DeliverAllCredit(c, ended, pool, how, a.markets);
    DeliverAllBalance(c, ended, pool, how, a.markets, t);
    SameBids(c, a, AuctionOf(ended, pool), a.markets, t);
    PayBooks(c, delivered, pool, a.highestBidder.account, Payout(a), payment, t, u);
  }

  lemma PayBooks(c: Config, s: State, pool: Pool, winner: Account, payout: nat, payment: Conduct, t: Token, u: Account)
    requires PayWinner(c, s, pool, winner, payout, payment).Done?
    ensures var s' := PayWinner(c, s, pool, winner, payout, payment).value;
      var all := if t == c.base then payout else 0;
      var mine := if u == winner then all else 0;
      && Sent(s', t, u) == Sent(s, t, u) + (if payment.goesOut then mine else 0)
      && Owed(s', t, u) == Owed(s, t, u) + (if payment.goesOut then 0 else mine)
      && Get(s'.totalTokenDebt, t) == Get(s.totalTokenDebt, t) + (if payment.goesOut then 0 else all)
      && Get(s'.balance, t) == Get(s.balance, t) + Arrives(all, payment.fee) - (if payment.goesOut then all else 0)
  {
    var s1 := PaidIn(c, s, pool, payout, payment);
    PayIs(c, s, pool, winner, payout, payment);
    TransferBooks(s1, c.base, winner, payout, payment.goesOut, t, u);
  }

  /// The risk fund has handed over the payout.
  function PaidIn(c: Config, s: State, pool: Pool, payout: nat, payment: Conduct): State
    requires payout <= Get(s.reserves, pool)
  {
    s.(reserves := s.reserves[pool := Get(s.reserves, pool) - payout],
       balance := Auctions.Add(s.balance, c.base, Arrives(payout, payment.fee)))
  }

  lemma PayIs(c: Config, s: State, pool: Pool, winner: Account, payout: nat, payment: Conduct)
    requires PayWinner(c, s, pool, winner, payout, payment).Done?
    ensures payout <= Get(s.reserves, pool)
    ensures PayWinner(c, s, pool, winner, payout, payment)
         == TransferOutOrTrackDebt(PaidIn(c, s, pool, payout, payment), c.base, winner, payout, payment.goesOut)
  {
  }

  // ---------- claims ----------

  /// A claim passes exactly for no more than is owed to the account and in all, when the balance has it and the token
  /// lets it out.
  lemma ClaimPasses(s: State, token: Token, user: Account, requested: Amount, goesOut: bool)
    ensures var amount := if requested.All? then Owed(s, token, user) else requested.amount;
      ClaimTokenDebt(s, token, user, requested, goesOut).Done? <==>
        amount <= Owed(s, token, user) && amount <= Get(s.totalTokenDebt, token) && amount <= Get(s.balance, token) && goesOut
  {
  }

  /// What is claimed is sent and leaves the balance and both debts, and nothing else changes.
  lemma ClaimBooks(s: State, token: Token, user: Account, requested: Amount, goesOut: bool, t: Token, u: Account)
    requires ClaimTokenDebt(s, token, user, requested, goesOut).Done?
    ensures var amount := if requested.All? then Owed(s, token, user) else requested.amount;
      var s' := ClaimTokenDebt(s, token, user, requested, goesOut).value;
      && Claimed(s, s', t, u, if t == token && u == user then amount else 0, if t == token then amount else 0)
      && s' == s.(sent := s'.sent, tokenDebt := s'.tokenDebt, totalTokenDebt := s'.totalTokenDebt, balance := s'.balance)
  {
    var amount := if requested.All? then Owed(s, token, user) else requested.amount;
    var s' := ClaimTokenDebt(s, token, user, requested, goesOut).value;
    ClaimRow(s, token, user, requested, goesOut, amount);
    ClaimSends(s, token, user, requested, goesOut, amount);
    ClaimedRows(s, s', token, user, amount, t, u);
  }

  lemma ClaimedRows(s: State, s': State, token: Token, user: Account, amount: nat, t: Token, u: Account)
    requires amount <= Owed(s, token, user) && amount <= Get(s.totalTokenDebt, token) && amount <= Get(s.balance, token)
    requires s'.sent == Raise(s.sent, token, user, amount) && s'.balance == Auctions.Sub(s.balance, token, amount)
    requires s'.tokenDebt == s.tokenDebt[token := Row(s.tokenDebt, token)[user := Get(Row(s.tokenDebt, token), user) - amount]]
    requires s'.totalTokenDebt == s.totalTokenDebt[token := Get(s.totalTokenDebt, token) - amount]
    ensures Claimed(s, s', t, u, if t == token && u == user then amount else 0, if t == token then amount else 0)
  {
    RaiseEntry(s.sent, token, user, amount, t, u);
    assert Owed(s', t, u) == Owed(s, t, u) - if t == token && u == user then amount else 0;
  }

  lemma ClaimSends(s: State, token: Token, user: Account, requested: Amount, goesOut: bool, amount: nat)
    requires ClaimTokenDebt(s, token, user, requested, goesOut).Done?
    requires amount == if requested.All? then Owed(s, token, user) else requested.amount
    ensures amount <= Get(s.balance, token)
    ensures var s' := ClaimTokenDebt(s, token, user, requested, goesOut).value;
      && s'.sent == Raise(s.sent, token, user, amount) && s'.balance == Auctions.Sub(s.balance, token, amount)
      && s' == s.(sent := s'.sent, tokenDebt := s'.tokenDebt, totalTokenDebt := s'.totalTokenDebt, balance := s'.balance)
  {
  }

  ghost predicate Claimed(s: State, s': State, t: Token, u: Account, mine: nat, all: nat) {
    && Sent(s', t, u) == Sent(s, t, u) + mine && Owed(s', t, u) == Owed(s, t, u) - mine
    && Get(s'.totalTokenDebt, t) == Get(s.totalTokenDebt, t) - all && Get(s'.balance, t) == Get(s.balance, t) - all
  }
}
