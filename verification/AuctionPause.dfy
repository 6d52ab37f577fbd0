/** Pausing auctions: it stops starts and restarts, and lets the auctions that run finish. */
module AuctionPause {
  import opened Totals
  import opened Outcomes
  import opened Ledger
  import opened Auctions

  ghost predicate SameButPaused(r: Outcome<State>, r': Outcome<State>, paused: bool) {
    match r
    case Done(s) => r' == Done(s.(paused := paused))
    case Revert(e) => r' == Revert(e)
  }

  lemma PullPaused(c: Config, s: State, pool: Pool, bps: nat, how: Conducts, mk: MarketId, paused: bool)
    ensures SameButPaused(Pull(c, s, pool, bps, how, mk), Pull(c, s.(paused := paused), pool, bps, how, mk), paused)
  {
    var a, token, t := AuctionOf(s, pool), TokenOf(c, mk), ConductOf(how, mk);
    assert SameButPaused(Refund(s, a, token, mk, t.goesOut), Refund(s.(paused := paused), a, token, mk, t.goesOut), paused);
  }

  lemma {:induction false} PullAllPaused(c: Config, s: State, pool: Pool, bps: nat, how: Conducts, markets: seq<MarketId>, paused: bool)
    ensures SameButPaused(PullAll(c, s, pool, bps, how, markets), PullAll(c, s.(paused := paused), pool, bps, how, markets), paused)
    decreases |markets|
  {
    if |markets| > 0 {
      PullPaused(c, s, pool, bps, how, markets[0], paused);
      var first := Pull(c, s, pool, bps, how, markets[0]);
      if first.Done? {
        PullAllPaused(c, first.value, pool, bps, how, markets[1..], paused);
      }
    }
  }

  lemma BidPaused(c: Config, s: State, pool: Pool, bidder: Account, bps: nat, marker: nat, how: Conducts, paused: bool)
    ensures SameButPaused(PlaceBid(c, s, pool, bidder, bps, marker, how),
                          PlaceBid(c, s.(paused := paused), pool, bidder, bps, marker, how), paused)
  {
    PullAllPaused(c, s, pool, bps, how, AuctionOf(s, pool).markets, paused);
  }

  lemma DeliverPaused(c: Config, s: State, pool: Pool, how: Conducts, mk: MarketId, paused: bool)
    ensures SameButPaused(Deliver(c, s, pool, how, mk), Deliver(c, s.(paused := paused), pool, how, mk), paused)
  {
    assert MarketAt(s.(paused := paused), mk) == MarketAt(s, mk);
  }

  lemma {:induction false} DeliverAllPaused(c: Config, s: State, pool: Pool, how: Conducts, markets: seq<MarketId>, paused: bool)
    ensures SameButPaused(DeliverAll(c, s, pool, how, markets), DeliverAll(c, s.(paused := paused), pool, how, markets), paused)
    decreases |markets|
  {
    if |markets| > 0 {
      DeliverPaused(c, s, pool, how, markets[0], paused);
      var first := Deliver(c, s, pool, how, markets[0]);
      if first.Done? {
        DeliverAllPaused(c, first.value, pool, how, markets[1..], paused);
      }
    }
  }

  lemma PayWinnerPaused(c: Config, s: State, pool: Pool, winner: Account, payout: nat, t: Conduct, paused: bool)
    ensures SameButPaused(PayWinner(c, s, pool, winner, payout, t), PayWinner(c, s.(paused := paused), pool, winner, payout, t), paused)
  {
  }

  lemma CloseSplit(c: Config, s: State, pool: Pool, how: Conducts, t: Conduct)
    requires AuctionOf(s, pool).status == Started && MayClose(s, AuctionOf(s, pool))
    ensures var a := AuctionOf(s, pool);
      CloseAuction(c, s, pool, how, t)
        == Finished(c, DeliverAll(c, s.(auctions := s.auctions[pool := a.(status := Ended)]), pool, how, a.markets), pool, a, t)
  {
  }

  function Finished(c: Config, delivered: Outcome<State>, pool: Pool, a: Auction, t: Conduct): Outcome<State>
    requires a.highestBidder != Nobody
  {
    match delivered
    case Revert(e) => Revert(e)
    case Done(s) => PayWinner(c, s, pool, a.highestBidder.account, Payout(a), t)
  }

  lemma FinishedPaused(c: Config, r: Outcome<State>, r': Outcome<State>, pool: Pool, a: Auction, t: Conduct, paused: bool)
    requires a.highestBidder != Nobody && SameButPaused(r, r', paused)
    ensures SameButPaused(Finished(c, r, pool, a, t), Finished(c, r', pool, a, t), paused)
  {
    if r.Done? {
      PayWinnerPaused(c, r.value, pool, a.highestBidder.account, Payout(a), t, paused);
    }
  }

  lemma ClosePaused(c: Config, s: State, pool: Pool, how: Conducts, t: Conduct, paused: bool)
    ensures SameButPaused(CloseAuction(c, s, pool, how, t), CloseAuction(c, s.(paused := paused), pool, how, t), paused)
  {
    var a := AuctionOf(s, pool);
    if a.status == Started && MayClose(s, a) {
      var ended := s.(auctions := s.auctions[pool := a.(status := Ended)]);
      CloseSplit(c, s, pool, how, t);
      CloseSplit(c, s.(paused := paused), pool, how, t);
      DeliverAllPaused(c, ended, pool, how, a.markets, paused);
      FinishedPaused(c, DeliverAll(c, ended, pool, how, a.markets),
                     DeliverAll(c, ended.(paused := paused), pool, how, a.markets), pool, a, t, paused);
    }
  }

  /// Pausing stops starts and restarts and lets the auctions that run finish: every bid and every close does
  /// exactly what it would do unpaused.
  lemma PauseOnlyStopsStarts(c: Config, s: State, e: Event)
    requires e.Start? || e.Restart? || e.Bid? || e.Close?
    ensures e.Start? || e.Restart? ==> Auctions.Next(c, s.(paused := true), e) == Revert(AuctionsPaused)
    ensures e.Bid? || e.Close? ==>
      SameButPaused(Auctions.Next(c, s.(paused := false), e), Auctions.Next(c, s.(paused := true), e), true)
  {
    match e
    case Bid(pool, bidder, bps, marker, how) =>
      BidPaused(c, s.(paused := false), pool, bidder, bps, marker, how, true);
    case Close(pool, how, payment) => ClosePaused(c, s.(paused := false), pool, how, payment, true);
    case _ =>
  }
}
