/** How long an auction can go on: from the two waiting limits, as long as nobody bids on an auction that
    could be closed already; and that such a bid, which is accepted, prolongs it beyond them. */
module AuctionLength {
  import opened Outcomes
  import opened Ledger
  import opened Auctions
  import opened AuctionLife

  predicate AcceptedBid(c: Config, s: State, e: Event, pool: Pool) {
    e.Bid? && e.pool == pool && Auctions.Next(c, s, e).Done?
  }

  predicate LimitsFixed(events: seq<Event>) {
    forall i :: 0 <= i < |events| ==> !events[i].SetNextBidderLimit? && !events[i].SetWaitForFirstBidder?
  }

  /// No bid of the run is accepted when the pool's auction could be closed already.
  predicate BidsInTime(c: Config, s: State, events: seq<Event>, pool: Pool)
    decreases |events|
  {
    |events| == 0 ||
    ((AcceptedBid(c, s, events[0], pool) ==> !MayClose(s, AuctionOf(s, pool)))
     && BidsInTime(c, Auctions.After(c, s, events[0]), events[1..], pool))
  }

  function Waits(n: nat, limit: nat): nat {
    n * limit
  }

  /// After n bids, the leading bid's time is over by the end of the wait for the first bidder and n waits
  /// for the next.
  ghost predicate InTime(s: State, a: Auction, n: nat) {
    a.highestBidder != Nobody ==>
      a.highestBidBlock + s.nextBidderLimit <= a.start + s.waitForFirstBidder + Waits(n, s.nextBidderLimit)
  }

  lemma OneMoreLimit(n: nat, limit: nat)
    ensures Waits(n + 1, limit) == Waits(n, limit) + limit
  {
  }

  lemma BidStaysInTime(c: Config, s: State, e: Event, pool: Pool, n: nat)
    requires Inv(c, s) && AcceptedBid(c, s, e, pool) && !MayClose(s, AuctionOf(s, pool))
    requires InTime(s, AuctionOf(s, pool), n)
    ensures var s' := Auctions.After(c, s, e); InTime(s', AuctionOf(s', pool), n + 1)
  {
    BidEffect(c, s, pool, e.bidder, e.bps, e.marker, e.how);
    BidKeepsLimits(c, s, e);
    OneMoreLimit(n, s.nextBidderLimit);
    assert BidRejected(s, AuctionOf(s, pool), e.bps, e.marker).Done?;
  }

  lemma BidKeepsLimits(c: Config, s: State, e: Event)
    requires e.Bid? && Auctions.Next(c, s, e).Done? && Inv(c, s)
    ensures var s' := Auctions.After(c, s, e);
      s'.nextBidderLimit == s.nextBidderLimit && s'.waitForFirstBidder == s.waitForFirstBidder
  {
    assert AuctionInv(c, s, e.pool);
    PullAllEffect(c, s, e.pool, e.bps, e.how, AuctionOf(s, e.pool).markets);
  }

  lemma CloseKeepsLimits(c: Config, s: State, e: Event)
    requires e.Close? && Auctions.Next(c, s, e).Done? && Inv(c, s)
    ensures var s' := Auctions.After(c, s, e);
      s'.nextBidderLimit == s.nextBidderLimit && s'.waitForFirstBidder == s.waitForFirstBidder
  {
    var ended, delivered := CloseStages(c, s, e.pool, e.how, e.payment);
    DeliveredEffect(c, s, ended, delivered, e.pool, e.how);
  }

  lemma OthersKeepLimits(c: Config, s: State, e: Event)
    requires !e.Bid? && !e.Close? && !e.SetNextBidderLimit? && !e.SetWaitForFirstBidder?
    ensures var s' := Auctions.After(c, s, e);
      s'.nextBidderLimit == s.nextBidderLimit && s'.waitForFirstBidder == s.waitForFirstBidder
  {
  }

  lemma LimitsStay(c: Config, s: State, e: Event)
    requires Inv(c, s) && !e.SetNextBidderLimit? && !e.SetWaitForFirstBidder?
    ensures var s' := Auctions.After(c, s, e);
      s'.nextBidderLimit == s.nextBidderLimit && s'.waitForFirstBidder == s.waitForFirstBidder
  {
    if Auctions.Next(c, s, e).Done? && e.Bid? {
      BidKeepsLimits(c, s, e);
    } else if Auctions.Next(c, s, e).Done? && e.Close? {
      CloseKeepsLimits(c, s, e);
    } else if !e.Bid? && !e.Close? {
      OthersKeepLimits(c, s, e);
    }
  }

  predicate SameLead(a: Auction, a': Auction) {
    a'.start == a.start && a'.highestBidder == a.highestBidder && a'.highestBidBlock == a.highestBidBlock
  }

  lemma BidElsewhere(c: Config, s: State, e: Event, pool: Pool)
    requires Inv(c, s) && e.Bid? && e.pool != pool && Auctions.Next(c, s, e).Done?
    ensures SameLead(AuctionOf(s, pool), AuctionOf(Auctions.After(c, s, e), pool))
  {
    BidEffect(c, s, e.pool, e.bidder, e.bps, e.marker, e.how);
  }

  lemma CloseKeepsLead(c: Config, s: State, e: Event, pool: Pool)
    requires Inv(c, s) && e.Close? && Auctions.Next(c, s, e).Done?
    ensures SameLead(AuctionOf(s, pool), AuctionOf(Auctions.After(c, s, e), pool))
  {
    CloseEffect(c, s, e.pool, e.how, e.payment);
  }

  lemma StartChangesMarker(c: Config, s: State, e: Event, pool: Pool)
    requires Inv(c, s) && (e.Start? || e.Restart?) && Auctions.Next(c, s, e).Done?
    ensures var a, a' := AuctionOf(s, pool), AuctionOf(Auctions.After(c, s, e), pool);
      a'.start != a.start || SameLead(a, a')
  {
    if pool == e.pool {
      if e.Start? {
        ReadyToStart(c, s, e.pool);
        StartKeeps(c, s, e.pool, e.prices, e.basePrice, pool);
      } else {
        RestartKeeps(c, s, e.pool, e.prices, e.basePrice, pool);
      }
    }
  }

  lemma LeadStays(c: Config, s: State, e: Event, pool: Pool)
    requires Inv(c, s) && !AcceptedBid(c, s, e, pool)
    ensures var a, a' := AuctionOf(s, pool), AuctionOf(Auctions.After(c, s, e), pool);
      a'.start != a.start || SameLead(a, a')
  {
    if Auctions.Next(c, s, e).Done? {
      if e.Start? || e.Restart? {
        StartChangesMarker(c, s, e, pool);
      } else if e.Bid? {
        BidElsewhere(c, s, e, pool);
      } else if e.Close? {
        CloseKeepsLead(c, s, e, pool);
      } else {
        QuietEvent(c, s, e);
      }
    }
  }

  lemma StepInTime(c: Config, s: State, e: Event, pool: Pool, n: nat)
    requires Inv(c, s) && !e.SetNextBidderLimit? && !e.SetWaitForFirstBidder? && InTime(s, AuctionOf(s, pool), n)
    requires AcceptedBid(c, s, e, pool) ==> !MayClose(s, AuctionOf(s, pool))
    requires AuctionOf(Auctions.After(c, s, e), pool).start == AuctionOf(s, pool).start
    ensures var s' := Auctions.After(c, s, e);
      && InTime(s', AuctionOf(s', pool), n + if AcceptedBid(c, s, e, pool) then 1 else 0)
      && s'.nextBidderLimit == s.nextBidderLimit && s'.waitForFirstBidder == s.waitForFirstBidder
  {
    LimitsStay(c, s, e);
    if AcceptedBid(c, s, e, pool) {
      BidStaysInTime(c, s, e, pool, n);
    } else {
      LeadStays(c, s, e, pool);
    }
  }

  lemma MarkerBetween(c: Config, s: State, e: Event, rest: seq<Event>, pool: Pool)
    requires Inv(c, s)
    requires AuctionOf(Auctions.Run(c, Auctions.After(c, s, e), rest), pool).start == AuctionOf(s, pool).start
    ensures Inv(c, Auctions.After(c, s, e)) && AuctionOf(Auctions.After(c, s, e), pool).start == AuctionOf(s, pool).start
  {
    EventKeeps(c, s, e);
    MarkerStep(c, s, e, pool);
    MarkersOnlyGrow(c, Auctions.After(c, s, e), rest, pool);
  }

  lemma {:induction false} RunInTime(c: Config, s: State, events: seq<Event>, pool: Pool, n: nat)
    requires Inv(c, s) && LimitsFixed(events) && BidsInTime(c, s, events, pool)
    requires AuctionOf(Auctions.Run(c, s, events), pool).start == AuctionOf(s, pool).start
    requires InTime(s, AuctionOf(s, pool), n)
    ensures var s' := Auctions.Run(c, s, events);
      && InTime(s', AuctionOf(s', pool), n + Bids(c, s, events, pool))
      && s'.nextBidderLimit == s.nextBidderLimit && s'.waitForFirstBidder == s.waitForFirstBidder
    decreases |events|
  {
    if |events| > 0 {
      var e, s1 := events[0], Auctions.After(c, s, events[0]);
      MarkerBetween(c, s, e, events[1..], pool);
      StepInTime(c, s, e, pool, n);
      RunInTime(c, s1, events[1..], pool, n + if AcceptedBid(c, s, e, pool) then 1 else 0);
    }
  }

  lemma LimitsAddUp(bids: nat, limit: nat)
    requires bids <= MAX_BPS
    ensures Waits(bids, limit) <= Waits(MAX_BPS, limit)
  {
  }

  lemma OpenWithinTime(s: State, a: Auction, bids: nat)
    requires InTime(s, a, bids) && !IsStale(s, a) && !MayClose(s, a)
    ensures s.now - a.start <= s.waitForFirstBidder + Waits(bids, s.nextBidderLimit)
  {
  }

  /// An auction that nobody leads yet, and on which nobody bids once it could be closed, goes on for no
  /// longer than the wait for the first bidder and, for each bid, the wait for the next; and that is at
  /// most ten thousand of those.
  lemma AuctionEndsInTime(c: Config, s: State, events: seq<Event>, pool: Pool)
    requires Inv(c, s) && AuctionOf(s, pool).highestBidder == Nobody
    requires LimitsFixed(events) && BidsInTime(c, s, events, pool)
    requires AuctionOf(Auctions.Run(c, s, events), pool).start == AuctionOf(s, pool).start
    ensures var s' := Auctions.Run(c, s, events);
      var a, bids := AuctionOf(s', pool), Bids(c, s, events, pool);
      !IsStale(s', a) && !MayClose(s', a) ==>
        s'.now - a.start <= s.waitForFirstBidder + Waits(bids, s.nextBidderLimit)
                         <= s.waitForFirstBidder + Waits(MAX_BPS, s.nextBidderLimit)
  {
    var s', bids := Auctions.Run(c, s, events), Bids(c, s, events, pool);
    RunInTime(c, s, events, pool, 0);
    BidsAreFinite(c, s, events, pool);
    LimitsAddUp(bids, s.nextBidderLimit);
    if !IsStale(s', AuctionOf(s', pool)) && !MayClose(s', AuctionOf(s', pool)) {
      OpenWithinTime(s', AuctionOf(s', pool), bids);
    }
  }

  /// But a better bid is accepted however long an auction could have been closed, and then it cannot be
  /// closed until the wait for the next bidder is over once more.
  lemma LateBidProlongs(c: Config, s: State, pool: Pool, bidder: Account, bps: nat, marker: nat, how: Conducts, blocks: nat)
    requires Inv(c, s) && MayClose(s, AuctionOf(s, pool))
    requires PlaceBid(c, s, pool, bidder, bps, marker, how).Done?
    ensures var s' := Auctions.After(c, PlaceBid(c, s, pool, bidder, bps, marker, how).value, Elapse(blocks));
      MayClose(s', AuctionOf(s', pool)) <==> s.nextBidderLimit < blocks
  {
    BidEffect(c, s, pool, bidder, bps, marker, how);
  }
}
