/** What the Shortfall contract holds. For every token, over every run, the balance is the escrowed bids
    of the leading bidders, plus what is owed to outbid bidders, plus a slack that only donations and
    the base asset's transfer fee change; and every account is credited exactly its due. */
module AuctionEscrow {
  import opened FixedPoint
  import opened Totals
  import opened Outcomes
  import opened Ledger
  import opened Auctions
  import opened AuctionLife

  // ---------- escrow ----------

  /// What is held for a market: the leading bid of its pool's started auction.
  function Held(c: Config, s: State, mk: MarketId): nat {
    if mk !in c.poolOf then 0
    else
      var a := AuctionOf(s, c.poolOf[mk]);
      if a.status == Started && a.highestBidder != Nobody && mk in a.markets then Get(a.bidAmount, mk) else 0
  }

  function Escrow(c: Config, s: State): map<MarketId, nat> {
    map mk | mk in c.underlying :: Held(c, s, mk)
  }

  /// The part of an escrow held in one token.
  ghost function InToken(c: Config, e: map<MarketId, nat>, token: Token): map<MarketId, real> {
    map mk | mk in c.underlying && c.underlying[mk] == token :: Get(e, mk) as real
  }

  /// What a token's balance exceeds an escrow and the token debts by.
  ghost function SlackOver(c: Config, s: State, e: map<MarketId, nat>, token: Token): real {
    Get(s.balance, token) as real - Total(InToken(c, e, token)) - Get(s.totalTokenDebt, token) as real
  }

  ghost function Slack(c: Config, s: State, token: Token): real {
    SlackOver(c, s, Escrow(c, s), token)
  }

  ghost predicate SameEscrow(c: Config, e: map<MarketId, nat>, e': map<MarketId, nat>) {
    forall mk | mk in c.underlying :: Get(e, mk) == Get(e', mk)
  }

  lemma SameEscrowSameTotal(c: Config, e: map<MarketId, nat>, e': map<MarketId, nat>, token: Token)
    requires SameEscrow(c, e, e')
    ensures InToken(c, e, token) == InToken(c, e', token)
  {
  }

  lemma EscrowUpdate(c: Config, e: map<MarketId, nat>, mk: MarketId, v: nat, token: Token)
    requires mk in c.underlying
    ensures Total(InToken(c, e[mk := v], token))
         == Total(InToken(c, e, token)) + if c.underlying[mk] == token then v as real - Get(e, mk) as real else 0.0
  {
    if c.underlying[mk] == token {
      assert InToken(c, e[mk := v], token) == InToken(c, e, token)[mk := v as real];
      TotalUpdate(InToken(c, e, token), mk, v as real);
    } else {
      assert InToken(c, e[mk := v], token) == InToken(c, e, token);
    }
  }

  lemma EscrowCoversEntry(c: Config, e: map<MarketId, nat>, mk: MarketId)
    requires mk in c.underlying
    ensures Get(e, mk) as real <= Total(InToken(c, e, c.underlying[mk]))
  {
    TotalNonNegative(InToken(c, e, c.underlying[mk]));
    assert At(InToken(c, e, c.underlying[mk]), mk) == Get(e, mk) as real;
  }

  // ---------- one market of a bid ----------

  /// What a bid finds in escrow for a market.
  function LastBid(a: Auction, mk: MarketId): nat {
    if a.highestBidder == Nobody then 0 else Get(a.bidAmount, mk)
  }

  /// A transfer out takes the amount from the balance or adds it to the debts.
  lemma TransferOutNet(s: State, token: Token, to: Account, amount: nat, goesOut: bool, other: Token)
    requires TransferOutOrTrackDebt(s, token, to, amount, goesOut).Done?
    ensures var s' := TransferOutOrTrackDebt(s, token, to, amount, goesOut).value;
      Get(s'.balance, other) - Get(s'.totalTokenDebt, other)
        == Get(s.balance, other) - Get(s.totalTokenDebt, other) - if other == token then amount else 0
  {
  }

  lemma RefundNet(s: State, a: Auction, token: Token, mk: MarketId, goesOut: bool, other: Token)
    requires Refund(s, a, token, mk, goesOut).Done?
    ensures var s' := Refund(s, a, token, mk, goesOut).value;
      Get(s'.balance, other) - Get(s'.totalTokenDebt, other)
        == Get(s.balance, other) - Get(s.totalTokenDebt, other) - if other == token then LastBid(a, mk) else 0
  {
    if a.highestBidder != Nobody {
      TransferOutNet(s, token, a.highestBidder.account, Get(a.bidAmount, mk), goesOut, other);
    }
  }

  lemma RefundSlack(c: Config, s: State, e: map<MarketId, nat>, a: Auction, mk: MarketId, goesOut: bool, token: Token)
    requires mk in c.underlying && Get(e, mk) == LastBid(a, mk)
    requires Refund(s, a, c.underlying[mk], mk, goesOut).Done?
    ensures SlackOver(c, Refund(s, a, c.underlying[mk], mk, goesOut).value, e[mk := 0], token) == SlackOver(c, s, e, token)
  {
    RefundNet(s, a, c.underlying[mk], mk, goesOut, token);
    EscrowUpdate(c, e, mk, 0, token);
  }

  lemma ArrivalSlack(c: Config, s: State, s': State, e: map<MarketId, nat>, mk: MarketId, arrived: nat, token: Token)
    requires mk in c.underlying && Get(e, mk) == 0
    requires s'.totalTokenDebt == s.totalTokenDebt
    requires s'.balance == s.balance[c.underlying[mk] := Get(s.balance, c.underlying[mk]) + arrived]
    ensures SlackOver(c, s', e[mk := arrived], token) == SlackOver(c, s, e, token)
  {
    EscrowUpdate(c, e, mk, arrived, token);
  }

  lemma PullSlack(c: Config, s: State, e: map<MarketId, nat>, pool: Pool, bps: nat, how: Conducts, mk: MarketId, token: Token)
    requires mk in c.underlying && Get(e, mk) == LastBid(AuctionOf(s, pool), mk)
    requires Pull(c, s, pool, bps, how, mk).Done?
    ensures var s' := Pull(c, s, pool, bps, how, mk).value;
      SlackOver(c, s', e[mk := Arrival(AuctionOf(s, pool), bps, how, mk)], token) == SlackOver(c, s, e, token)
  {
    var a, arrived := AuctionOf(s, pool), Arrival(AuctionOf(s, pool), bps, how, mk);
    PullFromRefund(c, s, pool, bps, how, mk);
    var s1 := Refund(s, a, c.underlying[mk], mk, ConductOf(how, mk).goesOut).value;
    RefundSlack(c, s, e, a, mk, ConductOf(how, mk).goesOut, token);
    ArrivalSlack(c, s1, Pull(c, s, pool, bps, how, mk).value, e[mk := 0], mk, arrived, token);
    SetTwice(e, mk, arrived);
  }

  lemma SetTwice(e: map<MarketId, nat>, mk: MarketId, v: nat)
    ensures e[mk := 0][mk := v] == e[mk := v]
  {
  }

  lemma PullFromRefund(c: Config, s: State, pool: Pool, bps: nat, how: Conducts, mk: MarketId)
    requires mk in c.underlying && Pull(c, s, pool, bps, how, mk).Done?
    ensures var s1 := Refund(s, AuctionOf(s, pool), c.underlying[mk], mk, ConductOf(how, mk).goesOut);
      var s' := Pull(c, s, pool, bps, how, mk).value;
      var token := c.underlying[mk];
      && s1.Done?
      && s'.totalTokenDebt == s1.value.totalTokenDebt && s'.tokenDebt == s1.value.tokenDebt && s'.sent == s1.value.sent
      && s'.balance
           == s1.value.balance[token := Get(s1.value.balance, token) + Arrival(AuctionOf(s, pool), bps, how, mk)]
  {
  }

  /// The escrow after a bid has gone over some markets.
  function Bidden(e: map<MarketId, nat>, a: Auction, bps: nat, how: Conducts, markets: seq<MarketId>): map<MarketId, nat>
    decreases |markets|
  {
    if |markets| == 0 then e
    else Bidden(e[markets[0] := Arrival(a, bps, how, markets[0])], a, bps, how, markets[1..])
  }

  lemma {:induction false} BiddenEntry(e: map<MarketId, nat>, a: Auction, bps: nat, how: Conducts, markets: seq<MarketId>, mk: MarketId)
    ensures Get(Bidden(e, a, bps, how, markets), mk)
         == if mk in markets then Arrival(a, bps, how, mk) else Get(e, mk)
    decreases |markets|
  {
    if |markets| > 0 {
      BiddenEntry(e[markets[0] := Arrival(a, bps, how, markets[0])], a, bps, how, markets[1..], mk);
    }
  }

  lemma SameArrivals(a: Auction, a': Auction, e: map<MarketId, nat>, bps: nat, how: Conducts, markets: seq<MarketId>)
    requires a' == a.(bidAmount := a'.bidAmount)
    ensures Bidden(e, a', bps, how, markets) == Bidden(e, a, bps, how, markets)
    decreases |markets|
  {
    if |markets| > 0 {
      assert Arrival(a', bps, how, markets[0]) == Arrival(a, bps, how, markets[0]);
      SameArrivals(a, a', e[markets[0] := Arrival(a, bps, how, markets[0])], bps, how, markets[1..]);
    }
  }

  lemma {:induction false} PullAllSlack(c: Config, s: State, e: map<MarketId, nat>, pool: Pool, bps: nat, how: Conducts,
                                        markets: seq<MarketId>, token: Token)
    requires Distinct(markets) && PullAll(c, s, pool, bps, how, markets).Done?
    requires forall mk | mk in markets :: mk in c.underlying && Get(e, mk) == LastBid(AuctionOf(s, pool), mk)
    ensures var s' := PullAll(c, s, pool, bps, how, markets).value;
      SlackOver(c, s', Bidden(e, AuctionOf(s, pool), bps, how, markets), token) == SlackOver(c, s, e, token)
    decreases |markets|
  {
    if |markets| > 0 {
      var a, mk := AuctionOf(s, pool), markets[0];
      var s1, e1 := Pull(c, s, pool, bps, how, mk).value, e[mk := Arrival(a, bps, how, mk)];
      PullEffect(c, s, pool, bps, how, mk);
      PullSlack(c, s, e, pool, bps, how, mk, token);
      forall other | other in markets[1..]
        ensures other != mk && other in c.underlying && Get(e1, other) == LastBid(AuctionOf(s1, pool), other)
      {
        assert other in markets;
      }
      PullAllSlack(c, s1, e1, pool, bps, how, markets[1..], token);
      SameArrivals(a, AuctionOf(s1, pool), e1, bps, how, markets[1..]);
    }
  }

  // ---------- a whole bid ----------

  lemma HeldBeforeBid(c: Config, s: State, pool: Pool, mk: MarketId)
    requires Inv(c, s) && AuctionOf(s, pool).status == Started && mk in AuctionOf(s, pool).markets
    ensures mk in c.underlying && Get(Escrow(c, s), mk) == LastBid(AuctionOf(s, pool), mk)
  {
    assert AuctionInv(c, s, pool);
  }

  lemma EscrowAfterBid(c: Config, s: State, pool: Pool, bidder: Account, bps: nat, marker: nat, how: Conducts)
    requires Inv(c, s) && PlaceBid(c, s, pool, bidder, bps, marker, how).Done?
    ensures var a := AuctionOf(s, pool);
      SameEscrow(c, Bidden(Escrow(c, s), a, bps, how, a.markets),
                 Escrow(c, PlaceBid(c, s, pool, bidder, bps, marker, how).value))
  {
    var a, s' := AuctionOf(s, pool), PlaceBid(c, s, pool, bidder, bps, marker, how).value;
    BidEffect(c, s, pool, bidder, bps, marker, how);
    assert AuctionInv(c, s, pool);
    forall mk | mk in c.underlying
      ensures Get(Bidden(Escrow(c, s), a, bps, how, a.markets), mk) == Get(Escrow(c, s'), mk)
    {
      BiddenEntry(Escrow(c, s), a, bps, how, a.markets, mk);
      if mk in a.markets {
        assert c.poolOf[mk] == pool;
      }
    }
  }

  lemma BidBalances(c: Config, s: State, pool: Pool, bidder: Account, bps: nat, marker: nat, how: Conducts)
    requires PlaceBid(c, s, pool, bidder, bps, marker, how).Done?
    ensures var s1 := PullAll(c, s, pool, bps, how, AuctionOf(s, pool).markets);
      var s' := PlaceBid(c, s, pool, bidder, bps, marker, how).value;
      && s1.Done? && s' == s1.value.(auctions := s'.auctions)
  {
  }

  /// A bid leaves the slack of every token as it was: what it escrows is what arrived, and what was
  /// escrowed before is refunded or owed.
  lemma BidSlack(c: Config, s: State, pool: Pool, bidder: Account, bps: nat, marker: nat, how: Conducts, token: Token)
    requires Inv(c, s) && PlaceBid(c, s, pool, bidder, bps, marker, how).Done?
    ensures Slack(c, PlaceBid(c, s, pool, bidder, bps, marker, how).value, token) == Slack(c, s, token)
  {
    var a, s' := AuctionOf(s, pool), PlaceBid(c, s, pool, bidder, bps, marker, how).value;
    var e := Bidden(Escrow(c, s), a, bps, how, a.markets);
    assert AuctionInv(c, s, pool);
    BidEffect(c, s, pool, bidder, bps, marker, how);
    BidBalances(c, s, pool, bidder, bps, marker, how);
    forall mk | mk in a.markets
      ensures mk in c.underlying && Get(Escrow(c, s), mk) == LastBid(a, mk)
    {
      HeldBeforeBid(c, s, pool, mk);
    }
    PullAllSlack(c, s, Escrow(c, s), pool, bps, how, a.markets, token);
    EscrowAfterBid(c, s, pool, bidder, bps, marker, how);
    SameEscrowSameTotal(c, e, Escrow(c, s'), token);
  }

  // ---------- a close ----------

  function Dropped(e: map<MarketId, nat>, markets: seq<MarketId>): map<MarketId, nat>
    decreases |markets|
  {
    if |markets| == 0 then e else Dropped(e[markets[0] := 0], markets[1..])
  }

  lemma {:induction false} DroppedEntry(e: map<MarketId, nat>, markets: seq<MarketId>, mk: MarketId)
    ensures Get(Dropped(e, markets), mk) == if mk in markets then 0 else Get(e, mk)
    decreases |markets|
  {
    if |markets| > 0 {
      DroppedEntry(e[markets[0] := 0], markets[1..], mk);
    }
  }

  lemma DeliverSlack(c: Config, s: State, e: map<MarketId, nat>, pool: Pool, how: Conducts, mk: MarketId, token: Token)
    requires mk in c.underlying && Get(e, mk) == Get(AuctionOf(s, pool).bidAmount, mk)
    requires Deliver(c, s, pool, how, mk).Done?
    ensures SlackOver(c, Deliver(c, s, pool, how, mk).value, e[mk := 0], token) == SlackOver(c, s, e, token)
  {
    EscrowUpdate(c, e, mk, 0, token);
    DeliverNet(c, s, pool, how, mk, token);
  }

  lemma DeliverNet(c: Config, s: State, pool: Pool, how: Conducts, mk: MarketId, token: Token)
    requires mk in c.underlying && Deliver(c, s, pool, how, mk).Done?
    ensures var s' := Deliver(c, s, pool, how, mk).value;
      && s'.totalTokenDebt == s.totalTokenDebt && s'.auctions == s.auctions
      && Get(s'.balance, token)
           == Get(s.balance, token) - if token == c.underlying[mk] then Get(AuctionOf(s, pool).bidAmount, mk) else 0
  {
  }

  lemma {:induction false} DeliverAllSlack(c: Config, s: State, e: map<MarketId, nat>, pool: Pool, how: Conducts,
                                           markets: seq<MarketId>, token: Token)
    requires Distinct(markets) && DeliverAll(c, s, pool, how, markets).Done?
    requires forall mk | mk in markets :: mk in c.underlying && Get(e, mk) == Get(AuctionOf(s, pool).bidAmount, mk)
    ensures SlackOver(c, DeliverAll(c, s, pool, how, markets).value, Dropped(e, markets), token) == SlackOver(c, s, e, token)
    decreases |markets|
  {
    if |markets| > 0 {
      var mk := markets[0];
      var s1 := Deliver(c, s, pool, how, mk).value;
      DeliverSlack(c, s, e, pool, how, mk, token);
      DeliverNet(c, s, pool, how, mk, token);
      forall other | other in markets[1..]
        ensures other != mk && other in c.underlying
             && Get(e[mk := 0], other) == Get(AuctionOf(s1, pool).bidAmount, other)
      {
        assert other in markets;
      }
      DeliverAllSlack(c, s1, e[mk := 0], pool, how, markets[1..], token);
    }
  }

  /// What paying the winner does to the slack of a token: only the base asset's fee is lost.
  function FeeLost(c: Config, payout: nat, t: Conduct, token: Token): int {
    if token == c.base then payout - Arrives(payout, t.fee) else 0
  }

  lemma PayWinnerNet(c: Config, s: State, pool: Pool, winner: Account, payout: nat, t: Conduct, token: Token)
    requires PayWinner(c, s, pool, winner, payout, t).Done?
    ensures var s' := PayWinner(c, s, pool, winner, payout, t).value;
      Get(s'.balance, token) - Get(s'.totalTokenDebt, token)
        == Get(s.balance, token) - Get(s.totalTokenDebt, token) - FeeLost(c, payout, t, token)
  {
    var s1 := s.(reserves := s.reserves[pool := Get(s.reserves, pool) - payout],
                 balance := s.balance[c.base := Get(s.balance, c.base) + Arrives(payout, t.fee)]);
    TransferOutNet(s1, c.base, winner, payout, t.goesOut, token);
  }

  /// Ending an auction drops its escrow and no other.
  lemma EscrowAfterEnd(c: Config, s: State, s': State, pool: Pool)
    requires Inv(c, s) && AuctionOf(s, pool).status == Started
    requires s'.auctions == s.auctions[pool := AuctionOf(s, pool).(status := Ended)]
    ensures SameEscrow(c, Dropped(Escrow(c, s), AuctionOf(s, pool).markets), Escrow(c, s'))
  {
    var a := AuctionOf(s, pool);
    assert AuctionInv(c, s, pool);
    forall mk | mk in c.underlying
      ensures Get(Dropped(Escrow(c, s), a.markets), mk) == Get(Escrow(c, s'), mk)
    {
      DroppedEntry(Escrow(c, s), a.markets, mk);
      if mk in a.markets {
        assert c.poolOf[mk] == pool;
      } else {
        assert Held(c, s', mk) == Held(c, s, mk);
      }
    }
  }

  lemma EscrowAfterClose(c: Config, s: State, pool: Pool, how: Conducts, t: Conduct)
    requires Inv(c, s) && CloseAuction(c, s, pool, how, t).Done?
    ensures SameEscrow(c, Dropped(Escrow(c, s), AuctionOf(s, pool).markets),
                       Escrow(c, CloseAuction(c, s, pool, how, t).value))
  {
    CloseEffect(c, s, pool, how, t);
    EscrowAfterEnd(c, s, CloseAuction(c, s, pool, how, t).value, pool);
  }

  /// A close empties the pool's escrow into its markets and leaves the slack as it was, but for the fee
  /// the base asset takes on its way in.
  lemma CloseSlack(c: Config, s: State, pool: Pool, how: Conducts, t: Conduct, token: Token)
    requires Inv(c, s) && CloseAuction(c, s, pool, how, t).Done?
    ensures Slack(c, CloseAuction(c, s, pool, how, t).value, token)
         == Slack(c, s, token) - FeeLost(c, Payout(AuctionOf(s, pool)), t, token) as real
  {
    var a, s' := AuctionOf(s, pool), CloseAuction(c, s, pool, how, t).value;
    var ended, delivered := CloseStages(c, s, pool, how, t);
    assert AuctionInv(c, s, pool);
    forall mk | mk in a.markets
      ensures mk in c.underlying && Get(Escrow(c, s), mk) == Get(AuctionOf(ended, pool).bidAmount, mk)
    {
      HeldBeforeBid(c, s, pool, mk);
    }
    DeliverAllSlack(c, ended, Escrow(c, s), pool, how, a.markets, token);
    PayWinnerNet(c, delivered, pool, a.highestBidder.account, Payout(a), t, token);
    EscrowAfterClose(c, s, pool, how, t);
    SameEscrowSameTotal(c, Dropped(Escrow(c, s), a.markets), Escrow(c, s'), token);
  }

  // ---------- every call, every run ----------

  lemma StartEscrow(c: Config, s: State, e: Event)
    requires Inv(c, s) && (e.Start? || e.Restart?) && Auctions.Next(c, s, e).Done?
    ensures SameEscrow(c, Escrow(c, s), Escrow(c, Auctions.After(c, s, e)))
  {
    var s' := Auctions.After(c, s, e);
    assert s' == s.(auctions := s'.auctions) && forall p | p != e.pool :: AuctionOf(s', p) == AuctionOf(s, p);
    assert AuctionOf(s', e.pool).highestBidder == Nobody;
  }

  /// What a call adds to the slack of a token.
  function SlackGain(c: Config, s: State, e: Event, token: Token): int {
    if Auctions.Next(c, s, e).Revert? then 0
    else match e
      case Donate(t, amount) => if t == token then amount else 0
      case Close(pool, _, payment) => -FeeLost(c, Payout(AuctionOf(s, pool)), payment, token)
      case _ => 0
  }

  ghost function Net(s: State, token: Token): int {
    Get(s.balance, token) - Get(s.totalTokenDebt, token)
  }

  /// Without a change of escrow, the slack changes with the balance and the debts.
  lemma SlackFromNet(c: Config, s: State, s': State, token: Token)
    requires SameEscrow(c, Escrow(c, s), Escrow(c, s'))
    ensures Slack(c, s', token) - Slack(c, s, token) == (Net(s', token) - Net(s, token)) as real
  {
    SameEscrowSameTotal(c, Escrow(c, s), Escrow(c, s'), token);
  }

  lemma ClaimNet(c: Config, s: State, e: Event, token: Token)
    requires e.ClaimDebt? && Auctions.Next(c, s, e).Done?
    ensures var s' := Auctions.After(c, s, e); s'.auctions == s.auctions && Net(s', token) == Net(s, token)
  {
  }

  lemma SimpleNet(c: Config, s: State, e: Event, token: Token)
    requires !e.Start? && !e.Restart? && !e.Bid? && !e.Close? && Auctions.Next(c, s, e).Done?
    ensures var s' := Auctions.After(c, s, e);
      s'.auctions == s.auctions && Net(s', token) == Net(s, token) + SlackGain(c, s, e, token)
  {
    if e.ClaimDebt? {
      ClaimNet(c, s, e, token);
    }
  }

  lemma StartNet(c: Config, s: State, e: Event, token: Token)
    requires (e.Start? || e.Restart?) && Auctions.Next(c, s, e).Done?
    ensures Net(Auctions.After(c, s, e), token) == Net(s, token)
  {
  }

  lemma EventSlack(c: Config, s: State, e: Event, token: Token)
    requires Inv(c, s)
    ensures Slack(c, Auctions.After(c, s, e), token) == Slack(c, s, token) + SlackGain(c, s, e, token) as real
  {
    if Auctions.Next(c, s, e).Done? {
      if e.Bid? {
        BidSlack(c, s, e.pool, e.bidder, e.bps, e.marker, e.how, token);
      } else if e.Close? {
        CloseSlack(c, s, e.pool, e.how, e.payment, token);
      } else if e.Start? || e.Restart? {
        StartEscrow(c, s, e);
        StartNet(c, s, e, token);
        SlackFromNet(c, s, Auctions.After(c, s, e), token);
      } else {
        SimpleNet(c, s, e, token);
        SlackFromNet(c, s, Auctions.After(c, s, e), token);
      }
    }
  }

  function RunSlackGain(c: Config, s: State, events: seq<Event>, token: Token): int
    decreases |events|
  {
    if |events| == 0 then 0
    else SlackGain(c, s, events[0], token) + RunSlackGain(c, Auctions.After(c, s, events[0]), events[1..], token)
  }

  lemma {:induction false} RunSlack(c: Config, s: State, events: seq<Event>, token: Token)
    requires Inv(c, s)
    ensures Slack(c, Auctions.Run(c, s, events), token)
         == Slack(c, s, token) + RunSlackGain(c, s, events, token) as real
    decreases |events|
  {
    if |events| > 0 {
      EventKeeps(c, s, events[0]);
      EventSlack(c, s, events[0], token);
      RunSlack(c, Auctions.After(c, s, events[0]), events[1..], token);
    }
  }

  /// The contract holds at least what it has in escrow and what it owes, for every token.
  ghost predicate Solvent(c: Config, s: State) {
    forall token :: 0.0 <= Slack(c, s, token)
  }

  /// A close keeps the contract solvent if and only if the slack in the base asset covers what the base asset
  /// keeps of the payout on its way in.
  lemma CloseStaysSolvent(c: Config, s: State, pool: Pool, how: Conducts, t: Conduct)
    requires Inv(c, s) && Solvent(c, s) && CloseAuction(c, s, pool, how, t).Done?
    ensures Solvent(c, CloseAuction(c, s, pool, how, t).value)
       <==> FeeLost(c, Payout(AuctionOf(s, pool)), t, c.base) as real <= Slack(c, s, c.base)
  {
    var s', payout := CloseAuction(c, s, pool, how, t).value, Payout(AuctionOf(s, pool));
    forall token
      ensures Slack(c, s', token) == Slack(c, s, token) - FeeLost(c, payout, t, token) as real
    {
      CloseSlack(c, s, pool, how, t, token);
    }
    assert 0.0 <= Slack(c, s', c.base) <==> FeeLost(c, payout, t, c.base) as real <= Slack(c, s, c.base);
    if 0.0 <= Slack(c, s', c.base) {
      forall token
        ensures 0.0 <= Slack(c, s', token)
      {
        assert 0.0 <= Slack(c, s, token);
      }
    }
  }

  /// No payout in the run lost a part of itself to the base asset's transfer fee.
  predicate PayoutsArrive(c: Config, s: State, events: seq<Event>)
    decreases |events|
  {
    |events| == 0 ||
    ((events[0].Close? ==> Arrives(Payout(AuctionOf(s, events[0].pool)), events[0].payment.fee)
                             == Payout(AuctionOf(s, events[0].pool)))
     && PayoutsArrive(c, Auctions.After(c, s, events[0]), events[1..]))
  }

  lemma {:induction false} GainsNonNegative(c: Config, s: State, events: seq<Event>, token: Token)
    requires PayoutsArrive(c, s, events)
    ensures 0 <= RunSlackGain(c, s, events, token)
    decreases |events|
  {
    if |events| > 0 {
      GainsNonNegative(c, Auctions.After(c, s, events[0]), events[1..], token);
    }
  }

  lemma InitialHolds(c: Config, now: nat, minimum: nat, limit: nat, wait: nat, incentiveBps: nat, listed: map<Pool, nat>, token: Token)
    requires WellFormed(c) && 0 < now && 0 < limit
    ensures var s := Auctions.Initial(now, minimum, limit, wait, incentiveBps, listed); Inv(c, s) && Slack(c, s, token) == 0.0
  {
    var s := Auctions.Initial(now, minimum, limit, wait, incentiveBps, listed);
    ZeroTotal(InToken(c, Escrow(c, s), token));
  }

  lemma {:induction false} ZeroTotal(m: map<MarketId, real>)
    requires forall k | k in m :: m[k] == 0.0
    ensures Total(m) == 0.0
    decreases |m|
  {
    if m != map[] {
      var k :| k in m;
      TotalWithout(m, k);
      ZeroTotal(m - {k});
    }
  }

  /// Over every run from deployment, for every token, also one that keeps a fee: the balance is the
  /// escrowed bids, what is owed to outbid bidders, and what was donated less the base asset's fees. The
  /// contract is solvent if and only if in no token those fees exceed the donations, so always when
  /// the payouts arrive whole.
  lemma BalanceIsAccountedFor(c: Config, now: nat, minimum: nat, limit: nat, wait: nat, incentiveBps: nat, listed: map<Pool, nat>, events: seq<Event>)
    requires WellFormed(c) && 0 < now && 0 < limit
    ensures var s0 := Auctions.Initial(now, minimum, limit, wait, incentiveBps, listed);
      var s := Auctions.Run(c, s0, events);
      && Inv(c, s)
      && (forall token :: Get(s.balance, token) as real
            == Total(InToken(c, Escrow(c, s), token)) + Get(s.totalTokenDebt, token) as real
               + RunSlackGain(c, s0, events, token) as real)
      && (Solvent(c, s) <==> forall token :: 0 <= RunSlackGain(c, s0, events, token))
      && (PayoutsArrive(c, s0, events) ==> Solvent(c, s))
  {
    var s0 := Auctions.Initial(now, minimum, limit, wait, incentiveBps, listed);
    var s := Auctions.Run(c, s0, events);
    InitialHolds(c, now, minimum, limit, wait, incentiveBps, listed, 0);
    RunKeeps(c, s0, events);
    forall token
      ensures Slack(c, s, token) == RunSlackGain(c, s0, events, token) as real
    {
      InitialHolds(c, now, minimum, limit, wait, incentiveBps, listed, token);
      RunSlack(c, s0, events, token);
    }
    if Solvent(c, s) {
      forall token
        ensures 0 <= RunSlackGain(c, s0, events, token)
      {
        assert 0.0 <= Slack(c, s, token);
      }
    }
    if PayoutsArrive(c, s0, events) {
      forall token
        ensures 0 <= RunSlackGain(c, s0, events, token)
      {
        GainsNonNegative(c, s0, events, token);
      }
    }
  }
}
