/** Who gets what from the Shortfall contract: every account is credited exactly the bids it is refunded
    and the payouts it wins, the recorded token debts add up, and while the contract is solvent no bid
    or close fails for want of balance. */
module AuctionCredit {
  import opened FixedPoint
  import opened Totals
  import opened Outcomes
  import opened Ledger
  import opened Auctions
  import opened AuctionLife
  import opened AuctionEscrow

  // ---------- credit ----------

  /// What an account has been sent, and what it is still owed.
  function Credit(s: State, token: Token, u: Account): nat {
    Get(Row(s.sent, token), u) + Get(Row(s.tokenDebt, token), u)
  }

  /// The bids in one token over some markets.
  function BidsIn(c: Config, a: Auction, markets: seq<MarketId>, token: Token): nat
    decreases |markets|
  {
    if |markets| == 0 then 0
    else
      (if TokenOf(c, markets[0]) == token then Get(a.bidAmount, markets[0]) else 0)
        + BidsIn(c, a, markets[1..], token)
  }

  lemma RaiseEntry(m: map<Token, map<Account, nat>>, token: Token, to: Account, amount: nat, t: Token, u: Account)
    ensures Get(Row(Raise(m, token, to, amount), t), u)
         == Get(Row(m, t), u) + if t == token && u == to then amount else 0
  {
  }

  lemma TransferOutCredit(s: State, token: Token, to: Account, amount: nat, goesOut: bool, t: Token, u: Account)
    requires TransferOutOrTrackDebt(s, token, to, amount, goesOut).Done?
    ensures Credit(TransferOutOrTrackDebt(s, token, to, amount, goesOut).value, t, u)
         == Credit(s, t, u) + if t == token && u == to then amount else 0
  {
    RaiseEntry(s.sent, token, to, amount, t, u);
    RaiseEntry(s.tokenDebt, token, to, amount, t, u);
  }

  lemma PullCredit(c: Config, s: State, pool: Pool, bps: nat, how: Conducts, mk: MarketId, token: Token, u: Account)
    requires Pull(c, s, pool, bps, how, mk).Done?
    ensures var a := AuctionOf(s, pool);
      Credit(Pull(c, s, pool, bps, how, mk).value, token, u)
        == Credit(s, token, u)
           + if a.highestBidder == Bidder(u) && TokenOf(c, mk) == token then Get(a.bidAmount, mk) else 0
  {
    var a := AuctionOf(s, pool);
    var s1 := Refund(s, a, TokenOf(c, mk), mk, ConductOf(how, mk).goesOut).value;
    if a.highestBidder != Nobody {
      TransferOutCredit(s, TokenOf(c, mk), a.highestBidder.account, Get(a.bidAmount, mk),
                        ConductOf(how, mk).goesOut, token, u);
    }
    PullSameCredit(c, s, pool, bps, how, mk);
  }

  lemma PullSameCredit(c: Config, s: State, pool: Pool, bps: nat, how: Conducts, mk: MarketId)
    requires Pull(c, s, pool, bps, how, mk).Done?
    ensures var s1 := Refund(s, AuctionOf(s, pool), TokenOf(c, mk), mk, ConductOf(how, mk).goesOut);
      var s' := Pull(c, s, pool, bps, how, mk).value;
      && s1.Done? && s'.sent == s1.value.sent && s'.tokenDebt == s1.value.tokenDebt
      && s'.totalTokenDebt == s1.value.totalTokenDebt
  {
  }

  lemma {:induction false} SameBids(c: Config, a: Auction, a': Auction, markets: seq<MarketId>, token: Token)
    requires forall mk | mk in markets :: Get(a'.bidAmount, mk) == Get(a.bidAmount, mk)
    ensures BidsIn(c, a', markets, token) == BidsIn(c, a, markets, token)
    decreases |markets|
  {
    if |markets| > 0 {
      SameBids(c, a, a', markets[1..], token);
    }
  }

  lemma {:induction false} PullAllCredit(c: Config, s: State, pool: Pool, bps: nat, how: Conducts, markets: seq<MarketId>,
                                         token: Token, u: Account)
    requires Distinct(markets) && PullAll(c, s, pool, bps, how, markets).Done?
    ensures var a := AuctionOf(s, pool);
      Credit(PullAll(c, s, pool, bps, how, markets).value, token, u)
        == Credit(s, token, u) + if a.highestBidder == Bidder(u) then BidsIn(c, a, markets, token) else 0
    decreases |markets|
  {
    if |markets| > 0 {
      var s1 := Pull(c, s, pool, bps, how, markets[0]).value;
      PullCredit(c, s, pool, bps, how, markets[0], token, u);
      PullEffect(c, s, pool, bps, how, markets[0]);
      PullAllCredit(c, s1, pool, bps, how, markets[1..], token, u);
      assert markets[0] !in markets[1..];
      SameBids(c, AuctionOf(s, pool), AuctionOf(s1, pool), markets[1..], token);
    }
  }

  /// An accepted bid credits the outbid bidder with exactly what was recorded for each market, in each
  /// market's token, and nobody else with anything.
  lemma OutbidIsRefunded(c: Config, s: State, pool: Pool, bidder: Account, bps: nat, marker: nat, how: Conducts,
                         token: Token, u: Account)
    requires Inv(c, s) && PlaceBid(c, s, pool, bidder, bps, marker, how).Done?
    ensures var a := AuctionOf(s, pool);
      Credit(PlaceBid(c, s, pool, bidder, bps, marker, how).value, token, u)
        == Credit(s, token, u) + if a.highestBidder == Bidder(u) then BidsIn(c, a, a.markets, token) else 0
  {
    assert AuctionInv(c, s, pool);
    BidEffect(c, s, pool, bidder, bps, marker, how);
    BidBalances(c, s, pool, bidder, bps, marker, how);
    PullAllCredit(c, s, pool, bps, how, AuctionOf(s, pool).markets, token, u);
  }

  lemma {:induction false} DeliverAllCredit(c: Config, s: State, pool: Pool, how: Conducts, markets: seq<MarketId>)
    requires DeliverAll(c, s, pool, how, markets).Done?
    ensures var s' := DeliverAll(c, s, pool, how, markets).value;
      s'.sent == s.sent && s'.tokenDebt == s.tokenDebt && s'.totalTokenDebt == s.totalTokenDebt
      && s'.reserves == s.reserves
    decreases |markets|
  {
    if |markets| > 0 {
      DeliverAllCredit(c, Deliver(c, s, pool, how, markets[0]).value, pool, how, markets[1..]);
    }
  }

  lemma PayWinnerCredit(c: Config, s: State, pool: Pool, winner: Account, payout: nat, t: Conduct, token: Token, u: Account)
    requires PayWinner(c, s, pool, winner, payout, t).Done?
    ensures var s' := PayWinner(c, s, pool, winner, payout, t).value;
      && Credit(s', token, u) == Credit(s, token, u) + (if token == c.base && u == winner then payout else 0)
      && Get(s'.reserves, pool) == Get(s.reserves, pool) - payout
  {
    var s1 := s.(reserves := s.reserves[pool := Get(s.reserves, pool) - payout],
                 balance := s.balance[c.base := Get(s.balance, c.base) + Arrives(payout, t.fee)]);
    TransferOutCredit(s1, c.base, winner, payout, t.goesOut, token, u);
  }

  /// A close credits the winner with the payout, which comes out of the pool's risk fund, and nobody
  /// else with anything.
  lemma WinnerIsPaid(c: Config, s: State, pool: Pool, how: Conducts, t: Conduct, token: Token, u: Account)
    requires Inv(c, s) && CloseAuction(c, s, pool, how, t).Done?
    ensures var a, s' := AuctionOf(s, pool), CloseAuction(c, s, pool, how, t).value;
      && Credit(s', token, u)
           == Credit(s, token, u) + (if token == c.base && a.highestBidder == Bidder(u) then Payout(a) else 0)
      && Get(s'.reserves, pool) == Get(s.reserves, pool) - Payout(a)
  {
    var ended, delivered := CloseStages(c, s, pool, how, t);
    var a := AuctionOf(s, pool);
    DeliverAllCredit(c, ended, pool, how, a.markets);
    PayWinnerCredit(c, delivered, pool, a.highestBidder.account, Payout(a), t, token, u);
  }

  // ---------- the debts add up ----------

  ghost predicate DebtsAddUp(s: State) {
    forall token :: Total(Reals(Row(s.tokenDebt, token))) == Get(s.totalTokenDebt, token) as real
  }

  lemma RowAddsUp(s: State, s': State, token: Token, row: map<Account, nat>, total: nat)
    requires DebtsAddUp(s) && Total(Reals(row)) == total as real
    requires s'.tokenDebt == s.tokenDebt[token := row] && s'.totalTokenDebt == s.totalTokenDebt[token := total]
    ensures DebtsAddUp(s')
  {
    forall t
      ensures Total(Reals(Row(s'.tokenDebt, t))) == Get(s'.totalTokenDebt, t) as real
    {
      if t != token {
        assert Row(s'.tokenDebt, t) == Row(s.tokenDebt, t);
      }
    }
  }

  lemma TransferOutDebts(s: State, token: Token, to: Account, amount: nat, goesOut: bool)
    requires DebtsAddUp(s) && TransferOutOrTrackDebt(s, token, to, amount, goesOut).Done?
    ensures DebtsAddUp(TransferOutOrTrackDebt(s, token, to, amount, goesOut).value)
  {
    if !goesOut {
      var row := Row(s.tokenDebt, token);
      NatTotalUpdate(row, to, Get(row, to) + amount);
      RowAddsUp(s, TransferOutOrTrackDebt(s, token, to, amount, goesOut).value, token,
                row[to := Get(row, to) + amount], Get(s.totalTokenDebt, token) + amount);
    }
  }

  lemma {:induction false} PullAllDebts(c: Config, s: State, pool: Pool, bps: nat, how: Conducts, markets: seq<MarketId>)
    requires DebtsAddUp(s) && PullAll(c, s, pool, bps, how, markets).Done?
    ensures DebtsAddUp(PullAll(c, s, pool, bps, how, markets).value)
    decreases |markets|
  {
    if |markets| > 0 {
      var mk, a := markets[0], AuctionOf(s, pool);
      if a.highestBidder != Nobody {
        TransferOutDebts(s, TokenOf(c, mk), a.highestBidder.account, Get(a.bidAmount, mk), ConductOf(how, mk).goesOut);
      }
      PullSameCredit(c, s, pool, bps, how, mk);
      PullAllDebts(c, Pull(c, s, pool, bps, how, mk).value, pool, bps, how, markets[1..]);
    }
  }

  lemma CloseDebts(c: Config, s: State, pool: Pool, how: Conducts, t: Conduct)
    requires DebtsAddUp(s) && CloseAuction(c, s, pool, how, t).Done?
    ensures DebtsAddUp(CloseAuction(c, s, pool, how, t).value)
  {
    var ended, delivered := CloseStages(c, s, pool, how, t);
    var a := AuctionOf(s, pool);
    var payout := Payout(a);
    DeliverAllCredit(c, ended, pool, how, a.markets);
    var funded := delivered.(reserves := delivered.reserves[pool := Get(delivered.reserves, pool) - payout],
                             balance := delivered.balance[c.base := Get(delivered.balance, c.base) + Arrives(payout, t.fee)]);
    TransferOutDebts(funded, c.base, a.highestBidder.account, payout, t.goesOut);
  }

  lemma RowLowered(s: State, s': State, token: Token, user: Account, amount: nat)
    requires DebtsAddUp(s) && amount <= Get(Row(s.tokenDebt, token), user) && amount <= Get(s.totalTokenDebt, token)
    requires s'.tokenDebt == s.tokenDebt[token := Row(s.tokenDebt, token)[user := Get(Row(s.tokenDebt, token), user) - amount]]
    requires s'.totalTokenDebt == s.totalTokenDebt[token := Get(s.totalTokenDebt, token) - amount]
    ensures DebtsAddUp(s')
  {
    var row := Row(s.tokenDebt, token);
    NatTotalUpdate(row, user, Get(row, user) - amount);
    RowAddsUp(s, s', token, row[user := Get(row, user) - amount], Get(s.totalTokenDebt, token) - amount);
  }

  lemma ClaimDebts(s: State, token: Token, user: Account, requested: Amount, goesOut: bool)
    requires DebtsAddUp(s) && ClaimTokenDebt(s, token, user, requested, goesOut).Done?
    ensures DebtsAddUp(ClaimTokenDebt(s, token, user, requested, goesOut).value)
  {
    var amount := if requested.All? then Get(Row(s.tokenDebt, token), user) else requested.amount;
    ClaimRow(s, token, user, requested, goesOut, amount);
    RowLowered(s, ClaimTokenDebt(s, token, user, requested, goesOut).value, token, user, amount);
  }

  lemma ClaimRow(s: State, token: Token, user: Account, requested: Amount, goesOut: bool, amount: nat)
    requires ClaimTokenDebt(s, token, user, requested, goesOut).Done?
    requires amount == if requested.All? then Get(Row(s.tokenDebt, token), user) else requested.amount
    ensures amount <= Get(Row(s.tokenDebt, token), user) && amount <= Get(s.totalTokenDebt, token)
    ensures var s' := ClaimTokenDebt(s, token, user, requested, goesOut).value;
      && s'.tokenDebt == s.tokenDebt[token := Row(s.tokenDebt, token)[user := Get(Row(s.tokenDebt, token), user) - amount]]
      && s'.totalTokenDebt == s.totalTokenDebt[token := Get(s.totalTokenDebt, token) - amount]
  {
  }

  /// After every call, what the contract owes in a token is the sum of what it owes each account.
  lemma EventDebts(c: Config, s: State, e: Event)
    requires DebtsAddUp(s)
    ensures DebtsAddUp(Auctions.After(c, s, e))
  {
    if Auctions.Next(c, s, e).Done? {
      if e.Bid? {
        PullAllDebts(c, s, e.pool, e.bps, e.how, AuctionOf(s, e.pool).markets);
        BidBalances(c, s, e.pool, e.bidder, e.bps, e.marker, e.how);
      } else if e.Close? {
        CloseDebts(c, s, e.pool, e.how, e.payment);
      } else if e.ClaimDebt? {
        ClaimDebts(s, e.token, e.user, e.requested, e.goesOut);
      } else {
        OthersOweNothing(c, s, e);
      }
    }
  }

  lemma OthersOweNothing(c: Config, s: State, e: Event)
    requires !e.Bid? && !e.Close? && !e.ClaimDebt?
    ensures var s' := Auctions.After(c, s, e); s'.tokenDebt == s.tokenDebt && s'.totalTokenDebt == s.totalTokenDebt
  {
  }

  lemma {:induction false} RunDebts(c: Config, s: State, events: seq<Event>)
    requires DebtsAddUp(s)
    ensures DebtsAddUp(Auctions.Run(c, s, events))
    decreases |events|
  {
    if |events| > 0 {
      EventDebts(c, s, events[0]);
      RunDebts(c, Auctions.After(c, s, events[0]), events[1..]);
    }
  }

  lemma OwedWithinTotal(s: State, token: Token, user: Account)
    requires DebtsAddUp(s)
    ensures Get(Row(s.tokenDebt, token), user) <= Get(s.totalTokenDebt, token)
  {
    TotalNonNegative(Reals(Row(s.tokenDebt, token)));
    assert At(Reals(Row(s.tokenDebt, token)), user) == Get(Row(s.tokenDebt, token), user) as real;
  }

  // ---------- nothing fails for want of balance ----------

  lemma SlackCovers(c: Config, s: State, e: map<MarketId, nat>, mk: MarketId)
    requires mk in c.underlying && 0.0 <= SlackOver(c, s, e, c.underlying[mk])
    ensures Get(e, mk) <= Get(s.balance, c.underlying[mk])
  {
    EscrowCoversEntry(c, e, mk);
  }

  lemma PullSucceeds(c: Config, s: State, e: map<MarketId, nat>, pool: Pool, bps: nat, how: Conducts, mk: MarketId)
    requires mk in c.underlying && Get(e, mk) == LastBid(AuctionOf(s, pool), mk)
    requires 0.0 <= SlackOver(c, s, e, c.underlying[mk]) && ConductOf(how, mk).comesIn
    ensures Pull(c, s, pool, bps, how, mk).Done?
  {
    SlackCovers(c, s, e, mk);
  }

  lemma {:induction false} PullAllSucceeds(c: Config, s: State, e: map<MarketId, nat>, pool: Pool, bps: nat, how: Conducts,
                                           markets: seq<MarketId>)
    requires Distinct(markets) && forall token :: 0.0 <= SlackOver(c, s, e, token)
    requires forall mk | mk in markets :: mk in c.underlying && Get(e, mk) == LastBid(AuctionOf(s, pool), mk)
    requires forall mk | mk in markets :: ConductOf(how, mk).comesIn
    ensures PullAll(c, s, pool, bps, how, markets).Done?
    decreases |markets|
  {
    if |markets| > 0 {
      var mk, a := markets[0], AuctionOf(s, pool);
      PullSucceeds(c, s, e, pool, bps, how, mk);
      var s1, e1 := Pull(c, s, pool, bps, how, mk).value, e[mk := Arrival(a, bps, how, mk)];
      PullEffect(c, s, pool, bps, how, mk);
      forall token
        ensures 0.0 <= SlackOver(c, s1, e1, token)
      {
        PullSlack(c, s, e, pool, bps, how, mk, token);
      }
      forall other | other in markets[1..]
        ensures other in c.underlying && Get(e1, other) == LastBid(AuctionOf(s1, pool), other)
      {
        assert other in markets && other != mk;
      }
      PullAllSucceeds(c, s1, e1, pool, bps, how, markets[1..]);
    }
  }

  /// While the contract is solvent, a bid that the auction accepts and the bidder can pay goes through,
  /// whatever the tokens do with the refunds.
  lemma AcceptedBidSucceeds(c: Config, s: State, pool: Pool, bidder: Account, bps: nat, marker: nat, how: Conducts)
    requires Inv(c, s) && Solvent(c, s)
    requires BidRejected(s, AuctionOf(s, pool), bps, marker).Done?
    requires forall mk | mk in AuctionOf(s, pool).markets :: ConductOf(how, mk).comesIn
    ensures PlaceBid(c, s, pool, bidder, bps, marker, how).Done?
  {
    var a := AuctionOf(s, pool);
    assert AuctionInv(c, s, pool);
    forall mk | mk in a.markets
      ensures mk in c.underlying && Get(Escrow(c, s), mk) == LastBid(a, mk)
    {
      HeldBeforeBid(c, s, pool, mk);
    }
    forall token
      ensures 0.0 <= SlackOver(c, s, Escrow(c, s), token)
    {
      assert 0.0 <= Slack(c, s, token);
    }
    PullAllSucceeds(c, s, Escrow(c, s), pool, bps, how, a.markets);
  }

  lemma DeliverSucceeds(c: Config, s: State, e: map<MarketId, nat>, pool: Pool, how: Conducts, mk: MarketId)
    requires mk in c.underlying && Get(e, mk) == Get(AuctionOf(s, pool).bidAmount, mk)
    requires 0.0 <= SlackOver(c, s, e, c.underlying[mk])
    requires Get(AuctionOf(s, pool).bidAmount, mk) <= MarketAt(s, mk).badDebt
    ensures Deliver(c, s, pool, how, mk).Done? <==> ConductOf(how, mk).goesOut
  {
    SlackCovers(c, s, e, mk);
  }

  ghost predicate AllGoOut(how: Conducts, markets: seq<MarketId>) {
    forall mk | mk in markets :: ConductOf(how, mk).goesOut
  }

  ghost predicate DeliveryReady(c: Config, s: State, e: map<MarketId, nat>, pool: Pool, markets: seq<MarketId>) {
    && (forall token :: 0.0 <= SlackOver(c, s, e, token))
    && forall mk | mk in markets ::
         && mk in c.underlying && Get(e, mk) == Get(AuctionOf(s, pool).bidAmount, mk)
         && Get(AuctionOf(s, pool).bidAmount, mk) <= MarketAt(s, mk).badDebt
  }

  lemma DeliveryStaysReady(c: Config, s: State, e: map<MarketId, nat>, pool: Pool, how: Conducts, markets: seq<MarketId>)
    requires |markets| > 0 && Distinct(markets) && DeliveryReady(c, s, e, pool, markets)
    requires Deliver(c, s, pool, how, markets[0]).Done?
    ensures DeliveryReady(c, Deliver(c, s, pool, how, markets[0]).value, e[markets[0] := 0], pool, markets[1..])
  {
    var mk := markets[0];
    var s1, e1 := Deliver(c, s, pool, how, mk).value, e[mk := 0];
    DeliverEffect(c, s, pool, how, mk);
    forall token
      ensures 0.0 <= SlackOver(c, s1, e1, token)
    {
      DeliverSlack(c, s, e, pool, how, mk, token);
    }
    forall other | other in markets[1..]
      ensures other in c.underlying && Get(e1, other) == Get(AuctionOf(s1, pool).bidAmount, other)
      ensures Get(AuctionOf(s1, pool).bidAmount, other) <= MarketAt(s1, other).badDebt
    {
      assert other != mk && other in markets;
    }
  }

  lemma {:induction false} DeliverAllSucceeds(c: Config, s: State, e: map<MarketId, nat>, pool: Pool, how: Conducts,
                                              markets: seq<MarketId>)
    requires Distinct(markets) && DeliveryReady(c, s, e, pool, markets)
    ensures DeliverAll(c, s, pool, how, markets).Done? <==> AllGoOut(how, markets)
    ensures DeliverAll(c, s, pool, how, markets).Done? ==>
      forall token :: 0.0 <= SlackOver(c, DeliverAll(c, s, pool, how, markets).value, Dropped(e, markets), token)
    decreases |markets|
  {
    if |markets| > 0 {
      DeliverSucceeds(c, s, e, pool, how, markets[0]);
      assert AllGoOut(how, markets) <==> ConductOf(how, markets[0]).goesOut && AllGoOut(how, markets[1..]);
      if Deliver(c, s, pool, how, markets[0]).Done? {
        DeliveryStaysReady(c, s, e, pool, how, markets);
        DeliverAllSucceeds(c, Deliver(c, s, pool, how, markets[0]).value, e[markets[0] := 0], pool, how, markets[1..]);
      }
    }
  }

  lemma ReadyToDeliver(c: Config, s: State, ended: State, pool: Pool)
    requires Inv(c, s) && Solvent(c, s)
    requires AuctionOf(s, pool).status == Started && AuctionOf(s, pool).highestBidder != Nobody
    requires ended == s.(auctions := s.auctions[pool := AuctionOf(s, pool).(status := Ended)])
    ensures Distinct(AuctionOf(s, pool).markets)
    ensures DeliveryReady(c, ended, Escrow(c, s), pool, AuctionOf(s, pool).markets)
  {
    var a := AuctionOf(s, pool);
    assert AuctionInv(c, s, pool);
    forall token
      ensures 0.0 <= SlackOver(c, ended, Escrow(c, s), token)
    {
      assert 0.0 <= Slack(c, s, token);
    }
    forall mk | mk in a.markets
      ensures mk in c.underlying && Get(Escrow(c, s), mk) == Get(a.bidAmount, mk) <= MarketAt(ended, mk).badDebt
    {
      HeldBeforeBid(c, s, pool, mk);
      assert MarketAt(ended, mk) == MarketAt(s, mk);
    }
  }

  lemma {:induction false} DeliverAllBalance(c: Config, s: State, pool: Pool, how: Conducts, markets: seq<MarketId>, token: Token)
    requires DeliverAll(c, s, pool, how, markets).Done? && forall mk | mk in markets :: mk in c.underlying
    ensures Get(DeliverAll(c, s, pool, how, markets).value.balance, token)
         == Get(s.balance, token) - BidsIn(c, AuctionOf(s, pool), markets, token)
    decreases |markets|
  {
    if |markets| > 0 {
      var s1 := Deliver(c, s, pool, how, markets[0]).value;
      DeliverNet(c, s, pool, how, markets[0], token);
      DeliverAllBalance(c, s1, pool, how, markets[1..], token);
    }
  }

  /// While the contract is solvent, an auction whose waiting time is over closes exactly when its
  /// markets' tokens go out to them, the risk fund can hand over the payout, and what the contract has of the
  /// base asset besides this auction's bids makes up for what the base asset keeps of it.
  lemma DueAuctionCloses(c: Config, s: State, pool: Pool, how: Conducts, t: Conduct)
    requires Inv(c, s) && Solvent(c, s)
    requires AuctionOf(s, pool).status == Started && AuctionOf(s, pool).highestBidder != Nobody
    requires AuctionOf(s, pool).highestBidBlock + s.nextBidderLimit < s.now
    ensures var a := AuctionOf(s, pool);
      CloseAuction(c, s, pool, how, t).Done? <==>
        (AllGoOut(how, a.markets) && t.comesIn && Payout(a) <= Get(s.reserves, pool)
         && FeeLost(c, Payout(a), t, c.base) <= Get(s.balance, c.base) - BidsIn(c, a, a.markets, c.base))
  {
    var a := AuctionOf(s, pool);
    var ended := s.(auctions := s.auctions[pool := a.(status := Ended)]);
    ReadyToDeliver(c, s, ended, pool);
    DeliverAllSucceeds(c, ended, Escrow(c, s), pool, how, a.markets);
    if AllGoOut(how, a.markets) {
      var delivered := DeliverAll(c, ended, pool, how, a.markets).value;
      DeliverAllCredit(c, ended, pool, how, a.markets);
      DeliverAllBalance(c, ended, pool, how, a.markets, c.base);
      SameBids(c, a, AuctionOf(ended, pool), a.markets, c.base);
      WinnerCanBePaid(c, delivered, pool, a.highestBidder.account, Payout(a), t);
    }
  }

  lemma WinnerCanBePaid(c: Config, s: State, pool: Pool, winner: Account, payout: nat, t: Conduct)
    ensures PayWinner(c, s, pool, winner, payout, t).Done? <==>
      (t.comesIn && payout <= Get(s.reserves, pool) && FeeLost(c, payout, t, c.base) <= Get(s.balance, c.base))
  {
  }

  /// While the contract is solvent and debts add up, an outbid bidder's debt can be claimed in full whenever the
  /// token lets it out, and then nothing is owed any more. Debts add up after every run (RunDebts).
  lemma DebtCanBeClaimed(c: Config, s: State, token: Token, user: Account)
    requires Inv(c, s) && Solvent(c, s) && DebtsAddUp(s)
    ensures var claimed := ClaimTokenDebt(s, token, user, All, true);
      && claimed.Done?
      && Get(Row(claimed.value.tokenDebt, token), user) == 0
      && Get(Row(claimed.value.sent, token), user) == Credit(s, token, user)
  {
    OwedWithinTotal(s, token, user);
    assert 0.0 <= Slack(c, s, token);
    EscrowTotalNonNegative(InToken(c, Escrow(c, s), token));
    RaiseEntry(s.sent, token, user, Get(Row(s.tokenDebt, token), user), token, user);
  }

  lemma EscrowTotalNonNegative(m: map<MarketId, real>)
    requires forall k :: k in m ==> 0.0 <= m[k]
    ensures 0.0 <= Total(m)
  {
    TotalNonNegative(m);
  }
}
