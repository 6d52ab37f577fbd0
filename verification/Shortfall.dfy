/** The Shortfall contract, updated in place. Every method does what the state machine's function of the
    same name says, and a reverting call leaves the contract as it found it. */
module ShortfallContract {
  import opened FixedPoint
  import opened Totals
  import opened Outcomes
  import opened Ledger
  import opened Auctions

  datatype Result = Ok | Failed(error: Error)

  /// The call from `before` to `after` behaved as `outcome` says.
  ghost predicate Agrees(outcome: Outcome<State>, before: State, result: Result, after: State) {
    match outcome
    case Done(s) => result == Ok && after == s
    case Revert(e) => result == Failed(e) && after == before
  }

  /// The token balances, with what TokenDebtTracker keeps.
  datatype Vault = Vault(
    balance: map<Token, nat>,
    tokenDebt: map<Token, map<Account, nat>>,
    totalTokenDebt: map<Token, nat>,
    sent: map<Token, map<Account, nat>>)

  class Shortfall {
    const config: Config
    var now: nat
    var auctionsPaused: bool
    var incentiveBps: nat
    var minimumPoolBadDebt: nat
    var nextBidderLimit: nat
    var waitForFirstBidder: nat
    var auctions: map<Pool, Auction>
    var vault: Vault
    var vTokens: map<MarketId, Market>
    var reserves: map<Pool, nat>
    var listed: map<Pool, nat>

    function Contents(): State
      reads this
    {
      State(now, auctionsPaused, incentiveBps, minimumPoolBadDebt, nextBidderLimit, waitForFirstBidder, auctions,
            vault.balance, vault.tokenDebt, vault.totalTokenDebt, vault.sent, vTokens, reserves, listed)
    }

    constructor (c: Config, now_: nat, minimum: nat, limit: nat, wait: nat, incentive: nat, listed_: map<Pool, nat>)
      ensures config == c && Contents() == Initial(now_, minimum, limit, wait, incentive, listed_)
    {
      config := c;
      now, auctionsPaused, incentiveBps, minimumPoolBadDebt := now_, false, incentive, minimum;
      nextBidderLimit, waitForFirstBidder := limit, wait;
      auctions, vault, vTokens, reserves := map[], Vault(map[], map[], map[], map[]), map[], map[];
      listed := listed_;
    }

    /// An EVM revert: the storage is what it was.
    method Rollback(s: State)
      modifies this
      ensures Contents() == s
    {
      now, auctionsPaused, incentiveBps, minimumPoolBadDebt := s.now, s.paused, s.incentiveBps, s.minimumPoolBadDebt;
      nextBidderLimit, waitForFirstBidder := s.nextBidderLimit, s.waitForFirstBidder;
      auctions, vault := s.auctions, Vault(s.balance, s.tokenDebt, s.totalTokenDebt, s.sent);
      vTokens, reserves, listed := s.vTokens, s.reserves, s.listed;
    }

    method TransferOutOrTrackDebt(token: Token, to: Account, amount: nat, goesOut: bool) returns (result: Result)
      modifies this`vault
      ensures Agrees(Auctions.TransferOutOrTrackDebt(old(Contents()), token, to, amount, goesOut),
                     old(Contents()), result, Contents())
    {
      if Get(vault.balance, token) < amount {
        return Failed(InsufficientBalance);
      }
      if goesOut {
        vault := vault.(balance := Sub(vault.balance, token, amount),
                        sent := Raise(vault.sent, token, to, amount));
      } else {
        vault := vault.(tokenDebt := Raise(vault.tokenDebt, token, to, amount),
                        totalTokenDebt := Add(vault.totalTokenDebt, token, amount));
      }
      result := Ok;
    }

    method ClaimTokenDebt(token: Token, user: Account, requested: Amount, goesOut: bool) returns (result: Result)
      modifies this`vault
      ensures Agrees(Auctions.ClaimTokenDebt(old(Contents()), token, user, requested, goesOut),
                     old(Contents()), result, Contents())
    {
      var owed := Get(Row(vault.tokenDebt, token), user);
      var amount := if requested.All? then owed else requested.amount;
      if amount > owed {
        return Failed(InsufficientDebt);
      }
      if Get(vault.totalTokenDebt, token) < amount {
        return Failed(Panic);
      }
      if Get(vault.balance, token) < amount || !goesOut {
        return Failed(TransferOutFailed);
      }
      vault := vault.(tokenDebt := Lower(vault.tokenDebt, token, user, amount),
                      totalTokenDebt := Sub(vault.totalTokenDebt, token, amount),
                      balance := Sub(vault.balance, token, amount),
                      sent := Raise(vault.sent, token, user, amount));
      result := Ok;
    }

    /// Adds up the pool's bad debt and records each market's.
    method RecordDebts(markets: seq<MarketId>, prices: map<MarketId, nat>)
      returns (poolBadDebt: nat, marketDebt: map<MarketId, nat>)
      ensures poolBadDebt == PoolBadDebt(Contents(), markets, prices)
      ensures marketDebt == RecordedDebt(Contents(), markets)
    {
      var s := Contents();
      poolBadDebt, marketDebt := 0, map[];
      for i := 0 to |markets|
        invariant poolBadDebt == PoolBadDebt(s, markets[..i], prices)
        invariant marketDebt == RecordedDebt(s, markets[..i])
      {
        var mk := markets[i];
        poolBadDebt := poolBadDebt + DebtValue(s, mk, prices);
        marketDebt := marketDebt[mk := MarketAt(s, mk).badDebt];
        assert markets[..i + 1][..i] == markets[..i];
      }
      assert markets[..|markets|] == markets;
    }

    method StartFresh(pool: Pool, prices: map<MarketId, nat>, basePrice: nat) returns (result: Result)
      modifies this`auctions
      ensures Agrees(Auctions.StartFresh(config, old(Contents()), pool, prices, basePrice),
                     old(Contents()), result, Contents())
    {
      if pool !in config.pools {
        return Failed(PoolNotRegistered);
      }
      var a := AuctionOf(Contents(), pool);
      if a.status == Started {
        return Failed(AuctionOngoing);
      }
      var markets := MarketsOf(config, Contents(), pool);
      var poolBadDebt, marketDebt := RecordDebts(markets, prices);
      if poolBadDebt < minimumPoolBadDebt {
        return Failed(PoolBadDebtTooLow);
      }
      var riskFund := MulTruncate(basePrice, Get(reserves, pool));
      var terms := AuctionTerms(riskFund, poolBadDebt, incentiveBps);
      if terms.Revert? {
        return Failed(terms.error);
      }
      var t := terms.value;
      auctions := auctions[pool := Auction(now, t.kind, Started, markets, t.seized, Nobody, 0, 0, t.startBidBps,
                                           marketDebt, a.bidAmount)];
      result := Ok;
    }

    method StartAuction(pool: Pool, prices: map<MarketId, nat>, basePrice: nat) returns (result: Result)
      modifies this`auctions
      ensures Agrees(Auctions.StartAuction(config, old(Contents()), pool, prices, basePrice),
                     old(Contents()), result, Contents())
    {
      if auctionsPaused {
        return Failed(AuctionsPaused);
      }
      result := StartFresh(pool, prices, basePrice);
    }

    method RestartAuction(pool: Pool, prices: map<MarketId, nat>, basePrice: nat) returns (result: Result)
      modifies this`auctions
      ensures Agrees(Auctions.RestartAuction(config, old(Contents()), pool, prices, basePrice),
                     old(Contents()), result, Contents())
    {
      var a := AuctionOf(Contents(), pool);
      if auctionsPaused {
        return Failed(AuctionsPaused);
      }
      if a.status != Started {
        return Failed(NoOngoingAuction);
      }
      if a.highestBidder != Nobody || now <= a.start + waitForFirstBidder {
        return Failed(AuctionNotStale);
      }
      var saved := auctions;
      ghost var before := Contents();
      auctions := auctions[pool := a.(status := Ended)];
      assert Contents() == before.(auctions := auctions);
      result := StartFresh(pool, prices, basePrice);
      if result != Ok {
        auctions := saved;
      }
    }

    /// The last bidder's money in one market, if there is one.
    method RefundLast(a: Auction, token: Token, mk: MarketId, goesOut: bool) returns (result: Result)
      modifies this`vault
      ensures match Refund(old(Contents()), a, token, mk, goesOut)
        case Done(s) => result == Ok && Contents() == s
        case Revert(e) => result == Failed(e)
    {
      result := Ok;
      if a.highestBidder != Nobody {
        result := TransferOutOrTrackDebt(token, a.highestBidder.account, Get(a.bidAmount, mk), goesOut);
      }
    }

    /// One market of a bid: the last bidder's money back, the new bidder's money in.
    method Pull(pool: Pool, bps: nat, how: Conducts, mk: MarketId) returns (result: Result)
      modifies this
      ensures match Auctions.Pull(config, old(Contents()), pool, bps, how, mk)
        case Done(s) => result == Ok && Contents() == s
        case Revert(e) => result == Failed(e)
    {
      ghost var before := Contents();
      var a, token, t := AuctionOf(Contents(), pool), TokenOf(config, mk), ConductOf(how, mk);
      result := RefundLast(a, token, mk, t.goesOut);
      if result != Ok {
        return;
      }
      if !t.comesIn {
        return Failed(TransferOutFailed);
      }
      ghost var refunded := Contents();
      var balanceBefore := Get(vault.balance, token);
      vault := vault.(balance := Add(vault.balance, token, Arrival(a, bps, how, mk)));
      var balanceAfter := Get(vault.balance, token);
      auctions := auctions[pool := a.(bidAmount := a.bidAmount[mk := balanceAfter - balanceBefore])];
      result := Ok;
      assert Contents() == refunded.(balance := vault.balance, auctions := auctions);
      PullIs(config, before, pool, bps, how, mk, refunded);
    }

    method PlaceBid(pool: Pool, bidder: Account, bps: nat, marker: nat, how: Conducts) returns (result: Result)
      modifies this
      ensures Agrees(Auctions.PlaceBid(config, old(Contents()), pool, bidder, bps, marker, how),
                     old(Contents()), result, Contents())
    {
      var saved := Contents();
      var a := AuctionOf(saved, pool);
      var check := BidRejected(saved, a, bps, marker);
      if check.Revert? {
        return Failed(check.error);
      }
      for i := 0 to |a.markets|
        invariant PullAll(config, saved, pool, bps, how, a.markets)
               == PullAll(config, Contents(), pool, bps, how, a.markets[i..])
        invariant now == saved.now
      {
        PullKeepsClock(config, Contents(), pool, bps, how, a.markets[i]);
        result := Pull(pool, bps, how, a.markets[i]);
        assert a.markets[i..][1..] == a.markets[i + 1..];
        if result != Ok {
          Rollback(saved);
          return;
        }
      }
      auctions := auctions[pool := AuctionOf(Contents(), pool).(highestBidder := Bidder(bidder), highestBidBps := bps,
                                                                highestBidBlock := now)];
      result := Ok;
    }

    /// One market of a close: it is sent its bid and told what arrived.
    method Deliver(pool: Pool, how: Conducts, mk: MarketId) returns (result: Result)
      modifies this`vault, this`vTokens
      ensures match Auctions.Deliver(config, old(Contents()), pool, how, mk)
        case Done(s) => result == Ok && Contents() == s
        case Revert(e) => result == Failed(e)
    {
      var token, t := TokenOf(config, mk), ConductOf(how, mk);
      var amount := Get(AuctionOf(Contents(), pool).bidAmount, mk);
      if Get(vault.balance, token) < amount || !t.goesOut {
        return Failed(TransferOutFailed);
      }
      vault := vault.(balance := Sub(vault.balance, token, amount));
      var recovered := BadDebtRecovered(MarketAt(Contents(), mk), Arrives(amount, t.fee));
      if recovered.Revert? {
        return Failed(recovered.error);
      }
      vTokens := vTokens[mk := recovered.value];
      result := Ok;
    }

    method PayWinner(pool: Pool, winner: Account, payout: nat, t: Conduct) returns (result: Result)
      modifies this
      ensures match Auctions.PayWinner(config, old(Contents()), pool, winner, payout, t)
        case Done(s) => result == Ok && Contents() == s
        case Revert(e) => result == Failed(e)
    {
      if payout > Get(reserves, pool) {
        return Failed(InsufficientReserve);
      }
      if !t.comesIn {
        return Failed(TransferOutFailed);
      }
      reserves := reserves[pool := Get(reserves, pool) - payout];
      vault := vault.(balance := Add(vault.balance, config.base, Arrives(payout, t.fee)));
      result := TransferOutOrTrackDebt(config.base, winner, payout, t.goesOut);
    }

    /// The loop of a close over the auction's markets.
    method DeliverAll(pool: Pool, how: Conducts, markets: seq<MarketId>) returns (result: Result)
      modifies this`vault, this`vTokens
      ensures match Auctions.DeliverAll(config, old(Contents()), pool, how, markets)
        case Done(s) => result == Ok && Contents() == s
        case Revert(e) => result == Failed(e)
    {
      ghost var before := Contents();
      result := Ok;
      for i := 0 to |markets|
        invariant result == Ok
        invariant Auctions.DeliverAll(config, before, pool, how, markets)
               == Auctions.DeliverAll(config, Contents(), pool, how, markets[i..])
      {
        result := Deliver(pool, how, markets[i]);
        assert markets[i..][1..] == markets[i + 1..];
        if result != Ok {
          return;
        }
      }
    }

    method CloseAuction(pool: Pool, how: Conducts, t: Conduct) returns (result: Result)
      modifies this
      ensures Agrees(Auctions.CloseAuction(config, old(Contents()), pool, how, t), old(Contents()), result, Contents())
    {
      var saved := Contents();
      var a := AuctionOf(saved, pool);
      if a.status != Started {
        return Failed(NoOngoingAuction);
      }
      if now <= a.highestBidBlock + nextBidderLimit || a.highestBidder == Nobody {
        return Failed(WaitingForNextBidder);
      }
      result := EndAndPay(pool, a, how, t);
      if result != Ok {
        Rollback(saved);
      }
    }

    /// The auction is over: its markets are sent the bid, and the winner the payout.
    method EndAndPay(pool: Pool, a: Auction, how: Conducts, t: Conduct) returns (result: Result)
      requires a == AuctionOf(Contents(), pool) && a.status == Started && MayClose(Contents(), a)
      modifies this
      ensures match Auctions.CloseAuction(config, old(Contents()), pool, how, t)
        case Done(s) => result == Ok && Contents() == s
        case Revert(e) => result == Failed(e)
    {
      ghost var before := Contents();
      auctions := auctions[pool := a.(status := Ended)];
      assert Contents() == before.(auctions := auctions);
      result := DeliverAll(pool, how, a.markets);
      if result == Ok {
        result := PayWinner(pool, a.highestBidder.account, Payout(a), t);
      }
    }
  }

  /// A pull, once the last bidder is refunded.
  lemma PullIs(c: Config, s: State, pool: Pool, bps: nat, how: Conducts, mk: MarketId, refunded: State)
    requires ConductOf(how, mk).comesIn
    requires Refund(s, AuctionOf(s, pool), TokenOf(c, mk), mk, ConductOf(how, mk).goesOut) == Done(refunded)
    ensures var a, token := AuctionOf(s, pool), TokenOf(c, mk);
      var arrived := Arrival(a, bps, how, mk);
      Auctions.Pull(c, s, pool, bps, how, mk)
        == Done(refunded.(balance := Add(refunded.balance, token, arrived),
                          auctions := refunded.auctions[pool := a.(bidAmount := a.bidAmount[mk := arrived])]))
  {
  }

  lemma PullKeepsClock(c: Config, s: State, pool: Pool, bps: nat, how: Conducts, mk: MarketId)
    ensures var s' := Auctions.Pull(c, s, pool, bps, how, mk); s'.Done? ==> s'.value.now == s.now
  {
  }
}
