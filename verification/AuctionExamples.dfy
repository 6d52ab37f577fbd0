/** Runs of the auctions from deployment in which promises fail: an auction that is due is prolonged by a late bid,
    beyond its waiting limits; a payout that loses a fee leaves the contract insolvent; and at a price of two for the
    base asset an auction is stuck. */
module AuctionExamples {
  import opened FixedPoint
  import opened Totals
  import opened Outcomes
  import opened Ledger
  import opened Auctions
  import opened AuctionLife
  import opened AuctionEscrow
  import opened AuctionLength
  import opened AuctionEnds

  /// Two pools of one market each; market 2's token, 5, is the risk fund's.
  const TWO_POOLS: Config :=
    Config(map[1 := [1], 2 := [2]], map[1 := 1, 2 := 2], map[1 := 7, 2 := 5], 5)

  const CALM: AllowedSettings := Settings(EXP_SCALE, 0, 0, 100, 0, EXP_SCALE)
  const PRICES: map<MarketId, nat> := map[1 := EXP_SCALE, 2 := EXP_SCALE]

  lemma RunCons(c: Config, s: State, e: Event, rest: seq<Event>)
    ensures Auctions.Run(c, s, [e] + rest) == Auctions.Run(c, Auctions.After(c, s, e), rest)
  {
    assert ([e] + rest)[1..] == rest;
  }

  lemma RunOne(c: Config, s: State, e: Event)
    ensures Auctions.Run(c, s, [e]) == Auctions.After(c, s, e)
  {
    assert [e] == [e] + [];
    RunCons(c, s, e, []);
  }

  lemma {:induction false} RunAppend(c: Config, s: State, a: seq<Event>, b: seq<Event>)
    ensures Auctions.Run(c, s, a + b) == Auctions.Run(c, Auctions.Run(c, s, a), b)
    decreases |a|
  {
    if |a| == 0 {
      assert a + b == b;
    } else {
      assert (a + b)[1..] == a[1..] + b;
      RunAppend(c, Auctions.After(c, s, a[0]), a[1..], b);
    }
  }

  // ---------- a market with bad debt ----------

  /// Account 1 supplies 10, account 2 borrows them and is healed without a repayment.
  function Breaking(mk: MarketId): seq<Event> {
    [MarketCall(mk, CALM, Accrue(0))] + ([MarketCall(mk, CALM, Mint(1, 10, 0))]
    + ([MarketCall(mk, CALM, Borrow(2, 10))] + ([MarketCall(mk, CALM, Heal(2, 0, 0))] + [])))
  }

  const ACCRUED: Market := Market(0, 0, 0, 0, 0, EXP_SCALE, 1, 0, map[], map[])
  const SUPPLIED: Market := Market(10, 0, 0, 0, 10, EXP_SCALE, 1, 0, map[1 := 10], map[])
  const BORROWED: Market := Market(0, 10, 0, 0, 10, EXP_SCALE, 1, 0, map[1 := 10], map[2 := BorrowSnapshot(10, EXP_SCALE)])
  const BROKEN: Market := Market(0, 0, 10, 0, 10, EXP_SCALE, 1, 0, map[1 := 10], map[2 := BorrowSnapshot(0, EXP_SCALE)])

  lemma AccrueCall()
    ensures Apply(NewMarket(0), Step(CALM, 1, Accrue(0))) == Done(ACCRUED)
  {
    assert MulTruncate(0, 0) == 0 && MulTruncate(0, EXP_SCALE) == 0;
    assert BookInterest(CALM, NewMarket(0), 1, 0) == ACCRUED;
  }

  lemma MintCall()
    ensures Apply(ACCRUED, Step(CALM, 1, Mint(1, 10, 0))) == Done(SUPPLIED)
  {
    assert DivTruncate(10, EXP_SCALE) == 10;
    assert ExchangeRateStored(CALM, ACCRUED) == Done(EXP_SCALE);
  }

  lemma BorrowCall()
    ensures Apply(SUPPLIED, Step(CALM, 1, Borrow(2, 10))) == Done(BORROWED)
  {
    assert BorrowBalanceStored(SUPPLIED, 2) == Done(0);
  }

  lemma HealCall()
    ensures Apply(BORROWED, Step(CALM, 1, Heal(2, 0, 0))) == Done(BROKEN)
  {
    assert 10 * EXP_SCALE / EXP_SCALE == 10;
    assert BorrowBalanceStored(BORROWED, 2) == Done(10);
    assert BORROWED.accountBorrows[2 := BorrowSnapshot(0, EXP_SCALE)] == BROKEN.accountBorrows;
  }

  lemma CallTo(c: Config, s: State, mk: MarketId, action: Action, m: Market)
    requires !action.Recover? && Apply(MarketAt(s, mk), Step(CALM, s.now, action)) == Done(m)
    ensures Auctions.After(c, s, MarketCall(mk, CALM, action)) == s.(vTokens := s.vTokens[mk := m])
  {
  }

  lemma BreaksMarket(c: Config, s: State, mk: MarketId)
    requires s.now == 1 && mk !in s.vTokens
    ensures Auctions.Run(c, s, Breaking(mk)) == s.(vTokens := s.vTokens[mk := BROKEN])
  {
    AccrueCall();
    MintCall();
    BorrowCall();
    HealCall();
    var s1, s2 := s.(vTokens := s.vTokens[mk := ACCRUED]), s.(vTokens := s.vTokens[mk := SUPPLIED]);
    var s3, s4 := s.(vTokens := s.vTokens[mk := BORROWED]), s.(vTokens := s.vTokens[mk := BROKEN]);
    CallTo(c, s, mk, Accrue(0), ACCRUED);
    CallTo(c, s1, mk, Mint(1, 10, 0), SUPPLIED);
    assert s1.vTokens[mk := SUPPLIED] == s2.vTokens;
    CallTo(c, s2, mk, Borrow(2, 10), BORROWED);
    assert s2.vTokens[mk := BORROWED] == s3.vTokens;
    CallTo(c, s3, mk, Heal(2, 0, 0), BROKEN);
    assert s3.vTokens[mk := BROKEN] == s4.vTokens;
    RunCons(c, s, MarketCall(mk, CALM, Accrue(0)), [MarketCall(mk, CALM, Mint(1, 10, 0))]
      + ([MarketCall(mk, CALM, Borrow(2, 10))] + ([MarketCall(mk, CALM, Heal(2, 0, 0))] + [])));
    RunCons(c, s1, MarketCall(mk, CALM, Mint(1, 10, 0)),
            [MarketCall(mk, CALM, Borrow(2, 10))] + ([MarketCall(mk, CALM, Heal(2, 0, 0))] + []));
    RunCons(c, s2, MarketCall(mk, CALM, Borrow(2, 10)), [MarketCall(mk, CALM, Heal(2, 0, 0))] + []);
    RunCons(c, s3, MarketCall(mk, CALM, Heal(2, 0, 0)), []);
  }

  // ---------- the run, from any state with the facts it needs ----------

  const AUCTION1: Auction := Auction(1, LargePoolDebt, Started, [1], 10, Nobody, 0, 0, 9090, map[1 := 10], map[])
  const AUCTION2: Auction := Auction(1, LargePoolDebt, Started, [2], 0, Nobody, 0, 0, 0, map[2 := 10], map[])
  const EARLY1: Auction := AUCTION1.(highestBidder := Bidder(3), highestBidBps := 9500, highestBidBlock := 1, bidAmount := map[1 := 9])
  const LATE1: Auction := AUCTION1.(highestBidder := Bidder(4), highestBidBps := 10000, highestBidBlock := 101, bidAmount := map[1 := 10])
  const LED2: Auction := AUCTION2.(highestBidder := Bidder(3), highestBidBps := 10000, highestBidBlock := 1, bidAmount := map[2 := 10])

  ghost predicate Calm(s: State) {
    !s.paused && s.listed == map[1 := 1, 2 := 1] && s.minimumPoolBadDebt == 0 && s.incentiveBps == 1000 && s.nextBidderLimit == 10 && s.waitForFirstBidder == 10
  }

  lemma DebtOfOne(s: State, mk: MarketId)
    requires MarketAt(s, mk).badDebt == 10 && (mk == 1 || mk == 2)
    ensures PoolBadDebt(s, [mk], PRICES) == 10
  {
    assert [mk][..0] == [];
    assert PoolBadDebt(s, [], PRICES) == 0;
    assert DebtValue(s, mk, PRICES) == 10;
  }

  lemma StartsFirst(s: State)
    requires Calm(s) && s.now == 1 && s.auctions == map[] && Get(s.reserves, 1) == 10 && MarketAt(s, 1).badDebt == 10
    ensures Auctions.Next(TWO_POOLS, s, Start(1, PRICES, EXP_SCALE)) == Done(s.(auctions := map[1 := AUCTION1]))
  {
    assert MarketsOf(TWO_POOLS, s, 1) == [1];
    DebtOfOne(s, 1);
    assert MulTruncate(EXP_SCALE, 10) == 10;
    assert AuctionTerms(10, 10, 1000) == Done(Terms(LargePoolDebt, 10, 9090));
    assert RecordedDebt(s, [1]) == map[1 := 10];
  }

  lemma StartsSecond(s: State)
    requires Calm(s) && s.now == 1 && s.auctions == map[1 := AUCTION1] && Get(s.reserves, 2) == 0 && MarketAt(s, 2).badDebt == 10
    ensures Auctions.Next(TWO_POOLS, s, Start(2, PRICES, EXP_SCALE)) == Done(s.(auctions := map[1 := AUCTION1, 2 := AUCTION2]))
  {
    assert MarketsOf(TWO_POOLS, s, 2) == [2];
    DebtOfOne(s, 2);
    assert MulTruncate(EXP_SCALE, 0) == 0;
    assert AuctionTerms(0, 10, 1000) == Done(Terms(LargePoolDebt, 0, 0));
    assert RecordedDebt(s, [2]) == map[2 := 10];
    assert s.auctions[2 := AUCTION2] == map[1 := AUCTION1, 2 := AUCTION2];
  }

  /// A bid on an auction of one market, from its one transfer.
  lemma BidOnOne(s: State, pool: Pool, bidder: Account, bps: nat, how: Conducts, mk: MarketId, pulled: State, s': State)
    requires AuctionOf(s, pool).markets == [mk] && BidRejected(s, AuctionOf(s, pool), bps, 1).Done?
    requires Pull(TWO_POOLS, s, pool, bps, how, mk) == Done(pulled)
    requires s' == pulled.(auctions := pulled.auctions[pool :=
      AuctionOf(pulled, pool).(highestBidder := Bidder(bidder), highestBidBps := bps, highestBidBlock := s.now)])
    ensures Auctions.Next(TWO_POOLS, s, Bid(pool, bidder, bps, 1, how)) == Done(s')
  {
    assert [mk][1..] == [];
    assert PullAll(TWO_POOLS, s, pool, bps, how, [mk]) == Done(pulled);
  }

  /// One transfer in, from the state after the refund.
  lemma PullOne(s: State, pool: Pool, bps: nat, how: Conducts, mk: MarketId, refunded: State, arrived: nat, pulled: State)
    requires ConductOf(how, mk).comesIn
    requires var a := AuctionOf(s, pool);
      && Refund(s, a, TokenOf(TWO_POOLS, mk), mk, ConductOf(how, mk).goesOut) == Done(refunded) && Arrival(a, bps, how, mk) == arrived
      && pulled == refunded.(balance := Auctions.Add(refunded.balance, TokenOf(TWO_POOLS, mk), arrived),
                             auctions := refunded.auctions[pool := a.(bidAmount := a.bidAmount[mk := arrived])])
    ensures Pull(TWO_POOLS, s, pool, bps, how, mk) == Done(pulled)
  {
  }

  lemma BidsFirst(s: State)
    requires s.now == 1 && s.auctions == map[1 := AUCTION1, 2 := AUCTION2] && s.balance == map[]
    ensures Auctions.Next(TWO_POOLS, s, Bid(1, 3, 9500, 1, map[]))
         == Done(s.(auctions := map[1 := EARLY1, 2 := AUCTION2], balance := map[7 := 9]))
  {
    var a := AUCTION1.(bidAmount := map[1 := 9]);
    var pulled := s.(balance := map[7 := 9], auctions := map[1 := a, 2 := AUCTION2]);
    assert AUCTION1.bidAmount[1 := 9] == map[1 := 9];
    assert s.auctions[1 := a] == pulled.auctions && Auctions.Add(s.balance, 7, 9) == pulled.balance;
    PullOne(s, 1, 9500, map[], 1, s, 9, pulled);
    assert pulled.auctions[1 := EARLY1] == map[1 := EARLY1, 2 := AUCTION2];
    BidOnOne(s, 1, 3, 9500, map[], 1, pulled, s.(auctions := map[1 := EARLY1, 2 := AUCTION2], balance := map[7 := 9]));
  }

  lemma PullsSecond(s: State, pulled: State)
    requires s.auctions == map[1 := EARLY1, 2 := AUCTION2] && s.balance == map[7 := 9]
    requires pulled == s.(balance := map[7 := 9, 5 := 10],
                          auctions := map[1 := EARLY1, 2 := AUCTION2.(bidAmount := map[2 := 10])])
    ensures Pull(TWO_POOLS, s, 2, 10000, map[], 2) == Done(pulled)
  {
    var a := AUCTION2.(bidAmount := map[2 := 10]);
    assert AUCTION2.bidAmount[2 := 10] == map[2 := 10];
    assert s.auctions[2 := a] == pulled.auctions && Auctions.Add(s.balance, 5, 10) == pulled.balance;
    PullOne(s, 2, 10000, map[], 2, s, 10, pulled);
  }

  lemma BidsSecond(s: State)
    requires s.now == 1 && s.auctions == map[1 := EARLY1, 2 := AUCTION2] && s.balance == map[7 := 9]
    ensures Auctions.Next(TWO_POOLS, s, Bid(2, 3, 10000, 1, map[]))
         == Done(s.(auctions := map[1 := EARLY1, 2 := LED2], balance := map[7 := 9, 5 := 10]))
  {
    var a := AUCTION2.(bidAmount := map[2 := 10]);
    var pulled := s.(balance := map[7 := 9, 5 := 10], auctions := map[1 := EARLY1, 2 := a]);
    PullsSecond(s, pulled);
    assert pulled.auctions[2 := LED2] == map[1 := EARLY1, 2 := LED2];
    BidOnOne(s, 2, 3, 10000, map[], 2, pulled, s.(auctions := map[1 := EARLY1, 2 := LED2], balance := map[7 := 9, 5 := 10]));
  }

  lemma RefundsEarlyBid(s: State)
    requires s.balance == map[7 := 9, 5 := 10] && s.sent == map[]
    ensures Refund(s, EARLY1, 7, 1, true) == Done(s.(balance := map[7 := 0, 5 := 10], sent := map[7 := map[3 := 9]]))
  {
    assert Auctions.Sub(s.balance, 7, 9) == map[7 := 0, 5 := 10];
    assert Row(s.sent, 7)[3 := 9] == map[3 := 9];
    assert Raise(s.sent, 7, 3, 9) == map[7 := map[3 := 9]];
  }

  lemma PullsLate(s: State, pulled: State)
    requires s.auctions == map[1 := EARLY1, 2 := LED2] && s.balance == map[7 := 9, 5 := 10] && s.sent == map[]
    requires pulled == s.(balance := map[7 := 10, 5 := 10], sent := map[7 := map[3 := 9]],
                          auctions := map[1 := EARLY1.(bidAmount := map[1 := 10]), 2 := LED2])
    ensures Pull(TWO_POOLS, s, 1, 10000, map[], 1) == Done(pulled)
  {
    var a := EARLY1.(bidAmount := map[1 := 10]);
    var refunded := s.(balance := map[7 := 0, 5 := 10], sent := map[7 := map[3 := 9]]);
    RefundsEarlyBid(s);
    assert EARLY1.bidAmount[1 := 10] == map[1 := 10];
    assert refunded.auctions[1 := a] == pulled.auctions && Auctions.Add(refunded.balance, 7, 10) == pulled.balance;
    PullOne(s, 1, 10000, map[], 1, refunded, 10, pulled);
  }

  lemma LateBidAccepted(s: State)
    requires s.now == 101 && s.auctions == map[1 := EARLY1, 2 := LED2] && s.balance == map[7 := 9, 5 := 10] && s.sent == map[]
    ensures Auctions.Next(TWO_POOLS, s, Bid(1, 4, 10000, 1, map[]))
         == Done(s.(auctions := map[1 := LATE1, 2 := LED2], balance := map[7 := 10, 5 := 10], sent := map[7 := map[3 := 9]]))
  {
    var pulled := s.(balance := map[7 := 10, 5 := 10], sent := map[7 := map[3 := 9]],
                     auctions := map[1 := EARLY1.(bidAmount := map[1 := 10]), 2 := LED2]);
    PullsLate(s, pulled);
    assert pulled.auctions[1 := LATE1] == map[1 := LATE1, 2 := LED2];
    BidOnOne(s, 1, 4, 10000, map[], 1, pulled, pulled.(auctions := map[1 := LATE1, 2 := LED2]));
  }

  lemma DeliversBid(s: State)
    requires AuctionOf(s, 1).bidAmount == map[1 := 10] && s.balance == map[7 := 10, 5 := 10] && MarketAt(s, 1).badDebt == 10
    ensures Deliver(TWO_POOLS, s, 1, map[], 1).Done?
    ensures var s' := Deliver(TWO_POOLS, s, 1, map[], 1).value;
      s' == s.(balance := map[7 := 0, 5 := 10], vTokens := s'.vTokens)
  {
    assert Auctions.Sub(s.balance, 7, 10) == map[7 := 0, 5 := 10];
  }

  lemma PaysWithLoss(s: State)
    requires s.balance == map[7 := 0, 5 := 10] && Get(s.reserves, 1) == 10
    ensures PayWinner(TWO_POOLS, s, 1, 4, 10, Conduct(true, 1, true)).Done?
    ensures var s' := PayWinner(TWO_POOLS, s, 1, 4, 10, Conduct(true, 1, true)).value;
      s'.balance == map[7 := 0, 5 := 9] && s'.auctions == s.auctions && s'.totalTokenDebt == s.totalTokenDebt
  {
    assert Auctions.Add(s.balance, 5, 9) == map[7 := 0, 5 := 19];
    assert Auctions.Sub(map[7 := 0, 5 := 19], 5, 10) == map[7 := 0, 5 := 9];
  }

  lemma ClosesWithLoss(s: State)
    requires s.now == 112 && s.nextBidderLimit == 10 && s.auctions == map[1 := LATE1, 2 := LED2]
    requires s.balance == map[7 := 10, 5 := 10] && MarketAt(s, 1).badDebt == 10 && Get(s.reserves, 1) == 10
    ensures Auctions.Next(TWO_POOLS, s, Close(1, map[], Conduct(true, 1, true))).Done?
    ensures var s' := Auctions.After(TWO_POOLS, s, Close(1, map[], Conduct(true, 1, true)));
      && s'.balance == map[7 := 0, 5 := 9] && s'.totalTokenDebt == s.totalTokenDebt
      && s'.auctions == map[1 := LATE1.(status := Ended), 2 := LED2]
  {
    var ended := s.(auctions := map[1 := LATE1.(status := Ended), 2 := LED2]);
    assert s.auctions[1 := LATE1.(status := Ended)] == ended.auctions;
    DeliversBid(ended);
    var delivered := Deliver(TWO_POOLS, ended, 1, map[], 1).value;
    assert [1][1..] == [];
    assert DeliverAll(TWO_POOLS, ended, 1, map[], [1]) == Done(delivered);
    PaysWithLoss(delivered);
  }

  // ---------- the run from deployment ----------

  const DEPLOYED: State := Auctions.Initial(1, 0, 10, 10, 1000, map[1 := 1, 2 := 1])

  /// Both markets have bad debt of 10, and pool 1 a risk fund of 10.
  const SETUP: seq<Event> := Breaking(1) + (Breaking(2) + [SetReserve(1, 10)])

  const START1: Event := Start(1, PRICES, EXP_SCALE)
  const START2: Event := Start(2, PRICES, EXP_SCALE)
  const BID1: Event := Bid(1, 3, 9500, 1, map[])
  const BID2: Event := Bid(2, 3, 10000, 1, map[])
  const LATE_BID: Event := Bid(1, 4, 10000, 1, map[])
  const LOSSY_CLOSE: Event := Close(1, map[], Conduct(true, 1, true))

  lemma ElapseNext(c: Config, s: State, blocks: nat)
    ensures Auctions.Next(c, s, Elapse(blocks)) == Done(s.(now := s.now + blocks))
  {
  }

  lemma SetReserveAfter(c: Config, s: State, pool: Pool, amount: nat)
    ensures Auctions.After(c, s, SetReserve(pool, amount)) == s.(reserves := s.reserves[pool := amount])
  {
  }

  lemma BreaksSome(c: Config, s: State, mk: MarketId) returns (m: Market)
    requires s.now == 1 && mk !in s.vTokens
    ensures Auctions.Run(c, s, Breaking(mk)) == s.(vTokens := s.vTokens[mk := m]) && m.badDebt == 10
  {
    m := BROKEN;
    BreaksMarket(c, s, mk);
  }

  lemma ComposeThree(c: Config, s: State, a: seq<Event>, b: seq<Event>, e: Event, s1: State, s2: State)
    requires Auctions.Run(c, s, a) == s1 && Auctions.Run(c, s1, b) == s2
    ensures Auctions.Run(c, s, a + (b + [e])) == Auctions.After(c, s2, e)
  {
    RunAppend(c, s, a, b + [e]);
    RunAppend(c, s1, b, [e]);
    RunOne(c, s2, e);
  }

  lemma SetUpFrom(s: State) returns (m1: Market, m2: Market)
    requires s.now == 1 && s.vTokens == map[] && s.reserves == map[]
    ensures m1.badDebt == 10 == m2.badDebt
    ensures Auctions.Run(TWO_POOLS, s, SETUP) == s.(vTokens := map[1 := m1, 2 := m2], reserves := map[1 := 10])
  {
    m1 := BreaksSome(TWO_POOLS, s, 1);
    var s1 := s.(vTokens := s.vTokens[1 := m1]);
    m2 := BreaksSome(TWO_POOLS, s1, 2);
    var s2 := s1.(vTokens := s1.vTokens[2 := m2]);
    ComposeThree(TWO_POOLS, s, Breaking(1), Breaking(2), SetReserve(1, 10), s1, s2);
    SetReserveAfter(TWO_POOLS, s2, 1, 10);
    assert s2.vTokens == map[1 := m1, 2 := m2] && s2.reserves[1 := 10] == map[1 := 10];
  }

  ghost predicate ReadyToBegin(s: State) {
    && Calm(s) && s.now == 1 && s.auctions == map[] && s.balance == map[] && s.sent == map[] && s.totalTokenDebt == map[] && s.tokenDebt == map[]
    && Get(s.reserves, 1) == 10 && Get(s.reserves, 2) == 0
    && MarketAt(s, 1).badDebt == 10 && MarketAt(s, 2).badDebt == 10
  }

  lemma SetUp() returns (s: State)
    ensures s == Auctions.Run(TWO_POOLS, DEPLOYED, SETUP) && ReadyToBegin(s)
  {
    var m1, m2 := SetUpFrom(DEPLOYED);
    s := DEPLOYED.(vTokens := map[1 := m1, 2 := m2], reserves := map[1 := 10]);
  }

  lemma BidsCons(c: Config, s: State, e: Event, rest: seq<Event>, pool: Pool)
    ensures Bids(c, s, [e] + rest, pool)
         == (if AcceptedBid(c, s, e, pool) then 1 else 0) + Bids(c, Auctions.After(c, s, e), rest, pool)
  {
    assert ([e] + rest)[1..] == rest;
  }

  /// From the start of auction 1: the other auction starts, both are bid on, and a hundred blocks pass.
  const UNTIL_DUE: seq<Event> := [START2] + ([BID1] + ([BID2] + [Elapse(100)]))

  lemma ChainFour(k: Config, s: State, a: Event, b: Event, c: Event, d: Event, s1: State, s2: State, s3: State, s4: State)
    requires !a.Bid? && AcceptedBid(k, s1, b, 1) && !AcceptedBid(k, s2, c, 1) && !d.Bid?
    requires Auctions.After(k, s, a) == s1 && Auctions.After(k, s1, b) == s2
    requires Auctions.After(k, s2, c) == s3 && Auctions.After(k, s3, d) == s4
    ensures Auctions.Run(k, s, [a] + ([b] + ([c] + [d]))) == s4
    ensures Bids(k, s, [a] + ([b] + ([c] + [d])), 1) == 1
  {
    RunCons(k, s, a, [b] + ([c] + [d]));
    RunCons(k, s1, b, [c] + [d]);
    RunCons(k, s2, c, [d]);
    RunOne(k, s3, d);
    BidsCons(k, s, a, [b] + ([c] + [d]), 1);
    BidsCons(k, s1, b, [c] + [d], 1);
    BidsCons(k, s2, c, [d], 1);
    assert [d] == [d] + [];
    BidsCons(k, s3, d, [], 1);
  }

  lemma Succeeded(s: State, e: Event, s': State)
    requires Auctions.Next(TWO_POOLS, s, e) == Done(s')
    ensures Auctions.After(TWO_POOLS, s, e) == s'
    ensures AcceptedBid(TWO_POOLS, s, e, 1) <==> e.Bid? && e.pool == 1
  {
  }

  lemma UntilDue(s: State) returns (due: State)
    requires Calm(s) && s.now == 1 && s.auctions == map[1 := AUCTION1] && s.balance == map[]
    requires Get(s.reserves, 2) == 0 && MarketAt(s, 2).badDebt == 10
    ensures due == Auctions.Run(TWO_POOLS, s, UNTIL_DUE) && Bids(TWO_POOLS, s, UNTIL_DUE, 1) == 1
    ensures due == s.(now := 101, auctions := map[1 := EARLY1, 2 := LED2], balance := map[7 := 9, 5 := 10])
  {
    var both := map[1 := AUCTION1, 2 := AUCTION2];
    var one := map[1 := EARLY1, 2 := AUCTION2];
    var led := map[1 := EARLY1, 2 := LED2];
    var s1 := s.(auctions := both);
    var s2 := s.(auctions := one, balance := map[7 := 9]);
    var s3 := s.(auctions := led, balance := map[7 := 9, 5 := 10]);
    due := s3.(now := 101);
    StartsSecond(s);
    Succeeded(s, START2, s1);
    BidsFirst(s1);
    Succeeded(s1, BID1, s2);
    BidsSecond(s2);
    Succeeded(s2, BID2, s3);
    ElapseNext(TWO_POOLS, s3, 100);
    Succeeded(s3, Elapse(100), due);
    ChainFour(TWO_POOLS, s, START2, BID1, BID2, Elapse(100), s1, s2, s3, due);
  }

  /// The states of the run when auction 1 is started, when it is due, and after the late bid.
  lemma UntilLate() returns (started: State, due: State, late: State)
    ensures started == Auctions.After(TWO_POOLS, Auctions.Run(TWO_POOLS, DEPLOYED, SETUP), START1)
    ensures due == Auctions.Run(TWO_POOLS, started, UNTIL_DUE) && Bids(TWO_POOLS, started, UNTIL_DUE, 1) == 1
    ensures Auctions.Next(TWO_POOLS, due, LATE_BID) == Done(late) && Calm(due) && Calm(late)
    ensures started.now == 1 && due.now == 101 == late.now && due.balance == map[7 := 9, 5 := 10]
    ensures due.tokenDebt == map[] && due.totalTokenDebt == map[] && due.sent == map[]
    ensures started.auctions == map[1 := AUCTION1] && due.auctions == map[1 := EARLY1, 2 := LED2]
    ensures late.auctions == map[1 := LATE1, 2 := LED2] && late.balance == map[7 := 10, 5 := 10]
    ensures late.totalTokenDebt == map[] && MarketAt(late, 1).badDebt == 10 && Get(late.reserves, 1) == 10
  {
    var setUp := SetUp();
    StartsFirst(setUp);
    started := setUp.(auctions := map[1 := AUCTION1]);
    Succeeded(setUp, START1, started);
    due := UntilDue(started);
    LateBidAccepted(due);
    late := due.(auctions := map[1 := LATE1, 2 := LED2], balance := map[7 := 10, 5 := 10], sent := map[7 := map[3 := 9]]);
  }

  /// Auction 1 could be closed since block 12; at block 101 a better bid is still accepted, and a hundred blocks
  /// after its start the auction is neither stale nor closable, though it had two bids and both limits are
  /// ten blocks.
  lemma DueAuctionIsProlonged()
    ensures var started := Auctions.After(TWO_POOLS, Auctions.Run(TWO_POOLS, DEPLOYED, SETUP), START1);
      var due := Auctions.Run(TWO_POOLS, started, UNTIL_DUE);
      var late := Auctions.After(TWO_POOLS, due, LATE_BID);
      && AuctionOf(started, 1).start == started.now == AuctionOf(late, 1).start
      && MayClose(due, AuctionOf(due, 1)) && Auctions.Next(TWO_POOLS, due, LATE_BID).Done?
      && AuctionOf(late, 1).status == Started && !IsStale(late, AuctionOf(late, 1)) && !MayClose(late, AuctionOf(late, 1))
      && Bids(TWO_POOLS, started, UNTIL_DUE, 1) == 1
      && late.now - AuctionOf(late, 1).start == 100
           > late.waitForFirstBidder + Waits(1 + 1, late.nextBidderLimit)
  {
    var started, due, late := UntilLate();
    Succeeded(due, LATE_BID, late);
  }

  lemma EscrowOfTen(s: State)
    requires AuctionOf(s, 2) == LED2
    ensures Total(InToken(TWO_POOLS, Escrow(TWO_POOLS, s), 5)) == 10.0
  {
    var m := InToken(TWO_POOLS, Escrow(TWO_POOLS, s), 5);
    assert Held(TWO_POOLS, s, 2) == 10;
    assert m == map[2 := 10.0];
    TotalWithout(m, 2);
    assert m - {2} == map[];
  }

  lemma NineForTen(s: State)
    requires s.balance == map[7 := 0, 5 := 9] && s.totalTokenDebt == map[]
    requires s.auctions == map[1 := LATE1.(status := Ended), 2 := LED2]
    ensures Slack(TWO_POOLS, s, 5) == -1.0 && !Solvent(TWO_POOLS, s)
  {
    EscrowOfTen(s);
    assert Slack(TWO_POOLS, s, 5) == -1.0;
  }

  lemma ElevenLater(late: State) returns (last: State)
    ensures last == Auctions.After(TWO_POOLS, late, Elapse(11)) == late.(now := late.now + 11)
  {
    ElapseNext(TWO_POOLS, late, 11);
    last := late.(now := late.now + 11);
  }

  lemma UntilLast() returns (late: State, last: State)
    ensures var started := Auctions.After(TWO_POOLS, Auctions.Run(TWO_POOLS, DEPLOYED, SETUP), START1);
      late == Auctions.After(TWO_POOLS, Auctions.Run(TWO_POOLS, started, UNTIL_DUE), LATE_BID)
    ensures last == Auctions.After(TWO_POOLS, late, Elapse(11))
    ensures last.now == 112 && last.nextBidderLimit == 10 && last.auctions == map[1 := LATE1, 2 := LED2]
    ensures last.balance == map[7 := 10, 5 := 10] && MarketAt(last, 1).badDebt == 10 && Get(last.reserves, 1) == 10
    ensures last.totalTokenDebt == map[]
  {
    var started, due;
    started, due, late := UntilLate();
    last := ElevenLater(late);
  }

  /// The run goes on: eleven blocks later auction 1 is closed. The base asset keeps one of the ten it pays out,
  /// and the contract is left with nine of the ten it holds for auction 2's leader.
  lemma LossyCloseIsInsolvent()
    ensures var started := Auctions.After(TWO_POOLS, Auctions.Run(TWO_POOLS, DEPLOYED, SETUP), START1);
      var late := Auctions.After(TWO_POOLS, Auctions.Run(TWO_POOLS, started, UNTIL_DUE), LATE_BID);
      var last := Auctions.After(TWO_POOLS, late, Elapse(11));
      var closed := Auctions.After(TWO_POOLS, last, LOSSY_CLOSE);
      && Auctions.Next(TWO_POOLS, last, LOSSY_CLOSE).Done?
      && Slack(TWO_POOLS, closed, 5) == -1.0 && !Solvent(TWO_POOLS, closed)
  {
    var late, last := UntilLast();
    ClosesWithLoss(last);
    NineForTen(Auctions.After(TWO_POOLS, last, LOSSY_CLOSE));
  }

  // ---------- a price of two ----------

  const DOUBLED: map<MarketId, nat> := map[1 := 2 * EXP_SCALE]
  const START_DOUBLED: Event := Start(1, DOUBLED, 2 * EXP_SCALE)

  /// The risk fund's 10 units are worth 20, and so is the debt.
  const DEAR1: Auction := AUCTION1.(seizedRiskFund := 20)
  const LED_DEAR1: Auction := DEAR1.(highestBidder := Bidder(3), highestBidBps := 9500, highestBidBlock := 1, bidAmount := map[1 := 9])

  lemma StartsDoubled(s: State)
    requires Calm(s) && s.now == 1 && s.auctions == map[] && Get(s.reserves, 1) == 10 && MarketAt(s, 1).badDebt == 10
    ensures Auctions.Next(TWO_POOLS, s, START_DOUBLED) == Done(s.(auctions := map[1 := DEAR1]))
  {
    assert MarketsOf(TWO_POOLS, s, 1) == [1];
    assert [1][..0] == [];
    assert PoolBadDebt(s, [], DOUBLED) == 0;
    assert DebtValue(s, 1, DOUBLED) == 20;
    assert PoolBadDebt(s, [1], DOUBLED) == 20;
    assert MulTruncate(2 * EXP_SCALE, 10) == 20;
    assert AuctionTerms(20, 20, 1000) == Done(Terms(LargePoolDebt, 20, 9090));
    assert RecordedDebt(s, [1]) == map[1 := 10];
  }

  lemma PullsDear(s: State, pulled: State)
    requires s.auctions == map[1 := DEAR1] && s.balance == map[]
    requires pulled == s.(balance := map[7 := 9], auctions := map[1 := DEAR1.(bidAmount := map[1 := 9])])
    ensures Pull(TWO_POOLS, s, 1, 9500, map[], 1) == Done(pulled)
  {
    var a := DEAR1.(bidAmount := map[1 := 9]);
    assert DEAR1.bidAmount[1 := 9] == map[1 := 9];
    assert s.auctions[1 := a] == pulled.auctions && Auctions.Add(s.balance, 7, 9) == pulled.balance;
    PullOne(s, 1, 9500, map[], 1, s, 9, pulled);
  }

  lemma BidsDear(s: State)
    requires s.now == 1 && s.auctions == map[1 := DEAR1] && s.balance == map[]
    ensures Auctions.Next(TWO_POOLS, s, BID1) == Done(s.(auctions := map[1 := LED_DEAR1], balance := map[7 := 9]))
  {
    var pulled := s.(balance := map[7 := 9], auctions := map[1 := DEAR1.(bidAmount := map[1 := 9])]);
    PullsDear(s, pulled);
    assert pulled.auctions[1 := LED_DEAR1] == map[1 := LED_DEAR1];
    BidOnOne(s, 1, 3, 9500, map[], 1, pulled, s.(auctions := map[1 := LED_DEAR1], balance := map[7 := 9]));
  }

  lemma LedDear(s: State)
    requires s.auctions == map[1 := LED_DEAR1] && Get(s.reserves, 1) == 10
    ensures Stuck(s, 1) && AuctionOf(s, 1).seizedRiskFund == 20
  {
  }

  lemma UntilStuck() returns (started: State, led: State, due: State)
    ensures started == Auctions.After(TWO_POOLS, Auctions.Run(TWO_POOLS, DEPLOYED, SETUP), START_DOUBLED)
    ensures led == Auctions.After(TWO_POOLS, started, BID1) && due == Auctions.After(TWO_POOLS, led, Elapse(100))
    ensures due.now == 101 && due.nextBidderLimit == 10 && due.auctions == map[1 := LED_DEAR1] && Get(due.reserves, 1) == 10
  {
    var setUp := SetUp();
    StartsDoubled(setUp);
    started := setUp.(auctions := map[1 := DEAR1]);
    BidsDear(started);
    led := started.(auctions := map[1 := LED_DEAR1], balance := map[7 := 9]);
    ElapseNext(TWO_POOLS, led, 100);
    due := led.(now := 101);
  }

  lemma TwoPoolsWellFormed()
    ensures WellFormed(TWO_POOLS)
  {
  }

  lemma DeployedInv()
    ensures Inv(TWO_POOLS, DEPLOYED)
  {
    TwoPoolsWellFormed();
    InitialHolds(TWO_POOLS, 1, 0, 10, 10, 1000, map[1 := 1, 2 := 1], 0);
  }

  /// The bid of 95 percent on auction 1 has been due for long, but the auction can neither be closed nor restarted,
  /// by whatever call, nor after whatever run that leaves less than 20 units in the risk fund of 10.
  lemma DueAuctionIsStuck(events: seq<Event>, how: Conducts, t: Conduct, prices: map<MarketId, nat>, basePrice: nat)
    requires var started := Auctions.After(TWO_POOLS, Auctions.Run(TWO_POOLS, DEPLOYED, SETUP), START_DOUBLED);
      var due := Auctions.After(TWO_POOLS, Auctions.After(TWO_POOLS, started, BID1), Elapse(100));
      ReserveBelow(TWO_POOLS, due, events, 1, 20)
    ensures var started := Auctions.After(TWO_POOLS, Auctions.Run(TWO_POOLS, DEPLOYED, SETUP), START_DOUBLED);
      var due := Auctions.After(TWO_POOLS, Auctions.After(TWO_POOLS, started, BID1), Elapse(100));
      var later := Auctions.Run(TWO_POOLS, due, events);
      && MayClose(due, AuctionOf(due, 1)) && Get(due.reserves, 1) == 10
      && AuctionOf(later, 1).status == Started && AuctionOf(later, 1).start == AuctionOf(due, 1).start == 1
      && CloseAuction(TWO_POOLS, later, 1, how, t).Revert? && RestartAuction(TWO_POOLS, later, 1, prices, basePrice).Revert?
  {
    var started, led, due := UntilStuck();
    StuckInv(started, led, due);
    LedDear(due);
    StuckForEver(TWO_POOLS, due, events, 1, how, t, prices, basePrice);
  }

  lemma StuckInv(started: State, led: State, due: State)
    requires started == Auctions.After(TWO_POOLS, Auctions.Run(TWO_POOLS, DEPLOYED, SETUP), START_DOUBLED)
    requires led == Auctions.After(TWO_POOLS, started, BID1) && due == Auctions.After(TWO_POOLS, led, Elapse(100))
    ensures Inv(TWO_POOLS, due)
  {
    DeployedInv();
    RunKeeps(TWO_POOLS, DEPLOYED, SETUP);
    EventKeeps(TWO_POOLS, Auctions.Run(TWO_POOLS, DEPLOYED, SETUP), START_DOUBLED);
    EventKeeps(TWO_POOLS, started, BID1);
    EventKeeps(TWO_POOLS, led, Elapse(100));
  }

  // ---------- a refused refund ----------

  /// Token 7 does not let the refund out.
  const REFUSES: Conducts := map[1 := Conduct(false, 0, true)]
  const REFUSED_BID: Event := Bid(1, 4, 10000, 1, REFUSES)
  const CLAIM: Event := ClaimDebt(7, 3, All, true)

  lemma OwesEarlyBid(s: State)
    requires s.balance == map[7 := 9, 5 := 10] && s.tokenDebt == map[] && s.totalTokenDebt == map[]
    ensures Refund(s, EARLY1, 7, 1, false) == Done(s.(tokenDebt := map[7 := map[3 := 9]], totalTokenDebt := map[7 := 9]))
  {
    assert Row(s.tokenDebt, 7)[3 := 9] == map[3 := 9];
    assert Raise(s.tokenDebt, 7, 3, 9) == map[7 := map[3 := 9]];
    assert Auctions.Add(s.totalTokenDebt, 7, 9) == map[7 := 9];
  }

  lemma PullsRefused(s: State, pulled: State)
    requires s.auctions == map[1 := EARLY1, 2 := LED2] && s.balance == map[7 := 9, 5 := 10]
    requires s.tokenDebt == map[] && s.totalTokenDebt == map[]
    requires pulled == s.(balance := map[7 := 19, 5 := 10], tokenDebt := map[7 := map[3 := 9]], totalTokenDebt := map[7 := 9],
                          auctions := map[1 := EARLY1.(bidAmount := map[1 := 10]), 2 := LED2])
    ensures Pull(TWO_POOLS, s, 1, 10000, REFUSES, 1) == Done(pulled)
  {
    var a := EARLY1.(bidAmount := map[1 := 10]);
    var owing := s.(tokenDebt := map[7 := map[3 := 9]], totalTokenDebt := map[7 := 9]);
    OwesEarlyBid(s);
    assert EARLY1.bidAmount[1 := 10] == map[1 := 10];
    assert owing.auctions[1 := a] == pulled.auctions && Auctions.Add(owing.balance, 7, 10) == pulled.balance;
    PullOne(s, 1, 10000, REFUSES, 1, owing, 10, pulled);
  }

  lemma LateBidAllowed(s: State)
    requires s.now == 101 && AuctionOf(s, 1) == EARLY1
    ensures BidRejected(s, AuctionOf(s, 1), 10000, 1).Done?
  {
  }

  /// The late bid leads once its money is in.
  lemma LateBidLeads(s: State, how: Conducts, pulled: State, s': State)
    requires s.now == 101 && AuctionOf(s, 1) == EARLY1 && Pull(TWO_POOLS, s, 1, 10000, how, 1) == Done(pulled)
    requires AuctionOf(pulled, 1) == EARLY1.(bidAmount := map[1 := 10])
    requires s' == pulled.(auctions := pulled.auctions[1 := LATE1])
    ensures Auctions.Next(TWO_POOLS, s, Bid(1, 4, 10000, 1, how)) == Done(s')
  {
    LateBidAllowed(s);
    BidOnOne(s, 1, 4, 10000, how, 1, pulled, s');
  }

  lemma ClaimsRefused(s: State)
    requires s.balance == map[7 := 19, 5 := 10] && s.tokenDebt == map[7 := map[3 := 9]] && s.totalTokenDebt == map[7 := 9]
    requires s.sent == map[]
    ensures Auctions.Next(TWO_POOLS, s, CLAIM)
         == Done(s.(balance := map[7 := 10, 5 := 10], sent := map[7 := map[3 := 9]], tokenDebt := map[7 := map[3 := 0]],
                    totalTokenDebt := map[7 := 0]))
  {
    assert Row(s.sent, 7)[3 := 9] == map[3 := 9];
    assert Raise(s.sent, 7, 3, 9) == map[7 := map[3 := 9]];
    assert Row(s.tokenDebt, 7) == map[3 := 9] && Row(s.tokenDebt, 7)[3 := 0] == map[3 := 0];
    assert Lower(s.tokenDebt, 7, 3, 9) == map[7 := map[3 := 0]];
    assert Auctions.Sub(s.totalTokenDebt, 7, 9) == map[7 := 0] && Auctions.Sub(s.balance, 7, 9) == map[7 := 10, 5 := 10];
  }

  /// Account 3 leads with 9 of token 7 and is outbid, but the token does not let the refund out: 9 are owed, nothing is
  /// sent, and the contract holds 19. Once the token lets it out, account 3 claims the 9: nothing is owed any more,
  /// and the contract holds the 10 of the new bid.
  lemma RefusedRefundIsClaimed()
    ensures var started := Auctions.After(TWO_POOLS, Auctions.Run(TWO_POOLS, DEPLOYED, SETUP), START1);
      var due := Auctions.Run(TWO_POOLS, started, UNTIL_DUE);
      var owing := Auctions.After(TWO_POOLS, due, REFUSED_BID);
      var claimed := Auctions.After(TWO_POOLS, owing, CLAIM);
      && Auctions.Next(TWO_POOLS, due, REFUSED_BID).Done? && Auctions.Next(TWO_POOLS, owing, CLAIM).Done?
      && owing.tokenDebt == map[7 := map[3 := 9]] && owing.totalTokenDebt == map[7 := 9] && owing.sent == map[]
      && Get(due.balance, 7) == 9 && Get(owing.balance, 7) == 19
      && claimed.sent == map[7 := map[3 := 9]] && Get(claimed.totalTokenDebt, 7) == 0 && Get(claimed.balance, 7) == 10
  {
    var due, owing := UntilOwing();
    ClaimsRefused(owing);
    Succeeded(due, REFUSED_BID, owing);
  }

  lemma Owing(due: State) returns (owing: State)
    requires due.now == 101 && due.auctions == map[1 := EARLY1, 2 := LED2] && due.balance == map[7 := 9, 5 := 10]
    requires due.tokenDebt == map[] && due.totalTokenDebt == map[]
    ensures Auctions.Next(TWO_POOLS, due, REFUSED_BID) == Done(owing) && owing.sent == due.sent
    ensures owing.balance == map[7 := 19, 5 := 10] && owing.tokenDebt == map[7 := map[3 := 9]] && owing.totalTokenDebt == map[7 := 9]
  {
    var pulled := due.(balance := map[7 := 19, 5 := 10], tokenDebt := map[7 := map[3 := 9]], totalTokenDebt := map[7 := 9],
                       auctions := map[1 := EARLY1.(bidAmount := map[1 := 10]), 2 := LED2]);
    PullsRefused(due, pulled);
    owing := pulled.(auctions := pulled.auctions[1 := LATE1]);
    LateBidLeads(due, REFUSES, pulled, owing);
  }

  lemma UntilOwing() returns (due: State, owing: State)
    ensures due == Auctions.Run(TWO_POOLS, Auctions.After(TWO_POOLS, Auctions.Run(TWO_POOLS, DEPLOYED, SETUP), START1), UNTIL_DUE)
    ensures Auctions.Next(TWO_POOLS, due, REFUSED_BID) == Done(owing) && owing.sent == map[] && Get(due.balance, 7) == 9
    ensures owing.balance == map[7 := 19, 5 := 10] && owing.tokenDebt == map[7 := map[3 := 9]] && owing.totalTokenDebt == map[7 := 9]
  {
    var started, late;
    started, due, late := UntilLate();
    owing := Owing(due);
  }
}
