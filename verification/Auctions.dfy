/** The Shortfall contract as a state machine: bad debt auctions of many pools, the tokens they hold in
    escrow, the token debts they owe, and the markets that heals give bad debt to and auctions repay. */
module Auctions {
  import opened FixedPoint
  import opened Totals
  import opened Outcomes
  import opened Ledger

  type Pool = nat
  type MarketId = nat
  type Token = nat

  const MAX_BPS: nat := 10_000

  /// The pools' markets, in the order in which they are ever listed, and the markets' underlying tokens; `base` is
  /// the risk fund's token.
  datatype Config = Config(
    pools: map<Pool, seq<MarketId>>,
    poolOf: map<MarketId, Pool>,
    underlying: map<MarketId, Token>,
    base: Token)

  predicate Distinct(markets: seq<MarketId>) {
    forall i, j :: 0 <= i < j < |markets| ==> markets[i] != markets[j]
  }

  /// A pool lists a market once, and a market belongs to one pool.
  predicate WellFormed(c: Config) {
    forall p :: p in c.pools ==>
      && Distinct(c.pools[p])
      && forall mk :: mk in c.pools[p] ==> mk in c.underlying && mk in c.poolOf && c.poolOf[mk] == p
  }

  datatype Kind = LargePoolDebt | LargeRiskFund
  datatype Status = NotStarted | Started | Ended
  datatype HighestBidder = Nobody | Bidder(account: Account)

  datatype Auction = Auction(
    start: nat,
    kind: Kind,
    status: Status,
    markets: seq<MarketId>,
    seizedRiskFund: nat,
    highestBidder: HighestBidder,
    highestBidBps: nat,
    highestBidBlock: nat,
    startBidBps: nat,
    marketDebt: map<MarketId, nat>,
    bidAmount: map<MarketId, nat>)

  /// `listed` is how many of its markets a pool has listed so far, `sent` what the tokens have let out to each
  /// account, `reserves` the risk fund's.
  datatype State = State(
    now: nat,
    paused: bool,
    incentiveBps: nat,
    minimumPoolBadDebt: nat,
    nextBidderLimit: nat,
    waitForFirstBidder: nat,
    auctions: map<Pool, Auction>,
    balance: map<Token, nat>,
    tokenDebt: map<Token, map<Account, nat>>,
    totalTokenDebt: map<Token, nat>,
    sent: map<Token, map<Account, nat>>,
    vTokens: map<MarketId, Market>,
    reserves: map<Pool, nat>,
    listed: map<Pool, nat>)

  /// How a token behaves in one transfer: whether it lets an outgoing transfer through, what it keeps
  /// of an incoming one, and whether it lets that through.
  datatype Conduct = Conduct(goesOut: bool, fee: nat, comesIn: bool)

  type Conducts = map<MarketId, Conduct>

  function ConductOf(how: Conducts, mk: MarketId): Conduct {
    if mk in how then how[mk] else Conduct(true, 0, true)
  }

  const UNKNOWN: Auction :=
    Auction(0, LargePoolDebt, NotStarted, [], 0, Nobody, 0, 0, 0, map[], map[])

  function AuctionOf(s: State, pool: Pool): Auction {
    if pool in s.auctions then s.auctions[pool] else UNKNOWN
  }

  function MarketAt(s: State, mk: MarketId): Market {
    if mk in s.vTokens then s.vTokens[mk] else NewMarket(0)
  }

  function Row(m: map<Token, map<Account, nat>>, token: Token): map<Account, nat> {
    if token in m then m[token] else map[]
  }

  function Raise(m: map<Token, map<Account, nat>>, token: Token, to: Account, amount: nat)
    : map<Token, map<Account, nat>>
  {
    m[token := Row(m, token)[to := Get(Row(m, token), to) + amount]]
  }

  function Lower(m: map<Token, map<Account, nat>>, token: Token, user: Account, amount: nat)
    : map<Token, map<Account, nat>>
    requires amount <= Get(Row(m, token), user)
  {
    m[token := Row(m, token)[user := Get(Row(m, token), user) - amount]]
  }

  function Add(m: map<Token, nat>, token: Token, amount: nat): map<Token, nat> {
    m[token := Get(m, token) + amount]
  }

  function Sub(m: map<Token, nat>, token: Token, amount: nat): map<Token, nat>
    requires amount <= Get(m, token)
  {
    m[token := Get(m, token) - amount]
  }

  function TokenOf(c: Config, mk: MarketId): Token {
    if mk in c.underlying then c.underlying[mk] else 0
  }

  // ---------- token debts ----------

  function TransferOutOrTrackDebt(s: State, token: Token, to: Account, amount: nat, goesOut: bool): Outcome<State> {
    if Get(s.balance, token) < amount then Revert(InsufficientBalance)
    else if goesOut then
      Done(s.(balance := Sub(s.balance, token, amount),
              sent := Raise(s.sent, token, to, amount)))
    else
      Done(s.(tokenDebt := Raise(s.tokenDebt, token, to, amount),
              totalTokenDebt := Add(s.totalTokenDebt, token, amount)))
  }

  datatype Amount = All | Exactly(amount: nat)

  function ClaimTokenDebt(s: State, token: Token, user: Account, requested: Amount, goesOut: bool): Outcome<State> {
    var owed := Get(Row(s.tokenDebt, token), user);
    var amount := if requested.All? then owed else requested.amount;
    if owed < amount then Revert(InsufficientDebt)
    else if Get(s.totalTokenDebt, token) < amount then Revert(Panic)
    else if Get(s.balance, token) < amount || !goesOut then Revert(TransferOutFailed)
    else
      Done(s.(tokenDebt := Lower(s.tokenDebt, token, user, amount),
              totalTokenDebt := Sub(s.totalTokenDebt, token, amount),
              balance := Sub(s.balance, token, amount),
              sent := Raise(s.sent, token, user, amount)))
  }

  // ---------- starting ----------

  function DebtValue(s: State, mk: MarketId, prices: map<MarketId, nat>): nat {
    Get(prices, mk) * MarketAt(s, mk).badDebt / EXP_SCALE
  }

  function PoolBadDebt(s: State, markets: seq<MarketId>, prices: map<MarketId, nat>): nat {
    if |markets| == 0 then 0
    else PoolBadDebt(s, markets[..|markets| - 1], prices) + DebtValue(s, markets[|markets| - 1], prices)
  }

  function RecordedDebt(s: State, markets: seq<MarketId>): map<MarketId, nat> {
    map mk | mk in markets :: MarketAt(s, mk).badDebt
  }

  /// The bad debt with the incentive on top, truncated.
  function WithIncentive(debt: nat, incentiveBps: nat): nat {
    debt + debt * incentiveBps / MAX_BPS
  }

  function StartBidBps(riskFund: nat, debt: nat, incentiveBps: nat): nat
    requires 0 < debt * (MAX_BPS + incentiveBps)
  {
    MAX_BPS * MAX_BPS * riskFund / (debt * (MAX_BPS + incentiveBps))
  }

  datatype Terms = Terms(kind: Kind, seized: nat, startBidBps: nat)

  /// Which kind of auction, what of the risk fund it may pay out, and the first acceptable bid.
  function AuctionTerms(riskFund: nat, debt: nat, incentiveBps: nat): Outcome<Terms> {
    if WithIncentive(debt, incentiveBps) >= riskFund then
      if debt * (MAX_BPS + incentiveBps) == 0 then Revert(Panic)
      else Done(Terms(LargePoolDebt, riskFund, StartBidBps(riskFund, debt, incentiveBps)))
    else Done(Terms(LargeRiskFund, WithIncentive(debt, incentiveBps), MAX_BPS))
  }

  /// The pool's markets at this time.
  function MarketsOf(c: Config, s: State, pool: Pool): (markets: seq<MarketId>)
    requires pool in c.pools
    ensures |markets| <= |c.pools[pool]| && markets == c.pools[pool][..|markets|]
  {
    if Get(s.listed, pool) <= |c.pools[pool]| then c.pools[pool][..Get(s.listed, pool)] else c.pools[pool]
  }

  function StartFresh(c: Config, s: State, pool: Pool, prices: map<MarketId, nat>, basePrice: nat): Outcome<State> {
    var a := AuctionOf(s, pool);
    if pool !in c.pools then Revert(PoolNotRegistered)
    else if a.status == Started then Revert(AuctionOngoing)
    else
      var markets := MarketsOf(c, s, pool);
      var debt := PoolBadDebt(s, markets, prices);
      if debt < s.minimumPoolBadDebt then Revert(PoolBadDebtTooLow)
      else match AuctionTerms(MulTruncate(basePrice, Get(s.reserves, pool)), debt, s.incentiveBps)
        case Revert(e) => Revert(e)
        case Done(terms) =>
          Done(s.(auctions := s.auctions[pool :=
            Auction(s.now, terms.kind, Started, markets, terms.seized, Nobody, 0, 0, terms.startBidBps,
                    RecordedDebt(s, markets), a.bidAmount)]))
  }

  function StartAuction(c: Config, s: State, pool: Pool, prices: map<MarketId, nat>, basePrice: nat): Outcome<State> {
    if s.paused then Revert(AuctionsPaused) else StartFresh(c, s, pool, prices, basePrice)
  }

  predicate IsStale(s: State, a: Auction) {
    a.highestBidder == Nobody && s.now > a.start + s.waitForFirstBidder
  }

  function RestartAuction(c: Config, s: State, pool: Pool, prices: map<MarketId, nat>, basePrice: nat): Outcome<State> {
    var a := AuctionOf(s, pool);
    if s.paused then Revert(AuctionsPaused)
    else if a.status != Started then Revert(NoOngoingAuction)
    else if !IsStale(s, a) then Revert(AuctionNotStale)
    else StartFresh(c, s.(auctions := s.auctions[pool := a.(status := Ended)]), pool, prices, basePrice)
  }

  // ---------- bidding ----------

  predicate IsBetterBid(a: Auction, bps: nat) {
    match a.kind
    case LargePoolDebt =>
      (a.highestBidder != Nobody && bps > a.highestBidBps) || (a.highestBidder == Nobody && bps >= a.startBidBps)
    case LargeRiskFund =>
      (a.highestBidder != Nobody && bps < a.highestBidBps) || (a.highestBidder == Nobody && bps <= a.startBidBps)
  }

  function BidRejected(s: State, a: Auction, bps: nat, marker: nat): Outcome<()> {
    if a.start != marker then Revert(AuctionRestarted)
    else if a.status != Started then Revert(NoOngoingAuction)
    else if IsStale(s, a) then Revert(AuctionStale)
    else if bps == 0 || bps > MAX_BPS then Revert(BidOutOfRange)
    else if !IsBetterBid(a, bps) then Revert(BidNotBetter)
    else Done(())
  }

  /// What a bid of `bps` has to pay towards a market's debt.
  function BidPayment(kind: Kind, debt: nat, bps: nat): nat {
    if kind == LargePoolDebt then debt * bps / MAX_BPS else debt
  }

  /// What arrives of it.
  function Arrival(a: Auction, bps: nat, how: Conducts, mk: MarketId): nat {
    Arrives(BidPayment(a.kind, Get(a.marketDebt, mk), bps), ConductOf(how, mk).fee)
  }

  function Refund(s: State, a: Auction, token: Token, mk: MarketId, goesOut: bool): Outcome<State> {
    match a.highestBidder
    case Nobody => Done(s)
    case Bidder(account) => TransferOutOrTrackDebt(s, token, account, Get(a.bidAmount, mk), goesOut)
  }

  /// One market of a bid: the last bidder is refunded and the new one pays.
  function Pull(c: Config, s: State, pool: Pool, bps: nat, how: Conducts, mk: MarketId): Outcome<State> {
    var a, token, t := AuctionOf(s, pool), TokenOf(c, mk), ConductOf(how, mk);
    match Refund(s, a, token, mk, t.goesOut)
    case Revert(e) => Revert(e)
    case Done(s1) =>
      if !t.comesIn then Revert(TransferOutFailed)
      else
        var arrived := Arrival(a, bps, how, mk);
        Done(s1.(balance := Add(s1.balance, token, arrived),
                 auctions := s1.auctions[pool := a.(bidAmount := a.bidAmount[mk := arrived])]))
  }

  function PullAll(c: Config, s: State, pool: Pool, bps: nat, how: Conducts, markets: seq<MarketId>): Outcome<State>
    decreases |markets|
  {
    if |markets| == 0 then Done(s)
    else match Pull(c, s, pool, bps, how, markets[0])
      case Revert(e) => Revert(e)
      case Done(s') => PullAll(c, s', pool, bps, how, markets[1..])
  }

  function PlaceBid(c: Config, s: State, pool: Pool, bidder: Account, bps: nat, marker: nat, how: Conducts)
    : Outcome<State>
  {
    var a := AuctionOf(s, pool);
    match BidRejected(s, a, bps, marker)
    case Revert(e) => Revert(e)
    case Done(_) =>
      match PullAll(c, s, pool, bps, how, a.markets)
      case Revert(e) => Revert(e)
      case Done(s') =>
        Done(s'.(auctions := s'.auctions[pool :=
          AuctionOf(s', pool).(highestBidder := Bidder(bidder), highestBidBps := bps, highestBidBlock := s.now)]))
  }

  // ---------- closing ----------

  /// One market of a close: it is sent its bid and reports what arrived as recovered.
  function Deliver(c: Config, s: State, pool: Pool, how: Conducts, mk: MarketId): Outcome<State> {
    var token, t := TokenOf(c, mk), ConductOf(how, mk);
    var amount := Get(AuctionOf(s, pool).bidAmount, mk);
    if Get(s.balance, token) < amount || !t.goesOut then Revert(TransferOutFailed)
    else match BadDebtRecovered(MarketAt(s, mk), Arrives(amount, t.fee))
      case Revert(e) => Revert(e)
      case Done(m) =>
        Done(s.(balance := Sub(s.balance, token, amount), vTokens := s.vTokens[mk := m]))
  }

  function DeliverAll(c: Config, s: State, pool: Pool, how: Conducts, markets: seq<MarketId>): Outcome<State>
    decreases |markets|
  {
    if |markets| == 0 then Done(s)
    else match Deliver(c, s, pool, how, markets[0])
      case Revert(e) => Revert(e)
      case Done(s') => DeliverAll(c, s', pool, how, markets[1..])
  }

  /// The part of the risk fund the winner gets.
  function Payout(a: Auction): nat {
    if a.kind == LargePoolDebt then a.seizedRiskFund else a.seizedRiskFund * a.highestBidBps / MAX_BPS
  }

  /// The risk fund hands over the payout and the winner gets it.
  function PayWinner(c: Config, s: State, pool: Pool, winner: Account, payout: nat, t: Conduct): Outcome<State> {
    if payout > Get(s.reserves, pool) then Revert(InsufficientReserve)
    else if !t.comesIn then Revert(TransferOutFailed)
    else
      TransferOutOrTrackDebt(
        s.(reserves := s.reserves[pool := Get(s.reserves, pool) - payout],
           balance := Add(s.balance, c.base, Arrives(payout, t.fee))),
        c.base, winner, payout, t.goesOut)
  }

  predicate MayClose(s: State, a: Auction) {
    s.now > a.highestBidBlock + s.nextBidderLimit && a.highestBidder != Nobody
  }

  function CloseAuction(c: Config, s: State, pool: Pool, how: Conducts, t: Conduct): Outcome<State> {
    var a := AuctionOf(s, pool);
    if a.status != Started then Revert(NoOngoingAuction)
    else if !MayClose(s, a) then Revert(WaitingForNextBidder)
    else match DeliverAll(c, s.(auctions := s.auctions[pool := a.(status := Ended)]), pool, how, a.markets)
      case Revert(e) => Revert(e)
      case Done(s') => PayWinner(c, s', pool, a.highestBidder.account, Payout(a), t)
  }

  // ---------- runs ----------

  /// MarketCall is any call of a market but the one reserved to this contract.
  datatype Event =
    | Start(pool: Pool, prices: map<MarketId, nat>, basePrice: nat)
    | Restart(pool: Pool, prices: map<MarketId, nat>, basePrice: nat)
    | Bid(pool: Pool, bidder: Account, bps: nat, marker: nat, how: Conducts)
    | Close(pool: Pool, how: Conducts, payment: Conduct)
    | ClaimDebt(token: Token, user: Account, requested: Amount, goesOut: bool)
    | SetPaused(paused: bool)
    | SetIncentive(bps: nat)
    | SetMinimum(debt: nat)
    | SetNextBidderLimit(limit: nat)
    | SetWaitForFirstBidder(limit: nat)
    | MarketCall(mk: MarketId, settings: AllowedSettings, action: Action)
    | Elapse(blocks: nat)
    | Donate(token: Token, amount: nat)
    | SetReserve(pool: Pool, amount: nat)
    | ListMarket(pool: Pool)

  function Next(c: Config, s: State, e: Event): Outcome<State> {
    match e
    case Start(pool, prices, basePrice) => StartAuction(c, s, pool, prices, basePrice)
    case Restart(pool, prices, basePrice) => RestartAuction(c, s, pool, prices, basePrice)
    case Bid(pool, bidder, bps, marker, how) => PlaceBid(c, s, pool, bidder, bps, marker, how)
    case Close(pool, how, payment) => CloseAuction(c, s, pool, how, payment)
    case ClaimDebt(token, user, requested, goesOut) => ClaimTokenDebt(s, token, user, requested, goesOut)
    case SetPaused(paused) => if paused == s.paused then Revert(if paused then AuctionsPaused else AuctionsNotPaused) else Done(s.(paused := paused))
    case SetIncentive(bps) => if bps == 0 then Revert(ZeroNotAllowed) else Done(s.(incentiveBps := bps))
    case SetMinimum(debt) => Done(s.(minimumPoolBadDebt := debt))
    case SetNextBidderLimit(limit) =>
      if limit == 0 then Revert(ZeroNotAllowed) else Done(s.(nextBidderLimit := limit))
    case SetWaitForFirstBidder(limit) => Done(s.(waitForFirstBidder := limit))
    case MarketCall(mk, settings, action) =>
      if action.Recover? then Revert(Unauthorized)
      else
        (match Apply(MarketAt(s, mk), Step(settings, s.now, action))
         case Revert(e) => Revert(e)
         case Done(m) => Done(s.(vTokens := s.vTokens[mk := m])))
    case Elapse(blocks) => Done(s.(now := s.now + blocks))
    case Donate(token, amount) => Done(s.(balance := Add(s.balance, token, amount)))
    case SetReserve(pool, amount) => Done(s.(reserves := s.reserves[pool := amount]))
    case ListMarket(pool) =>
      if pool !in c.pools || |c.pools[pool]| <= Get(s.listed, pool) then Revert(PoolNotRegistered)
      else Done(s.(listed := s.listed[pool := Get(s.listed, pool) + 1]))
  }

  /// A reverted call changes nothing.
  function After(c: Config, s: State, e: Event): State {
    match Next(c, s, e)
    case Done(s') => s'
    case Revert(_) => s
  }

  function Run(c: Config, s: State, events: seq<Event>): State
    decreases |events|
  {
    if |events| == 0 then s else Run(c, After(c, s, events[0]), events[1..])
  }

  function Initial(now: nat, minimum: nat, nextBidderLimit: nat, wait: nat, incentiveBps: nat, listed: map<Pool, nat>): State {
    State(now, false, incentiveBps, minimum, nextBidderLimit, wait, map[], map[], map[], map[], map[], map[], map[], listed)
  }
}
