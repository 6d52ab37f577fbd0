/** A rewards distributor over every run of a whole pool: suppliers and borrowers of all markets, who are all paid out
    of one balance. What all of them accrue and are paid together is at most what all sides released and a stated
    excess of the borrow sides; and a claim is paid exactly when the balance covers it. */
module RewardRuns {
  import opened FixedPoint
  import opened Totals
  import opened Outcomes
  import opened Ledger
  import opened ExchangeRate
  import opened Borrowers
  import opened Rewards
  import opened BorrowerRewards
  import opened Distributor
  import SupplierRewards

  const DOUBLE: real := SupplierRewards.DOUBLE

  datatype Kind = Suppliers | Borrowing

  /// `accruals` counts each market's interest accruals. `paid`, `released` and `excess` keep what the distributor has
  /// paid, what its index updates released, and by how much, times 1e36, shares may exceed normalised totals.
  datatype World = World(
    now: nat,
    pool: Pool,
    accruals: map<MarketId, nat>,
    books: Books,
    paid: map<User, nat>,
    released: nat,
    excess: nat)

  // ---------- the two sides alike ----------

  function SideOf(b: Books, k: Kind): Side {
    if k == Suppliers then b.supply else b.borrow
  }

  function WithSide(b: Books, k: Kind, side: Side): Books {
    if k == Suppliers then b.(supply := side) else b.(borrow := side)
  }

  /// The units of one user, and of all as the contract takes them.
  function UnitsOf(m: LiveMarket, k: Kind, u: User): nat {
    if k == Suppliers then Get(m.accountTokens, u) else Units(m, u)
  }

  function TotalOf(m: LiveMarket, k: Kind): nat {
    if k == Suppliers then m.totalSupply else NormalisedTotal(m)
  }

  /// The exact shares, and by how much they may add up to more than the contract's total.
  ghost function SharesOf(m: LiveMarket, k: Kind): map<User, real> {
    if k == Suppliers then Reals(m.accountTokens) else Shares(m)
  }

  function Over(k: Kind, accruals: nat): nat {
    if k == Suppliers then 0 else accruals + 1
  }

  function PendingOf(side: Side, v: MarketId, now: nat): nat {
    var st := side.State(v);
    if RewardedUntil(st, now) < st.block then 0 else RewardedUntil(st, now) - st.block
  }

  function IndexGrowthOf(side: Side, v: MarketId, now: nat, total: nat): nat {
    if PendingOf(side, v, now) > 0 && Get(side.speeds, v) > 0 then IndexGrowth(PendingOf(side, v, now), Get(side.speeds, v), total)
    else 0
  }

  /// How far the index has moved since the user was last settled.
  function Since(side: Side, v: MarketId, u: User): nat {
    var from := EffectiveIndex(Get(side.indices, (v, u)), side.State(v).index);
    if side.State(v).index < from then 0 else side.State(v).index - from
  }

  // ---------- what the contracts do ----------

  function Update(w: World, k: Kind, v: MarketId): (w': World)
    requires v in w.pool
    ensures w'.pool == w.pool && w'.now == w.now && w'.accruals == w.accruals && w'.paid == w.paid
    ensures w'.books.accrued == w.books.accrued && w'.books.held == w.books.held
  {
    var side, total := SideOf(w.books, k), TotalOf(w.pool[v], k);
    match side.Updated(v, w.now, total)
    case Revert(_) => w
    case Done(side') =>
      w.(books := WithSide(w.books, k, side'),
         released := w.released + PendingOf(side, v, w.now) * Get(side.speeds, v),
         excess := w.excess + Over(k, Get(w.accruals, v)) * IndexGrowthOf(side, v, w.now, total))
  }

  function Settle(w: World, k: Kind, v: MarketId, u: User): (w': World)
    requires v in w.pool
    ensures w'.pool == w.pool && w'.now == w.now && w'.accruals == w.accruals && w'.paid == w.paid
    ensures w'.released == w.released && w'.excess == w.excess && w'.books.held == w.books.held
  {
    var side := SideOf(w.books, k);
    match Settlement(side.State(v), Get(side.indices, (v, u)), UnitsOf(w.pool[v], k, u))
    case Revert(_) => w
    case Done(delta) =>
      w.(books := WithSide(w.books, k, side.Settled(v, u)).(accrued := w.books.accrued[u := Get(w.books.accrued, u) + delta]))
  }

  function SettleEach(w: World, k: Kind, v: MarketId, us: seq<User>): (w': World)
    requires v in w.pool
    ensures w'.pool == w.pool && w'.now == w.now && w'.paid == w.paid && w'.books.held == w.books.held
    ensures w'.released == w.released && w'.excess == w.excess
    decreases |us|
  {
    if |us| == 0 then w else SettleEach(Settle(w, k, v, us[0]), k, v, us[1..])
  }

  function SettleBoth(w: World, v: MarketId, u: User): (w': World)
    requires v in w.pool
    ensures w'.pool == w.pool && w'.now == w.now && w'.paid == w.paid && w'.books.held == w.books.held
  {
    Settle(Update(Settle(Update(w, Borrowing, v), Borrowing, v, u), Suppliers, v), Suppliers, v, u)
  }

  function SettleAll(w: World, vs: seq<MarketId>, u: User): (w': World)
    requires forall v :: v in vs ==> v in w.pool
    ensures w'.pool == w.pool && w'.now == w.now && w'.paid == w.paid && w'.books.held == w.books.held
    decreases |vs|
  {
    if |vs| == 0 then w else SettleAll(SettleBoth(w, vs[0], u), vs[1..], u)
  }

  /// All that is accrued, or nothing.
  function Granted(w: World, u: User): World {
    var amount := Get(w.books.accrued, u);
    w.(books := Grant(w.books, u), paid := if 0 < amount <= w.books.held then w.paid[u := Get(w.paid, u) + amount] else w.paid)
  }

  function KindFor(action: Action): Kind {
    if action.Borrow? || action.Repay? || action.Heal? then Borrowing else Suppliers
  }

  /// Whom a call's hooks settle before the balances change.
  function SettledFor(action: Action): seq<User> {
    match action
    case Mint(minter, _, _) => [minter]
    case Redeem(redeemer, _, _) => [redeemer]
    case Transfer(src, dst, _) => [src, dst]
    case SeizeCollateral(liquidator, borrower, _) => [borrower, liquidator]
    case Borrow(borrower, _) => [borrower]
    case Repay(borrower, _, _) => [borrower]
    case Heal(borrower, amount, _) => if amount != 0 then [borrower] else []
    case _ => []
  }

  /// Of borrowers, a call settles whom the single-market model says.
  lemma SettlesBorrowers(action: Action)
    ensures KindFor(action) == Borrowing ==> (set u | u in SettledFor(action)) == HookFor(action)
    ensures KindFor(action) == Suppliers ==> HookFor(action) == {}
  {
  }

  function AfterHooks(w: World, v: MarketId, action: Action): (w': World)
    requires v in w.pool
    ensures w'.pool == w.pool
  {
    if SettledFor(action) == [] then w else SettleEach(Update(w, KindFor(action), v), KindFor(action), v, SettledFor(action))
  }

  function Called(w: World, v: MarketId, settings: AllowedSettings, action: Action): World
    requires v in w.pool
  {
    var step := Step(settings, w.now, action);
    if Apply(w.pool[v], step).Revert? then w
    else
      AfterHooks(w, v, action).(pool := w.pool[v := MarketAfter(w.pool[v], step)],
                            accruals := w.accruals[v := Get(w.accruals, v) + Accruals1(w.pool[v], step)])
  }

  lemma PastIsLive(past: seq<Step>)
    ensures ExchangeRate.Inv(Ledger.Run(NewMarket(0), past))
    ensures DebtWithin(Ledger.Run(NewMarket(0), past), Accruals(NewMarket(0), past))
  {
    NewMarketOwesNothing(0);
    PastFrom(NewMarket(0), past);
  }

  lemma PastFrom(m: Market, past: seq<Step>)
    requires ExchangeRate.Inv(m) && DebtWithin(m, 0)
    ensures ExchangeRate.Inv(Ledger.Run(m, past)) && DebtWithin(Ledger.Run(m, past), Accruals(m, past))
  {
    DebtRun(m, past, 0);
  }

  function Added(w: World, v: MarketId, m: LiveMarket, accruals: nat): World {
    var supply, borrow := w.books.supply, w.books.borrow;
    w.(pool := w.pool[v := m],
       accruals := w.accruals[v := accruals],
       books := w.books.(supply := supply.(states := supply.states[v := Started(supply.State(v), w.now)]),
                         borrow := borrow.(states := borrow.states[v := Started(borrow.State(v), w.now)])))
  }

  /// A market with any past is added to the distributor.
  function Supported(w: World, v: MarketId, past: seq<Step>): World {
    PastIsLive(past);
    Added(w, v, Ledger.Run(NewMarket(0), past), Accruals(NewMarket(0), past))
  }

  function SpeedSet(w: World, k: Kind, v: MarketId, speed: nat): (w': World)
    requires v in w.pool
    ensures w'.pool == w.pool
  {
    if Get(SideOf(w.books, k).speeds, v) == speed then w
    else
      var w1 := Update(w, k, v);
      w1.(books := WithSide(w1.books, k, SideOf(w1.books, k).(speeds := SideOf(w1.books, k).speeds[v := speed])))
  }

  function WithStates(w: World, v: MarketId, s: RewardState, b: RewardState): World {
    w.(books := w.books.(supply := w.books.supply.(states := w.books.supply.states[v := s]),
                         borrow := w.books.borrow.(states := w.books.borrow.states[v := b])))
  }

  function LastSet(w: World, v: MarketId, supplyLast: nat, borrowLast: nat): World {
    var supply, borrow := w.books.supply, w.books.borrow;
    var s, b := Rewards.SetLastRewardingBlock(supply.State(v), w.now, supplyLast),
                Rewards.SetLastRewardingBlock(borrow.State(v), w.now, borrowLast);
    if s.Revert? || b.Revert? then w
    else WithStates(w, v, s.value, b.value)
  }

  datatype Event =
    | Advance(blocks: nat)
    | Support(market: MarketId, past: seq<Step>)
    | Call(market: MarketId, settings: AllowedSettings, action: Action)
    | Claim(holder: User, markets: seq<MarketId>)
    | SetSpeeds(market: MarketId, supplySpeed: nat, borrowSpeed: nat)
    | SetLast(market: MarketId, supplyLast: nat, borrowLast: nat)
    | Fund(amount: nat)

  /// A call that is about a market not listed reverts.
  function Next(w: World, e: Event): World {
    match e
    case Advance(blocks) => w.(now := w.now + blocks)
    case Support(v, past) => if v in w.pool then w else Supported(w, v, past)
    case Call(v, settings, action) => if v in w.pool then Called(w, v, settings, action) else w
    case Claim(u, vs) => if forall v :: v in vs ==> v in w.pool then Granted(SettleAll(w, vs, u), u) else w
    case SetSpeeds(v, supplySpeed, borrowSpeed) =>
      if v in w.pool then SpeedSet(SpeedSet(w, Suppliers, v, supplySpeed), Borrowing, v, borrowSpeed) else w
    case SetLast(v, supplyLast, borrowLast) => if v in w.pool then LastSet(w, v, supplyLast, borrowLast) else w
    case Fund(amount) => w.(books := w.books.(held := w.books.held + amount))
  }

  function Run(w: World, events: seq<Event>): World
    decreases |events|
  {
    if |events| == 0 then w else Run(Next(w, events[0]), events[1..])
  }

  const NO_BOOKS: Books := Books(Side(map[], map[], map[]), Side(map[], map[], map[]), map[], 0)

  function Deployed(now: nat): World {
    World(now, map[], map[], NO_BOOKS, map[], 0, 0)
  }

  // ---------- the invariant ----------

  ghost predicate SideInv(side: Side, v: MarketId, now: nat) {
    && v in side.states
    && INITIAL_INDEX <= side.State(v).index
    && side.State(v).block <= RewardedUntil(side.State(v), now)
    && forall u :: IndexInRange(side, v, u)
  }

  predicate IndexInRange(side: Side, v: MarketId, u: User) {
    && Get(side.indices, (v, u)) <= side.State(v).index
    && (Get(side.indices, (v, u)) == 0 || INITIAL_INDEX <= Get(side.indices, (v, u)))
  }

  ghost predicate Untouched(side: Side, v: MarketId) {
    v !in side.states && forall u :: Get(side.indices, (v, u)) == 0
  }

  ghost predicate MarketHolds(w: World, v: MarketId) {
    if v in w.pool then
      && ExchangeRate.Inv(w.pool[v]) && DebtWithin(w.pool[v], Get(w.accruals, v))
      && SideInv(w.books.supply, v, w.now) && SideInv(w.books.borrow, v, w.now)
    else Untouched(w.books.supply, v) && Untouched(w.books.borrow, v)
  }

  ghost predicate Holds(w: World) {
    forall v :: MarketHolds(w, v)
  }

  /// The exact worth, times 1e36, of what each user is not settled for on one side of a market.
  ghost function UnsettledWorth(shares: map<User, real>, side: Side, v: MarketId): map<User, real> {
    map u | u in shares :: Times(shares[u], Since(side, v, u) as real)
  }

  ghost function Outstanding(w: World, v: MarketId, k: Kind): real
    requires v in w.pool
  {
    Total(UnsettledWorth(SharesOf(w.pool[v], k), SideOf(w.books, k), v))
  }

  ghost function OfMarket(w: World, v: MarketId): real
    requires v in w.pool
  {
    Outstanding(w, v, Suppliers) + Outstanding(w, v, Borrowing)
  }

  ghost function OfMarkets(w: World): map<MarketId, real> {
    map v | v in w.pool :: OfMarket(w, v)
  }

  /// What all users have accrued and been paid.
  ghost function Received(w: World): real {
    Total(Reals(w.books.accrued)) + Total(Reals(w.paid))
  }

  /// With what they are not settled for yet, times 1e36.
  ghost function Due(w: World): real {
    Times(DOUBLE, Received(w)) + Total(OfMarkets(w))
  }

  ghost function Ceiling(w: World): real {
    Times(DOUBLE, w.released as real) + w.excess as real
  }

  /// What a step may do: the invariant stays, and what is due grows by no more than what may be.
  ghost predicate Keeps(w: World, w': World) {
    Holds(w') && Due(w') - Due(w) <= Ceiling(w') - Ceiling(w)
  }

  lemma KeepsBoth(w: World, w1: World, w2: World)
    requires Keeps(w, w1) && Keeps(w1, w2)
    ensures Keeps(w, w2)
  {
  }
}
