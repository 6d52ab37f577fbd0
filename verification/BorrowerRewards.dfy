/** Rewards for borrowers. A borrower's units are the balance divided by the borrow index, so that
    interest does not change them; both divisions truncate, and so does totalBorrows. Over every run of
    the market and the distributor, this module compares what borrowers receive with exact shares of
    every index update, and all of it with what was released. */
module BorrowerRewards {
  import opened FixedPoint
  import opened Totals
  import opened Outcomes
  import opened Ledger
  import opened ExchangeRate
  import opened Borrowers
  import opened Rewards
  import opened SupplierRewards

  /// A market that has been initialised.
  type LiveMarket = m: Market | 0 < m.borrowIndex witness NewMarket(0)

  /// `received` is what the distributor has accrued to each borrower so far, claimed or not; `accruals`
  /// counts the interest accruals of the market.
  datatype BorrowWorld = BorrowWorld(
    now: nat,
    market: LiveMarket,
    accruals: nat,
    state: RewardState,
    speed: nat,
    borrowerIndex: map<User, nat>,
    received: map<User, nat>)

  datatype BorrowEvent =
    | Advance(blocks: nat)
    | Call(settings: AllowedSettings, action: Action)
    | Touch
    | ClaimBorrow(holder: User)
    | SetBorrowSpeed(speed: nat)
    | SetBorrowLast(block: nat)

  // ---------- what the contracts do ----------

  function NormalisedTotal(m: LiveMarket): nat {
    DivTruncate(m.totalBorrows, m.borrowIndex)
  }

  function Units(m: LiveMarket, u: User): nat {
    DivTruncate(Balance(m, u), m.borrowIndex)
  }

  function IndexUpdated(w: BorrowWorld): BorrowWorld {
    match UpdateIndex(w.state, w.speed, w.now, NormalisedTotal(w.market))
    case Done(st) => w.(state := st)
    case Revert(_) => w
  }

  function BorrowerSettled(w: BorrowWorld, u: User): BorrowWorld {
    match Settlement(w.state, Get(w.borrowerIndex, u), Units(w.market, u))
    case Done(delta) =>
      w.(borrowerIndex := w.borrowerIndex[u := w.state.index],
         received := w.received[u := Get(w.received, u) + delta])
    case Revert(_) => w
  }

  /// Whose rewards the call's hooks settle first: a heal that repays nothing has no hook.
  function HookFor(action: Action): set<User> {
    match action
    case Borrow(borrower, _) => {borrower}
    case Repay(borrower, _, _) => {borrower}
    case Heal(borrower, amount, _) => if amount != 0 then {borrower} else {}
    case _ => {}
  }

  lemma IndexNeverFalls(m: Market, step: Step)
    ensures m.borrowIndex <= After(m, step).borrowIndex
  {
    if step.action.Accrue? {
      AccrualRaisesIndex(step.settings, m, step.now, step.action.rate);
    }
  }

  lemma AccrualRaisesIndex(s: Settings, m: Market, now: nat, rate: nat)
    ensures AccrueInterest(s, m, now, rate).Done? ==>
      m.borrowIndex <= AccrueInterest(s, m, now, rate).value.borrowIndex
  {
  }

  function MarketAfter(m: LiveMarket, step: Step): LiveMarket {
    IndexNeverFalls(m, step);
    After(m, step)
  }

  function Hooked(w: BorrowWorld, action: Action): BorrowWorld {
    if HookFor(action) == {} then w else BorrowerSettled(IndexUpdated(w), action.borrower)
  }

  function BorrowNext(w: BorrowWorld, e: BorrowEvent): BorrowWorld {
    match e
    case Advance(blocks) => w.(now := w.now + blocks)
    case Call(settings, action) =>
      var step := Step(settings, w.now, action);
      if Apply(w.market, step).Revert? then w
      else
        Hooked(w, action).(market := MarketAfter(w.market, step), accruals := w.accruals + Accruals1(w.market, step))
    case Touch => IndexUpdated(w)
    case ClaimBorrow(holder) => BorrowerSettled(IndexUpdated(w), holder)
    case SetBorrowSpeed(speed) => if speed == w.speed then w else IndexUpdated(w).(speed := speed)
    case SetBorrowLast(block) =>
      match SetLastRewardingBlock(w.state, w.now, block)
      case Done(st) => w.(state := st)
      case Revert(_) => w
  }

  // ---------- exact shares ----------

  /// An exact distributor: each index update credits each borrower at once with the exact share, times
  /// 1e36. `lost` is what truncation and unhooked heals take from each borrower; `released` what the
  /// updates handed out; `excess` how far the exact shares may add up to more than the normalised total.
  datatype Exact = Exact(earned: map<User, real>, lost: map<User, real>, released: nat, excess: real)

  ghost function Shares(m: LiveMarket): map<User, real> {
    Scaled(IndexShares(m), ONE)
  }

  ghost function Share(m: LiveMarket, u: User): real {
    Times(ONE, At(IndexShares(m), u))
  }

  function Growth(w: BorrowWorld): nat {
    var index := IndexUpdated(w).state.index;
    if index < w.state.index then 0 else index - w.state.index
  }

  /// How far the index has moved since the user was last settled.
  ghost function Unsettled(w: BorrowWorld, u: User): real {
    (w.state.index - EffectiveIndex(Get(w.borrowerIndex, u), w.state.index)) as real
  }

  /// One unit of reward, and two units of normalised balance.
  ghost function SettlementLoss(w: BorrowWorld, u: User): real {
    DOUBLE + Times(2.0, Unsettled(w, u))
  }

  ghost function ExactUpdate(w: BorrowWorld, g: Exact): Exact {
    g.(earned := Plus(g.earned, Scaled(Shares(w.market), Growth(w) as real)),
       released := g.released
                   + (if RewardedUntil(w.state, w.now) < w.state.block then 0
                      else (RewardedUntil(w.state, w.now) - w.state.block) * w.speed),
       excess := g.excess + Times(w.accruals as real + 1.0, Growth(w) as real))
  }

  ghost function Lose(g: Exact, u: User, amount: real): Exact {
    g.(lost := g.lost[u := At(g.lost, u) + amount])
  }

  ghost function ExactNext(w: BorrowWorld, g: Exact, e: BorrowEvent): Exact {
    match e
    case Call(settings, action) =>
      if Apply(w.market, Step(settings, w.now, action)).Revert? then g
      else if HookFor(action) != {} then
        Lose(ExactUpdate(w, g), action.borrower, SettlementLoss(IndexUpdated(w), action.borrower))
      else if action.Heal? then
        Lose(g, action.borrower, Times(Share(w.market, action.borrower), Unsettled(w, action.borrower)))
      else g
    case Touch => ExactUpdate(w, g)
    case ClaimBorrow(holder) => Lose(ExactUpdate(w, g), holder, SettlementLoss(IndexUpdated(w), holder))
    case SetBorrowSpeed(speed) => if speed == w.speed then g else ExactUpdate(w, g)
    case _ => g
  }

  // ---------- the relation ----------

  ghost predicate IndexInv(w: BorrowWorld) {
    && INITIAL_INDEX <= w.state.index
    && w.state.block <= RewardedUntil(w.state, w.now)
    && forall u :: Get(w.borrowerIndex, u) <= w.state.index
                && (Get(w.borrowerIndex, u) == 0 || INITIAL_INDEX <= Get(w.borrowerIndex, u))
  }

  ghost predicate BorrowInv(w: BorrowWorld) {
    && IndexInv(w)
    && ExchangeRate.Inv(w.market)
    && DebtWithin(w.market, w.accruals)
  }

  /// Received, and the exact worth of what is not settled yet, times 1e36.
  ghost function BorrowDue(w: BorrowWorld, u: User): real {
    Times(DOUBLE, Get(w.received, u) as real) + Times(Share(w.market, u), Unsettled(w, u))
  }

  ghost predicate Tracks(w: BorrowWorld, g: Exact, u: User) {
    BorrowDue(w, u) <= At(g.earned, u) <= BorrowDue(w, u) + At(g.lost, u)
  }

  ghost predicate BorrowRefines(w: BorrowWorld, g: Exact) {
    && BorrowInv(w)
    && (forall u :: Tracks(w, g, u))
    && Total(g.earned) <= Times(DOUBLE, g.released as real) + g.excess
  }

  // ---------- one step at a time ----------

  /// A user's truncated units are the exact share less at most two.
  lemma UnitsBound(m: LiveMarket, u: User)
    requires ExchangeRate.Inv(m)
    ensures Units(m, u) as real <= Share(m, u) <= Units(m, u) as real + 2.0
  {
    BalanceIsFloor(m, u);
    FloorOfQuotient(Balance(m, u) * EXP_SCALE, m.borrowIndex);
    UnitsArithmetic(Balance(m, u), m.borrowIndex, At(IndexShares(m), u));
  }

  lemma UnitsArithmetic(balance: nat, index: nat, share: real)
    requires EXP_SCALE <= index
    requires balance as real <= Times(share, index as real) < balance as real + 1.0
    ensures var q := (balance * EXP_SCALE) as real / index as real; q <= Times(ONE, share) <= q + 1.0
  {
    var b, i := balance as real, index as real;
    var q := (balance * EXP_SCALE) as real / i;
    assert (balance * EXP_SCALE) as real == b * ONE;
    RealDivBounds(b * ONE, i);
    assert (ONE * share) * i == ONE * (share * i);
    RealMulLe(b, share * i, ONE);
    RealMulCancel(q, ONE * share, i);
    RealMulLe(share * i, b + 1.0, ONE);
    assert (q + 1.0) * i == q * i + i;
    RealMulCancel(ONE * share, q + 1.0, i);
  }

  lemma UpdatedState(w: BorrowWorld)
    requires IndexInv(w)
    ensures var w' := IndexUpdated(w);
      && IndexInv(w') && w' == w.(state := w'.state)
      && w'.state.index == w.state.index + Growth(w)
      && UpdateIndex(w.state, w.speed, w.now, NormalisedTotal(w.market)).Done?
  {
    var total := NormalisedTotal(w.market);
    var until := RewardedUntil(w.state, w.now);
    var growth := IndexGrowth(until - w.state.block, w.speed, total);
  }

  /// An index update adds to what is due the share of its growth.
  lemma UpdateDue(w: BorrowWorld, u: User)
    requires IndexInv(w)
    ensures IndexInv(IndexUpdated(w))
    ensures BorrowDue(IndexUpdated(w), u) == BorrowDue(w, u) + Times(Share(w.market, u), Growth(w) as real)
  {
    UpdatedState(w);
    TimesPlus(Share(w.market, u), Unsettled(w, u), Growth(w) as real);
  }

  lemma UpdateTracks(w: BorrowWorld, g: Exact, u: User)
    requires IndexInv(w) && Tracks(w, g, u)
    ensures IndexInv(IndexUpdated(w)) && Tracks(IndexUpdated(w), ExactUpdate(w, g), u)
  {
    UpdateDue(w, u);
    ScaledShares(w.market, u, Growth(w) as real);
  }

  lemma ScaledShares(m: LiveMarket, u: User, growth: real)
    ensures At(Scaled(Shares(m), growth), u) == Times(Share(m, u), growth)
  {
    assert Times(growth, Share(m, u)) == Times(Share(m, u), growth);
  }

  /// What the settlement adds is at most the exact worth, and short of it by at most the loss.
  lemma SettledAmount(received: nat, units: nat, share: real, growth: nat)
    requires units as real <= share <= units as real + 2.0
    ensures var after := received + units * growth / DOUBLE_SCALE;
      Times(DOUBLE, after as real)
        <= Times(DOUBLE, received as real) + Times(share, growth as real)
        <= Times(DOUBLE, after as real) + DOUBLE + Times(2.0, growth as real)
  {
    SettleArithmetic(received, units, growth);
    UpToTwoUnits(units as real, share, growth as real);
  }

  lemma UpToTwoUnits(x: real, share: real, t: real)
    requires x <= share <= x + 2.0 && 0.0 <= t
    ensures Times(x, t) <= Times(share, t) <= Times(x, t) + Times(2.0, t)
  {
    TimesMonotone(t, x, share);
    TimesMonotone(t, share, x + 2.0);
    TimesPlus(t, x, 2.0);
    TimesSwap(t, x);
    TimesSwap(t, share);
    TimesSwap(t, 2.0);
  }

  lemma SettledIndex(w: BorrowWorld, u: User)
    requires IndexInv(w)
    ensures var w' := BorrowerSettled(w, u);
      && IndexInv(w') && w'.state == w.state && w'.market == w.market && w'.accruals == w.accruals
      && w'.now == w.now && w'.speed == w.speed
      && Unsettled(w', u) == 0.0
      && (forall v | v != u :: Unsettled(w', v) == Unsettled(w, v) && Get(w'.received, v) == Get(w.received, v))
  {
    var w' := BorrowerSettled(w, u);
    forall v
      ensures Get(w'.borrowerIndex, v) == if v == u then w.state.index else Get(w.borrowerIndex, v)
    {
    }
  }

  /// Settling a user takes at most the settlement loss from what is due, and nothing from anybody else.
  lemma SettleDue(w: BorrowWorld, u: User, v: User)
    requires IndexInv(w) && ExchangeRate.Inv(w.market)
    ensures var w' := BorrowerSettled(w, u);
      && IndexInv(w')
      && BorrowDue(w', v) <= BorrowDue(w, v)
      && BorrowDue(w, v) <= BorrowDue(w', v) + if v == u then SettlementLoss(w, u) else 0.0
  {
    SettledIndex(w, u);
    if v == u {
      var growth := w.state.index - EffectiveIndex(Get(w.borrowerIndex, u), w.state.index);
      UnitsBound(w.market, u);
      SettledAmount(Get(w.received, u), Units(w.market, u), Share(w.market, u), growth);
      TimesZero(Share(w.market, u));
    }
  }

  lemma SettleTracks(w: BorrowWorld, g: Exact, u: User, v: User)
    requires IndexInv(w) && ExchangeRate.Inv(w.market) && Tracks(w, g, v)
    ensures IndexInv(BorrowerSettled(w, u))
    ensures Tracks(BorrowerSettled(w, u), Lose(g, u, SettlementLoss(w, u)), v)
  {
    SettleDue(w, u, v);
  }

  /// What a market call does to the shares: at most one borrower's changes.
  lemma SharesAfterCall(m: LiveMarket, step: Step, u: User)
    requires Apply(m, step).Done?
    requires step.action.Borrow? || step.action.Repay? || step.action.Heal? ==> u != step.action.borrower
    ensures Share(MarketAfter(m, step), u) == Share(m, u)
  {
    var m' := After(m, step);
    if step.action.Borrow? || step.action.Repay? || step.action.Heal? {
      var b := step.action.borrower;
      assert m'.accountBorrows == m.accountBorrows[b := m'.accountBorrows[b]];
    } else {
      assert m'.accountBorrows == m.accountBorrows;
    }
  }

  lemma HealedShare(m: LiveMarket, step: Step)
    requires Apply(m, step).Done? && step.action.Heal?
    ensures Share(MarketAfter(m, step), step.action.borrower) == 0.0
  {
    TimesZero(ONE);
  }

  /// A market call keeps the relation for users whose share it leaves alone or who are settled.
  lemma CallDue(w: BorrowWorld, w': BorrowWorld, u: User)
    requires w' == w.(market := w'.market, accruals := w'.accruals)
    requires Share(w'.market, u) == Share(w.market, u) || Unsettled(w, u) == 0.0
    ensures BorrowDue(w', u) == BorrowDue(w, u)
  {
    TimesZero(Share(w.market, u));
    TimesZero(Share(w'.market, u));
  }

  lemma CallTracks(w: BorrowWorld, w': BorrowWorld, g: Exact, u: User)
    requires Tracks(w, g, u)
    requires w' == w.(market := w'.market, accruals := w'.accruals)
    requires Share(w'.market, u) == Share(w.market, u) || Unsettled(w, u) == 0.0
    ensures Tracks(w', g, u)
  {
    CallDue(w, w', u);
  }

  lemma HookedCallTracks(w: BorrowWorld, g: Exact, step: Step, u: User)
    requires BorrowInv(w) && Tracks(w, g, u) && step.now == w.now
    requires Apply(w.market, step).Done? && HookFor(step.action) != {}
    ensures var e := Call(step.settings, step.action); Tracks(BorrowNext(w, e), ExactNext(w, g, e), u)
  {
    var e := Call(step.settings, step.action);
    var b, updated := step.action.borrower, IndexUpdated(w);
    UpdatedState(w);
    UpdateTracks(w, g, u);
    SettleTracks(updated, ExactUpdate(w, g), b, u);
    SettledIndex(updated, b);
    if u != b {
      SharesAfterCall(w.market, step, u);
    }
    CallTracks(BorrowerSettled(updated, b), BorrowNext(w, e), ExactNext(w, g, e), u);
  }

  lemma UnhookedCallTracks(w: BorrowWorld, g: Exact, step: Step, u: User)
    requires BorrowInv(w) && Tracks(w, g, u) && step.now == w.now
    requires Apply(w.market, step).Done? && HookFor(step.action) == {}
    ensures var e := Call(step.settings, step.action); Tracks(BorrowNext(w, e), ExactNext(w, g, e), u)
  {
    var e := Call(step.settings, step.action);
    if step.action.Heal? && u == step.action.borrower {
      HealedShare(w.market, step);
      assert Times(0.0, Unsettled(w, u)) == 0.0;
      TimesNonNegative(w, u);
    } else {
      SharesAfterCall(w.market, step, u);
      CallTracks(w, BorrowNext(w, e), g, u);
    }
  }

  lemma TimesNonNegative(w: BorrowWorld, u: User)
    requires BorrowInv(w)
    ensures 0.0 <= Times(Share(w.market, u), Unsettled(w, u))
  {
    UnitsBound(w.market, u);
    RealMulLe(0.0, Share(w.market, u), Unsettled(w, u));
  }

  lemma NextTracks(w: BorrowWorld, g: Exact, e: BorrowEvent, u: User)
    requires BorrowInv(w) && Tracks(w, g, u)
    ensures Tracks(BorrowNext(w, e), ExactNext(w, g, e), u)
  {
    UpdatedState(w);
    UpdateTracks(w, g, u);
    match e
    case Call(settings, action) =>
      var step := Step(settings, w.now, action);
      if Apply(w.market, step).Done? {
        if HookFor(action) == {} { UnhookedCallTracks(w, g, step, u); } else { HookedCallTracks(w, g, step, u); }
      }
    case ClaimBorrow(holder) => SettleTracks(IndexUpdated(w), ExactUpdate(w, g), holder, u);
    case _ =>
  }

  lemma CallInv(w: BorrowWorld, settings: AllowedSettings, action: Action)
    requires BorrowInv(w)
    ensures BorrowInv(BorrowNext(w, Call(settings, action)))
  {
    var step := Step(settings, w.now, action);
    if Apply(w.market, step).Done? {
      MarketInv(w.market, step, w.accruals);
      HookInv(w, action);
      HookKeepsIndex(w, action, MarketAfter(w.market, step), w.accruals + Accruals1(w.market, step));
    }
  }

  lemma MarketInv(m: LiveMarket, step: Step, accruals: nat)
    requires ExchangeRate.Inv(m) && DebtWithin(m, accruals)
    ensures ExchangeRate.Inv(MarketAfter(m, step)) && DebtWithin(MarketAfter(m, step), accruals + Accruals1(m, step))
  {
    StepKeeps(m, step);
    DebtStep(m, step, accruals);
  }

  lemma HookInv(w: BorrowWorld, action: Action)
    requires IndexInv(w)
    ensures IndexInv(Hooked(w, action))
  {
    if HookFor(action) != {} {
      UpdatedState(w);
      SettledIndex(IndexUpdated(w), action.borrower);
    }
  }

  lemma HookKeepsIndex(w: BorrowWorld, action: Action, m: LiveMarket, accruals: nat)
    requires IndexInv(Hooked(w, action))
    ensures IndexInv(Hooked(w, action).(market := m, accruals := accruals))
  {
  }

  lemma NextInv(w: BorrowWorld, e: BorrowEvent)
    requires BorrowInv(w)
    ensures BorrowInv(BorrowNext(w, e))
  {
    UpdatedState(w);
    match e
    case Call(settings, action) => CallInv(w, settings, action);
    case ClaimBorrow(holder) => SettledIndex(IndexUpdated(w), holder);
    case _ =>
  }

  // ---------- all borrowers together ----------

  /// The exact shares exceed the normalised total by at most one for each accrual, and one.
  lemma SharesTotal(m: LiveMarket, accruals: nat)
    requires DebtWithin(m, accruals)
    ensures Total(Shares(m)) <= NormalisedTotal(m) as real + accruals as real + 1.0
  {
    TotalScaled(IndexShares(m), ONE);
    FloorOfQuotient(m.totalBorrows * EXP_SCALE, m.borrowIndex);
    SharesArithmetic(Total(IndexShares(m)), m.borrowIndex, m.totalBorrows, accruals);
  }

  lemma SharesArithmetic(shares: real, index: nat, borrows: nat, accruals: nat)
    requires 0 < index
    requires Within(shares, index as real, borrows as real, accruals as real)
    ensures Times(ONE, shares) <= (borrows * EXP_SCALE) as real / index as real + accruals as real
  {
    var i, b, n := index as real, borrows as real, accruals as real;
    var q := (borrows * EXP_SCALE) as real / i;
    assert (borrows * EXP_SCALE) as real == ONE * b;
    RealDivBounds(ONE * b, i);
    assert (ONE * shares) * i == shares * ONE * i;
    assert (q + n) * i == q * i + n * i;
    RealMulCancel(ONE * shares, q + n, i);
  }

  lemma GrowthFits(blocks: nat, speed: nat, total: nat)
    ensures IndexGrowth(blocks, speed, total) * total <= blocks * speed * DOUBLE_SCALE
  {
    var x := blocks * speed * DOUBLE_SCALE;
    if total > 0 {
      DivNonNegative(x, total);
      DivBounds(x, total, x / total);
    }
  }

  lemma GrowthIs(w: BorrowWorld)
    requires IndexInv(w)
    ensures Growth(w) == 0
         || Growth(w) == IndexGrowth(RewardedUntil(w.state, w.now) - w.state.block, w.speed, NormalisedTotal(w.market))
  {
  }

  lemma GrowthWithinReleased(w: BorrowWorld)
    requires IndexInv(w)
    ensures Growth(w) * NormalisedTotal(w.market)
         <= (RewardedUntil(w.state, w.now) - w.state.block) * w.speed * DOUBLE_SCALE
  {
    GrowthIs(w);
    GrowthFits(RewardedUntil(w.state, w.now) - w.state.block, w.speed, NormalisedTotal(w.market));
  }

  lemma ProductReal(a: nat, b: nat)
    ensures Times(a as real, b as real) == (a * b) as real
  {
  }

  lemma EarnedArithmetic(growth: nat, total: nat, accruals: nat, released: nat, shares: real)
    requires growth * total <= released * DOUBLE_SCALE
    requires shares <= total as real + accruals as real + 1.0
    ensures Times(growth as real, shares)
         <= Times(DOUBLE, released as real) + Times(accruals as real + 1.0, growth as real)
  {
    var x, t, n := growth as real, total as real, accruals as real + 1.0;
    TimesMonotone(x, shares, t + n);
    TimesPlus(x, t, n);
    ProductReal(growth, total);
    ProductReal(DOUBLE_SCALE, released);
    assert Times(x, n) == Times(n, x);
  }

  lemma UpdateEarned(w: BorrowWorld, g: Exact)
    requires BorrowInv(w) && Total(g.earned) <= Times(DOUBLE, g.released as real) + g.excess
    ensures var g' := ExactUpdate(w, g); Total(g'.earned) <= Times(DOUBLE, g'.released as real) + g'.excess
  {
    var growth := Growth(w);
    var given := (RewardedUntil(w.state, w.now) - w.state.block) * w.speed;
    TotalPlus(g.earned, Scaled(Shares(w.market), growth as real));
    TotalScaled(Shares(w.market), growth as real);
    SharesTotal(w.market, w.accruals);
    GrowthWithinReleased(w);
    EarnedArithmetic(growth, NormalisedTotal(w.market), w.accruals, given, Total(Shares(w.market)));
    TimesPlus(DOUBLE, g.released as real, given as real);
    assert Total(ExactUpdate(w, g).earned) == Total(g.earned) + Times(growth as real, Total(Shares(w.market)));
  }

  lemma BorrowRefinesNext(w: BorrowWorld, g: Exact, e: BorrowEvent)
    requires BorrowRefines(w, g)
    ensures BorrowRefines(BorrowNext(w, e), ExactNext(w, g, e))
  {
    NextInv(w, e);
    UpdateEarned(w, g);
    forall u
      ensures Tracks(BorrowNext(w, e), ExactNext(w, g, e), u)
    {
      NextTracks(w, g, e, u);
    }
  }

  // ---------- whole runs ----------

  function BorrowRun(w: BorrowWorld, events: seq<BorrowEvent>): BorrowWorld
    decreases |events|
  {
    if events == [] then w else BorrowRun(BorrowNext(w, events[0]), events[1..])
  }

  ghost function ExactRun(w: BorrowWorld, g: Exact, events: seq<BorrowEvent>): Exact
    decreases |events|
  {
    if events == [] then g else ExactRun(BorrowNext(w, events[0]), ExactNext(w, g, events[0]), events[1..])
  }

  lemma {:induction false} BorrowRefinesRun(w: BorrowWorld, g: Exact, events: seq<BorrowEvent>)
    requires BorrowRefines(w, g)
    ensures BorrowRefines(BorrowRun(w, events), ExactRun(w, g, events))
    decreases |events|
  {
    if events != [] {
      BorrowRefinesNext(w, g, events[0]);
      BorrowRefinesRun(BorrowNext(w, events[0]), ExactNext(w, g, events[0]), events[1..]);
    }
  }

  /// A market with any past, just added to the distributor.
  ghost predicate BorrowInitial(w: BorrowWorld) {
    && ExchangeRate.Inv(w.market) && DebtWithin(w.market, w.accruals)
    && w.state == RewardState(INITIAL_INDEX, w.now, 0)
    && w.borrowerIndex == map[] && w.received == map[]
  }

  const NOTHING_YET: Exact := Exact(map[], map[], 0, 0.0)

  lemma BorrowInitialRefines(w: BorrowWorld)
    requires BorrowInitial(w)
    ensures BorrowRefines(w, NOTHING_YET)
  {
    forall u
      ensures Tracks(w, NOTHING_YET, u)
    {
      assert Times(Share(w.market, u), 0.0) == 0.0;
    }
  }

  lemma BorrowDueCovers(w: BorrowWorld, u: User)
    requires BorrowInv(w)
    ensures Times(DOUBLE, Get(w.received, u) as real) <= BorrowDue(w, u)
  {
    TimesNonNegative(w, u);
  }

  /// Over every run of the market and the distributor: what a borrower received, plus the exact worth of
  /// what is not settled, is at most the exact share of all index updates, and short of it by at most
  /// one unit and two index growths for each settlement, and what healing without a repayment forfeits.
  lemma BorrowersNeverGetMore(w: BorrowWorld, events: seq<BorrowEvent>, u: User)
    requires BorrowInitial(w)
    ensures var w', g := BorrowRun(w, events), ExactRun(w, NOTHING_YET, events);
      && Times(DOUBLE, Get(w'.received, u) as real) <= At(g.earned, u)
      && At(g.earned, u) <= BorrowDue(w', u) + At(g.lost, u)
  {
    BorrowInitialRefines(w);
    BorrowRefinesRun(w, NOTHING_YET, events);
    var w', g := BorrowRun(w, events), ExactRun(w, NOTHING_YET, events);
    assert Tracks(w', g, u);
    BorrowDueCovers(w', u);
  }

  /// Over every run: all borrowers together receive at most what was released, and the growth of the
  /// index at each update times one more than the number of accruals before it.
  lemma BorrowersWithinReleased(w: BorrowWorld, events: seq<BorrowEvent>)
    requires BorrowInitial(w)
    ensures var w', g := BorrowRun(w, events), ExactRun(w, NOTHING_YET, events);
      Times(DOUBLE, Total(Reals(w'.received))) <= Times(DOUBLE, g.released as real) + g.excess
  {
    BorrowInitialRefines(w);
    BorrowRefinesRun(w, NOTHING_YET, events);
    var w', g := BorrowRun(w, events), ExactRun(w, NOTHING_YET, events);
    var scaled := Scaled(Reals(w'.received), DOUBLE);
    forall u
      ensures At(scaled, u) <= At(g.earned, u)
    {
      assert Tracks(w', g, u);
      BorrowDueCovers(w', u);
      assert Times(DOUBLE, 0.0) == 0.0;
    }
    TotalBelow(scaled, g.earned);
    TotalScaled(Reals(w'.received), DOUBLE);
  }

  /// At every update of the run the normalised total is zero or at least `least`.
  ghost predicate TotalsAtLeast(w: BorrowWorld, events: seq<BorrowEvent>, least: nat)
    decreases |events|
  {
    && (NormalisedTotal(w.market) == 0 || least <= NormalisedTotal(w.market))
    && (events == [] || TotalsAtLeast(BorrowNext(w, events[0]), events[1..], least))
  }

  lemma AccrualsGrow(w: BorrowWorld, events: seq<BorrowEvent>)
    ensures w.accruals <= BorrowRun(w, events).accruals
    decreases |events|
  {
    if events != [] {
      assert w.accruals <= BorrowNext(w, events[0]).accruals;
      AccrualsGrow(BorrowNext(w, events[0]), events[1..]);
    }
  }

  ghost predicate ExcessWithin(g: Exact, least: nat, accruals: nat) {
    Times(least as real, g.excess) <= Times(accruals as real + 1.0, Times(DOUBLE, g.released as real))
  }

  lemma ExcessArithmetic(least: nat, total: nat, growth: nat, given: nat, n: nat, accruals: nat)
    requires growth == 0 || least <= total
    requires growth * total <= given * DOUBLE_SCALE && n <= accruals
    ensures Times(least as real, Times(n as real + 1.0, growth as real))
         <= Times(accruals as real + 1.0, Times(DOUBLE, given as real))
  {
    assert growth * least <= growth * total by {
      if growth != 0 { MulLe(least, total, growth); }
    }
    ProductReal(least, growth);
    ProductReal(DOUBLE_SCALE, given);
    var c, m := n as real + 1.0, accruals as real + 1.0;
    assert Times(least as real, Times(c, growth as real)) == Times(c, Times(least as real, growth as real));
    TimesMonotone(c, Times(least as real, growth as real), Times(DOUBLE, given as real));
    RealMulLe(c, m, Times(DOUBLE, given as real));
  }

  lemma ExcessUpdate(w: BorrowWorld, g: Exact, least: nat, accruals: nat)
    requires BorrowInv(w) && ExcessWithin(g, least, accruals) && w.accruals <= accruals
    requires NormalisedTotal(w.market) == 0 || least <= NormalisedTotal(w.market)
    ensures ExcessWithin(ExactUpdate(w, g), least, accruals)
  {
    var given := (RewardedUntil(w.state, w.now) - w.state.block) * w.speed;
    var growth, l, m := Growth(w), least as real, accruals as real + 1.0;
    GrowthWithinReleased(w);
    assert NormalisedTotal(w.market) == 0 ==> growth == 0;
    ExcessArithmetic(least, NormalisedTotal(w.market), growth, given, w.accruals, accruals);
    TimesPlus(l, g.excess, Times(w.accruals as real + 1.0, growth as real));
    TimesPlus(DOUBLE, g.released as real, given as real);
    TimesPlus(m, Times(DOUBLE, g.released as real), Times(DOUBLE, given as real));
  }

  lemma {:induction false} ExcessRun(w: BorrowWorld, g: Exact, events: seq<BorrowEvent>, least: nat, accruals: nat)
    requires BorrowInv(w) && ExcessWithin(g, least, accruals) && TotalsAtLeast(w, events, least)
    requires BorrowRun(w, events).accruals <= accruals
    ensures ExcessWithin(ExactRun(w, g, events), least, accruals)
    decreases |events|
  {
    if events != [] {
      AccrualsGrow(w, events);
      ExcessUpdate(w, g, least, accruals);
      NextInv(w, events[0]);
      ExcessRun(BorrowNext(w, events[0]), ExactNext(w, g, events[0]), events[1..], least, accruals);
    }
  }

  lemma CeilingArithmetic(received: real, released: real, excess: real, least: real, m: real)
    requires 0.0 <= least
    requires Times(DOUBLE, received) <= Times(DOUBLE, released) + excess
    requires Times(least, excess) <= Times(m, Times(DOUBLE, released))
    ensures Times(least, received) <= Times(least + m, released)
  {
    TimesMonotone(least, Times(DOUBLE, received), Times(DOUBLE, released) + excess);
    TimesPlus(least, Times(DOUBLE, released), excess);
    assert Times(least, Times(DOUBLE, received)) == least * received * DOUBLE;
    assert Times(least, Times(DOUBLE, released)) == least * released * DOUBLE;
    assert Times(m, Times(DOUBLE, released)) == m * released * DOUBLE;
    assert (least + m) * released * DOUBLE == least * released * DOUBLE + m * released * DOUBLE;
    RealMulCancel(least * received, (least + m) * released, DOUBLE);
  }

  /// In short: with at least `least` normalised units at each update, all borrowers together receive at
  /// most (least + accruals + 1) / least of what was released.
  lemma BorrowersCeiling(w: BorrowWorld, events: seq<BorrowEvent>, least: nat)
    requires BorrowInitial(w) && TotalsAtLeast(w, events, least)
    ensures var w', g := BorrowRun(w, events), ExactRun(w, NOTHING_YET, events);
      Times(least as real, Total(Reals(w'.received)))
        <= Times(least as real + (w'.accruals as real + 1.0), g.released as real)
  {
    var w', g := BorrowRun(w, events), ExactRun(w, NOTHING_YET, events);
    BorrowInitialRefines(w);
    assert Times(least as real, 0.0) == 0.0 == Times(w'.accruals as real + 1.0, Times(DOUBLE, 0.0));
    ExcessRun(w, NOTHING_YET, events, least, w'.accruals);
    BorrowersWithinReleased(w, events);
    CeilingArithmetic(Total(Reals(w'.received)), g.released as real, g.excess, least as real,
                      w'.accruals as real + 1.0);
  }
}
