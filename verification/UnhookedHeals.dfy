/** What a heal without a repayment does to rewards. It settles nobody, because only a repayment has the hook: the
    healed account forfeits for ever what a claim just before would have paid, and pending blocks are afterwards
    split among the borrows that are left. */
module UnhookedHeals {
  import opened FixedPoint
  import opened Totals
  import opened Outcomes
  import opened Ledger
  import opened ExchangeRate
  import opened Borrowers
  import opened Rewards
  import opened SupplierRewards
  import opened BorrowerRewards
  import opened BorrowerBlocks

  // ---------- what a claim pays ----------

  /// How far the index has moved since the user was last settled.
  function Since(w: BorrowWorld, u: User): nat {
    var from := EffectiveIndex(Get(w.borrowerIndex, u), w.state.index);
    if w.state.index < from then 0 else w.state.index - from
  }

  /// What a claim would add to the user's rewards now.
  function Claimable(w: BorrowWorld, u: User): int {
    Get(BorrowNext(w, ClaimBorrow(u)).received, u) - Get(w.received, u)
  }

  lemma SettledReceived(w: BorrowWorld, v: User, u: User)
    requires IndexInv(w)
    ensures Get(BorrowerSettled(w, v).received, u)
         == Get(w.received, u) + if u == v then Accrual(Units(w.market, u), Since(w, u)) else 0
  {
  }

  lemma SinceUpdated(w: BorrowWorld, u: User)
    requires IndexInv(w)
    ensures IndexInv(IndexUpdated(w)) && Since(IndexUpdated(w), u) == Since(w, u) + Growth(w)
  {
    UpdatedState(w);
  }

  lemma ClaimableIs(w: BorrowWorld, u: User)
    requires IndexInv(w)
    ensures Claimable(w, u) == Accrual(Units(w.market, u), Since(w, u) + Growth(w)) >= 0
    ensures Claimable(w, u) == 0 <==> Units(w.market, u) * (Since(w, u) + Growth(w)) < DOUBLE_SCALE
  {
    SinceUpdated(w, u);
    UpdatedState(w);
    SettledReceived(IndexUpdated(w), u, u);
    var earned := Units(w.market, u) * (Since(w, u) + Growth(w));
    DivBounds(earned, DOUBLE_SCALE, 1);
    DivNonNegative(earned, DOUBLE_SCALE);
  }

  // ---------- two runs side by side ----------

  predicate Owes(m: Market, u: User) {
    u in m.accountBorrows && m.accountBorrows[u].principal != 0
  }

  /// Two worlds that differ for a user by an amount received: from now on the user gets the same in both, being
  /// without a borrow, or settled up to the same point.
  ghost predicate Apart(w: BorrowWorld, v: BorrowWorld, u: User, amount: int) {
    && IndexInv(w) && IndexInv(v)
    && v == w.(state := v.state, borrowerIndex := v.borrowerIndex, received := v.received)
    && v.state.lastRewardingBlock == w.state.lastRewardingBlock
    && Get(v.received, u) == Get(w.received, u) + amount
    && (!Owes(w.market, u) || Level(w, v, u))
  }

  ghost predicate Level(w: BorrowWorld, v: BorrowWorld, u: User) {
    v.state.block == w.state.block && Since(v, u) == Since(w, u)
  }

  lemma UpdateApart(w: BorrowWorld, v: BorrowWorld, u: User, amount: int)
    requires Apart(w, v, u, amount)
    ensures Apart(IndexUpdated(w), IndexUpdated(v), u, amount)
    ensures IndexUpdated(w).state.block == IndexUpdated(v).state.block
    ensures IndexUpdated(w).market == w.market
  {
    UpdatedState(w);
    UpdatedState(v);
    UpdatedBlock(w);
    UpdatedBlock(v);
    if Owes(w.market, u) {
      SinceUpdated(w, u);
      SinceUpdated(v, u);
      SameGrowth(w, v);
    }
  }

  lemma SameGrowth(w: BorrowWorld, v: BorrowWorld)
    requires IndexInv(w) && IndexInv(v) && w.now == v.now && w.speed == v.speed && w.market == v.market
    requires w.state.block == v.state.block && w.state.lastRewardingBlock == v.state.lastRewardingBlock
    ensures Growth(w) == Growth(v)
  {
  }

  lemma NothingOwed(m: LiveMarket, u: User)
    requires !Owes(m, u)
    ensures Units(m, u) == 0
  {
    assert Balance(m, u) == 0;
  }

  lemma SettledSince(w: BorrowWorld, u: User, x: User)
    requires IndexInv(w)
    ensures Since(BorrowerSettled(w, x), u) == if u == x then 0 else Since(w, u)
    ensures BorrowerSettled(w, x).state == w.state
  {
  }

  lemma SettleApart(w: BorrowWorld, v: BorrowWorld, u: User, amount: int, x: User)
    requires Apart(w, v, u, amount) && w.state.block == v.state.block
    ensures var w', v' := BorrowerSettled(w, x), BorrowerSettled(v, x);
      Apart(w', v', u, amount) && (x == u ==> Level(w', v', u))
  {
    SettledIndex(w, x);
    SettledIndex(v, x);
    SettledSince(w, u, x);
    SettledSince(v, u, x);
    SettledReceived(w, x, u);
    SettledReceived(v, x, u);
    if !Owes(w.market, u) {
      NothingOwed(w.market, u);
    }
  }

  /// A market call on both: it must not give the user a borrow before the two are level.
  lemma MarketApart(w: BorrowWorld, v: BorrowWorld, u: User, amount: int, m: LiveMarket, accruals: nat)
    requires Apart(w, v, u, amount) && (Owes(m, u) && !Owes(w.market, u) ==> Level(w, v, u))
    ensures Apart(w.(market := m, accruals := accruals), v.(market := m, accruals := accruals), u, amount)
  {
  }

  /// Only a call with a hook for the user can give the user a borrow.
  lemma CallOwes(m: LiveMarket, step: Step, u: User)
    requires Apply(m, step).Done? && u !in HookFor(step.action)
    ensures Owes(MarketAfter(m, step), u) ==> Owes(m, u)
  {
    if step.action.Borrow? || step.action.Repay? || step.action.Heal? {
      BorrowerCallOwes(m, step, u);
    } else {
      assert After(m, step).accountBorrows == m.accountBorrows;
    }
  }

  lemma BorrowerCallOwes(m: LiveMarket, step: Step, u: User)
    requires Apply(m, step).Done? && u !in HookFor(step.action)
    requires step.action.Borrow? || step.action.Repay? || step.action.Heal?
    ensures Owes(MarketAfter(m, step), u) ==> Owes(m, u)
  {
    var b, m' := step.action.borrower, After(m, step);
    assert m'.accountBorrows == m.accountBorrows[b := m'.accountBorrows[b]];
  }

  lemma HookApart(w: BorrowWorld, v: BorrowWorld, u: User, amount: int, action: Action)
    requires Apart(w, v, u, amount)
    ensures Apart(Hooked(w, action), Hooked(v, action), u, amount)
    ensures u in HookFor(action) ==> Level(Hooked(w, action), Hooked(v, action), u)
    ensures Hooked(w, action).market == w.market
  {
    if HookFor(action) != {} {
      UpdateApart(w, v, u, amount);
      SettleApart(IndexUpdated(w), IndexUpdated(v), u, amount, action.borrower);
    }
  }

  lemma CallIs(w: BorrowWorld, settings: AllowedSettings, action: Action)
    ensures var step := Step(settings, w.now, action);
      BorrowNext(w, Call(settings, action)) ==
        if Apply(w.market, step).Revert? then w
        else Hooked(w, action).(market := MarketAfter(w.market, step), accruals := w.accruals + Accruals1(w.market, step))
  {
  }

  lemma CallApart(w: BorrowWorld, v: BorrowWorld, u: User, amount: int, settings: AllowedSettings, action: Action)
    requires Apart(w, v, u, amount)
    ensures Apart(BorrowNext(w, Call(settings, action)), BorrowNext(v, Call(settings, action)), u, amount)
  {
    var step := Step(settings, w.now, action);
    CallIs(w, settings, action);
    CallIs(v, settings, action);
    if Apply(w.market, step).Done? {
      HookApart(w, v, u, amount, action);
      if u !in HookFor(action) {
        CallOwes(w.market, step, u);
      }
      MarketApart(Hooked(w, action), Hooked(v, action), u, amount, MarketAfter(w.market, step),
                  w.accruals + Accruals1(w.market, step));
    }
  }

  lemma SpeedApart(w: BorrowWorld, v: BorrowWorld, u: User, amount: int, speed: nat)
    requires Apart(w, v, u, amount)
    ensures Apart(w.(speed := speed), v.(speed := speed), u, amount)
  {
  }

  lemma TimeApart(w: BorrowWorld, v: BorrowWorld, u: User, amount: int, e: BorrowEvent)
    requires Apart(w, v, u, amount) && (e.Advance? || e.SetBorrowLast?)
    ensures Apart(BorrowNext(w, e), BorrowNext(v, e), u, amount)
  {
  }

  lemma NextApart(w: BorrowWorld, v: BorrowWorld, u: User, amount: int, e: BorrowEvent)
    requires Apart(w, v, u, amount)
    ensures Apart(BorrowNext(w, e), BorrowNext(v, e), u, amount)
  {
    match e
    case Call(settings, action) => CallApart(w, v, u, amount, settings, action);
    case Touch => UpdateApart(w, v, u, amount);
    case ClaimBorrow(holder) =>
      UpdateApart(w, v, u, amount);
      SettleApart(IndexUpdated(w), IndexUpdated(v), u, amount, holder);
    case SetBorrowSpeed(speed) =>
      if speed != w.speed {
        UpdateApart(w, v, u, amount);
        SpeedApart(IndexUpdated(w), IndexUpdated(v), u, amount, speed);
      }
    case _ => TimeApart(w, v, u, amount, e);
  }

  lemma {:induction false} RunApart(w: BorrowWorld, v: BorrowWorld, u: User, amount: int, events: seq<BorrowEvent>)
    requires Apart(w, v, u, amount)
    ensures Apart(BorrowRun(w, events), BorrowRun(v, events), u, amount)
    decreases |events|
  {
    if events != [] {
      NextApart(w, v, u, amount, events[0]);
      RunApart(BorrowNext(w, events[0]), BorrowNext(v, events[0]), u, amount, events[1..]);
    }
  }

  // ---------- what is forfeited ----------

  lemma HealedOwes(w: BorrowWorld, heal: BorrowEvent)
    requires UnhookedHeal(w, heal)
    ensures var w' := BorrowNext(w, heal);
      && !Owes(w'.market, heal.action.borrower)
      && w' == w.(market := w'.market, accruals := w'.accruals)
  {
  }

  lemma ClaimApart(w: BorrowWorld, heal: BorrowEvent)
    requires IndexInv(w) && UnhookedHeal(w, heal)
    ensures var u := heal.action.borrower;
      Apart(BorrowNext(w, heal), BorrowNext(BorrowNext(w, ClaimBorrow(u)), heal), u, Claimable(w, u))
  {
    var u := heal.action.borrower;
    var claimed := BorrowNext(w, ClaimBorrow(u));
    UpdatedState(w);
    UpdatedBlock(w);
    SettledIndex(IndexUpdated(w), u);
    assert UnhookedHeal(claimed, heal);
    HealedOwes(w, heal);
    HealedOwes(claimed, heal);
  }

  /// Whatever happens later, an account healed without a repayment will have received less by exactly what a claim
  /// just before would have paid; so nothing is lost exactly when such a claim would have paid nothing, which is
  /// when the account's units times the growth of the index since its last settlement are less than one reward.
  lemma HealForfeitsForEver(w: BorrowWorld, heal: BorrowEvent, events: seq<BorrowEvent>)
    requires IndexInv(w) && UnhookedHeal(w, heal)
    ensures var u := heal.action.borrower;
      var healed, claimed := BorrowRun(BorrowNext(w, heal), events),
                             BorrowRun(BorrowNext(BorrowNext(w, ClaimBorrow(u)), heal), events);
      && Get(healed.received, u) == Get(claimed.received, u) - Claimable(w, u)
      && (Get(healed.received, u) == Get(claimed.received, u) <==>
            Units(w.market, u) * (Since(w, u) + Growth(w)) < DOUBLE_SCALE)
  {
    var u := heal.action.borrower;
    ClaimApart(w, heal);
    RunApart(BorrowNext(w, heal), BorrowNext(BorrowNext(w, ClaimBorrow(u)), heal), u, Claimable(w, u), events);
    ClaimableIs(w, u);
  }

  /// A heal that repays something has the hook, and forfeits nothing.
  lemma RepayingHealPays(w: BorrowWorld, settings: AllowedSettings, u: User, amount: nat, fee: nat)
    requires IndexInv(w) && 0 < amount && Apply(w.market, Step(settings, w.now, Heal(u, amount, fee))).Done?
    ensures Get(BorrowNext(w, Call(settings, Heal(u, amount, fee))).received, u) == Get(w.received, u) + Claimable(w, u)
  {
    assert HookFor(Heal(u, amount, fee)) == {u};
  }

  // ---------- who gains ----------

  lemma PartFallsStrictly(share: real, a: real, less: real, more: real)
    requires 0.0 < share && 0.0 < a && 0.0 < less < more
    ensures Part(share, a, more) < Part(share, a, less)
  {
    var x, y := a / less, a / more;
    RealDivBounds(a, less);
    RealDivBounds(a, more);
    RealMulCancel(0.0, y, more);
    if y <= 0.0 {
      RealMulLe(y, 0.0, more);
      assert false;
    }
    PositiveProduct(y, more - less);
    assert y * more == y * less + y * (more - less);
    assert y * less < x * less;
    RealMulCancel(y, x, less);
    PositiveProduct(share, x - y);
    assert share * x == share * y + share * (x - y);
  }

  lemma PositiveProduct(x: real, y: real)
    requires 0.0 < x && 0.0 < y
    ensures 0.0 < x * y
  {
  }

  lemma AmountPositive(w: BorrowWorld, blocks: nat)
    requires blocks * w.speed != 0
    ensures 0.0 < Amount(w, blocks)
  {
    PositiveProduct(DOUBLE, (blocks * w.speed) as real);
  }

  lemma NormalisedFalls(m: LiveMarket, m': LiveMarket)
    requires m'.borrowIndex == m.borrowIndex && m'.totalBorrows <= m.totalBorrows
    ensures NormalisedTotal(m') <= NormalisedTotal(m)
  {
    MulLe(m'.totalBorrows, m.totalBorrows, EXP_SCALE);
    DivMono(m'.totalBorrows * EXP_SCALE, m.totalBorrows * EXP_SCALE, m.borrowIndex);
  }

  lemma HealLowersTotal(w: BorrowWorld, heal: BorrowEvent)
    requires UnhookedHeal(w, heal)
    ensures LeastTotal(BorrowNext(w, heal), 0) <= LeastTotal(w, 0)
  {
    HealedNumbers(w, heal);
    NormalisedFalls(w.market, BorrowNext(w, heal).market);
  }

  /// Another borrower gains from a heal without a repayment exactly when rewards are pending, the borrower has a
  /// share, and the total they are split by falls.
  lemma HealGivesToOthers(w: BorrowWorld, heal: BorrowEvent, u: User)
    requires BorrowInv(w) && UnhookedHeal(w, heal) && u != heal.action.borrower
    ensures var w' := BorrowNext(w, heal);
      && IndexInv(w')
      && Promise(w, LeastTotal(w, 0), u) <= Promise(w', LeastTotal(w', 0), u)
      && (Promise(w, LeastTotal(w, 0), u) < Promise(w', LeastTotal(w', 0), u) <==>
            && PendingBlocks(w) * w.speed != 0 && 0.0 < Share(w.market, u)
            && LeastTotal(w', 0) < LeastTotal(w, 0))
  {
    var w' := BorrowNext(w, heal);
    HealedDue(w, heal, u);
    HealLowersTotal(w, heal);
    ShareNonNegative(w.market, u);
    var share, amount := Share(w.market, u), Amount(w, PendingBlocks(w));
    if PendingBlocks(w) * w.speed == 0 {
      NothingPending(w, LeastTotal(w, 0), u);
      NothingPending(w', LeastTotal(w', 0), u);
    } else if share == 0.0 {
      TimesZero(amount / LeastTotal(w, 0));
      TimesZero(amount / LeastTotal(w', 0));
    } else {
      AmountPositive(w, PendingBlocks(w));
      if LeastTotal(w', 0) < LeastTotal(w, 0) {
        PartFallsStrictly(share, amount, LeastTotal(w', 0), LeastTotal(w, 0));
      }
    }
  }
}
