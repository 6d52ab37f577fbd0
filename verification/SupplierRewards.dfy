/** The lazy reward index against a simple eager distributor that, block by block, splits the speed by
    share. Over every run of mints, burns, transfers, speed changes and claims, each supplier gets at
    most the eager amount and falls short of it by a stated amount, and all of them together never get
    more than what was released. */
module SupplierRewards {
  import opened FixedPoint
  import opened Totals
  import opened Outcomes
  import opened Ledger
  import opened Rewards

  const DOUBLE: real := DOUBLE_SCALE as real

  /// The distributor's numbers for one market's suppliers, and the market's balances it reads.
  datatype World = World(
    now: nat,
    state: RewardState,
    speed: nat,
    supplierIndex: map<User, nat>,
    accrued: map<User, nat>,
    paid: map<User, nat>,
    held: nat,
    tokens: map<User, nat>,
    totalSupply: nat)

  datatype Event =
    | Tick
    | Update
    | MintTokens(to: User, amount: nat)
    | BurnTokens(from: User, amount: nat)
    | MoveTokens(src: User, dst: User, amount: nat)
    | SetSpeed(speed: nat)
    | SetLast(block: nat)
    | Claim(holder: User)
    | Fund(amount: nat)

  // ---------- what the contracts do ----------

  function Updated(w: World): World {
    match UpdateIndex(w.state, w.speed, w.now, w.totalSupply)
    case Done(st) => w.(state := st)
    case Revert(_) => w
  }

  function Settled(w: World, u: User): World {
    match Settlement(w.state, Get(w.supplierIndex, u), Get(w.tokens, u))
    case Done(delta) =>
      w.(supplierIndex := w.supplierIndex[u := w.state.index],
         accrued := w.accrued[u := Get(w.accrued, u) + delta])
    case Revert(_) => w
  }

  /// All of the accrued amount is paid, or, when the distributor holds less, none of it.
  function Granted(w: World, u: User): World {
    var amount := Get(w.accrued, u);
    if amount > 0 && amount <= w.held then
      w.(accrued := w.accrued[u := 0], paid := w.paid[u := Get(w.paid, u) + amount], held := w.held - amount)
    else w
  }

  /// One event; the comptroller's hooks settle the accounts concerned before balances change.
  function Next(w: World, e: Event): World {
    match e
    case Tick => w.(now := w.now + 1)
    case Update => Updated(w)
    case MintTokens(to, amount) =>
      var s := Settled(Updated(w), to);
      s.(tokens := s.tokens[to := Get(s.tokens, to) + amount], totalSupply := s.totalSupply + amount)
    case BurnTokens(from, amount) =>
      if Get(w.tokens, from) < amount || w.totalSupply < amount then w
      else
        var s := Settled(Updated(w), from);
        s.(tokens := s.tokens[from := Get(s.tokens, from) - amount], totalSupply := s.totalSupply - amount)
    case MoveTokens(src, dst, amount) =>
      if src == dst || Get(w.tokens, src) < amount then w
      else
        var s := Settled(Settled(Updated(w), src), dst);
        s.(tokens := s.tokens[src := Get(s.tokens, src) - amount][dst := Get(s.tokens, dst) + amount])
    case SetSpeed(speed) =>
      if speed == w.speed then w else Updated(w).(speed := speed)
    case SetLast(block) =>
      (match SetLastRewardingBlock(w.state, w.now, block)
       case Done(st) => w.(state := st)
       case Revert(_) => w)
    case Claim(holder) => Granted(Settled(Updated(w), holder), holder)
    case Fund(amount) => w.(held := w.held + amount)
  }

  // ---------- the eager distributor ----------

  /// What an eager distributor would have given each user, times 1e36; what it released in all; and how
  /// often the lazy one updated its index and settled each user.
  datatype Eager = Eager(earned: map<User, real>, released: nat, updates: nat, settlements: map<User, nat>)

  predicate RewardsNextBlock(w: World) {
    RewardedUntil(w.state, w.now + 1) > RewardedUntil(w.state, w.now)
  }

  /// Rewards flow in the next block exactly when no last rewarding block is set, or it has not passed.
  lemma RewardsFlow(w: World)
    ensures RewardsNextBlock(w) <==> w.state.lastRewardingBlock == 0 || w.now < w.state.lastRewardingBlock
  {
  }

  /// The last rewarding block is set exactly to a later one than now, as long as a present one has not passed; and only
  /// it changes.
  lemma LastIsSet(st: RewardState, now: nat, last: nat)
    ensures SetLastRewardingBlock(st, now, last).Done? <==>
      now < last && (st.lastRewardingBlock == 0 || now < st.lastRewardingBlock)
    ensures SetLastRewardingBlock(st, now, last).Done? ==>
      var st' := SetLastRewardingBlock(st, now, last).value;
      st'.lastRewardingBlock == last && st'.index == st.index && st'.block == st.block
  {
  }

  /// The speed of one block, times 1e36, for each token.
  ghost function PerToken(w: World): real {
    if w.totalSupply == 0 then 0.0 else w.speed as real * DOUBLE / w.totalSupply as real
  }

  ghost function EagerTick(w: World, g: Eager): Eager {
    if !RewardsNextBlock(w) then g
    else g.(earned := Plus(g.earned, Scaled(Reals(w.tokens), PerToken(w))), released := g.released + w.speed)
  }

  function SettledBy(w: World, e: Event): set<User> {
    match e
    case MintTokens(to, _) => {to}
    case BurnTokens(from, amount) => if Next(w, e) == w then {} else {from}
    case MoveTokens(src, dst, amount) => if Next(w, e) == w then {} else {src, dst}
    case Claim(holder) => {holder}
    case _ => {}
  }

  /// Whether the event moves the index to a later block, which happens at most once a block.
  predicate Truncates(w: World, e: Event) {
    Next(w, e).state.block != w.state.block
  }

  ghost function EagerNext(w: World, g: Eager, e: Event): Eager {
    if e.Tick? then EagerTick(w, g)
    else
      g.(updates := g.updates + if Truncates(w, e) then 1 else 0,
         settlements := map u | u in g.settlements.Keys + SettledBy(w, e) ::
           Get(g.settlements, u) + if u in SettledBy(w, e) then 1 else 0)
  }

  // ---------- the relation ----------

  ghost predicate Inv(w: World) {
    && Total(Reals(w.tokens)) == w.totalSupply as real
    && INITIAL_INDEX <= w.state.index
    && w.state.block <= RewardedUntil(w.state, w.now)
    && forall u :: Get(w.supplierIndex, u) <= w.state.index
                && (Get(w.supplierIndex, u) == 0 || INITIAL_INDEX <= Get(w.supplierIndex, u))
  }

  ghost function Pending(w: World): nat
    requires w.state.block <= RewardedUntil(w.state, w.now)
  {
    RewardedUntil(w.state, w.now) - w.state.block
  }

  /// Where the index would be if it had been updated in every block and never truncated.
  ghost function ExactIndex(w: World): real
    requires Inv(w)
  {
    w.state.index as real + Times(Pending(w) as real, PerToken(w))
  }

  /// Accrued or paid so far.
  function Received(w: World, u: User): nat {
    Get(w.accrued, u) + Get(w.paid, u)
  }

  /// Received, and what settling at the exact index would add, times 1e36.
  ghost function Due(w: World, u: User): real
    requires Inv(w)
  {
    Times(DOUBLE, Received(w, u) as real)
      + Times(Get(w.tokens, u) as real,
              ExactIndex(w) - EffectiveIndex(Get(w.supplierIndex, u), w.state.index) as real)
  }

  /// One unit of reward for each settlement of the user, one index unit per token for each update.
  ghost function Slack(g: Eager, u: User, most: nat): real {
    Times(DOUBLE, Get(g.settlements, u) as real) + Times(g.updates as real, most as real)
  }

  ghost predicate Refines(w: World, g: Eager, most: nat) {
    && Inv(w)
    && forall u :: Follows(w, g, u, most)
  }

  // ---------- one step at a time ----------

  lemma TickDue(w: World, u: User)
    requires Inv(w)
    ensures var w' := Next(w, Tick);
      Inv(w') && Due(w', u) == Due(w, u)
        + if RewardsNextBlock(w) then Times(Get(w.tokens, u) as real, PerToken(w)) else 0.0
  {
    var w' := Next(w, Tick);
    var t, c := Get(w.tokens, u) as real, PerToken(w);
    if RewardsNextBlock(w) {
      assert Pending(w') == Pending(w) + 1;
      TimesOneMore(c, Pending(w) as real);
      TimesPlus(t, ExactIndex(w) - EffectiveIndex(Get(w.supplierIndex, u), w.state.index) as real, c);
    } else {
      assert Pending(w') == Pending(w);
    }
  }

  lemma GrowthIsTruncated(blocks: nat, speed: nat, total: nat)
    requires 0 < total
    ensures var exact := Times(blocks as real, speed as real * DOUBLE / total as real);
      IndexGrowth(blocks, speed, total) as real <= exact < IndexGrowth(blocks, speed, total) as real + 1.0
  {
    FloorOfQuotient(blocks * speed * DOUBLE_SCALE, total);
    var b, v, n := blocks as real, speed as real, total as real;
    assert (blocks * speed * DOUBLE_SCALE) as real == b * v * DOUBLE == b * (v * DOUBLE);
    assert b * (v * DOUBLE) / n == Times(b, v * DOUBLE / n);
  }

  /// Updating truncates the index by less than one unit.
  lemma UpdatedIndex(w: World)
    requires Inv(w)
    ensures var w' := Updated(w);
      && Inv(w') && Pending(w') == 0
      && w' == w.(state := w'.state) && w.state.index <= w'.state.index
      && w'.state.index as real == ExactIndex(w')
      && (w'.state.block == w.state.block ==> w' == w)
      && (0 < w.totalSupply ==> ExactIndex(w') <= ExactIndex(w) < ExactIndex(w') + 1.0)
      && (0 == w.totalSupply ==> ExactIndex(w') == ExactIndex(w))
  {
    TimesZero(Pending(w) as real);
    TimesZero(PerToken(Updated(w)));
    TimesZero(PerToken(w));
    if Pending(w) > 0 && w.totalSupply > 0 {
      if w.speed > 0 {
        GrowthIsTruncated(Pending(w), w.speed, w.totalSupply);
      } else {
        assert PerToken(w) == 0.0;
      }
    }
  }

  lemma ShiftByOne(t: real, x: real, x': real)
    requires 0.0 <= t && x' <= x <= x' + 1.0
    ensures Times(t, x') <= Times(t, x) <= Times(t, x') + t
  {
    TimesMonotone(t, x', x);
    TimesMonotone(t, x, x' + 1.0);
    TimesOneMore(t, x');
  }

  lemma UpdatedDue(w: World, u: User)
    requires Inv(w)
    ensures var w' := Updated(w);
      && Inv(w')
      && Due(w', u) <= Due(w, u)
      && Due(w, u) <= Due(w', u) + if w'.state.block == w.state.block then 0.0 else Get(w.tokens, u) as real
  {
    var w' := Updated(w);
    UpdatedIndex(w);
    var t, from := Get(w.tokens, u) as real, EffectiveIndex(Get(w.supplierIndex, u), w.state.index) as real;
    ShiftByOne(t, ExactIndex(w) - from, ExactIndex(w') - from);
  }

  lemma TokensBelowSupply(w: World, u: User)
    requires Inv(w)
    ensures Get(w.tokens, u) <= w.totalSupply
  {
    TotalNonNegative(Reals(w.tokens));
    assert At(Reals(w.tokens), u) == Get(w.tokens, u) as real;
  }

  lemma SettleArithmetic(received: nat, units: nat, growth: nat)
    ensures var after := received + units * growth / DOUBLE_SCALE;
      Times(DOUBLE, after as real)
        <= Times(DOUBLE, received as real) + Times(units as real, growth as real)
        <= Times(DOUBLE, after as real) + DOUBLE
  {
    FloorOfQuotient(units * growth, DOUBLE_SCALE);
    RealDivBounds((units * growth) as real, DOUBLE);
    var d, q := (units * growth / DOUBLE_SCALE) as real, (units * growth) as real / DOUBLE;
    assert Times(units as real, growth as real) == q * DOUBLE;
    RealMulLe(d, q, DOUBLE);
    RealMulLe(q, d + 1.0, DOUBLE);
    assert (d + 1.0) * DOUBLE == d * DOUBLE + DOUBLE;
    assert DOUBLE * (received as real + d) == DOUBLE * received as real + d * DOUBLE;
  }

  /// The contract's view of a settlement: it always succeeds, and moves the user's index up to date.
  lemma SettledState(w: World, u: User)
    requires Inv(w) && Pending(w) == 0
    ensures var w' := Settled(w, u);
      && Inv(w') && Pending(w') == 0
      && w'.now == w.now && w'.tokens == w.tokens && w'.totalSupply == w.totalSupply && w'.state == w.state
      && w'.speed == w.speed && w'.paid == w.paid && w'.held == w.held
      && Get(w'.supplierIndex, u) == w.state.index
      && (forall v | v != u :: Get(w'.supplierIndex, v) == Get(w.supplierIndex, v) && Received(w', v) == Received(w, v))
  {
    var w' := Settled(w, u);
    forall v
      ensures Get(w'.supplierIndex, v) == if v == u then w.state.index else Get(w.supplierIndex, v)
    {
    }
  }

  /// Settling an up-to-date user truncates by less than one unit of reward and touches nobody else.
  lemma SettledDue(w: World, u: User, v: User)
    requires Inv(w) && Pending(w) == 0
    ensures var w' := Settled(w, u);
      && Inv(w')
      && (v != u ==> Due(w', v) == Due(w, v))
      && (v == u ==> Due(w', v) <= Due(w, v) <= Due(w', v) + DOUBLE)
  {
    SettledState(w, u);
    assert ExactIndex(w) == w.state.index as real == ExactIndex(Settled(w, u));
    if v == u {
      var growth := w.state.index - EffectiveIndex(Get(w.supplierIndex, u), w.state.index);
      SettleArithmetic(Received(w, u), Get(w.tokens, u), growth);
      assert Times(Get(w.tokens, u) as real, 0.0) == 0.0;
    }
  }

  /// Balances change only for users who are up to date, in an up-to-date market: nobody's due changes.
  lemma MovedDue(w: World, w': World, u: User)
    requires Inv(w) && Pending(w) == 0 && Inv(w')
    requires w' == w.(tokens := w'.tokens, totalSupply := w'.totalSupply, speed := w'.speed)
    requires Get(w'.tokens, u) == Get(w.tokens, u) || Get(w.supplierIndex, u) == w.state.index
    ensures Due(w', u) == Due(w, u)
  {
    if Get(w.supplierIndex, u) == w.state.index {
      assert Times(Get(w.tokens, u) as real, 0.0) == 0.0 == Times(Get(w'.tokens, u) as real, 0.0);
    }
  }

  /// What one event other than the passing of a block may do to a user's due.
  ghost predicate Loses(w: World, w': World, u: User, settled: bool) {
    && Inv(w) && Inv(w')
    && Due(w', u) <= Due(w, u)
    && Due(w, u) <= Due(w', u) + (if w'.state.block == w.state.block then 0.0 else Get(w.tokens, u) as real)
                    + if settled then DOUBLE else 0.0
  }

  /// What the hook of an operation does: an index update and a settlement.
  lemma HookDue(w: World, user: User, u: User)
    requires Inv(w)
    ensures var w' := Settled(Updated(w), user);
      && Inv(w') && Pending(w') == 0
      && w' == w.(state := Updated(w).state, supplierIndex := w'.supplierIndex, accrued := w'.accrued)
      && Get(w'.supplierIndex, user) == w'.state.index
      && Loses(w, w', u, u == user)
  {
    UpdatedIndex(w);
    UpdatedDue(w, u);
    SettledState(Updated(w), user);
    SettledDue(Updated(w), user, u);
  }

  lemma MintLoses(w: World, to: User, amount: nat, u: User)
    requires Inv(w)
    ensures Loses(w, Next(w, MintTokens(to, amount)), u, u == to)
  {
    HookDue(w, to, u);
    NatTotalUpdate(w.tokens, to, Get(w.tokens, to) + amount);
    MovedDue(Settled(Updated(w), to), Next(w, MintTokens(to, amount)), u);
  }

  lemma BurnLoses(w: World, from: User, amount: nat, u: User)
    requires Inv(w) && amount <= Get(w.tokens, from)
    ensures amount <= w.totalSupply && Loses(w, Next(w, BurnTokens(from, amount)), u, u == from)
  {
    HookDue(w, from, u);
    TokensBelowSupply(w, from);
    NatTotalUpdate(w.tokens, from, Get(w.tokens, from) - amount);
    MovedDue(Settled(Updated(w), from), Next(w, BurnTokens(from, amount)), u);
  }

  lemma MovedInv(w: World, src: User, dst: User, amount: nat)
    requires Inv(w) && src != dst && amount <= Get(w.tokens, src)
    ensures Inv(w.(tokens := w.tokens[src := Get(w.tokens, src) - amount][dst := Get(w.tokens, dst) + amount]))
  {
    NatTotalMove(w.tokens, src, dst, amount, amount);
  }

  lemma HookTwiceDue(w: World, src: User, dst: User, u: User)
    requires Inv(w) && src != dst
    ensures var w' := Settled(Settled(Updated(w), src), dst);
      && Inv(w') && Pending(w') == 0
      && w' == w.(state := Updated(w).state, supplierIndex := w'.supplierIndex, accrued := w'.accrued)
      && Get(w'.supplierIndex, src) == w'.state.index == Get(w'.supplierIndex, dst)
      && Loses(w, w', u, u == src || u == dst)
  {
    HookDue(w, src, u);
    SettledState(Settled(Updated(w), src), dst);
    SettledDue(Settled(Updated(w), src), dst, u);
  }

  lemma MoveLoses(w: World, src: User, dst: User, amount: nat, u: User)
    requires Inv(w) && src != dst && amount <= Get(w.tokens, src)
    ensures Loses(w, Next(w, MoveTokens(src, dst, amount)), u, u == src || u == dst)
  {
    HookTwiceDue(w, src, dst, u);
    var settled := Settled(Settled(Updated(w), src), dst);
    MovedInv(settled, src, dst, amount);
    MovedDue(settled, Next(w, MoveTokens(src, dst, amount)), u);
  }

  lemma GrantedDue(w: World, holder: User, u: User)
    requires Inv(w)
    ensures var w' := Granted(w, holder); Inv(w') && w'.state == w.state && Due(w', u) == Due(w, u)
  {
    var w' := Granted(w, holder);
    assert ExactIndex(w') == ExactIndex(w) && Received(w', u) == Received(w, u);
  }

  lemma ClaimLoses(w: World, holder: User, u: User)
    requires Inv(w)
    ensures Loses(w, Next(w, Claim(holder)), u, u == holder)
  {
    HookDue(w, holder, u);
    GrantedDue(Settled(Updated(w), holder), holder, u);
  }

  lemma SpeedLoses(w: World, speed: nat, u: User)
    requires Inv(w)
    ensures Loses(w, Next(w, Event.SetSpeed(speed)), u, false)
  {
    if speed != w.speed {
      UpdatedIndex(w);
      UpdatedDue(w, u);
      MovedDue(Updated(w), Next(w, Event.SetSpeed(speed)), u);
    }
  }

  lemma LastLoses(w: World, last: nat, u: User)
    requires Inv(w)
    ensures Loses(w, Next(w, SetLast(last)), u, false)
  {
    var w' := Next(w, SetLast(last));
    assert Pending(w') == Pending(w) && ExactIndex(w') == ExactIndex(w);
  }

  lemma EventLoses(w: World, e: Event, u: User)
    requires Inv(w) && !e.Tick?
    ensures Loses(w, Next(w, e), u, u in SettledBy(w, e))
  {
    match e
    case Update =>
      UpdatedIndex(w);
      UpdatedDue(w, u);
    case MintTokens(to, amount) => MintLoses(w, to, amount, u);
    case BurnTokens(from, amount) => if amount <= Get(w.tokens, from) { BurnLoses(w, from, amount, u); }
    case MoveTokens(src, dst, amount) =>
      if src != dst && amount <= Get(w.tokens, src) { MoveLoses(w, src, dst, amount, u); }
    case SetSpeed(speed) => SpeedLoses(w, speed, u);
    case SetLast(last) => LastLoses(w, last, u);
    case Claim(holder) => ClaimLoses(w, holder, u);
    case Fund(_) => assert ExactIndex(Next(w, e)) == ExactIndex(w);
  }

  lemma SlackGrows(w: World, g: Eager, e: Event, u: User, most: nat)
    requires !e.Tick? && Get(w.tokens, u) <= most
    ensures Slack(g, u, most)
            + (if Truncates(w, e) then Get(w.tokens, u) as real else 0.0)
            + (if u in SettledBy(w, e) then DOUBLE else 0.0)
         <= Slack(EagerNext(w, g, e), u, most)
  {
    TimesOneMore(DOUBLE, Get(g.settlements, u) as real);
    TimesOneMore(most as real, g.updates as real);
  }

  ghost predicate Follows(w: World, g: Eager, u: User, most: nat) {
    Inv(w) && Due(w, u) <= At(g.earned, u) <= Due(w, u) + Slack(g, u, most)
  }

  lemma FollowsTick(w: World, g: Eager, u: User, most: nat)
    requires Follows(w, g, u, most)
    ensures Follows(Next(w, Tick), EagerTick(w, g), u, most)
  {
    TickDue(w, u);
    var c, t := PerToken(w), Get(w.tokens, u) as real;
    assert Times(c, t) == Times(t, c) && Times(0.0, c) == 0.0;
    if RewardsNextBlock(w) {
      assert At(Scaled(Reals(w.tokens), c), u) == Times(t, c);
    }
  }

  lemma FollowsEvent(w: World, g: Eager, e: Event, u: User, most: nat)
    requires Follows(w, g, u, most) && !e.Tick? && w.totalSupply <= most
    ensures Follows(Next(w, e), EagerNext(w, g, e), u, most)
  {
    EventLoses(w, e, u);
    TokensBelowSupply(w, u);
    SlackGrows(w, g, e, u, most);
  }

  /// The refinement step: whatever happens, no user gets more than the eager amount, or falls behind it
  /// by more than the slack.
  lemma RefinesNext(w: World, g: Eager, e: Event, most: nat)
    requires Refines(w, g, most) && w.totalSupply <= most
    ensures Refines(Next(w, e), EagerNext(w, g, e), most)
  {
    forall u
      ensures Follows(Next(w, e), EagerNext(w, g, e), u, most)
    {
      assert Follows(w, g, u, most);
      if e.Tick? {
        FollowsTick(w, g, u, most);
      } else {
        FollowsEvent(w, g, e, u, most);
      }
    }
    var u: User := 0;
    assert Follows(Next(w, e), EagerNext(w, g, e), u, most);
  }

  // ---------- whole runs ----------

  function Run(w: World, events: seq<Event>): World
    decreases |events|
  {
    if events == [] then w else Run(Next(w, events[0]), events[1..])
  }

  ghost function EagerRun(w: World, g: Eager, events: seq<Event>): Eager
    decreases |events|
  {
    if events == [] then g else EagerRun(Next(w, events[0]), EagerNext(w, g, events[0]), events[1..])
  }

  /// The supply never exceeds `most` before any event of the run.
  predicate SupplyWithin(w: World, events: seq<Event>, most: nat)
    decreases |events|
  {
    w.totalSupply <= most && (events == [] || SupplyWithin(Next(w, events[0]), events[1..], most))
  }

  ghost predicate ReleasedCovers(g: Eager) {
    Total(g.earned) <= Times(DOUBLE, g.released as real)
  }

  /// One block's shares add up to the speed, or to nothing when there are no tokens.
  lemma SharesOfOneBlock(w: World)
    ensures Times(PerToken(w), w.totalSupply as real) <= Times(DOUBLE, w.speed as real)
  {
    var c, n := w.speed as real * DOUBLE, w.totalSupply as real;
    if w.totalSupply > 0 {
      RealDivBounds(c, n);
    }
  }

  lemma ReleasedNext(w: World, g: Eager, e: Event)
    requires Inv(w) && ReleasedCovers(g)
    ensures ReleasedCovers(EagerNext(w, g, e))
  {
    if e.Tick? && RewardsNextBlock(w) {
      var shares := Scaled(Reals(w.tokens), PerToken(w));
      TotalPlus(g.earned, shares);
      TotalScaled(Reals(w.tokens), PerToken(w));
      SharesOfOneBlock(w);
      TimesPlus(DOUBLE, g.released as real, w.speed as real);
    }
  }

  lemma {:induction false} RefinesRun(w: World, g: Eager, events: seq<Event>, most: nat)
    requires Refines(w, g, most) && ReleasedCovers(g) && SupplyWithin(w, events, most)
    ensures Refines(Run(w, events), EagerRun(w, g, events), most) && ReleasedCovers(EagerRun(w, g, events))
    decreases |events|
  {
    if events != [] {
      RefinesNext(w, g, events[0], most);
      ReleasedNext(w, g, events[0]);
      RefinesRun(Next(w, events[0]), EagerNext(w, g, events[0]), events[1..], most);
    }
  }

  /// A market just added to the distributor; its users hold vTokens already and have never been settled.
  ghost predicate Initial(w: World) {
    && w.state == RewardState(INITIAL_INDEX, w.now, 0)
    && w.supplierIndex == map[] && w.accrued == map[] && w.paid == map[]
    && Total(Reals(w.tokens)) == w.totalSupply as real
  }

  const NOTHING_EARNED: Eager := Eager(map[], 0, 0, map[])

  lemma InitialRefines(w: World, most: nat)
    requires Initial(w)
    ensures Refines(w, NOTHING_EARNED, most) && ReleasedCovers(NOTHING_EARNED)
  {
    assert Inv(w) && Pending(w) == 0;
    forall u
      ensures Follows(w, NOTHING_EARNED, u, most)
    {
      assert Slack(NOTHING_EARNED, u, most) == Times(DOUBLE, 0.0) + Times(0.0, most as real) == 0.0;
      assert Times(Get(w.tokens, u) as real, 0.0) == 0.0;
    }
  }

  /// Over every run: what a user was accrued or paid, plus what settling now would add, is at most the
  /// eager amount, and short of it by at most one unit for each settlement of the user and 1e-36 per
  /// token for each block in which the index was brought up to date.
  lemma LazyRefinesEager(w: World, events: seq<Event>, most: nat, u: User)
    requires Initial(w) && SupplyWithin(w, events, most)
    ensures var w', g := Run(w, events), EagerRun(w, NOTHING_EARNED, events);
      && Inv(w')
      && Times(DOUBLE, Received(w', u) as real) <= Due(w', u) <= At(g.earned, u) <= Due(w', u) + Slack(g, u, most)
  {
    InitialRefines(w, most);
    RefinesRun(w, NOTHING_EARNED, events, most);
    assert Follows(Run(w, events), EagerRun(w, NOTHING_EARNED, events), u, most);
    DueCoversReceived(Run(w, events), u);
  }

  lemma DueCoversReceived(w: World, u: User)
    requires Inv(w)
    ensures Times(DOUBLE, Received(w, u) as real) <= Due(w, u)
  {
    var p := Times(Pending(w) as real, PerToken(w));
    assert 0.0 <= PerToken(w) by {
      if w.totalSupply > 0 { RealDivBounds(w.speed as real * DOUBLE, w.totalSupply as real); }
    }
    TimesMonotone(Pending(w) as real, 0.0, PerToken(w));
    TimesMonotone(Get(w.tokens, u) as real, 0.0,
                  ExactIndex(w) - EffectiveIndex(Get(w.supplierIndex, u), w.state.index) as real);
  }

  ghost function ReceivedByAll(w: World): map<User, real> {
    map u | u in w.accrued.Keys + w.paid.Keys :: Received(w, u) as real
  }

  lemma ReceivedEntry(w: World, u: User)
    ensures At(ReceivedByAll(w), u) == Received(w, u) as real
  {
  }

  lemma ReceivedBelowReleased(w: World, g: Eager, most: nat)
    requires Refines(w, g, most) && ReleasedCovers(g)
    ensures Total(ReceivedByAll(w)) <= g.released as real
  {
    var scaled := Scaled(ReceivedByAll(w), DOUBLE);
    forall u
      ensures At(scaled, u) <= At(g.earned, u)
    {
      assert Follows(w, g, u, most);
      DueCoversReceived(w, u);
      TimesZero(DOUBLE);
      ReceivedEntry(w, u);
    }
    TotalBelow(scaled, g.earned);
    TotalScaled(ReceivedByAll(w), DOUBLE);
    RealMulCancel(Total(ReceivedByAll(w)), g.released as real, DOUBLE);
  }

  /// The number of blocks of the run in which rewards flowed.
  function RewardedBlocks(w: World, events: seq<Event>): nat
    decreases |events|
  {
    if events == [] then 0
    else (if events[0].Tick? && RewardsNextBlock(w) then 1 else 0) + RewardedBlocks(Next(w, events[0]), events[1..])
  }

  predicate ConstantSpeed(events: seq<Event>) {
    forall i :: 0 <= i < |events| ==> !events[i].SetSpeed?
  }

  lemma HookKeepsSpeed(w: World, u: User)
    ensures Updated(w).speed == w.speed == Settled(w, u).speed
  {
  }

  lemma SpeedStays(w: World, e: Event)
    requires !e.SetSpeed?
    ensures Next(w, e).speed == w.speed
  {
    HookKeepsSpeed(w, 0);
    match e
    case MintTokens(to, _) => HookKeepsSpeed(Updated(w), to);
    case BurnTokens(from, _) => HookKeepsSpeed(Updated(w), from);
    case MoveTokens(src, dst, _) =>
      HookKeepsSpeed(Updated(w), src);
      HookKeepsSpeed(Settled(Updated(w), src), dst);
    case Claim(holder) => HookKeepsSpeed(Updated(w), holder);
    case _ =>
  }

  lemma OneMore(speed: nat, blocks: nat)
    ensures speed * (1 + blocks) == speed + speed * blocks && speed * (0 + blocks) == speed * blocks
  {
  }

  lemma {:induction false} ReleasedAtConstantSpeed(w: World, g: Eager, events: seq<Event>)
    requires ConstantSpeed(events)
    ensures EagerRun(w, g, events).released == g.released + w.speed * RewardedBlocks(w, events)
    decreases |events|
  {
    if events != [] {
      SpeedStays(w, events[0]);
      ReleasedAtConstantSpeed(Next(w, events[0]), EagerNext(w, g, events[0]), events[1..]);
      OneMore(w.speed, RewardedBlocks(Next(w, events[0]), events[1..]));
    }
  }

  /// Over every run, all users together are never accrued and paid more than what was released; at a
  /// constant speed that is the speed times the rewarded blocks.
  lemma NeverMoreThanReleased(w: World, events: seq<Event>)
    requires Initial(w)
    ensures Total(ReceivedByAll(Run(w, events))) <= EagerRun(w, NOTHING_EARNED, events).released as real
    ensures ConstantSpeed(events) ==>
      EagerRun(w, NOTHING_EARNED, events).released == w.speed * RewardedBlocks(w, events)
  {
    var most := HighestSupply(w, events);
    InitialRefines(w, most);
    RefinesRun(w, NOTHING_EARNED, events, most);
    ReceivedBelowReleased(Run(w, events), EagerRun(w, NOTHING_EARNED, events), most);
    if ConstantSpeed(events) {
      ReleasedAtConstantSpeed(w, NOTHING_EARNED, events);
    }
  }

  /// In every reachable state the index update and every settlement succeed.
  lemma NothingReverts(w: World, events: seq<Event>, u: User)
    requires Initial(w)
    ensures var w' := Run(w, events);
      && UpdateIndex(w'.state, w'.speed, w'.now, w'.totalSupply).Done?
      && Settlement(w'.state, Get(w'.supplierIndex, u), Get(w'.tokens, u)).Done?
  {
    var most := HighestSupply(w, events);
    InitialRefines(w, most);
    RefinesRun(w, NOTHING_EARNED, events, most);
    var _ := Get(Run(w, events).supplierIndex, u);
  }

  lemma {:induction false} SupplyWithinMore(w: World, events: seq<Event>, less: nat, more: nat)
    requires SupplyWithin(w, events, less) && less <= more
    ensures SupplyWithin(w, events, more)
    decreases |events|
  {
    if events != [] {
      SupplyWithinMore(Next(w, events[0]), events[1..], less, more);
    }
  }

  function HighestSupply(w: World, events: seq<Event>): (most: nat)
    ensures SupplyWithin(w, events, most)
    decreases |events|
  {
    if events == [] then w.totalSupply
    else
      var rest := HighestSupply(Next(w, events[0]), events[1..]);
      var most := if rest < w.totalSupply then w.totalSupply else rest;
      SupplyWithinMore(Next(w, events[0]), events[1..], rest, most);
      most
  }
}
