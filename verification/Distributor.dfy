/** The RewardsDistributor contract: the reward books of all markets of a pool, updated in place, and
    the claim that walks over a list of markets. */
module Distributor {
  import opened FixedPoint
  import opened Totals
  import opened Outcomes
  import opened Ledger
  import opened Borrowers
  import opened Rewards
  import opened BorrowerRewards
  import SupplierRewards

  type MarketId = nat

  /// One side (supply or borrow) of the books.
  datatype Side = Side(states: map<MarketId, RewardState>, speeds: map<MarketId, nat>,
                       indices: map<(MarketId, User), nat>)
  {
    function State(v: MarketId): RewardState {
      if v in states then states[v] else RewardState(0, 0, 0)
    }

    function Updated(v: MarketId, now: nat, total: nat): Outcome<Side> {
      match UpdateIndex(State(v), Get(speeds, v), now, total)
      case Done(st) => Done(this.(states := states[v := st]))
      case Revert(e) => Revert(e)
    }

    function Settled(v: MarketId, u: User): Side {
      this.(indices := indices[(v, u) := State(v).index])
    }
  }

  /// What starting a market makes of one side's state.
  function Started(st: RewardState, now: nat): RewardState {
    st.(index := if st.index == 0 then INITIAL_INDEX else st.index, block := now)
  }

  datatype Books = Books(supply: Side, borrow: Side, accrued: map<User, nat>, held: nat)

  /// The listed markets of the pool, by address.
  type Pool = map<MarketId, LiveMarket>

  function UpdateSupplyIndex(b: Books, pool: Pool, v: MarketId, now: nat): Outcome<Books>
    requires v in pool
  {
    match b.supply.Updated(v, now, pool[v].totalSupply)
    case Done(side) => Done(b.(supply := side))
    case Revert(e) => Revert(e)
  }

  function UpdateBorrowIndex(b: Books, pool: Pool, v: MarketId, now: nat): Outcome<Books>
    requires v in pool
  {
    match b.borrow.Updated(v, now, NormalisedTotal(pool[v]))
    case Done(side) => Done(b.(borrow := side))
    case Revert(e) => Revert(e)
  }

  function DistributeSupplier(b: Books, pool: Pool, v: MarketId, u: User): Outcome<Books>
    requires v in pool
  {
    match Settlement(b.supply.State(v), Get(b.supply.indices, (v, u)), Get(pool[v].accountTokens, u))
    case Done(delta) =>
      Done(b.(supply := b.supply.Settled(v, u), accrued := b.accrued[u := Get(b.accrued, u) + delta]))
    case Revert(e) => Revert(e)
  }

  function DistributeBorrower(b: Books, pool: Pool, v: MarketId, u: User): Outcome<Books>
    requires v in pool
  {
    match Settlement(b.borrow.State(v), Get(b.borrow.indices, (v, u)), Units(pool[v], u))
    case Done(delta) =>
      Done(b.(borrow := b.borrow.Settled(v, u), accrued := b.accrued[u := Get(b.accrued, u) + delta]))
    case Revert(e) => Revert(e)
  }

  function SettleMarket(b: Books, pool: Pool, v: MarketId, u: User, now: nat): Outcome<Books> {
    if v !in pool then Revert(MarketNotListed)
    else match UpdateBorrowIndex(b, pool, v, now)
      case Revert(e) => Revert(e)
      case Done(b1) =>
        match DistributeBorrower(b1, pool, v, u)
        case Revert(e) => Revert(e)
        case Done(b2) =>
          match UpdateSupplyIndex(b2, pool, v, now)
          case Revert(e) => Revert(e)
          case Done(b3) => DistributeSupplier(b3, pool, v, u)
  }

  function SettleMarkets(b: Books, pool: Pool, vs: seq<MarketId>, u: User, now: nat): Outcome<Books>
    decreases |vs|
  {
    if vs == [] then Done(b)
    else match SettleMarket(b, pool, vs[0], u, now)
      case Revert(e) => Revert(e)
      case Done(b') => SettleMarkets(b', pool, vs[1..], u, now)
  }

  /// Pays all that is accrued, or nothing when the distributor holds less.
  function Grant(b: Books, u: User): Books {
    var amount := Get(b.accrued, u);
    if 0 < amount <= b.held then b.(accrued := b.accrued[u := 0], held := b.held - amount)
    else b.(accrued := b.accrued[u := amount])
  }

  function Claim(b: Books, pool: Pool, vs: seq<MarketId>, u: User, now: nat): Outcome<Books> {
    match SettleMarkets(b, pool, vs, u, now)
    case Revert(e) => Revert(e)
    case Done(b') => Done(Grant(b', u))
  }

  // ---------- claiming twice ----------

  /// One side of market v has nothing left to give user u in this block.
  predicate UpToDate(side: Side, v: MarketId, u: User, now: nat) {
    && v in side.states && (v, u) in side.indices
    && side.states[v].block == RewardedUntil(side.states[v], now)
    && side.indices[(v, u)] == side.states[v].index
  }

  predicate BothUpToDate(b: Books, v: MarketId, u: User, now: nat) {
    UpToDate(b.supply, v, u, now) && UpToDate(b.borrow, v, u, now) && u in b.accrued
  }

  lemma SettledIsUpToDate(b: Books, pool: Pool, v: MarketId, u: User, now: nat)
    requires SettleMarket(b, pool, v, u, now).Done?
    ensures BothUpToDate(SettleMarket(b, pool, v, u, now).value, v, u, now)
  {
  }

  lemma SettlingElsewhere(b: Books, pool: Pool, v: MarketId, w: MarketId, u: User, now: nat)
    requires SettleMarket(b, pool, v, u, now).Done? && BothUpToDate(b, w, u, now)
    ensures BothUpToDate(SettleMarket(b, pool, v, u, now).value, w, u, now)
  {
    if v == w {
      SettledIsUpToDate(b, pool, v, u, now);
    }
  }

  lemma UpToDateAddsNothing(b: Books, pool: Pool, v: MarketId, u: User, now: nat)
    requires v in pool && BothUpToDate(b, v, u, now)
    ensures SettleMarket(b, pool, v, u, now) == Done(b)
  {
    assert UpdateBorrowIndex(b, pool, v, now) == Done(b) by {
      assert b.borrow.states[v := b.borrow.states[v]] == b.borrow.states;
    }
    assert DistributeBorrower(b, pool, v, u) == Done(b) by {
      assert Units(pool[v], u) * 0 / DOUBLE_SCALE == 0;
      assert b.borrow.indices[(v, u) := b.borrow.indices[(v, u)]] == b.borrow.indices;
      assert b.accrued[u := b.accrued[u]] == b.accrued;
    }
    assert UpdateSupplyIndex(b, pool, v, now) == Done(b) by {
      assert b.supply.states[v := b.supply.states[v]] == b.supply.states;
    }
    assert DistributeSupplier(b, pool, v, u) == Done(b) by {
      assert Get(pool[v].accountTokens, u) * 0 / DOUBLE_SCALE == 0;
      assert b.supply.indices[(v, u) := b.supply.indices[(v, u)]] == b.supply.indices;
      assert b.accrued[u := b.accrued[u]] == b.accrued;
    }
  }

  lemma {:induction false} SettledMarketsStay(b: Books, pool: Pool, vs: seq<MarketId>, w: MarketId, u: User, now: nat)
    requires SettleMarkets(b, pool, vs, u, now).Done? && (BothUpToDate(b, w, u, now) || w in vs)
    ensures BothUpToDate(SettleMarkets(b, pool, vs, u, now).value, w, u, now)
    ensures w in vs ==> w in pool
    decreases |vs|
  {
    if vs != [] {
      var b' := SettleMarket(b, pool, vs[0], u, now).value;
      if w == vs[0] {
        SettledIsUpToDate(b, pool, w, u, now);
      } else if BothUpToDate(b, w, u, now) {
        SettlingElsewhere(b, pool, vs[0], w, u, now);
      }
      SettledMarketsStay(b', pool, vs[1..], w, u, now);
    }
  }

  lemma {:induction false} AllUpToDate(b: Books, pool: Pool, vs: seq<MarketId>, u: User, now: nat)
    requires forall w :: w in vs ==> w in pool && BothUpToDate(b, w, u, now)
    ensures SettleMarkets(b, pool, vs, u, now) == Done(b)
    decreases |vs|
  {
    if vs != [] {
      UpToDateAddsNothing(b, pool, vs[0], u, now);
      AllUpToDate(b, pool, vs[1..], u, now);
    }
  }

  /// Settling a list of markets a second time in a block, in any order and with any repetitions, adds
  /// nothing.
  lemma SettlingAgainAddsNothing(b: Books, pool: Pool, vs: seq<MarketId>, again: seq<MarketId>, u: User, now: nat)
    requires SettleMarkets(b, pool, vs, u, now).Done?
    requires forall v :: v in again ==> v in vs
    ensures var b' := SettleMarkets(b, pool, vs, u, now).value;
      SettleMarkets(b', pool, again, u, now) == Done(b')
  {
    forall w | w in vs
      ensures w in pool && BothUpToDate(SettleMarkets(b, pool, vs, u, now).value, w, u, now)
    {
      SettledMarketsStay(b, pool, vs, w, u, now);
    }
    AllUpToDate(SettleMarkets(b, pool, vs, u, now).value, pool, again, u, now);
  }

  // ---------- one market's supply side ----------

  /// One market's part of the user indices.
  function Column(indices: map<(MarketId, User), nat>, v: MarketId): map<User, nat> {
    map u | u in (set p | p in indices && p.0 == v :: p.1) :: indices[(v, u)]
  }

  lemma ColumnKey(indices: map<(MarketId, User), nat>, v: MarketId, u: User)
    ensures u in Column(indices, v) <==> (v, u) in indices
    ensures Get(Column(indices, v), u) == Get(indices, (v, u))
  {
    if (v, u) in indices {
      var p := (v, u);
      assert p in indices && p.0 == v && p.1 == u;
    }
  }

  lemma ColumnUpdate(indices: map<(MarketId, User), nat>, v: MarketId, u: User, index: nat)
    ensures Column(indices[(v, u) := index], v) == Column(indices, v)[u := index]
  {
    var a, b := Column(indices[(v, u) := index], v), Column(indices, v)[u := index];
    forall w
      ensures w in a <==> w in b
      ensures w in a ==> a[w] == b[w]
    {
      ColumnKey(indices[(v, u) := index], v, w);
      ColumnKey(indices, v, w);
    }
  }

  /// What SupplierRewards says about one market is about this part of the books.
  function SupplySide(b: Books, pool: Pool, v: MarketId, now: nat, paid: map<User, nat>): SupplierRewards.World
    requires v in pool
  {
    SupplierRewards.World(now, b.supply.State(v), Get(b.supply.speeds, v), Column(b.supply.indices, v),
                          b.accrued, paid, b.held, pool[v].accountTokens, pool[v].totalSupply)
  }

  /// Updating one market's supply index is what the single-market model does.
  lemma SupplySideUpdates(b: Books, pool: Pool, v: MarketId, now: nat, paid: map<User, nat>)
    requires v in pool && UpdateSupplyIndex(b, pool, v, now).Done?
    ensures SupplySide(UpdateSupplyIndex(b, pool, v, now).value, pool, v, now, paid)
         == SupplierRewards.Updated(SupplySide(b, pool, v, now, paid))
  {
  }

  lemma SupplySideAfter(b: Books, pool: Pool, v: MarketId, u: User, now: nat, paid: map<User, nat>, accrued: map<User, nat>)
    requires v in pool
    ensures var w := SupplySide(b, pool, v, now, paid);
      SupplySide(b.(supply := b.supply.Settled(v, u), accrued := accrued), pool, v, now, paid)
        == w.(supplierIndex := w.supplierIndex[u := w.state.index], accrued := accrued)
  {
    ColumnUpdate(b.supply.indices, v, u, b.supply.State(v).index);
  }

  lemma SupplySideEntry(b: Books, pool: Pool, v: MarketId, u: User, now: nat, paid: map<User, nat>, delta: nat)
    requires v in pool
    requires Settlement(b.supply.State(v), Get(b.supply.indices, (v, u)), Get(pool[v].accountTokens, u)) == Done(delta)
    ensures var w := SupplySide(b, pool, v, now, paid);
      SupplierRewards.Settled(w, u)
        == w.(supplierIndex := w.supplierIndex[u := w.state.index], accrued := b.accrued[u := Get(b.accrued, u) + delta])
  {
    ColumnKey(b.supply.indices, v, u);
    var w := SupplySide(b, pool, v, now, paid);
    assert w.state == b.supply.State(v) && w.accrued == b.accrued && w.tokens == pool[v].accountTokens;
    assert Get(w.supplierIndex, u) == Get(b.supply.indices, (v, u));
    SettledEntry(w, u, delta);
  }

  /// And so is settling one of its suppliers.
  lemma SupplySideSettles(b: Books, pool: Pool, v: MarketId, u: User, now: nat, paid: map<User, nat>)
    requires v in pool && DistributeSupplier(b, pool, v, u).Done?
    ensures SupplySide(DistributeSupplier(b, pool, v, u).value, pool, v, now, paid)
         == SupplierRewards.Settled(SupplySide(b, pool, v, now, paid), u)
  {
    var delta := DeltaOf(b, pool, v, u);
    SupplySideAfter(b, pool, v, u, now, paid, b.accrued[u := Get(b.accrued, u) + delta]);
    SupplySideEntry(b, pool, v, u, now, paid, delta);
  }

  lemma DeltaOf(b: Books, pool: Pool, v: MarketId, u: User) returns (delta: nat)
    requires v in pool && DistributeSupplier(b, pool, v, u).Done?
    ensures Settlement(b.supply.State(v), Get(b.supply.indices, (v, u)), Get(pool[v].accountTokens, u)) == Done(delta)
    ensures DistributeSupplier(b, pool, v, u).value
         == b.(supply := b.supply.Settled(v, u), accrued := b.accrued[u := Get(b.accrued, u) + delta])
  {
    delta := Settlement(b.supply.State(v), Get(b.supply.indices, (v, u)), Get(pool[v].accountTokens, u)).value;
  }

  lemma SettledEntry(w: SupplierRewards.World, u: User, delta: nat)
    requires Settlement(w.state, Get(w.supplierIndex, u), Get(w.tokens, u)) == Done(delta)
    ensures SupplierRewards.Settled(w, u)
         == w.(supplierIndex := w.supplierIndex[u := w.state.index], accrued := w.accrued[u := Get(w.accrued, u) + delta])
  {
  }

  // ---------- one market's borrow side ----------

  /// What BorrowerRewards says about one market is about this part of the books.
  function BorrowSide(b: Books, pool: Pool, v: MarketId, now: nat, accruals: nat): BorrowWorld
    requires v in pool
  {
    BorrowWorld(now, pool[v], accruals, b.borrow.State(v), Get(b.borrow.speeds, v), Column(b.borrow.indices, v), b.accrued)
  }

  /// Updating one market's borrow index is what the single-market model does.
  lemma BorrowSideUpdates(b: Books, pool: Pool, v: MarketId, now: nat, accruals: nat)
    requires v in pool && UpdateBorrowIndex(b, pool, v, now).Done?
    ensures BorrowSide(UpdateBorrowIndex(b, pool, v, now).value, pool, v, now, accruals)
         == IndexUpdated(BorrowSide(b, pool, v, now, accruals))
  {
  }

  /// And so is settling one of its borrowers.
  lemma BorrowSideSettles(b: Books, pool: Pool, v: MarketId, u: User, now: nat, accruals: nat)
    requires v in pool && DistributeBorrower(b, pool, v, u).Done?
    ensures BorrowSide(DistributeBorrower(b, pool, v, u).value, pool, v, now, accruals)
         == BorrowerSettled(BorrowSide(b, pool, v, now, accruals), u)
  {
    var delta := BorrowDeltaOf(b, pool, v, u);
    BorrowSideAfter(b, pool, v, u, now, accruals, b.accrued[u := Get(b.accrued, u) + delta]);
    BorrowSideEntry(b, pool, v, u, now, accruals, delta);
  }

  lemma BorrowSideAfter(b: Books, pool: Pool, v: MarketId, u: User, now: nat, accruals: nat, accrued: map<User, nat>)
    requires v in pool
    ensures var w := BorrowSide(b, pool, v, now, accruals);
      BorrowSide(b.(borrow := b.borrow.Settled(v, u), accrued := accrued), pool, v, now, accruals)
        == w.(borrowerIndex := w.borrowerIndex[u := w.state.index], received := accrued)
  {
    ColumnUpdate(b.borrow.indices, v, u, b.borrow.State(v).index);
  }

  lemma BorrowSideEntry(b: Books, pool: Pool, v: MarketId, u: User, now: nat, accruals: nat, delta: nat)
    requires v in pool
    requires Settlement(b.borrow.State(v), Get(b.borrow.indices, (v, u)), Units(pool[v], u)) == Done(delta)
    ensures var w := BorrowSide(b, pool, v, now, accruals);
      BorrowerSettled(w, u)
        == w.(borrowerIndex := w.borrowerIndex[u := w.state.index], received := b.accrued[u := Get(b.accrued, u) + delta])
  {
    ColumnKey(b.borrow.indices, v, u);
    var w := BorrowSide(b, pool, v, now, accruals);
    assert w.state == b.borrow.State(v) && w.received == b.accrued && w.market == pool[v];
    assert Get(w.borrowerIndex, u) == Get(b.borrow.indices, (v, u));
    SettledBorrower(w, u, delta);
  }

  lemma BorrowDeltaOf(b: Books, pool: Pool, v: MarketId, u: User) returns (delta: nat)
    requires v in pool && DistributeBorrower(b, pool, v, u).Done?
    ensures Settlement(b.borrow.State(v), Get(b.borrow.indices, (v, u)), Units(pool[v], u)) == Done(delta)
    ensures DistributeBorrower(b, pool, v, u).value
         == b.(borrow := b.borrow.Settled(v, u), accrued := b.accrued[u := Get(b.accrued, u) + delta])
  {
    delta := Settlement(b.borrow.State(v), Get(b.borrow.indices, (v, u)), Units(pool[v], u)).value;
  }

  lemma SettledBorrower(w: BorrowWorld, u: User, delta: nat)
    requires Settlement(w.state, Get(w.borrowerIndex, u), Units(w.market, u)) == Done(delta)
    ensures BorrowerSettled(w, u)
         == w.(borrowerIndex := w.borrowerIndex[u := w.state.index], received := w.received[u := Get(w.received, u) + delta])
  {
  }

  // ---------- the contract ----------

  datatype Status = Ok | Failed(error: Error)

  ghost predicate Agrees(outcome: Outcome<Books>, before: Books, status: Status, after: Books) {
    match outcome
    case Done(b) => status == Ok && after == b
    case Revert(e) => status == Failed(e) && after == before
  }

  class RewardsDistributor {
    var supply: Side
    var borrow: Side
    var accrued: map<User, nat>
    var held: nat

    function State(): Books
      reads this
    {
      Books(supply, borrow, accrued, held)
    }

    constructor ()
      ensures State() == Books(Side(map[], map[], map[]), Side(map[], map[], map[]), map[], 0)
    {
      supply, borrow := Side(map[], map[], map[]), Side(map[], map[], map[]);
      accrued, held := map[], 0;
    }

    /// Starts both sides of a market; an index that is set already is kept.
    method InitializeMarket(v: MarketId, now: nat)
      modifies this`supply, this`borrow
      ensures supply == old(supply).(states := old(supply).states[v := Started(old(supply).State(v), now)])
      ensures borrow == old(borrow).(states := old(borrow).states[v := Started(old(borrow).State(v), now)])
      ensures supply.State(v).block == now == borrow.State(v).block
      ensures supply.State(v).index == if old(supply).State(v).index == 0 then INITIAL_INDEX else old(supply).State(v).index
      ensures borrow.State(v).index == if old(borrow).State(v).index == 0 then INITIAL_INDEX else old(borrow).State(v).index
      ensures supply.State(v).lastRewardingBlock == old(supply).State(v).lastRewardingBlock
      ensures borrow.State(v).lastRewardingBlock == old(borrow).State(v).lastRewardingBlock
    {
      var supplyState, borrowState := supply.State(v), borrow.State(v);
      if supplyState.index == 0 {
        supplyState := supplyState.(index := INITIAL_INDEX);
      }
      if borrowState.index == 0 {
        borrowState := borrowState.(index := INITIAL_INDEX);
      }
      supply := supply.(states := supply.states[v := supplyState.(block := now)]);
      borrow := borrow.(states := borrow.states[v := borrowState.(block := now)]);
    }

    /// Both sides' last rewarding blocks are set, or neither.
    method SetLastRewardingBlock(pool: Pool, v: MarketId, supplyLast: nat, borrowLast: nat, now: nat) returns (status: Status)
      requires v in pool
      modifies this`supply, this`borrow
      ensures var s := Rewards.SetLastRewardingBlock(old(supply).State(v), now, supplyLast);
        var b := Rewards.SetLastRewardingBlock(old(borrow).State(v), now, borrowLast);
        if s.Done? && b.Done? then
          && status == Ok
          && supply == old(supply).(states := old(supply).states[v := s.value])
          && borrow == old(borrow).(states := old(borrow).states[v := b.value])
        else status == Failed(RewardsLocked) && State() == old(State())
    {
      if supplyLast <= now || borrowLast <= now {
        return Failed(RewardsLocked);
      }
      var supplyState, borrowState := supply.State(v), borrow.State(v);
      if supplyState.lastRewardingBlock != 0 && supplyState.lastRewardingBlock <= now {
        return Failed(RewardsLocked);
      }
      if borrowState.lastRewardingBlock != 0 && borrowState.lastRewardingBlock <= now {
        return Failed(RewardsLocked);
      }
      supply := supply.(states := supply.states[v := supplyState.(lastRewardingBlock := supplyLast)]);
      borrow := borrow.(states := borrow.states[v := borrowState.(lastRewardingBlock := borrowLast)]);
      status := Ok;
    }

    method UpdateRewardTokenSupplyIndex(pool: Pool, v: MarketId, now: nat) returns (status: Status)
      requires v in pool
      modifies this`supply
      ensures Agrees(UpdateSupplyIndex(old(State()), pool, v, now), old(State()), status, State())
    {
      var st := supply.State(v);
      var until := now;
      if st.lastRewardingBlock > 0 && now > st.lastRewardingBlock {
        until := st.lastRewardingBlock;
      }
      if until < st.block {
        return Failed(Panic);
      }
      var delta := until - st.block;
      var speed := Get(supply.speeds, v);
      if delta > 0 && speed > 0 {
        var ratio := 0;
        if pool[v].totalSupply > 0 {
          ratio := delta * speed * DOUBLE_SCALE / pool[v].totalSupply;
        }
        st := st.(index := st.index + ratio, block := until);
      } else if delta > 0 {
        st := st.(block := until);
      }
      supply := supply.(states := supply.states[v := st]);
      status := Ok;
    }

    method UpdateRewardTokenBorrowIndex(pool: Pool, v: MarketId, now: nat) returns (status: Status)
      requires v in pool
      modifies this`borrow
      ensures Agrees(UpdateBorrowIndex(old(State()), pool, v, now), old(State()), status, State())
    {
      var st := borrow.State(v);
      var until := now;
      if st.lastRewardingBlock > 0 && now > st.lastRewardingBlock {
        until := st.lastRewardingBlock;
      }
      if until < st.block {
        return Failed(Panic);
      }
      var delta := until - st.block;
      var speed := Get(borrow.speeds, v);
      if delta > 0 && speed > 0 {
        var borrowAmount := NormalisedTotal(pool[v]);
        var ratio := 0;
        if borrowAmount > 0 {
          ratio := delta * speed * DOUBLE_SCALE / borrowAmount;
        }
        st := st.(index := st.index + ratio, block := until);
      } else if delta > 0 {
        st := st.(block := until);
      }
      borrow := borrow.(states := borrow.states[v := st]);
      status := Ok;
    }

    method DistributeSupplierRewardToken(pool: Pool, v: MarketId, u: User) returns (status: Status)
      requires v in pool
      modifies this`supply, this`accrued
      ensures Agrees(DistributeSupplier(old(State()), pool, v, u), old(State()), status, State())
    {
      var supplyIndex := supply.State(v).index;
      var supplierIndex := Get(supply.indices, (v, u));
      if supplierIndex == 0 && supplyIndex >= INITIAL_INDEX {
        supplierIndex := INITIAL_INDEX;
      }
      if supplyIndex < supplierIndex {
        return Failed(Panic);
      }
      var supplierDelta := Accrual(Get(pool[v].accountTokens, u), supplyIndex - supplierIndex);
      supply := supply.(indices := supply.indices[(v, u) := supplyIndex]);
      accrued := accrued[u := Get(accrued, u) + supplierDelta];
      status := Ok;
    }

    method DistributeBorrowerRewardToken(pool: Pool, v: MarketId, u: User) returns (status: Status)
      requires v in pool
      modifies this`borrow, this`accrued
      ensures Agrees(DistributeBorrower(old(State()), pool, v, u), old(State()), status, State())
    {
      var borrowIndex := borrow.State(v).index;
      var borrowerIndex := Get(borrow.indices, (v, u));
      if borrowerIndex == 0 && borrowIndex >= INITIAL_INDEX {
        borrowerIndex := INITIAL_INDEX;
      }
      if borrowIndex < borrowerIndex {
        return Failed(Panic);
      }
      var borrowerAmount := Units(pool[v], u);
      var borrowerDelta := Accrual(borrowerAmount, borrowIndex - borrowerIndex);
      borrow := borrow.(indices := borrow.indices[(v, u) := borrowIndex]);
      accrued := accrued[u := Get(accrued, u) + borrowerDelta];
      status := Ok;
    }

    method SettleOneMarket(pool: Pool, v: MarketId, u: User, now: nat) returns (status: Status)
      modifies this`supply, this`borrow, this`accrued
      ensures match SettleMarket(old(State()), pool, v, u, now)
        case Done(b) => status == Ok && State() == b
        case Revert(e) => status == Failed(e)
    {
      if v !in pool {
        return Failed(MarketNotListed);
      }
      status := UpdateRewardTokenBorrowIndex(pool, v, now);
      if status == Ok {
        status := DistributeBorrowerRewardToken(pool, v, u);
      }
      if status == Ok {
        status := UpdateRewardTokenSupplyIndex(pool, v, now);
      }
      if status == Ok {
        status := DistributeSupplierRewardToken(pool, v, u);
      }
    }

    /// Claims the rewards of a list of markets, all or nothing.
    method ClaimRewardToken(pool: Pool, vs: seq<MarketId>, u: User, now: nat) returns (status: Status)
      modifies this
      ensures Agrees(Claim(old(State()), pool, vs, u, now), old(State()), status, State())
    {
      var saved := State();
      for i := 0 to |vs|
        invariant SettleMarkets(saved, pool, vs, u, now) == SettleMarkets(State(), pool, vs[i..], u, now)
      {
        status := SettleOneMarket(pool, vs[i], u, now);
        assert vs[i..][1..] == vs[i + 1..];
        if status != Ok {
          supply, borrow, accrued := saved.supply, saved.borrow, saved.accrued;
          held := saved.held;
          return;
        }
      }
      var amount := Get(accrued, u);
      if amount > 0 && amount <= held {
        held := held - amount;
        accrued := accrued[u := 0];
      } else {
        accrued := accrued[u := amount];
      }
      status := Ok;
    }

    /// A side whose speed changes is first brought up to date at the present speed.
    method SetRewardTokenSpeed(pool: Pool, v: MarketId, supplySpeed: nat, borrowSpeed: nat, now: nat)
      returns (status: Status)
      requires v in pool
      modifies this`supply, this`borrow
      ensures status == Ok ==>
        && supply.speeds == old(supply).speeds[v := supplySpeed]
        && borrow.speeds == old(borrow).speeds[v := borrowSpeed]
        && (Get(old(supply).speeds, v) != supplySpeed ==>
              old(supply).Updated(v, now, pool[v].totalSupply) == Done(supply.(speeds := old(supply).speeds)))
        && (Get(old(supply).speeds, v) == supplySpeed ==> supply.states == old(supply).states)
        && (Get(old(borrow).speeds, v) != borrowSpeed ==>
              old(borrow).Updated(v, now, NormalisedTotal(pool[v])) == Done(borrow.(speeds := old(borrow).speeds)))
        && (Get(old(borrow).speeds, v) == borrowSpeed ==> borrow.states == old(borrow).states)
        && supply.indices == old(supply).indices && borrow.indices == old(borrow).indices
      ensures status != Ok ==> State() == old(State())
    {
      var saved := State();
      if Get(supply.speeds, v) != supplySpeed {
        status := UpdateRewardTokenSupplyIndex(pool, v, now);
        if status != Ok {
          return;
        }
      }
      supply := supply.(speeds := supply.speeds[v := supplySpeed]);
      if Get(borrow.speeds, v) != borrowSpeed {
        status := UpdateRewardTokenBorrowIndex(pool, v, now);
        if status != Ok {
          supply := saved.supply;
          return;
        }
      }
      borrow := borrow.(speeds := borrow.speeds[v := borrowSpeed]);
      status := Ok;
    }
  }
}
