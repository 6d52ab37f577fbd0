/** Reward accrual for one side of one market: the index that is updated lazily and the settlement of
    one user against it, as RewardsDistributor computes them for suppliers and borrowers alike. */
module Rewards {
  import opened FixedPoint
  import opened Outcomes
  import opened Ledger

  type User = Account

  const INITIAL_INDEX: nat := DOUBLE_SCALE

  /// lastRewardingBlock 0 stands for "no end".
  datatype RewardState = RewardState(index: nat, block: nat, lastRewardingBlock: nat)

  function RewardedUntil(st: RewardState, now: nat): nat {
    if st.lastRewardingBlock > 0 && now > st.lastRewardingBlock then st.lastRewardingBlock else now
  }

  function IndexGrowth(blocks: nat, speed: nat, total: nat): nat {
    if total > 0 then blocks * speed * DOUBLE_SCALE / total else 0
  }

  /// Brings the index up to date for `total` units sharing `speed` per block.
  function UpdateIndex(st: RewardState, speed: nat, now: nat, total: nat): Outcome<RewardState> {
    var until := RewardedUntil(st, now);
    if until < st.block then Revert(Panic)
    else
      var blocks := until - st.block;
      if blocks > 0 && speed > 0 then
        Done(st.(index := st.index + IndexGrowth(blocks, speed, total), block := until))
      else if blocks > 0 then Done(st.(block := until))
      else Done(st)
  }

  /// A user never settled before is settled from the index the market started with.
  function EffectiveIndex(userIndex: nat, index: nat): nat {
    if userIndex == 0 && index >= INITIAL_INDEX then INITIAL_INDEX else userIndex
  }

  function Accrual(units: nat, deltaIndex: nat): nat {
    units * deltaIndex / DOUBLE_SCALE
  }

  /// What a user with `units` of the market has accrued since the user's index.
  function Settlement(st: RewardState, userIndex: nat, units: nat): Outcome<nat> {
    var from := EffectiveIndex(userIndex, st.index);
    if st.index < from then Revert(Panic)
    else Done(Accrual(units, st.index - from))
  }

  /// Changing the last rewarding block: both the new one and a present one must lie in the future.
  function SetLastRewardingBlock(st: RewardState, now: nat, last: nat): Outcome<RewardState> {
    if last <= now then Revert(RewardsLocked)
    else if st.lastRewardingBlock != 0 && st.lastRewardingBlock <= now then Revert(RewardsLocked)
    else Done(st.(lastRewardingBlock := last))
  }
}
