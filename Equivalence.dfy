/**
 * How the lazy ledger relates to the eager one.
 *
 * The lazy ledger settles a holder with its stake over the total it saw at its own snapshot.
 * As long as the index has only moved by revenue injected at increment 10000 since that
 * snapshot, the settlement equals the sum of what the eager ledger credits for the same stake
 * over the same total, revenue by revenue. Nothing is promised once the totals differ.
 */
module Equivalence {
  import opened Accounting
  import NaiveDistribution
  import OptimizedDistribution

  /** The index after a run of `addRevenue(amounts[i])` calls while the increment stays `increment`. */
  function IndexAfter(index: Extended, increment: Extended, amounts: seq<real>): (r: Extended)
    ensures index.Finite? && increment.Finite? ==> r.Finite?
    ensures increment == Finite(OptimizedDistribution.IncrementInit) && index.Finite? ==>
      r.value == index.value + OptimizedDistribution.IncrementInit * SeqSum(amounts)
  {
    if amounts == [] then index
    else Plus(IndexAfter(index, increment, amounts[..|amounts| - 1]), Times(increment, Finite(amounts[|amounts| - 1])))
  }

  /** What the eager ledger credits a holder of `share` out of `totalShare` over a run of revenues. */
  function NaiveAccrual(share: real, totalShare: real, amounts: seq<real>): (r: Extended)
    ensures r.Finite? <==> totalShare != 0.0 || amounts == []
  {
    if amounts == [] then Finite(0.0)
    else Plus(NaiveAccrual(share, totalShare, amounts[..|amounts| - 1]),
              NaiveDistribution.Increment(share, totalShare, amounts[|amounts| - 1]))
  }

  /** Per revenue, the lazy accrual of a record is the eager increment for its stake and snapshot total. */
  lemma AccrualIsIncrement(u: OptimizedDistribution.UserData, amount: real)
    requires u.ownStake >= 0.0 && u.lastTotalStake > 0.0
    ensures Finite(OptimizedDistribution.Accrual(u, amount))
         == NaiveDistribution.Increment(u.ownStake, u.lastTotalStake, amount)
  {
  }

  /** A record settled at its own snapshot index has nothing pending. */
  lemma NothingPendingAtSnapshot(u: OptimizedDistribution.UserData)
    requires u.lastIndex.Finite? && u.ownStake >= 0.0
    requires u.ownStake > 0.0 ==>
      u.lastIncrementPerRevenue == Finite(OptimizedDistribution.IncrementInit) && u.lastTotalStake > 0.0
    ensures OptimizedDistribution.Settlement(u, u.lastIndex) == Finite(0.0)
  {
    if u.ownStake > 0.0 {
      var denominator := OptimizedDistribution.IncrementInit * u.lastTotalStake;
      assert Minus(u.lastIndex, u.lastIndex) == Finite(0.0);
      assert Times(Finite(0.0), Finite(u.ownStake)) == Finite(0.0);
      assert Times(u.lastIncrementPerRevenue, Finite(u.lastTotalStake)) == Finite(denominator);
      assert denominator != 0.0 && 0.0 / denominator == 0.0;
    }
  }

  /**
   * The restricted equivalence: after any run of revenues injected at increment 10000 since a
   * holder's snapshot, settling it pays exactly what the eager ledger would have credited it for
   * the same stake over the snapshot's total.
   */
  lemma {:induction false} LazyMatchesEager(u: OptimizedDistribution.UserData, amounts: seq<real>)
    requires u.lastIndex.Finite? && u.ownStake >= 0.0 && u.lastTotalStake > 0.0
    requires u.ownStake > 0.0 ==> u.lastIncrementPerRevenue == Finite(OptimizedDistribution.IncrementInit)
    ensures OptimizedDistribution.Settlement(u, IndexAfter(u.lastIndex, Finite(OptimizedDistribution.IncrementInit), amounts))
         == NaiveAccrual(u.ownStake, u.lastTotalStake, amounts)
    decreases |amounts|
  {
    if amounts == [] {
      NothingPendingAtSnapshot(u);
    } else {
      var prefix, last := amounts[..|amounts| - 1], amounts[|amounts| - 1];
      LazyMatchesEager(u, prefix);
      OptimizedDistribution.RevenueAccrues(u, IndexAfter(u.lastIndex, Finite(OptimizedDistribution.IncrementInit), prefix), last);
      AccrualIsIncrement(u, last);
    }
  }

  /**
   * Both ledgers receive the same run of revenues. For every address whose lazy snapshot was
   * taken at the starting index and whose stake and snapshot total match the eager ledger's share
   * and total, the eager credits add up to the lazy pending settlement.
   */
  method RunRevenue(eager: NaiveDistribution.DistributionContract, lazy: OptimizedDistribution.DistributionContract,
                    amounts: seq<real>)
    requires eager.Valid() && lazy.Valid()
    requires eager.totalShare > 0.0 && lazy.totalStake > 0.0
    requires lazy.index.Finite?
    requires forall i :: 0 <= i < |amounts| ==> amounts[i] > 0.0
    modifies eager, lazy
    ensures eager.Valid() && lazy.Valid()
    ensures lazy.userDataMap == old(lazy.userDataMap) && eager.userStateMap.Keys == old(eager.userStateMap.Keys)
    ensures lazy.index == IndexAfter(old(lazy.index), Finite(OptimizedDistribution.IncrementInit), amounts)
    ensures forall a :: a in eager.userStateMap ==>
      eager.userStateMap[a].revenue
        == Plus(old(eager.userStateMap[a].revenue), NaiveAccrual(eager.userStateMap[a].share, eager.totalShare, amounts))
    ensures forall a :: a in eager.userStateMap && a in lazy.userDataMap
                        && lazy.userDataMap[a].lastIndex == old(lazy.index)
                        && lazy.userDataMap[a].ownStake == eager.userStateMap[a].share
                        && lazy.userDataMap[a].lastTotalStake == eager.totalShare ==>
      eager.userStateMap[a].revenue
        == Plus(old(eager.userStateMap[a].revenue), OptimizedDistribution.Settlement(lazy.userDataMap[a], lazy.index))
  {
    var i := 0;
    while i < |amounts|
      invariant 0 <= i <= |amounts|
      invariant eager.Valid() && lazy.Valid()
      invariant eager.totalShare == old(eager.totalShare)
      invariant eager.userStateMap.Keys == old(eager.userStateMap.Keys)
      invariant forall a :: a in eager.userStateMap ==> eager.userStateMap[a].share == old(eager.userStateMap[a].share)
      invariant forall a :: a in eager.userStateMap ==>
        eager.userStateMap[a].revenue
          == Plus(old(eager.userStateMap[a].revenue), NaiveAccrual(eager.userStateMap[a].share, eager.totalShare, amounts[..i]))
      invariant lazy.userDataMap == old(lazy.userDataMap) && lazy.totalStake == old(lazy.totalStake)
      invariant lazy.incrementPerRevenue == Finite(OptimizedDistribution.IncrementInit)
      invariant lazy.index == IndexAfter(old(lazy.index), Finite(OptimizedDistribution.IncrementInit), amounts[..i])
    {
      ghost var before := eager.userStateMap;
      var eagerStatus := eager.AddRevenue(amounts[i]);
      var lazyStatus := lazy.AddRevenue(amounts[i]);
      assert amounts[..i + 1][..i] == amounts[..i];
      forall a | a in eager.userStateMap
        ensures eager.userStateMap[a].revenue
          == Plus(old(eager.userStateMap[a].revenue), NaiveAccrual(eager.userStateMap[a].share, eager.totalShare, amounts[..i + 1]))
      {
        PlusAssociative(old(eager.userStateMap[a].revenue),
                        NaiveAccrual(before[a].share, eager.totalShare, amounts[..i]),
                        NaiveDistribution.Increment(before[a].share, eager.totalShare, amounts[i]));
      }
      i := i + 1;
    }
    assert amounts[..i] == amounts;
    forall a | a in eager.userStateMap && a in lazy.userDataMap
               && lazy.userDataMap[a].lastIndex == old(lazy.index)
               && lazy.userDataMap[a].ownStake == eager.userStateMap[a].share
               && lazy.userDataMap[a].lastTotalStake == eager.totalShare
      ensures eager.userStateMap[a].revenue
        == Plus(old(eager.userStateMap[a].revenue), OptimizedDistribution.Settlement(lazy.userDataMap[a], lazy.index))
    {
      assert OptimizedDistribution.WellFormed(lazy.userDataMap[a], lazy.index);
      LazyMatchesEager(lazy.userDataMap[a], amounts);
    }
  }
}
