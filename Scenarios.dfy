/**
 * Concrete runs of both ledgers. Each method drives fresh contracts through a fixed sequence of
 * calls and its postcondition states the exact outcome.
 */
module Scenarios {
  import opened Accounting
  import NaiveDistribution
  import OptimizedDistribution

  /** The two-holder share map used below: A holds 40, B holds 60. */
  function FortySixty(): (m: map<string, int>)
    ensures m.Keys == {"A", "B"} && m["A"] == 40 && m["B"] == 60
  {
    map["A" := 40, "B" := 60]
  }

  lemma FortySixtyTotal()
    ensures Sum(AsReals(FortySixty())) == 100.0
  {
    assert AsReals(FortySixty()) == map["A" := 40.0, "B" := 60.0];
    SumOfTwo("A", 40.0, "B", 60.0);
  }

  /** The eager ledger after A joins with 30 and B with 70. */
  method EagerThirtySeventy() returns (c: NaiveDistribution.DistributionContract)
    ensures fresh(c) && c.Valid() && c.totalShare == 100.0
    ensures c.userStateMap == map["A" := NaiveDistribution.UserState(30.0, Finite(0.0)),
                                  "B" := NaiveDistribution.UserState(70.0, Finite(0.0))]
  {
    c := new NaiveDistribution.DistributionContract();
    var status := c.ChangeShare("A", 30.0);
    assert c.userStateMap == map["A" := NaiveDistribution.UserState(30.0, Finite(0.0))];
    status := c.ChangeShare("B", 70.0);
  }

  /** With stakes 30 and 70, one eager distribution credits A 30% and B 70% of the amount. */
  method EagerFairness(amount: real) returns (creditA: Extended, creditB: Extended)
    requires amount > 0.0
    ensures creditA == Finite(0.3 * amount) && creditB == Finite(0.7 * amount)
  {
    var c := EagerThirtySeventy();
    assert NaiveDistribution.Increment(30.0, 100.0, amount) == Finite(0.3 * amount);
    assert NaiveDistribution.Increment(70.0, 100.0, amount) == Finite(0.7 * amount);
    var status := c.AddRevenue(amount);
    creditA := c.userStateMap["A"].revenue;
    creditB := c.userStateMap["B"].revenue;
  }

  /**
   * Built from the map {A: 40, B: 60}, both holders share one snapshot of the total. After
   * `addRevenue(100)`, settling A through `changeShare(A, +1)` pays what the eager ledger credits.
   */
  method SettlementAgrees() returns (eager: Extended, lazy: Extended)
    ensures eager == Finite(40.0) && lazy == Finite(40.0)
  {
    FortySixtyTotal();
    var e := NaiveDistribution.DistributionContract.FromShares(FortySixty());
    assert e.totalShare == 100.0 && e.userStateMap["A"] == NaiveDistribution.UserState(40.0, Finite(0.0));
    var status := e.AddRevenue(100.0);
    eager := e.userStateMap["A"].revenue;
    lazy := LazySettlement();
  }

  /** The lazy ledger built from {A: 40, B: 60}, after `addRevenue(100)`. */
  method LazyFortySixty() returns (z: OptimizedDistribution.DistributionContract)
    ensures fresh(z) && z.Valid()
    ensures z.totalStake == 100.0 && z.index == Finite(2000000.0)
    ensures z.userDataMap.Keys == {"A", "B"}
    ensures z.userDataMap["A"] == OptimizedDistribution.UserData(40.0, 100.0, Finite(10000.0), Finite(0.0), Finite(1000000.0))
  {
    FortySixtyTotal();
    var built := OptimizedDistribution.DistributionContract.FromShares(FortySixty());
    z := built;
    var status := z.AddRevenue(100.0);
  }

  /** The lazy half of `SettlementAgrees`. */
  method LazySettlement() returns (lazy: Extended)
    ensures lazy == Finite(40.0)
  {
    var z := LazyFortySixty();
    assert OptimizedDistribution.Settlement(z.userDataMap["A"], z.index) == Finite(40.0);
    var status := z.ChangeShare("A", 1.0);
    lazy := z.userDataMap["A"].ownAccumulatedTotal;
  }

  /**
   * A joins with 40, then B with 60, so A's snapshot total is still 40. After `addRevenue(100)`
   * the eager ledger credits A 40 and B 60; settling both lazily pays A 100 and B 60, so the lazy
   * ledger pays out 160 for a revenue of 100.
   */
  method StaleSnapshot() returns (eagerA: Extended, eagerB: Extended, lazyA: Extended, lazyB: Extended)
    ensures eagerA == Finite(40.0) && eagerB == Finite(60.0)
    ensures lazyA == Finite(100.0) && lazyB == Finite(60.0)
  {
    var e := new NaiveDistribution.DistributionContract();
    var status := e.ChangeShare("A", 40.0);
    status := e.ChangeShare("B", 60.0);
    assert e.totalShare == 100.0;
    assert e.userStateMap == map["A" := NaiveDistribution.UserState(40.0, Finite(0.0)),
                                 "B" := NaiveDistribution.UserState(60.0, Finite(0.0))];
    status := e.AddRevenue(100.0);
    eagerA, eagerB := e.userStateMap["A"].revenue, e.userStateMap["B"].revenue;
    lazyA, lazyB := LazyStaleSnapshot();
  }

  /** The lazy ledger after A joins with 40, B joins with 60 and `addRevenue(100)`. */
  method LazyJoinedOneByOne() returns (z: OptimizedDistribution.DistributionContract)
    ensures fresh(z) && z.Valid()
    ensures z.totalStake == 100.0 && z.index == Finite(2000000.0)
    ensures z.userDataMap == map["A" := OptimizedDistribution.UserData(40.0, 40.0, Finite(10000.0), Finite(0.0), Finite(1000000.0)),
                                 "B" := OptimizedDistribution.UserData(60.0, 100.0, Finite(10000.0), Finite(0.0), Finite(1000000.0))]
  {
    z := new OptimizedDistribution.DistributionContract();
    var status := z.ChangeShare("A", 40.0);
    var snapshotA := OptimizedDistribution.UserData(40.0, 40.0, Finite(10000.0), Finite(0.0), Finite(1000000.0));
    assert z.userDataMap == map["A" := snapshotA] && z.totalStake == 40.0;
    status := z.ChangeShare("B", 60.0);
    status := z.AddRevenue(100.0);
  }

  /** The lazy half of `StaleSnapshot`. */
  method LazyStaleSnapshot() returns (lazyA: Extended, lazyB: Extended)
    ensures lazyA == Finite(100.0) && lazyB == Finite(60.0)
  {
    var z := LazyJoinedOneByOne();
    var snapshotB := z.userDataMap["B"];
    assert OptimizedDistribution.Settlement(z.userDataMap["A"], z.index) == Finite(100.0);
    assert OptimizedDistribution.Settlement(snapshotB, z.index) == Finite(60.0);
    var status := z.ChangeShare("A", 1.0);
    assert z.userDataMap["B"] == snapshotB;
    status := z.ChangeShare("B", 1.0);
    lazyA, lazyB := z.userDataMap["A"].ownAccumulatedTotal, z.userDataMap["B"].ownAccumulatedTotal;
  }

  /**
   * In the eager ledger a change rejected because the holder would go negative still leaves the
   * new total behind: A 10 and B 5, then `changeShare(A, -12)` fails with the total at 3.
   */
  method PartialRevert() returns (status: Status, totalShare: real, shareA: real, shareB: real)
    ensures status == Revert && totalShare == 3.0 && shareA == 10.0 && shareB == 5.0
  {
    var c := new NaiveDistribution.DistributionContract();
    status := c.ChangeShare("A", 10.0);
    status := c.ChangeShare("B", 5.0);
    status := c.ChangeShare("A", -12.0);
    totalShare, shareA, shareB := c.totalShare, c.userStateMap["A"].share, c.userStateMap["B"].share;
  }

  /**
   * In the lazy ledger the last holder leaving takes the rescale branch, which divides by the
   * zero total: the increment becomes non-finite, the next revenue makes the index non-finite for
   * good, and a holder joining afterwards resets the increment but snapshots a non-finite index.
   */
  method EmptyPool() returns (incrementAfterExit: Extended, indexAfterRevenue: Extended,
                              incrementAfterRejoin: Extended, rejoinSnapshot: Extended)
    ensures incrementAfterExit == NonFinite && indexAfterRevenue == NonFinite
    ensures incrementAfterRejoin == Finite(OptimizedDistribution.IncrementInit) && rejoinSnapshot == NonFinite
  {
    var z := LazyEmptied();
    incrementAfterExit := z.incrementPerRevenue;
    var status := z.AddRevenue(5.0);
    indexAfterRevenue := z.index;
    status := z.ChangeShare("A", 10.0);
    incrementAfterRejoin, rejoinSnapshot := z.incrementPerRevenue, z.userDataMap["A"].lastIndex;
  }

  /** The lazy ledger after A joins with 10 and then leaves with all of it. */
  method LazyEmptied() returns (z: OptimizedDistribution.DistributionContract)
    ensures fresh(z) && z.Valid()
    ensures z.totalStake == 0.0 && z.incrementPerRevenue == NonFinite && z.index.Finite?
  {
    z := new OptimizedDistribution.DistributionContract();
    var status := z.ChangeShare("A", 10.0);
    var snapshotA := OptimizedDistribution.UserData(10.0, 10.0, Finite(10000.0), Finite(0.0), Finite(1000000.0));
    assert z.userDataMap == map["A" := snapshotA] && z.totalStake == 10.0 && z.index == Finite(1000000.0);
    status := z.ChangeShare("A", -10.0);
  }
}
