/**
 * The optimized (lazy-accumulator) revenue-distribution contract.
 *
 * Global data: `totalStake`, `incrementPerRevenue` and an `index` that `addRevenue` bumps by
 * `incrementPerRevenue * amount`. Each holder keeps its `ownStake`, what has been settled to it
 * so far (`ownAccumulatedTotal`) and a snapshot of the globals taken when its stake last
 * changed (`lastIndex`, `lastIncrementPerRevenue`, `lastTotalStake`). Nothing is paid out per
 * revenue event: a holder is settled only when its own stake changes, with
 * `(index - lastIndex) * ownStake / (lastIncrementPerRevenue * lastTotalStake)`.
 */
module OptimizedDistribution {
  import opened Accounting

  /** INDEX_INIT: the index of a new contract. */
  const IndexInit: real := 1000000.0

  /** INCR_PER_REV_INIT: the increment per revenue unit whenever the total stake is not zero. */
  const IncrementInit: real := 10000.0

  /** Per-address data, fields in the order of the Java `UserData` class. */
  datatype UserData = UserData(
    ownStake: real,
    lastTotalStake: real,
    lastIncrementPerRevenue: Extended,
    ownAccumulatedTotal: Extended,
    lastIndex: Extended)

  /** Address -> stake, the quantity `totalStake` adds up. */
  function Stakes(holders: map<string, UserData>): (r: map<string, real>)
    ensures r.Keys == holders.Keys
  {
    map a | a in holders :: holders[a].ownStake
  }

  lemma StakesUpdate(holders: map<string, UserData>, a: string, u: UserData)
    ensures Stakes(holders[a := u]) == Stakes(holders)[a := u.ownStake]
  {
  }

  /**
   * What every stored record satisfies between calls, given the current index: a holder with
   * stake took its snapshot while the increment was 10000 and the total at least its own stake,
   * so its settlement never divides by zero; nothing is negative; its snapshot index is not
   * ahead of the index.
   */
  ghost predicate WellFormed(u: UserData, index: Extended) {
    && u.ownStake >= 0.0
    && (u.ownStake > 0.0 ==>
          u.lastIncrementPerRevenue == Finite(IncrementInit) && u.lastTotalStake >= u.ownStake)
    && NonNegative(u.ownAccumulatedTotal)
    && AtMost(u.lastIndex, index)
  }

  /** Sign of a settlement, on plain numbers. */
  lemma SettlementSign(progress: real, own: real, lastTotal: real)
    requires progress >= 0.0 && own > 0.0 && lastTotal > 0.0
    ensures progress * own / (IncrementInit * lastTotal) >= 0.0
  {
    assert progress * own >= 0.0;
    assert IncrementInit * lastTotal > 0.0;
  }

  /**
   * Phase 1 of `changeShare` (`freshOwn`): what `u` has earned since its snapshot, judged by
   * `index`. Zero for a holder without stake; otherwise the index progress times the stake over
   * the snapshot's increment times total.
   */
  function Settlement(u: UserData, index: Extended): (r: Extended)
    ensures u.ownStake == 0.0 ==> r == Finite(0.0)
  {
    if u.ownStake == 0.0 then Finite(0.0)
    else Over(Times(Minus(index, u.lastIndex), Finite(u.ownStake)),
              Times(u.lastIncrementPerRevenue, Finite(u.lastTotalStake)))
  }

  /**
   * A well-formed record never settles a negative amount, and settles a finite one while the
   * index and its snapshot are finite: the denominator is 10000 times a positive total.
   */
  lemma SettlementBounds(u: UserData, index: Extended)
    requires WellFormed(u, index)
    ensures NonNegative(Settlement(u, index))
    ensures index.Finite? && u.lastIndex.Finite? ==> Settlement(u, index).Finite?
  {
    if u.ownStake > 0.0 && index.Finite? && u.lastIndex.Finite? {
      SettlementSign(index.value - u.lastIndex.value, u.ownStake, u.lastTotalStake);
    }
  }

  /** What `u` would hold if it were settled now: the settled total plus the pending settlement. */
  function Entitlement(u: UserData, index: Extended): Extended {
    Plus(u.ownAccumulatedTotal, Settlement(u, index))
  }

  /**
   * Settling a record and re-snapshotting it at the current (finite) index neither creates nor
   * destroys revenue: what it would hold if settled now is unchanged, whatever its new stake.
   */
  lemma ResnapshotKeepsEntitlement(u: UserData, u': UserData, index: Extended)
    requires index.Finite?
    requires u'.lastIndex == index
    requires u'.ownAccumulatedTotal == Plus(u.ownAccumulatedTotal, Settlement(u, index))
    requires u'.ownStake >= 0.0
    requires u'.ownStake > 0.0 ==>
      u'.lastIncrementPerRevenue == Finite(IncrementInit) && u'.lastTotalStake > 0.0
    ensures Entitlement(u', index) == Entitlement(u, index)
  {
    if u'.ownStake != 0.0 {
      var denominator := IncrementInit * u'.lastTotalStake;
      assert Minus(index, u'.lastIndex) == Finite(0.0);
      assert Times(Finite(0.0), Finite(u'.ownStake)) == Finite(0.0);
      assert Times(u'.lastIncrementPerRevenue, Finite(u'.lastTotalStake)) == Finite(denominator);
      assert denominator != 0.0 && 0.0 / denominator == 0.0;
    }
  }

  /** The share of `amount` the lazy scheme assigns `u`: its stake over its snapshot total. */
  function Accrual(u: UserData, amount: real): (r: real)
    requires u.ownStake >= 0.0 && (u.ownStake > 0.0 ==> u.lastTotalStake > 0.0)
    ensures amount >= 0.0 ==> r >= 0.0
    ensures u.ownStake > 0.0 ==> r * u.lastTotalStake == u.ownStake * amount
  {
    if u.ownStake == 0.0 then 0.0 else u.ownStake / u.lastTotalStake * amount
  }

  /** The arithmetic behind `RevenueAccrues`, on plain numbers. */
  lemma AccrualArithmetic(progress: real, own: real, lastTotal: real, amount: real)
    requires own > 0.0 && lastTotal > 0.0
    ensures (progress + IncrementInit * amount) * own / (IncrementInit * lastTotal)
         == progress * own / (IncrementInit * lastTotal) + own / lastTotal * amount
  {
    var d := IncrementInit * lastTotal;
    calc {
      (progress + IncrementInit * amount) * own / d;
      progress * own / d + IncrementInit * amount * own / d;
      { assert IncrementInit * amount * own / d == own / lastTotal * amount; }
      progress * own / d + own / lastTotal * amount;
    }
  }

  /**
   * Revenue injected while the increment is 10000 raises a well-formed holder's pending
   * settlement by exactly its `Accrual`.
   */
  lemma RevenueAccrues(u: UserData, index: Extended, amount: real)
    requires u.ownStake >= 0.0
    requires u.ownStake > 0.0 ==>
      u.lastIncrementPerRevenue == Finite(IncrementInit) && u.lastTotalStake > 0.0
    ensures Settlement(u, Plus(index, Times(Finite(IncrementInit), Finite(amount))))
         == Plus(Settlement(u, index), Finite(Accrual(u, amount)))
  {
    var next := Plus(index, Times(Finite(IncrementInit), Finite(amount)));
    if u.ownStake > 0.0 && index.Finite? && u.lastIndex.Finite? {
      var progress := index.value - u.lastIndex.value;
      assert next.value - u.lastIndex.value == progress + IncrementInit * amount;
      AccrualArithmetic(progress, u.ownStake, u.lastTotalStake, amount);
    }
  }

  /**
   * The invariant of the contract's state: the total is the sum of the stakes; the increment is
   * 10000 unless the total has dropped to zero through the rescale branch; the index has not
   * moved below its initial value; every record is well formed.
   */
  ghost predicate Invariant(holders: map<string, UserData>, totalStake: real, incrementPerRevenue: Extended, index: Extended) {
    && totalStake >= 0.0
    && totalStake == Sum(Stakes(holders))
    && (incrementPerRevenue == Finite(IncrementInit)
        || (incrementPerRevenue.NonFinite? && totalStake == 0.0))
    && AtMost(Finite(IndexInit), index)
    && forall a :: a in holders ==> WellFormed(holders[a], index)
  }

  /**
   * `getOrDefault`: the stored record, or for a new address a record with no stake, nothing
   * settled and a snapshot of the current globals.
   */
  function HolderIn(holders: map<string, UserData>, dest: string, totalStake: real, incrementPerRevenue: Extended, index: Extended): (u: UserData)
    ensures dest in holders ==> u == holders[dest]
    ensures dest !in holders ==> u.ownStake == 0.0 && u.ownAccumulatedTotal == Finite(0.0) && u.lastIndex == index
  {
    if dest in holders then holders[dest]
    else UserData(0.0, totalStake, incrementPerRevenue, Finite(0.0), index)
  }

  /** A record after a successful `changeShare`: Phase 1 settled, Phase 3 committed and re-snapshotted. */
  function Committed(u: UserData, change: real, totalStake: real, incrementPerRevenue: Extended, index: Extended): (r: UserData)
    ensures r.ownStake - u.ownStake == change
    ensures r.lastTotalStake == totalStake && r.lastIncrementPerRevenue == incrementPerRevenue && r.lastIndex == index
  {
    UserData(u.ownStake + change, totalStake, incrementPerRevenue,
             Plus(u.ownAccumulatedTotal, Settlement(u, index)), index)
  }

  /** Whatever address `changeShare` is given, the record it starts from is well formed. */
  lemma HolderWellFormed(holders: map<string, UserData>, totalStake: real, incrementPerRevenue: Extended,
                         index: Extended, dest: string)
    requires Invariant(holders, totalStake, incrementPerRevenue, index)
    ensures WellFormed(HolderIn(holders, dest, totalStake, incrementPerRevenue, index), index)
  {
    if dest in holders {
      assert WellFormed(holders[dest], index);
    } else {
      assert AtMost(index, index);
    }
  }

  /** The increment after Phase 2 of a successful change, given the invariant held before it. */
  function IncrementFor(totalStake: real): (r: Extended)
    ensures r.Finite? <==> totalStake != 0.0
    ensures r.Finite? ==> r.value == IncrementInit
  {
    if totalStake != 0.0 then Finite(IncrementInit) else NonFinite
  }

  /** The record a successful change to `dest` stores. */
  function CommittedFor(holders: map<string, UserData>, totalStake: real, incrementPerRevenue: Extended,
                        index: Extended, dest: string, change: real): (r: UserData)
    ensures r.ownStake == HolderIn(holders, dest, totalStake, incrementPerRevenue, index).ownStake + change
  {
    Committed(HolderIn(holders, dest, totalStake, incrementPerRevenue, index),
              change, totalStake + change, IncrementFor(totalStake + change), index)
  }

  /** An address without stake or settled revenue is entitled to nothing. */
  lemma NewcomerEntitlement(u: UserData, index: Extended)
    requires u.ownStake == 0.0 && u.ownAccumulatedTotal == Finite(0.0)
    ensures Entitlement(u, index) == Finite(0.0)
  {
  }

  /** No holder's stake exceeds the total. */
  lemma HolderStakeBound(holders: map<string, UserData>, totalStake: real, incrementPerRevenue: Extended,
                         index: Extended, dest: string)
    requires Invariant(holders, totalStake, incrementPerRevenue, index)
    ensures HolderIn(holders, dest, totalStake, incrementPerRevenue, index).ownStake <= totalStake
  {
    if dest in holders {
      assert forall a :: a in Stakes(holders) ==> Stakes(holders)[a] >= 0.0 by {
        forall a | a in Stakes(holders)
          ensures Stakes(holders)[a] >= 0.0
        {
          assert WellFormed(holders[a], index);
        }
      }
      SumAtLeastEach(Stakes(holders), dest);
    }
  }

  /**
   * Storing for `dest` a record whose stake is `change` above the old one (zero for a new
   * address) moves the sum of the stakes by `change`; when no stake is negative, the new stake is
   * at most the new sum.
   */
  lemma CommittedStakeBound(holders: map<string, UserData>, totalStake: real, dest: string, u': UserData, change: real)
    requires totalStake == Sum(Stakes(holders))
    requires forall a :: a in holders ==> holders[a].ownStake >= 0.0
    requires u'.ownStake >= 0.0
    requires u'.ownStake == (if dest in holders then holders[dest].ownStake else 0.0) + change
    ensures Sum(Stakes(holders[dest := u'])) == totalStake + change
    ensures u'.ownStake <= totalStake + change
  {
    StakesUpdate(holders, dest, u');
    SumUpdate(Stakes(holders), dest, u'.ownStake);
    SumAtLeastEach(Stakes(holders[dest := u']), dest);
  }

  /** A successful `changeShare` keeps the invariant. */
  lemma ChangeKeepsInvariant(holders: map<string, UserData>, totalStake: real, incrementPerRevenue: Extended,
                             index: Extended, dest: string, change: real)
    requires Invariant(holders, totalStake, incrementPerRevenue, index)
    requires totalStake + change >= 0.0
    requires HolderIn(holders, dest, totalStake, incrementPerRevenue, index).ownStake + change >= 0.0
    ensures Invariant(holders[dest := CommittedFor(holders, totalStake, incrementPerRevenue, index, dest, change)],
                      totalStake + change, IncrementFor(totalStake + change), index)
  {
    var u := HolderIn(holders, dest, totalStake, incrementPerRevenue, index);
    var u' := CommittedFor(holders, totalStake, incrementPerRevenue, index, dest, change);
    HolderWellFormed(holders, totalStake, incrementPerRevenue, index, dest);
    SettlementBounds(u, index);
    PlusGrows(u.ownAccumulatedTotal, Settlement(u, index));
    assert forall a :: a in holders ==> holders[a].ownStake >= 0.0 by {
      forall a | a in holders
        ensures holders[a].ownStake >= 0.0
      {
        assert WellFormed(holders[a], index);
      }
    }
    CommittedStakeBound(holders, totalStake, dest, u', change);
    assert WellFormed(u', index);
  }

  /** A successful `changeShare` never lowers anyone's settled total. */
  lemma ChangeKeepsSettledTotals(holders: map<string, UserData>, totalStake: real, incrementPerRevenue: Extended,
                                 index: Extended, dest: string, change: real)
    requires Invariant(holders, totalStake, incrementPerRevenue, index)
    ensures forall a :: a in holders ==>
      AtMost(holders[a].ownAccumulatedTotal,
             holders[dest := CommittedFor(holders, totalStake, incrementPerRevenue, index, dest, change)][a].ownAccumulatedTotal)
  {
    var u := HolderIn(holders, dest, totalStake, incrementPerRevenue, index);
    HolderWellFormed(holders, totalStake, incrementPerRevenue, index, dest);
    SettlementBounds(u, index);
    PlusGrows(u.ownAccumulatedTotal, Settlement(u, index));
  }

  /** The entitlement of the changed address survives its own change. */
  lemma ChangedHolderKeepsEntitlement(holders: map<string, UserData>, totalStake: real, incrementPerRevenue: Extended,
                                      index: Extended, dest: string, change: real)
    requires HolderIn(holders, dest, totalStake, incrementPerRevenue, index).ownStake + change >= 0.0
    requires HolderIn(holders, dest, totalStake, incrementPerRevenue, index).ownStake <= totalStake
    requires index.Finite?
    ensures Entitlement(CommittedFor(holders, totalStake, incrementPerRevenue, index, dest, change), index)
         == Entitlement(HolderIn(holders, dest, totalStake, incrementPerRevenue, index), index)
  {
    ResnapshotKeepsEntitlement(HolderIn(holders, dest, totalStake, incrementPerRevenue, index),
                               CommittedFor(holders, totalStake, incrementPerRevenue, index, dest, change), index);
  }

  /** Any other address keeps its record, or stays a newcomer entitled to nothing. */
  lemma OtherHolderKeepsEntitlement(holders: map<string, UserData>, holders': map<string, UserData>,
                                    totalStake: real, incrementPerRevenue: Extended,
                                    totalStake': real, incrementPerRevenue': Extended,
                                    index: Extended, a: string)
    requires a in holders <==> a in holders'
    requires a in holders ==> holders'[a] == holders[a]
    ensures Entitlement(HolderIn(holders', a, totalStake', incrementPerRevenue', index), index)
         == Entitlement(HolderIn(holders, a, totalStake, incrementPerRevenue, index), index)
  {
    if a !in holders {
      NewcomerEntitlement(HolderIn(holders, a, totalStake, incrementPerRevenue, index), index);
      NewcomerEntitlement(HolderIn(holders', a, totalStake', incrementPerRevenue', index), index);
    }
  }

  /**
   * While the index is finite, a successful `changeShare` leaves every address's entitlement
   * where it was: settling moves revenue from pending to settled, and the new snapshot has
   * nothing pending.
   */
  lemma ChangeKeepsEntitlements(holders: map<string, UserData>, totalStake: real, incrementPerRevenue: Extended,
                                index: Extended, dest: string, change: real)
    requires HolderIn(holders, dest, totalStake, incrementPerRevenue, index).ownStake + change >= 0.0
    requires HolderIn(holders, dest, totalStake, incrementPerRevenue, index).ownStake <= totalStake
    requires index.Finite?
    ensures forall a ::
      Entitlement(HolderIn(holders[dest := CommittedFor(holders, totalStake, incrementPerRevenue, index, dest, change)],
                           a, totalStake + change, IncrementFor(totalStake + change), index), index)
        == Entitlement(HolderIn(holders, a, totalStake, incrementPerRevenue, index), index)
  {
    var holders' := holders[dest := CommittedFor(holders, totalStake, incrementPerRevenue, index, dest, change)];
    forall a
      ensures Entitlement(HolderIn(holders', a, totalStake + change, IncrementFor(totalStake + change), index), index)
           == Entitlement(HolderIn(holders, a, totalStake, incrementPerRevenue, index), index)
    {
      if a == dest {
        ChangedHolderKeepsEntitlement(holders, totalStake, incrementPerRevenue, index, dest, change);
      } else {
        OtherHolderKeepsEntitlement(holders, holders', totalStake, incrementPerRevenue,
                                    totalStake + change, IncrementFor(totalStake + change), index, a);
      }
    }
  }

  /**
   * Everything a successful `changeShare` promises about the state it commits: the invariant,
   * no settled total lowered, and (while the index is finite) no entitlement changed.
   */
  lemma ChangeCommits(holders: map<string, UserData>, totalStake: real, incrementPerRevenue: Extended,
                      index: Extended, dest: string, change: real)
    requires Invariant(holders, totalStake, incrementPerRevenue, index)
    requires totalStake + change >= 0.0
    requires HolderIn(holders, dest, totalStake, incrementPerRevenue, index).ownStake + change >= 0.0
    ensures
      var holders' := holders[dest := CommittedFor(holders, totalStake, incrementPerRevenue, index, dest, change)];
      && Invariant(holders', totalStake + change, IncrementFor(totalStake + change), index)
      && (forall a :: a in holders ==> a in holders' && AtMost(holders[a].ownAccumulatedTotal, holders'[a].ownAccumulatedTotal))
      && (index.Finite? ==> forall a ::
            Entitlement(HolderIn(holders', a, totalStake + change, IncrementFor(totalStake + change), index), index)
              == Entitlement(HolderIn(holders, a, totalStake, incrementPerRevenue, index), index))
  {
    ChangeKeepsInvariant(holders, totalStake, incrementPerRevenue, index, dest, change);
    ChangeKeepsSettledTotals(holders, totalStake, incrementPerRevenue, index, dest, change);
    if index.Finite? {
      HolderStakeBound(holders, totalStake, incrementPerRevenue, index, dest);
      ChangeKeepsEntitlements(holders, totalStake, incrementPerRevenue, index, dest, change);
    }
  }

  /** The contract: the Java `GlobalData` fields plus the address -> `UserData` map. */
  class DistributionContract {
    var userDataMap: map<string, UserData>
    var totalStake: real
    var incrementPerRevenue: Extended
    var index: Extended

    /** The invariant every operation keeps. */
    ghost predicate Valid()
      reads this
    {
      Invariant(userDataMap, totalStake, incrementPerRevenue, index)
    }

    /**
     * The record `changeShare` starts from for `dest`: the stored one, or for a first-seen
     * address a record with no stake, nothing settled and a snapshot of the current globals.
     */
    function HolderOf(dest: string): (u: UserData)
      reads this
      ensures dest in userDataMap ==> u == userDataMap[dest]
      ensures dest !in userDataMap ==>
        && u.ownStake == 0.0 && u.ownAccumulatedTotal == Finite(0.0)
        && u.lastTotalStake == totalStake && u.lastIncrementPerRevenue == incrementPerRevenue && u.lastIndex == index
    {
      HolderIn(userDataMap, dest, totalStake, incrementPerRevenue, index)
    }

    /** `constructContract` (C): no holders, total 0, increment 10000, index 1000000. */
    constructor ()
      ensures Valid()
      ensures userDataMap == map[] && totalStake == 0.0
      ensures incrementPerRevenue == Finite(IncrementInit) && index == Finite(IndexInit)
    {
      userDataMap := map[];
      totalStake := 0.0;
      incrementPerRevenue := Finite(IncrementInit);
      index := Finite(IndexInit);
    }

    /**
     * The Java constructor from an address -> share map. A first loop checks every share is
     * positive (otherwise it reverts: here, returns null) and adds them up; a second loop gives
     * every address its stake and a snapshot of the finished globals.
     */
    static method FromShares(shares: map<string, int>) returns (c: DistributionContract?)
      ensures c == null <==> exists a :: a in shares && shares[a] <= 0
      ensures c != null ==> fresh(c) && c.Valid()
      ensures c != null ==>
        && c.totalStake == Sum(AsReals(shares))
        && c.incrementPerRevenue == Finite(IncrementInit) && c.index == Finite(IndexInit)
        && c.userDataMap == map a | a in shares ::
             UserData(shares[a] as real, c.totalStake, Finite(IncrementInit), Finite(0.0), Finite(IndexInit))
    {
      ghost var stakes := AsReals(shares);
      var total := 0.0;
      var pending := shares.Keys;
      while pending != {}
        invariant pending <= shares.Keys
        invariant forall a :: a in shares && a !in pending ==> shares[a] > 0
        invariant total == SumOver(stakes, shares.Keys - pending)
        decreases pending
      {
        var a :| a in pending;
        if shares[a] <= 0 {
          return null;
        }
        SumOverRemove(stakes, shares.Keys - (pending - {a}), a);
        assert shares.Keys - (pending - {a}) - {a} == shares.Keys - pending;
        total := total + shares[a] as real;
        pending := pending - {a};
      }
      assert shares.Keys - pending == stakes.Keys;
      var holders: map<string, UserData> := map[];
      pending := shares.Keys;
      while pending != {}
        invariant pending <= shares.Keys
        invariant holders == map a | a in shares && a !in pending ::
          UserData(shares[a] as real, total, Finite(IncrementInit), Finite(0.0), Finite(IndexInit))
        decreases pending
      {
        var a :| a in pending;
        holders := holders[a := UserData(shares[a] as real, total, Finite(IncrementInit), Finite(0.0), Finite(IndexInit))];
        pending := pending - {a};
      }
      assert Stakes(holders) == stakes;
      SumNonNegative(stakes);
      forall a | a in holders
        ensures holders[a].ownStake <= total
      {
        SumAtLeastEach(stakes, a);
      }
      c := new DistributionContract();
      c.userDataMap := holders;
      c.totalStake := total;
    }

    /**
     * `changeShare(dest, change)`. Every rejection (a zero change, a negative new total, a
     * negative new stake) comes before any write. Otherwise: Phase 1 settles `dest` against its
     * old snapshot; Phase 2 resets the increment to 10000 when the new total is not zero, and
     * otherwise rescales it by `oldTotal / newTotal`, a division by zero; Phase 3 commits the new
     * total and stake and re-snapshots the globals into the record.
     */
    method ChangeShare(dest: string, change: real) returns (status: Status)
      requires Valid()
      modifies this
      ensures Valid()
      ensures status == Success <==>
        change != 0.0 && old(totalStake) + change >= 0.0 && old(HolderOf(dest)).ownStake + change >= 0.0
      ensures status == Revert ==>
        && userDataMap == old(userDataMap) && totalStake == old(totalStake)
        && incrementPerRevenue == old(incrementPerRevenue) && index == old(index)
      ensures status == Success ==>
        && totalStake == old(totalStake) + change
        && incrementPerRevenue == IncrementFor(totalStake)
        && index == old(index)
        && userDataMap == old(userDataMap)[dest := Committed(old(HolderOf(dest)), change, totalStake, incrementPerRevenue, index)]
      ensures forall a :: a in old(userDataMap) ==>
        a in userDataMap && AtMost(old(userDataMap)[a].ownAccumulatedTotal, userDataMap[a].ownAccumulatedTotal)
      ensures index.Finite? ==> forall a :: Entitlement(HolderOf(a), index) == old(Entitlement(HolderOf(a), index))
    {
      if change == 0.0 {
        return Revert;
      }
      var newTotalStake := totalStake + change;
      var oldTotalStake := totalStake;
      if newTotalStake < 0.0 {
        return Revert;
      }
      var tmp := HolderOf(dest);
      if tmp.ownStake + change < 0.0 {
        return Revert;
      }
      ChangeCommits(userDataMap, totalStake, incrementPerRevenue, index, dest, change);
      ghost var before := tmp;
      // Phase 1
      var freshOwn := Settlement(tmp, index);
      tmp := tmp.(ownAccumulatedTotal := Plus(tmp.ownAccumulatedTotal, freshOwn));
      // Phase 2
      if newTotalStake != 0.0 {
        incrementPerRevenue := Finite(IncrementInit);
      } else if oldTotalStake != 0.0 {
        incrementPerRevenue := Times(incrementPerRevenue, Over(Finite(oldTotalStake), Finite(newTotalStake)));
      }
      totalStake := newTotalStake;
      // Phase 3
      tmp := tmp.(ownStake := tmp.ownStake + change);
      tmp := tmp.(lastIndex := index);
      tmp := tmp.(lastIncrementPerRevenue := incrementPerRevenue);
      tmp := tmp.(lastTotalStake := totalStake);
      assert tmp == Committed(before, change, totalStake, incrementPerRevenue, index);
      userDataMap := userDataMap[dest := tmp];
      return Success;
    }

    /**
     * `addRevenue(amount)`: rejects a non-positive amount without touching anything; otherwise
     * distributes it, which changes nothing but the index.
     */
    method AddRevenue(amount: real) returns (status: Status)
      requires Valid()
      modifies this
      ensures Valid()
      ensures status == Success <==> amount > 0.0
      ensures userDataMap == old(userDataMap) && totalStake == old(totalStake)
      ensures incrementPerRevenue == old(incrementPerRevenue)
      ensures index == if status == Success then Plus(old(index), Times(old(incrementPerRevenue), Finite(amount)))
                       else old(index)
      ensures status == Success && incrementPerRevenue == Finite(IncrementInit) ==>
        forall a :: a in userDataMap ==>
          Entitlement(userDataMap[a], index)
            == Plus(Entitlement(userDataMap[a], old(index)), Finite(Accrual(userDataMap[a], amount)))
    {
      if amount <= 0.0 {
        return Revert;
      }
      DistributeRevenue(amount);
      if incrementPerRevenue == Finite(IncrementInit) {
        forall a | a in userDataMap
          ensures Entitlement(userDataMap[a], index)
            == Plus(Entitlement(userDataMap[a], old(index)), Finite(Accrual(userDataMap[a], amount)))
        {
          var u := userDataMap[a];
          RevenueAccrues(u, old(index), amount);
          PlusAssociative(u.ownAccumulatedTotal, Settlement(u, old(index)), Finite(Accrual(u, amount)));
        }
      }
      return Success;
    }

    /** `distributeRevenue`: the whole distribution is one bump of the index. */
    method DistributeRevenue(amount: real)
      requires Valid() && amount > 0.0
      modifies this
      ensures Valid()
      ensures userDataMap == old(userDataMap) && totalStake == old(totalStake)
      ensures incrementPerRevenue == old(incrementPerRevenue)
      ensures index == Plus(old(index), Times(old(incrementPerRevenue), Finite(amount)))
      ensures AtMost(old(index), index)
    {
      PlusGrows(index, Times(incrementPerRevenue, Finite(amount)));
      ghost var previous := index;
      index := Plus(index, Times(incrementPerRevenue, Finite(amount)));
      forall a | a in userDataMap
        ensures AtMost(userDataMap[a].lastIndex, index)
      {
        AtMostTransitive(userDataMap[a].lastIndex, previous, index);
      }
      AtMostTransitive(Finite(IndexInit), previous, index);
    }
  }
}
