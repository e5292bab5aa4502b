/**
 * The naive (eager) revenue-distribution contract.
 *
 * State: a map from address to `{share, revenue}` and a running `totalShare`.
 * `changeShare` adjusts one holder's share; `addRevenue` walks every holder and credits it
 * `(share / totalShare) * amount`. The C version (constructContract) starts empty, the Java
 * version is built from an address -> share map; `changeShare` and `addRevenue` behave the
 * same in both.
 */
module NaiveDistribution {
  import opened Accounting

  /** One holder record: `UserState` in C, `UserData` in Java. */
  datatype UserState = UserState(share: real, revenue: Extended)

  /** The record used for an address that has no entry yet. */
  const Absent := UserState(0.0, Finite(0.0))

  /** `getOrDefault`: the stored record, or a zero record when the address is new. */
  function Lookup(holders: map<string, UserState>, dest: string): (r: UserState)
    ensures dest in holders ==> r == holders[dest]
    ensures dest !in holders ==> r.share == 0.0 && r.revenue == Finite(0.0)
  {
    if dest in holders then holders[dest] else Absent
  }

  /** Address -> share, the quantity `totalShare` is meant to add up. */
  function Shares(holders: map<string, UserState>): (r: map<string, real>)
    ensures r.Keys == holders.Keys
  {
    map a | a in holders :: holders[a].share
  }

  lemma SharesUpdate(holders: map<string, UserState>, a: string, u: UserState)
    ensures Shares(holders[a := u]) == Shares(holders)[a := u.share]
  {
  }

  /** What one distribution credits a holder: `(share / totalShare) * amount`. */
  function Increment(share: real, totalShare: real, amount: real): (r: Extended)
    ensures r.Finite? <==> totalShare != 0.0
    ensures r.Finite? ==> r.value * totalShare == share * amount
    ensures totalShare > 0.0 && share >= 0.0 && amount >= 0.0 ==> r.Finite? && r.value >= 0.0
  {
    Times(Over(Finite(share), Finite(totalShare)), Finite(amount))
  }

  /** A holder record after one distribution. */
  function Credited(u: UserState, totalShare: real, amount: real): (r: UserState)
    ensures r.share == u.share
    ensures r.revenue.Finite? <==> u.revenue.Finite? && totalShare != 0.0
    ensures r.revenue.Finite? ==> r.revenue.value - u.revenue.value == Increment(u.share, totalShare, amount).value
  {
    u.(revenue := Plus(u.revenue, Increment(u.share, totalShare, amount)))
  }

  /** The holder map after `distributeRevenue(amount)`. */
  function Distributed(holders: map<string, UserState>, totalShare: real, amount: real): (r: map<string, UserState>)
    ensures r.Keys == holders.Keys
    ensures forall a :: a in r ==> r[a].share == holders[a].share
    ensures totalShare >= 0.0 && amount >= 0.0 ==>
      forall a :: a in r && holders[a].share >= 0.0 ==> AtMost(holders[a].revenue, r[a].revenue)
    ensures totalShare == 0.0 ==> forall a :: a in r ==> r[a].revenue == NonFinite
  {
    map a | a in holders :: Credited(holders[a], totalShare, amount)
  }

  /** The finite credit of one holder, `(share / totalShare) * amount` (non-zero total). */
  function Credit(share: real, totalShare: real, amount: real): real
    requires totalShare != 0.0
  {
    share / totalShare * amount
  }

  /** The finite amounts one distribution credits, holder by holder (non-zero total). */
  function Increments(holders: map<string, UserState>, totalShare: real, amount: real): (r: map<string, real>)
    requires totalShare != 0.0
    ensures r.Keys == holders.Keys
  {
    map a | a in holders :: Credit(holders[a].share, totalShare, amount)
  }

  /** The arithmetic behind one holder's credit, on plain numbers. */
  lemma IncrementArithmetic(credit: real, scaled: real, share: real, totalShare: real, amount: real)
    requires totalShare > 0.0 && share >= 0.0 && amount >= 0.0
    requires credit == share / totalShare * amount && scaled == share * (amount / totalShare)
    ensures credit == scaled && credit >= 0.0
  {
  }

  lemma CancelTotal(scaledSum: real, sum: real, totalShare: real, amount: real)
    requires sum == totalShare && totalShare != 0.0
    requires scaledSum == sum * (amount / totalShare)
    ensures scaledSum == amount
  {
  }

  /** Every holder's credit is its share times `amount / totalShare`, and is not negative. */
  lemma IncrementsAreScaledShares(holders: map<string, UserState>, totalShare: real, amount: real)
    requires totalShare > 0.0 && amount >= 0.0
    requires forall a :: a in holders ==> holders[a].share >= 0.0
    ensures forall a {:trigger ScaledAt(Increments(holders, totalShare, amount), Shares(holders), amount / totalShare, a)} ::
      a in holders ==> ScaledAt(Increments(holders, totalShare, amount), Shares(holders), amount / totalShare, a)
    ensures forall a :: a in holders ==>
      && Increments(holders, totalShare, amount)[a] >= 0.0
      && Increment(holders[a].share, totalShare, amount) == Finite(Increments(holders, totalShare, amount)[a])
  {
    var shares, increments := Shares(holders), Increments(holders, totalShare, amount);
    forall a | a in holders
      ensures increments[a] >= 0.0
      ensures ScaledAt(increments, shares, amount / totalShare, a)
      ensures Increment(holders[a].share, totalShare, amount) == Finite(increments[a])
    {
      var share := holders[a].share;
      assert increments[a] == share / totalShare * amount;
      assert shares[a] == share;
      IncrementArithmetic(increments[a], shares[a] * (amount / totalShare), share, totalShare, amount);
    }
  }

  /** Credits that are the shares scaled by `scale` entry by entry add up to the total share scaled by `scale`. */
  lemma IncrementsSumScaled(holders: map<string, UserState>, totalShare: real, amount: real, scale: real)
    requires totalShare != 0.0
    requires forall a {:trigger ScaledAt(Increments(holders, totalShare, amount), Shares(holders), scale, a)} ::
      a in holders ==> ScaledAt(Increments(holders, totalShare, amount), Shares(holders), scale, a)
    ensures Sum(Increments(holders, totalShare, amount)) == Sum(Shares(holders)) * scale
  {
    SumScaled(Shares(holders), Increments(holders, totalShare, amount), scale);
  }

  /** When `totalShare` is the sum of the shares, the credits add up to `amount`. */
  lemma IncrementsSumToAmount(holders: map<string, UserState>, totalShare: real, amount: real)
    requires totalShare == Sum(Shares(holders)) && totalShare > 0.0
    requires amount >= 0.0
    requires forall a :: a in holders ==> holders[a].share >= 0.0
    ensures Sum(Increments(holders, totalShare, amount)) == amount
  {
    var scale := amount / totalShare;
    IncrementsAreScaledShares(holders, totalShare, amount);
    IncrementsSumScaled(holders, totalShare, amount, scale);
    CancelTotal(Sum(Increments(holders, totalShare, amount)), Sum(Shares(holders)), totalShare, amount);
  }

  /**
   * When `totalShare` is the sum of the shares and positive, one distribution credits every
   * holder a non-negative amount, exactly its `Increments` entry, and these add up to `amount`.
   */
  lemma DistributionIsExact(holders: map<string, UserState>, totalShare: real, amount: real)
    requires totalShare == Sum(Shares(holders)) && totalShare > 0.0
    requires amount >= 0.0
    requires forall a :: a in holders ==> holders[a].share >= 0.0
    ensures forall a :: a in holders ==> Increments(holders, totalShare, amount)[a] >= 0.0
    ensures forall a :: a in holders ==>
      Distributed(holders, totalShare, amount)[a].revenue
        == Plus(holders[a].revenue, Finite(Increments(holders, totalShare, amount)[a]))
    ensures Sum(Increments(holders, totalShare, amount)) == amount
  {
    IncrementsAreScaledShares(holders, totalShare, amount);
    IncrementsSumToAmount(holders, totalShare, amount);
  }

  class DistributionContract {
    var userStateMap: map<string, UserState>
    var totalShare: real

    /** No share, total or balance is ever negative; every reachable state satisfies this. */
    ghost predicate Valid()
      reads this
    {
      && totalShare >= 0.0
      && forall a :: a in userStateMap ==>
           userStateMap[a].share >= 0.0 && NonNegative(userStateMap[a].revenue)
    }

    /**
     * `totalShare` is the sum of all shares. Not an invariant: a change rejected because the
     * holder would go below zero has already overwritten `totalShare`.
     */
    ghost predicate Conserved()
      reads this
    {
      totalShare == Sum(Shares(userStateMap))
    }

    /** `constructContract` (C): no holders and a zero total. */
    constructor ()
      ensures Valid() && Conserved()
      ensures userStateMap == map[] && totalShare == 0.0
    {
      userStateMap := map[];
      totalShare := 0.0;
    }

    /**
     * The Java constructor from an address -> share map. It reverts (here: returns null) when
     * some share is not positive; otherwise every address holds its share with revenue 0 and
     * the total is the sum of the shares.
     */
    static method FromShares(shares: map<string, int>) returns (c: DistributionContract?)
      ensures c == null <==> exists a :: a in shares && shares[a] <= 0
      ensures c != null ==> fresh(c) && c.Valid() && c.Conserved()
      ensures c != null ==> c.userStateMap == map a | a in shares :: UserState(shares[a] as real, Finite(0.0))
      ensures c != null ==> c.totalShare == Sum(AsReals(shares))
    {
      var total := 0.0;
      var states: map<string, UserState> := map[];
      var pending := shares.Keys;
      while pending != {}
        invariant pending <= shares.Keys
        invariant forall a :: a in shares && a !in pending ==> shares[a] > 0
        invariant states == map a | a in shares && a !in pending :: UserState(shares[a] as real, Finite(0.0))
        invariant total == Sum(Shares(states))
        decreases pending
      {
        var a :| a in pending;
        if shares[a] <= 0 {
          return null;
        }
        SharesUpdate(states, a, UserState(shares[a] as real, Finite(0.0)));
        SumUpdate(Shares(states), a, shares[a] as real);
        states := states[a := UserState(shares[a] as real, Finite(0.0))];
        total := total + shares[a] as real;
        pending := pending - {a};
      }
      SumNonNegative(Shares(states));
      assert Shares(states) == AsReals(shares);
      c := new DistributionContract();
      c.userStateMap := states;
      c.totalShare := total;
    }

    /**
     * `changeShare(dest, change)`. Rejects a zero change and a change that would make the
     * total negative without touching anything. Otherwise it writes the new total first and
     * only then rejects a change that would make the holder's own share negative, so that
     * rejection leaves the new total behind.
     */
    method ChangeShare(dest: string, change: real) returns (status: Status)
      requires Valid()
      modifies this
      ensures Valid()
      ensures status == Success <==>
        change != 0.0 && old(totalShare) + change >= 0.0 && Lookup(old(userStateMap), dest).share + change >= 0.0
      ensures status == Success ==>
        && totalShare == old(totalShare) + change
        && userStateMap == old(userStateMap)[dest := Lookup(old(userStateMap), dest).(share := Lookup(old(userStateMap), dest).share + change)]
      ensures status == Revert ==> userStateMap == old(userStateMap)
      ensures status == Revert ==>
        totalShare == if change != 0.0 && old(totalShare) + change >= 0.0 then old(totalShare) + change else old(totalShare)
      ensures old(Conserved()) && (status == Success || change == 0.0 || old(totalShare) + change < 0.0) ==> Conserved()
      ensures old(Conserved()) && status == Revert && change != 0.0 && old(totalShare) + change >= 0.0 ==> !Conserved()
      ensures old(userStateMap).Keys <= userStateMap.Keys
    {
      if change == 0.0 {
        return Revert;
      }
      var newTotalShare := totalShare + change;
      if newTotalShare < 0.0 {
        return Revert;
      }
      totalShare := newTotalShare;
      var tmp := Lookup(userStateMap, dest);
      var newUserShare := tmp.share + change;
      if newUserShare < 0.0 {
        return Revert;
      }
      tmp := tmp.(share := newUserShare);
      SharesUpdate(userStateMap, dest, tmp);
      SumUpdate(Shares(userStateMap), dest, newUserShare);
      userStateMap := userStateMap[dest := tmp];
      return Success;
    }

    /**
     * `addRevenue(amount)`: rejects a non-positive amount without touching anything, otherwise
     * distributes it. Shares, the total and the set of holders stay as they were; no balance
     * goes down.
     */
    method AddRevenue(amount: real) returns (status: Status)
      requires Valid()
      modifies this
      ensures Valid()
      ensures status == Success <==> amount > 0.0
      ensures totalShare == old(totalShare)
      ensures userStateMap == if status == Success then Distributed(old(userStateMap), old(totalShare), amount)
                              else old(userStateMap)
      ensures Conserved() == old(Conserved())
      ensures forall a :: a in old(userStateMap) ==> AtMost(old(userStateMap)[a].revenue, userStateMap[a].revenue)
    {
      if amount <= 0.0 {
        return Revert;
      }
      DistributeRevenue(amount);
      assert Shares(userStateMap) == Shares(old(userStateMap));
      return Success;
    }

    /** The naive loop: credits every holder `(share / totalShare) * amount` in place. */
    method DistributeRevenue(amount: real)
      requires Valid() && amount > 0.0
      modifies this
      ensures Valid()
      ensures totalShare == old(totalShare)
      ensures userStateMap == Distributed(old(userStateMap), old(totalShare), amount)
    {
      var pending := userStateMap.Keys;
      while pending != {}
        invariant totalShare == old(totalShare)
        invariant userStateMap.Keys == old(userStateMap).Keys
        invariant pending <= userStateMap.Keys
        invariant forall a :: a in userStateMap && a !in pending ==>
          userStateMap[a] == Credited(old(userStateMap)[a], totalShare, amount)
        invariant forall a :: a in pending ==> userStateMap[a] == old(userStateMap)[a]
        decreases pending
      {
        var a :| a in pending;
        var userState := userStateMap[a];
        userStateMap := userStateMap[a := userState.(revenue := Plus(userState.revenue, Increment(userState.share, totalShare, amount)))];
        pending := pending - {a};
      }
      assert userStateMap == Distributed(old(userStateMap), totalShare, amount);
      forall a | a in userStateMap
        ensures NonNegative(userStateMap[a].revenue)
      {
        PlusGrows(old(userStateMap)[a].revenue, Increment(old(userStateMap)[a].share, totalShare, amount));
      }
    }
  }
}
