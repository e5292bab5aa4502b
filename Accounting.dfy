/**
 * Numbers and sums shared by both revenue-distribution ledgers.
 *
 * The ledgers keep their amounts in IEEE doubles. This model keeps them as exact reals,
 * with one extra value, NonFinite, for the infinities and NaNs that the ledgers produce
 * when they divide by a zero total. Every arithmetic operation with a non-finite operand
 * gives a non-finite result, so NonFinite absorbs.
 */
module Accounting {

  /** Outcome of a ledger operation: EXIT_SUCCESS / normal return, or EXIT_FAILURE / TxnRevertException. */
  datatype Status = Success | Revert

  /** A double as the ledgers use it: a finite value, or infinity/NaN. */
  datatype Extended = Finite(value: real) | NonFinite

  function Plus(a: Extended, b: Extended): (r: Extended)
    ensures r.Finite? <==> a.Finite? && b.Finite?
    ensures r.Finite? ==> r.value - a.value == b.value
  {
    if a.Finite? && b.Finite? then Finite(a.value + b.value) else NonFinite
  }

  function Minus(a: Extended, b: Extended): (r: Extended)
    ensures r.Finite? <==> a.Finite? && b.Finite?
    ensures r.Finite? ==> r.value + b.value == a.value
  {
    if a.Finite? && b.Finite? then Finite(a.value - b.value) else NonFinite
  }

  function Times(a: Extended, b: Extended): (r: Extended)
    ensures r.Finite? <==> a.Finite? && b.Finite?
  {
    if a.Finite? && b.Finite? then Finite(a.value * b.value) else NonFinite
  }

  /** `a / b` on doubles: dividing by zero gives an infinity (or NaN when `a` is zero too). */
  function Over(a: Extended, b: Extended): (r: Extended)
    ensures r.Finite? <==> a.Finite? && b.Finite? && b.value != 0.0
  {
    if a.Finite? && b.Finite? && b.value != 0.0 then Finite(a.value / b.value) else NonFinite
  }

  /** `a` is not above `b`: both finite and ordered, or `b` has become non-finite. */
  predicate AtMost(a: Extended, b: Extended) {
    b.NonFinite? || (a.Finite? && a.value <= b.value)
  }

  predicate NonNegative(a: Extended) {
    a.Finite? ==> a.value >= 0.0
  }

  lemma AtMostTransitive(a: Extended, b: Extended, c: Extended)
    requires AtMost(a, b) && AtMost(b, c)
    ensures AtMost(a, c)
  {
  }

  /** Adding a non-negative amount never lowers a value. */
  lemma PlusGrows(a: Extended, b: Extended)
    requires NonNegative(b)
    ensures AtMost(a, Plus(a, b))
    ensures NonNegative(a) ==> NonNegative(Plus(a, b))
  {
  }

  /** Extended addition regroups like real addition. */
  lemma PlusAssociative(a: Extended, b: Extended, c: Extended)
    ensures Plus(Plus(a, b), c) == Plus(a, Plus(b, c))
  {
  }

  /** Sum of the entries of `m` under the given keys. */
  ghost function SumOver<K>(m: map<K, real>, keys: set<K>): real
    requires keys <= m.Keys
  {
    if keys == {} then 0.0
    else
      var k :| k in keys;
      m[k] + SumOver(m, keys - {k})
  }

  /** Sum of the values of a finite map (a ledger's `Σ share` over its holders). */
  ghost function Sum<K>(m: map<K, real>): real {
    SumOver(m, m.Keys)
  }

  /** Any key can be the one taken out first. */
  lemma {:induction false} SumOverRemove<K>(m: map<K, real>, keys: set<K>, k: K)
    requires keys <= m.Keys && k in keys
    ensures SumOver(m, keys) == m[k] + SumOver(m, keys - {k})
    decreases keys
  {
    var j :| j in keys && SumOver(m, keys) == m[j] + SumOver(m, keys - {j});
    if j != k {
      SumOverRemove(m, keys - {j}, k);
      SumOverRemove(m, keys - {k}, j);
      assert keys - {j} - {k} == keys - {k} - {j};
    }
  }

  /** The sum only looks at the entries under `keys`. */
  lemma {:induction false} SumOverAgree<K>(m: map<K, real>, m': map<K, real>, keys: set<K>)
    requires keys <= m.Keys && keys <= m'.Keys
    requires forall k :: k in keys ==> m[k] == m'[k]
    ensures SumOver(m, keys) == SumOver(m', keys)
    decreases keys
  {
    if keys != {} {
      var k :| k in keys;
      SumOverRemove(m, keys, k);
      SumOverRemove(m', keys, k);
      SumOverAgree(m, m', keys - {k});
    }
  }

  lemma SumRemove<K>(m: map<K, real>, k: K)
    requires k in m
    ensures Sum(m) == m[k] + Sum(m - {k})
  {
    SumOverRemove(m, m.Keys, k);
    assert (m - {k}).Keys == m.Keys - {k};
    SumOverAgree(m, m - {k}, m.Keys - {k});
  }

  /** Overwriting (or inserting) one entry moves the sum by exactly the difference. */
  lemma SumUpdate<K>(m: map<K, real>, k: K, v: real)
    ensures Sum(m[k := v]) == Sum(m) - (if k in m then m[k] else 0.0) + v
  {
    var m' := m[k := v];
    SumRemove(m', k);
    assert m' - {k} == m - {k};
    if k in m {
      SumRemove(m, k);
    } else {
      assert m - {k} == m;
    }
  }

  lemma {:induction false} SumOverNonNegative<K>(m: map<K, real>, keys: set<K>)
    requires keys <= m.Keys
    requires forall j :: j in keys ==> m[j] >= 0.0
    ensures SumOver(m, keys) >= 0.0
    decreases keys
  {
    if keys != {} {
      var k :| k in keys;
      SumOverRemove(m, keys, k);
      SumOverNonNegative(m, keys - {k});
    }
  }

  lemma SumNonNegative<K>(m: map<K, real>)
    requires forall j :: j in m ==> m[j] >= 0.0
    ensures Sum(m) >= 0.0
  {
    SumOverNonNegative(m, m.Keys);
  }

  /** With no negative entry, every entry is at most the sum. */
  lemma SumAtLeastEach<K>(m: map<K, real>, k: K)
    requires forall j :: j in m ==> m[j] >= 0.0
    requires k in m
    ensures m[k] <= Sum(m)
  {
    SumOverRemove(m, m.Keys, k);
    SumOverNonNegative(m, m.Keys - {k});
  }

  /** Entry `k` of `n` is entry `k` of `m` times `c`. */
  ghost predicate ScaledAt<K>(n: map<K, real>, m: map<K, real>, c: real, k: K)
    requires k in n && k in m
  {
    n[k] == m[k] * c
  }

  /** One step of `SumOverScaled`, with the sums as plain numbers. */
  lemma ScaledStep(total: real, head: real, rest: real, scaledTotal: real, scaledHead: real, scaledRest: real, c: real)
    requires total == head + rest && scaledTotal == scaledHead + scaledRest
    requires scaledHead == head * c && scaledRest == rest * c
    ensures scaledTotal == total * c
  {
  }

  lemma {:induction false} SumOverScaled<K>(m: map<K, real>, n: map<K, real>, keys: set<K>, c: real)
    requires keys <= m.Keys && keys <= n.Keys
    requires forall k {:trigger ScaledAt(n, m, c, k)} :: k in keys ==> ScaledAt(n, m, c, k)
    ensures SumOver(n, keys) == SumOver(m, keys) * c
    decreases keys
  {
    if keys != {} {
      var k :| k in keys;
      var rest := keys - {k};
      SumOverRemove(m, keys, k);
      SumOverRemove(n, keys, k);
      SumOverScaled(m, n, rest, c);
      assert ScaledAt(n, m, c, k);
      ScaledStep(SumOver(m, keys), m[k], SumOver(m, rest),
                 SumOver(n, keys), n[k], SumOver(n, rest), c);
    }
  }

  /** Scaling every entry by `c` scales the sum by `c`. */
  lemma SumScaled<K>(m: map<K, real>, n: map<K, real>, c: real)
    requires n.Keys == m.Keys
    requires forall k {:trigger ScaledAt(n, m, c, k)} :: k in m ==> ScaledAt(n, m, c, k)
    ensures Sum(n) == Sum(m) * c
  {
    SumOverScaled(m, n, m.Keys, c);
  }

  /** An address -> share map of integers, as the doubles the ledgers add up. */
  function AsReals(shares: map<string, int>): (r: map<string, real>)
    ensures r.Keys == shares.Keys
  {
    map a | a in shares :: shares[a] as real
  }

  /** The sum of a two-entry map. */
  lemma SumOfTwo<K>(j: K, x: real, k: K, y: real)
    requires j != k
    ensures Sum(map[j := x, k := y]) == x + y
  {
    var m := map[j := x, k := y];
    SumRemove(m, j);
    assert m - {j} == map[k := y];
    SumRemove(map[k := y], k);
    assert map[k := y] - {k} == map[];
  }

  /** Sum of a sequence of amounts, as a run of `addRevenue` calls injects them. */
  function SeqSum(s: seq<real>): (r: real)
    ensures (forall i :: 0 <= i < |s| ==> s[i] > 0.0) && s != [] ==> r > 0.0
  {
    if s == [] then 0.0 else SeqSum(s[..|s| - 1]) + s[|s| - 1]
  }
}
