/** Sums of a weight over the values of a finite map. */
module Sums {
  ghost function Pick<X>(mp: map<nat, X>): (k: nat)
    requires mp != map[]
    ensures k in mp
  {
    assert mp.Keys != {};
    var k :| k in mp; k
  }

  ghost function Sum<X>(mp: map<nat, X>, w: X -> nat): nat
    decreases |mp|
  {
    if mp == map[] then 0 else var k := Pick(mp); w(mp[k]) + Sum(mp - {k}, w)
  }

  lemma {:induction false} SumSplit<X>(mp: map<nat, X>, k: nat, w: X -> nat)
    requires k in mp
    ensures Sum(mp, w) == w(mp[k]) + Sum(mp - {k}, w)
    decreases |mp|
  {
    var j := Pick(mp);
    if j != k {
      SumSplit(mp - {j}, k, w);
      SumSplit(mp - {k}, j, w);
      assert mp - {j} - {k} == mp - {k} - {j};
    }
  }

  function At<X>(mp: map<nat, X>, k: nat, w: X -> nat): nat { if k in mp then w(mp[k]) else 0 }

  lemma SumDrop<X>(mp: map<nat, X>, k: nat, w: X -> nat)
    ensures Sum(mp, w) == At(mp, k, w) + Sum(mp - {k}, w)
  {
    if k in mp { SumSplit(mp, k, w); } else { assert mp - {k} == mp; }
  }

  // Maps that agree except at one key have sums that differ by the weights there.
  lemma SumChange<X>(mp: map<nat, X>, mp': map<nat, X>, k: nat, w: X -> nat)
    requires mp - {k} == mp' - {k}
    ensures Sum(mp', w) + At(mp, k, w) == Sum(mp, w) + At(mp', k, w)
  {
    SumDrop(mp, k, w);
    SumDrop(mp', k, w);
  }

  lemma SumPut<X>(mp: map<nat, X>, k: nat, x: X, w: X -> nat)
    ensures Sum(mp[k := x], w) + At(mp, k, w) == Sum(mp, w) + w(x)
  {
    assert mp[k := x] - {k} == mp - {k};
    SumChange(mp, mp[k := x], k, w);
  }

  lemma {:induction false} SumZero<X>(mp: map<nat, X>, w: X -> nat)
    requires forall k | k in mp :: w(mp[k]) == 0
    ensures Sum(mp, w) == 0
    decreases |mp|
  {
    if mp != map[] { SumZero(mp - {Pick(mp)}, w); }
  }

  // A positive sum has a positive term.
  lemma SumWitness<X>(mp: map<nat, X>, w: X -> nat) returns (k: nat)
    requires Sum(mp, w) > 0
    ensures k in mp && w(mp[k]) > 0
  {
    if forall k | k in mp :: w(mp[k]) == 0 { SumZero(mp, w); }
    k :| k in mp && w(mp[k]) > 0;
  }
}
