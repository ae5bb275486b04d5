/**
 * Set facts shared by the two analyses: the size-plus-membership equality test
 * they use to detect a fixed point, and the bound that makes their iteration
 * terminate.
 */
module SetUtil {

  /** `setsAreEqual`: the sets have the same size and every element of `a` is in `b`. */
  function SetsAreEqual<T>(a: set<T>, b: set<T>): (r: bool)
    ensures r <==> a == b
  {
    SubsetOfSameSizeIsEqual(a, b);
    |a| == |b| && forall e :: e in a ==> e in b
  }

  lemma SubsetOfSameSizeIsEqual<T>(a: set<T>, b: set<T>)
    ensures a <= b && |a| == |b| ==> a == b
  {
    if a <= b && |a| == |b| {
      assert |b - a| == |b| - |a|;
      assert b - a == {};
    }
  }

  /** How far `s` still is from covering the finite universe `u`. */
  function Deficit<T>(u: set<T>, s: set<T>): nat
  {
    |u - s|
  }

  /** Growing a set inside the universe never raises its deficit, and a strict growth lowers it. */
  lemma DeficitShrinks<T>(u: set<T>, a: set<T>, b: set<T>)
    requires a <= b
    ensures Deficit(u, b) <= Deficit(u, a)
    ensures a < b && b <= u ==> Deficit(u, b) < Deficit(u, a)
  {
    var big, small := u - a, u - b;
    assert small <= big;
    assert big == small + (big - small) && small !! (big - small);
    assert |big| == |small| + |big - small|;
    if a < b && b <= u {
      var x :| x in b && x !in a;
      assert x in big - small;
    }
  }

  /** The sum of `cost` over the entries `idxs` of `m`: the solvers' termination measure. */
  function SumOver<K, V>(cost: V -> nat, m: map<K, V>, idxs: seq<K>): nat
    requires forall k :: k in idxs ==> k in m
  {
    if idxs == [] then 0 else cost(m[idxs[0]]) + SumOver(cost, m, idxs[1..])
  }

  /** Replacing one entry changes the sum by the difference of its costs, once when its key is listed once. */
  lemma {:induction false} SumOverUpdate<K, V>(cost: V -> nat, m: map<K, V>, idxs: seq<K>, k: K, v: V)
    requires forall j :: j in idxs ==> j in m
    requires k in m
    requires forall i, j :: 0 <= i < j < |idxs| ==> idxs[i] != idxs[j]
    ensures k in idxs ==> SumOver(cost, m[k := v], idxs) == SumOver(cost, m, idxs) - cost(m[k]) + cost(v)
    ensures k !in idxs ==> SumOver(cost, m[k := v], idxs) == SumOver(cost, m, idxs)
  {
    if idxs != [] {
      SumOverUpdate(cost, m, idxs[1..], k, v);
      if idxs[0] == k {
        assert k !in idxs[1..] by {
          forall j | 0 <= j < |idxs[1..]| ensures idxs[1..][j] != k {
            assert idxs[1..][j] == idxs[j + 1];
          }
        }
      }
    }
  }
}
