/** `np.argsort` on a vector of real keys, and the fancy indexing `a[idx]` that
    applies its result. Equal keys are taken in index order, an assumption: numpy's
    default sort does not promise any order among ties. */
module Sorting {

  /** Index `i` is placed before index `j`: a smaller key, or an equal key and a
      smaller index. This is the strict total order a stable sort produces. */
  predicate Before(keys: seq<real>, i: nat, j: nat)
    requires i < |keys| && j < |keys|
  {
    keys[i] < keys[j] || (keys[i] == keys[j] && i < j)
  }

  /** Every index in `idx` is below n. */
  predicate InRange(idx: seq<nat>, n: nat)
  {
    forall a :: 0 <= a < |idx| ==> idx[a] < n
  }

  /** `idx` lists positions of `keys` in strictly increasing `Before` order. */
  predicate Sorted(keys: seq<real>, idx: seq<nat>)
    requires InRange(idx, |keys|)
  {
    forall a, b :: 0 <= a < b < |idx| ==> Before(keys, idx[a], idx[b])
  }

  /** `idx` is an arrangement of 0 .. n-1: n entries, each below n, covering them all. */
  predicate IsPermutation(idx: seq<nat>, n: nat)
  {
    |idx| == n && InRange(idx, n) && forall k :: 0 <= k < n ==> k in idx
  }

  /** Insert index `i` into the sorted list `s`, after every index that goes before it. */
  function Insert(keys: seq<real>, s: seq<nat>, i: nat): (r: seq<nat>)
    requires i < |keys| && InRange(s, |keys|) && Sorted(keys, s) && i !in s
    ensures InRange(r, |keys|) && Sorted(keys, r)
    ensures |r| == |s| + 1 && forall k :: k in r <==> k in s || k == i
    ensures forall a :: 0 <= a < |r| ==> r[a] == i || r[a] in s
  {
    if |s| == 0 then [i]
    else if Before(keys, i, s[0]) then [i] + s
    else
      var t := Insert(keys, s[1..], i);
      InsertAfterHead(keys, s, i, t);
      [s[0]] + t
  }

  /** The head of `s`, which goes before `i`, goes before everything in `t`. */
  lemma InsertAfterHead(keys: seq<real>, s: seq<nat>, i: nat, t: seq<nat>)
    requires i < |keys| && InRange(s, |keys|) && Sorted(keys, s) && |s| > 0
    requires i != s[0] && !Before(keys, i, s[0])
    requires InRange(t, |keys|) && Sorted(keys, t)
    requires forall k :: k in t <==> k in s[1..] || k == i
    ensures Sorted(keys, [s[0]] + t)
  {
    forall b | 0 <= b < |t| ensures Before(keys, s[0], t[b]) {
      assert t[b] in t;
      if t[b] != i {
        var c :| 0 <= c < |s[1..]| && s[1..][c] == t[b];
        assert s[c + 1] == t[b];
      }
    }
  }

  /** The argsort of the first n keys. */
  function ArgSortPrefix(keys: seq<real>, n: nat): (r: seq<nat>)
    requires n <= |keys|
    ensures |r| == n && InRange(r, n) && InRange(r, |keys|) && Sorted(keys, r)
    ensures forall k :: 0 <= k < n ==> k in r
  {
    if n == 0 then [] else Insert(keys, ArgSortPrefix(keys, n - 1), n - 1)
  }

  /** `np.argsort(keys)`: the positions of `keys` in ascending key order, ties kept in
      position order. */
  function ArgSort(keys: seq<real>): (r: seq<nat>)
    ensures IsPermutation(r, |keys|) && Sorted(keys, r)
  {
    ArgSortPrefix(keys, |keys|)
  }

  /** Fancy indexing `xs[idx]`. */
  function Permute<T>(xs: seq<T>, idx: seq<nat>): (r: seq<T>)
    requires InRange(idx, |xs|)
    ensures |r| == |idx| && forall a :: 0 <= a < |idx| ==> r[a] == xs[idx[a]]
  {
    seq(|idx|, a requires 0 <= a < |idx| => xs[idx[a]])
  }

  /** `r` lists the elements of `xs` in some order. */
  ghost predicate Rearranges<T>(r: seq<T>, xs: seq<T>)
  {
    exists p :: IsPermutation(p, |xs|) && r == Permute(xs, p)
  }

  /** A strictly sorted list holds no index twice. */
  lemma SortedDistinct(keys: seq<real>, p: seq<nat>, a: nat, b: nat)
    requires InRange(p, |keys|) && Sorted(keys, p)
    requires a < |p| && b < |p| && a != b
    ensures p[a] != p[b]
  {
  }

  /** Two strictly sorted lists of the same indices are the same list: the sorted
      order is unique. */
  lemma {:induction false} SortedUnique(keys: seq<real>, p: seq<nat>, q: seq<nat>)
    requires InRange(p, |keys|) && InRange(q, |keys|)
    requires Sorted(keys, p) && Sorted(keys, q)
    requires forall k :: k in p <==> k in q
    ensures p == q
    decreases |p|
  {
    if |p| == 0 {
      HeadIsMember(q);
    } else {
      assert p[0] in q;
      assert p[0] == q[0] by {
        assert p[0] in q;
        assert q[0] in p;
      }
      forall k ensures k in p[1..] <==> k in q[1..] {
        SameTail(keys, p, k);
        SameTail(keys, q, k);
      }
      SortedUnique(keys, p[1..], q[1..]);
    }
  }

  lemma HeadIsMember(q: seq<nat>)
    ensures |q| > 0 ==> q[0] in q
  {
  }

  /** The tail of a strictly sorted list holds exactly the other indices. */
  lemma SameTail(keys: seq<real>, p: seq<nat>, k: nat)
    requires InRange(p, |keys|) && Sorted(keys, p) && |p| > 0
    ensures k in p[1..] <==> k in p && k != p[0]
  {
    if k in p[1..] {
      var j :| 0 <= j < |p[1..]| && p[1..][j] == k;
      SortedDistinct(keys, p, 0, j + 1);
    }
    if k in p && k != p[0] {
      var j :| 0 <= j < |p| && p[j] == k;
      assert p[1..][j - 1] == k;
    }
  }

  /** The argsort is the only permutation that sorts the keys. */
  lemma ArgSortUnique(keys: seq<real>, idx: seq<nat>)
    requires IsPermutation(idx, |keys|) && Sorted(keys, idx)
    ensures ArgSort(keys) == idx
  {
    var r := ArgSort(keys);
    forall k ensures k in r <==> k in idx {
      if k in r {
        var a :| 0 <= a < |r| && r[a] == k;
      }
      if k in idx {
        var a :| 0 <= a < |idx| && idx[a] == k;
      }
    }
    SortedUnique(keys, r, idx);
  }

  /** No two keys are equal. */
  predicate Distinct(keys: seq<real>)
  {
    forall i, j :: 0 <= i < j < |keys| ==> keys[i] != keys[j]
  }

  /** Sorting rearranged keys: if `ku` lists the keys `k` in the order `p` and has no
      ties, then following p from the argsort of `ku` gives the argsort of `k`. */
  lemma ArgSortOfRearranged(k: seq<real>, ku: seq<real>, p: seq<nat>)
    requires IsPermutation(p, |k|) && |ku| == |k|
    requires forall a :: 0 <= a < |ku| ==> ku[a] == k[p[a]]
    requires Distinct(ku)
    ensures forall a :: 0 <= a < |k| ==> p[ArgSort(ku)[a]] == ArgSort(k)[a]
  {
    var su := ArgSort(ku);
    var rho := seq(|k|, a requires 0 <= a < |k| => p[su[a]]);
    assert InRange(rho, |k|);
    forall a, b | 0 <= a < b < |rho| ensures Before(k, rho[a], rho[b]) {
      assert Before(ku, su[a], su[b]);
      if su[a] > su[b] {
        assert ku[su[b]] != ku[su[a]];
      }
    }
    forall x | 0 <= x < |k| ensures x in rho {
      assert x in p;
      var j :| 0 <= j < |p| && p[j] == x;
      assert j in su;
      var a :| 0 <= a < |su| && su[a] == j;
      assert rho[a] == x;
    }
    ArgSortUnique(k, rho);
  }
}
