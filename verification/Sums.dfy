/** Prefix sums over sequences of counts, and the few facts about them that the
    routing, scan and protocol proofs share: monotonicity, pointwise comparison, the block
    that contains an offset, and the fact that the order of summation does not matter. The
    last one is what lets sender and receiver, who sum the same table in different orders,
    agree on where a token goes. */
module Sums {
  import opened Arith

  /** The sum of the first `n` entries of `s`. */
  function Prefix(s: seq<nat>, n: nat): nat
    requires n <= |s|
  {
    if n == 0 then 0 else Prefix(s, n - 1) + s[n - 1]
  }

  function Sum(s: seq<nat>): nat {
    Prefix(s, |s|)
  }

  lemma {:induction false} PrefixMonotone(s: seq<nat>, m: nat, n: nat)
    requires m <= n <= |s|
    ensures Prefix(s, m) <= Prefix(s, n)
    decreases n
  {
    if m < n {
      PrefixMonotone(s, m, n - 1);
    }
  }

  /** Prefix sums only look at the entries below the bound. */
  lemma {:induction false} PrefixAgree(s: seq<nat>, t: seq<nat>, n: nat)
    requires n <= |s| && n <= |t|
    requires forall i :: 0 <= i < n ==> s[i] == t[i]
    ensures Prefix(s, n) == Prefix(t, n)
  {
    if n > 0 {
      PrefixAgree(s, t, n - 1);
    }
  }

  /** The index of the block of `s` that contains offset `p`, when the entries of `s`
      are laid out one after the other. */
  function Locate(s: seq<nat>, n: nat, p: nat): (i: nat)
    requires n <= |s| && p < Prefix(s, n)
    ensures i < n && Prefix(s, i) <= p < Prefix(s, i + 1)
  {
    if Prefix(s, n - 1) <= p then n - 1 else Locate(s, n - 1, p)
  }

  /** Two blocks that share an offset are the same block. */
  lemma LocateUnique(s: seq<nat>, i: nat, j: nat, p: nat)
    requires i < |s| && j < |s|
    requires Prefix(s, i) <= p < Prefix(s, i + 1)
    requires Prefix(s, j) <= p < Prefix(s, j + 1)
    ensures i == j
  {
    if i < j {
      PrefixMonotone(s, i + 1, j);
    } else if j < i {
      PrefixMonotone(s, j + 1, i);
    }
  }

  lemma {:induction false} PrefixPointwise(s: seq<nat>, t: seq<nat>, n: nat)
    requires n <= |s| && n <= |t|
    requires forall i :: 0 <= i < n ==> s[i] <= t[i]
    ensures Prefix(s, n) <= Prefix(t, n)
    ensures Prefix(s, n) == Prefix(t, n) ==> forall i :: 0 <= i < n ==> s[i] == t[i]
  {
    if n > 0 {
      PrefixPointwise(s, t, n - 1);
    }
  }

  lemma {:induction false} PrefixAdd(s: seq<nat>, t: seq<nat>, u: seq<nat>, n: nat)
    requires n <= |s| && n <= |t| && n <= |u|
    requires forall i :: 0 <= i < n ==> u[i] == s[i] + t[i]
    ensures Prefix(u, n) == Prefix(s, n) + Prefix(t, n)
  {
    if n > 0 {
      PrefixAdd(s, t, u, n - 1);
    }
  }

  lemma {:induction false} PrefixConstant(s: seq<nat>, n: nat, c: nat)
    requires n <= |s|
    requires forall i :: 0 <= i < n ==> s[i] == c
    ensures Prefix(s, n) == Mul(n, c)
  {
    if n > 0 {
      PrefixConstant(s, n - 1, c);
    }
  }

  /** Raising one entry raises the sum by the same amount. */
  lemma {:induction false} PrefixUpdate(s: seq<nat>, n: nat, k: nat, v: nat)
    requires n <= |s| && k < |s|
    ensures k < n ==> Prefix(s[k := v], n) + s[k] == Prefix(s, n) + v
    ensures n <= k ==> Prefix(s[k := v], n) == Prefix(s, n)
  {
    if n > 0 {
      PrefixUpdate(s, n - 1, k, v);
    }
  }

  lemma {:induction false} PrefixAppend(s: seq<nat>, t: seq<nat>, n: nat)
    requires n <= |t|
    ensures Prefix(s + t, |s| + n) == Prefix(s, |s|) + Prefix(t, n)
  {
    if n == 0 {
      PrefixAgree(s + t, s, |s|);
    } else {
      PrefixAppend(s, t, n - 1);
    }
  }

  /** `p` lists every number below `|p|` exactly once. */
  ghost predicate IsPermutation(p: seq<nat>) {
    && (forall i :: 0 <= i < |p| ==> p[i] < |p|)
    && (forall i, j :: 0 <= i < j < |p| ==> p[i] != p[j])
    && (forall v: nat :: v < |p| ==> v in p)
  }

  /** The entries of `s` in the order given by `p`. */
  function Gather(s: seq<nat>, p: seq<nat>): (t: seq<nat>)
    requires forall i :: 0 <= i < |p| ==> p[i] < |s|
    ensures |t| == |p| && forall i :: 0 <= i < |p| ==> t[i] == s[p[i]]
  {
    seq(|p|, i requires 0 <= i < |p| => s[p[i]])
  }

  /** Like `Gather`, with every entry that comes from index `m` or above set to zero. */
  ghost function GatherBelow(s: seq<nat>, p: seq<nat>, m: nat): (t: seq<nat>)
    requires forall i :: 0 <= i < |p| ==> p[i] < |s|
    ensures |t| == |p| && forall i :: 0 <= i < |p| ==> t[i] == if p[i] < m then s[p[i]] else 0
  {
    seq(|p|, i requires 0 <= i < |p| => if p[i] < m then s[p[i]] else 0)
  }

  lemma {:induction false} GatherBelowSum(s: seq<nat>, p: seq<nat>, m: nat)
    requires |p| == |s| && IsPermutation(p) && m <= |s|
    ensures Sum(GatherBelow(s, p, m)) == Prefix(s, m)
  {
    if m == 0 {
      PrefixConstant(GatherBelow(s, p, 0), |p|, 0);
      MulAgrees(|p|, 0);
    } else {
      GatherBelowSum(s, p, m - 1);
      assert m - 1 in p;
      var k :| 0 <= k < |p| && p[k] == m - 1;
      var lower := GatherBelow(s, p, m - 1);
      PrefixUpdate(lower, |p|, k, s[m - 1]);
      assert lower[k := s[m - 1]] == GatherBelow(s, p, m);
    }
  }

  /** Summing in any order gives the same total. */
  lemma PermutedSum(s: seq<nat>, p: seq<nat>)
    requires |p| == |s| && IsPermutation(p)
    ensures Sum(Gather(s, p)) == Sum(s)
  {
    GatherBelowSum(s, p, |s|);
    assert GatherBelow(s, p, |s|) == Gather(s, p);
  }

  lemma PrefixZero(x: seq<nat>)
    ensures Prefix(x, 0) == 0
  {
  }

  lemma ConcatAssociates<T>(a: seq<T>, b: seq<T>, c: seq<T>)
    ensures (a + b) + c == a + (b + c)
  {
  }
}
