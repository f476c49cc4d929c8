/** The kernels' staged copy loops: eight tokens at a time, with the metadata of the next
    batch fetched while the current one is copied. */
module Pipeline {
  import opened Arith
  import opened Sums

  const STAGES: nat := 8

  /** The tokens of a plain loop from `first` in steps of `grid`. */
  function Strided(first: nat, grid: nat, n: nat): seq<nat>
    requires grid > 0
    decreases n - first
  {
    if first >= n then [] else [first] + Strided(first + grid, grid, n)
  }

  /** The `s`-th token from `first` on. */
  function Nth(first: nat, grid: nat, s: nat): nat {
    first + Mul(s, grid)
  }

  lemma NthLater(first: nat, grid: nat, a: nat, b: nat)
    ensures Nth(Nth(first, grid, a), grid, b) == Nth(first, grid, a + b)
    ensures a <= b ==> Nth(first, grid, a) <= Nth(first, grid, b)
    ensures Nth(first, grid, 0) == first && Nth(first, grid, 1) == first + grid
  {
    MulAdd(a, b, grid);
    if a <= b {
      MulMonotone(a, b, grid);
    }
    MulAgrees(1, grid);
  }

  /** What a copy used: the token and the metadata found in its stage. */
  datatype Copy<M> = Copy(token: nat, meta: M)

  predicate Below(tokens: seq<nat>, m: nat) {
    forall i :: 0 <= i < |tokens| ==> tokens[i] < m
  }

  /** Each token copied with its own metadata. */
  function Faithful<M>(meta: seq<M>, tokens: seq<nat>): seq<Copy<M>>
    requires Below(tokens, |meta|)
  {
    seq(|tokens|, i requires 0 <= i < |tokens| => Copy(tokens[i], meta[tokens[i]]))
  }

  lemma {:induction false} StridedBelow(first: nat, grid: nat, n: nat, m: nat)
    requires grid > 0 && n <= m
    ensures Below(Strided(first, grid, n), m)
    decreases n - first
  {
    if first < n {
      StridedBelow(first + grid, grid, n, m);
    }
  }

  /** Stage `s` holds the metadata of the `s`-th token from `token` on, if there is one. */
  ghost predicate Staged<M>(meta: seq<M>, stages: seq<M>, token: nat, grid: nat, n: nat) {
    n <= |meta| && |stages| == STAGES
    && forall s {:trigger stages[s]} :: 0 <= s < STAGES && Nth(token, grid, s) < n ==> stages[s] == meta[Nth(token, grid, s)]
  }

  /** Every thread below the number of stages fetches one entry. */
  method Fetch<M>(meta: seq<M>, shared: seq<M>, token: nat, grid: nat, n: nat) returns (shared': seq<M>)
    requires n <= |meta| && |shared| == STAGES
    ensures Staged(meta, shared', token, grid, n)
  {
    shared' := shared;
    for s := 0 to STAGES
      invariant |shared'| == STAGES
      invariant forall u {:trigger shared'[u]} :: 0 <= u < s && Nth(token, grid, u) < n ==> shared'[u] == meta[Nth(token, grid, u)]
    {
      if Nth(token, grid, s) < n {
        shared' := shared'[s := meta[Nth(token, grid, s)]];
      }
    }
  }

  /** Copy the tokens of one batch from the local stages. */
  method CopyBatch<M>(ghost meta: seq<M>, local: seq<M>, token: nat, grid: nat, n: nat) returns (copied: seq<Copy<M>>, token': nat)
    requires grid > 0 && Staged(meta, local, token, grid, n)
    ensures Below(Strided(token, grid, n), |meta|)
    ensures Below(Strided(token', grid, n), |meta|)
    ensures Faithful(meta, Strided(token, grid, n)) == copied + Faithful(meta, Strided(token', grid, n))
    ensures token' == Nth(token, grid, |copied|) && (token' < n ==> token' == Nth(token, grid, STAGES))
    ensures token < n ==> token' > token
  {
    copied, token' := [], token;
    StridedBelow(token, grid, n, |meta|);
    NthLater(token, grid, 0, 0);
    var s := 0;
    while s < STAGES && token' < n
      invariant 0 <= s <= STAGES && |copied| == s && token' == Nth(token, grid, s)
      invariant Below(Strided(token', grid, n), |meta|)
      invariant Faithful(meta, Strided(token, grid, n)) == copied + Faithful(meta, Strided(token', grid, n))
      invariant s > 0 ==> token' > token
    {
      BatchStep(meta, copied, local[s], token, token', grid, n, s);
      copied := copied + [Copy(token', local[s])];
      token' := token' + grid;
      s := s + 1;
    }
  }

  lemma BatchStep<M>(meta: seq<M>, copied: seq<Copy<M>>, stage: M, token: nat, at: nat, grid: nat, n: nat, s: nat)
    requires grid > 0 && at < n <= |meta| && at == Nth(token, grid, s) && stage == meta[at]
    requires Below(Strided(token, grid, n), |meta|)
    requires Below(Strided(at, grid, n), |meta|)
    requires Faithful(meta, Strided(token, grid, n)) == copied + Faithful(meta, Strided(at, grid, n))
    ensures at + grid == Nth(token, grid, s + 1)
    ensures Below(Strided(at + grid, grid, n), |meta|)
    ensures Faithful(meta, Strided(token, grid, n)) == copied + [Copy(at, stage)] + Faithful(meta, Strided(at + grid, grid, n))
  {
    StridedBelow(at + grid, grid, n, |meta|);
    var rest := Strided(at + grid, grid, n);
    assert Strided(at, grid, n) == [at] + rest;
    assert Faithful(meta, [at] + rest) == [Copy(at, stage)] + Faithful(meta, rest);
  }

  /** One staged loop from `first` to `n`: the copies it makes are those of the plain loop,
      each with the right metadata. */
  method StagedLoop<M>(meta: seq<M>, shared: seq<M>, first: nat, grid: nat, n: nat)
    returns (copied: seq<Copy<M>>, token: nat, shared': seq<M>)
    requires grid > 0 && n <= |meta| && |shared| == STAGES
    ensures Below(Strided(first, grid, n), |meta|)
    ensures copied == Faithful(meta, Strided(first, grid, n))
    ensures token == Nth(first, grid, |copied|) >= n && |shared'| == STAGES
  {
    hide Faithful, Nth;
    shared' := Fetch(meta, shared, first, grid, n);
    var local := shared';
    copied, token := [], first;
    NthLater(first, grid, 0, 0);
    StridedBelow(first, grid, n, |meta|);
    while token < n
      invariant |shared'| == STAGES && token == Nth(first, grid, |copied|)
      invariant token < n ==> Staged(meta, local, token, grid, n)
      invariant Below(Strided(token, grid, n), |meta|)
      invariant Faithful(meta, Strided(first, grid, n)) == copied + Faithful(meta, Strided(token, grid, n))
      decreases n - token
    {
      shared' := Fetch(meta, shared', Nth(token, grid, STAGES), grid, n);
      var batch, next := CopyBatch(meta, local, token, grid, n);
      NthLater(first, grid, |copied|, |batch|);
      copied, token := copied + batch, next;
      local := shared';
    }
    FaithfulNone(meta);
  }

  lemma FaithfulNone<M>(meta: seq<M>)
    ensures Faithful(meta, []) == []
  {
  }

  /** The combine kernel of one block: network tokens first, then the rest, the second loop
      going on where the first stopped. */
  method CombineBlock<M>(meta: seq<M>, blank: M, block: nat, grid: nat, numRemote: nat, num: nat)
    returns (remote: seq<Copy<M>>, local: seq<Copy<M>>)
    requires grid > 0 && numRemote <= num <= |meta|
    ensures Below(Strided(block, grid, numRemote), |meta|)
    ensures Below(Strided(block, grid, num), |meta|)
    ensures remote == Faithful(meta, Strided(block, grid, numRemote))
    ensures remote + local == Faithful(meta, Strided(block, grid, num))
  {
    hide Nth;
    var shared := seq(STAGES, _ => blank);
    var token;
    remote, token, shared := StagedLoop(meta, shared, block, grid, numRemote);
    local, token, shared := StagedLoop(meta, shared, token, grid, num);
    StridedBelow(block, grid, num, |meta|);
    StridedBelow(block, grid, numRemote, |meta|);
    SplitLoop(meta, block, grid, numRemote, num, |remote|);
  }

  /** Stopping a strided loop and going on from there is the whole loop. */
  lemma {:induction false} SplitLoop<M>(meta: seq<M>, first: nat, grid: nat, m: nat, n: nat, k: nat)
    requires grid > 0 && m <= n <= |meta| && k == |Strided(first, grid, m)|
    ensures Below(Strided(first, grid, m), |meta|)
    ensures Below(Strided(first, grid, n), |meta|)
    ensures Below(Strided(Nth(first, grid, k), grid, n), |meta|)
    ensures Faithful(meta, Strided(first, grid, m)) + Faithful(meta, Strided(Nth(first, grid, k), grid, n))
            == Faithful(meta, Strided(first, grid, n))
  {
    StridedBelow(first, grid, m, |meta|);
    StridedBelow(first, grid, n, |meta|);
    StridedBelow(Nth(first, grid, k), grid, n, |meta|);
    SplitStrided(first, grid, m, n, k);
  }

  lemma {:induction false} SplitStrided(first: nat, grid: nat, m: nat, n: nat, k: nat)
    requires grid > 0 && m <= n && k == |Strided(first, grid, m)|
    ensures Strided(first, grid, m) + Strided(Nth(first, grid, k), grid, n) == Strided(first, grid, n)
    decreases m - first
  {
    NthLater(first, grid, 0, 0);
    if first < m {
      SplitStrided(first + grid, grid, m, n, k - 1);
      NthLater(first, grid, 1, k - 1);
    }
  }

  /** Token `t` belongs to block `t mod grid`, and appears there exactly once. */
  lemma {:induction false} StridedExactly(first: nat, grid: nat, n: nat, t: nat)
    requires grid > 0
    ensures t in Strided(first, grid, n) <==> first <= t < n && Rem(t - first, grid) == 0
    ensures multiset(Strided(first, grid, n))[t] <= 1
    decreases n - first
  {
    if first < n {
      StridedExactly(first + grid, grid, n, t);
    }
  }

  lemma BlockOf(grid: nat, n: nat, t: nat, block: nat)
    requires block < grid && t < n
    ensures t in Strided(block, grid, n) <==> block == Rem(t, grid)
  {
    StridedExactly(block, grid, n, t);
    if block <= t {
      QuotRemParts(t - block, grid);
      QuotRemParts(t, grid);
      if Rem(t - block, grid) == 0 {
        QuotRem(Quot(t - block, grid), block, grid);
      } else if block == Rem(t, grid) {
        QuotRem(Quot(t, grid), 0, grid);
      }
    } else {
      QuotRem(0, t, grid);
    }
  }

  /** Tokens handled by each block. */
  function BlockCounts(grid: nat, n: nat): (counts: seq<nat>)
    requires grid > 0
    ensures |counts| == grid && forall b :: 0 <= b < grid ==> counts[b] == |Strided(b, grid, n)|
  {
    seq<nat>(grid, b requires 0 <= b < grid => |Strided(b, grid, n)|)
  }

  lemma {:induction false} StridedGrows(first: nat, grid: nat, n: nat)
    requires grid > 0
    ensures |Strided(first, grid, n + 1)| == |Strided(first, grid, n)| + if n in Strided(first, grid, n + 1) then 1 else 0
    decreases n + 1 - first
  {
    if first < n {
      StridedGrows(first + grid, grid, n);
    } else if first == n {
      assert Strided(first + grid, grid, n + 1) == [];
    }
  }

  /** The blocks' counts add up to the number of tokens. */
  lemma {:induction false} CountsAddUp(grid: nat, n: nat)
    requires grid > 0
    ensures Sum(BlockCounts(grid, n)) == n
  {
    var counts := BlockCounts(grid, n);
    if n == 0 {
      PrefixConstant(counts, grid, 0);
      MulAgrees(grid, 0);
    } else {
      var before, b := BlockCounts(grid, n - 1), Rem(n - 1, grid);
      CountsAddUp(grid, n - 1);
      forall k | 0 <= k < grid ensures counts[k] == before[b := before[b] + 1][k] {
        StridedGrows(k, grid, n - 1);
        BlockOf(grid, n, n - 1, k);
      }
      assert counts == before[b := before[b] + 1];
      PrefixUpdate(before, grid, b, before[b] + 1);
    }
  }

  /** The blocks add their counts to a global counter in any order. When the counter reaches
      the number of tokens, every token has been copied: the blocks still to come have none. */
  lemma DoneMeansAll(grid: nat, n: nat, order: seq<nat>, k: nat, j: nat)
    requires grid > 0 && |order| == grid && IsPermutation(order) && k <= j < grid
    requires Prefix(Gather(BlockCounts(grid, n), order), k) == n
    ensures Strided(order[j], grid, n) == []
  {
    var counts := BlockCounts(grid, n);
    CountsAddUp(grid, n);
    PermutedSum(counts, order);
    PrefixMonotone(Gather(counts, order), k, j);
    PrefixMonotone(Gather(counts, order), j + 1, grid);
    assert Gather(counts, order)[j] == 0;
  }

  /** And when all blocks have added, the counter does reach it. */
  lemma AllMeansDone(grid: nat, n: nat, order: seq<nat>)
    requires grid > 0 && |order| == grid && IsPermutation(order)
    ensures Prefix(Gather(BlockCounts(grid, n), order), grid) == n
  {
    CountsAddUp(grid, n);
    PermutedSum(BlockCounts(grid, n), order);
  }
}
