/** The first phase of the send kernel: pairs are counted with atomic additions in whatever
    order threads run, then a two-level warp shuffle makes running totals of the counts. */
module Scan {
  import opened Arith
  import opened Sums
  import opened Topology
  import opened Placement
  import opened Dispatch

  const WARP: nat := 32
  const WARPS: nat := 16

  /** How many of the first `k` pairs, in the order in which they were counted, went to `e`. */
  function Tally(experts: seq<nat>, order: seq<nat>, k: nat, e: nat): nat
    requires k <= |order| && forall m :: 0 <= m < |order| ==> order[m] < |experts|
  {
    if k == 0 then 0 else Tally(experts, order, k - 1, e) + if experts[order[k - 1]] == e then 1 else 0
  }

  lemma {:induction false} TallyMonotone(experts: seq<nat>, order: seq<nat>, j: nat, k: nat, e: nat)
    requires j <= k <= |order| && forall m :: 0 <= m < |order| ==> order[m] < |experts|
    ensures Tally(experts, order, j, e) <= Tally(experts, order, k, e)
    decreases k
  {
    if j < k {
      TallyMonotone(experts, order, j, k - 1, e);
    }
  }

  /** The pair that got a given number. */
  lemma {:induction false} TallyOnto(experts: seq<nat>, order: seq<nat>, k: nat, e: nat, c: nat) returns (m: nat)
    requires k <= |order| && forall m :: 0 <= m < |order| ==> order[m] < |experts|
    requires c < Tally(experts, order, k, e)
    ensures m < k && experts[order[m]] == e && Tally(experts, order, m, e) == c
    decreases k
  {
    if c < Tally(experts, order, k - 1, e) {
      m := TallyOnto(experts, order, k - 1, e, c);
    } else {
      m := k - 1;
    }
  }

  /** The numbering a counting order gives. */
  predicate Numbered(experts: seq<nat>, order: seq<nat>, offsets: seq<nat>, counts: seq<nat>, k: nat) {
    && k <= |order| && |offsets| == |experts|
    && (forall m :: 0 <= m < |order| ==> order[m] < |experts|)
    && (forall e :: 0 <= e < |counts| ==> counts[e] == Tally(experts, order, k, e))
    && (forall m {:trigger offsets[order[m]]} :: 0 <= m < k ==> offsets[order[m]] == Tally(experts, order, m, experts[order[m]]))
  }

  lemma TallyStep(experts: seq<nat>, order: seq<nat>, k: nat, e: nat)
    requires k < |order| && forall m :: 0 <= m < |order| ==> order[m] < |experts|
    ensures Tally(experts, order, k + 1, e) == Tally(experts, order, k, e) + if experts[order[k]] == e then 1 else 0
  {
  }

  lemma TallyNone(experts: seq<nat>, order: seq<nat>)
    requires forall m :: 0 <= m < |order| ==> order[m] < |experts|
    ensures forall e :: Tally(experts, order, 0, e) == 0
  {
  }

  lemma NumberNext(experts: seq<nat>, order: seq<nat>, offsets: seq<nat>, counts: seq<nat>, k: nat, i: nat, e: nat)
    requires Numbered(experts, order, offsets, counts, k) && k < |order| && IsPermutation(order)
    requires i == order[k] && e == experts[i] < |counts|
    ensures Numbered(experts, order, offsets[i := counts[e]], counts[e := counts[e] + 1], k + 1)
  {
    hide Tally;
    var offsets', counts' := offsets[i := counts[e]], counts[e := counts[e] + 1];
    forall d | 0 <= d < |counts'| ensures counts'[d] == Tally(experts, order, k + 1, d) {
      TallyStep(experts, order, k, d);
    }
  }

  /** Count the pairs; `order` is the order in which the atomic additions take effect. */
  method CountExperts(experts: seq<nat>, numExperts: nat, order: seq<nat>) returns (offsets: seq<nat>, counts: seq<nat>)
    requires |order| == |experts| && IsPermutation(order)
    requires forall i :: 0 <= i < |experts| ==> experts[i] < numExperts
    ensures |counts| == numExperts && Numbered(experts, order, offsets, counts, |order|)
  {
    hide Tally;
    offsets, counts := seq(|experts|, _ => 0), seq(numExperts, _ => 0);
    TallyNone(experts, order);
    for k := 0 to |order|
      invariant |counts| == numExperts && Numbered(experts, order, offsets, counts, k)
    {
      var i := order[k];
      var e := experts[i];
      NumberNext(experts, order, offsets, counts, k, i, e);
      offsets, counts := offsets[i := counts[e]], counts[e := counts[e] + 1];
    }
  }

  lemma NumberAt(experts: seq<nat>, order: seq<nat>, offsets: seq<nat>, counts: seq<nat>, a: nat)
    requires Numbered(experts, order, offsets, counts, |order|) && a < |order| && experts[order[a]] < |counts|
    ensures order[a] < |experts| == |offsets| && offsets[order[a]] == Tally(experts, order, a, experts[order[a]])
    ensures Tally(experts, order, a + 1, experts[order[a]]) == Tally(experts, order, a, experts[order[a]]) + 1
    ensures offsets[order[a]] < counts[experts[order[a]]]
    ensures forall m :: 0 <= m < |order| ==> order[m] < |experts|
  {
    hide Tally;
    TallyStep(experts, order, a, experts[order[a]]);
    TallyMonotone(experts, order, a + 1, |order|, experts[order[a]]);
  }

  lemma FindSlot(order: seq<nat>, i: nat) returns (a: nat)
    requires IsPermutation(order) && i < |order|
    ensures a < |order| && order[a] == i
  {
    assert i in order;
    a :| 0 <= a < |order| && order[a] == i;
  }

  /** Whatever the order, the numbers of one expert's pairs are distinct and below its count. */
  lemma NumbersDistinct(experts: seq<nat>, order: seq<nat>, offsets: seq<nat>, counts: seq<nat>, i: nat, j: nat)
    requires |order| == |experts| == |offsets| && IsPermutation(order) && Numbered(experts, order, offsets, counts, |order|)
    requires i < |experts| && j < |experts| && experts[i] < |counts| && experts[j] < |counts|
    ensures offsets[i] < counts[experts[i]]
    ensures experts[i] == experts[j] && offsets[i] == offsets[j] ==> i == j
  {
    hide *;
    var a := FindSlot(order, i);
    var b := FindSlot(order, j);
    NumberAt(experts, order, offsets, counts, a);
    NumberAt(experts, order, offsets, counts, b);
    if a < b {
      TallyMonotone(experts, order, a + 1, b, experts[i]);
    } else if b < a {
      TallyMonotone(experts, order, b + 1, a, experts[i]);
    }
  }

  /** Positions: pairs sorted by expert, numbered within. */
  function PositionOf(experts: seq<nat>, offsets: seq<nat>, counts: seq<nat>, i: nat): nat
    requires i < |experts| == |offsets| && experts[i] < |counts|
  {
    Prefix(counts, experts[i]) + offsets[i]
  }

  lemma {:induction false} CountsTotal(experts: seq<nat>, order: seq<nat>, counts: seq<nat>, k: nat)
    requires k <= |order| && forall m :: 0 <= m < |order| ==> order[m] < |experts|
    requires forall e :: 0 <= e < |counts| ==> counts[e] == Tally(experts, order, k, e)
    requires forall i :: 0 <= i < |experts| ==> experts[i] < |counts|
    ensures Sum(counts) == k
    decreases k
  {
    if k == 0 {
      PrefixConstant(counts, |counts|, 0);
      MulAgrees(|counts|, 0);
    } else {
      var e := experts[order[k - 1]];
      var less := counts[e := counts[e] - 1];
      CountsTotal(experts, order, less, k - 1);
      assert counts == less[e := counts[e]];
      PrefixUpdate(less, |less|, e, counts[e]);
    }
  }

  ghost function Positions(experts: seq<nat>, offsets: seq<nat>, counts: seq<nat>): (ps: seq<nat>)
    requires |experts| == |offsets| && forall i :: 0 <= i < |experts| ==> experts[i] < |counts|
    ensures |ps| == |experts| && forall i :: 0 <= i < |ps| ==> ps[i] == PositionOf(experts, offsets, counts, i)
  {
    seq<nat>(|experts|, i requires 0 <= i < |experts| => PositionOf(experts, offsets, counts, i))
  }

  /** For every order of the atomic additions the positions are a permutation of `0..n`, sorted
      by expert. */
  lemma PositionsBijective(experts: seq<nat>, order: seq<nat>, offsets: seq<nat>, counts: seq<nat>)
    requires |order| == |experts| == |offsets| && IsPermutation(order) && Numbered(experts, order, offsets, counts, |order|)
    requires forall i :: 0 <= i < |experts| ==> experts[i] < |counts|
    ensures IsPermutation(Positions(experts, offsets, counts))
    ensures forall i, j :: 0 <= i < |experts| && 0 <= j < |experts| && experts[i] < experts[j] ==>
              Positions(experts, offsets, counts)[i] < Positions(experts, offsets, counts)[j]
  {
    hide Numbered, PositionOf;
    var ps := Positions(experts, offsets, counts);
    forall i | 0 <= i < |ps| ensures ps[i] < |ps| {
      PositionBound(experts, order, offsets, counts, i);
    }
    forall i, j | 0 <= i < |ps| && 0 <= j < |ps|
      ensures i != j ==> ps[i] != ps[j]
      ensures experts[i] < experts[j] ==> ps[i] < ps[j]
    {
      PositionOrder(experts, order, offsets, counts, i, j);
    }
    forall p: nat | p < |ps| ensures p in ps {
      var i := PositionOnto(experts, order, offsets, counts, p);
      assert ps[i] == p;
    }
  }

  lemma PositionBound(experts: seq<nat>, order: seq<nat>, offsets: seq<nat>, counts: seq<nat>, i: nat)
    requires |order| == |experts| == |offsets| && IsPermutation(order) && Numbered(experts, order, offsets, counts, |order|)
    requires (forall i :: 0 <= i < |experts| ==> experts[i] < |counts|) && i < |experts|
    ensures PositionOf(experts, offsets, counts, i) < |experts|
  {
    NumbersDistinct(experts, order, offsets, counts, i, i);
    CountsTotal(experts, order, counts, |order|);
    PrefixMonotone(counts, experts[i] + 1, |counts|);
  }

  lemma PositionOrder(experts: seq<nat>, order: seq<nat>, offsets: seq<nat>, counts: seq<nat>, i: nat, j: nat)
    requires |order| == |experts| == |offsets| && IsPermutation(order) && Numbered(experts, order, offsets, counts, |order|)
    requires (forall i :: 0 <= i < |experts| ==> experts[i] < |counts|) && i < |experts| && j < |experts|
    ensures PositionOf(experts, offsets, counts, i) == PositionOf(experts, offsets, counts, j) ==> i == j
    ensures experts[i] < experts[j] ==> PositionOf(experts, offsets, counts, i) < PositionOf(experts, offsets, counts, j)
  {
    hide Numbered, IsPermutation, Prefix;
    NumbersDistinct(experts, order, offsets, counts, i, j);
    NumbersDistinct(experts, order, offsets, counts, j, i);
    BlockEnd(counts, experts[i]);
    BlockEnd(counts, experts[j]);
    if experts[i] < experts[j] {
      PrefixMonotone(counts, experts[i] + 1, experts[j]);
    } else if experts[j] < experts[i] {
      PrefixMonotone(counts, experts[j] + 1, experts[i]);
    }
  }

  lemma BlockEnd(counts: seq<nat>, e: nat)
    requires e < |counts|
    ensures Prefix(counts, e + 1) == Prefix(counts, e) + counts[e]
  {
  }

  lemma PositionOnto(experts: seq<nat>, order: seq<nat>, offsets: seq<nat>, counts: seq<nat>, p: nat) returns (i: nat)
    requires |order| == |experts| == |offsets| && IsPermutation(order) && Numbered(experts, order, offsets, counts, |order|)
    requires (forall i :: 0 <= i < |experts| ==> experts[i] < |counts|) && p < |experts|
    ensures i < |experts| && PositionOf(experts, offsets, counts, i) == p
  {
    hide IsPermutation;
    CountsTotal(experts, order, counts, |order|);
    var e := Locate(counts, |counts|, p);
    var m := TallyOnto(experts, order, |order|, e, p - Prefix(counts, e));
    i := order[m];
  }

  /** So any counting order yields data that the delivery proofs accept. */
  lemma KernelCountsValid<T>(job: Job<T>, g: nat, order: seq<nat>)
    requires job.p.Valid() && job.topk > 0 && |job.experts| == |job.offsets| == |job.x| == job.p.c.groups && g < job.p.c.groups
    requires |job.experts[g]| == |job.offsets[g]| == Mul(|job.x[g]|, job.topk) < TAG
    requires |order| == |job.experts[g]| && IsPermutation(order)
    requires forall i :: 0 <= i < |job.experts[g]| ==> job.experts[g][i] < job.p.c.numExperts
    requires Numbered(job.experts[g], order, job.offsets[g], job.p.routed[g], |order|)
    ensures job.GroupValid(g)
  {
    hide Numbered, IsPermutation, Tally;
    var experts, offsets, counts := job.experts[g], job.offsets[g], job.p.routed[g];
    assert Sum(counts) == |order| by {
      NumberedTotal(experts, order, offsets, counts);
    }
    forall i | 0 <= i < |experts| ensures offsets[i] < counts[experts[i]] {
      NumbersDistinct(experts, order, offsets, counts, i, i);
    }
    forall i: nat, j: nat | i < j < |experts| ensures !job.Clash(g, i, j) {
      NumbersDistinct(experts, order, offsets, counts, i, j);
    }
  }

  lemma NumberedTotal(experts: seq<nat>, order: seq<nat>, offsets: seq<nat>, counts: seq<nat>)
    requires Numbered(experts, order, offsets, counts, |order|)
    requires forall i :: 0 <= i < |experts| ==> experts[i] < |counts|
    ensures Sum(counts) == |order|
  {
    CountsTotal(experts, order, counts, |order|);
  }

  /** Sum of the last `w` entries up to `l`. */
  function Window(x: seq<nat>, l: nat, w: nat): nat
    requires l < |x|
  {
    PrefixMonotone(x, if l + 1 <= w then 0 else l + 1 - w, l + 1);
    Prefix(x, l + 1) - Prefix(x, if l + 1 <= w then 0 else l + 1 - w)
  }

  /** One shuffle step: every lane adds the value of the lane `offset` below, all at once. */
  function Shuffle(v: seq<nat>, offset: nat): (v': seq<nat>)
    ensures |v'| == |v|
  {
    seq<nat>(|v|, l requires 0 <= l < |v| => v[l] + if l >= offset then v[l - offset] else 0)
  }

  predicate Windows(x: seq<nat>, v: seq<nat>, w: nat) {
    |v| == |x| && forall l :: 0 <= l < |x| ==> v[l] == Window(x, l, w)
  }

  lemma ShuffleDoubles(x: seq<nat>, v: seq<nat>, w: nat)
    requires Windows(x, v, w) && w > 0
    ensures Windows(x, Shuffle(v, w), w + w)
  {
    hide Prefix;
    var v' := Shuffle(v, w);
    forall l | 0 <= l < |x| ensures v'[l] == Window(x, l, w + w) {
      if l >= w {
        assert v[l - w] == Window(x, l - w, w);
      }
      PrefixZero(x);
    }
  }

  /** The scan within a warp; lanes below the final stride hold running totals. */
  method WarpScan(x: seq<nat>, limit: nat) returns (v: seq<nat>)
    ensures |v| == |x|
    ensures forall l :: 0 <= l < |x| && l < limit ==> v[l] == Prefix(x, l + 1)
  {
    v := x;
    var offset := 1;
    assert Windows(x, v, 1);
    while offset < limit
      invariant offset > 0 && Windows(x, v, offset)
      decreases limit - offset
    {
      ShuffleDoubles(x, v, offset);
      v := Shuffle(v, offset);
      offset := offset + offset;
    }
    if limit > 0 {
      forall l | 0 <= l < |x| && l < limit ensures v[l] == Prefix(x, l + 1) {
        PrefixZero(x);
      }
    }
  }

  /** Entry `i` of the counts, zero for threads beyond the last expert. */
  function Entry(counts: seq<nat>, i: nat): nat {
    if i < |counts| then counts[i] else 0
  }

  /** The counts held by the lanes of warp `w`. */
  function Lanes(counts: seq<nat>, w: nat): (x: seq<nat>)
    ensures |x| == 32 && forall l :: 0 <= l < 32 ==> x[l] == Entry(counts, 32 * w + l)
  {
    seq<nat>(32, l requires 0 <= l < 32 => Entry(counts, 32 * w + l))
  }

  /** Running total of the padded counts. */
  function Running(counts: seq<nat>, n: nat): nat {
    Prefix(counts, Min(n, |counts|))
  }

  lemma {:induction false} LanesPrefix(counts: seq<nat>, w: nat, n: nat)
    requires n <= 32
    ensures Running(counts, 32 * w) + Prefix(Lanes(counts, w), n) == Running(counts, 32 * w + n)
  {
    if n > 0 {
      LanesPrefix(counts, w, n - 1);
    }
  }

  /** The warp totals, and zeros for lanes beyond the last warp. */
  predicate WarpTotals(counts: seq<nat>, sums: seq<nat>, k: nat) {
    k <= |sums| && forall w :: 0 <= w < k ==> Running(counts, 32 * w) + sums[w] == Running(counts, 32 * w + 32)
  }

  lemma {:induction false} TotalsPrefix(counts: seq<nat>, sums: seq<nat>, k: nat, w: nat)
    requires WarpTotals(counts, sums, k) && w <= k
    ensures Prefix(sums, w) == Running(counts, 32 * w)
  {
    if w > 0 {
      TotalsPrefix(counts, sums, k, w - 1);
    }
  }

  /** First level: scan within each warp. */
  method ScanWarps(counts: seq<nat>) returns (lanes: seq<seq<nat>>, sums: seq<nat>)
    ensures |lanes| == |sums| == WARPS && WarpTotals(counts, sums, WARPS)
    ensures forall w :: 0 <= w < WARPS ==> LaneTotals(counts, w, lanes[w])
  {
    hide Prefix, Lanes, Entry;
    lanes, sums := [], [];
    for w := 0 to WARPS
      invariant |lanes| == |sums| == w && WarpTotals(counts, sums, w)
      invariant forall u :: 0 <= u < w ==> LaneTotals(counts, u, lanes[u])
    {
      var v := WarpScan(Lanes(counts, w), WARP);
      forall l | 0 <= l < 32 ensures Running(counts, 32 * w) + v[l] == Running(counts, 32 * w + l + 1) {
        LanesPrefix(counts, w, l + 1);
      }
      assert LaneTotals(counts, w, v);
      lanes, sums := lanes + [v], sums + [v[31]];
    }
  }

  predicate LaneTotals(counts: seq<nat>, w: nat, v: seq<nat>) {
    |v| == 32 && forall l :: 0 <= l < 32 ==> Running(counts, 32 * w) + v[l] == Running(counts, 32 * w + l + 1)
  }

  /** Second level: scan the warp totals in the first warp. */
  method ScanTotals(counts: seq<nat>, sums: seq<nat>, numWarps: nat) returns (totals: seq<nat>)
    requires |sums| == WARPS && WarpTotals(counts, sums, WARPS) && numWarps <= WARPS
    ensures |totals| == 32 && forall w :: 0 <= w < numWarps ==> totals[w] == Running(counts, 32 * w + 32)
  {
    hide Prefix, Running;
    var z := seq<nat>(32, l requires 0 <= l < 32 => if l < numWarps then sums[l] else 0);
    totals := WarpScan(z, numWarps);
    forall w | 0 <= w < numWarps ensures totals[w] == Running(counts, 32 * w + 32) {
      assert WarpTotals(counts, z, numWarps);
      TotalsPrefix(counts, z, numWarps, w + 1);
    }
  }

  /** The two-level scan: every expert's running total, for up to one thread per expert. */
  method BlockScan(counts: seq<nat>) returns (offsets: seq<nat>)
    requires |counts| <= 512
    ensures |offsets| == |counts|
    ensures forall i {:trigger offsets[i]} :: 0 <= i < |counts| ==> offsets[i] == Prefix(counts, i + 1)
  {
    hide Prefix;
    var lanes, sums := ScanWarps(counts);
    var numWarps := (|counts| + 31) / 32;
    var totals := ScanTotals(counts, sums, numWarps);
    offsets := [];
    for i := 0 to |counts|
      invariant |offsets| == i
      invariant forall k {:trigger offsets[k]} :: 0 <= k < i ==> offsets[k] == Prefix(counts, k + 1)
    {
      var w, l := i / 32, i % 32;
      assert LaneTotals(counts, w, lanes[w]);
      PrefixZero(counts);
      if w > 0 {
        offsets := offsets + [totals[w - 1] + lanes[w][l]];
      } else {
        offsets := offsets + [lanes[w][l]];
      }
    }
  }

  /** What the kernels look up for a pair: its slot in the send order, and its index on the
      destination rank. */
  function SlotOf(offsets: seq<nat>, expert: nat, offset: nat): nat
    requires expert <= |offsets|
  {
    (if expert > 0 then offsets[expert - 1] else 0) + offset
  }

  function RankOffset(offsets: seq<nat>, rank: nat, expertsPerRank: nat): nat
    requires rank > 0 ==> 0 < Mul(rank, expertsPerRank) <= |offsets|
  {
    if rank > 0 then offsets[Mul(rank, expertsPerRank) - 1] else 0
  }

  /** The kernels' lookups are the positions and indices of the delivery proofs. */
  lemma LookupExact<T>(job: Job<T>, g: nat, i: nat, offsets: seq<nat>)
    requires job.Pair(g, i) && |offsets| == |job.p.routed[g]|
    requires forall e {:trigger offsets[e]} :: 0 <= e < |offsets| ==> offsets[e] == Prefix(job.p.routed[g], e + 1)
    ensures var e, q, c := job.experts[g][i], job.Target(g, i), job.p.c;
            && SlotOf(offsets, e, job.offsets[g][i]) == job.Position(g, i)
            && q == Quot(e, c.expertsPerRank) && (q > 0 ==> 0 < Mul(q, c.expertsPerRank) <= |offsets|)
            && RankOffset(offsets, q, c.expertsPerRank) <= job.Position(g, i)
            && job.IndexOn(g, i, q, job.Position(g, i) - RankOffset(offsets, q, c.expertsPerRank))
  {
    var e, q, c := job.experts[g][i], job.Target(g, i), job.p.c;
    OwnerRange(c, e);
    LoFacts(c, q);
    PositionRange(job, g, i);
    if q > 0 {
      MulMonotone(1, q, c.expertsPerRank);
      assert offsets[Mul(q, c.expertsPerRank) - 1] == Prefix(job.p.routed[g], Mul(q, c.expertsPerRank));
    }
  }
}
