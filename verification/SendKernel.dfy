/** The copy loops of the send kernel: every block walks over its tokens twice, first filling
    the send buffer, then writing straight into the private buffers of peers on the node. */
module SendKernel {
  import opened Arith
  import opened Sums
  import opened Topology
  import opened Dispatch
  import opened Scan
  import opened Pipeline

  datatype Store<T> = ToSend(slot: nat, v: T) | ToPeer(q: nat, slot: nat, v: T) | Nothing

  /** Rank `r`, a member of group `g`, works on its group's part of the job. */
  ghost predicate Here<T>(job: Job<T>, r: nat, g: nat) {
    && job.Valid() && job.p.Valid() && r < job.p.c.worldSize && job.p.c.dpSize > 0 && job.topk > 0 && g == job.p.c.GroupOf(r) < job.p.c.groups
    && |job.experts| == |job.offsets| == |job.x| == |job.p.routed| == job.p.c.groups
  }

  /** What the kernel on rank `r` does with pair `i` of its batch. */
  ghost function StoreOf<T>(job: Job<T>, r: nat, g: nat, i: nat): Store<T>
    requires Here(job, r, g) && job.Pair(g, i)
  {
    var q := job.Target(g, i);
    PositionRange(job, g, i);
    var index := job.Position(g, i) - job.p.Start(g, q);
    if !job.Direct(r, q, index) then ToSend(job.Position(g, i), job.Payload(g, i))
    else if job.fixedDim || job.p.c.DpRank(q) == job.p.c.DpRank(r) then
      ToPeer(q, Mul(g, job.p.c.maxPrivate) + index, job.Payload(g, i))
    else Nothing
  }

  /** The part of it that belongs to the first or the second walk. */
  function Pick<T>(s: Store<T>, peers: bool): Store<T> {
    if peers then if s.ToPeer? then s else Nothing
    else if s.ToSend? then s else Nothing
  }

  /** The stores for the pairs of token `t`. */
  ghost function TokenStores<T>(job: Job<T>, r: nat, g: nat, t: nat, peers: bool, n: nat): (s: seq<Store<T>>)
    requires Here(job, r, g)
    requires t < |job.x[g]| && n <= job.topk
    ensures |s| == n
  {
    if n == 0 then []
    else
      PairOf(job, r, g, t, n - 1);
      TokenStores(job, r, g, t, peers, n - 1) + [Pick(StoreOf(job, r, g, Mul(t, job.topk) + (n - 1)), peers)]
  }

  lemma PairOf<T>(job: Job<T>, r: nat, g: nat, t: nat, e: nat)
    requires Here(job, r, g) && t < |job.x[g]| && e < job.topk
    ensures job.Pair(g, Mul(t, job.topk) + e)
    ensures Quot(Mul(t, job.topk) + e, job.topk) == t
  {
    assert job.GroupValid(g);
    MulMonotone(t + 1, |job.x[g]|, job.topk);
    QuotRem(t, e, job.topk);
  }

  ghost predicate Batch<T>(job: Job<T>, r: nat, g: nat, totals: seq<nat>) {
    && Here(job, r, g) && |totals| == |job.p.routed[g]|
    && forall e {:trigger totals[e]} :: 0 <= e < |totals| ==> totals[e] == Prefix(job.p.routed[g], e + 1)
  }

  lemma BatchFacts<T>(job: Job<T>, r: nat, g: nat, totals: seq<nat>, t: nat, e: nat, i: nat)
    requires Batch(job, r, g, totals) && t < |job.x[g]| && e < job.topk && i == Mul(t, job.topk) + e
    ensures job.Pair(g, i) && job.p.c.Valid() && job.p.c.nodeSize > 0 && i < |job.experts[g]| == |job.offsets[g]|
    ensures var x, c := job.experts[g][i], job.p.c;
            var q := Quot(x, c.expertsPerRank);
            && x <= |totals| && (q > 0 ==> 0 < Mul(q, c.expertsPerRank) <= |totals|)
            && q == job.Target(g, i) && q < c.worldSize
            && SlotOf(totals, x, job.offsets[g][i]) == job.Position(g, i)
            && job.p.Start(g, q) + (job.Position(g, i) - RankOffset(totals, q, c.expertsPerRank)) == job.Position(g, i)
            && RankOffset(totals, q, c.expertsPerRank) <= job.Position(g, i)
            && job.Payload(g, i) == job.x[g][t]
  {
    hide Job.Direct, Prefix, SlotOf, RankOffset;
    PairOf(job, r, g, t, e);
    Sizes(job.p.c);
    LookupExact(job, g, i, totals);
    PositionRange(job, g, i);
  }

  /** One token, one walk. */
  method SendToken<T>(job: Job<T>, r: nat, g: nat, totals: seq<nat>, t: nat, peers: bool) returns (log: seq<Store<T>>)
    requires Batch(job, r, g, totals) && t < |job.x[g]|
    ensures log == TokenStores(job, r, g, t, peers, job.topk)
  {
    hide Job.Valid, Job.Pair, Job.Payload, Prefix, SlotOf, RankOffset, Quot, Rem, Mul;
    log := [];
    var c := job.p.c;
    for e := 0 to job.topk
      invariant log == TokenStores(job, r, g, t, peers, e)
    {
      var i := Mul(t, job.topk) + e;
      BatchFacts(job, r, g, totals, t, e, i);
      var expert := job.experts[g][i];
      var position := SlotOf(totals, expert, job.offsets[g][i]);
      var q := Quot(expert, c.expertsPerRank);
      var offset := position - RankOffset(totals, q, c.expertsPerRank);
      var store := Nothing;
      if c.NodeOf(q) == c.NodeOf(r) && q != r && offset < c.maxPrivate {
        if peers && (job.fixedDim || c.DpRank(q) == c.DpRank(r)) {
          store := ToPeer(q, Mul(g, c.maxPrivate) + offset, job.x[g][t]);
        }
      } else if !peers {
        store := ToSend(position, job.x[g][t]);
      }
      log := log + [store];
    }
  }

  /** The stores for a list of tokens. */
  ghost function ListStores<T>(job: Job<T>, r: nat, g: nat, tokens: seq<nat>, peers: bool): seq<Store<T>>
    requires Here(job, r, g)
    requires Below(tokens, |job.x[g]|)
  {
    if |tokens| == 0 then []
    else TokenStores(job, r, g, tokens[0], peers, job.topk) + ListStores(job, r, g, tokens[1..], peers)
  }

  /** One walk of one block. */
  method SendBlock<T>(job: Job<T>, r: nat, g: nat, totals: seq<nat>, block: nat, grid: nat, peers: bool)
    returns (log: seq<Store<T>>)
    requires Batch(job, r, g, totals) && grid > 0
    ensures Below(Strided(block, grid, |job.x[g]|), |job.x[g]|)
    ensures log == ListStores(job, r, g, Strided(block, grid, |job.x[g]|), peers)
  {
    hide Job.Valid, TokenStores, Prefix;
    var num := |job.x[g]|;
    log := [];
    var token := block;
    StridedBelow(block, grid, num, num);
    while token < num
      invariant Below(Strided(token, grid, num), num)
      invariant log + ListStores(job, r, g, Strided(token, grid, num), peers) == ListStores(job, r, g, Strided(block, grid, num), peers)
      decreases num - token
    {
      StridedBelow(token + grid, grid, num, num);
      var stores := SendToken(job, r, g, totals, token, peers);
      ListStep(job, r, g, token, grid, num, peers);
      ConcatAssociates(log, stores, ListStores(job, r, g, Strided(token + grid, grid, num), peers));
      log := log + stores;
      token := token + grid;
    }
  }

  lemma ListStep<T>(job: Job<T>, r: nat, g: nat, token: nat, grid: nat, num: nat, peers: bool)
    requires Here(job, r, g)
    requires grid > 0 && token < num == |job.x[g]|
    requires Below(Strided(token, grid, num), num) && Below(Strided(token + grid, grid, num), num)
    ensures ListStores(job, r, g, Strided(token, grid, num), peers)
            == TokenStores(job, r, g, token, peers, job.topk) + ListStores(job, r, g, Strided(token + grid, grid, num), peers)
  {
    hide Job.Valid, TokenStores;
    assert Strided(token, grid, num)[1..] == Strided(token + grid, grid, num);
  }

  lemma {:induction false} InToken<T>(job: Job<T>, r: nat, g: nat, t: nat, peers: bool, n: nat, s: Store<T>) returns (e: nat)
    requires Here(job, r, g)
    requires t < |job.x[g]| && n <= job.topk && s in TokenStores(job, r, g, t, peers, n)
    ensures e < n && job.Pair(g, Mul(t, job.topk) + e) && s == Pick(StoreOf(job, r, g, Mul(t, job.topk) + e), peers)
    decreases n
  {
    hide Job.Valid, Job.Pair, StoreOf, Pick;
    PairOf(job, r, g, t, n - 1);
    if s == Pick(StoreOf(job, r, g, Mul(t, job.topk) + (n - 1)), peers) {
      e := n - 1;
    } else {
      e := InToken(job, r, g, t, peers, n - 1, s);
    }
  }

  lemma {:induction false} TokenHas<T>(job: Job<T>, r: nat, g: nat, t: nat, peers: bool, n: nat, e: nat)
    requires Here(job, r, g)
    requires t < |job.x[g]| && e < n <= job.topk
    ensures job.Pair(g, Mul(t, job.topk) + e)
    ensures Pick(StoreOf(job, r, g, Mul(t, job.topk) + e), peers) in TokenStores(job, r, g, t, peers, n)
    decreases n
  {
    hide Job.Valid, Job.Pair, StoreOf, Pick;
    PairOf(job, r, g, t, e);
    PairOf(job, r, g, t, n - 1);
    if e < n - 1 {
      TokenHas(job, r, g, t, peers, n - 1, e);
    }
  }

  lemma {:induction false} InList<T>(job: Job<T>, r: nat, g: nat, tokens: seq<nat>, peers: bool, s: Store<T>) returns (t: nat, e: nat)
    requires Here(job, r, g)
    requires Below(tokens, |job.x[g]|) && s in ListStores(job, r, g, tokens, peers)
    ensures t < |job.x[g]| && e < job.topk && job.Pair(g, Mul(t, job.topk) + e)
    ensures s == Pick(StoreOf(job, r, g, Mul(t, job.topk) + e), peers)
    decreases |tokens|
  {
    hide Job.Valid, Job.Pair, StoreOf, Pick, TokenStores;
    if s in TokenStores(job, r, g, tokens[0], peers, job.topk) {
      t := tokens[0];
      e := InToken(job, r, g, t, peers, job.topk, s);
    } else {
      t, e := InList(job, r, g, tokens[1..], peers, s);
    }
  }

  lemma {:induction false} ListHas<T>(job: Job<T>, r: nat, g: nat, tokens: seq<nat>, peers: bool, t: nat, e: nat)
    requires Here(job, r, g)
    requires Below(tokens, |job.x[g]|) && t in tokens && t < |job.x[g]| && e < job.topk
    ensures job.Pair(g, Mul(t, job.topk) + e)
    ensures Pick(StoreOf(job, r, g, Mul(t, job.topk) + e), peers) in ListStores(job, r, g, tokens, peers)
    decreases |tokens|
  {
    hide Job.Valid, Job.Pair, StoreOf, Pick, TokenStores;
    if t == tokens[0] {
      TokenHas(job, r, g, t, peers, job.topk, e);
    } else {
      assert t in tokens[1..];
      ListHas(job, r, g, tokens[1..], peers, t, e);
    }
  }

  /** Some block of the grid makes store `s` in the given walk. */
  ghost predicate GridStores<T>(job: Job<T>, r: nat, g: nat, grid: nat, peers: bool, s: Store<T>)
    requires Here(job, r, g) && grid > 0
  {
    exists b: nat :: b < grid && BlockStores(job, r, g, b, grid, peers, s)
  }

  ghost predicate BlockStores<T>(job: Job<T>, r: nat, g: nat, b: nat, grid: nat, peers: bool, s: Store<T>)
    requires Here(job, r, g) && grid > 0
  {
    StridedBelow(b, grid, |job.x[g]|, |job.x[g]|);
    s in ListStores(job, r, g, Strided(b, grid, |job.x[g]|), peers)
  }

  lemma GridHas<T>(job: Job<T>, r: nat, g: nat, grid: nat, peers: bool, i: nat)
    requires Here(job, r, g) && grid > 0
    requires job.Pair(g, i)
    ensures GridStores(job, r, g, grid, peers, Pick(StoreOf(job, r, g, i), peers))
  {
    hide Job.Valid, StoreOf, Pick;
    var num := |job.x[g]|;
    assert job.GroupValid(g);
    QuotBound(i, num, job.topk);
    QuotRemParts(i, job.topk);
    var t, e := Quot(i, job.topk), Rem(i, job.topk);
    var b := Rem(t, grid);
    BlockOf(grid, num, t, b);
    StridedBelow(b, grid, num, num);
    ListHas(job, r, g, Strided(b, grid, num), peers, t, e);
    assert BlockStores(job, r, g, b, grid, peers, Pick(StoreOf(job, r, g, i), peers));
  }

  lemma GridOnly<T>(job: Job<T>, r: nat, g: nat, grid: nat, peers: bool, s: Store<T>) returns (i: nat)
    requires Here(job, r, g) && grid > 0
    requires GridStores(job, r, g, grid, peers, s)
    ensures job.Pair(g, i) && s == Pick(StoreOf(job, r, g, i), peers)
  {
    hide Job.Valid, Job.Pair, StoreOf, Pick;
    var b: nat :| b < grid && BlockStores(job, r, g, b, grid, peers, s);
    StridedBelow(b, grid, |job.x[g]|, |job.x[g]|);
    var t, e := InList(job, r, g, Strided(b, grid, |job.x[g]|), peers, s);
    i := Mul(t, job.topk) + e;
  }

  /** The first walk fills the send buffer as the delivery proofs say, for every grid size. */
  lemma SendBufferExact<T>(job: Job<T>, r: nat, g: nat, grid: nat, slot: nat, v: T)
    requires Here(job, r, g) && grid > 0
    ensures GridStores(job, r, g, grid, false, ToSend(slot, v)) <==> job.SendHolds(r, slot, v)
  {
    hide Job.Valid, GridStores, Job.Direct;
    if GridStores(job, r, g, grid, false, ToSend(slot, v)) {
      var i := GridOnly(job, r, g, grid, false, ToSend(slot, v));
      PositionRange(job, g, i);
      var q := job.Target(g, i);
      assert job.IndexOn(g, i, q, job.Position(g, i) - job.p.Start(g, q));
    }
    if job.SendHolds(r, slot, v) {
      var i: nat, q: nat, index: nat :| job.IndexOn(g, i, q, index) && !job.Direct(r, q, index)
        && slot == job.p.Start(g, q) + index && v == job.Payload(g, i);
      GridHas(job, r, g, grid, false, i);
    }
  }

  /** The second walk makes exactly the direct writes to peers on the node. */
  lemma DirectWritesExact<T>(job: Job<T>, r: nat, g: nat, grid: nat, q: nat, slot: nat, v: T)
    requires Here(job, r, g) && grid > 0
    ensures GridStores(job, r, g, grid, true, ToPeer(q, slot, v)) <==> job.DirectWrite(r, q, slot, v)
  {
    hide Job.Valid, GridStores, Job.Direct;
    if GridStores(job, r, g, grid, true, ToPeer(q, slot, v)) {
      var i := GridOnly(job, r, g, grid, true, ToPeer(q, slot, v));
      PositionRange(job, g, i);
      assert job.IndexOn(g, i, q, job.Position(g, i) - job.p.Start(g, q));
    }
    if job.DirectWrite(r, q, slot, v) {
      var i: nat, index: nat :| job.IndexOn(g, i, q, index) && job.Direct(r, q, index)
        && (job.fixedDim || job.p.c.DpRank(q) == job.p.c.DpRank(r))
        && slot == Mul(g, job.p.c.maxPrivate) + index && v == job.Payload(g, i);
      GridHas(job, r, g, grid, true, i);
    }
  }
}
