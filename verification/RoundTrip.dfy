/** The combine half of a step, and the end-to-end result: the slot a rank reads back for a
    (token, route) pair holds the output of the chosen expert on exactly that token. */
module RoundTrip {
  import opened Arith
  import opened Sums
  import opened Topology
  import opened Placement
  import opened Dispatch

  /** Rank `q` has an output row for the `j`-th token of expert `e` from the `k`-th group it visits. */
  ghost predicate Row(p: Plan, q: nat, k: nat, e: nat, j: nat) {
    && p.Valid() && q < p.c.worldSize && k < p.c.groups
    && IsPermutation(Order(p.c, q))
    && p.c.Lo(q) <= e < p.c.Lo(q + 1) <= p.c.numExperts
    && j < p.routed[Order(p.c, q)[k]][e]
  }

  ghost function RowGroup(p: Plan, q: nat, k: nat): (g: nat)
    requires p.Valid() && q < p.c.worldSize && k < p.c.groups && IsPermutation(Order(p.c, q))
    ensures g < p.c.groups
  {
    Order(p.c, q)[k]
  }

  /** Index of the row among those from its group. */
  ghost function RowIndex(p: Plan, q: nat, k: nat, e: nat, j: nat): (index: nat)
    requires Row(p, q, k, e, j)
    ensures p.Start(RowGroup(p, q, k), q) + index == Prefix(p.routed[RowGroup(p, q, k)], e) + j
    ensures index < p.Count(RowGroup(p, q, k), q)
  {
    var s := p.routed[RowGroup(p, q, k)];
    PrefixMonotone(s, p.c.Lo(q), e);
    PrefixMonotone(s, e + 1, p.c.Lo(q + 1));
    Prefix(s, e) + j - p.Start(RowGroup(p, q, k), q)
  }

  /** Output slot of the row. */
  ghost function RowSlot(p: Plan, q: nat, k: nat, e: nat, j: nat): nat
    requires Row(p, q, k, e, j)
  {
    p.PaddedIndex(p.c.Lo(q), p.c.Lo(q + 1), Order(p.c, q), k, e, j)
  }

  // From here on `mem` is what the buffers hold after dispatch, such as a job's `Memory`.

  /** The receive kernel copies `v` into output slot `slot`. */
  ghost predicate Received<T>(p: Plan, mem: (Loc, T) -> bool, q: nat, slot: nat, v: T) {
    exists k: nat, e: nat, j: nat :: RowReads(p, mem, q, k, e, j, v) && RowSlot(p, q, k, e, j) == slot
  }

  ghost predicate RowReads<T>(p: Plan, mem: (Loc, T) -> bool, q: nat, k: nat, e: nat, j: nat, v: T) {
    Row(p, q, k, e, j) && mem(Fetch(p, q, RowGroup(p, q, k), RowIndex(p, q, k, e, j)), v)
  }

  /** `slot` is one of the slots that hold tokens of local expert `e`. */
  ghost predicate InBlock(p: Plan, q: nat, e: nat, slot: nat) {
    && p.Valid() && q < p.c.worldSize && p.c.Lo(q) <= e < p.c.Lo(q + 1) <= p.c.numExperts
    && var base := Prefix(p.PaddedSizes(p.c.Lo(q), p.c.Lo(q + 1)), e - p.c.Lo(q));
    base <= slot < base + p.ExpertTotal(e)
  }

  /** Applying the expert that owns the slot to what was received there gives `y`. */
  ghost predicate Computed<T(!new), V>(p: Plan, mem: (Loc, T) -> bool, f: (nat, T) -> V, q: nat, slot: nat, y: V) {
    exists e: nat, v: T :: InBlock(p, q, e, slot) && Received(p, mem, q, slot, v) && y == f(e, v)
  }

  lemma BlockBounds(p: Plan, q: nat, e: nat, slot: nat, l: nat)
    requires InBlock(p, q, e, slot) && e == p.c.Lo(q) + l
    ensures var sizes := p.PaddedSizes(p.c.Lo(q), p.c.Lo(q + 1));
            l < |sizes| && Prefix(sizes, l) <= slot < Prefix(sizes, l + 1)
  {
    RoundUpBounds(p.ExpertTotal(e), p.c.padding);
  }

  /** The blocks of different experts are disjoint. */
  lemma BlockUnique(p: Plan, q: nat, e: nat, e': nat, slot: nat)
    requires InBlock(p, q, e, slot) && InBlock(p, q, e', slot)
    ensures e == e'
  {
    var l: nat, l': nat := e - p.c.Lo(q), e' - p.c.Lo(q);
    BlockBounds(p, q, e, slot, l);
    BlockBounds(p, q, e', slot, l');
    LocateUnique(p.PaddedSizes(p.c.Lo(q), p.c.Lo(q + 1)), l, l', slot);
  }

  lemma RowInBlock(p: Plan, q: nat, k: nat, e: nat, j: nat)
    requires Row(p, q, k, e, j)
    ensures InBlock(p, q, e, RowSlot(p, q, k, e, j))
  {
    PaddedBlock(p, p.c.Lo(q), p.c.Lo(q + 1), Order(p.c, q), k, e, j);
  }

  /** The row of `q` that carries a given pair. */
  lemma RowOfPair<T>(job: Job<T>, g: nat, i: nat) returns (q: nat, k: nat)
    requires job.Pair(g, i)
    ensures q == job.Target(g, i) && Row(job.p, q, k, job.experts[g][i], job.offsets[g][i])
    ensures RowGroup(job.p, q, k) == g
    ensures job.IndexOn(g, i, q, RowIndex(job.p, q, k, job.experts[g][i], job.offsets[g][i]))
  {
    q := job.Target(g, i);
    OwnerRange(job.p.c, job.experts[g][i]);
    LoFacts(job.p.c, q);
    OrderIsPermutation(job.p.c, q);
    k := OrderIndex(job.p.c, q, g);
    OrderAtIndex(job.p.c, q, g);
  }

  lemma DispatchMemory<T>(job: Job<T>, q: nat, g: nat, i: nat, index: nat, v: T)
    requires job.IndexOn(g, i, q, index) && q < job.p.c.worldSize
    ensures job.Memory()(Fetch(job.p, q, g, index), v) <==> v == job.Payload(g, i)
  {
    hide Fetch, Job.Payload, Job.Holds;
    DispatchDelivers(job, q, g, i, index, v);
  }

  /** The experts compute, in the row of a pair, the output of its expert on its payload. */
  lemma RowComputes<T(!new), V>(job: Job<T>, f: (nat, T) -> V, g: nat, i: nat, q: nat, k: nat, y: V)
    requires job.Pair(g, i)
    requires Row(job.p, q, k, job.experts[g][i], job.offsets[g][i]) && RowGroup(job.p, q, k) == g
    requires job.IndexOn(g, i, q, RowIndex(job.p, q, k, job.experts[g][i], job.offsets[g][i]))
    ensures Computed(job.p, job.Memory(), f, q, RowSlot(job.p, q, k, job.experts[g][i], job.offsets[g][i]), y)
            <==> y == f(job.experts[g][i], job.Payload(g, i))
  {
    var p, e, j := job.p, job.experts[g][i], job.offsets[g][i];
    var slot, index := RowSlot(p, q, k, e, j), RowIndex(p, q, k, e, j);
    RowInBlock(p, q, k, e, j);
    DispatchMemory(job, q, g, i, index, job.Payload(g, i));
    assert RowReads(job.p, job.Memory(), q, k, e, j, job.Payload(g, i));
    assert Received(job.p, job.Memory(), q, slot, job.Payload(g, i));
    if Computed(job.p, job.Memory(), f, q, slot, y) {
      var e', v :| InBlock(p, q, e', slot) && Received(job.p, job.Memory(), q, slot, v) && y == f(e', v);
      BlockUnique(p, q, e, e', slot);
      var k': nat, e'': nat, j': nat :| RowReads(job.p, job.Memory(), q, k', e'', j', v) && RowSlot(p, q, k', e'', j') == slot;
      PaddedInjective(p, p.c.Lo(q), p.c.Lo(q + 1), Order(p.c, q), k, e, j, k', e'', j');
      DispatchMemory(job, q, g, i, index, v);
    }
  }

  /** The combine kernel writes the output of a row for a group of its own node into the
      receive buffers of all ranks of that group (see `NodePeersAreGroup`). */
  ghost predicate NodeCombine<T(!new), V>(p: Plan, mem: (Loc, T) -> bool, f: (nat, T) -> V, q: nat, r: nat, slot: nat, y: V)
    requires p.Valid()
  {
    exists k: nat, e: nat, j: nat :: RowSends(p, mem, f, q, k, e, j, false, slot, y) && p.c.GroupOf(r) == RowGroup(p, q, k)
  }

  /** The output of a row for a group of another node goes to `slot` of the send buffer. */
  ghost predicate StagedCombine<T(!new), V>(p: Plan, mem: (Loc, T) -> bool, f: (nat, T) -> V, q: nat, slot: nat, y: V) {
    exists k: nat, e: nat, j: nat :: RowSends(p, mem, f, q, k, e, j, true, slot, y)
  }

  ghost predicate RowSends<T(!new), V>(p: Plan, mem: (Loc, T) -> bool, f: (nat, T) -> V, q: nat, k: nat, e: nat, j: nat,
                                       remote: bool, slot: nat, y: V)
  {
    && Row(p, q, k, e, j)
    && p.c.nodeSize > 0
    && remote == (p.c.GroupNode(RowGroup(p, q, k)) != p.c.NodeOf(q))
    && slot == p.CombineOffset(q, RowGroup(p, q, k), RowIndex(p, q, k, e, j))
    && Computed(p, mem, f, q, RowSlot(p, q, k, e, j), y)
  }

  /** The combine scatter copies the stretch of `q`'s send buffer for the group of `r` into
      `r`'s receive buffer, at that group's own positions. */
  ghost predicate CombineCopy(p: Plan, q: nat, r: nat, src: nat, dst: nat)
    requires p.Valid() && q < p.c.worldSize && r < p.c.worldSize
  {
    RankParts(p.c, r);
    var g := p.c.GroupOf(r);
    && p.c.NodeOf(q) != p.c.NodeOf(r)
    && p.Arrival(q, g) <= src < p.Arrival(q, g) + p.Count(g, q)
    && dst == p.Start(g, q) + (src - p.Arrival(q, g))
  }

  /** Any write into `slot` of `r`'s receive buffer during combine. */
  ghost predicate CombineHolds<T(!new), V>(p: Plan, mem: (Loc, T) -> bool, f: (nat, T) -> V, r: nat, slot: nat, y: V)
    requires p.Valid() && r < p.c.worldSize
  {
    exists q: nat :: q < p.c.worldSize && CombineWrites(p, mem, f, q, r, slot, y)
  }

  ghost predicate CombineWrites<T(!new), V>(p: Plan, mem: (Loc, T) -> bool, f: (nat, T) -> V, q: nat, r: nat, slot: nat, y: V)
    requires p.Valid() && r < p.c.worldSize && q < p.c.worldSize
  {
    || NodeCombine(p, mem, f, q, r, slot, y)
    || exists src: nat :: CombineCopy(p, q, r, src, slot) && StagedCombine(p, mem, f, q, src, y)
  }

  /** An expert is owned by one rank only. */
  lemma OwnerUnique(c: Shape, e: nat, q: nat)
    requires c.Valid() && e < c.numExperts && c.Lo(q) <= e < c.Lo(q + 1)
    ensures q == c.OwnerOf(e)
  {
    var o := c.OwnerOf(e);
    OwnerRange(c, e);
    if o < q {
      LoMonotone(c, o + 1, q);
    } else if q < o {
      LoMonotone(c, q + 1, o);
    }
  }

  /** A row whose token sits at a pair's position in the group's send order is the row of
      that pair. */
  lemma RowAtPosition<T>(job: Job<T>, g: nat, i: nat, q: nat, k: nat, e: nat, j: nat)
    requires job.Pair(g, i) && Row(job.p, q, k, e, j) && RowGroup(job.p, q, k) == g
    requires Prefix(job.p.routed[g], e) + j == job.Position(g, i)
    ensures e == job.experts[g][i] && j == job.offsets[g][i] && q == job.Target(g, i)
  {
    LocateUnique(job.p.routed[g], e, job.experts[g][i], job.Position(g, i));
    OwnerUnique(job.p.c, e, q);
  }

  lemma PairSizes<T>(job: Job<T>, g: nat, i: nat)
    requires job.Pair(g, i)
    ensures g < |job.experts| && i < |job.experts[g]| && g < |job.offsets| && i < |job.offsets[g]| && job.p.Valid()
  {
  }

  /** A row that sends to a pair's combine slot sends the output for that pair. */
  lemma RowSendsOnly<T(!new), V>(job: Job<T>, f: (nat, T) -> V, g: nat, i: nat, q: nat, k: nat, e: nat, j: nat, y: V)
    requires job.Pair(g, i) && Row(job.p, q, k, e, j) && RowGroup(job.p, q, k) == g
    requires job.p.Start(g, q) + RowIndex(job.p, q, k, e, j) == job.Position(g, i)
    ensures Computed(job.p, job.Memory(), f, q, RowSlot(job.p, q, k, e, j), y) <==> y == f(job.experts[g][i], job.Payload(g, i))
  {
    RowAtPosition(job, g, i, q, k, e, j);
    RowComputes(job, f, g, i, q, k, y);
  }

  /** The stretches of the send buffer for different groups are disjoint. */
  lemma StretchUnique(p: Plan, q: nat, g: nat, src: nat, g': nat, index: nat)
    requires p.Valid() && g < p.c.groups && g' < p.c.groups
    requires p.Arrival(q, g) <= src < p.Arrival(q, g) + p.Count(g, q)
    requires src == p.Arrival(q, g') + index && index < p.Count(g', q)
    ensures g == g'
  {
    LocateUnique(p.Counts(q), g, g', src);
  }

  /** Whatever `q` writes to a pair's slot, directly or through its send buffer, is the output
      for that pair. */
  lemma WritesOnly<T(!new), V>(job: Job<T>, f: (nat, T) -> V, r: nat, g: nat, i: nat, q: nat, y: V)
    requires r < job.p.c.worldSize && q < job.p.c.worldSize && job.Pair(g, i) && g == job.p.c.GroupOf(r)
    ensures CombineWrites(job.p, job.Memory(), f, q, r, job.Position(g, i), y) ==> y == f(job.experts[g][i], job.Payload(g, i))
  {
    hide Job.Valid, Computed, Job.Payload, Plan.Count, Plan.Arrival, Plan.Start, RowSlot, Job.Memory;
    PairSizes(job, g, i);
    var p, slot := job.p, job.Position(g, i);
    if NodeCombine(job.p, job.Memory(), f, q, r, slot, y) {
      var k: nat, e: nat, j: nat :| RowSends(job.p, job.Memory(), f, q, k, e, j, false, slot, y) && p.c.GroupOf(r) == RowGroup(p, q, k);
      RowSendsOnly(job, f, g, i, q, k, e, j, y);
    } else if CombineWrites(job.p, job.Memory(), f, q, r, slot, y) {
      var src: nat :| CombineCopy(p, q, r, src, slot) && StagedCombine(job.p, job.Memory(), f, q, src, y);
      var k: nat, e: nat, j: nat :| RowSends(job.p, job.Memory(), f, q, k, e, j, true, src, y);
      StretchUnique(p, q, g, src, RowGroup(p, q, k), RowIndex(p, q, k, e, j));
      RowSendsOnly(job, f, g, i, q, k, e, j, y);
    }
  }

  /** What a row reads comes out, as the expert's output, at the row's place in the send order of
      its group, on every rank of the group. */
  lemma RowReaches<T(!new), V>(p: Plan, mem: (Loc, T) -> bool, f: (nat, T) -> V, r: nat, q: nat, k: nat, e: nat, j: nat, v: T)
    requires p.Valid() && r < p.c.worldSize && q < p.c.worldSize && RowReads(p, mem, q, k, e, j, v)
    requires p.c.GroupOf(r) == RowGroup(p, q, k)
    ensures CombineWrites(p, mem, f, q, r, Prefix(p.routed[RowGroup(p, q, k)], e) + j, f(e, v))
  {
    hide Plan.Count, RowSlot, Prefix, Fetch, Computed, Plan.Start, Plan.Arrival, Shape.GroupNode, Shape.NodeOf,
         RowIndex, Order, IsPermutation;
    var g, y, index := RowGroup(p, q, k), f(e, v), RowIndex(p, q, k, e, j);
    RowComputed(p, mem, f, q, k, e, j, v);
    RankParts(p.c, r);
    if p.c.GroupNode(g) == p.c.NodeOf(q) {
      assert RowSends(p, mem, f, q, k, e, j, false, p.Start(g, q) + index, y);
    } else {
      assert RowSends(p, mem, f, q, k, e, j, true, p.Arrival(q, g) + index, y);
      assert CombineCopy(p, q, r, p.Arrival(q, g) + index, p.Start(g, q) + index);
    }
  }

  lemma RowComputed<T(!new), V>(p: Plan, mem: (Loc, T) -> bool, f: (nat, T) -> V, q: nat, k: nat, e: nat, j: nat, v: T)
    requires RowReads(p, mem, q, k, e, j, v)
    ensures Computed(p, mem, f, q, RowSlot(p, q, k, e, j), f(e, v))
  {
    hide RowSlot, Fetch, InBlock;
    RowInBlock(p, q, k, e, j);
    assert Received(p, mem, q, RowSlot(p, q, k, e, j), v);
  }

  /** And the rank that owns the pair's expert does write it. */
  lemma WritesReach<T(!new), V>(job: Job<T>, f: (nat, T) -> V, r: nat, g: nat, i: nat) returns (q: nat)
    requires r < job.p.c.worldSize && job.Pair(g, i) && g == job.p.c.GroupOf(r)
    ensures q < job.p.c.worldSize
    ensures CombineWrites(job.p, job.Memory(), f, q, r, job.Position(g, i), f(job.experts[g][i], job.Payload(g, i)))
  {
    hide Job.Valid, Computed, Job.Payload, Plan.Count, RowSlot, CombineWrites, Job.Memory;
    PairSizes(job, g, i);
    var k;
    q, k := RowOfPair(job, g, i);
    var e, j := job.experts[g][i], job.offsets[g][i];
    DispatchMemory(job, q, g, i, RowIndex(job.p, q, k, e, j), job.Payload(g, i));
    RowReaches(job.p, job.Memory(), f, r, q, k, e, j, job.Payload(g, i));
  }

  /** End to end: for every world and node shape, routing table, private-buffer size and
      expert function, the slot that rank `r` reads back for pair `i` of its group holds the
      output of the pair's expert on the pair's own token, and nothing else. */
  lemma RoundTripExact<T(!new), V>(job: Job<T>, f: (nat, T) -> V, r: nat, i: nat, y: V)
    requires job.Valid() && r < job.p.c.worldSize && job.Pair(job.p.c.GroupOf(r), i)
    ensures CombineHolds(job.p, job.Memory(), f, r, job.Position(job.p.c.GroupOf(r), i), y)
            <==> y == f(job.experts[job.p.c.GroupOf(r)][i], job.Payload(job.p.c.GroupOf(r), i))
  {
    hide Job.GroupValid, Job.Pair, CombineWrites, Job.Payload, Job.Position, Quot;
    var g := job.p.c.GroupOf(r);
    PairSizes(job, g, i);
    if CombineHolds(job.p, job.Memory(), f, r, job.Position(g, i), y) {
      var q: nat :| q < job.p.c.worldSize && CombineWrites(job.p, job.Memory(), f, q, r, job.Position(g, i), y);
      WritesOnly(job, f, r, g, i, q, y);
    }
    if y == f(job.experts[g][i], job.Payload(g, i)) {
      var q := WritesReach(job, f, r, g, i);
    }
  }

  /** The `d`-th pointer the combine kernel follows for a row of its own node: it walks over
      the data-parallel group of the row's source rank, modulo the node size. */
  function PeerAt(c: Shape, q: nat, sourceRank: nat, d: nat): nat
    requires c.nodeSize > 0 && c.dpSize > 0
  {
    Mul(c.NodeOf(q), c.nodeSize) + Rem(Mul(Quot(sourceRank, c.dpSize), c.dpSize) + d, c.nodeSize)
  }

  lemma PeerAtIs(c: Shape, q: nat, g: nat, d: nat)
    requires c.Valid() && q < c.worldSize && g < c.groups && d < c.dpSize
    requires c.nodeSize > 0 && c.GroupNode(g) == c.NodeOf(q)
    ensures PeerAt(c, q, Mul(g, c.dpSize) + c.DpRank(q), d) == Mul(g, c.dpSize) + d
  {
    hide Mul, Quot, Rem;
    var source, rank := Mul(g, c.dpSize) + c.DpRank(q), Mul(g, c.dpSize) + d;
    assert Quot(source, c.dpSize) == g by { QuotRem(g, c.DpRank(q), c.dpSize); }
    assert c.NodeOf(rank) == c.NodeOf(q) by { GroupMember(c, g, d); }
    QuotRemParts(rank, c.nodeSize);
  }

  /** Those pointers lead to exactly the ranks of the row's group. */
  lemma NodePeersAreGroup(p: Plan, q: nat, g: nat, r: nat)
    requires p.Valid() && q < p.c.worldSize && g < p.c.groups && r < p.c.worldSize
    requires p.c.nodeSize > 0 && p.c.GroupNode(g) == p.c.NodeOf(q)
    ensures (exists d: nat :: d < p.c.dpSize && PeerAt(p.c, q, p.SourceRank(q, g), d) == r) <==> p.c.GroupOf(r) == g
  {
    var c, source := p.c, p.SourceRank(q, g);
    RankParts(c, r);
    if c.GroupOf(r) == g {
      PeerAtIs(c, q, g, c.DpRank(r));
    }
    forall d: nat | d < c.dpSize && PeerAt(c, q, source, d) == r ensures c.GroupOf(r) == g {
      PeerAtIs(c, q, g, d);
      GroupMember(c, g, d);
    }
  }
}
