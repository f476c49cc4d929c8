/** The buffers are sized from a bound on tokens per rank before anything is routed. When no
    token names an expert twice, every slot the protocol uses lies inside them. */
module Capacity {
  import opened Arith
  import opened Sums
  import opened Topology
  import opened Placement
  import opened Dispatch
  import opened Scan

  /** Slots allocated in each send and receive buffer. */
  function MaxRecvTokens(c: Shape, maxTokens: nat, topk: nat): nat
    requires c.padding > 0
  {
    var tokens := Mul(maxTokens, c.groups);
    Mul(c.maxPrivate, c.groups)
    + RoundUp(Max(Min(Mul(tokens, topk) + Mul(c.expertsPerRank, c.padding - 1), Mul(tokens, c.expertsPerRank)),
                  Mul(c.expertsPerRank, c.padding)),
              c.padding)
  }

  /** The `a`-th expert of token `t`. */
  function ExpertAt(experts: seq<nat>, topk: nat, t: nat, a: nat): nat
    requires Mul(t, topk) + a < |experts|
  {
    experts[Mul(t, topk) + a]
  }

  /** No token names an expert twice. */
  ghost predicate DistinctExperts(experts: seq<nat>, topk: nat) {
    forall t: nat, a: nat, b: nat :: a < b < topk && Mul(t, topk) + b < |experts| ==>
      ExpertAt(experts, topk, t, a) != ExpertAt(experts, topk, t, b)
  }

  /** One for every pair of expert `e`, in batch order. */
  function Marks(experts: seq<nat>, e: nat): (s: seq<nat>)
    ensures |s| == |experts| && forall i :: 0 <= i < |s| ==> s[i] == if experts[i] == e then 1 else 0
  {
    seq<nat>(|experts|, i requires 0 <= i < |experts| => if experts[i] == e then 1 else 0)
  }

  lemma {:induction false} TallyIsMarks(experts: seq<nat>, order: seq<nat>, k: nat, e: nat)
    requires k <= |order| == |experts| && IsPermutation(order)
    ensures Tally(experts, order, k, e) == Prefix(Gather(Marks(experts, e), order), k)
  {
    if k > 0 {
      TallyIsMarks(experts, order, k - 1, e);
    }
  }

  /** Within one token, at most one mark. */
  lemma {:induction false} MarksInToken(experts: seq<nat>, topk: nat, e: nat, t: nat, a: nat, at: nat)
    requires DistinctExperts(experts, topk) && a <= topk && at == Mul(t, topk) + a <= |experts|
    ensures Prefix(Marks(experts, e), at) <= Prefix(Marks(experts, e), Mul(t, topk)) + 1
    ensures (forall b: nat :: b < a ==> ExpertAt(experts, topk, t, b) != e) ==>
              Prefix(Marks(experts, e), at) == Prefix(Marks(experts, e), Mul(t, topk))
    decreases a
  {
    hide Mul;
    if a > 0 {
      MarksInToken(experts, topk, e, t, a - 1, at - 1);
      assert ExpertAt(experts, topk, t, a - 1) == experts[at - 1];
      if experts[at - 1] == e {
        forall b: nat | b < a - 1 ensures ExpertAt(experts, topk, t, b) != e {
          assert ExpertAt(experts, topk, t, b) != ExpertAt(experts, topk, t, a - 1);
        }
      }
    }
  }

  lemma {:induction false} MarksBelow(experts: seq<nat>, topk: nat, e: nat, t: nat)
    requires DistinctExperts(experts, topk) && Mul(t, topk) <= |experts|
    ensures Prefix(Marks(experts, e), Mul(t, topk)) <= t
  {
    if t > 0 {
      MarksBelow(experts, topk, e, t - 1);
      MarksInToken(experts, topk, e, t - 1, topk, Mul(t, topk));
    }
  }

  /** An expert gets at most one pair per token. */
  lemma CountBound(experts: seq<nat>, order: seq<nat>, offsets: seq<nat>, counts: seq<nat>, topk: nat, tokens: nat, e: nat)
    requires |experts| == |order| == Mul(tokens, topk) && IsPermutation(order) && Numbered(experts, order, offsets, counts, |order|)
    requires DistinctExperts(experts, topk) && e < |counts|
    ensures counts[e] <= tokens
  {
    hide DistinctExperts;
    TallyIsMarks(experts, order, |order|, e);
    PermutedSum(Marks(experts, e), order);
    MarksBelow(experts, topk, e, tokens);
  }

  /** At most `maxTokens` pairs per expert, and at most `maxTokens * topk` in all, per group. */
  predicate Modest(p: Plan, maxTokens: nat, topk: nat) {
    && p.Valid()
    && (forall g :: 0 <= g < p.c.groups ==> Sum(p.routed[g]) <= Mul(maxTokens, topk))
    && (forall g, e :: 0 <= g < p.c.groups && 0 <= e < p.c.numExperts ==> p.routed[g][e] <= maxTokens)
  }

  /** What the kernels count is modest whatever the order of their additions. */
  lemma CountsModest<T>(job: Job<T>, orders: seq<seq<nat>>, maxTokens: nat)
    requires job.Valid() && |orders| == job.p.c.groups
    requires forall g :: 0 <= g < |orders| ==> |orders[g]| == |job.experts[g]| && IsPermutation(orders[g])
    requires forall g :: 0 <= g < |orders| ==> Numbered(job.experts[g], orders[g], job.offsets[g], job.p.routed[g], |orders[g]|)
    requires forall g :: 0 <= g < |orders| ==> DistinctExperts(job.experts[g], job.topk) && |job.x[g]| <= maxTokens
    ensures Modest(job.p, maxTokens, job.topk)
  {
    hide Numbered, IsPermutation, DistinctExperts, Tally;
    forall g | 0 <= g < job.p.c.groups
      ensures Sum(job.p.routed[g]) <= Mul(maxTokens, job.topk)
      ensures forall e :: 0 <= e < job.p.c.numExperts ==> job.p.routed[g][e] <= maxTokens
    {
      assert job.GroupValid(g);
      NumberedTotal(job.experts[g], orders[g], job.offsets[g], job.p.routed[g]);
      MulMonotone(|job.x[g]|, maxTokens, job.topk);
      forall e | 0 <= e < job.p.c.numExperts ensures job.p.routed[g][e] <= maxTokens {
        CountBound(job.experts[g], orders[g], job.offsets[g], job.p.routed[g], job.topk, |job.x[g]|, e);
      }
    }
  }

  lemma {:induction false} RangeBound(row: seq<nat>, lo: nat, hi: nat, most: nat)
    requires lo <= hi <= |row| && forall e :: 0 <= e < |row| ==> row[e] <= most
    ensures Prefix(row, hi) <= Prefix(row, lo) + Mul(hi - lo, most)
    decreases hi
  {
    if lo < hi {
      RangeBound(row, lo, hi - 1, most);
    }
  }

  lemma CountAtMost(p: Plan, maxTokens: nat, topk: nat, g: nat, q: nat)
    requires Modest(p, maxTokens, topk) && g < p.c.groups && q < p.c.worldSize
    ensures p.Count(g, q) <= Mul(p.c.expertsPerRank, maxTokens)
    ensures p.Count(g, q) <= Mul(maxTokens, topk)
  {
    hide Mul, Prefix;
    LoFacts(p.c, q);
    RangeBound(p.routed[g], p.c.Lo(q), p.c.Lo(q + 1), maxTokens);
    MulMonotone(p.c.Lo(q + 1) - p.c.Lo(q), p.c.expertsPerRank, maxTokens);
    PrefixMonotone(p.routed[g], p.c.Lo(q + 1), p.c.numExperts);
  }

  lemma {:induction false} ArrivalAtMost(p: Plan, q: nat, n: nat, most: nat)
    requires p.Valid() && n <= p.c.groups && forall g :: 0 <= g < p.c.groups ==> p.Count(g, q) <= most
    ensures p.Arrival(q, n) <= Mul(n, most)
  {
    hide Plan.Count;
    if n > 0 {
      ArrivalAtMost(p, q, n - 1, most);
    }
  }

  /** A rank receives no more than the sizing formula allows. */
  lemma ReceivedAtMost(p: Plan, maxTokens: nat, topk: nat, q: nat)
    requires Modest(p, maxTokens, topk) && q < p.c.worldSize
    ensures p.Received(q) <= Mul(Mul(maxTokens, p.c.groups), p.c.expertsPerRank)
    ensures p.Received(q) <= Mul(Mul(maxTokens, p.c.groups), topk)
  {
    hide Plan.Count, Plan.Arrival, Mul;
    forall g | 0 <= g < p.c.groups
      ensures p.Count(g, q) <= Mul(p.c.expertsPerRank, maxTokens) && p.Count(g, q) <= Mul(maxTokens, topk)
    {
      CountAtMost(p, maxTokens, topk, g, q);
    }
    ArrivalAtMost(p, q, p.c.groups, Mul(p.c.expertsPerRank, maxTokens));
    ArrivalAtMost(p, q, p.c.groups, Mul(maxTokens, topk));
    Rearranged(p.c.groups, p.c.expertsPerRank, maxTokens);
    Rearranged(p.c.groups, topk, maxTokens);
    MulCommutes(maxTokens, topk);
  }

  lemma Rearranged(a: nat, b: nat, c: nat)
    ensures Mul(a, Mul(b, c)) == Mul(Mul(c, a), b)
  {
    MulCommutes(b, c);
    MulAssociative(a, c, b);
    MulCommutes(a, c);
  }

  /** The part of the buffers behind the private slots. */
  lemma SharedPart(c: Shape, maxTokens: nat, topk: nat, n: nat)
    requires c.padding > 0
    requires n <= Mul(Mul(maxTokens, c.groups), c.expertsPerRank) && n <= Mul(Mul(maxTokens, c.groups), topk)
    ensures Mul(c.groups, c.maxPrivate) + n <= MaxRecvTokens(c, maxTokens, topk)
  {
    hide Mul;
    var tokens := Mul(maxTokens, c.groups);
    RoundUpBounds(Max(Min(Mul(tokens, topk) + Mul(c.expertsPerRank, c.padding - 1), Mul(tokens, c.expertsPerRank)),
                      Mul(c.expertsPerRank, c.padding)), c.padding);
    MulCommutes(c.groups, c.maxPrivate);
  }

  /** Behind the private slots there is room for a padded block per local expert, and the room is a
      whole number of paddings, as little as that and the tokens that can come allow. */
  lemma SharedRoom(c: Shape, maxTokens: nat, topk: nat)
    requires c.padding > 0
    ensures var tokens, room := Mul(maxTokens, c.groups), MaxRecvTokens(c, maxTokens, topk) - Mul(c.maxPrivate, c.groups);
            && Mul(c.expertsPerRank, c.padding) <= room && Rem(room, c.padding) == 0
            && (Mul(tokens, c.expertsPerRank) <= room || Mul(tokens, topk) + Mul(c.expertsPerRank, c.padding - 1) <= room)
            && (room < Mul(c.expertsPerRank, c.padding) + c.padding
                || (room < Mul(tokens, c.expertsPerRank) + c.padding
                    && room < Mul(tokens, topk) + Mul(c.expertsPerRank, c.padding - 1) + c.padding))
  {
    hide Mul, Quot, Rem;
    var tokens := Mul(maxTokens, c.groups);
    RoundUpBounds(Max(Min(Mul(tokens, topk) + Mul(c.expertsPerRank, c.padding - 1), Mul(tokens, c.expertsPerRank)),
                      Mul(c.expertsPerRank, c.padding)), c.padding);
  }

  /** The vectors of the routing step fit: one row per token received. */
  lemma RowsFit(p: Plan, maxTokens: nat, topk: nat, q: nat)
    requires Modest(p, maxTokens, topk) && q < p.c.worldSize
    ensures p.c.padding > 0 && p.Received(q) <= MaxRecvTokens(p.c, maxTokens, topk)
  {
    hide MaxRecvTokens, Modest, Mul;
    ModestFacts(p, maxTokens, topk);
    ReceivedAtMost(p, maxTokens, topk, q);
    SharedPart(p.c, maxTokens, topk, p.Received(q));
  }

  /** Dispatch fits: private slots and overflow slots of the receive buffer. */
  lemma DispatchFits(p: Plan, maxTokens: nat, topk: nat, q: nat, g: nat, index: nat)
    requires Modest(p, maxTokens, topk) && q < p.c.worldSize && g < p.c.groups && index < p.Count(g, q)
    ensures RecvSlotOf(p, q, g, index) < MaxRecvTokens(p.c, maxTokens, topk)
  {
    hide MaxRecvTokens, Modest, Mul;
    ModestFacts(p, maxTokens, topk);
    ReceivedAtMost(p, maxTokens, topk, q);
    SharedPart(p.c, maxTokens, topk, p.Received(q));
    if index < p.c.maxPrivate {
      PrivateSlot(p.c, g, index, g, index);
    } else {
      PrefixMonotone(p.Counts(q), g + 1, p.c.groups);
      MulUnfold(p.c.groups, p.c.maxPrivate);
    }
  }

  lemma ModestFacts(p: Plan, maxTokens: nat, topk: nat)
    requires Modest(p, maxTokens, topk)
    ensures p.Valid() && p.c.Valid() && p.c.padding > 0 && p.c.groups > 0
  {
    Sizes(p.c);
  }

  /** Combine fits: results staged for other nodes in the send buffer. */
  lemma StagedFits(p: Plan, maxTokens: nat, topk: nat, q: nat, g: nat, index: nat)
    requires Modest(p, maxTokens, topk) && q < p.c.worldSize && g < p.c.groups && index < p.Count(g, q)
    ensures p.Arrival(q, g) + index < MaxRecvTokens(p.c, maxTokens, topk)
  {
    hide MaxRecvTokens, Modest, Mul;
    ModestFacts(p, maxTokens, topk);
    ReceivedAtMost(p, maxTokens, topk, q);
    SharedPart(p.c, maxTokens, topk, p.Received(q));
    PrefixMonotone(p.Counts(q), g + 1, p.c.groups);
  }

  /** Positions fit: slots by send order, in the send buffer during dispatch and in the receive
      buffer during combine. Guaranteed for single-rank groups, and otherwise when the experts
      of one rank per group cover `topk`. */
  lemma PositionsFit<T>(job: Job<T>, maxTokens: nat, g: nat, i: nat)
    requires job.Pair(g, i) && Modest(job.p, maxTokens, job.topk)
    requires job.p.c.dpSize == 1 || job.topk <= Mul(job.p.c.groups, job.p.c.expertsPerRank)
    ensures job.p.c.padding > 0 && job.Position(g, i) < MaxRecvTokens(job.p.c, maxTokens, job.topk)
  {
    hide MaxRecvTokens, Mul;
    var c, total := job.p.c, Sum(job.p.routed[g]);
    Sizes(c);
    PositionRange(job, g, i);
    assert total <= Mul(Mul(maxTokens, c.groups), job.topk) by {
      MulMonotoneRight(maxTokens, c.groups);
      MulMonotone(maxTokens, Mul(maxTokens, c.groups), job.topk);
    }
    assert total <= Mul(Mul(maxTokens, c.groups), c.expertsPerRank) by {
      if c.dpSize == 1 {
        RangeBound(job.p.routed[g], 0, c.numExperts, maxTokens);
        PrefixZero(job.p.routed[g]);
        WorldIsGroups(c);
        MulMonotone(c.numExperts, Mul(c.groups, c.expertsPerRank), maxTokens);
        MulCommutes(Mul(c.groups, c.expertsPerRank), maxTokens);
      } else {
        MulCommutes(maxTokens, job.topk);
        MulMonotone(job.topk, Mul(c.groups, c.expertsPerRank), maxTokens);
        MulCommutes(Mul(c.groups, c.expertsPerRank), maxTokens);
      }
      MulAssociative(maxTokens, c.groups, c.expertsPerRank);
    }
    SharedPart(c, maxTokens, job.topk, total);
  }

  lemma MulMonotoneRight(a: nat, n: nat)
    requires n > 0
    ensures a <= Mul(a, n)
  {
    MulCommutes(a, n);
    MulMonotone(1, n, a);
    MulAgrees(1, a);
  }

  lemma WorldIsGroups(c: Shape)
    requires c.Valid() && c.dpSize == 1
    ensures c.worldSize == c.groups && c.numExperts <= Mul(c.groups, c.expertsPerRank)
  {
    Sizes(c);
    MulAgrees(c.groups, 1);
  }

  /** Every group sends its tokens to the first `topk` experts. */
  function Crowded(c: Shape, maxTokens: nat, topk: nat): Plan {
    Plan(c, seq(c.groups, _ => CrowdedRow(c, maxTokens, topk)))
  }

  function CrowdedRow(c: Shape, maxTokens: nat, topk: nat): (row: seq<nat>)
    ensures |row| == c.numExperts && forall e :: 0 <= e < |row| ==> row[e] == if e < topk then maxTokens else 0
  {
    seq<nat>(c.numExperts, e requires 0 <= e < c.numExperts => if e < topk then maxTokens else 0)
  }

  lemma {:induction false} CrowdedTotal(c: Shape, maxTokens: nat, topk: nat, n: nat)
    requires n <= c.numExperts
    ensures Prefix(CrowdedRow(c, maxTokens, topk), n) == Mul(Min(n, topk), maxTokens)
  {
    if n > 0 {
      CrowdedTotal(c, maxTokens, topk, n - 1);
    }
  }

  lemma CrowdedModest(c: Shape, maxTokens: nat, topk: nat)
    requires c.Valid() && topk <= c.numExperts
    ensures Modest(Crowded(c, maxTokens, topk), maxTokens, topk)
    ensures Sum(CrowdedRow(c, maxTokens, topk)) == Mul(maxTokens, topk)
  {
    hide Mul, Prefix;
    CrowdedTotal(c, maxTokens, topk, c.numExperts);
    MulCommutes(topk, maxTokens);
  }

  /** Buffers are allocated in pages; `dim` is the larger of the two token sizes, in bytes. */
  const PAGE: nat := 4096

  function BufferBytes(c: Shape, maxTokens: nat, topk: nat, dim: nat): nat
    requires c.padding > 0
  {
    RoundUp(Mul(MaxRecvTokens(c, maxTokens, topk), dim), PAGE)
  }

  /** A slot below the number of slots lies inside the allocated bytes, for tokens of either size. */
  lemma SlotInBuffer(c: Shape, maxTokens: nat, topk: nat, dim: nat, size: nat, slot: nat)
    requires c.padding > 0 && size <= dim && slot < MaxRecvTokens(c, maxTokens, topk)
    ensures Mul(slot, size) + size <= BufferBytes(c, maxTokens, topk, dim)
  {
    hide Mul, MaxRecvTokens, Quot;
    var n := MaxRecvTokens(c, maxTokens, topk);
    MulUnfold(slot + 1, size);
    MulMonotone(slot + 1, n, size);
    MulCommutes(n, size);
    MulMonotone(size, dim, n);
    MulCommutes(n, dim);
    RoundUpBounds(Mul(n, dim), PAGE);
  }

  /** Whatever is routed, the positions of a group's pairs (which are all numbers below their
      total), at `size` bytes each, lie inside the allocated bytes. */
  ghost predicate AlwaysFits(c: Shape, maxTokens: nat, topk: nat, dim: nat, size: nat)
    requires c.padding > 0
  {
    forall p: Plan, g: nat :: p.c == c && Modest(p, maxTokens, topk) && g < c.groups ==>
      Mul(Total(p, g), size) <= BufferBytes(c, maxTokens, topk, dim)
  }

  function Total(p: Plan, g: nat): nat
    requires p.Valid() && g < p.c.groups
  {
    Sum(p.routed[g])
  }

  /** That is so exactly when the bytes of one group's tokens, times the experts per token, fit. */
  lemma AlwaysFitsIff(c: Shape, maxTokens: nat, topk: nat, dim: nat, size: nat)
    requires c.Valid() && topk <= c.numExperts
    ensures AlwaysFits(c, maxTokens, topk, dim, size)
            <==> Mul(Mul(maxTokens, topk), size) <= BufferBytes(c, maxTokens, topk, dim)
  {
    hide Mul, BufferBytes, Prefix;
    Sizes(c);
    CrowdedModest(c, maxTokens, topk);
    var p := Crowded(c, maxTokens, topk);
    assert Total(p, 0) == Mul(maxTokens, topk);
    forall p: Plan, g: nat | p.c == c && Modest(p, maxTokens, topk) && g < c.groups
      ensures Mul(Total(p, g), size) <= Mul(Mul(maxTokens, topk), size)
    {
      MulMonotone(Total(p, g), Mul(maxTokens, topk), size);
    }
  }

  /** Without that condition they need not fit: two ranks in one group, one expert each, and every
      token routed to both. As soon as the tokens of a batch fill a page, the last pairs lie behind
      the end of the buffer. */
  lemma PositionsCanOverflow(maxTokens: nat, dim: nat)
    requires Mul(maxTokens, dim) >= 4096
    ensures PAIR.Valid() && Modest(Crowded(PAIR, maxTokens, 2), maxTokens, 2)
    ensures DistinctExperts(BothExperts(maxTokens), 2)
    ensures Mul(Total(Crowded(PAIR, maxTokens, 2), 0), dim) > BufferBytes(PAIR, maxTokens, 2, dim)
    ensures !AlwaysFits(PAIR, maxTokens, 2, dim, dim)
  {
    hide Mul, DistinctExperts, Quot, Prefix;
    MulZeroOnly(maxTokens, dim);
    PairShape(maxTokens);
    CrowdedModest(PAIR, maxTokens, 2);
    BothDistinct(maxTokens);
    RoundUpBounds(Mul(maxTokens, dim), PAGE);
    assert Mul(Mul(maxTokens, 2), dim) == Mul(maxTokens, dim) + Mul(maxTokens, dim) by {
      MulCommutes(maxTokens, 2);
      MulUnfold(2, maxTokens);
      MulUnfold(1, maxTokens);
      MulAdd(maxTokens, maxTokens, dim);
    }
    AlwaysFitsIff(PAIR, maxTokens, 2, dim, dim);
  }

  const PAIR := Shape(2, 2, 2, 1, 1, 1, 2, 1, 0, 1)

  lemma PairShape(maxTokens: nat)
    requires maxTokens > 0
    ensures PAIR.Valid() && MaxRecvTokens(PAIR, maxTokens, 2) == maxTokens
  {
    hide Mul, Quot;
    MulAgrees(1, 1);
    MulAgrees(1, 2);
    MulAgrees(2, 1);
    MulAgrees(1, 0);
    MulAgrees(0, 1);
    MulAgrees(maxTokens, 1);
    MulAgrees(maxTokens, 2);
    QuotRem(maxTokens, 0, 1);
  }

  /** Every token names expert 0 and expert 1. */
  function BothExperts(tokens: nat): (experts: seq<nat>)
    ensures |experts| == Mul(tokens, 2) && forall i :: 0 <= i < |experts| ==> experts[i] == Rem(i, 2)
  {
    seq<nat>(Mul(tokens, 2), i requires 0 <= i => Rem(i, 2))
  }

  lemma BothDistinct(tokens: nat)
    ensures DistinctExperts(BothExperts(tokens), 2)
  {
    hide Mul, Rem;
    forall t: nat, a: nat, b: nat | a < b < 2 && Mul(t, 2) + b < |BothExperts(tokens)|
      ensures ExpertAt(BothExperts(tokens), 2, t, a) != ExpertAt(BothExperts(tokens), 2, t, b)
    {
      QuotRem(t, a, 2);
      QuotRem(t, b, 2);
    }
  }
}
