/** Where tokens are placed. Every rank computes all of this on its own from the shared
    table of counts `routed[group][expert]`; nothing here is ever sent between ranks. */
module Placement {
  import opened Arith
  import opened Sums
  import opened Topology

  /** Bit 31 marks an offset into a peer's send buffer. */
  const TAG: nat := 0x8000_0000

  /** Whether bit 31 of a 32-bit value is set. */
  predicate HasTag(v: nat) {
    TAG <= v
  }

  /** `v | (1 << 31)` for a 32-bit value. */
  function SetTag(v: nat): nat {
    if HasTag(v) then v else v + TAG
  }

  /** `v & ~(1 << 31)` for a 32-bit value. */
  function ClearTag(v: nat): nat {
    if HasTag(v) then v - TAG else v
  }

  datatype Plan = Plan(c: Shape, routed: seq<seq<nat>>)
  {
    predicate Valid() {
      && c.Valid()
      && |routed| == c.groups
      && forall g :: 0 <= g < c.groups ==> |routed[g]| == c.numExperts
    }

    /** Position, among all tokens sent by group `g`, of the first token for `rank`. */
    function Start(g: nat, rank: nat): nat
      requires Valid() && g < c.groups
    {
      Prefix(routed[g], c.Lo(rank))
    }

    /** Number of tokens that group `g` sends to `rank`. */
    function Count(g: nat, rank: nat): nat
      requires Valid() && g < c.groups
    {
      LoMonotone(c, rank, rank + 1);
      PrefixMonotone(routed[g], c.Lo(rank), c.Lo(rank + 1));
      Start(g, rank + 1) - Start(g, rank)
    }

    function Counts(rank: nat): (s: seq<nat>)
      requires Valid()
      ensures |s| == c.groups && forall g :: 0 <= g < c.groups ==> s[g] == Count(g, rank)
    {
      seq(c.groups, g requires 0 <= g < c.groups => Count(g, rank))
    }

    /** Number of tokens that `rank` receives from groups before `g`. */
    function Arrival(rank: nat, g: nat): nat
      requires Valid() && g <= c.groups
    {
      Prefix(Counts(rank), g)
    }

    function Received(rank: nat): nat
      requires Valid()
    {
      Arrival(rank, c.groups)
    }

    /** Where `rank` reads the `index`-th token it gets from group `g`. */
    function SourceOffset(rank: nat, g: nat, index: nat): nat
      requires Valid() && rank < c.worldSize && g < c.groups
    {
      Sizes(c);
      if g == c.GroupOf(rank) then Start(g, rank) + index
      else if index < c.maxPrivate then Mul(g, c.maxPrivate) + index
      else if c.GroupNode(g) == c.NodeOf(rank) then SetTag(Start(g, rank) + index)
      else Arrival(rank, g) + index + Mul(c.groups - 1, c.maxPrivate)
    }

    /** Where `rank` puts the expert output for that token: straight into the peers' receive
        buffers on the same node, into its own send buffer for other nodes. */
    function CombineOffset(rank: nat, g: nat, index: nat): nat
      requires Valid() && rank < c.worldSize && g < c.groups
    {
      Sizes(c);
      if c.GroupNode(g) == c.NodeOf(rank) then Start(g, rank) + index else Arrival(rank, g) + index
    }

    /** The rank of group `g` that talks to `rank`. */
    function SourceRank(rank: nat, g: nat): nat
      requires c.dpSize > 0
    {
      Mul(g, c.dpSize) + c.DpRank(rank)
    }

    function Column(e: nat): (s: seq<nat>)
      requires Valid() && e < c.numExperts
      ensures |s| == c.groups && forall g :: 0 <= g < c.groups ==> s[g] == routed[g][e]
    {
      seq(c.groups, g requires 0 <= g < c.groups => routed[g][e])
    }

    /** Tokens for expert `e` over all groups. */
    function ExpertTotal(e: nat): nat
      requires Valid() && e < c.numExperts
    {
      Sum(Column(e))
    }

    /** Room taken by expert `e` in the output. */
    function PaddedSize(e: nat): nat
      requires Valid() && e < c.numExperts
    {
      RoundUp(ExpertTotal(e), c.padding)
    }

    /** Sizes of the blocks of experts `lo..hi`. */
    function PaddedSizes(lo: nat, hi: nat): (s: seq<nat>)
      requires Valid() && lo <= hi <= c.numExperts
      ensures |s| == hi - lo && forall l :: 0 <= l < |s| ==> s[l] == PaddedSize(lo + l)
    {
      seq<nat>(hi - lo, l requires 0 <= l < hi - lo => PaddedSize(lo + l))
    }

    /** Tokens for expert `e` from the groups `o[..k]`. */
    ghost function EarlierFor(o: seq<nat>, e: nat, k: nat): nat
      requires Valid() && e < c.numExperts
      requires |o| == c.groups && IsPermutation(o) && k <= |o|
    {
      Prefix(Gather(Column(e), o), k)
    }

    /** Output slot of the `j`-th token for expert `e` of the `k`-th group visited, on the
        rank with experts `lo..hi` when it visits groups in order `o`. */
    ghost function PaddedIndex(lo: nat, hi: nat, o: seq<nat>, k: nat, e: nat, j: nat): nat
      requires Valid() && lo <= e < hi <= c.numExperts
      requires |o| == c.groups && IsPermutation(o) && k < |o|
    {
      Prefix(PaddedSizes(lo, hi), e - lo) + EarlierFor(o, e, k) + j
    }
  }

  /** Blocks for `counts` tokens each that begin at `base`: the first at zero, all at multiples of the
      padding, one after the other with less than a padding's worth of room to spare. */
  predicate Aligned(base: seq<nat>, counts: seq<nat>, padding: nat)
    requires padding > 0
  {
    && |base| == |counts| && (|base| > 0 ==> base[0] == 0)
    && (forall l :: 0 <= l < |base| ==> Rem(base[l], padding) == 0)
    && (forall l :: 0 < l < |base| ==> base[l - 1] + counts[l - 1] <= base[l] < base[l - 1] + counts[l - 1] + padding)
  }

  /** There is only one way to do that. */
  lemma {:induction false} AlignedUnique(base: seq<nat>, base': seq<nat>, counts: seq<nat>, padding: nat, l: nat)
    requires padding > 0 && Aligned(base, counts, padding) && Aligned(base', counts, padding) && l < |base|
    ensures base[l] == base'[l]
  {
    hide Rem;
    if l > 0 {
      AlignedUnique(base, base', counts, padding, l - 1);
      QuotRemParts(base[l], padding);
      QuotRemParts(base'[l], padding);
      if base[l] < base'[l] {
        MulOrder(Quot(base'[l], padding), Quot(base[l], padding), padding);
        MulMonotone(Quot(base[l], padding) + 1, Quot(base'[l], padding), padding);
      } else if base'[l] < base[l] {
        MulOrder(Quot(base[l], padding), Quot(base'[l], padding), padding);
        MulMonotone(Quot(base'[l], padding) + 1, Quot(base[l], padding), padding);
      }
    }
  }

  /** The next block after one of `count` tokens that begins at a multiple of the padding. */
  lemma AlignedNext(base: nat, count: nat, padding: nat)
    requires padding > 0 && Rem(base, padding) == 0
    ensures Rem(base + RoundUp(count, padding), padding) == 0
    ensures base + count <= base + RoundUp(count, padding) < base + count + padding
  {
    hide Rem, Mul;
    RoundUpBounds(count, padding);
    RemShift(CeilQuot(count, padding), base, padding);
  }

  /** A token lands in the block of its expert, inside the part set aside for its group. */
  lemma PaddedBlock(p: Plan, lo: nat, hi: nat, o: seq<nat>, k: nat, e: nat, j: nat)
    requires p.Valid() && lo <= e < hi <= p.c.numExperts
    requires |o| == p.c.groups && IsPermutation(o) && k < |o| && j < p.routed[o[k]][e]
    ensures var base := Prefix(p.PaddedSizes(lo, hi), e - lo);
            && base + p.EarlierFor(o, e, k) <= p.PaddedIndex(lo, hi, o, k, e, j) < base + p.EarlierFor(o, e, k + 1)
            && p.EarlierFor(o, e, k + 1) <= p.ExpertTotal(e)
            && base + p.ExpertTotal(e) <= Prefix(p.PaddedSizes(lo, hi), e - lo + 1)
  {
    PermutedSum(p.Column(e), o);
    PrefixMonotone(Gather(p.Column(e), o), k + 1, |o|);
    RoundUpBounds(p.ExpertTotal(e), p.c.padding);
  }

  lemma PaddedWithin(p: Plan, lo: nat, hi: nat, o: seq<nat>, k: nat, e: nat, j: nat, slot: nat, l: nat)
    requires p.Valid() && lo <= e < hi <= p.c.numExperts && e == lo + l
    requires |o| == p.c.groups && IsPermutation(o) && k < |o| && j < p.routed[o[k]][e]
    requires slot == p.PaddedIndex(lo, hi, o, k, e, j)
    ensures Prefix(p.PaddedSizes(lo, hi), l) <= slot < Prefix(p.PaddedSizes(lo, hi), l + 1)
  {
    PaddedBlock(p, lo, hi, o, k, e, j);
  }

  /** No two received tokens share an output slot. */
  lemma PaddedInjective(p: Plan, lo: nat, hi: nat, o: seq<nat>, k: nat, e: nat, j: nat, k': nat, e': nat, j': nat)
    requires p.Valid() && lo <= e < hi <= p.c.numExperts && lo <= e' < hi
    requires |o| == p.c.groups && IsPermutation(o) && k < |o| && k' < |o|
    requires j < p.routed[o[k]][e] && j' < p.routed[o[k']][e']
    requires p.PaddedIndex(lo, hi, o, k, e, j) == p.PaddedIndex(lo, hi, o, k', e', j')
    ensures k == k' && e == e' && j == j'
  {
    var l: nat, l': nat, slot := e - lo, e' - lo, p.PaddedIndex(lo, hi, o, k, e, j);
    PaddedWithin(p, lo, hi, o, k, e, j, slot, l);
    PaddedWithin(p, lo, hi, o, k', e', j', slot, l');
    LocateUnique(p.PaddedSizes(lo, hi), l, l', slot);
    LocateUnique(Gather(p.Column(e), o), k, k', p.EarlierFor(o, e, k) + j);
  }

  /** Every slot of an expert's block, up to its token count, is filled. */
  lemma PaddedOnto(p: Plan, lo: nat, hi: nat, o: seq<nat>, e: nat, slot: nat) returns (k: nat, j: nat)
    requires p.Valid() && lo <= e < hi <= p.c.numExperts
    requires |o| == p.c.groups && IsPermutation(o)
    requires Prefix(p.PaddedSizes(lo, hi), e - lo) <= slot
             < Prefix(p.PaddedSizes(lo, hi), e - lo) + p.ExpertTotal(e)
    ensures k < |o| && j < p.routed[o[k]][e]
    ensures p.PaddedIndex(lo, hi, o, k, e, j) == slot
  {
    var column := Gather(p.Column(e), o);
    PermutedSum(p.Column(e), o);
    var offset := slot - Prefix(p.PaddedSizes(lo, hi), e - lo);
    k := Locate(column, |o|, offset);
    j := offset - Prefix(column, k);
  }

  /** Every rank receives each token exactly once, in whatever order it visits groups. */
  lemma VisitedTotal(p: Plan, rank: nat)
    requires p.Valid() && rank < p.c.worldSize
    ensures IsPermutation(Order(p.c, rank))
    ensures Sum(Gather(p.Counts(rank), Order(p.c, rank))) == p.Received(rank)
  {
    OrderIsPermutation(p.c, rank);
    PermutedSum(p.Counts(rank), Order(p.c, rank));
  }
}
