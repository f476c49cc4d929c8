/** The dispatch half of an all-to-all step: which memory writes are made, and what the
    receive kernel finds when it reads, in whatever order the writes land. */
module Dispatch {
  import opened Arith
  import opened Sums
  import opened Topology
  import opened Placement

  /** One step of work: for every group, the expert chosen for each (token, route) pair
      `i == token * topk + route`, the per-expert offset the kernel assigned to it, and the
      token payloads. All ranks of a group hold the same data. */
  datatype Job<T> = Job(p: Plan, topk: nat, experts: seq<seq<nat>>, offsets: seq<seq<nat>>, x: seq<seq<T>>, fixedDim: bool)
  {
    ghost predicate Valid() {
      && p.Valid() && topk > 0
      && |experts| == |offsets| == |x| == p.c.groups
      && Mul(p.c.groups, p.c.maxPrivate) <= TAG
      && forall g :: 0 <= g < p.c.groups ==> GroupValid(g)
    }

    /** The offsets number the pairs of each expert without repetition, below the count
        that the group reports in the routing table. */
    ghost predicate GroupValid(g: nat)
      requires p.Valid() && topk > 0 && |experts| == |offsets| == |x| == p.c.groups && g < p.c.groups
    {
      && |experts[g]| == |offsets[g]| == Mul(|x[g]|, topk)
      && Sum(p.routed[g]) < TAG
      && (forall i :: 0 <= i < |experts[g]| ==>
            experts[g][i] < p.c.numExperts && offsets[g][i] < p.routed[g][experts[g][i]])
      && (forall i: nat, i': nat :: i < i' < |experts[g]| ==> !Clash(g, i, i'))
    }

    /** Two pairs of one expert with the same number. */
    predicate Clash(g: nat, i: nat, i': nat)
      requires g < |experts| && g < |offsets| && i < |experts[g]| == |offsets[g]| && i' < |experts[g]|
    {
      experts[g][i] == experts[g][i'] && offsets[g][i] == offsets[g][i']
    }

    ghost predicate Pair(g: nat, i: nat) {
      Valid() && g < p.c.groups && GroupValid(g) && i < |experts[g]|
    }

    /** Slot of the pair in the send order of its group. */
    ghost function Position(g: nat, i: nat): nat
      requires Pair(g, i)
    {
      Prefix(p.routed[g], experts[g][i]) + offsets[g][i]
    }

    /** The rank that owns the pair's expert. */
    ghost function Target(g: nat, i: nat): nat
      requires Pair(g, i)
    {
      p.c.OwnerOf(experts[g][i])
    }

    ghost function Payload(g: nat, i: nat): T
      requires Pair(g, i)
    {
      QuotBound(i, |x[g]|, topk);
      x[g][Quot(i, topk)]
    }

    /** Index of the pair among those its group sends to rank `q`. */
    ghost predicate IndexOn(g: nat, i: nat, q: nat, index: nat) {
      Pair(g, i) && Target(g, i) == q && Position(g, i) == p.Start(g, q) + index
    }

    /** The send kernel writes a pair to a peer's private buffer if the peer is another rank
        of the same node and the index is within the private part. */
    ghost predicate Direct(r: nat, q: nat, index: nat)
      requires Valid()
    {
      Sizes(p.c);
      p.c.NodeOf(q) == p.c.NodeOf(r) && q != r && index < p.c.maxPrivate
    }

    /** Rank `r`'s send buffer holds `v` in `slot`. */
    ghost predicate SendHolds(r: nat, slot: nat, v: T)
      requires Valid() && r < p.c.worldSize
    {
      exists i: nat, q: nat, index: nat :: IndexOn(p.c.GroupOf(r), i, q, index) && !Direct(r, q, index)
        && slot == p.Start(p.c.GroupOf(r), q) + index && v == Payload(p.c.GroupOf(r), i)
    }

    /** A direct write over NVLink from `r` puts `v` into `slot` of `q`'s receive buffer.
        The kernel variant for compile-time token sizes skips the data-parallel check. */
    ghost predicate DirectWrite(r: nat, q: nat, slot: nat, v: T)
      requires Valid() && r < p.c.worldSize
    {
      exists i: nat, index: nat :: IndexOn(p.c.GroupOf(r), i, q, index) && Direct(r, q, index)
        && (fixedDim || p.c.DpRank(q) == p.c.DpRank(r))
        && slot == Mul(p.c.GroupOf(r), p.c.maxPrivate) + index && v == Payload(p.c.GroupOf(r), i)
    }

    /** Any write into `slot` of `q`'s receive buffer during dispatch. */
    ghost predicate RecvHolds(q: nat, slot: nat, v: T)
      requires Valid() && q < p.c.worldSize
    {
      exists r: nat :: r < p.c.worldSize && Delivers(r, q, slot, v)
    }

    ghost predicate Delivers(r: nat, q: nat, slot: nat, v: T)
      requires Valid() && q < p.c.worldSize && r < p.c.worldSize
    {
      || DirectWrite(r, q, slot, v)
      || exists src: nat :: (PrivateCopy(p, r, q, src, slot) || OverflowCopy(p, r, q, src, slot)) && SendHolds(r, src, v)
    }

    ghost predicate Holds(at: Loc, v: T)
      requires Valid() && at.rank < p.c.worldSize
    {
      match at
      case SendSlot(r, slot) => SendHolds(r, slot, v)
      case RecvSlot(q, slot) => RecvHolds(q, slot, v)
    }

    /** What the buffers of all ranks hold when dispatch is done. */
    ghost function Memory(): (Loc, T) -> bool
      requires Valid()
    {
      (at: Loc, v: T) => Valid() && at.rank < p.c.worldSize && Holds(at, v)
    }
  }

  datatype Loc = SendSlot(rank: nat, slot: nat) | RecvSlot(rank: nat, slot: nat)

  /** The first scatter of a step copies the leading tokens for `q`, at most the size of a
      private buffer, from `r`'s send buffer into the part of `q`'s buffer private to `r`. */
  ghost predicate PrivateCopy(p: Plan, r: nat, q: nat, src: nat, dst: nat)
    requires p.Valid() && r < p.c.worldSize && q < p.c.worldSize
  {
    RankParts(p.c, r);
    var g := p.c.GroupOf(r);
    && p.c.NodeOf(r) != p.c.NodeOf(q)
    && p.Start(g, q) <= src < p.Start(g, q) + Min(p.Count(g, q), p.c.maxPrivate)
    && dst == Mul(g, p.c.maxPrivate) + (src - p.Start(g, q))
  }

  /** The second scatter copies the remaining tokens behind all private parts, after those of
      the groups before. */
  ghost predicate OverflowCopy(p: Plan, r: nat, q: nat, src: nat, dst: nat)
    requires p.Valid() && r < p.c.worldSize && q < p.c.worldSize
  {
    RankParts(p.c, r);
    var g := p.c.GroupOf(r);
    && p.c.NodeOf(r) != p.c.NodeOf(q) && p.c.DpRank(r) == p.c.DpRank(q)
    && p.Start(g, q) + p.c.maxPrivate <= src < p.Start(g, q) + p.Count(g, q)
    && dst == Mul(p.c.groups, p.c.maxPrivate) + p.Arrival(q, g) + (src - p.Start(g, q) - p.c.maxPrivate)
  }

  /** How the receive kernel on `q` turns a source rank and offset into an address. Tokens
      from other nodes are read from the receive buffer without looking at the tag. */
  function Decode(c: Shape, q: nat, remote: bool, sourceRank: nat, offset: nat): Loc
    requires c.Valid()
  {
    Sizes(c);
    if remote then RecvSlot(q, offset)
    else if sourceRank == q then SendSlot(q, offset)
    else if HasTag(offset) then
      SendSlot(Mul(c.NodeOf(q), c.nodeSize) + Rem(sourceRank, c.nodeSize), ClearTag(offset))
    else RecvSlot(q, offset)
  }

  /** Where `q` reads the `index`-th token it gets from group `g`. */
  function Fetch(p: Plan, q: nat, g: nat, index: nat): Loc
    requires p.Valid() && q < p.c.worldSize && g < p.c.groups
  {
    Sizes(p.c);
    Decode(p.c, q, p.c.GroupNode(g) != p.c.NodeOf(q), p.SourceRank(q, g), p.SourceOffset(q, g, index))
  }

  /** Different pairs have different positions. */
  lemma PositionInjective<T>(job: Job<T>, g: nat, i: nat, i': nat)
    requires job.Pair(g, i) && job.Pair(g, i') && job.Position(g, i) == job.Position(g, i')
    ensures i == i'
  {
    LocateUnique(job.p.routed[g], job.experts[g][i], job.experts[g][i'], job.Position(g, i));
    assert i < i' ==> !job.Clash(g, i, i');
    assert i' < i ==> !job.Clash(g, i', i);
  }

  /** A pair's position lies in the stretch of its target rank. */
  lemma PositionRange<T>(job: Job<T>, g: nat, i: nat)
    requires job.Pair(g, i)
    ensures var q := job.Target(g, i);
            q < job.p.c.worldSize && job.p.Start(g, q) <= job.Position(g, i) < job.p.Start(g, q + 1)
    ensures job.Position(g, i) < Sum(job.p.routed[g])
  {
    var c, s, e := job.p.c, job.p.routed[g], job.experts[g][i];
    OwnerRange(c, e);
    var q := c.OwnerOf(e);
    LoFacts(c, q);
    PrefixMonotone(s, c.Lo(q), e);
    PrefixMonotone(s, e + 1, c.Lo(q + 1));
    PrefixMonotone(s, c.Lo(q + 1), c.numExperts);
  }

  /** The only value a send buffer can hold at a pair's position is that pair's payload. */
  lemma SendHoldsOnly<T>(job: Job<T>, r: nat, i: nat, v: T)
    requires job.Valid() && r < job.p.c.worldSize && job.Pair(job.p.c.GroupOf(r), i)
    requires job.SendHolds(r, job.Position(job.p.c.GroupOf(r), i), v)
    ensures v == job.Payload(job.p.c.GroupOf(r), i)
  {
    var g := job.p.c.GroupOf(r);
    var i': nat, q: nat, index: nat :| job.IndexOn(g, i', q, index) && !job.Direct(r, q, index)
      && job.Position(g, i) == job.p.Start(g, q) + index && v == job.Payload(g, i');
    PositionInjective(job, g, i, i');
  }

  lemma SendHoldsPair<T>(job: Job<T>, r: nat, i: nat, q: nat, index: nat)
    requires job.Valid() && r < job.p.c.worldSize
    requires job.IndexOn(job.p.c.GroupOf(r), i, q, index) && !job.Direct(r, q, index)
    ensures job.SendHolds(r, job.p.Start(job.p.c.GroupOf(r), q) + index, job.Payload(job.p.c.GroupOf(r), i))
  {
  }

  /** A private slot belongs to one group and one index, and lies below every overflow slot. */
  lemma PrivateSlot(c: Shape, g: nat, index: nat, g': nat, index': nat)
    requires c.Valid() && g < c.groups && g' < c.groups && index < c.maxPrivate && index' < c.maxPrivate
    ensures Mul(g, c.maxPrivate) + index < Mul(c.groups, c.maxPrivate)
    ensures Mul(g, c.maxPrivate) + index == Mul(g', c.maxPrivate) + index' ==> g == g' && index == index'
  {
    MulMonotone(g + 1, c.groups, c.maxPrivate);
    if Mul(g, c.maxPrivate) + index == Mul(g', c.maxPrivate) + index' {
      DigitsUnique(g, index, g', index', c.maxPrivate);
    }
  }

  /** The overflow slots of different groups are disjoint, and each determines its index. */
  lemma OverflowSlot(p: Plan, q: nat, g: nat, index: nat, g': nat, index': nat)
    requires p.Valid() && g < p.c.groups && g' < p.c.groups
    requires p.c.maxPrivate <= index < p.Count(g, q) && p.c.maxPrivate <= index' < p.Count(g', q)
    requires p.Arrival(q, g) + index == p.Arrival(q, g') + index'
    ensures g == g' && index == index'
  {
    var counts, at := p.Counts(q), p.Arrival(q, g) + index;
    LocateUnique(counts, g, g', at);
  }

  /** The slot of `q`'s receive buffer in which `q` looks for a token that was not left in a
      send buffer. */
  ghost function RecvSlotOf(p: Plan, q: nat, g: nat, index: nat): nat
    requires p.Valid() && g < p.c.groups
  {
    Sizes(p.c);
    if index < p.c.maxPrivate then Mul(g, p.c.maxPrivate) + index
    else p.Arrival(q, g) + index + Mul(p.c.groups - 1, p.c.maxPrivate)
  }

  lemma DirectOnly<T>(job: Job<T>, r: nat, q: nat, g: nat, i: nat, index: nat, v: T)
    requires job.IndexOn(g, i, q, index) && r < job.p.c.worldSize && q < job.p.c.worldSize
    requires job.DirectWrite(r, q, RecvSlotOf(job.p, q, g, index), v)
    ensures v == job.Payload(g, i)
  {
    var c, g' := job.p.c, job.p.c.GroupOf(r);
    RankParts(c, r);
    var i': nat, index': nat :| job.IndexOn(g', i', q, index') && job.Direct(r, q, index')
      && RecvSlotOf(job.p, q, g, index) == Mul(g', c.maxPrivate) + index' && v == job.Payload(g', i');
    PrivateSlot(c, g', index', g', index');
    if index < c.maxPrivate {
      PrivateSlot(c, g, index, g', index');
      PositionInjective(job, g, i, i');
    }
  }

  lemma PrivateOnly<T>(job: Job<T>, r: nat, q: nat, g: nat, i: nat, index: nat, src: nat, v: T)
    requires job.IndexOn(g, i, q, index) && r < job.p.c.worldSize && q < job.p.c.worldSize
    requires PrivateCopy(job.p, r, q, src, RecvSlotOf(job.p, q, g, index)) && job.SendHolds(r, src, v)
    ensures v == job.Payload(g, i)
  {
    var c, g' := job.p.c, job.p.c.GroupOf(r);
    RankParts(c, r);
    var index': nat := src - job.p.Start(g', q);
    PrivateSlot(c, g', index', g', index');
    if index < c.maxPrivate {
      PrivateSlot(c, g, index, g', index');
      SendHoldsOnly(job, r, i, v);
    }
  }

  lemma OverflowOnly<T>(job: Job<T>, r: nat, q: nat, g: nat, i: nat, index: nat, src: nat, v: T)
    requires job.IndexOn(g, i, q, index) && r < job.p.c.worldSize && q < job.p.c.worldSize
    requires OverflowCopy(job.p, r, q, src, RecvSlotOf(job.p, q, g, index)) && job.SendHolds(r, src, v)
    ensures v == job.Payload(g, i)
  {
    var c, g' := job.p.c, job.p.c.GroupOf(r);
    RankParts(c, r);
    var index': nat := src - job.p.Start(g', q);
    PositionRange(job, g, i);
    if index < c.maxPrivate {
      PrivateSlot(c, g, index, g, index);
    } else {
      OverflowSlot(job.p, q, g, index, g', index');
      SendHoldsOnly(job, r, i, v);
    }
  }

  /** Whatever is written to the slot that `q` reads for a pair is that pair's payload,
      whichever rank, link and buffer it came through. */
  lemma RecvHoldsOnly<T>(job: Job<T>, q: nat, g: nat, i: nat, index: nat, v: T)
    requires job.IndexOn(g, i, q, index) && q < job.p.c.worldSize
    requires job.RecvHolds(q, RecvSlotOf(job.p, q, g, index), v)
    ensures v == job.Payload(g, i)
  {
    var slot := RecvSlotOf(job.p, q, g, index);
    var r: nat :| r < job.p.c.worldSize && job.Delivers(r, q, slot, v);
    if job.DirectWrite(r, q, slot, v) {
      DirectOnly(job, r, q, g, i, index, v);
    } else {
      var src: nat :| (PrivateCopy(job.p, r, q, src, slot) || OverflowCopy(job.p, r, q, src, slot)) && job.SendHolds(r, src, v);
      if PrivateCopy(job.p, r, q, src, slot) {
        PrivateOnly(job, r, q, g, i, index, src, v);
      } else {
        OverflowOnly(job, r, q, g, i, index, src, v);
      }
    }
  }

  /** The peer rank of another group, and where it sits. */
  lemma SourceRankFacts(c: Shape, q: nat, g: nat)
    requires c.Valid() && q < c.worldSize && g < c.groups
    ensures c.nodeSize > 0
    ensures var r := Mul(g, c.dpSize) + c.DpRank(q);
            && r < c.worldSize && c.GroupOf(r) == g && c.DpRank(r) == c.DpRank(q)
            && c.NodeOf(r) == c.GroupNode(g)
            && (r == q <==> g == c.GroupOf(q))
            && (c.GroupNode(g) == c.NodeOf(q) ==> Mul(c.NodeOf(q), c.nodeSize) + Rem(r, c.nodeSize) == r)
  {
    Sizes(c);
    RankParts(c, q);
    var r := Mul(g, c.dpSize) + c.DpRank(q);
    GroupMember(c, g, c.DpRank(q));
    QuotRemParts(r, c.nodeSize);
  }

  /** Something is written to the slot that `q` reads for a pair of another group, provided
      the pair is not one that stays in a send buffer on the same node: by the rank of the group
      with the index of `q`, at least. */
  lemma RecvHoldsPair<T>(job: Job<T>, q: nat, g: nat, i: nat, index: nat)
    requires job.IndexOn(g, i, q, index) && q < job.p.c.worldSize && g != job.p.c.GroupOf(q)
    requires job.p.c.nodeSize > 0
    requires index < job.p.c.maxPrivate || job.p.c.GroupNode(g) != job.p.c.NodeOf(q)
    ensures SourceOf(job.p.c, q, g) < job.p.c.worldSize
    ensures job.Delivers(SourceOf(job.p.c, q, g), q, RecvSlotOf(job.p, q, g, index), job.Payload(g, i))
    ensures job.RecvHolds(q, RecvSlotOf(job.p, q, g, index), job.Payload(g, i))
  {
    hide Job.RecvHolds;
    var c, p, slot, v := job.p.c, job.p, RecvSlotOf(job.p, q, g, index), job.Payload(g, i);
    SourceRankFacts(c, q, g);
    var r := SourceOf(c, q, g);
    PositionRange(job, g, i);
    if c.GroupNode(g) == c.NodeOf(q) {
      assert job.DirectWrite(r, q, slot, v);
    } else {
      var src := p.Start(g, q) + index;
      SendHoldsPair(job, r, i, q, index);
      assert PrivateCopy(p, r, q, src, slot) || OverflowCopy(p, r, q, src, slot);
    }
    assert job.Delivers(r, q, slot, v);
    Written(job, r, q, slot, v);
  }

  /** The rank of group `g` with the index of `q`. */
  function SourceOf(c: Shape, q: nat, g: nat): nat
    requires c.dpSize > 0
  {
    Mul(g, c.dpSize) + c.DpRank(q)
  }

  lemma Written<T>(job: Job<T>, r: nat, q: nat, slot: nat, v: T)
    requires job.Valid() && q < job.p.c.worldSize && r < job.p.c.worldSize && job.Delivers(r, q, slot, v)
    ensures job.RecvHolds(q, slot, v)
  {
    hide Job.Delivers;
  }

  /** Where `q` reads a pair: in the send buffer of the group's rank with its own index, if that is
      itself or on its node and the private part is full, and otherwise in its receive buffer. */
  lemma FetchIs<T>(job: Job<T>, q: nat, g: nat, i: nat, index: nat)
    requires job.IndexOn(g, i, q, index) && q < job.p.c.worldSize
    ensures job.p.c.nodeSize > 0 && SourceOf(job.p.c, q, g) < job.p.c.worldSize && job.p.c.GroupOf(SourceOf(job.p.c, q, g)) == g
    ensures var c := job.p.c;
            Fetch(job.p, q, g, index)
            == if g == c.GroupOf(q) || (index >= c.maxPrivate && c.GroupNode(g) == c.NodeOf(q))
               then SendSlot(SourceOf(c, q, g), job.p.Start(g, q) + index) else RecvSlot(q, RecvSlotOf(job.p, q, g, index))
  {
    var c := job.p.c;
    SourceRankFacts(c, q, g);
    RankParts(c, q);
    PositionRange(job, g, i);
    if index < c.maxPrivate {
      PrivateSlot(c, g, index, g, index);
    }
  }

  /** The pair is not written to a private buffer by the rank it is read from. */
  lemma StaysInSend<T>(job: Job<T>, q: nat, g: nat, i: nat, index: nat)
    requires job.IndexOn(g, i, q, index) && q < job.p.c.worldSize && job.p.c.nodeSize > 0
    requires g == job.p.c.GroupOf(q) || (index >= job.p.c.maxPrivate && job.p.c.GroupNode(g) == job.p.c.NodeOf(q))
    ensures SourceOf(job.p.c, q, g) < job.p.c.worldSize
    ensures job.SendHolds(SourceOf(job.p.c, q, g), job.p.Start(g, q) + index, job.Payload(g, i))
  {
    SourceRankFacts(job.p.c, q, g);
    RankParts(job.p.c, q);
    SendHoldsPair(job, SourceOf(job.p.c, q, g), i, q, index);
  }

  /** Dispatch is correct: for every pair sent to `q` by any group, the place where `q` reads
      holds that pair's payload and nothing else, whether it went by local copy, private
      buffer or overflow, over NVLink or the network. */
  lemma DispatchDelivers<T>(job: Job<T>, q: nat, g: nat, i: nat, index: nat, v: T)
    requires job.IndexOn(g, i, q, index) && q < job.p.c.worldSize
    ensures Fetch(job.p, q, g, index).rank < job.p.c.worldSize
    ensures job.Holds(Fetch(job.p, q, g, index), v) <==> v == job.Payload(g, i)
  {
    hide Fetch, Job.SendHolds, Job.RecvHolds, Job.Payload, RecvSlotOf, Job.GroupValid;
    var c, p := job.p.c, job.p;
    FetchIs(job, q, g, i, index);
    if g == c.GroupOf(q) || (index >= c.maxPrivate && c.GroupNode(g) == c.NodeOf(q)) {
      StaysInSend(job, q, g, i, index);
      if job.SendHolds(SourceOf(c, q, g), p.Start(g, q) + index, v) {
        SendHoldsOnly(job, SourceOf(c, q, g), i, v);
      }
    } else {
      RecvHoldsPair(job, q, g, i, index);
      if job.RecvHolds(q, RecvSlotOf(p, q, g, index), v) {
        RecvHoldsOnly(job, q, g, i, index, v);
      }
    }
  }
}
