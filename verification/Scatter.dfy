/** The scatter lists that the worker hands to the transfer engine: who gets which bytes.
    Each list is built by walking over the other nodes; the lists are then shown to move
    exactly the tokens that the delivery proofs say they move. */
module Scatter {
  import opened Arith
  import opened Sums
  import opened Topology
  import opened Placement
  import opened Dispatch
  import opened RoundTrip
  import opened RoutingWorker
  import Splitting

  /** One destination of a scatter: `length` bytes from `src` in the local buffer to `dst` in
      the buffer of `peer`. */
  datatype Target = Target(peer: nat, length: nat, src: nat, dst: nat)

  /** The three lists: tokens for private buffers, the overflow behind them, and combine
      results. */
  datatype Kind = PrivateKind | OverflowKind | CombineKind

  predicate Wanted(kind: Kind, p: Plan, rank: nat, q: nat)
    requires p.Valid() && rank < p.c.worldSize && q < p.c.worldSize
  {
    Sizes(p.c);
    RankParts(p.c, rank);
    && p.c.NodeOf(q) != p.c.NodeOf(rank)
    && (kind.OverflowKind? ==> p.c.DpRank(q) == p.c.DpRank(rank) && p.Count(p.c.GroupOf(rank), q) > p.c.maxPrivate)
  }

  function TargetFor(kind: Kind, p: Plan, rank: nat, dim: nat, q: nat): Target
    requires p.Valid() && rank < p.c.worldSize && q < p.c.worldSize && Wanted(kind, p, rank, q)
  {
    RankParts(p.c, rank);
    RankParts(p.c, q);
    var own, g, most := p.c.GroupOf(rank), p.c.GroupOf(q), p.c.maxPrivate;
    match kind
    case PrivateKind =>
      Target(q, Mul(Min(p.Count(own, q), most), dim), Mul(p.Start(own, q), dim), Mul(Mul(own, most), dim))
    case OverflowKind =>
      Target(q, Mul(p.Count(own, q) - most, dim), Mul(most + p.Start(own, q), dim),
             Mul(Mul(p.c.groups, most) + p.Arrival(q, own), dim))
    case CombineKind =>
      Target(q, Mul(p.Count(g, rank), dim), Mul(p.Arrival(rank, g), dim), Mul(p.Start(g, rank), dim))
  }

  /** Walking around the ring of nodes, block by block. */
  lemma WrapBlocks(a: nat, blocks: nat, n: nat, i: nat)
    requires a < 2 * blocks && i < n
    ensures Mul(blocks, n) > 0 && Rem(Mul(a, n) + i, Mul(blocks, n)) == Mul(Wrap(a, blocks), n) + i
  {
    MulMonotone(1, blocks, n);
    if a < blocks {
      MulMonotone(a + 1, blocks, n);
    } else {
      MulAdd(a - blocks, blocks, n);
      MulMonotone(a - blocks + 1, blocks, n);
    }
  }

  /** Rank `i` of the `n`-th node after this one. */
  function RingPeer(c: Shape, rank: nat, n: nat, i: nat): nat
    requires c.Valid() && rank < c.worldSize && n < c.nodes
  {
    RankParts(c, rank);
    Mul(Wrap(c.NodeOf(rank) + n, c.nodes), c.nodeSize) + i
  }

  /** How many nodes further on `q` is. */
  function Turn(c: Shape, rank: nat, q: nat): nat
    requires c.Valid() && rank < c.worldSize && q < c.worldSize
  {
    RankParts(c, rank);
    RankParts(c, q);
    Wrap(c.NodeOf(q) + c.nodes - c.NodeOf(rank), c.nodes)
  }

  lemma RingPeerTurn(c: Shape, rank: nat, n: nat, i: nat)
    requires c.Valid() && rank < c.worldSize && 0 < n < c.nodes && i < c.nodeSize
    ensures var q := RingPeer(c, rank, n, i);
            q < c.worldSize && Turn(c, rank, q) == n && Rem(q, c.nodeSize) == i && c.NodeOf(q) != c.NodeOf(rank)
  {
    RankParts(c, rank);
    var b := Wrap(c.NodeOf(rank) + n, c.nodes);
    QuotRem(b, i, c.nodeSize);
    MulMonotone(b + 1, c.nodes, c.nodeSize);
  }

  lemma RingPeerUnique(c: Shape, rank: nat, q: nat)
    requires c.Valid() && rank < c.worldSize && q < c.worldSize
    ensures c.nodeSize > 0 && Turn(c, rank, q) < c.nodes && (Turn(c, rank, q) == 0 <==> c.NodeOf(q) == c.NodeOf(rank))
    ensures q == RingPeer(c, rank, Turn(c, rank, q), Rem(q, c.nodeSize))
  {
    RankParts(c, rank);
    RankParts(c, q);
    QuotRemParts(q, c.nodeSize);
  }

  /** `q` is met before rank `i` of the `n`-th node after this one. */
  predicate Before(c: Shape, rank: nat, q: nat, n: nat, i: nat)
    requires c.Valid() && rank < c.worldSize && q < c.worldSize
  {
    Sizes(c);
    var t := Turn(c, rank, q);
    0 < t && (t < n || (t == n && Rem(q, c.nodeSize) < i))
  }

  predicate HasPeer(list: seq<Target>, q: nat) {
    exists m :: 0 <= m < |list| && list[m].peer == q
  }

  predicate Good(kind: Kind, p: Plan, rank: nat, dim: nat, t: Target, n: nat, i: nat)
    requires p.Valid() && rank < p.c.worldSize
  {
    && t.peer < p.c.worldSize && Before(p.c, rank, t.peer, n, i)
    && Wanted(kind, p, rank, t.peer) && t == TargetFor(kind, p, rank, dim, t.peer)
  }

  predicate Distinct(list: seq<Target>) {
    forall m, m' :: 0 <= m < m' < |list| ==> list[m].peer != list[m'].peer
  }

  /** Everyone who is met and wanted has been met. */
  predicate Covers(kind: Kind, p: Plan, rank: nat, list: seq<Target>, n: nat, i: nat)
    requires p.Valid() && rank < p.c.worldSize
  {
    forall q: nat :: q < p.c.worldSize && Before(p.c, rank, q, n, i) && Wanted(kind, p, rank, q) ==> HasPeer(list, q)
  }

  predicate Listed(kind: Kind, p: Plan, rank: nat, dim: nat, list: seq<Target>, n: nat, i: nat) {
    && p.Valid() && rank < p.c.worldSize && Distinct(list)
    && (forall m :: 0 <= m < |list| ==> Good(kind, p, rank, dim, list[m], n, i))
    && Covers(kind, p, rank, list, n, i)
  }

  /** The finished list: exactly the peers that are due something, once each. */
  predicate Lists(kind: Kind, p: Plan, rank: nat, dim: nat, list: seq<Target>) {
    && p.Valid() && rank < p.c.worldSize && Distinct(list)
    && (forall m :: 0 <= m < |list| ==>
          && list[m].peer < p.c.worldSize && Wanted(kind, p, rank, list[m].peer)
          && list[m] == TargetFor(kind, p, rank, dim, list[m].peer))
    && (forall q: nat :: q < p.c.worldSize && Wanted(kind, p, rank, q) ==> HasPeer(list, q))
  }

  /** One more rank met. */
  lemma BeforeNext(c: Shape, rank: nat, n: nat, i: nat, q: nat)
    requires c.Valid() && rank < c.worldSize && 0 < n < c.nodes && i < c.nodeSize && q < c.worldSize
    ensures Before(c, rank, q, n, i + 1) <==> Before(c, rank, q, n, i) || q == RingPeer(c, rank, n, i)
    ensures Before(c, rank, q, n, i) ==> q != RingPeer(c, rank, n, i)
  {
    hide Wrap, Mul, Quot, Rem, RingPeer, Turn, Shape.NodeOf;
    RingPeerTurn(c, rank, n, i);
    RingPeerUnique(c, rank, q);
  }

  lemma CoversSkip(kind: Kind, p: Plan, rank: nat, list: seq<Target>, n: nat, i: nat)
    requires p.Valid() && rank < p.c.worldSize && 0 < n < p.c.nodes && i < p.c.nodeSize
    requires Covers(kind, p, rank, list, n, i)
    requires RingPeer(p.c, rank, n, i) < p.c.worldSize ==>
               !Wanted(kind, p, rank, RingPeer(p.c, rank, n, i)) || HasPeer(list, RingPeer(p.c, rank, n, i))
    ensures Covers(kind, p, rank, list, n, i + 1)
  {
    hide Before, Wanted, HasPeer, RingPeer;
    forall q: nat | q < p.c.worldSize && Before(p.c, rank, q, n, i + 1) && Wanted(kind, p, rank, q)
      ensures HasPeer(list, q)
    {
      BeforeNext(p.c, rank, n, i, q);
    }
  }

  lemma GoodNext(kind: Kind, p: Plan, rank: nat, dim: nat, t: Target, n: nat, i: nat, n': nat, i': nat)
    requires p.Valid() && rank < p.c.worldSize && Good(kind, p, rank, dim, t, n, i)
    requires n < n' || (n == n' && i <= i')
    ensures Good(kind, p, rank, dim, t, n', i')
  {
    hide Wanted, TargetFor, Turn;
  }

  lemma ListedSkip(kind: Kind, p: Plan, rank: nat, dim: nat, list: seq<Target>, n: nat, i: nat)
    requires Listed(kind, p, rank, dim, list, n, i) && 0 < n < p.c.nodes && i < p.c.nodeSize
    requires RingPeer(p.c, rank, n, i) < p.c.worldSize ==> !Wanted(kind, p, rank, RingPeer(p.c, rank, n, i))
    ensures Listed(kind, p, rank, dim, list, n, i + 1)
  {
    hide Good, Covers, Distinct, Wanted, RingPeer;
    CoversSkip(kind, p, rank, list, n, i);
    forall m | 0 <= m < |list| ensures Good(kind, p, rank, dim, list[m], n, i + 1) {
      GoodNext(kind, p, rank, dim, list[m], n, i, n, i + 1);
    }
  }

  lemma CoversMore(kind: Kind, p: Plan, rank: nat, list: seq<Target>, t: Target, n: nat, i: nat)
    requires p.Valid() && rank < p.c.worldSize && Covers(kind, p, rank, list, n, i)
    ensures Covers(kind, p, rank, list + [t], n, i)
  {
    hide Before, Wanted;
    forall q: nat | q < p.c.worldSize && Before(p.c, rank, q, n, i) && Wanted(kind, p, rank, q)
      ensures HasPeer(list + [t], q)
    {
      var m :| 0 <= m < |list| && list[m].peer == q;
      assert (list + [t])[m].peer == q;
    }
  }

  lemma ListedAdd(kind: Kind, p: Plan, rank: nat, dim: nat, list: seq<Target>, n: nat, i: nat, q: nat)
    requires Listed(kind, p, rank, dim, list, n, i) && 0 < n < p.c.nodes && i < p.c.nodeSize
    requires q == RingPeer(p.c, rank, n, i) < p.c.worldSize && Wanted(kind, p, rank, q)
    ensures Listed(kind, p, rank, dim, list + [TargetFor(kind, p, rank, dim, q)], n, i + 1)
  {
    hide Wanted, RingPeer, Turn, TargetFor, Before, Covers;
    var t := TargetFor(kind, p, rank, dim, q);
    var list' := list + [t];
    TargetPeer(kind, p, rank, dim, q);
    BeforeNext(p.c, rank, n, i, q);
    CoversMore(kind, p, rank, list, t, n, i);
    assert list'[|list|].peer == q;
    CoversSkip(kind, p, rank, list', n, i);
    forall m | 0 <= m < |list| ensures Good(kind, p, rank, dim, list[m], n, i + 1) && list[m].peer != q {
      BeforeNext(p.c, rank, n, i, list[m].peer);
    }
  }

  lemma TargetPeer(kind: Kind, p: Plan, rank: nat, dim: nat, q: nat)
    requires p.Valid() && rank < p.c.worldSize && q < p.c.worldSize && Wanted(kind, p, rank, q)
    ensures TargetFor(kind, p, rank, dim, q).peer == q
  {
    hide Wanted, Plan.Count, Plan.Start, Plan.Arrival, Mul;
  }

  lemma ListedTurn(kind: Kind, p: Plan, rank: nat, dim: nat, list: seq<Target>, n: nat)
    requires Listed(kind, p, rank, dim, list, n, p.c.nodeSize)
    ensures Listed(kind, p, rank, dim, list, n + 1, 0)
  {
    hide Good, Wanted, Turn, HasPeer, Distinct;
    forall m | 0 <= m < |list| ensures Good(kind, p, rank, dim, list[m], n + 1, 0) {
      GoodNext(kind, p, rank, dim, list[m], n, p.c.nodeSize, n + 1, 0);
    }
  }

  lemma ListedStart(kind: Kind, p: Plan, rank: nat, dim: nat)
    requires p.Valid() && rank < p.c.worldSize
    ensures Listed(kind, p, rank, dim, [], 1, 0)
  {
    hide Wanted, Turn;
  }

  lemma ListedDone(kind: Kind, p: Plan, rank: nat, dim: nat, list: seq<Target>)
    requires Listed(kind, p, rank, dim, list, p.c.nodes, 0)
    ensures Lists(kind, p, rank, dim, list)
  {
    hide HasPeer, Turn, TargetFor, Distinct;
    forall q: nat | q < p.c.worldSize && Wanted(kind, p, rank, q) ensures HasPeer(list, q) {
      RingPeerUnique(p.c, rank, q);
    }
  }

  /** Tokens of the own group for every rank, and where they start in the send buffer. */
  method ScanPeers(p: Plan, own: nat) returns (tokens: seq<nat>, offsets: seq<nat>)
    requires p.Valid() && own < p.c.groups
    ensures |tokens| == |offsets| == p.c.worldSize
    ensures forall r :: 0 <= r < p.c.worldSize ==> tokens[r] == p.Count(own, r) && offsets[r] == p.Start(own, r)
  {
    tokens, offsets := [], [];
    var offset := 0;
    assert p.c.Lo(0) == 0;
    for r := 0 to p.c.worldSize
      invariant |tokens| == |offsets| == r && offset == p.Start(own, r)
      invariant forall m :: 0 <= m < r ==> tokens[m] == p.Count(own, m) && offsets[m] == p.Start(own, m)
    {
      LoMonotone(p.c, r, r + 1);
      var n := SumRange(p.routed[own], p.c.Lo(r), p.c.Lo(r + 1));
      tokens, offsets := tokens + [n], offsets + [offset];
      offset := offset + n;
    }
  }

  method SumRange(row: seq<nat>, lo: nat, hi: nat) returns (n: nat)
    requires lo <= hi <= |row|
    ensures Prefix(row, lo) + n == Prefix(row, hi)
  {
    n := 0;
    for e := lo to hi
      invariant Prefix(row, lo) + n == Prefix(row, e)
    {
      n := n + row[e];
    }
  }

  lemma RingPeerIs(c: Shape, rank: nat, n: nat, i: nat)
    requires c.Valid() && rank < c.worldSize && 0 < n < c.nodes && i < c.nodeSize
    ensures c.worldSize > 0 && c.nodeSize > 0
    ensures Rem(Mul(c.NodeOf(rank) + n, c.nodeSize) + i, c.worldSize) == RingPeer(c, rank, n, i) < c.worldSize
    ensures c.NodeOf(RingPeer(c, rank, n, i)) != c.NodeOf(rank)
  {
    RankParts(c, rank);
    RingPeerTurn(c, rank, n, i);
    WrapBlocks(c.NodeOf(rank) + n, c.nodes, c.nodeSize, i);
  }

  lemma PrivateEntry(p: Plan, rank: nat, dim: nat, q: nat)
    requires p.Valid() && rank < p.c.worldSize && q < p.c.worldSize
    requires p.c.nodeSize > 0 && p.c.NodeOf(q) != p.c.NodeOf(rank)
    ensures Wanted(PrivateKind, p, rank, q) && p.c.GroupOf(rank) < p.c.groups
    ensures var own := p.c.GroupOf(rank);
            TargetFor(PrivateKind, p, rank, dim, q)
            == Target(q, Mul(dim, Min(p.Count(own, q), p.c.maxPrivate)), Mul(dim, p.Start(own, q)),
                      Mul(dim, Mul(own, p.c.maxPrivate)))
  {
    RankParts(p.c, rank);
    MulCommutes(dim, Min(p.Count(p.c.GroupOf(rank), q), p.c.maxPrivate));
    MulCommutes(dim, p.Start(p.c.GroupOf(rank), q));
    MulCommutes(dim, Mul(p.c.GroupOf(rank), p.c.maxPrivate));
  }

  /** The targets of the first scatter of a step: every rank of every other node gets the
      leading tokens meant for it. */
  method PrivateTargets(p: Plan, rank: nat, dim: nat) returns (list: seq<Target>)
    requires p.Valid() && rank < p.c.worldSize
    ensures Lists(PrivateKind, p, rank, dim, list)
  {
    hide *;
    ShapeFacts(p, rank);
    var own := p.c.GroupOf(rank);
    var tokens, offsets := ScanPeers(p, own);
    list := [];
    ListedStart(PrivateKind, p, rank, dim);
    for n := 1 to p.c.nodes
      invariant Listed(PrivateKind, p, rank, dim, list, n, 0)
    {
      for i := 0 to p.c.nodeSize
        invariant Listed(PrivateKind, p, rank, dim, list, n, i)
      {
        RingPeerIs(p.c, rank, n, i);
        var q := Rem(Mul(p.c.NodeOf(rank) + n, p.c.nodeSize) + i, p.c.worldSize);
        PrivateEntry(p, rank, dim, q);
        ListedAdd(PrivateKind, p, rank, dim, list, n, i, q);
        list := list + [Target(q, Mul(dim, Min(tokens[q], p.c.maxPrivate)), Mul(dim, offsets[q]),
                               Mul(dim, Mul(own, p.c.maxPrivate)))];
      }
      ListedTurn(PrivateKind, p, rank, dim, list, n);
    }
    ListedDone(PrivateKind, p, rank, dim, list);
  }

  lemma ShapeFacts(p: Plan, rank: nat)
    requires p.Valid() && rank < p.c.worldSize
    ensures p.c.Valid() && p.c.dpSize > 0 && p.c.nodes > 0 && p.c.nodeSize > 0 && p.c.worldSize > 0
    ensures p.c.groupsPerNode > 0 && p.c.groups > 0
    ensures p.c.nodeSize == Mul(p.c.groupsPerNode, p.c.dpSize) && p.c.GroupOf(rank) < p.c.groups
    ensures p.c.DpRank(rank) < p.c.dpSize
  {
    Sizes(p.c);
    RankParts(p.c, rank);
  }

  /** Tokens that groups before `g` send to rank `q`. */
  method ArrivalBefore(p: Plan, q: nat, g: nat) returns (n: nat)
    requires p.Valid() && g <= p.c.groups
    ensures n == p.Arrival(q, g)
  {
    n := 0;
    LoMonotone(p.c, q, q + 1);
    for h := 0 to g
      invariant n == p.Arrival(q, h)
    {
      var m := SumRange(p.routed[h], p.c.Lo(q), p.c.Lo(q + 1));
      n := n + m;
    }
  }

  /** Positions of a node that are not a multiple of the group size away from this rank's own
      hold ranks with another data-parallel index. */
  lemma SkipTo(p: Plan, rank: nat, dim: nat, list: seq<Target>, n: nat, i: nat, j: nat, b: nat)
    requires Listed(OverflowKind, p, rank, dim, list, n, i) && 0 < n < p.c.nodes && i <= j <= p.c.nodeSize
    requires p.c.dpSize > 0
    requires j <= Mul(b, p.c.dpSize) + p.c.DpRank(rank)
    requires b > 0 ==> i > Mul(b - 1, p.c.dpSize) + p.c.DpRank(rank)
    ensures Listed(OverflowKind, p, rank, dim, list, n, j)
    decreases j - i
  {
    hide Listed, RingPeer, Mul, Rem, Quot;
    ListedFacts(OverflowKind, p, rank, dim, list, n, i);
    if i < j {
      OffStride(p, rank, n, i, b);
      ListedSkip(OverflowKind, p, rank, dim, list, n, i);
      SkipTo(p, rank, dim, list, n, i + 1, j, b);
    }
  }

  lemma ListedFacts(kind: Kind, p: Plan, rank: nat, dim: nat, list: seq<Target>, n: nat, i: nat)
    requires Listed(kind, p, rank, dim, list, n, i)
    ensures p.Valid() && rank < p.c.worldSize
  {
  }

  lemma RingDpRank(c: Shape, rank: nat, n: nat, i: nat)
    requires c.Valid() && rank < c.worldSize && 0 < n < c.nodes && i < c.nodeSize
    ensures c.DpRank(RingPeer(c, rank, n, i)) == Rem(i, c.dpSize)
  {
    RankParts(c, rank);
    var b := Wrap(c.NodeOf(rank) + n, c.nodes);
    MulAssociative(b, c.groupsPerNode, c.dpSize);
    RemShift(Mul(b, c.groupsPerNode), i, c.dpSize);
  }

  lemma OffStride(p: Plan, rank: nat, n: nat, i: nat, b: nat)
    requires p.Valid() && rank < p.c.worldSize && 0 < n < p.c.nodes && i < p.c.nodeSize && p.c.dpSize > 0
    requires i < Mul(b, p.c.dpSize) + p.c.DpRank(rank)
    requires b > 0 ==> i > Mul(b - 1, p.c.dpSize) + p.c.DpRank(rank)
    ensures RingPeer(p.c, rank, n, i) < p.c.worldSize && !Wanted(OverflowKind, p, rank, RingPeer(p.c, rank, n, i))
  {
    hide RingPeer;
    RingPeerTurn(p.c, rank, n, i);
    RingDpRank(p.c, rank, n, i);
    QuotRemParts(i, p.c.dpSize);
    if Rem(i, p.c.dpSize) == p.c.DpRank(rank) {
      MulOrder(Quot(i, p.c.dpSize), b, p.c.dpSize);
      if b > 0 {
        MulOrder(b - 1, Quot(i, p.c.dpSize), p.c.dpSize);
        MulMonotone(Quot(i, p.c.dpSize) + 1, b, p.c.dpSize);
      }
    }
  }

  /** A position with the right data-parallel index. */
  lemma OnStride(p: Plan, rank: nat, n: nat, i: nat, b: nat)
    requires p.Valid() && rank < p.c.worldSize && 0 < n < p.c.nodes && i < p.c.nodeSize && p.c.dpSize > 0
    requires i == Mul(b, p.c.dpSize) + p.c.DpRank(rank)
    ensures RingPeer(p.c, rank, n, i) < p.c.worldSize && p.c.GroupOf(rank) < p.c.groups
    ensures Wanted(OverflowKind, p, rank, RingPeer(p.c, rank, n, i))
            <==> p.Count(p.c.GroupOf(rank), RingPeer(p.c, rank, n, i)) > p.c.maxPrivate
  {
    hide RingPeer, Plan.Count;
    RankParts(p.c, rank);
    RingPeerTurn(p.c, rank, n, i);
    RingDpRank(p.c, rank, n, i);
    RemShift(b, p.c.DpRank(rank), p.c.dpSize);
    RemSmall(p.c.DpRank(rank), p.c.dpSize);
  }

  /** The entry as the worker computes it. */
  lemma OverflowEntry(p: Plan, rank: nat, dim: nat, q: nat)
    requires p.Valid() && rank < p.c.worldSize && q < p.c.worldSize && Wanted(OverflowKind, p, rank, q)
    requires p.c.dpSize > 0
    ensures p.c.GroupOf(rank) < p.c.groups && p.Count(p.c.GroupOf(rank), q) >= p.c.maxPrivate
    ensures var own, most := p.c.GroupOf(rank), p.c.maxPrivate;
            TargetFor(OverflowKind, p, rank, dim, q)
            == Target(q, Mul(dim, p.Count(own, q) - most), Mul(most + p.Start(own, q), dim),
                      Mul(Mul(most, p.c.groups) + p.Arrival(q, own), dim))
  {
    RankParts(p.c, rank);
    MulCommutes(dim, p.Count(p.c.GroupOf(rank), q) - p.c.maxPrivate);
    MulCommutes(p.c.maxPrivate, p.c.groups);
  }

  /** Handle position `i` of the `n`-th node. */
  method OverflowAt(p: Plan, rank: nat, dim: nat, s: Sends, list: seq<Target>, n: nat, i: nat, ghost b: nat)
    returns (list': seq<Target>)
    requires Listed(OverflowKind, p, rank, dim, list, n, i) && 0 < n < p.c.nodes && i < p.c.nodeSize
    requires p.c.dpSize > 0 && i == Mul(b, p.c.dpSize) + p.c.DpRank(rank)
    requires |s.toRank| == |s.dispatchSrc| == p.c.worldSize && p.c.GroupOf(rank) < p.c.groups
    requires forall r :: 0 <= r < p.c.worldSize ==>
               s.toRank[r] == p.Count(p.c.GroupOf(rank), r) && s.dispatchSrc[r] == p.Start(p.c.GroupOf(rank), r)
    ensures Listed(OverflowKind, p, rank, dim, list', n, i + 1)
  {
    hide *;
    ListedFacts(OverflowKind, p, rank, dim, list, n, i);
    ShapeFacts(p, rank);
    RingPeerIs(p.c, rank, n, i);
    OnStride(p, rank, n, i, b);
    var q := Rem(Mul(p.c.NodeOf(rank) + n, p.c.nodeSize) + i, p.c.worldSize);
    var numTokens := s.toRank[q];
    if numTokens <= p.c.maxPrivate {
      ListedSkip(OverflowKind, p, rank, dim, list, n, i);
      list' := list;
    } else {
      var before := ArrivalBefore(p, q, p.c.GroupOf(rank));
      OverflowEntry(p, rank, dim, q);
      ListedAdd(OverflowKind, p, rank, dim, list, n, i, q);
      list' := list + [Target(q, Mul(dim, numTokens - p.c.maxPrivate), Mul(p.c.maxPrivate + s.dispatchSrc[q], dim),
                              Mul(Mul(p.c.maxPrivate, p.c.groups) + before, dim))];
    }
  }

  /** The targets of the second scatter: ranks of other nodes with the same data-parallel
      index whose tokens do not fit the private buffer. */
  method OverflowTargets(p: Plan, rank: nat, dim: nat, s: Sends) returns (list: seq<Target>)
    requires p.Valid() && rank < p.c.worldSize && SendsTallied(p, p.c.GroupOf(rank), s, p.c.worldSize)
    ensures Lists(OverflowKind, p, rank, dim, list)
  {
    hide *;
    ShapeFacts(p, rank);
    TalliedFacts(p, p.c.GroupOf(rank), s);
    list := [];
    ListedStart(OverflowKind, p, rank, dim);
    for n := 1 to p.c.nodes
      invariant Listed(OverflowKind, p, rank, dim, list, n, 0)
    {
      list := OverflowNode(p, rank, dim, s, list, n);
    }
    ListedDone(OverflowKind, p, rank, dim, list);
  }

  method OverflowNode(p: Plan, rank: nat, dim: nat, s: Sends, list: seq<Target>, n: nat) returns (list': seq<Target>)
    requires p.c.dpSize > 0 && p.c.GroupOf(rank) < p.c.groups && 0 < n < p.c.nodes
    requires Listed(OverflowKind, p, rank, dim, list, n, 0)
    requires |s.toRank| == |s.dispatchSrc| == p.c.worldSize
    requires forall r :: 0 <= r < p.c.worldSize ==>
               s.toRank[r] == p.Count(p.c.GroupOf(rank), r) && s.dispatchSrc[r] == p.Start(p.c.GroupOf(rank), r)
    ensures Listed(OverflowKind, p, rank, dim, list', n + 1, 0)
  {
    hide *;
    list' := list;
    ListedFacts(OverflowKind, p, rank, dim, list, n, 0);
    ShapeFacts(p, rank);
    StrideStart(p.c, rank);
    var i := p.c.DpRank(rank);
    ghost var b, at := 0, i;
    SkipTo(p, rank, dim, list, n, 0, at, 0);
    while i < p.c.nodeSize
      invariant i == Mul(b, p.c.dpSize) + p.c.DpRank(rank)
      invariant at <= p.c.nodeSize && at <= i && (i < p.c.nodeSize ==> at == i) && (p.c.nodeSize <= i ==> at == p.c.nodeSize)
      invariant Listed(OverflowKind, p, rank, dim, list', n, at)
    {
      list' := OverflowAt(p, rank, dim, s, list', n, i, b);
      ghost var was := i;
      i := i + p.c.dpSize;
      b := b + 1;
      MulUnfold(b, p.c.dpSize);
      at := if i < p.c.nodeSize then i else p.c.nodeSize;
      SkipTo(p, rank, dim, list', n, was + 1, at, b);
    }
    ListedTurn(OverflowKind, p, rank, dim, list', n);
  }

  lemma StrideStart(c: Shape, rank: nat)
    requires c.Valid() && rank < c.worldSize && c.dpSize > 0
    ensures c.DpRank(rank) == Mul(0, c.dpSize) + c.DpRank(rank) < c.nodeSize
  {
    Sizes(c);
  }

  lemma TalliedFacts(p: Plan, own: nat, s: Sends)
    requires SendsTallied(p, own, s, p.c.worldSize)
    ensures |s.toRank| == |s.dispatchSrc| == p.c.worldSize
    ensures p.Valid() && own < p.c.groups
    ensures forall r :: 0 <= r < p.c.worldSize ==> s.toRank[r] == p.Count(own, r) && s.dispatchSrc[r] == p.Start(own, r)
  {
    hide Plan.Count, Plan.Start, Prefix, Shape.Lo;
  }

  /** The `d`-th rank of the `m`-th group of the `n`-th node. */
  lemma GroupRing(c: Shape, rank: nat, n: nat, m: nat, d: nat, i: nat)
    requires c.Valid() && rank < c.worldSize && 0 < n < c.nodes && m < c.groupsPerNode && d < c.dpSize
    requires i == Mul(m, c.dpSize) + d
    ensures c.groups > 0 && c.nodeSize > 0 && i < c.nodeSize
    ensures var g := Rem(Mul(c.NodeOf(rank) + n, c.groupsPerNode) + m, c.groups);
            && g < c.groups && Mul(g, c.dpSize) + d == RingPeer(c, rank, n, i) < c.worldSize
            && c.GroupOf(RingPeer(c, rank, n, i)) == g && c.NodeOf(RingPeer(c, rank, n, i)) != c.NodeOf(rank)
  {
    hide Quot, Rem, Shape.GroupOf, Wrap;
    Sizes(c);
    RankParts(c, rank);
    MulMonotone(m + 1, c.groupsPerNode, c.dpSize);
    var a := Wrap(c.NodeOf(rank) + n, c.nodes);
    WrapBlocks(c.NodeOf(rank) + n, c.nodes, c.groupsPerNode, m);
    MulAdd(Mul(a, c.groupsPerNode), m, c.dpSize);
    MulAssociative(a, c.groupsPerNode, c.dpSize);
    GroupMember(c, Rem(Mul(c.NodeOf(rank) + n, c.groupsPerNode) + m, c.groups), d);
    RingPeerTurn(c, rank, n, i);
  }

  lemma CombineEntry(p: Plan, rank: nat, dim: nat, q: nat, g: nat)
    requires p.Valid() && rank < p.c.worldSize && q < p.c.worldSize && g < p.c.groups
    requires p.c.nodeSize > 0 && p.c.dpSize > 0 && p.c.NodeOf(q) != p.c.NodeOf(rank) && p.c.GroupOf(q) == g
    ensures Wanted(CombineKind, p, rank, q)
    ensures TargetFor(CombineKind, p, rank, dim, q)
            == Target(q, Mul(dim, p.Count(g, rank)), Mul(p.Arrival(rank, g), dim), Mul(p.Start(g, rank), dim))
  {
    hide Plan.Arrival, Plan.Start, Plan.Count;
    MulCommutes(dim, p.Count(g, rank));
  }

  /** The targets of the combine scatter: every rank of every group of the other nodes gets
      the results for that group. */
  method CombineTargets(p: Plan, rank: nat, dim: nat, nets: nat, t: Arrivals) returns (list: seq<Target>)
    requires p.Valid() && rank < p.c.worldSize && ArrivalsTallied(p, rank, nets, t, p.c.groups)
    ensures Lists(CombineKind, p, rank, dim, list)
  {
    hide *;
    ShapeFacts(p, rank);
    list := [];
    ListedStart(CombineKind, p, rank, dim);
    for n := 1 to p.c.nodes
      invariant Listed(CombineKind, p, rank, dim, list, n, 0)
    {
      ghost var i := 0;
      MulUnfold(0, p.c.dpSize);
      for m := 0 to p.c.groupsPerNode
        invariant i == Mul(m, p.c.dpSize) && Listed(CombineKind, p, rank, dim, list, n, i)
      {
        list := CombineGroup(p, rank, dim, nets, t, list, n, m, i);
        i := i + p.c.dpSize;
        MulUnfold(m + 1, p.c.dpSize);
      }
      ListedTurn(CombineKind, p, rank, dim, list, n);
    }
    ListedDone(CombineKind, p, rank, dim, list);
  }

  method CombineGroup(p: Plan, rank: nat, dim: nat, nets: nat, t: Arrivals, list: seq<Target>, n: nat, m: nat, ghost base: nat)
    returns (list': seq<Target>)
    requires p.Valid() && rank < p.c.worldSize && ArrivalsTallied(p, rank, nets, t, p.c.groups)
    requires 0 < n < p.c.nodes && m < p.c.groupsPerNode && base == Mul(m, p.c.dpSize)
    requires Listed(CombineKind, p, rank, dim, list, n, base)
    ensures Listed(CombineKind, p, rank, dim, list', n, base + p.c.dpSize)
  {
    hide *;
    list' := list;
    ShapeFacts(p, rank);
    var g := Rem(Mul(p.c.NodeOf(rank) + n, p.c.groupsPerNode) + m, p.c.groups);
    for d := 0 to p.c.dpSize
      invariant Listed(CombineKind, p, rank, dim, list', n, base + d)
    {
      GroupRing(p.c, rank, n, m, d, base + d);
      var q := Mul(g, p.c.dpSize) + d;
      ArrivedFrom(p, rank, nets, t, g);
      CombineEntry(p, rank, dim, q, g);
      ListedAdd(CombineKind, p, rank, dim, list', n, base + d, q);
      list' := list' + [Target(q, Mul(dim, t.fromGroup[g]), Mul(t.srcGroupOffset[g], dim), Mul(t.dstGroupOffset[g], dim))];
    }
  }

  lemma ArrivedFrom(p: Plan, rank: nat, nets: nat, t: Arrivals, g: nat)
    requires ArrivalsTallied(p, rank, nets, t, p.c.groups) && g < p.c.groups
    ensures |t.fromGroup| == |t.srcGroupOffset| == |t.dstGroupOffset| == p.c.groups
    ensures t.fromGroup[g] == p.Count(g, rank) && t.srcGroupOffset[g] == p.Arrival(rank, g)
    ensures t.dstGroupOffset[g] == p.Start(g, rank)
  {
    hide Plan.Count, Plan.Start, Plan.Arrival;
    assert GroupTallied(p, rank, t, g);
  }

  /** The list copies byte `from` of the local buffer to byte `to` of the buffer of `q`. */
  predicate Moves(list: seq<Target>, q: nat, from: nat, to: nat) {
    exists m :: 0 <= m < |list| && list[m].peer == q && Carries(list[m], from, to)
  }

  predicate Carries(t: Target, from: nat, to: nat) {
    Inside(t, from) && Lands(t, from, to)
  }

  predicate Inside(t: Target, from: nat) {
    t.src <= from < t.src + t.length
  }

  predicate Lands(t: Target, from: nat, to: nat) {
    to + t.src == t.dst + from
  }

  /** The token copies of the delivery proofs. */
  ghost predicate Copies(kind: Kind, p: Plan, rank: nat, q: nat, a: nat, b: nat)
    requires p.Valid() && rank < p.c.worldSize && q < p.c.worldSize
  {
    match kind
    case PrivateKind => PrivateCopy(p, rank, q, a, b)
    case OverflowKind => OverflowCopy(p, rank, q, a, b)
    case CombineKind => CombineCopy(p, rank, q, a, b)
  }

  lemma MulBelow(a: nat, x: nat, n: nat, dim: nat)
    requires x < dim
    ensures Mul(a, dim) + x < Mul(n, dim) <==> a < n
  {
    if a < n {
      MulMonotone(a + 1, n, dim);
    } else {
      MulMonotone(n, a, dim);
    }
  }

  /** Where byte `x` of token `a` lands when tokens from `src` on move to `dst`. */
  lemma Shifted(dim: nat, src: nat, dst: nat, a: nat, x: nat)
    requires x < dim && src <= a
    ensures Mul(src, dim) <= Mul(a, dim) + x
    ensures Mul(dst, dim) + (Mul(a, dim) + x - Mul(src, dim)) == Mul(dst + (a - src), dim) + x
  {
    hide Mul;
    MulAdd(dst, a - src, dim);
    MulAdd(src, a - src, dim);
    MulMonotone(src, a, dim);
  }

  lemma DigitsAgree(b: nat, y: nat, c: nat, x: nat, dim: nat)
    requires x < dim && y < dim
    ensures Mul(b, dim) + y == Mul(c, dim) + x <==> b == c && y == x
  {
    if Mul(b, dim) + y == Mul(c, dim) + x {
      DigitsUnique(b, y, c, x, dim);
    }
  }

  /** `v` is the address of byte `x` of token `n`. */
  predicate ByteOf(v: nat, n: nat, x: nat, dim: nat) {
    v == Mul(n, dim) + x
  }

  lemma DestinationByte(t: Target, dim: nat, src: nat, dst: nat, a: nat, x: nat, b: nat, y: nat, c: nat,
                        from: nat, to: nat)
    requires x < dim && y < dim && src <= a && c == dst + (a - src) && ByteOf(t.src, src, 0, dim) && ByteOf(t.dst, dst, 0, dim)
    requires ByteOf(from, a, x, dim) && ByteOf(to, b, y, dim)
    ensures Lands(t, from, to) <==> b == c && x == y
  {
    hide Mul;
    Shifted(dim, src, dst, a, x);
    DigitsAgree(b, y, c, x, dim);
  }

  lemma SourceByte(t: Target, a: nat, x: nat, src: nat, len: nat, dim: nat, from: nat)
    requires x < dim && ByteOf(t.src, src, 0, dim) && ByteOf(t.length, len, 0, dim) && ByteOf(from, a, x, dim)
    ensures Inside(t, from) <==> src <= a < src + len
  {
    hide Mul;
    MulBelow(a, x, src, dim);
    MulAdd(src, len, dim);
    MulBelow(a, x, src + len, dim);
  }

  /** Byte `x` of token `a` goes to byte `y` of token `b` just when the tokens correspond and
      the bytes are the same. */
  lemma TokenBytes(t: Target, dim: nat, len: nat, src: nat, dst: nat, a: nat, x: nat, b: nat, y: nat, from: nat, to: nat)
    requires x < dim && y < dim && ByteOf(from, a, x, dim) && ByteOf(to, b, y, dim)
    requires ByteOf(t.length, len, 0, dim) && ByteOf(t.src, src, 0, dim) && ByteOf(t.dst, dst, 0, dim)
    ensures Carries(t, from, to) <==> src <= a < src + len && b == dst + (a - src) && x == y
  {
    hide ByteOf, Inside, Lands;
    SourceByte(t, a, x, src, len, dim, from);
    if src <= a < src + len {
      DestinationByte(t, dim, src, dst, a, x, b, y, dst + (a - src), from, to);
    }
  }

  lemma TargetCarries(kind: Kind, p: Plan, rank: nat, dim: nat, q: nat, a: nat, x: nat, b: nat, y: nat)
    requires p.Valid() && rank < p.c.worldSize && q < p.c.worldSize && Wanted(kind, p, rank, q) && x < dim && y < dim
    ensures Carries(TargetFor(kind, p, rank, dim, q), Mul(a, dim) + x, Mul(b, dim) + y)
            <==> Copies(kind, p, rank, q, a, b) && x == y
  {
    hide Mul, Plan.Count, Plan.Start, Plan.Arrival, Min, Carries;
    RankParts(p.c, rank);
    RankParts(p.c, q);
    var own, g, most := p.c.GroupOf(rank), p.c.GroupOf(q), p.c.maxPrivate;
    var t, from, to := TargetFor(kind, p, rank, dim, q), Mul(a, dim) + x, Mul(b, dim) + y;
    match kind
    case PrivateKind =>
      TokenBytes(t, dim, Min(p.Count(own, q), most), p.Start(own, q), Mul(own, most), a, x, b, y, from, to);
    case OverflowKind =>
      TokenBytes(t, dim, p.Count(own, q) - most, most + p.Start(own, q), Mul(p.c.groups, most) + p.Arrival(q, own),
                 a, x, b, y, from, to);
    case CombineKind =>
      TokenBytes(t, dim, p.Count(g, rank), p.Arrival(rank, g), p.Start(g, rank), a, x, b, y, from, to);
  }

  /** A rank that is not on the list gets no copy. */
  lemma NothingToCopy(kind: Kind, p: Plan, rank: nat, q: nat, a: nat, b: nat)
    requires p.Valid() && rank < p.c.worldSize && q < p.c.worldSize && Copies(kind, p, rank, q, a, b)
    ensures Wanted(kind, p, rank, q)
  {
    hide Plan.Count, Plan.Start, Plan.Arrival, Mul;
    RankParts(p.c, rank);
  }

  /** The scatter lists are exactly the token copies: byte for byte, for every peer. */
  lemma ListMoves(kind: Kind, p: Plan, rank: nat, dim: nat, list: seq<Target>, q: nat, a: nat, x: nat, b: nat, y: nat)
    requires Lists(kind, p, rank, dim, list) && q < p.c.worldSize && x < dim && y < dim
    ensures Moves(list, q, Mul(a, dim) + x, Mul(b, dim) + y) <==> Copies(kind, p, rank, q, a, b) && x == y
  {
    hide Wanted, TargetFor, Copies, Carries, Mul, Distinct;
    if Moves(list, q, Mul(a, dim) + x, Mul(b, dim) + y) {
      TargetCarries(kind, p, rank, dim, q, a, x, b, y);
    }
    if Copies(kind, p, rank, q, a, b) && x == y {
      NothingToCopy(kind, p, rank, q, a, b);
      TargetCarries(kind, p, rank, dim, q, a, x, b, y);
      var m :| 0 <= m < |list| && list[m].peer == q;
    }
  }

  /** How a scatter is spread over the network domains of a device. */
  function Spread(kind: Kind): Splitting.GroupRouting {
    if kind.PrivateKind? then Splitting.ShardPeers else Splitting.ShardBytes
  }

  /** Ranks below `n` that are due something. */
  function Due(kind: Kind, p: Plan, rank: nat, n: nat): nat
    requires p.Valid() && rank < p.c.worldSize && n <= p.c.worldSize
  {
    if n == 0 then 0 else Due(kind, p, rank, n - 1) + if Wanted(kind, p, rank, n - 1) then 1 else 0
  }

  lemma {:induction false} DueGrows(kind: Kind, p: Plan, rank: nat, m: nat, n: nat)
    requires p.Valid() && rank < p.c.worldSize && m <= n <= p.c.worldSize
    ensures Due(kind, p, rank, m) <= Due(kind, p, rank, n)
    decreases n
  {
    hide Wanted;
    if m < n {
      DueGrows(kind, p, rank, m, n - 1);
    }
  }

  /** Immediates that rank `r`'s scatter raises at `q`, with the targets in rank order; by
      `ListImms` their order does not matter. */
  function ScatterLoad(kind: Kind, p: Plan, r: nat, q: nat, nets: nat): nat
    requires p.Valid() && r < p.c.worldSize && q < p.c.worldSize && nets > 0
  {
    if Wanted(kind, p, r, q)
    then Splitting.ImmsAt(Splitting.ScatterWrites(Spread(kind), Due(kind, p, r, p.c.worldSize), nets), Due(kind, p, r, q))
    else 0
  }

  lemma ScatterLoadIs(kind: Kind, p: Plan, r: nat, q: nat, nets: nat)
    requires p.Valid() && r < p.c.worldSize && q < p.c.worldSize && nets > 0
    ensures ScatterLoad(kind, p, r, q, nets) == if !Wanted(kind, p, r, q) then 0 else if kind.PrivateKind? then 1 else nets
  {
    hide Wanted, Splitting.ImmsAt, Splitting.ScatterWrites;
    if Wanted(kind, p, r, q) {
      DueGrows(kind, p, r, q + 1, p.c.worldSize);
      Splitting.ScatterImms(Spread(kind), Due(kind, p, r, p.c.worldSize), nets, Due(kind, p, r, q));
    }
  }

  /** The worker's own lists raise just these immediates, wherever a rank stands in them. */
  lemma ListImms(kind: Kind, p: Plan, rank: nat, dim: nat, list: seq<Target>, m: nat, nets: nat)
    requires Lists(kind, p, rank, dim, list) && m < |list| && nets > 0
    ensures list[m].peer < p.c.worldSize
    ensures Splitting.ImmsAt(Splitting.ScatterWrites(Spread(kind), |list|, nets), m)
            == ScatterLoad(kind, p, rank, list[m].peer, nets)
  {
    hide Wanted, TargetFor, Distinct, HasPeer, Splitting.ImmsAt, Splitting.ScatterWrites, ScatterLoad;
    ScatterLoadIs(kind, p, rank, list[m].peer, nets);
    Splitting.ScatterImms(Spread(kind), |list|, nets, m);
  }

  /** Immediates that rank `r`'s dispatch scatters raise at `q`. */
  function ImmsFrom(p: Plan, r: nat, q: nat, nets: nat): nat
    requires p.Valid() && r < p.c.worldSize && q < p.c.worldSize && nets > 0
  {
    ScatterLoad(PrivateKind, p, r, q, nets) + ScatterLoad(OverflowKind, p, r, q, nets)
  }

  /** Immediates raised at `q` by the ranks below `n`. */
  function ImmsBelow(p: Plan, q: nat, nets: nat, n: nat): nat
    requires p.Valid() && nets > 0 && q < p.c.worldSize && n <= p.c.worldSize
  {
    if n == 0 then 0 else ImmsBelow(p, q, nets, n - 1) + ImmsFrom(p, n - 1, q, nets)
  }

  /** Groups before `g` that are on another node than `q`. */
  function RemoteBelow(p: Plan, q: nat, g: nat): nat
    requires p.Valid() && q < p.c.worldSize && g <= p.c.groups
  {
    Sizes(p.c);
    if g == 0 then 0 else RemoteBelow(p, q, g - 1) + (if p.c.GroupNode(g - 1) == p.c.NodeOf(q) then 0 else 1)
  }

  lemma ImmsFromMember(p: Plan, q: nat, nets: nat, g: nat, d: nat, r: nat)
    requires p.Valid() && nets > 0 && q < p.c.worldSize && g < p.c.groups && d < p.c.dpSize && r == Mul(g, p.c.dpSize) + d
    ensures r < p.c.worldSize && p.c.nodeSize > 0
    ensures ImmsFrom(p, r, q, nets)
            == if p.c.GroupNode(g) == p.c.NodeOf(q) then 0
               else if d == p.c.DpRank(q) && p.Count(g, q) > p.c.maxPrivate then 1 + nets else 1
  {
    hide Plan.Count, Mul, Quot, Rem, ScatterLoad;
    Sizes(p.c);
    GroupMember(p.c, g, d);
    ScatterLoadIs(PrivateKind, p, r, q, nets);
    ScatterLoadIs(OverflowKind, p, r, q, nets);
  }

  /** One group's immediates: only the member with the receiver's index may overflow. */
  lemma {:induction false} ImmsFromGroup(p: Plan, q: nat, nets: nat, g: nat, n: nat, at: nat)
    requires p.Valid() && nets > 0 && q < p.c.worldSize && g < p.c.groups && n <= p.c.dpSize && at == Mul(g, p.c.dpSize) + n
    ensures Mul(g, p.c.dpSize) <= at <= p.c.worldSize && p.c.nodeSize > 0
    ensures ImmsBelow(p, q, nets, at) == ImmsBelow(p, q, nets, Mul(g, p.c.dpSize))
            + if p.c.GroupNode(g) == p.c.NodeOf(q) then 0
              else n + if p.c.DpRank(q) < n && p.Count(g, q) > p.c.maxPrivate then nets else 0
    decreases n
  {
    hide Plan.Count, Mul, Quot, Rem, ImmsFrom;
    Sizes(p.c);
    MulMonotone(g + 1, p.c.groups, p.c.dpSize);
    MulUnfold(g + 1, p.c.dpSize);
    if n > 0 {
      ImmsFromGroup(p, q, nets, g, n - 1, at - 1);
      ImmsFromMember(p, q, nets, g, n - 1, at - 1);
    }
  }

  lemma {:induction false} ImmsBelowGroups(p: Plan, q: nat, nets: nat, g: nat)
    requires p.Valid() && nets > 0 && q < p.c.worldSize && g <= p.c.groups && p.c.dpSize > 0
    ensures Mul(g, p.c.dpSize) <= p.c.worldSize
    ensures ImmsBelow(p, q, nets, Mul(g, p.c.dpSize))
            == ExpectedTx(p, q, nets, g) + Mul(RemoteBelow(p, q, g), p.c.dpSize - 1)
  {
    hide Plan.Count, Quot, Rem, ImmsFrom;
    Sizes(p.c);
    MulMonotone(g, p.c.groups, p.c.dpSize);
    if g > 0 {
      ImmsBelowGroups(p, q, nets, g - 1);
      MulUnfold(g, p.c.dpSize);
      ImmsFromGroup(p, q, nets, g - 1, p.c.dpSize, Mul(g, p.c.dpSize));
      RankParts(p.c, q);
    }
  }

  /** What arrives against what the worker waits for: the private scatters of a group come
      from all its ranks, but the wait counts one per group. */
  lemma ImmsAgainstWait(p: Plan, q: nat, nets: nat)
    requires p.Valid() && nets > 0 && q < p.c.worldSize && p.c.dpSize > 0
    ensures ImmsBelow(p, q, nets, p.c.worldSize)
            == ExpectedTx(p, q, nets, p.c.groups) + Mul(RemoteBelow(p, q, p.c.groups), p.c.dpSize - 1)
  {
    Sizes(p.c);
    ImmsBelowGroups(p, q, nets, p.c.groups);
  }

  lemma {:induction false} RemoteGroups(p: Plan, q: nat, n: nat, i: nat, at: nat)
    requires p.Valid() && q < p.c.worldSize && p.c.nodeSize > 0 && n < p.c.nodes && i <= p.c.groupsPerNode
    requires at == Mul(n, p.c.groupsPerNode) + i <= p.c.groups
    ensures RemoteBelow(p, q, at)
            == if n < p.c.NodeOf(q) then at
               else if n == p.c.NodeOf(q) then Mul(n, p.c.groupsPerNode) else at - p.c.groupsPerNode
    decreases n, i
  {
    hide Shape.NodeOf, Quot, Rem;
    RankParts(p.c, q);
    if i > 0 {
      RemoteGroups(p, q, n, i - 1, at - 1);
      QuotRem(n, i - 1, p.c.groupsPerNode);
    } else if n > 0 {
      RemoteGroups(p, q, n - 1, p.c.groupsPerNode, at);
    }
  }

  /** The wait count is right for every run just when groups are single ranks or there is
      only one node. */
  lemma WaitCountExact(p: Plan, q: nat, nets: nat)
    requires p.Valid() && nets > 0 && q < p.c.worldSize && p.c.dpSize > 0
    ensures ImmsBelow(p, q, nets, p.c.worldSize) == ExpectedTx(p, q, nets, p.c.groups)
            <==> p.c.dpSize == 1 || p.c.nodes == 1
  {
    hide ImmsBelow, ExpectedTx, RemoteBelow, Quot, Rem;
    Sizes(p.c);
    RankParts(p.c, q);
    ImmsAgainstWait(p, q, nets);
    MulUnfold(p.c.nodes, p.c.groupsPerNode);
    RemoteGroups(p, q, p.c.nodes - 1, p.c.groupsPerNode, p.c.groups);
    var remote := RemoteBelow(p, q, p.c.groups);
    MulAgrees(remote, p.c.dpSize - 1);
    MulZeroOnly(remote, p.c.dpSize - 1);
    if p.c.nodes > 1 {
      MulMonotone(1, p.c.nodes - 1, p.c.groupsPerNode);
    }
  }
}
