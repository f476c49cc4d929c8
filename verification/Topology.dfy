/** Ranks, data-parallel groups and nodes, the experts of each rank, and the order in
    which a rank visits the groups it receives tokens from. */
module Topology {
  import opened Arith
  import opened Sums

  datatype Shape = Shape(
    worldSize: nat,
    nodeSize: nat,
    dpSize: nat,
    nodes: nat,
    groupsPerNode: nat,
    groups: nat,
    numExperts: nat,
    expertsPerRank: nat,
    maxPrivate: nat,
    padding: nat)
  {
    /** Groups tile nodes, nodes tile the world, and every rank owns a well-formed
        (possibly empty) range of experts. */
    predicate Valid() {
      && nodes > 0 && groupsPerNode > 0 && dpSize > 0
      && numExperts > 0 && expertsPerRank > 0 && padding > 0
      && nodeSize == Mul(groupsPerNode, dpSize)
      && worldSize == Mul(nodes, nodeSize) > 0
      && groups == Mul(nodes, groupsPerNode)
      && Mul(worldSize - 1, expertsPerRank) <= numExperts <= Mul(worldSize, expertsPerRank)
    }

    function NodeOf(rank: nat): nat
      requires nodeSize > 0
    {
      Quot(rank, nodeSize)
    }

    function GroupOf(rank: nat): nat
      requires dpSize > 0
    {
      Quot(rank, dpSize)
    }

    function DpRank(rank: nat): nat
      requires dpSize > 0
    {
      Rem(rank, dpSize)
    }

    function GroupNode(group: nat): nat
      requires groupsPerNode > 0
    {
      Quot(group, groupsPerNode)
    }

    function OwnerOf(expert: nat): nat
      requires expertsPerRank > 0
    {
      Quot(expert, expertsPerRank)
    }

    /** First expert of `rank`; `Lo(rank + 1)` is one past its last expert. */
    function Lo(rank: nat): nat {
      Min(Mul(rank, expertsPerRank), numExperts)
    }
  }

  /** The shape the worker derives from its launch parameters. */
  function MakeShape(worldSize: nat, nodeSize: nat, dpSize: nat, numExperts: nat, maxPrivate: nat, padding: nat): Shape
    requires worldSize > 0 && nodeSize > 0 && dpSize > 0
  {
    Shape(worldSize, nodeSize, dpSize, Quot(worldSize, nodeSize), Quot(nodeSize, dpSize), Quot(worldSize, dpSize),
          numExperts, CeilQuot(numExperts, worldSize), maxPrivate, padding)
  }

  /** The launch parameters make a valid shape exactly when group, node and world sizes
      divide each other and the last rank does not start past the last expert. When the
      final conjunct fails, the worker's `last - first` local-expert count underflows. */
  lemma MakeShapeValid(worldSize: nat, nodeSize: nat, dpSize: nat, numExperts: nat, maxPrivate: nat, padding: nat)
    requires worldSize > 0 && nodeSize > 0 && dpSize > 0 && numExperts > 0 && padding > 0
    ensures MakeShape(worldSize, nodeSize, dpSize, numExperts, maxPrivate, padding).Valid()
            <==> Rem(nodeSize, dpSize) == 0 && Rem(worldSize, nodeSize) == 0
                 && Mul(worldSize - 1, CeilQuot(numExperts, worldSize)) <= numExperts
  {
    var n, m, e := Quot(worldSize, nodeSize), Quot(nodeSize, dpSize), CeilQuot(numExperts, worldSize);
    QuotRemParts(worldSize, nodeSize);
    QuotRemParts(nodeSize, dpSize);
    assert 0 < e && numExperts <= Mul(worldSize, e) by {
      RoundUpBounds(numExperts, worldSize);
      MulCommutes(e, worldSize);
    }
    if Rem(nodeSize, dpSize) == 0 && Rem(worldSize, nodeSize) == 0 {
      assert Quot(worldSize, dpSize) == Mul(n, m) by {
        MulAssociative(n, m, dpSize);
        QuotRem(Mul(n, m), 0, dpSize);
      }
    }
  }

  /** Five experts over four ranks: rank 3 would start at expert 6. */
  lemma UnevenExpertsFail(maxPrivate: nat)
    ensures !MakeShape(4, 2, 1, 5, maxPrivate, 1).Valid()
    ensures Rem(2, 1) == 0 && Rem(4, 2) == 0
  {
    MakeShapeValid(4, 2, 1, 5, maxPrivate, 1);
    QuotRem(2, 0, 4);
    QuotRem(2, 0, 2);
    QuotRem(2, 0, 1);
    MulAgrees(2, 4);
    MulAgrees(2, 2);
    MulAgrees(2, 1);
    MulAgrees(3, 2);
  }

  lemma Sizes(c: Shape)
    requires c.Valid()
    ensures c.worldSize == Mul(c.groups, c.dpSize)
    ensures c.worldSize > 0 && c.nodeSize > 0 && c.groups > 0
    ensures c.dpSize <= c.nodeSize <= c.worldSize && c.groupsPerNode <= c.groups
  {
    MulAssociative(c.nodes, c.groupsPerNode, c.dpSize);
    MulMonotone(1, c.groupsPerNode, c.dpSize);
    MulMonotone(1, c.nodes, c.nodeSize);
    MulMonotone(1, c.nodes, c.groupsPerNode);
  }

  lemma GroupMember(c: Shape, g: nat, d: nat)
    requires c.Valid() && g < c.groups && d < c.dpSize
    ensures c.nodeSize > 0
    ensures Mul(g, c.dpSize) + d < c.worldSize
    ensures c.GroupOf(Mul(g, c.dpSize) + d) == g
    ensures c.DpRank(Mul(g, c.dpSize) + d) == d
    ensures c.NodeOf(Mul(g, c.dpSize) + d) == c.GroupNode(g) < c.nodes
  {
    Sizes(c);
    QuotRem(g, d, c.dpSize);
    MulMonotone(g + 1, c.groups, c.dpSize);
    NestedQuot(g, d, c.dpSize, c.groupsPerNode);
    QuotBound(g, c.nodes, c.groupsPerNode);
  }

  /** Every rank is one member of exactly one group, and groups do not straddle nodes. */
  lemma RankParts(c: Shape, rank: nat)
    requires c.Valid() && rank < c.worldSize
    ensures c.nodeSize > 0
    ensures rank == Mul(c.GroupOf(rank), c.dpSize) + c.DpRank(rank)
    ensures c.GroupOf(rank) < c.groups
    ensures c.NodeOf(rank) == c.GroupNode(c.GroupOf(rank)) < c.nodes
  {
    Sizes(c);
    QuotRemParts(rank, c.dpSize);
    QuotBound(rank, c.groups, c.dpSize);
    GroupMember(c, c.GroupOf(rank), c.DpRank(rank));
  }

  /** Turn `b` of a rank's visit goes to this node: first the next node around the ring,
      finally (turn `nodes - 1`) the rank's own. */
  function VisitNode(c: Shape, rank: nat, b: nat): nat
    requires c.Valid() && rank < c.worldSize && b < c.nodes
  {
    RankParts(c, rank);
    Wrap(c.NodeOf(rank) + b + 1, c.nodes)
  }

  /** Within a turn, groups are visited in order, except on the own node, where the visit
      starts after the own group and ends with it. */
  function VisitLocal(c: Shape, rank: nat, b: nat, j: nat): nat
    requires c.Valid() && b < c.nodes && j < c.groupsPerNode
  {
    if b < c.nodes - 1 then j else Wrap(Rem(c.GroupOf(rank), c.groupsPerNode) + j + 1, c.groupsPerNode)
  }

  /** The `k`-th group visited by `rank`: the groups of the other nodes, node by node
      starting with the next one; then the other groups of this node; then its own. */
  function OrderAt(c: Shape, rank: nat, k: nat): nat
    requires c.Valid() && rank < c.worldSize && k < c.groups
  {
    QuotBound(k, c.nodes, c.groupsPerNode);
    var b, j := Quot(k, c.groupsPerNode), Rem(k, c.groupsPerNode);
    Mul(VisitNode(c, rank, b), c.groupsPerNode) + VisitLocal(c, rank, b, j)
  }

  /** Position `j` of turn `b`, as the worker's nested loops enumerate it. */
  lemma OrderAtTurn(c: Shape, rank: nat, b: nat, j: nat)
    requires c.Valid() && rank < c.worldSize && b < c.nodes && j < c.groupsPerNode
    ensures Mul(b, c.groupsPerNode) + j < c.groups
    ensures OrderAt(c, rank, Mul(b, c.groupsPerNode) + j)
            == Mul(VisitNode(c, rank, b), c.groupsPerNode) + VisitLocal(c, rank, b, j)
  {
    QuotRem(b, j, c.groupsPerNode);
    MulMonotone(b + 1, c.nodes, c.groupsPerNode);
  }

  function TurnOf(c: Shape, rank: nat, g: nat): (b: nat)
    requires c.Valid() && rank < c.worldSize && g < c.groups
    ensures b < c.nodes && VisitNode(c, rank, b) == c.GroupNode(g)
    ensures b < c.nodes - 1 <==> c.GroupNode(g) != c.NodeOf(rank)
  {
    RankParts(c, rank);
    QuotBound(g, c.nodes, c.groupsPerNode);
    Wrap(c.GroupNode(g) + c.nodes - c.NodeOf(rank) - 1, c.nodes)
  }

  function PlaceInTurn(c: Shape, rank: nat, g: nat): (j: nat)
    requires c.Valid() && rank < c.worldSize && g < c.groups
    ensures j < c.groupsPerNode
    ensures VisitLocal(c, rank, TurnOf(c, rank, g), j) == Rem(g, c.groupsPerNode)
  {
    var m := c.groupsPerNode;
    if TurnOf(c, rank, g) < c.nodes - 1 then Rem(g, m)
    else Wrap(Rem(g, m) + m - Rem(c.GroupOf(rank), m) - 1, m)
  }

  /** The time at which `rank` visits group `g`. */
  function OrderIndex(c: Shape, rank: nat, g: nat): (k: nat)
    requires c.Valid() && rank < c.worldSize && g < c.groups
  {
    Mul(TurnOf(c, rank, g), c.groupsPerNode) + PlaceInTurn(c, rank, g)
  }

  lemma OrderAtIndex(c: Shape, rank: nat, g: nat)
    requires c.Valid() && rank < c.worldSize && g < c.groups
    ensures c.nodeSize > 0
    ensures OrderIndex(c, rank, g) < c.groups
    ensures OrderAt(c, rank, OrderIndex(c, rank, g)) == g
    ensures Quot(OrderIndex(c, rank, g), c.groupsPerNode) < c.nodes - 1 <==> c.GroupNode(g) != c.NodeOf(rank)
  {
    Sizes(c);
    OrderAtTurn(c, rank, TurnOf(c, rank, g), PlaceInTurn(c, rank, g));
    QuotRem(TurnOf(c, rank, g), PlaceInTurn(c, rank, g), c.groupsPerNode);
    QuotRemParts(g, c.groupsPerNode);
  }

  lemma OrderIndexAt(c: Shape, rank: nat, k: nat)
    requires c.Valid() && rank < c.worldSize && k < c.groups
    ensures OrderAt(c, rank, k) < c.groups
    ensures OrderIndex(c, rank, OrderAt(c, rank, k)) == k
  {
    RankParts(c, rank);
    var m := c.groupsPerNode;
    QuotBound(k, c.nodes, m);
    QuotRemParts(k, m);
    var a, j := VisitNode(c, rank, Quot(k, m)), VisitLocal(c, rank, Quot(k, m), Rem(k, m));
    QuotRem(a, j, m);
    MulMonotone(a + 1, c.nodes, m);
    assert TurnOf(c, rank, OrderAt(c, rank, k)) == Quot(k, m);
  }

  /** The whole visiting order of a rank. */
  ghost function Order(c: Shape, rank: nat): (o: seq<nat>)
    requires c.Valid() && rank < c.worldSize
    ensures |o| == c.groups
    ensures forall k :: 0 <= k < |o| ==> o[k] == OrderAt(c, rank, k)
  {
    seq(c.groups, k requires 0 <= k < c.groups => OrderAt(c, rank, k))
  }

  /** Ranks of different nodes are never at the same node in the same turn, and every rank begins with
      the node after its own. */
  lemma Staggered(c: Shape, rank: nat, other: nat, k: nat)
    requires c.Valid() && rank < c.worldSize && other < c.worldSize && k < c.groups
    ensures c.nodeSize > 0
    ensures c.NodeOf(rank) != c.NodeOf(other) ==> c.GroupNode(Order(c, rank)[k]) != c.GroupNode(Order(c, other)[k])
    ensures k < c.groupsPerNode && c.nodes > 1 ==>
              c.GroupNode(Order(c, rank)[k]) == if c.NodeOf(rank) + 1 == c.nodes then 0 else c.NodeOf(rank) + 1
  {
    hide Mul, Quot, Rem;
    OrderNode(c, rank, k);
    OrderNode(c, other, k);
    QuotOrder(k, 1, c.groupsPerNode);
    MulUnfold(1, c.groupsPerNode);
  }

  lemma OrderNode(c: Shape, rank: nat, k: nat)
    requires c.Valid() && rank < c.worldSize && k < c.groups
    ensures c.nodeSize > 0 && Quot(k, c.groupsPerNode) < c.nodes && c.NodeOf(rank) < c.nodes
    ensures c.GroupNode(Order(c, rank)[k]) == Wrap(c.NodeOf(rank) + 1 + Quot(k, c.groupsPerNode), c.nodes)
  {
    hide Mul, Quot, Rem;
    RankParts(c, rank);
    QuotBound(k, c.nodes, c.groupsPerNode);
    var b, j := Quot(k, c.groupsPerNode), Rem(k, c.groupsPerNode);
    QuotRem(VisitNode(c, rank, b), VisitLocal(c, rank, b, j), c.groupsPerNode);
  }

  /** The visiting order meets every group exactly once, all off-node groups before any
      group of this node, and the rank's own group last. */
  lemma OrderIsPermutation(c: Shape, rank: nat)
    requires c.Valid() && rank < c.worldSize
    ensures c.nodeSize > 0 && c.groups > 0
    ensures IsPermutation(Order(c, rank))
    ensures forall k :: 0 <= k < c.groups ==>
              (Quot(k, c.groupsPerNode) < c.nodes - 1 <==> c.GroupNode(Order(c, rank)[k]) != c.NodeOf(rank))
    ensures Order(c, rank)[c.groups - 1] == c.GroupOf(rank)
  {
    Sizes(c);
    var o := Order(c, rank);
    forall k | 0 <= k < |o|
      ensures o[k] < |o| && OrderIndex(c, rank, o[k]) == k
      ensures Quot(k, c.groupsPerNode) < c.nodes - 1 <==> c.GroupNode(o[k]) != c.NodeOf(rank)
    {
      OrderIndexAt(c, rank, k);
      OrderAtIndex(c, rank, o[k]);
    }
    forall v: nat | v < |o| ensures v in o {
      OrderAtIndex(c, rank, v);
      assert o[OrderIndex(c, rank, v)] == v;
    }
    OwnGroupLast(c, rank);
  }

  lemma OwnGroupLast(c: Shape, rank: nat)
    requires c.Valid() && rank < c.worldSize
    ensures c.groups > 0 && OrderAt(c, rank, c.groups - 1) == c.GroupOf(rank)
  {
    Sizes(c);
    RankParts(c, rank);
    var m := c.groupsPerNode;
    QuotRemParts(c.GroupOf(rank), m);
    QuotRem(c.nodes - 1, m - 1, m);
  }

  /** Rank boundaries in expert order. */
  lemma LoFacts(c: Shape, rank: nat)
    requires c.Valid() && rank < c.worldSize
    ensures c.Lo(rank) == Mul(rank, c.expertsPerRank) <= c.Lo(rank + 1) <= c.numExperts
    ensures c.Lo(rank + 1) == Min(c.Lo(rank) + c.expertsPerRank, c.numExperts)
  {
    MulMonotone(rank, c.worldSize - 1, c.expertsPerRank);
  }

  lemma LoMonotone(c: Shape, a: nat, b: nat)
    requires a <= b
    ensures c.Lo(a) <= c.Lo(b) <= c.numExperts
  {
    MulMonotone(a, b, c.expertsPerRank);
  }

  /** The experts owned by a rank are exactly those in its range. */
  lemma OwnerRange(c: Shape, e: nat)
    requires c.Valid() && e < c.numExperts
    ensures c.OwnerOf(e) < c.worldSize
    ensures c.Lo(c.OwnerOf(e)) <= e < c.Lo(c.OwnerOf(e) + 1)
  {
    QuotRemParts(e, c.expertsPerRank);
    QuotBound(e, c.worldSize, c.expertsPerRank);
    LoFacts(c, c.OwnerOf(e));
  }
}
