/** The kernels see only the vectors that the worker wrote. Driven by those vectors, the receive
    and combine kernels do exactly what the delivery proofs assume of them. */
module Vectors {
  import opened Arith
  import opened Sums
  import opened Topology
  import opened Placement
  import opened Dispatch
  import opened RoundTrip
  import opened RoutingRows
  import opened RoutingPass

  /** Rank `q` of the job, with what the routing step establishes about it. */
  ghost predicate At<T>(job: Job<T>, q: nat) {
    && job.Valid() && job.p.Valid() && q < job.p.c.worldSize && Visiting(job.p, q, Order(job.p.c, q))
    && job.p.c.nodes > 0 && job.p.c.nodeSize > 0 && job.p.c.groupsPerNode > 0 && job.p.c.dpSize > 0
    && Mul(job.p.c.nodes - 1, job.p.c.groupsPerNode) <= job.p.c.groups
  }

  lemma AtAny<T>(job: Job<T>, q: nat)
    requires job.Valid() && q < job.p.c.worldSize
    ensures At(job, q)
  {
    hide Visiting, Order;
    PassFacts(job.p, q);
    Sizes(job.p.c);
  }

  /** The vectors of rank `q`, row by row. */
  ghost function Rows<T>(job: Job<T>, q: nat): seq<RowVal>
    requires At(job, q)
  {
    AllRows(job.p, q, Order(job.p.c, q), job.p.c.groups)
  }

  /** Where the receive kernel reads for row `at`. */
  ghost function Source<T>(job: Job<T>, q: nat, at: nat): Loc
    requires At(job, q) && at < |Rows(job, q)|
  {
    var row := Rows(job, q)[at];
    Decode(job.p.c, q, at < RemoteRows(job.p, q), row.sourceRank, row.sourceOffset)
  }

  /** The receive kernel copies `v` to output slot `slot` on account of row `at`. */
  ghost predicate ReadRow<T>(job: Job<T>, q: nat, at: nat, slot: nat, v: T)
    requires At(job, q) && at < |Rows(job, q)|
  {
    var from := Source(job, q, at);
    Rows(job, q)[at].padded == slot && from.rank < job.p.c.worldSize && job.Holds(from, v)
  }

  /** The row of a token in the vectors: what it says and where it leads. */
  ghost predicate Means<T>(job: Job<T>, q: nat, k: nat, e: nat, j: nat, at: nat)
    requires At(job, q) && Row(job.p, q, k, e, j)
  {
    var g, index := RowGroup(job.p, q, k), RowIndex(job.p, q, k, e, j);
    && at < |Rows(job, q)|
    && Rows(job, q)[at] == RowWith(job.p, q, g, index, RowSlot(job.p, q, k, e, j))
    && Source(job, q, at) == Fetch(job.p, q, g, index)
    && (at < RemoteRows(job.p, q) <==> job.p.c.GroupNode(g) != job.p.c.NodeOf(q))
  }

  lemma RowMeans<T>(job: Job<T>, q: nat, k: nat, e: nat, j: nat, at: nat)
    requires At(job, q) && Row(job.p, q, k, e, j) && at == RowNumber(job.p, q, k, e, j)
    ensures Means(job, q, k, e, j, at)
  {
    hide Job.Valid, Visiting, Order, OrderAt, Row, AllRows, RowOf, RowWith, Decode, Fetch, RemoteRows, Gather, Prefix, RowIndex,
         RowGroup, RowSlot, IndexBefore;
    var p, o := job.p, Order(job.p.c, q);
    PairRow(p, q, k, e, j);
    var index := RowIndex(p, q, k, e, j);
    RowInAll(p, q, o, k, e, j, p.c.groups, index, at);
    RowFetch(p, q, k, e, j, index, at);
    RemoteSplit(p, q, o, k, index, at);
  }

  /** Number of the row in the vectors. */
  ghost function RowNumber(p: Plan, q: nat, k: nat, e: nat, j: nat): nat
    requires Row(p, q, k, e, j)
  {
    Prefix(Gather(p.Counts(q), Order(p.c, q)), k) + RowIndex(p, q, k, e, j)
  }

  /** Every row of the vectors is the row of a token. */
  lemma RowOrigin<T>(job: Job<T>, q: nat, at: nat) returns (k: nat, e: nat, j: nat)
    requires At(job, q) && at < |Rows(job, q)|
    ensures Row(job.p, q, k, e, j) && at == RowNumber(job.p, q, k, e, j)
  {
    hide Job.Valid, OrderAt, Order, AllRows, RowOf, Gather, Prefix;
    var o := Order(job.p.c, q);
    var i;
    k, e, j, i := RowFrom(job.p, q, o, at);
    assert Row(job.p, q, k, e, j);
    PairRow(job.p, q, k, e, j);
  }

  /** The receive kernel, reading through the vectors, fills the output slots with exactly the
      values the delivery proofs give. */
  lemma ReceivedByVectors<T>(job: Job<T>, q: nat, slot: nat, v: T)
    requires job.Valid() && q < job.p.c.worldSize
    ensures At(job, q)
    ensures Received(job.p, job.Memory(), q, slot, v) <==> exists at: nat :: at < |Rows(job, q)| && ReadRow(job, q, at, slot, v)
  {
    hide Job.Valid, Visiting, Rows, RowNumber, Row, Source, Fetch, RemoteRows, Job.Holds, RowIndex, RowSlot, RowGroup;
    AtAny(job, q);
    if Received(job.p, job.Memory(), q, slot, v) {
      var k: nat, e: nat, j: nat :| RowReads(job.p, job.Memory(), q, k, e, j, v) && RowSlot(job.p, q, k, e, j) == slot;
      RowMeans(job, q, k, e, j, RowNumber(job.p, q, k, e, j));
      assert ReadRow(job, q, RowNumber(job.p, q, k, e, j), slot, v);
    }
    if at: nat :| at < |Rows(job, q)| && ReadRow(job, q, at, slot, v) {
      var k, e, j := RowOrigin(job, q, at);
      RowMeans(job, q, k, e, j, at);
      assert RowReads(job.p, job.Memory(), q, k, e, j, v);
    }
  }

  /** The combine kernel writes result `y` on account of row `at`: rows below the remote count go
      to the send buffer, the others to the peers on the node. */
  ghost predicate SendRow<T(!new), V>(job: Job<T>, f: (nat, T) -> V, q: nat, at: nat, remote: bool, slot: nat, y: V)
    requires At(job, q) && at < |Rows(job, q)|
  {
    var row := Rows(job, q)[at];
    (at < RemoteRows(job.p, q) <==> remote) && row.combineOffset == slot && Computed(job.p, job.Memory(), f, q, row.padded, y)
  }

  lemma SendRowOf<T(!new), V>(job: Job<T>, f: (nat, T) -> V, q: nat, k: nat, e: nat, j: nat, at: nat, remote: bool, slot: nat, y: V)
    requires At(job, q) && Row(job.p, q, k, e, j) && at == RowNumber(job.p, q, k, e, j)
    ensures at < |Rows(job, q)|
    ensures SendRow(job, f, q, at, remote, slot, y) <==> RowSends(job.p, job.Memory(), f, q, k, e, j, remote, slot, y)
    ensures Rows(job, q)[at].sourceRank == job.p.SourceRank(q, RowGroup(job.p, q, k))
  {
    hide Job.Valid, Visiting, Rows, RowNumber, Row, Source, Fetch, RemoteRows, Computed, RowIndex, RowSlot, RowGroup,
         Plan.SourceOffset, Plan.CombineOffset, Plan.SourceRank;
    RowMeans(job, q, k, e, j, at);
  }

  /** Results for other nodes land in the send buffer as assumed. */
  lemma StagedByVectors<T(!new), V>(job: Job<T>, f: (nat, T) -> V, q: nat, slot: nat, y: V)
    requires job.Valid() && q < job.p.c.worldSize
    ensures At(job, q)
    ensures StagedCombine(job.p, job.Memory(), f, q, slot, y)
            <==> exists at: nat :: at < |Rows(job, q)| && SendRow(job, f, q, at, true, slot, y)
  {
    hide Job.Valid, Visiting, Rows, RowNumber, SendRow, Computed, RowIndex, RowSlot, Plan.CombineOffset;
    AtAny(job, q);
    if StagedCombine(job.p, job.Memory(), f, q, slot, y) {
      var k: nat, e: nat, j: nat :| RowSends(job.p, job.Memory(), f, q, k, e, j, true, slot, y);
      SendRowOf(job, f, q, k, e, j, RowNumber(job.p, q, k, e, j), true, slot, y);
    }
    if at: nat :| at < |Rows(job, q)| && SendRow(job, f, q, at, true, slot, y) {
      var k, e, j := RowOrigin(job, q, at);
      SendRowOf(job, f, q, k, e, j, at, true, slot, y);
    }
  }

  /** The peer pointers that the combine kernel follows for a row lead to rank `r`. */
  ghost predicate PointsTo<T>(job: Job<T>, q: nat, at: nat, r: nat)
    requires At(job, q) && at < |Rows(job, q)|
  {
    exists d: nat :: d < job.p.c.dpSize && PeerAt(job.p.c, q, Rows(job, q)[at].sourceRank, d) == r
  }

  lemma RowPoints<T>(job: Job<T>, q: nat, r: nat, k: nat, e: nat, j: nat, at: nat)
    requires At(job, q) && r < job.p.c.worldSize && Row(job.p, q, k, e, j) && at == RowNumber(job.p, q, k, e, j)
    requires RemoteRows(job.p, q) <= at < |Rows(job, q)|
    ensures PointsTo(job, q, at, r) <==> job.p.c.GroupOf(r) == RowGroup(job.p, q, k)
  {
    hide Job.Valid, Visiting, Rows, RowNumber, Source, Fetch, RemoteRows, RowIndex, RowSlot,
         Plan.SourceOffset, Plan.CombineOffset, Plan.SourceRank, PeerAt;
    RowMeans(job, q, k, e, j, at);
    NodePeersAreGroup(job.p, q, RowGroup(job.p, q, k), r);
  }

  /** Results for the own node land in the receive buffers of the ranks of the row's group. */
  lemma NodeByVectors<T(!new), V>(job: Job<T>, f: (nat, T) -> V, q: nat, r: nat, slot: nat, y: V)
    requires job.Valid() && q < job.p.c.worldSize && r < job.p.c.worldSize
    ensures At(job, q)
    ensures NodeCombine(job.p, job.Memory(), f, q, r, slot, y)
            <==> exists at: nat :: at < |Rows(job, q)| && SendRow(job, f, q, at, false, slot, y) && PointsTo(job, q, at, r)
  {
    hide Job.Valid, Visiting, Rows, RowNumber, Computed, RowIndex, RowSlot, Plan.CombineOffset, PointsTo, RemoteRows;
    AtAny(job, q);
    if NodeCombine(job.p, job.Memory(), f, q, r, slot, y) {
      var k: nat, e: nat, j: nat :| RowSends(job.p, job.Memory(), f, q, k, e, j, false, slot, y) && job.p.c.GroupOf(r) == RowGroup(job.p, q, k);
      var at := RowNumber(job.p, q, k, e, j);
      SendRowOf(job, f, q, k, e, j, at, false, slot, y);
      RowPoints(job, q, r, k, e, j, at);
    }
    if at: nat :| at < |Rows(job, q)| && SendRow(job, f, q, at, false, slot, y) && PointsTo(job, q, at, r) {
      var k, e, j := RowOrigin(job, q, at);
      SendRowOf(job, f, q, k, e, j, at, false, slot, y);
      RowPoints(job, q, r, k, e, j, at);
    }
  }
}
