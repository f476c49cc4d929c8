/** The loops around the row builder: experts of a group, groups in visiting order, and the
    whole routing step up to the vectors handed to the kernels. `ProcessRows` is the step;
    `RowFetch` and `RemoteSplit` say what a kernel finds when it follows a row, and `RowFrom`
    that there are no other rows. */
module RoutingPass {
  import opened Arith
  import opened Sums
  import opened Topology
  import opened Placement
  import opened Dispatch
  import opened RoundTrip
  import opened RoutingWorker
  import opened RoutingRows

  /** Groups visited after `k` have emitted nothing yet. */
  ghost predicate LaterIdle(o: seq<nat>, st: Builder, k: nat) {
    forall m :: k <= m < |o| ==> o[m] < |st.dispatchCount| && o[m] < |st.combineCount|
                                 && st.dispatchCount[o[m]] == 0 && st.combineCount[o[m]] == 0
  }

  /** Per-expert row counts when group `o[k]` has been handled for local experts below `l`. */
  ghost predicate CountedTo(p: Plan, rank: nat, o: seq<nat>, counts: seq<nat>, k: nat, l: nat)
    requires Visiting(p, rank, o) && k < |o| && |counts| == p.c.Lo(rank + 1) - p.c.Lo(rank)
  {
    forall m {:trigger counts[m]} :: 0 <= m < |counts| ==>
      counts[m] == p.EarlierFor(o, p.c.Lo(rank) + m, if m < l then k + 1 else k)
  }

  /** Local experts from `l` on still have their own-group offsets untouched. */
  ghost predicate OwnUntouched(p: Plan, rank: nat, offsets: seq<nat>, l: nat)
    requires p.Valid() && rank < p.c.worldSize && p.c.GroupOf(rank) < p.c.groups
    requires |offsets| == p.c.numExperts
  {
    forall e {:trigger offsets[e]} :: p.c.Lo(rank) + l <= e < p.c.Lo(rank + 1) && e < p.c.numExperts ==>
      offsets[e] == Prefix(p.routed[p.c.GroupOf(rank)], e)
  }

  /** The builder between local experts `l - 1` and `l` of group `o[k]`. */
  ghost predicate AtExpert(p: Plan, rank: nat, o: seq<nat>, st: Builder, k: nat, e: nat, l: nat) {
    && Visiting(p, rank, o) && Sized(p, rank, st) && k < |o| && l <= |st.expertCount| && e == p.c.Lo(rank) + l
    && p.c.GroupOf(rank) < p.c.groups
    && LaterIdle(o, st, k + 1)
    && CountedTo(p, rank, o, st.expertCount, k, l)
    && GroupAt(p, rank, st, o[k], IndexBefore(p, rank, o[k], e))
    && OwnUntouched(p, rank, st.expertOffset, if o[k] == p.c.GroupOf(rank) then l else 0)
  }

  /** `index` tokens of group `g` have been emitted. */
  predicate GroupAt(p: Plan, rank: nat, st: Builder, g: nat, index: nat)
    requires Sized(p, rank, st) && g < p.c.groups
  {
    if g == p.c.GroupOf(rank) then p.c.dpSize > 1 ==> st.combineCount[g] == index
    else st.dispatchCount[g] == st.combineCount[g] == index
  }

  lemma AtExpertAtRow(p: Plan, rank: nat, o: seq<nat>, st: Builder, k: nat, e: nat, l: nat)
    requires AtExpert(p, rank, o, st, k, e, l) && l < |st.expertCount|
    ensures AtRow(p, rank, o, st, k, e, l, IndexBefore(p, rank, o[k], e), 0)
  {
  }

  lemma EarlierForStep(p: Plan, o: seq<nat>, e: nat, k: nat)
    requires p.Valid() && e < p.c.numExperts && |o| == p.c.groups && IsPermutation(o) && k < |o|
    ensures p.EarlierFor(o, e, k + 1) == p.EarlierFor(o, e, k) + p.routed[o[k]][e]
  {
  }

  lemma CountedToStep(p: Plan, rank: nat, o: seq<nat>, counts: seq<nat>, k: nat, e: nat, l: nat, n: nat)
    requires Visiting(p, rank, o) && k < |o| && |counts| == p.c.Lo(rank + 1) - p.c.Lo(rank) && l < |counts|
    requires CountedTo(p, rank, o, counts, k, l) && e == p.c.Lo(rank) + l && n == p.routed[o[k]][e]
    ensures CountedTo(p, rank, o, counts[l := counts[l] + n], k, l + 1)
  {
    EarlierForStep(p, o, e, k);
    hide Plan.EarlierFor;
  }

  lemma OwnUntouchedStep(p: Plan, rank: nat, offsets: seq<nat>, l: nat, e: nat, v: nat)
    requires p.Valid() && rank < p.c.worldSize && p.c.GroupOf(rank) < p.c.groups
    requires |offsets| == p.c.numExperts && OwnUntouched(p, rank, offsets, l)
    requires e == p.c.Lo(rank) + l < p.c.numExperts
    ensures OwnUntouched(p, rank, offsets[e := v], l + 1)
  {
    hide Prefix;
  }

  lemma AtExpertStep(p: Plan, rank: nat, o: seq<nat>, st: Builder, st': Builder, k: nat, e: nat, l: nat, n: nat)
    requires AtExpert(p, rank, o, st, k, e, l) && l < |st.expertCount| && n == p.routed[o[k]][e]
    requires |st'.rows| == |st.rows| && st.last + n <= |st.rows|
    requires st' == Advance(p, rank, st, o[k], l, n).(rows := st'.rows)
    ensures AtExpert(p, rank, o, st', k, e + 1, l + 1)
  {
    CountedToStep(p, rank, o, st.expertCount, k, e, l, n);
    if o[k] == p.c.GroupOf(rank) {
      OwnUntouchedStep(p, rank, st.expertOffset, l, e, st.expertOffset[e] + n);
    }
    hide CountedTo, OwnUntouched, Plan.Start;
  }

  /** Rows of group `o[k]` for local experts below `l` have been added to `st`. */
  ghost predicate Grouping(p: Plan, rank: nat, o: seq<nat>, st: Builder, st': Builder, k: nat, e: nat, l: nat) {
    && Sized(p, rank, st) && AtExpert(p, rank, o, st', k, e, l) && |st'.rows| == |st.rows|
    && st'.last == st.last + IndexBefore(p, rank, o[k], e)
    && st'.rows[..st'.last] == st.rows[..st.last] + GroupRows(p, rank, o, k, e)
  }

  lemma GroupingStart(p: Plan, rank: nat, o: seq<nat>, st: Builder, k: nat, lo: nat)
    requires AtExpert(p, rank, o, st, k, lo, 0)
    ensures Grouping(p, rank, o, st, st, k, lo, 0) && lo == p.c.Lo(rank)
    ensures p.Valid() && o[k] < p.c.groups && lo <= p.c.Lo(rank + 1) <= p.c.numExperts
    ensures IndexBefore(p, rank, o[k], lo) == 0 && IndexBefore(p, rank, o[k], p.c.Lo(rank + 1)) == p.Count(o[k], rank)
  {
    hide CountedTo, OwnUntouched, LaterIdle, GroupAt;
    assert GroupRows(p, rank, o, k, lo) == [];
  }

  lemma GroupingStep(p: Plan, rank: nat, o: seq<nat>, st: Builder, mid: Builder, st': Builder,
                     k: nat, e: nat, l: nat, index: nat, n: nat)
    requires Grouping(p, rank, o, st, mid, k, e, l) && l < |mid.expertCount| && n == p.routed[o[k]][e]
    requires Emitting(p, rank, o, mid, st', k, e, l, index, n)
    ensures Grouping(p, rank, o, st, st', k, e + 1, l + 1)
  {
    AtExpertStep(p, rank, o, mid, st', k, e, l, n);
    ConcatAssociates(st.rows[..st.last], GroupRows(p, rank, o, k, e), ExpertRows(p, rank, o, k, e, n));
    hide AtRow, AtExpert, ExpertRows;
  }

  /** Room for the rows of the next expert, given room for the whole group. */
  lemma GroupingRoom(p: Plan, rank: nat, o: seq<nat>, st: Builder, mid: Builder, k: nat, e: nat, l: nat)
    requires Grouping(p, rank, o, st, mid, k, e, l) && e < p.c.Lo(rank + 1)
    requires st.last + p.Count(o[k], rank) <= |st.rows|
    ensures l < |mid.expertCount| && o[k] < |p.routed| && e < |p.routed[o[k]]| && mid.last + p.routed[o[k]][e] <= |mid.rows|
    ensures AtRow(p, rank, o, mid, k, e, l, IndexBefore(p, rank, o[k], e), 0)
    ensures IndexBefore(p, rank, o[k], e + 1) == IndexBefore(p, rank, o[k], e) + p.routed[o[k]][e]
  {
    AtExpertAtRow(p, rank, o, mid, k, e, l);
    PrefixMonotone(p.routed[o[k]], e + 1, p.c.Lo(rank + 1));
    hide CountedTo, OwnUntouched, LaterIdle, GroupAt, AtRow;
  }

  /** Emit the rows of every token that group `g` sends to this rank. */
  method RouteGroup(p: Plan, rank: nat, g: nat, src: seq<nat>, dst: seq<nat>, pad: seq<nat>, st: Builder,
                    ghost o: seq<nat>, ghost k: nat) returns (st': Builder, numRouted: nat)
    requires TablesFor(p, rank, src, dst, pad) && AtExpert(p, rank, o, st, k, p.c.Lo(rank), 0) && o[k] == g
    requires st.last + p.Count(g, rank) <= |st.rows|
    ensures Grouping(p, rank, o, st, st', k, p.c.Lo(rank + 1), p.c.Lo(rank + 1) - p.c.Lo(rank))
    ensures numRouted == p.Count(g, rank)
  {
    hide *;
    st', numRouted := st, 0;
    var lo, hi := p.c.Lo(rank), p.c.Lo(rank + 1);
    GroupingStart(p, rank, o, st, k, lo);
    for expert := lo to hi
      invariant Grouping(p, rank, o, st, st', k, expert, expert - lo)
      invariant numRouted == IndexBefore(p, rank, g, expert)
    {
      var l := expert - lo;
      GroupingRoom(p, rank, o, st, st', k, expert, l);
      var routed := p.routed[g][expert];
      var next := RouteExpert(p, rank, g, l, routed, src, dst, pad, st', o, k, expert, numRouted);
      GroupingStep(p, rank, o, st, st', next, k, expert, l, numRouted, routed);
      st', numRouted := next, numRouted + routed;
    }
  }

  /** The rows of the first `k` groups visited are in place, and nothing else has been emitted. */
  ghost predicate Passed(p: Plan, rank: nat, o: seq<nat>, st: Builder, k: nat) {
    && Visiting(p, rank, o) && Sized(p, rank, st) && k <= |o| && |st.rows| == p.Received(rank)
    && st.last == Prefix(Gather(p.Counts(rank), o), k)
    && st.rows[..st.last] == AllRows(p, rank, o, k)
    && (k < |o| ==> AtExpert(p, rank, o, st, k, p.c.Lo(rank), 0))
  }

  lemma AtExpertNext(p: Plan, rank: nat, o: seq<nat>, st: Builder, k: nat, l: nat)
    requires AtExpert(p, rank, o, st, k, p.c.Lo(rank + 1), l) && k + 1 < |o|
    ensures AtExpert(p, rank, o, st, k + 1, p.c.Lo(rank), 0)
  {
    assert o[k] != o[|o| - 1];
    assert IndexBefore(p, rank, o[k + 1], p.c.Lo(rank)) == 0;
    CountedToNext(p, rank, o, st.expertCount, k, l);
    hide Plan.EarlierFor, Prefix, CountedTo;
  }

  lemma CountedToNext(p: Plan, rank: nat, o: seq<nat>, counts: seq<nat>, k: nat, l: nat)
    requires Visiting(p, rank, o) && k + 1 < |o| && |counts| == p.c.Lo(rank + 1) - p.c.Lo(rank) && l == |counts|
    requires CountedTo(p, rank, o, counts, k, l)
    ensures CountedTo(p, rank, o, counts, k + 1, 0)
  {
    hide Plan.EarlierFor;
  }

  lemma GroupingDone(p: Plan, rank: nat, o: seq<nat>, st: Builder, st': Builder, k: nat, l: nat)
    requires Grouping(p, rank, o, st, st', k, p.c.Lo(rank + 1), l)
    ensures Sized(p, rank, st') && o[k] < p.c.groups && st'.last == st.last + p.Count(o[k], rank)
  {
    hide CountedTo, OwnUntouched, LaterIdle, GroupAt, GroupRows;
  }

  lemma PassedStep(p: Plan, rank: nat, o: seq<nat>, st: Builder, st': Builder, k: nat, l: nat)
    requires Passed(p, rank, o, st, k) && k < |o| && Grouping(p, rank, o, st, st', k, p.c.Lo(rank + 1), l)
    ensures Passed(p, rank, o, st', k + 1)
  {
    hide AtExpert, GroupRows, Plan.Count, IndexBefore;
    GroupingDone(p, rank, o, st, st', k, l);
    if k + 1 < |o| {
      AtExpertNext(p, rank, o, st', k, l);
    }
    assert Gather(p.Counts(rank), o)[k] == p.Count(o[k], rank);
  }

  lemma PassedRoom(p: Plan, rank: nat, o: seq<nat>, st: Builder, k: nat)
    requires Passed(p, rank, o, st, k) && k < |o|
    ensures AtExpert(p, rank, o, st, k, p.c.Lo(rank), 0)
    ensures o[k] < p.c.groups && st.last + p.Count(o[k], rank) <= |st.rows| && p.c.Lo(rank) <= p.c.Lo(rank + 1)
  {
    hide AtExpert, GroupRows, AllRows, Plan.Count;
    PermutedSum(p.Counts(rank), o);
    PrefixMonotone(Gather(p.Counts(rank), o), k + 1, |o|);
    assert Gather(p.Counts(rank), o)[k] == p.Count(o[k], rank);
  }

  /** Visit the next group. */
  method VisitGroup(p: Plan, rank: nat, g: nat, src: seq<nat>, dst: seq<nat>, pad: seq<nat>, st: Builder,
                    ghost o: seq<nat>, ghost k: nat) returns (st': Builder, numRouted: nat)
    requires TablesFor(p, rank, src, dst, pad) && Passed(p, rank, o, st, k) && k < |o| && o[k] == g
    ensures Passed(p, rank, o, st', k + 1)
    ensures g < p.c.groups && numRouted == p.Count(g, rank)
  {
    hide *;
    PassedRoom(p, rank, o, st, k);
    st', numRouted := RouteGroup(p, rank, g, src, dst, pad, st, o, k);
    PassedStep(p, rank, o, st, st', k, p.c.Lo(rank + 1) - p.c.Lo(rank));
  }

  /** The `k`-th group on the way around the other nodes. */
  lemma RemoteTurn(c: Shape, rank: nat, i: nat, j: nat)
    requires c.Valid() && rank < c.worldSize && 1 <= i < c.nodes && j < c.groupsPerNode
    ensures Mul(i - 1, c.groupsPerNode) + j < c.groups && c.nodeSize > 0
    ensures Order(c, rank)[Mul(i - 1, c.groupsPerNode) + j]
            == Mul(Rem(c.NodeOf(rank) + i, c.nodes), c.groupsPerNode) + j
  {
    hide Mul, OrderAt;
    OrderAtTurn(c, rank, i - 1, j);
    RankParts(c, rank);
    RemWrap(c.NodeOf(rank), i, c.nodes);
  }

  /** The `j`-th group after the own one on the own node. */
  lemma LocalTurn(c: Shape, rank: nat, j: nat)
    requires c.Valid() && rank < c.worldSize && 1 <= j <= c.groupsPerNode
    ensures c.nodes > 0 && Mul(c.nodes - 1, c.groupsPerNode) + j <= c.groups && c.nodeSize > 0 && c.dpSize > 0
    ensures Order(c, rank)[Mul(c.nodes - 1, c.groupsPerNode) + j - 1]
            == Mul(c.NodeOf(rank), c.groupsPerNode) + Rem(c.GroupOf(rank) + j, c.groupsPerNode)
  {
    hide Mul, OrderAt;
    Sizes(c);
    OrderAtTurn(c, rank, c.nodes - 1, j - 1);
    RankParts(c, rank);
    RemWrap(c.GroupOf(rank), j, c.groupsPerNode);
  }

  lemma PlanShape(p: Plan)
    requires p.Valid()
    ensures p.c.Valid()
  {
  }

  lemma PassedBounds(p: Plan, rank: nat, o: seq<nat>, st: Builder, k: nat)
    requires Passed(p, rank, o, st, k)
    ensures p.Valid() && rank < p.c.worldSize && |o| == p.c.groups && k <= |o|
    ensures p.c.nodes > 0 && p.c.groupsPerNode > 0 && p.c.nodeSize > 0
  {
    hide AtExpert, AllRows, Prefix;
    Sizes(p.c);
  }

  /** Visit the groups of the `i`-th node after this one. */
  method VisitRemoteNode(p: Plan, rank: nat, i: nat, src: seq<nat>, dst: seq<nat>, pad: seq<nat>, st: Builder)
    returns (st': Builder, numRouted: nat)
    requires p.Valid() && rank < p.c.worldSize && TablesFor(p, rank, src, dst, pad) && 1 <= i < p.c.nodes
    requires Passed(p, rank, Order(p.c, rank), st, Mul(i - 1, p.c.groupsPerNode))
    ensures Passed(p, rank, Order(p.c, rank), st', Mul(i, p.c.groupsPerNode))
    ensures st'.last == st.last + numRouted
  {
    hide *;
    PlanShape(p);
    ghost var o, k := Order(p.c, rank), Mul(i - 1, p.c.groupsPerNode);
    PassedBounds(p, rank, o, st, k);
    MulUnfold(i, p.c.groupsPerNode);
    st', numRouted := st, 0;
    for j := 0 to p.c.groupsPerNode
      invariant Passed(p, rank, o, st', k + j) && st'.last == st.last + numRouted
    {
      RemoteTurn(p.c, rank, i, j);
      var next, n := VisitGroup(p, rank, Mul(Rem(p.c.NodeOf(rank) + i, p.c.nodes), p.c.groupsPerNode) + j,
                                src, dst, pad, st', o, k + j);
      PassedLast(p, rank, o, st', next, k + j);
      st', numRouted := next, numRouted + n;
    }
  }

  lemma PassedLast(p: Plan, rank: nat, o: seq<nat>, st: Builder, st': Builder, k: nat)
    requires Passed(p, rank, o, st, k) && Passed(p, rank, o, st', k + 1)
    ensures o[k] < p.c.groups && st'.last == st.last + p.Count(o[k], rank)
  {
    hide AtExpert, AllRows, Plan.Count;
  }

  /** Visit every group: other nodes first, then this node, then the own group. */
  method VisitAll(p: Plan, rank: nat, src: seq<nat>, dst: seq<nat>, pad: seq<nat>, st: Builder)
    returns (st': Builder, numRemote: nat)
    requires p.Valid() && rank < p.c.worldSize && p.c.nodes > 0 && TablesFor(p, rank, src, dst, pad)
    requires Passed(p, rank, Order(p.c, rank), st, 0)
    ensures Passed(p, rank, Order(p.c, rank), st', p.c.groups)
    ensures numRemote == |AllRows(p, rank, Order(p.c, rank), Mul(p.c.nodes - 1, p.c.groupsPerNode))|
  {
    hide *;
    PlanShape(p);
    ghost var o := Order(p.c, rank);
    PassedBounds(p, rank, o, st, 0);
    st', numRemote := st, 0;
    PassedRows(p, rank, o, st, 0);
    MulUnfold(0, p.c.groupsPerNode);
    for i := 1 to p.c.nodes
      invariant Passed(p, rank, o, st', Mul(i - 1, p.c.groupsPerNode)) && st'.last == numRemote
    {
      var n;
      st', n := VisitRemoteNode(p, rank, i, src, dst, pad, st');
      numRemote := numRemote + n;
    }
    ghost var k := Mul(p.c.nodes - 1, p.c.groupsPerNode);
    PassedRows(p, rank, o, st', k);
    var unused;
    for j := 1 to p.c.groupsPerNode
      invariant Passed(p, rank, o, st', k + j - 1)
    {
      LocalTurn(p.c, rank, j);
      st', unused := VisitGroup(p, rank, Mul(p.c.NodeOf(rank), p.c.groupsPerNode) + Rem(p.c.GroupOf(rank) + j, p.c.groupsPerNode),
                                src, dst, pad, st', o, k + j - 1);
    }
    LastTurn(p.c, rank);
    st', unused := VisitGroup(p, rank, p.c.GroupOf(rank), src, dst, pad, st', o, k + p.c.groupsPerNode - 1);
  }

  lemma PassedRows(p: Plan, rank: nat, o: seq<nat>, st: Builder, k: nat)
    requires Passed(p, rank, o, st, k)
    ensures st.last <= |st.rows| && st.rows[..st.last] == AllRows(p, rank, o, k) && st.last == |AllRows(p, rank, o, k)|
    ensures k == 0 ==> st.last == 0
  {
    hide AtExpert;
  }

  lemma LastTurn(c: Shape, rank: nat)
    requires c.Valid() && rank < c.worldSize
    ensures c.nodes > 0 && c.groups > 0 && c.dpSize > 0
    ensures Mul(c.nodes - 1, c.groupsPerNode) + c.groupsPerNode == c.groups
    ensures Order(c, rank)[c.groups - 1] == c.GroupOf(rank)
  {
    Sizes(c);
    OwnGroupLast(c, rank);
  }

  /** Counts rounded up to the expert padding. */
  function Padded(perExpert: seq<nat>, padding: nat): seq<nat>
    requires padding > 0
  {
    seq<nat>(|perExpert|, l requires 0 <= l < |perExpert| => RoundUp(perExpert[l], padding))
  }

  /** Where each local expert's padded block of output rows begins. */
  method PadOffsets(perExpert: seq<nat>, padding: nat) returns (pad: seq<nat>)
    requires padding > 0
    ensures |pad| == |perExpert| && Aligned(pad, perExpert, padding)
    ensures forall l {:trigger pad[l]} :: 0 <= l < |pad| ==> pad[l] == Prefix(Padded(perExpert, padding), l)
  {
    hide Mul, Quot, Rem, Aligned;
    pad := [];
    var base := 0;
    RemSmall(0, padding);
    AlignedNone(padding);
    for l := 0 to |perExpert|
      invariant |pad| == l && base == Prefix(Padded(perExpert, padding), l)
      invariant forall m {:trigger pad[m]} :: 0 <= m < l ==> pad[m] == Prefix(Padded(perExpert, padding), m)
      invariant Aligned(pad, perExpert[..l], padding) && Rem(base, padding) == 0 && (l == 0 ==> base == 0)
      invariant l > 0 ==> pad[l - 1] + perExpert[l - 1] <= base < pad[l - 1] + perExpert[l - 1] + padding
    {
      AlignedAdd(pad, perExpert, padding, base, l);
      AlignedNext(base, perExpert[l], padding);
      pad := pad + [base];
      base := base + Mul(CeilQuot(perExpert[l], padding), padding);
    }
    assert perExpert[..|perExpert|] == perExpert;
  }

  lemma AlignedNone(padding: nat)
    requires padding > 0
    ensures Aligned([], [], padding)
  {
  }

  lemma AlignedAdd(pad: seq<nat>, counts: seq<nat>, padding: nat, base: nat, l: nat)
    requires padding > 0 && l < |counts| && |pad| == l && Aligned(pad, counts[..l], padding) && Rem(base, padding) == 0
    requires if l == 0 then base == 0 else pad[l - 1] + counts[l - 1] <= base < pad[l - 1] + counts[l - 1] + padding
    ensures Aligned(pad + [base], counts[..l + 1], padding)
  {
    hide Rem;
    var longer := pad + [base];
    forall m | 0 < m < |longer|
      ensures longer[m - 1] + counts[..l + 1][m - 1] <= longer[m] < longer[m - 1] + counts[..l + 1][m - 1] + padding
    {
      if m < l {
        assert counts[..l + 1][m - 1] == counts[..l][m - 1];
      }
    }
  }

  lemma PadTable(p: Plan, lo: nat, hi: nat, perExpert: seq<nat>, l: nat)
    requires p.Valid() && lo <= hi <= p.c.numExperts && ColumnsTallied(p, lo, hi, perExpert, p.c.groups)
    requires l <= hi - lo && p.c.padding > 0
    ensures Prefix(Padded(perExpert, p.c.padding), l) == Prefix(p.PaddedSizes(lo, hi), l)
  {
    PrefixAgree(Padded(perExpert, p.c.padding), p.PaddedSizes(lo, hi), l);
  }

  /** What the first pass leaves is what the row builder needs. */
  lemma TablesReady(p: Plan, rank: nat, nets: nat, t: Arrivals, pad: seq<nat>)
    requires ArrivalsTallied(p, rank, nets, t, p.c.groups) && p.c.padding > 0
    requires |pad| == |t.perExpert|
    requires forall l {:trigger pad[l]} :: 0 <= l < |pad| ==> pad[l] == Prefix(Padded(t.perExpert, p.c.padding), l)
    ensures TablesFor(p, rank, t.srcGroupOffset, t.dstGroupOffset, pad)
  {
    hide Plan.PaddedSizes, Prefix, Padded, Plan.Arrival, Plan.Start, Plan.Count;
    forall g | 0 <= g < p.c.groups
      ensures t.srcGroupOffset[g] == p.Arrival(rank, g) && t.dstGroupOffset[g] == p.Start(g, rank)
    {
      assert GroupTallied(p, rank, t, g);
    }
    forall l {:trigger pad[l]} | 0 <= l < p.c.Lo(rank + 1) - p.c.Lo(rank)
      ensures pad[l] == Prefix(p.PaddedSizes(p.c.Lo(rank), p.c.Lo(rank + 1)), l)
    {
      PadTable(p, p.c.Lo(rank), p.c.Lo(rank + 1), t.perExpert, l);
    }
  }

  function EmptyBuilder(groups: nat, experts: nat, numRecv: nat, expertOffset: seq<nat>): Builder {
    Builder(seq(numRecv, _ => RowVal(0, 0, 0, 0)), 0, Zeros(groups), Zeros(groups), Zeros(experts), expertOffset)
  }

  lemma VisitingOrder(p: Plan, rank: nat)
    requires p.Valid() && rank < p.c.worldSize
    ensures Visiting(p, rank, Order(p.c, rank)) && p.c.GroupOf(rank) < p.c.groups
  {
    hide OrderAt;
    OrderIsPermutation(p.c, rank);
    LoFacts(p.c, rank);
    RankParts(p.c, rank);
  }

  lemma EmptyPassed(p: Plan, rank: nat, s: Sends, numRecv: nat)
    requires p.Valid() && rank < p.c.worldSize && p.c.Lo(rank) <= p.c.Lo(rank + 1)
    requires SendsTallied(p, p.c.GroupOf(rank), s, p.c.worldSize) && numRecv == p.Received(rank)
    ensures Passed(p, rank, Order(p.c, rank),
                   EmptyBuilder(p.c.groups, p.c.Lo(rank + 1) - p.c.Lo(rank), numRecv, s.expertOffset), 0)
  {
    hide Order;
    var o := Order(p.c, rank);
    var st := EmptyBuilder(p.c.groups, p.c.Lo(rank + 1) - p.c.Lo(rank), numRecv, s.expertOffset);
    VisitingOrder(p, rank);
    LoMonotone(p.c, rank + 1, p.c.worldSize);
    assert AtExpert(p, rank, o, st, 0, p.c.Lo(rank), 0);
  }

  /** Rows of groups on other nodes come first; this many. */
  ghost function RemoteRows(p: Plan, rank: nat): nat
    requires p.Valid() && rank < p.c.worldSize && Visiting(p, rank, Order(p.c, rank)) && p.c.nodes > 0
    requires Mul(p.c.nodes - 1, p.c.groupsPerNode) <= p.c.groups
  {
    |AllRows(p, rank, Order(p.c, rank), Mul(p.c.nodes - 1, p.c.groupsPerNode))|
  }

  /** The routing step of the host worker, up to the scatter lists: the tallies of the first
      pass, the rows for the kernels, and how many rows come from other nodes. */
  method ProcessRows(p: Plan, rank: nat, nets: nat) returns (s: Sends, t: Arrivals, rows: seq<RowVal>, numRemote: nat)
    requires p.Valid() && rank < p.c.worldSize
    ensures SendsTallied(p, p.c.GroupOf(rank), s, p.c.worldSize)
    ensures ArrivalsTallied(p, rank, nets, t, p.c.groups)
    ensures Visiting(p, rank, Order(p.c, rank)) && Mul(p.c.nodes - 1, p.c.groupsPerNode) <= p.c.groups
    ensures rows == AllRows(p, rank, Order(p.c, rank), p.c.groups) && numRemote == RemoteRows(p, rank)
    ensures p.c.padding > 0 && RowsPadded(p, rank, rows, t.perExpert)
  {
    hide *;
    PassFacts(p, rank);
    s, t := TallyAll(p, rank, nets);
    var pad := PadOffsets(t.perExpert, p.c.padding);
    TablesReady(p, rank, nets, t, pad);
    ReceivedAll(p, rank, nets, t);
    EmptyPassed(p, rank, s, t.numRecv);
    var st := EmptyBuilder(p.c.groups, p.c.Lo(rank + 1) - p.c.Lo(rank), t.numRecv, s.expertOffset);
    st, numRemote := VisitAll(p, rank, t.srcGroupOffset, t.dstGroupOffset, pad, st);
    PassedDone(p, rank, st);
    rows := st.rows;
    RemoteRowsIs(p, rank);
    PaddedRows(p, rank, t.srcGroupOffset, t.dstGroupOffset, pad, t.perExpert);
  }

  /** A token of expert `e` of this rank: the `j`-th from the `k`-th group visited, in row `at`. */
  ghost predicate TokenRow(p: Plan, rank: nat, k: nat, e: nat, j: nat, at: nat) {
    && p.Valid() && rank < p.c.worldSize && Visiting(p, rank, Order(p.c, rank)) && k < p.c.groups
    && p.c.Lo(rank) <= e < p.c.Lo(rank + 1) && j < p.routed[Order(p.c, rank)[k]][e]
    && at == Prefix(Gather(p.Counts(rank), Order(p.c, rank)), k) + IndexBefore(p, rank, Order(p.c, rank)[k], e) + j
  }

  /** How many tokens of expert `e` come before that one. */
  ghost function Before(p: Plan, rank: nat, k: nat, e: nat, j: nat, at: nat): nat
    requires TokenRow(p, rank, k, e, j, at)
  {
    p.EarlierFor(Order(p.c, rank), e, k) + j
  }

  /** The rows of an expert fill its block, which begins at a multiple of the padding. */
  ghost predicate RowsPadded(p: Plan, rank: nat, rows: seq<RowVal>, counts: seq<nat>)
    requires p.c.padding > 0
  {
    exists base: seq<nat> :: Aligned(base, counts, p.c.padding) && RowsFrom(p, rank, rows, base)
  }

  ghost predicate RowsFrom(p: Plan, rank: nat, rows: seq<RowVal>, base: seq<nat>) {
    forall k: nat, e: nat, j: nat, at: nat :: TokenRow(p, rank, k, e, j, at) ==> FollowsBase(p, rank, rows, base, k, e, j, at)
  }

  ghost predicate FollowsBase(p: Plan, rank: nat, rows: seq<RowVal>, base: seq<nat>, k: nat, e: nat, j: nat, at: nat)
    requires TokenRow(p, rank, k, e, j, at)
  {
    at < |rows| && e - p.c.Lo(rank) < |base| && rows[at].padded == base[e - p.c.Lo(rank)] + Before(p, rank, k, e, j, at)
  }

  lemma PaddedRows(p: Plan, rank: nat, src: seq<nat>, dst: seq<nat>, pad: seq<nat>, counts: seq<nat>)
    requires p.Valid() && rank < p.c.worldSize && Visiting(p, rank, Order(p.c, rank)) && p.c.padding > 0
    requires TablesFor(p, rank, src, dst, pad) && Aligned(pad, counts, p.c.padding)
    ensures RowsPadded(p, rank, AllRows(p, rank, Order(p.c, rank), p.c.groups), counts)
  {
    hide AllRows, Aligned, OrderAt, Order, Visiting, TokenRow, Before, TablesFor;
    forall k: nat, e: nat, j: nat, at: nat | TokenRow(p, rank, k, e, j, at)
      ensures FollowsBase(p, rank, AllRows(p, rank, Order(p.c, rank), p.c.groups), pad, k, e, j, at)
    {
      TokenExpert(p, rank, k, e, j, at);
      PaddedRow(p, rank, src, dst, pad, k, e, j, at, e - p.c.Lo(rank));
    }
    assert RowsFrom(p, rank, AllRows(p, rank, Order(p.c, rank), p.c.groups), pad);
  }

  lemma TokenExpert(p: Plan, rank: nat, k: nat, e: nat, j: nat, at: nat)
    requires TokenRow(p, rank, k, e, j, at)
    ensures p.c.Lo(rank) <= e < p.c.Lo(rank + 1)
  {
  }

  lemma PaddedRow(p: Plan, rank: nat, src: seq<nat>, dst: seq<nat>, pad: seq<nat>, k: nat, e: nat, j: nat, at: nat, l: nat)
    requires TokenRow(p, rank, k, e, j, at) && TablesFor(p, rank, src, dst, pad) && e == p.c.Lo(rank) + l
    ensures at < |AllRows(p, rank, Order(p.c, rank), p.c.groups)| && l < |pad|
    ensures AllRows(p, rank, Order(p.c, rank), p.c.groups)[at].padded == pad[l] + Before(p, rank, k, e, j, at)
  {
    hide AllRows, OrderAt, Order, IndexBefore, Plan.SourceOffset, Plan.CombineOffset, Plan.Count, Gather;
    var o := Order(p.c, rank);
    RowInAll(p, rank, o, k, e, j, p.c.groups, IndexBefore(p, rank, o[k], e) + j, at);
  }

  /** In particular the first row of every expert that gets tokens is at a multiple of the padding. */
  lemma FirstRowAligned(p: Plan, rank: nat, rows: seq<RowVal>, counts: seq<nat>, e: nat) returns (k: nat, at: nat)
    requires p.Valid() && rank < p.c.worldSize && p.c.padding > 0 && RowsPadded(p, rank, rows, counts)
    requires p.c.Lo(rank) <= e < p.c.Lo(rank + 1) && e < p.c.numExperts && p.ExpertTotal(e) > 0
    ensures TokenRow(p, rank, k, e, 0, at) && at < |rows| && Rem(rows[at].padded, p.c.padding) == 0
    ensures forall k': nat, j': nat, at': nat :: TokenRow(p, rank, k', e, j', at') ==>
              at' < |rows| && rows[at].padded <= rows[at'].padded
  {
    hide Rem, OrderAt, Order, IndexBefore;
    PassFacts(p, rank);
    k := FirstWith(p, rank, e);
    at := Prefix(Gather(p.Counts(rank), Order(p.c, rank)), k) + IndexBefore(p, rank, Order(p.c, rank)[k], e) + 0;
    var base: seq<nat> :| Aligned(base, counts, p.c.padding) && RowsFrom(p, rank, rows, base);
    assert TokenRow(p, rank, k, e, 0, at);
  }

  /** The first group visited that has tokens for the expert. */
  lemma FirstWith(p: Plan, rank: nat, e: nat) returns (k: nat)
    requires p.Valid() && rank < p.c.worldSize && Visiting(p, rank, Order(p.c, rank)) && e < p.c.numExperts && p.ExpertTotal(e) > 0
    ensures k < p.c.groups && p.routed[Order(p.c, rank)[k]][e] > 0 && p.EarlierFor(Order(p.c, rank), e, k) == 0
  {
    var column := Gather(p.Column(e), Order(p.c, rank));
    PermutedSum(p.Column(e), Order(p.c, rank));
    k := Locate(column, |column|, 0);
  }

  lemma RemoteRowsIs(p: Plan, rank: nat)
    requires p.Valid() && rank < p.c.worldSize && Visiting(p, rank, Order(p.c, rank)) && p.c.nodes > 0
    requires Mul(p.c.nodes - 1, p.c.groupsPerNode) <= p.c.groups
    ensures RemoteRows(p, rank) == |AllRows(p, rank, Order(p.c, rank), Mul(p.c.nodes - 1, p.c.groupsPerNode))|
  {
  }

  lemma PassFacts(p: Plan, rank: nat)
    requires p.Valid() && rank < p.c.worldSize
    ensures p.c.Valid() && p.c.padding > 0 && p.c.nodes > 0 && p.c.dpSize > 0 && p.c.Lo(rank) <= p.c.Lo(rank + 1)
    ensures Visiting(p, rank, Order(p.c, rank)) && Mul(p.c.nodes - 1, p.c.groupsPerNode) <= p.c.groups
  {
    hide Order, OrderAt;
    LoFacts(p.c, rank);
    VisitingOrder(p, rank);
    LastTurn(p.c, rank);
  }

  lemma ReceivedAll(p: Plan, rank: nat, nets: nat, t: Arrivals)
    requires ArrivalsTallied(p, rank, nets, t, p.c.groups)
    ensures t.numRecv == p.Received(rank)
  {
  }

  lemma PassedDone(p: Plan, rank: nat, st: Builder)
    requires p.Valid() && rank < p.c.worldSize && Visiting(p, rank, Order(p.c, rank))
    requires Passed(p, rank, Order(p.c, rank), st, p.c.groups)
    ensures st.rows == AllRows(p, rank, Order(p.c, rank), p.c.groups)
  {
    hide AtExpert, AllRows, Order;
    PermutedSum(p.Counts(rank), Order(p.c, rank));
  }

  /** Every row index belongs to a token: the `j`-th for expert `e` from the `k`-th group. */
  lemma RowFrom(p: Plan, rank: nat, o: seq<nat>, at: nat) returns (k: nat, e: nat, j: nat, i: nat)
    requires Visiting(p, rank, o) && at < |AllRows(p, rank, o, |o|)|
    ensures k < |o| && p.c.Lo(rank) <= e < p.c.Lo(rank + 1) && j < p.routed[o[k]][e]
    ensures i == IndexBefore(p, rank, o[k], e) + j && i < p.Count(o[k], rank)
    ensures at == Prefix(Gather(p.Counts(rank), o), k) + i
    ensures AllRows(p, rank, o, |o|)[at] == RowOf(p, rank, o, k, e, j)
  {
    hide RowOf, AllRows;
    AllRowsLength(p, rank, o, |o|);
    var counts := Gather(p.Counts(rank), o);
    k := Locate(counts, |o|, at);
    i := at - Prefix(counts, k);
    e, j := InGroup(p, rank, o[k], i);
    RowInAll(p, rank, o, k, e, j, |o|, i, at);
  }

  lemma InGroup(p: Plan, rank: nat, g: nat, i: nat) returns (e: nat, j: nat)
    requires p.Valid() && rank < p.c.worldSize && g < p.c.groups && i < p.Count(g, rank)
    requires p.c.Lo(rank) <= p.c.Lo(rank + 1) <= p.c.numExperts
    ensures p.c.Lo(rank) <= e < p.c.Lo(rank + 1) && j < p.routed[g][e] && i == IndexBefore(p, rank, g, e) + j
  {
    var row, at := p.routed[g], p.Start(g, rank) + i;
    e := Locate(row, p.c.Lo(rank + 1), at);
    if e < p.c.Lo(rank) {
      PrefixMonotone(row, e + 1, p.c.Lo(rank));
    }
    j := at - Prefix(row, e);
  }

  /** What the receive kernel reads through the row vectors is the place where the token was
      put: the remote/local split by row number agrees with the node of the source. */
  lemma RowFetch(p: Plan, rank: nat, k: nat, e: nat, j: nat, i: nat, at: nat)
    requires p.Valid() && rank < p.c.worldSize && Visiting(p, rank, Order(p.c, rank)) && k < p.c.groups && p.c.nodes > 0
    requires Mul(p.c.nodes - 1, p.c.groupsPerNode) <= p.c.groups
    requires p.c.Lo(rank) <= e < p.c.Lo(rank + 1) && j < p.routed[Order(p.c, rank)[k]][e]
    requires i == IndexBefore(p, rank, Order(p.c, rank)[k], e) + j && i < p.Count(Order(p.c, rank)[k], rank)
    requires at == Prefix(Gather(p.Counts(rank), Order(p.c, rank)), k) + i
    ensures var row := RowOf(p, rank, Order(p.c, rank), k, e, j);
            Decode(p.c, rank, at < RemoteRows(p, rank), row.sourceRank, row.sourceOffset)
            == Fetch(p, rank, Order(p.c, rank)[k], i)
  {
    hide OrderAt, AllRows, Plan.SourceOffset, Plan.CombineOffset, Plan.PaddedIndex, IndexBefore, Plan.Count, Decode;
    RemoteSplit(p, rank, Order(p.c, rank), k, i, at);
  }

  lemma RemoteSplit(p: Plan, rank: nat, o: seq<nat>, k: nat, i: nat, at: nat)
    requires p.Valid() && rank < p.c.worldSize && Visiting(p, rank, o) && k < p.c.groups && p.c.nodes > 0
    requires o == Order(p.c, rank) && Mul(p.c.nodes - 1, p.c.groupsPerNode) <= p.c.groups
    requires i < p.Count(o[k], rank) && at == Prefix(Gather(p.Counts(rank), o), k) + i
    ensures p.c.nodeSize > 0 && p.c.groupsPerNode > 0
    ensures at < RemoteRows(p, rank) <==> p.c.GroupNode(o[k]) != p.c.NodeOf(rank)
  {
    hide *;
    PassFacts(p, rank);
    OffNodeTurn(p.c, rank, k);
    QuotOrder(k, p.c.nodes - 1, p.c.groupsPerNode);
    RemoteRowsIs(p, rank);
    AllRowsLength(p, rank, o, Mul(p.c.nodes - 1, p.c.groupsPerNode));
    GatheredCount(p, rank, o, k);
    PrefixSplit(Gather(p.Counts(rank), o), k, i, Mul(p.c.nodes - 1, p.c.groupsPerNode), at);
  }

  lemma GatheredCount(p: Plan, rank: nat, o: seq<nat>, k: nat)
    requires Visiting(p, rank, o) && k < |o|
    ensures p.Valid() && forall m :: 0 <= m < |o| ==> o[m] < |p.Counts(rank)|
    ensures |Gather(p.Counts(rank), o)| == |o| == p.c.groups && Gather(p.Counts(rank), o)[k] == p.Count(o[k], rank)
  {
    hide Plan.Count;
  }

  lemma OffNodeTurn(c: Shape, rank: nat, k: nat)
    requires c.Valid() && rank < c.worldSize && k < c.groups
    ensures c.nodeSize > 0 && c.groupsPerNode > 0
    ensures Quot(k, c.groupsPerNode) < c.nodes - 1 <==> c.GroupNode(Order(c, rank)[k]) != c.NodeOf(rank)
  {
    hide OrderAt, Order, Quot, Mul;
    Sizes(c);
    OrderIsPermutation(c, rank);
  }

  lemma PrefixSplit(s: seq<nat>, k: nat, i: nat, m: nat, at: nat)
    requires k < |s| && m <= |s| && i < s[k] && at == Prefix(s, k) + i
    ensures at < Prefix(s, m) <==> k < m
  {
    if k < m {
      PrefixMonotone(s, k + 1, m);
    } else {
      PrefixMonotone(s, m, k);
    }
  }

  lemma PairRow(p: Plan, q: nat, k: nat, e: nat, j: nat)
    requires Row(p, q, k, e, j) && Visiting(p, q, Order(p.c, q))
    ensures k < |Order(p.c, q)| == p.c.groups && Order(p.c, q)[k] == RowGroup(p, q, k) < |p.routed|
    ensures p.c.Lo(q) <= e < p.c.Lo(q + 1) && e < |p.routed[RowGroup(p, q, k)]| && j < p.routed[RowGroup(p, q, k)][e]
    ensures RowIndex(p, q, k, e, j) == IndexBefore(p, q, RowGroup(p, q, k), e) + j
    ensures RowIndex(p, q, k, e, j) < p.Count(RowGroup(p, q, k), q)
    ensures forall m :: 0 <= m < |Order(p.c, q)| ==> Order(p.c, q)[m] < |p.Counts(q)|
    ensures RowOf(p, q, Order(p.c, q), k, e, j)
            == RowWith(p, q, RowGroup(p, q, k), RowIndex(p, q, k, e, j), RowSlot(p, q, k, e, j))
    ensures p.c.dpSize > 0
    ensures RowWith(p, q, RowGroup(p, q, k), RowIndex(p, q, k, e, j), RowSlot(p, q, k, e, j)).padded == RowSlot(p, q, k, e, j)
    ensures RowWith(p, q, RowGroup(p, q, k), RowIndex(p, q, k, e, j), RowSlot(p, q, k, e, j)).combineOffset
            == p.CombineOffset(q, RowGroup(p, q, k), RowIndex(p, q, k, e, j))
    ensures RowWith(p, q, RowGroup(p, q, k), RowIndex(p, q, k, e, j), RowSlot(p, q, k, e, j)).sourceRank
            == p.SourceRank(q, RowGroup(p, q, k))
  {
    hide OrderAt, Plan.Count, Plan.PaddedIndex, Plan.CombineOffset, Plan.SourceOffset;
    Sizes(p.c);
  }
}
