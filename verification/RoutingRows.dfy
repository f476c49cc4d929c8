/** The second half of the routing pass: one row per received token, in visiting order,
    telling the kernels where the token is, where its output goes and which padded slot it
    occupies. The counters that the worker carries from row to row are made explicit, and
    each row is shown to be the one the specification has for its token. */
module RoutingRows {
  import opened Arith
  import opened Sums
  import opened Topology
  import opened Placement
  import opened Dispatch

  /** The four parallel vectors handed to the kernels, zipped. */
  datatype RowVal = RowVal(sourceRank: nat, sourceOffset: nat, combineOffset: nat, padded: nat)

  /** The rank's experts and visiting order. */
  ghost predicate Visiting(p: Plan, rank: nat, o: seq<nat>) {
    && p.Valid() && rank < p.c.worldSize
    && p.c.Lo(rank) <= p.c.Lo(rank + 1) <= p.c.numExperts
    && |o| == p.c.groups > 0 && IsPermutation(o)
    && o[p.c.groups - 1] == p.c.GroupOf(rank)
  }

  /** Tokens from group `g` for this rank's experts below `e`. */
  ghost function IndexBefore(p: Plan, rank: nat, g: nat, e: nat): nat
    requires p.Valid() && g < p.c.groups && p.c.Lo(rank) <= e <= p.c.numExperts
  {
    PrefixMonotone(p.routed[g], p.c.Lo(rank), e);
    Prefix(p.routed[g], e) - p.Start(g, rank)
  }

  /** The row for the `index`-th token from group `g`, in output slot `padded`. */
  function RowWith(p: Plan, rank: nat, g: nat, index: nat, padded: nat): RowVal
    requires p.Valid() && rank < p.c.worldSize && g < p.c.groups
  {
    RowVal(p.SourceRank(rank, g), p.SourceOffset(rank, g, index), p.CombineOffset(rank, g, index), padded)
  }

  /** The row for the `j`-th token of expert `e` from group `o[k]`. */
  ghost function RowOf(p: Plan, rank: nat, o: seq<nat>, k: nat, e: nat, j: nat): RowVal
    requires Visiting(p, rank, o) && k < |o| && p.c.Lo(rank) <= e < p.c.Lo(rank + 1)
  {
    RowWith(p, rank, o[k], IndexBefore(p, rank, o[k], e) + j,
            p.PaddedIndex(p.c.Lo(rank), p.c.Lo(rank + 1), o, k, e, j))
  }

  ghost function ExpertRows(p: Plan, rank: nat, o: seq<nat>, k: nat, e: nat, n: nat): (rows: seq<RowVal>)
    requires Visiting(p, rank, o) && k < |o| && p.c.Lo(rank) <= e < p.c.Lo(rank + 1)
    ensures |rows| == n
  {
    seq(n, j requires 0 <= j => RowOf(p, rank, o, k, e, j))
  }

  /** Rows from group `o[k]` for experts below `e`. */
  ghost function GroupRows(p: Plan, rank: nat, o: seq<nat>, k: nat, e: nat): seq<RowVal>
    requires Visiting(p, rank, o) && k < |o| && p.c.Lo(rank) <= e <= p.c.Lo(rank + 1)
  {
    if e == p.c.Lo(rank) then []
    else GroupRows(p, rank, o, k, e - 1) + ExpertRows(p, rank, o, k, e - 1, p.routed[o[k]][e - 1])
  }

  /** Rows from the first `k` groups visited. */
  ghost function AllRows(p: Plan, rank: nat, o: seq<nat>, k: nat): seq<RowVal>
    requires Visiting(p, rank, o) && k <= |o|
  {
    if k == 0 then [] else AllRows(p, rank, o, k - 1) + GroupRows(p, rank, o, k - 1, p.c.Lo(rank + 1))
  }

  lemma {:induction false} GroupRowsLength(p: Plan, rank: nat, o: seq<nat>, k: nat, e: nat)
    requires Visiting(p, rank, o) && k < |o| && p.c.Lo(rank) <= e <= p.c.Lo(rank + 1)
    ensures |GroupRows(p, rank, o, k, e)| == IndexBefore(p, rank, o[k], e)
    decreases e
  {
    if e > p.c.Lo(rank) {
      GroupRowsLength(p, rank, o, k, e - 1);
    }
  }

  lemma {:induction false} AllRowsLength(p: Plan, rank: nat, o: seq<nat>, k: nat)
    requires Visiting(p, rank, o) && k <= |o|
    ensures |AllRows(p, rank, o, k)| == Prefix(Gather(p.Counts(rank), o), k)
  {
    if k > 0 {
      AllRowsLength(p, rank, o, k - 1);
      GroupRowsLength(p, rank, o, k - 1, p.c.Lo(rank + 1));
    }
  }

  lemma ConcatAt<T>(a: seq<T>, b: seq<T>, n: nat, i: nat, at: nat)
    requires n == |a| && i < |b| && at == n + i
    ensures at < |a + b| && (a + b)[at] == b[i]
  {
  }

  lemma ConcatHead<T>(a: seq<T>, b: seq<T>, at: nat)
    requires at < |a|
    ensures at < |a + b| && (a + b)[at] == a[at]
  {
  }

  lemma GroupRowsStep(p: Plan, rank: nat, o: seq<nat>, k: nat, e: nat)
    requires Visiting(p, rank, o) && k < |o| && p.c.Lo(rank) <= e < p.c.Lo(rank + 1)
    ensures p.Valid() && o[k] < |p.routed| == p.c.groups && e < |p.routed[o[k]]| == p.c.numExperts
    ensures GroupRows(p, rank, o, k, e + 1)
            == GroupRows(p, rank, o, k, e) + ExpertRows(p, rank, o, k, e, p.routed[o[k]][e])
  {
    hide ExpertRows;
  }

  lemma ExpertRowsAt(p: Plan, rank: nat, o: seq<nat>, k: nat, e: nat, n: nat, j: nat)
    requires Visiting(p, rank, o) && k < |o| && p.c.Lo(rank) <= e < p.c.Lo(rank + 1) && j < n
    ensures ExpertRows(p, rank, o, k, e, n)[j] == RowOf(p, rank, o, k, e, j)
  {
    hide RowOf;
  }

  /** Where the row for (`k`, `e`, `j`) ends up among the rows of its group. */
  lemma {:induction false} RowInGroup(p: Plan, rank: nat, o: seq<nat>, k: nat, e: nat, j: nat, hi: nat, i: nat)
    requires Visiting(p, rank, o) && k < |o| && p.c.Lo(rank) <= e < hi <= p.c.Lo(rank + 1) && j < p.routed[o[k]][e]
    requires i == IndexBefore(p, rank, o[k], e) + j
    ensures i < |GroupRows(p, rank, o, k, hi)| && GroupRows(p, rank, o, k, hi)[i] == RowOf(p, rank, o, k, e, j)
    decreases hi
  {
    hide *;
    GroupRowsStep(p, rank, o, k, e);
    GroupRowsStep(p, rank, o, k, hi - 1);
    if e < hi - 1 {
      RowInGroup(p, rank, o, k, e, j, hi - 1, i);
      ConcatHead(GroupRows(p, rank, o, k, hi - 1), ExpertRows(p, rank, o, k, hi - 1, p.routed[o[k]][hi - 1]), i);
    } else {
      GroupRowsLength(p, rank, o, k, e);
      ExpertRowsAt(p, rank, o, k, e, p.routed[o[k]][e], j);
      ConcatAt(GroupRows(p, rank, o, k, e), ExpertRows(p, rank, o, k, e, p.routed[o[k]][e]),
               IndexBefore(p, rank, o[k], e), j, i);
    }
  }

  lemma AllRowsStep(p: Plan, rank: nat, o: seq<nat>, m: nat)
    requires Visiting(p, rank, o) && m < |o|
    ensures p.c.Lo(rank) <= p.c.Lo(rank + 1)
    ensures AllRows(p, rank, o, m + 1) == AllRows(p, rank, o, m) + GroupRows(p, rank, o, m, p.c.Lo(rank + 1))
  {
    hide GroupRows;
  }

  /** Every token has its row, at the index given by the visiting order. */
  lemma {:induction false} RowInAll(p: Plan, rank: nat, o: seq<nat>, k: nat, e: nat, j: nat, m: nat, i: nat, at: nat)
    requires Visiting(p, rank, o) && k < m <= |o| && p.c.Lo(rank) <= e < p.c.Lo(rank + 1) && j < p.routed[o[k]][e]
    requires i == IndexBefore(p, rank, o[k], e) + j && at == Prefix(Gather(p.Counts(rank), o), k) + i
    ensures at < |AllRows(p, rank, o, m)| && AllRows(p, rank, o, m)[at] == RowOf(p, rank, o, k, e, j)
    decreases m
  {
    hide *;
    GroupRowsStep(p, rank, o, k, e);
    AllRowsStep(p, rank, o, m - 1);
    if k < m - 1 {
      RowInAll(p, rank, o, k, e, j, m - 1, i, at);
      ConcatHead(AllRows(p, rank, o, m - 1), GroupRows(p, rank, o, m - 1, p.c.Lo(rank + 1)), at);
    } else {
      AllRowsLength(p, rank, o, k);
      RowInGroup(p, rank, o, k, e, j, p.c.Lo(rank + 1), i);
      ConcatAt(AllRows(p, rank, o, k), GroupRows(p, rank, o, k, p.c.Lo(rank + 1)),
               |AllRows(p, rank, o, k)|, i, at);
    }
  }

  /** What the closure that emits rows carries from call to call. */
  datatype Builder = Builder(rows: seq<RowVal>, last: nat, dispatchCount: seq<nat>, combineCount: seq<nat>,
                             expertCount: seq<nat>, expertOffset: seq<nat>)

  predicate Sized(p: Plan, rank: nat, st: Builder) {
    && p.Valid() && rank < p.c.worldSize
    && p.c.Lo(rank) <= p.c.Lo(rank + 1) <= p.c.numExperts
    && |st.dispatchCount| == |st.combineCount| == p.c.groups
    && |st.expertCount| == p.c.Lo(rank + 1) - p.c.Lo(rank)
    && |st.expertOffset| == p.c.numExperts
    && st.last <= |st.rows|
  }

  /** The state after `n` rows for expert `lo + l` of group `g` have been emitted from `st`. */
  function Advance(p: Plan, rank: nat, st: Builder, g: nat, l: nat, n: nat): Builder
    requires Sized(p, rank, st) && g < p.c.groups && l < |st.expertCount|
  {
    var own, e := g == p.c.GroupOf(rank), p.c.Lo(rank) + l;
    st.(last := st.last + n,
        dispatchCount := if own then st.dispatchCount else st.dispatchCount[g := st.dispatchCount[g] + n],
        combineCount := if own && p.c.dpSize == 1 then st.combineCount else st.combineCount[g := st.combineCount[g] + n],
        expertCount := st.expertCount[l := st.expertCount[l] + n],
        expertOffset := if own then st.expertOffset[e := st.expertOffset[e] + n] else st.expertOffset)
  }

  /** The counters are where the emission of token `j` of group `o[k]`, expert `e == lo + l` must start. */
  ghost predicate AtRow(p: Plan, rank: nat, o: seq<nat>, st: Builder, k: nat, e: nat, l: nat, index: nat, j: nat) {
    && Visiting(p, rank, o) && Sized(p, rank, st) && k < |o| && l < |st.expertCount|
    && e == p.c.Lo(rank) + l && index == IndexBefore(p, rank, o[k], e) + j
    && CountersAt(p, rank, o[k], l, st, index)
    && st.expertCount[l] == p.EarlierFor(o, e, k) + j
  }

  /** The tables computed by the first pass, as far as the row builder uses them. */
  ghost predicate TablesFor(p: Plan, rank: nat, src: seq<nat>, dst: seq<nat>, pad: seq<nat>) {
    && p.Valid() && rank < p.c.worldSize && |src| == |dst| == p.c.groups
    && p.c.Lo(rank) <= p.c.Lo(rank + 1) <= p.c.numExperts
    && p.c.Lo(rank + 1) - p.c.Lo(rank) <= |pad|
    && (forall g :: 0 <= g < p.c.groups ==> src[g] == p.Arrival(rank, g) && dst[g] == p.Start(g, rank))
    && (forall l {:trigger pad[l]} :: 0 <= l < p.c.Lo(rank + 1) - p.c.Lo(rank) ==>
          pad[l] == Prefix(p.PaddedSizes(p.c.Lo(rank), p.c.Lo(rank + 1)), l))
  }

  /** Where a token of another group is read from. */
  method PickSource(p: Plan, rank: nat, g: nat, index: nat, src: nat, dst: nat) returns (offset: nat)
    requires p.Valid() && rank < p.c.worldSize && g < p.c.groups && g != p.c.GroupOf(rank)
    requires src == p.Arrival(rank, g) && dst == p.Start(g, rank)
    ensures offset == p.SourceOffset(rank, g, index)
  {
    Sizes(p.c);
    SourceRankFacts(p.c, rank, g);
    if index < p.c.maxPrivate {
      offset := Mul(g, p.c.maxPrivate) + index;
    } else if p.c.NodeOf(p.SourceRank(rank, g)) == p.c.NodeOf(rank) {
      offset := SetTag(dst + index);
    } else {
      offset := src + index + (Mul(p.c.groups, p.c.maxPrivate) - p.c.maxPrivate);
    }
  }

  /** Where the expert output for a token goes. */
  method PickTarget(p: Plan, rank: nat, g: nat, index: nat, src: nat, dst: nat) returns (offset: nat)
    requires p.Valid() && rank < p.c.worldSize && g < p.c.groups
    requires src == p.Arrival(rank, g) && dst == p.Start(g, rank)
    ensures offset == p.CombineOffset(rank, g, index)
  {
    Sizes(p.c);
    SourceRankFacts(p.c, rank, g);
    offset := if p.c.NodeOf(p.SourceRank(rank, g)) == p.c.NodeOf(rank) then dst + index else src + index;
  }

  /** The row that the counters of `st` describe. */
  function Emitted(p: Plan, rank: nat, g: nat, l: nat, pad: seq<nat>, st: Builder): RowVal
    requires Sized(p, rank, st) && g < p.c.groups && l < |st.expertCount| && l < |pad|
  {
    var own, local := g == p.c.GroupOf(rank), st.expertOffset[p.c.Lo(rank) + l];
    RowVal(p.SourceRank(rank, g),
           if own then local else p.SourceOffset(rank, g, st.dispatchCount[g]),
           if own && p.c.dpSize == 1 then local else p.CombineOffset(rank, g, st.combineCount[g]),
           pad[l] + st.expertCount[l])
  }

  /** Emit the row for the next token of local expert `l` from group `g`. */
  method EmitRow(p: Plan, rank: nat, g: nat, l: nat, src: seq<nat>, dst: seq<nat>, pad: seq<nat>, st: Builder)
    returns (st': Builder)
    requires Sized(p, rank, st) && g < p.c.groups && l < |st.expertCount| && l < |pad|
    requires |src| == |dst| == p.c.groups && src[g] == p.Arrival(rank, g) && dst[g] == p.Start(g, rank)
    requires st.last < |st.rows|
    ensures st' == Advance(p, rank, st, g, l, 1).(rows := st.rows[st.last := Emitted(p, rank, g, l, pad, st)])
  {
    hide Plan.SourceOffset, Plan.CombineOffset, Plan.SourceRank, Plan.Arrival, Plan.Start, Shape.GroupOf, Mul, Prefix;
    OwnRow(p, rank, g);
    var expert := p.c.Lo(rank) + l;
    var peerRank := p.SourceRank(rank, g);
    var sourceOffset, combineOffset := 0, 0;
    st' := st;
    if peerRank == rank {
      var localOffset := st.expertOffset[expert];
      st' := st'.(expertOffset := st.expertOffset[expert := localOffset + 1]);
      sourceOffset, combineOffset := localOffset, localOffset;
    } else {
      var index := st.dispatchCount[g];
      st' := st'.(dispatchCount := st.dispatchCount[g := index + 1]);
      sourceOffset := PickSource(p, rank, g, index, src[g], dst[g]);
    }
    if peerRank != rank || p.c.dpSize > 1 {
      var index := st.combineCount[g];
      st' := st'.(combineCount := st.combineCount[g := index + 1]);
      combineOffset := PickTarget(p, rank, g, index, src[g], dst[g]);
    }
    st' := st'.(rows := st.rows[st.last := RowVal(peerRank, sourceOffset, combineOffset, pad[l] + st.expertCount[l])],
                expertCount := st.expertCount[l := st.expertCount[l] + 1],
                last := st.last + 1);
  }

  /** A source rank is the rank itself exactly for the own group. */
  lemma OwnRow(p: Plan, rank: nat, g: nat)
    requires p.Valid() && rank < p.c.worldSize && g < p.c.groups
    ensures p.SourceRank(rank, g) == rank <==> g == p.c.GroupOf(rank)
  {
    SourceRankFacts(p.c, rank, g);
  }

  lemma PaddedIndexAt(p: Plan, lo: nat, hi: nat, o: seq<nat>, k: nat, e: nat, l: nat, j: nat)
    requires p.Valid() && lo <= e < hi <= p.c.numExperts && e == lo + l
    requires |o| == p.c.groups && IsPermutation(o) && k < |o|
    ensures p.PaddedIndex(lo, hi, o, k, e, j) == Prefix(p.PaddedSizes(lo, hi), l) + p.EarlierFor(o, e, k) + j
  {
  }

  /** What the counters must say for the next row to be that of token `index`. */
  predicate CountersAt(p: Plan, rank: nat, g: nat, l: nat, st: Builder, index: nat)
    requires Sized(p, rank, st) && g < p.c.groups && l < |st.expertCount|
  {
    if g == p.c.GroupOf(rank) then
      && st.expertOffset[p.c.Lo(rank) + l] == p.Start(g, rank) + index
      && (p.c.dpSize > 1 ==> st.combineCount[g] == index)
    else st.dispatchCount[g] == st.combineCount[g] == index
  }

  lemma EmittedIs(p: Plan, rank: nat, g: nat, l: nat, pad: seq<nat>, st: Builder, index: nat)
    requires Sized(p, rank, st) && g < p.c.groups && l < |st.expertCount| && l < |pad|
    requires CountersAt(p, rank, g, l, st, index)
    ensures Emitted(p, rank, g, l, pad, st) == RowWith(p, rank, g, index, pad[l] + st.expertCount[l])
  {
    RankParts(p.c, rank);
  }

  /** With the counters in place, the emitted row is the row of token `j`. */
  lemma EmittedIsRow(p: Plan, rank: nat, pad: seq<nat>, o: seq<nat>, st: Builder, k: nat, e: nat, l: nat, index: nat, j: nat)
    requires AtRow(p, rank, o, st, k, e, l, index, j) && l < |pad|
    requires pad[l] == Prefix(p.PaddedSizes(p.c.Lo(rank), p.c.Lo(rank + 1)), l)
    ensures Emitted(p, rank, o[k], l, pad, st) == RowOf(p, rank, o, k, e, j)
  {
    EmittedIs(p, rank, o[k], l, pad, st, index);
    PaddedIndexAt(p, p.c.Lo(rank), p.c.Lo(rank + 1), o, k, e, l, j);
  }

  /** Emitting `j` rows and then one more is emitting `j + 1` rows. */
  lemma AdvanceStep(p: Plan, rank: nat, st: Builder, g: nat, l: nat, j: nat, rows: seq<RowVal>, rows': seq<RowVal>)
    requires Sized(p, rank, st) && g < p.c.groups && l < |st.expertCount|
    requires |rows| == |st.rows| == |rows'| && st.last + j <= |st.rows|
    ensures Advance(p, rank, Advance(p, rank, st, g, l, j).(rows := rows), g, l, 1).(rows := rows')
            == Advance(p, rank, st, g, l, j + 1).(rows := rows')
  {
  }

  lemma AdvanceAtRow(p: Plan, rank: nat, o: seq<nat>, st: Builder, k: nat, e: nat, l: nat, index: nat, j: nat, rows: seq<RowVal>)
    requires AtRow(p, rank, o, st, k, e, l, index, 0)
    requires |rows| == |st.rows| && st.last + j <= |st.rows|
    ensures AtRow(p, rank, o, Advance(p, rank, st, o[k], l, j).(rows := rows), k, e, l, index + j, j)
  {
  }

  /** `j` of the rows for expert `e` from group `o[k]` have been emitted since `st`. */
  ghost predicate Emitting(p: Plan, rank: nat, o: seq<nat>, st: Builder, st': Builder, k: nat, e: nat, l: nat, index: nat, j: nat) {
    && AtRow(p, rank, o, st, k, e, l, index, 0) && st.last + j <= |st.rows| && |st'.rows| == |st.rows|
    && st' == Advance(p, rank, st, o[k], l, j).(rows := st'.rows)
    && st'.rows[..st'.last] == st.rows[..st.last] + ExpertRows(p, rank, o, k, e, j)
  }

  lemma ExpertRowsStep(p: Plan, rank: nat, o: seq<nat>, k: nat, e: nat, j: nat)
    requires Visiting(p, rank, o) && k < |o| && p.c.Lo(rank) <= e < p.c.Lo(rank + 1)
    ensures ExpertRows(p, rank, o, k, e, j + 1) == ExpertRows(p, rank, o, k, e, j) + [RowOf(p, rank, o, k, e, j)]
  {
    hide RowOf;
  }

  lemma TakeUpdate<T>(s: seq<T>, n: nat, v: T)
    requires n < |s|
    ensures s[n := v][..n + 1] == s[..n] + [v]
  {
  }

  lemma EmittingStep(p: Plan, rank: nat, pad: seq<nat>, o: seq<nat>, st: Builder, st': Builder, next: Builder,
                     k: nat, e: nat, l: nat, index: nat, j: nat)
    requires Emitting(p, rank, o, st, st', k, e, l, index, j) && st'.last < |st'.rows| && l < |pad|
    requires pad[l] == Prefix(p.PaddedSizes(p.c.Lo(rank), p.c.Lo(rank + 1)), l)
    requires next == Advance(p, rank, st', o[k], l, 1).(rows := st'.rows[st'.last := Emitted(p, rank, o[k], l, pad, st')])
    ensures Emitting(p, rank, o, st, next, k, e, l, index, j + 1)
  {
    AdvanceAtRow(p, rank, o, st, k, e, l, index, j, st'.rows);
    EmittedIsRow(p, rank, pad, o, st', k, e, l, index + j, j);
    AdvanceStep(p, rank, st, o[k], l, j, st'.rows, next.rows);
    ExpertRowsStep(p, rank, o, k, e, j);
    TakeUpdate(st'.rows, st'.last, RowOf(p, rank, o, k, e, j));
    hide RowOf, Emitted, ExpertRows, IndexBefore, Prefix;
  }

  lemma UpdateSame(s: seq<nat>, i: nat)
    requires i < |s|
    ensures s[i := s[i] + 0] == s
  {
  }

  lemma AdvanceNone(p: Plan, rank: nat, st: Builder, g: nat, l: nat)
    requires Sized(p, rank, st) && g < p.c.groups && l < |st.expertCount|
    ensures Advance(p, rank, st, g, l, 0) == st
  {
    UpdateSame(st.dispatchCount, g);
    UpdateSame(st.combineCount, g);
    UpdateSame(st.expertCount, l);
    UpdateSame(st.expertOffset, p.c.Lo(rank) + l);
  }

  lemma EmittingStart(p: Plan, rank: nat, o: seq<nat>, st: Builder, k: nat, e: nat, l: nat, index: nat)
    requires AtRow(p, rank, o, st, k, e, l, index, 0)
    ensures Emitting(p, rank, o, st, st, k, e, l, index, 0)
  {
    AdvanceNone(p, rank, st, o[k], l);
    hide IndexBefore, Prefix, RowOf, CountersAt;
  }

  lemma EmittingReady(p: Plan, rank: nat, o: seq<nat>, st: Builder, st': Builder, k: nat, e: nat, l: nat, index: nat, j: nat, n: nat)
    requires Emitting(p, rank, o, st, st', k, e, l, index, j) && j < n && st.last + n <= |st.rows|
    ensures Sized(p, rank, st') && o[k] < p.c.groups && l < |st'.expertCount| && st'.last < |st'.rows|
  {
  }

  lemma TableAt(p: Plan, rank: nat, src: seq<nat>, dst: seq<nat>, pad: seq<nat>, g: nat, l: nat)
    requires TablesFor(p, rank, src, dst, pad) && g < p.c.groups && l < p.c.Lo(rank + 1) - p.c.Lo(rank)
    ensures p.Valid() && |src| == |dst| == p.c.groups && src[g] == p.Arrival(rank, g) && dst[g] == p.Start(g, rank)
    ensures p.c.Lo(rank) <= p.c.Lo(rank + 1) <= p.c.numExperts
    ensures l < |pad| && pad[l] == Prefix(p.PaddedSizes(p.c.Lo(rank), p.c.Lo(rank + 1)), l)
  {
  }

  /** Emit the rows of all `n` tokens for local expert `l` from group `g`. */
  method RouteExpert(p: Plan, rank: nat, g: nat, l: nat, n: nat, src: seq<nat>, dst: seq<nat>, pad: seq<nat>, st: Builder,
                     ghost o: seq<nat>, ghost k: nat, ghost e: nat, ghost index: nat) returns (st': Builder)
    requires TablesFor(p, rank, src, dst, pad) && AtRow(p, rank, o, st, k, e, l, index, 0) && o[k] == g
    requires st.last + n <= |st.rows|
    ensures Emitting(p, rank, o, st, st', k, e, l, index, n)
  {
    st' := st;
    EmittingStart(p, rank, o, st, k, e, l, index);
    TableAt(p, rank, src, dst, pad, g, l);
    hide *;
    for j := 0 to n
      invariant Emitting(p, rank, o, st, st', k, e, l, index, j)
    {
      EmittingReady(p, rank, o, st, st', k, e, l, index, j, n);
      var next := EmitRow(p, rank, g, l, src, dst, pad, st');
      EmittingStep(p, rank, pad, o, st, st', next, k, e, l, index, j);
      st' := next;
    }
  }
}
