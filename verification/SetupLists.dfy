/** The two lists of ranks a worker makes once: where its routing row goes, and whom its barriers
    tell. */
module SetupLists {
  import opened Arith
  import opened Topology
  import opened Scatter
  import opened StepProtocol
  import opened WorkerProtocol
  import Splitting

  /** The `m`-th rank around the world with the same index in its group, the own one first. */
  function Around(c: Shape, rank: nat, m: nat): nat
    requires c.Valid()
  {
    Sizes(c);
    Rem(rank + Mul(m, c.dpSize), c.worldSize)
  }

  /** The rank `d` beyond the start of the `m`-th turn around the groups. */
  lemma AroundPlus(c: Shape, rank: nat, m: nat, d: nat)
    requires c.Valid() && rank < c.worldSize && m < c.groups && d < c.dpSize
    ensures c.GroupOf(rank) < c.groups && c.worldSize > 0
    ensures var q := Rem(rank + (Mul(m, c.dpSize) + d), c.worldSize);
            && q < c.worldSize
            && (d == 0 ==> c.GroupOf(q) == Wrap(c.GroupOf(rank) + m, c.groups) && c.DpRank(q) == c.DpRank(rank))
            && (d > 0 ==> c.DpRank(q) != c.DpRank(rank))
  {
    hide Mul, Quot, Rem;
    Sizes(c);
    RankParts(c, rank);
    var g, r := c.GroupOf(rank), c.DpRank(rank);
    MulAdd(g, m, c.dpSize);
    if r + d < c.dpSize {
      WrapBlocks(g + m, c.groups, c.dpSize, r + d);
      QuotRem(Wrap(g + m, c.groups), r + d, c.dpSize);
    } else {
      MulUnfold(g + m + 1, c.dpSize);
      WrapBlocks(g + m + 1, c.groups, c.dpSize, r + d - c.dpSize);
      QuotRem(Wrap(g + m + 1, c.groups), r + d - c.dpSize, c.dpSize);
    }
  }

  /** A rank that is sent the own routing row: the one with the same index in another group. */
  predicate RowPeer(c: Shape, rank: nat, q: nat)
    requires c.dpSize > 0
  {
    q < c.worldSize && c.GroupOf(q) != c.GroupOf(rank) && c.DpRank(q) == c.DpRank(rank)
  }

  lemma RowPeerStep(c: Shape, rank: nat, i: nat)
    requires c.Valid() && rank < c.worldSize && 0 < i < c.worldSize
    ensures RowPeer(c, rank, Rem(rank + i, c.worldSize)) <==> Rem(i, c.dpSize) == 0
    ensures Rem(i, c.dpSize) == 0 ==> Rem(rank + i, c.worldSize) == Around(c, rank, Quot(i, c.dpSize))
  {
    hide Mul, Quot, Rem, Shape.GroupOf, Shape.DpRank;
    Sizes(c);
    QuotRemParts(i, c.dpSize);
    QuotBound(i, c.groups, c.dpSize);
    AroundPlus(c, rank, Quot(i, c.dpSize), Rem(i, c.dpSize));
    MulUnfold(0, c.dpSize);
  }

  lemma QuotNext(i: nat, n: nat)
    requires i > 0 && n > 0
    ensures Quot(i, n) == Quot(i - 1, n) + if Rem(i, n) == 0 then 1 else 0
  {
    hide Quot, Rem, Mul;
    QuotRemParts(i, n);
    var q, r := Quot(i, n), Rem(i, n);
    if r > 0 {
      QuotRem(q, r - 1, n);
    } else {
      MulUnfold(q, n);
      QuotRem(q - 1, n - 1, n);
    }
  }

  /** The targets of the routing row: all other ranks in order, but for those of the own group or
      with another index. */
  method RouteTargets(c: Shape, rank: nat) returns (list: seq<nat>)
    requires c.Valid() && rank < c.worldSize
    ensures |list| == c.groups - 1 && forall m :: 0 <= m < |list| ==> list[m] == Around(c, rank, m + 1)
  {
    hide *;
    Sizes(c);
    ShapeBits(c);
    list := [];
    QuotSmall(c.dpSize);
    for i := 1 to c.worldSize
      invariant |list| == Quot(i - 1, c.dpSize)
      invariant forall m :: 0 <= m < |list| ==> list[m] == Around(c, rank, m + 1)
    {
      var peer := Rem(rank + i, c.worldSize);
      PeerBits(c, rank, i);
      QuotNext(i, c.dpSize);
      RowPeerStep(c, rank, i);
      if c.GroupOf(peer) != c.GroupOf(rank) && c.DpRank(peer) == c.DpRank(rank) {
        list := list + [peer];
      }
    }
    LastTurn(c);
  }

  lemma ShapeBits(c: Shape)
    requires c.Valid()
    ensures c.worldSize > 0 && c.dpSize > 0 && c.groups > 0
  {
    Sizes(c);
  }

  lemma QuotSmall(n: nat)
    requires n > 0
    ensures Quot(0, n) == 0
  {
  }

  lemma PeerBits(c: Shape, rank: nat, i: nat)
    requires c.Valid() && rank < c.worldSize
    ensures var q := Rem(rank + i, c.worldSize);
            q < c.worldSize && (RowPeer(c, rank, q) <==> c.GroupOf(q) != c.GroupOf(rank) && c.DpRank(q) == c.DpRank(rank))
  {
    Sizes(c);
  }

  lemma LastTurn(c: Shape)
    requires c.Valid()
    ensures Quot(c.worldSize - 1, c.dpSize) == c.groups - 1
  {
    hide Quot, Rem;
    Sizes(c);
    MulUnfold(c.groups, c.dpSize);
    QuotRem(c.groups - 1, c.dpSize - 1, c.dpSize);
  }

  /** The list has every other group's rank with the own index, once. */
  lemma RouteListed(c: Shape, rank: nat, list: seq<nat>, q: nat)
    requires c.Valid() && rank < c.worldSize
    requires |list| == c.groups - 1 && forall m :: 0 <= m < |list| ==> list[m] == Around(c, rank, m + 1)
    ensures q in list <==> RowPeer(c, rank, q)
    ensures forall m, m' :: 0 <= m < m' < |list| ==> list[m] != list[m']
  {
    hide Mul, Quot, Rem, Shape.GroupOf, Shape.DpRank;
    forall m | 0 <= m < |list|
      ensures RowPeer(c, rank, list[m]) && c.GroupOf(rank) < c.groups && c.GroupOf(list[m]) == Wrap(c.GroupOf(rank) + m + 1, c.groups)
    {
      AroundPlus(c, rank, m + 1, 0);
    }
    if RowPeer(c, rank, q) {
      RankParts(c, q);
      RankParts(c, rank);
      var g, h := c.GroupOf(rank), c.GroupOf(q);
      var m := if g < h then h - g - 1 else h + c.groups - g - 1;
      AroundPlus(c, rank, m + 1, 0);
      RankParts(c, list[m]);
      assert list[m] == q;
    }
  }

  /** So in every step each rank is sent the row of every other group once, by the rank of that group
      with its own index. */
  lemma RowsFromAll(u: Setup, p: nat, g: nat, j: nat)
    requires u.Valid() && p < u.c.worldSize && g < u.c.groups && g != u.c.GroupOf(p)
    ensures forall s: nat :: s < u.c.worldSize && u.c.GroupOf(s) == g ==>
              (WorkerNet(u).load(Route, s, p, j) > 0 <==> s == Mul(g, u.c.dpSize) + u.c.DpRank(p))
  {
    hide RowLoad, Quot, Rem, Mul;
    forall s: nat | s < u.c.worldSize && u.c.GroupOf(s) == g
      ensures RowLoad(u, s, p, j) > 0 <==> s == Mul(g, u.c.dpSize) + u.c.DpRank(p)
    {
      RowLoadIs(u, s, p, j);
      RankParts(u.c, s);
    }
  }

  /** What the protocol counts for the routing row is what the list raises when it is split. */
  lemma RouteImms(u: Setup, rank: nat, list: seq<nat>, m: nat, j: nat)
    requires u.Valid() && rank < u.c.worldSize && m < |list|
    requires |list| == u.c.groups - 1 && forall m :: 0 <= m < |list| ==> list[m] == Around(u.c, rank, m + 1)
    ensures WorkerNet(u).load(Route, rank, list[m], j)
            == Splitting.ImmsAt(Splitting.ScatterWrites(Splitting.ShardPeers, |list|, u.nets), m)
  {
    hide RowLoad, Splitting.ImmsAt, Splitting.ScatterWrites, Around, Shape.GroupOf, Shape.DpRank;
    RouteListed(u.c, rank, list, list[m]);
    RowLoadIs(u, rank, list[m], j);
    Splitting.ScatterImms(Splitting.ShardPeers, |list|, u.nets, m);
  }

  /** The targets of a barrier: everybody else. */
  method BarrierTargets(c: Shape, rank: nat) returns (list: seq<nat>)
    requires c.Valid() && rank < c.worldSize
    ensures |list| == c.worldSize - 1 && forall m :: 0 <= m < |list| ==> list[m] == Wrap(rank + m + 1, c.worldSize)
  {
    hide *;
    ShapeBits(c);
    list := [];
    for i := 1 to c.worldSize
      invariant |list| == i - 1 && forall m :: 0 <= m < |list| ==> list[m] == Wrap(rank + m + 1, c.worldSize)
    {
      var peer := Rem(rank + i, c.worldSize);
      OtherRank(c.worldSize, rank, i);
      if peer != rank {
        list := list + [peer];
      }
    }
  }

  lemma OtherRank(n: nat, rank: nat, i: nat)
    requires rank < n && 0 < i < n
    ensures Rem(rank + i, n) == Wrap(rank + i, n) != rank
  {
    RemWrap(rank, i, n);
    RemSmall(rank, n);
  }

  /** That is everybody else, once each. */
  lemma BarrierListed(c: Shape, rank: nat, list: seq<nat>, q: nat)
    requires rank < c.worldSize && q < c.worldSize
    requires |list| == c.worldSize - 1 && forall m :: 0 <= m < |list| ==> list[m] == Wrap(rank + m + 1, c.worldSize)
    ensures q in list <==> q != rank
    ensures forall m, m' :: 0 <= m < m' < |list| ==> list[m] != list[m']
  {
    if q != rank {
      var m := if rank < q then q - rank - 1 else q + c.worldSize - rank - 1;
      assert list[m] == q;
    }
  }

  /** Which events of a step hand a list to the engine. */
  function EventOf(kind: Kind): nat {
    match kind case PrivateKind => 1 case OverflowKind => 3 case CombineKind => 8
  }

  /** A scatter counts as a transfer exactly when its list is not empty. */
  lemma SubmitsListed(u: Setup, kind: Kind, r: nat, j: nat, dim: nat, list: seq<Target>)
    requires u.Valid() && r < u.c.worldSize && Lists(kind, u.plans(j), r, dim, list)
    ensures WorkerSubmits(u, EventOf(kind), r, j) == if |list| == 0 then 0 else 1
  {
    hide Lists, HasOverflow, Shape.Valid;
    if kind.OverflowKind? {
      OverflowListed(u.plans(j), r, dim, list);
      FitsSelf(u, r, j);
    } else {
      ScatterListed(kind, u.plans(j), r, dim, list);
    }
  }

  lemma FitsSelf(u: Setup, r: nat, j: nat)
    requires u.Valid() && r < u.c.worldSize
    ensures u.Fits(r, r, j)
  {
  }

  /** And so does the routing row. */
  lemma RouteSubmits(u: Setup, r: nat, j: nat, list: seq<nat>)
    requires u.Valid() && |list| == u.c.groups - 1
    ensures WorkerSubmits(u, 0, r, j) == if |list| == 0 then 0 else 1
  {
  }

  /** The transfers that a barrier waits for: itself, and one for each non-empty list of its phase. The
      routing row is not among them. */
  lemma SettlesListed(u: Setup, r: nat, j: nat, dim: nat, first: seq<Target>, second: seq<Target>, results: seq<Target>)
    requires u.Valid() && r < u.c.worldSize && Lists(PrivateKind, u.plans(j), r, dim, first)
    requires Lists(OverflowKind, u.plans(j), r, dim, second) && Lists(CombineKind, u.plans(j), r, dim, results)
    ensures WorkerSettles(u, 7, r, j) == 1 + (if |first| == 0 then 0 else 1) + (if |second| == 0 then 0 else 1)
    ensures WorkerSettles(u, 12, r, j) == 1 + (if |results| == 0 then 0 else 1)
    ensures forall e: nat :: e != 7 && e != 12 ==> WorkerSettles(u, e, r, j) == 0
    ensures forall e: nat :: e !in [0, 1, 3, 6, 8, 11] ==> WorkerSubmits(u, e, r, j) == 0
    ensures WorkerSubmits(u, 6, r, j) == 1 == WorkerSubmits(u, 11, r, j)
  {
    hide Lists, HasOverflow;
    SubmitsListed(u, PrivateKind, r, j, dim, first);
    SubmitsListed(u, OverflowKind, r, j, dim, second);
    SubmitsListed(u, CombineKind, r, j, dim, results);
  }

  /** In every run, what a rank has seen complete covers what it has waited for, and never exceeds
      what it submitted. */
  lemma {:induction false} TxBetween(u: Setup, run: seq<State>, i: nat, r: nat)
    requires u.Valid() && Run(WorkerNet(u), run) && i < |run| && r < u.c.worldSize
    ensures Shaped(WorkerNet(u), run[i])
    ensures Settled(WorkerNet(u), r, run[i].step[r], run[i].pc[r]) <= run[i].tx[r]
            <= Submitted(WorkerNet(u), r, run[i].step[r], run[i].pc[r])
  {
    hide Next, Settled, Submitted, WorkerNet;
    if i == 0 {
      TxInit(u, run[0], r);
    } else {
      TxBetween(u, run, i - 1, r);
      TxNext(u, run[i - 1], run[i], r);
    }
  }

  lemma NetSize(u: Setup)
    ensures WorkerNet(u).n == u.c.worldSize
  {
  }

  lemma TxInit(u: Setup, st: State, r: nat)
    requires Init(WorkerNet(u), st) && r < u.c.worldSize
    ensures Shaped(WorkerNet(u), st) && Settled(WorkerNet(u), r, st.step[r], st.pc[r]) == 0 == st.tx[r]
  {
  }

  lemma TxNext(u: Setup, st: State, st': State, r: nat)
    requires Next(WorkerNet(u), st, st') && r < u.c.worldSize && Shaped(WorkerNet(u), st)
    requires Settled(WorkerNet(u), r, st.step[r], st.pc[r]) <= st.tx[r] <= Submitted(WorkerNet(u), r, st.step[r], st.pc[r])
    ensures Shaped(WorkerNet(u), st')
    ensures Settled(WorkerNet(u), r, st'.step[r], st'.pc[r]) <= st'.tx[r] <= Submitted(WorkerNet(u), r, st'.step[r], st'.pc[r])
  {
    hide Settled, Submitted, WorkerNet, GotTotal, CumNeed, Cum, Advance, Deliver, Complete;
    NetSize(u);
    var net := WorkerNet(u);
    if q: nat :| q < net.n && Advance(net, st, st', q) {
      TxAdvance(u, st, st', q, r);
    } else if c, s: nat, p: nat :| Deliver(net, st, st', c, s, p) {
      TxQuiet(net, st, st', c, s, p);
    } else {
      var q: nat :| Complete(net, st, st', q);
      TxComplete(net, st, st', q, r);
    }
  }

  lemma TxQuiet(net: Net, st: State, st': State, c: Class, s: nat, p: nat)
    requires Shaped(net, st) && Deliver(net, st, st', c, s, p)
    ensures Shaped(net, st') && st'.step == st.step && st'.pc == st.pc && st'.tx == st.tx
  {
    hide Cum;
  }

  lemma TxComplete(net: Net, st: State, st': State, q: nat, r: nat)
    requires Shaped(net, st) && Complete(net, st, st', q) && r < net.n
    requires Settled(net, r, st.step[r], st.pc[r]) <= st.tx[r] <= Submitted(net, r, st.step[r], st.pc[r])
    ensures Shaped(net, st')
    ensures Settled(net, r, st'.step[r], st'.pc[r]) <= st'.tx[r] <= Submitted(net, r, st'.step[r], st'.pc[r])
  {
    hide Settled, Submitted;
  }

  lemma TxAdvance(u: Setup, st: State, st': State, q: nat, r: nat)
    requires Shaped(WorkerNet(u), st) && q < u.c.worldSize && Advance(WorkerNet(u), st, st', q) && r < u.c.worldSize
    requires Settled(WorkerNet(u), r, st.step[r], st.pc[r]) <= st.tx[r] <= Submitted(WorkerNet(u), r, st.step[r], st.pc[r])
    ensures Shaped(WorkerNet(u), st')
    ensures Settled(WorkerNet(u), r, st'.step[r], st'.pc[r]) <= st'.tx[r] <= Submitted(WorkerNet(u), r, st'.step[r], st'.pc[r])
  {
    hide GotTotal, CumNeed, HasOverflow;
    if q == r && st.pc[r] == LAST {
      assert Settled(WorkerNet(u), r, st.step[r] + 1, 0) == Settled(WorkerNet(u), r, st.step[r], LAST + 1);
      assert Submitted(WorkerNet(u), r, st.step[r] + 1, 0) == Submitted(WorkerNet(u), r, st.step[r], LAST + 1);
    }
  }

  /** So a rank past its dispatch or combine barrier in step `k` has at most `k + 1` transfers that have
      not completed, all of them routing rows by count, and none with a single group. */
  lemma IncompleteAtMost(u: Setup, run: seq<State>, i: nat, r: nat)
    requires u.Valid() && Run(WorkerNet(u), run) && i < |run| && r < u.c.worldSize
    ensures Shaped(WorkerNet(u), run[i])
    ensures var k, e := run[i].step[r], run[i].pc[r];
            Submitted(WorkerNet(u), r, k, e) - run[i].tx[r] <= Outstanding(u, r, k, e)
            && (e == 8 ==> Submitted(WorkerNet(u), r, k, e) - run[i].tx[r] <= RouteGap(u, k + 1))
            && (e == 0 ==> Submitted(WorkerNet(u), r, k, e) - run[i].tx[r] <= RouteGap(u, k))
  {
    hide Run, Settled, Submitted, WorkerNet, WorkerSubmits;
    NetSize(u);
    TxBetween(u, run, i, r);
    TransferGap(u, r, run[i].step[r], run[i].pc[r]);
  }
}
