/** The step protocol with the worker's own numbers: who sends how many immediates, what
    each wait asks for, and how many transfers each barrier settles. */
module WorkerProtocol {
  import opened Arith
  import opened Topology
  import opened Placement
  import opened RoutingWorker
  import opened Scatter
  import opened StepProtocol
  import Splitting

  /** One shape, a routing plan per step, and the number of network domains per device. */
  datatype Setup = Setup(c: Shape, plans: nat -> Plan, nets: nat)
  {
    ghost predicate Valid() {
      c.Valid() && nets > 0 && forall j: nat :: plans(j).Valid() && plans(j).c == c
    }

    predicate Fits(s: nat, p: nat, j: nat) {
      plans(j).Valid() && plans(j).c == c && s < c.worldSize && p < c.worldSize && c.dpSize > 0 && nets > 0
    }
  }

  /** Some peer needs an overflow transfer from `r`. */
  predicate HasOverflow(plan: Plan, r: nat)
    requires plan.Valid() && r < plan.c.worldSize
  {
    exists q: nat :: q < plan.c.worldSize && Wanted(OverflowKind, plan, r, q)
  }

  /** The overflow scatter is submitted just when its list is not empty. */
  lemma OverflowListed(plan: Plan, r: nat, dim: nat, list: seq<Target>)
    requires Lists(OverflowKind, plan, r, dim, list)
    ensures |list| > 0 <==> HasOverflow(plan, r)
  {
    hide Wanted, TargetFor, Distinct;
    if |list| > 0 {
      assert Wanted(OverflowKind, plan, r, list[0].peer);
    }
    if q: nat :| q < plan.c.worldSize && Wanted(OverflowKind, plan, r, q) {
      assert HasPeer(list, q);
    }
  }

  /** The other two scatters have targets just when there is another node. */
  lemma ScatterListed(kind: Kind, plan: Plan, r: nat, dim: nat, list: seq<Target>)
    requires Lists(kind, plan, r, dim, list) && kind != OverflowKind
    ensures |list| > 0 <==> plan.c.nodes > 1
  {
    hide TargetFor, Distinct, Quot, Rem, Mul;
    Sizes(plan.c);
    if |list| > 0 {
      RingPeerUnique(plan.c, r, list[0].peer);
    }
    if plan.c.nodes > 1 {
      RingPeerTurn(plan.c, r, 1, 0);
      assert HasPeer(list, RingPeer(plan.c, r, 1, 0));
    }
  }

  /** Where `p` stands, in rank order, in a list of all but `s`. */
  function IndexBut(s: nat, p: nat): nat
    requires s != p
  {
    if p < s then p else p - 1
  }

  /** Immediates that a barrier of `s` raises at `p`: a request for immediates to all others,
      pinned to the first domain. */
  function BarrierLoad(n: nat, nets: nat, s: nat, p: nat): nat {
    if s == p || s >= n || p >= n || nets == 0 then 0
    else Splitting.ImmsAt(Splitting.WritesOf(Splitting.ImmRequest(seq(n - 1, _ => nets), Splitting.Pinned(0)), nets, 0), IndexBut(s, p))
  }

  /** Routing rows go, sharded by peers, to the ranks with the same index in the other groups. */
  predicate RowDue(u: Setup, s: nat, p: nat, j: nat) {
    u.Fits(s, p, j) && u.c.GroupOf(s) != u.c.GroupOf(p) && u.c.DpRank(s) == u.c.DpRank(p)
  }

  function RowLoad(u: Setup, s: nat, p: nat, j: nat): nat {
    if RowDue(u, s, p, j) then
      RankParts(u.c, s);
      Splitting.ImmsAt(Splitting.ScatterWrites(Splitting.ShardPeers, u.c.groups - 1, u.nets), IndexBut(u.c.GroupOf(s), u.c.GroupOf(p)))
    else 0
  }

  /** What each class of messages raises, as the splitting of its request over the domains gives it. */
  function WorkerLoad(u: Setup, k: Class, s: nat, p: nat, j: nat): nat {
    match k
    case BarrierD => BarrierLoad(u.c.worldSize, u.nets, s, p)
    case BarrierC => BarrierLoad(u.c.worldSize, u.nets, s, p)
    case Route => RowLoad(u, s, p, j)
    case Private => if u.Fits(s, p, j) then ScatterLoad(PrivateKind, u.plans(j), s, p, u.nets) else 0
    case Overflow => if u.Fits(s, p, j) then ScatterLoad(OverflowKind, u.plans(j), s, p, u.nets) else 0
    case Combine => if u.Fits(s, p, j) then ScatterLoad(CombineKind, u.plans(j), s, p, u.nets) else 0
  }

  lemma BarrierLoadIs(n: nat, nets: nat, s: nat, p: nat)
    requires nets > 0
    ensures BarrierLoad(n, nets, s, p) == if s == p || s >= n || p >= n then 0 else 1
  {
    hide Splitting.ImmsAt, Splitting.WritesOf;
    if s != p && s < n && p < n {
      Splitting.ImmRequestImms(seq(n - 1, _ => nets), Splitting.Pinned(0), nets, 0, IndexBut(s, p));
    }
  }

  lemma RowLoadIs(u: Setup, s: nat, p: nat, j: nat)
    ensures RowLoad(u, s, p, j) == if RowDue(u, s, p, j) then 1 else 0
  {
    hide Splitting.ImmsAt, Splitting.ScatterWrites, Shape.GroupOf, Shape.DpRank;
    if RowDue(u, s, p, j) {
      RankParts(u.c, s);
      RankParts(u.c, p);
      Splitting.ScatterImms(Splitting.ShardPeers, u.c.groups - 1, u.nets, IndexBut(u.c.GroupOf(s), u.c.GroupOf(p)));
    }
  }

  function WorkerNeed(u: Setup, e: nat, p: nat, j: nat): nat {
    if u.Fits(p, p, j) then
      Sizes(u.c);
      if e == 2 then u.c.groups - 1
      else if e == 4 then ExpectedTx(u.plans(j), p, u.nets, u.c.groups)
      else if e == 9 then Mul(u.c.worldSize - u.c.nodeSize, u.nets)
      else u.c.worldSize - 1
    else 0
  }

  /** Transfers that are submitted and will complete. With a single group the routing scatter
      has no targets; the engine rejects it and it never counts. */
  function WorkerSubmits(u: Setup, e: nat, r: nat, j: nat): nat {
    if e == 6 || e == 11 then 1
    else if e == 0 then if u.c.groups > 1 then 1 else 0
    else if e == 1 || e == 8 then if u.c.nodes > 1 then 1 else 0
    else if e == 3 && u.Fits(r, r, j) && HasOverflow(u.plans(j), r) then 1 else 0
  }

  function WorkerSettles(u: Setup, e: nat, r: nat, j: nat): nat {
    if e == 7 then 1 + WorkerSubmits(u, 1, r, j) + WorkerSubmits(u, 3, r, j)
    else if e == 12 then 1 + WorkerSubmits(u, 8, r, j) else 0
  }

  function WorkerNet(u: Setup): Net {
    Net(u.c.worldSize, (k, s, p, j) => WorkerLoad(u, k, s, p, j), (e, p, j) => WorkerNeed(u, e, p, j),
        (e, r, j) => WorkerSubmits(u, e, r, j), (e, r, j) => WorkerSettles(u, e, r, j))
  }

  lemma {:induction false} BarrierLoads(u: Setup, e: nat, p: nat, j: nat, m: nat)
    requires (e == 7 || e == 12) && u.nets > 0 && p < u.c.worldSize && m <= u.c.worldSize
    ensures StepLoads(WorkerNet(u), e, p, j, m) == if p < m then m - 1 else m
  {
    hide BarrierLoad;
    if m > 0 {
      BarrierLoads(u, e, p, j, m - 1);
      BarrierLoadIs(u.c.worldSize, u.nets, m - 1, p);
    }
  }

  lemma {:induction false} DispatchLoads(u: Setup, p: nat, j: nat, m: nat)
    requires u.Valid() && p < u.c.worldSize && m <= u.c.worldSize
    ensures StepLoads(WorkerNet(u), 4, p, j, m) == ImmsBelow(u.plans(j), p, u.nets, m)
  {
    hide ScatterLoad;
    if m > 0 {
      DispatchLoads(u, p, j, m - 1);
    }
  }

  /** Ranks below the `i`-th of node `n` that are on other nodes than `p`. */
  lemma {:induction false} CombineLoads(u: Setup, p: nat, j: nat, n: nat, i: nat, m: nat)
    requires u.Valid() && p < u.c.worldSize && u.c.nodeSize > 0 && n < u.c.nodes && i <= u.c.nodeSize
    requires m == Mul(n, u.c.nodeSize) + i <= u.c.worldSize
    ensures u.c.NodeOf(p) < n ==> u.c.nodeSize <= m
    ensures StepLoads(WorkerNet(u), 9, p, j, m)
            == Mul(if n < u.c.NodeOf(p) then m else if n == u.c.NodeOf(p) then Mul(n, u.c.nodeSize) else m - u.c.nodeSize, u.nets)
    decreases n, i
  {
    hide Shape.NodeOf, Quot, Rem;
    if i > 0 {
      CombineLoads(u, p, j, n, i - 1, m - 1);
      CombineLoad(u, m - 1, p, j, n, i - 1);
    } else if n > 0 {
      CombineLoads(u, p, j, n - 1, u.c.nodeSize, m);
    }
  }

  lemma CombineLoad(u: Setup, s: nat, p: nat, j: nat, n: nat, i: nat)
    requires u.Valid() && p < u.c.worldSize && u.c.nodeSize > 0 && s < u.c.worldSize
    requires s == Mul(n, u.c.nodeSize) + i && i < u.c.nodeSize
    ensures StepLoad(WorkerNet(u), 9, s, p, j) == if u.c.NodeOf(p) == n then 0 else u.nets
  {
    hide ScatterLoad;
    ScatterLoadIs(CombineKind, u.plans(j), s, p, u.nets);
    QuotRem(n, i, u.c.nodeSize);
  }

  /** Groups below `g` other than the own one. */
  lemma {:induction false} RouteLoads(u: Setup, p: nat, j: nat, g: nat, d: nat, m: nat)
    requires u.Valid() && p < u.c.worldSize && g < u.c.groups && u.c.dpSize > 0 && d <= u.c.dpSize
    requires m == Mul(g, u.c.dpSize) + d <= u.c.worldSize
    ensures StepLoads(WorkerNet(u), 2, p, j, m)
            == (if u.c.GroupOf(p) < g then g - 1 else g)
               + if g != u.c.GroupOf(p) && u.c.DpRank(p) < d then 1 else 0
    decreases g, d
  {
    hide Shape.GroupOf, Shape.DpRank, Quot, Rem;
    RankParts(u.c, p);
    if d > 0 {
      RouteLoads(u, p, j, g, d - 1, m - 1);
      RouteLoad(u, m - 1, p, j, g, d - 1);
    } else if g > 0 {
      RouteLoads(u, p, j, g - 1, u.c.dpSize, m);
      DpBound(u.c, p);
    }
  }

  lemma DpBound(c: Shape, p: nat)
    requires c.dpSize > 0
    ensures c.DpRank(p) < c.dpSize
  {
  }

  lemma RouteLoad(u: Setup, s: nat, p: nat, j: nat, g: nat, d: nat)
    requires u.Valid() && p < u.c.worldSize && s < u.c.worldSize && u.c.dpSize > 0 && d < u.c.dpSize
    requires s == Mul(g, u.c.dpSize) + d
    ensures StepLoad(WorkerNet(u), 2, s, p, j) == if u.c.GroupOf(p) != g && u.c.DpRank(p) == d then 1 else 0
  {
    hide RowLoad;
    RowLoadIs(u, s, p, j);
    QuotRem(g, d, u.c.dpSize);
  }

  /** What a wait asks for is what all peers send: always for routing, combine and barriers, and
      for dispatch with single-rank groups or on one node. */
  lemma NeedMet(u: Setup, e: nat, p: nat, j: nat)
    requires u.Valid() && IsWait(e) && p < u.c.worldSize && (e == 4 ==> u.c.dpSize == 1 || u.c.nodes == 1)
    ensures WorkerNeed(u, e, p, j) == StepLoads(WorkerNet(u), e, p, j, u.c.worldSize)
  {
    hide StepLoads, Quot, Rem, Shape.NodeOf, Shape.GroupOf, ImmsBelow, ExpectedTx;
    Sizes(u.c);
    RankParts(u.c, p);
    DpBound(u.c, p);
    MulUnfold(u.c.nodes, u.c.nodeSize);
    MulUnfold(u.c.groups, u.c.dpSize);
    if e == 2 {
      RouteLoads(u, p, j, u.c.groups - 1, u.c.dpSize, u.c.worldSize);
    } else if e == 4 {
      DispatchLoads(u, p, j, u.c.worldSize);
      WaitCountExact(u.plans(j), p, u.nets);
    } else if e == 9 {
      CombineLoads(u, p, j, u.c.nodes - 1, u.c.nodeSize, u.c.worldSize);
    } else {
      BarrierLoads(u, e, p, j, u.c.worldSize);
    }
  }

  /** The worker's protocol is fenced and balanced for every shape, except that dispatch is balanced
      only with single-rank groups or on one node. */
  lemma WorkerBalanced(u: Setup)
    requires u.Valid()
    ensures Fenced(WorkerNet(u)) && Balanced(WorkerNet(u), 2) && Balanced(WorkerNet(u), 9)
    ensures u.c.dpSize == 1 || u.c.nodes == 1 ==> Balanced(WorkerNet(u), 4)
  {
    hide StepLoads, WorkerNeed, BarrierLoad;
    forall s: nat, p: nat
      ensures BarrierLoad(u.c.worldSize, u.nets, s, p) == if s == p || s >= u.c.worldSize || p >= u.c.worldSize then 0 else 1
    {
      BarrierLoadIs(u.c.worldSize, u.nets, s, p);
    }
    forall e: nat, p: nat, j: nat | IsWait(e) && p < u.c.worldSize && (e == 4 ==> u.c.dpSize == 1 || u.c.nodes == 1)
      ensures WorkerNet(u).need(e, p, j) == StepLoads(WorkerNet(u), e, p, j, u.c.worldSize)
    {
      NeedMet(u, e, p, j);
    }
  }

  /** It never waits for more than will be sent. */
  lemma WorkerServed(u: Setup)
    requires u.Valid()
    ensures Served(WorkerNet(u))
  {
    hide StepLoads, WorkerNeed, ImmsBelow, ExpectedTx;
    forall e: nat, p: nat, j: nat | IsWait(e) && p < u.c.worldSize
      ensures WorkerNet(u).need(e, p, j) <= StepLoads(WorkerNet(u), e, p, j, u.c.worldSize)
    {
      if e == 4 {
        DispatchServed(u, p, j);
      } else {
        NeedMet(u, e, p, j);
      }
    }
  }

  lemma DispatchServed(u: Setup, p: nat, j: nat)
    requires u.Valid() && p < u.c.worldSize
    ensures StepLoads(WorkerNet(u), 4, p, j, u.c.worldSize)
            == WorkerNeed(u, 4, p, j) + Mul(RemoteBelow(u.plans(j), p, u.c.groups), u.c.dpSize - 1)
  {
    hide StepLoads, ImmsBelow, ExpectedTx;
    DispatchLoads(u, p, j, u.c.worldSize);
    ImmsAgainstWait(u.plans(j), p, u.nets);
  }

  /** For the worker: in every reachable state a rank that is reading its receive buffer after
      dispatch has no dispatch write in flight towards it, with single-rank groups or on one node;
      for every shape, a rank reading the routing table has no row in flight towards it, one reading
      after combine no combine write, and one whose table row may be rewritten none of its own rows. */
  lemma WorkerReadsSafely(u: Setup, run: seq<State>, i: nat, s: nat, p: nat)
    requires u.Valid() && Run(WorkerNet(u), run) && i < |run| && s < u.c.worldSize && p < u.c.worldSize
    ensures Shaped(WorkerNet(u), run[i])
    ensures run[i].pc[p] == 3 ==> Landed(WorkerNet(u), run[i], Route, s, p)
    ensures (run[i].pc[p] == 5 || run[i].pc[p] == 10) && (u.c.dpSize == 1 || u.c.nodes == 1) ==>
              Landed(WorkerNet(u), run[i], Private, s, p) && Landed(WorkerNet(u), run[i], Overflow, s, p)
    ensures run[i].pc[p] == 5 || run[i].pc[p] == 10 ==> Landed(WorkerNet(u), run[i], Combine, s, p)
    ensures run[i].pc[s] >= 11 || run[i].pc[s] == 0 ==> Landed(WorkerNet(u), run[i], Route, s, p)
  {
    hide Balanced, Fenced, Run, Landed, Sent, Cum;
    WorkerBalanced(u);
    RouteWindow(WorkerNet(u), run, i, s, p);
    if u.c.dpSize == 1 || u.c.nodes == 1 {
      DispatchWindow(WorkerNet(u), run, i, s, p);
    }
    CombineWindow(WorkerNet(u), run, i, s, p);
    RouteRowFree(WorkerNet(u), run, i, s, p);
  }

  /** Routing writes in `k` steps. */
  function RouteGap(u: Setup, k: nat): nat {
    if u.c.groups > 1 then k else 0
  }

  /** Transfers submitted but not yet waited for, before event `e` of step `k`. */
  function Outstanding(u: Setup, r: nat, k: nat, e: nat): nat {
    RouteGap(u, if e > 0 then k + 1 else k)
    + (if 1 < e <= 7 then WorkerSubmits(u, 1, r, k) else 0)
    + (if 3 < e <= 7 then WorkerSubmits(u, 3, r, k) else 0)
    + (if 6 < e <= 7 then 1 else 0)
    + (if 8 < e <= 12 then WorkerSubmits(u, 8, r, k) else 0)
    + (if 11 < e <= 12 then 1 else 0)
  }

  /** Transfer accounting: the routing write is submitted but never waited for, so the gap
      between submitted and awaited transfers grows by one in every step, while everything
      else balances out at the barriers. */
  lemma {:induction false} TransferGap(u: Setup, r: nat, k: nat, e: nat)
    requires e <= LAST + 1
    ensures Submitted(WorkerNet(u), r, k, e) == Settled(WorkerNet(u), r, k, e) + Outstanding(u, r, k, e)
    decreases k, e
  {
    hide Outstanding, WorkerSubmits, WorkerSettles;
    if e > 0 {
      TransferGap(u, r, k, e - 1);
      OutstandingStep(u, r, k, e - 1);
    } else if k > 0 {
      TransferGap(u, r, k - 1, LAST + 1);
      OutstandingTurn(u, r, k - 1);
    } else {
      OutstandingNone(u, r);
    }
  }

  lemma OutstandingStep(u: Setup, r: nat, k: nat, e: nat)
    requires e <= LAST
    ensures Outstanding(u, r, k, e + 1) + WorkerSettles(u, e, r, k) == Outstanding(u, r, k, e) + WorkerSubmits(u, e, r, k)
  {
    hide HasOverflow, Setup.Fits;
  }

  lemma OutstandingTurn(u: Setup, r: nat, k: nat)
    ensures Outstanding(u, r, k, LAST + 1) == Outstanding(u, r, k + 1, 0)
  {
    hide WorkerSubmits;
  }

  lemma OutstandingNone(u: Setup, r: nat)
    ensures Outstanding(u, r, 0, 0) == 0
  {
    hide WorkerSubmits;
  }

  /** After `k` whole steps with two or more groups the settled completion counter stands at
      `k`, and each barrier of step `k` can be passed with `k + 1` of the rank's own transfers
      still incomplete; with one group everything balances. */
  lemma SettledCounter(u: Setup, r: nat, k: nat)
    ensures Submitted(WorkerNet(u), r, k, 0) == Settled(WorkerNet(u), r, k, 0) + RouteGap(u, k)
    ensures Submitted(WorkerNet(u), r, k, 7) == Settled(WorkerNet(u), r, k, 8) + RouteGap(u, k + 1)
    ensures Submitted(WorkerNet(u), r, k, 12) == Settled(WorkerNet(u), r, k, 13) + RouteGap(u, k + 1)
  {
    hide HasOverflow;
    TransferGap(u, r, k, 0);
    TransferGap(u, r, k, 7);
    TransferGap(u, r, k, 12);
  }

  /** No barrier asks for more completions than there can be. */
  lemma WorkerPayable(u: Setup)
    ensures Payable(WorkerNet(u))
  {
    hide HasOverflow, Submitted;
    forall r: nat, k: nat, e: nat | IsWait(e)
      ensures Settled(WorkerNet(u), r, k, e + 1) <= Submitted(WorkerNet(u), r, k, e)
    {
      TransferGap(u, r, k, e);
    }
  }

  /** So the worker's protocol never deadlocks, whatever the shape. */
  lemma WorkerNeverStuck(u: Setup, run: seq<State>) returns (st: State)
    requires u.Valid() && Run(WorkerNet(u), run)
    ensures Run(WorkerNet(u), run + [st])
  {
    hide Next, Balanced, Fenced, Served, Payable, Init, Inv;
    WorkerBalanced(u);
    WorkerServed(u);
    WorkerPayable(u);
    RunInv(WorkerNet(u), run, |run| - 1);
    WorldNotEmpty(u, run[|run| - 1]);
    st := NoDeadlock(WorkerNet(u), run[|run| - 1]);
    var longer := run + [st];
    forall i | 0 < i < |longer| ensures Next(WorkerNet(u), longer[i - 1], longer[i]) {
      if i < |run| {
        assert longer[i - 1] == run[i - 1] && longer[i] == run[i];
      }
    }
  }

  lemma WorldNotEmpty(u: Setup, st: State)
    requires u.Valid() && Inv(WorkerNet(u), st)
    ensures WorkerNet(u).n > 0 && Shaped(WorkerNet(u), st)
  {
  }
}
