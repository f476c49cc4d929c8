/** Exactly when a rank can read, after dispatch, a slot that nobody has written yet. */
module UnwrittenRead {
  import opened Arith
  import opened Topology
  import opened Placement
  import opened Dispatch
  import opened Scatter
  import opened StepProtocol
  import opened WorkerProtocol
  import opened EarlyRead
  import opened Delivery

  /** As many writes of class `c` from `s` to `p` have landed as were sent before step `j`, but
      not as many as up to and including it: those of step `j` have not all landed. */
  predicate Missing(net: Net, st: State, c: Class, s: nat, p: nat, j: nat) {
    Cum(net, c, s, p, j) <= st.got(c, s, p) < Cum(net, c, s, p, j + 1)
  }

  /** Nobody has written the `index`-th token of group `g` for `p`: a token in the private part is
      sent by all ranks of the group, one behind it by the rank with the receiver's index only. */
  predicate Unwritten(u: Setup, st: State, p: nat, g: nat, index: nat)
    requires p < |st.step| && u.c.dpSize > 0
  {
    var j := st.step[p];
    if index < u.c.maxPrivate
    then forall s: nat :: Mul(g, u.c.dpSize) <= s < Mul(g + 1, u.c.dpSize) ==> Missing(WorkerNet(u), st, Private, s, p, j)
    else Missing(WorkerNet(u), st, Overflow, Mul(g, u.c.dpSize) + u.c.DpRank(p), p, j)
  }

  /** The ranks whose immediates must all be late for the token to be unwritten. */
  function First(u: Setup, p: nat, g: nat, index: nat): nat
    requires u.c.dpSize > 0
  {
    if index < u.c.maxPrivate then Mul(g, u.c.dpSize) else Mul(g, u.c.dpSize) + u.c.DpRank(p)
  }

  function Late(u: Setup, index: nat): nat {
    if index < u.c.maxPrivate then u.c.dpSize else 1
  }

  function LateClass(u: Setup, index: nat): Class {
    if index < u.c.maxPrivate then Private else Overflow
  }

  lemma UnwrittenIs(u: Setup, st: State, p: nat, g: nat, index: nat)
    requires p < |st.step| && u.c.dpSize > 0
    ensures Unwritten(u, st, p, g, index)
            <==> forall s: nat :: First(u, p, g, index) <= s < First(u, p, g, index) + Late(u, index) ==>
                   Missing(WorkerNet(u), st, LateClass(u, index), s, p, st.step[p])
  {
    hide Missing, WorkerNet, Mul, Rem;
    MulUnfold(g + 1, u.c.dpSize);
    var first, c := First(u, p, g, index), LateClass(u, index);
    if Unwritten(u, st, p, g, index) {
      forall s: nat | first <= s < first + Late(u, index) ensures Missing(WorkerNet(u), st, c, s, p, st.step[p]) {
      }
    }
    if forall s: nat :: first <= s < first + Late(u, index) ==> Missing(WorkerNet(u), st, c, s, p, st.step[p]) {
      assert Late(u, index) > 0 && Missing(WorkerNet(u), st, c, first, p, st.step[p]);
    }
  }

  /** The late senders exist, and each sends something. */
  lemma LateSenders(u: Setup, p: nat, j: nat, g: nat, index: nat, s: nat)
    requires u.Valid() && p < u.c.worldSize && g < u.c.groups && u.c.nodeSize > 0 && u.c.GroupNode(g) != u.c.NodeOf(p)
    requires index < u.plans(j).Count(g, p)
    requires First(u, p, g, index) <= s < First(u, p, g, index) + Late(u, index)
    ensures s < u.c.worldSize && WorkerNet(u).load(LateClass(u, index), s, p, j) > 0
  {
    hide Plan.Count, ScatterLoad, Shape.GroupOf, Shape.DpRank, Shape.NodeOf, Shape.GroupNode, Mul, Quot, Rem;
    DpBound(u.c, p);
    var d: nat := s - Mul(g, u.c.dpSize);
    GroupMember(u.c, g, d);
    if index < u.c.maxPrivate {
      PrivateSent(u, s, p, j);
    } else {
      OverflowSent(u, p, j, g, s);
    }
  }

  lemma OverflowSent(u: Setup, p: nat, j: nat, g: nat, s: nat)
    requires u.Valid() && p < u.c.worldSize && g < u.c.groups && s < u.c.worldSize && u.c.nodeSize > 0
    requires u.c.GroupOf(s) == g && u.c.DpRank(s) == u.c.DpRank(p) && u.c.NodeOf(s) != u.c.NodeOf(p)
    requires u.plans(j).Count(g, p) > u.c.maxPrivate
    ensures WorkerNet(u).load(Overflow, s, p, j) > 0
  {
    hide Plan.Count, ScatterLoad, Shape.GroupOf, Shape.DpRank, Shape.NodeOf;
    ScatterLoadIs(OverflowKind, u.plans(j), s, p, u.nets);
  }

  lemma FirstFits(u: Setup, p: nat, g: nat, index: nat)
    requires u.Valid() && p < u.c.worldSize && g < u.c.groups
    ensures First(u, p, g, index) + Late(u, index) <= u.c.worldSize && Late(u, index) > 0
  {
    hide Quot, Rem;
    Sizes(u.c);
    DpBound(u.c, p);
    MulMonotone(g + 1, u.c.groups, u.c.dpSize);
    MulUnfold(g + 1, u.c.dpSize);
  }

  /** If the surplus covers the late immediates, there is such a run. */
  lemma CanRead(u: Setup, p: nat, j: nat, g: nat, index: nat) returns (st: State)
    requires u.Valid() && p < u.c.worldSize && g < u.c.groups && u.c.nodeSize > 0 && u.c.GroupNode(g) != u.c.NodeOf(p)
    requires index < u.plans(j).Count(g, p) && Late(u, index) <= Surplus(u.c, j + 1)
    ensures Reachable(WorkerNet(u), st) && Shaped(WorkerNet(u), st) && st.step[p] == j && st.pc[p] == 5
    ensures Unwritten(u, st, p, g, index)
  {
    hide Reachable, Loads, CumNeed, Fenced, Served, Payable, Cum, Plan.Count, First, Late, LateClass,
         Surplus, Shape.NodeOf, Shape.GroupNode, Unwritten;
    WorkerBalanced(u);
    WorkerServed(u);
    WorkerPayable(u);
    SurplusIs(u, p, j + 1);
    FirstFits(u, p, g, index);
    var lo := First(u, p, g, index);
    forall s: nat | lo <= s < lo + Late(u, index) ensures WorkerNet(u).load(LateClass(u, index), s, p, j) > 0 {
      LateSenders(u, p, j, g, index, s);
    }
    LateIsDispatch(u, index);
    st := ReadsWithout(WorkerNet(u), j, p, LateClass(u, index), lo, lo + Late(u, index));
    UnwrittenIs(u, st, p, g, index);
  }

  lemma LateIsDispatch(u: Setup, index: nat)
    ensures LateClass(u, index) == Private || LateClass(u, index) == Overflow
  {
  }

  lemma {:induction false} TotalsAtMost(net: Net, st: State, p: nat, k: nat, m: nat, lo: nat, hi: nat)
    requires forall s: nat :: s < m ==> GotFrom(st, 4, s, p) + (if lo <= s < hi then 1 else 0) <= LoadFrom(net, 4, s, p, k)
    ensures GotTotal(st, 4, p, m) + Within(m, lo, hi) <= Loads(net, 4, p, k, m)
  {
    hide GotFrom, LoadFrom;
    if m > 0 {
      TotalsAtMost(net, st, p, k, m - 1, lo, hi);
    }
  }

  /** What has arrived from one rank, given what is missing. */
  lemma ShareMissing(net: Net, st: State, c: Class, s: nat, p: nat, k: nat)
    requires Inv(net, st) && s < net.n && p < net.n && Done(st, 1, s) <= k && Done(st, 3, s) <= k
    requires (c == Private || c == Overflow) && st.got(c, s, p) < Cum(net, c, s, p, k)
    ensures GotFrom(st, 4, s, p) + 1 <= LoadFrom(net, 4, s, p, k)
  {
    hide BarriersHold, WaitsCovered, Cum;
    CumMonotone(net, Private, s, p, Done(st, 1, s), k);
    CumMonotone(net, Overflow, s, p, Done(st, 3, s), k);
    assert st.got(Private, s, p) <= Sent(net, st, Private, s, p);
    assert st.got(Overflow, s, p) <= Sent(net, st, Overflow, s, p);
  }

  /** And if there is such a run, the surplus covers the late immediates. */
  lemma MustCover(u: Setup, st: State, p: nat, g: nat, index: nat)
    requires u.Valid() && p < u.c.worldSize && g < u.c.groups
    requires Reachable(WorkerNet(u), st) && Shaped(WorkerNet(u), st) && st.pc[p] == 5 && Unwritten(u, st, p, g, index)
    ensures Late(u, index) <= Surplus(u.c, st.step[p] + 1)
  {
    hide Reachable, Loads, CumNeed, Fenced, Cum, GotTotal, GotFrom, LoadFrom, First, Late,
         LateClass, Surplus, Unwritten, Sent, OnlySent;
    WorkerBalanced(u);
    var net, k := WorkerNet(u), st.step[p] + 1;
    ReachedInv(net, st);
    FirstFits(u, p, g, index);
    UnwrittenIs(u, st, p, g, index);
    LateIsDispatch(u, index);
    var lo, hi := First(u, p, g, index), First(u, p, g, index) + Late(u, index);
    forall s: nat | s < net.n ensures GotFrom(st, 4, s, p) + (if lo <= s < hi then 1 else 0) <= LoadFrom(net, 4, s, p, k) {
      assert Done(st, 12, s) <= Done(st, 11, p);
      if lo <= s < hi {
        assert Missing(net, st, LateClass(u, index), s, p, st.step[p]);
        ShareMissing(net, st, LateClass(u, index), s, p, k);
      } else {
        WithinShare(net, st, 4, s, p, k);
      }
    }
    TotalsAtMost(net, st, p, k, net.n, lo, hi);
    assert GotTotal(st, 4, p, net.n) >= CumNeed(net, 4, p, Done(st, 4, p));
    SurplusIs(u, p, k);
  }

  /** For any routing, any step and any token that a rank is sent by a group of another node: there
      is a run in which the rank reads it before anybody has written it if and only if groups have
      several ranks, and the token lies behind the private part, or the step is not the first, or
      the rank hears from two or more groups of other nodes. */
  lemma UnwrittenIff(u: Setup, p: nat, j: nat, g: nat, index: nat)
    requires u.Valid() && p < u.c.worldSize && g < u.c.groups && u.c.nodeSize > 0 && u.c.GroupNode(g) != u.c.NodeOf(p)
    requires index < u.plans(j).Count(g, p)
    ensures (exists st :: ReadsUnwritten(u, st, p, j, g, index))
            <==> u.c.dpSize > 1 && (index >= u.c.maxPrivate || j > 0 || u.c.groups >= u.c.groupsPerNode + 2)
  {
    hide Reachable, Shape.NodeOf, Shape.GroupNode, Plan.Count, Unwritten, Surplus;
    SurplusCovers(u.c, j);
    Elsewhere(u.c, p, g);
    if Late(u, index) <= Surplus(u.c, j + 1) {
      var st := CanRead(u, p, j, g, index);
      assert ReadsUnwritten(u, st, p, j, g, index);
    }
    if st :| ReadsUnwritten(u, st, p, j, g, index) {
      MustCover(u, st, p, g, index);
    }
  }

  ghost predicate ReadsUnwritten(u: Setup, st: State, p: nat, j: nat, g: nat, index: nat) {
    && Reachable(WorkerNet(u), st) && Shaped(WorkerNet(u), st) && u.c.dpSize > 0
    && p < u.c.worldSize && st.step[p] == j && st.pc[p] == 5 && Unwritten(u, st, p, g, index)
  }

  lemma Elsewhere(c: Shape, p: nat, g: nat)
    requires c.Valid() && p < c.worldSize && g < c.groups && c.nodeSize > 0 && c.GroupNode(g) != c.NodeOf(p)
    ensures c.nodes > 1
  {
    hide Rem;
    RankParts(c, p);
    QuotBound(g, c.nodes, c.groupsPerNode);
  }

  lemma NotLanded(u: Setup, st: State, c: Class, s: nat, p: nat, j: nat)
    requires Missing(WorkerNet(u), st, c, s, p, j)
    ensures !LandedUpTo(WorkerNet(u), st, c, s, p, j)
  {
    hide Cum, WorkerNet;
  }

  /** A write into the slot of a token of a group of another node comes from that group: over the
      network, in the private part from any of its ranks, behind it from the one with the receiver's
      index. */
  lemma SlotWriter<T>(job: Job<T>, q: nat, g: nat, k: nat, index: nat, r: nat, src: nat)
    requires job.IndexOn(g, k, q, index) && q < job.p.c.worldSize && r < job.p.c.worldSize
    ensures PrivateCopy(job.p, r, q, src, RecvSlotOf(job.p, q, g, index)) ==> index < job.p.c.maxPrivate && job.p.c.GroupOf(r) == g
    ensures OverflowCopy(job.p, r, q, src, RecvSlotOf(job.p, q, g, index)) ==>
              index >= job.p.c.maxPrivate && job.p.c.GroupOf(r) == g && job.p.c.DpRank(r) == job.p.c.DpRank(q)
  {
    var c, g', slot := job.p.c, job.p.c.GroupOf(r), RecvSlotOf(job.p, q, g, index);
    RankParts(c, r);
    PositionRange(job, g, k);
    if PrivateCopy(job.p, r, q, src, slot) {
      var index': nat := src - job.p.Start(g', q);
      PrivateSlot(c, g', index', g', index');
      if index < c.maxPrivate {
        PrivateSlot(c, g, index, g', index');
      }
    }
    if OverflowCopy(job.p, r, q, src, slot) {
      var index': nat := src - job.p.Start(g', q);
      if index < c.maxPrivate {
        PrivateSlot(c, g, index, g, index);
      } else {
        OverflowSlot(job.p, q, g, index, g', index');
      }
    }
  }

  lemma NoDirect<T>(job: Job<T>, q: nat, g: nat, k: nat, index: nat, r: nat, v: T)
    requires job.IndexOn(g, k, q, index) && q < job.p.c.worldSize && r < job.p.c.worldSize && job.p.c.nodeSize > 0
    requires job.p.c.GroupNode(g) != job.p.c.NodeOf(q)
    ensures !job.DirectWrite(r, q, RecvSlotOf(job.p, q, g, index), v)
  {
    var c, g', slot := job.p.c, job.p.c.GroupOf(r), RecvSlotOf(job.p, q, g, index);
    RankParts(c, r);
    if job.DirectWrite(r, q, slot, v) {
      var i': nat, index': nat :| job.IndexOn(g', i', q, index') && job.Direct(r, q, index')
        && slot == Mul(g', c.maxPrivate) + index';
      PrivateSlot(c, g', index', g', index');
      if index < c.maxPrivate {
        PrivateSlot(c, g, index, g', index');
      }
    }
  }

  lemma MemberIs(c: Shape, g: nat, r: nat, q: nat)
    requires c.Valid() && r < c.worldSize && c.GroupOf(r) == g
    ensures Mul(g, c.dpSize) <= r < Mul(g + 1, c.dpSize)
    ensures c.DpRank(r) == c.DpRank(q) ==> r == Mul(g, c.dpSize) + c.DpRank(q)
  {
    RankParts(c, r);
    MulUnfold(g + 1, c.dpSize);
  }

  /** Nothing in memory then is the token's: no write that the rank can see fills its slot. */
  lemma UnwrittenMeans<T>(u: Setup, st: State, job: Job<T>, q: nat, g: nat, k: nat, index: nat, v: T)
    requires u.Valid() && q < |st.step| && q < u.c.worldSize && job.p == u.plans(st.step[q]) && job.IndexOn(g, k, q, index)
    requires u.c.nodeSize > 0 && u.c.GroupNode(g) != u.c.NodeOf(q) && Unwritten(u, st, q, g, index)
    ensures Fetch(job.p, q, g, index).rank < job.p.c.worldSize
    ensures !MemoryHolds(WorkerNet(u), st, job, st.step[q], Fetch(job.p, q, g, index), v)
  {
    hide Job.SendHolds, Job.DirectWrite, PrivateCopy, OverflowCopy, LandedUpTo, Missing, Job.GroupValid, Job.Payload, WorkerNet;
    var net, j, slot := WorkerNet(u), st.step[q], RecvSlotOf(job.p, q, g, index);
    FetchRemote(job.p, q, g, index);
    forall r: nat | r < job.p.c.worldSize ensures !VisibleTo(net, st, job, j, r, q, slot, v) {
      NoDirect(job, q, g, k, index, r, v);
      forall src: nat
        ensures !(PrivateCopy(job.p, r, q, src, slot) && LandedUpTo(net, st, Private, r, q, j))
        ensures !(OverflowCopy(job.p, r, q, src, slot) && LandedUpTo(net, st, Overflow, r, q, j))
      {
        NotVisible(u, st, job, q, g, k, index, r, src);
      }
    }
  }

  lemma NotVisible<T>(u: Setup, st: State, job: Job<T>, q: nat, g: nat, k: nat, index: nat, r: nat, src: nat)
    requires u.Valid() && q < |st.step| && q < u.c.worldSize && r < u.c.worldSize && job.p == u.plans(st.step[q]) && job.IndexOn(g, k, q, index)
    requires Unwritten(u, st, q, g, index)
    ensures !(PrivateCopy(job.p, r, q, src, RecvSlotOf(job.p, q, g, index)) && LandedUpTo(WorkerNet(u), st, Private, r, q, st.step[q]))
    ensures !(OverflowCopy(job.p, r, q, src, RecvSlotOf(job.p, q, g, index)) && LandedUpTo(WorkerNet(u), st, Overflow, r, q, st.step[q]))
  {
    hide PrivateCopy, OverflowCopy, LandedUpTo, Missing, WorkerNet, Job.IndexOn, RecvSlotOf, Shape.GroupOf, Shape.DpRank, Mul;
    IndexValid(job, g, k, q, index);
    SlotWriter(job, q, g, k, index, r, src);
    if u.c.GroupOf(r) == g {
      MemberIs(u.c, g, r, q);
      if index < u.c.maxPrivate {
        NotLanded(u, st, Private, r, q, st.step[q]);
      } else if u.c.DpRank(r) == u.c.DpRank(q) {
        NotLanded(u, st, Overflow, r, q, st.step[q]);
      }
    }
  }

  lemma IndexValid<T>(job: Job<T>, g: nat, k: nat, q: nat, index: nat)
    requires job.IndexOn(g, k, q, index)
    ensures job.Valid() && g < job.p.c.groups
  {
  }

  lemma FetchRemote(p: Plan, q: nat, g: nat, index: nat)
    requires p.Valid() && q < p.c.worldSize && g < p.c.groups && p.c.nodeSize > 0 && p.c.GroupNode(g) != p.c.NodeOf(q)
    ensures Fetch(p, q, g, index) == RecvSlot(q, RecvSlotOf(p, q, g, index))
  {
    RankParts(p.c, q);
  }
}
