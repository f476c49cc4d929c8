/** What happens when a rank waits for fewer dispatch immediates than it is sent: runs in which
    it reads while writes are still in flight, and so the exact limits of the protocol. */
module EarlyRead {
  import opened Arith
  import opened Topology
  import opened Placement
  import opened Scatter
  import opened StepProtocol
  import opened WorkerProtocol

  ghost predicate Reachable(net: Net, st: State) {
    exists run: seq<State> :: Run(net, run) && run[|run| - 1] == st
  }

  lemma Extend(net: Net, st: State, st': State)
    requires Reachable(net, st) && Next(net, st, st')
    ensures Reachable(net, st')
  {
    hide Next, Init;
    var run: seq<State> :| Run(net, run) && run[|run| - 1] == st;
    var longer := run + [st'];
    forall i | 0 < i < |longer| ensures Next(net, longer[i - 1], longer[i]) {
      if i < |run| {
        assert longer[i - 1] == run[i - 1] && longer[i] == run[i];
      }
    }
    assert Run(net, longer);
  }

  lemma BeginReached(net: Net)
    ensures Reachable(net, Begin(net))
  {
    BeginRun(net);
    assert [Begin(net)][|[Begin(net)]| - 1] == Begin(net);
  }

  lemma ReachedInv(net: Net, st: State)
    requires Fenced(net) && Reachable(net, st)
    ensures Inv(net, st)
  {
    hide Fenced, Next, Init, Inv;
    var run: seq<State> :| Run(net, run) && run[|run| - 1] == st;
    RunInv(net, run, |run| - 1);
  }

  /** Deliver messages of one class from `s` to `q` until `v` have arrived. */
  lemma {:induction false} DeliverUpTo(net: Net, st: State, c: Class, s: nat, q: nat, v: nat) returns (st': State)
    requires Reachable(net, st) && Shaped(net, st) && s < net.n && q < net.n
    requires st.got(c, s, q) <= v <= Sent(net, st, c, s, q)
    ensures Reachable(net, st') && st'.step == st.step && st'.pc == st.pc && st'.tx == st.tx
    ensures forall c', s': nat, q': nat :: st'.got(c', s', q') == if (c', s', q') == (c, s, q) then v else st.got(c', s', q')
    decreases v - st.got(c, s, q)
  {
    hide Reachable, Cum;
    st' := st;
    if st.got(c, s, q) < v {
      var next := st.(got := Bumped(st.got, c, s, q));
      assert Deliver(net, st, next, c, s, q);
      Extend(net, st, next);
      st' := DeliverUpTo(net, next, c, s, q, v);
    }
  }

  /** Deliver everything of one class to `q` from the ranks below `m`, except for one message
      from each rank from `lo` to `hi`. */
  lemma {:induction false} DeliverBut(net: Net, st: State, c: Class, q: nat, m: nat, lo: nat, hi: nat) returns (st': State)
    requires Reachable(net, st) && Shaped(net, st) && m <= net.n && q < net.n
    requires forall s: nat :: s < net.n ==> st.got(c, s, q) + (if lo <= s < hi then 1 else 0) <= Sent(net, st, c, s, q)
    ensures Reachable(net, st') && st'.step == st.step && st'.pc == st.pc && st'.tx == st.tx
    ensures forall c', s: nat, q': nat :: st'.got(c', s, q')
              == if c' == c && q' == q && s < m then Sent(net, st, c, s, q) - (if lo <= s < hi then 1 else 0) else st.got(c', s, q')
    decreases m
  {
    hide Reachable, Cum;
    st' := st;
    if m > 0 {
      st' := DeliverBut(net, st, c, q, m - 1, lo, hi);
      st' := DeliverUpTo(net, st', c, m - 1, q, Sent(net, st, c, m - 1, q) - if lo <= m - 1 < hi then 1 else 0);
    }
  }

  /** Deliver everything of one class to the ranks below `m`. */
  lemma {:induction false} DeliverClass(net: Net, st: State, c: Class, m: nat) returns (st': State)
    requires Reachable(net, st) && Shaped(net, st) && m <= net.n
    requires forall s: nat, q: nat :: s < net.n && q < net.n ==> st.got(c, s, q) <= Sent(net, st, c, s, q)
    ensures Reachable(net, st') && st'.step == st.step && st'.pc == st.pc && st'.tx == st.tx
    ensures forall c', s: nat, q: nat :: st'.got(c', s, q)
              == if c' == c && q < m && s < net.n then Sent(net, st, c, s, q) else st.got(c', s, q)
    decreases m
  {
    hide Reachable, Cum;
    st' := st;
    if m > 0 {
      st' := DeliverClass(net, st, c, m - 1);
      st' := DeliverBut(net, st', c, m - 1, net.n, 0, 0);
    }
  }

  lemma {:induction false} CompleteUpTo(net: Net, st: State, r: nat) returns (st': State)
    requires Reachable(net, st) && Shaped(net, st) && r < net.n
    ensures Reachable(net, st') && st'.step == st.step && st'.pc == st.pc && |st'.tx| == |st.tx|
    ensures st'.tx[r] >= Submitted(net, r, st.step[r], st.pc[r])
    ensures forall q :: 0 <= q < net.n && q != r ==> st'.tx[q] == st.tx[q]
    ensures forall c, s: nat, q: nat :: st'.got(c, s, q) == st.got(c, s, q)
    decreases Submitted(net, r, st.step[r], st.pc[r]) - st.tx[r]
  {
    hide Reachable, Submitted;
    st' := st;
    if st.tx[r] < Submitted(net, r, st.step[r], st.pc[r]) {
      var next := st.(tx := st.tx[r := st.tx[r] + 1]);
      assert Complete(net, st, next, r);
      Extend(net, st, next);
      st' := CompleteUpTo(net, next, r);
    }
  }

  /** All transfers of the ranks below `m` complete. */
  predicate Completed(net: Net, st: State, m: nat) {
    Shaped(net, st) && m <= net.n && forall r: nat :: r < m ==> st.tx[r] >= Submitted(net, r, st.step[r], st.pc[r])
  }

  lemma {:induction false} CompleteAll(net: Net, st: State, m: nat) returns (st': State)
    requires Reachable(net, st) && Shaped(net, st) && m <= net.n
    ensures Reachable(net, st') && st'.step == st.step && st'.pc == st.pc && Completed(net, st', m)
    ensures forall c, s: nat, q: nat :: st'.got(c, s, q) == st.got(c, s, q)
    decreases m
  {
    hide Reachable, Submitted;
    st' := st;
    if m > 0 {
      st' := CompleteAll(net, st, m - 1);
      st' := CompleteUpTo(net, st', m - 1);
    }
  }

  /** Nothing is in flight. */
  ghost predicate Still(net: Net, st: State) {
    Shaped(net, st) && forall c, s: nat, q: nat :: s < net.n && q < net.n ==> st.got(c, s, q) == Sent(net, st, c, s, q)
  }

  /** Everything in flight arrives, and all transfers complete. */
  lemma Settle(net: Net, st: State) returns (st': State)
    requires Reachable(net, st) && Inv(net, st)
    ensures Reachable(net, st') && st'.step == st.step && st'.pc == st.pc && Still(net, st') && Completed(net, st', net.n)
  {
    hide Reachable, Cum, Submitted, BarriersHold, WaitsCovered;
    st' := DeliverClass(net, st, Route, net.n);
    st' := DeliverClass(net, st', Private, net.n);
    st' := DeliverClass(net, st', Overflow, net.n);
    st' := DeliverClass(net, st', BarrierD, net.n);
    st' := DeliverClass(net, st', Combine, net.n);
    st' := DeliverClass(net, st', BarrierC, net.n);
    var all := st';
    assert Still(net, all);
    st' := CompleteAll(net, all, net.n);
    assert Still(net, st');
  }

  /** Events a rank has completed. */
  function Pos(st: State, r: nat): nat
    requires r < |st.step| == |st.pc|
  {
    (LAST + 1) * st.step[r] + st.pc[r]
  }

  /** Events left until all ranks below `m` have completed `goal`. */
  ghost function Left(st: State, m: nat, goal: nat): int
    requires m <= |st.step| == |st.pc|
  {
    if m == 0 then 0 else Left(st, m - 1, goal) + (goal - Pos(st, m - 1))
  }

  lemma {:induction false} LeftBounds(st: State, m: nat, goal: nat)
    requires m <= |st.step| == |st.pc| && forall r: nat :: r < m ==> Pos(st, r) <= goal
    ensures Left(st, m, goal) >= 0
  {
    hide Pos;
    if m > 0 {
      LeftBounds(st, m - 1, goal);
    }
  }

  lemma {:induction false} LeftMoved(st: State, r: nat, m: nat, goal: nat)
    requires r < |st.step| == |st.pc| && m <= |st.step| && st.pc[r] <= LAST
    ensures Left(Moved(st, r), m, goal) == Left(st, m, goal) - if r < m then 1 else 0
  {
    if m > 0 {
      LeftMoved(st, r, m - 1, goal);
    }
  }

  lemma {:induction false} LeftSame(st: State, st': State, m: nat, goal: nat)
    requires m <= |st.step| == |st.pc| && st'.step == st.step && st'.pc == st.pc
    ensures Left(st', m, goal) == Left(st, m, goal)
  {
    if m > 0 {
      LeftSame(st, st', m - 1, goal);
    }
  }

  /** Everybody is before event `e` of step `j`. */
  predicate AllAt(net: Net, st: State, j: nat, e: nat) {
    Shaped(net, st) && forall r :: 0 <= r < net.n ==> st.step[r] == j && st.pc[r] == e
  }

  /** The ranks can all be brought to the same event, with nothing in flight: let everything
      arrive, move the slowest rank, and repeat. */
  lemma {:induction false} Drive(net: Net, st: State, j: nat, e: nat) returns (st': State)
    requires Reachable(net, st) && Fenced(net) && Served(net) && Payable(net) && net.n > 0 && e <= LAST && Shaped(net, st)
    requires forall r: nat :: r < net.n ==> Pos(st, r) <= (LAST + 1) * j + e
    ensures Reachable(net, st') && AllAt(net, st', j, e) && Still(net, st') && Completed(net, st', net.n)
    decreases Left(st, net.n, (LAST + 1) * j + e)
  {
    hide Reachable, Fenced, Served, Payable, Inv, Left, Enabled, Submitted, Sent;
    var goal := (LAST + 1) * j + e;
    ReachedInv(net, st);
    var calm := Settle(net, st);
    var r := Slowest(calm, net.n);
    if Pos(calm, r) == goal {
      forall s | 0 <= s < net.n ensures calm.step[s] == j && calm.pc[s] == e {
        assert Pos(st, s) <= goal;
      }
      st' := calm;
    } else {
      SlowestEnabled(net, calm, r);
      var next := Moved(calm, r);
      assert Advance(net, calm, next, r);
      Extend(net, calm, next);
      LeftSame(st, calm, net.n, goal);
      LeftMoved(calm, r, net.n, goal);
      forall s: nat | s < net.n ensures Pos(next, s) <= goal {
        assert Pos(st, s) <= goal;
      }
      LeftBounds(next, net.n, goal);
      LeftBounds(st, net.n, goal);
      st' := Drive(net, next, j, e);
    }
  }

  /** The ranks below `m` are past event `e` of step `j`, the others before it. */
  predicate Line(net: Net, st: State, j: nat, e: nat, m: nat) {
    && Shaped(net, st) && e < LAST
    && forall r :: 0 <= r < net.n ==> st.step[r] == j && st.pc[r] == if r < m then e + 1 else e
  }

  lemma SameTotals(st: State, st': State, e: nat, p: nat, m: nat)
    requires IsWait(e) && forall c, s: nat, q: nat :: st'.got(c, s, q) == st.got(c, s, q)
    ensures GotTotal(st', e, p, m) == GotTotal(st, e, p, m)
  {
    GotTotalGrows(st, st', e, p, m);
    GotTotalGrows(st', st, e, p, m);
  }

  /** What rank `r` needs to pass event `e` of step `j`. */
  predicate Ready(net: Net, st: State, j: nat, e: nat, r: nat)
    requires r < |st.tx|
  {
    IsWait(e) ==> GotTotal(st, e, r, net.n) >= CumNeed(net, e, r, j + 1) && st.tx[r] >= Settled(net, r, j, e + 1)
  }

  /** The ranks below `m` pass event `e`, one after the other. */
  lemma {:induction false} PassEvent(net: Net, st: State, j: nat, e: nat, m: nat) returns (st': State)
    requires Reachable(net, st) && Line(net, st, j, e, 0) && m <= net.n
    requires forall r: nat :: r < m ==> Ready(net, st, j, e, r)
    ensures Reachable(net, st') && Line(net, st', j, e, m) && st'.tx == st.tx
    ensures forall c, s: nat, q: nat :: st'.got(c, s, q) == st.got(c, s, q)
    decreases m
  {
    hide Reachable, GotTotal, CumNeed, Settled;
    st' := st;
    if m > 0 {
      var mid := PassEvent(net, st, j, e, m - 1);
      var r := m - 1;
      assert Ready(net, st, j, e, r);
      if IsWait(e) {
        SameTotals(st, mid, e, r, net.n);
      }
      st' := Moved(mid, r);
      assert Advance(net, mid, st', r);
      Extend(net, mid, st');
    }
  }

  lemma NextLine(net: Net, st: State, j: nat, e: nat)
    requires Line(net, st, j, e, net.n) && e + 1 < LAST
    ensures Line(net, st, j, e + 1, 0)
  {
  }

  lemma SentInLine(net: Net, st: State, j: nat, e: nat, c: Class, s: nat, q: nat)
    requires Line(net, st, j, e, 0) && s < net.n
    ensures Sent(net, st, c, s, q) == Cum(net, c, s, q, if SubmitAt(c) < e then j + 1 else j)
  {
    hide Cum;
  }

  /** Everything but dispatch has arrived; of dispatch, what was sent before step `j`. */
  ghost predicate Staged(net: Net, st: State, j: nat) {
    forall c, s: nat, q: nat :: s < net.n && q < net.n ==>
      st.got(c, s, q) == Cum(net, c, s, q, if c == Route then j + 1 else j)
  }

  /** All ranks have submitted everything of dispatch of step `j`, and nothing of that has arrived. */
  lemma AllSubmitted(net: Net, j: nat) returns (st: State)
    requires Fenced(net) && Served(net) && Payable(net) && net.n > 0
    ensures Reachable(net, st) && Line(net, st, j, 4, 0) && Staged(net, st, j) && Completed(net, st, net.n)
  {
    hide Reachable, Cum, Fenced, Served, Payable, Settled, Submitted, GotTotal, CumNeed, Pos;
    BeginReached(net);
    st := Begin(net);
    PosBegin(net, j);
    st := Drive(net, st, j, 1);
    var calm := st;
    forall c, s: nat, q: nat | s < net.n && q < net.n ensures st.got(c, s, q) == Cum(net, c, s, q, if c == Route then j + 1 else j) {
      SentInLine(net, calm, j, 1, c, s, q);
    }
    st := PassEvent(net, st, j, 1, net.n);
    NextLine(net, st, j, 1);
    var two := CompleteAll(net, st, net.n);
    forall r: nat | r < net.n ensures Ready(net, two, j, 2, r) {
      RouteReady(net, two, j, r);
    }
    st := PassEvent(net, two, j, 2, net.n);
    NextLine(net, st, j, 2);
    st := PassEvent(net, st, j, 3, net.n);
    NextLine(net, st, j, 3);
    st := CompleteAll(net, st, net.n);
  }

  lemma PosBegin(net: Net, j: nat)
    ensures Shaped(net, Begin(net)) && forall r: nat :: r < net.n ==> Pos(Begin(net), r) <= (LAST + 1) * j + 1
  {
  }

  lemma RouteReady(net: Net, st: State, j: nat, r: nat)
    requires Served(net) && Payable(net) && r < net.n && Line(net, st, j, 2, 0) && Staged(net, st, j) && Completed(net, st, net.n)
    ensures Ready(net, st, j, 2, r)
  {
    hide Cum, Served, Payable, Settled, Submitted, CumNeed;
    AtLeast(net, st, 2, r, j + 1, net.n);
    NeedWithinLoad(net, 2, r, j + 1);
    PayableAt(net, r, j, 2);
  }

  /** Ranks below `m` from `lo` to `hi`. */
  function Within(m: nat, lo: nat, hi: nat): nat {
    if m <= lo || hi <= lo then 0 else Min(m, hi) - lo
  }

  lemma {:induction false} TotalsBut(net: Net, st: State, p: nat, k: nat, m: nat, lo: nat, hi: nat)
    requires forall s: nat :: s < m ==> GotFrom(st, 4, s, p) + (if lo <= s < hi then 1 else 0) >= LoadFrom(net, 4, s, p, k)
    ensures GotTotal(st, 4, p, m) + Within(m, lo, hi) >= Loads(net, 4, p, k, m)
  {
    hide GotFrom, LoadFrom;
    if m > 0 {
      TotalsBut(net, st, p, k, m - 1, lo, hi);
    }
  }

  /** If in the first `j + 1` steps `p` is sent `hi - lo` more dispatch immediates than it waits for,
      there is a run in which it starts reading in step `j` while one of class `c` from each rank from
      `lo` to `hi` has not arrived. */
  lemma ReadsWithout(net: Net, j: nat, p: nat, c: Class, lo: nat, hi: nat) returns (st: State)
    requires Fenced(net) && Served(net) && Payable(net) && p < net.n && lo <= hi <= net.n && (c == Private || c == Overflow)
    requires forall s: nat :: lo <= s < hi ==> net.load(c, s, p, j) > 0
    requires CumNeed(net, 4, p, j + 1) + (hi - lo) <= Loads(net, 4, p, j + 1, net.n)
    ensures Reachable(net, st) && Shaped(net, st) && st.step[p] == j && st.pc[p] == 5
    ensures forall s: nat :: lo <= s < hi ==> Cum(net, c, s, p, j) <= st.got(c, s, p) < Cum(net, c, s, p, j + 1)
    ensures forall s: nat :: s < net.n ==> Sent(net, st, c, s, p) == Cum(net, c, s, p, j + 1)
  {
    hide Reachable, CumNeed, GotTotal, Settled, Submitted, Fenced, Served, Payable, Loads, Cum;
    var line := AllSubmitted(net, j);
    var other := if c == Private then Overflow else Private;
    forall s: nat | s < net.n
      ensures Sent(net, line, c, s, p) == Cum(net, c, s, p, j + 1) && Sent(net, line, other, s, p) == Cum(net, other, s, p, j + 1)
      ensures line.got(c, s, p) == Cum(net, c, s, p, j) && line.got(c, s, p) + net.load(c, s, p, j) == Cum(net, c, s, p, j + 1)
      ensures line.got(other, s, p) <= Cum(net, other, s, p, j + 1)
    {
      SentInLine(net, line, j, 4, c, s, p);
      SentInLine(net, line, j, 4, other, s, p);
      CumStep(net, c, s, p, j);
      CumMonotone(net, other, s, p, j, j + 1);
    }
    var full := DeliverBut(net, line, c, p, net.n, lo, hi);
    full := DeliverBut(net, full, other, p, net.n, 0, 0);
    TotalsBut(net, full, p, j + 1, net.n, lo, hi);
    PayableAt(net, p, j, 4);
    st := Moved(full, p);
    assert Advance(net, full, st, p);
    Extend(net, full, st);
    forall s: nat | s < net.n ensures Sent(net, st, c, s, p) == Cum(net, c, s, p, j + 1) {
      assert Done(st, SubmitAt(c), s) == Done(full, SubmitAt(c), s);
    }
  }

  lemma CumStep(net: Net, c: Class, s: nat, p: nat, j: nat)
    ensures Cum(net, c, s, p, j + 1) == Cum(net, c, s, p, j) + net.load(c, s, p, j)
  {
  }

  /** Immediates that a rank is sent in `k` steps beyond those it waits for: all ranks of a remote
      group send, and one is waited for. */
  function Surplus(c: Shape, k: nat): nat
    requires c.Valid()
  {
    Sizes(c);
    Mul(k, Mul(c.groups - c.groupsPerNode, c.dpSize - 1))
  }

  lemma RemoteCount(plan: Plan, p: nat)
    requires plan.Valid() && p < plan.c.worldSize
    ensures plan.c.groupsPerNode <= plan.c.groups
    ensures RemoteBelow(plan, p, plan.c.groups) == plan.c.groups - plan.c.groupsPerNode
  {
    hide Quot, Rem, RemoteBelow;
    Sizes(plan.c);
    RankParts(plan.c, p);
    MulUnfold(plan.c.nodes, plan.c.groupsPerNode);
    RemoteGroups(plan, p, plan.c.nodes - 1, plan.c.groupsPerNode, plan.c.groups);
  }

  lemma {:induction false} SurplusIs(u: Setup, p: nat, k: nat)
    requires u.Valid() && p < u.c.worldSize
    ensures Loads(WorkerNet(u), 4, p, k, u.c.worldSize) == CumNeed(WorkerNet(u), 4, p, k) + Surplus(u.c, k)
  {
    hide StepLoads, Loads, WorkerNeed, RemoteBelow;
    if k == 0 {
      LoadsNone(WorkerNet(u), 4, p, u.c.worldSize);
    } else {
      SurplusIs(u, p, k - 1);
      LoadsStep(WorkerNet(u), 4, p, k - 1, u.c.worldSize);
      DispatchServed(u, p, k - 1);
      RemoteCount(u.plans(k - 1), p);
    }
  }

  /** When the surplus makes up for one immediate, and for one from each rank of a group. */
  lemma SurplusCovers(c: Shape, j: nat)
    requires c.Valid()
    ensures c.groupsPerNode <= c.groups && (c.groups == c.groupsPerNode <==> c.nodes == 1)
    ensures Surplus(c, j + 1) >= 1 <==> c.dpSize > 1 && c.nodes > 1
    ensures Surplus(c, j + 1) >= c.dpSize <==> c.dpSize > 1 && c.nodes > 1 && (j > 0 || c.groups - c.groupsPerNode >= 2)
  {
    hide Mul;
    Sizes(c);
    MulUnfold(c.nodes, c.groupsPerNode);
    MulUnfold(1, c.groupsPerNode);
    MulMonotone(1, c.nodes, c.groupsPerNode);
    if c.nodes > 1 {
      MulMonotone(2, c.nodes, c.groupsPerNode);
      MulUnfold(2, c.groupsPerNode);
    }
    var remote, extra := c.groups - c.groupsPerNode, c.dpSize - 1;
    MulAssociative(j + 1, remote, extra);
    MulZeroOnly(j + 1, remote);
    MulZeroOnly(Mul(j + 1, remote), extra);
    MulAgrees(j + 1, remote);
    TwiceOrMore(j + 1, remote);
    if Mul(j + 1, remote) >= 2 {
      MulMonotone(2, Mul(j + 1, remote), extra);
      MulUnfold(2, extra);
      MulUnfold(1, extra);
    } else {
      MulMonotone(Mul(j + 1, remote), 1, extra);
      MulUnfold(1, extra);
    }
  }

  lemma TwiceOrMore(a: nat, b: nat)
    requires a > 0
    ensures Mul(a, b) >= 2 <==> b > 0 && (a > 1 || b > 1)
  {
    MulUnfold(a, b);
    if a > 1 {
      MulMonotone(2, a, b);
      MulUnfold(2, b);
    }
    MulUnfold(1, b);
    MulZeroOnly(a, b);
  }

  /** In every reachable state, a rank that is reading after dispatch has nothing of dispatch in
      flight towards it. */
  ghost predicate AlwaysSafe(u: Setup) {
    forall st, s: nat, p: nat :: Reachable(WorkerNet(u), st) && s < u.c.worldSize && p < u.c.worldSize ==> SafeAt(u, st, s, p)
  }

  predicate SafeAt(u: Setup, st: State, s: nat, p: nat)
    requires s < u.c.worldSize && p < u.c.worldSize
  {
    Shaped(WorkerNet(u), st) && (st.pc[p] == 5 ==> Landed(WorkerNet(u), st, Private, s, p) && Landed(WorkerNet(u), st, Overflow, s, p))
  }

  lemma PrivateSent(u: Setup, s: nat, p: nat, j: nat)
    requires u.Valid() && p < u.c.worldSize && s < u.c.worldSize && u.c.nodeSize > 0 && u.c.NodeOf(s) != u.c.NodeOf(p)
    ensures WorkerNet(u).load(Private, s, p, j) == 1
  {
    hide Quot, ScatterLoad;
    ScatterLoadIs(PrivateKind, u.plans(j), s, p, u.nets);
  }

  /** With several ranks per group on several nodes, any rank can read too early, in any step. */
  lemma WorkerReadsEarly(u: Setup, p: nat, j: nat) returns (st: State, s: nat)
    requires u.Valid() && u.c.dpSize > 1 && u.c.nodes > 1 && p < u.c.worldSize
    ensures s < u.c.worldSize && Reachable(WorkerNet(u), st) && Shaped(WorkerNet(u), st) && st.step[p] == j
    ensures !SafeAt(u, st, s, p)
  {
    hide Reachable, Loads, CumNeed, Fenced, Served, Payable, Quot, Rem, Mul, Cum;
    Sizes(u.c);
    RingPeerTurn(u.c, p, 1, 0);
    s := RingPeer(u.c, p, 1, 0);
    PrivateSent(u, s, p, j);
    WorkerBalanced(u);
    WorkerServed(u);
    WorkerPayable(u);
    SurplusIs(u, p, j + 1);
    SurplusCovers(u.c, j);
    st := ReadsWithout(WorkerNet(u), j, p, Private, s, s + 1);
  }

  /** The buffers are safe in every reachable state if and only if groups are single ranks or
      there is one node. */
  lemma SafeIff(u: Setup)
    requires u.Valid()
    ensures AlwaysSafe(u) <==> u.c.dpSize == 1 || u.c.nodes == 1
  {
    hide SafeAt;
    Sizes(u.c);
    if u.c.dpSize == 1 || u.c.nodes == 1 {
      forall st, s: nat, p: nat | Reachable(WorkerNet(u), st) && s < u.c.worldSize && p < u.c.worldSize ensures SafeAt(u, st, s, p) {
        SafeRun(u, st, s, p);
      }
    } else {
      var st, s := WorkerReadsEarly(u, 0, 0);
      assert !SafeAt(u, st, s, 0);
    }
  }

  lemma SafeRun(u: Setup, st: State, s: nat, p: nat)
    requires u.Valid() && (u.c.dpSize == 1 || u.c.nodes == 1) && Reachable(WorkerNet(u), st)
    requires s < u.c.worldSize && p < u.c.worldSize
    ensures SafeAt(u, st, s, p)
  {
    hide Next, Init, Landed;
    var run: seq<State> :| Run(WorkerNet(u), run) && run[|run| - 1] == st;
    WorkerReadsSafely(u, run, |run| - 1, s, p);
  }
}
