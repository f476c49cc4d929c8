/** The delivery proofs inside the running protocol: at the moments a rank reads, the writes
    that have landed are the ones the delivery proofs count on, so what it reads is right. */
module Delivery {
  import opened Placement
  import opened Dispatch
  import opened RoundTrip
  import opened StepProtocol
  import opened WorkerProtocol

  /** The network writes of class `c` from `s` to `p` that have landed are exactly those of the
      steps up to `j`: none of them is in flight, and none of a later step has been sent. */
  predicate LandedUpTo(net: Net, st: State, c: Class, s: nat, p: nat, j: nat) {
    Shaped(net, st) && s < net.n && Landed(net, st, c, s, p) && Sent(net, st, c, s, p) == Cum(net, c, s, p, j + 1)
  }

  /** A write of step `j` that `q` can see puts `v` into `slot` of its receive buffer: one over
      NVLink, or one over the network that has landed. */
  ghost predicate VisibleTo<T>(net: Net, st: State, job: Job<T>, j: nat, r: nat, q: nat, slot: nat, v: T)
    requires job.Valid() && r < job.p.c.worldSize && q < job.p.c.worldSize
  {
    || job.DirectWrite(r, q, slot, v)
    || exists src: nat :: job.SendHolds(r, src, v)
         && ((PrivateCopy(job.p, r, q, src, slot) && LandedUpTo(net, st, Private, r, q, j))
             || (OverflowCopy(job.p, r, q, src, slot) && LandedUpTo(net, st, Overflow, r, q, j)))
  }

  /** What memory holds at a place in this state, by writes of step `j`. */
  ghost predicate MemoryHolds<T>(net: Net, st: State, job: Job<T>, j: nat, at: Loc, v: T)
    requires job.Valid() && at.rank < job.p.c.worldSize
  {
    match at
    case SendSlot(r, slot) => job.SendHolds(r, slot, v)
    case RecvSlot(q, slot) => exists r: nat :: r < job.p.c.worldSize && VisibleTo(net, st, job, j, r, q, slot, v)
  }

  /** Everything the delivery proofs count on has landed. */
  lemma AllVisible<T>(net: Net, st: State, job: Job<T>, j: nat, at: Loc, v: T)
    requires job.Valid() && at.rank < job.p.c.worldSize
    requires forall r: nat :: r < job.p.c.worldSize ==>
               LandedUpTo(net, st, Private, r, at.rank, j) && LandedUpTo(net, st, Overflow, r, at.rank, j)
    ensures MemoryHolds(net, st, job, j, at, v) <==> job.Holds(at, v)
  {
    hide LandedUpTo, PrivateCopy, OverflowCopy, Job.SendHolds, Job.DirectWrite, Job.GroupValid;
    if at.RecvSlot? {
      forall r: nat | r < job.p.c.worldSize
        ensures VisibleTo(net, st, job, j, r, at.rank, at.slot, v) <==> job.Delivers(r, at.rank, at.slot, v)
      {
      }
    }
  }

  lemma DispatchLanded(u: Setup, run: seq<State>, i: nat, r: nat, q: nat)
    requires u.Valid() && (u.c.dpSize == 1 || u.c.nodes == 1) && Run(WorkerNet(u), run) && i < |run|
    requires r < u.c.worldSize && q < u.c.worldSize
    ensures Shaped(WorkerNet(u), run[i])
    ensures 3 <= run[i].pc[q] <= 11 ==> LandedUpTo(WorkerNet(u), run[i], Route, r, q, run[i].step[q])
    ensures 5 <= run[i].pc[q] <= 11 ==>
              && LandedUpTo(WorkerNet(u), run[i], Private, r, q, run[i].step[q])
              && LandedUpTo(WorkerNet(u), run[i], Overflow, r, q, run[i].step[q])
    ensures 10 <= run[i].pc[q] ==> LandedUpTo(WorkerNet(u), run[i], Combine, r, q, run[i].step[q])
  {
    hide Balanced, Fenced, Run, Landed, Sent, Cum;
    WorkerBalanced(u);
    RouteWindow(WorkerNet(u), run, i, r, q);
    DispatchWindow(WorkerNet(u), run, i, r, q);
    CombineWindow(WorkerNet(u), run, i, r, q);
  }

  /** In every reachable state in which `q` is between its dispatch wait and its combine barrier,
      in particular while its receive kernel reads, the place it reads for a pair of the current
      step holds that pair's payload and nothing else, counting only writes that have landed. */
  lemma DispatchReads<T>(u: Setup, run: seq<State>, i: nat, job: Job<T>, q: nat, g: nat, k: nat, index: nat, v: T)
    requires u.Valid() && (u.c.dpSize == 1 || u.c.nodes == 1) && Run(WorkerNet(u), run) && i < |run|
    requires q < u.c.worldSize && q < |run[i].pc| && q < |run[i].step| && 5 <= run[i].pc[q] <= 11
    requires job.p == u.plans(run[i].step[q]) && job.IndexOn(g, k, q, index)
    ensures Fetch(job.p, q, g, index).rank < job.p.c.worldSize
    ensures MemoryHolds(WorkerNet(u), run[i], job, run[i].step[q], Fetch(job.p, q, g, index), v) <==> v == job.Payload(g, k)
  {
    hide Run, LandedUpTo, MemoryHolds, Job.Holds, Job.GroupValid, Job.Payload, Fetch;
    DispatchDelivers(job, q, g, k, index, v);
    var at := Fetch(job.p, q, g, index);
    if at.RecvSlot? {
      ReadsOwn(job.p, q, g, index);
      forall r: nat | r < job.p.c.worldSize
        ensures LandedUpTo(WorkerNet(u), run[i], Private, r, at.rank, run[i].step[q])
        ensures LandedUpTo(WorkerNet(u), run[i], Overflow, r, at.rank, run[i].step[q])
      {
        DispatchLanded(u, run, i, r, q);
      }
      AllVisible(WorkerNet(u), run[i], job, run[i].step[q], at, v);
    } else {
      StaysPut(WorkerNet(u), run[i], job, run[i].step[q], at, v);
    }
  }

  lemma ReadsOwn(p: Plan, q: nat, g: nat, index: nat)
    requires p.Valid() && q < p.c.worldSize && g < p.c.groups && Fetch(p, q, g, index).RecvSlot?
    ensures Fetch(p, q, g, index).rank == q
  {
  }

  lemma StaysPut<T>(net: Net, st: State, job: Job<T>, j: nat, at: Loc, v: T)
    requires job.Valid() && at.rank < job.p.c.worldSize && at.SendSlot?
    ensures MemoryHolds(net, st, job, j, at, v) <==> job.Holds(at, v)
  {
  }

  /** A write of combine that `r` can see in this state. */
  ghost predicate CombineVisible<T(!new), V>(net: Net, st: State, job: Job<T>, f: (nat, T) -> V, j: nat, q: nat, r: nat, slot: nat, y: V)
    requires job.Valid() && r < job.p.c.worldSize && q < job.p.c.worldSize
  {
    || NodeCombine(job.p, job.Memory(), f, q, r, slot, y)
    || exists src: nat :: CombineCopy(job.p, q, r, src, slot) && StagedCombine(job.p, job.Memory(), f, q, src, y)
         && LandedUpTo(net, st, Combine, q, r, j)
  }

  ghost predicate CombineMemory<T(!new), V>(net: Net, st: State, job: Job<T>, f: (nat, T) -> V, j: nat, r: nat, slot: nat, y: V)
    requires job.Valid() && r < job.p.c.worldSize
  {
    exists q: nat :: q < job.p.c.worldSize && CombineVisible(net, st, job, f, j, q, r, slot, y)
  }

  /** End to end in every reachable state: while `r` reads its combine results, the slot of a pair
      of the current step holds the chosen expert's output on the pair's own token and nothing
      else, counting only writes that have landed. */
  lemma CombineReads<T(!new), V>(u: Setup, run: seq<State>, i: nat, job: Job<T>, f: (nat, T) -> V, r: nat, k: nat, y: V)
    requires u.Valid() && (u.c.dpSize == 1 || u.c.nodes == 1) && Run(WorkerNet(u), run) && i < |run|
    requires r < u.c.worldSize && r < |run[i].pc| && r < |run[i].step| && 10 <= run[i].pc[r]
    requires job.p == u.plans(run[i].step[r]) && job.Valid() && job.Pair(job.p.c.GroupOf(r), k)
    ensures CombineMemory(WorkerNet(u), run[i], job, f, run[i].step[r], r, job.Position(job.p.c.GroupOf(r), k), y)
            <==> y == f(job.experts[job.p.c.GroupOf(r)][k], job.Payload(job.p.c.GroupOf(r), k))
  {
    hide Run, LandedUpTo, NodeCombine, StagedCombine, CombineCopy, Job.GroupValid, Job.Pair, Job.Payload, Job.Position;
    var slot, j := job.Position(job.p.c.GroupOf(r), k), run[i].step[r];
    RoundTripExact(job, f, r, k, y);
    forall q: nat | q < job.p.c.worldSize
      ensures CombineVisible(WorkerNet(u), run[i], job, f, j, q, r, slot, y) <==> CombineWrites(job.p, job.Memory(), f, q, r, slot, y)
    {
      DispatchLanded(u, run, i, q, r);
    }
  }
}
