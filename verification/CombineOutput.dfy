/** The combine receive kernel: look up the positions of a token's pairs, add up the weighted
    results. One element of the hidden vector is followed, over the reals. */
module CombineOutput {
  import opened Arith
  import opened Sums
  import opened Dispatch
  import opened RoundTrip
  import opened Scan
  import opened Pipeline

  /** The launch: `topk` pairs per token, `num` tokens, their experts, per-expert numbers and
      running totals as left by the send kernel, and the weights. */
  datatype Launch = Launch(block: nat, grid: nat, threads: nat, num: nat, topk: nat,
                           experts: seq<nat>, numbers: seq<nat>, totals: seq<nat>, weights: seq<real>)
  {
    predicate Valid() {
      && grid > 0 && threads > 0 && topk > 0
      && |experts| == |numbers| == |weights| == Mul(num, topk)
      && forall i :: 0 <= i < |experts| ==> experts[i] <= |totals|
    }

    /** The token that entry `i` of the block's position table is about. */
    function TokenAt(i: nat): nat
      requires topk > 0
    {
      block + Mul(Quot(i, topk), grid)
    }

    /** Where the result for pair `m` of the batch is. */
    function Slot(m: nat): nat
      requires Valid() && m < |experts|
    {
      SlotOf(totals, experts[m], numbers[m])
    }

    /** The pair that entry `i` is about. */
    function PairAt(i: nat): nat
      requires topk > 0
    {
      Mul(TokenAt(i), topk) + Rem(i, topk)
    }
  }

  lemma PairInRange(u: Launch, i: nat)
    requires u.Valid() && u.TokenAt(i) < u.num
    ensures u.PairAt(i) < |u.experts|
  {
    MulMonotone(u.TokenAt(i) + 1, u.num, u.topk);
  }

  /** The entry is in the table and right. */
  predicate Looked(u: Launch, positions: map<nat, nat>, i: nat)
    requires u.Valid() && u.TokenAt(i) < u.num
  {
    PairInRange(u, i);
    i in positions && positions[i] == u.Slot(u.PairAt(i))
  }

  lemma TokenAtMonotone(u: Launch, i: nat, j: nat)
    requires u.topk > 0 && i <= j
    ensures u.TokenAt(i) <= u.TokenAt(j)
  {
    QuotMonotone(i, j, u.topk);
    MulMonotone(Quot(i, u.topk), Quot(j, u.topk), u.grid);
  }

  /** Entries with the same remainder are a multiple apart. */
  lemma SameThread(i: nat, cur: nat, n: nat)
    requires n > 0 && Rem(i, n) == Rem(cur, n) && i < cur + n
    ensures i <= cur
  {
    QuotRemParts(i, n);
    QuotRemParts(cur, n);
    if Quot(i, n) > Quot(cur, n) {
      MulMonotone(Quot(cur, n) + 1, Quot(i, n), n);
    } else {
      MulMonotone(Quot(i, n), Quot(cur, n), n);
    }
  }

  /** The entries of thread `t` below `cur` are done. */
  ghost predicate ThreadDone(u: Launch, positions: map<nat, nat>, t: nat, cur: nat)
    requires u.Valid()
  {
    forall i: nat :: i < cur && Rem(i, u.threads) == t && u.TokenAt(i) < u.num ==> Looked(u, positions, i)
  }

  ghost predicate ThreadFinished(u: Launch, positions: map<nat, nat>, t: nat)
    requires u.Valid()
  {
    forall i: nat :: Rem(i, u.threads) == t && u.TokenAt(i) < u.num ==> Looked(u, positions, i)
  }

  /** One thread's share of the table. */
  method FillThread(u: Launch, positions: map<nat, nat>, t: nat) returns (positions': map<nat, nat>)
    requires u.Valid() && t < u.threads
    ensures ThreadFinished(u, positions', t)
    ensures forall s: nat :: s != t && ThreadFinished(u, positions, s) ==> ThreadFinished(u, positions', s)
  {
    positions' := positions;
    var i := t;
    QuotRem(0, t, u.threads);
    MulAgrees(0, u.threads);
    assert ThreadDone(u, positions', t, i) by {
      FirstOfThread(u, positions', t);
    }
    while u.TokenAt(i) < u.num
      invariant Rem(i, u.threads) == t && ThreadDone(u, positions', t, i)
      invariant forall s: nat :: s != t && ThreadFinished(u, positions, s) ==> ThreadFinished(u, positions', s)
      decreases Mul(u.num, u.topk) + u.threads - i
    {
      PairInRange(u, i);
      EntryBound(u, i);
      ghost var was := positions';
      positions' := positions'[i := u.Slot(u.PairAt(i))];
      ThreadStep(u, was, positions', t, i);
      i := i + u.threads;
    }
    ThreadEnd(u, positions', t, i);
  }

  lemma FirstOfThread(u: Launch, positions: map<nat, nat>, t: nat)
    requires u.Valid() && t < u.threads
    ensures ThreadDone(u, positions, t, t)
  {
    hide Looked, Launch.TokenAt;
    forall i: nat | i < t ensures Rem(i, u.threads) == i {
    }
  }

  lemma EntryBound(u: Launch, i: nat)
    requires u.Valid() && u.TokenAt(i) < u.num
    ensures i < Mul(u.num, u.topk)
  {
    QuotRemParts(i, u.topk);
    var q := Quot(i, u.topk);
    assert q <= Mul(q, u.grid) by {
      MulAgrees(q, u.grid);
    }
    MulMonotone(q + 1, u.num, u.topk);
  }

  lemma ThreadStep(u: Launch, was: map<nat, nat>, now: map<nat, nat>, t: nat, i: nat)
    requires u.Valid() && t < u.threads && Rem(i, u.threads) == t && ThreadDone(u, was, t, i)
    requires u.TokenAt(i) < u.num && u.PairAt(i) < |u.experts| && now == was[i := u.Slot(u.PairAt(i))]
    ensures Rem(i + u.threads, u.threads) == t && ThreadDone(u, now, t, i + u.threads)
    ensures forall s: nat :: s != t && ThreadFinished(u, was, s) ==> ThreadFinished(u, now, s)
  {
    hide Launch.TokenAt, Launch.Slot, Launch.PairAt;
    forall k: nat | k < i + u.threads && Rem(k, u.threads) == t && u.TokenAt(k) < u.num ensures Looked(u, now, k) {
      SameThread(k, i, u.threads);
      if k < i {
        assert Looked(u, was, k);
      }
    }
    forall s: nat | s != t && ThreadFinished(u, was, s) ensures ThreadFinished(u, now, s) {
      forall k: nat | Rem(k, u.threads) == s && u.TokenAt(k) < u.num ensures Looked(u, now, k) {
        assert Looked(u, was, k);
      }
    }
  }

  lemma ThreadEnd(u: Launch, positions: map<nat, nat>, t: nat, i: nat)
    requires u.Valid() && ThreadDone(u, positions, t, i) && u.TokenAt(i) >= u.num
    ensures ThreadFinished(u, positions, t)
  {
    hide Launch.TokenAt, Looked;
    forall k: nat | Rem(k, u.threads) == t && u.TokenAt(k) < u.num ensures Looked(u, positions, k) {
      if k >= i {
        TokenAtMonotone(u, i, k);
      }
    }
  }

  /** The whole table, thread by thread. */
  method FillPositions(u: Launch) returns (positions: map<nat, nat>)
    requires u.Valid()
    ensures forall i: nat :: u.TokenAt(i) < u.num ==> Looked(u, positions, i)
  {
    hide ThreadFinished, Looked, Launch.TokenAt;
    positions := map[];
    for t := 0 to u.threads
      invariant forall s: nat :: s < t ==> ThreadFinished(u, positions, s)
    {
      positions := FillThread(u, positions, t);
    }
    forall i: nat | u.TokenAt(i) < u.num ensures Looked(u, positions, i) {
      FinishedAt(u, positions, i);
    }
  }

  lemma FinishedAt(u: Launch, positions: map<nat, nat>, i: nat)
    requires u.Valid() && u.TokenAt(i) < u.num && ThreadFinished(u, positions, Rem(i, u.threads))
    ensures Looked(u, positions, i)
  {
    hide Looked, Launch.TokenAt;
  }

  /** Weighted sum of the first `n` results of token `t`. */
  function Weighted(u: Launch, recv: nat -> real, t: nat, n: nat): real
    requires u.Valid() && t < u.num && n <= u.topk
  {
    if n == 0 then 0.0
    else
      TokenPairs(u, t, n - 1);
      Weighted(u, recv, t, n - 1) + u.weights[Mul(t, u.topk) + (n - 1)] * recv(u.Slot(Mul(t, u.topk) + (n - 1)))
  }

  lemma TokenPairs(u: Launch, t: nat, k: nat)
    requires u.Valid() && t < u.num && k < u.topk
    ensures Mul(t, u.topk) + k < |u.experts|
  {
    MulMonotone(t + 1, u.num, u.topk);
  }

  lemma EntryOf(u: Launch, local: nat, k: nat)
    requires u.Valid() && k < u.topk
    ensures u.TokenAt(Mul(local, u.topk) + k) == Nth(u.block, u.grid, local)
    ensures u.PairAt(Mul(local, u.topk) + k) == Mul(Nth(u.block, u.grid, local), u.topk) + k
  {
    QuotRem(local, k, u.topk);
  }

  /** Add up one token. */
  method CombineToken(u: Launch, positions: map<nat, nat>, recv: nat -> real, local: nat, base: real) returns (acc: real)
    requires u.Valid() && Nth(u.block, u.grid, local) < u.num
    requires forall i: nat :: u.TokenAt(i) < u.num ==> Looked(u, positions, i)
    ensures acc == base + Weighted(u, recv, Nth(u.block, u.grid, local), u.topk)
  {
    hide Launch.TokenAt, Launch.PairAt, Mul, Nth, SlotOf;
    acc := base;
    for k := 0 to u.topk
      invariant acc == base + Weighted(u, recv, Nth(u.block, u.grid, local), k)
    {
      EntryOf(u, local, k);
      TokenPairs(u, Nth(u.block, u.grid, local), k);
      var i := Mul(local, u.topk) + k;
      assert Looked(u, positions, i);
      acc := acc + u.weights[Mul(Nth(u.block, u.grid, local), u.topk) + k] * recv(positions[i]);
    }
  }

  /** What the block leaves in the output: its own tokens combined, the others untouched. */
  ghost predicate BlockOutput(u: Launch, recv: nat -> real, base: seq<real>, out: seq<real>, done: nat)
    requires u.Valid()
  {
    && |out| == |base| == u.num
    && forall t {:trigger out[t]} :: 0 <= t < u.num ==>
         out[t] == base[t] + if u.block <= t < Nth(u.block, u.grid, done) && Rem(t - u.block, u.grid) == 0
                             then Weighted(u, recv, t, u.topk) else 0.0
  }

  /** The kernel of one block. */
  method CombineReceive(u: Launch, recv: nat -> real, base: seq<real>) returns (out: seq<real>)
    requires u.Valid() && |base| == u.num
    ensures |out| == u.num
    ensures forall t {:trigger out[t]} :: 0 <= t < u.num ==>
              out[t] == base[t] + if t in Strided(u.block, u.grid, u.num) then Weighted(u, recv, t, u.topk) else 0.0
  {
    hide Launch.TokenAt, Launch.PairAt, Looked, Weighted, Mul, Rem, Strided;
    var positions := FillPositions(u);
    out := base;
    var token, local := u.block, 0;
    NthLater(u.block, u.grid, 0, 0);
    while token < u.num
      invariant token == Nth(u.block, u.grid, local) && BlockOutput(u, recv, base, out, local)
      decreases u.num - token
    {
      UntouchedYet(u, recv, base, out, local);
      var acc := CombineToken(u, positions, recv, local, out[token]);
      OutputStep(u, recv, base, out, local, acc);
      out := out[token := acc];
      token, local := token + u.grid, local + 1;
    }
    forall t {:trigger out[t]} | 0 <= t < u.num
      ensures out[t] == base[t] + if t in Strided(u.block, u.grid, u.num) then Weighted(u, recv, t, u.topk) else 0.0
    {
      StridedExactly(u.block, u.grid, u.num, t);
    }
  }

  lemma UntouchedYet(u: Launch, recv: nat -> real, base: seq<real>, out: seq<real>, done: nat)
    requires u.Valid() && BlockOutput(u, recv, base, out, done) && Nth(u.block, u.grid, done) < u.num
    ensures out[Nth(u.block, u.grid, done)] == base[Nth(u.block, u.grid, done)]
  {
  }

  lemma OutputStep(u: Launch, recv: nat -> real, base: seq<real>, out: seq<real>, done: nat, acc: real)
    requires u.Valid() && BlockOutput(u, recv, base, out, done) && Nth(u.block, u.grid, done) < u.num
    requires acc == out[Nth(u.block, u.grid, done)] + Weighted(u, recv, Nth(u.block, u.grid, done), u.topk)
    ensures Nth(u.block, u.grid, done + 1) == Nth(u.block, u.grid, done) + u.grid
    ensures BlockOutput(u, recv, base, out[Nth(u.block, u.grid, done) := acc], done + 1)
  {
    hide Weighted;
    UntouchedYet(u, recv, base, out, done);
    var at := Nth(u.block, u.grid, done);
    var out' := out[at := acc];
    NthLater(u.block, u.grid, done, 1);
    QuotRem(done, 0, u.grid);
    forall t {:trigger out'[t]} | 0 <= t < u.num
      ensures out'[t] == base[t] + if u.block <= t < at + u.grid && Rem(t - u.block, u.grid) == 0
                                   then Weighted(u, recv, t, u.topk) else 0.0
    {
      if t > at && t < at + u.grid && Rem(t - u.block, u.grid) == 0 {
        SameThread(t - u.block, at - u.block, u.grid);
      }
      assert out[t] == base[t] + if u.block <= t < at && Rem(t - u.block, u.grid) == 0 then Weighted(u, recv, t, u.topk) else 0.0;
    }
  }

  /** What the layer should compute for token `t`: the weighted sum of its experts' outputs. */
  ghost function Ideal<T>(job: Job<T>, f: (nat, T) -> real, g: nat, weights: seq<real>, t: nat, n: nat): real
    requires job.Valid() && g < job.p.c.groups && job.GroupValid(g) && t < |job.x[g]| && n <= job.topk
    requires |weights| == |job.experts[g]|
  {
    if n == 0 then 0.0
    else
      JobPair(job, g, t, n - 1);
      Ideal(job, f, g, weights, t, n - 1)
      + weights[Mul(t, job.topk) + (n - 1)] * f(job.experts[g][Mul(t, job.topk) + (n - 1)], job.x[g][t])
  }

  lemma JobPair<T>(job: Job<T>, g: nat, t: nat, k: nat)
    requires job.Valid() && g < job.p.c.groups && job.GroupValid(g) && t < |job.x[g]| && k < job.topk
    ensures Mul(t, job.topk) + k < |job.experts[g]| && job.Pair(g, Mul(t, job.topk) + k)
    ensures job.Payload(g, Mul(t, job.topk) + k) == job.x[g][t]
  {
    MulMonotone(t + 1, |job.x[g]|, job.topk);
    QuotRem(t, k, job.topk);
  }

  /** The receive buffer of `r` after combine: every slot of a pair holds a value that some
      rank wrote there. */
  ghost predicate Filled<T(!new)>(job: Job<T>, f: (nat, T) -> real, r: nat, recv: nat -> real)
    requires job.Valid() && r < job.p.c.worldSize && job.p.c.dpSize > 0
  {
    forall i: nat :: job.Pair(job.p.c.GroupOf(r), i) ==>
      CombineHolds(job.p, job.Memory(), f, r, job.Position(job.p.c.GroupOf(r), i), recv(job.Position(job.p.c.GroupOf(r), i)))
  }

  /** The launch is the one for the rank's group, after the scan. */
  ghost predicate LaunchFor<T>(u: Launch, job: Job<T>, g: nat)
    requires job.Valid() && g < job.p.c.groups && job.GroupValid(g)
  {
    && u.Valid() && u.num == |job.x[g]| && u.topk == job.topk
    && u.experts == job.experts[g] && u.numbers == job.offsets[g] && |u.totals| == |job.p.routed[g]|
    && forall e {:trigger u.totals[e]} :: 0 <= e < |u.totals| ==> u.totals[e] == Prefix(job.p.routed[g], e + 1)
  }

  /** The answer of the whole step: what the kernel adds up is what the layer should compute,
      for every shape, routing, delivery order and expert function. */
  lemma {:induction false} OutputIsIdeal<T(!new)>(u: Launch, job: Job<T>, f: (nat, T) -> real, r: nat, recv: nat -> real,
                                                  g: nat, t: nat, n: nat)
    requires job.Valid() && r < job.p.c.worldSize && job.p.c.dpSize > 0 && g == job.p.c.GroupOf(r) < job.p.c.groups
    requires job.GroupValid(g) && LaunchFor(u, job, g) && Filled(job, f, r, recv) && t < u.num && n <= u.topk
    ensures Weighted(u, recv, t, n) == Ideal(job, f, g, u.weights, t, n)
    decreases n
  {
    hide Job.Payload, SlotOf, Job.GroupValid, Job.Pair, Job.Position, CombineHolds, Mul;
    if n > 0 {
      var i := Mul(t, u.topk) + (n - 1);
      OutputIsIdeal(u, job, f, r, recv, g, t, n - 1);
      JobPair(job, g, t, n - 1);
      LookupExact(job, g, i, u.totals);
      RoundTripExact(job, f, r, i, recv(job.Position(g, i)));
    }
  }
}
