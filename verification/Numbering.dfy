/** Groups of several ranks: every rank counts its pairs with its own atomic additions, so the
    ranks of a group may number them differently. Exactly when the round trip still works. */
module Numbering {
  import opened Arith
  import opened Sums
  import opened Topology
  import opened Placement
  import opened Dispatch
  import opened RoundTrip
  import opened Scan

  /** A job together with the numbering that each rank made; the job itself has those of the first
      rank of each group. */
  datatype Batch<T> = Batch(job: Job<T>, own: seq<seq<nat>>)
  {
    ghost predicate Valid() {
      && job.Valid() && |own| == job.p.c.worldSize && job.p.c.dpSize > 0
      && (forall g: nat :: g < job.p.c.groups ==> Complete(job, g) && FromFirst(g))
      && (forall r: nat :: r < job.p.c.worldSize ==> RankValid(r))
    }

    ghost predicate FromFirst(g: nat) {
      g < |job.offsets| && Mul(g, job.p.c.dpSize) < |own| && job.offsets[g] == own[Mul(g, job.p.c.dpSize)]
    }

    ghost predicate RankValid(r: nat)
      requires job.Valid() && |own| == job.p.c.worldSize && r < job.p.c.worldSize && job.p.c.dpSize > 0
    {
      job.p.c.GroupOf(r) < job.p.c.groups && As(r).Valid() && Complete(As(r), job.p.c.GroupOf(r))
    }

    /** The job as rank `r` sees it: with its own numbering for its group. */
    ghost function As(r: nat): Job<T>
      requires r < |own| && job.p.c.dpSize > 0 && job.p.c.GroupOf(r) < |job.offsets|
    {
      job.(offsets := job.offsets[job.p.c.GroupOf(r) := own[r]])
    }

    /** What the buffers hold after dispatch: every rank fills its send buffer, and writes to others,
        by its own numbering. */
    ghost function Memory(): (Loc, T) -> bool
      requires Valid()
    {
      (at: Loc, v: T) => Valid() && at.rank < job.p.c.worldSize && Holds(at, v)
    }

    ghost predicate Holds(at: Loc, v: T)
      requires Valid() && at.rank < job.p.c.worldSize
    {
      match at
      case SendSlot(r, slot) => assert RankValid(r); As(r).SendHolds(r, slot, v)
      case RecvSlot(q, slot) => exists r: nat :: r < job.p.c.worldSize && Puts(r, q, slot, v)
    }

    ghost predicate Puts(r: nat, q: nat, slot: nat, v: T)
      requires Valid() && r < job.p.c.worldSize && q < job.p.c.worldSize
    {
      assert RankValid(r);
      As(r).Delivers(r, q, slot, v)
    }
  }

  /** Every number below an expert's count is used. */
  ghost predicate Complete<T>(job: Job<T>, g: nat)
    requires job.Valid() && g < job.p.c.groups
  {
    forall e: nat, j: nat :: e < job.p.c.numExperts && j < Uses(job, g, e) ==> Used(job, g, e, j)
  }

  ghost predicate Used<T>(job: Job<T>, g: nat, e: nat, j: nat) {
    exists i: nat :: Numbers(job, g, i, e, j)
  }

  ghost function Uses<T>(job: Job<T>, g: nat, e: nat): nat
    requires job.Valid() && g < job.p.c.groups && e < job.p.c.numExperts
  {
    job.p.routed[g][e]
  }

  /** Pair `i` of group `g` goes to expert `e` and has number `j`. */
  ghost predicate Numbers<T>(job: Job<T>, g: nat, i: nat, e: nat, j: nat) {
    job.Pair(g, i) && job.experts[g][i] == e && job.offsets[g][i] == j
  }

  /** What the kernels count is complete, in any order. */
  lemma KernelComplete<T>(job: Job<T>, g: nat, order: seq<nat>)
    requires job.Valid() && g < job.p.c.groups && |order| == |job.experts[g]| && IsPermutation(order)
    requires Numbered(job.experts[g], order, job.offsets[g], job.p.routed[g], |order|)
    ensures Complete(job, g)
  {
    hide Tally, IsPermutation;
    assert job.GroupValid(g);
    forall e: nat, j: nat | e < job.p.c.numExperts && j < Uses(job, g, e) ensures Used(job, g, e, j) {
      var m := TallyOnto(job.experts[g], order, |order|, e, j);
      assert job.offsets[g][order[m]] == j;
      assert Numbers(job, g, order[m], e, j);
    }
  }

  /** The token of a pair. */
  function Token(topk: nat, i: nat): nat
    requires topk > 0
  {
    Quot(i, topk)
  }

  /** Ranks `r` and `s` of a group gave the pairs `i` and `j` of the same expert the same number,
      though they are of different tokens. */
  ghost predicate Differs<T>(b: Batch<T>, r: nat, s: nat, i: nat, j: nat)
    requires b.Valid()
  {
    && r < b.job.p.c.worldSize && s < b.job.p.c.worldSize && b.job.p.c.GroupOf(r) == b.job.p.c.GroupOf(s) < |b.job.experts|
    && i < |b.job.experts[b.job.p.c.GroupOf(r)]| && j < |b.job.experts[b.job.p.c.GroupOf(r)]|
    && i < |b.own[r]| && j < |b.own[s]|
    && b.job.experts[b.job.p.c.GroupOf(r)][i] == b.job.experts[b.job.p.c.GroupOf(r)][j] && b.own[r][i] == b.own[s][j]
    && Token(b.job.topk, i) != Token(b.job.topk, j)
  }

  /** The ranks of every group number the tokens of each expert alike. */
  ghost predicate Alike<T>(b: Batch<T>)
    requires b.Valid()
  {
    forall r: nat, s: nat, i: nat, j: nat :: !Differs(b, r, s, i, j)
  }

  /** The round trip works: every rank reads back, for each of its pairs, exactly the output of the
      pair's expert on the pair's token. */
  ghost predicate Exact<T(!new), V(!new)>(b: Batch<T>, f: (nat, T) -> V)
    requires b.Valid()
  {
    forall r: nat, i: nat, y: V :: r < b.job.p.c.worldSize ==> ReadsBack(b, f, r, i, y)
  }

  ghost predicate ReadsBack<T(!new), V>(b: Batch<T>, f: (nat, T) -> V, r: nat, i: nat, y: V)
    requires b.Valid() && r < b.job.p.c.worldSize
  {
    assert b.RankValid(r);
    var g := b.job.p.c.GroupOf(r);
    b.As(r).Pair(g, i) ==>
      (CombineHolds(b.job.p, b.Memory(), f, r, b.As(r).Position(g, i), y) <==> y == f(b.job.experts[g][i], b.As(r).Payload(g, i)))
  }

  /** Two jobs that differ in one group's numbering at most. */
  ghost predicate Renumbered<T>(a: Job<T>, b: Job<T>, g: nat) {
    a.Valid() && b.Valid() && g < a.p.c.groups && a == b.(offsets := a.offsets) && Complete(b, g)
  }

  /** Pairs with the same expert and number, in the two numberings, are of the same token. */
  ghost predicate SameTokens<T>(a: Job<T>, b: Job<T>, g: nat)
    requires a.topk > 0
  {
    forall i: nat, j: nat, e: nat, n: nat :: Numbers(a, g, i, e, n) && Numbers(b, g, j, e, n) ==> Token(a.topk, i) == Token(a.topk, j)
  }

  lemma PairFacts<T>(job: Job<T>, g: nat, i: nat)
    requires job.Pair(g, i)
    ensures g < |job.experts| && i < |job.experts[g]| && i < |job.offsets[g]| && job.experts[g][i] < job.p.c.numExperts
    ensures job.offsets[g][i] < Uses(job, g, job.experts[g][i])
    ensures Numbers(job, g, i, job.experts[g][i], job.offsets[g][i])
  {
  }

  /** The pair of `b` with the number that pair `i` has in `a` has the same position, target and index,
      and the same payload. */
  lemma Counterpart<T>(a: Job<T>, b: Job<T>, g: nat, i: nat) returns (j: nat)
    requires Renumbered(a, b, g) && SameTokens(a, b, g) && a.Pair(g, i)
    ensures b.Pair(g, j) && b.Position(g, j) == a.Position(g, i) && b.Target(g, j) == a.Target(g, i)
    ensures b.Payload(g, j) == a.Payload(g, i) && b.experts[g][j] == a.experts[g][i]
    ensures forall q: nat, index: nat :: a.IndexOn(g, i, q, index) ==> b.IndexOn(g, j, q, index)
  {
    hide Job.GroupValid, Prefix, Quot;
    PairFacts(a, g, i);
    var e, n := a.experts[g][i], a.offsets[g][i];
    assert n < Uses(b, g, e) && Used(b, g, e, n);
    j :| Numbers(b, g, j, e, n);
    assert Token(a.topk, i) == Token(a.topk, j);
  }

  lemma SendCarries<T>(a: Job<T>, b: Job<T>, r: nat, slot: nat, v: T)
    requires a.Valid() && r < a.p.c.worldSize && Renumbered(a, b, a.p.c.GroupOf(r)) && SameTokens(a, b, a.p.c.GroupOf(r))
    requires a.SendHolds(r, slot, v)
    ensures b.SendHolds(r, slot, v)
  {
    hide Job.GroupValid, Complete, SameTokens, Job.Payload, Job.Position, Job.Target;
    var g := a.p.c.GroupOf(r);
    var i: nat, q: nat, index: nat :| a.IndexOn(g, i, q, index) && !a.Direct(r, q, index)
      && slot == a.p.Start(g, q) + index && v == a.Payload(g, i);
    OnPair(a, g, i, q, index);
    var j := Counterpart(a, b, g, i);
    assert b.IndexOn(g, j, q, index);
  }

  lemma OnPair<T>(a: Job<T>, g: nat, i: nat, q: nat, index: nat)
    requires a.IndexOn(g, i, q, index)
    ensures a.Pair(g, i)
  {
  }

  lemma DirectCarries<T>(a: Job<T>, b: Job<T>, r: nat, q: nat, slot: nat, v: T)
    requires a.Valid() && r < a.p.c.worldSize && Renumbered(a, b, a.p.c.GroupOf(r)) && SameTokens(a, b, a.p.c.GroupOf(r))
    requires a.DirectWrite(r, q, slot, v)
    ensures b.DirectWrite(r, q, slot, v)
  {
    hide Job.GroupValid, Complete, SameTokens, Job.Payload, Job.Position, Job.Target;
    var g := a.p.c.GroupOf(r);
    var i: nat, index: nat :| a.IndexOn(g, i, q, index) && a.Direct(r, q, index)
      && (a.fixedDim || a.p.c.DpRank(q) == a.p.c.DpRank(r))
      && slot == Mul(g, a.p.c.maxPrivate) + index && v == a.Payload(g, i);
    OnPair(a, g, i, q, index);
    var j := Counterpart(a, b, g, i);
    assert b.IndexOn(g, j, q, index);
  }

  lemma DeliveryCarries<T>(a: Job<T>, b: Job<T>, r: nat, q: nat, slot: nat, v: T)
    requires a.Valid() && r < a.p.c.worldSize && q < a.p.c.worldSize
    requires Renumbered(a, b, a.p.c.GroupOf(r)) && SameTokens(a, b, a.p.c.GroupOf(r))
    requires a.Delivers(r, q, slot, v)
    ensures b.Delivers(r, q, slot, v)
  {
    hide Job.GroupValid, Complete, SameTokens, Job.SendHolds, Job.DirectWrite, PrivateCopy, OverflowCopy;
    if a.DirectWrite(r, q, slot, v) {
      DirectCarries(a, b, r, q, slot, v);
    } else {
      var src: nat :| (PrivateCopy(a.p, r, q, src, slot) || OverflowCopy(a.p, r, q, src, slot)) && a.SendHolds(r, src, v);
      SendCarries(a, b, r, src, v);
    }
  }

  /** When the ranks number alike, each rank's view and the job's are interchangeable for it. */
  lemma ViewsAgree<T>(b: Batch<T>, r: nat)
    requires b.Valid() && Alike(b) && r < b.job.p.c.worldSize
    ensures b.RankValid(r)
    ensures var g := b.job.p.c.GroupOf(r);
            && Renumbered(b.As(r), b.job, g) && SameTokens(b.As(r), b.job, g)
            && Renumbered(b.job, b.As(r), g) && SameTokens(b.job, b.As(r), g)
  {
    hide Job.GroupValid, Complete, Token, Alike;
    assert b.RankValid(r);
    var g := b.job.p.c.GroupOf(r);
    var s := Mul(g, b.job.p.c.dpSize);
    FirstOf(b, r);
    assert b.Valid() && g < b.job.p.c.groups;
    forall i: nat, j: nat, e: nat, n: nat | Numbers(b.As(r), g, i, e, n) && Numbers(b.job, g, j, e, n)
      ensures Token(b.job.topk, i) == Token(b.job.topk, j)
    {
      PairFacts(b.As(r), g, i);
      PairFacts(b.job, g, j);
      Undiffering(b, r, s, i, j);
    }
  }

  lemma FirstOf<T>(b: Batch<T>, r: nat)
    requires b.Valid() && r < b.job.p.c.worldSize
    ensures var c, g := b.job.p.c, b.job.p.c.GroupOf(r);
            g < c.groups && g < |b.job.offsets| && Mul(g, c.dpSize) < c.worldSize && c.GroupOf(Mul(g, c.dpSize)) == g
            && b.job.offsets[g] == b.own[Mul(g, c.dpSize)]
  {
    hide Job.GroupValid, Complete, Quot, Rem, Mul;
    RankParts(b.job.p.c, r);
    GroupMember(b.job.p.c, b.job.p.c.GroupOf(r), 0);
    assert b.FromFirst(b.job.p.c.GroupOf(r));
  }

  lemma Undiffering<T>(b: Batch<T>, r: nat, s: nat, i: nat, j: nat)
    requires b.Valid() && Alike(b)
    ensures !Differs(b, r, s, i, j)
  {
    hide Differs;
  }

  /** Memory holds what it would if all ranks used the first rank's numbering. */
  lemma MemoryAgrees<T>(b: Batch<T>, at: Loc, v: T)
    requires b.Valid() && Alike(b)
    ensures b.Memory()(at, v) <==> b.job.Memory()(at, v)
  {
    hide Job.GroupValid, Job.Holds, Batch.Holds, Alike, Complete, Batch.RankValid;
    if at.rank < b.job.p.c.worldSize {
      HoldAgrees(b, at, v);
    }
  }

  lemma HoldAgrees<T>(b: Batch<T>, at: Loc, v: T)
    requires b.Valid() && Alike(b) && at.rank < b.job.p.c.worldSize
    ensures b.Holds(at, v) <==> b.job.Holds(at, v)
  {
    hide Job.GroupValid, Job.SendHolds, Job.Delivers, Alike, Complete, SameTokens;
    match at
    case SendSlot(r, slot) =>
      ViewsAgree(b, r);
      if b.As(r).SendHolds(r, slot, v) {
        SendCarries(b.As(r), b.job, r, slot, v);
      }
      if b.job.SendHolds(r, slot, v) {
        SendCarries(b.job, b.As(r), r, slot, v);
      }
    case RecvSlot(q, slot) =>
      forall r: nat | r < b.job.p.c.worldSize ensures b.Puts(r, q, slot, v) <==> b.job.Delivers(r, q, slot, v) {
        ViewsAgree(b, r);
        if b.As(r).Delivers(r, q, slot, v) {
          DeliveryCarries(b.As(r), b.job, r, q, slot, v);
        }
        if b.job.Delivers(r, q, slot, v) {
          DeliveryCarries(b.job, b.As(r), r, q, slot, v);
        }
      }
  }

  /** What is read back depends on what memory holds, and on nothing else. */
  lemma ComputedSame<T(!new), V>(p: Plan, m: (Loc, T) -> bool, m': (Loc, T) -> bool, f: (nat, T) -> V, q: nat, slot: nat, y: V)
    requires forall at, v :: m(at, v) == m'(at, v)
    ensures Computed(p, m, f, q, slot, y) ==> Computed(p, m', f, q, slot, y)
  {
    hide Row, Fetch, RowSlot, InBlock, RowGroup, RowIndex;
    if Computed(p, m, f, q, slot, y) {
      var e: nat, v: T :| InBlock(p, q, e, slot) && Received(p, m, q, slot, v) && y == f(e, v);
      var k: nat, d: nat, j: nat :| RowReads(p, m, q, k, d, j, v) && RowSlot(p, q, k, d, j) == slot;
      assert RowReads(p, m', q, k, d, j, v);
    }
  }

  lemma CombineSame<T(!new), V>(p: Plan, m: (Loc, T) -> bool, m': (Loc, T) -> bool, f: (nat, T) -> V, r: nat, slot: nat, y: V)
    requires p.Valid() && r < p.c.worldSize && forall at, v :: m(at, v) == m'(at, v)
    ensures CombineHolds(p, m, f, r, slot, y) ==> CombineHolds(p, m', f, r, slot, y)
  {
    hide Row, Computed, RowSlot, RowGroup, RowIndex, CombineCopy, Plan.CombineOffset;
    forall q: nat, k: nat, e: nat, j: nat, remote: bool, at: nat | RowSends(p, m, f, q, k, e, j, remote, at, y)
      ensures RowSends(p, m', f, q, k, e, j, remote, at, y)
    {
      ComputedSame(p, m, m', f, q, RowSlot(p, q, k, e, j), y);
    }
    if CombineHolds(p, m, f, r, slot, y) {
      var q: nat :| q < p.c.worldSize && CombineWrites(p, m, f, q, r, slot, y);
      assert CombineWrites(p, m', f, q, r, slot, y);
    }
  }

  /** If the ranks of each group number alike, the round trip works, whatever the tokens and the
      experts. */
  lemma AlikeExact<T(!new), V(!new)>(b: Batch<T>, f: (nat, T) -> V)
    requires b.Valid() && Alike(b)
    ensures Exact(b, f)
  {
    hide Alike, ReadsBack;
    forall r: nat, i: nat, y: V | r < b.job.p.c.worldSize ensures ReadsBack(b, f, r, i, y) {
      AlikeReads(b, f, r, i, y);
    }
  }

  lemma AlikeReads<T(!new), V>(b: Batch<T>, f: (nat, T) -> V, r: nat, i: nat, y: V)
    requires b.Valid() && Alike(b) && r < b.job.p.c.worldSize
    ensures ReadsBack(b, f, r, i, y)
  {
    hide Alike, CombineHolds, Job.Payload, Job.Position, SameTokens, Complete, Job.GroupValid, Batch.Memory, Job.Memory;
    assert b.RankValid(r);
    var g := b.job.p.c.GroupOf(r);
    if b.As(r).Pair(g, i) {
      ViewsAgree(b, r);
      var j := Counterpart(b.As(r), b.job, g, i);
      forall at: Loc, v: T ensures b.Memory()(at, v) == b.job.Memory()(at, v) {
        MemoryAgrees(b, at, v);
      }
      var slot := b.job.Position(g, j);
      CombineSame(b.job.p, b.Memory(), b.job.Memory(), f, r, slot, y);
      CombineSame(b.job.p, b.job.Memory(), b.Memory(), f, r, slot, y);
      RoundTripExact(b.job, f, r, j, y);
    }
  }

  /** What the rank of the group with the index of `q` sent under a number is what, at least, `q`
      finds for it. */
  lemma SourceRead<T>(b: Batch<T>, q: nat, g: nat, w: nat, i: nat, index: nat)
    requires b.Valid() && q < b.job.p.c.worldSize && w == SourceOf(b.job.p.c, q, g) < b.job.p.c.worldSize
    requires b.job.p.c.GroupOf(w) == g < |b.job.offsets| && b.As(w).IndexOn(g, i, q, index)
    ensures b.Memory()(Fetch(b.job.p, q, g, index), b.As(w).Payload(g, i))
  {
    hide Job.GroupValid, Fetch, Complete, Job.SendHolds, Job.Delivers, Job.Payload, RecvSlotOf;
    assert b.RankValid(w);
    var c, v := b.job.p.c, b.As(w).Payload(g, i);
    FetchIs(b.As(w), q, g, i, index);
    if g == c.GroupOf(q) || (index >= c.maxPrivate && c.GroupNode(g) == c.NodeOf(q)) {
      StaysInSend(b.As(w), q, g, i, index);
    } else {
      RecvHoldsPair(b.As(w), q, g, i, index);
      assert b.Puts(w, q, RecvSlotOf(b.job.p, q, g, index), v);
    }
  }

  /** So every rank of the group reads that back for its own pair of the same number. */
  lemma SourceReadBack<T(!new), V>(b: Batch<T>, f: (nat, T) -> V, r: nat, g: nat, i: nat, w: nat, m: nat, e: nat, n: nat)
    requires b.Valid() && r < b.job.p.c.worldSize && b.job.p.c.GroupOf(r) == g < |b.job.offsets|
    requires Numbers(b.As(r), g, i, e, n) && w == SourceOf(b.job.p.c, b.As(r).Target(g, i), g) < b.job.p.c.worldSize
    requires b.job.p.c.GroupOf(w) == g && Numbers(b.As(w), g, m, e, n)
    ensures CombineHolds(b.job.p, b.Memory(), f, r, b.As(r).Position(g, i), f(e, b.As(w).Payload(g, m)))
  {
    hide Job.GroupValid, Fetch, Complete, Job.Payload, Batch.Memory, CombineWrites, Row, RowIndex, RowGroup, Prefix, Plan.Start;
    assert b.RankValid(r) && b.RankValid(w);
    var q, k := RowOfPair(b.As(w), g, m);
    SourceRead(b, q, g, w, m, RowIndex(b.job.p, q, k, e, n));
    RowReaches(b.job.p, b.Memory(), f, r, q, k, e, n, b.As(w).Payload(g, m));
  }

  /** The same batch with other tokens. */
  ghost function With(b: Batch<nat>, x: seq<seq<nat>>): Batch<nat> {
    b.(job := b.job.(x := x))
  }

  ghost predicate Fits(b: Batch<nat>, x: seq<seq<nat>>) {
    |x| == |b.job.x| && forall g :: 0 <= g < |x| ==> |x[g]| == |b.job.x[g]|
  }

  lemma JobWith(job: Job<nat>, x: seq<seq<nat>>)
    requires job.Valid() && |x| == |job.x| && forall g :: 0 <= g < |x| ==> |x[g]| == |job.x[g]|
    ensures job.(x := x).Valid()
  {
    var other := job.(x := x);
    forall g | 0 <= g < job.p.c.groups ensures other.GroupValid(g) {
      assert job.GroupValid(g);
      forall i: nat, j: nat | i < j < |other.experts[g]| ensures !other.Clash(g, i, j) {
        assert !job.Clash(g, i, j);
      }
    }
  }

  lemma CompleteWith(job: Job<nat>, x: seq<seq<nat>>, g: nat)
    requires job.Valid() && |x| == |job.x| && (forall g :: 0 <= g < |x| ==> |x[g]| == |job.x[g]|) && g < job.p.c.groups && Complete(job, g)
    ensures job.(x := x).Valid() && Complete(job.(x := x), g)
  {
    hide Job.GroupValid;
    JobWith(job, x);
    var other := job.(x := x);
    forall e: nat, j: nat | e < other.p.c.numExperts && j < Uses(other, g, e) ensures Used(other, g, e, j) {
      assert Uses(job, g, e) == Uses(other, g, e) && Used(job, g, e, j);
      var i: nat :| Numbers(job, g, i, e, j);
      assert other.GroupValid(g);
      assert Numbers(other, g, i, e, j);
    }
  }

  lemma RankWith(b: Batch<nat>, x: seq<seq<nat>>, r: nat)
    requires b.Valid() && Fits(b, x) && r < b.job.p.c.worldSize && With(b, x).job.Valid()
    ensures With(b, x).RankValid(r)
  {
    hide Job.GroupValid, Complete;
    assert b.RankValid(r);
    CompleteWith(b.As(r), x, b.job.p.c.GroupOf(r));
    assert With(b, x).As(r) == b.As(r).(x := x);
  }

  lemma WithValid(b: Batch<nat>, x: seq<seq<nat>>)
    requires b.Valid() && Fits(b, x)
    ensures With(b, x).Valid()
  {
    hide Job.GroupValid, Complete, Batch.RankValid;
    var other := With(b, x);
    JobWith(b.job, x);
    forall g: nat | g < other.job.p.c.groups ensures Complete(other.job, g) && other.FromFirst(g) {
      assert Complete(b.job, g) && b.FromFirst(g);
      CompleteWith(b.job, x, g);
    }
    forall r: nat | r < other.job.p.c.worldSize ensures other.RankValid(r) {
      RankWith(b, x, r);
    }
  }

  lemma AlikeWith(b: Batch<nat>, x: seq<seq<nat>>)
    requires b.Valid() && Fits(b, x) && With(b, x).Valid() && Alike(b)
    ensures Alike(With(b, x))
  {
    hide Batch.Valid;
    forall r: nat, s: nat, i: nat, j: nat ensures !Differs(With(b, x), r, s, i, j) {
      assert !Differs(b, r, s, i, j);
    }
  }

  /** The round trip works for all tokens and all expert functions. */
  ghost predicate AlwaysExact(b: Batch<nat>)
    requires b.Valid()
  {
    forall x: seq<seq<nat>>, f: (nat, nat) -> nat :: Fits(b, x) && With(b, x).Valid() ==> Exact(With(b, x), f)
  }

  /** Every token is its own number. */
  ghost function Labels(b: Batch<nat>): (x: seq<seq<nat>>)
    ensures |x| == |b.job.x| && forall g :: 0 <= g < |x| ==> |x[g]| == |b.job.x[g]| && forall t :: 0 <= t < |x[g]| ==> x[g][t] == t
  {
    seq(|b.job.x|, g requires 0 <= g < |b.job.x| => seq(|b.job.x[g]|, (t: nat) => t))
  }

  lemma LabelIsToken(b: Batch<nat>, r: nat, g: nat, i: nat)
    requires b.Valid() && b.job.x == Labels(b) && r < b.job.p.c.worldSize && b.job.p.c.GroupOf(r) == g < |b.job.offsets| && b.As(r).Pair(g, i)
    ensures b.As(r).Payload(g, i) == Token(b.job.topk, i)
  {
    QuotBound(i, |b.job.x[g]|, b.job.topk);
  }

  /** If the round trip works on numbered tokens with experts that return them, the ranks number
      alike. */
  lemma LabelsTell(b: Batch<nat>, f: (nat, nat) -> nat, r: nat, s: nat, i: nat, j: nat)
    requires b.Valid() && b.job.x == Labels(b) && Exact(b, f) && (forall e, v :: f(e, v) == v)
    ensures !Differs(b, r, s, i, j)
  {
    hide Job.Valid, Complete, Job.GroupValid, Job.Payload, Token, Exact;
    if Differs(b, r, s, i, j) {
      var g := b.job.p.c.GroupOf(r);
      var e, n := b.job.experts[g][i], b.own[r][i];
      RankPair(b, r, i);
      RankPair(b, s, j);
      var w, m := SourcePair(b, r, g, i, e, n);
      SourceReadBack(b, f, r, g, i, w, m, e, n);
      SourceReadBack(b, f, s, g, j, w, m, e, n);
      var y := b.As(w).Payload(g, m);
      Back(b, f, r, i, y);
      Back(b, f, s, j, y);
      LabelIsToken(b, r, g, i);
      LabelIsToken(b, s, g, j);
    }
  }

  lemma Back(b: Batch<nat>, f: (nat, nat) -> nat, r: nat, i: nat, y: nat)
    requires b.Valid() && Exact(b, f) && r < b.job.p.c.worldSize
    ensures ReadsBack(b, f, r, i, y)
  {
    hide ReadsBack, Batch.Valid;
  }

  lemma RankPair(b: Batch<nat>, r: nat, i: nat)
    requires b.Valid() && r < b.job.p.c.worldSize
    ensures b.RankValid(r) && b.job.p.c.GroupOf(r) < |b.job.offsets|
    ensures var g := b.job.p.c.GroupOf(r);
            g < |b.job.experts| && g < |b.job.offsets| && i < |b.job.experts[g]| ==>
              b.As(r).Pair(g, i) && i < |b.own[r]| && Numbers(b.As(r), g, i, b.job.experts[g][i], b.own[r][i])
  {
    hide Complete;
    assert b.RankValid(r);
    assert b.As(r).GroupValid(b.job.p.c.GroupOf(r));
  }

  /** The rank that the owner of expert `e` hears from, and its pair of the same number. */
  lemma SourcePair(b: Batch<nat>, r: nat, g: nat, i: nat, e: nat, n: nat) returns (w: nat, m: nat)
    requires b.Valid() && r < b.job.p.c.worldSize && b.job.p.c.GroupOf(r) == g < |b.job.offsets| && Numbers(b.As(r), g, i, e, n)
    ensures w == SourceOf(b.job.p.c, b.As(r).Target(g, i), g) < b.job.p.c.worldSize && b.job.p.c.GroupOf(w) == g
    ensures Numbers(b.As(w), g, m, e, n)
  {
    hide Job.GroupValid, Quot, Rem, Mul;
    assert b.RankValid(r);
    PairFacts(b.As(r), g, i);
    OwnerRange(b.job.p.c, e);
    w := SourceOf(b.job.p.c, b.As(r).Target(g, i), g);
    SourceRankFacts(b.job.p.c, b.As(r).Target(g, i), g);
    assert b.RankValid(w);
    assert n < Uses(b.As(w), g, e) && Used(b.As(w), g, e, n);
    m :| Numbers(b.As(w), g, m, e, n);
  }

  /** For every shape, routing and set of numberings: the round trip works for all tokens and all
      experts if and only if the ranks of each group number the tokens of each expert alike. With
      single-rank groups they always do; the kernels' atomic additions do not see to it otherwise. */
  lemma ExactIffAlike(b: Batch<nat>)
    requires b.Valid()
    ensures AlwaysExact(b) <==> Alike(b)
  {
    hide Exact, Differs, Batch.Valid, Fits;
    if Alike(b) {
      forall x: seq<seq<nat>>, f: (nat, nat) -> nat | Fits(b, x) && With(b, x).Valid() ensures Exact(With(b, x), f) {
        AlikeWith(b, x);
        AlikeExact(With(b, x), f);
      }
    }
    if AlwaysExact(b) {
      var x, f := Labels(b), (e: nat, v: nat) => v;
      LabelsFit(b);
      WithValid(b, x);
      assert Exact(With(b, x), f);
      forall r: nat, s: nat, i: nat, j: nat ensures !Differs(b, r, s, i, j) {
        LabelsTell(With(b, x), f, r, s, i, j);
        SameDiffers(b, x, r, s, i, j);
      }
    }
  }

  lemma LabelsFit(b: Batch<nat>)
    ensures Fits(b, Labels(b)) && With(b, Labels(b)).job.x == Labels(With(b, Labels(b)))
  {
    var x := Labels(b);
    var y := Labels(With(b, x));
    assert |x| == |y|;
    forall g | 0 <= g < |x| ensures x[g] == y[g] {
    }
  }

  lemma SameDiffers(b: Batch<nat>, x: seq<seq<nat>>, r: nat, s: nat, i: nat, j: nat)
    requires b.Valid() && With(b, x).Valid()
    ensures Differs(With(b, x), r, s, i, j) <==> Differs(b, r, s, i, j)
  {
    hide Batch.Valid;
  }

  /** Single ranks are always alike. */
  lemma SinglesAlike<T>(b: Batch<T>)
    requires b.Valid() && b.job.p.c.dpSize == 1
    ensures Alike(b)
  {
    hide Complete, Token;
    forall r: nat, s: nat, i: nat, j: nat ensures !Differs(b, r, s, i, j) {
      if Differs(b, r, s, i, j) {
        SameRank(b.job.p.c, r, s);
        OwnNumbers(b, r, i, j);
      }
    }
  }

  lemma OwnNumbers<T>(b: Batch<T>, r: nat, i: nat, j: nat)
    requires b.Valid() && r < b.job.p.c.worldSize && b.job.p.c.GroupOf(r) < |b.job.experts| && i < |b.own[r]| && j < |b.own[r]|
    requires i < |b.job.experts[b.job.p.c.GroupOf(r)]| && j < |b.job.experts[b.job.p.c.GroupOf(r)]| && b.own[r][i] == b.own[r][j]
    requires b.job.experts[b.job.p.c.GroupOf(r)][i] == b.job.experts[b.job.p.c.GroupOf(r)][j]
    ensures i == j
  {
    hide Complete;
    assert b.RankValid(r);
    var g := b.job.p.c.GroupOf(r);
    assert b.As(r).GroupValid(g);
    assert i < j ==> !b.As(r).Clash(g, i, j);
    assert j < i ==> !b.As(r).Clash(g, j, i);
  }

  lemma SameRank(c: Shape, r: nat, s: nat)
    requires c.Valid() && c.dpSize == 1 && r < c.worldSize && s < c.worldSize && c.GroupOf(r) == c.GroupOf(s)
    ensures r == s
  {
    RankParts(c, r);
    RankParts(c, s);
  }

  // Two ranks in one group with two tokens for the same expert. The kernels of the two ranks count
  // them in opposite order.

  const DUO := Shape(2, 2, 2, 1, 1, 1, 2, 1, 1, 1)
  const COUNTED: seq<nat> := [0, 1]
  const REVERSED: seq<nat> := [1, 0]

  function Duo(offsets: seq<nat>): Job<nat> {
    Job(Plan(DUO, [[2, 0]]), 1, [[0, 0]], [offsets], [[0, 1]], false)
  }

  lemma DuoShape()
    ensures DUO.Valid() && Mul(1, 1) == 1 && Mul(2, 1) == 2 && DUO.GroupOf(0) == 0 && DUO.GroupOf(1) == 0 && Mul(0, 2) == 0
  {
    MulAgrees(1, 1);
    MulAgrees(1, 2);
    MulAgrees(2, 1);
    MulAgrees(0, 2);
  }

  /** Either order is one the kernel can produce. */
  lemma DuoNumbered(order: seq<nat>)
    requires order == COUNTED || order == REVERSED
    ensures IsPermutation(order) && Numbered([0, 0], order, order, [2, 0], 2)
  {
    assert order[0] in order && order[1] in order;
    TallyDuo(order);
  }

  lemma TallyDuo(order: seq<nat>)
    requires order == COUNTED || order == REVERSED
    ensures forall k: nat, e: nat :: k <= 2 && e < 2 ==> Tally([0, 0], order, k, e) == if e == 0 then k else 0
  {
    forall k: nat, e: nat | k <= 2 && e < 2 ensures Tally([0, 0], order, k, e) == if e == 0 then k else 0 {
      assert Tally([0, 0], order, 0, e) == 0;
      TallyStep([0, 0], order, 0, e);
      TallyStep([0, 0], order, 1, e);
    }
  }

  lemma DuoValid(order: seq<nat>)
    requires order == COUNTED || order == REVERSED
    ensures Duo(order).Valid() && Complete(Duo(order), 0)
  {
    hide Shape.Valid, Mul, IsPermutation, Numbered;
    DuoShape();
    DuoNumbered(order);
    var job := Duo(order);
    assert job.p.Valid();
    assert job.GroupValid(0) by {
      DuoGroup(order);
    }
    KernelComplete(job, 0, order);
  }

  lemma DuoGroup(order: seq<nat>)
    requires (order == COUNTED || order == REVERSED) && Duo(order).p.Valid()
    ensures Duo(order).GroupValid(0)
  {
    hide Shape.Valid;
    assert Sum([2, 0]) == 2;
    assert Mul(2, 1) == 2;
  }

  /** So there the round trip does not work for all tokens. */
  lemma RaceBreaks() returns (b: Batch<nat>)
    ensures b == Batch(Duo(COUNTED), [COUNTED, REVERSED]) && b.Valid() && !Alike(b) && !AlwaysExact(b)
  {
    hide Shape.Valid, Mul, Job.Valid, Complete, AlwaysExact, Quot;
    b := Batch(Duo(COUNTED), [COUNTED, REVERSED]);
    DuoShape();
    DuoValid(COUNTED);
    DuoValid(REVERSED);
    assert b.As(0) == Duo(COUNTED) && b.As(1) == Duo(REVERSED);
    forall r: nat | r < 2 ensures b.RankValid(r) {
    }
    assert b.FromFirst(0);
    TokensApart();
    assert Differs(b, 0, 1, 0, 1);
    ExactIffAlike(b);
  }

  lemma TokensApart()
    ensures Token(1, 0) != Token(1, 1)
  {
    QuotRem(0, 0, 1);
    QuotRem(1, 0, 1);
    MulAgrees(1, 1);
    MulAgrees(0, 1);
  }
}
