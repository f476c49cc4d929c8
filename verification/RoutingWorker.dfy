/** The first pass of the worker's routing step: loops over the routing table that fill the
    offset vectors, tied to the placement functions of the delivery proofs. */
module RoutingWorker {
  import opened Arith
  import opened Sums
  import opened Topology
  import opened Placement

  /** First-pass accumulators for what the own group sends. */
  datatype Sends = Sends(expertOffset: seq<nat>, toRank: seq<nat>, dispatchSrc: seq<nat>, rankOffset: nat)

  /** First-pass accumulators for what this rank receives. */
  datatype Arrivals = Arrivals(fromGroup: seq<nat>, srcGroupOffset: seq<nat>, dstGroupOffset: seq<nat>,
                               perExpert: seq<nat>, numRecv: nat, numRecvTx: nat)

  /** Immediates that group `g` costs the worker's wait: one if it is on another node, plus
      one per network shard if it overflows its private buffer. */
  function GroupTx(p: Plan, rank: nat, nets: nat, g: nat): nat
    requires p.Valid() && g < p.c.groups
  {
    Sizes(p.c);
    if p.c.GroupNode(g) == p.c.NodeOf(rank) then 0
    else if p.Count(g, rank) > p.c.maxPrivate then 1 + nets else 1
  }

  /** Immediates the worker waits for from groups before `g`. */
  function ExpectedTx(p: Plan, rank: nat, nets: nat, g: nat): nat
    requires p.Valid() && g <= p.c.groups
  {
    if g == 0 then 0 else ExpectedTx(p, rank, nets, g - 1) + GroupTx(p, rank, nets, g - 1)
  }

  ghost predicate SendsTallied(p: Plan, own: nat, t: Sends, n: nat) {
    && p.Valid() && own < p.c.groups && n <= p.c.worldSize
    && |t.expertOffset| == p.c.numExperts && |t.toRank| == |t.dispatchSrc| == p.c.worldSize
    && t.rankOffset == Prefix(p.routed[own], p.c.Lo(n))
    && (forall r :: 0 <= r < n ==> t.toRank[r] == p.Count(own, r) && t.dispatchSrc[r] == p.Start(own, r))
    && (forall r :: n <= r < p.c.worldSize ==> t.toRank[r] == 0)
    && (forall e {:trigger t.expertOffset[e]} :: 0 <= e < p.c.Lo(n) ==> t.expertOffset[e] == Prefix(p.routed[own], e))
  }

  ghost predicate ArrivalsTallied(p: Plan, rank: nat, nets: nat, t: Arrivals, g: nat) {
    && p.Valid() && rank < p.c.worldSize && g <= p.c.groups
    && |t.fromGroup| == |t.srcGroupOffset| == |t.dstGroupOffset| == p.c.groups
    && t.numRecv == p.Arrival(rank, g) && t.numRecvTx == ExpectedTx(p, rank, nets, g)
    && (forall h :: g <= h < p.c.groups ==> t.fromGroup[h] == 0)
    && (forall h :: 0 <= h < g ==> GroupTallied(p, rank, t, h))
    && ColumnsTallied(p, p.c.Lo(rank), p.c.Lo(rank + 1), t.perExpert, g)
  }

  ghost predicate GroupTallied(p: Plan, rank: nat, t: Arrivals, h: nat)
    requires p.Valid() && rank < p.c.worldSize && h < p.c.groups
    requires |t.fromGroup| == |t.srcGroupOffset| == |t.dstGroupOffset| == p.c.groups
  {
    && t.fromGroup[h] == p.Count(h, rank)
    && t.srcGroupOffset[h] == p.Arrival(rank, h)
    && t.dstGroupOffset[h] == p.Start(h, rank)
  }

  /** `perExpert` holds the totals of experts `lo..hi` over groups below `g`, then zeros. */
  ghost predicate ColumnsTallied(p: Plan, lo: nat, hi: nat, perExpert: seq<nat>, g: nat)
    requires p.Valid() && g <= p.c.groups
  {
    && lo <= hi <= p.c.numExperts && hi - lo <= |perExpert| == p.c.expertsPerRank
    && forall l :: 0 <= l < |perExpert| ==> perExpert[l] == if l < hi - lo then Prefix(p.Column(lo + l), g) else 0
  }

  /** Walk over experts `lo..hi` of a row, recording where each one starts. */
  method ScanRange(row: seq<nat>, lo: nat, hi: nat, expertOffset: seq<nat>, start: nat)
    returns (n: nat, expertOffset': seq<nat>)
    requires lo <= hi <= |row| == |expertOffset| && start == Prefix(row, lo)
    requires forall e {:trigger expertOffset[e]} :: 0 <= e < lo ==> expertOffset[e] == Prefix(row, e)
    ensures start + n == Prefix(row, hi) && |expertOffset'| == |row|
    ensures forall e {:trigger expertOffset'[e]} :: 0 <= e < hi ==> expertOffset'[e] == Prefix(row, e)
  {
    n, expertOffset' := 0, expertOffset;
    for expert := lo to hi
      invariant |expertOffset'| == |row| && start + n == Prefix(row, expert)
      invariant forall e {:trigger expertOffset'[e]} :: 0 <= e < expert ==> expertOffset'[e] == Prefix(row, e)
    {
      expertOffset' := expertOffset'[expert := start + n];
      n := n + row[expert];
    }
  }

  /** Tally the tokens that the own group sends to rank `r`. */
  method TallyRank(p: Plan, own: nat, t: Sends, r: nat) returns (t': Sends)
    requires SendsTallied(p, own, t, r) && r < p.c.worldSize
    ensures SendsTallied(p, own, t', r + 1)
  {
    LoFacts(p.c, r);
    var n, expertOffset := ScanRange(p.routed[own], p.c.Lo(r), p.c.Lo(r + 1), t.expertOffset, t.rankOffset);
    t' := Sends(expertOffset, t.toRank[r := t.toRank[r] + n], t.dispatchSrc[r := t.rankOffset], t.rankOffset + n);
  }

  /** Tokens of one table row for experts below `n`. */
  method SumRow(row: seq<nat>, n: nat) returns (offset: nat)
    requires n <= |row|
    ensures offset == Prefix(row, n)
  {
    offset := 0;
    for expert := 0 to n
      invariant offset == Prefix(row, expert)
    {
      offset := offset + row[expert];
    }
  }

  /** Add the entries `lo..hi` of a row to the per-expert totals. */
  method AddRow(row: seq<nat>, lo: nat, hi: nat, perExpert: seq<nat>) returns (numTokens: nat, perExpert': seq<nat>)
    requires lo <= hi <= |row| && hi - lo <= |perExpert|
    ensures Prefix(row, lo) + numTokens == Prefix(row, hi)
    ensures |perExpert'| == |perExpert|
    ensures forall l :: 0 <= l < |perExpert| ==> perExpert'[l] == perExpert[l] + if l < hi - lo then row[lo + l] else 0
  {
    numTokens, perExpert' := 0, perExpert;
    for expert := lo to hi
      invariant Prefix(row, lo) + numTokens == Prefix(row, expert)
      invariant |perExpert'| == |perExpert|
      invariant forall l :: 0 <= l < |perExpert| ==>
                  perExpert'[l] == perExpert[l] + if l < expert - lo then row[lo + l] else 0
    {
      numTokens := numTokens + row[expert];
      perExpert' := perExpert'[expert - lo := perExpert'[expert - lo] + row[expert]];
    }
  }

  /** Tally the tokens that `rank` receives from group `g`. */
  method TallyGroup(p: Plan, rank: nat, nets: nat, t: Arrivals, g: nat) returns (t': Arrivals)
    requires ArrivalsTallied(p, rank, nets, t, g) && g < p.c.groups
    ensures ArrivalsTallied(p, rank, nets, t', g + 1)
  {
    Sizes(p.c);
    RankParts(p.c, rank);
    var offset := SumRow(p.routed[g], p.c.Lo(rank));
    var numTokens, perExpert := AddRow(p.routed[g], p.c.Lo(rank), p.c.Lo(rank + 1), t.perExpert);
    var tx := t.numRecvTx;
    if g != p.c.GroupOf(rank) && p.c.GroupNode(g) != p.c.NodeOf(rank) {
      tx := tx + 1;
      if numTokens > p.c.maxPrivate {
        tx := tx + nets;
      }
    }
    t' := Arrivals(t.fromGroup[g := t.fromGroup[g] + numTokens], t.srcGroupOffset[g := t.numRecv],
                   t.dstGroupOffset[g := offset], perExpert, t.numRecv + numTokens, tx);
    assert GroupTallied(p, rank, t', g);
    forall h | 0 <= h < g ensures GroupTallied(p, rank, t', h) {
      assert GroupTallied(p, rank, t, h);
    }
  }

  /** Tally what the own group sends to the `count` ranks from `base` on. */
  method TallyRanks(p: Plan, own: nat, t: Sends, base: nat, count: nat) returns (t': Sends)
    requires SendsTallied(p, own, t, base) && base + count <= p.c.worldSize
    ensures SendsTallied(p, own, t', base + count)
  {
    t' := t;
    var r := base;
    while r < base + count
      invariant base <= r <= base + count
      invariant SendsTallied(p, own, t', r)
    {
      t' := TallyRank(p, own, t', r);
      r := r + 1;
    }
  }

  /** The first pass of the routing step. */
  method TallyAll(p: Plan, rank: nat, nets: nat) returns (s: Sends, t: Arrivals)
    requires p.Valid() && rank < p.c.worldSize
    ensures SendsTallied(p, p.c.GroupOf(rank), s, p.c.worldSize)
    ensures ArrivalsTallied(p, rank, nets, t, p.c.groups)
  {
    Sizes(p.c);
    var own := p.c.GroupOf(rank);
    s, t := EmptyTallies(p, rank, nets);
    var g, base: nat := 0, 0;
    while g < p.c.groups
      invariant 0 <= g <= p.c.groups && base == Mul(g, p.c.dpSize)
      invariant SendsTallied(p, own, s, base)
      invariant ArrivalsTallied(p, rank, nets, t, g)
    {
      MulMonotone(g + 1, p.c.groups, p.c.dpSize);
      s := TallyRanks(p, own, s, base, p.c.dpSize);
      t := TallyGroup(p, rank, nets, t, g);
      g, base := g + 1, base + p.c.dpSize;
    }
  }

  method EmptyTallies(p: Plan, rank: nat, nets: nat) returns (s: Sends, t: Arrivals)
    requires p.Valid() && rank < p.c.worldSize
    ensures SendsTallied(p, p.c.GroupOf(rank), s, 0)
    ensures ArrivalsTallied(p, rank, nets, t, 0)
  {
    RankParts(p.c, rank);
    LoFacts(p.c, rank);
    s := Sends(Zeros(p.c.numExperts), Zeros(p.c.worldSize), Zeros(p.c.worldSize), 0);
    t := Arrivals(Zeros(p.c.groups), Zeros(p.c.groups), Zeros(p.c.groups), Zeros(p.c.expertsPerRank), 0, 0);
  }

  function Zeros(n: nat): seq<nat> {
    seq(n, _ => 0)
  }
}
