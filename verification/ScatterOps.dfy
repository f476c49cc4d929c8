/** The iterator for scatter writes, and what the operations of a split scatter move between them. */
module ScatterOps {
  import opened Arith
  import opened Topology
  import opened Placement
  import opened Sharding
  import opened Splitting
  import opened Coverage
  import opened Scatter

  /** One operation: `len` bytes from `src` in the local buffer to `dst` in the buffer of `peer`. */
  datatype Op = Op(peer: nat, src: nat, dst: nat, len: nat)

  /** What one domain is to do: for the targets in `range`, part `shard` of `shards` equal parts. */
  predicate Doable(list: seq<Target>, part: Part) {
    part.Targets? && part.range.beg < part.range.end <= |list| && part.shards > 0
  }

  function OpFor(list: seq<Target>, part: Part, t: nat): Op
    requires Doable(list, part) && t < |list|
  {
    var target, len := list[t], ShardLen(list[t].length, part.shards);
    Op(target.peer, target.src + Mul(part.shard, len), target.dst + Mul(part.shard, len), len)
  }

  function OpsFor(list: seq<Target>, part: Part, a: nat, b: nat): seq<Op>
    requires Doable(list, part) && a <= b <= |list|
  {
    seq(b - a, k requires 0 <= k < b - a => OpFor(list, part, a + k))
  }

  /** The iterator object, one request at a time. `posted` records what the device has taken. */
  class ScatterIter {
    const list: seq<Target>
    const part: Part
    var at: nat
    var request: Op
    ghost var posted: seq<Op>

    ghost predicate Valid()
      reads this
    {
      && Doable(list, part) && part.range.beg <= at <= part.range.end
      && (at < part.range.end ==> request == OpFor(list, part, at))
      && posted == OpsFor(list, part, part.range.beg, at)
    }

    constructor (targets: seq<Target>, what: Part)
      requires Doable(targets, what)
      ensures Valid() && list == targets && part == what && at == what.range.beg && posted == []
    {
      list, part, at := targets, what, what.range.beg;
      request := OpFor(targets, what, what.range.beg);
      posted := [];
    }

    /** Fill in the request for the current target. */
    method FillWr()
      requires Doable(list, part) && at < part.range.end
      modifies this`request
      ensures request == OpFor(list, part, at)
    {
      var target := list[at];
      var len := Quot(Rem(target.length, 0x1_0000_0000), part.shards);
      var offset := Mul(part.shard, len);
      request := Op(target.peer, target.src + offset, target.dst + offset, len);
    }

    method AdvanceOne()
      requires Valid() && at < part.range.end
      modifies this
      ensures Valid() && at == old(at) + 1 && posted == old(posted) + [old(request)]
    {
      hide OpFor;
      posted := posted + [request];
      at := at + 1;
      assert posted == OpsFor(list, part, part.range.beg, at);
      if at != part.range.end {
        FillWr();
      }
    }

    /** Post until the targets run out or the device is full. */
    method Post(room: nat) returns (taken: nat)
      requires Valid()
      modifies this
      ensures Valid() && taken == Min(room, part.range.end - old(at)) && at == old(at) + taken
      ensures posted == OpsFor(list, part, part.range.beg, at)
    {
      hide OpFor;
      taken := 0;
      while at < part.range.end && taken < room
        invariant Valid() && at == old(at) + taken && taken <= room
        decreases part.range.end - at
      {
        AdvanceOne();
        taken := taken + 1;
      }
    }
  }

  /** The operation moves byte `from` of the local buffer to byte `to` of the buffer of `q`. */
  predicate OpMoves(op: Op, q: nat, from: nat, to: nat) {
    op.peer == q && op.src <= from < op.src + op.len && to + op.src == op.dst + from
  }

  /** The operation for target `t` of write `w` does so. */
  predicate WriteMoves(list: seq<Target>, w: Write, t: nat, q: nat, from: nat, to: nat) {
    && Doable(list, w.part) && t < |list| && w.part.range.beg <= t < w.part.range.end
    && OpMoves(OpFor(list, w.part, t), q, from, to)
  }

  /** An operation moves exactly the bytes of its target that its write has. */
  lemma OpHas(list: seq<Target>, w: Write, t: nat, q: nat, from: nat, to: nat)
    requires Doable(list, w.part) && t < |list| && list[t].src <= from
    ensures WriteMoves(list, w, t, q, from, to)
            <==> Has(w, TargetByte(t, list[t].length, from - list[t].src)) && list[t].peer == q && Lands(list[t], from, to)
  {
    hide ShardLen, Mul;
    MulUnfold(w.part.shard + 1, ShardLen(list[t].length, w.part.shards));
  }

  lemma OpStarts(list: seq<Target>, w: Write, t: nat, q: nat, from: nat, to: nat)
    requires WriteMoves(list, w, t, q, from, to)
    ensures list[t].src <= from
  {
    hide ShardLen, Mul;
  }

  /** Every target's length is below 2^32 and a multiple of `n`. */
  predicate Whole(list: seq<Target>, n: nat)
    requires n > 0
  {
    forall t :: 0 <= t < |list| ==> list[t].length < 0x1_0000_0000 && Rem(list[t].length, n) == 0
  }

  /** The writes a scatter is split into: a list of them that every domain can do. */
  lemma WritesDoable(list: seq<Target>, spread: GroupRouting, domains: nat, k: nat)
    requires domains > 0 && |list| > 0 && k < |ScatterWrites(spread, |list|, domains)|
    ensures Doable(list, ScatterWrites(spread, |list|, domains)[k].part)
  {
    hide Ranges;
    RangesPartition(|list|, domains);
    if spread.ShardPeers? {
      TilesBelow(Ranges(|list|, domains), |list|, k);
    }
  }

  /** A scatter, split over the domains and posted operation by operation, copies a byte if and only
      if its list does, and then with exactly one operation of exactly one write. */
  lemma SplitMoves(list: seq<Target>, spread: GroupRouting, domains: nat, q: nat, from: nat, to: nat)
    requires domains > 0 && |list| > 0 && Distinct(list) && Whole(list, Cuts(spread, domains))
    ensures var ws := ScatterWrites(spread, |list|, domains);
            if Moves(list, q, from, to)
            then exists k: nat, t: nat :: MovesOnly(list, ws, k, t, q, from, to)
            else forall k: nat, t: nat :: k < |ws| ==> !WriteMoves(list, ws[k], t, q, from, to)
  {
    hide ScatterWrites, Rem, WriteMoves, Doable, Has, OneHas;
    var ws := ScatterWrites(spread, |list|, domains);
    if Moves(list, q, from, to) {
      var t :| 0 <= t < |list| && list[t].peer == q && Carries(list[t], from, to);
      var x := from - list[t].src;
      ScatterSendsAllIff(spread, |list|, domains, t, list[t].length);
      var k := TheOne(ws, TargetByte(t, list[t].length, x));
      WritesDoable(list, spread, domains, k);
      OpHas(list, ws[k], t, q, from, to);
      forall k': nat, t': nat | k' < |ws| && WriteMoves(list, ws[k'], t', q, from, to) ensures k' == k && t' == t {
        MovedBy(list, spread, domains, ws[k'], k', t', q, from, to);
        assert t' == t;
        assert Has(ws[k'], TargetByte(t, list[t].length, x));
      }
      assert MovesOnly(list, ws, k, t, q, from, to);
    } else {
      forall k: nat, t: nat | k < |ws| ensures !WriteMoves(list, ws[k], t, q, from, to) {
        if WriteMoves(list, ws[k], t, q, from, to) {
          MovedBy(list, spread, domains, ws[k], k, t, q, from, to);
        }
      }
    }
  }

  ghost predicate MovesOnly(list: seq<Target>, ws: seq<Write>, k: nat, t: nat, q: nat, from: nat, to: nat) {
    && k < |ws| && WriteMoves(list, ws[k], t, q, from, to)
    && forall k': nat, t': nat :: k' < |ws| && WriteMoves(list, ws[k'], t', q, from, to) ==> k' == k && t' == t
  }

  lemma TheOne(ws: seq<Write>, item: Item) returns (k: nat)
    requires OneHas(ws, item)
    ensures OnlyHas(ws, item, k)
  {
    k :| OnlyHas(ws, item, k);
  }

  lemma MovedBy(list: seq<Target>, spread: GroupRouting, domains: nat, w: Write, k: nat, t: nat, q: nat, from: nat, to: nat)
    requires domains > 0 && |list| > 0 && Whole(list, Cuts(spread, domains))
    requires k < |ScatterWrites(spread, |list|, domains)| && w == ScatterWrites(spread, |list|, domains)[k]
    requires WriteMoves(list, w, t, q, from, to)
    ensures t < |list| && list[t].peer == q && Carries(list[t], from, to)
    ensures list[t].src <= from && Has(w, TargetByte(t, list[t].length, from - list[t].src))
  {
    hide ScatterWrites, Rem, Has, OpFor;
    OpStarts(list, w, t, q, from, to);
    OpHas(list, w, t, q, from, to);
    ScatterSendsAllIff(spread, |list|, domains, t, list[t].length);
  }

  /** Lists of whole tokens, of a size that the domains divide, are whole. */
  lemma TokensWhole(kind: Kind, p: Plan, rank: nat, unit: nat, n: nat, list: seq<Target>)
    requires n > 0 && Lists(kind, p, rank, Mul(unit, n), list)
    requires forall t :: 0 <= t < |list| ==> list[t].length < 0x1_0000_0000
    ensures Whole(list, n)
  {
    hide Rem, Mul, TargetFor, Distinct, HasPeer, Wanted;
    forall t | 0 <= t < |list| ensures Rem(list[t].length, n) == 0 {
      var tokens := LengthOf(kind, p, rank, Mul(unit, n), list[t].peer);
      MulAssociative(tokens, unit, n);
      QuotRem(Mul(tokens, unit), 0, n);
    }
  }

  lemma LengthOf(kind: Kind, p: Plan, rank: nat, dim: nat, q: nat) returns (tokens: nat)
    requires p.Valid() && rank < p.c.worldSize && q < p.c.worldSize && Wanted(kind, p, rank, q)
    ensures TargetFor(kind, p, rank, dim, q).length == Mul(tokens, dim)
  {
    RankParts(p.c, rank);
    RankParts(p.c, q);
    match kind
    case PrivateKind => tokens := Min(p.Count(p.c.GroupOf(rank), q), p.c.maxPrivate);
    case OverflowKind => tokens := p.Count(p.c.GroupOf(rank), q) - p.c.maxPrivate;
    case CombineKind => tokens := p.Count(p.c.GroupOf(q), rank);
  }

  /** From the routing table to the wire: the operations that the worker's scatters are split into copy
      byte `x` of token `a` to byte `y` of token `b` of rank `q` if and only if the delivery proofs
      count on it, with exactly one operation of exactly one write. */
  lemma WorkerMoves(kind: Kind, p: Plan, rank: nat, unit: nat, list: seq<Target>, nets: nat, q: nat, a: nat, x: nat, b: nat, y: nat)
    requires nets > 0 && Lists(kind, p, rank, Mul(unit, nets), list) && |list| > 0 && q < p.c.worldSize
    requires x < Mul(unit, nets) && y < Mul(unit, nets) && forall t :: 0 <= t < |list| ==> list[t].length < 0x1_0000_0000
    ensures var ws, dim := ScatterWrites(Spread(kind), |list|, nets), Mul(unit, nets);
            var from, to := Mul(a, dim) + x, Mul(b, dim) + y;
            if Copies(kind, p, rank, q, a, b) && x == y
            then exists k: nat, t: nat :: MovesOnly(list, ws, k, t, q, from, to)
            else forall k: nat, t: nat :: k < |ws| ==> !WriteMoves(list, ws[k], t, q, from, to)
  {
    hide ScatterWrites, Mul, Rem, Moves, MovesOnly, WriteMoves, Copies, Wanted, TargetFor, HasPeer, Whole;
    var dim := Mul(unit, nets);
    ListMoves(kind, p, rank, dim, list, q, a, x, b, y);
    TokensWhole(kind, p, rank, unit, nets, list);
    if !Spread(kind).ShardBytes? {
      WholeByOne(list, nets);
    }
    SplitMoves(list, Spread(kind), nets, q, Mul(a, dim) + x, Mul(b, dim) + y);
  }

  lemma WholeByOne(list: seq<Target>, n: nat)
    requires n > 0 && Whole(list, n)
    ensures Whole(list, 1)
  {
    hide Rem;
    forall t | 0 <= t < |list| ensures Rem(list[t].length, 1) == 0 {
      MulAgrees(list[t].length, 1);
      QuotRem(list[t].length, 0, 1);
    }
  }
}
