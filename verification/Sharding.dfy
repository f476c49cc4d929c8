/** How a domain group splits a request over its domains. */
module Sharding {
  import opened Arith

  const MIN_SIZE: nat := 8192

  datatype Range = Range(beg: nat, end: nat)

  /** Consecutive non-empty ranges from `0` to `n`. */
  predicate Tiles(rs: seq<Range>, n: nat) {
    && (forall i :: 0 <= i < |rs| ==> rs[i].beg < rs[i].end)
    && (forall i :: 0 < i < |rs| ==> rs[i].beg == rs[i - 1].end)
    && (if |rs| == 0 then n == 0 else rs[0].beg == 0 && rs[|rs| - 1].end == n)
  }

  /** The first `i` ranges when every range takes `step` items of what is left of `n`. */
  function RangesUpTo(n: nat, step: nat, i: nat): seq<Range> {
    if i == 0 then []
    else if Mul(i - 1, step) < n && step > 0 then RangesUpTo(n, step, i - 1) + [Range(Mul(i - 1, step), Min(Mul(i, step), n))]
    else RangesUpTo(n, step, i - 1)
  }

  /** `n` items over `k` domains, as evenly as rounding up allows. */
  function Ranges(n: nat, k: nat): seq<Range>
    requires k > 0
  {
    RangesUpTo(n, CeilQuot(n, k), k)
  }

  lemma {:induction false} RangesTile(n: nat, step: nat, i: nat)
    requires step > 0
    ensures Tiles(RangesUpTo(n, step, i), Min(Mul(i, step), n)) && |RangesUpTo(n, step, i)| <= i
    ensures Mul(i, step) < n + step ==> |RangesUpTo(n, step, i)| == i
    ensures forall m :: 0 <= m < |RangesUpTo(n, step, i)| ==> RangesUpTo(n, step, i)[m].end - RangesUpTo(n, step, i)[m].beg <= step
  {
    if i > 0 {
      RangesTile(n, step, i - 1);
      MulUnfold(i, step);
    }
  }

  /** The ranges partition the items, at most one per domain, none longer than the rounded share. */
  lemma RangesPartition(n: nat, k: nat)
    requires k > 0
    ensures Tiles(Ranges(n, k), n) && |Ranges(n, k)| <= k
    ensures forall i :: 0 <= i < |Ranges(n, k)| ==> Ranges(n, k)[i].end - Ranges(n, k)[i].beg <= CeilQuot(n, k)
  {
    hide RangesUpTo, Quot;
    var step := CeilQuot(n, k);
    RoundUpBounds(n, k);
    MulCommutes(step, k);
    if step == 0 {
      MulUnfold(0, k);
      NoRanges(k);
    } else {
      RangesTile(n, step, k);
    }
  }

  lemma {:induction false} NoRanges(i: nat)
    ensures RangesUpTo(0, 0, i) == []
  {
    if i > 0 {
      NoRanges(i - 1);
    }
  }

  lemma {:induction false} RangesStay(n: nat, step: nat, i: nat, k: nat)
    requires i <= k && (step == 0 || n <= Mul(i, step))
    ensures RangesUpTo(n, step, k) == RangesUpTo(n, step, i)
  {
    if i < k {
      RangesStay(n, step, i, k - 1);
      MulMonotone(i, k - 1, step);
    }
  }

  method DivideEvenly(n: nat, k: nat) returns (rs: seq<Range>)
    requires k > 0
    ensures rs == Ranges(n, k)
  {
    hide Quot;
    rs := [];
    var step := CeilQuot(n, k);
    var remainder: nat, beg: nat, i: nat := n, 0, 0;
    while i < k
      invariant i <= k && beg == Min(Mul(i, step), n) && beg + remainder == n && rs == RangesUpTo(n, step, i)
    {
      var chunk := Min(remainder, step);
      if chunk == 0 {
        RangesStay(n, step, i, k);
        break;
      }
      rs := rs + [Range(beg, beg + chunk)];
      beg, remainder, i := beg + chunk, remainder - chunk, i + 1;
    }
  }

  /** Every item is in exactly one range. */
  lemma {:induction false} TilesExactly(rs: seq<Range>, n: nat, x: nat) returns (i: nat)
    requires Tiles(rs, n) && x < n
    ensures i < |rs| && rs[i].beg <= x < rs[i].end
    ensures forall j :: 0 <= j < |rs| && rs[j].beg <= x < rs[j].end ==> j == i
    decreases |rs|
  {
    var last := |rs| - 1;
    if rs[last].beg <= x {
      i := last;
      TilesOrdered(rs, n, last);
    } else {
      var front := rs[..last];
      assert Tiles(front, rs[last].beg);
      i := TilesExactly(front, rs[last].beg, x);
      forall j | 0 <= j < |rs| && rs[j].beg <= x < rs[j].end ensures j == i {
        assert j < last;
        assert front[j] == rs[j];
      }
    }
  }

  lemma {:induction false} TilesOrdered(rs: seq<Range>, n: nat, k: nat)
    requires Tiles(rs, n) && k < |rs|
    ensures forall j :: 0 <= j < k ==> rs[j].end <= rs[k].beg
  {
    if k > 0 {
      TilesOrdered(rs, n, k - 1);
    }
  }

  lemma TilesBelow(rs: seq<Range>, n: nat, k: nat)
    requires Tiles(rs, n) && k < |rs|
    ensures rs[k].end <= n
  {
    TilesOrdered(rs, n, |rs| - 1);
  }

  /** Bytes of one shard of a single write: rounded up to the minimum size. */
  function ShardBase(total: nat, shards: nat): nat
    requires shards > 0
  {
    RoundUp(Quot(total, shards), MIN_SIZE)
  }

  datatype Piece = Piece(offset: nat, len: nat)

  /** Shard `k` when every shard takes `base` bytes of what is left. */
  function PieceAt(total: nat, base: nat, k: nat): Piece {
    var from := Min(Mul(k, base), total);
    var len := Min(base, total - from);
    if len > 0 then Piece(from, len) else Piece(0, 0)
  }

  /** Split the bytes of a single write; exactly one piece per shard, the empty ones at zero. */
  method ShardSingle(total: nat, shards: nat) returns (ps: seq<Piece>, covered: nat)
    requires shards > 0
    ensures |ps| == shards && covered == Min(Mul(shards, ShardBase(total, shards)), total)
    ensures forall k :: 0 <= k < shards ==> ps[k] == PieceAt(total, ShardBase(total, shards), k)
  {
    ps := [];
    var base := ShardBase(total, shards);
    var offset := 0;
    for k := 0 to shards
      invariant |ps| == k && offset == Min(Mul(k, base), total)
      invariant forall m :: 0 <= m < k ==> ps[m] == PieceAt(total, base, m)
    {
      var len := Min(base, total - offset);
      if len > 0 {
        ps := ps + [Piece(offset, len)];
        offset := offset + len;
      } else {
        ps := ps + [Piece(0, 0)];
      }
    }
    covered := offset;
  }

  /** The non-empty pieces are consecutive from zero up to what is covered. */
  lemma PiecesContiguous(total: nat, base: nat, shards: nat, x: nat, k: nat)
    requires k < shards && base > 0
    ensures var p := PieceAt(total, base, k);
            p.offset <= x < p.offset + p.len <==> x < total && Mul(k, base) <= x < Mul(k + 1, base)
  {
  }

  /** All bytes are covered exactly when the division leaves no remainder or the quotient is
      not a multiple of the minimum size; otherwise exactly the remainder is missing. */
  lemma CoversIff(total: nat, shards: nat)
    requires shards > 0
    ensures var covered := Min(Mul(shards, ShardBase(total, shards)), total);
            && (covered == total <==> Rem(total, shards) == 0 || Rem(Quot(total, shards), MIN_SIZE) != 0)
            && (covered != total ==> covered + Rem(total, shards) == total)
  {
    hide Quot, Rem, Mul, RoundUp;
    var q, base := Quot(total, shards), ShardBase(total, shards);
    QuotRemParts(total, shards);
    MulCommutes(q, shards);
    if Rem(q, MIN_SIZE) == 0 {
      RoundedExact(q);
    } else {
      RoundedMore(q);
      MulUnfold(q + 1, shards);
      MulMonotone(q + 1, base, shards);
      MulCommutes(base, shards);
    }
  }

  lemma RoundedExact(q: nat)
    requires Rem(q, MIN_SIZE) == 0
    ensures RoundUp(q, MIN_SIZE) == q
  {
    hide Quot, Rem;
    QuotRemParts(q, MIN_SIZE);
    QuotRem(Quot(q, MIN_SIZE), MIN_SIZE - 1, MIN_SIZE);
  }

  lemma RoundedMore(q: nat)
    requires Rem(q, MIN_SIZE) != 0
    ensures RoundUp(q, MIN_SIZE) > q
  {
    hide Quot;
    RoundUpBounds(q, MIN_SIZE);
  }

  /** Bytes are dropped: 16385 bytes over two shards of 8192. */
  lemma BytesDropped()
    ensures Quot(16385, 2) == 8192 && Rem(16385, 2) == 1 && Rem(8192, MIN_SIZE) == 0
    ensures Min(Mul(2, ShardBase(16385, 2)), 16385) == 16384
  {
    hide Quot, Rem;
    assert Mul(8192, 2) == 16384 by {
      MulAgrees(8192, 2);
    }
    QuotRem(8192, 1, 2);
    assert Rem(8192, MIN_SIZE) == 0 by {
      MulAgrees(1, MIN_SIZE);
      QuotRem(1, 0, MIN_SIZE);
    }
    CoversIff(16385, 2);
  }

  /** A byte-sharded scatter: every domain takes an equal part of each target. The length is cut
      to 32 bits first. */
  function ShardLen(length: nat, shards: nat): nat
    requires shards > 0
  {
    Quot(Rem(length, 0x1_0000_0000), shards)
  }

  predicate InShard(length: nat, shards: nat, k: nat, x: nat)
    requires shards > 0
  {
    Mul(k, ShardLen(length, shards)) <= x < Mul(k + 1, ShardLen(length, shards))
  }

  /** The shards of a target never overlap, and together reach to `shards * ShardLen`. */
  lemma ShardsDisjoint(length: nat, shards: nat, j: nat, k: nat, x: nat)
    requires shards > 0 && InShard(length, shards, j, x) && InShard(length, shards, k, x)
    ensures j == k
  {
    var len := ShardLen(length, shards);
    if j < k {
      MulMonotone(j + 1, k, len);
    } else if k < j {
      MulMonotone(k + 1, j, len);
    }
  }

  lemma ShardOf(length: nat, shards: nat, x: nat) returns (k: nat)
    requires shards > 0 && x < Mul(shards, ShardLen(length, shards))
    ensures k < shards && InShard(length, shards, k, x)
  {
    var len := ShardLen(length, shards);
    MulZeroOnly(shards, len);
    k := Quot(x, len);
    QuotRemParts(x, len);
    QuotBound(x, shards, len);
  }

  /** The shards cover the target exactly if and only if its length is below 2^32 and a multiple
      of the number of domains. */
  lemma ShardsCoverIff(length: nat, shards: nat)
    requires shards > 0
    ensures Mul(shards, ShardLen(length, shards)) == length <==> length < 0x1_0000_0000 && Rem(length, shards) == 0
  {
    hide Quot, Rem;
    var low := Rem(length, 0x1_0000_0000);
    QuotRemParts(length, 0x1_0000_0000);
    QuotRemParts(low, shards);
    MulCommutes(shards, Quot(low, shards));
    assert length < 0x1_0000_0000 ==> low == length by {
      LowBits(length);
    }
  }

  lemma LowBits(length: nat)
    ensures length < 0x1_0000_0000 ==> Rem(length, 0x1_0000_0000) == length
  {
  }

  /** Whole tokens over one, two or four domains always shard exactly: token sizes are
      multiples of sixteen. */
  lemma TokensShardExactly(tokens: nat, units: nat, shards: nat)
    requires shards == 1 || shards == 2 || shards == 4
    requires Mul(tokens, Mul(units, 16)) < 0x1_0000_0000
    ensures Mul(shards, ShardLen(Mul(tokens, Mul(units, 16)), shards)) == Mul(tokens, Mul(units, 16))
  {
    hide Quot, Rem, Mul;
    var n := Mul(tokens, Mul(units, 16));
    ShardsCoverIff(n, shards);
    var d := 16 / shards;
    assert Mul(d, shards) == 16 by {
      MulAgrees(d, shards);
    }
    MulAssociative(units, d, shards);
    MulAssociative(tokens, Mul(units, d), shards);
    QuotRem(Mul(tokens, Mul(units, d)), 0, shards);
  }
}
