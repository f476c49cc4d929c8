/** What the writes of a split request carry between them: every byte, page and target, once. */
module Coverage {
  import opened Arith
  import opened Sharding
  import opened Splitting

  /** A byte of a single write, a page of a paged one, or byte `x` of target `t` of a scatter, when
      that target is `length` bytes long. */
  datatype Item = Byte(x: nat) | Page(x: nat) | TargetByte(t: nat, length: nat, x: nat)

  predicate Has(w: Write, item: Item) {
    match item
    case Byte(x) => w.part.Bytes? && w.part.piece.offset <= x < w.part.piece.offset + w.part.piece.len
    case Page(x) => w.part.Pages? && w.part.range.beg <= x < w.part.range.end
    case TargetByte(t, length, x) =>
      w.part.Targets? && w.part.range.beg <= t < w.part.range.end && w.part.shards > 0
      && InShard(length, w.part.shards, w.part.shard, x)
  }

  /** Exactly one of the writes, the `k`-th, has the item. */
  predicate OnlyHas(ws: seq<Write>, item: Item, k: nat) {
    k < |ws| && forall j :: 0 <= j < |ws| ==> (Has(ws[j], item) <==> j == k)
  }

  ghost predicate OneHas(ws: seq<Write>, item: Item) {
    exists k: nat :: OnlyHas(ws, item, k)
  }

  predicate NoneHas(ws: seq<Write>, item: Item) {
    forall j :: 0 <= j < |ws| ==> !Has(ws[j], item)
  }

  lemma EmptyPieces(length: nat, k: nat)
    ensures PieceAt(length, 0, k).len == 0
  {
  }

  lemma StretchOf(base: nat, x: nat, j: nat)
    requires base > 0
    ensures Mul(j, base) <= x < Mul(j + 1, base) <==> j == Quot(x, base)
  {
    QuotOrder(x, j, base);
    QuotOrder(x, j + 1, base);
  }

  /** Single writes: every byte up to what the shards reach is in exactly one write, and no other
      byte in any. */
  lemma SingleCovers(addresses: nat, length: nat, routing: Routing, domains: nat, next: nat, x: nat)
    requires domains > 0 && ShardCount(routing) > 0
    ensures var ws, n := WritesOf(SingleRequest(addresses, length, routing), domains, next), ShardCount(routing);
            if x < length && x < Mul(n, ShardBase(length, n)) then OneHas(ws, Byte(x)) else NoneHas(ws, Byte(x))
  {
    hide Quot, Rem, Mul, ShardBase, PieceAt;
    var ws, n := WritesOf(SingleRequest(addresses, length, routing), domains, next), ShardCount(routing);
    var base := ShardBase(length, n);
    if base == 0 {
      MulZeroOnly(n, base);
      forall j | 0 <= j < |ws| ensures !Has(ws[j], Byte(x)) {
        EmptyPieces(length, j);
      }
    } else {
      forall j | 0 <= j < |ws| ensures Has(ws[j], Byte(x)) <==> x < length && j == Quot(x, base) {
        PiecesContiguous(length, base, n, x, j);
        StretchOf(base, x, j);
      }
      QuotOrder(x, n, base);
      if x < length && x < Mul(n, base) {
        assert OnlyHas(ws, Byte(x), Quot(x, base));
      }
    }
  }

  /** So a single write sends all its bytes if and only if the division is exact or the quotient is
      no multiple of the minimum size. */
  lemma SingleSendsAllIff(addresses: nat, length: nat, routing: Routing, domains: nat, next: nat)
    requires domains > 0 && ShardCount(routing) > 0
    ensures var n := ShardCount(routing);
            (forall x: nat :: x < length ==> OneHas(WritesOf(SingleRequest(addresses, length, routing), domains, next), Byte(x)))
            <==> Rem(length, n) == 0 || Rem(Quot(length, n), 8192) != 0
  {
    hide Quot, Rem, Mul, ShardBase, PieceAt, OneHas, NoneHas, WritesOf;
    var ws, n := WritesOf(SingleRequest(addresses, length, routing), domains, next), ShardCount(routing);
    var reach := Mul(n, ShardBase(length, n));
    CoversIff(length, n);
    forall x: nat | x < length ensures OneHas(ws, Byte(x)) <==> x < reach {
      SingleCovers(addresses, length, routing, domains, next, x);
      if x >= reach {
        NotOne(ws, Byte(x));
      }
    }
    if reach < length {
      assert !OneHas(ws, Byte(reach));
    }
  }

  lemma NotOne(ws: seq<Write>, item: Item)
    requires NoneHas(ws, item)
    ensures !OneHas(ws, item)
  {
    hide Has;
    forall k: nat ensures !OnlyHas(ws, item, k) {
      if k < |ws| {
        assert !Has(ws[k], item);
      }
    }
  }

  /** Paged writes: every page is in exactly one write, and there are no others. */
  lemma PagedCovers(addresses: nat, pages: nat, domains: nat, next: nat, x: nat)
    requires domains > 0
    ensures var ws := WritesOf(PagedRequest(addresses, pages, pages), domains, next);
            if x < pages then OneHas(ws, Page(x)) else NoneHas(ws, Page(x))
  {
    hide Quot, Rem, Ranges;
    var ws, rs := WritesOf(PagedRequest(addresses, pages, pages), domains, next), Ranges(pages, domains);
    RangesPartition(pages, domains);
    assert forall j :: 0 <= j < |ws| ==> ws[j].part == Pages(rs[j]);
    if x < pages {
      var k := TilesExactly(rs, pages, x);
      assert OnlyHas(ws, Page(x), k);
    } else {
      forall j | 0 <= j < |ws| ensures rs[j].end <= pages {
        TilesOrdered(rs, pages, |rs| - 1);
      }
    }
  }

  /** Requests for pages take turns: the writes of one after the other go round the domains without
      a gap. */
  lemma PagesInTurn(req: Request, req': Request, domains: nat, next: nat, k: nat)
    requires domains > 0 && next < domains && req.PagedRequest? && req'.PagedRequest?
    requires var ws := WritesOf(req, domains, next); k < |ws + WritesOf(req', domains, Rem(next + Turns(req, domains, |ws|), domains))|
    ensures var ws := WritesOf(req, domains, next);
            (ws + WritesOf(req', domains, Rem(next + Turns(req, domains, |ws|), domains)))[k].on == Rem(next + k, domains)
  {
    hide Quot, Rem, Ranges;
    var ws := WritesOf(req, domains, next);
    if k >= |ws| {
      RemSum(next + |ws|, k - |ws|, domains);
    }
  }

  lemma {:induction false} RemSum(a: nat, b: nat, n: nat)
    requires n > 0
    ensures Rem(Rem(a, n) + b, n) == Rem(a + b, n)
  {
    if a >= n {
      RemSum(a - n, b, n);
      RemShift(1, a - n + b, n);
      MulUnfold(1, n);
    }
  }

  /** Single, paged and scatter requests use every domain at most once, and every key. */
  lemma DomainsApart(req: Request, domains: nat, next: nat, j: nat, k: nat)
    requires domains > 0 && next < domains && !Refuses(req, domains) && !req.ImmRequest?
    requires req.SingleRequest? ==> ShardCount(req.routing) > 0
    requires j < k < |WritesOf(req, domains, next)|
    ensures var ws := WritesOf(req, domains, next); ws[j].on != ws[k].on && ws[j].key != ws[k].key
  {
    hide Quot, Rem, Ranges, PieceAt, ShardBase;
    if req.PagedRequest? {
      RangesPartition(req.srcPages, domains);
    }
    if req.PagedRequest? || req.SingleRequest? {
      RemApart(next, j, k, domains);
    }
  }

  lemma RemApart(a: nat, j: nat, k: nat, n: nat)
    requires a < n && j < k
    ensures k < n ==> Rem(a + j, n) != Rem(a + k, n)
  {
    if k < n {
      RemWrap(a, j, n);
      RemWrap(a, k, n);
      RemSmall(a, n);
    }
  }

  /** Requests for immediates: pinned ones go to their domain; otherwise each domain, going round from
      the next one, gets the next stretch of an equal number of targets, rounded up. */
  lemma ImmSpread(keys: seq<nat>, routing: Routing, domains: nat, next: nat, t: nat, d: nat)
    requires domains > 0 && next < domains && d < domains && t < |keys| && !Refuses(ImmRequest(keys, routing), domains)
    ensures ImmChunk(routing, |keys|, domains) > 0
    ensures var w := WritesOf(ImmRequest(keys, routing), domains, next)[t];
            && w.part == ImmTo(t)
            && match routing
               case Pinned(domain) => w.on == domain
               case RoundRobin(shards) =>
                 var per, turn := CeilQuot(|keys|, domains), if d < next then d + domains - next else d - next;
                 (w.on == d <==> Mul(turn, per) <= t < Mul(turn + 1, per)) && Mul(w.key, per) <= t < Mul(w.key + 1, per)
  {
    hide Quot, Rem, Mul, KeysMatch;
    var n := |keys|;
    PerDomain(n, domains);
    var per := ImmChunk(routing, n, domains);
    var w := WritesOf(ImmRequest(keys, routing), domains, next)[t];
    match routing
    case Pinned(domain) =>
      MulUnfold(1, n);
      MulUnfold(0, n);
      StretchOf(n, t, 0);
      RemSmall(domain, domains);
    case RoundRobin(shards) =>
      WritesInRange(ImmRequest(keys, routing), domains, next, t);
      StretchOf(per, t, if d < next then d + domains - next else d - next);
      StretchOf(per, t, w.key);
      RemWrap(next, w.key, domains);
      RemSmall(next, domains);
  }

  /** How many shards of each target a scatter is cut into. */
  function Cuts(spread: GroupRouting, domains: nat): nat {
    if spread.ShardBytes? then domains else 1
  }

  /** Scatters: every byte of every target, up to what the shards reach, is in exactly one write, and
      no other byte in any. */
  lemma ScatterCovers(spread: GroupRouting, targets: nat, domains: nat, t: nat, length: nat, x: nat)
    requires domains > 0
    ensures var ws, n := ScatterWrites(spread, targets, domains), Cuts(spread, domains);
            if t < targets && x < Mul(n, ShardLen(length, n)) then OneHas(ws, TargetByte(t, length, x))
            else NoneHas(ws, TargetByte(t, length, x))
  {
    hide Quot, Rem, Mul, Ranges, ShardLen, Tiles;
    var ws, n, item := ScatterWrites(spread, targets, domains), Cuts(spread, domains), TargetByte(t, length, x);
    match spread
    case ShardPeers =>
      RangesPartition(targets, domains);
      MulUnfold(1, ShardLen(length, 1));
      if t < targets {
        var k := TilesExactly(Ranges(targets, domains), targets, t);
        assert x < ShardLen(length, 1) ==> OnlyHas(ws, item, k);
      } else {
        forall j | 0 <= j < |ws| ensures ws[j].part.range.end <= targets {
          TilesBelow(Ranges(targets, domains), targets, j);
        }
      }
    case ShardBytes =>
      if x < Mul(n, ShardLen(length, n)) {
        var k := ShardOf(length, n, x);
        forall j | 0 <= j < |ws| && InShard(length, n, j, x) ensures j == k {
          ShardsDisjoint(length, n, j, k, x);
        }
        assert t < targets ==> OnlyHas(ws, item, k);
      } else {
        forall j | 0 <= j < |ws| ensures !Has(ws[j], item) {
          MulMonotone(j + 1, n, ShardLen(length, n));
        }
      }
    case OneDomain(domain) =>
      MulUnfold(1, ShardLen(length, 1));
      assert t < targets && x < ShardLen(length, 1) ==> OnlyHas(ws, item, 0);
  }

  /** So all bytes of a target are sent, each once, if and only if its length is below 2^32 and a
      multiple of the number of cuts. */
  lemma ScatterSendsAllIff(spread: GroupRouting, targets: nat, domains: nat, t: nat, length: nat)
    requires domains > 0 && t < targets
    ensures (forall x: nat :: x < length ==> OneHas(ScatterWrites(spread, targets, domains), TargetByte(t, length, x)))
            <==> length < 0x1_0000_0000 && Rem(length, Cuts(spread, domains)) == 0
    ensures forall x: nat :: x >= length ==> NoneHas(ScatterWrites(spread, targets, domains), TargetByte(t, length, x))
  {
    hide Quot, Rem, Mul, ShardLen, OneHas, NoneHas, ScatterWrites;
    var ws, n := ScatterWrites(spread, targets, domains), Cuts(spread, domains);
    var reach := Mul(n, ShardLen(length, n));
    ShardsCoverIff(length, n);
    ReachWithin(length, n);
    forall x: nat ensures OneHas(ws, TargetByte(t, length, x)) <==> x < reach
      ensures x >= reach ==> NoneHas(ws, TargetByte(t, length, x))
    {
      ScatterCovers(spread, targets, domains, t, length, x);
      if x >= reach {
        NotOne(ws, TargetByte(t, length, x));
      }
    }
    if reach < length {
      assert !OneHas(ws, TargetByte(t, length, reach));
    }
  }

  lemma ReachWithin(length: nat, n: nat)
    requires n > 0
    ensures Mul(n, ShardLen(length, n)) <= length
  {
    hide Quot, Rem, Mul;
    var low := Rem(length, 0x1_0000_0000);
    QuotRemParts(length, 0x1_0000_0000);
    QuotRemParts(low, n);
    MulCommutes(n, Quot(low, n));
  }
}
