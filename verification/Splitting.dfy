/** How a domain group turns a request into writes on its domains: what each write carries,
    which domain it is handed to, and which domain's address and key it was built with. */
module Splitting {
  import opened Arith
  import opened Sharding
  import opened Wrappers

  datatype Routing = RoundRobin(shards: nat) | Pinned(domain: nat)

  datatype GroupRouting = ShardPeers | ShardBytes | OneDomain(domain: nat)

  /** The peer group a scatter names: none, one of `size` members, or one that does not exist. */
  datatype PeerGroup = NoGroup | Known(size: nat) | Missing

  /** The four kinds of request, as far as splitting them matters. `keys` and `addresses` are
      the number of addresses and keys that come with a remote region. */
  datatype Request =
    | ImmRequest(keys: seq<nat>, routing: Routing)
    | SingleRequest(addresses: nat, length: nat, routing: Routing)
    | PagedRequest(addresses: nat, srcPages: nat, dstPages: nat)
    | ScatterRequest(targets: nat, group: PeerGroup, spread: GroupRouting)

  /** What one write carries: an immediate to one target, some bytes, some pages, or for a range
      of targets one of `shards` equal parts of each. */
  datatype Part = ImmTo(target: nat) | Bytes(piece: Piece) | Pages(range: Range) | Targets(range: Range, shards: nat, shard: nat)

  /** A write handed to domain `on`, built with the address and key for domain `key`. */
  datatype Write = Write(on: nat, key: nat, part: Part)

  /** Submitted, turned down with an error, or stopped by a failed check. */
  datatype Verdict = Submitted | Refused | Stopped

  /** What a submission does: the number of writes entered in the books, if any, the writes made,
      and where the round robin goes on. */
  datatype Outcome = Outcome(verdict: Verdict, entered: Option<nat>, writes: seq<Write>, next: nat)

  // Specification: what is refused, and the writes of a request that is not.

  predicate Usable(routing: Routing, domains: nat) {
    match routing case RoundRobin(shards) => shards <= domains case Pinned(domain) => domain < domains
  }

  predicate KeysMatch(keys: seq<nat>, domains: nat) {
    forall i :: 0 <= i < |keys| ==> keys[i] == domains
  }

  predicate Refuses(req: Request, domains: nat) {
    match req
    case ImmRequest(keys, routing) =>
      !KeysMatch(keys, domains) || !(match routing case RoundRobin(shards) => shards == 1 case Pinned(domain) => domain < domains)
    case SingleRequest(keys, length, routing) => keys != domains || !Usable(routing, domains)
    case PagedRequest(keys, srcPages, dstPages) => keys != domains || srcPages != dstPages
    case ScatterRequest(targets, group, spread) => targets == 0 || group.Missing? || (group.Known? && group.size != targets)
  }

  /** An immediate request chops its targets into chunks of `per`; the chunks go to successive
      domains from `first` on, but the keys are taken from the first on. */
  function ImmWrite(per: nat, first: nat, domains: nat, t: nat): Write
    requires per > 0 && domains > 0
  {
    Write(Rem(first + Quot(t, per), domains), Quot(t, per), ImmTo(t))
  }

  /** The first domain of a request, and the domain the `k`-th of its writes is built for. */
  function Origin(routing: Routing, next: nat): nat {
    match routing case RoundRobin(shards) => next case Pinned(domain) => domain
  }

  function ImmChunk(routing: Routing, targets: nat, domains: nat): nat
    requires domains > 0
  {
    match routing case RoundRobin(shards) => CeilQuot(targets, domains) case Pinned(domain) => targets
  }

  function ShardCount(routing: Routing): nat {
    match routing case RoundRobin(shards) => shards case Pinned(domain) => 1
  }

  /** A single write's shards are built for successive domains from `next` on, and handed out
      from domain zero on. */
  function SingleWrite(length: nat, routing: Routing, domains: nat, next: nat, k: nat): Write
    requires domains > 0 && ShardCount(routing) > 0
  {
    Write(k, if routing.Pinned? then routing.domain else Rem(next + k, domains),
          Bytes(PieceAt(length, ShardBase(length, ShardCount(routing)), k)))
  }

  function PagedWrite(pages: nat, domains: nat, next: nat, k: nat): Write
    requires domains > 0 && k < |Ranges(pages, domains)|
  {
    Write(Rem(next + k, domains), Rem(next + k, domains), Pages(Ranges(pages, domains)[k]))
  }

  function ScatterWrites(spread: GroupRouting, targets: nat, domains: nat): seq<Write>
    requires domains > 0
  {
    match spread
    case ShardPeers =>
      var rs := Ranges(targets, domains);
      seq(|rs|, k requires 0 <= k < |rs| => Write(k, k, Targets(rs[k], 1, 0)))
    case ShardBytes => seq(domains, (k: nat) => Write(k, k, Targets(Range(0, targets), domains, k)))
    case OneDomain(domain) => [Write(domain, domain, Targets(Range(0, targets), 1, 0))]
  }

  function WritesOf(req: Request, domains: nat, next: nat): seq<Write>
    requires domains > 0 && (req.SingleRequest? ==> ShardCount(req.routing) > 0)
    requires req.ImmRequest? ==> ImmChunk(req.routing, |req.keys|, domains) > 0
  {
    match req
    case ImmRequest(keys, routing) =>
      seq(|keys|, t requires 0 <= t => ImmWrite(ImmChunk(routing, |keys|, domains), Origin(routing, next), domains, t))
    case SingleRequest(keys, length, routing) =>
      seq(ShardCount(routing), k requires 0 <= k => SingleWrite(length, routing, domains, next, k))
    case PagedRequest(keys, srcPages, dstPages) =>
      seq(|Ranges(srcPages, domains)|, k requires 0 <= k < |Ranges(srcPages, domains)| => PagedWrite(srcPages, domains, next, k))
    case ScatterRequest(targets, group, spread) => ScatterWrites(spread, targets, domains)
  }

  /** A check fails instead: an immediate request without targets, or a scatter sent to a domain
      that does not exist. */
  predicate Trips(req: Request, domains: nat) {
    (req.ImmRequest? && |req.keys| == 0) || (req.ScatterRequest? && req.spread.OneDomain? && req.spread.domain >= domains)
  }

  // The source's loops.

  method SplitImm(keys: seq<nat>, routing: Routing, domains: nat, next: nat) returns (o: Outcome)
    requires domains > 0 && next < domains
    ensures o.verdict.Refused? <==> Refuses(ImmRequest(keys, routing), domains)
    ensures o.verdict.Stopped? <==> !Refuses(ImmRequest(keys, routing), domains) && |keys| == 0
    ensures o.entered == if KeysMatch(keys, domains) then Some(|keys|) else None
    ensures if o.verdict.Submitted?
            then ImmChunk(routing, |keys|, domains) > 0 && o.writes == WritesOf(ImmRequest(keys, routing), domains, next)
            else o.writes == []
    ensures o.next == if routing == RoundRobin(1) && KeysMatch(keys, domains) then Rem(next + Min(domains, |keys|), domains) else next
  {
    hide Quot, Rem, Mul;
    o := Outcome(Refused, None, [], next);
    for i := 0 to |keys|
      invariant forall j :: 0 <= j < i ==> keys[j] == domains
    {
      if keys[i] != domains {
        return;
      }
    }
    o := o.(entered := Some(|keys|));
    var first, per := 0, 0;
    match routing {
      case RoundRobin(shards) =>
        if shards != 1 {
          return;
        }
        first, per := next, CeilQuot(|keys|, domains);
        o := o.(next := Rem(next + Min(domains, |keys|), domains));
      case Pinned(domain) =>
        if domain >= domains {
          return;
        }
        first, per := domain, |keys|;
    }
    PerDomain(|keys|, domains);
    if per == 0 {
      return o.(verdict := Stopped);
    }
    var writes := ImmWrites(|keys|, domains, first, per);
    o := o.(verdict := Submitted, writes := writes);
  }

  lemma PerDomain(targets: nat, domains: nat)
    requires domains > 0
    ensures CeilQuot(targets, domains) == 0 <==> targets == 0
  {
    RoundUpBounds(targets, domains);
  }

  lemma QuotIn(i: nat, t: nat, per: nat)
    requires per > 0 && Mul(i, per) <= t < Mul(i + 1, per)
    ensures Quot(t, per) == i
  {
    QuotOrder(t, i, per);
    QuotOrder(t, i + 1, per);
  }

  /** One write per target, in chunks of `per`, each chunk on the next domain. */
  method ImmWrites(targets: nat, domains: nat, first: nat, per: nat) returns (writes: seq<Write>)
    requires domains > 0 && per > 0
    ensures writes == seq(targets, t requires 0 <= t => ImmWrite(per, first, domains, t))
  {
    hide Quot, Rem;
    writes := [];
    var i := 0;
    while |writes| < targets
      invariant |writes| == Min(Mul(i, per), targets)
      invariant forall t :: 0 <= t < |writes| ==> writes[t] == ImmWrite(per, first, domains, t)
      decreases targets - |writes|
    {
      var d := Rem(first + i, domains);
      var n := Min(|writes| + per, targets);
      while |writes| < n
        invariant Mul(i, per) <= |writes| <= n
        invariant forall t :: 0 <= t < |writes| ==> writes[t] == ImmWrite(per, first, domains, t)
      {
        QuotIn(i, |writes|, per);
        writes := writes + [Write(d, i, ImmTo(|writes|))];
      }
      i := i + 1;
    }
  }

  method SplitSingle(keys: nat, length: nat, routing: Routing, domains: nat, next: nat) returns (o: Outcome)
    requires domains > 0 && next < domains && ShardCount(routing) > 0
    ensures o.verdict.Refused? <==> Refuses(SingleRequest(keys, length, routing), domains)
    ensures !o.verdict.Stopped?
    ensures if o.verdict.Submitted?
            then o.writes == WritesOf(SingleRequest(keys, length, routing), domains, next) && o.entered == Some(|o.writes|)
            else o.writes == [] && o.entered == None
    ensures o.next == if routing.RoundRobin? then Rem(next + |o.writes|, domains) else next
  {
    hide Quot, Rem, Mul, PieceAt, ShardBase;
    o := Outcome(Refused, None, [], next);
    RemSmall(next, domains);
    if keys != domains {
      return;
    }
    match routing {
      case RoundRobin(n) =>
        if n > domains {
          return;
        }
      case Pinned(domain) =>
        if domain >= domains {
          return;
        }
    }
    var pieces, covered := ShardSingle(length, ShardCount(routing));
    var built: seq<(nat, Piece)>, rr := [], next;
    for k := 0 to |pieces|
      invariant |built| == k && rr == if routing.Pinned? then next else Rem(next + k, domains)
      invariant forall j: nat :: j < k ==> built[j] == (SingleWrite(length, routing, domains, next, j).key, pieces[j])
    {
      var i := rr;
      if routing.Pinned? {
        i := routing.domain;
      } else {
        RemNext(next + k, domains);
        rr := Rem(rr + 1, domains);
      }
      built := built + [(i, pieces[k])];
    }
    var writes: seq<Write> := [];
    for d := 0 to |built|
      invariant |writes| == d
      invariant forall j: nat :: j < d ==> writes[j] == SingleWrite(length, routing, domains, next, j)
    {
      writes := writes + [Write(d, built[d].0, Bytes(built[d].1))];
    }
    o := Outcome(Submitted, Some(|built|), writes, rr);
    assert writes == WritesOf(SingleRequest(keys, length, routing), domains, next);
  }

  lemma RemNext(a: nat, n: nat)
    requires n > 0
    ensures Rem(Rem(a, n) + 1, n) == Rem(a + 1, n)
  {
    RemWrap(a, 1, n);
    RemWrap(Rem(a, n), 1, n);
    RemSmall(Rem(a, n), n);
  }

  method SplitPaged(keys: nat, srcPages: nat, dstPages: nat, domains: nat, next: nat) returns (o: Outcome)
    requires domains > 0 && next < domains
    ensures o.verdict.Refused? <==> Refuses(PagedRequest(keys, srcPages, dstPages), domains)
    ensures !o.verdict.Stopped?
    ensures if o.verdict.Submitted?
            then o.writes == WritesOf(PagedRequest(keys, srcPages, dstPages), domains, next) && o.entered == Some(|o.writes|)
            else o.writes == [] && o.entered == None
    ensures o.next == Rem(next + |o.writes|, domains)
  {
    hide Quot, Rem, Mul, Ranges;
    o := Outcome(Refused, None, [], next);
    RemSmall(next, domains);
    if keys != domains {
      return;
    }
    if srcPages != dstPages {
      return;
    }
    var ranges := DivideEvenly(srcPages, domains);
    var writes: seq<Write>, rr := [], next;
    for k := 0 to |ranges|
      invariant |writes| == k && rr == Rem(next + k, domains)
      invariant forall j: nat :: j < k ==> writes[j] == PagedWrite(srcPages, domains, next, j)
    {
      writes := writes + [Write(rr, rr, Pages(ranges[k]))];
      RemNext(next + k, domains);
      rr := Rem(rr + 1, domains);
    }
    o := Outcome(Submitted, Some(|ranges|), writes, rr);
    assert writes == WritesOf(PagedRequest(keys, srcPages, dstPages), domains, next);
  }

  method SplitScatter(targets: nat, group: PeerGroup, spread: GroupRouting, domains: nat, next: nat) returns (o: Outcome)
    requires domains > 0 && next < domains
    ensures o.verdict.Refused? <==> Refuses(ScatterRequest(targets, group, spread), domains)
    ensures o.verdict.Stopped? <==> !o.verdict.Refused? && spread.OneDomain? && spread.domain >= domains
    ensures if o.verdict.Submitted? then o.writes == ScatterWrites(spread, targets, domains) && o.entered == Some(|o.writes|)
            else o.writes == [] && o.entered == None
    ensures o.next == next
  {
    hide Quot, Rem, Mul, Ranges;
    o := Outcome(Refused, None, [], next);
    if targets == 0 {
      return;
    }
    if group.Missing? || (group.Known? && targets != group.size) {
      return;
    }
    var writes: seq<Write> := [];
    match spread {
      case ShardPeers =>
        var ranges := DivideEvenly(targets, domains);
        RangesPartition(targets, domains);
        for k := 0 to Min(domains, |ranges|)
          invariant |writes| == k && forall j: nat :: j < k ==> writes[j] == Write(j, j, Targets(ranges[j], 1, 0))
        {
          writes := writes + [Write(k, k, Targets(ranges[k], 1, 0))];
        }
      case ShardBytes =>
        for k := 0 to domains
          invariant |writes| == k && forall j: nat :: j < k ==> writes[j] == Write(j, j, Targets(Range(0, targets), domains, j))
        {
          writes := writes + [Write(k, k, Targets(Range(0, targets), domains, k))];
        }
      case OneDomain(domain) =>
        if domain >= domains {
          return o.(verdict := Stopped);
        }
        writes := [Write(domain, domain, Targets(Range(0, targets), 1, 0))];
    }
    assert writes == ScatterWrites(spread, targets, domains);
    o := Outcome(Submitted, Some(|writes|), writes, next);
  }

  /** How far the round robin moves on account of a request with `writes` writes. */
  function Turns(req: Request, domains: nat, writes: nat): nat {
    match req
    case ImmRequest(keys, routing) => if routing == RoundRobin(1) && KeysMatch(keys, domains) then Min(domains, |keys|) else 0
    case SingleRequest(keys, length, routing) => if routing.RoundRobin? then writes else 0
    case PagedRequest(keys, srcPages, dstPages) => writes
    case ScatterRequest(targets, group, spread) => 0
  }

  /** Split a request over the group's domains: which requests are turned down or stop the worker,
      what is entered in the books, and exactly which writes are made. */
  method Split(req: Request, domains: nat, next: nat) returns (o: Outcome)
    requires domains > 0 && next < domains && (req.SingleRequest? ==> ShardCount(req.routing) > 0)
    ensures o.verdict.Refused? <==> Refuses(req, domains)
    ensures o.verdict.Stopped? <==> !Refuses(req, domains) && Trips(req, domains)
    ensures o.verdict.Submitted? ==>
              && (req.ImmRequest? ==> ImmChunk(req.routing, |req.keys|, domains) > 0)
              && o.writes == WritesOf(req, domains, next) && o.entered == Some(|o.writes|)
    ensures !o.verdict.Submitted? ==>
              && o.writes == []
              && o.entered == if req.ImmRequest? && KeysMatch(req.keys, domains) then Some(|req.keys|) else None
    ensures o.next == Rem(next + Turns(req, domains, |o.writes|), domains) < domains
  {
    hide Quot, Rem, Mul, Ranges, ScatterWrites, PieceAt, ShardBase, ImmWrite, PagedWrite;
    RemSmall(next, domains);
    match req {
      case ImmRequest(keys, routing) => o := SplitImm(keys, routing, domains, next);
      case SingleRequest(keys, length, routing) => o := SplitSingle(keys, length, routing, domains, next);
      case PagedRequest(keys, srcPages, dstPages) => o := SplitPaged(keys, srcPages, dstPages, domains, next);
      case ScatterRequest(targets, group, spread) => o := SplitScatter(targets, group, spread, domains, next);
    }
  }

  /** Immediates that a write raises at target `t` of its request: every operation on a target
      carries one. */
  function Imms(w: Write, t: nat): nat {
    match w.part
    case ImmTo(target) => if t == target then 1 else 0
    case Targets(range, shards, shard) => if range.beg <= t < range.end then 1 else 0
    case Bytes(piece) => 0
    case Pages(range) => 0
  }

  function ImmsAt(ws: seq<Write>, t: nat): nat {
    if |ws| == 0 then 0 else ImmsAt(ws[..|ws| - 1], t) + Imms(ws[|ws| - 1], t)
  }

  lemma {:induction false} ImmsEach(ws: seq<Write>, t: nat)
    requires forall k :: 0 <= k < |ws| ==> Imms(ws[k], t) == 1
    ensures ImmsAt(ws, t) == |ws|
  {
    if |ws| > 0 {
      ImmsEach(ws[..|ws| - 1], t);
    }
  }

  lemma {:induction false} ImmsNone(ws: seq<Write>, t: nat)
    requires forall k :: 0 <= k < |ws| ==> Imms(ws[k], t) == 0
    ensures ImmsAt(ws, t) == 0
  {
    if |ws| > 0 {
      ImmsNone(ws[..|ws| - 1], t);
    }
  }

  lemma {:induction false} ImmsOnce(ws: seq<Write>, t: nat, i: nat)
    requires i < |ws| && forall k :: 0 <= k < |ws| ==> Imms(ws[k], t) == if k == i then 1 else 0
    ensures ImmsAt(ws, t) == 1
    decreases |ws|
  {
    if i < |ws| - 1 {
      ImmsOnce(ws[..|ws| - 1], t, i);
    } else {
      ImmsNone(ws[..|ws| - 1], t);
    }
  }

  /** A scatter sharded by peers, or sent over one domain, raises one immediate at each target; one
      sharded by bytes raises one for every domain. */
  lemma ScatterImms(spread: GroupRouting, targets: nat, domains: nat, t: nat)
    requires domains > 0 && t < targets
    ensures ImmsAt(ScatterWrites(spread, targets, domains), t) == if spread.ShardBytes? then domains else 1
  {
    hide ImmsAt, Ranges, Tiles;
    var ws := ScatterWrites(spread, targets, domains);
    match spread
    case ShardPeers =>
      RangesPartition(targets, domains);
      var i := TilesExactly(Ranges(targets, domains), targets, t);
      ImmsOnce(ws, t, i);
    case ShardBytes => ImmsEach(ws, t);
    case OneDomain(domain) => ImmsOnce(ws, t, 0);
  }

  /** An immediate request raises one immediate at each of its targets, however it is routed. */
  lemma ImmRequestImms(keys: seq<nat>, routing: Routing, domains: nat, next: nat, t: nat)
    requires domains > 0 && t < |keys| && ImmChunk(routing, |keys|, domains) > 0
    ensures ImmsAt(WritesOf(ImmRequest(keys, routing), domains, next), t) == 1
  {
    hide ImmsAt, Quot, Rem;
    ImmsOnce(WritesOf(ImmRequest(keys, routing), domains, next), t, t);
  }

  /** Every write goes to an existing domain, with an address and key that come with its region; its
      pages are in both lists, and its targets in the peer group. */
  lemma WritesInRange(req: Request, domains: nat, next: nat, k: nat)
    requires domains > 0 && next < domains && !Refuses(req, domains) && !Trips(req, domains)
    requires req.SingleRequest? ==> ShardCount(req.routing) > 0
    requires req.ImmRequest? ==> ImmChunk(req.routing, |req.keys|, domains) > 0
    requires k < |WritesOf(req, domains, next)|
    ensures var w := WritesOf(req, domains, next)[k];
            && w.on < domains && w.key < domains
            && match req
               case ImmRequest(keys, routing) => w.part == ImmTo(k) && k < |keys| && w.key < keys[k]
               case SingleRequest(addresses, length, routing) => w.part.Bytes? && w.key < addresses
               case PagedRequest(addresses, srcPages, dstPages) =>
                 w.part.Pages? && w.key < addresses && w.part.range.end <= srcPages && w.part.range.end <= dstPages
               case ScatterRequest(targets, group, spread) =>
                 w.part.Targets? && w.part.range.end <= targets && !group.Missing? && (group.Known? ==> targets == group.size)
  {
    hide Quot, Rem, Ranges;
    if req.ScatterRequest? && req.spread.ShardPeers? {
      RangesPartition(req.targets, domains);
      TilesBelow(Ranges(req.targets, domains), req.targets, k);
    }
    if req.PagedRequest? {
      RangesPartition(req.srcPages, domains);
      TilesBelow(Ranges(req.srcPages, domains), req.srcPages, k);
    }
    if req.ImmRequest? {
      var n := |req.keys|;
      if req.routing.Pinned? {
        MulUnfold(1, n);
        QuotBound(k, 1, n);
      } else {
        var per := CeilQuot(n, domains);
        RoundUpBounds(n, domains);
        MulCommutes(per, domains);
        QuotBound(k, domains, per);
      }
    }
  }

  /** A request that is accepted makes no write at all if and only if it is a paged one without
      pages. */
  lemma EmptyIff(req: Request, domains: nat, next: nat)
    requires domains > 0 && next < domains && !Refuses(req, domains) && !Trips(req, domains)
    requires req.SingleRequest? ==> ShardCount(req.routing) > 0
    requires req.ImmRequest? ==> ImmChunk(req.routing, |req.keys|, domains) > 0
    ensures |WritesOf(req, domains, next)| == 0 <==> req.PagedRequest? && req.srcPages == 0
  {
    hide Quot, Rem, Ranges, KeysMatch;
    if req.PagedRequest? {
      RangesPartition(req.srcPages, domains);
    }
    if req.ScatterRequest? {
      RangesPartition(req.targets, domains);
    }
  }

  /** Every write is handed to the domain it was built for. */
  ghost predicate KeysAgree(req: Request, domains: nat, next: nat)
    requires domains > 0 && (req.SingleRequest? ==> ShardCount(req.routing) > 0)
    requires req.ImmRequest? ==> ImmChunk(req.routing, |req.keys|, domains) > 0
  {
    forall k :: 0 <= k < |WritesOf(req, domains, next)| ==>
      WritesOf(req, domains, next)[k].on == WritesOf(req, domains, next)[k].key
  }

  /** All writes of an accepted request are handed to the domain they were built for if and only
      if it is a paged or scatter request, or starts at domain zero: the round robin stands there,
      or the request is pinned to it. */
  lemma KeysAgreeIff(req: Request, domains: nat, next: nat)
    requires domains > 0 && next < domains && !Refuses(req, domains) && !Trips(req, domains)
    requires req.SingleRequest? ==> ShardCount(req.routing) > 0
    requires req.ImmRequest? ==> ImmChunk(req.routing, |req.keys|, domains) > 0
    ensures KeysAgree(req, domains, next)
            <==> (req.ImmRequest? || req.SingleRequest? ==> Origin(req.routing, next) == 0)
  {
    hide Ranges, KeysMatch, Quot, Rem, PieceAt, ShardBase;
    var ws := WritesOf(req, domains, next);
    RemSmall(next, domains);
    if req.ImmRequest? {
      QuotIn(0, 0, ImmChunk(req.routing, |req.keys|, domains));
      RemSmall(Origin(req.routing, next), domains);
      assert ws[0].key == 0 && ws[0].on == Origin(req.routing, next);
      forall k | 0 <= k < |ws| && Origin(req.routing, next) == 0 ensures ws[k].on == ws[k].key {
        WritesInRange(req, domains, next, k);
        RemSmall(ws[k].key, domains);
      }
    } else if req.SingleRequest? {
      assert ws[0].on == 0 && ws[0].key == Origin(req.routing, next);
      forall k | 0 <= k < |ws| && Origin(req.routing, next) == 0 ensures ws[k].on == ws[k].key {
        RemSmall(k, domains);
      }
    }
  }
}
