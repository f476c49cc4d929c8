/** The verbs iterator for paged writes: a ring of four work requests whose next pointers
    form the chain handed to the device. */
module PagedRing {
  import opened Arith

  const CHAIN: nat := 4

  /** A work request; `next` is a slot number or -1 for null. */
  datatype Wr = Wr(ready: bool, next: int, src: nat, dst: nat)

  /** A paged write: pages `beg..end` of two index lists, with bases and strides. */
  datatype Job = Job(srcPages: seq<nat>, dstPages: seq<nat>, beg: nat, end: nat,
                     srcBase: nat, srcStride: nat, dstBase: nat, dstStride: nat)
  {
    predicate Valid() {
      beg < end <= |srcPages| == |dstPages|
    }

    function Src(i: nat): nat
      requires Valid() && i < end
    {
      srcBase + srcStride * srcPages[i]
    }

    function Dst(i: nat): nat
      requires Valid() && i < end
    {
      dstBase + dstStride * dstPages[i]
    }
  }

  /** The request the device sees. */
  datatype Write = Write(src: nat, dst: nat)

  datatype Ring = Ring(slots: seq<Wr>, head: nat, tail: nat, len: nat, page: nat)

  /** Positions in the ring wrap around. */
  function Slot(x: nat): (s: nat)
    requires x < 2 * CHAIN
    ensures s < CHAIN
  {
    Wrap(x, CHAIN)
  }

  function Pages(j: Job, a: nat, b: nat): seq<Write>
    requires j.Valid() && a <= b <= j.end
  {
    seq(b - a, k requires 0 <= k < b - a => Write(j.Src(a + k), j.Dst(a + k)))
  }

  /** Only as many slots as there are pages are initialised. */
  function Start(j: Job): Ring
    requires j.Valid()
  {
    Ring(seq(CHAIN, s => Wr(s < j.end - j.beg, -1, 0, 0)), 0, 0, 0, j.beg)
  }

  function Fill(j: Job, r: Ring): Ring
    requires j.Valid() && r.page < j.end && |r.slots| == CHAIN && r.tail < CHAIN
  {
    var prev := Slot(r.tail + CHAIN - 1);
    var linked := r.slots[prev := r.slots[prev].(next := r.tail)];
    r.(slots := linked[r.tail := linked[r.tail].(next := -1, src := j.Src(r.page), dst := j.Dst(r.page))],
       tail := Slot(r.tail + 1), len := r.len + 1, page := r.page + 1)
  }

  function Refill(j: Job, r: Ring): Ring
    requires j.Valid() && |r.slots| == CHAIN && r.tail < CHAIN
    decreases CHAIN - r.len
  {
    if r.page < j.end && r.len < CHAIN then Refill(j, Fill(j, r)) else r
  }

  function Consume(j: Job, r: Ring, n: nat): Ring
    requires j.Valid() && |r.slots| == CHAIN && r.tail < CHAIN && r.head < CHAIN && n <= r.len <= CHAIN
  {
    Refill(j, r.(head := Slot(r.head + n), len := r.len - n))
  }

  /** Slot `k` places after the head. */
  function At(r: Ring, k: nat): nat
    requires r.head < CHAIN && k <= CHAIN
  {
    Slot(r.head + k)
  }

  /** The `k`-th request of the window: initialised, for the right page, linked to the next. */
  predicate Holds(j: Job, r: Ring, k: nat)
    requires j.Valid() && |r.slots| == CHAIN && r.head < CHAIN && k < r.len <= r.page <= j.end && r.len <= CHAIN
  {
    var wr := r.slots[At(r, k)];
    && wr.ready && wr.src == j.Src(r.page - r.len + k) && wr.dst == j.Dst(r.page - r.len + k)
    && wr.next == if k + 1 < r.len then At(r, k + 1) else -1
  }

  predicate Linked(j: Job, r: Ring) {
    && j.Valid() && |r.slots| == CHAIN && r.head < CHAIN && r.len <= CHAIN
    && j.beg + r.len <= r.page <= j.end
    && r.tail == At(r, r.len) && (j.end - j.beg < CHAIN ==> r.head + r.len == r.page - j.beg)
    && (forall s :: 0 <= s < CHAIN ==> (r.slots[s].ready <==> s < j.end - j.beg))
    && (forall k :: 0 <= k < r.len ==> Holds(j, r, k))
  }

  /** The window is as long as it can be. */
  predicate Full(j: Job, r: Ring) {
    r.page < j.end ==> r.len == CHAIN
  }

  lemma FillHolds(j: Job, r: Ring, k: nat)
    requires Linked(j, r) && r.page < j.end && r.len < CHAIN && k <= r.len
    ensures Holds(j, Fill(j, r), k)
  {
    hide Job.Src, Job.Dst;
    if k < r.len {
      assert Holds(j, r, k);
    }
  }

  lemma FillLinked(j: Job, r: Ring)
    requires Linked(j, r) && r.page < j.end && r.len < CHAIN
    ensures Linked(j, Fill(j, r))
  {
    hide Job.Src, Job.Dst, Holds;
    forall k | 0 <= k < r.len + 1 ensures Holds(j, Fill(j, r), k) {
      FillHolds(j, r, k);
    }
  }

  /** Linking a request stores through the slot before it. That slot was never initialised if and
      only if the request is the first one of fewer than four; the device is not shown it, since
      all requests of the chain are initialised. */
  lemma StoresUninitialised(j: Job, r: Ring)
    requires Linked(j, r) && r.page < j.end && r.len < CHAIN
    ensures !r.slots[Slot(r.tail + CHAIN - 1)].ready <==> j.end - j.beg < 4 && r.page == j.beg
    ensures forall k :: 0 <= k <= r.len ==> Fill(j, r).slots[At(r, k)].ready
  {
    hide Job.Src, Job.Dst, Holds;
    FillLinked(j, r);
    forall k | 0 <= k <= r.len ensures Fill(j, r).slots[At(r, k)].ready {
      FillHolds(j, r, k);
      HoldsReady(j, Fill(j, r), k);
    }
  }

  lemma HoldsReady(j: Job, r: Ring, k: nat)
    requires j.Valid() && |r.slots| == CHAIN && r.head < CHAIN && k < r.len <= r.page <= j.end && r.len <= CHAIN
    requires Holds(j, r, k)
    ensures r.slots[At(r, k)].ready
  {
  }

  /** Pages of at most a stride's length stay inside their places, so different destination pages are
      never written over each other, and each is read from its own source page. */
  lemma PagesApart(j: Job, length: nat, a: nat, b: nat)
    requires j.Valid() && a < j.end && b < j.end
    ensures length <= j.dstStride && j.dstPages[a] < j.dstPages[b] ==> j.Dst(a) + length <= j.Dst(b)
    ensures length <= j.srcStride && j.srcPages[a] < j.srcPages[b] ==> j.Src(a) + length <= j.Src(b)
    ensures j.Dst(a) >= j.dstBase && j.Src(a) >= j.srcBase
    ensures j.dstPages[a] == 0 ==> j.Dst(a) == j.dstBase
    ensures j.srcPages[a] == 0 ==> j.Src(a) == j.srcBase
  {
    if j.dstPages[a] < j.dstPages[b] {
      StrideStep(j.dstStride, j.dstPages[a], j.dstPages[b]);
    }
    if j.srcPages[a] < j.srcPages[b] {
      StrideStep(j.srcStride, j.srcPages[a], j.srcPages[b]);
    }
  }

  lemma StrideStep(stride: nat, x: nat, y: nat)
    requires x < y
    ensures stride * x + stride <= stride * y
  {
    hide Mul;
    MulAgrees(x + 1, stride);
    MulAgrees(y, stride);
    MulMonotone(x + 1, y, stride);
    assert (x + 1) * stride == stride * x + stride;
  }

  lemma {:induction false} RefillLinked(j: Job, r: Ring)
    requires Linked(j, r)
    ensures Linked(j, Refill(j, r)) && Full(j, Refill(j, r))
    ensures Refill(j, r).page - Refill(j, r).len == r.page - r.len && Refill(j, r).head == r.head
    decreases CHAIN - r.len
  {
    hide Holds;
    if r.page < j.end && r.len < CHAIN {
      FillLinked(j, r);
      RefillLinked(j, Fill(j, r));
    }
  }

  lemma StartLinked(j: Job)
    requires j.Valid()
    ensures Linked(j, Start(j))
  {
  }

  lemma MoveHolds(j: Job, r: Ring, n: nat, k: nat)
    requires Linked(j, r) && n + k < r.len
    ensures Holds(j, r.(head := Slot(r.head + n), len := r.len - n), k)
  {
    hide Job.Src, Job.Dst;
    assert Holds(j, r, n + k);
  }

  /** Taking `n` requests off the front keeps the ring linked, and moves the window by `n`. */
  lemma ConsumeLinked(j: Job, r: Ring, n: nat)
    requires Linked(j, r) && n <= r.len
    ensures Linked(j, Consume(j, r, n)) && Full(j, Consume(j, r, n))
    ensures Consume(j, r, n).page - Consume(j, r, n).len == r.page - r.len + n
  {
    hide Job.Src, Job.Dst, Holds, Full, Refill;
    var moved := r.(head := Slot(r.head + n), len := r.len - n);
    forall k | 0 <= k < moved.len ensures Holds(j, moved, k) {
      MoveHolds(j, r, n, k);
    }
    RefillLinked(j, moved);
  }

  /** What the device reads: follow next pointers until null, at most `n` times. */
  function Follow(slots: seq<Wr>, at: int, n: nat): seq<Write>
    requires |slots| == CHAIN
    decreases n
  {
    if n == 0 || !(0 <= at < CHAIN) then []
    else [Write(slots[at].src, slots[at].dst)] + Follow(slots, slots[at].next, n - 1)
  }

  /** Where `peek` points. */
  function Peek(r: Ring): int {
    if r.len == 0 then -1 else r.head
  }

  lemma {:induction false} FollowWindow(j: Job, r: Ring, k: nat, n: nat)
    requires Linked(j, r) && k <= r.len && n >= r.len - k
    ensures Follow(r.slots, if k == r.len then -1 else At(r, k), n) == Pages(j, r.page - r.len + k, r.page)
    decreases r.len - k
  {
    hide Job.Src, Job.Dst;
    if k < r.len {
      assert Holds(j, r, k);
      FollowWindow(j, r, k + 1, n - 1);
      PagesStep(j, r.page - r.len + k, r.page);
    }
  }

  lemma PagesStep(j: Job, a: nat, b: nat)
    requires j.Valid() && a < b <= j.end
    ensures Pages(j, a, b) == [Write(j.Src(a), j.Dst(a))] + Pages(j, a + 1, b)
  {
    hide Job.Src, Job.Dst;
  }

  /** The chain from the head is exactly the window of pages not yet posted, and ends in null
      however far the device reads. */
  lemma ChainIsWindow(j: Job, r: Ring, n: nat)
    requires Linked(j, r) && n >= CHAIN
    ensures Follow(r.slots, Peek(r), n) == Pages(j, r.page - r.len, r.page)
  {
    hide Holds, Follow;
    FollowWindow(j, r, 0, n);
  }

  lemma PagesJoin(j: Job, a: nat, b: nat, c: nat)
    requires j.Valid() && a <= b <= c <= j.end
    ensures Pages(j, a, b) + Pages(j, b, c) == Pages(j, a, c)
    ensures Pages(j, a, c)[..b - a] == Pages(j, a, b)
  {
    hide Job.Src, Job.Dst;
    assert Pages(j, a, b) + Pages(j, b, c) == Pages(j, a, c);
  }

  /** The iterator object. `posted` records what the device has taken. */
  class PagedIter {
    const job: Job
    var slots: array<Wr>
    var head: nat
    var tail: nat
    var len: nat
    var page: nat
    ghost var posted: seq<Write>

    function View(): Ring
      reads this, slots
    {
      Ring(slots[..], head, tail, len, page)
    }

    ghost predicate Valid()
      reads this, slots
    {
      && Linked(job, View()) && Full(job, View())
      && posted == Pages(job, job.beg, page - len)
    }

    /** Set up the initialised slots and fill the first batch. */
    constructor (j: Job)
      requires j.Valid()
      ensures Valid() && fresh(slots) && job == j && posted == []
    {
      job := j;
      slots := new Wr[CHAIN](s => Wr(s < j.end - j.beg, -1, 0, 0));
      head, tail, len, page := 0, 0, 0, j.beg;
      posted := [];
      new;
      assert slots[..] == Start(j).slots;
      StartLinked(j);
      ghost var start := View();
      RefillLinked(j, start);
      while page < job.end && len < CHAIN
        invariant |View().slots| == CHAIN && tail < CHAIN && Refill(job, View()) == Refill(job, start)
        invariant fresh(slots) && posted == []
        decreases CHAIN - len
      {
        FillWr();
      }
      assert View() == Refill(job, start);
    }

    method FillWr()
      requires job.Valid() && slots.Length == CHAIN && tail < CHAIN && page < job.end
      modifies this, slots
      ensures slots == old(slots) && View() == Fill(job, old(View())) && posted == old(posted)
      ensures tail < CHAIN && len == old(len) + 1
    {
      var prev := Slot(tail + CHAIN - 1);
      slots[prev] := slots[prev].(next := tail);
      slots[tail] := slots[tail].(next := -1, src := job.Src(page), dst := job.Dst(page));
      tail := Slot(tail + 1);
      len := len + 1;
      page := page + 1;
    }

    /** The device took the first `n` requests of the chain. */
    method Advance(n: nat)
      requires Valid() && n <= len
      modifies this, slots
      ensures Valid() && slots == old(slots) && View() == Consume(job, old(View()), n)
      ensures page - len == old(page - len) + n
      ensures posted == old(posted) + Pages(job, old(page - len), old(page - len) + n)
    {
      hide Holds, Fill, Full, Pages, Job.Src, Job.Dst;
      ghost var before := View();
      ConsumeLinked(job, before, n);
      PagesJoin(job, job.beg, page - len, page - len + n);
      posted := posted + Pages(job, page - len, page - len + n);
      head := Slot(head + n);
      len := len - n;
      ghost var moved := View();
      while page < job.end && len < CHAIN
        invariant slots == old(slots) && |View().slots| == CHAIN && tail < CHAIN
        invariant Refill(job, View()) == Refill(job, moved)
        invariant posted == old(posted) + Pages(job, old(page - len), old(page - len) + n)
        decreases CHAIN - len
      {
        FillWr();
      }
      assert View() == Refill(job, moved);
    }

    /** Count the requests before the first rejected one by following the chain. */
    method CountAccepted(bad: nat, ghost n: nat) returns (cnt: nat)
      requires Valid() && n < len && bad == At(View(), n)
      ensures cnt == n
    {
      cnt := 0;
      var cur: int := head;
      while cur != bad
        invariant cnt <= n && cur == At(View(), cnt)
        decreases n - cnt
      {
        assert Holds(job, View(), cnt);
        cur := slots[cur].next;
        cnt := cnt + 1;
      }
      SlotsApart(View(), cnt, n);
    }

    /** Offer the chain to a device with room for `room` requests, and move on by what it took. */
    method PostChain(room: nat) returns (n: nat)
      requires Valid() && len > 0
      modifies this, slots
      ensures Valid() && slots == old(slots) && n == Min(room, old(len)) && page - len == old(page - len) + n
      ensures posted == old(posted) + Pages(job, old(page - len), old(page - len) + n)
    {
      hide Holds, Consume, Pages, Job.Src, Job.Dst;
      n := len;
      if room < len {
        n := CountAccepted(Slot(head + room), room);
      }
      Advance(n);
    }

    /** Post until the pages run out or the device is full; it has room for `room` requests. */
    method Post(room: nat) returns (taken: nat)
      requires Valid()
      modifies this, slots
      ensures Valid() && slots == old(slots)
      ensures taken == Min(room, job.end - old(page - len)) && page - len == old(page - len) + taken
      ensures posted == old(posted) + Pages(job, old(page - len), old(page - len) + taken)
      ensures len == 0 <==> posted == Pages(job, job.beg, job.end)
    {
      hide Linked, Full, Pages;
      LinkedBounds(job, View());
      ghost var first := page - len;
      taken := 0;
      var more := true;
      while more && len > 0
        invariant Valid() && slots == old(slots) && taken <= room && (!more ==> taken == room)
        invariant page - len == first + taken && job.Valid() && job.beg + len <= page <= job.end
        decreases more, job.end - (page - len)
      {
        var chain := len;
        var n := PostChain(room - taken);
        LinkedBounds(job, View());
        taken, more := taken + n, n == chain;
      }
      PagesJoin(job, job.beg, first, first + taken);
      AllTaken(job, View());
      PagesExhausted(job, page - len);
    }
  }

  lemma LinkedBounds(j: Job, r: Ring)
    requires Linked(j, r)
    ensures j.Valid() && |r.slots| == CHAIN && r.head < CHAIN && r.len <= CHAIN && j.beg + r.len <= r.page <= j.end
  {
  }

  lemma AllTaken(j: Job, r: Ring)
    requires Linked(j, r) && Full(j, r)
    ensures r.len == 0 <==> r.page - r.len == j.end
  {
    hide Holds;
  }

  lemma SlotsApart(r: Ring, a: nat, b: nat)
    requires r.head < CHAIN && a <= b < CHAIN && At(r, a) == At(r, b)
    ensures a == b
  {
  }

  /** Having posted all pages is having reached the end. */
  lemma PagesExhausted(j: Job, b: nat)
    requires j.Valid() && j.beg <= b <= j.end
    ensures Pages(j, j.beg, b) == Pages(j, j.beg, j.end) <==> b == j.end
  {
  }
}
