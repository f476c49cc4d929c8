/** The libfabric iterator for paged writes: one message at a time, filled from the page lists. */
module FabricPages {
  import opened Arith
  import opened PagedRing

  /** A paged request as it comes from the caller: the destination region starts at `region`, and
      the pages are meant to start `offset` bytes into it. */
  datatype Request = Request(srcPages: seq<nat>, dstPages: seq<nat>, beg: nat, end: nat,
                             srcBase: nat, srcStride: nat, region: nat, offset: nat, dstStride: nat)
  {
    /** The same request as the verbs iterator takes it. */
    function Job(): Job {
      PagedRing.Job(srcPages, dstPages, beg, end, srcBase, srcStride, region + offset, dstStride)
    }

    predicate Valid() {
      Job().Valid()
    }

    /** The message for page `i`: destination addresses are relative to the region. */
    function Message(i: nat): Write
      requires Valid() && i < end
    {
      Write(srcBase + srcStride * srcPages[i], dstStride * dstPages[i])
    }
  }

  function Messages(r: Request, a: nat, b: nat): seq<Write>
    requires r.Valid() && a <= b <= r.end
  {
    seq(b - a, k requires 0 <= k < b - a => r.Message(a + k))
  }

  lemma MessagesNext(r: Request, a: nat, b: nat)
    requires r.Valid() && a <= b < r.end
    ensures Messages(r, a, b + 1) == Messages(r, a, b) + [r.Message(b)]
  {
    hide Request.Message;
  }

  /** The iterator object. `posted` records what the device has taken. */
  class FabricIter {
    const request: Request
    var page: nat
    var message: Write
    ghost var posted: seq<Write>

    ghost predicate Valid()
      reads this
    {
      && request.Valid() && request.beg <= page <= request.end
      && (page < request.end ==> message == request.Message(page))
      && posted == Messages(request, request.beg, page)
    }

    constructor (r: Request)
      requires r.Valid()
      ensures Valid() && request == r && posted == [] && page == r.beg
    {
      request := r;
      page := r.beg;
      message := r.Message(r.beg);
      posted := [];
    }

    /** The device took the message; fill in the next one. */
    method Advance()
      requires Valid() && page < request.end
      modifies this
      ensures Valid() && page == old(page) + 1 && posted == old(posted) + [old(message)]
    {
      MessagesNext(request, request.beg, page);
      posted := posted + [message];
      page := page + 1;
      if page < request.end {
        message := request.Message(page);
      }
    }

    /** Post until the pages run out, the device is full (after `room` messages) or `limit` were
        posted. */
    method Post(room: nat, limit: nat) returns (taken: nat)
      requires Valid() && limit > 0
      modifies this
      ensures Valid() && taken == Min(Min(room, limit), request.end - old(page)) && page == old(page) + taken
      ensures posted == Messages(request, request.beg, old(page) + taken)
      ensures page == request.end <==> posted == Messages(request, request.beg, request.end)
    {
      taken := 0;
      while page < request.end && taken < room
        invariant Valid() && page == old(page) + taken && taken <= room && taken < limit
        decreases request.end - page
      {
        Advance();
        taken := taken + 1;
        if taken >= limit {
          break;
        }
      }
    }
  }

  /** A write as seen from the start of the destination region. */
  function Relative(ws: seq<Write>, region: nat): seq<(nat, int)> {
    seq(|ws|, k requires 0 <= k < |ws| => (ws[k].src, ws[k].dst - region))
  }

  lemma PageOffset(r: Request, i: nat)
    requires r.Valid() && i < r.end
    ensures r.Job().Dst(i) - r.region == r.offset + r.Message(i).dst && r.Job().Src(i) == r.Message(i).src
  {
  }

  /** Both iterators post their page lists completely (`FabricIter.Post`, `PagedIter.Post`); the
      lists name the same places of the destination region if and only if the offset is zero. The
      libfabric one leaves it out. */
  lemma OffsetDropped(r: Request)
    requires r.Valid()
    ensures Relative(Pages(r.Job(), r.beg, r.end), r.region) == Relative(Messages(r, r.beg, r.end), 0) <==> r.offset == 0
  {
    hide Request.Message, Job.Src, Job.Dst;
    var verbs, fabric := Relative(Pages(r.Job(), r.beg, r.end), r.region), Relative(Messages(r, r.beg, r.end), 0);
    forall k | 0 <= k < r.end - r.beg ensures verbs[k] == (fabric[k].0, fabric[k].1 + r.offset) {
      PageOffset(r, r.beg + k);
    }
    if verbs == fabric {
      assert verbs[0] == fabric[0];
    }
  }
}
