/** The life of a write context in an RDMA domain, from allocation through posting and
    completion to being freed. The verbs and EFA domains share this state machine; they
    differ in how many operations one call may post, and in what a full device does. */
module WriteEngine {
  import opened Arith
  import PagedRing
  import opened Wrappers

  datatype Driver = Verbs | Efa

  /** The iterators over a write's operations. */
  datatype Kind = Single | Scatter | Paged

  /** The most operations the EFA domain posts at submission, and per turn of the queue. */
  const EFA_EAGER: nat := 1
  const EFA_TURN: nat := 32

  /** A context: the write it serves and its iterator, how many operations it has in all, how
      many were posted and how many completed, and the two flags. The domain records the
      transfer; a barrier submits several writes for one transfer, so here every submitted
      write has its own id. */
  datatype Ctx = Ctx(id: nat, kind: Kind, total: nat, posted: nat, finished: nat, queued: bool, bad: bool)

  /** What the domain holds: slots at stable addresses, the pool's free list (last in, first
      out), and the queue of contexts with operations left to post. */
  datatype Engine = Engine(slots: seq<Ctx>, free: seq<nat>, queue: seq<nat>)

  /** What the caller is told about a write. */
  datatype Event = Error(id: nat) | Transfer(id: nat)

  predicate Indexed(e: Engine) {
    && (forall k :: 0 <= k < |e.free| ==> e.free[k] < |e.slots|)
    && (forall k :: 0 <= k < |e.queue| ==> e.queue[k] < |e.slots|)
  }

  /** The slot the pool hands out next, and the state after it is filled with `c`. */
  function AllocSlot(e: Engine): nat {
    if |e.free| > 0 then e.free[|e.free| - 1] else |e.slots|
  }

  function Fill(e: Engine, c: Ctx): Engine
    requires Indexed(e)
  {
    if |e.free| > 0 then e.(free := e.free[..|e.free| - 1], slots := e.slots[AllocSlot(e) := c])
    else e.(slots := e.slots + [c])
  }

  /** The pool reuses what was freed last, and grows only when nothing is free. */
  lemma ReusesLast(e: Engine, i: nat, c: Ctx)
    requires Indexed(e) && i < |e.slots|
    ensures AllocSlot(e.(free := e.free + [i])) == i
    ensures Fill(e.(free := e.free + [i]), c) == e.(slots := e.slots[i := c])
    ensures e.free == [] ==> |Fill(e, c).slots| == |e.slots| + 1
    ensures e.free != [] ==> |Fill(e, c).slots| == |e.slots|
  {
    assert (e.free + [i])[..|e.free|] == e.free;
  }

  /** Free the context if nothing posted is outstanding and the queue flag is clear. */
  function MaybeDrop(e: Engine, i: nat): Engine
    requires i < |e.slots|
  {
    if e.slots[i].finished == e.slots[i].posted && !e.slots[i].queued then e.(free := e.free + [i]) else e
  }

  function Submit(e: Engine, id: nat, kind: Kind, total: nat, n: nat): Engine
    requires Indexed(e) && n <= total
  {
    var filled := Fill(e, Ctx(id, kind, total, n, 0, n != total, false));
    if n != total then filled.(queue := e.queue + [AllocSlot(e)]) else filled
  }

  /** A bad context at the front leaves the queue and may be freed. */
  function DropFront(e: Engine): Engine
    requires Indexed(e) && |e.queue| > 0
  {
    var i := e.queue[0];
    MaybeDrop(e.(slots := e.slots[i := e.slots[i].(queued := false)], queue := e.queue[1..]), i)
  }

  /** The front context posts `n` more operations; when none are left it leaves the queue,
      its flag as it was. */
  function PostFront(e: Engine, n: nat): Engine
    requires Indexed(e) && |e.queue| > 0
  {
    var i := e.queue[0];
    var c := e.slots[i].(posted := e.slots[i].posted + n);
    e.(slots := e.slots[i := c], queue := if c.posted == c.total then e.queue[1..] else e.queue)
  }

  /** Operations posted by one call for a context with `left` to go, when the device accepts
      `room` and then refuses; the EFA domain also stops at `limit`. */
  function Accepted(driver: Driver, room: nat, limit: nat, left: nat): nat {
    Min(if driver.Verbs? then room else Min(room, limit), left)
  }

  lemma AcceptedFits(driver: Driver, room: nat, limit: nat, left: nat)
    ensures Accepted(driver, room, limit, left) <= left
  {
  }

  /** A refusal that stops the worker: the verbs iterators for single and scatter writes check
      that they are advanced by one request, and a full device advances them by none. */
  predicate Stops(driver: Driver, kind: Kind, room: nat, left: nat) {
    driver.Verbs? && !kind.Paged? && room < left
  }

  /** Number of operations posted for the context at the front of the queue. */
  function Taken(driver: Driver, room: seq<nat>, left: nat): nat {
    Accepted(driver, if |room| == 0 then 0 else room[0], EFA_TURN, left)
  }

  function Rest(room: seq<nat>): seq<nat> {
    if |room| == 0 then room else room[1..]
  }

  predicate Postable(e: Engine) {
    Indexed(e) && forall k :: 0 <= k < |e.queue| ==> e.slots[e.queue[k]].posted <= e.slots[e.queue[k]].total
  }

  lemma DropPostable(e: Engine)
    requires Postable(e) && |e.queue| > 0
    ensures Postable(DropFront(e)) && |DropFront(e).queue| < |e.queue|
  {
  }

  lemma PostPostable(e: Engine, n: nat)
    requires Postable(e) && |e.queue| > 0 && n <= e.slots[e.queue[0]].total - e.slots[e.queue[0]].posted
    ensures Postable(PostFront(e, n))
  {
  }

  lemma PostLeaves(e: Engine, n: nat)
    requires Postable(e) && |e.queue| > 0
    ensures |PostFront(e, n).queue| < |e.queue| <==> e.slots[e.queue[0]].posted + n == e.slots[e.queue[0]].total
    ensures |PostFront(e, n).queue| <= |e.queue|
  {
  }

  /** The queue is worked off from the front until a context cannot be posted completely. */
  function Progress(driver: Driver, e: Engine, room: seq<nat>): Engine
    requires Postable(e)
    decreases |e.queue|
  {
    if |e.queue| == 0 then e
    else
      var c := e.slots[e.queue[0]];
      if c.bad then
        DropPostable(e);
        Progress(driver, DropFront(e), room)
      else
        var n := Taken(driver, room, c.total - c.posted);
        PostPostable(e, n);
        if c.posted + n != c.total then PostFront(e, n) else Progress(driver, PostFront(e, n), Rest(room))
  }

  /** Only paged contexts wait in the queue of a verbs domain. */
  predicate QueuePaged(driver: Driver, e: Engine)
    requires Indexed(e)
  {
    driver.Verbs? ==> forall k :: 0 <= k < |e.queue| ==> e.slots[e.queue[k]].kind.Paged?
  }

  lemma DropPaged(driver: Driver, e: Engine)
    requires Postable(e) && QueuePaged(driver, e) && |e.queue| > 0
    ensures Postable(DropFront(e)) && QueuePaged(driver, DropFront(e))
  {
  }

  lemma PostPaged(driver: Driver, e: Engine, n: nat)
    requires Postable(e) && QueuePaged(driver, e) && |e.queue| > 0
    requires n <= e.slots[e.queue[0]].total - e.slots[e.queue[0]].posted
    ensures Postable(PostFront(e, n)) && QueuePaged(driver, PostFront(e, n))
  {
  }

  /** A posted operation of slot `i` completed. The transfer is reported, and the context
      considered for freeing, only when all operations are done. */
  function Success(e: Engine, i: nat): (Engine, Option<Event>)
    requires i < |e.slots|
  {
    var c := e.slots[i].(finished := e.slots[i].finished + 1);
    var e' := e.(slots := e.slots[i := c]);
    if c.finished < c.total then (e', None) else (MaybeDrop(e', i), Some(Transfer(c.id)))
  }

  /** A posted operation of slot `i` failed: reported once. */
  function Failure(e: Engine, i: nat): (Engine, Option<Event>)
    requires i < |e.slots|
  {
    var c := e.slots[i].(finished := e.slots[i].finished + 1, bad := true);
    (MaybeDrop(e.(slots := e.slots[i := c]), i), if e.slots[i].bad then None else Some(Error(c.id)))
  }

  /** The domain object. */
  class Domain {
    const driver: Driver
    var slots: seq<Ctx>
    var freeList: seq<nat>
    var writeOps: seq<nat>

    function Snapshot(): Engine
      reads this
    {
      Engine(slots, freeList, writeOps)
    }

    constructor (d: Driver)
      ensures driver == d && Snapshot() == Engine([], [], [])
    {
      driver, slots, freeList, writeOps := d, [], [], [];
    }

    /** Take a slot from the free list, or a new one. */
    method Alloc(c: Ctx) returns (i: nat)
      requires Indexed(Snapshot())
      modifies this
      ensures i == AllocSlot(old(Snapshot())) && Snapshot() == Fill(old(Snapshot()), c) && i < |slots|
      ensures slots[i] == c
    {
      if |freeList| > 0 {
        i := freeList[|freeList| - 1];
        freeList := freeList[..|freeList| - 1];
        slots := slots[i := c];
      } else {
        i := |slots|;
        slots := slots + [c];
      }
    }

    /** Post operations of slot `i` until none are left, the device is full (after `room`
        operations) or, with EFA, `limit` were posted. A verbs scatter with more targets left
        than the device has room for, or a verbs single write that finds none, stops the worker. */
    method ProgressContext(i: nat, room: nat, limit: nat) returns (n: nat, stopped: bool)
      requires i < |slots| && slots[i].posted <= slots[i].total && limit > 0
      modifies this
      ensures n == if old(slots[i].bad) then 0 else Accepted(driver, room, limit, old(slots[i].total - slots[i].posted))
      ensures slots == old(slots)[i := old(slots[i]).(posted := old(slots[i].posted) + n)]
      ensures freeList == old(freeList) && writeOps == old(writeOps)
      ensures stopped <==> !old(slots[i].bad) && Stops(driver, slots[i].kind, room, old(slots[i].total - slots[i].posted))
    {
      n, stopped := 0, false;
      if slots[i].bad {
        return;
      }
      ghost var was := slots[i];
      var left: nat, more := room, true;
      while more
        invariant n <= was.total - was.posted && left + n == room && (driver.Efa? ==> n <= limit)
        invariant slots == old(slots)[i := was.(posted := was.posted + n)]
        invariant freeList == old(freeList) && writeOps == old(writeOps)
        invariant more ==> !stopped && (driver.Efa? ==> n < limit)
        invariant !more ==> was.posted + n == was.total || (left == 0 && (stopped <==> driver.Verbs? && !was.kind.Paged?))
                            || (driver.Efa? && n == limit)
        invariant stopped ==> driver.Verbs? && !was.kind.Paged? && left == 0 && was.posted + n < was.total
        decreases more, was.total - was.posted - n
      {
        var chain := if driver.Verbs? && slots[i].kind.Paged? then PagedRing.CHAIN else 1;
        var offered := Min(chain, slots[i].total - slots[i].posted);
        if offered == 0 {
          more := false;
        } else {
          var taken := Min(offered, left);
          if driver.Verbs? && !slots[i].kind.Paged? && taken != 1 {
            stopped, more := true, false;
          } else {
            slots := slots[i := slots[i].(posted := slots[i].posted + taken)];
            n, left := n + taken, left - taken;
            if taken < offered || (driver.Efa? && n >= limit) {
              more := false;
            }
          }
        }
      }
    }

    method DropIfDone(i: nat)
      requires i < |slots|
      modifies this
      ensures Snapshot() == MaybeDrop(old(Snapshot()), i)
    {
      if slots[i].finished != slots[i].posted {
        return;
      }
      if slots[i].queued {
        return;
      }
      freeList := freeList + [i];
    }

    /** Start a write of `total` operations; the iterators refuse to be made with none. */
    method SubmitWrite(id: nat, kind: Kind, total: nat, room: nat) returns (i: nat, stopped: bool)
      requires Indexed(Snapshot()) && total > 0
      modifies this
      ensures stopped <==> Stops(driver, kind, room, total)
      ensures i == AllocSlot(old(Snapshot()))
      ensures !stopped ==> Snapshot() == Submit(old(Snapshot()), id, kind, total, Accepted(driver, room, EFA_EAGER, total))
    {
      i := Alloc(Ctx(id, kind, total, 0, 0, false, false));
      var n;
      n, stopped := ProgressContext(i, room, EFA_EAGER);
      if stopped {
        return;
      }
      if slots[i].posted != slots[i].total {
        writeOps := writeOps + [i];
        slots := slots[i := slots[i].(queued := true)];
      }
    }

    method OnSuccess(i: nat) returns (event: Option<Event>)
      requires i < |slots|
      modifies this
      ensures (Snapshot(), event) == Success(old(Snapshot()), i)
    {
      slots := slots[i := slots[i].(finished := slots[i].finished + 1)];
      if slots[i].finished < slots[i].total {
        return None;
      }
      var id := slots[i].id;
      DropIfDone(i);
      event := Some(Transfer(id));
    }

    method OnFailure(i: nat) returns (event: Option<Event>)
      requires i < |slots|
      modifies this
      ensures (Snapshot(), event) == Failure(old(Snapshot()), i)
    {
      slots := slots[i := slots[i].(finished := slots[i].finished + 1)];
      if slots[i].bad {
        event := None;
      } else {
        slots := slots[i := slots[i].(bad := true)];
        event := Some(Error(slots[i].id));
      }
      assert slots == old(slots)[i := old(slots[i]).(finished := old(slots[i].finished) + 1, bad := true)];
      DropIfDone(i);
    }

    /** Take a bad context off the front of the queue. */
    method DropBad()
      requires Indexed(Snapshot()) && |writeOps| > 0
      modifies this
      ensures Snapshot() == DropFront(old(Snapshot()))
    {
      var i := writeOps[0];
      slots := slots[i := slots[i].(queued := false)];
      writeOps := writeOps[1..];
      DropIfDone(i);
    }

    /** Post from the front context, and take it off the queue when nothing is left. */
    method PostNext(room: nat) returns (done: bool)
      requires Postable(Snapshot()) && QueuePaged(driver, Snapshot()) && |writeOps| > 0 && !slots[writeOps[0]].bad
      modifies this
      ensures var c := old(slots[writeOps[0]]);
              var n := Accepted(driver, room, EFA_TURN, c.total - c.posted);
              Snapshot() == PostFront(old(Snapshot()), n) && (done <==> c.posted + n == c.total)
    {
      hide Accepted;
      var i := writeOps[0];
      var n, stopped := ProgressContext(i, room, EFA_TURN);
      assert !stopped;
      done := slots[i].posted == slots[i].total;
      if done {
        writeOps := writeOps[1..];
      }
    }

    /** Work off the queue; `room[k]` is what the device accepts for the `k`-th context tried.
        With only paged contexts in it, a full device never stops the worker here. */
    method ProgressWrites(room: seq<nat>)
      requires Postable(Snapshot()) && QueuePaged(driver, Snapshot())
      modifies this
      ensures Snapshot() == Progress(driver, old(Snapshot()), room)
    {
      hide QueuePaged, Accepted, DropFront, PostFront;
      var rest, done := room, true;
      while done && |writeOps| > 0
        invariant Postable(Snapshot()) && QueuePaged(driver, Snapshot())
        invariant if done then Progress(driver, Snapshot(), rest) == Progress(driver, old(Snapshot()), room)
                  else Snapshot() == Progress(driver, old(Snapshot()), room)
        decreases done, |writeOps|
      {
        ghost var before := Snapshot();
        var c := slots[writeOps[0]];
        if c.bad {
          DropPostable(before);
          DropPaged(driver, before);
          DropBad();
        } else {
          var space := if |rest| == 0 then 0 else rest[0];
          ghost var n := Accepted(driver, space, EFA_TURN, c.total - c.posted);
          AcceptedFits(driver, space, EFA_TURN, c.total - c.posted);
          PostPostable(before, n);
          PostPaged(driver, before, n);
          done := PostNext(space);
          PostLeaves(before, n);
          if done {
            rest := Rest(rest);
          }
        }
      }
    }
  }
}
