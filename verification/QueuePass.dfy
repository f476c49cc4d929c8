/** What a whole pass over the queue of writes comes to. */
module QueuePass {
  import opened Arith
  import opened WriteEngine
  import opened WriteRuns

  /** Contexts among the first `k` of the queue that are not bad, and so are tried. */
  function Tried(e: Engine, k: nat): nat
    requires Indexed(e) && k <= |e.queue|
  {
    if k == 0 then 0 else Tried(e, k - 1) + if e.slots[e.queue[k - 1]].bad then 0 else 1
  }

  /** What the `n`-th context tried may post: what the device accepts, and in an EFA domain no more
      than 32. */
  function Allowance(driver: Driver, room: seq<nat>, n: nat): nat {
    if n >= |room| then 0 else if driver.Efa? && room[n] > 32 then 32 else room[n]
  }

  /** The `m`-th context of the queue was taken off: a bad one with its flag cleared, any other one
      because the rest of it was posted. */
  predicate TakenOff(driver: Driver, e: Engine, e': Engine, room: seq<nat>, m: nat)
    requires Indexed(e) && m < |e.queue| && |e'.slots| == |e.slots|
  {
    var i := e.queue[m];
    var c := e.slots[i];
    if c.bad then e'.slots[i] == c.(queued := false)
    else e'.slots[i] == c.(posted := c.total) && c.total - c.posted <= Allowance(driver, room, Tried(e, m))
  }

  /** The `k`-th context was not bad, posted all it may, and has operations left. */
  predicate CutShort(driver: Driver, e: Engine, e': Engine, room: seq<nat>, k: nat)
    requires Indexed(e) && k < |e.queue| && |e'.slots| == |e.slots|
  {
    var i := e.queue[k];
    var c, n := e.slots[i], Allowance(driver, room, Tried(e, k));
    !c.bad && n < c.total - c.posted && e'.slots[i] == c.(posted := c.posted + n)
  }

  /** One of the first `k` was bad and had nothing outstanding. */
  predicate Freed(e: Engine, k: nat, i: nat)
    requires Indexed(e) && k <= |e.queue|
  {
    i in e.queue[..k] && i < |e.slots| && e.slots[i].bad && e.slots[i].finished == e.slots[i].posted
  }

  /** A pass that took the first `k` contexts off the queue. */
  ghost predicate Passed(driver: Driver, e: Engine, e': Engine, room: seq<nat>, k: nat)
    requires Indexed(e)
  {
    && k <= |e.queue| && |e'.slots| == |e.slots| && e'.queue == e.queue[k..]
    && (forall m: nat :: m < k ==> TakenOff(driver, e, e', room, m))
    && (k < |e.queue| ==> CutShort(driver, e, e', room, k))
    && (forall i: nat :: i < |e.slots| && i !in e.queue[..Min(k + 1, |e.queue|)] ==> e'.slots[i] == e.slots[i])
    && e.free <= e'.free && (forall i: nat :: i in e'.free <==> i in e.free || Freed(e, k, i))
  }

  /** After the front context is done with. */
  function Next(driver: Driver, e: Engine, room: seq<nat>): Engine
    requires Postable(e) && |e.queue| > 0
  {
    var c := e.slots[e.queue[0]];
    if c.bad then DropFront(e) else PostFront(e, Taken(driver, room, c.total - c.posted))
  }

  function RestOf(e: Engine, room: seq<nat>): seq<nat>
    requires Postable(e) && |e.queue| > 0
  {
    if e.slots[e.queue[0]].bad then room else Rest(room)
  }

  lemma AllowanceIs(driver: Driver, room: seq<nat>, left: nat)
    ensures Taken(driver, room, left) == Min(Allowance(driver, room, 0), left)
    ensures forall n: nat :: Allowance(driver, Rest(room), n) == Allowance(driver, room, n + 1)
  {
  }

  lemma NextQueue(driver: Driver, e: Engine, room: seq<nat>)
    requires Postable(e) && |e.queue| > 0 && Distinct(e.queue)
    ensures var e1, i, c := Next(driver, e, room), e.queue[0], e.slots[e.queue[0]];
            && |e1.slots| == |e.slots| && (forall j: nat :: j < |e.slots| && j != i ==> e1.slots[j] == e.slots[j])
            && (c.bad ==> e1.queue == e.queue[1..] && e1.slots[i] == c.(queued := false)
                          && e1.free == e.free + if c.finished == c.posted then [i] else [])
            && (!c.bad ==>
                  var n := Min(Allowance(driver, room, 0), c.total - c.posted);
                  && e1.slots[i] == c.(posted := c.posted + n) && e1.free == e.free
                  && e1.queue == if n == c.total - c.posted then e.queue[1..] else e.queue)
  {
    hide Taken;
    AllowanceIs(driver, room, e.slots[e.queue[0]].total - e.slots[e.queue[0]].posted);
  }

  /** The front context left the queue. */
  ghost predicate Leaves(driver: Driver, e: Engine, e1: Engine, room: seq<nat>, rest: seq<nat>)
    requires Postable(e)
  {
    && |e.queue| > 0 && Distinct(e.queue) && Indexed(e1) && e1 == Next(driver, e, room) && e1.queue == e.queue[1..] && rest == RestOf(e, room)
  }

  lemma {:induction false} TriedShift(driver: Driver, e: Engine, e1: Engine, room: seq<nat>, rest: seq<nat>, m: nat)
    requires Postable(e) && Leaves(driver, e, e1, room, rest) && m < |e.queue|
    ensures Tried(e, m + 1) == Tried(e1, m) + if e.slots[e.queue[0]].bad then 0 else 1
  {
    hide Next, RestOf;
    if m > 0 {
      TriedShift(driver, e, e1, room, rest, m - 1);
      Behind(driver, e, e1, room, rest, m);
    }
  }

  /** The contexts behind the front one are as they were. */
  lemma Behind(driver: Driver, e: Engine, e1: Engine, room: seq<nat>, rest: seq<nat>, m: nat)
    requires Postable(e) && Leaves(driver, e, e1, room, rest) && 0 < m < |e.queue|
    ensures e1.queue[m - 1] == e.queue[m] != e.queue[0] && |e1.slots| == |e.slots| && e1.slots[e.queue[m]] == e.slots[e.queue[m]]
  {
    hide Next, RestOf;
    NextQueue(driver, e, room);
  }

  lemma AllowanceShift(driver: Driver, e: Engine, e1: Engine, room: seq<nat>, rest: seq<nat>, m: nat)
    requires Postable(e) && Leaves(driver, e, e1, room, rest) && m < |e.queue|
    ensures Allowance(driver, rest, Tried(e1, m)) == Allowance(driver, room, Tried(e, m + 1))
  {
    hide Next, Tried, Allowance, Rest;
    TriedShift(driver, e, e1, room, rest, m);
    AllowanceIs(driver, room, 0);
  }

  lemma FrontOff(driver: Driver, e: Engine, e1: Engine, e': Engine, room: seq<nat>, rest: seq<nat>, k: nat)
    requires Postable(e) && Leaves(driver, e, e1, room, rest) && Passed(driver, e1, e', rest, k)
    ensures |e'.slots| == |e.slots| && TakenOff(driver, e, e', room, 0)
  {
    hide Next, RestOf, TakenOff, CutShort, Freed;
    NextQueue(driver, e, room);
    assert e.queue[0] !in e1.queue;
    assert e'.slots[e.queue[0]] == e1.slots[e.queue[0]];
    FrontTaken(driver, e, e1, e', room);
  }

  lemma FrontTaken(driver: Driver, e: Engine, e1: Engine, e': Engine, room: seq<nat>)
    requires Postable(e) && |e.queue| > 0 && Distinct(e.queue) && e1 == Next(driver, e, room) && e1.queue == e.queue[1..]
    requires |e'.slots| == |e.slots| == |e1.slots| && e'.slots[e.queue[0]] == e1.slots[e.queue[0]]
    ensures TakenOff(driver, e, e', room, 0)
  {
    hide Next;
    NextQueue(driver, e, room);
    assert |e1.queue| != |e.queue|;
  }

  lemma OthersOff(driver: Driver, e: Engine, e1: Engine, e': Engine, room: seq<nat>, rest: seq<nat>, k: nat, m: nat)
    requires Postable(e) && Leaves(driver, e, e1, room, rest) && Passed(driver, e1, e', rest, k) && 0 < m < |e.queue|
    ensures |e'.slots| == |e.slots|
    ensures m <= k ==> TakenOff(driver, e, e', room, m)
    ensures m == k + 1 ==> CutShort(driver, e, e', room, m)
  {
    hide Next, RestOf, Freed, Allowance, Tried;
    Behind(driver, e, e1, room, rest, m);
    AllowanceShift(driver, e, e1, room, rest, m - 1);
    if m <= k {
      assert TakenOff(driver, e1, e', rest, m - 1);
    }
  }

  lemma SlotsKept(driver: Driver, e: Engine, e1: Engine, e': Engine, room: seq<nat>, rest: seq<nat>, k: nat, i: nat)
    requires Postable(e) && Leaves(driver, e, e1, room, rest) && Passed(driver, e1, e', rest, k)
    requires i < |e.slots| && i !in e.queue[..Min(k + 2, |e.queue|)]
    ensures i < |e'.slots| && e'.slots[i] == e.slots[i]
  {
    hide Next, RestOf, Freed, TakenOff, CutShort;
    NextQueue(driver, e, room);
    var n := Min(k + 2, |e.queue|);
    assert e.queue[0] == e.queue[..n][0];
    assert e1.queue[..n - 1] == e.queue[..n][1..];
  }

  lemma FreedShift(driver: Driver, e: Engine, e1: Engine, e': Engine, room: seq<nat>, rest: seq<nat>, k: nat, i: nat)
    requires Postable(e) && Leaves(driver, e, e1, room, rest) && Passed(driver, e1, e', rest, k)
    ensures e.free <= e'.free && (i in e'.free <==> i in e.free || Freed(e, k + 1, i))
  {
    hide Next, RestOf, TakenOff, CutShort;
    NextQueue(driver, e, room);
    assert e.queue[..k + 1] == [e.queue[0]] + e1.queue[..k];
    assert e.queue[0] !in e1.queue[..k];
  }

  lemma Lift(driver: Driver, e: Engine, e1: Engine, e': Engine, room: seq<nat>, rest: seq<nat>, k: nat)
    requires Postable(e) && Leaves(driver, e, e1, room, rest) && Passed(driver, e1, e', rest, k)
    ensures Passed(driver, e, e', room, k + 1)
  {
    FrontOff(driver, e, e1, e', room, rest, k);
    hide Next, RestOf, Freed, TakenOff, CutShort;
    assert e'.queue == e.queue[k + 1..];
    forall m: nat | m < k + 1 ensures TakenOff(driver, e, e', room, m) {
      if m > 0 {
        OthersOff(driver, e, e1, e', room, rest, k, m);
      }
    }
    if k + 1 < |e.queue| {
      OthersOff(driver, e, e1, e', room, rest, k, k + 1);
    }
    forall i: nat | i < |e.slots| && i !in e.queue[..Min(k + 2, |e.queue|)] ensures e'.slots[i] == e.slots[i] {
      SlotsKept(driver, e, e1, e', room, rest, k, i);
    }
    forall i: nat ensures e.free <= e'.free && (i in e'.free <==> i in e.free || Freed(e, k + 1, i)) {
      FreedShift(driver, e, e1, e', room, rest, k, i);
    }
  }

  lemma ProgressStep(driver: Driver, e: Engine, room: seq<nat>)
    requires Postable(e) && |e.queue| > 0 && Distinct(e.queue)
    ensures var e1 := Next(driver, e, room);
            && Postable(e1) && Distinct(e1.queue)
            && (e1.queue == e.queue || e1.queue == e.queue[1..])
            && Progress(driver, e, room) == if e1.queue == e.queue then e1 else Progress(driver, e1, RestOf(e, room))
  {
    NextQueue(driver, e, room);
    var c := e.slots[e.queue[0]];
    if c.bad {
      DropPostable(e);
    } else {
      AcceptedFits(driver, if |room| == 0 then 0 else room[0], EFA_TURN, c.total - c.posted);
      PostPostable(e, Taken(driver, room, c.total - c.posted));
    }
  }

  /** A pass over the queue takes contexts off the front, bad ones and ones whose rest it posts, until
      one is left with operations that the device or the limit did not allow, or none is left. */
  lemma {:induction false} PassResult(driver: Driver, e: Engine, room: seq<nat>) returns (k: nat)
    requires Postable(e) && Distinct(e.queue)
    ensures Passed(driver, e, Progress(driver, e, room), room, k)
    decreases |e.queue|
  {
    hide Next, RestOf;
    if |e.queue| == 0 {
      k := 0;
    } else {
      ProgressStep(driver, e, room);
      NextQueue(driver, e, room);
      var e1 := Next(driver, e, room);
      if e1.queue == e.queue {
        k := 0;
        Stuck(driver, e, e1, room);
      } else {
        var rest := RestOf(e, room);
        var k1 := PassResult(driver, e1, rest);
        Lift(driver, e, e1, Progress(driver, e1, rest), room, rest, k1);
        k := k1 + 1;
      }
    }
  }

  lemma Stuck(driver: Driver, e: Engine, e1: Engine, room: seq<nat>)
    requires Postable(e) && |e.queue| > 0 && Distinct(e.queue) && e1 == Next(driver, e, room) && e1.queue == e.queue
    ensures Passed(driver, e, e1, room, 0)
  {
    hide Next;
    NextQueue(driver, e, room);
    assert |e.queue[1..]| != |e.queue|;
    assert e.queue[..1] == [e.queue[0]];
  }

  /** The same over runs: a pass in a world that can be reached. */
  lemma RunPass(ws: seq<World>, acts: seq<Action>, driver: Driver, j: nat, room: seq<nat>) returns (k: nat)
    requires Run(ws, acts, driver) && j <= |acts|
    ensures Postable(ws[j].e) && Passed(driver, ws[j].e, Progress(driver, ws[j].e, room), room, k)
  {
    hide Inv, Passed, Progress;
    RunSafe(ws, acts, driver, j);
    AlwaysPostable(ws[j]);
    QueueDistinct(ws[j]);
    k := PassResult(driver, ws[j].e, room);
  }

  lemma QueueDistinct(w: World)
    requires Inv(w)
    ensures Distinct(w.e.queue)
  {
  }
}
