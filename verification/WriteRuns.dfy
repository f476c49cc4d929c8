/** Runs of the write engine against a device that completes each posted operation at most
    once, in any order. */
module WriteRuns {
  import opened WriteEngine
  import opened Wrappers

  /** A posted operation, as the device knows it: the context's address, and, for the proof,
      the transfer that posted it. */
  datatype Op = Op(slot: nat, id: nat)

  /** The driver and whether a full device has stopped the worker, the engine, the operations
      the device has not completed, everything reported to the caller, and the size of every
      transfer ever submitted. */
  datatype World = World(driver: Driver, stopped: bool, e: Engine, wire: multiset<Op>, log: seq<Event>, sizes: map<nat, nat>)

  predicate Live(e: Engine, i: nat) {
    i < |e.slots| && i !in e.free
  }

  predicate Distinct(s: seq<nat>) {
    forall a, b :: 0 <= a < b < |s| ==> s[a] != s[b]
  }

  /** The pool never holds a slot twice, and never one that is queued. */
  predicate Pooled(e: Engine) {
    Indexed(e) && Distinct(e.free) && Distinct(e.queue) && forall k :: 0 <= k < |e.queue| ==> e.queue[k] !in e.free
  }

  /** Counters, flags and reports of one live context. */
  predicate Sound(w: World, i: nat)
    requires i < |w.e.slots|
  {
    var c := w.e.slots[i];
    && c.finished <= c.posted <= c.total && c.total > 0
    && w.wire[Op(i, c.id)] == c.posted - c.finished
    && c.id in w.sizes && w.sizes[c.id] == c.total
    && (i in w.e.queue ==> c.queued && c.posted < c.total)
    && (c.queued && i !in w.e.queue ==> c.posted == c.total)
    && (!c.queued && !c.bad ==> c.posted == c.total)
    && (Error(c.id) in w.log <==> c.bad)
    && (Transfer(c.id) in w.log ==> c.finished == c.total)
    && (!c.bad && c.finished == c.total ==> Transfer(c.id) in w.log)
    && (c.finished == c.total ==> c.queued)
    && (w.driver.Verbs? && !c.kind.Paged? ==> c.posted == c.total && !c.queued)
  }

  predicate AllSound(w: World) {
    forall i: nat :: i < |w.e.slots| && Live(w.e, i) ==> Sound(w, i)
  }

  /** Every outstanding operation belongs to the context that is in its slot now. */
  ghost predicate WireLive(w: World) {
    forall op :: op in w.wire ==> Owned(w.e, op)
  }

  predicate Owned(e: Engine, op: Op) {
    Live(e, op.slot) && e.slots[op.slot].id == op.id
  }

  predicate IdsDistinct(e: Engine) {
    forall i: nat, j: nat :: i < |e.slots| && j < |e.slots| && Live(e, i) && Live(e, j) && e.slots[i].id == e.slots[j].id ==> i == j
  }

  /** At most one Error and one Transfer per transfer, and never an Error after a Transfer. */
  predicate WellReported(log: seq<Event>) {
    forall a, b :: 0 <= a < b < |log| && log[a].id == log[b].id ==> log[a].Error? && log[b].Transfer?
  }

  predicate Told(log: seq<Event>, id: nat) {
    Error(id) in log || Transfer(id) in log
  }

  predicate HasContext(e: Engine, id: nat) {
    exists i: nat :: i < |e.slots| && Live(e, i) && e.slots[i].id == id
  }

  /** Every transfer has a live context or has been reported. */
  predicate NoneForgotten(w: World) {
    && (forall id :: id in w.sizes ==> HasContext(w.e, id) || Told(w.log, id))
    && (forall k :: 0 <= k < |w.log| ==> w.log[k].id in w.sizes)
  }

  ghost predicate Inv(w: World) {
    && Pooled(w.e) && AllSound(w) && WireLive(w) && IdsDistinct(w.e) && WellReported(w.log) && NoneForgotten(w)
  }

  function Noted(log: seq<Event>, event: Option<Event>): seq<Event> {
    match event case None => log case Some(ev) => log + [ev]
  }

  function Posted(wire: multiset<Op>, op: Op, n: nat): multiset<Op> {
    wire[op := wire[op] + n]
  }

  /** A submission of which the device accepts `n` operations. */
  function SubmitW(w: World, id: nat, kind: Kind, total: nat, n: nat): World
    requires Indexed(w.e) && n <= total
  {
    w.(e := Submit(w.e, id, kind, total, n), wire := Posted(w.wire, Op(AllocSlot(w.e), id), n), sizes := w.sizes[id := total])
  }

  function DropW(w: World): World
    requires Indexed(w.e) && |w.e.queue| > 0
  {
    w.(e := DropFront(w.e))
  }

  function PostW(w: World, n: nat): World
    requires Indexed(w.e) && |w.e.queue| > 0
  {
    var i := w.e.queue[0];
    w.(e := PostFront(w.e, n), wire := Posted(w.wire, Op(i, w.e.slots[i].id), n))
  }

  function CompleteW(w: World, op: Op, ok: bool): World
    requires op.slot < |w.e.slots| && op in w.wire
  {
    var (e, event) := if ok then Success(w.e, op.slot) else Failure(w.e, op.slot);
    w.(e := e, wire := w.wire[op := w.wire[op] - 1], log := Noted(w.log, event))
  }

  /** A context that a transition leaves alone stays sound. */
  lemma OtherSound(w: World, w': World, j: nat)
    requires j < |w.e.slots| && j < |w'.e.slots| && Sound(w, j) && w'.e.slots[j] == w.e.slots[j] && w'.driver == w.driver
    requires w'.wire[Op(j, w.e.slots[j].id)] == w.wire[Op(j, w.e.slots[j].id)]
    requires j in w'.e.queue <==> j in w.e.queue
    requires forall id :: id in w.sizes ==> id in w'.sizes && w'.sizes[id] == w.sizes[id]
    requires Error(w.e.slots[j].id) in w'.log <==> Error(w.e.slots[j].id) in w.log
    requires Transfer(w.e.slots[j].id) in w'.log <==> Transfer(w.e.slots[j].id) in w.log
    ensures Sound(w', j)
  {
  }

  /** All slots other than `i` are as they were. */
  predicate Kept(e: Engine, e': Engine, i: nat) {
    |e.slots| <= |e'.slots| && forall j: nat :: j < |e.slots| && j != i ==> e'.slots[j] == e.slots[j]
  }

  /** A new transfer: its slot was free, so no outstanding operation refers to it. */
  lemma SubmitFresh(w: World, id: nat, kind: Kind, total: nat, n: nat)
    requires Inv(w) && id !in w.sizes && n <= total && total > 0 && !Stops(w.driver, kind, n, total)
    ensures var i := AllocSlot(w.e);
            && Indexed(w.e) && !Live(w.e, i) && i !in w.e.queue && w.wire[Op(i, id)] == 0
            && Error(id) !in w.log && Transfer(id) !in w.log
            && var e' := Submit(w.e, id, kind, total, n);
            && i < |e'.slots| && e'.slots[i] == Ctx(id, kind, total, n, 0, n != total, false)
            && (forall j: nat :: Live(e', j) <==> Live(w.e, j) || j == i)
            && Kept(w.e, e', i)
            && e'.queue == if n != total then w.e.queue + [i] else w.e.queue
  {
    hide AllSound, IdsDistinct;
    var i, e' := AllocSlot(w.e), Submit(w.e, id, kind, total, n);
    assert !Live(w.e, i);
    forall j: nat ensures Live(e', j) <==> Live(w.e, j) || j == i {
      SubmitLive(w.e, id, kind, total, n, j);
    }
  }

  lemma SubmitLive(e: Engine, id: nat, kind: Kind, total: nat, n: nat, j: nat)
    requires Pooled(e) && n <= total
    ensures Live(Submit(e, id, kind, total, n), j) <==> Live(e, j) || j == AllocSlot(e)
  {
    var m := |e.free|;
    if m > 0 {
      assert e.free == e.free[..m - 1] + [e.free[m - 1]];
    }
  }

  lemma SubmitPooled(w: World, id: nat, kind: Kind, total: nat, n: nat)
    requires Inv(w) && id !in w.sizes && n <= total && total > 0 && !Stops(w.driver, kind, n, total)
    ensures Pooled(Submit(w.e, id, kind, total, n))
  {
    hide AllSound, WireLive, IdsDistinct, NoneForgotten;
    SubmitFresh(w, id, kind, total, n);
  }

  lemma SubmitSound(w: World, id: nat, kind: Kind, total: nat, n: nat)
    requires Inv(w) && id !in w.sizes && n <= total && total > 0 && !Stops(w.driver, kind, n, total)
    ensures AllSound(SubmitW(w, id, kind, total, n))
  {
    hide Pooled, IdsDistinct, WireLive, Live, AllocSlot, Submit;
    SubmitFresh(w, id, kind, total, n);
    var i, w' := AllocSlot(w.e), SubmitW(w, id, kind, total, n);
    forall j: nat | j < |w'.e.slots| && Live(w'.e, j) ensures Sound(w', j) {
      if j == i {
        NewSound(w, w', i, id, kind, total, n);
      } else {
        LiveInRange(w.e, j);
        assert Sound(w, j);
        OtherSound(w, w', j);
      }
    }
  }

  lemma LiveInRange(e: Engine, i: nat)
    requires Live(e, i)
    ensures i < |e.slots|
  {
  }

  lemma NewSound(w: World, w': World, i: nat, id: nat, kind: Kind, total: nat, n: nat)
    requires n <= total && total > 0 && !Stops(w.driver, kind, n, total) && w'.driver == w.driver
    requires i < |w'.e.slots| && w'.e.slots[i] == Ctx(id, kind, total, n, 0, n != total, false)
    requires w.wire[Op(i, id)] == 0 && w'.wire == Posted(w.wire, Op(i, id), n) && w'.log == w.log
    requires w'.sizes == w.sizes[id := total] && i !in w.e.queue
    requires w'.e.queue == if n != total then w.e.queue + [i] else w.e.queue
    requires Error(id) !in w.log && Transfer(id) !in w.log
    ensures Sound(w', i)
  {
  }

  lemma OwnedIs(e: Engine, op: Op)
    requires Live(e, op.slot) && op.slot < |e.slots| && e.slots[op.slot].id == op.id
    ensures Owned(e, op)
  {
  }

  lemma OwnedStays(e: Engine, e': Engine, op: Op, i: nat)
    requires Owned(e, op) && !Live(e, i)
    requires forall j: nat :: Live(e', j) <==> Live(e, j) || j == i
    requires Kept(e, e', i)
    ensures Owned(e', op)
  {
    assert Live(e', op.slot);
  }

  lemma SubmitKeeps(w: World, id: nat, kind: Kind, total: nat, n: nat)
    requires Inv(w) && id !in w.sizes && n <= total && total > 0 && !Stops(w.driver, kind, n, total)
    ensures Inv(SubmitW(w, id, kind, total, n))
  {
    hide Pooled, Sound, Live, AllocSlot, Submit, Told, Owned, IdsDistinct, NoneForgotten;
    SubmitPooled(w, id, kind, total, n);
    SubmitSound(w, id, kind, total, n);
    SubmitFresh(w, id, kind, total, n);
    SubmitIds(w, id, kind, total, n);
    var i, w' := AllocSlot(w.e), SubmitW(w, id, kind, total, n);
    forall op | op in w'.wire ensures Owned(w'.e, op) {
      if op != Op(i, id) {
        assert op in w.wire;
        OwnedStays(w.e, w'.e, op, i);
      } else {
        assert Live(w'.e, i);
        OwnedIs(w'.e, op);
      }
    }
  }

  lemma SubmitIds(w: World, id: nat, kind: Kind, total: nat, n: nat)
    requires Inv(w) && id !in w.sizes && n <= total && total > 0 && !Stops(w.driver, kind, n, total)
    ensures IdsDistinct(SubmitW(w, id, kind, total, n).e) && NoneForgotten(SubmitW(w, id, kind, total, n))
  {
    hide Pooled, Live, AllocSlot, Submit, Told, WireLive;
    SubmitFresh(w, id, kind, total, n);
    var i, w' := AllocSlot(w.e), SubmitW(w, id, kind, total, n);
    forall a: nat, b: nat | a < |w'.e.slots| && b < |w'.e.slots| && Live(w'.e, a) && Live(w'.e, b) && w'.e.slots[a].id == w'.e.slots[b].id
      ensures a == b
    {
      if a != i {
        LiveInRange(w.e, a);
        assert Sound(w, a);
      }
      if b != i {
        LiveInRange(w.e, b);
        assert Sound(w, b);
      }
    }
    forall d | d in w'.sizes ensures HasContext(w'.e, d) || Told(w'.log, d) {
      if d == id {
        assert Live(w'.e, i);
      } else if HasContext(w.e, d) {
        var k: nat :| k < |w.e.slots| && Live(w.e, k) && w.e.slots[k].id == d;
        assert Live(w'.e, k);
        LiveInRange(w'.e, k);
      }
    }
  }

  /** What every other transition has in common: it works on one live context `i`, and
      perhaps frees it. */
  ghost predicate Touches(w: World, w': World, i: nat, freed: bool) {
    && Live(w.e, i) && |w'.e.slots| == |w.e.slots| && Kept(w.e, w'.e, i)
    && w'.e.slots[i].id == w.e.slots[i].id && w'.sizes == w.sizes && w'.driver == w.driver
    && w'.e.free == (if freed then w.e.free + [i] else w.e.free)
    && (w'.e.queue == w.e.queue || (|w.e.queue| > 0 && w.e.queue[0] == i && w'.e.queue == w.e.queue[1..]))
    && (forall op :: op != Op(i, w.e.slots[i].id) ==> w'.wire[op] == w.wire[op])
    && (w'.log == w.log || exists ev: Event :: ev.id == w.e.slots[i].id && w'.log == w.log + [ev])
    && WellReported(w'.log)
    && if freed then
         w'.wire[Op(i, w.e.slots[i].id)] == 0 && Told(w'.log, w.e.slots[i].id) && i !in w'.e.queue
       else Sound(w', i)
  }

  lemma TouchLive(w: World, w': World, i: nat, freed: bool, j: nat)
    requires Touches(w, w', i, freed)
    ensures Live(w'.e, j) <==> Live(w.e, j) && !(freed && j == i)
  {
  }

  lemma TouchPooled(w: World, w': World, i: nat, freed: bool)
    requires Inv(w) && Touches(w, w', i, freed)
    ensures Pooled(w'.e)
  {
    hide AllSound, Sound, WireLive, IdsDistinct, NoneForgotten, WellReported, Told;
  }

  lemma QueueTail(s: seq<nat>, j: nat)
    requires |s| > 0 && s[0] != j
    ensures j in s[1..] <==> j in s
  {
    assert s == [s[0]] + s[1..];
  }

  lemma TouchOther(w: World, w': World, i: nat, freed: bool, j: nat)
    requires Inv(w) && Touches(w, w', i, freed) && j < |w.e.slots| && Live(w.e, j) && j != i
    ensures Sound(w', j)
  {
    hide Pooled, WireLive, NoneForgotten, WellReported, Told, Live;
    assert w.e.slots[j].id != w.e.slots[i].id by {
      LiveInRange(w.e, i);
    }
    if w'.e.queue != w.e.queue {
      QueueTail(w.e.queue, j);
    }
    OtherSound(w, w', j);
  }

  lemma TouchSound(w: World, w': World, i: nat, freed: bool)
    requires Inv(w) && Touches(w, w', i, freed)
    ensures AllSound(w')
  {
    hide Pooled, Sound, WireLive, IdsDistinct, NoneForgotten, WellReported, Told, Live;
    forall j: nat | j < |w'.e.slots| && Live(w'.e, j) ensures Sound(w', j) {
      TouchLive(w, w', i, freed, j);
      if j != i {
        TouchOther(w, w', i, freed, j);
      }
    }
  }

  lemma TouchWire(w: World, w': World, i: nat, freed: bool)
    requires Inv(w) && Touches(w, w', i, freed)
    ensures WireLive(w') && IdsDistinct(w'.e)
  {
    hide Pooled, Sound, AllSound, NoneForgotten, WellReported, Told;
    forall op | op in w'.wire ensures Owned(w'.e, op) {
      TouchLive(w, w', i, freed, op.slot);
      if op != Op(i, w.e.slots[i].id) {
        assert op in w.wire;
        assert Owned(w.e, op);
      }
    }
  }

  lemma TouchTold(w: World, w': World, i: nat, freed: bool)
    requires Inv(w) && Touches(w, w', i, freed)
    ensures NoneForgotten(w')
  {
    hide Pooled, Sound, WireLive, IdsDistinct, WellReported, Live;
    LiveInRange(w.e, i);
    assert w.e.slots[i].id in w.sizes by {
      SoundSize(w, i);
    }
    forall id | id in w'.sizes ensures HasContext(w'.e, id) || Told(w'.log, id) {
      if HasContext(w.e, id) {
        var k: nat :| k < |w.e.slots| && Live(w.e, k) && w.e.slots[k].id == id;
        TouchLive(w, w', i, freed, k);
      }
    }
  }

  lemma SoundSize(w: World, i: nat)
    requires AllSound(w) && Live(w.e, i) && i < |w.e.slots|
    ensures Sound(w, i) && w.e.slots[i].id in w.sizes
  {
  }

  lemma TouchKeeps(w: World, w': World, i: nat, freed: bool)
    requires Inv(w) && Touches(w, w', i, freed)
    ensures Inv(w')
  {
    hide Pooled, Sound, WireLive, IdsDistinct, NoneForgotten, AllSound, Live;
    TouchPooled(w, w', i, freed);
    TouchSound(w, w', i, freed);
    TouchWire(w, w', i, freed);
    TouchTold(w, w', i, freed);
  }

  lemma ReportNext(log: seq<Event>, ev: Event)
    requires WellReported(log) && Transfer(ev.id) !in log && (Error(ev.id) in log ==> ev.Transfer?)
    ensures WellReported(log + [ev])
  {
    var log' := log + [ev];
    forall a, b | 0 <= a < b < |log'| && log'[a].id == log'[b].id ensures log'[a].Error? && log'[b].Transfer? {
      if b == |log| {
        assert log[a] in log;
      }
    }
  }

  lemma FrontFacts(w: World)
    requires Inv(w) && |w.e.queue| > 0
    ensures Live(w.e, w.e.queue[0]) && w.e.queue[0] < |w.e.slots| && Sound(w, w.e.queue[0])
    ensures w.e.queue[0] !in w.e.queue[1..] && Indexed(w.e)
  {
    hide Sound, WireLive, IdsDistinct, NoneForgotten, WellReported;
    assert Live(w.e, w.e.queue[0]);
  }

  lemma DropTouches(w: World)
    requires Inv(w) && |w.e.queue| > 0 && w.e.slots[w.e.queue[0]].bad
    ensures Indexed(w.e)
    ensures Touches(w, DropW(w), w.e.queue[0], w.e.slots[w.e.queue[0]].finished == w.e.slots[w.e.queue[0]].posted)
  {
    hide Pooled, AllSound, WireLive, IdsDistinct, NoneForgotten, WellReported;
    FrontFacts(w);
  }

  lemma PostTouches(w: World, n: nat)
    requires Inv(w) && |w.e.queue| > 0 && !w.e.slots[w.e.queue[0]].bad
    requires n <= w.e.slots[w.e.queue[0]].total - w.e.slots[w.e.queue[0]].posted
    ensures Indexed(w.e) && Touches(w, PostW(w, n), w.e.queue[0], false)
  {
    hide Pooled, AllSound, WireLive, IdsDistinct, NoneForgotten, WellReported;
    FrontFacts(w);
  }

  /** A completion always finds the context that posted the operation: never a freed slot,
      never one that has been reused. */
  lemma CompletionFinds(w: World, op: Op)
    requires Inv(w) && op in w.wire
    ensures Live(w.e, op.slot) && op.slot < |w.e.slots| && w.e.slots[op.slot].id == op.id && Sound(w, op.slot)
    ensures w.e.slots[op.slot].finished < w.e.slots[op.slot].posted
  {
    hide Pooled, IdsDistinct, NoneForgotten, WellReported;
    assert Owned(w.e, op);
    SoundSize(w, op.slot);
  }

  /** Whether the completion of `op` frees its context. */
  predicate Frees(w: World, op: Op, ok: bool)
    requires op.slot < |w.e.slots|
  {
    var c := w.e.slots[op.slot];
    !c.queued && c.finished + 1 == if ok then c.total else c.posted
  }

  lemma CompleteTouches(w: World, op: Op, ok: bool)
    requires Inv(w) && op in w.wire && op.slot < |w.e.slots|
    ensures Touches(w, CompleteW(w, op, ok), op.slot, Frees(w, op, ok))
  {
    hide Pooled, AllSound, WireLive, IdsDistinct, NoneForgotten, WellReported;
    CompletionFinds(w, op);
    var c, w' := w.e.slots[op.slot], CompleteW(w, op, ok);
    if ok && c.finished + 1 == c.total {
      ReportNext(w.log, Transfer(c.id));
      assert w'.log == w.log + [Transfer(c.id)];
    } else if !ok && !c.bad {
      ReportNext(w.log, Error(c.id));
      assert w'.log == w.log + [Error(c.id)];
    }
  }

  datatype Action = DoSubmit(id: nat, kind: Kind, total: nat, n: nat) | DoDrop | DoPost(n: nat) | DoComplete(op: Op, ok: bool)

  /** What the caller, the progress loop and the device can do: submit a transfer with a new
      id, drop a bad context from the front of the queue, post some of the front context's
      remaining operations, and complete an outstanding operation. `n` is what the device and
      the limits of the driver let through. */
  predicate Allowed(w: World, a: Action) {
    && Indexed(w.e) && !w.stopped
    && match a
       case DoSubmit(id, kind, total, n) => id !in w.sizes && n <= total && total > 0 && (w.driver.Efa? ==> n <= EFA_EAGER)
       case DoDrop => |w.e.queue| > 0 && w.e.slots[w.e.queue[0]].bad
       case DoPost(n) =>
         |w.e.queue| > 0 && var c := w.e.slots[w.e.queue[0]]; !c.bad && c.posted + n <= c.total && (w.driver.Efa? ==> n <= EFA_TURN)
       case DoComplete(op, ok) => op in w.wire && op.slot < |w.e.slots|
  }

  /** A submission the device cuts short stops the worker, unless the iterator can wait. */
  function Apply(w: World, a: Action): World
    requires Allowed(w, a)
  {
    match a
    case DoSubmit(id, kind, total, n) =>
      if Stops(w.driver, kind, n, total) then w.(stopped := true) else SubmitW(w, id, kind, total, n)
    case DoDrop => DropW(w)
    case DoPost(n) => PostW(w, n)
    case DoComplete(op, ok) => CompleteW(w, op, ok)
  }

  lemma StepKeeps(w: World, a: Action)
    requires Inv(w) && Allowed(w, a)
    ensures Inv(Apply(w, a))
  {
    hide Inv, SubmitW, DropW, PostW, CompleteW, Touches;
    match a
    case DoSubmit(id, kind, total, n) =>
      if Stops(w.driver, kind, n, total) {
        StopKeeps(w);
      } else {
        SubmitKeeps(w, id, kind, total, n);
      }
    case DoDrop =>
      DropTouches(w);
      TouchKeeps(w, DropW(w), w.e.queue[0], w.e.slots[w.e.queue[0]].finished == w.e.slots[w.e.queue[0]].posted);
    case DoPost(n) =>
      PostTouches(w, n);
      TouchKeeps(w, PostW(w, n), w.e.queue[0], false);
    case DoComplete(op, ok) =>
      CompleteTouches(w, op, ok);
      TouchKeeps(w, CompleteW(w, op, ok), op.slot, Frees(w, op, ok));
  }

  lemma StopKeeps(w: World)
    requires Inv(w)
    ensures Inv(w.(stopped := true))
  {
    var w' := w.(stopped := true);
    forall i: nat | i < |w'.e.slots| && Live(w'.e, i) ensures Sound(w', i) {
      assert Sound(w, i);
    }
  }

  function Start(driver: Driver): World {
    World(driver, false, Engine([], [], []), multiset{}, [], map[])
  }

  /** The worlds of a run: each follows from the one before by an allowed action. */
  ghost predicate Run(ws: seq<World>, acts: seq<Action>, driver: Driver) {
    && |ws| == |acts| + 1 && ws[0] == Start(driver)
    && forall k :: 0 <= k < |acts| ==> Allowed(ws[k], acts[k]) && ws[k + 1] == Apply(ws[k], acts[k])
  }

  /** Over all runs: counters in order, queued contexts distinct and unfinished, no slot freed
      twice or while queued or outstanding, at most one Error and one Transfer each, never an
      Error after a Transfer. */
  lemma {:induction false} RunSafe(ws: seq<World>, acts: seq<Action>, driver: Driver, k: nat)
    requires Run(ws, acts, driver) && k <= |acts|
    ensures Inv(ws[k]) && ws[k].driver == driver
  {
    hide Allowed, Apply;
    if k > 0 {
      hide Inv;
      RunSafe(ws, acts, driver, k - 1);
      StepKeeps(ws[k - 1], acts[k - 1]);
      DriverStays(ws[k - 1], acts[k - 1]);
    } else {
      StartInv(driver);
    }
  }

  lemma DriverStays(w: World, a: Action)
    requires Allowed(w, a)
    ensures Apply(w, a).driver == w.driver
  {
  }

  lemma StartInv(driver: Driver)
    ensures Inv(Start(driver))
  {
  }

  predicate Quiet(w: World) {
    |w.wire| == 0 && |w.e.queue| == 0
  }

  /** When nothing is outstanding and the queue is empty, every transfer has been reported,
      and the ones without an error as complete. */
  lemma AllReported(w: World, id: nat)
    requires Inv(w) && Quiet(w) && id in w.sizes
    ensures Told(w.log, id)
    ensures HasContext(w.e, id) && Error(id) !in w.log ==> Transfer(id) in w.log
  {
    hide Pooled, WireLive, IdsDistinct, WellReported;
    if HasContext(w.e, id) {
      var i: nat :| i < |w.e.slots| && Live(w.e, i) && w.e.slots[i].id == id;
      SoundSize(w, i);
    }
  }

  /** A context still allocated when nothing is outstanding and the queue is empty either left
      the queue wholly posted, its flag still set, or failed while partly posted. In a verbs
      domain it is a paged one. */
  lemma LeftOver(w: World, i: nat)
    requires Inv(w) && Quiet(w) && i < |w.e.slots| && Live(w.e, i)
    ensures var c := w.e.slots[i];
            && c.finished == c.posted && (if c.queued then c.posted == c.total else c.bad && c.posted < c.total)
            && (w.driver.Verbs? ==> c.kind.Paged?)
  {
    hide Pooled, WireLive, IdsDistinct, WellReported, NoneForgotten;
    SoundSize(w, i);
  }

  /** In every run of a verbs domain only paged contexts are ever queued, so only a submission
      can find a full device and stop the worker. */
  lemma OnlyPagedQueued(ws: seq<World>, acts: seq<Action>, k: nat)
    requires Run(ws, acts, Verbs) && k <= |acts|
    ensures Postable(ws[k].e) && QueuePaged(Verbs, ws[k].e)
    ensures k < |acts| ==>
              (ws[k + 1].stopped <==> acts[k].DoSubmit? && !acts[k].kind.Paged? && acts[k].n < acts[k].total)
  {
    hide Inv, SubmitW, DropW, PostW, CompleteW;
    RunSafe(ws, acts, Verbs, k);
    AlwaysPostable(ws[k]);
    if k < |acts| {
      StopsOnly(ws[k], acts[k]);
    }
  }

  lemma StopsOnly(w: World, a: Action)
    requires Allowed(w, a)
    ensures Apply(w, a).stopped <==> a.DoSubmit? && Stops(w.driver, a.kind, a.n, a.total)
  {
  }

  /** A context that left the queue with its flag set. */
  predicate Stranded(w: World, i: nat, id: nat) {
    Live(w.e, i) && i !in w.e.queue && w.e.slots[i].queued && w.e.slots[i].id == id
  }

  /** A context with nothing outstanding that is not queued. */
  predicate Dead(w: World, i: nat, c: Ctx) {
    Live(w.e, i) && i !in w.e.queue && w.wire[Op(i, c.id)] == 0 && w.e.slots[i] == c
  }

  /** Being fully posted from the queue strands a context. */
  lemma PostStrands(w: World, n: nat)
    requires Inv(w) && Allowed(w, DoPost(n))
    requires w.e.slots[w.e.queue[0]].posted + n == w.e.slots[w.e.queue[0]].total
    ensures Stranded(Apply(w, DoPost(n)), w.e.queue[0], w.e.slots[w.e.queue[0]].id)
  {
    hide Pooled, AllSound, WireLive, IdsDistinct, WellReported, NoneForgotten;
    FrontFacts(w);
  }

  lemma QueueKept(w: World, a: Action, i: nat)
    requires Inv(w) && Allowed(w, a) && i !in w.e.queue && Live(w.e, i)
    ensures i !in Apply(w, a).e.queue
  {
    hide AllSound, WireLive, IdsDistinct, WellReported, NoneForgotten, Sound;
    if |w.e.queue| > 0 && w.e.queue[0] != i {
      QueueTail(w.e.queue, i);
    }
  }

  /** A stranded context is never freed, whatever happens. */
  lemma StrandedForever(w: World, a: Action, i: nat, id: nat)
    requires Inv(w) && Allowed(w, a) && Stranded(w, i, id)
    ensures Stranded(Apply(w, a), i, id)
  {
    hide AllSound, WireLive, IdsDistinct, WellReported, NoneForgotten, Sound;
    QueueKept(w, a, i);
    FreeKept(w, a, i);
  }

  lemma FreeKept(w: World, a: Action, i: nat)
    requires Inv(w) && Allowed(w, a) && Live(w.e, i) && i !in w.e.queue
    requires w.e.slots[i].queued || w.wire[Op(i, w.e.slots[i].id)] == 0
    ensures Live(Apply(w, a).e, i)
    ensures Apply(w, a).e.slots[i].queued == w.e.slots[i].queued && Apply(w, a).e.slots[i].id == w.e.slots[i].id
    ensures w.wire[Op(i, w.e.slots[i].id)] == 0 ==> Apply(w, a).e.slots[i] == w.e.slots[i]
  {
    hide AllSound, IdsDistinct, WellReported, NoneForgotten, Sound;
    match a
    case DoSubmit(id, kind, total, n) => SubmitLive(w.e, id, kind, total, n, i);
    case DoDrop =>
    case DoPost(n) =>
    case DoComplete(op, ok) =>
      assert Owned(w.e, op);
  }

  /** So is any context that nothing outstanding refers to. */
  lemma DeadForever(w: World, a: Action, i: nat, c: Ctx)
    requires Inv(w) && Allowed(w, a) && Dead(w, i, c)
    ensures Dead(Apply(w, a), i, c)
  {
    hide AllSound, IdsDistinct, WellReported, NoneForgotten, Sound;
    QueueKept(w, a, i);
    FreeKept(w, a, i);
    match a
    case DoSubmit(id, kind, total, n) =>
    case DoDrop =>
    case DoPost(n) =>
    case DoComplete(op, ok) =>
  }

  /** Exactly when a completion frees its context: the flag is clear and the completions counted
      reach the total, for a success, or the posted, for a failure. */
  lemma CompletionFrees(w: World, op: Op, ok: bool)
    requires Inv(w) && Allowed(w, DoComplete(op, ok))
    ensures !Live(Apply(w, DoComplete(op, ok)).e, op.slot) <==> Frees(w, op, ok)
  {
    hide Inv, CompleteW, Touches;
    CompleteTouches(w, op, ok);
    TouchLive(w, CompleteW(w, op, ok), op.slot, Frees(w, op, ok), op.slot);
    LiveOwner(w, op);
  }

  lemma LiveOwner(w: World, op: Op)
    requires Inv(w) && op in w.wire
    ensures Live(w.e, op.slot)
  {
    hide Pooled, AllSound, IdsDistinct, NoneForgotten, WellReported;
    assert Owned(w.e, op);
  }

  /** A whole pass over the queue, as the engine makes it, is a sequence of allowed actions. */
  lemma PassKeeps(w: World, room: seq<nat>) returns (w': World)
    requires Inv(w) && Postable(w.e) && !w.stopped
    ensures Inv(w') && w'.e == Progress(w.driver, w.e, room) && w'.log == w.log && w'.sizes == w.sizes
    decreases |w.e.queue|
  {
    hide Inv, DropFront, PostFront;
    w' := w;
    if |w.e.queue| > 0 {
      var c := w.e.slots[w.e.queue[0]];
      if c.bad {
        DropPostable(w.e);
        StepKeeps(w, DoDrop);
        w' := PassKeeps(DropW(w), room);
      } else {
        var n := Taken(w.driver, room, c.total - c.posted);
        PostPostable(w.e, n);
        StepKeeps(w, DoPost(n));
        if c.posted + n != c.total {
          w' := PostW(w, n);
        } else {
          PostLeaves(w.e, n);
          w' := PassKeeps(PostW(w, n), Rest(room));
        }
      }
    }
  }

  /** The engine's own conditions for working off the queue always hold. */
  lemma AlwaysPostable(w: World)
    requires Inv(w)
    ensures Postable(w.e) && QueuePaged(w.driver, w.e)
  {
    hide WireLive, IdsDistinct, WellReported, NoneForgotten;
    forall k | 0 <= k < |w.e.queue|
      ensures w.e.slots[w.e.queue[k]].posted <= w.e.slots[w.e.queue[k]].total
      ensures w.driver.Verbs? ==> w.e.slots[w.e.queue[k]].kind.Paged?
    {
      assert Live(w.e, w.e.queue[k]);
      SoundSize(w, w.e.queue[k]);
    }
  }
}
