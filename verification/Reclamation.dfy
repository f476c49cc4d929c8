/** Which write contexts are still allocated when nothing is outstanding, told from the run. */
module Reclamation {
  import opened Wrappers
  import opened WriteEngine
  import opened WriteRuns

  /** The device accepts fewer operations of write `id` than it has. */
  predicate SubmitsShort(a: Action, id: nat) {
    a.DoSubmit? && a.id == id && a.n < a.total
  }

  predicate InFront(w: World, id: nat) {
    |w.e.queue| > 0 && w.e.queue[0] < |w.e.slots| && w.e.slots[w.e.queue[0]].id == id
  }

  /** The last operations of `id` are posted from the queue. */
  predicate PostsRest(w: World, a: Action, id: nat) {
    a.DoPost? && InFront(w, id) && w.e.slots[w.e.queue[0]].posted + a.n == w.e.slots[w.e.queue[0]].total
  }

  /** `id`, gone bad, is taken off the queue with posted operations outstanding. */
  predicate DropsBusy(w: World, a: Action, id: nat) {
    a.DoDrop? && InFront(w, id) && w.e.slots[w.e.queue[0]].finished < w.e.slots[w.e.queue[0]].posted
  }

  /** What a run has done with a write so far: whether it was submitted short, posted completely
      from the queue, dropped while busy, and how its latest completion went. */
  datatype Fate = Fate(short: bool, whole: bool, busy: bool, last: Option<bool>)

  const NONE_YET := Fate(false, false, false, None)

  function NextFate(f: Fate, w: World, a: Action, id: nat): Fate {
    Fate(f.short || SubmitsShort(a, id), f.whole || PostsRest(w, a, id), f.busy || DropsBusy(w, a, id),
         if a.DoComplete? && a.op.id == id then Some(a.ok) else f.last)
  }

  function FateOf(ws: seq<World>, acts: seq<Action>, k: nat, id: nat): Fate
    requires |ws| == |acts| + 1 && k <= |acts|
  {
    if k == 0 then NONE_YET else NextFate(FateOf(ws, acts, k - 1, id), ws[k - 1], acts[k - 1], id)
  }

  /** What the context in slot `i` looks like, given its write's fate. */
  predicate LiveFits(w: World, i: nat, f: Fate)
    requires i < |w.e.slots|
  {
    var c := w.e.slots[i];
    && (f.whole <==> c.queued && i !in w.e.queue)
    && (f.busy <==> !c.queued && c.posted < c.total)
    && (f.short <==> c.queued || c.posted < c.total)
    && (f.busy && c.finished == c.posted ==> f.last == Some(true))
  }

  /** A write whose context has been freed. */
  predicate GoneFits(w: World, f: Fate, id: nat) {
    !f.whole && !(f.busy && f.last == Some(true)) && (f.short ==> Error(id) in w.log)
  }

  ghost predicate FateFits(w: World, f: Fate, id: nat) {
    if id !in w.sizes then f == NONE_YET.(short := f.short) && (f.short ==> w.stopped)
    else
      && (forall i: nat :: Owned(w.e, Op(i, id)) ==> i < |w.e.slots| && LiveFits(w, i, f))
      && ((forall i: nat :: !Owned(w.e, Op(i, id))) ==> GoneFits(w, f, id))
  }

  /** An action on one write leaves the others as they are. */
  lemma OthersFit(w: World, w': World, i: nat, freed: bool, f: Fate, id: nat)
    requires Inv(w) && Touches(w, w', i, freed) && w'.stopped == w.stopped
    requires i < |w.e.slots| && w.e.slots[i].id != id && FateFits(w, f, id)
    ensures FateFits(w', f, id)
  {
    hide Inv, Sound, WellReported, Told;
    forall j: nat ensures Owned(w'.e, Op(j, id)) <==> Owned(w.e, Op(j, id)) {
      TouchLive(w, w', i, freed, j);
    }
    forall j: nat | Owned(w.e, Op(j, id)) && id in w.sizes ensures LiveFits(w', j, f) {
      if w'.e.queue != w.e.queue {
        QueueTail(w.e.queue, j);
      }
    }
  }

  /** The action on the write's own context, in the three shapes it can leave it. */
  lemma OwnFits(w: World, w': World, i: nat, freed: bool, f': Fate)
    requires Inv(w) && Touches(w, w', i, freed) && Inv(w') && i < |w.e.slots|
    requires if freed then GoneFits(w', f', w.e.slots[i].id) else LiveFits(w', i, f')
    ensures FateFits(w', f', w.e.slots[i].id)
  {
    hide Pooled, Sound, WellReported, Told, NoneForgotten, WireLive, AllSound;
    var id := w.e.slots[i].id;
    assert id in w.sizes by {
      TouchedSize(w, i);
    }
    assert !freed ==> Owned(w'.e, Op(i, id)) by {
      TouchLive(w, w', i, freed, i);
    }
    forall j: nat | Owned(w'.e, Op(j, id)) ensures j == i && !freed {
      TouchLive(w, w', i, freed, j);
    }
  }

  lemma TouchedSize(w: World, i: nat)
    requires Inv(w) && Live(w.e, i) && i < |w.e.slots|
    ensures Sound(w, i) && w.e.slots[i].id in w.sizes
  {
    hide Pooled, WellReported, NoneForgotten, WireLive, IdsDistinct;
    SoundSize(w, i);
  }

  lemma FitsHere(w: World, f: Fate, i: nat)
    requires Inv(w) && Live(w.e, i) && i < |w.e.slots| && FateFits(w, f, w.e.slots[i].id)
    ensures LiveFits(w, i, f) && Sound(w, i)
  {
    hide Inv, Sound, LiveFits;
    TouchedSize(w, i);
    assert Owned(w.e, Op(i, w.e.slots[i].id));
  }

  lemma DropFits(w: World, f: Fate, id: nat)
    requires Inv(w) && Allowed(w, DoDrop) && FateFits(w, f, id)
    ensures FateFits(DropW(w), NextFate(f, w, DoDrop, id), id)
  {
    hide Inv, Touches, FateFits, WellReported;
    var i := w.e.queue[0];
    var freed := w.e.slots[i].finished == w.e.slots[i].posted;
    DropTouches(w);
    if w.e.slots[i].id != id {
      OthersFit(w, DropW(w), i, freed, f, id);
    } else {
      TouchKeeps(w, DropW(w), i, freed);
      FrontFacts(w);
      FitsHere(w, f, i);
      OwnFits(w, DropW(w), i, freed, NextFate(f, w, DoDrop, id));
    }
  }

  lemma PostFits(w: World, n: nat, f: Fate, id: nat)
    requires Inv(w) && Allowed(w, DoPost(n)) && FateFits(w, f, id)
    ensures FateFits(PostW(w, n), NextFate(f, w, DoPost(n), id), id)
  {
    hide Inv, Touches, FateFits, WellReported;
    var i := w.e.queue[0];
    PostTouches(w, n);
    if w.e.slots[i].id != id {
      OthersFit(w, PostW(w, n), i, false, f, id);
    } else {
      TouchKeeps(w, PostW(w, n), i, false);
      FrontFacts(w);
      FitsHere(w, f, i);
      OwnFits(w, PostW(w, n), i, false, NextFate(f, w, DoPost(n), id));
    }
  }

  lemma CompleteFits(w: World, op: Op, ok: bool, f: Fate, id: nat)
    requires Inv(w) && Allowed(w, DoComplete(op, ok)) && FateFits(w, f, id)
    ensures FateFits(CompleteW(w, op, ok), NextFate(f, w, DoComplete(op, ok), id), id)
  {
    hide Inv, Touches, FateFits, WellReported;
    var w', freed := CompleteW(w, op, ok), Frees(w, op, ok);
    CompletionFinds(w, op);
    CompleteTouches(w, op, ok);
    if op.id != id {
      OthersFit(w, w', op.slot, freed, f, id);
    } else {
      TouchKeeps(w, w', op.slot, freed);
      FitsHere(w, f, op.slot);
      OwnFits(w, w', op.slot, freed, NextFate(f, w, DoComplete(op, ok), id));
    }
  }

  lemma SubmitFits(w: World, id: nat, kind: Kind, total: nat, n: nat, f: Fate, d: nat)
    requires Inv(w) && Allowed(w, DoSubmit(id, kind, total, n)) && !Stops(w.driver, kind, n, total) && FateFits(w, f, d)
    ensures FateFits(SubmitW(w, id, kind, total, n), NextFate(f, w, DoSubmit(id, kind, total, n), d), d)
  {
    hide Pooled, Submit, AllocSlot, WellReported, Told, NoneForgotten, WireLive, Sound, Live, IdsDistinct;
    var i, w' := AllocSlot(w.e), SubmitW(w, id, kind, total, n);
    SubmitFresh(w, id, kind, total, n);
    forall j: nat ensures Owned(w'.e, Op(j, d)) <==> (if j == i then d == id else Owned(w.e, Op(j, d))) {
      SubmitOwned(w, id, kind, total, n, d, j);
    }
    if d == id {
      UnknownIdle(w, id);
      assert Owned(w'.e, Op(i, id));
      assert LiveFits(w', i, NextFate(f, w, DoSubmit(id, kind, total, n), d));
    } else if d in w.sizes {
      forall j: nat | Owned(w'.e, Op(j, d)) ensures j < |w'.e.slots| && LiveFits(w', j, f) {
        assert Owned(w.e, Op(j, d)) && LiveFits(w, j, f);
      }
    }
  }

  lemma UnknownIdle(w: World, id: nat)
    requires Inv(w) && id !in w.sizes
    ensures forall j: nat :: !Owned(w.e, Op(j, id))
  {
    hide Pooled, WellReported, Told, NoneForgotten, WireLive, IdsDistinct;
    forall j: nat ensures !Owned(w.e, Op(j, id)) {
      if Owned(w.e, Op(j, id)) {
        SoundSize(w, j);
      }
    }
  }

  lemma SubmitOwned(w: World, id: nat, kind: Kind, total: nat, n: nat, d: nat, j: nat)
    requires Inv(w) && id !in w.sizes && n <= total && total > 0 && !Stops(w.driver, kind, n, total)
    ensures var i := AllocSlot(w.e);
            Owned(SubmitW(w, id, kind, total, n).e, Op(j, d)) <==> (if j == i then d == id else Owned(w.e, Op(j, d)))
  {
    hide Pooled, Submit, AllocSlot, WellReported, Told, NoneForgotten, WireLive, AllSound, IdsDistinct;
    SubmitFresh(w, id, kind, total, n);
  }

  lemma StepFits(w: World, a: Action, f: Fate, id: nat)
    requires Inv(w) && Allowed(w, a) && FateFits(w, f, id)
    ensures FateFits(Apply(w, a), NextFate(f, w, a, id), id)
  {
    hide Inv, SubmitW, DropW, PostW, CompleteW;
    match a
    case DoSubmit(d, kind, total, n) =>
      if !Stops(w.driver, kind, n, total) {
        SubmitFits(w, d, kind, total, n, f, id);
      }
    case DoDrop => DropFits(w, f, id);
    case DoPost(n) => PostFits(w, n, f, id);
    case DoComplete(op, ok) => CompleteFits(w, op, ok, f, id);
  }

  lemma {:induction false} RunFits(ws: seq<World>, acts: seq<Action>, driver: Driver, k: nat, id: nat)
    requires Run(ws, acts, driver) && k <= |acts|
    ensures Inv(ws[k]) && FateFits(ws[k], FateOf(ws, acts, k, id), id)
  {
    hide Inv, Allowed, Apply, NextFate;
    RunSafe(ws, acts, driver, k);
    if k > 0 {
      hide FateFits;
      RunFits(ws, acts, driver, k - 1, id);
      StepFits(ws[k - 1], acts[k - 1], FateOf(ws, acts, k - 1, id), id);
    }
  }

  // The same told by what happened before point `k` of a run.

  predicate WasShort(acts: seq<Action>, k: nat, id: nat)
    requires k <= |acts|
  {
    exists m :: 0 <= m < k && SubmitsShort(acts[m], id)
  }

  predicate WasPostedLater(ws: seq<World>, acts: seq<Action>, k: nat, id: nat)
    requires k <= |acts| < |ws|
  {
    exists m :: 0 <= m < k && PostsRest(ws[m], acts[m], id)
  }

  predicate WasDroppedBusy(ws: seq<World>, acts: seq<Action>, k: nat, id: nat)
    requires k <= |acts| < |ws|
  {
    exists m :: 0 <= m < k && DropsBusy(ws[m], acts[m], id)
  }

  predicate Completes(a: Action, id: nat) {
    a.DoComplete? && a.op.id == id
  }

  /** The latest completion of one of the write's operations was a success. */
  predicate LastSucceeded(acts: seq<Action>, k: nat, id: nat)
    requires k <= |acts|
  {
    exists m :: 0 <= m < k && Completes(acts[m], id) && acts[m].ok && forall j :: m < j < k ==> !Completes(acts[j], id)
  }

  lemma {:induction false} FateTells(ws: seq<World>, acts: seq<Action>, k: nat, id: nat)
    requires |ws| == |acts| + 1 && k <= |acts|
    ensures var f := FateOf(ws, acts, k, id);
            && (f.short <==> WasShort(acts, k, id))
            && (f.whole <==> WasPostedLater(ws, acts, k, id))
            && (f.busy <==> WasDroppedBusy(ws, acts, k, id))
  {
    hide SubmitsShort, PostsRest, DropsBusy;
    if k > 0 {
      FateTells(ws, acts, k - 1, id);
    }
  }

  lemma {:induction false} LastTells(ws: seq<World>, acts: seq<Action>, k: nat, id: nat)
    requires |ws| == |acts| + 1 && k <= |acts|
    ensures FateOf(ws, acts, k, id).last == Some(true) <==> LastSucceeded(acts, k, id)
  {
    hide SubmitsShort, PostsRest, DropsBusy;
    if k > 0 {
      LastTells(ws, acts, k - 1, id);
      if Completes(acts[k - 1], id) {
        assert FateOf(ws, acts, k, id).last == Some(acts[k - 1].ok);
        if LastSucceeded(acts, k, id) {
          var m :| 0 <= m < k && Completes(acts[m], id) && acts[m].ok && forall j :: m < j < k ==> !Completes(acts[j], id);
          assert m == k - 1;
        }
      } else {
        LastStays(acts, k, id);
      }
    }
  }

  lemma LastStays(acts: seq<Action>, k: nat, id: nat)
    requires 0 < k <= |acts| && !Completes(acts[k - 1], id)
    ensures LastSucceeded(acts, k, id) <==> LastSucceeded(acts, k - 1, id)
  {
    if LastSucceeded(acts, k, id) {
      var m :| 0 <= m < k && Completes(acts[m], id) && acts[m].ok && forall j :: m < j < k ==> !Completes(acts[j], id);
      assert m < k - 1;
    }
    if LastSucceeded(acts, k - 1, id) {
      var m :| 0 <= m < k - 1 && Completes(acts[m], id) && acts[m].ok && forall j :: m < j < k - 1 ==> !Completes(acts[j], id);
      assert forall j :: m < j < k ==> !Completes(acts[j], id);
    }
  }

  lemma OwnerIs(e: Engine, id: nat)
    ensures HasContext(e, id) <==> exists i: nat :: Owned(e, Op(i, id))
  {
    if HasContext(e, id) {
      var i: nat :| i < |e.slots| && Live(e, i) && e.slots[i].id == id;
      assert Owned(e, Op(i, id));
    }
  }

  lemma QuietFits(w: World, f: Fate, id: nat)
    requires Inv(w) && Quiet(w) && FateFits(w, f, id)
    ensures HasContext(w.e, id) <==> f.short && (f.whole || (f.busy && f.last == Some(true)))
    ensures id in w.sizes && Error(id) !in w.log ==> (HasContext(w.e, id) <==> f.short)
  {
    hide Pooled, WellReported, Told, NoneForgotten, WireLive, IdsDistinct, HasContext;
    OwnerIs(w.e, id);
    if i: nat :| Owned(w.e, Op(i, id)) {
      LeftOver(w, i);
      SoundSize(w, i);
      assert LiveFits(w, i, f);
    }
  }

  /** In every run, when nothing is outstanding and the queue is empty, a write still has its
      context if and only if the device did not take all of it at submission, and either the
      rest was posted from the queue, or it went bad in the queue, was taken off with operations
      outstanding, and the last of those succeeded. */
  lemma ReclaimedIff(ws: seq<World>, acts: seq<Action>, driver: Driver, k: nat, id: nat)
    requires Run(ws, acts, driver) && k <= |acts| && Quiet(ws[k])
    ensures HasContext(ws[k].e, id)
            <==> (WasShort(acts, k, id)
                  && (WasPostedLater(ws, acts, k, id) || (WasDroppedBusy(ws, acts, k, id) && LastSucceeded(acts, k, id))))
  {
    hide Inv, FateFits, FateOf, HasContext, WasShort, WasPostedLater, WasDroppedBusy, LastSucceeded;
    RunFits(ws, acts, driver, k, id);
    FateTells(ws, acts, k, id);
    LastTells(ws, acts, k, id);
    QuietFits(ws[k], FateOf(ws, acts, k, id), id);
  }

  /** A write that had no error still has its context if and only if the device did not take all
      of it at submission. */
  lemma CleanReclaimedIff(ws: seq<World>, acts: seq<Action>, driver: Driver, k: nat, id: nat)
    requires Run(ws, acts, driver) && k <= |acts| && Quiet(ws[k]) && id in ws[k].sizes && Error(id) !in ws[k].log
    ensures HasContext(ws[k].e, id) <==> WasShort(acts, k, id)
  {
    hide Inv, FateFits, FateOf, HasContext, WasShort, WasPostedLater, WasDroppedBusy;
    RunFits(ws, acts, driver, k, id);
    FateTells(ws, acts, k, id);
    QuietFits(ws[k], FateOf(ws, acts, k, id), id);
  }

  /** A write whose rest was posted from the queue has its context at every later point of the run,
      quiet or not. */
  lemma StrandedAlways(ws: seq<World>, acts: seq<Action>, driver: Driver, k: nat, id: nat)
    requires Run(ws, acts, driver) && k <= |acts| && WasPostedLater(ws, acts, k, id)
    ensures HasContext(ws[k].e, id)
  {
    hide Inv, FateOf, WasShort, WasPostedLater, WasDroppedBusy, LiveFits;
    RunFits(ws, acts, driver, k, id);
    FateTells(ws, acts, k, id);
    OwnerIs(ws[k].e, id);
  }

  /** And a context that is there at a quiet point stays for the rest of the run, whatever happens. */
  lemma {:induction false} LeftForever(ws: seq<World>, acts: seq<Action>, driver: Driver, k: nat, m: nat, i: nat)
    requires Run(ws, acts, driver) && k <= m <= |acts| && Quiet(ws[k]) && i < |ws[k].e.slots| && Live(ws[k].e, i)
    ensures Dead(ws[m], i, ws[k].e.slots[i])
  {
    hide Inv, Apply, Allowed;
    if k < m {
      hide Dead;
      LeftForever(ws, acts, driver, k, m - 1, i);
      RunSafe(ws, acts, driver, m - 1);
      DeadForever(ws[m - 1], acts[m - 1], i, ws[k].e.slots[i]);
    }
  }

  lemma {:induction false} SizesStay(ws: seq<World>, acts: seq<Action>, driver: Driver, s: nat, k: nat)
    requires Run(ws, acts, driver) && s < k <= |acts| && acts[s].DoSubmit? && !Stops(driver, acts[s].kind, acts[s].n, acts[s].total)
    ensures acts[s].id in ws[k].sizes
  {
    hide Inv, Stops;
    RunSafe(ws, acts, driver, k - 1);
    assert Allowed(ws[k - 1], acts[k - 1]) && ws[k] == Apply(ws[k - 1], acts[k - 1]);
    if s < k - 1 {
      SizesStay(ws, acts, driver, s, k - 1);
    }
  }

  /** The EFA domain posts one operation at submission, so every write of two or more operations
      that had no error still has its context whenever nothing is outstanding. */
  lemma EfaKeeps(ws: seq<World>, acts: seq<Action>, s: nat, k: nat)
    requires Run(ws, acts, Efa) && s < k <= |acts| && acts[s].DoSubmit? && acts[s].total >= 2
    requires Quiet(ws[k]) && Error(acts[s].id) !in ws[k].log
    ensures HasContext(ws[k].e, acts[s].id)
  {
    hide Inv, Apply;
    RunSafe(ws, acts, Efa, s);
    assert Allowed(ws[s], acts[s]);
    assert SubmitsShort(acts[s], acts[s].id);
    SizesStay(ws, acts, Efa, s, k);
    CleanReclaimedIff(ws, acts, Efa, k, acts[s].id);
  }

  /** A domain with a single context, for write 0. */
  function Lone(driver: Driver, c: Ctx, queue: seq<nat>, log: seq<Event>): World
    requires c.finished <= c.posted
  {
    World(driver, false, Engine([c], [], queue), multiset{}[Op(0, 0) := c.posted - c.finished], log, map[0 := c.total])
  }

  lemma LoneSubmit(driver: Driver, total: nat, n: nat)
    requires 0 < n < total && (driver.Efa? ==> n == 1)
    ensures var a := DoSubmit(0, Paged, total, n);
            Allowed(Start(driver), a) && Apply(Start(driver), a) == Lone(driver, Ctx(0, Paged, total, n, 0, true, false), [0], [])
  {
    assert [] + [0] == [0];
  }

  lemma LonePost(driver: Driver, c: Ctx)
    requires c.id == 0 && c.finished <= c.posted < c.total <= c.posted + EFA_TURN && !c.bad
    ensures var w, a := Lone(driver, c, [0], []), DoPost(c.total - c.posted);
            Allowed(w, a) && Apply(w, a) == Lone(driver, c.(posted := c.total), [], [])
  {
    assert [0][1..] == [];
  }

  lemma LoneDrop(driver: Driver, c: Ctx, log: seq<Event>)
    requires c.id == 0 && c.finished < c.posted && c.bad
    ensures var w := Lone(driver, c, [0], log);
            Allowed(w, DoDrop) && Apply(w, DoDrop) == Lone(driver, c.(queued := false), [], log)
  {
    assert [0][1..] == [];
  }

  lemma LoneComplete(driver: Driver, c: Ctx, queue: seq<nat>, log: seq<Event>, ok: bool)
    requires c.id == 0 && c.finished < c.posted && queue in [[], [0]]
    requires c.queued || (ok && c.finished + 1 < c.total)
    ensures var w, a := Lone(driver, c, queue, log), DoComplete(Op(0, 0), ok);
            var c' := c.(finished := c.finished + 1, bad := c.bad || !ok);
            var log' := if ok then if c'.finished < c.total then log else log + [Transfer(0)]
                        else if c.bad then log else log + [Error(0)];
            Allowed(w, a) && Apply(w, a) == Lone(driver, c', queue, log')
  {
    var w := Lone(driver, c, queue, log);
    assert w.wire[Op(0, 0) := w.wire[Op(0, 0)] - 1] == multiset{}[Op(0, 0) := c.posted - c.finished - 1];
  }

  lemma LoneQuiet(driver: Driver, c: Ctx, log: seq<Event>)
    requires c.id == 0 && c.finished == c.posted
    ensures Quiet(Lone(driver, c, [], log)) && HasContext(Lone(driver, c, [], log).e, 0)
    ensures Lone(driver, c, [], log).log == log
  {
    assert Live(Lone(driver, c, [], log).e, 0);
  }

  /** A run of either domain in which a context is left though everything succeeded: two
      operations, the second posted from the queue. */
  lemma StrandedRun(driver: Driver) returns (ws: seq<World>, acts: seq<Action>)
    ensures Run(ws, acts, driver) && |acts| == 4 && Quiet(ws[4]) && HasContext(ws[4].e, 0) && ws[4].log == [Transfer(0)]
  {
    hide Apply, Allowed, HasContext, Quiet, Lone, Start;
    var c := Ctx(0, Paged, 2, 1, 0, true, false);
    var d := c.(posted := 2);
    LoneSubmit(driver, 2, 1);
    LonePost(driver, c);
    LoneComplete(driver, d, [], [], true);
    LoneComplete(driver, d.(finished := 1), [], [], true);
    LoneQuiet(driver, d.(finished := 2), [Transfer(0)]);
    assert [] + [Transfer(0)] == [Transfer(0)];
    acts := [DoSubmit(0, Paged, 2, 1), DoPost(1), DoComplete(Op(0, 0), true), DoComplete(Op(0, 0), true)];
    ws := [Start(driver), Lone(driver, c, [0], []), Lone(driver, d, [], []), Lone(driver, d.(finished := 1), [], []),
           Lone(driver, d.(finished := 2), [], [Transfer(0)])];
  }

  /** A run in which a context that failed is left: of three operations two are posted, one
      fails, the context is dropped from the queue, and the other succeeds. */
  lemma AbandonedRun() returns (ws: seq<World>, acts: seq<Action>)
    ensures Run(ws, acts, Verbs) && |acts| == 4 && Quiet(ws[4]) && HasContext(ws[4].e, 0) && ws[4].log == [Error(0)]
  {
    hide Apply, Allowed, HasContext, Quiet, Lone, Start;
    var c := Ctx(0, Paged, 3, 2, 0, true, false);
    var d := c.(finished := 1, bad := true);
    var log := [Error(0)];
    LoneSubmit(Verbs, 3, 2);
    LoneComplete(Verbs, c, [0], [], false);
    LoneDrop(Verbs, d, log);
    LoneComplete(Verbs, d.(queued := false), [], log, true);
    LoneQuiet(Verbs, d.(queued := false, finished := 2), log);
    assert [] + log == log;
    acts := [DoSubmit(0, Paged, 3, 2), DoComplete(Op(0, 0), false), DoDrop, DoComplete(Op(0, 0), true)];
    ws := [Start(Verbs), Lone(Verbs, c, [0], []), Lone(Verbs, d, [0], log), Lone(Verbs, d.(queued := false), [], log),
           Lone(Verbs, d.(queued := false, finished := 2), [], log)];
  }

  /** A run of a verbs domain that a full device stops: a scatter of two, with room for one. */
  lemma StoppedRun() returns (ws: seq<World>, acts: seq<Action>)
    ensures Run(ws, acts, Verbs) && |acts| == 1 && ws[1].stopped
  {
    acts := [DoSubmit(0, Scatter, 2, 1)];
    ws := [Start(Verbs), Start(Verbs).(stopped := true)];
  }
}
