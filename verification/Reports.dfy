/** What the caller is told about a write, from the completions of its operations. */
module Reports {
  import opened WriteEngine
  import opened WriteRuns
  import opened Reclamation

  /** Completions of the write's operations among the first `k` actions. */
  function Completions(acts: seq<Action>, k: nat, id: nat): nat
    requires k <= |acts|
  {
    if k == 0 then 0 else Completions(acts, k - 1, id) + if Completes(acts[k - 1], id) then 1 else 0
  }

  predicate HadFailure(acts: seq<Action>, k: nat, id: nat)
    requires k <= |acts|
  {
    exists m :: 0 <= m < k && Completes(acts[m], id) && !acts[m].ok
  }

  /** The log against `n` completions, of which some failed and the last one succeeded or not. */
  ghost predicate ToldFits(w: World, n: nat, failed: bool, good: bool, id: nat) {
    && (id !in w.sizes ==> n == 0 && !failed && Error(id) !in w.log && Transfer(id) !in w.log)
    && (Error(id) in w.log <==> failed)
    && (id in w.sizes ==> n <= w.sizes[id] && (Transfer(id) in w.log <==> n == w.sizes[id] && good))
    && (forall i: nat :: Owned(w.e, Op(i, id)) ==> id in w.sizes && w.e.slots[i].finished == n)
  }

  /** An action on another write. */
  lemma OthersTold(w: World, w': World, i: nat, freed: bool, n: nat, failed: bool, good: bool, id: nat)
    requires Inv(w) && Touches(w, w', i, freed) && i < |w.e.slots| && w.e.slots[i].id != id && ToldFits(w, n, failed, good, id)
    ensures ToldFits(w', n, failed, good, id)
  {
    hide Inv, Sound, WellReported, Told;
    forall j: nat ensures Owned(w'.e, Op(j, id)) ==> Owned(w.e, Op(j, id)) && j != i {
      TouchLive(w, w', i, freed, j);
    }
  }

  /** An action on this one that reports nothing and completes nothing. */
  lemma OwnQuiet(w: World, w': World, i: nat, freed: bool, n: nat, failed: bool, good: bool, id: nat)
    requires Inv(w) && Touches(w, w', i, freed) && i < |w.e.slots| && w.e.slots[i].id == id && ToldFits(w, n, failed, good, id)
    requires w'.log == w.log && w'.e.slots[i].finished == w.e.slots[i].finished
    ensures ToldFits(w', n, failed, good, id)
  {
    hide Inv, Sound, WellReported, Told;
    forall j: nat ensures Owned(w'.e, Op(j, id)) ==> Owned(w.e, Op(j, id)) {
      TouchLive(w, w', i, freed, j);
    }
  }

  /** A completion of one of its operations. */
  lemma OwnCompletes(w: World, op: Op, ok: bool, n: nat, failed: bool, good: bool)
    requires Inv(w) && Allowed(w, DoComplete(op, ok)) && ToldFits(w, n, failed, good, op.id)
    ensures ToldFits(CompleteW(w, op, ok), n + 1, failed || !ok, ok, op.id)
  {
    hide Inv, WellReported, Touches;
    var i, w' := op.slot, CompleteW(w, op, ok);
    CompletionFinds(w, op);
    CompleteTouches(w, op, ok);
    assert Owned(w.e, op) && n == w.e.slots[i].finished < w.e.slots[i].total;
    forall j: nat | Owned(w'.e, Op(j, op.id)) ensures w'.e.slots[j].finished == n + 1 {
      TouchLive(w, w', i, Frees(w, op, ok), j);
      OneOwner(w, w', i, Frees(w, op, ok), j);
    }
    LoggedBy(w, op, ok);
  }

  lemma OneOwner(w: World, w': World, i: nat, freed: bool, j: nat)
    requires Inv(w) && Touches(w, w', i, freed) && i < |w.e.slots| && Owned(w'.e, Op(j, w.e.slots[i].id)) && Live(w.e, j)
    ensures j == i
  {
    hide Pooled, AllSound, WireLive, NoneForgotten, WellReported, Sound, Told;
  }

  /** What a completion adds to the log. */
  lemma LoggedBy(w: World, op: Op, ok: bool)
    requires op.slot < |w.e.slots| && op in w.wire && w.e.slots[op.slot].id == op.id
    ensures var c := w.e.slots[op.slot];
            CompleteW(w, op, ok).log
            == if ok then if c.finished + 1 < c.total then w.log else w.log + [Transfer(op.id)]
               else if c.bad then w.log else w.log + [Error(op.id)]
  {
  }

  lemma StepTold(w: World, a: Action, n: nat, failed: bool, good: bool, id: nat)
    requires Inv(w) && Allowed(w, a) && ToldFits(w, n, failed, good, id)
    ensures var c := Completes(a, id);
            ToldFits(Apply(w, a), n + (if c then 1 else 0), failed || (c && !a.ok), if c then a.ok else good, id)
  {
    hide Inv, SubmitW, Touches, ToldFits, Submit;
    match a
    case DoSubmit(d, kind, total, m) => SubmitTold(w, d, kind, total, m, n, failed, good, id);
    case DoDrop =>
      DropTouches(w);
      var i, freed := w.e.queue[0], w.e.slots[w.e.queue[0]].finished == w.e.slots[w.e.queue[0]].posted;
      if w.e.slots[i].id == id {
        OwnQuiet(w, DropW(w), i, freed, n, failed, good, id);
      } else {
        OthersTold(w, DropW(w), i, freed, n, failed, good, id);
      }
    case DoPost(m) =>
      PostTouches(w, m);
      var i := w.e.queue[0];
      if w.e.slots[i].id == id {
        OwnQuiet(w, PostW(w, m), i, false, n, failed, good, id);
      } else {
        OthersTold(w, PostW(w, m), i, false, n, failed, good, id);
      }
    case DoComplete(op, ok) =>
      CompletionFinds(w, op);
      CompleteTouches(w, op, ok);
      if op.id == id {
        OwnCompletes(w, op, ok, n, failed, good);
      } else {
        OthersTold(w, CompleteW(w, op, ok), op.slot, Frees(w, op, ok), n, failed, good, id);
      }
  }

  lemma SubmitTold(w: World, d: nat, kind: Kind, total: nat, m: nat, n: nat, failed: bool, good: bool, id: nat)
    requires Inv(w) && Allowed(w, DoSubmit(d, kind, total, m)) && ToldFits(w, n, failed, good, id)
    ensures ToldFits(Apply(w, DoSubmit(d, kind, total, m)), n, failed, good, id)
  {
    hide Inv, Submit, AllocSlot, Live;
    if Stops(w.driver, kind, m, total) {
    } else {
      var w' := SubmitW(w, d, kind, total, m);
      SubmitFresh(w, d, kind, total, m);
      forall j: nat | Owned(w'.e, Op(j, id)) ensures j < |w'.e.slots| && id in w'.sizes && w'.e.slots[j].finished == n {
        LiveInRange(w'.e, j);
        SubmitOwned(w, d, kind, total, m, id, j);
        if j != AllocSlot(w.e) {
          LiveInRange(w.e, j);
        }
      }
    }
  }

  lemma StartTold(driver: Driver, id: nat)
    ensures ToldFits(Start(driver), 0, false, false, id)
  {
  }

  lemma {:induction false} RunTold(ws: seq<World>, acts: seq<Action>, driver: Driver, k: nat, id: nat)
    requires Run(ws, acts, driver) && k <= |acts|
    ensures ToldFits(ws[k], Completions(acts, k, id), HadFailure(acts, k, id), LastSucceeded(acts, k, id), id)
  {
    hide Inv, Allowed, Apply, ToldFits;
    if k == 0 {
      StartTold(driver, id);
    } else {
      RunTold(ws, acts, driver, k - 1, id);
      RunSafe(ws, acts, driver, k - 1);
      var c := Completes(acts[k - 1], id);
      StepTold(ws[k - 1], acts[k - 1], Completions(acts, k - 1, id), HadFailure(acts, k - 1, id), LastSucceeded(acts, k - 1, id), id);
      FailureStep(acts, k, id);
      if c {
        LastIs(acts, k, id);
      } else {
        LastStays(acts, k, id);
      }
    }
  }

  lemma FailureStep(acts: seq<Action>, k: nat, id: nat)
    requires 0 < k <= |acts|
    ensures HadFailure(acts, k, id) <==> HadFailure(acts, k - 1, id) || (Completes(acts[k - 1], id) && !acts[k - 1].ok)
  {
  }

  lemma LastIs(acts: seq<Action>, k: nat, id: nat)
    requires 0 < k <= |acts| && Completes(acts[k - 1], id)
    ensures LastSucceeded(acts, k, id) <==> acts[k - 1].ok
  {
    if LastSucceeded(acts, k, id) {
      var m :| 0 <= m < k && Completes(acts[m], id) && acts[m].ok && forall j :: m < j < k ==> !Completes(acts[j], id);
      assert m == k - 1;
    }
  }

  /** In every run: an error is reported if and only if an operation of the write has failed, and the
      transfer if and only if all its operations have completed and the last one successfully. Both
      happen to a write that failed before its last operation succeeded. */
  lemma ReportedIff(ws: seq<World>, acts: seq<Action>, driver: Driver, k: nat, id: nat)
    requires Run(ws, acts, driver) && k <= |acts|
    ensures Error(id) in ws[k].log <==> HadFailure(acts, k, id)
    ensures Transfer(id) in ws[k].log
            <==> id in ws[k].sizes && Completions(acts, k, id) == ws[k].sizes[id] && LastSucceeded(acts, k, id)
  {
    hide Completions, HadFailure, LastSucceeded, Apply, Allowed;
    RunTold(ws, acts, driver, k, id);
    RunSafe(ws, acts, driver, k);
    if id !in ws[k].sizes {
      assert Transfer(id) !in ws[k].log;
    }
  }

  /** Write `x` was submitted before write `y`. */
  predicate SubmittedFirst(acts: seq<Action>, k: nat, x: nat, y: nat)
    requires k <= |acts|
  {
    exists m, m' :: 0 <= m < m' < k && Submits(acts[m], x) && Submits(acts[m'], y)
  }

  predicate Submits(a: Action, id: nat) {
    a.DoSubmit? && a.id == id
  }

  predicate WasSubmitted(acts: seq<Action>, k: nat, id: nat)
    requires k <= |acts|
  {
    exists m :: 0 <= m < k && Submits(acts[m], id)
  }

  lemma {:induction false} SizesSubmitted(ws: seq<World>, acts: seq<Action>, driver: Driver, k: nat, id: nat)
    requires Run(ws, acts, driver) && k <= |acts| && id in ws[k].sizes
    ensures WasSubmitted(acts, k, id)
  {
    if k > 0 {
      assert Allowed(ws[k - 1], acts[k - 1]) && ws[k] == Apply(ws[k - 1], acts[k - 1]);
      SizesFrom(ws[k - 1], acts[k - 1], id);
      if id in ws[k - 1].sizes {
        SizesSubmitted(ws, acts, driver, k - 1, id);
      } else {
        assert Submits(acts[k - 1], id);
      }
    }
  }

  lemma SizesFrom(w: World, a: Action, id: nat)
    requires Allowed(w, a) && id in Apply(w, a).sizes
    ensures id in w.sizes || Submits(a, id)
  {
  }

  /** The queue is first in, first out: in every run, contexts wait in it in the order in which their
      writes were submitted. */
  lemma {:induction false} QueueInOrder(ws: seq<World>, acts: seq<Action>, driver: Driver, k: nat, a: nat, b: nat)
    requires Run(ws, acts, driver) && k <= |acts| && a < b < |ws[k].e.queue|
    ensures Indexed(ws[k].e)
    ensures SubmittedFirst(acts, k, ws[k].e.slots[ws[k].e.queue[a]].id, ws[k].e.slots[ws[k].e.queue[b]].id)
  {
    hide Inv, SubmittedFirst, Apply, Allowed, WasSubmitted;
    RunSafe(ws, acts, driver, k);
    QueueIndexed(ws[k]);
    if k > 0 {
      var w := ws[k - 1];
      assert ws[k] == Apply(w, acts[k - 1]);
      RunSafe(ws, acts, driver, k - 1);
      QueueIndexed(w);
      var a', b' := QueueFrom(w, acts[k - 1], a, b);
      if b' < |w.e.queue| {
        QueueInOrder(ws, acts, driver, k - 1, a', b');
        StaysFirst(acts, k, w.e.slots[w.e.queue[a']].id, w.e.slots[w.e.queue[b']].id);
      } else {
        QueuedSize(w, a');
        SizesSubmitted(ws, acts, driver, k - 1, w.e.slots[w.e.queue[a']].id);
        NewestLast(acts, k, w.e.slots[w.e.queue[a']].id, acts[k - 1].id);
      }
    }
  }

  lemma QueueIndexed(w: World)
    requires Inv(w)
    ensures Indexed(w.e)
  {
  }

  lemma QueuedSize(w: World, a: nat)
    requires Inv(w) && Indexed(w.e) && a < |w.e.queue|
    ensures w.e.slots[w.e.queue[a]].id in w.sizes
  {
    hide WireLive, IdsDistinct, WellReported, NoneForgotten;
    assert Live(w.e, w.e.queue[a]);
    SoundSize(w, w.e.queue[a]);
  }

  lemma StaysFirst(acts: seq<Action>, k: nat, x: nat, y: nat)
    requires 0 < k <= |acts| && SubmittedFirst(acts, k - 1, x, y)
    ensures SubmittedFirst(acts, k, x, y)
  {
  }

  lemma NewestLast(acts: seq<Action>, k: nat, x: nat, y: nat)
    requires 0 < k <= |acts| && WasSubmitted(acts, k - 1, x) && Submits(acts[k - 1], y)
    ensures SubmittedFirst(acts, k, x, y)
  {
  }

  /** Where two queued contexts stood before the action; the second may be the one it queued. */
  lemma QueueFrom(w: World, x: Action, a: nat, b: nat) returns (a': nat, b': nat)
    requires Inv(w) && Allowed(w, x) && Indexed(Apply(w, x).e) && a < b < |Apply(w, x).e.queue|
    ensures a' < b' <= |w.e.queue| && a' < |w.e.queue| && Indexed(w.e)
    ensures var e' := Apply(w, x).e;
            && e'.slots[e'.queue[a]].id == w.e.slots[w.e.queue[a']].id
            && (b' < |w.e.queue| ==> e'.slots[e'.queue[b]].id == w.e.slots[w.e.queue[b']].id)
            && (b' == |w.e.queue| ==> Submits(x, e'.slots[e'.queue[b]].id))
  {
    hide AllSound, WireLive, IdsDistinct, WellReported, NoneForgotten;
    var e' := Apply(w, x).e;
    var off := if |e'.queue| < |w.e.queue| then 1 else 0;
    a', b' := a + off, b + off;
    if x.DoSubmit? && !Stops(w.driver, x.kind, x.n, x.total) {
      SubmitQueue(w, x.id, x.kind, x.total, x.n);
    }
  }

  lemma SubmitQueue(w: World, id: nat, kind: Kind, total: nat, n: nat)
    requires Inv(w) && id !in w.sizes && n <= total && total > 0 && !Stops(w.driver, kind, n, total)
    ensures Indexed(w.e)
    ensures var e', q := Submit(w.e, id, kind, total, n), w.e.queue;
            && |q| <= |e'.queue| <= |q| + 1 && e'.queue[..|q|] == q
            && (forall k :: 0 <= k < |q| ==> q[k] < |e'.slots| && e'.slots[q[k]] == w.e.slots[q[k]])
            && (|e'.queue| == |q| + 1 ==> e'.queue[|q|] < |e'.slots| && e'.slots[e'.queue[|q|]].id == id)
  {
    hide AllSound, WireLive, IdsDistinct, WellReported, NoneForgotten, Submit, AllocSlot;
    SubmitFresh(w, id, kind, total, n);
  }
}
