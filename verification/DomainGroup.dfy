/** A transfer is split into writes on several domains; the group counts their completions and
    tells the caller once. Above it, callbacks are looked up by transfer and removed when run. */
module DomainGroup {
  import opened Splitting

  /** Bookkeeping of one transfer: writes submitted, writes completed, and whether the caller
      gave a counter to be bumped instead of a callback. */
  datatype Entry = Entry(used: nat, count: nat, counted: bool)

  /** A completion from a domain. */
  datatype Event = Finished(id: nat) | Broken(id: nat)

  /** What the group passes on. */
  datatype Notice = Done(id: nat) | Failed(id: nat)

  /** Bookkeeping, notices passed on, and per transfer how often its counter was bumped for
      success and for failure. */
  datatype Group = Group(ops: map<nat, Entry>, notices: seq<Notice>, dones: map<nat, nat>, fails: map<nat, nat>)

  function Count(m: map<nat, nat>, id: nat): nat {
    if id in m then m[id] else 0
  }

  function Bump(m: map<nat, nat>, id: nat): map<nat, nat> {
    m[id := Count(m, id) + 1]
  }

  function Handle(s: Group, ev: Event): Group {
    match ev
    case Broken(id) =>
      s.(ops := s.ops - {id}, notices := s.notices + [Failed(id)],
         fails := if id in s.ops && s.ops[id].counted then Bump(s.fails, id) else s.fails)
    case Finished(id) =>
      if id !in s.ops then s
      else
        var e := s.ops[id].(count := s.ops[id].count + 1);
        if e.count != e.used then s.(ops := s.ops[id := e])
        else if e.counted then s.(ops := s.ops - {id}, dones := Bump(s.dones, id))
        else s.(ops := s.ops - {id}, notices := s.notices + [Done(id)])
  }

  function HandleAll(s: Group, evs: seq<Event>): Group {
    if |evs| == 0 then s else Handle(HandleAll(s, evs[..|evs| - 1]), evs[|evs| - 1])
  }

  /** The group object. */
  class Domains {
    const domains: nat
    var rrNext: nat
    var ops: map<nat, Entry>
    var notices: seq<Notice>
    var dones: map<nat, nat>
    var fails: map<nat, nat>

    function View(): Group
      reads this
    {
      Group(ops, notices, dones, fails)
    }

    constructor (n: nat)
      ensures domains == n && rrNext == 0 && View() == Group(map[], [], map[], map[])
    {
      domains, rrNext, ops, notices, dones, fails := n, 0, map[], [], map[], map[];
    }

    /** Start a transfer: the books get the number of writes made, except that a refused request
        for immediates leaves an entry behind if all its regions have the right number of keys. */
    method Submit(id: nat, req: Request, counted: bool) returns (o: Outcome)
      requires rrNext < domains && (req.SingleRequest? ==> ShardCount(req.routing) > 0)
      modifies this
      ensures rrNext < domains
      ensures o.verdict.Refused? <==> Refuses(req, domains)
      ensures o.verdict.Stopped? <==> !Refuses(req, domains) && Trips(req, domains)
      ensures o.verdict.Submitted? ==>
                && (req.ImmRequest? ==> ImmChunk(req.routing, |req.keys|, domains) > 0)
                && o.writes == WritesOf(req, domains, old(rrNext))
                && View() == old(View()).(ops := old(ops)[id := Entry(|o.writes|, 0, counted)])
      ensures !o.verdict.Submitted? ==>
                && o.writes == []
                && View() == if req.ImmRequest? && KeysMatch(req.keys, domains)
                             then old(View()).(ops := old(ops)[id := Entry(|req.keys|, 0, counted)]) else old(View())
    {
      hide WritesOf, ImmChunk, Refuses, KeysMatch;
      o := Split(req, domains, rrNext);
      rrNext := o.next;
      if o.entered.Some? {
        ops := ops[id := Entry(o.entered.value, 0, counted)];
      }
    }

    /** Take one completion from a domain. */
    method OnCompletion(ev: Event)
      modifies this
      ensures View() == Handle(old(View()), ev)
    {
      match ev {
        case Broken(id) =>
          if id in ops && ops[id].counted {
            fails := Bump(fails, id);
          }
          ops := ops - {id};
          notices := notices + [Failed(id)];
        case Finished(id) =>
          if id in ops {
            var e := ops[id].(count := ops[id].count + 1);
            if e.used == e.count {
              ops := ops - {id};
              if e.counted {
                dones := Bump(dones, id);
              } else {
                notices := notices + [Done(id)];
              }
            } else {
              ops := ops[id := e];
            }
          }
      }
    }
  }

  /** One transfer by itself: waiting with some writes complete, done, or failed. */
  datatype Fate = Waiting(count: nat) | Completed | Aborted

  /** The story of transfer `id` in a stream of completions of all transfers. */
  function Story(used: nat, evs: seq<Event>, id: nat): Fate {
    if |evs| == 0 then Waiting(0)
    else
      var before, ev := Story(used, evs[..|evs| - 1], id), evs[|evs| - 1];
      if ev.id != id || !before.Waiting? then before
      else if ev.Broken? then Aborted
      else if before.count + 1 == used then Completed else Waiting(before.count + 1)
  }

  /** The state's view of transfer `id` agrees with its story. */
  predicate Tells(s: Group, fate: Fate, used: nat, counted: bool, id: nat) {
    && (match fate
        case Waiting(n) => id in s.ops && s.ops[id] == Entry(used, n, counted)
        case Completed => id !in s.ops
        case Aborted => id !in s.ops)
    && Count(s.dones, id) == (if fate == Completed && counted then 1 else 0)
    && Count(s.fails, id) == (if fate == Aborted && counted then 1 else 0)
    && (Done(id) in s.notices <==> fate == Completed && !counted)
    && (fate.Aborted? ==> Failed(id) in s.notices)
    && (Failed(id) in s.notices && !counted ==> !fate.Waiting?)
  }

  lemma HandleTells(s: Group, before: Fate, ev: Event, used: nat, counted: bool, id: nat, after: Fate)
    requires Tells(s, before, used, counted, id)
    requires after == (if ev.id != id || !before.Waiting? then before
                       else if ev.Broken? then Aborted
                       else if before.count + 1 == used then Completed else Waiting(before.count + 1))
    ensures Tells(Handle(s, ev), after, used, counted, id)
  {
  }

  /** For any number of transfers in flight and any interleaving of their completions, each
      transfer's bookkeeping follows its own story. */
  lemma {:induction false} StoryTold(s: Group, evs: seq<Event>, id: nat, used: nat, counted: bool)
    requires id in s.ops && s.ops[id] == Entry(used, 0, counted)
    requires Count(s.dones, id) == 0 && Count(s.fails, id) == 0 && Done(id) !in s.notices && Failed(id) !in s.notices
    ensures Tells(HandleAll(s, evs), Story(used, evs, id), used, counted, id)
    decreases |evs|
  {
    hide Handle;
    if |evs| > 0 {
      hide Tells;
      var front := evs[..|evs| - 1];
      StoryTold(s, front, id, used, counted);
      HandleTells(HandleAll(s, front), Story(used, front, id), evs[|evs| - 1], used, counted, id, Story(used, evs, id));
    }
  }

  /** Completions of `id` among the first `k` events. */
  function FinishedBy(evs: seq<Event>, id: nat, k: nat): nat
    requires k <= |evs|
  {
    if k == 0 then 0 else FinishedBy(evs, id, k - 1) + if evs[k - 1] == Finished(id) then 1 else 0
  }

  /** No failure of `id` among the first `k` events. */
  predicate NoneBroken(evs: seq<Event>, id: nat, k: nat)
    requires k <= |evs|
  {
    forall i :: 0 <= i < k ==> evs[i] != Broken(id)
  }

  lemma {:induction false} StoryIs(used: nat, evs: seq<Event>, id: nat)
    requires used > 0
    ensures match Story(used, evs, id)
            case Waiting(n) => n == FinishedBy(evs, id, |evs|) < used && NoneBroken(evs, id, |evs|)
            case Completed => exists k :: 0 <= k <= |evs| && FinishedBy(evs, id, k) == used && NoneBroken(evs, id, k)
            case Aborted => exists k :: 0 <= k < |evs| && evs[k] == Broken(id) && FinishedBy(evs, id, k) < used
    decreases |evs|
  {
    if |evs| > 0 {
      var front := evs[..|evs| - 1];
      StoryIs(used, front, id);
      forall k | 0 <= k <= |front| ensures FinishedBy(front, id, k) == FinishedBy(evs, id, k) {
        FinishedFront(evs, id, k);
      }
      if Story(used, evs, id).Completed? && Story(used, front, id).Waiting? {
        assert FinishedBy(evs, id, |evs|) == used && NoneBroken(evs, id, |evs|);
      }
      if Story(used, front, id).Completed? {
        var k :| 0 <= k <= |front| && FinishedBy(front, id, k) == used && NoneBroken(front, id, k);
        assert FinishedBy(evs, id, k) == used && NoneBroken(evs, id, k);
      }
    }
  }

  lemma {:induction false} FinishedFront(evs: seq<Event>, id: nat, k: nat)
    requires |evs| > 0 && k <= |evs| - 1
    ensures FinishedBy(evs[..|evs| - 1], id, k) == FinishedBy(evs, id, k)
  {
    if k > 0 {
      FinishedFront(evs, id, k - 1);
    }
  }

  lemma {:induction false} FinishedMonotone(evs: seq<Event>, id: nat, j: nat, k: nat)
    requires j <= k <= |evs|
    ensures FinishedBy(evs, id, j) <= FinishedBy(evs, id, k)
    decreases k
  {
    if j < k {
      FinishedMonotone(evs, id, j, k - 1);
    }
  }

  /** A transfer is signalled done exactly when all its writes complete before any of them
      fails; and its counter moves at most once, whichever way it ends. */
  lemma DoneIff(s: Group, evs: seq<Event>, id: nat, used: nat, counted: bool)
    requires used > 0 && id in s.ops && s.ops[id] == Entry(used, 0, counted)
    requires Count(s.dones, id) == 0 && Count(s.fails, id) == 0 && Done(id) !in s.notices && Failed(id) !in s.notices
    ensures var s' := HandleAll(s, evs);
            && (Done(id) in s'.notices || Count(s'.dones, id) > 0
                <==> exists k :: 0 <= k <= |evs| && FinishedBy(evs, id, k) == used && NoneBroken(evs, id, k))
            && Count(s'.dones, id) + Count(s'.fails, id) <= 1
  {
    hide Handle, HandleAll;
    StoryTold(s, evs, id, used, counted);
    StoryIs(used, evs, id);
    if k :| 0 <= k <= |evs| && FinishedBy(evs, id, k) == used && NoneBroken(evs, id, k) {
      FinishedMonotone(evs, id, k, |evs|);
      if Story(used, evs, id).Aborted? {
        var b :| 0 <= b < |evs| && evs[b] == Broken(id) && FinishedBy(evs, id, b) < used;
        FinishedMonotone(evs, id, k, b);
      }
    }
  }

  /** A transfer for which no write completes or fails, because none was made, stays in the books
      for ever; it is never signalled, done or failed, and its counter never moves. */
  lemma {:induction false} NeverSignalled(s: Group, evs: seq<Event>, id: nat)
    requires id in s.ops && forall i :: 0 <= i < |evs| ==> evs[i].id != id
    ensures var s' := HandleAll(s, evs);
            && id in s'.ops && s'.ops[id] == s.ops[id]
            && (Done(id) in s'.notices <==> Done(id) in s.notices) && (Failed(id) in s'.notices <==> Failed(id) in s.notices)
            && Count(s'.dones, id) == Count(s.dones, id) && Count(s'.fails, id) == Count(s.fails, id)
    decreases |evs|
  {
    hide Handle;
    if |evs| > 0 {
      NeverSignalled(s, evs[..|evs| - 1], id);
      HandleOther(HandleAll(s, evs[..|evs| - 1]), evs[|evs| - 1], id);
    }
  }

  lemma HandleOther(s: Group, ev: Event, id: nat)
    requires id in s.ops && ev.id != id
    ensures var s' := Handle(s, ev);
            && id in s'.ops && s'.ops[id] == s.ops[id]
            && (Done(id) in s'.notices <==> Done(id) in s.notices) && (Failed(id) in s'.notices <==> Failed(id) in s.notices)
            && Count(s'.dones, id) == Count(s.dones, id) && Count(s'.fails, id) == Count(s.fails, id)
  {
  }

  /** A paged request without pages is such a transfer: it is accepted with no writes. */
  lemma EmptyNeverDone(s: Group, domains: nat, next: nat, evs: seq<Event>, id: nat, counted: bool)
    requires domains > 0 && next < domains && forall i :: 0 <= i < |evs| ==> evs[i].id != id
    requires Count(s.dones, id) == 0 && Done(id) !in s.notices
    ensures var req := PagedRequest(domains, 0, 0);
            && !Refuses(req, domains) && !Trips(req, domains) && WritesOf(req, domains, next) == []
            && var s' := HandleAll(s.(ops := s.ops[id := Entry(0, 0, counted)]), evs);
            && id in s'.ops && Done(id) !in s'.notices && Count(s'.dones, id) == 0
  {
    hide HandleAll, WritesOf;
    EmptyIff(PagedRequest(domains, 0, 0), domains, next);
    NeverSignalled(s.(ops := s.ops[id := Entry(0, 0, counted)]), evs, id);
  }

  /** How often a notice is among `ns`, and an event among `evs`. */
  function NoticeCount(ns: seq<Notice>, n: Notice): nat {
    if |ns| == 0 then 0 else NoticeCount(ns[..|ns| - 1], n) + if ns[|ns| - 1] == n then 1 else 0
  }

  function EventCount(evs: seq<Event>, ev: Event): nat {
    if |evs| == 0 then 0 else EventCount(evs[..|evs| - 1], ev) + if evs[|evs| - 1] == ev then 1 else 0
  }

  lemma NoticeAdded(ns: seq<Notice>, added: Notice, n: Notice)
    ensures NoticeCount(ns + [added], n) == NoticeCount(ns, n) + if added == n then 1 else 0
  {
    assert (ns + [added])[..|ns|] == ns;
  }

  /** Failures are passed on one by one, whether or not the transfer is still in the books. */
  lemma {:induction false} FailuresPassedOn(s: Group, evs: seq<Event>, id: nat)
    ensures NoticeCount(HandleAll(s, evs).notices, Failed(id)) == NoticeCount(s.notices, Failed(id)) + EventCount(evs, Broken(id))
    decreases |evs|
  {
    hide NoticeCount;
    if |evs| > 0 {
      var front, ev := evs[..|evs| - 1], evs[|evs| - 1];
      FailuresPassedOn(s, front, id);
      var before := HandleAll(s, front);
      NoticeAdded(before.notices, Failed(ev.id), Failed(id));
      NoticeAdded(before.notices, Done(ev.id), Failed(id));
    }
  }

  /** And done is passed on at most once. */
  lemma {:induction false} DoneOnce(s: Group, evs: seq<Event>, id: nat)
    ensures NoticeCount(HandleAll(s, evs).notices, Done(id)) <= NoticeCount(s.notices, Done(id)) + if id in s.ops then 1 else 0
    ensures id in HandleAll(s, evs).ops ==>
              id in s.ops && NoticeCount(HandleAll(s, evs).notices, Done(id)) == NoticeCount(s.notices, Done(id))
    decreases |evs|
  {
    hide NoticeCount;
    if |evs| > 0 {
      var front, ev := evs[..|evs| - 1], evs[|evs| - 1];
      DoneOnce(s, front, id);
      var before := HandleAll(s, front);
      NoticeAdded(before.notices, Failed(ev.id), Done(id));
      NoticeAdded(before.notices, Done(ev.id), Done(id));
    }
  }

  /** The callback layer: callbacks by transfer, and a record of the ones that ran. */
  datatype Callbacks = Callbacks(waiting: set<nat>, ran: seq<Notice>)

  /** A notice runs the matching half of the callback, if it is still there. */
  function Dispatch(c: Callbacks, n: Notice): Callbacks {
    if n.id in c.waiting then Callbacks(c.waiting - {n.id}, c.ran + [n]) else c
  }

  function DispatchAll(c: Callbacks, ns: seq<Notice>): Callbacks {
    if |ns| == 0 then c else Dispatch(DispatchAll(c, ns[..|ns| - 1]), ns[|ns| - 1])
  }

  predicate RanOnce(c: Callbacks) {
    && (forall i :: 0 <= i < |c.ran| ==> c.ran[i].id !in c.waiting)
    && (forall i, j :: 0 <= i < j < |c.ran| ==> c.ran[i].id != c.ran[j].id)
  }

  /** At most one of a transfer's two callbacks ever runs, and at most once. */
  lemma {:induction false} CallbackOnce(c: Callbacks, ns: seq<Notice>)
    requires RanOnce(c)
    ensures RanOnce(DispatchAll(c, ns)) && DispatchAll(c, ns).waiting <= c.waiting
    decreases |ns|
  {
    if |ns| > 0 {
      CallbackOnce(c, ns[..|ns| - 1]);
    }
  }

  /** And the first notice decides which. */
  lemma {:induction false} FirstNoticeRuns(c: Callbacks, ns: seq<Notice>, k: nat)
    requires k < |ns| && ns[k].id in c.waiting && forall i :: 0 <= i < k ==> ns[i].id != ns[k].id
    ensures ns[k] in DispatchAll(c, ns).ran
    decreases |ns|
  {
    var front := ns[..|ns| - 1];
    if k < |ns| - 1 {
      FirstNoticeRuns(c, front, k);
    } else {
      StillWaiting(c, front, ns[k].id);
    }
  }

  lemma {:induction false} StillWaiting(c: Callbacks, ns: seq<Notice>, id: nat)
    requires id in c.waiting && forall i :: 0 <= i < |ns| ==> ns[i].id != id
    ensures id in DispatchAll(c, ns).waiting
    decreases |ns|
  {
    if |ns| > 0 {
      StillWaiting(c, ns[..|ns| - 1], id);
    }
  }
}
