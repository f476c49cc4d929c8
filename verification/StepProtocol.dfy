/** All ranks running the worker's step loop over an unordered network. */
module StepProtocol {

  // A rank only ever waits for numbers of immediates, which carry no sender and no step. The
  // results below say what those counts nevertheless guarantee in every reachable state, for
  // any number of ranks and any order of delivery.

  /** Messages: writes that raise one of a rank's five immediate counters. */
  datatype Class = Route | Private | Overflow | BarrierD | Combine | BarrierC

  /** The events of one step, in program order:
       0  submit routing info            1  submit private scatter
       2  wait for routing info          3  submit overflow scatter
       4  wait for dispatch immediates   5  receive kernel done reading
       6  submit dispatch barrier        7  wait for dispatch barrier
       8  submit combine scatter         9  wait for combine immediates
      10  combine kernel done reading   11  submit combine barrier
      12  wait for combine barrier */
  const LAST: nat := 12

  function SubmitAt(c: Class): nat {
    match c case Route => 0 case Private => 1 case Overflow => 3 case BarrierD => 6 case Combine => 8 case BarrierC => 11
  }

  predicate IsWait(e: nat) {
    e == 2 || e == 4 || e == 7 || e == 9 || e == 12
  }

  /** The class counted by wait `e`; wait 4 counts overflow writes as well. */
  function CountedBy(e: nat): Class
    requires IsWait(e)
  {
    if e == 2 then Route else if e == 4 then Private else if e == 7 then BarrierD else if e == 9 then Combine else BarrierC
  }

  /** `load(c, s, p, j)`: immediates of class `c` that rank `s` sends to `p` in step `j`.
      `need(e, p, j)`: what `p` waits for at event `e` of step `j`.
      `submits(e, r, j)`: transfers that `r` hands to the engine at event `e` of step `j`.
      `settles(e, r, j)`: transfers whose completion `r` waits for at barrier `e`. */
  datatype Net = Net(n: nat, load: (Class, nat, nat, nat) -> nat, need: (nat, nat, nat) -> nat,
                     submits: (nat, nat, nat) -> nat, settles: (nat, nat, nat) -> nat)

  /** Immediates of class `c` from `s` to `p` in steps before `k`. */
  function Cum(net: Net, c: Class, s: nat, p: nat, k: nat): nat {
    if k == 0 then 0 else Cum(net, c, s, p, k - 1) + net.load(c, s, p, k - 1)
  }

  function CumNeed(net: Net, e: nat, p: nat, k: nat): nat {
    if k == 0 then 0 else CumNeed(net, e, p, k - 1) + net.need(e, p, k - 1)
  }

  /** What `s` contributes to wait `e` of `p` in step `j`, and in all steps before `k`. */
  function StepLoad(net: Net, e: nat, s: nat, p: nat, j: nat): nat
    requires IsWait(e)
  {
    net.load(CountedBy(e), s, p, j) + (if e == 4 then net.load(Overflow, s, p, j) else 0)
  }

  function LoadFrom(net: Net, e: nat, s: nat, p: nat, k: nat): nat
    requires IsWait(e)
  {
    Cum(net, CountedBy(e), s, p, k) + (if e == 4 then Cum(net, Overflow, s, p, k) else 0)
  }

  function StepLoads(net: Net, e: nat, p: nat, j: nat, m: nat): nat
    requires IsWait(e)
  {
    if m == 0 then 0 else StepLoads(net, e, p, j, m - 1) + StepLoad(net, e, m - 1, p, j)
  }

  function Loads(net: Net, e: nat, p: nat, k: nat, m: nat): nat
    requires IsWait(e)
  {
    if m == 0 then 0 else Loads(net, e, p, k, m - 1) + LoadFrom(net, e, m - 1, p, k)
  }

  /** In every step, what every rank waits for at event `e` is what it will be sent. */
  ghost predicate Balanced(net: Net, e: nat)
    requires IsWait(e)
  {
    forall p: nat, j: nat :: p < net.n ==> net.need(e, p, j) == StepLoads(net, e, p, j, net.n)
  }

  /** The barriers are balanced, and one immediate to everybody else. */
  ghost predicate Fenced(net: Net) {
    && Balanced(net, 7) && Balanced(net, 12)
    && (forall s: nat, p: nat, j: nat :: s < net.n && p < net.n ==> net.load(BarrierD, s, p, j) == if s == p then 0 else 1)
    && (forall s: nat, p: nat, j: nat :: s < net.n && p < net.n ==> net.load(BarrierC, s, p, j) == if s == p then 0 else 1)
  }

  /** Nobody ever waits for more than will be sent. */
  ghost predicate Served(net: Net) {
    forall e, p: nat, j: nat :: IsWait(e) && p < net.n ==> net.need(e, p, j) <= StepLoads(net, e, p, j, net.n)
  }

  /** Where every rank is, what has been delivered, and how many transfers have completed. */
  datatype State = State(step: seq<nat>, pc: seq<nat>, got: (Class, nat, nat) -> nat, tx: seq<nat>)

  predicate Shaped(net: Net, st: State) {
    |st.step| == |st.pc| == |st.tx| == net.n && forall r :: 0 <= r < net.n ==> st.pc[r] <= LAST
  }

  /** How often rank `r` has completed event `e`. */
  function Done(st: State, e: nat, r: nat): nat
    requires r < |st.step| == |st.pc|
  {
    st.step[r] + if st.pc[r] > e then 1 else 0
  }

  function Sent(net: Net, st: State, c: Class, s: nat, p: nat): nat
    requires s < |st.step| == |st.pc|
  {
    Cum(net, c, s, p, Done(st, SubmitAt(c), s))
  }

  function GotFrom(st: State, e: nat, s: nat, p: nat): nat
    requires IsWait(e)
  {
    st.got(CountedBy(e), s, p) + (if e == 4 then st.got(Overflow, s, p) else 0)
  }

  function GotTotal(st: State, e: nat, p: nat, m: nat): nat
    requires IsWait(e)
  {
    if m == 0 then 0 else GotTotal(st, e, p, m - 1) + GotFrom(st, e, m - 1, p)
  }

  /** Transfers submitted, and transfers waited for, when the events below `e` of step `k` are done. */
  function Submitted(net: Net, r: nat, k: nat, e: nat): nat
    decreases k, e
  {
    if e > 0 then Submitted(net, r, k, e - 1) + net.submits(e - 1, r, k)
    else if k > 0 then Submitted(net, r, k - 1, LAST + 1) else 0
  }

  function Settled(net: Net, r: nat, k: nat, e: nat): nat
    decreases k, e
  {
    if e > 0 then Settled(net, r, k, e - 1) + net.settles(e - 1, r, k)
    else if k > 0 then Settled(net, r, k - 1, LAST + 1) else 0
  }

  /** A wait subtracts what it needs from the counter and goes on once the counter is not
      negative: once the immediates delivered so far cover everything waited for so far. A
      barrier does the same with the counter of completed transfers. */
  predicate Enabled(net: Net, st: State, r: nat)
    requires Shaped(net, st) && r < net.n
  {
    var e, k := st.pc[r], st.step[r];
    IsWait(e) ==>
      && GotTotal(st, e, r, net.n) >= CumNeed(net, e, r, k + 1)
      && st.tx[r] >= Settled(net, r, k, e + 1)
  }

  /** Rank `r` completes its next event. */
  ghost predicate Advance(net: Net, st: State, st': State, r: nat)
    requires Shaped(net, st) && r < net.n
  {
    && Enabled(net, st, r)
    && (forall c, s: nat, p: nat :: st'.got(c, s, p) == st.got(c, s, p)) && st'.tx == st.tx
    && (if st.pc[r] < LAST then st'.step == st.step && st'.pc == st.pc[r := st.pc[r] + 1]
        else st'.step == st.step[r := st.step[r] + 1] && st'.pc == st.pc[r := 0])
  }

  /** Any message in flight is delivered. */
  ghost predicate Deliver(net: Net, st: State, st': State, c: Class, s: nat, p: nat)
    requires Shaped(net, st)
  {
    && s < net.n && p < net.n && st.got(c, s, p) < Sent(net, st, c, s, p)
    && st'.step == st.step && st'.pc == st.pc && st'.tx == st.tx
    && (forall c', s': nat, p': nat :: st'.got(c', s', p') == st.got(c', s', p') + if (c', s', p') == (c, s, p) then 1 else 0)
  }

  /** One of the rank's transfers completes. */
  ghost predicate Complete(net: Net, st: State, st': State, r: nat)
    requires Shaped(net, st)
  {
    && r < net.n && st.tx[r] < Submitted(net, r, st.step[r], st.pc[r])
    && st'.step == st.step && st'.pc == st.pc && st'.tx == st.tx[r := st.tx[r] + 1]
    && (forall c, s: nat, p: nat :: st'.got(c, s, p) == st.got(c, s, p))
  }

  ghost predicate Init(net: Net, st: State) {
    && Shaped(net, st)
    && (forall r :: 0 <= r < net.n ==> st.step[r] == 0 && st.pc[r] == 0 && st.tx[r] == 0)
    && (forall c, s: nat, p: nat :: st.got(c, s, p) == 0)
  }

  ghost predicate Next(net: Net, st: State, st': State) {
    && Shaped(net, st)
    && (|| (exists r: nat :: r < net.n && Advance(net, st, st', r))
        || (exists c, s: nat, p: nat :: Deliver(net, st, st', c, s, p))
        || (exists r: nat :: Complete(net, st, st', r)))
  }

  /** No rank has passed a barrier that another rank has not reached. */
  ghost predicate BarriersHold(net: Net, st: State)
    requires Shaped(net, st)
  {
    forall r, s :: 0 <= r < net.n && 0 <= s < net.n ==>
      Done(st, 7, r) <= Done(st, 6, s) && Done(st, 12, r) <= Done(st, 11, s)
  }

  ghost predicate OnlySent(net: Net, st: State)
    requires Shaped(net, st)
  {
    forall c, s: nat, p: nat :: s < net.n && p < net.n ==> st.got(c, s, p) <= Sent(net, st, c, s, p)
  }

  /** Every wait that was passed was covered by deliveries. */
  ghost predicate WaitsCovered(net: Net, st: State)
    requires Shaped(net, st)
  {
    forall e, p: nat :: IsWait(e) && p < net.n ==> GotTotal(st, e, p, net.n) >= CumNeed(net, e, p, Done(st, e, p))
  }

  ghost predicate Inv(net: Net, st: State) {
    Shaped(net, st) && BarriersHold(net, st) && OnlySent(net, st) && WaitsCovered(net, st)
  }

  lemma {:induction false} CumMonotone(net: Net, c: Class, s: nat, p: nat, j: nat, k: nat)
    requires j <= k
    ensures Cum(net, c, s, p, j) <= Cum(net, c, s, p, k)
    decreases k
  {
    if j < k {
      CumMonotone(net, c, s, p, j, k - 1);
    }
  }

  lemma {:induction false} BarrierCum(net: Net, c: Class, s: nat, p: nat, k: nat)
    requires Fenced(net) && (c == BarrierD || c == BarrierC) && s != p && s < net.n && p < net.n
    ensures Cum(net, c, s, p, k) == k
  {
    if k > 0 {
      BarrierCum(net, c, s, p, k - 1);
    }
  }

  lemma {:induction false} LoadsStep(net: Net, e: nat, p: nat, k: nat, m: nat)
    requires IsWait(e)
    ensures Loads(net, e, p, k + 1, m) == Loads(net, e, p, k, m) + StepLoads(net, e, p, k, m)
  {
    if m > 0 {
      LoadsStep(net, e, p, k, m - 1);
    }
  }

  lemma {:induction false} LoadsNone(net: Net, e: nat, p: nat, m: nat)
    requires IsWait(e)
    ensures Loads(net, e, p, 0, m) == 0
  {
    if m > 0 {
      LoadsNone(net, e, p, m - 1);
    }
  }

  /** Over any number of steps, needs and loads agree. */
  lemma {:induction false} NeedIsLoad(net: Net, e: nat, p: nat, k: nat)
    requires IsWait(e) && Balanced(net, e) && p < net.n
    ensures CumNeed(net, e, p, k) == Loads(net, e, p, k, net.n)
  {
    if k == 0 {
      LoadsNone(net, e, p, net.n);
    } else {
      NeedIsLoad(net, e, p, k - 1);
      LoadsStep(net, e, p, k - 1, net.n);
    }
  }

  lemma {:induction false} NeedWithinLoad(net: Net, e: nat, p: nat, k: nat)
    requires Served(net) && IsWait(e) && p < net.n
    ensures CumNeed(net, e, p, k) <= Loads(net, e, p, k, net.n)
  {
    if k == 0 {
      LoadsNone(net, e, p, net.n);
    } else {
      NeedWithinLoad(net, e, p, k - 1);
      LoadsStep(net, e, p, k - 1, net.n);
    }
  }

  /** Shares that are each at most their due and together at least the total are all exact. */
  lemma {:induction false} Tight(net: Net, st: State, e: nat, p: nat, k: nat, m: nat)
    requires IsWait(e)
    requires forall s: nat :: s < m ==> GotFrom(st, e, s, p) <= LoadFrom(net, e, s, p, k)
    requires GotTotal(st, e, p, m) >= Loads(net, e, p, k, m)
    ensures GotTotal(st, e, p, m) == Loads(net, e, p, k, m)
    ensures forall s: nat :: s < m ==> GotFrom(st, e, s, p) == LoadFrom(net, e, s, p, k)
  {
    hide GotFrom, LoadFrom;
    if m > 0 {
      AtMost(net, st, e, p, k, m - 1);
      Tight(net, st, e, p, k, m - 1);
    }
  }

  lemma {:induction false} AtMost(net: Net, st: State, e: nat, p: nat, k: nat, m: nat)
    requires IsWait(e)
    requires forall s: nat :: s < m ==> GotFrom(st, e, s, p) <= LoadFrom(net, e, s, p, k)
    ensures GotTotal(st, e, p, m) <= Loads(net, e, p, k, m)
  {
    hide GotFrom, LoadFrom;
    if m > 0 {
      AtMost(net, st, e, p, k, m - 1);
    }
  }

  /** What a sender has sent so far is within its share of `k` steps if it has submitted at
      most `k` times. */
  lemma WithinShare(net: Net, st: State, e: nat, s: nat, p: nat, k: nat)
    requires Inv(net, st) && IsWait(e) && s < net.n && p < net.n
    requires Done(st, SubmitAt(CountedBy(e)), s) <= k && (e == 4 ==> Done(st, SubmitAt(Overflow), s) <= k)
    ensures GotFrom(st, e, s, p) <= LoadFrom(net, e, s, p, k)
  {
    hide BarriersHold, WaitsCovered, Cum;
    CumMonotone(net, CountedBy(e), s, p, Done(st, SubmitAt(CountedBy(e)), s), k);
    if e == 4 {
      CumMonotone(net, Overflow, s, p, Done(st, SubmitAt(Overflow), s), k);
    }
    assert st.got(CountedBy(e), s, p) <= Sent(net, st, CountedBy(e), s, p);
    assert st.got(Overflow, s, p) <= Sent(net, st, Overflow, s, p);
  }

  /** The counting argument at the heart of the protocol: if nobody has started step `k` of
      what wait `e` counts, then a wait satisfied for `k` steps pins down every sender. */
  lemma AllArrived(net: Net, st: State, e: nat, p: nat, k: nat)
    requires IsWait(e) && Balanced(net, e) && Inv(net, st) && p < net.n
    requires GotTotal(st, e, p, net.n) >= CumNeed(net, e, p, k)
    requires forall s: nat :: s < net.n ==>
               Done(st, SubmitAt(CountedBy(e)), s) <= k && (e == 4 ==> Done(st, SubmitAt(Overflow), s) <= k)
    ensures forall s: nat :: s < net.n ==> GotFrom(st, e, s, p) == LoadFrom(net, e, s, p, k)
  {
    hide Inv, Done, GotFrom, LoadFrom, GotTotal, Loads, CumNeed, Balanced;
    NeedIsLoad(net, e, p, k);
    forall s: nat | s < net.n ensures GotFrom(st, e, s, p) <= LoadFrom(net, e, s, p, k) {
      WithinShare(net, st, e, s, p, k);
    }
    Tight(net, st, e, p, k, net.n);
  }

  lemma DoneNext(net: Net, st: State, st': State, r: nat, e: nat, s: nat)
    requires Shaped(net, st) && r < net.n && s < net.n && e <= LAST && Advance(net, st, st', r)
    ensures Shaped(net, st')
    ensures Done(st', e, s) == Done(st, e, s) + if s == r && e == st.pc[r] then 1 else 0
  {
    hide Enabled;
  }

  /** How far the others can be when rank `r` waits at a barrier. */
  lemma BarrierBounds(net: Net, st: State, r: nat, s: nat)
    requires Inv(net, st) && r < net.n && s < net.n && (st.pc[r] == 7 || st.pc[r] == 12)
    ensures Done(st, st.pc[r] - 1, s) <= st.step[r] + 1
  {
    hide OnlySent, WaitsCovered;
    assert Done(st, 12, s) <= Done(st, 11, r);
    assert Done(st, 7, s) <= Done(st, 6, r);
  }

  /** Passing a barrier: everyone else has already submitted it. */
  lemma BarrierReached(net: Net, st: State, r: nat, s: nat)
    requires Fenced(net) && Inv(net, st) && r < net.n && s < net.n && (st.pc[r] == 7 || st.pc[r] == 12)
    requires Enabled(net, st, r)
    ensures Done(st, st.pc[r] - 1, s) >= st.step[r] + 1
  {
    hide GotTotal, CumNeed, Settled, BarriersHold, WaitsCovered, Cum, Balanced;
    var e, k := st.pc[r], st.step[r] + 1;
    forall q: nat | q < net.n ensures Done(st, SubmitAt(CountedBy(e)), q) <= k {
      BarrierBounds(net, st, r, q);
    }
    AllArrived(net, st, e, r, k);
    if s != r {
      assert GotFrom(st, e, s, r) == LoadFrom(net, e, s, r, k);
      BarrierCum(net, CountedBy(e), s, r, k);
      BarrierCum(net, CountedBy(e), s, r, Done(st, e - 1, s));
      assert st.got(CountedBy(e), s, r) <= Sent(net, st, CountedBy(e), s, r);
    }
  }

  lemma AdvanceBarriers(net: Net, st: State, st': State, r: nat)
    requires Fenced(net) && Inv(net, st) && r < net.n && Advance(net, st, st', r)
    ensures Shaped(net, st') && BarriersHold(net, st')
  {
    hide OnlySent, WaitsCovered, Done, Fenced, Enabled;
    DoneNext(net, st, st', r, 0, r);
    forall q, s | 0 <= q < net.n && 0 <= s < net.n
      ensures Done(st', 7, q) <= Done(st', 6, s) && Done(st', 12, q) <= Done(st', 11, s)
    {
      AdvanceBarrier(net, st, st', r, q, s, 6);
      AdvanceBarrier(net, st, st', r, q, s, 11);
    }
  }

  lemma AdvanceBarrier(net: Net, st: State, st': State, r: nat, q: nat, s: nat, e: nat)
    requires Fenced(net) && Inv(net, st) && r < net.n && q < net.n && s < net.n && Advance(net, st, st', r)
    requires e == 6 || e == 11
    ensures Shaped(net, st') && Done(st', e + 1, q) <= Done(st', e, s)
  {
    hide OnlySent, WaitsCovered, Fenced, Enabled;
    DoneNext(net, st, st', r, e + 1, q);
    DoneNext(net, st, st', r, e, s);
    assert Done(st, e + 1, q) <= Done(st, e, s);
    if q == r && st.pc[r] == e + 1 {
      BarrierReached(net, st, r, s);
    }
  }

  lemma {:induction false} GotTotalGrows(st: State, st': State, e: nat, p: nat, m: nat)
    requires IsWait(e) && forall c, s: nat, q: nat :: st.got(c, s, q) <= st'.got(c, s, q)
    ensures GotTotal(st, e, p, m) <= GotTotal(st', e, p, m)
  {
    if m > 0 {
      GotTotalGrows(st, st', e, p, m - 1);
    }
  }

  lemma AdvanceRest(net: Net, st: State, st': State, r: nat)
    requires Inv(net, st) && r < net.n && Advance(net, st, st', r)
    ensures Shaped(net, st') && OnlySent(net, st') && WaitsCovered(net, st')
  {
    hide BarriersHold, Done, Cum, CumNeed, GotTotal, Settled;
    DoneNext(net, st, st', r, 0, r);
    forall c, s: nat, p: nat | s < net.n && p < net.n ensures st'.got(c, s, p) <= Sent(net, st', c, s, p) {
      DoneNext(net, st, st', r, SubmitAt(c), s);
      CumMonotone(net, c, s, p, Done(st, SubmitAt(c), s), Done(st', SubmitAt(c), s));
      assert st.got(c, s, p) <= Sent(net, st, c, s, p);
    }
    forall e, p: nat | IsWait(e) && p < net.n
      ensures GotTotal(st', e, p, net.n) >= CumNeed(net, e, p, Done(st', e, p))
    {
      AdvanceWait(net, st, st', r, e, p);
    }
  }

  lemma AdvanceWait(net: Net, st: State, st': State, r: nat, e: nat, p: nat)
    requires Inv(net, st) && r < net.n && Advance(net, st, st', r) && IsWait(e) && p < net.n
    ensures Shaped(net, st') && GotTotal(st', e, p, net.n) >= CumNeed(net, e, p, Done(st', e, p))
  {
    hide BarriersHold, OnlySent, Cum, CumNeed, GotTotal, Settled;
    DoneNext(net, st, st', r, e, p);
    GotTotalGrows(st, st', e, p, net.n);
    assert GotTotal(st, e, p, net.n) >= CumNeed(net, e, p, Done(st, e, p));
  }

  lemma QuietStep(net: Net, st: State, st': State)
    requires Inv(net, st) && st'.step == st.step && st'.pc == st.pc && |st'.tx| == |st.tx|
    requires forall c, s: nat, p: nat :: st.got(c, s, p) <= st'.got(c, s, p)
    requires Shaped(net, st') && OnlySent(net, st')
    ensures Inv(net, st')
  {
    hide OnlySent, Cum, CumNeed, GotTotal;
    forall r, s | 0 <= r < net.n && 0 <= s < net.n
      ensures Done(st', 7, r) <= Done(st', 6, s) && Done(st', 12, r) <= Done(st', 11, s)
    {
      assert Done(st, 7, r) <= Done(st, 6, s) && Done(st, 12, r) <= Done(st, 11, s);
    }
    forall e, p: nat | IsWait(e) && p < net.n
      ensures GotTotal(st', e, p, net.n) >= CumNeed(net, e, p, Done(st', e, p))
    {
      GotTotalGrows(st, st', e, p, net.n);
      assert GotTotal(st, e, p, net.n) >= CumNeed(net, e, p, Done(st, e, p));
    }
  }

  lemma DeliverKeeps(net: Net, st: State, st': State, c: Class, s: nat, p: nat)
    requires Inv(net, st) && Deliver(net, st, st', c, s, p)
    ensures Inv(net, st')
  {
    hide Cum, CumNeed, GotTotal, BarriersHold, WaitsCovered;
    forall c', s': nat, p': nat | s' < net.n && p' < net.n ensures st'.got(c', s', p') <= Sent(net, st', c', s', p') {
      assert st.got(c', s', p') <= Sent(net, st, c', s', p');
    }
    QuietStep(net, st, st');
  }

  lemma CompleteKeeps(net: Net, st: State, st': State, r: nat)
    requires Inv(net, st) && Complete(net, st, st', r)
    ensures Inv(net, st')
  {
    hide Cum, CumNeed, GotTotal, BarriersHold, WaitsCovered, Submitted;
    forall c', s': nat, p': nat | s' < net.n && p' < net.n ensures st'.got(c', s', p') <= Sent(net, st', c', s', p') {
      assert st.got(c', s', p') <= Sent(net, st, c', s', p');
    }
    QuietStep(net, st, st');
  }

  /** The invariant survives every step of every rank and of the network. */
  lemma NextKeeps(net: Net, st: State, st': State)
    requires Fenced(net) && Inv(net, st) && Next(net, st, st')
    ensures Inv(net, st')
  {
    hide Fenced, Shaped, BarriersHold, OnlySent, WaitsCovered, Advance, Deliver, Complete;
    if r: nat :| r < net.n && Advance(net, st, st', r) {
      AdvanceBarriers(net, st, st', r);
      AdvanceRest(net, st, st', r);
    } else if c, s: nat, p: nat :| Deliver(net, st, st', c, s, p) {
      DeliverKeeps(net, st, st', c, s, p);
    } else {
      var r: nat :| Complete(net, st, st', r);
      CompleteKeeps(net, st, st', r);
    }
  }

  lemma InitInv(net: Net, st: State)
    requires Init(net, st)
    ensures Inv(net, st)
  {
  }

  /** A run: a sequence of states from an initial one, each following from the one before. */
  ghost predicate Run(net: Net, run: seq<State>) {
    && |run| > 0 && Init(net, run[0])
    && forall i :: 0 < i < |run| ==> Next(net, run[i - 1], run[i])
  }

  /** Every rank at the start of its first step: runs begin here. */
  function Begin(net: Net): State {
    State(seq(net.n, _ => 0), seq(net.n, _ => 0), (c, s, p) => 0, seq(net.n, _ => 0))
  }

  lemma BeginRun(net: Net)
    ensures Run(net, [Begin(net)])
  {
  }

  lemma {:induction false} RunInv(net: Net, run: seq<State>, i: nat)
    requires Fenced(net) && Run(net, run) && i < |run|
    ensures Inv(net, run[i])
  {
    hide Balanced, Fenced, Inv, Next, Init;
    if i == 0 {
      InitInv(net, run[0]);
    } else {
      RunInv(net, run, i - 1);
      NextKeeps(net, run[i - 1], run[i]);
    }
  }

  /** No message of class `c` from `s` to `p` is in flight. */
  predicate Landed(net: Net, st: State, c: Class, s: nat, p: nat)
    requires Shaped(net, st) && s < net.n
  {
    st.got(c, s, p) == Sent(net, st, c, s, p)
  }

  /** When `p` is covered for `k` steps and nobody has gone beyond, everything has landed. */
  lemma CoveredLanded(net: Net, st: State, e: nat, s: nat, p: nat, k: nat)
    requires IsWait(e) && Balanced(net, e) && Inv(net, st) && s < net.n && p < net.n && Done(st, e, p) == k
    requires forall q: nat :: q < net.n ==>
               Done(st, SubmitAt(CountedBy(e)), q) <= k && (e == 4 ==> Done(st, SubmitAt(Overflow), q) <= k)
    ensures Landed(net, st, CountedBy(e), s, p) && Sent(net, st, CountedBy(e), s, p) == Cum(net, CountedBy(e), s, p, k)
    ensures e == 4 ==> Landed(net, st, Overflow, s, p) && Sent(net, st, Overflow, s, p) == Cum(net, Overflow, s, p, k)
  {
    hide Cum, CumNeed, GotTotal, Done, BarriersHold, Balanced;
    assert GotTotal(st, e, p, net.n) >= CumNeed(net, e, p, Done(st, e, p));
    AllArrived(net, st, e, p, k);
    assert GotFrom(st, e, s, p) == LoadFrom(net, e, s, p, k);
    CumMonotone(net, CountedBy(e), s, p, Done(st, SubmitAt(CountedBy(e)), s), k);
    assert st.got(CountedBy(e), s, p) <= Sent(net, st, CountedBy(e), s, p);
    assert st.got(Overflow, s, p) <= Sent(net, st, Overflow, s, p);
    if e == 4 {
      CumMonotone(net, Overflow, s, p, Done(st, SubmitAt(Overflow), s), k);
    }
  }

  /** While `p` is anywhere between its dispatch wait and its combine-barrier submission, in
      particular while it reads, all dispatch writes meant for it have landed, those of the
      current step included. */
  lemma DispatchWindow(net: Net, run: seq<State>, i: nat, s: nat, p: nat)
    requires Fenced(net) && Balanced(net, 4) && Run(net, run) && i < |run| && s < net.n && p < net.n
    ensures Inv(net, run[i])
    ensures 5 <= run[i].pc[p] <= 11 ==>
              && Landed(net, run[i], Private, s, p) && Landed(net, run[i], Overflow, s, p)
              && Sent(net, run[i], Private, s, p) == Cum(net, Private, s, p, run[i].step[p] + 1)
              && Sent(net, run[i], Overflow, s, p) == Cum(net, Overflow, s, p, run[i].step[p] + 1)
  {
    hide Balanced, Fenced, Run, OnlySent, WaitsCovered, Cum, Landed, Sent;
    RunInv(net, run, i);
    var st := run[i];
    if 5 <= st.pc[p] <= 11 {
      forall q: nat | q < net.n ensures Done(st, 1, q) <= st.step[p] + 1 && Done(st, 3, q) <= st.step[p] + 1 {
        assert Done(st, 12, q) <= Done(st, 11, p);
      }
      CoveredLanded(net, st, 4, s, p, st.step[p] + 1);
    }
  }

  /** Combine writes for `p` can be in flight only from its dispatch-barrier wait to its
      combine wait. */
  lemma CombineWindow(net: Net, run: seq<State>, i: nat, s: nat, p: nat)
    requires Fenced(net) && Balanced(net, 9) && Run(net, run) && i < |run| && s < net.n && p < net.n
    ensures Inv(net, run[i])
    ensures run[i].pc[p] <= 6 || 10 <= run[i].pc[p] ==>
              && Landed(net, run[i], Combine, s, p)
              && Sent(net, run[i], Combine, s, p) == Cum(net, Combine, s, p, Done(run[i], 9, p))
  {
    hide Balanced, Fenced, Run, OnlySent, WaitsCovered, Cum, Landed, Sent;
    RunInv(net, run, i);
    var st := run[i];
    if st.pc[p] <= 6 || 10 <= st.pc[p] {
      forall q: nat | q < net.n ensures Done(st, 8, q) <= Done(st, 9, p) {
        assert Done(st, 12, q) <= Done(st, 11, p);
        assert Done(st, 7, q) <= Done(st, 6, p);
      }
      CoveredLanded(net, st, 9, s, p, Done(st, 9, p));
    }
  }

  /** From its routing wait to its combine-barrier submission, in particular while it reads the
      table, all routing rows meant for `p` have landed, those of the current step included, and
      nobody has sent one of the next step. */
  lemma RouteWindow(net: Net, run: seq<State>, i: nat, s: nat, p: nat)
    requires Fenced(net) && Balanced(net, 2) && Run(net, run) && i < |run| && s < net.n && p < net.n
    ensures Inv(net, run[i])
    ensures 3 <= run[i].pc[p] <= 11 ==>
              && Landed(net, run[i], Route, s, p)
              && Sent(net, run[i], Route, s, p) == Cum(net, Route, s, p, run[i].step[p] + 1)
  {
    hide Balanced, Fenced, Run, OnlySent, WaitsCovered, Cum, Landed, Sent;
    RunInv(net, run, i);
    var st := run[i];
    if 3 <= st.pc[p] <= 11 {
      forall q: nat | q < net.n ensures Done(st, 0, q) <= st.step[p] + 1 {
        assert Done(st, 12, q) <= Done(st, 11, p);
      }
      CoveredLanded(net, st, 2, s, p, st.step[p] + 1);
    }
  }

  /** While any rank is between its dispatch barrier and its combine-barrier submission, no
      routing row is in flight anywhere. */
  lemma RoutesLanded(net: Net, st: State, r: nat, s: nat, p: nat)
    requires Balanced(net, 2) && Inv(net, st) && r < net.n && s < net.n && p < net.n && 8 <= st.pc[r] <= 11
    ensures Landed(net, st, Route, s, p)
  {
    hide Balanced, OnlySent, WaitsCovered, Cum, Landed, Sent;
    assert Done(st, 7, r) <= Done(st, 6, p);
    assert Done(st, 12, p) <= Done(st, 11, r);
    forall q: nat | q < net.n ensures Done(st, 0, q) <= st.step[r] + 1 {
      assert Done(st, 12, q) <= Done(st, 11, r);
    }
    CoveredLanded(net, st, 2, s, p, st.step[r] + 1);
  }

  /** The rows `s` has sent have landed whenever it is between its dispatch barrier and its next
      routing submission. */
  predicate RowFree(net: Net, st: State, s: nat, p: nat) {
    Shaped(net, st) && s < net.n && (st.pc[s] >= 8 || st.pc[s] == 0 ==> Landed(net, st, Route, s, p))
  }

  lemma RowFreeStep(net: Net, st: State, st': State, s: nat, p: nat)
    requires Balanced(net, 2) && Inv(net, st) && Inv(net, st') && Next(net, st, st') && s < net.n && p < net.n && RowFree(net, st, s, p)
    ensures RowFree(net, st', s, p)
  {
    hide Balanced, BarriersHold, WaitsCovered, Cum, Enabled, Settled, Submitted;
    if 8 <= st'.pc[s] <= 11 {
      RoutesLanded(net, st', s, s, p);
    } else {
      assert st'.got(Route, s, p) <= Sent(net, st', Route, s, p);
    }
  }

  /** The next dispatch kernel rewrites the rank's own row of the table once its combine kernel
      is done, without waiting for the completion counter or the barrier. It may: in every run,
      from a rank's dispatch barrier to its next routing submission, the rows it has sent from
      there have all landed, though no barrier waits for their completion. */
  lemma {:induction false} RouteRowFree(net: Net, run: seq<State>, i: nat, s: nat, p: nat)
    requires Fenced(net) && Balanced(net, 2) && Run(net, run) && i < |run| && s < net.n && p < net.n
    ensures Inv(net, run[i])
    ensures run[i].pc[s] >= 8 || run[i].pc[s] == 0 ==> Landed(net, run[i], Route, s, p)
    ensures RowFree(net, run[i], s, p)
  {
    hide Balanced, Fenced, Inv, Next, Init, Landed;
    RunInv(net, run, i);
    if i == 0 {
      RowFreeInit(net, run[0], s, p);
    } else {
      RouteRowFree(net, run, i - 1, s, p);
      RowFreeStep(net, run[i - 1], run[i], s, p);
    }
  }

  lemma RowFreeInit(net: Net, st: State, s: nat, p: nat)
    requires Init(net, st) && s < net.n
    ensures RowFree(net, st, s, p)
  {
  }

  /** Once any one rank has passed its dispatch barrier, and until it submits its combine
      barrier, no routing or dispatch write is in flight anywhere; from its combine barrier until
      its next dispatch barrier, no combine write is. So send buffers may be overwritten, whatever
      the completion counter says. */
  lemma Quiescent(net: Net, run: seq<State>, i: nat, r: nat, s: nat, p: nat)
    requires Fenced(net) && Run(net, run) && i < |run| && r < net.n && s < net.n && p < net.n
    ensures Inv(net, run[i])
    ensures Balanced(net, 2) && 8 <= run[i].pc[r] <= 11 ==> Landed(net, run[i], Route, s, p)
    ensures Balanced(net, 4) && 8 <= run[i].pc[r] <= 11 ==> Landed(net, run[i], Private, s, p) && Landed(net, run[i], Overflow, s, p)
    ensures Balanced(net, 9) && run[i].pc[r] <= 6 ==> Landed(net, run[i], Combine, s, p)
  {
    hide Balanced, Fenced, Run, OnlySent, WaitsCovered, Cum, Landed, Sent;
    RunInv(net, run, i);
    var st := run[i];
    assert Done(st, 7, r) <= Done(st, 6, p);
    assert Done(st, 12, r) <= Done(st, 11, p);
    assert Done(st, 12, p) <= Done(st, 11, r);
    assert Done(st, 7, p) <= Done(st, 6, r);
    if 8 <= st.pc[r] <= 11 {
      forall q: nat | q < net.n ensures Done(st, 1, q) <= st.step[r] + 1 && Done(st, 3, q) <= st.step[r] + 1 {
        assert Done(st, 12, q) <= Done(st, 11, r);
      }
      if Balanced(net, 4) {
        CoveredLanded(net, st, 4, s, p, st.step[r] + 1);
      }
      if Balanced(net, 2) {
        RoutesLanded(net, st, r, s, p);
      }
    }
    if Balanced(net, 9) && st.pc[r] <= 6 {
      forall q: nat | q < net.n ensures Done(st, 8, q) <= st.step[r] {
        assert Done(st, 7, q) <= Done(st, 6, r);
      }
      CoveredLanded(net, st, 9, s, p, st.step[r]);
    }
  }

  /** Passing the `k`-th barrier means every rank has finished its `k`-th receive; ranks are
      never more than one step apart. */
  lemma BarrierMeansFinished(net: Net, run: seq<State>, i: nat, r: nat, s: nat)
    requires Fenced(net) && Run(net, run) && i < |run| && r < net.n && s < net.n
    ensures Shaped(net, run[i])
    ensures Done(run[i], 7, r) <= Done(run[i], 5, s)
    ensures Done(run[i], 12, r) <= Done(run[i], 10, s)
    ensures run[i].step[r] <= run[i].step[s] + 1
  {
    hide Balanced, Fenced, Run, OnlySent, WaitsCovered;
    RunInv(net, run, i);
    assert Done(run[i], 7, r) <= Done(run[i], 6, s) && Done(run[i], 12, r) <= Done(run[i], 11, s);
  }

  /** A barrier never waits for more transfers than have been submitted. */
  ghost predicate Payable(net: Net) {
    forall r: nat, k: nat, e: nat :: IsWait(e) ==> Settled(net, r, k, e + 1) <= Submitted(net, r, k, e)
  }

  lemma {:induction false} Slowest(st: State, m: nat) returns (r: nat)
    requires 0 < m <= |st.step| == |st.pc|
    ensures r < m
    ensures forall s: nat :: s < m ==> st.step[r] < st.step[s] || (st.step[r] == st.step[s] && st.pc[r] <= st.pc[s])
  {
    if m == 1 {
      r := 0;
    } else {
      r := Slowest(st, m - 1);
      var q := m - 1;
      if st.step[q] < st.step[r] || (st.step[q] == st.step[r] && st.pc[q] < st.pc[r]) {
        r := q;
      }
    }
  }

  lemma {:induction false} AtLeast(net: Net, st: State, e: nat, p: nat, k: nat, m: nat)
    requires IsWait(e)
    requires forall s: nat :: s < m ==> GotFrom(st, e, s, p) >= LoadFrom(net, e, s, p, k)
    ensures GotTotal(st, e, p, m) >= Loads(net, e, p, k, m)
  {
    hide GotFrom, LoadFrom;
    if m > 0 {
      AtLeast(net, st, e, p, k, m - 1);
    }
  }

  /** A rank that is not behind `r` has sent its share of everything `r` waits for. */
  lemma ShareSent(net: Net, st: State, r: nat, s: nat)
    requires Shaped(net, st) && r < net.n && s < net.n && IsWait(st.pc[r])
    requires st.step[r] < st.step[s] || (st.step[r] == st.step[s] && st.pc[r] <= st.pc[s])
    requires forall c :: st.got(c, s, r) >= Sent(net, st, c, s, r)
    ensures GotFrom(st, st.pc[r], s, r) >= LoadFrom(net, st.pc[r], s, r, st.step[r] + 1)
  {
    hide Cum;
    var e, k := st.pc[r], st.step[r];
    CumMonotone(net, CountedBy(e), s, r, k + 1, Done(st, SubmitAt(CountedBy(e)), s));
    assert st.got(CountedBy(e), s, r) >= Sent(net, st, CountedBy(e), s, r);
    if e == 4 {
      CumMonotone(net, Overflow, s, r, k + 1, Done(st, SubmitAt(Overflow), s));
      assert st.got(Overflow, s, r) >= Sent(net, st, Overflow, s, r);
    }
  }

  lemma PayableAt(net: Net, r: nat, k: nat, e: nat)
    requires Payable(net) && IsWait(e)
    ensures Settled(net, r, k, e + 1) <= Submitted(net, r, k, e)
  {
    hide Settled, Submitted;
  }

  /** With nothing in flight and all transfers complete, the slowest rank can go on. */
  lemma SlowestEnabled(net: Net, st: State, r: nat)
    requires Served(net) && Payable(net) && Shaped(net, st) && r < net.n
    requires forall s: nat :: s < net.n ==> st.step[r] < st.step[s] || (st.step[r] == st.step[s] && st.pc[r] <= st.pc[s])
    requires forall c, s: nat, p: nat :: s < net.n && p < net.n ==> st.got(c, s, p) >= Sent(net, st, c, s, p)
    requires st.tx[r] >= Submitted(net, r, st.step[r], st.pc[r])
    ensures Enabled(net, st, r)
  {
    hide Served, Payable, CumNeed, GotTotal, GotFrom, LoadFrom, Settled, Submitted, Sent, IsWait;
    var e, k := st.pc[r], st.step[r];
    if IsWait(e) {
      forall s: nat | s < net.n ensures GotFrom(st, e, s, r) >= LoadFrom(net, e, s, r, k + 1) {
        ShareSent(net, st, r, s);
      }
      AtLeast(net, st, e, r, k + 1, net.n);
      NeedWithinLoad(net, e, r, k + 1);
      PayableAt(net, r, k, e);
    }
  }

  function Moved(st: State, r: nat): State
    requires r < |st.step| == |st.pc|
  {
    if st.pc[r] < LAST then st.(pc := st.pc[r := st.pc[r] + 1])
    else st.(step := st.step[r := st.step[r] + 1], pc := st.pc[r := 0])
  }

  function Bumped(got: (Class, nat, nat) -> nat, c: Class, s: nat, p: nat): (Class, nat, nat) -> nat {
    (c', s', p') => got(c', s', p') + if (c', s', p') == (c, s, p) then 1 else 0
  }

  /** The protocol never deadlocks: in every shaped state something can happen. */
  lemma NoDeadlock(net: Net, st: State) returns (st': State)
    requires Served(net) && Payable(net) && Shaped(net, st) && net.n > 0
    ensures Next(net, st, st')
  {
    hide Served, Payable, Cum, GotTotal, CumNeed, Settled, Submitted, Enabled, Sent;
    if c, s: nat, p: nat :| s < net.n && p < net.n && st.got(c, s, p) < Sent(net, st, c, s, p) {
      st' := st.(got := Bumped(st.got, c, s, p));
      assert Deliver(net, st, st', c, s, p);
    } else if r: nat :| r < net.n && st.tx[r] < Submitted(net, r, st.step[r], st.pc[r]) {
      st' := st.(tx := st.tx[r := st.tx[r] + 1]);
      assert Complete(net, st, st', r);
    } else {
      var r := Slowest(st, net.n);
      SlowestEnabled(net, st, r);
      st' := Moved(st, r);
      assert Advance(net, st, st', r);
    }
  }
}
