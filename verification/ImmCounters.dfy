/** Counters for immediates, under interleaving: increments that are two atomic operations,
    and a device counter raised by one thread while another waits. */
module ImmCounters {
  import opened Arith

  /** The comparison with the expected count looks at the low 32 bits of the value only. */
  const WIDTH: nat := 0x1_0000_0000

  /** An expected-count counter. `pending` threads have seen the count reached and not yet
      subtracted; `subtracted` counts finished subtractions. `incs` counts additions. The
      counter is in the map while `present`; after its removal `consumed` is what was read
      from it and `direct` counts immediates handed out as they come. */
  datatype Counter = Counter(expected: nat, value: int, incs: nat, pending: nat, subtracted: nat,
                             present: bool, consumed: nat, direct: nat)

  function Fresh(expected: nat): Counter {
    Counter(expected, 0, 0, 0, 0, true, 0, 0)
  }

  /** The low 32 bits. */
  function Low(x: int): (r: nat)
    ensures r < WIDTH
  {
    x % 0x1_0000_0000
  }

  /** Whether the atomic add that finds `value` reports. */
  predicate Hits(value: int, expected: nat) {
    Low(value) + 1 == expected
  }

  function Add(c: Counter): Counter {
    c.(value := c.value + 1, incs := c.incs + 1, pending := c.pending + if Hits(c.value, c.expected) then 1 else 0)
  }

  function Subtract(c: Counter): Counter
    requires c.pending > 0
  {
    c.(value := c.value - c.expected, pending := c.pending - 1, subtracted := c.subtracted + 1)
  }

  /** Removal takes the map's write lock, so no `inc` is half done. */
  function Remove(c: Counter): Counter {
    c.(present := false, consumed := Low(c.value))
  }

  datatype Move = DoAdd | DoSubtract | DoRemove | DoDirect

  predicate Allowed(c: Counter, m: Move) {
    match m
    case DoAdd => c.present
    case DoSubtract => c.present && c.pending > 0
    case DoRemove => c.present && c.pending == 0
    case DoDirect => !c.present
  }

  function Apply(c: Counter, m: Move): Counter
    requires Allowed(c, m)
  {
    match m
    case DoAdd => Add(c)
    case DoSubtract => Subtract(c)
    case DoRemove => Remove(c)
    case DoDirect => c.(direct := c.direct + 1)
  }

  function Reached(c: Counter): nat {
    c.pending + c.subtracted
  }

  /** Immediates that came in, counted or handed out. */
  function Arrivals(c: Counter): nat {
    c.incs + c.direct
  }

  /** How many of the values that make an addition report lie at or below `value`: the expected
      count itself, and again every 2^32. */
  function Passed(value: int, expected: nat): nat {
    if value < expected then 0 else (value - expected) / 0x1_0000_0000 + 1
  }

  /** A subtraction that stays above the reporting value it was for: a report will be missing. */
  predicate Loses(c: Counter) {
    Low(c.value - c.expected) >= c.expected
  }

  lemma PassedAdds(value: int, expected: nat)
    requires 0 < expected < WIDTH && value >= 0
    ensures Passed(value + 1, expected) == Passed(value, expected) + if Hits(value, expected) then 1 else 0
  {
  }

  lemma PassedSubtracts(value: int, expected: nat)
    requires 0 < expected < WIDTH && value >= expected
    ensures Passed(value - expected, expected) == Passed(value, expected) - if Low(value - expected) >= expected then 0 else 1
  {
  }

  lemma PassedBelow(value: int, expected: nat, n: nat)
    requires 0 < expected < WIDTH && n <= Passed(value, expected) && value >= 0
    ensures Mul(n, expected) <= value
  {
    if n > 0 {
      MulAgrees(n, expected);
      BelowWidth(n - 1, expected);
    }
  }

  lemma BelowWidth(n: nat, expected: nat)
    requires expected < WIDTH
    ensures n * expected <= n * 0x1_0000_0000
    ensures (n + 1) * expected == n * expected + expected
  {
  }

  /** The value is what was added minus what was subtracted, and every pending subtraction is
      for a reporting value that has been passed. */
  predicate Consistent(c: Counter) {
    && 0 < c.expected < WIDTH && c.value >= 0
    && c.incs == c.value + Mul(c.subtracted, c.expected)
    && c.pending <= Passed(c.value, c.expected)
    && (!c.present ==> c.pending == 0 && c.consumed == Low(c.value))
  }

  /** Reporting values passed for which no subtraction is pending. */
  function Missing(c: Counter): int {
    Passed(c.value, c.expected) - c.pending
  }

  /** Nothing but a losing subtraction changes the number of missing reports, and it by one. */
  lemma ApplyConsistent(c: Counter, m: Move)
    requires Consistent(c) && Allowed(c, m)
    ensures Consistent(Apply(c, m)) && Apply(c, m).expected == c.expected
    ensures Missing(Apply(c, m)) == Missing(c) + if m == DoSubtract && Loses(c) then 1 else 0
  {
    hide Passed, Low;
    match m
    case DoAdd => PassedAdds(c.value, c.expected);
    case DoSubtract =>
      PassedBelow(c.value, c.expected, 1);
      MulUnfold(1, c.expected);
      PassedSubtracts(c.value, c.expected);
    case DoRemove =>
    case DoDirect =>
  }

  lemma QuotAtLeast(a: nat, q: nat, n: nat)
    requires n > 0
    ensures q <= Quot(a, n) <==> Mul(q, n) <= a
  {
    QuotOrder(a, q, n);
  }

  ghost predicate Run(cs: seq<Counter>, ms: seq<Move>, expected: nat) {
    && |cs| == |ms| + 1 && cs[0] == Fresh(expected)
    && forall k :: 0 <= k < |ms| ==> Allowed(cs[k], ms[k]) && cs[k + 1] == Apply(cs[k], ms[k])
  }

  /** The subtraction made by move `m` loses a report. */
  predicate LosesAt(cs: seq<Counter>, ms: seq<Move>, m: nat)
    requires |cs| == |ms| + 1
  {
    m < |ms| && ms[m] == DoSubtract && Loses(cs[m])
  }

  /** How many of the first `k` moves lose a report. */
  function Losses(cs: seq<Counter>, ms: seq<Move>, k: nat): nat
    requires |cs| == |ms| + 1 && k <= |ms|
  {
    if k == 0 then 0 else Losses(cs, ms, k - 1) + if LosesAt(cs, ms, k - 1) then 1 else 0
  }

  lemma {:induction false} NoLosses(cs: seq<Counter>, ms: seq<Move>, k: nat)
    requires |cs| == |ms| + 1 && k <= |ms|
    ensures Losses(cs, ms, k) == 0 <==> forall m: nat :: m < k ==> !LosesAt(cs, ms, m)
  {
    if k > 0 {
      NoLosses(cs, ms, k - 1);
    }
  }

  lemma {:induction false} RunConsistent(cs: seq<Counter>, ms: seq<Move>, expected: nat, k: nat)
    requires Run(cs, ms, expected) && 0 < expected < WIDTH && k <= |ms|
    ensures Consistent(cs[k]) && cs[k].expected == expected
    ensures Missing(cs[k]) == Losses(cs, ms, k)
  {
    hide Apply, Allowed;
    if k > 0 {
      hide Consistent, Missing, Loses;
      RunConsistent(cs, ms, expected, k - 1);
      ApplyConsistent(cs[k - 1], ms[k - 1]);
    }
  }

  /** In every reachable state: reports are bounded by full counts, and once the counter is
      removed, every immediate was reported, consumed or handed out, except for the bits above
      the 32nd of what was left in the counter. */
  lemma Conservation(cs: seq<Counter>, ms: seq<Move>, expected: nat, k: nat)
    requires Run(cs, ms, expected) && 0 < expected < WIDTH && k <= |ms|
    ensures Reached(cs[k]) <= Quot(cs[k].incs, expected)
    ensures cs[k].value == cs[k].incs - Mul(cs[k].subtracted, expected) >= 0
    ensures !cs[k].present ==>
              && Low(Arrivals(cs[k])) == Low(Mul(Reached(cs[k]), expected) + cs[k].consumed + cs[k].direct)
              && (Arrivals(cs[k]) == Mul(Reached(cs[k]), expected) + cs[k].consumed + cs[k].direct <==> cs[k].value < WIDTH)
  {
    hide Passed, Losses;
    RunConsistent(cs, ms, expected, k);
    var c := cs[k];
    PassedBelow(c.value, expected, c.pending);
    MulAdd(c.subtracted, c.pending, expected);
    QuotAtLeast(c.incs, Reached(c), expected);
  }

  /** The reports are exactly the full counts, at any point of any run where no subtraction is
      pending, if and only if no subtraction so far lost a report: none was delayed until as many
      further immediates as are expected had arrived. */
  lemma ExactIff(cs: seq<Counter>, ms: seq<Move>, expected: nat, k: nat)
    requires Run(cs, ms, expected) && 0 < expected < WIDTH && k <= |ms| && cs[k].pending == 0
    ensures Reached(cs[k]) == Quot(cs[k].incs, expected) <==> forall m: nat :: m < k ==> !LosesAt(cs, ms, m)
  {
    hide Losses, LosesAt;
    RunConsistent(cs, ms, expected, k);
    NoLosses(cs, ms, k);
    var c := cs[k];
    QuotAtLeast(c.incs, c.subtracted, expected);
    QuotAtLeast(c.incs, c.subtracted + 1, expected);
    MulUnfold(c.subtracted + 1, expected);
  }

  /** What losing means in terms of the run: when the counter stood below the expected count
      before the addition that reported, its subtraction loses a report if and only if, up to
      multiples of 2^32, at least as many additions as are expected came in between. */
  lemma LosesIff(cs: seq<Counter>, ms: seq<Move>, expected: nat, a: nat, m: nat)
    requires Run(cs, ms, expected) && 0 < expected < WIDTH && a < m < |ms|
    requires cs[a].value < expected && Hits(cs[a].value, expected)
    requires (forall k :: a <= k < m ==> ms[k] == DoAdd) && ms[m] == DoSubtract
    ensures LosesAt(cs, ms, m) <==> Low(m - a - 1) >= expected
  {
    hide Losses, Passed, Hits;
    RunConsistent(cs, ms, expected, a);
    RunConsistent(cs, ms, expected, m);
    AddsCount(cs, ms, expected, a, m);
    HitsOnce(cs[a].value, expected);
  }

  lemma {:induction false} AddsCount(cs: seq<Counter>, ms: seq<Move>, expected: nat, a: nat, m: nat)
    requires Run(cs, ms, expected) && a <= m <= |ms| && forall k :: a <= k < m ==> ms[k] == DoAdd
    ensures cs[m].value == cs[a].value + (m - a)
  {
    hide Hits;
    if a < m {
      AddsCount(cs, ms, expected, a, m - 1);
      assert ms[m - 1] == DoAdd && cs[m] == Apply(cs[m - 1], ms[m - 1]);
    }
  }

  /** A counter that has lost a report stays short at every later quiet point: reports once
      missing are not made up for. */
  lemma LostForever(cs: seq<Counter>, ms: seq<Move>, expected: nat, m: nat, k: nat)
    requires Run(cs, ms, expected) && 0 < expected < WIDTH && m < k <= |ms| && LosesAt(cs, ms, m)
    ensures Reached(cs[k]) < Quot(cs[k].incs, expected)
  {
    hide Loses, Passed;
    RunConsistent(cs, ms, expected, k);
    LossesGrow(cs, ms, m, k);
    var c := cs[k];
    PassedBelow(c.value, expected, c.pending + 1);
    MulAdd(c.subtracted, c.pending + 1, expected);
    QuotAtLeast(c.incs, c.subtracted + c.pending + 1, expected);
  }

  lemma {:induction false} LossesGrow(cs: seq<Counter>, ms: seq<Move>, m: nat, k: nat)
    requires |cs| == |ms| + 1 && m < k <= |ms| && LosesAt(cs, ms, m)
    ensures Losses(cs, ms, k) >= 1
  {
    if m < k - 1 {
      LossesGrow(cs, ms, m, k - 1);
    }
  }

  /** Exactly when a quiet counter reports again: when the value passes the next reporting
      value. Past the expected count that takes up to 2^32 immediates. */
  lemma {:induction false} SilentIff(cs: seq<Counter>, ms: seq<Move>, expected: nat, j: nat, k: nat)
    requires Run(cs, ms, expected) && 0 < expected < WIDTH && j <= k <= |ms| && cs[j].pending == 0
    ensures cs[j].incs <= cs[k].incs && Reached(cs[j]) <= Reached(cs[k])
    ensures Reached(cs[k]) == Reached(cs[j])
            <==> Passed(cs[j].value + (cs[k].incs - cs[j].incs), expected) == Passed(cs[j].value, expected)
    ensures Reached(cs[k]) == Reached(cs[j]) ==> cs[k].pending == 0 && cs[k].value == cs[j].value + (cs[k].incs - cs[j].incs)
    ensures Passed(cs[j].value + (cs[k].incs - cs[j].incs), expected) >= Passed(cs[j].value, expected)
  {
    hide Passed, Hits, Losses, Missing;
    RunConsistent(cs, ms, expected, j);
    if j < k {
      SilentIff(cs, ms, expected, j, k - 1);
      assert Allowed(cs[k - 1], ms[k - 1]) && cs[k] == Apply(cs[k - 1], ms[k - 1]);
      RunConsistent(cs, ms, expected, k - 1);
      PassedAdds(cs[j].value + (cs[k - 1].incs - cs[j].incs), expected);
    }
  }

  /** Every subtraction follows its addition at once. */
  predicate Serial(cs: seq<Counter>, ms: seq<Move>)
    requires |cs| == |ms| + 1
  {
    forall k :: 0 <= k < |ms| && cs[k].pending > 0 ==> ms[k] == DoSubtract
  }

  /** In a serial run nothing is lost: the reports are exactly the full counts, between an
      addition and its subtraction too. */
  lemma {:induction false} SerialExact(cs: seq<Counter>, ms: seq<Move>, expected: nat, k: nat)
    requires Run(cs, ms, expected) && 0 < expected < WIDTH && k <= |ms| && Serial(cs, ms)
    ensures if cs[k].pending == 0 then cs[k].value < expected else cs[k].pending == 1 && cs[k].value == expected
    ensures Reached(cs[k]) == Quot(cs[k].incs, expected)
  {
    hide Passed, Losses, Missing, Apply, Allowed, Consistent, Reached, Quot;
    RunConsistent(cs, ms, expected, k);
    if k > 0 {
      SerialExact(cs, ms, expected, k - 1);
      RunConsistent(cs, ms, expected, k - 1);
      SerialStep(cs[k - 1], ms[k - 1]);
    }
    SerialQuot(cs[k]);
  }

  lemma SerialStep(c: Counter, m: Move)
    requires Consistent(c) && Allowed(c, m) && (c.pending > 0 ==> m == DoSubtract)
    requires if c.pending == 0 then c.value < c.expected else c.pending == 1 && c.value == c.expected
    ensures var d := Apply(c, m); if d.pending == 0 then d.value < c.expected else d.pending == 1 && d.value == c.expected
  {
    hide Passed, Hits;
    HitsOnce(c.value, c.expected);
  }

  lemma HitsOnce(value: int, expected: nat)
    requires 0 <= value && 0 < expected < WIDTH
    ensures value < expected ==> (Hits(value, expected) <==> value + 1 == expected)
  {
  }

  lemma SerialQuot(c: Counter)
    requires Consistent(c) && if c.pending == 0 then c.value < c.expected else c.pending == 1 && c.value == c.expected
    ensures Reached(c) == Quot(c.incs, c.expected)
  {
    hide Passed;
    QuotRem(Reached(c), if c.pending == 0 then c.value else 0, c.expected);
  }

  /** A run that loses a report, for every expected count: twice as many additions, and only
      then the subtraction. The second full count is not reported. */
  lemma ReportLost(expected: nat) returns (cs: seq<Counter>, ms: seq<Move>)
    requires 0 < expected < WIDTH
    ensures Run(cs, ms, expected) && |ms| == 2 * expected + 1 && LosesAt(cs, ms, 2 * expected)
    ensures var c := cs[|ms|]; c.pending == 0 && c.incs == 2 * expected && Reached(c) == 1 && Quot(c.incs, expected) == 2
  {
    var n := 2 * expected;
    var late := Subtract(Climbed(expected, n));
    ms := seq(n, _ => DoAdd) + [DoSubtract];
    cs := seq(n + 1, (k: nat) => Climbed(expected, k)) + [late];
    forall k | 0 <= k < |ms| ensures Allowed(cs[k], ms[k]) && cs[k + 1] == Apply(cs[k], ms[k]) {
    }
    MulUnfold(2, expected);
    MulUnfold(1, expected);
    QuotRem(2, 0, expected);
  }

  /** The counter after `k` additions and no subtraction. */
  function Climbed(expected: nat, k: nat): Counter {
    Fresh(expected).(value := k, incs := k, pending := if k < expected then 0 else 1)
  }

  /** A device counter in one epoch: `target` increments by one thread, one `wait` by another.
      The thread that brings the value to zero raises the flag and then stores zero. */
  datatype Device = Device(value: int, incs: nat, storing: bool, waited: bool, raised: nat)

  datatype Turn = Increment | Store | Wait

  const EPOCH := Device(0, 0, false, false, 0)

  predicate Can(d: Device, target: nat, t: Turn) {
    match t
    case Increment => d.incs < target && !d.storing
    case Store => d.storing
    case Wait => !d.waited
  }

  function Take(d: Device, target: nat, t: Turn): Device
    requires Can(d, target, t)
  {
    match t
    case Increment =>
      d.(value := d.value + 1, incs := d.incs + 1, storing := d.value + 1 == 0,
         raised := d.raised + if d.value + 1 == 0 then 1 else 0)
    case Store => d.(value := 0, storing := false)
    case Wait => d.(value := d.value - target, waited := true, raised := d.raised + if d.value >= target then 1 else 0)
  }

  predicate Steady(d: Device, target: nat) {
    && d.incs <= target
    && d.value == d.incs - (if d.waited then target else 0)
    && d.raised == (if d.waited && d.incs == target then 1 else 0)
    && (d.storing ==> d.waited && d.incs == target)
  }

  lemma TakeSteady(d: Device, target: nat, t: Turn)
    requires Steady(d, target) && Can(d, target, t)
    ensures Steady(Take(d, target, t), target)
  {
  }

  ghost predicate Epoch(ds: seq<Device>, ts: seq<Turn>, target: nat) {
    && |ds| == |ts| + 1 && ds[0] == EPOCH
    && forall k :: 0 <= k < |ts| ==> Can(ds[k], target, ts[k]) && ds[k + 1] == Take(ds[k], target, ts[k])
  }

  /** The flag is raised exactly once per epoch, not before the last increment and the wait,
      whichever comes first, and the epoch ends with the value back at zero. */
  lemma {:induction false} FlagOnce(ds: seq<Device>, ts: seq<Turn>, target: nat, k: nat)
    requires Epoch(ds, ts, target) && k <= |ts|
    ensures ds[k].raised == (if ds[k].waited && ds[k].incs == target then 1 else 0)
    ensures (forall t :: !Can(ds[k], target, t)) ==> ds[k] == EPOCH.(incs := target, waited := true, raised := 1)
  {
    EpochSteady(ds, ts, target, k);
    if forall t :: !Can(ds[k], target, t) {
      assert !Can(ds[k], target, Increment) && !Can(ds[k], target, Store) && !Can(ds[k], target, Wait);
    }
  }

  lemma {:induction false} EpochSteady(ds: seq<Device>, ts: seq<Turn>, target: nat, k: nat)
    requires Epoch(ds, ts, target) && k <= |ts|
    ensures Steady(ds[k], target)
  {
    if k > 0 {
      EpochSteady(ds, ts, target, k - 1);
      TakeSteady(ds[k - 1], target, ts[k - 1]);
    }
  }
}
