/** Peer groups over whole runs of the handshake: whom a group waits for, and when waiting for
    them is enough. */
module PeerGroups {
  import opened Handshake
  import opened Wrappers

  /** Writes to a group are released exactly once, in the order they were submitted: all of
      them when the group waits for nobody, none before. */
  lemma GroupReleased(w: World, a: nat, h: nat)
    requires Inv(w) && a < |w.nodes| && h in w.nodes[a].groups
    ensures w.nodes[a].groups[h].released == if Connected(w, a, h) then GroupAsked(w, a, h) else []
  {
    hide SentOk, PeerOk;
    assert GroupOk(w, a, h);
  }

  /** The group counts as connected: its writes are posted at once. */
  predicate Connected(w: World, a: nat, h: nat)
    requires a < |w.nodes|
  {
    h in w.nodes[a].groups && w.nodes[a].groups[h].awaited == {}
  }

  predicate AllUp(w: World, a: nat, members: seq<nat>)
    requires a < |w.nodes|
  {
    forall b :: b in members ==> Up(w, a, b)
  }

  /** Group `h` waits for exactly those of `first` that are not up. */
  ghost predicate Waits(w: World, a: nat, h: nat, members: seq<nat>, first: set<nat>)
    requires a < |w.nodes|
  {
    && h in w.nodes[a].groups && w.nodes[a].groups[h].members == members
    && (forall b :: b in w.nodes[a].groups[h].awaited <==> b in first && !Up(w, a, b))
    && forall b :: b in first ==> b in w.nodes[a].peers
  }

  lemma WaitsStep(w: World, x: Action, a: nat, h: nat, members: seq<nat>, first: set<nat>)
    requires Inv(w) && Allowed(w, x) && a < |w.nodes| && Waits(w, a, h, members, first)
    ensures a < |Apply(w, x).nodes| && Waits(Apply(w, x), a, h, members, first)
  {
    hide SentOk, PeerOk, GroupOk, SubmitW, DeliverW, Contact, Fresh;
    match x
    case DoSubmit(c, d, op) =>
      assert PeerOk(w, c, d);
      SubmitChanges(w, c, d, op);
      WaitsChange(w, SubmitW(w, c, d, op), c, d, a, h, members, first);
    case DoDeliver(m) =>
      assert PeerOk(w, m.to, m.from);
      DeliverChanges(w, m);
      WaitsChange(w, DeliverW(w, m), m.to, m.from, a, h, members, first);
    case DoGroup(c, j, others) => ContactKeeps(w, c, others);
    case DoGroupWrite(c, j, op) =>
  }

  lemma WaitsChange(w: World, w': World, c: nat, d: nat, a: nat, h: nat, members: seq<nat>, first: set<nat>)
    requires Changes(w, w', c, d) && a < |w.nodes| && Waits(w, a, h, members, first)
    ensures Waits(w', a, h, members, first)
  {
    hide PeerOk;
  }

  /** At every later point of a run, a group waits for exactly the members that were unknown
      when it was set up and have not come up since. */
  lemma {:induction false} GroupAwaits(ws: seq<World>, xs: seq<Action>, n: nat, k: nat, a: nat, h: nat, members: seq<nat>, j: nat)
    requires Run(ws, xs, n) && k < j <= |xs| && xs[k] == DoGroup(a, h, members)
    requires a < |ws[k].nodes| && h !in ws[k].nodes[a].groups
    ensures a < |ws[j].nodes| && Waits(ws[j], a, h, members, Unknown(ws[k].nodes[a], members))
  {
    hide Inv, Waits, Begin;
    RunInv(ws, xs, n, j - 1);
    assert Allowed(ws[j - 1], xs[j - 1]) && ws[j] == Apply(ws[j - 1], xs[j - 1]);
    if j == k + 1 {
      WaitsFirst(ws[k], a, h, members);
    } else {
      GroupAwaits(ws, xs, n, k, a, h, members, j - 1);
      WaitsStep(ws[j - 1], xs[j - 1], a, h, members, Unknown(ws[k].nodes[a], members));
    }
  }

  lemma WaitsFirst(w: World, a: nat, h: nat, members: seq<nat>)
    requires Inv(w) && a < |w.nodes| && h !in w.nodes[a].groups
    ensures Waits(GroupW(w, a, h, members), a, h, members, Unknown(w.nodes[a], members))
  {
    hide Inv, Contact;
    ContactKeeps(w, a, members);
  }

  /** The run `ws'` begins with the first `k` actions of the run `ws`. */
  ghost predicate Continues(ws': seq<World>, xs': seq<Action>, n: nat, ws: seq<World>, xs: seq<Action>, k: nat)
    requires |ws| == |xs| + 1 && k <= |xs|
  {
    Run(ws', xs', n) && k <= |xs'| && ws'[..k + 1] == ws[..k + 1] && xs'[..k] == xs[..k]
  }

  /** However the run goes on, domain `a` takes the group set up by action `k` for connected only
      while all its members are up. */
  ghost predicate AlwaysUp(ws: seq<World>, xs: seq<Action>, n: nat, k: nat, a: nat, h: nat, members: seq<nat>)
    requires Run(ws, xs, n) && k < |xs|
  {
    forall ws': seq<World>, xs': seq<Action>, j: nat ::
      (Continues(ws', xs', n, ws, xs, k + 1) && k < j <= |xs'| && a < |ws'[j].nodes| && Connected(ws'[j], a, h))
      ==> AllUp(ws'[j], a, members)
  }

  lemma {:induction false} StaysUp(ws: seq<World>, xs: seq<Action>, n: nat, k: nat, j: nat, a: nat, b: nat)
    requires Run(ws, xs, n) && k <= j <= |xs| && a < n && a < |ws[k].nodes| && b in ws[k].nodes[a].peers
    ensures a < |ws[j].nodes| && b in ws[j].nodes[a].peers
    ensures Up(ws[k], a, b) ==> Up(ws[j], a, b)
  {
    hide Inv, Begin, Apply, Allowed;
    RunInv(ws, xs, n, j);
    if k < j {
      StaysUp(ws, xs, n, k, j - 1, a, b);
      RunInv(ws, xs, n, j - 1);
      PeerStays(ws[j - 1], xs[j - 1], a, b);
    }
  }

  lemma NobodyAnswers(w: World, a: nat, b: nat)
    requires Inv(w) && a < |w.nodes| && |w.nodes| <= b
    ensures !Up(w, a, b)
  {
    hide GroupOk;
    assert PeerOk(w, a, b);
    assert forall m :: m in w.sent ==> m.from < |w.nodes|;
  }

  /** What an extended run looks like. */
  lemma Extend(ws: seq<World>, xs: seq<Action>, n: nat, x: Action) returns (ws': seq<World>, xs': seq<Action>)
    requires Run(ws, xs, n) && Allowed(ws[|xs|], x)
    ensures Run(ws', xs', n) && xs' == xs + [x] && ws' == ws + [Apply(ws[|xs|], x)]
  {
    hide Begin, Apply, Allowed;
    xs', ws' := xs + [x], ws + [Apply(ws[|xs|], x)];
    forall k | 0 <= k < |xs'| ensures Allowed(ws'[k], xs'[k]) && ws'[k + 1] == Apply(ws'[k], xs'[k]) {
      if k < |xs| {
        assert ws'[k] == ws[k] && xs'[k] == xs[k] && ws'[k + 1] == ws[k + 1];
      }
    }
  }

  /** Delivering `a`'s greeting to `b` and `b`'s to `a` brings `b` up at `a`, and touches no
      other peer of `a`. */
  lemma ExchangeOne(w: World, a: nat, b: nat) returns (m1: Msg, m2: Msg)
    requires Inv(w) && a < |w.nodes| && b < |w.nodes| && b in w.nodes[a].peers
    ensures Allowed(w, DoDeliver(m1)) && Allowed(Apply(w, DoDeliver(m1)), DoDeliver(m2))
    ensures var w' := Apply(Apply(w, DoDeliver(m1)), DoDeliver(m2));
            && |w'.nodes| == |w.nodes| && Up(w', a, b)
            && forall c :: c != b && c in w.nodes[a].peers ==> c in w'.nodes[a].peers && w'.nodes[a].peers[c] == w.nodes[a].peers[c]
  {
    hide Inv, PeerOk, DeliverW, Fresh;
    m1 := Greeting(w.nodes[a], a, b);
    GreetingSent(w, a, b);
    NeverRefused(w, m1);
    InvPeer(w, b, a);
    DeliverChanges(w, m1);
    var w1 := DeliverW(w, m1);
    DeliverKeeps(w, m1);
    m2 := Greeting(w1.nodes[b], b, a);
    GreetingSent(w1, b, a);
    NeverRefused(w1, m2);
    InvPeer(w1, a, b);
    DeliverChanges(w1, m2);
  }

  lemma InvPeer(w: World, a: nat, b: nat)
    requires Inv(w) && a < |w.nodes|
    ensures PeerOk(w, a, b)
  {
    hide PeerOk, GroupOk, SentOk;
  }

  lemma GreetingSent(w: World, a: nat, b: nat)
    requires Inv(w) && a < |w.nodes| && b in w.nodes[a].peers
    ensures Greeting(w.nodes[a], a, b) in w.sent
  {
    hide GroupOk, SentOk;
    assert PeerOk(w, a, b);
  }

  /** A run can be continued until the group waits for nobody, without any other peer of `a`
      coming up. */
  lemma {:induction false} ExchangeAll(ws: seq<World>, xs: seq<Action>, n: nat, a: nat, h: nat, members: seq<nat>, first: set<nat>)
    returns (ws': seq<World>, xs': seq<Action>)
    requires Run(ws, xs, n) && a < n && a < |ws[|xs|].nodes| && Waits(ws[|xs|], a, h, members, first)
    requires forall b :: b in first ==> b < n
    ensures Run(ws', xs', n) && ws <= ws' && xs <= xs' && a < |ws'[|xs'|].nodes| && Connected(ws'[|xs'|], a, h)
    ensures forall c :: c !in first && c in ws[|xs|].nodes[a].peers ==>
              c in ws'[|xs'|].nodes[a].peers && ws'[|xs'|].nodes[a].peers[c] == ws[|xs|].nodes[a].peers[c]
    decreases |ws[|xs|].nodes[a].groups[h].awaited|
  {
    hide Inv, Begin, Apply, Allowed, Run;
    ws', xs' := ws, xs;
    RunFacts(ws, xs, n);
    var w := ws[|xs|];
    var awaited := w.nodes[a].groups[h].awaited;
    if awaited != {} {
      var b :| b in awaited;
      RunInv(ws, xs, n, |xs|);
      var m1, m2 := ExchangeOne(w, a, b);
      StepKeeps(w, DoDeliver(m1));
      WaitsStep(w, DoDeliver(m1), a, h, members, first);
      WaitsStep(Apply(w, DoDeliver(m1)), DoDeliver(m2), a, h, members, first);
      var ws1, xs1 := Extend(ws, xs, n, DoDeliver(m1));
      var ws2, xs2 := Extend(ws1, xs1, n, DoDeliver(m2));
      var w2 := Apply(Apply(w, DoDeliver(m1)), DoDeliver(m2));
      Fewer(awaited, w2.nodes[a].groups[h].awaited, b);
      ws', xs' := ExchangeAll(ws2, xs2, n, a, h, members, first);
    }
  }

  lemma Fewer(s: set<nat>, t: set<nat>, b: nat)
    requires b in s && t <= s - {b}
    ensures |t| < |s|
  {
    SetSize(t, s - {b});
  }

  lemma {:induction false} SetSize(t: set<nat>, s: set<nat>)
    requires t <= s
    ensures |t| <= |s|
  {
    if t != {} {
      var b :| b in t;
      SetSize(t - {b}, s - {b});
    }
  }

  lemma RunFacts(ws: seq<World>, xs: seq<Action>, n: nat)
    requires Run(ws, xs, n)
    ensures |ws| == |xs| + 1
  {
  }

  /** A group is only taken for connected while all its members are up, however the run goes on,
      if and only if every member that was known when it was set up was already up, or one of the
      others does not exist. One that was still connecting is not waited for. */
  lemma GroupConnectedIff(ws: seq<World>, xs: seq<Action>, n: nat, k: nat, a: nat, h: nat, members: seq<nat>)
    requires Run(ws, xs, n) && k < |xs| && xs[k] == DoGroup(a, h, members) && a < n
    requires a < |ws[k].nodes| && h !in ws[k].nodes[a].groups
    ensures AlwaysUp(ws, xs, n, k, a, h, members)
            <==> (forall b :: b in members && b in ws[k].nodes[a].peers ==> Up(ws[k], a, b))
                 || (exists b :: b in Unknown(ws[k].nodes[a], members) && n <= b)
  {
    hide Inv, Begin, Apply, Allowed;
    var first := Unknown(ws[k].nodes[a], members);
    if exists b :: b in first && n <= b {
      var b :| b in first && n <= b;
      forall ws': seq<World>, xs': seq<Action>, j: nat
        | Continues(ws', xs', n, ws, xs, k + 1) && k < j <= |xs'| && a < |ws'[j].nodes|
        ensures !Connected(ws'[j], a, h)
      {
        ContinuesAt(ws', xs', n, ws, xs, k);
        GroupAwaits(ws', xs', n, k, a, h, members, j);
        RunInv(ws', xs', n, j);
        NobodyAnswers(ws'[j], a, b);
        assert b in ws'[j].nodes[a].groups[h].awaited;
      }
    } else if forall b :: b in members && b in ws[k].nodes[a].peers ==> Up(ws[k], a, b) {
      forall ws': seq<World>, xs': seq<Action>, j: nat
        | Continues(ws', xs', n, ws, xs, k + 1) && k < j <= |xs'| && a < |ws'[j].nodes| && Connected(ws'[j], a, h)
        ensures AllUp(ws'[j], a, members)
      {
        ContinuesAt(ws', xs', n, ws, xs, k);
        GroupAwaits(ws', xs', n, k, a, h, members, j);
        forall b | b in members ensures Up(ws'[j], a, b) {
          if b in ws[k].nodes[a].peers {
            StaysUp(ws', xs', n, k, j, a, b);
          } else {
            assert b in first && b !in ws'[j].nodes[a].groups[h].awaited;
          }
        }
      }
    } else {
      var c :| c in members && c in ws[k].nodes[a].peers && !Up(ws[k], a, c);
      NotAlwaysUp(ws, xs, n, k, a, h, members, c);
    }
  }

  lemma ContinuesAt(ws': seq<World>, xs': seq<Action>, n: nat, ws: seq<World>, xs: seq<Action>, k: nat)
    requires |ws| == |xs| + 1 && k < |xs| && Continues(ws', xs', n, ws, xs, k + 1)
    ensures |ws'| == |xs'| + 1 && k < |xs'| && ws'[k] == ws[k] && xs'[k] == xs[k]
  {
    hide Begin, Apply, Allowed;
    assert ws'[..k + 2][k] == ws[..k + 2][k] && xs'[..k + 1][k] == xs[..k + 1][k];
  }

  lemma Prefix(ws: seq<World>, xs: seq<Action>, n: nat, k: nat)
    requires Run(ws, xs, n) && k <= |xs|
    ensures Run(ws[..k + 1], xs[..k], n)
  {
    hide Begin, Apply, Allowed;
  }

  lemma NotAlwaysUp(ws: seq<World>, xs: seq<Action>, n: nat, k: nat, a: nat, h: nat, members: seq<nat>, c: nat)
    requires Run(ws, xs, n) && k < |xs| && xs[k] == DoGroup(a, h, members) && a < n
    requires a < |ws[k].nodes| && h !in ws[k].nodes[a].groups
    requires c in members && c in ws[k].nodes[a].peers && !Up(ws[k], a, c)
    requires forall b :: b in Unknown(ws[k].nodes[a], members) ==> b < n
    ensures !AlwaysUp(ws, xs, n, k, a, h, members)
  {
    hide Inv, Begin, Run, Contact;
    RunFacts(ws, xs, n);
    GroupAwaits(ws, xs, n, k, a, h, members, k + 1);
    Prefix(ws, xs, n, k + 1);
    RunInv(ws, xs, n, k);
    ContactKeeps(ws[k], a, members);
    StepIs(ws, xs, n, k);
    var ws', xs' := ExchangeAll(ws[..k + 2], xs[..k + 1], n, a, h, members, Unknown(ws[k].nodes[a], members));
    assert Continues(ws', xs', n, ws, xs, k + 1);
    RunFacts(ws', xs', n);
    assert !Up(ws'[|xs'|], a, c);
    assert !AllUp(ws'[|xs'|], a, members);
  }

  lemma StepIs(ws: seq<World>, xs: seq<Action>, n: nat, k: nat)
    requires Run(ws, xs, n) && k < |xs|
    ensures Allowed(ws[k], xs[k]) && ws[k + 1] == Apply(ws[k], xs[k])
  {
    hide Begin, Apply, Allowed;
  }

  // A run among three domains: the first starts a connection to the second, sets up a group of
  // the other two, submits a write to the group and hears from the third.

  const GREETED := Peer(0, 1, Reset, Reset, false, [7])
  const FIRST := IDLE.(peers := map[1 := GREETED, 2 := Peer(2, 3, Reset, Reset, false, [])], nextNum := 4)
  const THIRD := Node(map[0 := Peer(0, 1, ReadyToSend(2), ReadyToSend(3), true, [])], 2, map[0 := []], map[])
  const HI := Msg(0, 1, 0, 1)
  const HELLO := Msg(0, 2, 2, 3)
  const BACK := Msg(2, 0, 0, 1)
  const PAIR := Group([1, 2], {2}, [], [])
  const SUBMITTED := World([IDLE.(peers := map[1 := GREETED], nextNum := 2), IDLE, IDLE], [HI], {}, map[(0, 1) := [7]], map[])
  const GROUPED := SUBMITTED.(nodes := [FIRST.(groups := map[5 := PAIR]), IDLE, IDLE], sent := [HI, HELLO])
  const WRITTEN := GROUPED.(nodes := [FIRST.(groups := map[5 := PAIR.(waiting := [9])]), IDLE, IDLE], groupAsked := map[(0, 5) := [9]])
  const HEARD := WRITTEN.(nodes := [WRITTEN.nodes[0], IDLE, THIRD], sent := [HI, HELLO, BACK], delivered := {HELLO})

  lemma SubmitStage()
    ensures Begin(3) == World([IDLE, IDLE, IDLE], [], {}, map[], map[])
    ensures Allowed(Begin(3), DoSubmit(0, 1, 7)) && Apply(Begin(3), DoSubmit(0, 1, 7)) == SUBMITTED
  {
    assert [] + [7] == [7] && [] + [HI] == [HI];
    assert SubmitOp(IDLE, 0, 1, 7) == (SUBMITTED.nodes[0], Some(HI));
  }

  lemma GroupStage()
    ensures Allowed(SUBMITTED, DoGroup(0, 5, [1, 2])) && Apply(SUBMITTED, DoGroup(0, 5, [1, 2])) == GROUPED
  {
    assert [1, 2][1..] == [2] && [2][1..] == [];
    var n := SUBMITTED.nodes[0];
    assert Create(n, 2, []) == FIRST;
    assert Contact(FIRST, 0, []) == (FIRST, []);
    assert Contact(n, 0, [2]).0 == FIRST && Contact(n, 0, [2]).1 == [HELLO];
    assert Contact(n, 0, [1, 2]) == Contact(n, 0, [2]);
    assert Unknown(n, [1, 2]) == {2};
  }

  lemma WriteStage()
    ensures Allowed(GROUPED, DoGroupWrite(0, 5, 9)) && Apply(GROUPED, DoGroupWrite(0, 5, 9)) == WRITTEN
  {
    assert [] + [9] == [9];
    assert WRITTEN.nodes[0].groups == GROUPED.nodes[0].groups[5 := PAIR.(waiting := [] + [9])];
  }

  lemma HearStage()
    ensures Allowed(WRITTEN, DoDeliver(HELLO)) && Apply(WRITTEN, DoDeliver(HELLO)) == HEARD
  {
    assert OnHandshake(WRITTEN.nodes[2], 2, HELLO).0 == THIRD;
    assert HEARD.sent == WRITTEN.sent + [BACK];
  }

  lemma BackStage()
    ensures Allowed(HEARD, DoDeliver(BACK))
    ensures var w := Apply(HEARD, DoDeliver(BACK));
            && |w.nodes| == 3 && w.nodes[0].peers == map[1 := GREETED, 2 := Peer(2, 3, ReadyToSend(0), ReadyToSend(1), true, [])]
            && w.nodes[0].groups == map[5 := Group([1, 2], {}, [], [9])]
  {
    assert [] + [9] == [9];
    assert Answered(PAIR.(waiting := [9]), 2) == Group([1, 2], {}, [], [9]);
  }

  /** The group is connected, and its write released, while the pairs to the second domain are
      in the reset state. */
  lemma ReleasedToReset() returns (ws: seq<World>, xs: seq<Action>)
    ensures Run(ws, xs, 3) && |xs| > 0 && |ws[|xs|].nodes| == 3
    ensures var n := ws[|xs|].nodes[0];
            1 in n.peers && n.peers[1].rma.Reset? && 5 in n.groups && 1 in n.groups[5].members && n.groups[5].released == [9]
  {
    hide Apply, Allowed, SUBMITTED, GROUPED, WRITTEN, HEARD;
    SubmitStage();
    GroupStage();
    WriteStage();
    HearStage();
    BackStage();
    xs := [DoSubmit(0, 1, 7), DoGroup(0, 5, [1, 2]), DoGroupWrite(0, 5, 9), DoDeliver(HELLO), DoDeliver(BACK)];
    ws := [Begin(3), SUBMITTED, GROUPED, WRITTEN, HEARD, Apply(HEARD, DoDeliver(BACK))];
  }
}
