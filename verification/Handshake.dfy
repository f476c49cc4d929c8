/** Connecting reliable queue pairs between any number of domains. */
module Handshake {
  import opened Wrappers

  // Each side creates a pair on first contact, sends its numbers over an unreliable-datagram
  // channel, and brings the pair up when the other side's numbers arrive. Operations submitted
  // meanwhile wait. Any interleaving is allowed, and a message may be delivered repeatedly.

  /** The states a queue pair is led through, as in section 10.3.1 of the InfiniBand
      Architecture Specification Volume 1; from ready-to-receive on it knows its remote. */
  datatype Pair = Reset | Init | ReadyToReceive(remote: nat) | ReadyToSend(remote: nat)

  function ToInit(q: Pair): Option<Pair> {
    if q.Reset? then Some(Init) else None
  }

  function ToReceive(q: Pair, remote: nat): Option<Pair> {
    if q.Init? then Some(ReadyToReceive(remote)) else None
  }

  function ToSend(q: Pair): Option<Pair> {
    if q.ReadyToReceive? then Some(ReadyToSend(q.remote)) else None
  }

  /** The three moves in a row; only a pair in the reset state can make them. */
  function BringUp(q: Pair, remote: nat): (r: Option<Pair>)
    ensures q.Reset? ==> r == Some(ReadyToSend(remote))
    ensures !q.Reset? ==> r == None
  {
    match ToInit(q)
    case None => None
    case Some(i) =>
      match ToReceive(i, remote)
      case None => None
      case Some(t) => ToSend(t)
  }

  /** A peer: the numbers of the two local pairs (messages and remote memory access), their
      states, and the operations waiting for the connection. */
  datatype Peer = Peer(msgNum: nat, rmaNum: nat, msg: Pair, rma: Pair, established: bool, pending: seq<nat>)

  datatype Msg = Msg(from: nat, to: nat, msgNum: nat, rmaNum: nat)

  /** A peer group: its members, the ones it still waits for, the writes waiting for them and
      the writes released. It counts as connected when it waits for nobody. */
  datatype Group = Group(members: seq<nat>, awaited: set<nat>, waiting: seq<nat>, released: seq<nat>)

  /** A domain: its peers by address, the next free queue pair number, the operations released
      to the send queues, by destination in order, and its peer groups by handle. */
  datatype Node = Node(peers: map<nat, Peer>, nextNum: nat, out: map<nat, seq<nat>>, groups: map<nat, Group>)

  const IDLE := Node(map[], 0, map[], map[])

  function OutTo(n: Node, b: nat): seq<nat> {
    if b in n.out then n.out[b] else []
  }

  function Create(n: Node, b: nat, pending: seq<nat>): Node {
    n.(peers := n.peers[b := Peer(n.nextNum, n.nextNum + 1, Reset, Reset, false, pending)], nextNum := n.nextNum + 2)
  }

  function Greeting(n: Node, self: nat, b: nat): Msg
    requires b in n.peers
  {
    Msg(self, b, n.peers[b].msgNum, n.peers[b].rmaNum)
  }

  /** Submit one operation to `b`. */
  function SubmitOp(n: Node, self: nat, b: nat, op: nat): (Node, Option<Msg>) {
    if b in n.peers then
      var p := n.peers[b];
      if p.established then (n.(out := n.out[b := OutTo(n, b) + [op]]), None)
      else (n.(peers := n.peers[b := p.(pending := p.pending + [op])]), None)
    else
      var n' := Create(n, b, [op]);
      (n', Some(Greeting(n', self, b)))
  }

  /** Member `b` came up; when it was the last one awaited, the group's writes are released. */
  function Answered(g: Group, b: nat): Group {
    if g.awaited == {b} then g.(awaited := {}, waiting := [], released := g.released + g.waiting)
    else g.(awaited := g.awaited - {b})
  }

  function AnsweredAll(groups: map<nat, Group>, b: nat): map<nat, Group> {
    map h | h in groups :: Answered(groups[h], b)
  }

  /** Bring the peer up with the numbers in `m` and release what was waiting. */
  function Establish(n: Node, m: Msg): Node
    requires m.from in n.peers && n.peers[m.from].msg.Reset? && n.peers[m.from].rma.Reset?
  {
    var b, p := m.from, n.peers[m.from];
    n.(peers := n.peers[b := p.(msg := BringUp(p.msg, m.msgNum).value, rma := BringUp(p.rma, m.rmaNum).value,
                                established := true, pending := [])],
       out := n.out[b := OutTo(n, b) + p.pending], groups := AnsweredAll(n.groups, b))
  }

  /** A peer that is not up yet has both pairs in the reset state. */
  predicate Fresh(n: Node) {
    forall b :: b in n.peers && !n.peers[b].established ==> n.peers[b].msg.Reset? && n.peers[b].rma.Reset?
  }

  /** A handshake arrives: ignored if the peer is up already. */
  function OnHandshake(n: Node, self: nat, m: Msg): (Node, Option<Msg>)
    requires Fresh(n)
  {
    if m.from in n.peers then
      if n.peers[m.from].established then (n, None) else (Establish(n, m), None)
    else
      var n' := Create(n, m.from, []);
      (Establish(n', m), Some(Greeting(n', self, m.from)))
  }

  /** Contact the unknown ones among `members`, in order. */
  function Contact(n: Node, self: nat, members: seq<nat>): (Node, seq<Msg>)
    decreases |members|
  {
    if members == [] then (n, [])
    else if members[0] in n.peers then Contact(n, self, members[1..])
    else
      var n1 := Create(n, members[0], []);
      var (n2, greetings) := Contact(n1, self, members[1..]);
      (n2, [Greeting(n1, self, members[0])] + greetings)
  }

  lemma ContactNone(n: Node, self: nat)
    ensures Contact(n, self, []) == (n, [])
  {
  }

  lemma ContactNext(n: Node, self: nat, members: seq<nat>, i: nat)
    requires i < |members|
    ensures var rest, n1 := members[i + 1..], Create(n, members[i], []);
            if members[i] in n.peers then Contact(n, self, members[i..]) == Contact(n, self, rest)
            else Contact(n, self, members[i..]) == (Contact(n1, self, rest).0, [Greeting(n1, self, members[i])] + Contact(n1, self, rest).1)
  {
    assert members[i..][1..] == members[i + 1..];
  }

  function Unknown(n: Node, members: seq<nat>): set<nat> {
    set b | b in members && b !in n.peers
  }

  /** Set up a group, unless its handle is taken: contact the unknown members and wait for those. */
  function AddGroup(n: Node, self: nat, h: nat, members: seq<nat>): (Node, seq<Msg>) {
    if h in n.groups then (n, [])
    else
      var (n', greetings) := Contact(n, self, members);
      (n'.(groups := n.groups[h := Group(members, Unknown(n, members), [], [])]), greetings)
  }

  /** A write to a group: kept while the group is not connected, an error if there is no group. */
  function GroupWrite(n: Node, h: nat, op: nat): (Node, bool) {
    if h !in n.groups then (n, false)
    else
      var g := n.groups[h];
      (n.(groups := n.groups[h := if g.awaited != {} then g.(waiting := g.waiting + [op])
                                  else g.(released := g.released + [op])]), true)
  }

  /** The domain object. */
  class Domain {
    const address: nat
    var peers: map<nat, Peer>
    var nextNum: nat
    var out: map<nat, seq<nat>>
    var groups: map<nat, Group>

    function View(): Node
      reads this
    {
      Node(peers, nextNum, out, groups)
    }

    constructor (a: nat)
      ensures address == a && View() == IDLE
    {
      address, peers, nextNum, out, groups := a, map[], 0, map[], map[];
    }

    method Submit(b: nat, op: nat) returns (send: Option<Msg>)
      modifies this
      ensures (View(), send) == SubmitOp(old(View()), address, b, op)
    {
      send := None;
      if b in peers {
        if peers[b].established {
          out := out[b := OutTo(View(), b) + [op]];
        } else {
          peers := peers[b := peers[b].(pending := peers[b].pending + [op])];
        }
      } else {
        peers, nextNum := peers[b := Peer(nextNum, nextNum + 1, Reset, Reset, false, [op])], nextNum + 2;
        send := Some(Msg(address, b, peers[b].msgNum, peers[b].rmaNum));
      }
    }

    method Receive(m: Msg) returns (send: Option<Msg>)
      requires Fresh(View())
      modifies this
      ensures (View(), send) == OnHandshake(old(View()), address, m)
    {
      send := None;
      var b := m.from;
      if b in peers {
        if peers[b].established {
          return;
        }
      } else {
        peers, nextNum := peers[b := Peer(nextNum, nextNum + 1, Reset, Reset, false, [])], nextNum + 2;
        send := Some(Msg(address, b, peers[b].msgNum, peers[b].rmaNum));
      }
      var p := peers[b];
      var waiting := p.pending;
      peers := peers[b := p.(msg := ReadyToSend(m.msgNum), rma := ReadyToSend(m.rmaNum), established := true, pending := [])];
      out := out[b := OutTo(View(), b) + waiting];
      AnswerGroups(b);
    }

    /** Strike `b` off what the groups wait for. */
    method AnswerGroups(b: nat)
      modifies this`groups
      ensures groups == AnsweredAll(old(groups), b)
    {
      var todo := groups.Keys;
      while todo != {}
        invariant todo <= groups.Keys == old(groups).Keys
        invariant forall h :: h in groups ==> groups[h] == if h in todo then old(groups)[h] else Answered(old(groups)[h], b)
        decreases |todo|
      {
        var h :| h in todo;
        var g := groups[h];
        g := g.(awaited := g.awaited - {b});
        if b in groups[h].awaited && g.awaited == {} {
          g := g.(released := g.released + g.waiting, waiting := []);
        }
        assert g == Answered(groups[h], b);
        groups, todo := groups[h := g], todo - {h};
      }
    }

    /** Set up a peer group. */
    method Join(h: nat, members: seq<nat>) returns (greetings: seq<Msg>)
      modifies this
      ensures (View(), greetings) == AddGroup(old(View()), address, h, members)
    {
      hide Contact;
      greetings := [];
      if h in groups {
        return;
      }
      var awaited := {};
      assert members[0..] == members;
      for i := 0 to |members|
        invariant awaited == Unknown(old(View()), members[..i])
        invariant groups == old(groups) && peers.Keys == old(peers).Keys + awaited
        invariant Contact(old(View()), address, members).0 == Contact(View(), address, members[i..]).0
        invariant Contact(old(View()), address, members).1 == greetings + Contact(View(), address, members[i..]).1
      {
        var b := members[i];
        assert members[..i + 1] == members[..i] + [b];
        ContactNext(View(), address, members, i);
        if b !in peers {
          peers, nextNum := peers[b := Peer(nextNum, nextNum + 1, Reset, Reset, false, [])], nextNum + 2;
          greetings := greetings + [Msg(address, b, peers[b].msgNum, peers[b].rmaNum)];
          awaited := awaited + {b};
        }
      }
      assert members[..|members|] == members && members[|members|..] == [] && greetings + [] == greetings;
      ContactNone(View(), address);
      groups := groups[h := Group(members, awaited, [], [])];
    }

    method WriteGroup(h: nat, op: nat) returns (ok: bool)
      modifies this
      ensures (View(), ok) == GroupWrite(old(View()), h, op)
    {
      if h !in groups {
        return false;
      }
      var g := groups[h];
      if g.awaited != {} {
        groups := groups[h := g.(waiting := g.waiting + [op])];
      } else {
        groups := groups[h := g.(released := g.released + [op])];
      }
      ok := true;
    }
  }

  /** All domains, every message ever sent (a message once sent can be delivered any number of
      times), the ones delivered at least once, and what was submitted, by source and
      destination or group handle. */
  datatype World = World(nodes: seq<Node>, sent: seq<Msg>, delivered: set<Msg>,
                         asked: map<(nat, nat), seq<nat>>, groupAsked: map<(nat, nat), seq<nat>>)

  function Asked(w: World, a: nat, b: nat): seq<nat> {
    if (a, b) in w.asked then w.asked[(a, b)] else []
  }

  function GroupAsked(w: World, a: nat, h: nat): seq<nat> {
    if (a, h) in w.groupAsked then w.groupAsked[(a, h)] else []
  }

  function Send(sent: seq<Msg>, m: Option<Msg>): seq<Msg> {
    match m case None => sent case Some(v) => sent + [v]
  }

  function SubmitW(w: World, a: nat, b: nat, op: nat): World
    requires a < |w.nodes|
  {
    var (n, m) := SubmitOp(w.nodes[a], a, b, op);
    w.(nodes := w.nodes[a := n], sent := Send(w.sent, m), asked := w.asked[(a, b) := Asked(w, a, b) + [op]])
  }

  function DeliverW(w: World, m: Msg): World
    requires m.to < |w.nodes| && Fresh(w.nodes[m.to])
  {
    var (n, r) := OnHandshake(w.nodes[m.to], m.to, m);
    w.(nodes := w.nodes[m.to := n], sent := Send(w.sent, r), delivered := w.delivered + {m})
  }

  /** What holds of domain `a`'s view of `b`. */
  predicate PeerOk(w: World, a: nat, b: nat)
    requires a < |w.nodes|
  {
    var n := w.nodes[a];
    if b in n.peers then
      var p := n.peers[b];
      && p.msgNum < n.nextNum && p.rmaNum < n.nextNum && p.msgNum != p.rmaNum
      && Msg(a, b, p.msgNum, p.rmaNum) in w.sent
      && (if p.established then p.msg.ReadyToSend? && p.rma.ReadyToSend? && p.pending == []
                                && Msg(b, a, p.msg.remote, p.rma.remote) in w.sent
          else p.msg.Reset? && p.rma.Reset? && OutTo(n, b) == [])
      && Asked(w, a, b) == OutTo(n, b) + p.pending
    else Asked(w, a, b) == [] && OutTo(n, b) == []
  }

  /** Domain `a` has `b` up. */
  predicate Up(w: World, a: nat, b: nat)
    requires a < |w.nodes|
  {
    b in w.nodes[a].peers && w.nodes[a].peers[b].established
  }

  /** What holds of group `h` of domain `a`. */
  predicate GroupOk(w: World, a: nat, h: nat)
    requires a < |w.nodes|
  {
    var n := w.nodes[a];
    if h in n.groups then
      var g := n.groups[h];
      && (forall b :: b in g.awaited ==> b in n.peers && !n.peers[b].established)
      && (forall b :: b in g.members ==> b in n.peers)
      && (if g.awaited == {} then g.waiting == [] else g.released == [])
      && GroupAsked(w, a, h) == g.released + g.waiting
    else GroupAsked(w, a, h) == []
  }

  /** Every message is the greeting of a peer its sender has, and no sender greets twice. */
  predicate SentOk(w: World) {
    && (forall i :: 0 <= i < |w.sent| ==>
          && w.sent[i].from < |w.nodes| && w.sent[i].to in w.nodes[w.sent[i].from].peers
          && w.sent[i] == Greeting(w.nodes[w.sent[i].from], w.sent[i].from, w.sent[i].to))
    && (forall i, j :: 0 <= i < j < |w.sent| ==> w.sent[i].from != w.sent[j].from || w.sent[i].to != w.sent[j].to)
  }

  ghost predicate Inv(w: World) {
    && (forall a: nat, b: nat :: a < |w.nodes| ==> PeerOk(w, a, b))
    && (forall a: nat, h: nat :: a < |w.nodes| ==> GroupOk(w, a, h))
    && SentOk(w)
    && (forall m :: m in w.delivered ==> m in w.sent && m.to < |w.nodes| && m.from in w.nodes[m.to].peers
                                         && w.nodes[m.to].peers[m.from].established)
  }

  /** What every transition has in common: domain `a` changes only what it knows about `b`, and
      greets `b` just when it creates the peer. */
  ghost predicate Changes(w: World, w': World, a: nat, b: nat) {
    && a < |w.nodes| && |w'.nodes| == |w.nodes| && w'.nodes == w.nodes[a := w'.nodes[a]]
    && var n, n' := w.nodes[a], w'.nodes[a];
    && (forall c :: c != b ==> (c in n'.peers <==> c in n.peers) && (c in n.peers ==> n'.peers[c] == n.peers[c]))
    && (forall c :: c != b ==> OutTo(n', c) == OutTo(n, c))
    && n.nextNum <= n'.nextNum && b in n'.peers
    && (b in n.peers ==>
          && n'.peers[b].msgNum == n.peers[b].msgNum && n'.peers[b].rmaNum == n.peers[b].rmaNum
          && (n.peers[b].established ==> n'.peers[b].established)
          && w'.sent == w.sent)
    && (b !in n.peers ==> w'.sent == w.sent + [Greeting(n', a, b)])
    && (forall c: nat, d: nat :: (c, d) != (a, b) ==> Asked(w', c, d) == Asked(w, c, d))
    && w'.groupAsked == w.groupAsked
    && n'.groups == (if n'.peers[b].established && !(b in n.peers && n.peers[b].established)
                     then AnsweredAll(n.groups, b) else n.groups)
    && PeerOk(w', a, b)
  }

  /** Waiting for `b` to come up, and no longer when it has. */
  lemma ChangeGroup(w: World, w': World, a: nat, b: nat, c: nat, h: nat)
    requires Changes(w, w', a, b) && c < |w.nodes| && GroupOk(w, c, h)
    ensures GroupOk(w', c, h)
  {
    hide PeerOk;
  }

  lemma OtherPeer(w: World, w': World, a: nat, b: nat, c: nat, d: nat)
    requires Inv(w) && Changes(w, w', a, b) && c < |w.nodes| && (c, d) != (a, b)
    ensures PeerOk(w', c, d)
  {
    hide SentOk;
    assert PeerOk(w, c, d);
  }

  lemma SentKept(w: World, w': World, a: nat, b: nat, i: nat)
    requires Inv(w) && Changes(w, w', a, b) && i < |w.sent|
    ensures var m := w.sent[i];
            && m.from < |w'.nodes| && m.to in w'.nodes[m.from].peers && m == Greeting(w'.nodes[m.from], m.from, m.to)
            && (b !in w.nodes[a].peers ==> (m.from, m.to) != (a, b))
  {
    hide PeerOk;
  }

  lemma ChangeSent(w: World, w': World, a: nat, b: nat)
    requires Inv(w) && Changes(w, w', a, b)
    ensures SentOk(w')
  {
    hide PeerOk, SentOk;
    SentWas(w);
    forall i | 0 <= i < |w'.sent|
      ensures w'.sent[i].from < |w'.nodes| && w'.sent[i].to in w'.nodes[w'.sent[i].from].peers
      ensures w'.sent[i] == Greeting(w'.nodes[w'.sent[i].from], w'.sent[i].from, w'.sent[i].to)
    {
      if i < |w.sent| {
        SentKept(w, w', a, b, i);
      }
    }
    forall i, j | 0 <= i < j < |w'.sent| ensures w'.sent[i].from != w'.sent[j].from || w'.sent[i].to != w'.sent[j].to {
      SentKept(w, w', a, b, i);
    }
    SentIs(w');
  }

  lemma SentWas(w: World)
    requires SentOk(w)
    ensures forall i, j :: 0 <= i < j < |w.sent| ==> w.sent[i].from != w.sent[j].from || w.sent[i].to != w.sent[j].to
  {
  }

  lemma SentIs(w: World)
    requires forall i :: 0 <= i < |w.sent| ==>
               && w.sent[i].from < |w.nodes| && w.sent[i].to in w.nodes[w.sent[i].from].peers
               && w.sent[i] == Greeting(w.nodes[w.sent[i].from], w.sent[i].from, w.sent[i].to)
    requires forall i, j :: 0 <= i < j < |w.sent| ==> w.sent[i].from != w.sent[j].from || w.sent[i].to != w.sent[j].to
    ensures SentOk(w)
  {
  }

  lemma ChangeKeeps(w: World, w': World, a: nat, b: nat)
    requires Inv(w) && Changes(w, w', a, b)
    requires forall m :: m in w'.delivered ==>
               m in w.delivered || (m in w.sent && m.from == b && m.to == a && w'.nodes[a].peers[b].established)
    ensures Inv(w')
  {
    hide PeerOk, SentOk;
    forall c: nat, d: nat | c < |w'.nodes| ensures PeerOk(w', c, d) {
      if (c, d) != (a, b) {
        OtherPeer(w, w', a, b, c, d);
      }
    }
    forall c: nat, h: nat | c < |w'.nodes| ensures GroupOk(w', c, h) {
      ChangeGroup(w, w', a, b, c, h);
    }
    ChangeSent(w, w', a, b);
  }

  lemma NodesFresh(w: World, a: nat)
    requires Inv(w) && a < |w.nodes|
    ensures Fresh(w.nodes[a])
  {
    hide SentOk;
    forall b | b in w.nodes[a].peers && !w.nodes[a].peers[b].established
      ensures w.nodes[a].peers[b].msg.Reset? && w.nodes[a].peers[b].rma.Reset?
    {
      assert PeerOk(w, a, b);
    }
  }

  lemma SubmitPeer(w: World, a: nat, b: nat, op: nat)
    requires a < |w.nodes| && PeerOk(w, a, b)
    ensures PeerOk(SubmitW(w, a, b, op), a, b)
  {
  }

  lemma SubmitChanges(w: World, a: nat, b: nat, op: nat)
    requires a < |w.nodes| && PeerOk(w, a, b)
    ensures Changes(w, SubmitW(w, a, b, op), a, b)
  {
    SubmitPeer(w, a, b, op);
    hide PeerOk;
  }

  lemma SubmitKeeps(w: World, a: nat, b: nat, op: nat)
    requires Inv(w) && a < |w.nodes|
    ensures Inv(SubmitW(w, a, b, op))
  {
    hide SentOk, PeerOk, Changes;
    assert PeerOk(w, a, b);
    SubmitChanges(w, a, b, op);
    ChangeKeeps(w, SubmitW(w, a, b, op), a, b);
  }

  lemma DeliverPeer(w: World, m: Msg)
    requires m.to < |w.nodes| && m in w.sent && PeerOk(w, m.to, m.from) && Fresh(w.nodes[m.to])
    ensures PeerOk(DeliverW(w, m), m.to, m.from)
  {
  }

  lemma DeliverChanges(w: World, m: Msg)
    requires m.to < |w.nodes| && m in w.sent && PeerOk(w, m.to, m.from) && Fresh(w.nodes[m.to])
    ensures Changes(w, DeliverW(w, m), m.to, m.from)
    ensures DeliverW(w, m).nodes[m.to].peers[m.from].established
  {
    hide PeerOk;
    DeliverPeer(w, m);
    var n, w' := w.nodes[m.to], DeliverW(w, m);
    assert w'.nodes[m.to] == OnHandshake(n, m.to, m).0;
  }

  lemma DeliverKeeps(w: World, m: Msg)
    requires Inv(w) && m in w.sent && m.to < |w.nodes| && Fresh(w.nodes[m.to])
    ensures Inv(DeliverW(w, m))
  {
    hide SentOk, PeerOk, Changes, Fresh;
    assert PeerOk(w, m.to, m.from);
    DeliverChanges(w, m);
    ChangeKeeps(w, DeliverW(w, m), m.to, m.from);
  }

  /** One unknown member is contacted, without an operation waiting. */
  function ConnectW(w: World, a: nat, b: nat): World
    requires a < |w.nodes|
  {
    var n := Create(w.nodes[a], b, []);
    w.(nodes := w.nodes[a := n], sent := w.sent + [Greeting(n, a, b)])
  }

  lemma ConnectKeeps(w: World, a: nat, b: nat)
    requires Inv(w) && a < |w.nodes| && b !in w.nodes[a].peers
    ensures Inv(ConnectW(w, a, b)) && Changes(w, ConnectW(w, a, b), a, b)
  {
    hide SentOk, GroupOk;
    assert PeerOk(w, a, b);
    ConnectChanges(w, a, b);
    hide PeerOk, Changes;
    ChangeKeeps(w, ConnectW(w, a, b), a, b);
  }

  lemma ConnectChanges(w: World, a: nat, b: nat)
    requires a < |w.nodes| && b !in w.nodes[a].peers && PeerOk(w, a, b)
    ensures Changes(w, ConnectW(w, a, b), a, b)
  {
  }

  function ContactW(w: World, a: nat, members: seq<nat>): World
    requires a < |w.nodes|
  {
    var (n, greetings) := Contact(w.nodes[a], a, members);
    w.(nodes := w.nodes[a := n], sent := w.sent + greetings)
  }

  /** Contacting members keeps the invariant, the known peers and all groups as they are, and
      leaves the new ones unconnected. */
  lemma {:induction false} ContactKeeps(w: World, a: nat, members: seq<nat>)
    requires Inv(w) && a < |w.nodes|
    ensures Inv(ContactW(w, a, members))
    ensures var n, n' := w.nodes[a], ContactW(w, a, members).nodes[a];
            && n'.groups == n.groups && (forall b :: b in n'.peers <==> b in n.peers || b in members)
            && (forall b :: b in n.peers ==> n'.peers[b] == n.peers[b])
            && (forall b :: b in n'.peers && b !in n.peers ==> !n'.peers[b].established)
    decreases |members|
  {
    hide Inv, Changes, Greeting;
    if members == [] {
      assert w.nodes[a := w.nodes[a]] == w.nodes && w.sent + [] == w.sent;
      assert ContactW(w, a, members) == w;
    } else {
      assert members == [members[0]] + members[1..];
      var w1 := w;
      if members[0] !in w.nodes[a].peers {
        ConnectKeeps(w, a, members[0]);
        w1 := ConnectW(w, a, members[0]);
      }
      ContactKeeps(w1, a, members[1..]);
      ContactStep(w, a, members);
    }
  }

  lemma ContactStep(w: World, a: nat, members: seq<nat>)
    requires a < |w.nodes| && members != []
    ensures var b := members[0];
            ContactW(w, a, members) == ContactW(if b in w.nodes[a].peers then w else ConnectW(w, a, b), a, members[1..])
  {
    var b := members[0];
    if b !in w.nodes[a].peers {
      var w1 := ConnectW(w, a, b);
      var (n, greetings) := Contact(w1.nodes[a], a, members[1..]);
      assert w.sent + ([Greeting(w1.nodes[a], a, b)] + greetings) == w1.sent + greetings;
      assert w.nodes[a := n] == w1.nodes[a := n];
    }
  }

  function GroupW(w: World, a: nat, h: nat, members: seq<nat>): World
    requires a < |w.nodes|
  {
    var (n, greetings) := AddGroup(w.nodes[a], a, h, members);
    w.(nodes := w.nodes[a := n], sent := w.sent + greetings)
  }

  function GroupWriteW(w: World, a: nat, h: nat, op: nat): World
    requires a < |w.nodes|
  {
    var (n, ok) := GroupWrite(w.nodes[a], h, op);
    w.(nodes := w.nodes[a := n],
       groupAsked := if ok then w.groupAsked[(a, h) := GroupAsked(w, a, h) + [op]] else w.groupAsked)
  }

  /** Two worlds that differ in groups only. */
  predicate SameButGroups(w: World, w': World) {
    && |w'.nodes| == |w.nodes| && w'.sent == w.sent && w'.delivered == w.delivered && w'.asked == w.asked
    && forall a :: 0 <= a < |w.nodes| ==> w'.nodes[a] == w.nodes[a].(groups := w'.nodes[a].groups)
  }

  lemma RegroupKeeps(w: World, w': World)
    requires Inv(w) && SameButGroups(w, w')
    requires forall a: nat, h: nat :: a < |w'.nodes| ==> GroupOk(w', a, h)
    ensures Inv(w')
  {
    hide GroupOk;
    forall a: nat, b: nat | a < |w'.nodes| ensures PeerOk(w', a, b) {
      assert PeerOk(w, a, b);
    }
  }

  lemma GroupKeeps(w: World, a: nat, h: nat, members: seq<nat>)
    requires Inv(w) && a < |w.nodes|
    ensures Inv(GroupW(w, a, h, members))
  {
    hide PeerOk, SentOk, Contact;
    var w' := GroupW(w, a, h, members);
    if h in w.nodes[a].groups {
      assert w' == w;
    } else {
      ContactKeeps(w, a, members);
      var w1 := ContactW(w, a, members);
      forall c: nat, j: nat | c < |w'.nodes| ensures GroupOk(w', c, j) {
        assert GroupOk(w1, c, j);
      }
      RegroupKeeps(w1, w');
    }
  }

  lemma GroupWriteKeeps(w: World, a: nat, h: nat, op: nat)
    requires Inv(w) && a < |w.nodes|
    ensures Inv(GroupWriteW(w, a, h, op))
  {
    hide PeerOk, SentOk, GroupOk;
    var w' := GroupWriteW(w, a, h, op);
    forall c: nat, j: nat | c < |w'.nodes| ensures GroupOk(w', c, j) {
      GroupWriteOk(w, a, h, op, c, j);
    }
    RegroupKeeps(w, w');
  }

  lemma GroupWriteOk(w: World, a: nat, h: nat, op: nat, c: nat, j: nat)
    requires a < |w.nodes| && c < |w.nodes| && GroupOk(w, c, j)
    ensures GroupOk(GroupWriteW(w, a, h, op), c, j)
  {
  }

  datatype Action = DoSubmit(a: nat, b: nat, op: nat) | DoDeliver(m: Msg)
                  | DoGroup(a: nat, h: nat, members: seq<nat>) | DoGroupWrite(a: nat, h: nat, op: nat)

  predicate Allowed(w: World, x: Action) {
    match x
    case DoSubmit(a, b, op) => a < |w.nodes|
    case DoGroup(a, h, members) => a < |w.nodes|
    case DoGroupWrite(a, h, op) => a < |w.nodes|
    case DoDeliver(m) => m in w.sent && m.to < |w.nodes| && Fresh(w.nodes[m.to])
  }

  function Apply(w: World, x: Action): World
    requires Allowed(w, x)
  {
    match x
    case DoSubmit(a, b, op) => SubmitW(w, a, b, op)
    case DoDeliver(m) => DeliverW(w, m)
    case DoGroup(a, h, members) => GroupW(w, a, h, members)
    case DoGroupWrite(a, h, op) => GroupWriteW(w, a, h, op)
  }

  function Begin(n: nat): World {
    World(seq(n, _ => IDLE), [], {}, map[], map[])
  }

  ghost predicate Run(ws: seq<World>, xs: seq<Action>, n: nat) {
    && |ws| == |xs| + 1 && ws[0] == Begin(n)
    && forall k :: 0 <= k < |xs| ==> Allowed(ws[k], xs[k]) && ws[k + 1] == Apply(ws[k], xs[k])
  }

  lemma BeginInv(n: nat)
    ensures Inv(Begin(n)) && |Begin(n).nodes| == n
  {
  }

  lemma StepKeeps(w: World, x: Action)
    requires Inv(w) && Allowed(w, x)
    ensures Inv(Apply(w, x)) && |Apply(w, x).nodes| == |w.nodes|
  {
    hide Inv, SubmitOp, OnHandshake, AddGroup, GroupWrite;
    match x
    case DoSubmit(a, b, op) => SubmitKeeps(w, a, b, op);
    case DoDeliver(m) => DeliverKeeps(w, m);
    case DoGroup(a, h, members) => GroupKeeps(w, a, h, members);
    case DoGroupWrite(a, h, op) => GroupWriteKeeps(w, a, h, op);
  }

  lemma {:induction false} RunInv(ws: seq<World>, xs: seq<Action>, n: nat, k: nat)
    requires Run(ws, xs, n) && k <= |xs|
    ensures Inv(ws[k]) && |ws[k].nodes| == n
  {
    hide Inv, Begin, Apply, Allowed;
    BeginInv(n);
    if k > 0 {
      RunInv(ws, xs, n, k - 1);
      StepKeeps(ws[k - 1], xs[k - 1]);
    }
  }

  /** A message can always be delivered: the receiver's unconnected pairs are in the state that
      bringing them up needs. */
  lemma NeverRefused(w: World, m: Msg)
    requires Inv(w) && m in w.sent && m.to < |w.nodes|
    ensures Allowed(w, DoDeliver(m))
  {
    hide Inv;
    NodesFresh(w, m.to);
  }

  /** One handshake each way at most, in every run. */
  lemma GreetsOnce(w: World, i: nat, j: nat)
    requires Inv(w) && i < |w.sent| && j < |w.sent|
    requires w.sent[i].from == w.sent[j].from && w.sent[i].to == w.sent[j].to
    ensures i == j
  {
    hide PeerOk;
  }

  /** Once `a` has `b` up, `b` has a peer for `a`, and `a`'s pairs point at exactly its pairs. */
  lemma PairsAgree(w: World, a: nat, b: nat)
    requires Inv(w) && a < |w.nodes| && b < |w.nodes| && b in w.nodes[a].peers && w.nodes[a].peers[b].established
    ensures a in w.nodes[b].peers
    ensures w.nodes[a].peers[b].msg == ReadyToSend(w.nodes[b].peers[a].msgNum)
    ensures w.nodes[a].peers[b].rma == ReadyToSend(w.nodes[b].peers[a].rmaNum)
  {
    assert PeerOk(w, a, b);
    var p := w.nodes[a].peers[b];
    var i :| 0 <= i < |w.sent| && w.sent[i] == Msg(b, a, p.msg.remote, p.rma.remote);
  }

  /** A peer is created once: whatever happens, its numbers stay. */
  lemma PeerStays(w: World, x: Action, a: nat, b: nat)
    requires Inv(w) && Allowed(w, x) && a < |w.nodes| && b in w.nodes[a].peers
    ensures a < |Apply(w, x).nodes| && b in Apply(w, x).nodes[a].peers
    ensures Apply(w, x).nodes[a].peers[b].msgNum == w.nodes[a].peers[b].msgNum
    ensures Apply(w, x).nodes[a].peers[b].rmaNum == w.nodes[a].peers[b].rmaNum
    ensures w.nodes[a].peers[b].established ==> Apply(w, x).nodes[a].peers[b].established
  {
    hide SentOk, PeerOk, GroupOk, SubmitW, DeliverW, Contact, Fresh;
    match x
    case DoSubmit(c, d, op) =>
      assert PeerOk(w, c, d);
      SubmitChanges(w, c, d, op);
    case DoDeliver(m) =>
      assert PeerOk(w, m.to, m.from);
      DeliverChanges(w, m);
    case DoGroup(c, h, members) => ContactKeeps(w, c, members);
    case DoGroupWrite(c, h, op) =>
  }

  /** Operations are released exactly once, in the order they were submitted: nothing before
      the connection is up, everything after. */
  lemma ReleasedInOrder(w: World, a: nat, b: nat)
    requires Inv(w) && a < |w.nodes|
    ensures OutTo(w.nodes[a], b) == if b in w.nodes[a].peers && w.nodes[a].peers[b].established then Asked(w, a, b) else []
  {
    hide SentOk;
    assert PeerOk(w, a, b);
  }

  /** When every message has been delivered at least once, every connection that anyone started
      is up on both sides. */
  lemma AllConnected(w: World, a: nat, b: nat)
    requires Inv(w) && a < |w.nodes| && b < |w.nodes| && b in w.nodes[a].peers
    requires forall i :: 0 <= i < |w.sent| ==> w.sent[i] in w.delivered
    ensures w.nodes[a].peers[b].established && a in w.nodes[b].peers && w.nodes[b].peers[a].established
  {
    hide SentOk;
    assert PeerOk(w, a, b);
    Delivered(w, a, b);
    assert PeerOk(w, b, a);
    Delivered(w, b, a);
  }

  lemma Delivered(w: World, a: nat, b: nat)
    requires Inv(w) && a < |w.nodes| && b < |w.nodes| && b in w.nodes[a].peers
    requires forall i :: 0 <= i < |w.sent| ==> w.sent[i] in w.delivered
    ensures a in w.nodes[b].peers && w.nodes[b].peers[a].established
  {
    hide SentOk;
    assert PeerOk(w, a, b);
    var m := Greeting(w.nodes[a], a, b);
    assert m in w.sent;
    var i :| 0 <= i < |w.sent| && w.sent[i] == m;
    assert m in w.delivered;
  }

  predicate Numbered(n: Node, b: nat)
    requires b in n.peers
  {
    n.peers[b].msgNum < n.nextNum && n.peers[b].rmaNum < n.nextNum && n.peers[b].msgNum != n.peers[b].rmaNum
  }

  predicate NoneShared(n: Node, b: nat, c: nat)
    requires b in n.peers && c in n.peers
  {
    && n.peers[b].msgNum != n.peers[c].msgNum && n.peers[b].msgNum != n.peers[c].rmaNum
    && n.peers[b].rmaNum != n.peers[c].msgNum && n.peers[b].rmaNum != n.peers[c].rmaNum
  }

  /** All queue pairs of a domain have different numbers. */
  predicate Apart(n: Node) {
    && (forall b :: b in n.peers ==> Numbered(n, b))
    && (forall b, c :: b in n.peers && c in n.peers && b != c ==> NoneShared(n, b, c))
  }

  lemma CreateApart(n: Node, b: nat, pending: seq<nat>)
    requires Apart(n) && b !in n.peers
    ensures Apart(Create(n, b, pending))
  {
    var n' := Create(n, b, pending);
    forall c | c in n'.peers ensures Numbered(n', c) {
      assert c != b ==> Numbered(n, c);
    }
    forall c, d | c in n'.peers && d in n'.peers && c != d ensures NoneShared(n', c, d) {
      if c != b && d != b {
        assert NoneShared(n, c, d);
      } else if c != b {
        assert Numbered(n, c);
      } else {
        assert Numbered(n, d);
      }
    }
  }

  lemma SameApart(n: Node, n': Node)
    requires Apart(n) && n'.nextNum == n.nextNum && n'.peers.Keys == n.peers.Keys
    requires forall b :: b in n.peers ==> n'.peers[b].msgNum == n.peers[b].msgNum && n'.peers[b].rmaNum == n.peers[b].rmaNum
    ensures Apart(n')
  {
    forall b | b in n'.peers ensures Numbered(n', b) {
      assert Numbered(n, b);
    }
    forall b, c | b in n'.peers && c in n'.peers && b != c ensures NoneShared(n', b, c) {
      assert NoneShared(n, b, c);
    }
  }

  lemma SubmitApart(n: Node, self: nat, b: nat, op: nat)
    requires Apart(n)
    ensures Apart(SubmitOp(n, self, b, op).0)
  {
    hide Apart;
    if b in n.peers {
      SameApart(n, SubmitOp(n, self, b, op).0);
    } else {
      CreateApart(n, b, [op]);
    }
  }

  lemma HandshakeApart(n: Node, self: nat, m: Msg)
    requires Apart(n) && Fresh(n)
    ensures Apart(OnHandshake(n, self, m).0)
  {
    hide Apart;
    if m.from !in n.peers {
      CreateApart(n, m.from, []);
      SameApart(Create(n, m.from, []), OnHandshake(n, self, m).0);
    } else {
      SameApart(n, OnHandshake(n, self, m).0);
    }
  }

  lemma {:induction false} ContactApart(n: Node, self: nat, members: seq<nat>)
    requires Apart(n)
    ensures Apart(Contact(n, self, members).0)
    decreases |members|
  {
    hide Apart;
    if members != [] {
      if members[0] in n.peers {
        ContactApart(n, self, members[1..]);
      } else {
        CreateApart(n, members[0], []);
        ContactApart(Create(n, members[0], []), self, members[1..]);
      }
    }
  }

  ghost predicate AllApart(w: World) {
    forall a :: 0 <= a < |w.nodes| ==> Apart(w.nodes[a])
  }

  lemma StepApart(w: World, x: Action)
    requires AllApart(w) && Allowed(w, x)
    ensures AllApart(Apply(w, x))
  {
    hide Apart, SubmitOp, OnHandshake, Contact;
    match x
    case DoSubmit(a, b, op) => SubmitApart(w.nodes[a], a, b, op);
    case DoDeliver(m) => HandshakeApart(w.nodes[m.to], m.to, m);
    case DoGroup(a, h, members) =>
      ContactApart(w.nodes[a], a, members);
      if h !in w.nodes[a].groups {
        SameApart(Contact(w.nodes[a], a, members).0, Apply(w, x).nodes[a]);
      }
    case DoGroupWrite(a, h, op) => SameApart(w.nodes[a], Apply(w, x).nodes[a]);
  }

  lemma {:induction false} RunApart(ws: seq<World>, xs: seq<Action>, n: nat, k: nat)
    requires Run(ws, xs, n) && k <= |xs|
    ensures AllApart(ws[k])
  {
    hide Apply, Allowed, Apart;
    if k > 0 {
      RunApart(ws, xs, n, k - 1);
      StepApart(ws[k - 1], xs[k - 1]);
    } else {
      IdleApart();
    }
  }

  lemma IdleApart()
    ensures Apart(IDLE)
  {
  }

  /** In every run, no two queue pairs that are up point at the same pair of the other side: the
      connections are one to one. */
  lemma NoPairShared(ws: seq<World>, xs: seq<Action>, n: nat, k: nat, a: nat, c: nat, b: nat)
    requires Run(ws, xs, n) && k <= |xs| && a < n && b < n && c < n && a != c
    requires a < |ws[k].nodes| && c < |ws[k].nodes| && Up(ws[k], a, b) && Up(ws[k], c, b)
    ensures var p, q := ws[k].nodes[a].peers[b], ws[k].nodes[c].peers[b];
            && p.msg != p.rma && q.msg != q.rma && p.msg != q.msg && p.msg != q.rma && p.rma != q.msg && p.rma != q.rma
  {
    hide Inv, Apply, Allowed;
    RunInv(ws, xs, n, k);
    RunApart(ws, xs, n, k);
    PairsAgree(ws[k], a, b);
    PairsAgree(ws[k], c, b);
    assert Apart(ws[k].nodes[b]);
    assert NoneShared(ws[k].nodes[b], a, c) && Numbered(ws[k].nodes[b], a) && Numbered(ws[k].nodes[b], c);
  }
}
