/** The in-process message substrate (comm/node-comm.ts).

    A `LocalChannel` is a rendezvous mailbox for one ordered pair of nodes. It
    holds two FIFO queues: messages sent while nobody waited (`send_queue`) and
    receivers that asked while nothing was buffered (`recv_queue`). A parked
    receiver is a promise resolver; here it is a `Ticket`, and resolving it is
    recorded in the ghost map `resolved`. The ghost histories `sent` and `gets`
    (every message sent, every promise handed out, in order) state FIFO
    delivery as an invariant.

    A `LocalHub` owns one channel per declared directed edge; a
    `LocalCommunicator` is one node's view of a hub. */
module NodeComm {
  import opened Wrappers

  type NodeId = string

  /** A payload together with the node it came from. */
  datatype Tagged<M> = Tagged(from: NodeId, message: M) {
    /** `Tagged.map`: the same sender, the payload transformed by `f`. */
    function Map<N>(f: M -> N): (r: Tagged<N>)
      ensures r.from == from && r.message == f(message)
    {
      Tagged(from, f(message))
    }
  }

  lemma MapComposes<A, B, C>(t: Tagged<A>, f: A -> B, g: B -> C)
    ensures t.Map(f).Map(g) == t.Map(x => g(f(x)))
    ensures t.Map(x => x) == t
  {
  }

  /** A parked receiver: the ordinal of the `get_message` call that parked it. */
  type Ticket = nat

  /** The promise `get_message` returns: already resolved with a buffered
      message, or pending on a parked receiver. */
  datatype Delivery<M> = Ready(value: M) | Parked(ticket: Ticket) {
    /** The promise `.then(f)` gives. */
    function Map<N>(f: M -> N): (r: Delivery<N>)
      ensures Ready? ==> r == Ready(f(value))
      ensures Parked? ==> r == Parked(ticket)
    {
      match this
      case Ready(m) => Ready(f(m))
      case Parked(t) => Parked(t)
    }
  }

  /** The abstract state of one channel: its two queues, the ticket the next
      `get_message` call gets, and the ghost record of resolutions and history. */
  datatype ChannelState<M> = ChannelState(
    sendQueue: seq<M>,
    recvQueue: seq<Ticket>,
    nextTicket: Ticket,
    resolved: map<Ticket, M>,
    sent: seq<M>,
    gets: seq<Delivery<M>>)

  function EmptyChannel<M>(): ChannelState<M> {
    ChannelState([], [], 0, map[], [], [])
  }

  /** What a promise handed out by the channel resolves to, if it has resolved. */
  function ValueOf<M>(c: ChannelState<M>, d: Delivery<M>): Option<M> {
    match d
    case Ready(m) => Some(m)
    case Parked(t) => if t in c.resolved then Some(c.resolved[t]) else None
  }

  /** The consecutive tickets `lo, lo + 1, ..., hi - 1`. */
  function Tickets(lo: nat, hi: nat): (r: seq<Ticket>)
    requires lo <= hi
    ensures |r| == hi - lo && forall i :: 0 <= i < |r| ==> r[i] == lo + i
  {
    seq(hi - lo, i => lo + i)
  }

  /** The channel invariant. Sends and receives are matched by their ordinal:
      while there are more sends than receives the surplus messages are
      buffered, in order; while there are more receives, the surplus receivers
      are parked, in order; and every matched receive yields its send (FIFO). */
  ghost predicate Inv<M>(c: ChannelState<M>) {
    && c.nextTicket == |c.gets|
    && (forall k :: 0 <= k < |c.gets| && c.gets[k].Parked? ==> c.gets[k].ticket == k)
    && (|c.gets| <= |c.sent| ==> c.sendQueue == c.sent[|c.gets|..] && c.recvQueue == [])
    && (|c.sent| <= |c.gets| ==> c.sendQueue == [] && c.recvQueue == Tickets(|c.sent|, |c.gets|))
    && (forall t :: t in c.resolved ==> t < |c.sent|)
    && (forall k :: |c.sent| <= k < |c.gets| ==> c.gets[k] == Parked(k))
    && (forall k :: 0 <= k < |c.sent| && k < |c.gets| ==> ValueOf(c, c.gets[k]) == Some(c.sent[k]))
  }

  /** `send_message`: hand the message to the oldest parked receiver, or buffer it. */
  function Send<M>(c: ChannelState<M>, m: M): (c': ChannelState<M>)
    ensures c'.sent == c.sent + [m] && c'.gets == c.gets && c'.nextTicket == c.nextTicket
    ensures c.recvQueue == [] ==>
              c'.sendQueue == c.sendQueue + [m] && c'.recvQueue == [] && c'.resolved == c.resolved
    ensures c.recvQueue != [] ==>
              c'.recvQueue == c.recvQueue[1..] && c'.sendQueue == c.sendQueue &&
              c'.resolved == c.resolved[c.recvQueue[0] := m]
  {
    if c.recvQueue == [] then
      c.(sendQueue := c.sendQueue + [m], sent := c.sent + [m])
    else
      c.(recvQueue := c.recvQueue[1..], resolved := c.resolved[c.recvQueue[0] := m], sent := c.sent + [m])
  }

  /** `get_message`: take the oldest buffered message, or park a new receiver. */
  function Receive<M>(c: ChannelState<M>): (r: (ChannelState<M>, Delivery<M>))
    ensures r.0.sent == c.sent && r.0.gets == c.gets + [r.1] && r.0.resolved == c.resolved
    ensures r.0.nextTicket == c.nextTicket + 1
    ensures c.sendQueue != [] ==>
              r.1 == Ready(c.sendQueue[0]) && r.0.sendQueue == c.sendQueue[1..] && r.0.recvQueue == c.recvQueue
    ensures c.sendQueue == [] ==>
              r.1 == Parked(c.nextTicket) && r.0.recvQueue == c.recvQueue + [c.nextTicket] && r.0.sendQueue == []
  {
    if c.sendQueue != [] then
      var d := Ready(c.sendQueue[0]);
      (c.(sendQueue := c.sendQueue[1..], nextTicket := c.nextTicket + 1, gets := c.gets + [d]), d)
    else
      var d := Parked(c.nextTicket);
      (c.(recvQueue := c.recvQueue + [c.nextTicket], nextTicket := c.nextTicket + 1, gets := c.gets + [d]), d)
  }

  lemma EmptyChannelInv<M>()
    ensures Inv(EmptyChannel<M>())
  {
  }

  /** The two queues are never both non-empty. */
  lemma QueuesExclusive<M>(c: ChannelState<M>)
    requires Inv(c)
    ensures c.sendQueue == [] || c.recvQueue == []
  {
  }

  lemma SendKeepsInv<M>(c: ChannelState<M>, m: M)
    requires Inv(c)
    ensures Inv(Send(c, m))
  {
    var c' := Send(c, m);
    if c.recvQueue != [] {
      var t := c.recvQueue[0];
      assert t == |c.sent|;
      forall k | 0 <= k < |c'.sent| && k < |c'.gets|
        ensures ValueOf(c', c'.gets[k]) == Some(c'.sent[k])
      {
        if k < |c.sent| {
          assert ValueOf(c, c.gets[k]) == Some(c.sent[k]);
        }
      }
    }
  }

  lemma ReceiveKeepsInv<M>(c: ChannelState<M>)
    requires Inv(c)
    ensures Inv(Receive(c).0)
  {
    var (c', d) := Receive(c);
    if c.sendQueue != [] {
      assert c.sendQueue[0] == c.sent[|c.gets|];
      assert c.sent[|c.gets|..][1..] == c.sent[|c'.gets|..];
    } else {
      assert c'.recvQueue == Tickets(|c.sent|, |c'.gets|);
    }
  }

  /** One call on a channel: `send_message(m)` or `get_message()`. */
  datatype ChannelOp<M> = SendOp(m: M) | GetOp

  function Run<M>(c: ChannelState<M>, ops: seq<ChannelOp<M>>): ChannelState<M>
    decreases |ops|
  {
    if ops == [] then c
    else
      var c' := Run(c, ops[..|ops| - 1]);
      match ops[|ops| - 1]
      case SendOp(m) => Send(c', m)
      case GetOp => Receive(c').0
  }

  /** FIFO, for every interleaving of calls on a fresh channel: the k-th
      `get_message` yields the k-th message sent, whether the receiver asked
      before or after the send; and the queues are never both non-empty. */
  lemma {:induction false} RunFifo<M>(ops: seq<ChannelOp<M>>)
    ensures Inv(Run(EmptyChannel(), ops))
    ensures var c := Run(EmptyChannel(), ops);
            forall k :: 0 <= k < |c.sent| && k < |c.gets| ==> ValueOf(c, c.gets[k]) == Some(c.sent[k])
    ensures var c := Run(EmptyChannel(), ops); c.sendQueue == [] || c.recvQueue == []
    decreases |ops|
  {
    if ops == [] {
      EmptyChannelInv<M>();
    } else {
      RunFifo(ops[..|ops| - 1]);
      var c' := Run(EmptyChannel(), ops[..|ops| - 1]);
      match ops[|ops| - 1]
      case SendOp(m) => SendKeepsInv(c', m);
      case GetOp => ReceiveKeepsInv(c');
    }
  }

  /** The scenario of the channel test: two sends then two receives, then two
      receives that park before two sends resolve them. */
  lemma ChannelScenario()
    ensures var c1 := Send(Send(EmptyChannel(), "hello"), "world");
            var (c2, d1) := Receive(c1);
            var (c3, d2) := Receive(c2);
            d1 == Ready("hello") && d2 == Ready("world") &&
            var (c4, d3) := Receive(c3);
            var (c5, d4) := Receive(c4);
            var c6 := Send(Send(c5, "ni hao"), "shi jie");
            ValueOf(c6, d3) == Some("ni hao") && ValueOf(c6, d4) == Some("shi jie")
  {
  }

  class LocalChannel<M> {
    var sendQueue: seq<M>
    var recvQueue: seq<Ticket>
    var nextTicket: Ticket
    ghost var resolved: map<Ticket, M>
    ghost var sent: seq<M>
    ghost var gets: seq<Delivery<M>>
    /** The pair of map keys under which the owning hub files this channel. */
    ghost const slot: (NodeId, NodeId)

    ghost function State(): ChannelState<M>
      reads this
    {
      ChannelState(sendQueue, recvQueue, nextTicket, resolved, sent, gets)
    }

    ghost predicate Valid()
      reads this
    {
      Inv(State())
    }

    constructor (ghost slot: (NodeId, NodeId))
      ensures Valid() && State() == EmptyChannel() && this.slot == slot
    {
      sendQueue, recvQueue, nextTicket := [], [], 0;
      resolved, sent, gets := map[], [], [];
      this.slot := slot;
    }

    method SendMessage(m: M)
      requires Valid()
      modifies this
      ensures Valid() && State() == Send(old(State()), m)
    {
      SendKeepsInv(State(), m);
      if recvQueue == [] {
        sendQueue := sendQueue + [m];
      } else {
        resolved := resolved[recvQueue[0] := m];
        recvQueue := recvQueue[1..];
      }
      sent := sent + [m];
    }

    method GetMessage() returns (d: Delivery<M>)
      requires Valid()
      modifies this
      ensures Valid() && (State(), d) == Receive(old(State()))
    {
      ReceiveKeepsInv(State());
      if sendQueue != [] {
        d := Ready(sendQueue[0]);
        sendQueue := sendQueue[1..];
      } else {
        d := Parked(nextTicket);
        recvQueue := recvQueue + [nextTicket];
      }
      nextTicket := nextTicket + 1;
      gets := gets + [d];
    }
  }

  /** A directed pair of nodes, naming one channel of a hub. */
  type Link = (NodeId, NodeId)

  /** Channel states of a hub, by link. */
  type ChannelMap<M> = map<Link, ChannelState<M>>

  /** Channel objects of a hub, by link. The repository nests two maps
      (first key, then second key); a table on pairs holds the same channels. */
  type ChannelTable<M> = map<Link, LocalChannel<M>>

  ghost predicate Covers<M>(chans: ChannelTable<M>, repr: set<LocalChannel<M>>) {
    forall k :: k in chans ==> chans[k] in repr
  }

  /** The states of all channels of a table whose channels lie in `repr`. */
  ghost function Snapshot<M>(chans: ChannelTable<M>, repr: set<LocalChannel<M>>): (s: ChannelMap<M>)
    requires Covers(chans, repr)
    reads repr
    ensures s.Keys == chans.Keys
  {
    map k | k in chans :: chans[k].State()
  }

  /** When all channels of a table hold the states recorded in `s` except the
      one at `k`, the table's snapshot is `s` with `k` updated. */
  lemma SnapshotWithOneChanged<M>(chans: ChannelTable<M>, repr: set<LocalChannel<M>>, k: Link, s: ChannelMap<M>)
    requires Covers(chans, repr) && k in chans && s.Keys == chans.Keys
    requires forall k' :: k' in chans && k' != k ==> chans[k'].State() == s[k']
    ensures Snapshot(chans, repr) == s[k := chans[k].State()]
  {
  }

  /** The channels the hub constructor files under `from`: one fresh, empty
      channel per listed `to` (a repeated `to` keeps the last one made). */
  method AddRow<M>(chans: ChannelTable<M>, from: NodeId, tos: seq<NodeId>)
    returns (chans': ChannelTable<M>, ghost made: set<LocalChannel<M>>)
    ensures forall f, t :: (f, t) in chans' <==> (f, t) in chans || (f == from && t in tos)
    ensures forall k :: k in chans' ==> (k.0 == from && k.1 in tos && chans'[k] in made) || (k in chans && chans'[k] == chans[k])
    ensures forall k :: k in chans' && k.0 == from && k.1 in tos ==> chans'[k].slot == k
    ensures forall c :: c in made ==> fresh(c) && c.State() == EmptyChannel()
  {
    chans', made := chans, {};
    for j := 0 to |tos|
      invariant forall f, t :: (f, t) in chans' <==> (f, t) in chans || (f == from && t in tos[..j])
      invariant forall k :: k in chans' ==> (k.0 == from && k.1 in tos[..j] && chans'[k] in made) || (k in chans && chans'[k] == chans[k])
      invariant forall k :: k in chans' && k.0 == from && k.1 in tos[..j] ==> chans'[k].slot == k
      invariant forall c :: c in made ==> fresh(c) && c.State() == EmptyChannel()
    {
      assert tos[..j + 1] == tos[..j] + [tos[j]];
      var c := new LocalChannel<M>((from, tos[j]));
      chans', made := chans'[(from, tos[j]) := c], made + {c};
    }
    assert tos[..|tos|] == tos;
  }

  class LocalHub<M> {
    const nNodes: int
    const nodes: set<NodeId>
    const topology: map<NodeId, seq<NodeId>>
    /** (from, to) -> channel */
    const channels: ChannelTable<M>
    ghost const Repr: set<LocalChannel<M>>

    /** The hub's fixed wiring: one channel per declared edge, filed under its link. */
    ghost predicate Wired() {
      && nodes == topology.Keys && nNodes == |nodes|
      && (forall f, t :: (f, t) in channels <==> f in topology && t in topology[f])
      && Covers(channels, Repr)
      && (forall k :: k in channels ==> channels[k].slot == k)
    }

    ghost predicate Valid()
      reads this, Repr
    {
      Wired() && forall c :: c in Repr ==> c.Valid()
    }

    ghost function State(): ChannelMap<M>
      reads this, Repr
      requires Wired()
    {
      Snapshot(channels, Repr)
    }

    /** One fresh, empty channel for every `to` listed under every `from`. */
    constructor (topology: map<NodeId, seq<NodeId>>)
      ensures Valid() && fresh(Repr)
      ensures this.topology == topology && nodes == topology.Keys && nNodes == |topology.Keys|
      ensures forall k :: k in channels ==> channels[k].State() == EmptyChannel()
    {
      var chans: ChannelTable<M> := map[];
      ghost var repr: set<LocalChannel<M>> := {};
      var froms := topology.Keys;
      while froms != {}
        invariant froms <= topology.Keys
        invariant forall f, t :: (f, t) in chans <==> f in topology && f !in froms && t in topology[f]
        invariant forall k :: k in chans ==> chans[k].slot == k
        invariant Covers(chans, repr)
        invariant forall c :: c in repr ==> fresh(c) && c.State() == EmptyChannel()
        decreases froms
      {
        var from :| from in froms;
        ghost var made;
        chans, made := AddRow(chans, from, topology[from]);
        repr := repr + made;
        froms := froms - {from};
      }
      this.nodes := topology.Keys;
      this.nNodes := |topology.Keys|;
      this.topology := topology;
      this.channels := chans;
      this.Repr := repr;
      new;
      EmptyChannelInv<M>();
    }

    /** `get_communicator`: only for a node listed in the topology. */
    method GetCommunicator(me: NodeId) returns (r: Result<LocalCommunicator<M>>)
      ensures r.Ok? <==> me in nodes
      ensures r.Err? ==> r.error == "Node not found"
      ensures r.Ok? ==> fresh(r.value) && r.value.me == me && r.value.hub == this
    {
      if me !in nodes {
        return Err("Node not found");
      }
      var comm := new LocalCommunicator(me, this);
      r := Ok(comm);
    }
  }

  class LocalCommunicator<M> {
    const me: NodeId
    const hub: LocalHub<M>

    constructor (me: NodeId, hub: LocalHub<M>)
      ensures this.me == me && this.hub == hub
    {
      this.me := me;
      this.hub := hub;
    }

    /** `num_nodes`: the number of topology keys. */
    function NumNodes(): (n: int)
      reads hub, hub.Repr
      requires hub.Valid()
      ensures n == |hub.topology.Keys|
    {
      hub.nNodes
    }

    /** `neighbors`: the list declared for this node, or none. */
    function Neighbors(): (ns: seq<NodeId>)
      ensures me in hub.topology ==> ns == hub.topology[me]
      ensures me !in hub.topology ==> ns == []
    {
      if me in hub.topology then hub.topology[me] else []
    }

    /** `send_message`: into the me -> to channel; throws, changing nothing,
        unless `me` is a topology key listing `to`. */
    method SendMessage(to: NodeId, m: M) returns (r: Outcome)
      requires hub.Valid()
      modifies hub.Repr
      ensures hub.Valid()
      ensures r.Ok? <==> me in hub.topology && to in hub.topology[me]
      ensures r.Err? ==> r.error == "Node not found" && hub.State() == old(hub.State())
      ensures r.Ok? ==> hub.State() == old(hub.State())[(me, to) := Send(old(hub.State())[(me, to)], m)]
    {
      if (me, to) !in hub.channels {
        return Err("Node not found");
      }
      var channel := hub.channels[(me, to)];
      ghost var s := hub.State();
      channel.SendMessage(m);
      forall k | k in hub.channels && k != (me, to)
        ensures hub.channels[k].State() == s[k]
      {
        assert hub.channels[k].slot != channel.slot;
      }
      SnapshotWithOneChanged(hub.channels, hub.Repr, (me, to), s);
      r := Ok(());
    }

    /** `get_message(from)`: from the from -> me channel only, tagged with
        `from`; throws, changing nothing, unless `from` lists `me`. */
    method GetMessage(from: NodeId) returns (r: Result<Tagged<Delivery<M>>>)
      requires hub.Valid()
      modifies hub.Repr
      ensures hub.Valid()
      ensures r.Ok? <==> from in hub.topology && me in hub.topology[from]
      ensures r.Err? ==> r.error == "Node not found" && hub.State() == old(hub.State())
      ensures r.Ok? ==> r.value == Tagged(from, Receive(old(hub.State())[(from, me)]).1)
      ensures r.Ok? ==> hub.State() == old(hub.State())[(from, me) := Receive(old(hub.State())[(from, me)]).0]
    {
      if (from, me) !in hub.channels {
        return Err("Node not found");
      }
      var channel := hub.channels[(from, me)];
      ghost var s := hub.State();
      var d := channel.GetMessage();
      forall k | k in hub.channels && k != (from, me)
        ensures hub.channels[k].State() == s[k]
      {
        assert hub.channels[k].slot != channel.slot;
      }
      SnapshotWithOneChanged(hub.channels, hub.Repr, (from, me), s);
      r := Ok(Tagged(from, d));
    }
  }
}
