/** A hub that serves only some nodes of the network (comm/mixed-comm.ts).

    Its mailboxes are keyed the other way round from `LocalHub`'s: receiver
    first, sender second (`recv_channels`: to -> from -> channel), and they
    are created lazily by `get_channel`. A message for a node the hub does not
    serve is handed to the `send_message_callback`; the model records every
    such call, in order, in `outbox`, and leaves what the callback does to its
    caller (the multi-node setup wires it to the other hubs).

    The behaviour is first given on values (`HubState`, `OpenChannel`,
    `HandleSpec`, `SendSpec`, `ReceiveSpec`); the `MixedHub` class is proved
    to follow it. `encoded_communicator` (comm/node-comm.ts) sits here too,
    wrapping a `MixedCommunicator`, the communicator it wraps in the
    repository's multi-node setup. */
module MixedComm {
  import opened Wrappers
  import opened NodeComm

  /** The hub's read-only parameters: the network size it reports, the nodes
      it serves and the neighbour lists of (some of) the nodes. */
  datatype HubConfig = HubConfig(nTotal: int, local: set<NodeId>, topology: map<NodeId, seq<NodeId>>)

  /** One call of the send callback: a message for a node served elsewhere. */
  datatype Relay<M> = Relay(to: NodeId, tagged: Tagged<M>)

  /** The hub on values: its mailboxes (to -> from) and the callback calls so far. */
  datatype HubState<M> = HubState(recv: ChannelMap<M>, outbox: seq<Relay<M>>)

  /** What reading a missing neighbour list throws in `send_message`. */
  const TopologyMissing := "TypeError: Cannot read properties of undefined (reading 'includes')"

  /** The mailbox from `from` to `to`; one not created yet counts as empty,
      which is what `get_channel` would create. */
  function ChannelAt<M>(recv: ChannelMap<M>, to: NodeId, from: NodeId): ChannelState<M> {
    if (to, from) in recv then recv[(to, from)] else EmptyChannel()
  }

  /** `get_channel` on values: the receiver must be served here; a missing
      mailbox is created empty (`OpenKeepsView`: creating it changes no
      mailbox's contents). */
  function OpenChannel<M>(local: set<NodeId>, recv: ChannelMap<M>, from: NodeId, to: NodeId): (r: Result<ChannelMap<M>>)
    ensures r.Ok? <==> to in local
    ensures r.Err? ==> r.error == "Node " + to + " is not local"
    ensures r.Ok? ==> (to, from) in r.value && recv.Keys <= r.value.Keys
  {
    if to !in local then Err("Node " + to + " is not local")
    else if (to, from) in recv then Ok(recv)
    else Ok(recv[(to, from) := EmptyChannel()])
  }

  lemma OpenKeepsView<M>(local: set<NodeId>, recv: ChannelMap<M>, from: NodeId, to: NodeId, x: NodeId, y: NodeId)
    requires to in local
    ensures ChannelAt(OpenChannel(local, recv, from, to).value, x, y) == ChannelAt(recv, x, y)
  {
  }

  /** `handle_message`: put the payload into the mailbox from its sender to
      `to` (`HandleView`: exactly that one mailbox changes, by one
      `send_message`). */
  function HandleSpec<M>(local: set<NodeId>, recv: ChannelMap<M>, to: NodeId, msg: Tagged<M>): (r: Result<ChannelMap<M>>)
    ensures r.Ok? <==> to in local
    ensures r.Err? ==> r.error == "Node " + to + " is not local"
    ensures r.Ok? ==> (to, msg.from) in r.value && recv.Keys <= r.value.Keys
  {
    var withBox :- OpenChannel(local, recv, msg.from, to);
    Ok(withBox[(to, msg.from) := Send(withBox[(to, msg.from)], msg.message)])
  }

  lemma HandleView<M>(local: set<NodeId>, recv: ChannelMap<M>, to: NodeId, msg: Tagged<M>, x: NodeId, y: NodeId)
    requires to in local
    ensures ChannelAt(HandleSpec(local, recv, to, msg).value, x, y) ==
              if (x, y) == (to, msg.from) then Send(ChannelAt(recv, to, msg.from), msg.message)
              else ChannelAt(recv, x, y)
  {
    OpenKeepsView(local, recv, msg.from, to, x, y);
    OpenKeepsView(local, recv, msg.from, to, to, msg.from);
  }

  /** `send_message(from, to, msg)`: the sender must be served here and list
      `to` as a neighbour; a served receiver gets the message in its mailbox,
      any other is handed to the callback (`SendView`). */
  function SendSpec<M>(cfg: HubConfig, st: HubState<M>, from: NodeId, to: NodeId, msg: M): (r: Result<HubState<M>>)
    ensures r.Ok? <==> from in cfg.local && from in cfg.topology && to in cfg.topology[from]
    ensures from !in cfg.local ==> r == Err("Node " + from + " is not local")
    ensures from in cfg.local && from !in cfg.topology ==> r == Err(TopologyMissing)
    ensures from in cfg.local && from in cfg.topology && to !in cfg.topology[from] ==>
              r == Err("Node " + from + " is not connected to " + to)
    ensures r.Ok? && to !in cfg.local ==>
              r.value.recv == st.recv && r.value.outbox == st.outbox + [Relay(to, Tagged(from, msg))]
    ensures r.Ok? && to in cfg.local ==> r.value.outbox == st.outbox
  {
    if from !in cfg.local then Err("Node " + from + " is not local")
    else if from !in cfg.topology then Err(TopologyMissing)
    else if to !in cfg.topology[from] then Err("Node " + from + " is not connected to " + to)
    else if to in cfg.local then
      Ok(st.(recv := HandleSpec(cfg.local, st.recv, to, Tagged(from, msg)).value))
    else
      Ok(st.(outbox := st.outbox + [Relay(to, Tagged(from, msg))]))
  }

  /** A successful send to a served receiver appends to exactly the mailbox
      from `from` to `to`; one to any other receiver changes no mailbox. */
  lemma SendView<M>(cfg: HubConfig, st: HubState<M>, from: NodeId, to: NodeId, msg: M, x: NodeId, y: NodeId)
    requires SendSpec(cfg, st, from, to, msg).Ok?
    ensures ChannelAt(SendSpec(cfg, st, from, to, msg).value.recv, x, y) ==
              if (x, y) == (to, from) && to in cfg.local then Send(ChannelAt(st.recv, to, from), msg)
              else ChannelAt(st.recv, x, y)
  {
    if to in cfg.local {
      HandleView(cfg.local, st.recv, to, Tagged(from, msg), x, y);
    }
  }

  /** A communicator's `get_message(from)` for node `me`: a `get_message` on
      the mailbox from `from` to `me`, tagged with `from` (`ReceiveView`). */
  function ReceiveSpec<M>(local: set<NodeId>, st: HubState<M>, me: NodeId, from: NodeId)
    : (r: Result<(HubState<M>, Tagged<Delivery<M>>)>)
    ensures r.Ok? <==> me in local
    ensures r.Err? ==> r.error == "Node " + me + " is not local"
    ensures r.Ok? ==> r.value.0.outbox == st.outbox && (me, from) in r.value.0.recv
  {
    var withBox :- OpenChannel(local, st.recv, from, me);
    var (c, d) := Receive(withBox[(me, from)]);
    Ok((st.(recv := withBox[(me, from) := c]), Tagged(from, d)))
  }

  /** A receive delivers what `get_message` on the mailbox from `from` to `me`
      delivers, and changes that mailbox alone. */
  lemma ReceiveView<M>(local: set<NodeId>, st: HubState<M>, me: NodeId, from: NodeId, x: NodeId, y: NodeId)
    requires me in local
    ensures ReceiveSpec(local, st, me, from).value.1 == Tagged(from, Receive(ChannelAt(st.recv, me, from)).1)
    ensures ChannelAt(ReceiveSpec(local, st, me, from).value.0.recv, x, y) ==
              if (x, y) == (me, from) then Receive(ChannelAt(st.recv, me, from)).0
              else ChannelAt(st.recv, x, y)
  {
    OpenKeepsView(local, st.recv, from, me, x, y);
    OpenKeepsView(local, st.recv, from, me, me, from);
  }

  /** A hub state is sound: mailboxes only for served receivers, each keeping
      the channel invariant. */
  ghost predicate HubInv<M>(cfg: HubConfig, st: HubState<M>) {
    forall k :: k in st.recv ==> k.0 in cfg.local && Inv(st.recv[k])
  }

  /** Every mailbox of a sound hub state, created or not, keeps the channel invariant. */
  lemma ChannelAtInv<M>(cfg: HubConfig, st: HubState<M>, x: NodeId, y: NodeId)
    requires HubInv(cfg, st)
    ensures Inv(ChannelAt(st.recv, x, y))
  {
    EmptyChannelInv<M>();
  }

  lemma {:induction false} SendKeepsHubInv<M>(cfg: HubConfig, st: HubState<M>, from: NodeId, to: NodeId, msg: M)
    requires HubInv(cfg, st)
    ensures SendSpec(cfg, st, from, to, msg).Ok? ==> HubInv(cfg, SendSpec(cfg, st, from, to, msg).value)
  {
    if SendSpec(cfg, st, from, to, msg).Ok? && to in cfg.local {
      HandleKeepsHubInv(cfg, st, to, Tagged(from, msg));
    }
  }

  lemma {:induction false} HandleKeepsHubInv<M>(cfg: HubConfig, st: HubState<M>, to: NodeId, msg: Tagged<M>)
    requires HubInv(cfg, st)
    ensures HandleSpec(cfg.local, st.recv, to, msg).Ok? ==>
              HubInv(cfg, st.(recv := HandleSpec(cfg.local, st.recv, to, msg).value))
  {
    if to in cfg.local {
      ChannelAtInv(cfg, st, to, msg.from);
      SendKeepsInv(ChannelAt(st.recv, to, msg.from), msg.message);
    }
  }

  lemma {:induction false} ReceiveKeepsHubInv<M>(cfg: HubConfig, st: HubState<M>, me: NodeId, from: NodeId)
    requires HubInv(cfg, st)
    ensures ReceiveSpec(cfg.local, st, me, from).Ok? ==> HubInv(cfg, ReceiveSpec(cfg.local, st, me, from).value.0)
  {
    if me in cfg.local {
      ChannelAtInv(cfg, st, me, from);
      ReceiveKeepsInv(ChannelAt(st.recv, me, from));
    }
  }

  /** The targets in `tos` that are served here, in order. */
  function LocalOnly(tos: seq<NodeId>, local: set<NodeId>): (r: seq<NodeId>)
    ensures forall y :: y in r <==> y in tos && y in local
  {
    if tos == [] then []
    else LocalOnly(tos[..|tos| - 1], local) + (if tos[|tos| - 1] in local then [tos[|tos| - 1]] else [])
  }

  class MixedHub<M> {
    const nTotalNodes: int
    const localNodes: set<NodeId>
    const topology: map<NodeId, seq<NodeId>>
    /** (to, from) -> channel. The repository's outer map has a row for every
        served node from construction on, so a missing row is a receiver that
        is not served. */
    var recvChannels: ChannelTable<M>
    /** Every call of the send callback so far. */
    var outbox: seq<Relay<M>>
    /** The contents of every mailbox, under the key of its channel. */
    ghost var recv: ChannelMap<M>
    ghost var Repr: set<LocalChannel<M>>

    function Config(): HubConfig {
      HubConfig(nTotalNodes, localNodes, topology)
    }

    ghost predicate Valid()
      reads this, Repr
    {
      && Covers(recvChannels, Repr)
      && (forall k :: k in recv <==> k in recvChannels)
      && (forall k :: k in recvChannels ==>
            k.0 in localNodes && recvChannels[k].slot == k && recvChannels[k].State() == recv[k])
      && forall c :: c in Repr ==> c.Valid()
    }

    ghost function State(): HubState<M>
      reads this
    {
      HubState(recv, outbox)
    }

    /** The mailboxes are created up front for a served `x` listing a served
        `y`, under the key `(x, y)`: keyed (to, from), that is the mailbox
        from `y` to `x`, the reverse of the edge. */
    constructor (nTotalNodes: int, localNodes: set<NodeId>, topology: map<NodeId, seq<NodeId>>)
      ensures Valid() && fresh(Repr)
      ensures this.nTotalNodes == nTotalNodes && this.localNodes == localNodes && this.topology == topology
      ensures HubInv(Config(), State()) && State().outbox == []
      ensures forall x, y :: (x, y) in State().recv <==>
                x in localNodes && x in topology && y in topology[x] && y in localNodes
      ensures forall x, y :: ChannelAt(State().recv, x, y) == EmptyChannel()
    {
      var chans: ChannelTable<M> := map[];
      ghost var repr: set<LocalChannel<M>> := {};
      var froms := topology.Keys;
      while froms != {}
        invariant froms <= topology.Keys
        invariant forall x, y :: (x, y) in chans <==>
                    x in localNodes && x in topology && x !in froms && y in topology[x] && y in localNodes
        invariant forall k :: k in chans ==> chans[k].slot == k
        invariant Covers(chans, repr)
        invariant forall c :: c in repr ==> fresh(c) && c.State() == EmptyChannel()
        decreases froms
      {
        var from :| from in froms;
        if from in localNodes {
          ghost var made;
          chans, made := AddRow(chans, from, LocalOnly(topology[from], localNodes));
          repr := repr + made;
        }
        froms := froms - {from};
      }
      this.nTotalNodes := nTotalNodes;
      this.localNodes := localNodes;
      this.topology := topology;
      recvChannels := chans;
      outbox := [];
      recv := map k | k in chans :: EmptyChannel();
      Repr := repr;
      new;
      EmptyChannelInv<M>();
    }

    /** `get_channel(from, to)`: the mailbox from `from` to `to`, created on
        first use; throws, changing nothing, if `to` is not served here. A
        mailbox once created is the one every later call returns. */
    method GetChannel(from: NodeId, to: NodeId) returns (r: Result<LocalChannel<M>>)
      requires Valid()
      modifies this
      ensures Valid() && old(Repr) <= Repr && fresh(Repr - old(Repr))
      ensures outbox == old(outbox)
      ensures var spec := OpenChannel(localNodes, old(State()).recv, from, to);
              && (r.Ok? <==> spec.Ok?)
              && (r.Err? ==> r.error == spec.error && State() == old(State()))
              && (spec.Ok? ==> State().recv == spec.value)
      ensures r.Ok? ==> (to, from) in recvChannels && r.value == recvChannels[(to, from)]
      ensures r.Ok? && (to, from) in old(recvChannels) ==> r.value == old(recvChannels[(to, from)])
    {
      if to !in localNodes {
        return Err("Node " + to + " is not local");
      }
      if (to, from) !in recvChannels {
        var c := new LocalChannel<M>((to, from));
        EmptyChannelInv<M>();
        recvChannels := recvChannels[(to, from) := c];
        recv := recv[(to, from) := EmptyChannel()];
        Repr := Repr + {c};
      }
      r := Ok(recvChannels[(to, from)]);
    }

    /** `get_channel(from, to).send_message(m)`, the step `handle_message` and
        a local `send_message` share. */
    method Post(from: NodeId, to: NodeId, m: M) returns (r: Outcome)
      requires Valid()
      modifies this, Repr
      ensures Valid() && old(Repr) <= Repr && fresh(Repr - old(Repr))
      ensures outbox == old(outbox)
      ensures var spec := HandleSpec(localNodes, old(State()).recv, to, Tagged(from, m));
              && (r.Ok? <==> spec.Ok?)
              && (r.Err? ==> r.error == spec.error && State() == old(State()))
              && (spec.Ok? ==> State().recv == spec.value)
    {
      var _ :- GetChannel(from, to);
      SendOn((to, from), m);
      r := Ok(());
    }

    /** One `send_message` on the mailbox under `k`; no other mailbox changes. */
    method SendOn(k: Link, m: M)
      requires Valid() && k in recvChannels
      modifies this, Repr
      ensures Valid() && Repr == old(Repr) && recvChannels == old(recvChannels) && outbox == old(outbox)
      ensures recv == old(recv)[k := Send(old(recv)[k], m)]
    {
      var c := recvChannels[k];
      c.SendMessage(m);
      recv := recv[k := c.State()];
      forall k' | k' in recvChannels && k' != k
        ensures recvChannels[k'].State() == recv[k']
      {
        assert recvChannels[k'].slot != c.slot;
      }
    }

    /** One `get_message` on the mailbox under `k`; no other mailbox changes. */
    method ReceiveOn(k: Link) returns (d: Delivery<M>)
      requires Valid() && k in recvChannels
      modifies this, Repr
      ensures Valid() && Repr == old(Repr) && recvChannels == old(recvChannels) && outbox == old(outbox)
      ensures (recv[k], d) == Receive(old(recv)[k]) && recv == old(recv)[k := recv[k]]
    {
      var c := recvChannels[k];
      d := c.GetMessage();
      recv := recv[k := c.State()];
      forall k' | k' in recvChannels && k' != k
        ensures recvChannels[k'].State() == recv[k']
      {
        assert recvChannels[k'].slot != c.slot;
      }
    }

    /** `handle_message(to, msg)`: what the other hubs' callbacks call. */
    method HandleMessage(to: NodeId, msg: Tagged<M>) returns (r: Outcome)
      requires Valid()
      modifies this, Repr
      ensures Valid() && old(Repr) <= Repr && fresh(Repr - old(Repr))
      ensures var spec := HandleSpec(localNodes, old(State()).recv, to, msg);
              && (r.Ok? <==> spec.Ok?)
              && (r.Err? ==> r.error == spec.error && State() == old(State()))
              && (spec.Ok? ==> State() == old(State()).(recv := spec.value))
    {
      r := Post(msg.from, to, msg.message);
    }

    method SendMessage(from: NodeId, to: NodeId, msg: M) returns (r: Outcome)
      requires Valid()
      modifies this, Repr
      ensures Valid() && old(Repr) <= Repr && fresh(Repr - old(Repr))
      ensures var spec := SendSpec(Config(), old(State()), from, to, msg);
              && (r.Ok? <==> spec.Ok?)
              && (r.Err? ==> r.error == spec.error && State() == old(State()))
              && (spec.Ok? ==> State() == spec.value)
    {
      if from !in localNodes {
        return Err("Node " + from + " is not local");
      }
      if from !in topology {
        return Err(TopologyMissing);
      }
      if to !in topology[from] {
        return Err("Node " + from + " is not connected to " + to);
      }
      if to in localNodes {
        r := Post(from, to, msg);
      } else {
        outbox := outbox + [Relay(to, Tagged(from, msg))];
        r := Ok(());
      }
    }

    /** `get_communicator`: no check that `me` is served here. */
    method GetCommunicator(me: NodeId) returns (c: MixedCommunicator<M>)
      ensures fresh(c) && c.hub == this && c.me == me
    {
      c := new MixedCommunicator(this, me);
    }
  }

  class MixedCommunicator<M> {
    const hub: MixedHub<M>
    const me: NodeId

    constructor (hub: MixedHub<M>, me: NodeId)
      ensures this.hub == hub && this.me == me
    {
      this.hub := hub;
      this.me := me;
    }

    /** `num_nodes`: the size of the whole network, as the hub was told it. */
    function NumNodes(): (n: int)
      ensures n == hub.Config().nTotal
    {
      hub.nTotalNodes
    }

    /** `neighbors`: this node's list, or none; not restricted to served nodes. */
    function Neighbors(): (ns: seq<NodeId>)
      ensures me in hub.topology ==> ns == hub.topology[me]
      ensures me !in hub.topology ==> ns == []
    {
      if me in hub.topology then hub.topology[me] else []
    }

    method SendMessage(to: NodeId, m: M) returns (r: Outcome)
      requires hub.Valid()
      modifies hub, hub.Repr
      ensures hub.Valid() && old(hub.Repr) <= hub.Repr && fresh(hub.Repr - old(hub.Repr))
      ensures var spec := SendSpec(hub.Config(), old(hub.State()), me, to, m);
              && (r.Ok? <==> spec.Ok?)
              && (r.Err? ==> r.error == spec.error && hub.State() == old(hub.State()))
              && (spec.Ok? ==> hub.State() == spec.value)
    {
      r := hub.SendMessage(me, to, m);
    }

    method GetMessage(from: NodeId) returns (r: Result<Tagged<Delivery<M>>>)
      requires hub.Valid()
      modifies hub, hub.Repr
      ensures hub.Valid() && old(hub.Repr) <= hub.Repr && fresh(hub.Repr - old(hub.Repr))
      ensures var spec := ReceiveSpec(hub.localNodes, old(hub.State()), me, from);
              && (r.Ok? <==> spec.Ok?)
              && (r.Err? ==> r.error == spec.error && hub.State() == old(hub.State()))
              && (spec.Ok? ==> r.value == spec.value.1 && hub.State() == spec.value.0)
    {
      var _ :- hub.GetChannel(from, me);
      var d := hub.ReceiveOn((me, from));
      r := Ok(Tagged(from, d));
    }
  }

  /** `encoded_communicator(comm, encoder, decoder)`: payloads are encoded on
      the way out and decoded on the way in. */
  class EncodedCommunicator<P, Q> {
    const inner: MixedCommunicator<P>
    const encoder: Q -> P
    const decoder: P -> Q

    constructor (inner: MixedCommunicator<P>, encoder: Q -> P, decoder: P -> Q)
      ensures this.inner == inner && this.encoder == encoder && this.decoder == decoder
    {
      this.inner := inner;
      this.encoder := encoder;
      this.decoder := decoder;
    }

    function NumNodes(): (n: int)
      ensures n == inner.hub.Config().nTotal
    {
      inner.NumNodes()
    }

    function Neighbors(): (ns: seq<NodeId>)
      ensures ns == inner.Neighbors()
    {
      inner.Neighbors()
    }

    method SendMessage(to: NodeId, q: Q) returns (r: Outcome)
      requires inner.hub.Valid()
      modifies inner.hub, inner.hub.Repr
      ensures inner.hub.Valid() && old(inner.hub.Repr) <= inner.hub.Repr && fresh(inner.hub.Repr - old(inner.hub.Repr))
      ensures var spec := SendSpec(inner.hub.Config(), old(inner.hub.State()), inner.me, to, encoder(q));
              && (r.Ok? <==> spec.Ok?)
              && (r.Err? ==> r.error == spec.error && inner.hub.State() == old(inner.hub.State()))
              && (spec.Ok? ==> inner.hub.State() == spec.value)
    {
      r := inner.SendMessage(to, encoder(q));
    }

    /** The delivery of the wrapped communicator, its payload decoded once it
        arrives. */
    method GetMessage(from: NodeId) returns (r: Result<Tagged<Delivery<Q>>>)
      requires inner.hub.Valid()
      modifies inner.hub, inner.hub.Repr
      ensures inner.hub.Valid() && old(inner.hub.Repr) <= inner.hub.Repr && fresh(inner.hub.Repr - old(inner.hub.Repr))
      ensures var spec := ReceiveSpec(inner.hub.localNodes, old(inner.hub.State()), inner.me, from);
              && (r.Ok? <==> spec.Ok?)
              && (r.Err? ==> r.error == spec.error && inner.hub.State() == old(inner.hub.State()))
              && (spec.Ok? ==> r.value == Tagged(from, spec.value.1.message.Map(decoder)) &&
                               inner.hub.State() == spec.value.0)
    {
      var t :- inner.GetMessage(from);
      r := Ok(t.Map((d: Delivery<P>) => d.Map(decoder)));
    }
  }

  /** What a delivery of the wrapped channel eventually yields once decoded. */
  function DecodedValue<P, Q>(c: ChannelState<P>, d: Delivery<P>, decoder: P -> Q): Option<Q> {
    match ValueOf(c, d)
    case None => None
    case Some(p) => Some(decoder(p))
  }

  /** With a decoder that undoes the encoder, the k-th receive through an
      encoded communicator yields the k-th value sent through one. */
  lemma EncodedFifo<P, Q>(c: ChannelState<P>, encoder: Q -> P, decoder: P -> Q, sentValues: seq<Q>)
    requires Inv(c) && forall q :: decoder(encoder(q)) == q
    requires |sentValues| == |c.sent| && forall k :: 0 <= k < |c.sent| ==> c.sent[k] == encoder(sentValues[k])
    ensures forall k :: 0 <= k < |c.sent| && k < |c.gets| ==> DecodedValue(c, c.gets[k], decoder) == Some(sentValues[k])
  {
    forall k | 0 <= k < |c.sent| && k < |c.gets|
      ensures DecodedValue(c, c.gets[k], decoder) == Some(sentValues[k])
    {
      assert ValueOf(c, c.gets[k]) == Some(c.sent[k]);
    }
  }
}
