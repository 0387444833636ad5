/** The multi-hub setup (comm/multinode.ts): the nodes are split among hubs
    by a label per node, one `MixedHub` per distinct label; a hub hands a
    message for a node it does not serve to `handle`, which finds the hub
    of the receiver's label and calls its `handle_message`.

    The wiring is first given on values (`Layout`, `Route`, `SystemHandle`,
    `SystemSend`, `SystemReceive`), with the system-wide mailbox view `View`;
    the `MultiNodeSetup` class is proved to follow it. Hubs carry encoded
    payloads (`string`), as in the repository. */
module MultiNode {
  import opened Wrappers
  import opened NodeComm
  import opened MixedComm
  import Graph

  /** What the constructor is given about the nodes: their ids, their hub
      labels and the adjacency lists (node indices) of the graph. */
  datatype Layout = Layout(id: seq<NodeId>, belongs: seq<string>, adj: seq<seq<int>>)

  /** Every node has a label and an adjacency list, and every listed
      neighbour is a node index. */
  predicate WellFormed(L: Layout) {
    && |L.belongs| >= |L.id| && |L.adj| >= |L.id|
    && forall i, k :: 0 <= i < |L.id| && 0 <= k < |L.adj[i]| ==> 0 <= L.adj[i][k] < |L.id|
  }

  predicate Distinct(id: seq<NodeId>) {
    forall i, j :: 0 <= i < j < |id| ==> id[i] != id[j]
  }

  /** `index`: a map from each id to its position, built from the entries in
      order, so a repeated id ends up at its last position. */
  function IndexMap(id: seq<NodeId>): (ix: map<NodeId, nat>)
    ensures forall v :: v in ix <==> v in id
    ensures forall v :: v in ix ==> ix[v] < |id| && id[ix[v]] == v
    ensures forall v, k :: v in ix && ix[v] < k < |id| ==> id[k] != v
  {
    if id == [] then map[]
    else
      var n := |id| - 1;
      var ix := IndexMap(id[..n]);
      assert forall v :: v in id <==> v in id[..n] || v == id[n];
      ix[id[n] := n]
  }

  /** With distinct ids, `index` inverts `id`. */
  lemma IndexInverts(id: seq<NodeId>, i: int)
    requires Distinct(id) && 0 <= i < |id|
    ensures id[i] in IndexMap(id) && IndexMap(id)[id[i]] == i
  {
    assert id[i] in IndexMap(id);
  }

  /** A repeated id is routed by its last position only. */
  lemma IndexKeepsLast(id: seq<NodeId>, i: int, j: int)
    requires 0 <= i < j < |id| && id[i] == id[j]
    ensures IndexMap(id)[id[i]] != i
  {
  }

  /** The labels: one hub each (`new Set(belongs)`). */
  function Labels(L: Layout): set<string> {
    set k | 0 <= k < |L.belongs| :: L.belongs[k]
  }

  /** The ids the hub of label `c` serves. */
  function Members(L: Layout, c: string): set<NodeId> {
    set k | 0 <= k < |L.id| && k < |L.belongs| && L.belongs[k] == c :: L.id[k]
  }

  /** The adjacency list of node `i`, as ids. */
  function Neighbours(L: Layout, i: int): (ns: seq<NodeId>)
    requires WellFormed(L) && 0 <= i < |L.id|
    ensures |ns| == |L.adj[i]|
    ensures forall k :: 0 <= k < |ns| ==> ns[k] == L.id[L.adj[i][k]] && ns[k] in L.id
  {
    seq(|L.adj[i]|, k requires 0 <= k < |L.adj[i]| => L.id[L.adj[i][k]])
  }

  /** The hub topology of label `c` after its first `n` nodes are entered,
      each member setting its own id's list (a later duplicate replaces). */
  function NetworkUpTo(L: Layout, c: string, n: nat): map<NodeId, seq<NodeId>>
    requires WellFormed(L) && n <= |L.id|
  {
    if n == 0 then map[]
    else
      var net := NetworkUpTo(L, c, n - 1);
      if L.belongs[n - 1] == c then net[L.id[n - 1] := Neighbours(L, n - 1)] else net
  }

  function Network(L: Layout, c: string): map<NodeId, seq<NodeId>>
    requires WellFormed(L)
  {
    NetworkUpTo(L, c, |L.id|)
  }

  /** The topology a hub gets lists exactly its members, and with distinct
      ids a member's list is its adjacency list mapped to ids. */
  lemma {:induction false} NetworkUpToShape(L: Layout, c: string, n: nat)
    requires WellFormed(L) && n <= |L.id|
    ensures forall v :: v in NetworkUpTo(L, c, n) <==>
              exists k :: 0 <= k < n && L.belongs[k] == c && L.id[k] == v
    ensures Distinct(L.id) ==>
              forall k :: 0 <= k < n && L.belongs[k] == c ==> NetworkUpTo(L, c, n)[L.id[k]] == Neighbours(L, k)
  {
    if n > 0 {
      NetworkUpToShape(L, c, n - 1);
    }
  }

  lemma NetworkShape(L: Layout, c: string)
    requires WellFormed(L)
    ensures forall v :: v in Network(L, c) <==> v in Members(L, c)
    ensures Distinct(L.id) ==>
              forall k :: 0 <= k < |L.id| && L.belongs[k] == c ==> Network(L, c)[L.id[k]] == Neighbours(L, k)
  {
    NetworkUpToShape(L, c, |L.id|);
    forall v | v in Members(L, c)
      ensures v in Network(L, c)
    {
      var k :| 0 <= k < |L.id| && k < |L.belongs| && L.belongs[k] == c && L.id[k] == v;
    }
  }

  /** The `network` map of one label, built node by node. */
  method BuildNetwork(L: Layout, c: string) returns (network: map<NodeId, seq<NodeId>>)
    requires WellFormed(L)
    ensures network == Network(L, c)
  {
    network := map[];
    for i := 0 to |L.id|
      invariant network == NetworkUpTo(L, c, i)
    {
      if L.belongs[i] == c {
        network := network[L.id[i] := Neighbours(L, i)];
      }
    }
  }

  /** The parameters of the hub of label `c`. */
  function HubOf(L: Layout, c: string): (cfg: HubConfig)
    requires WellFormed(L)
    ensures cfg.nTotal == |L.id| && cfg.local == Members(L, c)
    ensures forall v :: v in cfg.topology <==> v in cfg.local
  {
    NetworkShape(L, c);
    HubConfig(|L.id|, Members(L, c), Network(L, c))
  }

  /** The hub states, by label. */
  type System = map<string, HubState<string>>

  /** The label of the hub serving `to`, by way of `index`. */
  function Route(L: Layout, to: NodeId): (r: Result<string>)
    requires WellFormed(L)
    ensures r.Ok? <==> to in L.id
    ensures r.Err? ==> r.error == "unknown node " + to
    ensures r.Ok? ==> r.value in Labels(L) && to in Members(L, r.value)
  {
    var ix := IndexMap(L.id);
    if to !in ix then Err("unknown node " + to)
    else
      var k := ix[to];
      assert L.belongs[k] in Labels(L);
      Ok(L.belongs[k])
  }

  /** `handle(to, msg)`: the receiver's hub takes the message; an unknown
      receiver or label throws, changing nothing. */
  function SystemHandle(L: Layout, sys: System, to: NodeId, msg: Tagged<string>): (r: Result<System>)
    requires WellFormed(L)
    ensures r.Ok? <==> to in L.id && Route(L, to).value in sys
    ensures to !in L.id ==> r == Err("unknown node " + to)
    ensures to in L.id && Route(L, to).value !in sys ==> r == Err("unknown channel " + Route(L, to).value)
    ensures r.Ok? ==> r.value.Keys == sys.Keys
  {
    var c :- Route(L, to);
    if c !in sys then Err("unknown channel " + c)
    else Ok(sys[c := sys[c].(recv := HandleSpec(Members(L, c), sys[c].recv, to, msg).value)])
  }

  /** A send by node `i` through its own hub; a message that hub hands to
      the callback is then handled by the receiver's hub. */
  function SystemSend(L: Layout, sys: System, i: int, to: NodeId, p: string): (r: Result<System>)
    requires WellFormed(L) && 0 <= i < |L.id| && L.belongs[i] in sys
    ensures r.Ok? ==> r.value.Keys == sys.Keys
    ensures r.Ok? && to !in Members(L, L.belongs[i]) ==>
              r.value[L.belongs[i]].outbox == sys[L.belongs[i]].outbox + [Relay(to, Tagged(L.id[i], p))]
    ensures r.Ok? ==> forall c :: c in sys && c != L.belongs[i] ==> r.value[c].outbox == sys[c].outbox
  {
    var c := L.belongs[i];
    var s1 :- SendSpec(HubOf(L, c), sys[c], L.id[i], to, p);
    if to in Members(L, c) then Ok(sys[c := s1])
    else SystemHandle(L, sys[c := s1], to, Tagged(L.id[i], p))
  }

  /** A receive by node `i` from `from`, on its own hub. */
  function SystemReceive(L: Layout, sys: System, i: int, from: NodeId): (r: Result<(System, Tagged<Delivery<string>>)>)
    requires WellFormed(L) && 0 <= i < |L.id| && L.belongs[i] in sys
    ensures r.Ok?
  {
    var c := L.belongs[i];
    assert L.id[i] in Members(L, c);
    var (s, t) := ReceiveSpec(Members(L, c), sys[c], L.id[i], from).value;
    Ok((sys[c := s], t))
  }

  /** The mailbox from `from` to `to` wherever it lives: on the hub of `to`. */
  function View(L: Layout, sys: System, to: NodeId, from: NodeId): ChannelState<string>
    requires WellFormed(L)
  {
    match Route(L, to)
    case Ok(c) => if c in sys then ChannelAt(sys[c].recv, to, from) else EmptyChannel()
    case Err(_) => EmptyChannel()
  }

  /** With distinct ids, node `i`'s hub is the one `index` routes it to. */
  lemma HomeOfNode(L: Layout, i: int)
    requires WellFormed(L) && Distinct(L.id) && 0 <= i < |L.id|
    ensures Route(L, L.id[i]) == Ok(L.belongs[i])
  {
    IndexInverts(L.id, i);
  }

  /** With distinct ids, a member of a label's hub is routed to that hub. */
  lemma HomeOfMember(L: Layout, c: string, v: NodeId)
    requires WellFormed(L) && Distinct(L.id) && v in Members(L, c)
    ensures Route(L, v) == Ok(c)
  {
    var k :| 0 <= k < |L.id| && k < |L.belongs| && L.belongs[k] == c && L.id[k] == v;
    HomeOfNode(L, k);
  }

  /** Replacing the state of the hub of label `c` changes only the view of
      the nodes routed to it. */
  lemma ViewAfterUpdate(L: Layout, sys: System, c: string, st: HubState<string>, x: NodeId, y: NodeId)
    requires WellFormed(L) && c in sys
    ensures View(L, sys[c := st], x, y) ==
              if Route(L, x) == Ok(c) then ChannelAt(st.recv, x, y) else View(L, sys, x, y)
  {
  }

  /** A send by node `i` goes through exactly when `to` is one of its
      neighbours: the other checks of `send_message` cannot fail. */
  lemma SystemSendOk(L: Layout, sys: System, i: int, to: NodeId, p: string)
    requires WellFormed(L) && Distinct(L.id) && 0 <= i < |L.id|
    requires forall c :: c in Labels(L) ==> c in sys
    ensures SystemSend(L, sys, i, to, p).Ok? <==> to in Neighbours(L, i)
  {
    var c := L.belongs[i];
    assert c in Labels(L);
    assert L.id[i] in Members(L, c);
    NetworkShape(L, c);
    assert HubOf(L, c).topology[L.id[i]] == Neighbours(L, i);
  }

  /** Between two members of one hub, the send appends to that hub's mailbox. */
  lemma SystemSendLocalView(L: Layout, sys: System, i: int, to: NodeId, p: string, x: NodeId, y: NodeId)
    requires WellFormed(L) && Distinct(L.id) && 0 <= i < |L.id|
    requires forall c :: c in Labels(L) ==> c in sys
    requires to in Members(L, L.belongs[i]) && SystemSend(L, sys, i, to, p).Ok?
    ensures View(L, SystemSend(L, sys, i, to, p).value, x, y) ==
              if (x, y) == (to, L.id[i]) then Send(View(L, sys, to, L.id[i]), p) else View(L, sys, x, y)
  {
    var c := L.belongs[i];
    assert c in Labels(L);
    var s1 := SendSpec(HubOf(L, c), sys[c], L.id[i], to, p).value;
    ViewAfterUpdate(L, sys, c, s1, x, y);
    SendView(HubOf(L, c), sys[c], L.id[i], to, p, x, y);
    HomeOfMember(L, c, to);
  }

  /** To a member of another hub, the sender's hub hands the message on and
      the receiver's hub appends it to its mailbox. */
  lemma SystemSendRemoteView(L: Layout, sys: System, i: int, to: NodeId, p: string, x: NodeId, y: NodeId)
    requires WellFormed(L) && Distinct(L.id) && 0 <= i < |L.id|
    requires forall c :: c in Labels(L) ==> c in sys
    requires to !in Members(L, L.belongs[i]) && SystemSend(L, sys, i, to, p).Ok?
    ensures View(L, SystemSend(L, sys, i, to, p).value, x, y) ==
              if (x, y) == (to, L.id[i]) then Send(View(L, sys, to, L.id[i]), p) else View(L, sys, x, y)
  {
    var c := L.belongs[i];
    assert c in Labels(L);
    var from := L.id[i];
    var cfg := HubOf(L, c);
    var s1 := SendSpec(cfg, sys[c], from, to, p).value;
    var sys1 := sys[c := s1];
    var c2 := Route(L, to).value;
    assert c2 != c;
    var s2 := sys1[c2].(recv := HandleSpec(Members(L, c2), sys1[c2].recv, to, Tagged(from, p)).value);
    assert SystemSend(L, sys, i, to, p).value == sys1[c2 := s2];
    ViewAfterUpdate(L, sys1, c2, s2, x, y);
    ViewAfterUpdate(L, sys, c, s1, x, y);
    SendView(cfg, sys[c], from, to, p, x, y);
    HandleView(Members(L, c2), sys[c2].recv, to, Tagged(from, p), x, y);
    if Route(L, x) == Ok(c) {
      assert x != to;
    }
  }

  /** Cross-wired hubs act as one hub: a send from node `i` succeeds exactly
      when `to` is one of its neighbours, and then appends to the one mailbox
      from `id[i]` to `to`, wherever the two nodes are served; every other
      mailbox keeps its contents. */
  lemma SystemSendView(L: Layout, sys: System, i: int, to: NodeId, p: string, x: NodeId, y: NodeId)
    requires WellFormed(L) && Distinct(L.id) && 0 <= i < |L.id|
    requires forall c :: c in Labels(L) ==> c in sys
    ensures SystemSend(L, sys, i, to, p).Ok? <==> to in Neighbours(L, i)
    ensures SystemSend(L, sys, i, to, p).Ok? ==>
              View(L, SystemSend(L, sys, i, to, p).value, x, y) ==
                if (x, y) == (to, L.id[i]) then Send(View(L, sys, to, L.id[i]), p) else View(L, sys, x, y)
  {
    SystemSendOk(L, sys, i, to, p);
    if SystemSend(L, sys, i, to, p).Ok? {
      if to in Members(L, L.belongs[i]) {
        SystemSendLocalView(L, sys, i, to, p, x, y);
      } else {
        SystemSendRemoteView(L, sys, i, to, p, x, y);
      }
    }
  }

  /** A receive by node `i` takes what `get_message` on the mailbox from
      `from` to `id[i]` delivers, and changes no other mailbox. */
  lemma {:induction false} SystemReceiveView(L: Layout, sys: System, i: int, from: NodeId, x: NodeId, y: NodeId)
    requires WellFormed(L) && Distinct(L.id) && 0 <= i < |L.id|
    requires forall c :: c in Labels(L) ==> c in sys
    ensures var (sys', t) := SystemReceive(L, sys, i, from).value;
            && t == Tagged(from, Receive(View(L, sys, L.id[i], from)).1)
            && View(L, sys', x, y) ==
                 if (x, y) == (L.id[i], from) then Receive(View(L, sys, L.id[i], from)).0 else View(L, sys, x, y)
  {
    var c := L.belongs[i];
    assert c in Labels(L);
    assert L.id[i] in Members(L, c);
    HomeOfNode(L, i);
    ReceiveView(Members(L, c), sys[c], L.id[i], from, x, y);
  }

  /** A message handed to `handle` for a known node always reaches its hub:
      the "unknown channel" error cannot happen once every label has a hub. */
  lemma HandleReachesHub(L: Layout, sys: System, to: NodeId, msg: Tagged<string>)
    requires WellFormed(L) && (forall c :: c in Labels(L) ==> c in sys) && to in L.id
    ensures SystemHandle(L, sys, to, msg).Ok?
  {
  }

  /** The loop over the labels: one fresh hub per label, serving the
      label's members with their adjacency lists as topology. */
  method MakeHubs(L: Layout) returns (hs: map<string, MixedHub<string>>)
    requires WellFormed(L)
    ensures forall c :: c in hs <==> c in Labels(L)
    ensures forall c :: c in hs ==>
              && fresh(hs[c]) && fresh(hs[c].Repr)
              && hs[c].Valid() && hs[c].Config() == HubOf(L, c)
              && hs[c].State().outbox == []
              && forall x, y :: ChannelAt(hs[c].State().recv, x, y) == EmptyChannel()
    ensures forall c, c' :: c in hs && c' in hs && c != c' ==> hs[c] != hs[c']
  {
    hs := map[];
    var todo := Labels(L);
    while todo != {}
      invariant forall c :: c in hs <==> c in Labels(L) && c !in todo
      invariant forall c :: c in hs ==>
                  && fresh(hs[c]) && fresh(hs[c].Repr)
                  && hs[c].Valid() && hs[c].Config() == HubOf(L, c)
                  && hs[c].State().outbox == []
                  && forall x, y :: ChannelAt(hs[c].State().recv, x, y) == EmptyChannel()
      invariant forall c, c' :: c in hs && c' in hs && c != c' ==> hs[c] != hs[c']
      decreases todo
    {
      var c :| c in todo;
      var network := BuildNetwork(L, c);
      var h := new MixedHub<string>(|L.id|, Members(L, c), network);
      hs := hs[c := h];
      todo := todo - {c};
    }
  }

  /** `comms`: node `i`'s communicator from the hub of its label, wrapped
      with the encoder and the decoder. */
  method MakeComms<Q>(L: Layout, hs: map<string, MixedHub<string>>, encoder: Q -> string, decoder: string -> Q)
    returns (cs: seq<EncodedCommunicator<string, Q>>)
    requires WellFormed(L) && forall c :: c in Labels(L) ==> c in hs
    ensures |cs| == |L.id|
    ensures forall i :: 0 <= i < |L.id| ==>
              && cs[i].inner.hub == hs[L.belongs[i]] && cs[i].inner.me == L.id[i]
              && cs[i].encoder == encoder && cs[i].decoder == decoder
  {
    cs := [];
    for i := 0 to |L.id|
      invariant |cs| == i
      invariant forall j :: 0 <= j < i ==>
                  && cs[j].inner.hub == hs[L.belongs[j]] && cs[j].inner.me == L.id[j]
                  && cs[j].encoder == encoder && cs[j].decoder == decoder
    {
      assert L.belongs[i] in Labels(L);
      var mc := hs[L.belongs[i]].GetCommunicator(L.id[i]);
      var e := new EncodedCommunicator(mc, encoder, decoder);
      cs := cs + [e];
    }
  }

  /** What `get_node` is called with for node `i`. */
  type GetNode<!Q, !Extra, Node> = (Extra, EncodedCommunicator<string, Q>, NodeId, int, seq<NodeId>, seq<int>) -> Node

  class MultiNodeSetup<Q, Extra, Node> {
    const graph: Graph.AdjacencyList
    const id: seq<NodeId>
    const index: map<NodeId, nat>
    const belongs: seq<string>
    const hubs: map<string, MixedHub<string>>
    const comms: seq<EncodedCommunicator<string, Q>>
    const nodes: seq<Node>

    function Shape(): Layout {
      Layout(id, belongs, graph.adj)
    }

    /** The fixed wiring: `index` is built from `id`, and there is one hub per
        label, configured for its members. */
    ghost predicate Wired() {
      && WellFormed(Shape())
      && index == IndexMap(id)
      && (forall c :: c in hubs <==> c in Labels(Shape()))
      && (forall c :: c in hubs ==> hubs[c].Config() == HubOf(Shape(), c))
    }

    /** The hub `handle` passes a message for `to` to, with its channels;
        empty when `handle` throws. */
    ghost function Footprint(to: NodeId): set<object>
      reads hubs.Values
      requires Wired()
    {
      if to in index && belongs[index[to]] in hubs then
        var h := hubs[belongs[index[to]]];
        {h} + h.Repr
      else {}
    }

    /** The hub states, by label. */
    ghost function States(): System
      reads hubs.Values
    {
      map c | c in hubs :: hubs[c].State()
    }

    constructor (graph: Graph.AdjacencyList, id: seq<NodeId>, extras: seq<Extra>, getNode: GetNode<Q, Extra, Node>,
                 belongs: seq<string>, encoder: Q -> string, decoder: string -> Q)
      requires WellFormed(Layout(id, belongs, graph.adj)) && |extras| >= |id|
      ensures Wired()
      ensures this.graph == graph && this.id == id && this.belongs == belongs
      ensures forall c :: c in hubs ==>
                && fresh(hubs[c]) && fresh(hubs[c].Repr) && hubs[c].Valid()
                && hubs[c].State().outbox == []
                && forall x, y :: ChannelAt(hubs[c].State().recv, x, y) == EmptyChannel()
      ensures forall c, c' :: c in hubs && c' in hubs && c != c' ==> hubs[c] != hubs[c']
      ensures |comms| == |id|
      ensures forall i :: 0 <= i < |id| ==>
                && comms[i].inner.hub == hubs[belongs[i]] && comms[i].inner.me == id[i]
                && comms[i].encoder == encoder && comms[i].decoder == decoder
      ensures |nodes| == |id|
      ensures forall i :: 0 <= i < |id| ==>
                nodes[i] == getNode(extras[i], comms[i], id[i], i, Neighbours(Shape(), i), graph.adj[i])
    {
      var L := Layout(id, belongs, graph.adj);
      var hs := MakeHubs(L);
      var cs := MakeComms(L, hs, encoder, decoder);
      this.graph := graph;
      this.id := id;
      this.index := IndexMap(id);
      this.belongs := belongs;
      this.hubs := hs;
      this.comms := cs;
      this.nodes := seq(|id|, i requires 0 <= i < |id| => getNode(extras[i], cs[i], id[i], i, Neighbours(L, i), graph.adj[i]));
    }

    /** `handle(to, msg)`, the callback every hub is given: it changes the hub
        of `to`'s label and nothing else, exactly as `SystemHandle` says. */
    method Handle(to: NodeId, msg: Tagged<string>) returns (r: Outcome)
      requires Wired()
      requires forall c :: c in hubs ==> hubs[c].Valid()
      modifies Footprint(to)
      ensures var spec := SystemHandle(Shape(), old(States()), to, msg);
              && (r.Ok? <==> spec.Ok?)
              && (r.Err? ==> r.error == spec.error)
              && (r.Ok? ==> var c := Route(Shape(), to).value;
                            && hubs[c].Valid() && old(hubs[c].Repr) <= hubs[c].Repr
                            && fresh(hubs[c].Repr - old(hubs[c].Repr))
                            && hubs[c].State() == spec.value[c])
    {
      if to !in index {
        return Err("unknown node " + to);
      }
      var channel := belongs[index[to]];
      if channel !in hubs {
        return Err("unknown channel " + channel);
      }
      r := hubs[channel].HandleMessage(to, msg);
    }
  }
}
