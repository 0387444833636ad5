# DecentAd core in Dafny

This project models the core of DecentAd. DecentAd is a simulated network of
nodes that run a tree auction together. The auction is a diffusion auction
with resale: a seller, then buyers that invite their own children. The model
has two layers.

- **The message substrate.**
  - `NodeComm`: the FIFO channel, the single in-process hub and its communicators.
  - `MixedComm`: a hub that serves only some of the nodes and relays the others through a callback, and the encoding communicator wrapper.
  - `MultiNode`: the setup that splits the nodes among several cross-wired hubs.
- **The auction engine.**
  - `DamMessage`: signed messages. It covers the domain-separated hash preimages, wrapping, verification and the witness records.
  - `DamMechanism`: the seller's and the buyers' decision steps. These are ranking the gather reports, the second price, keep or resell, and the ledger that travels back up the scatter path.

Under both layers sit the utilities:

- `Algorithm`: `generic_min`, `max`, `min`.
- `Collection`: `remove_element`.
- `Sorting`: the comparator sort that the source calls in place.
- `Graph`: edge lists, adjacency lists and matrices.
- `BigintCodec`: the bigint-tagging JSON replacer and reviver.
- `Wrappers`: `Result` and `Option`. An exception is an `Err` that carries the source's own error text.

## How the model is built

The shape of each module follows the shape of the source.

**Stateful objects are classes.** Channels, hubs, communicators, the edge list, the message handler and the multi-node setup are classes. Each is proved against a function on values:

- `LocalChannel` follows `Send`/`Receive` on `ChannelState`.
- `MixedHub` follows `OpenChannel`, `HandleSpec`, `SendSpec` and `ReceiveSpec` on `HubState`.
- `MultiNodeSetup.Handle` follows `SystemHandle`.

**Properties live on the value functions.** The lemmas about those functions carry them:

- FIFO delivery for every interleaving of sends and receives.
- Invariant preservation.
- "Only this mailbox changes".
- Cross-wired hubs behave as one hub.

**A promise is a delivery.** A promise that `get_message` hands out is either already resolved (`Ready`) or parked under a ticket. `ValueOf` says what a parked promise resolves to once a later send reaches it.

**Loops stay loops.** Loops of the source are `while`/`for` loops with invariants. In-place sorts sort an `array` in place.

**Node runs are step functions.** A node's `run()` is modelled as a method over the payloads it receives. The method returns what it sends and what it returns.

Where the auction's intended outcome and the code differ, the model follows the code:

- **The seller's ledger.** The seller returns the ledger it receives unchanged (algo/dam/mechanism.ts:77-78). Budget balance asks for a seller line before it that makes the transfers sum to zero, and the repository's test expects one (algo/dam/dam.test.ts:62-66). See Findings.
- **The resale price.** A buyer resells at `max(second-largest child report, own bid)`. It keeps exactly when that price is at most its bid (mechanism.ts:135 and 154). The price it was offered plays no part in the decision. There is no floor of zero.
- **Fewer than two children.** A buyer or seller with fewer than two children reads past the end of its sorted responses. The model gives that as an `Err` carrying the JavaScript `TypeError` text. It is not excluded by a precondition. See Findings.
- **Ties in the sort.** The sort comparator never returns 0, so among equal reports the order is not fixed. The model promises only "a child with the largest report" and the second price as a value.

## Model

| member | source | states |
|---|---|---|
| Algorithm.GenericMin | util/algorithm.ts:1-13 | The loop's result is the running optimum over all arguments; with no further arguments it is the first |
| Algorithm.FirstOptIsArgument | util/algorithm.ts:4-12 | Whatever the comparison, the result is one of the arguments |
| Algorithm.FirstOptIsLeftmostMax | util/algorithm.ts:4-12 | With a strict `>` on a key, the result has the largest key and no argument to its left reaches that key (leftmost maximum) |
| Algorithm.Max | util/algorithm.ts:15-17 | `max(a, ...b)` is one of its arguments and at least every argument |
| Algorithm.Min | util/algorithm.ts:19-21 | `min(a, ...b)` is one of its arguments and at most every argument |
| Collection.IndexOf | util/collection.ts:2 | -1 exactly when the needle is absent, otherwise the first index holding it |
| Collection.RemoveElement | util/collection.ts:1-8 | An absent needle gives the very same array; otherwise one element shorter, equal to the input with the first occurrence cut out, and the multiset minus one needle |
| Sorting.SortBy | util/graph.ts:19 | The comparator sort leaves the array in non-decreasing key order and a permutation of its old contents |
| Graph.BothWays | util/graph.ts:22-29 | Twice as many edges; every edge appears in both orientations and nothing else appears |
| Graph.BothWaysMultiset | util/graph.ts:22-29 | Each edge appears once as it is and once turned around, as often as in the input |
| Graph.TargetsAreEdges | util/graph.ts:36-38 | `v` is in the list built for `u` exactly when `(u, v)` is an edge |
| Graph.TotalLengthAfterPush | util/graph.ts:37 | One `push` adds exactly one to the edge count |
| Graph.EmptyLists | util/graph.ts:32-35 | The first loop makes exactly `n` lists (none for a negative `n`), all empty |
| Graph.PushTargets | util/graph.ts:36-38 | Succeeds exactly when every source has a list, otherwise the `push` TypeError; each list then holds the targets of its source's edges in order, and the lengths add up to the number of edges |
| Graph.PushStep | util/graph.ts:37 | One push turns the lists of the first `k` edges into those of the first `k + 1`, one longer in total |
| Graph.EdgeList.constructor | util/graph.ts:16-20 | Keeps the caller's array (not a copy), `m` is its length, and it ends sorted by source and a permutation of its old contents |
| Graph.EdgeList.Bidirectional | util/graph.ts:22-29 | A fresh edge list over the same nodes with `2m` edges, holding both orientations of every edge, sorted by source |
| Graph.EdgeList.ToAdjacencyList | util/graph.ts:31-40 | Succeeds exactly when every source lies in `[0, n)`; a source out of range gives the `push` TypeError, and a negative `n` with no edges gives "Invalid adjacency list"; list `u` holds the targets of the edges leaving `u` in edge order, and `m` is preserved |
| Graph.NewAdjacencyList | util/graph.ts:43-56 | Throws "Invalid adjacency list" exactly when there is not one list per node; `m` is the sum of the list lengths |
| Graph.CountRowBound | util/graph.ts:71-75 | A row counts at most its length, and exactly its length when every cell is true |
| Graph.NewAdjacencyMatrix | util/graph.ts:58-78 | Throws "Invalid adjacency matrix" exactly unless there are `n` rows of length `n`; `m` is the number of true cells |
| BigintCodec.DigitsRoundTrip | util/bigint_codec.ts:4 | Reading back the decimal digits of a natural number gives the number |
| BigintCodec.DecimalRoundTrip | util/bigint_codec.ts:1-20 | `BigInt(k.toString())` is `k` for every integer, negatives and zero included, and the rendering matches `/^-?\d+$/` |
| BigintCodec.IsBigintTag | util/bigint_codec.ts:19 | The reviver's pattern: a match ends in a digit and `n`, and starts with a digit or with `-` and a digit |
| BigintCodec.Encode | util/bigint_codec.ts:1-6 | No bigint is left, so `JSON.stringify` cannot throw on one; every bigint becomes a string the reviver's pattern accepts; arrays stay arrays |
| BigintCodec.EncodeExt | util/bigint_codec.ts:8-13 | No bigint is left; every bigint becomes a plain decimal string that the reviver's pattern rejects |
| BigintCodec.Decode | util/bigint_codec.ts:15-21 | No string matching the pattern is left; a tree without such strings comes back unchanged |
| BigintCodec.EncodedBigintIsTag | util/bigint_codec.ts:1-20 | An encoded bigint matches the reviver's pattern and decodes back to the bigint |
| BigintCodec.RoundTrip | util/bigint_codec.ts:1-21 | `decode_bigint(encode_bigint(v)) == v` at every depth of arrays and objects, provided no string in `v` already looks like an encoded bigint |
| BigintCodec.TagLikeStringIsNotPreserved | util/bigint_codec.ts:15-20 | The proviso is needed: the string `"12n"` comes back as the bigint 12 |
| BigintCodec.TestStringsAreNotTags | util/bigint_codec.test.ts:12-31 | The test strings `"n"`, `"strin"`, `"nstrn"` are not mistaken for bigints |
| BigintCodec.ExtEncodingStaysString | util/bigint_codec.ts:8-13 | `encode_bigint_ext` drops the marker, so decoding its output leaves every former bigint a string |
| NodeComm.Tagged.Map | comm/node-comm.ts:12-14 | `map` keeps the sender and applies `f` to the payload |
| NodeComm.MapComposes | comm/node-comm.ts:12-14 | `map` composes and the identity map changes nothing |
| NodeComm.Delivery.Map | comm/node-comm.ts:141-142 | A resolved delivery is mapped to the transformed value; a parked one keeps its ticket |
| NodeComm.Send | comm/node-comm.ts:30-39 | `send_message` resolves the oldest parked receiver with the message when there is one, and otherwise appends it to the send queue; the message is recorded as sent |
| NodeComm.Receive | comm/node-comm.ts:41-50 | `get_message` takes the oldest buffered message when there is one, and otherwise parks a receiver under a fresh ticket |
| NodeComm.EmptyChannelInv | comm/node-comm.ts:25-28 | A new channel satisfies the FIFO invariant |
| NodeComm.QueuesExclusive | comm/node-comm.ts:30-50 | Under the invariant the send queue and the receive queue are never both non-empty |
| NodeComm.SendKeepsInv | comm/node-comm.ts:30-39 | `send_message` preserves the FIFO invariant |
| NodeComm.ReceiveKeepsInv | comm/node-comm.ts:41-50 | `get_message` preserves the FIFO invariant |
| NodeComm.RunFifo | comm/node-comm.ts:21-51 | For every interleaving of calls on a new channel, the k-th `get_message` resolves to the k-th message sent, whether it was asked before or after the send |
| NodeComm.ChannelScenario | comm/node-comm.test.ts:6-32 | Two sends then two receives deliver "hello" and "world"; two receives parked before two sends resolve to the two later messages in order |
| NodeComm.LocalChannel.constructor | comm/node-comm.ts:25-28 | A new channel is empty |
| NodeComm.LocalChannel.SendMessage | comm/node-comm.ts:30-39 | The channel's new state is `Send` of its old state |
| NodeComm.LocalChannel.GetMessage | comm/node-comm.ts:41-50 | The channel's new state and the returned delivery are `Receive` of its old state |
| NodeComm.AddRow | comm/node-comm.ts:73-77 | Adds one fresh, empty channel per target listed under one source, leaving the other entries alone |
| NodeComm.LocalHub.constructor | comm/node-comm.ts:66-79 | One empty channel per listed `(from, to)` pair; the nodes are the topology's keys and `n_nodes` their number |
| NodeComm.LocalHub.GetCommunicator | comm/node-comm.ts:81-86 | A communicator for `me` exactly when `me` is a node, otherwise "Node not found" |
| NodeComm.LocalCommunicator.constructor | comm/node-comm.ts:93-96 | Binds the node and its hub |
| NodeComm.LocalCommunicator.NumNodes | comm/node-comm.ts:98-100 | The number of nodes in the topology |
| NodeComm.LocalCommunicator.Neighbors | comm/node-comm.ts:102-104 | The node's listed neighbours, or none |
| NodeComm.LocalCommunicator.SendMessage | comm/node-comm.ts:106-116 | Succeeds exactly when `to` is listed under `me`; then only the `me -> to` channel changes, by `Send`; otherwise "Node not found" and nothing changes |
| NodeComm.LocalCommunicator.GetMessage | comm/node-comm.ts:118-128 | Succeeds exactly when `me` is listed under `from`; returns the `from -> me` channel's delivery tagged with `from`, and only that channel changes |
| MixedComm.OpenChannel | comm/mixed-comm.ts:45-54 | Succeeds exactly when the receiver is served here, otherwise "Node to is not local"; the mailbox exists afterwards and no mailbox is lost |
| MixedComm.OpenKeepsView | comm/mixed-comm.ts:50-52 | Creating a mailbox on first use changes no mailbox's contents |
| MixedComm.HandleSpec | comm/mixed-comm.ts:56-60 | `handle_message` succeeds exactly for a served receiver and otherwise throws "Node to is not local" |
| MixedComm.HandleView | comm/mixed-comm.ts:56-60 | Exactly the mailbox from the sender to `to` changes, by one `send_message` |
| MixedComm.SendSpec | comm/mixed-comm.ts:62-75 | Each error case gives its own message; a send to a node served elsewhere leaves the mailboxes alone and makes one callback call; a local send makes no callback call |
| MixedComm.SendView | comm/mixed-comm.ts:62-75 | A local send appends to exactly the mailbox from sender to receiver; a relayed send changes no mailbox |
| MixedComm.ReceiveSpec | comm/mixed-comm.ts:100-104 | A receive succeeds exactly for a served node and makes no callback call |
| MixedComm.ReceiveView | comm/mixed-comm.ts:100-104 | A receive delivers what `get_message` on the mailbox from `from` to `me` delivers, tagged with `from`, and changes that mailbox alone |
| MixedComm.SendKeepsHubInv | comm/mixed-comm.ts:62-75 | A send keeps every mailbox FIFO and for a served receiver |
| MixedComm.HandleKeepsHubInv | comm/mixed-comm.ts:56-60 | `handle_message` keeps every mailbox FIFO and for a served receiver |
| MixedComm.ReceiveKeepsHubInv | comm/mixed-comm.ts:100-104 | A receive keeps every mailbox FIFO and for a served receiver |
| MixedComm.LocalOnly | comm/mixed-comm.ts:35-39 | The listed targets that are served here, and only those |
| MixedComm.MixedHub.constructor | comm/mixed-comm.ts:15-43 | Mailboxes exist up front exactly for a served node and a served node it lists, all empty, and no callback has been called |
| MixedComm.MixedHub.GetChannel | comm/mixed-comm.ts:45-54 | Follows `OpenChannel`; a mailbox once created is the very object every later call returns; an error changes nothing |
| MixedComm.MixedHub.Post | comm/mixed-comm.ts:70 | `get_channel(from, to).send_message(m)` follows `HandleSpec` |
| MixedComm.MixedHub.HandleMessage | comm/mixed-comm.ts:56-60 | Follows `HandleSpec`; an error changes nothing |
| MixedComm.MixedHub.SendMessage | comm/mixed-comm.ts:62-75 | Follows `SendSpec`, mailboxes and callback calls alike; an error changes nothing |
| MixedComm.MixedHub.GetCommunicator | comm/mixed-comm.ts:77-79 | A fresh communicator for `me`, with no check that `me` is served |
| MixedComm.MixedCommunicator.constructor | comm/mixed-comm.ts:86-89 | Binds the hub and the node |
| MixedComm.MixedCommunicator.NumNodes | comm/mixed-comm.ts:91-93 | The network size the hub was given |
| MixedComm.MixedCommunicator.Neighbors | comm/mixed-comm.ts:94-96 | The node's listed neighbours, or none |
| MixedComm.MixedCommunicator.SendMessage | comm/mixed-comm.ts:97-99 | The hub's `send_message` from this node, following `SendSpec` |
| MixedComm.MixedCommunicator.GetMessage | comm/mixed-comm.ts:100-104 | Follows `ReceiveSpec`: the delivery from the `from -> me` mailbox, tagged with `from` |
| MixedComm.EncodedCommunicator.constructor | comm/node-comm.ts:131-136 | Wraps a communicator with an encoder and a decoder |
| MixedComm.EncodedCommunicator.NumNodes | comm/node-comm.ts:137 | Passes `num_nodes` through |
| MixedComm.EncodedCommunicator.Neighbors | comm/node-comm.ts:138 | Passes `neighbors` through |
| MixedComm.EncodedCommunicator.SendMessage | comm/node-comm.ts:139-140 | Sends the encoded payload through the wrapped communicator |
| MixedComm.EncodedCommunicator.GetMessage | comm/node-comm.ts:141-142 | Receives through the wrapped communicator and decodes the payload once it arrives, keeping the sender |
| MixedComm.EncodedFifo | comm/node-comm.ts:131-144 | With a decoder that undoes the encoder, the k-th receive through an encoded channel yields the k-th value sent |
| MultiNode.IndexMap | comm/multinode.ts:40 | `index` has exactly the ids as keys; each maps to a position holding it, the last such position |
| MultiNode.IndexInverts | comm/multinode.ts:40 | With distinct ids, `index` inverts `id` |
| MultiNode.IndexKeepsLast | comm/multinode.ts:40 | A repeated id is not routed by its earlier position |
| MultiNode.Neighbours | comm/multinode.ts:64 | Node `i`'s adjacency list mapped to ids, position by position |
| MultiNode.NetworkUpToShape | comm/multinode.ts:62-65 | After each node is entered, the topology lists exactly the members entered so far, each with its own neighbours when ids are distinct |
| MultiNode.NetworkShape | comm/multinode.ts:58-65 | A hub's topology lists exactly its members, each with its neighbours when ids are distinct |
| MultiNode.BuildNetwork | comm/multinode.ts:62-65 | The loop builds exactly `Network` |
| MultiNode.HubOf | comm/multinode.ts:66-71 | A hub is told the whole network size and serves exactly the members of its label, whose lists it holds |
| MultiNode.Route | comm/multinode.ts:46-51 | Succeeds exactly for a known id, otherwise "unknown node to"; the label found is a label whose hub serves `to` |
| MultiNode.SystemSend | comm/mixed-comm.ts:62-75 | A send through the sender's hub, handed on by the callback to the receiver's hub: no hub appears or disappears; a send to another hub records exactly one callback call at the sender's hub; no other hub records one |
| MultiNode.SystemHandle | comm/multinode.ts:46-57 | Succeeds exactly for a known node with an existing hub; each failure has its own message; no hub appears or disappears |
| MultiNode.SystemReceive | comm/multinode.ts:74-84 | A node's receive on its own hub always succeeds |
| MultiNode.HomeOfNode | comm/multinode.ts:40-51 | With distinct ids, node `i` is routed to the hub of its own label |
| MultiNode.HomeOfMember | comm/multinode.ts:46-51 | With distinct ids, every member of a label's hub is routed to that hub |
| MultiNode.SystemSendOk | comm/mixed-comm.test.ts:145-227 | Across the cross-wired hubs, a send from node `i` succeeds exactly when `to` is one of its neighbours |
| MultiNode.SystemSendLocalView | comm/mixed-comm.ts:69-70 | Between members of one hub, the send appends to exactly that mailbox |
| MultiNode.SystemSendRemoteView | comm/multinode.ts:46-57 | To a member of another hub, the relay appends to exactly the receiver's mailbox on the receiver's hub |
| MultiNode.SystemSendView | comm/mixed-comm.test.ts:145-227 | Cross-wired hubs act as one hub: a send succeeds exactly towards a neighbour and appends to exactly the mailbox from sender to receiver, wherever the two live |
| MultiNode.SystemReceiveView | comm/mixed-comm.ts:100-104 | A receive takes what `get_message` on the mailbox from `from` to the node takes, and changes that mailbox alone |
| MultiNode.HandleReachesHub | comm/multinode.ts:46-57 | When every label has its hub, `handle` never fails for a known node |
| MultiNode.MakeHubs | comm/multinode.ts:58-73 | One fresh, distinct, valid hub per label, configured by `HubOf`, with empty mailboxes and no callback calls |
| MultiNode.MakeComms | comm/multinode.ts:74-84 | One communicator per node, on the hub of its label, for that node, with the given encoder and decoder |
| MultiNode.MultiNodeSetup.constructor | comm/multinode.ts:29-99 | `index` inverts `id`, one empty hub per label, one encoded communicator per node on its hub, and one node made by `get_node` from its extras, communicator, id, position and neighbours |
| MultiNode.MultiNodeSetup.Handle | comm/multinode.ts:46-57 | Follows `SystemHandle`: the same errors, and on success the receiver's hub holds the state `SystemHandle` gives |
| DamMessage.Preimage | algo/dam/message.ts:125-157 | Every preimage starts with its variant's tag |
| DamMessage.PreimagesSeparateVariants | algo/dam/message.ts:125-157 | Messages of different variants never share a preimage |
| DamMessage.ResponsePreimage | algo/dam/message.ts:144-156 | A transaction response's preimage holds one inner hash per ledger line, in order |
| DamMessage.Reduce | util/crypto.ts:41 | The list as the field elements the capability hashes, one per entry |
| DamMessage.TransactionHashMatch | algo/dam/message.ts:148-153 | For a capability that hashes field elements: ledger lines with the same buyer and allocation and transfers equal as field elements share an inner hash; when no hash comparing the two lines collides, they share it only then |
| DamMessage.HashDeterminesMessage | algo/dam/message.ts:125-157 | For a capability that hashes field elements: messages of the same variant with the same strings and numbers equal as field elements share a hash; when no hash comparing the two messages collides, they share it only then |
| DamMessage.SharedHashSameInField | algo/dam/message.ts:125-157 | The first direction: when no hash comparing the two messages collides, a shared hash means the same message up to field reduction |
| DamMessage.SameInFieldSharesHash | algo/dam/message.ts:125-157 | The second direction: messages equal as field elements share a hash |
| DamMessage.FixLength | algo/dam/message.ts:223 | The list has exactly `width` entries: the input's entries, then `fill` |
| DamMessage.FixLengthIdempotent | algo/dam/message.ts:223 | Fixing the length twice changes nothing, and a list that fits survives as the prefix |
| DamMessage.DamMessageHandler.constructor | algo/dam/message.ts:109-116 | Stores the crypto and key with an empty memo |
| DamMessage.DamMessageHandler.PubKey | algo/dam/message.ts:118-123 | Returns the key's public key and fills the memo; a filled memo is kept as it is |
| DamMessage.DamMessageHandler.HashMessage | algo/dam/message.ts:125-157 | For a capability that hashes field elements, every message equal to this one as field elements has this hash, and every message with this hash whose hashes do not collide with this one's is equal to it as field elements |
| DamMessage.DamMessageHandler.Wrap | algo/dam/message.ts:160-164 | Keeps the payload; with sound signatures, the wrapper verifies under the handler's own public key |
| DamMessage.DamMessageHandler.Unwrap | algo/dam/message.ts:166-168 | Gives the payload; it inverts `wrap` on exactly the wrappers carrying this handler's hash and signature |
| DamMessage.DamMessageHandler.Verify | algo/dam/message.ts:170-178 | False when the hash does not match the payload; otherwise exactly the signature check |
| DamMessage.DamMessageHandler.MustVerify | algo/dam/message.ts:180-185 | Throws "Invalid signature" exactly when `verify` is false |
| DamMessage.DamMessageHandler.VerifyAndUnwrap | algo/dam/message.ts:187-193 | The payload exactly when the wrapper verifies, otherwise "Invalid signature" |
| DamMessage.DamMessageHandler.DiffusionWitnessOf | algo/dam/message.ts:195-214 | Every witness field comes from its source: the item and seller hashed to the field, the parent's and own signatures, and both public keys |
| DamMessage.DamMessageHandler.GatherWitnessOf | algo/dam/message.ts:216-240 | Own key and signature, bid and max price; every child list has `max_width` entries, the children's values and then the padding |
| DamMessage.WrapVerifies | algo/dam/message.ts:160-193 | With sound signatures, what a handler wraps verifies under its own public key and unwraps to the payload |
| DamMessage.TamperedPayloadRejected | algo/dam/message.ts:170-178 | For a capability that hashes field elements, a wrapper whose payload was replaced after signing by one that differs as field elements, with no hash collision between the two, is rejected with "Invalid signature" under any key |
| DamMessage.AssumptionsSatisfiable | util/crypto.ts:41 | A concrete capability over five field elements meets `FieldCrypto`, `ReducesModulo` and `SignaturesSound`, with two messages that differ as field elements and whose hashes do not collide, so no lemma above rests on an impossible hypothesis |
| DamMessage.AliasedPayloadAccepted | algo/dam/message.ts:170-193 | With the reduction modulo the field size, a signed `Gather(v)` re-labelled `Gather(v + p)` is a different message that still verifies under the signer's key and unwraps to the changed payload |
| DamMechanism.Largest | algo/dam/mechanism.ts:57-58 | The largest report is a report and at least every report |
| DamMechanism.SecondLargest | algo/dam/mechanism.ts:57-60 | The second price is at most the largest report |
| DamMechanism.RemovedAt | util/collection.ts:1-8 | `remove_element` drops one position holding the needle and shifts the later entries down |
| DamMechanism.Responses | algo/dam/mechanism.ts:49-56 | One response per child, carrying the child's position and its report |
| DamMechanism.SortResponses | algo/dam/mechanism.ts:57 | The sorted responses are a permutation of the children's responses, largest report first |
| DamMechanism.Rank | algo/dam/mechanism.ts:57-60 | No report throws reading `index` and one throws reading `subtree_max`; otherwise a child holding the largest report, that report and the second price |
| DamMechanism.RankingOfSorted | algo/dam/mechanism.ts:57-60 | In any arrangement sorted largest first, the first entry is a largest report and the second is the second price |
| DamMechanism.SecondOfTwoPositions | algo/dam/mechanism.ts:60 | When one position holds a largest value and another the largest of the rest, they hold `Largest` and `SecondLargest` |
| DamMechanism.Reports | algo/dam/mechanism.ts:49-56 | The reported values of the gather messages, in child order |
| DamMechanism.SellerRun | algo/dam/mechanism.ts:34-79 | Each error in the order it is thrown; on success, diffusion of `(me, item)`, a scatter of the second price to a child with the largest report, and the received ledger returned unchanged |
| DamMechanism.BuyerRun | algo/dam/mechanism.ts:94-187 | Each error in the order it is thrown; children are the neighbours without the parent; the report is the largest of the bid and all reports; keep exactly when the second price is at most the bid, paying the offer; otherwise resell at `max(second, bid)` to a child with the largest report and prefix own line to the child's ledger; the answer up is a path ledger, a keeper's own or the child's path extended by this resale |
| DamMechanism.BuyerPrices | algo/dam/mechanism.ts:135-136 | `second_max_price` is at least the bid; the keep test holds exactly when the second report is at most the bid; `max_price` is the largest of the bid and all reports |
| DamMechanism.PathLedger | algo/dam/mechanism.ts:153-185 | The ledger back up a scatter path has one line per reseller plus the keeper's |
| DamMechanism.PathLedgerAllocatesOnce | algo/dam/mechanism.ts:153-184 | On a scatter path exactly the last line, the keeper's, allocates the item |
| DamMechanism.PathLedgerSum | algo/dam/mechanism.ts:153-184 | The path's transfers telescope to minus the price offered to its first buyer |
| DamMechanism.ResellExtendsPath | algo/dam/mechanism.ts:176-184 | A keeper answers with a one-line path ledger; a reseller's answer extends the path its child answered for |
| DamMechanism.SellerLedgerSum | algo/dam/mechanism.ts:77-78 | The ledger the seller returns sums to minus the second price, not zero; a seller line earning the second price would balance it |
| DamMechanism.SellerLedger | algo/dam/dam.test.ts:62-66 | The corrected seller result: the received ledger after a non-allocating seller line, with transfers summing to zero |
| DamMechanism.GatherPrices | algo/dam/mechanism.ts:132-136 | The corrected prices for any number of children: report the largest of bid and reports; resale price at least the bid; keep exactly with fewer than two children or a second report at most the bid; equal to the code's prices with two or more children |
| DamMechanism.ChildlessBuyerKeeps | algo/dam/dam.test.ts:11-67 | With the corrected prices, a childless buyer reports its bid and keeps |
| DamMechanism.SecondOfTwo | algo/dam/mechanism.ts:57-60 | For two reports, the larger one first, the largest is the first and the second price is the second |
| DamMechanism.ScenarioLedger | algo/dam/dam.test.ts:62-66 | The scenario's path ledger is node 1's `+4` and node 3's `-5, allocated`, and the corrected seller ledger adds `{0, +1}` before them |
| DamMechanism.FirstScenario | algo/dam/dam.test.ts:11-67 | The first auction test, with corrected prices: leaves report their bids, node 1 reports 7 and resells at 5, the seller offers 1, and the corrected ledger has the expected buyers, transfers and allocations, the allocations as booleans |

## Left out

- Concurrency and promises: every call runs to completion in the order given. A parked `get_message` is a ticket that a later send resolves.
- `Promise.all` over children: the model fixes one order, child by child.
- Message passing between auction nodes: the payloads a run receives are parameters of `SellerRun`/`BuyerRun`. What it sends is its result.
- `dam_wrap`/`dam_unwrap`: called in algo/dam/mechanism.ts but defined in no file of the repository. The mechanism passes raw message values. Signing is modelled separately by `DamMessageHandler.Wrap`/`VerifyAndUnwrap`.
- algo/dam/item.ts is not part of this model. An item is a string and the evaluation is a total function given in the buyer's setup.
- `fix_length`: imported from util/collection.ts, which does not define it. `FixLength` pads or cuts to the width.
- `max_height`: declared in algo/dam/message.ts and never used.
- The cryptography (util/crypto.ts, util/hash.ts, util/zkp.ts): the capability is a record of functions. It carries the field size and `toField`, which stands for `F.fromObject` (util/crypto.ts:63-64). `FieldCrypto` states what the capability does by construction: the hash sees only field elements, its outputs and those of `hash_to_field` are field elements, and the five tags differ. Collision resistance cannot hold of every pair of inputs, so it is a hypothesis on the particular pair compared (`MessagesCollisionFree`, `LineCollisionFree`). `SignaturesSound` says that a signature verifies under the signer's key. `AssumptionsSatisfiable` gives one capability that meets all of these. `ReducesModulo` states that the reduction is the residue modulo the field size, and only `AliasedPayloadAccepted` uses it. `F.fromObject` itself belongs to an outside library and is not part of this model.
- DamMessage.TamperedPayloadRejected: holds only for a replacement payload that differs from the signed one as field elements, and only when none of the hashes comparing the two payloads collides. A payload that differs only by multiples of the field size, such as a transfer of -5 against one of p - 5, has the same hash and passes `verify` (`AliasedPayloadAccepted`).
- DamMessage.HashDeterminesMessage: determines a message only up to field reduction of its numbers, including negative transfers, and only for a pair whose hashes do not collide. Bigints are reduced when hashed, not when carried.
- `witness_to_json`, `encode_msg`, `decode_msg`, `make_message_handler`: thin wrappers over the codec and the crypto constructor.
- JSON text: `JSON.stringify`/`JSON.parse` are taken as mutually inverse on value trees. The codec is modelled on the trees, as the replacer and reviver see them.
- Nested maps: `Map<from, Map<to, channel>>` is a table keyed by `(from, to)`. The outer rows the mixed hub creates for every served node are the `to in localNodes` test.
- `send_message_callback`: a mixed hub records each call in `outbox`. `SystemSend`/`SystemHandle` then model what the multi-node setup's callback does with it.
- MultiNode.MultiNodeSetup.Handle: states only the state of the receiver's hub. The hubs' `Repr` sets are not proved disjoint, so the other hubs' states are not stated.
- MultiNode.MultiNodeSetup.constructor: requires every node to have a label and an adjacency list of in-range positions, and enough extras. Outside that, the source behaves in four ways the model does not reproduce. An out-of-range neighbour index `j` gives the neighbour id `undefined` with no throw (comm/multinode.ts:64, 95). A missing extra is passed to `get_node` as `undefined` with no throw (comm/multinode.ts:91). A missing label throws `Error("unknown channel undefined")` (comm/multinode.ts:75-78). Only a missing adjacency list throws a `TypeError`, from `.map` (comm/multinode.ts:64).
- DamMechanism.FirstScenario: the buyer setups of algo/dam/dam.test.ts:37-40 have no `role`, so as written every buyer there throws "Invalid role" (algo/dam/mechanism.ts:95-96) before any price is computed. The scenario takes every buyer as `role: "DAM_BUYER"`.
- NodeComm.Receive: `get_message` takes a message whose value is `undefined` for an empty queue (comm/node-comm.ts:42-43). Such a message is consumed and lost, and the receiver parks. The model delivers every message. The core only sends encoded strings, which are never `undefined`.
- MixedComm.EncodedCommunicator: `encoded_communicator` (comm/node-comm.ts:131-144) wraps any communicator. The model wraps only a `MixedCommunicator`, the one the multi-node setup passes it. Wrapping a `LocalCommunicator` is not modelled.
- DamMechanism.FirstScenario: `allocation` is a boolean in the model. The source declares it a number (algo/dam/message.ts:44), the mechanism writes `true`/`false` (algo/dam/mechanism.ts:156, 179), and the tests expect `0`/`1` (algo/dam/dam.test.ts:63-65, 122-123). Only the hash's truthiness test (algo/dam/message.ts:151) treats them alike. The scenario's ledger matches the expected one with `1` read as `true` and `0` as `false`, whereas the test's deep equality would still fail on `false` against `0`.
- `GetNode`: `get_node` is a total function parameter. What the nodes it returns do is not modelled.
- Numbers: the auction's bigints are unbounded integers while they are carried. They are reduced to field elements only inside the hash and signature primitives, through `toField`. JSON numbers pass through the codec as exact reals, with no rounding and no 2^53 limit.
- comm/node-base.ts, comm/node-prim.ts, util/functional.ts, algo/sum_of_squares.ts, http.ts, main.ts and trash/: outside the modelled core. The HTTP transport and the entry point are I/O.
- `EdgeList.remove_loops`: called by the auction tests but not defined in util/graph.ts. The test scenario is modelled from the graph it intends: a tree without the self-loop.

## Findings

| source | as written | input that shows it | evidently intended | confidence | as-written member | corrected member |
|---|---|---|---|---|---|---|
| algo/dam/mechanism.ts:77-78 | The seller returns the ledger received from its chosen child as it is | A seller with two children reporting 7 and 1 scatters 1 to the first; that child answers with the ledger `{1, +4}`, `{3, -5, allocated}`. The seller returns it as it is, summing to -1, while algo/dam/dam.test.ts:62-66 expects a first line `{buyer: "0", transfer: 1}` | The seller puts a non-allocating line of its own before the ledger, balancing the transfers to zero | high; not executed | DamMechanism.SellerLedgerSum | DamMechanism.SellerLedger |
| algo/dam/mechanism.ts:132-136 | A buyer reads `gather_down_msgs[0]` and `[1]` whatever its number of children | A buyer with setup `role: "DAM_BUYER"` whose only neighbour is its parent gets no gather reports and throws reading `index` of undefined | A missing report is left out of the maxima: a childless buyer reports its bid and keeps, and the test's leaf winner completes | high; not executed | DamMechanism.BuyerRun | DamMechanism.GatherPrices |
