# Relocated-node admission and network events, in Dafny

This project models two parts of a routing library for a peer-to-peer network
made of sections of nodes.

**Network events** (module `Chain`). A section's members agree on a set of
facts. The facts are:
- a node comes online;
- a node goes offline;
- our section merges;
- a neighbour section merges;
- a new section snapshot;
- a chain of proofs for a neighbour section.

The model covers:
- the event type and the order Rust derives for it (module `DerivedOrd` gives a
  general model of `#[derive(Ord)]`);
- the successor-proof check;
- the projection onto the snapshot an event carries;
- the mapping of events into observations for the consensus engine.

**The proving node** (module `States`, class `ProvingNode`). A node that has
been relocated to a new section must be approved there before it becomes a
full member. The proving node is that node while it waits. It keeps:
- a peer table;
- a processing queue;
- an append-only backlog of routing messages that wait for approval;
- the set of notified nodes;
- the prefix it is joining.

At each step it reacts to one user action or one transport event, and answers
one of three things:
- `Stay`;
- `Terminate`, when it loses its proxy, is told to stop, or the resource prover answers a timeout with `Terminate`;
- `IntoNode`, when its section approves it. It then hands its queue followed by
  its backlog to the member state.

What other code of the crate computes enters the model in one of two ways:
- As function-valued constants, for code with no state of its own:
  - prefix matching;
  - the codec for the pair of identities;
  - detached signing.
- As a `Replies` value given with each input, for collaborators that keep state
  of their own:
  - the hop-message filter;
  - the connection-info handlers;
  - the resource prover.

So every property holds whatever those collaborators answer. The machine's
outputs are logged in four places:
- `effects` logs sends, replies to the user, and calls into the connection-info
  handlers and the ack manager's resend;
- the fields of `resourceProver` log calls into the resource prover;
- `receivedAcks` logs acks handed to the ack manager;
- `events` logs events raised to the user.

Calls into the hop-message filter are not recorded. A ghost history `dispatched` of every
routing message dispatched so far is kept. `Valid()` ties it to the real
backlog: the backlog is exactly the deferred messages of the history, in
arrival order (`Deferred`).

Files:
- `wrappers.dfy`: `Option` and `Result`.
- `derived_ord.dfy`: the derived order on a generic term tree.
- `routing.dfy`: identities, names, prefixes, authorities and snapshots, with
  their order encodings.
- `network_event.dfy`: `NetworkEvent` and its functions.
- `messages.dfy`: the messages, actions, transport events, peer states and
  transitions the state machine handles.
- `proving_node.dfy`: the state machine.

## Model

| member | source | states |
|---|---|---|
| `DerivedOrd.CmpReverse` | src/chain/network_event.rs:19 | swapping the operands of the derived comparison reverses its answer |
| `DerivedOrd.CmpEqual` | src/chain/network_event.rs:19 | the derived comparison answers `Equal` exactly on equal values |
| `DerivedOrd.CmpTrans` | src/chain/network_event.rs:19 | derived `Less` is transitive |
| `DerivedOrd.StrictTotalOrder` | src/chain/network_event.rs:19 | derived `Less` is irreflexive, asymmetric, transitive and total |
| `Chain.EncodeInjective` | src/chain/network_event.rs:19-28 | distinct events have distinct encodings, so the order distinguishes them |
| `Chain.OrderIsStrictTotal` | src/chain/network_event.rs:19-28 | `cmp` on events is `Equal` exactly on equal events, reverses under swapping, and its `Less` is a strict total order |
| `Chain.RankFirst` | src/chain/network_event.rs:20-28 | events of different variants compare by declaration position alone: Online < Offline < OurMerge < NeighbourMerge < SectionInfo < ProvingSections |
| `Chain.SameVariantFieldwise` | src/chain/network_event.rs:20-28 | events of the same variant compare by their fields in order, the first difference deciding; `OurMerge` equals itself |
| `Chain.ProvesSuccessorInfo` | src/chain/network_event.rs:32-37 | false for every variant but `SectionInfo`; for `SectionInfo(si)`, exactly `si.proves_successor(theirSi, proofs)` |
| `Chain.SectionInfoOf` | src/chain/network_event.rs:40-45 | `Some(si)` exactly for the event `SectionInfo(si)`, `None` for every other event, `ProvingSections` included |
| `Chain.ProvesSuccessorThroughProjection` | src/chain/network_event.rs:32-45 | the successor check succeeds exactly when the projected snapshot proves the successor |
| `Chain.IntoObs` | src/chain/network_event.rs:48-60 | fails, with a serialisation error, exactly on `Online` whose authority does not serialise. `Online(id, auth)` becomes `Add(id, serialise(auth))`. `Offline(id)` becomes `Remove(id, [])`. Every other event becomes an opaque payload holding the event unchanged |
| `Chain.IntoObsInjective` | src/chain/network_event.rs:48-60 | with an injective codec, equal successful observations come from equal events |
| `Chain.MembershipObservationsComeFromMembershipEvents` | src/chain/network_event.rs:50-58 | only `Online` yields `Add` and only `Offline` yields `Remove`; an opaque payload carries the event itself |
| `States.Classify` | src/states/proving_node.rs:314-385 | the dispatch table. A connection-info request from `ManagedNode` to `ManagedNode` is handled exactly when the joining prefix matches the source name. A connection-info response from `ManagedNode` to `Client` is handled. `NodeApproval` from `PrefixSection` to `Client` approves. An `Ack` goes to the ack manager whatever its authorities. Every other message goes to the backlog |
| `States.DeferredSnoc` | src/states/proving_node.rs:388-395 | dispatching one more message extends the backlog by exactly that message when it is deferred, and leaves it as it was otherwise |
| `States.DeferredKeepsEach` | src/states/proving_node.rs:388-395 | every message dispatch backlogs is in the backlog, right after the backlogged messages that arrived before it |
| `States.DeferredGrowsByAppending` | src/states/proving_node.rs:388-395 | the backlog only grows at its end: an earlier backlog is a prefix of a later one |
| `States.DeferredPreservesOrder` | src/states/proving_node.rs:388-395 | of two backlogged messages, the one that arrived first sits earlier in the backlog |
| `States.DeferredOnlyBacklogged` | src/states/proving_node.rs:314-395 | only dispatched messages that the dispatch table sends to the backlog are in it |
| `States.DispatchIntoNodeIffApproval` | src/states/proving_node.rs:370-384 | dispatch gives `IntoNode(gen)` exactly for `NodeApproval(gen)` from `PrefixSection` to `Client`; any other successful dispatch gives `Stay` |
| `States.TerminatesExactlyOnProxyLoss` | src/states/proving_node.rs:174-204 | a transport event terminates the machine exactly when it reports the loss of the proxy |
| `States.IntoNodeExactlyOnApproval` | src/states/proving_node.rs:174-204 | a transport event yields `IntoNode` exactly when a connected peer or the proxy hops in an approval message and the filter passes the hop's content on |
| `States.UnauthorisedSenderStays` | src/states/proving_node.rs:279-311 | a message from a peer that is neither `Connected` nor `Proxy` stays. A direct message is refused with `InvalidStateForOperation`. A hop message is refused with `UnknownConnection(peer)` |
| `States.ActionNeverApproves` | src/states/proving_node.rs:144-172 | no action yields `IntoNode`. An action terminates exactly on `Terminate` or on a timeout the resource prover answers with `Terminate` |
| `States.ProvingNode.FromBootstrapping` | src/states/proving_node.rs:69-110 | the peer table holds just the proxy, in state `Proxy`. The challenger count is the section size. The prover is started. Queue, backlog and notified nodes are empty. One connection-info request is sent to each section member |
| `States.ProvingNode.Start` | src/states/proving_node.rs:112-141 | starts the resource prover with the configured flag, then sends exactly one connection-info request to every member (source `Client{our id, proxy name}`, destination `ManagedNode(member name)`), whatever the outcome of each send |
| `States.ProvingNode.HandleAction` | src/states/proving_node.rs:144-172 | send requests are refused with `InvalidState` and stay. `GetId` replies with our id. A timeout is passed on and only its `Terminate` propagates. A proof result is sent to the challenger. `Terminate` terminates |
| `States.ProvingNode.HandleTimeout` | src/states/proving_node.rs:412-423 | the prover's transition when it claims the token; otherwise the unacknowledged messages are resent and it stays |
| `States.ProvingNode.HandleCrustEvent` | src/states/proving_node.rs:174-204 | the transition is `CrustTransition` computed from the peer table before the event. A connect success records the peer as `Connected` (the proxy stays `Proxy`) and sends it the `CandidateInfo`. A lost peer or a connect failure drops the peer. A new message is handled, and every error it gives becomes `Stay`. Any other event changes nothing |
| `States.ProvingNode.HandleConnectSuccess` | src/states/proving_node.rs:180 | sets the peer's state to `Connected` (the proxy keeps `Proxy`), leaving the rest of the table as it was. It records the connection and then sends exactly what `ProcessConnection` sends with the updated table |
| `States.ConnectThenChallenge` | src/states/proving_node.rs:180-197 | for every valid node and every peer without a name clash: once the peer's connection succeeds, its resource-proof request is appended to the resource prover's challenges, both events give `Stay`, and the invariant holds |
| `States.ProvingNode.IntoNode` | src/states/proving_node.rs:206-224 | hands over the queue followed by every deferred message in arrival order (`msgQueue + msgBacklog`), with the acks, identity, notified nodes and peer table |
| `States.ProvingNode.HandleNewMessage` | src/states/proving_node.rs:226-239 | a decoding error is passed on unchanged. A direct message gives `Stay` when the sender is authorised, `InvalidStateForOperation` otherwise. A hop message gives the hop handler's result |
| `States.ProvingNode.HandleDirectMessage` | src/states/proving_node.rs:241-276 | the sender check runs first, and a refused message changes nothing. A resource-proof challenge goes to the prover. A receipt goes to the prover and its reply, if any, is sent back. Other direct messages are ignored |
| `States.ProvingNode.CheckDirectMessageSender` | src/states/proving_node.rs:279-294 | `Ok` exactly when the sender is recorded as `Connected` or `Proxy`; `InvalidStateForOperation` otherwise |
| `States.ProvingNode.HandleHopMessage` | src/states/proving_node.rs:296-312 | a peer that is not `Connected`/`Proxy` gives `UnknownConnection(peer)` with no change. A filter error is passed on, and a hop the filter drops gives `Stay`, both with no change. When the filter passes the hop, its own routing message is dispatched |
| `States.ProvingNode.DispatchRoutingMessage` | src/states/proving_node.rs:314-385 | the message joins the dispatch history. It is appended to the backlog exactly when the dispatch table defers it. Its ack is received. The prover learns of an approval. The connection-info handlers are called and their errors passed on. The backlog invariant holds afterwards |
| `States.ProvingNode.AddMessageToBacklog` | src/states/proving_node.rs:388-395 | appends the message at the end of the backlog |
| `States.ProvingNode.HandleNodeApproval` | src/states/proving_node.rs:397-406 | tells the prover of the approval and yields `IntoNode(gen)` unconditionally |
| `States.ProvingNode.HandleAckResponse` | src/states/proving_node.rs:408-410 | passes the ack to the ack manager |
| `States.ProvingNode.DroppedPeer` | src/states/proving_node.rs:425-436 | removes the peer from the peer table and from the notified nodes; answers false exactly when the peer was the proxy |
| `States.ProvingNode.InAuthority` | src/states/proving_node.rs:448-454 | true exactly for a `Client` authority whose client id is our public id |
| `States.ProvingNode.HandleLostPeer` | src/states/proving_node.rs:456-465 | drops the peer. Losing the proxy raises `Terminated` and terminates. Losing any other peer stays and raises nothing |
| `States.ProvingNode.HandleConnectFailure` | src/states/proving_node.rs:547-554 | drops the peer, raises nothing and never terminates |
| `States.ProvingNode.CandidateInfoMessage` | src/states/proving_node.rs:508-537 | none when the id pair does not serialise. Otherwise the old key signs the serialised pair, and the new key signs those bytes followed by the old signature's bytes. The new client authority is our new id with the proxy's name |
| `States.ProvingNode.GetProxyName` | src/states/proving_node.rs:521-526 | the name of a peer in state `Proxy`, and none exactly when there is no proxy |
| `States.ProvingNode.ProcessConnection` | src/states/proving_node.rs:505-545 | sends nothing exactly when serialising fails or no proxy is known. Otherwise it appends exactly one message: the `CandidateInfo` built for a proxy in the table, sent to the peer |
| `States.ProvingNode.AddToNotifiedNodes` | src/states/proving_node.rs:566-568 | adds the node, answering true exactly when it was not yet notified |
| `States.ProvingNode.GetProxyPublicId` | src/states/proving_node.rs:574-589 | `Ok(id)` exactly when a peer of that name is connected, and then `id` is that peer; `ProxyConnectionNotFound` otherwise |

## Left out

- The transport, the message codec and sending (`crust_service`, `send_direct_message`,
  `send_connection_info_request`, `from_crust_bytes`, `serialise`) are I/O and foreign
  calls. Their outcomes are parameters, and the sends are recorded in `effects`.
- `sign_detached`, `Prefix::matches` and `SectionInfo::proves_successor` are
  function-valued parameters or constants. Their code is not part of this model.
- The internals of the resource prover are not modelled: challenges, receipts, timeouts,
  approval, and the proof of work that runs on another thread. The calls made into it are
  recorded, and its answers come in through `Replies`.
- `RoutingMessageFilter` is not modelled. Its verdict on the hop being handled comes in
  through `Replies` (`filterPasses`), and its calls are not recorded.
- `handle_connection_info_request` and `_response` come from shared code that is not part
  of this model. Their result comes through `Replies`, and their calls are recorded in
  `effects`.
- `handle_connection_info_prepared` also comes from that shared code. It is recorded in
  `effects` and answers nothing.
- Those three handlers move peers through the connecting states in the peer table, and
  that is not modelled either. So no peer is ever in `ConnectionInfoPreparing`,
  `ConnectionInfoReady` or `CrustConnecting` here.
- `AckManager` is reduced to the sequence of acks received. Resending unacknowledged
  messages is recorded, not performed.
- `PeerManager` is reduced to a map from public id to peer state.
  - `is_connected` is taken to mean "past the connecting phases".
  - `get_proxy_name` and `get_peer_by_name` are modelled as searches of that map.
  - Names are not derived from keys by hashing. That distinct peers have distinct names
    is kept as an invariant instead.
- `handle_connect_success` comes from shared code that is not part of this model. Its
  model makes three assumptions:
  - the peer manager sets the peer to `Connected`;
  - the proxy keeps `Proxy`;
  - `process_connection` then runs, since every peer is valid here (src/states/proving_node.rs:556-558).
- The timer, logging, `Display`, the response cache and the global configuration lookup
  are left out. Whether resource proof is disabled is a constructor parameter.
- `into_node` also moves the cache, transport, filter and timer into the member state.
  These are not modelled, and neither is `Node::from_proving_node`.
- States.ProvingNode.Start: the source sends the requests in ascending order of public id.
  The model iterates over a set, so the order of the recorded requests is left open.
- States.ProvingNode.HandleAction: for `TakeResourceProofResult`, the model records only
  the challenger's id given to the prover, not the proof messages.
- States.ProvingNode.HandleConnectSuccess, States.ProvingNode.HandleCrustEvent (for
  `ConnectSuccess`) and States.ConnectThenChallenge: require that no other peer in the table has
  the connecting peer's name. Names are hashes of keys, and the model does not hash, so
  it assumes there are no collisions.
- Only some fields are kept for `PublicId`, `SectionInfo`, `ProvingSection`, `Prefix` and
  the message types. The derived order is modelled on the fields kept, in declaration
  order. A name or digest is compared as the number its bytes spell.
- The consensus engine itself is left out. Only the observation type `into_obs` produces
  is modelled.
- Integer widths (`usize`, `u64`) are unbounded here. No operation in the core does
  arithmetic that could wrap.
- The generated rustdoc JavaScript file contains no logic.
