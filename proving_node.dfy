/**
  The admission state machine (`ProvingNode`): a relocated node that is being
  vetted by its destination section. It owns a peer table, an ordered queue
  and an append-only backlog of routing messages, the set of notified nodes
  and the joining prefix; it reacts to one action or transport event at a time
  and answers with a `Transition`.

  Collaborators whose code is not part of this model enter in two ways. Pure
  ones (`Prefix::matches`, the codec for the identity pair, `sign_detached`)
  are function-valued constants of the object. Stateful ones whose answers are
  computed elsewhere (the hop-message filter, the connection-info handlers,
  the resource prover) answer through a `Replies` value passed with each
  input, so every property below holds whatever they answer. Sends, replies
  to the user and calls into the connection-info handlers are appended to
  `effects`; calls into the resource prover are recorded in `resourceProver`,
  acks in `receivedAcks`, and events raised to the user in `events`. Calls
  into the hop-message filter are not recorded.
*/
module States {
  import opened Wrappers
  import opened Routing
  import opened Messages

  /** A resource-proof challenge as handed to the resource prover. */
  datatype Challenge = Challenge(challenger: PublicId, seed: seq<bv8>, targetSize: nat, difficulty: nat)

  /** The resource prover as far as this state machine drives it: the number
      of challengers it expects, whether it was started (and with proofs
      disabled), and the calls made into it, in order. Its proof-of-work and
      its own bookkeeping are not modelled. */
  datatype ResourceProver = ResourceProver(
    challengerCount: nat,
    started: bool,
    disabled: bool,
    challenges: seq<Challenge>,
    receipts: seq<PublicId>,
    proofResults: seq<PublicId>,
    timeouts: seq<nat>,
    approved: bool)

  /** An observable effect: a message sent, a reply given, or a call into a
      collaborator whose code is not part of this model. */
  datatype Effect =
    | ConnectionInfoRequestSent(to: PublicId, src: Authority, dst: Authority, outcome: Result<Unit, RoutingError>)
    | DirectMessageSent(to: PublicId, msg: DirectMessage)
    | RequestRefused(error: InterfaceError)
    | IdReplied(id: PublicId)
    | ConnectSuccessRecorded(peer: PublicId)
    | ConnectionInfoPreparedHandled(token: nat)
    | ConnectionInfoRequestHandled(request: RoutingMessage)
    | ConnectionInfoResponseHandled(response: RoutingMessage)
    | UnacknowledgedResent(token: nat)

  /** The answers of the stateful collaborators during one input.
      `filterPasses` is the hop-message filter's verdict on the content of
      the hop being handled: `Ok(true)` passes that content on, `Ok(false)`
      drops it as already seen, `Err` rejects the hop. */
  datatype Replies = Replies(
    filterPasses: Result<bool, RoutingError>,
    connectionInfoHandled: Result<Unit, RoutingError>,
    receiptReply: Option<DirectMessage>,
    timeoutClaim: Option<Transition>,
    proofReply: DirectMessage)

  /** What `into_node` hands to the full-member state. */
  datatype NodeHandoff = NodeHandoff(
    ackMgr: seq<Ack>,
    fullId: FullId,
    genPfxInfo: GenesisPfxInfo,
    minSectionSize: nat,
    msgQueue: seq<RoutingMessage>,
    notifiedNodes: set<PublicId>,
    peers: map<PublicId, PeerState>)

  /** The peer manager's record for `id`, if any. */
  function StateIn(peers: map<PublicId, PeerState>, id: PublicId): Option<PeerState>
  {
    if id in peers then Some(peers[id]) else None
  }

  /** The states in which a peer may send us messages we act on. */
  predicate ConnectedOrProxy(s: Option<PeerState>)
  {
    s == Some(Connected) || s == Some(Proxy)
  }

  /** `PeerState::is_connected`: the peer is past the connecting phases. */
  predicate IsConnectedState(s: PeerState)
  {
    !(s == ConnectionInfoPreparing || s == ConnectionInfoReady || s == CrustConnecting)
  }

  /** Distinct peers have distinct names (a name is a hash of the key). */
  ghost predicate NamesIdentifyPeers(peers: map<PublicId, PeerState>)
  {
    forall a, b :: a in peers && b in peers && a.name == b.name ==> a == b
  }

  /** The approval message: `NodeApproval` from a section to a client. */
  predicate IsApproval(msg: RoutingMessage)
  {
    msg.content.NodeApproval? && msg.src.PrefixSection? && msg.dst.Client?
  }

  /** Where `dispatch_routing_message` sends a routing message. */
  datatype Route = HandleRequest | HandleResponse | Approve(genPfxInfo: GenesisPfxInfo) | ReceiveAck(ack: Ack) | Backlog

  /** The structural match on (content, source authority, destination
      authority) of `dispatch_routing_message`. */
  function Classify(msg: RoutingMessage, joiningPrefix: Prefix, matches: (Prefix, XorName) -> bool): (r: Route)
    ensures r == HandleRequest <==>
      msg.content.ConnectionInfoRequest? && msg.src.ManagedNode? && msg.dst.ManagedNode?
      && matches(joiningPrefix, msg.src.name)
    ensures r == HandleResponse <==>
      msg.content.ConnectionInfoResponse? && msg.src.ManagedNode? && msg.dst.Client?
    ensures r.Approve? <==> IsApproval(msg)
    ensures r.Approve? ==> r.genPfxInfo == msg.content.genPfxInfo
    ensures r.ReceiveAck? <==> msg.content.Ack?
    ensures r.ReceiveAck? ==> r.ack == msg.content.ack
  {
    match msg.content
    case ConnectionInfoRequest(_, _, _) =>
      if msg.src.ManagedNode? && msg.dst.ManagedNode? && matches(joiningPrefix, msg.src.name)
      then HandleRequest else Backlog
    case ConnectionInfoResponse(_, _, _) =>
      if msg.src.ManagedNode? && msg.dst.Client? then HandleResponse else Backlog
    case NodeApproval(gen) =>
      if msg.src.PrefixSection? && msg.dst.Client? then Approve(gen) else Backlog
    case Ack(ack, _) => ReceiveAck(ack)
    case OtherContent(_) => Backlog
  }

  /** The messages of `h` that dispatch puts in the backlog, in order. */
  function Deferred(h: seq<RoutingMessage>, joiningPrefix: Prefix, matches: (Prefix, XorName) -> bool): seq<RoutingMessage>
  {
    if h == [] then []
    else
      Deferred(h[..|h| - 1], joiningPrefix, matches)
      + (if Classify(h[|h| - 1], joiningPrefix, matches) == Backlog then [h[|h| - 1]] else [])
  }

  /** Dispatching one more message extends the backlog by that message
      exactly when it is deferred. */
  lemma DeferredSnoc(h: seq<RoutingMessage>, m: RoutingMessage, joiningPrefix: Prefix, matches: (Prefix, XorName) -> bool)
    ensures Deferred(h + [m], joiningPrefix, matches)
         == Deferred(h, joiningPrefix, matches) + (if Classify(m, joiningPrefix, matches) == Backlog then [m] else [])
  {
    assert (h + [m])[..|h + [m]| - 1] == h;
  }

  /** Every backlogged message of the history sits in the backlog, right
      after the backlogged messages that came before it: none is lost. */
  lemma {:induction false} DeferredKeepsEach(
    h: seq<RoutingMessage>, i: nat, joiningPrefix: Prefix, matches: (Prefix, XorName) -> bool)
    requires i < |h| && Classify(h[i], joiningPrefix, matches) == Backlog
    ensures |Deferred(h[..i], joiningPrefix, matches)| < |Deferred(h, joiningPrefix, matches)|
    ensures Deferred(h, joiningPrefix, matches)[|Deferred(h[..i], joiningPrefix, matches)|] == h[i]
    decreases |h|
  {
    var init := h[..|h| - 1];
    if i == |h| - 1 {
      assert h[..i] == init;
    } else {
      assert init[..i] == h[..i];
      DeferredKeepsEach(init, i, joiningPrefix, matches);
    }
  }

  /** The backlog of a prefix of the history is a prefix of the backlog. */
  lemma {:induction false} DeferredGrowsByAppending(
    h: seq<RoutingMessage>, i: nat, j: nat, joiningPrefix: Prefix, matches: (Prefix, XorName) -> bool)
    requires i <= j <= |h|
    ensures |Deferred(h[..i], joiningPrefix, matches)| <= |Deferred(h[..j], joiningPrefix, matches)|
    ensures Deferred(h[..j], joiningPrefix, matches)[..|Deferred(h[..i], joiningPrefix, matches)|]
         == Deferred(h[..i], joiningPrefix, matches)
    decreases j - i
  {
    if i < j {
      DeferredGrowsByAppending(h, i, j - 1, joiningPrefix, matches);
      assert h[..j][..j - 1] == h[..j - 1];
    }
  }

  /** Backlogged messages keep their arrival order: an earlier one sits at
      an earlier position of the backlog. */
  lemma DeferredPreservesOrder(
    h: seq<RoutingMessage>, i: nat, j: nat, joiningPrefix: Prefix, matches: (Prefix, XorName) -> bool)
    requires i < j < |h|
    requires Classify(h[i], joiningPrefix, matches) == Backlog
    requires Classify(h[j], joiningPrefix, matches) == Backlog
    ensures |Deferred(h[..i], joiningPrefix, matches)| < |Deferred(h[..j], joiningPrefix, matches)|
  {
    assert h[..i + 1][..i] == h[..i];
    DeferredGrowsByAppending(h, i + 1, j, joiningPrefix, matches);
  }

  /** Only backlogged messages of the history reach the backlog. */
  lemma {:induction false} DeferredOnlyBacklogged(
    h: seq<RoutingMessage>, joiningPrefix: Prefix, matches: (Prefix, XorName) -> bool)
    ensures forall k :: 0 <= k < |Deferred(h, joiningPrefix, matches)| ==>
      Deferred(h, joiningPrefix, matches)[k] in h
      && Classify(Deferred(h, joiningPrefix, matches)[k], joiningPrefix, matches) == Backlog
    decreases |h|
  {
    if h != [] {
      var init := h[..|h| - 1];
      DeferredOnlyBacklogged(init, joiningPrefix, matches);
      forall m | m in init ensures m in h {
        var k :| 0 <= k < |init| && init[k] == m;
        assert h[k] == m;
      }
    }
  }

  /** The result of `dispatch_routing_message`: the approval message turns
      into `IntoNode`, a failing connection-info handler's error is passed
      on, and everything else stays. */
  function DispatchResult(
    msg: RoutingMessage, handled: Result<Unit, RoutingError>,
    joiningPrefix: Prefix, matches: (Prefix, XorName) -> bool): Result<Transition, RoutingError>
  {
    match Classify(msg, joiningPrefix, matches)
    case Approve(gen) => Ok(Transition.IntoNode(gen))
    case HandleRequest => if handled.Err? then Err(handled.error) else Ok(Stay)
    case HandleResponse => if handled.Err? then Err(handled.error) else Ok(Stay)
    case _ => Ok(Stay)
  }

  /** The result of `handle_new_message` for a message from a peer whose
      recorded state is `sender`. */
  function NewMessageResult(
    sender: Option<PeerState>, peer: PublicId, message: Result<Message, RoutingError>, replies: Replies,
    joiningPrefix: Prefix, matches: (Prefix, XorName) -> bool): Result<Transition, RoutingError>
  {
    match message
    case Err(e) => Err(e)
    case Ok(Direct(_)) =>
      if ConnectedOrProxy(sender) then Ok(Stay) else Err(InvalidStateForOperation)
    case Ok(Hop(h)) =>
      if !ConnectedOrProxy(sender) then Err(UnknownConnection(peer))
      else
        match replies.filterPasses
        case Err(e) => Err(e)
        case Ok(false) => Ok(Stay)
        case Ok(true) => DispatchResult(h.content, replies.connectionInfoHandled, joiningPrefix, matches)
  }

  /** The transition `handle_crust_event` returns, from the peer table it
      started with: losing the proxy terminates, a new message passes its
      transition on with every error turned into `Stay`, the rest stays. */
  function CrustTransition(
    event: CrustEvent, peers: map<PublicId, PeerState>, replies: Replies,
    joiningPrefix: Prefix, matches: (Prefix, XorName) -> bool): Transition
  {
    match event
    case LostPeer(p) => if StateIn(peers, p) == Some(Proxy) then Transition.Terminate else Stay
    case NewMessage(p, m) =>
      (match NewMessageResult(StateIn(peers, p), p, m, replies, joiningPrefix, matches)
       case Ok(t) => t
       case Err(_) => Stay)
    case _ => Stay
  }

  /** The transition `handle_action` returns: only `Action::Terminate` and a
      timeout the resource prover answers with `Terminate` end the machine. */
  function ActionTransition(action: Action, replies: Replies): Transition
  {
    match action
    case HandleTimeout(_) =>
      if replies.timeoutClaim == Some(Transition.Terminate) then Transition.Terminate else Stay
    case Terminate => Transition.Terminate
    case _ => Stay
  }

  /** The only routing message that can yield `IntoNode` is the approval
      from a section to a client, and it always does. */
  lemma DispatchIntoNodeIffApproval(
    msg: RoutingMessage, handled: Result<Unit, RoutingError>,
    joiningPrefix: Prefix, matches: (Prefix, XorName) -> bool)
    ensures DispatchResult(msg, handled, joiningPrefix, matches).Ok?
         && DispatchResult(msg, handled, joiningPrefix, matches).value.IntoNode?
        <==> IsApproval(msg)
    ensures IsApproval(msg) ==>
      DispatchResult(msg, handled, joiningPrefix, matches) == Ok(IntoNode(msg.content.genPfxInfo))
    ensures !IsApproval(msg) && DispatchResult(msg, handled, joiningPrefix, matches).Ok? ==>
      DispatchResult(msg, handled, joiningPrefix, matches).value == Stay
  {
  }

  /** A transport event terminates the machine exactly when it reports the
      loss of the proxy. */
  lemma TerminatesExactlyOnProxyLoss(
    event: CrustEvent, peers: map<PublicId, PeerState>, replies: Replies,
    joiningPrefix: Prefix, matches: (Prefix, XorName) -> bool)
    ensures CrustTransition(event, peers, replies, joiningPrefix, matches) == Transition.Terminate
        <==> event.LostPeer? && StateIn(peers, event.peer) == Some(Proxy)
  {
    if event.NewMessage? && event.message.Ok? && event.message.value.Hop? {
      DispatchIntoNodeIffApproval(event.message.value.hop.content, replies.connectionInfoHandled, joiningPrefix, matches);
    }
  }

  /** A transport event moves the machine into the member state exactly
      when a connected peer or the proxy hops in a fresh approval message. */
  lemma IntoNodeExactlyOnApproval(
    event: CrustEvent, peers: map<PublicId, PeerState>, replies: Replies,
    joiningPrefix: Prefix, matches: (Prefix, XorName) -> bool)
    ensures CrustTransition(event, peers, replies, joiningPrefix, matches).IntoNode?
        <==> event.NewMessage? && ConnectedOrProxy(StateIn(peers, event.peer))
             && event.message.Ok? && event.message.value.Hop?
             && replies.filterPasses == Ok(true)
             && IsApproval(event.message.value.hop.content)
  {
    if event.NewMessage? && event.message.Ok? && event.message.value.Hop? {
      DispatchIntoNodeIffApproval(event.message.value.hop.content, replies.connectionInfoHandled, joiningPrefix, matches);
    }
  }

  /** A message from a peer that is neither connected nor the proxy never
      causes a transition. */
  lemma UnauthorisedSenderStays(
    p: PublicId, m: Result<Message, RoutingError>, peers: map<PublicId, PeerState>, replies: Replies,
    joiningPrefix: Prefix, matches: (Prefix, XorName) -> bool)
    requires !ConnectedOrProxy(StateIn(peers, p))
    ensures CrustTransition(NewMessage(p, m), peers, replies, joiningPrefix, matches) == Stay
    ensures m.Ok? && m.value.Direct? ==>
      NewMessageResult(StateIn(peers, p), p, m, replies, joiningPrefix, matches) == Err(InvalidStateForOperation)
    ensures m.Ok? && m.value.Hop? ==>
      NewMessageResult(StateIn(peers, p), p, m, replies, joiningPrefix, matches) == Err(UnknownConnection(p))
  {
  }

  /** An action never moves the machine into the member state, and ends it
      exactly on `Terminate` or a timeout the prover claims with it. */
  lemma ActionNeverApproves(action: Action, replies: Replies)
    ensures !ActionTransition(action, replies).IntoNode?
    ensures ActionTransition(action, replies) == Transition.Terminate <==>
      action.Terminate? || (action.HandleTimeout? && replies.timeoutClaim == Some(Transition.Terminate))
  {
  }

  /** A connection-info request the machine sends to `member` on start. */
  function StartRequest(
    ourId: PublicId, proxyPubId: PublicId, member: PublicId,
    send: (PublicId, Authority, Authority) -> Result<Unit, RoutingError>): Effect
  {
    var src := Authority.Client(ourId, proxyPubId.name);
    var dst := ManagedNode(member.name);
    ConnectionInfoRequestSent(member, src, dst, send(member, src, dst))
  }

  class ProvingNode {
    /** The identity the node had in the section it left. */
    const oldFullId: FullId
    const fullId: FullId
    const minSectionSize: nat
    const disableResourceProof: bool
    const joiningPrefix: Prefix
    /** `Prefix::matches`. */
    const matches: (Prefix, XorName) -> bool
    /** The codec applied to the pair (old public id, new public id). */
    const serialiseIds: (PublicId, PublicId) -> Option<seq<bv8>>
    /** `sign_detached` with an identity's private signing key. */
    const signDetached: (FullId, seq<bv8>) -> Signature

    var peers: map<PublicId, PeerState>
    /** Routing messages waiting to be handled, oldest first. */
    var msgQueue: seq<RoutingMessage>
    /** Routing messages held back until the section approves us. */
    var msgBacklog: seq<RoutingMessage>
    var notifiedNodes: set<PublicId>
    /** The acknowledgements handed to the ack manager, in order. */
    var receivedAcks: seq<Ack>
    var resourceProver: ResourceProver
    var effects: seq<Effect>
    var events: seq<Event>
    /** Every routing message dispatched so far, in arrival order. */
    ghost var dispatched: seq<RoutingMessage>

    ghost predicate Valid()
      reads this
    {
      && msgBacklog == Deferred(dispatched, joiningPrefix, matches)
      && NamesIdentifyPeers(peers)
    }

    function PeerStateOf(id: PublicId): Option<PeerState>
      reads this`peers
    {
      StateIn(peers, id)
    }

    /** `PeerManager::is_proxy`. */
    predicate IsProxy(id: PublicId)
      reads this`peers
    {
      PeerStateOf(id) == Some(Proxy)
    }

    ghost predicate HasProxyNamed(name: XorName)
      reads this`peers
    {
      exists id :: id in peers && peers[id] == Proxy && id.name == name
    }

    ghost predicate HasProxy()
      reads this`peers
    {
      exists id :: id in peers && peers[id] == Proxy
    }

    /** `from_bootstrapping` followed by `start`. */
    constructor FromBootstrapping(
      sectionPrefix: Prefix, sectionMembers: set<PublicId>,
      oldFullId: FullId, newFullId: FullId, minSectionSize: nat, proxyPubId: PublicId,
      disableResourceProof: bool,
      matches: (Prefix, XorName) -> bool,
      serialiseIds: (PublicId, PublicId) -> Option<seq<bv8>>,
      signDetached: (FullId, seq<bv8>) -> Signature,
      sendConnectionInfoRequest: (PublicId, Authority, Authority) -> Result<Unit, RoutingError>)
      ensures Valid()
      ensures this.oldFullId == oldFullId && fullId == newFullId && this.minSectionSize == minSectionSize
      ensures this.disableResourceProof == disableResourceProof && joiningPrefix == sectionPrefix
      ensures this.matches == matches && this.serialiseIds == serialiseIds && this.signDetached == signDetached
      ensures peers == map[proxyPubId := Proxy]
      ensures resourceProver == ResourceProver(|sectionMembers|, true, disableResourceProof, [], [], [], [], false)
      ensures msgQueue == [] && msgBacklog == [] && dispatched == []
      ensures notifiedNodes == {} && receivedAcks == [] && events == []
      ensures |effects| == |sectionMembers|
      ensures forall k :: 0 <= k < |effects| ==>
        effects[k].ConnectionInfoRequestSent? && effects[k].to in sectionMembers
        && effects[k] == StartRequest(newFullId.publicId, proxyPubId, effects[k].to, sendConnectionInfoRequest)
      ensures forall id :: id in sectionMembers ==>
        StartRequest(newFullId.publicId, proxyPubId, id, sendConnectionInfoRequest) in effects
    {
      this.oldFullId := oldFullId;
      fullId := newFullId;
      this.minSectionSize := minSectionSize;
      this.disableResourceProof := disableResourceProof;
      joiningPrefix := sectionPrefix;
      this.matches := matches;
      this.serialiseIds := serialiseIds;
      this.signDetached := signDetached;
      peers := map[proxyPubId := Proxy];
      resourceProver := ResourceProver(|sectionMembers|, false, false, [], [], [], [], false);
      msgQueue := [];
      msgBacklog := [];
      dispatched := [];
      notifiedNodes := {};
      receivedAcks := [];
      effects := [];
      events := [];
      new;
      Start(sectionMembers, proxyPubId, sendConnectionInfoRequest);
    }

    /** `start`: starts the resource prover, then sends a connection-info
        request to every member of the section, whatever the outcome of the
        others. */
    method Start(
      ourSection: set<PublicId>, proxyPubId: PublicId,
      send: (PublicId, Authority, Authority) -> Result<Unit, RoutingError>)
      modifies this`resourceProver, this`effects
      ensures resourceProver == old(resourceProver).(started := true, disabled := disableResourceProof)
      ensures |effects| == |old(effects)| + |ourSection|
      ensures effects[..|old(effects)|] == old(effects)
      ensures forall k :: |old(effects)| <= k < |effects| ==>
        effects[k].ConnectionInfoRequestSent? && effects[k].to in ourSection
        && effects[k] == StartRequest(fullId.publicId, proxyPubId, effects[k].to, send)
      ensures forall id :: id in ourSection ==>
        StartRequest(fullId.publicId, proxyPubId, id, send) in effects[|old(effects)|..]
    {
      resourceProver := resourceProver.(started := true, disabled := disableResourceProof);
      var remaining := ourSection;
      ghost var done: set<PublicId> := {};
      while remaining != {}
        invariant remaining <= ourSection && done == ourSection - remaining
        invariant resourceProver == old(resourceProver).(started := true, disabled := disableResourceProof)
        invariant |effects| == |old(effects)| + |done|
        invariant effects[..|old(effects)|] == old(effects)
        invariant forall k :: |old(effects)| <= k < |effects| ==>
          effects[k].ConnectionInfoRequestSent? && effects[k].to in done
          && effects[k] == StartRequest(fullId.publicId, proxyPubId, effects[k].to, send)
        invariant forall id :: id in done ==>
          StartRequest(fullId.publicId, proxyPubId, id, send) in effects[|old(effects)|..]
        decreases remaining
      {
        var id :| id in remaining;
        ghost var before := effects;
        effects := effects + [StartRequest(fullId.publicId, proxyPubId, id, send)];
        assert effects[|old(effects)|..] == before[|old(effects)|..] + [effects[|effects| - 1]];
        remaining := remaining - {id};
        done := done + {id};
      }
    }

    /** `handle_action`. */
    method HandleAction(action: Action, replies: Replies) returns (t: Transition)
      requires Valid()
      modifies this`effects, this`resourceProver
      ensures Valid()
      ensures t == ActionTransition(action, replies)
      ensures action.ClientSendRequest? || action.NodeSendMessage? ==>
        effects == old(effects) + [RequestRefused(InvalidState)] && resourceProver == old(resourceProver)
      ensures action.GetId? ==>
        effects == old(effects) + [IdReplied(fullId.publicId)] && resourceProver == old(resourceProver)
      ensures action.HandleTimeout? ==>
        resourceProver == old(resourceProver).(timeouts := old(resourceProver).timeouts + [action.token])
        && effects == old(effects) + (if replies.timeoutClaim.None? then [UnacknowledgedResent(action.token)] else [])
      ensures action.TakeResourceProofResult? ==>
        resourceProver == old(resourceProver).(proofResults := old(resourceProver).proofResults + [action.pubId])
        && effects == old(effects) + [DirectMessageSent(action.pubId, replies.proofReply)]
      ensures action.Terminate? ==> effects == old(effects) && resourceProver == old(resourceProver)
    {
      match action
      case ClientSendRequest =>
        effects := effects + [RequestRefused(InvalidState)];
        t := Stay;
      case NodeSendMessage =>
        effects := effects + [RequestRefused(InvalidState)];
        t := Stay;
      case GetId =>
        effects := effects + [IdReplied(fullId.publicId)];
        t := Stay;
      case HandleTimeout(token) =>
        var r := HandleTimeout(token, replies.timeoutClaim);
        t := if r == Transition.Terminate then Transition.Terminate else Stay;
      case TakeResourceProofResult(pubId, _) =>
        resourceProver := resourceProver.(proofResults := resourceProver.proofResults + [pubId]);
        effects := effects + [DirectMessageSent(pubId, replies.proofReply)];
        t := Stay;
      case Terminate =>
        t := Transition.Terminate;
    }

    /** `handle_timeout`: the resource prover's transition if it claims the
        token, otherwise a resend of unacknowledged messages and `Stay`. */
    method HandleTimeout(token: nat, claim: Option<Transition>) returns (t: Transition)
      modifies this`effects, this`resourceProver
      ensures t == (if claim.Some? then claim.value else Stay)
      ensures resourceProver == old(resourceProver).(timeouts := old(resourceProver).timeouts + [token])
      ensures effects == old(effects) + (if claim.None? then [UnacknowledgedResent(token)] else [])
    {
      resourceProver := resourceProver.(timeouts := resourceProver.timeouts + [token]);
      if claim.Some? {
        t := claim.value;
      } else {
        effects := effects + [UnacknowledgedResent(token)];
        t := Stay;
      }
    }

    /** The peer `p` was removed from the peer table and from the notified
        nodes, and `Terminated` was raised if `raised`; nothing else changed. */
    twostate predicate PeerDropped(p: PublicId, raised: bool)
      reads this
    {
      && peers == old(peers) - {p}
      && notifiedNodes == old(notifiedNodes) - {p}
      && events == old(events) + (if raised then [Terminated] else [])
      && msgQueue == old(msgQueue) && msgBacklog == old(msgBacklog) && dispatched == old(dispatched)
      && receivedAcks == old(receivedAcks) && resourceProver == old(resourceProver) && effects == old(effects)
    }

    /** The authorised direct message `d` from `p` was acted on. */
    twostate predicate DirectHandled(d: DirectMessage, p: PublicId, receiptReply: Option<DirectMessage>)
      reads this
    {
      && peers == old(peers) && notifiedNodes == old(notifiedNodes) && events == old(events)
      && msgQueue == old(msgQueue) && msgBacklog == old(msgBacklog) && dispatched == old(dispatched)
      && receivedAcks == old(receivedAcks)
      && match d
         case ResourceProof(seed, targetSize, difficulty) =>
           && resourceProver == old(resourceProver).(challenges :=
                old(resourceProver).challenges + [Challenge(p, seed, targetSize, difficulty)])
           && effects == old(effects)
         case ResourceProofResponseReceipt =>
           && resourceProver == old(resourceProver).(receipts := old(resourceProver).receipts + [p])
           && effects == old(effects) + (if receiptReply.Some? then [DirectMessageSent(p, receiptReply.value)] else [])
         case _ =>
           resourceProver == old(resourceProver) && effects == old(effects)
    }

    /** The routing message `msg` was dispatched: recorded in the history,
        appended to the backlog if it is deferred, its ack handed to the ack
        manager, the prover told of an approval, the connection-info handlers
        called. */
    twostate predicate Dispatched(msg: RoutingMessage)
      reads this
    {
      var route := Classify(msg, joiningPrefix, matches);
      && dispatched == old(dispatched) + [msg]
      && msgBacklog == old(msgBacklog) + (if route == Backlog then [msg] else [])
      && receivedAcks == old(receivedAcks) + (if route.ReceiveAck? then [route.ack] else [])
      && resourceProver == (if route.Approve? then old(resourceProver).(approved := true) else old(resourceProver))
      && effects == old(effects)
           + (if route == HandleRequest then [ConnectionInfoRequestHandled(msg)]
              else if route == HandleResponse then [ConnectionInfoResponseHandled(msg)]
              else [])
      && peers == old(peers) && notifiedNodes == old(notifiedNodes) && events == old(events)
      && msgQueue == old(msgQueue)
    }

    /** What handling a new message from `p` did to the state. */
    twostate predicate NewMessageHandled(p: PublicId, message: Result<Message, RoutingError>, replies: Replies)
      reads this
    {
      if message.Err? || !ConnectedOrProxy(old(PeerStateOf(p))) then unchanged(this)
      else
        match message.value
        case Direct(d) => DirectHandled(d, p, replies.receiptReply)
        case Hop(h) =>
          if replies.filterPasses == Ok(true) then Dispatched(h.content) else unchanged(this)
    }

    /** `handle_crust_event`. */
    method HandleCrustEvent(event: CrustEvent, replies: Replies) returns (t: Transition)
      requires Valid()
      requires event.ConnectSuccess? ==> NameUnclaimed(event.peer)
      modifies this
      ensures Valid()
      ensures t == CrustTransition(event, old(peers), replies, joiningPrefix, matches)
      ensures event.ConnectFailure? ==> PeerDropped(event.peer, false)
      ensures event.LostPeer? ==> PeerDropped(event.peer, t == Transition.Terminate)
      ensures event.NewMessage? ==> NewMessageHandled(event.peer, event.message, replies)
      ensures event.ConnectSuccess? ==>
        && peers == old(peers)[event.peer := if old(IsProxy(event.peer)) then Proxy else Connected]
        && notifiedNodes == old(notifiedNodes) && events == old(events)
        && msgQueue == old(msgQueue) && msgBacklog == old(msgBacklog) && dispatched == old(dispatched)
        && receivedAcks == old(receivedAcks) && resourceProver == old(resourceProver)
        && CandidateInfoSent(event.peer, old(effects) + [ConnectSuccessRecorded(event.peer)], effects)
      ensures event.ConnectionInfoPrepared? ==>
        && peers == old(peers) && notifiedNodes == old(notifiedNodes) && events == old(events)
        && msgQueue == old(msgQueue) && msgBacklog == old(msgBacklog) && dispatched == old(dispatched)
        && receivedAcks == old(receivedAcks) && resourceProver == old(resourceProver)
        && effects == old(effects) + [ConnectionInfoPreparedHandled(event.resultToken)]
      ensures event.OtherCrustEvent? ==> unchanged(this)
    {
      match event
      case ConnectSuccess(p) =>
        HandleConnectSuccess(p);
        t := Stay;
      case ConnectFailure(p) =>
        HandleConnectFailure(p);
        t := Stay;
      case LostPeer(p) =>
        t := HandleLostPeer(p);
      case ConnectionInfoPrepared(token) =>
        effects := effects + [ConnectionInfoPreparedHandled(token)];
        t := Stay;
      case NewMessage(p, m) =>
        var r := HandleNewMessage(p, m, replies);
        t := if r.Ok? then r.value else Stay;
      case OtherCrustEvent(_) =>
        t := Stay;
    }

    /** No peer other than `p` goes by `p`'s name. Names are hashes of
        keys, so a second peer with the same name does not arise. */
    ghost predicate NameUnclaimed(p: PublicId)
      reads this`peers
    {
      forall q :: q in peers && q.name == p.name ==> q == p
    }

    /** `handle_connect_success` (shared code not part of this model): the
        peer manager records the peer as `Connected` (the proxy stays
        `Proxy`), then `process_connection` runs with the updated table. */
    method HandleConnectSuccess(p: PublicId)
      requires Valid() && NameUnclaimed(p)
      modifies this`peers, this`effects
      ensures Valid()
      ensures peers == old(peers)[p := if old(IsProxy(p)) then Proxy else Connected]
      ensures CandidateInfoSent(p, old(effects) + [ConnectSuccessRecorded(p)], effects)
    {
      effects := effects + [ConnectSuccessRecorded(p)];
      peers := peers[p := if IsProxy(p) then Proxy else Connected];
      ProcessConnection(p);
    }

    /** `into_node`: hands the queue followed by the backlog, and the rest of
        the state, to the member state. */
    method IntoNode(genPfxInfo: GenesisPfxInfo) returns (node: NodeHandoff)
      requires Valid()
      ensures node.msgQueue == msgQueue + Deferred(dispatched, joiningPrefix, matches)
      ensures node == NodeHandoff(receivedAcks, fullId, genPfxInfo, minSectionSize,
                                  msgQueue + msgBacklog, notifiedNodes, peers)
    {
      node := NodeHandoff(receivedAcks, fullId, genPfxInfo, minSectionSize,
                          msgQueue + msgBacklog, notifiedNodes, peers);
    }

    /** `handle_new_message`. */
    method HandleNewMessage(p: PublicId, message: Result<Message, RoutingError>, replies: Replies)
      returns (r: Result<Transition, RoutingError>)
      requires Valid()
      modifies this`msgBacklog, this`dispatched, this`receivedAcks, this`resourceProver, this`effects
      ensures Valid()
      ensures r == NewMessageResult(old(PeerStateOf(p)), p, message, replies, joiningPrefix, matches)
      ensures NewMessageHandled(p, message, replies)
    {
      match message
      case Err(e) =>
        r := Err(e);
      case Ok(Direct(d)) =>
        var res := HandleDirectMessage(d, p, replies.receiptReply);
        if res.Err? {
          r := Err(res.error);
        } else {
          r := Ok(Stay);
        }
      case Ok(Hop(h)) =>
        r := HandleHopMessage(h, p, replies);
    }

    /** `handle_direct_message`: the sender check runs first; a rejected
        message changes nothing. */
    method HandleDirectMessage(d: DirectMessage, p: PublicId, receiptReply: Option<DirectMessage>)
      returns (r: Result<Unit, RoutingError>)
      modifies this`resourceProver, this`effects
      ensures r == CheckDirectMessageSender(d, p)
      ensures r.Err? ==> unchanged(this)
      ensures r.Ok? ==> DirectHandled(d, p, receiptReply)
    {
      r := CheckDirectMessageSender(d, p);
      if r.Err? {
        return;
      }
      match d
      case ResourceProof(seed, targetSize, difficulty) =>
        resourceProver := resourceProver.(challenges :=
          resourceProver.challenges + [Challenge(p, seed, targetSize, difficulty)]);
      case ResourceProofResponseReceipt =>
        resourceProver := resourceProver.(receipts := resourceProver.receipts + [p]);
        if receiptReply.Some? {
          effects := effects + [DirectMessageSent(p, receiptReply.value)];
        }
      case _ =>
    }

    /** `check_direct_message_sender`: only a connected peer or the proxy may
        send direct messages; anyone else is refused. */
    function CheckDirectMessageSender(d: DirectMessage, p: PublicId): (r: Result<Unit, RoutingError>)
      reads this`peers
      ensures r.Ok? <==> p in peers && (peers[p] == Connected || peers[p] == Proxy)
      ensures r.Err? ==> r.error == InvalidStateForOperation
    {
      match PeerStateOf(p)
      case Some(Connected) => Ok(Unit)
      case Some(Proxy) => Ok(Unit)
      case _ => Err(InvalidStateForOperation)
    }

    /** `handle_hop_message`: refuses hops from unknown or unconnected peers,
        stays on a message the filter does not pass on, and dispatches the
        rest. */
    method HandleHopMessage(h: HopMessage, p: PublicId, replies: Replies)
      returns (r: Result<Transition, RoutingError>)
      requires Valid()
      modifies this`msgBacklog, this`dispatched, this`receivedAcks, this`resourceProver, this`effects
      ensures Valid()
      ensures !ConnectedOrProxy(old(PeerStateOf(p))) ==> r == Err(UnknownConnection(p)) && unchanged(this)
      ensures ConnectedOrProxy(old(PeerStateOf(p))) ==>
        match replies.filterPasses
        case Err(e) => r == Err(e) && unchanged(this)
        case Ok(false) => r == Ok(Stay) && unchanged(this)
        case Ok(true) =>
          r == DispatchResult(h.content, replies.connectionInfoHandled, joiningPrefix, matches) && Dispatched(h.content)
    {
      if !ConnectedOrProxy(PeerStateOf(p)) {
        return Err(UnknownConnection(p));
      }
      match replies.filterPasses
      case Err(e) =>
        r := Err(e);
      case Ok(false) =>
        r := Ok(Stay);
      case Ok(true) =>
        r := DispatchRoutingMessage(h.content, replies.connectionInfoHandled);
    }

    /** `dispatch_routing_message`. */
    method DispatchRoutingMessage(msg: RoutingMessage, handled: Result<Unit, RoutingError>)
      returns (r: Result<Transition, RoutingError>)
      requires Valid()
      modifies this`msgBacklog, this`dispatched, this`receivedAcks, this`resourceProver, this`effects
      ensures Valid()
      ensures r == DispatchResult(msg, handled, joiningPrefix, matches)
      ensures Dispatched(msg)
    {
      var route := Classify(msg, joiningPrefix, matches);
      DeferredSnoc(dispatched, msg, joiningPrefix, matches);
      dispatched := dispatched + [msg];
      match route
      case HandleRequest =>
        effects := effects + [ConnectionInfoRequestHandled(msg)];
        r := if handled.Err? then Err(handled.error) else Ok(Stay);
      case HandleResponse =>
        effects := effects + [ConnectionInfoResponseHandled(msg)];
        r := if handled.Err? then Err(handled.error) else Ok(Stay);
      case Approve(gen) =>
        var t := HandleNodeApproval(gen);
        r := Ok(t);
      case ReceiveAck(ack) =>
        HandleAckResponse(ack);
        r := Ok(Stay);
      case Backlog =>
        AddMessageToBacklog(msg);
        r := Ok(Stay);
    }

    /** `add_message_to_backlog`: appends at the end. */
    method AddMessageToBacklog(msg: RoutingMessage)
      modifies this`msgBacklog
      ensures msgBacklog == old(msgBacklog) + [msg]
    {
      msgBacklog := msgBacklog + [msg];
    }

    /** `handle_node_approval`: tells the resource prover and moves into the
        member state, unconditionally. */
    method HandleNodeApproval(genPfxInfo: GenesisPfxInfo) returns (t: Transition)
      modifies this`resourceProver
      ensures resourceProver == old(resourceProver).(approved := true)
      ensures t == Transition.IntoNode(genPfxInfo)
    {
      resourceProver := resourceProver.(approved := true);
      t := Transition.IntoNode(genPfxInfo);
    }

    /** `handle_ack_response`: hands the ack to the ack manager. */
    method HandleAckResponse(ack: Ack)
      modifies this`receivedAcks
      ensures receivedAcks == old(receivedAcks) + [ack]
    {
      receivedAcks := receivedAcks + [ack];
    }

    /** `dropped_peer`: forgets the peer; answers false exactly when it was
        the proxy. */
    method DroppedPeer(p: PublicId) returns (keepGoing: bool)
      requires Valid()
      modifies this`peers, this`notifiedNodes
      ensures Valid()
      ensures keepGoing <==> old(PeerStateOf(p)) != Some(Proxy)
      ensures peers == old(peers) - {p}
      ensures notifiedNodes == old(notifiedNodes) - {p}
    {
      var wasProxy := IsProxy(p);
      peers := peers - {p};
      notifiedNodes := notifiedNodes - {p};
      keepGoing := !wasProxy;
    }

    /** `in_authority`: we are the client the authority names. */
    function InAuthority(auth: Authority): (r: bool)
      ensures r <==> auth.Client? && auth.clientId == fullId.publicId
    {
      match auth
      case Client(clientId, _) => clientId == fullId.publicId
      case _ => false
    }

    /** `handle_lost_peer`: losing the proxy raises `Terminated` and
        terminates; losing any other peer stays. */
    method HandleLostPeer(p: PublicId) returns (t: Transition)
      requires Valid()
      modifies this`peers, this`notifiedNodes, this`events
      ensures Valid()
      ensures t == (if old(PeerStateOf(p)) == Some(Proxy) then Transition.Terminate else Stay)
      ensures PeerDropped(p, t == Transition.Terminate)
    {
      var keepGoing := DroppedPeer(p);
      if keepGoing {
        t := Stay;
      } else {
        events := events + [Terminated];
        t := Transition.Terminate;
      }
    }

    /** `handle_connect_failure`: drops the peer, whatever it was, and never
        terminates. */
    method HandleConnectFailure(p: PublicId)
      requires Valid()
      modifies this`peers, this`notifiedNodes
      ensures Valid()
      ensures PeerDropped(p, false)
    {
      var _ := DroppedPeer(p);
    }

    /** The `CandidateInfo` message for a proxy called `proxyName`: the old
        key signs the serialised pair of public ids, the new key signs those
        bytes followed by the old signature; none if serialising fails. */
    function CandidateInfoMessage(proxyName: XorName): (r: Option<DirectMessage>)
      ensures r.None? <==> serialiseIds(oldFullId.publicId, fullId.publicId).None?
      ensures r.Some? ==>
        var toSign := serialiseIds(oldFullId.publicId, fullId.publicId).value;
        && r.value.CandidateInfo?
        && r.value.oldPublicId == oldFullId.publicId
        && r.value.newPublicId == fullId.publicId
        && r.value.signatureUsingOld == signDetached(oldFullId, toSign)
        && r.value.signatureUsingNew == signDetached(fullId, toSign + r.value.signatureUsingOld.bytes)
        && r.value.newClientAuth == Authority.Client(fullId.publicId, proxyName)
    {
      match serialiseIds(oldFullId.publicId, fullId.publicId)
      case None => None
      case Some(toSign) =>
        var signatureUsingOld := signDetached(oldFullId, toSign);
        var signatureUsingNew := signDetached(fullId, toSign + signatureUsingOld.bytes);
        Some(CandidateInfo(oldFullId.publicId, fullId.publicId, signatureUsingOld, signatureUsingNew,
                           Authority.Client(fullId.publicId, proxyName)))
    }

    /** `PeerManager::get_proxy_name`: the name of some peer in state `Proxy`. */
    method GetProxyName() returns (r: Option<XorName>)
      ensures r.None? <==> !HasProxy()
      ensures r.Some? ==> HasProxyNamed(r.value)
    {
      if exists id :: id in peers && peers[id] == Proxy {
        var id :| id in peers && peers[id] == Proxy;
        r := Some(id.name);
      } else {
        r := None;
      }
    }

    /** `after` is `before`, followed by the `CandidateInfo` for some proxy
        of the table sent to `p`, unless serialising fails or there is no
        proxy. */
    ghost predicate CandidateInfoSent(p: PublicId, before: seq<Effect>, after: seq<Effect>)
      reads this`peers
    {
      if serialiseIds(oldFullId.publicId, fullId.publicId).None? || !HasProxy() then after == before
      else exists name :: HasProxyNamed(name) && CandidateInfoMessage(name).Some?
                          && after == before + [DirectMessageSent(p, CandidateInfoMessage(name).value)]
    }

    /** `process_connection`: sends `CandidateInfo` to the newly connected
        peer; sends nothing when serialising fails or no proxy is known. */
    method ProcessConnection(p: PublicId)
      modifies this`effects
      ensures CandidateInfoSent(p, old(effects), effects)
      ensures effects == old(effects) <==>
        serialiseIds(oldFullId.publicId, fullId.publicId).None? || !HasProxy()
      ensures effects != old(effects) ==>
        && |effects| == |old(effects)| + 1
        && effects[..|old(effects)|] == old(effects)
        && var sent := effects[|old(effects)|];
           && sent.DirectMessageSent? && sent.to == p
           && sent.msg.CandidateInfo? && sent.msg.newClientAuth.Client?
           && HasProxyNamed(sent.msg.newClientAuth.proxyNodeName)
           && CandidateInfoMessage(sent.msg.newClientAuth.proxyNodeName) == Some(sent.msg)
    {
      if serialiseIds(oldFullId.publicId, fullId.publicId).None? {
        return;
      }
      var proxyName := GetProxyName();
      if proxyName.None? {
        return;
      }
      var msg := CandidateInfoMessage(proxyName.value).value;
      effects := effects + [DirectMessageSent(p, msg)];
      assert |effects| == |old(effects)| + 1;
    }

    /** `add_to_notified_nodes`: answers whether the node was new. */
    method AddToNotifiedNodes(p: PublicId) returns (inserted: bool)
      modifies this`notifiedNodes
      ensures inserted <==> p !in old(notifiedNodes)
      ensures notifiedNodes == old(notifiedNodes) + {p}
    {
      inserted := p !in notifiedNodes;
      notifiedNodes := notifiedNodes + {p};
    }

    /** `get_proxy_public_id`: the peer called `proxyName`, if it is
        connected; `ProxyConnectionNotFound` otherwise. */
    method GetProxyPublicId(proxyName: XorName) returns (r: Result<PublicId, RoutingError>)
      requires Valid()
      ensures r.Ok? <==> exists id :: id in peers && id.name == proxyName && IsConnectedState(peers[id])
      ensures r.Ok? ==> r.value in peers && r.value.name == proxyName && IsConnectedState(peers[r.value])
      ensures r.Err? ==> r.error == ProxyConnectionNotFound
    {
      if exists id :: id in peers && id.name == proxyName {
        var id :| id in peers && id.name == proxyName;
        if IsConnectedState(peers[id]) {
          r := Ok(id);
        } else {
          r := Err(ProxyConnectionNotFound);
        }
      } else {
        r := Err(ProxyConnectionNotFound);
      }
    }
  }

  /** A peer whose connection succeeds can challenge the node: its
      resource-proof request then reaches the resource prover, whatever the
      peer's earlier state and whatever the collaborators answer. */
  method ConnectThenChallenge(
    node: ProvingNode, p: PublicId, seed: seq<bv8>, targetSize: nat, difficulty: nat, r1: Replies, r2: Replies)
    returns (t1: Transition, t2: Transition)
    requires node.Valid() && node.NameUnclaimed(p)
    modifies node
    ensures node.Valid()
    ensures t1 == Stay && t2 == Stay
    ensures node.resourceProver.challenges
         == old(node.resourceProver.challenges) + [Challenge(p, seed, targetSize, difficulty)]
  {
    t1 := node.HandleCrustEvent(ConnectSuccess(p), r1);
    t2 := node.HandleCrustEvent(NewMessage(p, Ok(Direct(ResourceProof(seed, targetSize, difficulty)))), r2);
  }
}
