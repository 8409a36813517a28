/**
  The messages, actions, transport events, peer states and transitions the
  admission state machine reacts to or produces (`messages`, `action`,
  `crust`, `peer_manager`, `state_machine`, `event`). They are defined outside
  the modelled files; only the variants these files match on are kept, and the
  rest of each enum is folded into one `Other…` variant.
*/
module Messages {
  import opened Wrappers
  import opened Routing

  /** The hash identifying a routing message that awaits acknowledgement. */
  type Ack = nat

  /** Point-to-point messages between connected peers. */
  datatype DirectMessage =
    | CandidateInfo(
        oldPublicId: PublicId,
        newPublicId: PublicId,
        signatureUsingOld: Signature,
        signatureUsingNew: Signature,
        newClientAuth: Authority)
    | ResourceProof(seed: seq<bv8>, targetSize: nat, difficulty: nat)
    | ResourceProofResponseReceipt
    | OtherDirect(kind: nat)

  /** The content of a routing message. */
  datatype MessageContent =
    | ConnectionInfoRequest(encryptedConnInfo: seq<bv8>, pubId: PublicId, msgId: nat)
    | ConnectionInfoResponse(encryptedConnInfo: seq<bv8>, pubId: PublicId, msgId: nat)
    | NodeApproval(genPfxInfo: GenesisPfxInfo)
    | Ack(ack: Ack, route: nat)
    | OtherContent(kind: nat)

  /** A message addressed from one authority to another. */
  datatype RoutingMessage = RoutingMessage(src: Authority, dst: Authority, content: MessageContent)

  /** A routing message on its way, one hop at a time. */
  datatype HopMessage = HopMessage(content: RoutingMessage, route: nat)

  /** What the codec makes of the bytes a peer sent. */
  datatype Message = Direct(direct: DirectMessage) | Hop(hop: HopMessage)

  /** Requests from the user of the library and from internal workers. */
  datatype Action =
    | ClientSendRequest
    | NodeSendMessage
    | GetId
    | HandleTimeout(token: nat)
    | TakeResourceProofResult(pubId: PublicId, messages: seq<DirectMessage>)
    | Terminate

  /** Notifications from the transport. `NewMessage` carries what decoding
      the received bytes gave (the codec is not modelled). */
  datatype CrustEvent =
    | ConnectSuccess(peer: PublicId)
    | ConnectFailure(peer: PublicId)
    | LostPeer(peer: PublicId)
    | ConnectionInfoPrepared(resultToken: nat)
    | NewMessage(peer: PublicId, message: Result<Message, RoutingError>)
    | OtherCrustEvent(kind: nat)

  /** The connection state the peer manager records for a peer. */
  datatype PeerState =
    | ConnectionInfoPreparing
    | ConnectionInfoReady
    | CrustConnecting
    | Connected
    | JoiningNode
    | Proxy
    | Client
    | Candidate

  /** Events raised to the user of the library. */
  datatype Event = Terminated | OtherEvent(kind: nat)

  /** What the state machine does after handling one input. */
  datatype Transition = Stay | Terminate | IntoNode(genPfxInfo: GenesisPfxInfo)
}
