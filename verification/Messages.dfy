/** The records that travel between the network, the execution, the echo gadget and the protocol. */
module Messages {
  import opened Basics

  datatype MessageType = Coordination | Computation

  datatype MessageContext = MessageContext(
    messageType: MessageType, protocolId: nat, sessionId: Bytes, messageId: nat)

  /** A request taken from the network; `peerIndex` is filled in by the receiver proxy. */
  datatype IncomingRequest = IncomingRequest(
    context: MessageContext, peerId: Bytes, isBroadcast: bool, peerIndex: nat, payload: Bytes)

  /** What the protocol receives; `to` is absent for a broadcast. */
  datatype ProtocolMessage = ProtocolMessage(from: nat, to: Option<nat>, payload: Bytes)

  /** What the protocol sends; `to` is absent for a broadcast. */
  datatype ProtocolOutput = ProtocolOutput(to: Option<nat>, body: Bytes)

  /** One broadcast as the echo gadget sees it: received from a remote, or sent by this party. */
  datatype EchoMessage = EchoMessage(id: nat, sender: nat, payload: Bytes, outgoing: bool)
}
