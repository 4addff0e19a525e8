/**
  The part of MultipeerConnectivity the core talks to, reduced to state.

  A peer is known by its display name and its hash (`MCPeerID.hashValue`).
  A session (`MCSession`) has a fixed local peer, a set of connected peers
  maintained by the framework, and here a log of the send requests made to
  it, which stands for the bytes leaving the device.
*/
module Transport {
  import opened Wrappers
  import opened Payload

  datatype PeerId = PeerId(displayName: string, hash: int)

  /** `MCSessionSendDataMode`. */
  datatype SendMode = Reliable | Unreliable

  /** One `send(_:toPeers:with:)` request. */
  datatype Transmission = Transmission(peers: seq<PeerId>, data: Data, mode: SendMode)

  /** The error `send` throws. */
  datatype SendError = SendError

  class Session {
    const myPeerID: PeerId
    var connectedPeers: seq<PeerId>
    var sent: seq<Transmission>

    constructor (myPeerID: PeerId)
      ensures this.myPeerID == myPeerID
      ensures connectedPeers == [] && sent == []
    {
      this.myPeerID := myPeerID;
      connectedPeers := [];
      sent := [];
    }

    /**
      `MCSession.send(_:toPeers:with:)`. Whether the framework throws is not
      visible from the core, so it is a parameter; the request is logged
      either way.
    */
    method Send(data: Data, peers: seq<PeerId>, mode: SendMode, fails: bool) returns (err: Option<SendError>)
      modifies this
      ensures sent == old(sent) + [Transmission(peers, data, mode)]
      ensures connectedPeers == old(connectedPeers)
      ensures err.Some? <==> fails
    {
      sent := sent + [Transmission(peers, data, mode)];
      err := if fails then Some(SendError) else None;
    }
  }
}
