/**
  Advertising and invitation arbitration (PeerKit/Advertiser.swift).

  When two peers browse and advertise at the same time, each may invite the
  other. The invited side accepts only when its own peer hash is strictly
  greater than the inviter's, so of two peers with distinct hashes exactly
  one accepts; the acceptor then stops advertising.
*/
module Advertising {
  import opened Wrappers
  import opened Transport

  /**
    The invitation decision (PeerKit/Advertiser.swift:35). An invitation
    from a peer with the same hash is never accepted, and of two distinct
    hashes the accepting side is the greater one.
  */
  predicate Accepts(myHash: int, peerHash: int): (accept: bool)
    ensures accept ==> myHash != peerHash
    ensures myHash != peerHash ==> (accept <==> peerHash < myHash)
  {
    myHash > peerHash
  }

  /** Of two peers with distinct hashes, exactly one accepts the other's invitation. */
  lemma ExactlyOneAccepts(a: PeerId, b: PeerId)
    requires a.hash != b.hash
    ensures Accepts(a.hash, b.hash) != Accepts(b.hash, a.hash)
  {
  }

  /** Peers whose hashes are equal both decline. */
  lemma EqualHashesNeitherAccepts(a: PeerId, b: PeerId)
    requires a.hash == b.hash
    ensures !Accepts(a.hash, b.hash) && !Accepts(b.hash, a.hash)
  {
  }

  /** `MCNearbyServiceAdvertiser`: what it announces, its delegate, and whether it is running. */
  class NearbyAdvertiser {
    const myPeerID: PeerId
    const discoveryInfo: Option<map<string, string>>
    const serviceType: string
    var delegate: Advertiser?
    var advertising: bool

    constructor (myPeerID: PeerId, discoveryInfo: Option<map<string, string>>, serviceType: string)
      ensures this.myPeerID == myPeerID && this.discoveryInfo == discoveryInfo
      ensures this.serviceType == serviceType
      ensures delegate == null && !advertising
    {
      this.myPeerID := myPeerID;
      this.discoveryInfo := discoveryInfo;
      this.serviceType := serviceType;
      delegate := null;
      advertising := false;
    }

    method StartAdvertisingPeer()
      modifies this`advertising
      ensures advertising
    {
      advertising := true;
    }

    method StopAdvertisingPeer()
      modifies this`advertising
      ensures !advertising
    {
      advertising := false;
    }
  }

  class Advertiser {
    /** The session invitations are joined to; set once, at construction. */
    const mcSession: Session
    var advertiser: NearbyAdvertiser?

    constructor (mcSession: Session)
      ensures this.mcSession == mcSession && advertiser == null
    {
      this.mcSession := mcSession;
      advertiser := null;
    }

    /**
      `startAdvertising`: a new advertiser for the given service type and
      discovery info replaces any previous one, with this object as its
      delegate, and is started. The previous advertiser is left as it was:
      in Swift it loses its only strong reference and is released, which
      this model does not capture.
    */
    method StartAdvertising(serviceType: string, discoveryInfo: Option<map<string, string>>)
      modifies this`advertiser
      ensures advertiser != null && fresh(advertiser)
      ensures advertiser.myPeerID == mcSession.myPeerID
      ensures advertiser.serviceType == serviceType && advertiser.discoveryInfo == discoveryInfo
      ensures advertiser.delegate == this && advertiser.advertising
    {
      var nearby := new NearbyAdvertiser(mcSession.myPeerID, discoveryInfo, serviceType);
      advertiser := nearby;
      nearby.delegate := this;
      nearby.StartAdvertisingPeer();
    }

    /**
      `stopAdvertising`: the current advertiser, if any, loses its delegate
      and stops. The resulting state does not depend on the delegate or the
      running flag before the call, so stopping twice is stopping once.
    */
    method StopAdvertising()
      modifies advertiser
      ensures advertiser == old(advertiser)
      ensures advertiser != null ==> advertiser.delegate == null && !advertiser.advertising
    {
      if advertiser != null {
        advertiser.delegate := null;
        advertiser.StopAdvertisingPeer();
      }
    }

    /**
      The delegate method for an incoming invitation. The invitation handler
      is called once, with the decision and this object's own session, which
      are the two results here. Accepting stops advertising; declining
      leaves the advertiser untouched.
    */
    method DidReceiveInvitation(peerID: PeerId) returns (accept: bool, session: Session)
      modifies advertiser
      ensures accept <==> Accepts(mcSession.myPeerID.hash, peerID.hash)
      ensures session == mcSession
      ensures advertiser == old(advertiser)
      ensures accept && advertiser != null ==> advertiser.delegate == null && !advertiser.advertising
      ensures !accept && advertiser != null ==> unchanged(advertiser)
    {
      accept := mcSession.myPeerID.hash > peerID.hash;
      session := mcSession;
      if accept {
        StopAdvertising();
      }
    }
  }

  /** Stopping twice leaves the same state as stopping once. */
  method StopTwice(adv: Advertiser)
    modifies adv.advertiser
    ensures adv.advertiser == old(adv.advertiser)
    ensures adv.advertiser != null ==> adv.advertiser.delegate == null && !adv.advertiser.advertising
  {
    adv.StopAdvertising();
    adv.StopAdvertising();
  }

  /**
    Two advertising peers with distinct hashes each receive the other's
    invitation. Exactly one accepts, and only that one stops advertising;
    the other keeps advertising and joins through its own invitation.
  */
  method MutualInvitation(a: Advertiser, b: Advertiser)
    requires a.advertiser != null && b.advertiser != null && a.advertiser != b.advertiser
    requires a.advertiser.advertising && b.advertiser.advertising
    requires a.mcSession.myPeerID.hash > b.mcSession.myPeerID.hash
    modifies a.advertiser, b.advertiser
    ensures a.advertiser.delegate == null && !a.advertiser.advertising
    ensures b.advertiser.advertising
  {
    var acceptA, sessionA := a.DidReceiveInvitation(b.mcSession.myPeerID);
    var acceptB, sessionB := b.DidReceiveInvitation(a.mcSession.myPeerID);
    assert acceptA && !acceptB;
  }
}
