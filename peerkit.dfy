/**
  The event-dispatch core of PeerKit (PeerKit/PeerKit.swift).

  The Swift file keeps its state in process-wide globals: the optional hook
  blocks, the `eventBlocks` dictionary and the shared `session`. Here they
  are the fields of one `Dispatcher` object. Application blocks are known
  by an identity (`HandlerId`) only; what they do when called is the
  application's business.

  Every `DispatchQueue.main.async` appends a task to `pending`, the main
  queue, and `RunNextTask` is the main queue executing its oldest task,
  which appends the block calls it makes to `invoked`. The connection hooks
  are read before a task is enqueued, while the routing task of
  `didReceiveData` reads `onEvent` and `eventBlocks` only when it runs, as
  in the source.
*/
module PeerKit {
  import opened Wrappers
  import opened Payload
  import opened Transport

  /** The identity of an application closure stored in a hook or in `eventBlocks`. */
  type HandlerId = int

  /** A file URL. */
  type Url = string

  /** One call of an application block, with the arguments it receives. */
  datatype Invocation =
    | PeerBlockCall(block: HandlerId, myPeerID: PeerId, peer: PeerId)
    | EventBlockCall(block: HandlerId, peer: PeerId, event: string, obj: Option<Value>)
    | ObjectBlockCall(block: HandlerId, peer: PeerId, obj: Option<Value>)
    | ResourceBlockCall(block: HandlerId, myPeerID: PeerId, resourceName: string, peer: PeerId, localURL: Url)

  /** A closure waiting on the main queue. */
  datatype Task =
    | Call(inv: Invocation)                                    // a hook captured before enqueueing
    | RouteEvent(peer: PeerId, event: string, obj: Option<Value>) // the closure of didReceiveData

  /** The progress handle of one resource transfer, named by what was requested. */
  datatype Progress = Progress(peer: PeerId, resourceName: string, url: Url)

  /**
    The block calls the routing closure of `didReceiveData` makes
    (PeerKit/PeerKit.swift:75-80): first the `onEvent` hook, if set, with
    peer, event name and object; then the block stored under exactly that
    event name, if any, with peer and object. Each is called at most once,
    a missing one is skipped, and nothing else is called (in particular not
    the `onEventObject` hook).
  */
  function Route(onEvent: Option<HandlerId>, eventBlocks: map<string, HandlerId>,
                 peer: PeerId, event: string, obj: Option<Value>): (calls: seq<Invocation>)
    ensures |calls| == (if onEvent.Some? then 1 else 0) + (if event in eventBlocks then 1 else 0)
    ensures onEvent.Some? ==> calls[0] == EventBlockCall(onEvent.value, peer, event, obj)
    ensures event in eventBlocks ==> calls[|calls| - 1] == ObjectBlockCall(eventBlocks[event], peer, obj)
  {
    (if onEvent.Some? then [EventBlockCall(onEvent.value, peer, event, obj)] else [])
    + (if event in eventBlocks then [ObjectBlockCall(eventBlocks[event], peer, obj)] else [])
  }

  /**
    What running one main-queue task calls. A captured hook makes exactly
    its one call. A routing closure makes at most two calls, all for the
    peer the data came from, and never calls a connection or resource hook.
  */
  function Run(task: Task, onEvent: Option<HandlerId>, eventBlocks: map<string, HandlerId>): (calls: seq<Invocation>)
    ensures task.Call? ==> calls == [task.inv]
    ensures task.RouteEvent? ==>
      && |calls| <= 2
      && forall c :: c in calls ==> c.peer == task.peer && (c.EventBlockCall? || c.ObjectBlockCall?)
  {
    match task
    case Call(inv) => [inv]
    case RouteEvent(peer, event, obj) => Route(onEvent, eventBlocks, peer, event, obj)
  }

  /**
    The per-peer `map` of `sendResourceAtURL` (PeerKit/PeerKit.swift:136-138):
    one transfer per peer, in peer order.
  */
  function Transfers(url: Url, resourceName: string, peers: seq<PeerId>): (r: seq<Progress>)
    ensures |r| == |peers|
    ensures forall i :: 0 <= i < |peers| ==> r[i] == Progress(peers[i], resourceName, url)
  {
    if peers == [] then [] else [Progress(peers[0], resourceName, url)] + Transfers(url, resourceName, peers[1..])
  }

  /** Registering a block under a name replaces the old one, and only the new one is routed to. */
  lemma RouteOnlyLatestBlock(onEvent: Option<HandlerId>, eventBlocks: map<string, HandlerId>,
                             event: string, block: HandlerId, peer: PeerId, obj: Option<Value>)
    ensures var calls := Route(onEvent, eventBlocks[event := block], peer, event, obj);
      && ObjectBlockCall(block, peer, obj) in calls
      && forall c :: c in calls && c.ObjectBlockCall? ==> c.block == block
  {
  }

  /** The process-wide state of PeerKit/PeerKit.swift:21-39. */
  class Dispatcher {
    /** `transceiver.session.mcSession`, the session the transceiver owns. */
    const transceiverSession: Session
    /** The global `session`. */
    var session: Session?
    var onConnecting: Option<HandlerId>
    var onConnect: Option<HandlerId>
    var onDisconnect: Option<HandlerId>
    var onEvent: Option<HandlerId>
    var onEventObject: Option<HandlerId>
    var onFinishReceivingResource: Option<HandlerId>
    var eventBlocks: map<string, HandlerId>
    /** The main queue: closures dispatched and not yet run. */
    var pending: seq<Task>
    /** The application block calls made so far, in order. */
    var invoked: seq<Invocation>

    /** The shared session is either unset or the transceiver's own. */
    ghost predicate Valid()
      reads this
    {
      session == null || session == transceiverSession
    }

    constructor (transceiverSession: Session)
      ensures Valid()
      ensures this.transceiverSession == transceiverSession && session == null
      ensures onConnecting == onConnect == onDisconnect == None
      ensures onEvent == onEventObject == onFinishReceivingResource == None
      ensures eventBlocks == map[] && pending == [] && invoked == []
    {
      this.transceiverSession := transceiverSession;
      session := null;
      onConnecting, onConnect, onDisconnect := None, None, None;
      onEvent, onEventObject, onFinishReceivingResource := None, None, None;
      eventBlocks := map[];
      pending, invoked := [], [];
    }

    /**
      The default `toPeers:` argument, `session?.connectedPeers`: nil exactly
      when there is no session, otherwise the peers the session has connected.
    */
    function DefaultPeers(): (peers: Option<seq<PeerId>>)
      reads this, session
      ensures peers.None? <==> session == null
      ensures session != null ==> peers == Some(session.connectedPeers)
    {
      if session == null then None else Some(session.connectedPeers)
    }

    /** `eventBlocks[event] = block`: a later registration replaces an earlier one. */
    method RegisterEventBlock(event: string, block: HandlerId)
      modifies this`eventBlocks
      ensures eventBlocks == old(eventBlocks)[event := block]
    {
      eventBlocks := eventBlocks[event := block];
    }

    /** `didConnecting`: enqueue the `onConnecting` hook iff it is set. */
    method DidConnecting(myPeerID: PeerId, peer: PeerId)
      modifies this`pending
      ensures pending == old(pending) +
        (if onConnecting.Some? then [Call(PeerBlockCall(onConnecting.value, myPeerID, peer))] else [])
    {
      if onConnecting.Some? {
        pending := pending + [Call(PeerBlockCall(onConnecting.value, myPeerID, peer))];
      }
    }

    /**
      `didConnect`: adopt the transceiver's session only when none is set,
      never replacing one, then enqueue the `onConnect` hook iff it is set.
    */
    method DidConnect(myPeerID: PeerId, peer: PeerId)
      requires Valid()
      modifies this`session, this`pending
      ensures Valid()
      ensures session == if old(session) == null then transceiverSession else old(session)
      ensures pending == old(pending) +
        (if onConnect.Some? then [Call(PeerBlockCall(onConnect.value, myPeerID, peer))] else [])
    {
      if session == null {
        session := transceiverSession;
      }
      if onConnect.Some? {
        pending := pending + [Call(PeerBlockCall(onConnect.value, myPeerID, peer))];
      }
    }

    /** `didDisconnect`: enqueue the `onDisconnect` hook iff it is set. */
    method DidDisconnect(myPeerID: PeerId, peer: PeerId)
      modifies this`pending
      ensures pending == old(pending) +
        (if onDisconnect.Some? then [Call(PeerBlockCall(onDisconnect.value, myPeerID, peer))] else [])
    {
      if onDisconnect.Some? {
        pending := pending + [Call(PeerBlockCall(onDisconnect.value, myPeerID, peer))];
      }
    }

    /**
      `didReceiveData`: data that decodes is queued for routing, data that
      does not is dropped without any callback.
    */
    method DidReceiveData(data: Data, peer: PeerId)
      modifies this`pending
      ensures !WellFormed(data) ==> pending == old(pending)
      ensures WellFormed(data) ==>
        var ev := Decode(data).value;
        pending == old(pending) + [RouteEvent(peer, ev.name, ev.obj)]
    {
      var ev := Decode(data);
      if ev.Some? {
        pending := pending + [RouteEvent(peer, ev.value.name, ev.value.obj)];
      }
    }

    /** `didFinishReceivingResource`: enqueue the hook iff it is set. */
    method DidFinishReceivingResource(myPeerID: PeerId, resourceName: string, peer: PeerId, localURL: Url)
      modifies this`pending
      ensures pending == old(pending) +
        (if onFinishReceivingResource.Some?
         then [Call(ResourceBlockCall(onFinishReceivingResource.value, myPeerID, resourceName, peer, localURL))]
         else [])
    {
      if onFinishReceivingResource.Some? {
        pending := pending +
          [Call(ResourceBlockCall(onFinishReceivingResource.value, myPeerID, resourceName, peer, localURL))];
      }
    }

    /** The main queue runs its oldest closure, if any. */
    method RunNextTask()
      modifies this`pending, this`invoked
      ensures old(pending) == [] ==> pending == [] && invoked == old(invoked)
      ensures old(pending) != [] ==>
        && pending == old(pending)[1..]
        && invoked == old(invoked) + Run(old(pending)[0], onEvent, eventBlocks)
    {
      if pending != [] {
        invoked := invoked + Run(pending[0], onEvent, eventBlocks);
        pending := pending[1..];
      }
    }

    /** `stopTransceiving`: drop the shared session, so the default peer list is nil. */
    method StopTransceiving()
      modifies this`session
      ensures Valid()
      ensures session == null && DefaultPeers() == None
    {
      session := null;
    }

    /**
      `sendEvent`: with a nil or empty peer list, or no session, nothing is
      sent; otherwise the archived envelope of the event goes out reliably
      to exactly those peers. A failing send is swallowed: nothing reaches
      the caller and no other state changes, whatever the transport does.
    */
    method SendEvent(event: string, obj: Option<Value>, peers: Option<seq<PeerId>>, transportFails: bool)
      requires Valid()
      modifies transceiverSession
      ensures transceiverSession.connectedPeers == old(transceiverSession.connectedPeers)
      ensures transceiverSession.sent ==
        if peers.None? || peers.value == [] || session == null then old(transceiverSession.sent)
        else old(transceiverSession.sent) + [Transmission(peers.value, Archive(Dict(Envelope(event, obj))), Reliable)]
    {
      if peers.None? || peers.value == [] {
        return;
      }
      var rootObject := map[EventKey := Str(event)];
      if obj.Some? {
        rootObject := rootObject[ObjectKey := obj.value];
      }
      var data := Archive(Dict(rootObject));
      if session != null {
        var _ := session.Send(data, peers.value, Reliable, transportFails);
      }
    }

    /**
      `sendResourceAtURL`: nil without a session, and also when the peer
      list is nil; otherwise one transfer per peer, in peer order.
    */
    method SendResourceAtURL(resourceURL: Url, resourceName: string, peers: Option<seq<PeerId>>)
      returns (r: Option<seq<Progress>>)
      ensures r.Some? <==> session != null && peers.Some?
      ensures r.Some? ==>
        && |r.value| == |peers.value|
        && forall i :: 0 <= i < |r.value| ==> r.value[i] == Progress(peers.value[i], resourceName, resourceURL)
    {
      if session != null {
        if peers.Some? {
          return Some(Transfers(resourceURL, resourceName, peers.value));
        }
        return None;
      }
      return None;
    }
  }

  /** After `stopTransceiving`, `sendEvent` with the default peers sends nothing. */
  method StopThenSend(d: Dispatcher, event: string, obj: Option<Value>, transportFails: bool)
    requires d.Valid()
    modifies d, d.transceiverSession
    ensures d.transceiverSession.sent == old(d.transceiverSession.sent)
  {
    d.StopTransceiving();
    d.SendEvent(event, obj, d.DefaultPeers(), transportFails);
  }

  /**
    A sends `("score", 42)` to B alone; the transport carries the bytes; B
    routes them. B's `onEvent` hook receives the name and the object, then
    B's "score" block receives the object.
  */
  method SendScore(a: Dispatcher, b: Dispatcher, me: PeerId, them: PeerId, anyEvent: HandlerId, score: HandlerId)
    requires a.Valid() && a.session != null
    requires b.pending == []
    modifies a.transceiverSession, b
    ensures b.invoked == old(b.invoked) + [
      EventBlockCall(anyEvent, me, "score", Some(Num(42))),
      ObjectBlockCall(score, me, Some(Num(42)))]
  {
    b.onEvent := Some(anyEvent);
    b.RegisterEventBlock("score", score);
    a.SendEvent("score", Some(Num(42)), Some([them]), false);
    var wire := a.transceiverSession.sent[|a.transceiverSession.sent| - 1];
    DecodeEnvelope("score", Some(Num(42)));
    b.DidReceiveData(wire.data, me);
    b.RunNextTask();
  }
}
