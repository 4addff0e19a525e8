# PeerKit event dispatch and invitation arbitration, in Dafny

PeerKit is a thin Swift layer over Apple's MultipeerConnectivity. This
project models its two pieces of sequential logic.

- **The event-dispatch core** (`PeerKit/PeerKit.swift`). The globals are the
  connection hooks, `onEvent`, `onEventObject`, the `eventBlocks` dictionary
  and the shared `session`. `sendEvent` wraps an event name and an optional
  object in a root dictionary and archives it. `didReceiveData` unarchives
  it and routes it to `onEvent` and then to the block registered under the
  event name. `didConnect` adopts the transceiver's session when none is
  set. `stopTransceiving` clears it. `sendResourceAtURL` starts one transfer
  per peer.
- **Invitation arbitration** (`PeerKit/Advertiser.swift`). The `Advertiser`
  starts and stops an `MCNearbyServiceAdvertiser`. It accepts an invitation
  only when its own peer hash is strictly greater than the inviter's. On
  accepting, it stops advertising.

Modules, one per file:

- `Wrappers` (`wrappers.dfy`): `Option`.
- `Payload` (`payload.dfy`): archived values, the envelope `sendEvent`
  builds, and the decoder of `didReceiveData`. The keyed archiver is the
  identity on values. Data that is not an archive at all is `Garbage`,
  and the model drops it.
- `Transport` (`transport.dfy`): peers, given as display name and hash. It
  also has the `Session` class, standing for `MCSession`: a fixed local
  peer, connected peers, and a log of send requests.
- `PeerKit` (`peerkit.dfy`): the `Dispatcher` class holding the globals. It
  also has the pure routing function, the per-peer transfer map, and two
  client scenarios.
- `Advertising` (`advertiser.dfy`): the tie-break, the `Advertiser` class,
  a stand-in class for the framework advertiser, and two client scenarios.

Each `DispatchQueue.main.async` appends a task to `Dispatcher.pending`, and
`RunNextTask` is the main queue running its oldest task. The connection and
resource hooks are read before the task is queued. The routing closure of
`didReceiveData` reads `onEvent` and `eventBlocks` only when it runs, as in
the source, so a block registered between receipt and execution is the one
called.

A few behaviours of the code are easy to misread:

- `onEventObject` is declared (PeerKit/PeerKit.swift:25) but nothing calls
  it, so routing never invokes it.
- Only the accepting side of an invitation stops advertising
  (PeerKit/Advertiser.swift:37-39). The declining side goes on advertising.
- `sendEvent` with a non-empty explicit peer list but no session sends
  nothing, because it calls `session?.send`.
- The "object" entry is optional on receipt. `if let object: AnyObject? =
  dict["object"]` always binds, so a missing entry decodes as an absent
  object.

## Model

| member | source | states |
|---|---|---|
| `Payload.Envelope` | PeerKit/PeerKit.swift:119-123 | the root dictionary maps "event" to the event name; it has an "object" key exactly when an object is given, mapped to that object; it has no other key |
| `Payload.Archive` | PeerKit/PeerKit.swift:125 | the archived root object unarchives to exactly that object |
| `Payload.Unarchive` | PeerKit/PeerKit.swift:71 | exactly archives unarchive to a value |
| `Payload.WellFormed` | PeerKit/PeerKit.swift:71-72 | only an archived String-keyed dictionary with an "event" entry passes the guard |
| `Payload.Decode` | PeerKit/PeerKit.swift:71-73 | decoding succeeds exactly when the data unarchives to a String-keyed dictionary whose "event" entry is a String; the decoded event's envelope then agrees with the received dictionary on "event" and on the presence and value of "object" |
| `Payload.DecodeEnvelope` | PeerKit/PeerKit.swift:119-125 | archiving the envelope of (name, object) and decoding it, as lines 71-73 do, gives back exactly (name, object), an absent object included |
| `Payload.DecodeRejectsMalformed` | PeerKit/PeerKit.swift:71-73 | a corollary of the first postcondition of `Decode`, for the receiver: data that fails the guard decodes to nothing |
| `Transport.Session.Send` | PeerKit/PeerKit.swift:128 | a send request is logged with its peers, data and mode; it reports an error exactly when the transport fails |
| `PeerKit.Route` | PeerKit/PeerKit.swift:75-80 | the routing closure calls `onEvent` first, if set, with (peer, event, object), then the block stored under exactly that event name, if present, with (peer, object); each at most once, nothing else |
| `PeerKit.Run` | PeerKit/PeerKit.swift:74-81 | a queued hook closure makes exactly its captured call; the routing closure makes at most two calls, all for the sending peer, and only to `onEvent` or an event block |
| `PeerKit.Dispatcher.DefaultPeers` | PeerKit/PeerKit.swift:114 | the default peer list `session?.connectedPeers` is nil exactly when there is no session, otherwise the session's connected peers |
| `PeerKit.RouteOnlyLatestBlock` | PeerKit/PeerKit.swift:78-79 | after registering a block under a name, routing that name calls the new block and no other object block |
| `PeerKit.Transfers` | PeerKit/PeerKit.swift:136-138 | one transfer per peer, in peer order, each for the given resource name and URL |
| `PeerKit.Dispatcher.constructor` | PeerKit/PeerKit.swift:21-39 | at start no hook is set, `eventBlocks` is empty, `session` is nil, and nothing is queued or called |
| `PeerKit.Dispatcher.RegisterEventBlock` | PeerKit/PeerKit.swift:27 | `eventBlocks[name] = block` replaces any earlier block for that name and leaves the other names alone |
| `PeerKit.Dispatcher.DidConnecting` | PeerKit/PeerKit.swift:43-49 | the `onConnecting` hook is queued with (myPeerID, peer) exactly when it is set |
| `PeerKit.Dispatcher.DidConnect` | PeerKit/PeerKit.swift:51-60 | `session` becomes the transceiver's session only when it was nil and is never overwritten; `onConnect` is queued exactly when set |
| `PeerKit.Dispatcher.DidDisconnect` | PeerKit/PeerKit.swift:62-68 | the `onDisconnect` hook is queued exactly when it is set |
| `PeerKit.Dispatcher.DidReceiveData` | PeerKit/PeerKit.swift:70-83 | malformed data queues nothing; well-formed data queues one routing task carrying the peer and the decoded name and object |
| `PeerKit.Dispatcher.DidFinishReceivingResource` | PeerKit/PeerKit.swift:85-91 | the resource hook is queued with its four arguments exactly when it is set |
| `PeerKit.Dispatcher.RunNextTask` | PeerKit/PeerKit.swift:74-81 | the main queue runs its oldest closure; a routing closure resolves `onEvent` and `eventBlocks` as they are when it runs |
| `PeerKit.Dispatcher.StopTransceiving` | PeerKit/PeerKit.swift:107-110 | `session` is nil afterwards, so the default peer list `session?.connectedPeers` is nil |
| `PeerKit.Dispatcher.SendEvent` | PeerKit/PeerKit.swift:114-131 | a nil or empty peer list, or no session, sends nothing; otherwise exactly the archived envelope goes out reliably to exactly the given peers; a transport failure reaches neither the caller nor any other state |
| `PeerKit.Dispatcher.SendResourceAtURL` | PeerKit/PeerKit.swift:133-141 | nil when there is no session or no peer list; otherwise one transfer per peer, in peer order |
| `PeerKit.StopThenSend` | PeerKit/PeerKit.swift:107-117 | after `stopTransceiving`, `sendEvent` with the default peers leaves the send log unchanged |
| `PeerKit.SendScore` | PeerKit/PeerKit.swift:70-131 | an event ("score", 42) sent by A and received by B reaches B's `onEvent` hook with name and object, then B's "score" block with the object |
| `Advertising.Accepts` | PeerKit/Advertiser.swift:35 | an invitation from an equal hash is never accepted; between distinct hashes, the side with the greater hash accepts |
| `Advertising.ExactlyOneAccepts` | PeerKit/Advertiser.swift:35 | of two peers with distinct hashes, exactly one accepts the other's invitation |
| `Advertising.EqualHashesNeitherAccepts` | PeerKit/Advertiser.swift:35 | two peers with equal hashes both decline |
| `Advertising.Advertiser.constructor` | PeerKit/Advertiser.swift:14-19 | the session is fixed at construction (a `const`) and no advertiser exists yet |
| `Advertising.Advertiser.StartAdvertising` | PeerKit/Advertiser.swift:23-27 | a fresh advertiser for this peer, service type and discovery info replaces the old one, with this object as delegate, and it is running |
| `Advertising.Advertiser.StopAdvertising` | PeerKit/Advertiser.swift:29-32 | the current advertiser, if any, has no delegate and is stopped; with no advertiser nothing changes |
| `Advertising.Advertiser.DidReceiveInvitation` | PeerKit/Advertiser.swift:34-40 | accept is true exactly when the local hash is strictly greater than the inviter's; the handler gets the decision and the advertiser's own session; accepting stops advertising and clears the delegate, declining changes nothing |
| `Advertising.StopTwice` | PeerKit/Advertiser.swift:29-32 | stopping twice leaves the same state as stopping once |
| `Advertising.MutualInvitation` | PeerKit/Advertiser.swift:34-40 | when two advertising peers invite each other, the one with the greater hash accepts and stops advertising, and the other keeps advertising |

## Left out

- MultipeerConnectivity itself. Peer discovery, the framework's upkeep of `connectedPeers`, and the delivery of bytes are not modelled. A send is a logged request. The framework's choice to throw is a parameter.
- The byte format of `NSKeyedArchiver`/`NSKeyedUnarchiver`. Archiving is the identity on values. An object that cannot be archived raises an Objective-C exception, which is not modelled.
- Thread hopping by `DispatchQueue.main.async`. The main queue is a sequence of pending closures, run one at a time. What an application block does when it runs is not modelled, including registering other blocks.
- Device-name lookup (PeerKit/PeerKit.swift:31-36): an operating-system call.
- `transceive`, `advertise`, `browse` (PeerKit/PeerKit.swift:95-105) and the `transceiver.stopTransceiving()` call in `stopTransceiving`. They forward to `Transceiver`, which is not part of this model.
- PeerKit.Dispatcher.Valid: `session` is either nil or the transceiver's session, a fixed object `Dispatcher.transceiverSession`. In Swift the global `transceiver` could be reassigned, and the public global `session` (PeerKit/PeerKit.swift:39) could be set by an application to any `MCSession`. Neither is modelled.
- PeerKit.Route: event names are `string`s compared code point by code point. Swift compares `String` keys by Unicode canonical equivalence, so a block registered under "caf\u{E9}" also fires for an event named "cafe\u{301}" in Swift but not here.
- PeerKit.Dispatcher.RegisterEventBlock: registration replaces only a block stored under the same code points. Swift also replaces a block stored under a canonically equivalent name.
- Payload.Unarchive: for bytes that are not an archive, `NSKeyedUnarchiver.unarchiveObject(with:)` raises an exception that Swift cannot catch, so garbage from a peer crashes the receiver at PeerKit/PeerKit.swift:71. The model drops such data without a callback instead.
- PeerKit.Dispatcher.SendResourceAtURL: the handle of each transfer is a description of the request. The `Progress` object, a nil handle from the framework, and the completion handler the framework calls later are not modelled.
- How `MCPeerID.hashValue` is computed. A peer carries its hash as an integer.
- The `weak` delegate reference and `MCNearbyServiceAdvertiser` internals. The advertiser is a small class with a delegate and a running flag.
- Advertising.Advertiser.StartAdvertising: the replaced advertiser keeps its delegate and running flag in the model. In Swift the private field held its only strong reference, so it is released.
