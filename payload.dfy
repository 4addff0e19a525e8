/**
  The wire payload of an event (PeerKit/PeerKit.swift:70-73, 119-125).

  An event travels as a keyed archive of a string-keyed dictionary with an
  "event" entry (the event name) and, when an object is attached, an
  "object" entry. The archiver itself is a library serialiser and is
  modelled as the identity on values: archiving a value yields data that
  unarchives to that same value. Data that is not an archive at all is
  dropped here; the unarchiver of the source raises an exception on it
  instead, which Swift cannot catch.
*/
module Payload {
  import opened Wrappers

  /** The objects an archive can hold (Swift's `AnyObject`), abstracted. */
  datatype Value =
    | Str(s: string)                          // an NSString / Swift String
    | Num(n: int)                             // an NSNumber
    | Dict(entries: map<string, Value>)       // a dictionary with String keys
    | Other(tag: int)                         // any other archivable object

  /** Bytes received from a peer: either a keyed archive of a root value, or garbage. */
  datatype Data = Archived(root: Value) | Garbage(raw: seq<int>)

  /** A decoded event: its name and its optional attached object. */
  datatype Event = Event(name: string, obj: Option<Value>)

  const EventKey: string := "event"
  const ObjectKey: string := "object"

  /**
    `NSKeyedUnarchiver.unarchiveObject(with:)`: a value exactly for archives.
    For data that is not an archive the source raises an exception; the
    model answers nothing.
  */
  function Unarchive(d: Data): (r: Option<Value>)
    ensures r.Some? <==> d.Archived?
  {
    match d
    case Archived(root) => Some(root)
    case Garbage(_) => None
  }

  /** `NSKeyedArchiver.archivedData(withRootObject:)`: what it archives unarchives unchanged. */
  function Archive(root: Value): (d: Data)
    ensures Unarchive(d) == Some(root)
  {
    Archived(root)
  }

  /**
    The root dictionary `sendEvent` builds (PeerKit/PeerKit.swift:119-123):
    "event" always maps to the event name, and "object" is present exactly
    when an object is attached, mapped to that object.
  */
  function Envelope(event: string, obj: Option<Value>): (root: map<string, Value>)
    ensures EventKey in root && root[EventKey] == Str(event)
    ensures ObjectKey in root <==> obj.Some?
    ensures obj.Some? ==> root[ObjectKey] == obj.value
    ensures root.Keys <= {EventKey, ObjectKey}
  {
    var root := map[EventKey := Str(event)];
    if obj.Some? then root[ObjectKey := obj.value] else root
  }

  /** Data that `didReceiveData` accepts: a String-keyed dictionary whose "event" entry is a String. */
  predicate WellFormed(d: Data): (ok: bool)
    ensures ok ==> d.Archived? && d.root.Dict? && EventKey in d.root.entries
  {
    match Unarchive(d)
    case Some(Dict(entries)) => EventKey in entries && entries[EventKey].Str?
    case _ => false
  }

  /**
    The decoding half of `didReceiveData` (PeerKit/PeerKit.swift:71-73).
    It fails exactly on data that is not well formed. On success, the
    decoded event is the one whose envelope agrees with the received
    dictionary on both of the keys the decoder looks at. A missing "object"
    entry decodes as an absent object, because binding `dict["object"]` to
    an optional always succeeds.
  */
  function Decode(d: Data): (r: Option<Event>)
    ensures r.Some? <==> WellFormed(d)
    ensures r.Some? ==>
      var entries := Unarchive(d).value.entries;
      var root := Envelope(r.value.name, r.value.obj);
      && root[EventKey] == entries[EventKey]
      && (ObjectKey in root <==> ObjectKey in entries)
      && (ObjectKey in entries ==> root[ObjectKey] == entries[ObjectKey])
  {
    match Unarchive(d)
    case Some(Dict(entries)) =>
      if EventKey in entries && entries[EventKey].Str? then
        Some(Event(entries[EventKey].s, if ObjectKey in entries then Some(entries[ObjectKey]) else None))
      else
        None
    case _ => None
  }

  /** Archiving an envelope and decoding the result gives back the event name and object. */
  lemma DecodeEnvelope(event: string, obj: Option<Value>)
    ensures Decode(Archive(Dict(Envelope(event, obj)))) == Some(Event(event, obj))
  {
  }

  /**
    Data that is not a well-formed envelope decodes to nothing: a corollary
    of the first postcondition of `Decode`, stated from the receiver's side.
  */
  lemma DecodeRejectsMalformed(d: Data)
    requires !WellFormed(d)
    ensures Decode(d) == None
  {
  }
}
