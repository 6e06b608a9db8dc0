/**
 * The wire envelope exchanged between nodes, and the media meta-data record
 * (`info`) that `info` messages carry.
 *
 * Every field of an envelope is optional because the JavaScript objects are
 * built ad hoc and the router itself checks which fields are present.
 */
module Messages {
  import opened Wrappers

  /** Recipient of an envelope: a node id, or the broadcast sentinel -1. */
  datatype Dest = Broadcast | Node(id: string)

  /** Media meta-data: part count, byte size, who holds which part, which parts are local. */
  datatype Info = Info(
    url: string,
    parts: int,
    size: int,
    remote: map<string, seq<int>>,
    available: seq<int>)

  /**
   * The `data` field. Session descriptions, ICE candidates and DOM events are
   * opaque browser objects, so they are tokens here.
   */
  datatype Payload =
    | Token(id: nat)
    | InfoData(info: Info)
    | EmptyInfo            // a media's `info` before any meta-data is known: the object `{}`
    | Bytes(bytes: seq<int>)

  datatype Message = Message(
    msgType: Option<string>,
    from: Option<string>,
    to: Option<Dest>,
    ttl: Option<int>,
    forwardBy: Option<seq<string>>,
    url: Option<string>,
    number: Option<int>,
    data: Option<Payload>)

  /** An envelope with every field the router requires. */
  function Envelope(msgType: string, from: string, to: Dest, ttl: int, forwardBy: seq<string>): (m: Message)
    ensures WellFormed(m)
  {
    Message(Some(msgType), Some(from), Some(to), Some(ttl), Some(forwardBy), None, None, None)
  }

  /** The five fields `Peer.send` refuses to go without. */
  predicate WellFormed(m: Message) {
    m.msgType.Some? && m.from.Some? && m.to.Some? && m.ttl.Some? && m.forwardBy.Some?
  }

  /** The ids that already relayed `m` (none when the field is missing). */
  function Relayers(m: Message): seq<string> {
    m.forwardBy.GetOr([])
  }

  /** Is `m` addressed to the node `id`, or to everyone? */
  predicate AddressedTo(m: Message, id: string) {
    m.to == Some(Broadcast) || m.to == Some(Node(id))
  }
}
