/**
 * signal.js: the rendezvous collaborator.  Its feed (Firebase) is outside the
 * model; what stays is how an outgoing envelope is rewritten before it is
 * published and which entries of the feed are handed to the node.
 */
module Signal {
  import opened Wrappers
  import opened Messages

  /** The message type that starts a connection. */
  const RequestPeer := "request-peer"

  /**
   * JavaScript's `<` on two strings: lexicographic order of their
   * characters.  JavaScript compares UTF-16 code units and Dafny characters
   * are Unicode scalar values, so the two orders agree on ids made of
   * characters of the Basic Multilingual Plane.
   */
  predicate StrLess(a: string, b: string)
    decreases |a|
  {
    if a == [] then b != []
    else if b == [] then false
    else if a[0] != b[0] then a[0] < b[0]
    else StrLess(a[1..], b[1..])
  }

  /** No id sorts below itself. */
  lemma {:induction false} StrLessIrreflexive(a: string)
    ensures !StrLess(a, a)
    decreases |a|
  {
    if a != [] {
      StrLessIrreflexive(a[1..]);
    }
  }

  /** Of two different ids exactly one sorts below the other. */
  lemma {:induction false} StrLessTrichotomy(a: string, b: string)
    requires a != b
    ensures StrLess(a, b) != StrLess(b, a)
    decreases |a|
  {
    if a != [] && b != [] && a[0] == b[0] {
      assert a == [a[0]] + a[1..] && b == [b[0]] + b[1..];
      StrLessTrichotomy(a[1..], b[1..]);
    }
  }

  /** `Signal.send`: the copy that is published has its ttl reset to 0, so nobody re-forwards it. */
  function Published(m: Message): (r: Message)
    ensures r.ttl == Some(0)
    ensures r.(ttl := m.ttl) == m
  {
    m.(ttl := Some(0))
  }

  /** Is `m` a peer request whose author sorts below the node `id`? Such requests are stale for `id`. */
  predicate StaleRequest(m: Message, id: string) {
    m.msgType == Some(RequestPeer) && m.from.Some? && StrLess(m.from.value, id)
  }

  /**
   * The `child_added` filter: an entry of the feed is emitted on the node
   * `id` unless it is a stale peer request, it was written by `id` itself, or
   * it is addressed to somebody else.
   */
  function Accepts(m: Message, id: string): (r: bool)
    ensures StaleRequest(m, id) ==> !r
    ensures r ==> m.from != Some(id) && AddressedTo(m, id)
    ensures !StaleRequest(m, id) && m.from != Some(id) && AddressedTo(m, id) ==> r
  {
    if m.msgType == Some(RequestPeer) && m.from.Some? && StrLess(m.from.value, id) then false
    else m.from != Some(id) && (m.to == Some(Broadcast) || m.to == Some(Node(id)))
  }

  /** The peer request a node broadcasts (see `Peer.requestPeer`). */
  function PeerRequest(from: string): (m: Message)
    ensures WellFormed(m) && m.msgType == Some(RequestPeer)
    ensures m.from == Some(from) && m.to == Some(Broadcast)
  {
    Envelope(RequestPeer, from, Broadcast, 3, [])
  }

  /**
   * The tie-break: when two nodes both broadcast a peer request through the
   * feed, exactly one of them answers the other's, so only one offer is made.
   */
  lemma TieBreak(a: string, b: string)
    requires a != b
    ensures Accepts(PeerRequest(a), b) != Accepts(PeerRequest(b), a)
  {
    StrLessTrichotomy(a, b);
  }

  /** A node never answers its own peer request. */
  lemma OwnRequestIgnored(a: string)
    ensures !Accepts(PeerRequest(a), a)
  {
    StrLessIrreflexive(a);
  }
}
