/**
 * The callbacks the browser invokes: the data channel's `onmessage`,
 * `onopen` and `onclose` (dataChannel.js), the connection's `onicecandidate`
 * (peerConnection.js) and the rendezvous' `child_added` listener (signal.js).
 * Each acts on the node and on the connection its closure captured.
 */
module ChannelEvents {
  import opened Wrappers
  import opened Messages
  import DataChannel
  import Signal
  import opened PeerConnection
  import Peer

  /** What a node does with an envelope arriving on a data channel. */
  datatype Action = Deliver | Relay | Drop

  /**
   * `onmessage`: an envelope for everybody or for this node is delivered;
   * any other is relayed while it has hops left, and dropped after that.
   */
  function Receive(localId: string, m: Message): (a: Action)
    ensures a == Deliver <==> AddressedTo(m, localId)
    ensures a == Relay <==> !AddressedTo(m, localId) && m.ttl.Some? && m.ttl.value > 0
  {
    if AddressedTo(m, localId) then Deliver
    else if m.ttl.Some? && m.ttl.value > 0 then Relay
    else Drop
  }

  /**
   * How many times an envelope is relayed when it travels through the nodes
   * of `path` in turn, each relaying it to the next, until one of them
   * delivers or drops it.
   */
  function RelayCount(m: Message, path: seq<string>): nat
    decreases |path|
  {
    if path == [] then 0
    else if Receive(path[0], m) == Relay && m.forwardBy.Some? then 1 + RelayCount(Peer.Forwarded(m, path[0]), path[1..])
    else 0
  }

  /** An envelope is relayed at most as many times as its ttl says, however long the path. */
  lemma {:induction false} RelayBound(m: Message, path: seq<string>)
    ensures RelayCount(m, path) <= if m.ttl.Some? && m.ttl.value > 0 then m.ttl.value else 0
    decreases |path|
  {
    if path != [] && Receive(path[0], m) == Relay && m.forwardBy.Some? {
      RelayBound(Peer.Forwarded(m, path[0]), path[1..]);
    }
  }

  /** With hops to spare and no recipient on the way, every node of the path relays the envelope. */
  lemma {:induction false} RelayReachesEnd(m: Message, path: seq<string>)
    requires m.ttl.Some? && m.forwardBy.Some?
    requires forall i :: 0 <= i < |path| ==> !AddressedTo(m, path[i])
    requires |path| < m.ttl.value
    ensures RelayCount(m, path) == |path|
    decreases |path|
  {
    if path != [] {
      RelayReachesEnd(Peer.Forwarded(m, path[0]), path[1..]);
    }
  }

  /** The event `onopen` and `onclose` emit on the node, from the remote side. */
  function ChannelEvent(msgType: string, remotePeer: string): (m: Message)
    ensures m.msgType == Some(msgType) && m.from == Some(remotePeer)
    ensures m.to.None? && m.data.None?
  {
    Message(Some(msgType), Some(remotePeer), None, None, None, None, None, None)
  }

  /** `onmessage`: applies `Receive`; delivery throws on a typeless envelope and relaying on one without relayers. */
  method OnMessage(peer: Peer.Peer, m: Message) returns (a: Action, thrown: bool)
    requires peer.Valid()
    modifies peer`emitted, peer.connections.Values`sent
    ensures a == Receive(peer.id, m)
    ensures a == Deliver ==> (thrown <==> m.msgType.None?)
    ensures a == Relay ==> (thrown <==> !WellFormed(m))
    ensures a == Drop ==> !thrown
    ensures peer.emitted == if a == Deliver && !thrown then old(peer.emitted) + [m] else old(peer.emitted)
    ensures a == Relay && m.forwardBy.Some? ==> forall k :: k in peer.connections ==>
      peer.connections[k].sent == old(peer.connections[k].sent) + Peer.Route(old(peer.Views()), Peer.Forwarded(m, peer.id))[k]
    ensures a != Relay || m.forwardBy.None? ==> forall k :: k in peer.connections ==>
      peer.connections[k].sent == old(peer.connections[k].sent)
  {
    a := Receive(peer.id, m);
    thrown := false;
    if a == Deliver {
      thrown := peer.Emit(m);
    } else if a == Relay {
      var ok := peer.Forward(m);
      thrown := !ok;
    }
  }

  /**
   * `onopen`: only when the channel reports itself open does the connection
   * keep it, become open and announce `connected` from the remote side.
   */
  method OnOpen(peer: Peer.Peer, pc: Connection, ch: DataChannel.Channel)
    modifies pc`channel, pc`status, peer`emitted
    ensures ch.readyState == DataChannel.Open ==>
      && pc.channel == Some(ch) && pc.status == Status.Open
      && peer.emitted == old(peer.emitted) + [ChannelEvent("connected", pc.remotePeer)]
    ensures ch.readyState != DataChannel.Open ==>
      pc.channel == old(pc.channel) && pc.status == old(pc.status) && peer.emitted == old(peer.emitted)
  {
    if ch.readyState == DataChannel.Open {
      pc.channel := Some(ch);
      pc.status := Status.Open;
      var _ := peer.Emit(ChannelEvent("connected", pc.remotePeer));
    }
  }

  /** `onclose`: the connection is closed and `disconnected` is announced from the remote side. */
  method OnClose(peer: Peer.Peer, pc: Connection)
    modifies pc`status, peer`emitted
    ensures pc.status == Status.Close
    ensures peer.emitted == old(peer.emitted) + [ChannelEvent("disconnected", pc.remotePeer)]
  {
    pc.status := Status.Close;
    var _ := peer.Emit(ChannelEvent("disconnected", pc.remotePeer));
  }

  /**
   * The connection's `onicecandidate`: the end-of-candidates event (a null
   * candidate) sends nothing; any other candidate goes to the remote side
   * through the node's routing.
   */
  method PcOnIceCandidate(peer: Peer.Peer, pc: Connection, candidate: Option<Payload>)
    requires peer.Valid()
    modifies peer.connections.Values`sent
    ensures candidate.None? ==> forall k :: k in peer.connections ==>
      peer.connections[k].sent == old(peer.connections[k].sent)
    ensures candidate.Some? ==> forall k :: k in peer.connections ==>
      peer.connections[k].sent == old(peer.connections[k].sent) +
        Peer.Route(old(peer.Views()), IceCandidateMessage(pc.localId, pc.remotePeer, candidate).value)[k]
  {
    var m := IceCandidateMessage(pc.localId, pc.remotePeer, candidate);
    if m.Some? {
      var _ := peer.Send(m.value);
    }
  }

  /** The rendezvous' listener: the node receives exactly the published envelopes `Signal.Accepts` lets through. */
  method SignalOnMessage(peer: Peer.Peer, m: Message) returns (thrown: bool)
    modifies peer`emitted
    ensures thrown <==> Signal.Accepts(m, peer.id) && m.msgType.None?
    ensures peer.emitted == if Signal.Accepts(m, peer.id) && !thrown then old(peer.emitted) + [m] else old(peer.emitted)
  {
    thrown := false;
    if Signal.Accepts(m, peer.id) {
      thrown := peer.Emit(m);
    }
  }
}
