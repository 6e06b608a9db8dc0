/**
 * dataChannel.js, the channel side: the channel a connection carries and the
 * handlers bound to it.  The handlers' behaviour is in module ChannelEvents.
 */
module DataChannel {
  import opened Wrappers

  /** `RTCDataChannel.readyState`. */
  datatype ReadyState = Connecting | Open | Closing | Closed

  /** What the four callbacks are bound to: the local peer and the remote id. */
  datatype Handlers = Handlers(peerId: string, remotePeer: string)

  /** A data channel: its identity, label, state and installed callbacks. */
  datatype Channel = Channel(id: nat, name: string, readyState: ReadyState, handlers: Option<Handlers>)

  /** The label a locally created channel gets: `localId + '-' + remoteId`. */
  function Label(localId: string, remotePeer: string): (l: string)
    ensures |l| == |localId| + 1 + |remotePeer|
    ensures l[..|localId|] == localId && l[|localId|] == '-' && l[|localId| + 1..] == remotePeer
  {
    localId + "-" + remotePeer
  }

  /** `setHandlers`: installs the callbacks and hands back the same channel. */
  function SetHandlers(ch: Channel, peerId: string, remotePeer: string): (r: Channel)
    ensures r.id == ch.id && r.name == ch.name && r.readyState == ch.readyState
    ensures r.handlers == Some(Handlers(peerId, remotePeer))
  {
    ch.(handlers := Some(Handlers(peerId, remotePeer)))
  }

  /** `create`: a new channel (identity `id`), labelled for the pair, with the callbacks installed. */
  function Create(id: nat, peerId: string, remotePeer: string): (r: Channel)
    ensures r.id == id && r.name == Label(peerId, remotePeer) && r.readyState == Connecting
    ensures r.handlers == Some(Handlers(peerId, remotePeer))
  {
    SetHandlers(Channel(id, Label(peerId, remotePeer), Connecting, None), peerId, remotePeer)
  }

  /** Two channels a node creates towards different peers carry different labels. */
  lemma LabelsDiffer(localId: string, r1: string, r2: string)
    requires r1 != r2
    ensures Label(localId, r1) != Label(localId, r2)
  {
    var l1, l2 := Label(localId, r1), Label(localId, r2);
    assert l1[|localId| + 1..] == r1 && l2[|localId| + 1..] == r2;
  }
}
