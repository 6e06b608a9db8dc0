/**
 * peerConnection.js: one neighbour relationship.  The browser's
 * RTCPeerConnection is foreign: each of its asynchronous calls is an action
 * whose outcome is a parameter; on success its continuation runs, on failure
 * the error is only logged.  The rendezvous slot of the connection table
 * (signal.js) is a connection of kind `Rendezvous`.
 */
module PeerConnection {
  import opened Wrappers
  import opened Messages
  import Signal
  import DataChannel

  /** `pc.status`: `'connecting'`, `'open'` or `'close'`. */
  datatype Status = Connecting | Open | Close

  datatype Kind = Rtc | Rendezvous

  /** What the router needs to know of a connection to route through it. */
  datatype ConnState = ConnState(kind: Kind, status: Status)

  /**
   * What one `send` on a connection transmits: the rendezvous publishes a copy
   * with ttl 0; an RTC connection transmits the envelope only while open.
   */
  function Transmit(c: ConnState, m: Message): (r: seq<Message>)
    ensures c.kind == Rendezvous ==> r == [Signal.Published(m)]
    ensures c.kind == Rtc ==> (r != [] <==> c.status == Open)
    ensures c.kind == Rtc && r != [] ==> r == [m]
  {
    match c.kind
    case Rendezvous => [Signal.Published(m)]
    case Rtc => if c.status == Open then [m] else []
  }

  /** A call made on the RTCPeerConnection, recorded in the order it is issued. */
  datatype Step = CreateOffer | CreateAnswer | SetLocal(desc: Payload) | SetRemote(remote: Option<Payload>)

  /** The calls a negotiation issues, and the description its final continuation sends, if any. */
  datatype Chain = Chain(steps: seq<Step>, send: Option<Payload>)

  /**
   * `createSDPOffer`: create the offer, then set it as local description, then
   * send it.  `offer` is what `createOffer` yields (None: it failed).
   */
  function OfferChain(offer: Option<Payload>, setLocalOk: bool): (c: Chain)
    ensures c.send.Some? <==> offer.Some? && setLocalOk
    ensures c.send.Some? ==> c.send == offer
    ensures offer.None? ==> c.steps == [CreateOffer]
    ensures offer.Some? ==> c.steps == [CreateOffer, SetLocal(offer.value)]
  {
    if offer.None? then Chain([CreateOffer], None)
    else Chain([CreateOffer, SetLocal(offer.value)], if setLocalOk then offer else None)
  }

  /**
   * `createSDPAnswer`: set the remote description, create the answer, set it
   * as local description, send it; strictly in that order, and a failure
   * stops the chain before anything is sent.
   */
  function AnswerChain(remoteSdp: Option<Payload>, setRemoteOk: bool, answer: Option<Payload>, setLocalOk: bool): (c: Chain)
    ensures c.send.Some? <==> setRemoteOk && answer.Some? && setLocalOk
    ensures c.send.Some? ==> c.send == answer
    ensures 1 <= |c.steps| <= 3 && c.steps[0] == SetRemote(remoteSdp)
    ensures |c.steps| >= 2 <==> setRemoteOk
    ensures |c.steps| >= 2 ==> c.steps[1] == CreateAnswer
    ensures |c.steps| == 3 <==> setRemoteOk && answer.Some?
    ensures |c.steps| == 3 ==> c.steps[2] == SetLocal(answer.value)
  {
    if !setRemoteOk then Chain([SetRemote(remoteSdp)], None)
    else if answer.None? then Chain([SetRemote(remoteSdp), CreateAnswer], None)
    else Chain([SetRemote(remoteSdp), CreateAnswer, SetLocal(answer.value)], if setLocalOk then answer else None)
  }

  /**
   * `pc.onicecandidate`: nothing for the null candidate that ends gathering;
   * otherwise one `icecandidate` envelope to the remote peer.
   */
  function IceCandidateMessage(localId: string, remotePeer: string, candidate: Option<Payload>): (r: Option<Message>)
    ensures r.Some? <==> candidate.Some?
    ensures r.Some? ==> WellFormed(r.value)
    ensures r.Some? ==> r.value.msgType == Some("icecandidate") && r.value.from == Some(localId)
    ensures r.Some? ==> r.value.to == Some(Node(remotePeer)) && r.value.ttl == Some(3)
    ensures r.Some? ==> r.value.forwardBy == Some([]) && r.value.data == candidate && r.value.url == Some("")
  {
    if candidate.None? then None
    else Some(Envelope("icecandidate", localId, Node(remotePeer), 3, []).(url := Some(""), data := candidate))
  }

  class Connection {
    const kind: Kind
    const localId: string
    const remotePeer: string
    var status: Status
    var channel: Option<DataChannel.Channel>
    /** Every envelope this connection has transmitted (published, for the rendezvous). */
    var sent: seq<Message>
    /** Every ICE candidate handed to `addIceCandidate`. */
    var candidates: seq<Option<Payload>>
    /** The negotiation calls made, in order. */
    var steps: seq<Step>
    var localDescription: Option<Payload>
    var remoteDescription: Option<Payload>

    /** `new PeerConnection(peer, remotePeer)`. */
    constructor (localId: string, remotePeer: string)
      ensures this.kind == Rtc && this.localId == localId && this.remotePeer == remotePeer
      ensures status == Connecting && channel.None?
      ensures sent == [] && candidates == [] && steps == []
      ensures localDescription.None? && remoteDescription.None?
    {
      this.kind := Rtc;
      this.localId := localId;
      this.remotePeer := remotePeer;
      status := Connecting;
      channel := None;
      sent, candidates, steps := [], [], [];
      localDescription, remoteDescription := None, None;
    }

    /** `new Signal(peer, opts)`: the rendezvous slot, whose status is the constant `'open'`. */
    constructor ForSignal(localId: string)
      ensures this.kind == Rendezvous && this.localId == localId && this.remotePeer == ""
      ensures status == Open && channel.None?
      ensures sent == [] && candidates == [] && steps == []
      ensures localDescription.None? && remoteDescription.None?
    {
      this.kind := Rendezvous;
      this.localId := localId;
      this.remotePeer := "";
      status := Open;
      channel := None;
      sent, candidates, steps := [], [], [];
      localDescription, remoteDescription := None, None;
    }

    function State(): ConnState
      reads this`status
    {
      ConnState(kind, status)
    }

    /**
     * `pc.send` (transmits only while open) and `Signal.send` (publishes with
     * ttl 0).  Serialisation is taken to be the identity.
     */
    method Send(m: Message)
      modifies this`sent
      ensures sent == old(sent) + Transmit(State(), m)
    {
      if kind == Rendezvous {
        sent := sent + [Signal.Published(m)];
      } else if status == Open {
        sent := sent + [m];
      }
    }

    /** `createChannel`: the channel `id` is created here, labelled and with handlers. */
    method CreateChannel(id: nat) returns (ch: DataChannel.Channel)
      modifies this`channel
      ensures ch == DataChannel.Create(id, localId, remotePeer) && channel == Some(ch)
    {
      ch := DataChannel.Create(id, localId, remotePeer);
      channel := Some(ch);
    }

    /** `createSDPOffer`; returns the offer its continuation `sendOffer` receives, if it is reached. */
    method CreateSDPOffer(offer: Option<Payload>, setLocalOk: bool) returns (toSend: Option<Payload>)
      modifies this`steps, this`localDescription
      ensures toSend == OfferChain(offer, setLocalOk).send
      ensures steps == old(steps) + OfferChain(offer, setLocalOk).steps
      ensures localDescription == if offer.Some? && setLocalOk then offer else old(localDescription)
    {
      toSend := None;
      steps := steps + [CreateOffer];
      if offer.Some? {
        steps := steps + [SetLocal(offer.value)];
        if setLocalOk {
          localDescription := offer;
          toSend := offer;
        }
      }
    }

    /** `createSDPAnswer`; returns the answer its continuation `sendAnswer` receives, if it is reached. */
    method CreateSDPAnswer(remoteSdp: Option<Payload>, setRemoteOk: bool, answer: Option<Payload>, setLocalOk: bool)
      returns (toSend: Option<Payload>)
      modifies this`steps, this`localDescription, this`remoteDescription
      ensures toSend == AnswerChain(remoteSdp, setRemoteOk, answer, setLocalOk).send
      ensures steps == old(steps) + AnswerChain(remoteSdp, setRemoteOk, answer, setLocalOk).steps
      ensures remoteDescription == if setRemoteOk then remoteSdp else old(remoteDescription)
      ensures localDescription == if setRemoteOk && answer.Some? && setLocalOk then answer else old(localDescription)
    {
      toSend := None;
      steps := steps + [SetRemote(remoteSdp)];
      if setRemoteOk {
        remoteDescription := remoteSdp;
        steps := steps + [CreateAnswer];
        if answer.Some? {
          steps := steps + [SetLocal(answer.value)];
          if setLocalOk {
            localDescription := answer;
            toSend := answer;
          }
        }
      }
    }

    /** `setRemoteDescription` with a continuation that does nothing. */
    method SetRemoteDescription(desc: Option<Payload>, ok: bool)
      modifies this`steps, this`remoteDescription
      ensures steps == old(steps) + [SetRemote(desc)]
      ensures remoteDescription == if ok then desc else old(remoteDescription)
    {
      steps := steps + [SetRemote(desc)];
      if ok {
        remoteDescription := desc;
      }
    }

    /** `addIceCandidate`: the candidate is handed to the session; a failure is only logged. */
    method AddIceCandidate(candidate: Option<Payload>)
      modifies this`candidates
      ensures candidates == old(candidates) + [candidate]
    {
      candidates := candidates + [candidate];
    }

    /** `ondatachannel`: keeps the channel the remote side opened, with the callbacks attached. */
    method OnDataChannel(ch: DataChannel.Channel)
      modifies this`channel
      ensures channel == Some(DataChannel.SetHandlers(ch, localId, remotePeer))
      ensures status == old(status)
    {
      channel := Some(DataChannel.SetHandlers(ch, localId, remotePeer));
    }
  }
}
