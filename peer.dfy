/**
 * peer.js: a mesh node.  It owns the connection table (with the rendezvous
 * in the reserved slot `"signal"`), the buffer of ICE candidates that arrived
 * before their connection, and the routing of outgoing envelopes.
 *
 * Local delivery (`emit`) appends to the log `emitted`; which listener runs
 * for which type is the business of module MessageEmitter.
 */
module Peer {
  import opened Wrappers
  import opened Messages
  import Signal
  import opened PeerConnection

  /** The key of the rendezvous slot in the connection table. */
  const SignalKey := "signal"

  type Views = map<string, ConnState>

  /** Is the recipient of `m` a neighbour with an open connection? */
  predicate Direct(views: Views, m: Message) {
    m.to.Some? && m.to.value.Node? && m.to.value.id in views && views[m.to.value.id].status == Status.Open
  }

  /** May the fan-out use connection `k`: not the rendezvous, not a relayer of `m`, and open. */
  predicate Eligible(views: Views, m: Message, k: string) {
    k in views && k != SignalKey && k !in Relayers(m) && views[k].status == Status.Open
  }

  /** The fan-out of `m` finds nobody. */
  predicate NoTargets(views: Views, m: Message) {
    forall k :: k in views ==> !Eligible(views, m, k)
  }

  /**
   * What `Peer.send(m)` transmits on each connection of the table: nothing
   * for a malformed envelope; the recipient alone when it is an open
   * neighbour; otherwise every eligible connection, and the rendezvous exactly
   * when there is none.
   */
  function Route(views: Views, m: Message): (r: map<string, seq<Message>>)
    ensures r.Keys == views.Keys
  {
    map k | k in views ::
      if !WellFormed(m) then []
      else if Direct(views, m) then (if k == m.to.value.id then Transmit(views[k], m) else [])
      else if k != SignalKey then (if Eligible(views, m, k) then Transmit(views[k], m) else [])
      else if NoTargets(views, m) then Transmit(views[k], m)
      else []
  }

  /** A malformed envelope goes nowhere. */
  lemma RouteMalformed(views: Views, m: Message)
    requires !WellFormed(m)
    ensures forall k :: k in views ==> Route(views, m)[k] == []
  {
  }

  /** Unicast: an open neighbour as recipient receives the envelope, and nobody else does. */
  lemma RouteDirect(views: Views, m: Message)
    requires WellFormed(m) && Direct(views, m)
    ensures forall k :: k in views ==> (Route(views, m)[k] != [] <==> k == m.to.value.id)
    ensures Route(views, m)[m.to.value.id] == Transmit(views[m.to.value.id], m)
  {
    TransmitOpen(views[m.to.value.id], m);
  }

  /**
   * Fan-out: every eligible connection receives the envelope itself, and no
   * other connection but the rendezvous does, which receives it exactly when
   * nobody is eligible.  In particular no relayer receives it back.
   */
  lemma RouteFanout(views: Views, m: Message)
    requires WellFormed(m) && !Direct(views, m)
    ensures forall k :: k in views && k != SignalKey ==> (Route(views, m)[k] != [] <==> Eligible(views, m, k))
    ensures forall k :: k in views && k != SignalKey && views[k].kind == Rtc && Eligible(views, m, k) ==>
      Route(views, m)[k] == [m]
    ensures forall k :: k in views && k != SignalKey && k in Relayers(m) ==> Route(views, m)[k] == []
    ensures SignalKey in views ==>
      Route(views, m)[SignalKey] == if NoTargets(views, m) then Transmit(views[SignalKey], m) else []
  {
    forall k | k in views && Eligible(views, m, k) {
      TransmitOpen(views[k], m);
    }
  }

  lemma TransmitOpen(c: ConnState, m: Message)
    requires c.status == Status.Open
    ensures Transmit(c, m) != []
    ensures c.kind == Rtc ==> Transmit(c, m) == [m]
  {
  }

  /** What a series of `send`s transmits on connection `k`, one after the other. */
  function Fanout(views: Views, msgs: seq<Message>, k: string): seq<Message>
    requires k in views
  {
    if msgs == [] then []
    else Fanout(views, msgs[..|msgs| - 1], k) + Route(views, msgs[|msgs| - 1])[k]
  }

  lemma FanoutSnoc(views: Views, msgs: seq<Message>, m: Message, k: string)
    requires k in views
    ensures Fanout(views, msgs + [m], k) == Fanout(views, msgs, k) + Route(views, m)[k]
  {
    assert (msgs + [m])[..|msgs|] == msgs;
  }

  /** `forward`: one hop less to live, and the local id appended to the relayers. */
  function Forwarded(m: Message, id: string): (r: Message)
    requires m.ttl.Some? && m.forwardBy.Some?
    ensures r.ttl == Some(m.ttl.value - 1)
    ensures r.forwardBy == Some(m.forwardBy.value + [id])
    ensures r.(ttl := m.ttl, forwardBy := m.forwardBy) == m
    ensures WellFormed(r) <==> WellFormed(m)
  {
    m.(ttl := Some(m.ttl.value - 1), forwardBy := Some(m.forwardBy.value + [id]))
  }

  /**
   * `respondTo`: the caller's `answer` (its type, data, ...) sent back to the
   * author of `original`, from `id`, with a fresh `ttl` and no relayers.
   */
  function Reply(original: Message, answer: Message, id: string, ttl: int): (r: Message)
    ensures r.from == Some(id) && r.ttl == Some(ttl) && r.forwardBy == Some([])
    ensures r.to == if original.from.Some? then Some(Node(original.from.value)) else None
    ensures r.msgType == answer.msgType && r.data == answer.data
    ensures r.url == answer.url && r.number == answer.number
    ensures WellFormed(r) <==> original.from.Some? && answer.msgType.Some?
  {
    answer.(from := Some(id),
            to := if original.from.Some? then Some(Node(original.from.value)) else None,
            ttl := Some(ttl),
            forwardBy := Some([]))
  }

  /** The partial answer `{type, data}` the negotiation handlers pass to `respondTo`. */
  function Answer(msgType: string, data: Payload): Message {
    Message(Some(msgType), None, None, None, None, None, None, Some(data))
  }

  /**
   * Scenario of a chain A - B - C where only A-B and B-C are connected: A's
   * envelope for C fans out to B, B relays it, and it reaches C directly with
   * ttl 2 and B as the only relayer, which C then delivers locally.
   */
  lemma ChainScenario()
    ensures var m := Envelope("test", "A", Node("C"), 3, []);
      var atA := map["signal" := ConnState(Rendezvous, Status.Open), "B" := ConnState(Rtc, Status.Open)];
      && Route(atA, m)["B"] == [m] && Route(atA, m)["signal"] == []
      && !AddressedTo(m, "B") && m.ttl.value > 0
    ensures var m' := Forwarded(Envelope("test", "A", Node("C"), 3, []), "B");
      var atB := map["signal" := ConnState(Rendezvous, Status.Open), "A" := ConnState(Rtc, Status.Open), "C" := ConnState(Rtc, Status.Open)];
      && Route(atB, m')["C"] == [m'] && Route(atB, m')["A"] == [] && Route(atB, m')["signal"] == []
      && AddressedTo(m', "C") && m'.ttl == Some(2) && m'.forwardBy == Some(["B"])
  {
    var m := Envelope("test", "A", Node("C"), 3, []);
    var open := ConnState(Rtc, Status.Open);
    var rendezvous := ConnState(Rendezvous, Status.Open);
    var atA := map["signal" := rendezvous, "B" := open];
    assert !Direct(atA, m) && Eligible(atA, m, "B");
    assert Route(atA, m)["B"] == Transmit(open, m) == [m];
    assert Route(atA, m)["signal"] == [];
    var atB := map["signal" := rendezvous, "A" := open, "C" := open];
    var m' := Forwarded(m, "B");
    assert m'.to == Some(Node("C"));
    assert [] + ["B"] == ["B"];
    assert Route(atB, m')["A"] == [] && Route(atB, m')["signal"] == [];
    assert Direct(atB, m');
    assert Route(atB, m')["C"] == Transmit(open, m') == [m'];
  }

  class Peer {
    const id: string
    /** `Peer.ttl`, the ttl of replies built by `respondTo`, as a constant of this node. */
    const ttl: int
    var connections: map<string, Connection>
    /** ICE candidates received before their connection, by remote id. */
    var icecandidates: map<string, seq<Option<Payload>>>
    /** Every message emitted locally, in order. */
    var emitted: seq<Message>

    /** Distinct keys hold distinct connections; only the reserved slot can hold the rendezvous. */
    ghost predicate Valid()
      reads this
    {
      && (forall a, b :: a in connections && b in connections && a != b ==> connections[a] != connections[b])
      && (forall k :: k in connections && connections[k].kind == Rendezvous ==> k == SignalKey)
    }

    /** The routing view of the connection table. */
    function Views(): Views
      reads this`connections, connections.Values`status
    {
      map k | k in connections :: connections[k].State()
    }

    /** `new Peer(options)`: the rendezvous in its slot, no other connection, no buffered candidate. */
    constructor (id: string, ttl: int)
      ensures Valid() && this.id == id && this.ttl == ttl
      ensures connections.Keys == {SignalKey} && fresh(connections[SignalKey])
      ensures connections[SignalKey].kind == Rendezvous && connections[SignalKey].status == Status.Open
      ensures connections[SignalKey].sent == []
      ensures icecandidates == map[] && emitted == []
    {
      this.id := id;
      this.ttl := ttl;
      var signal := new Connection.ForSignal(id);
      connections := map[SignalKey := signal];
      icecandidates := map[];
      emitted := [];
    }

    /** `emit`, seen from the node: a message without a type throws; any other is delivered. */
    method Emit(m: Message) returns (thrown: bool)
      modifies this`emitted
      ensures thrown <==> m.msgType.None?
      ensures emitted == if thrown then old(emitted) else old(emitted) + [m]
    {
      thrown := m.msgType.None?;
      if !thrown {
        emitted := emitted + [m];
      }
    }

    /** `send`: throws on a malformed envelope; otherwise transmits as `Route` says. */
    method Send(m: Message) returns (ok: bool)
      requires Valid()
      modifies connections.Values`sent
      ensures ok == WellFormed(m)
      ensures Views() == old(Views())
      ensures forall k :: k in connections ==>
        connections[k].sent == old(connections[k].sent) + Route(old(Views()), m)[k]
    {
      ok := WellFormed(m);
      if !ok {
        return;
      }
      var to := m.to.value;
      if to.Node? && to.id in connections && connections[to.id].status == Status.Open {
        assert Direct(Views(), m);
        connections[to.id].Send(m);
      } else {
        FanOut(m);
      }
    }

    /** The branch of `send` for a recipient that is not an open neighbour. */
    method FanOut(m: Message)
      requires Valid() && WellFormed(m) && !Direct(Views(), m)
      modifies connections.Values`sent
      ensures forall k :: k in connections ==>
        connections[k].sent == old(connections[k].sent) + Route(old(Views()), m)[k]
    {
      ghost var views := Views();
      var targets := Spread(m, views);
      if targets == 0 && SignalKey in connections {
        connections[SignalKey].Send(m);
      }
    }

    /** The loop of the fan-out: `m` goes on every eligible connection; the result counts them. */
    method Spread(m: Message, ghost views: Views) returns (targets: nat)
      requires Valid() && WellFormed(m) && views == Views()
      modifies connections.Values`sent
      ensures targets == 0 <==> NoTargets(views, m)
      ensures forall k :: k in connections ==>
        connections[k].sent == old(connections[k].sent) + (if Eligible(views, m, k) then Transmit(views[k], m) else [])
    {
      targets := 0;
      var todo := connections.Keys;
      ghost var done: set<string> := {};
      while todo != {}
        invariant todo + done == connections.Keys && todo !! done
        invariant views == Views()
        invariant forall k :: k in todo ==> connections[k].sent == old(connections[k].sent)
        invariant forall k :: k in done ==>
          connections[k].sent == old(connections[k].sent) + (if Eligible(views, m, k) then Transmit(views[k], m) else [])
        invariant targets == 0 <==> forall k :: k in done ==> !Eligible(views, m, k)
        decreases todo
      {
        var k :| k in todo;
        var hit := Visit(k, m, views);
        if hit {
          targets := targets + 1;
        }
        todo := todo - {k};
        done := done + {k};
      }
    }

    /** One round of the fan-out: `m` goes on the connection in slot `k` exactly when it is eligible. */
    method Visit(k: string, m: Message, ghost views: Views) returns (hit: bool)
      requires Valid() && WellFormed(m) && k in connections && views == Views()
      modifies {connections[k]}`sent
      ensures hit == Eligible(views, m, k)
      ensures connections[k].sent == old(connections[k].sent) + if hit then Transmit(views[k], m) else []
      ensures forall j :: j in connections && j != k ==> connections[j].sent == old(connections[j].sent)
      ensures Views() == old(Views())
    {
      var c := connections[k];
      hit := k != SignalKey && k !in m.forwardBy.value && c.status == Status.Open;
      if hit {
        c.Send(m);
      }
    }

    /** `requestPeer`: broadcasts a peer request (the url the callers pass is dropped). */
    method RequestPeer() returns (ok: bool)
      requires Valid()
      modifies connections.Values`sent
      ensures ok && Views() == old(Views())
      ensures forall k :: k in connections ==>
        connections[k].sent == old(connections[k].sent) + Route(old(Views()), Signal.PeerRequest(id))[k]
    {
      ok := Send(Signal.PeerRequest(id));
    }

    /** `respondTo`: sends `Reply(original, answer, id, ttl)`. */
    method RespondTo(original: Message, answer: Message) returns (ok: bool)
      requires Valid()
      modifies connections.Values`sent
      ensures ok <==> original.from.Some? && answer.msgType.Some?
      ensures Views() == old(Views())
      ensures forall k :: k in connections ==>
        connections[k].sent == old(connections[k].sent) + Route(old(Views()), Reply(original, answer, id, ttl))[k]
    {
      ok := Send(Reply(original, answer, id, ttl));
    }

    /** `forward`: throws when `m` carries no relayer list; otherwise sends `Forwarded(m, id)`. */
    method Forward(m: Message) returns (ok: bool)
      requires Valid() && m.ttl.Some?
      modifies connections.Values`sent
      ensures ok <==> WellFormed(m)
      ensures Views() == old(Views())
      ensures m.forwardBy.None? ==> forall k :: k in connections ==> connections[k].sent == old(connections[k].sent)
      ensures m.forwardBy.Some? ==> forall k :: k in connections ==>
        connections[k].sent == old(connections[k].sent) + Route(old(Views()), Forwarded(m, id))[k]
    {
      if m.forwardBy.None? {
        ok := false;
        return;
      }
      ok := Send(Forwarded(m, id));
    }

    /**
     * `onanswer`: hands the remote description to the connection of the
     * sender.  Its status is left as it is: only the channel opening makes a
     * connection open.  Without a connection the source throws, and so it
     * does for a sender named like the rendezvous slot, whose `Signal` object
     * has no `setRemoteDescription`.
     */
    method OnAnswer(m: Message, setRemoteOk: bool) returns (thrown: bool)
      requires m.from.Some?
      modifies connections.Values`steps, connections.Values`remoteDescription
      ensures thrown <==> m.from.value !in connections || connections[m.from.value].kind == Rendezvous
      ensures forall k :: k in connections ==> connections[k].status == old(connections[k].status)
      ensures thrown ==> forall k :: k in connections ==>
        connections[k].steps == old(connections[k].steps) && connections[k].remoteDescription == old(connections[k].remoteDescription)
      ensures !thrown ==> connections[m.from.value].steps == old(connections[m.from.value].steps) + [SetRemote(m.data)]
      ensures !thrown ==> connections[m.from.value].remoteDescription ==
                            if setRemoteOk then m.data else old(connections[m.from.value].remoteDescription)
    {
      var from := m.from.value;
      thrown := from !in connections || connections[from].kind == Rendezvous;
      if !thrown {
        connections[from].SetRemoteDescription(m.data, setRemoteOk);
      }
    }

    /**
     * `onicecandidate`: a candidate for a known sender goes to its connection;
     * otherwise it is buffered under the sender.  Each candidate is a freshly
     * built object, so the buffer never merges two of them.  A sender named
     * like the rendezvous slot makes the source throw, as its `Signal` object
     * has no `addIceCandidate`.
     */
    method OnIceCandidate(m: Message) returns (thrown: bool)
      requires m.from.Some?
      modifies this`icecandidates, connections.Values`candidates
      ensures thrown <==> m.from.value in connections && connections[m.from.value].kind == Rendezvous
      ensures thrown ==> icecandidates == old(icecandidates)
      ensures thrown ==> forall k :: k in connections ==> connections[k].candidates == old(connections[k].candidates)
      ensures m.from.value !in connections ==>
        icecandidates == old(icecandidates)[m.from.value :=
          (if m.from.value in old(icecandidates) then old(icecandidates[m.from.value]) else []) + [m.data]]
      ensures m.from.value !in connections ==>
        forall k :: k in connections ==> connections[k].candidates == old(connections[k].candidates)
      ensures m.from.value in connections ==> icecandidates == old(icecandidates)
      ensures !thrown && m.from.value in connections ==>
        connections[m.from.value].candidates == old(connections[m.from.value].candidates) + [m.data]
    {
      var from := m.from.value;
      thrown := from in connections && connections[from].kind == Rendezvous;
      if from !in connections {
        var buffered := if from in icecandidates then icecandidates[from] else [];
        icecandidates := icecandidates[from := buffered + [m.data]];
      } else if !thrown {
        connections[from].AddIceCandidate(m.data);
      }
    }

    /**
     * `onoffer`: a new connection to the sender replaces whatever was there,
     * answers the offer, and receives every candidate buffered for the
     * sender, whose buffer entry is dropped.  The answer goes out once the
     * negotiation's continuations run, after the connection is stored.
     */
    method OnOffer(m: Message, setRemoteOk: bool, answer: Option<Payload>, setLocalOk: bool)
      returns (reply: Option<Message>)
      requires Valid() && m.from.Some?
      modifies this, connections.Values`sent
      ensures Valid() && emitted == old(emitted)
      ensures connections.Keys == old(connections).Keys + {m.from.value}
      ensures forall k :: k in old(connections) && k != m.from.value ==> connections[k] == old(connections[k])
      ensures fresh(connections[m.from.value])
      ensures connections[m.from.value].kind == Rtc && connections[m.from.value].remotePeer == m.from.value
      ensures connections[m.from.value].localId == id && connections[m.from.value].status == Status.Connecting
      ensures connections[m.from.value].candidates ==
        if m.from.value in old(icecandidates) then old(icecandidates[m.from.value]) else []
      ensures connections[m.from.value].steps == AnswerChain(m.data, setRemoteOk, answer, setLocalOk).steps
      ensures icecandidates == old(icecandidates) - {m.from.value}
      ensures reply == (var c := AnswerChain(m.data, setRemoteOk, answer, setLocalOk);
        if c.send.Some? then Some(Reply(m, Answer("answer", c.send.value), id, ttl)) else None)
      ensures forall k :: k in old(connections) && k != m.from.value ==>
        connections[k].sent == old(connections[k].sent) + (if reply.Some? then Route(Views(), reply.value)[k] else [])
      ensures connections[m.from.value].sent == if reply.Some? then Route(Views(), reply.value)[m.from.value] else []
    {
      var remote := m.from.value;
      var pc, toSend := Answering(remote, m.data, setRemoteOk, answer, setLocalOk);
      reply := Install(m, pc, "answer", toSend);
    }

    /** The connection `onoffer` builds: it answers the offer and takes over the buffered candidates. */
    method Answering(remote: string, remoteSdp: Option<Payload>, setRemoteOk: bool, answer: Option<Payload>,
                     setLocalOk: bool)
      returns (pc: Connection, toSend: Option<Payload>)
      modifies this`icecandidates
      ensures fresh(pc) && pc.kind == Rtc && pc.localId == id && pc.remotePeer == remote
      ensures pc.status == Status.Connecting && pc.sent == []
      ensures pc.candidates == if remote in old(icecandidates) then old(icecandidates[remote]) else []
      ensures pc.steps == AnswerChain(remoteSdp, setRemoteOk, answer, setLocalOk).steps
      ensures toSend == AnswerChain(remoteSdp, setRemoteOk, answer, setLocalOk).send
      ensures icecandidates == old(icecandidates) - {remote}
    {
      pc := new Connection(id, remote);
      toSend := pc.CreateSDPAnswer(remoteSdp, setRemoteOk, answer, setLocalOk);
      if remote in icecandidates {
        var buffered := icecandidates[remote];
        var i := 0;
        while i < |buffered|
          modifies pc`candidates
          invariant 0 <= i <= |buffered|
          invariant pc.candidates == buffered[..i]
        {
          pc.AddIceCandidate(buffered[i]);
          i := i + 1;
        }
        icecandidates := icecandidates - {remote};
      }
    }

    /** The continuation of a negotiation: `respondTo` with the description it reached, if any. */
    method RespondWith(original: Message, msgType: string, desc: Option<Payload>) returns (reply: Option<Message>)
      requires Valid()
      modifies connections.Values`sent
      ensures reply == if desc.Some? then Some(Reply(original, Answer(msgType, desc.value), id, ttl)) else None
      ensures forall k :: k in connections ==>
        connections[k].sent == old(connections[k].sent) + (if reply.Some? then Route(Views(), reply.value)[k] else [])
    {
      reply := None;
      if desc.Some? {
        reply := Some(Reply(original, Answer(msgType, desc.value), id, ttl));
        var _ := RespondTo(original, Answer(msgType, desc.value));
      }
    }

    /** Stores a new connection under `remote`, replacing the entry there. */
    method Store(remote: string, pc: Connection)
      requires Valid() && pc.kind == Rtc
      requires forall k :: k in connections ==> connections[k] != pc
      modifies this`connections
      ensures Valid() && connections == old(connections)[remote := pc]
    {
      connections := connections[remote := pc];
    }

    /**
     * `onrequestpeer`: nothing when a connection to the sender exists and is
     * not closed.  Otherwise a new connection to the sender, with a locally
     * created channel, makes an offer and is stored; no buffered candidate is
     * handed to it.
     */
    method OnRequestPeer(m: Message, channelId: nat, offer: Option<Payload>, setLocalOk: bool)
      returns (created: bool, reply: Option<Message>)
      requires Valid() && m.from.Some?
      modifies this, connections.Values`sent
      ensures Valid() && emitted == old(emitted) && icecandidates == old(icecandidates)
      ensures created <==> !(m.from.value in old(connections) && old(connections[m.from.value].status) != Status.Close)
      ensures !created ==> connections == old(connections) && reply.None?
      ensures created ==> connections.Keys == old(connections).Keys + {m.from.value}
      ensures forall k :: k in old(connections) && k != m.from.value ==> connections[k] == old(connections[k])
      ensures created ==> fresh(connections[m.from.value])
      ensures created ==> connections[m.from.value].kind == Rtc && connections[m.from.value].remotePeer == m.from.value
      ensures created ==> connections[m.from.value].status == Status.Connecting
      ensures created ==> connections[m.from.value].channel == Some(DataChannel.Create(channelId, id, m.from.value))
      ensures created ==> connections[m.from.value].candidates == []
      ensures created ==> connections[m.from.value].steps == OfferChain(offer, setLocalOk).steps
      ensures created ==> reply == (var c := OfferChain(offer, setLocalOk);
        if c.send.Some? then Some(Reply(m, Answer("offer", c.send.value), id, ttl)) else None)
      ensures created ==> forall k :: k in old(connections) && k != m.from.value ==>
        connections[k].sent == old(connections[k].sent) + (if reply.Some? then Route(Views(), reply.value)[k] else [])
      ensures created ==>
        connections[m.from.value].sent == if reply.Some? then Route(Views(), reply.value)[m.from.value] else []
      ensures !created ==> forall k :: k in connections ==> connections[k].sent == old(connections[k].sent)
    {
      var remote := m.from.value;
      reply := None;
      if remote in connections && connections[remote].status != Status.Close {
        created := false;
        return;
      }
      created := true;
      var pc, toSend := Offering(remote, channelId, offer, setLocalOk);
      reply := Install(m, pc, "offer", toSend);
    }

    /** The connection `onrequestpeer` builds: it opens channel `channelId` and makes an offer. */
    method Offering(remote: string, channelId: nat, offer: Option<Payload>, setLocalOk: bool)
      returns (pc: Connection, toSend: Option<Payload>)
      ensures fresh(pc) && pc.kind == Rtc && pc.localId == id && pc.remotePeer == remote
      ensures pc.status == Status.Connecting && pc.sent == [] && pc.candidates == []
      ensures pc.channel == Some(DataChannel.Create(channelId, id, remote))
      ensures pc.steps == OfferChain(offer, setLocalOk).steps
      ensures toSend == OfferChain(offer, setLocalOk).send
    {
      pc := new Connection(id, remote);
      var _ := pc.CreateChannel(channelId);
      toSend := pc.CreateSDPOffer(offer, setLocalOk);
    }

    /**
     * The end of `onoffer` and `onrequestpeer`: the new connection is stored
     * under the sender, then the description, if the negotiation produced
     * one, goes back to the sender.
     */
    method Install(original: Message, pc: Connection, msgType: string, desc: Option<Payload>)
      returns (reply: Option<Message>)
      requires Valid() && original.from.Some? && pc.kind == Rtc && pc.sent == []
      requires forall k :: k in connections ==> connections[k] != pc
      modifies this`connections, connections.Values`sent, pc`sent
      ensures Valid() && connections == old(connections)[original.from.value := pc]
      ensures reply == if desc.Some? then Some(Reply(original, Answer(msgType, desc.value), id, ttl)) else None
      ensures forall k :: k in old(connections) && k != original.from.value ==>
        connections[k].sent == old(connections[k].sent) + (if reply.Some? then Route(Views(), reply.value)[k] else [])
      ensures pc.sent == if reply.Some? then Route(Views(), reply.value)[original.from.value] else []
    {
      Store(original.from.value, pc);
      reply := RespondWith(original, msgType, desc);
    }
  }
}
