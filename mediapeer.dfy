/**
 * extensions/mediaPeer.js: the handlers that share media files over the
 * mesh.  The mixin's own state, the table `files` of tracked media indexed by
 * url, is kept in a class beside the node it extends.
 */
module MediaPeer {
  import opened Wrappers
  import opened Messages
  import opened PeerConnection
  import Util
  import Signal
  import Peer
  import Media

  /** The `ttl` of a part request. */
  const RequestTtl := 3

  /** How many parts `oninfo` asks for. */
  const PartsOnInfo := 3

  /** How many parts `onpart` asks for. */
  const PartsOnPart := 1

  /** The `request-part` envelope `askForNextParts` sends for part `n` to node `remote`. */
  function PartRequest(id: string, url: string, remote: string, n: int): (m: Message)
    ensures WellFormed(m) && m.msgType == Some("request-part") && m.from == Some(id)
    ensures m.to == Some(Node(remote)) && m.url == Some(url) && m.number == Some(n)
    ensures m.ttl == Some(RequestTtl) && m.forwardBy == Some([]) && m.data.None?
  {
    Envelope("request-part", id, Node(remote), RequestTtl, []).(url := Some(url), number := Some(n))
  }

  /** The requests for the chosen `(node, part)` pairs, in order. */
  function Requests(id: string, url: string, picked: seq<(string, int)>): (r: seq<Message>)
    ensures |r| == |picked|
    ensures forall t :: 0 <= t < |r| ==> r[t] == PartRequest(id, url, picked[t].0, picked[t].1)
  {
    if picked == [] then []
    else Requests(id, url, picked[..|picked| - 1]) + [PartRequest(id, url, picked[|picked| - 1].0, picked[|picked| - 1].1)]
  }

  /** The pending entries the requests for `picked` add, in order. */
  function Requested(picked: seq<(string, int)>): seq<Option<int>> {
    if picked == [] then []
    else Requested(picked[..|picked| - 1]) + [Some(picked[|picked| - 1].1)]
  }

  lemma {:induction false} RequestedParts(picked: seq<(string, int)>)
    ensures |Requested(picked)| == |picked|
    ensures forall t :: 0 <= t < |picked| ==> Requested(picked)[t] == Some(picked[t].1)
  {
    if picked != [] {
      RequestedParts(picked[..|picked| - 1]);
    }
  }

  /**
   * The parts `askForNextParts` requests are new: in range, neither stored
   * nor pending, so marking them pending keeps the entries distinct.
   */
  lemma RequestsAreNew(info: Info, pending: seq<Option<int>>, picked: seq<(string, int)>)
    requires |picked| <= |Media.Candidates(info, pending)|
    requires forall t :: 0 <= t < |picked| ==> picked[t].1 == Media.Candidates(info, pending)[t]
    ensures forall t :: 0 <= t < |picked| ==>
      0 <= picked[t].1 < info.parts && !Media.PeerHasPart(info, picked[t].1) && Some(picked[t].1) !in pending
    ensures Media.PendingDistinct(pending) ==> Media.PendingDistinct(pending + Requested(picked))
  {
    var cands := Media.Candidates(info, pending);
    Media.CandidatesSpec(info, pending);
    assert forall t :: 0 <= t < |picked| ==> cands[t] in cands;
    RequestedParts(picked);
  }

  /**
   * A part that is here and no longer pending stays so once the parts
   * `askForNextParts` picked are marked pending: none of them is here.
   */
  lemma ArrivedNotPending(info: Info, pending: seq<Option<int>>, n: int, picked: seq<(string, int)>)
    requires Media.PeerHasPart(info, n) && Some(n) !in pending
    requires forall t :: 0 <= t < |picked| ==> !Media.PeerHasPart(info, picked[t].1)
    ensures Some(n) !in pending + Requested(picked)
  {
    RequestedParts(picked);
  }

  /** The `request-info` envelope `onconnected` sends for the media at `url`; it carries no ttl. */
  function InfoRequest(id: string, remote: string, url: string): (m: Message)
    ensures m.msgType == Some("request-info") && m.from == Some(id) && m.to == Some(Node(remote))
    ensures m.url == Some(url) && m.forwardBy == Some([]) && m.ttl.None? && !WellFormed(m)
  {
    Message(Some("request-info"), Some(id), Some(Node(remote)), None, Some([]), Some(url), None, None)
  }

  /** What a connection in state `c` transmits for the info requests for `urls`, one after the other. */
  function InfoRequests(c: ConnState, id: string, remote: string, urls: seq<string>): seq<Message> {
    if urls == [] then []
    else InfoRequests(c, id, remote, urls[..|urls| - 1]) + Transmit(c, InfoRequest(id, remote, urls[|urls| - 1]))
  }

  /** An open neighbour receives one request per url, in order; one that is not open receives none. */
  lemma {:induction false} InfoRequestsOnRtc(c: ConnState, id: string, remote: string, urls: seq<string>)
    requires c.kind == Rtc
    ensures c.status == Status.Open ==> |InfoRequests(c, id, remote, urls)| == |urls|
    ensures c.status == Status.Open ==> forall i :: 0 <= i < |urls| ==>
      InfoRequests(c, id, remote, urls)[i] == InfoRequest(id, remote, urls[i])
    ensures c.status != Status.Open ==> InfoRequests(c, id, remote, urls) == []
  {
    if urls != [] {
      InfoRequestsOnRtc(c, id, remote, urls[..|urls| - 1]);
    }
  }

  /** `new Uint8Array(data)`: each element reduced modulo 256; anything but an array gives an empty one. */
  function ToUint8Array(data: Option<Payload>): (r: seq<int>)
    ensures data.Some? && data.value.Bytes? ==> |r| == |data.value.bytes|
    ensures !(data.Some? && data.value.Bytes?) ==> r == []
    ensures forall i :: 0 <= i < |r| ==> 0 <= r[i] < 256
    ensures forall i :: 0 <= i < |r| && 0 <= data.value.bytes[i] < 256 ==> r[i] == data.value.bytes[i]
  {
    if data.Some? && data.value.Bytes? then
      seq(|data.value.bytes|, i requires 0 <= i < |data.value.bytes| => data.value.bytes[i] % 256)
    else []
  }

  /** What `sendChunks` iterates over: a part's bytes; a meta-data object has no length. */
  function ChunkBytes(v: Media.Value): seq<int> {
    match v
    case ChunkValue(bytes) => bytes
    case InfoValue(_) => []
  }

  /** The loop of `sendChunks`: the chunk copied element by element into a plain array. */
  method CopyChunk(chunk: seq<int>) returns (data: seq<int>)
    ensures |data| == |chunk|
    ensures forall i :: 0 <= i < |chunk| ==> data[i] == chunk[i]
  {
    data := [];
    var i := 0;
    while i < |chunk|
      invariant 0 <= i <= |chunk|
      invariant data == chunk[..i]
    {
      data := data + [chunk[i]];
      i := i + 1;
    }
  }

  /**
   * The new media `addMedia` tracks, with its origin fallback armed.  The
   * peer request `addMedia` issues in between touches none of its state.
   */
  method Track(src: string, autoload: bool, store: Media.Store) returns (media: Media.Media)
    ensures fresh(media) && media.url == src && media.autoload == autoload && media.store == store
    ensures media.info.None? && !media.complete && media.pendingParts == [] && media.fallbackArmed
  {
    media := new Media.Media(src, autoload, store);
    media.StartDownloadTimeout();
  }

  /**
   * What `askForNextParts(howMany)` decides, for meta-data `info` and the
   * pending list `pending` it starts from: it throws exactly on a negative
   * `parts`; otherwise it picks the first `howMany` candidates (all of them
   * when fewer), in ascending order, each with a remote node holding it, and
   * none of them is here or already pending.
   */
  ghost predicate Asked(info: Info, pending: seq<Option<int>>, howMany: nat, thrown: bool, picked: seq<(string, int)>) {
    && (thrown <==> info.parts < 0)
    && (thrown ==> picked == [])
    && |picked| <= |Media.Candidates(info, pending)|
    && (!thrown ==> |picked| == Media.Min(howMany, |Media.Candidates(info, pending)|))
    && (forall t :: 0 <= t < |picked| ==>
          && picked[t].1 == Media.Candidates(info, pending)[t]
          && Media.RemoteHasPart(info, picked[t].0, picked[t].1))
    && (forall t :: 0 <= t < |picked| ==>
          !Media.PeerHasPart(info, picked[t].1) && Some(picked[t].1) !in pending)
  }

  class MediaPeer {
    /** The node the mixin extends. */
    const peer: Peer.Peer
    /** The node's key-value store, shared by its media. */
    const store: Media.Store
    /** `files`: the tracked media, by url. */
    var files: map<string, Media.Media>

    ghost predicate Valid()
      reads this, peer
    {
      && peer.Valid()
      && (forall u :: u in files ==> files[u].url == u && files[u].store == store)
    }

    /** `MediaPeer(parameters)`; the seeding from stored meta-data is not part of this model. */
    constructor (peer: Peer.Peer, store: Media.Store)
      requires peer.Valid()
      ensures Valid() && this.peer == peer && this.store == store && files == map[]
    {
      this.peer := peer;
      this.store := store;
      files := map[];
    }

    /**
     * `addMedia`: a url already tracked changes nothing; otherwise a new
     * media is tracked with its origin fallback armed, after one peer request.
     */
    method AddMedia(src: string, autoload: bool) returns (added: bool)
      requires Valid()
      modifies this`files, peer.connections.Values`sent
      ensures Valid()
      ensures added <==> src !in old(files)
      ensures !added ==> files == old(files)
      ensures added ==> files.Keys == old(files).Keys + {src} && fresh(files[src])
      ensures forall u :: u in old(files) ==> u in files && files[u] == old(files[u])
      ensures added ==> var media := files[src];
        media.info.None? && !media.complete && media.pendingParts == [] && media.fallbackArmed && media.autoload == autoload
      ensures peer.Views() == old(peer.Views())
      ensures forall k :: k in peer.connections ==>
        peer.connections[k].sent == old(peer.connections[k].sent) +
          if added then Peer.Route(old(peer.Views()), Signal.PeerRequest(peer.id))[k] else []
    {
      if src in files {
        return false;
      }
      var _ := peer.RequestPeer();
      var media := Track(src, autoload, store);
      Register(media);
      added := true;
    }

    /** `this.files.set(src, media)` for a media of this peer. */
    method Register(media: Media.Media)
      requires Valid() && media.store == store
      modifies this`files
      ensures Valid() && files == old(files)[media.url := media]
    {
      files := files[media.url := media];
    }

    /**
     * `askForNextParts`: one request per pair `nextPartsToDownload` picks,
     * each part marked pending as it is requested.
     */
    method AskForNextParts(media: Media.Media, howMany: nat) returns (thrown: bool, picked: seq<(string, int)>)
      requires Valid() && media.info.Some?
      modifies media`pendingParts, peer.connections.Values`sent
      ensures Asked(media.info.value, old(media.pendingParts), howMany, thrown, picked)
      ensures media.pendingParts == old(media.pendingParts) + Requested(picked)
      ensures Media.PendingDistinct(old(media.pendingParts)) ==> Media.PendingDistinct(media.pendingParts)
      ensures peer.Views() == old(peer.Views())
      ensures forall k :: k in peer.connections ==>
        peer.connections[k].sent == old(peer.connections[k].sent) + Peer.Fanout(old(peer.Views()), Requests(peer.id, media.url, picked), k)
    {
      thrown, picked := media.NextPartsToDownload(howMany);
      RequestsAreNew(media.info.value, media.pendingParts, picked);
      if !thrown {
        SendRequests(media, picked);
      }
    }

    /** The `forEach` of `askForNextParts`: requests each picked part in turn. */
    method SendRequests(media: Media.Media, picked: seq<(string, int)>)
      requires Valid()
      modifies media`pendingParts, peer.connections.Values`sent
      ensures media.pendingParts == old(media.pendingParts) + Requested(picked)
      ensures peer.Views() == old(peer.Views())
      ensures forall k :: k in peer.connections ==>
        peer.connections[k].sent == old(peer.connections[k].sent) + Peer.Fanout(old(peer.Views()), Requests(peer.id, media.url, picked), k)
    {
      ghost var views := peer.Views();
      ghost var msgs: seq<Message> := [];
      var t := 0;
      while t < |picked|
        modifies media`pendingParts, peer.connections.Values`sent
        invariant 0 <= t <= |picked|
        invariant peer.Views() == views
        invariant msgs == Requests(peer.id, media.url, picked[..t])
        invariant media.pendingParts == old(media.pendingParts) + Requested(picked[..t])
        invariant forall k :: k in peer.connections ==>
          peer.connections[k].sent == old(peer.connections[k].sent) + Peer.Fanout(views, msgs, k)
      {
        var m := PartRequest(peer.id, media.url, picked[t].0, picked[t].1);
        RequestPart(media, picked[t].0, picked[t].1);
        forall k | k in peer.connections
          ensures peer.connections[k].sent == old(peer.connections[k].sent) + Peer.Fanout(views, msgs + [m], k)
        {
          Peer.FanoutSnoc(views, msgs, m, k);
          Util.AppendAssoc(old(peer.connections[k].sent), Peer.Fanout(views, msgs, k), Peer.Route(views, m)[k]);
        }
        msgs := msgs + [m];
        assert picked[..t + 1][..t] == picked[..t];
        t := t + 1;
      }
      assert picked[..t] == picked;
    }

    /** One round of the loop of `askForNextParts`: part `n` is requested from `remote` and marked pending. */
    method RequestPart(media: Media.Media, remote: string, n: int)
      requires Valid()
      modifies media`pendingParts, peer.connections.Values`sent
      ensures media.pendingParts == old(media.pendingParts) + [Some(n)]
      ensures peer.Views() == old(peer.Views())
      ensures forall k :: k in peer.connections ==>
        peer.connections[k].sent == old(peer.connections[k].sent) + Peer.Route(old(peer.Views()), PartRequest(peer.id, media.url, remote, n))[k]
    {
      media.pendingParts := media.pendingParts + [Some(n)];
      var _ := peer.Send(PartRequest(peer.id, media.url, remote, n));
    }

    /** A tracked media is still being downloaded. */
    ghost predicate Incomplete(u: string)
      reads this, files.Values`complete
    {
      u in files && !files[u].complete
    }

    /**
     * `onconnected`: a `request-info` for every incomplete media, straight
     * on the connection to the new neighbour (in the order of `asked`; the
     * table's iteration order is left open).  When that connection is
     * missing the source throws at the first incomplete media, before
     * anything is sent.
     */
    method OnConnected(m: Message) returns (thrown: bool, asked: seq<string>)
      requires Valid() && m.from.Some?
      modifies peer.connections.Values`sent
      ensures thrown <==> m.from.value !in peer.connections && exists u :: Incomplete(u)
      ensures thrown ==> asked == []
      ensures !thrown ==> forall u :: u in asked <==> Incomplete(u)
      ensures forall i, j :: 0 <= i < j < |asked| ==> asked[i] != asked[j]
      ensures forall k :: k in peer.connections && k != m.from.value ==> peer.connections[k].sent == old(peer.connections[k].sent)
      ensures m.from.value in peer.connections ==> var c := peer.connections[m.from.value];
        c.sent == old(c.sent) + InfoRequests(c.State(), peer.id, m.from.value, asked)
    {
      var remote := m.from.value;
      var keys := Util.KeysOf(files);
      if remote in peer.connections {
        var c := peer.connections[remote];
        asked := RequestInfos(c, remote, keys);
        thrown := false;
      } else {
        asked := [];
        thrown := FindIncomplete(keys);
      }
    }

    /** The `forEach` of `onconnected` over the media `keys`, sending on connection `c`. */
    method RequestInfos(c: Connection, remote: string, keys: seq<string>) returns (asked: seq<string>)
      requires Valid() && forall u :: u in files ==> u in keys
      requires forall i, j :: 0 <= i < j < |keys| ==> keys[i] != keys[j]
      modifies c`sent
      ensures forall u :: u in asked <==> Incomplete(u)
      ensures forall i, j :: 0 <= i < j < |asked| ==> asked[i] != asked[j]
      ensures c.sent == old(c.sent) + InfoRequests(c.State(), peer.id, remote, asked)
    {
      asked := [];
      var i := 0;
      while i < |keys|
        invariant 0 <= i <= |keys|
        invariant forall u :: u in asked <==> u in keys[..i] && Incomplete(u)
        invariant forall a, b :: 0 <= a < b < |asked| ==> asked[a] != asked[b]
        invariant c.sent == old(c.sent) + InfoRequests(c.State(), peer.id, remote, asked)
      {
        var u := keys[i];
        assert u !in keys[..i];
        if u in files && !files[u].complete {
          var request := InfoRequest(peer.id, remote, files[u].url);
          c.Send(request);
          assert (asked + [u])[..|asked|] == asked;
          Util.AppendAssoc(old(c.sent), InfoRequests(c.State(), peer.id, remote, asked), Transmit(c.State(), request));
          asked := asked + [u];
        }
        assert keys[..i + 1] == keys[..i] + [u];
        i := i + 1;
      }
      assert keys[..i] == keys;
    }

    /** The `forEach` of `onconnected` without a connection: it throws at the first incomplete media. */
    method FindIncomplete(keys: seq<string>) returns (thrown: bool)
      requires forall u :: u in files ==> u in keys
      ensures thrown <==> exists u :: Incomplete(u)
    {
      var i := 0;
      while i < |keys|
        invariant 0 <= i <= |keys|
        invariant forall t :: 0 <= t < i ==> !Incomplete(keys[t])
      {
        if keys[i] in files && !files[keys[i]].complete {
          assert Incomplete(keys[i]);
          return true;
        }
        i := i + 1;
      }
      thrown := false;
    }

    /** The url of `m` is that of a tracked media. */
    predicate Tracked(m: Message)
      reads this
    {
      m.url.Some? && m.url.value in files
    }

    /** `m` carries meta-data for a tracked media. */
    predicate InfoFor(m: Message)
      reads this
    {
      Tracked(m) && m.data.Some? && m.data.value.InfoData?
    }

    /** The media `m` is about, when it carries meta-data for a tracked one: all that `oninfo` may change. */
    function InfoTarget(m: Message): set<Media.Media>
      reads this
    {
      if InfoFor(m) then {files[m.url.value]} else {}
    }

    /**
     * `oninfo`: the incoming meta-data are merged into those of the media
     * (see `Media.RemoteMerge`) and stored; the origin fallback is cancelled
     * when the stored object lists a part available at the sender; then up
     * to three parts are requested.  A message for an untracked url, or
     * whose data are not meta-data, makes the source throw.
     */
    method OnInfo(m: Message) returns (thrown: bool, stored: Option<Info>, picked: seq<(string, int)>)
      requires Valid() && m.from.Some?
      modifies InfoTarget(m)`info, InfoTarget(m)`fallbackArmed, InfoTarget(m)`pendingParts, store, peer.connections.Values`sent
      ensures !(InfoFor(m)) ==>
        thrown && stored.None? && picked == [] && store.items == old(store.items)
      ensures InfoFor(m) ==>
        var media := files[m.url.value];
        var inc := m.data.value.info;
        && stored.Some? && media.info.Some?
        && Media.RemoteMerge(old(media.info), inc, m.from.value, media.info.value, stored.value)
        && store.items == old(store.items)[Media.InfoKey(inc.url) := Media.InfoValue(stored.value)]
        && media.fallbackArmed == (old(media.fallbackArmed) && |stored.value.available| == 0)
        && Asked(media.info.value, old(media.pendingParts), PartsOnInfo, thrown, picked)
        && media.pendingParts == old(media.pendingParts) + Requested(picked)
      ensures peer.Views() == old(peer.Views())
      ensures forall k :: k in peer.connections ==>
        peer.connections[k].sent == old(peer.connections[k].sent) +
          Peer.Fanout(old(peer.Views()), Requests(peer.id, m.url.GetOr(""), picked), k)
    {
      if !(m.url.Some? && m.url.value in files && m.data.Some? && m.data.value.InfoData?) {
        assert Requests(peer.id, m.url.GetOr(""), []) == [];
        return true, None, [];
      }
      var media := files[m.url.value];
      assert media.url == m.url.GetOr("") && media.store == store;
      var sent;
      sent, thrown, picked := LearnInfo(media, m.data.value.info, m.from.value);
      stored := Some(sent);
    }

    /** `oninfo` once the media is found: merge and store, maybe cancel the fallback, ask for parts. */
    method LearnInfo(media: Media.Media, inc: Info, from: string) returns (sent: Info, thrown: bool, picked: seq<(string, int)>)
      requires Valid() && media.store == store
      modifies media`info, media`fallbackArmed, media`pendingParts, store, peer.connections.Values`sent
      ensures media.info.Some? && Media.RemoteMerge(old(media.info), inc, from, media.info.value, sent)
      ensures store.items == old(store.items)[Media.InfoKey(inc.url) := Media.InfoValue(sent)]
      ensures media.fallbackArmed == (old(media.fallbackArmed) && |sent.available| == 0)
      ensures Asked(media.info.value, old(media.pendingParts), PartsOnInfo, thrown, picked)
      ensures media.pendingParts == old(media.pendingParts) + Requested(picked)
      ensures peer.Views() == old(peer.Views())
      ensures forall k :: k in peer.connections ==>
        peer.connections[k].sent == old(peer.connections[k].sent) +
          Peer.Fanout(old(peer.Views()), Requests(peer.id, media.url, picked), k)
    {
      sent := Absorb(media, inc, from);
      thrown, picked := AskForNextParts(media, PartsOnInfo);
    }

    /** The first two steps of `oninfo` on one media: merge and store, then maybe cancel the fallback. */
    method Absorb(media: Media.Media, inc: Info, from: string) returns (sent: Info)
      requires Valid() && media.store == store
      modifies media`info, media`fallbackArmed, store
      ensures media.info.Some? && Media.RemoteMerge(old(media.info), inc, from, media.info.value, sent)
      ensures store.items == old(store.items)[Media.InfoKey(inc.url) := Media.InfoValue(sent)]
      ensures media.fallbackArmed == (old(media.fallbackArmed) && |sent.available| == 0)
      ensures peer.Views() == old(peer.Views())
    {
      sent := media.BuildInfoFromRemote(inc, from);
      if |sent.available| > 0 {
        media.CancelServerDownload();
      }
    }

    /** What `onrequestinfo` sends: the meta-data, or the empty object while there are none. */
    static function Described(info: Option<Info>): Payload {
      if info.Some? then InfoData(info.value) else EmptyInfo
    }

    /**
     * `onrequestinfo`: a tracked media's meta-data go back to the author of
     * the request (its `info` is never undefined, so the second test of the
     * source always passes); nothing is sent for an untracked url.  A request
     * without a sender leaves the reply without a destination, so `send`
     * throws and nothing goes out.  The reply carries no url.
     */
    method OnRequestInfo(m: Message) returns (thrown: bool, reply: Option<Message>)
      requires Valid()
      modifies peer.connections.Values`sent
      ensures thrown <==> Tracked(m) && m.from.None?
      ensures reply.Some? <==> Tracked(m) && m.from.Some?
      ensures reply.Some? ==>
        && reply.value.msgType == Some("info") && reply.value.from == Some(peer.id)
        && reply.value.to == Some(Node(m.from.value))
        && reply.value.data == Some(Described(files[m.url.value].info))
        && reply.value.url.None? && reply.value.number.None?
      ensures peer.Views() == old(peer.Views())
      ensures forall k :: k in peer.connections ==>
        peer.connections[k].sent == old(peer.connections[k].sent) +
          if reply.Some? then Peer.Route(old(peer.Views()), reply.value)[k] else []
    {
      if !(m.url.Some? && m.url.value in files) {
        return false, None;
      }
      var answer := Peer.Answer("info", Described(files[m.url.value].info));
      var ok := peer.RespondTo(m, answer);
      if ok {
        thrown, reply := false, Some(Peer.Reply(m, answer, peer.id, peer.ttl));
      } else {
        Peer.RouteMalformed(peer.Views(), Peer.Reply(m, answer, peer.id, peer.ttl));
        thrown, reply := true, None;
      }
    }

    /**
     * `onrequestpart`: the stored chunk goes back, copied into a plain
     * array, under the requested number.  An untracked url makes the source
     * throw; a missing number or chunk makes `sendChunks` fail on the null
     * it gets, so nothing is sent.  A request without a sender makes
     * `send` throw inside the promise, so nothing is sent then either and
     * the handler itself does not throw.  The reply carries no url.
     */
    method OnRequestPart(m: Message) returns (thrown: bool, reply: Option<Message>)
      requires Valid()
      modifies peer.connections.Values`sent
      ensures thrown <==> !Tracked(m)
      ensures reply.Some? <==> Tracked(m) && m.number.Some? && Media.PartKey(m.url.value, m.number.value) in store.items && m.from.Some?
      ensures reply.Some? ==>
        && reply.value.msgType == Some("part") && reply.value.from == Some(peer.id)
        && reply.value.to == Some(Node(m.from.value))
        && reply.value.number == m.number && reply.value.url.None?
        && reply.value.data == Some(Bytes(ChunkBytes(store.items[Media.PartKey(m.url.value, m.number.value)])))
      ensures peer.Views() == old(peer.Views())
      ensures forall k :: k in peer.connections ==>
        peer.connections[k].sent == old(peer.connections[k].sent) +
          if reply.Some? then Peer.Route(old(peer.Views()), reply.value)[k] else []
    {
      if !(m.url.Some? && m.url.value in files) {
        return true, None;
      }
      thrown := false;
      var media := files[m.url.value];
      if m.number.None? || Media.PartKey(media.url, m.number.value) !in store.items {
        return false, None;
      }
      var chunk := ChunkBytes(store.items[Media.PartKey(media.url, m.number.value)]);
      var data := CopyChunk(chunk);
      assert data == chunk;
      var answer := PartAnswer(m.number, data);
      var ok := peer.RespondTo(m, answer);
      if ok {
        reply := Some(Peer.Reply(m, answer, peer.id, peer.ttl));
      } else {
        Peer.RouteMalformed(peer.Views(), Peer.Reply(m, answer, peer.id, peer.ttl));
        reply := None;
      }
    }

    /** The media `m` is about, when it is tracked: all that `onpart` may change. */
    function PartTarget(m: Message): set<Media.Media>
      reads this
    {
      if Tracked(m) then {files[m.url.value]} else {}
    }

    /**
     * `onpart`: the chunk, turned into bytes, is stored as part `number`
     * (see `Media.Media.StoreChunk`), then one more part is requested.  An
     * untracked url makes the source throw, and so do meta-data not known
     * yet, once the part is no longer pending.  Part `n` is pending no more
     * afterwards, whatever happens.
     */
    method OnPart(m: Message) returns (thrown: bool, picked: seq<(string, int)>)
      requires Valid() && m.number.Some?
      modifies PartTarget(m)`info, PartTarget(m)`complete, PartTarget(m)`pendingParts, store, peer.connections.Values`sent
      ensures !Tracked(m) ==> thrown && picked == [] && store.items == old(store.items)
      ensures Tracked(m) ==>
        var media := files[m.url.value];
        var n := m.number.value;
        && (old(media.info).None? ==>
              && thrown && picked == [] && media.info.None? && media.complete == old(media.complete)
              && store.items == old(store.items))
        && (old(media.info).Some? && Media.PeerHasPart(old(media.info).value, n) ==>
              media.info == old(media.info) && media.complete == old(media.complete) && store.items == old(store.items))
        && (old(media.info).Some? && !Media.PeerHasPart(old(media.info).value, n) ==>
              && media.info == Some(old(media.info).value.(available := old(media.info).value.available + [n]))
              && store.items == old(store.items)[Media.PartKey(media.url, n) := Media.ChunkValue(ToUint8Array(m.data))]
              && media.complete == (old(media.complete) || |media.info.value.available| == media.info.value.parts))
        && (old(media.info).Some? ==>
              Asked(media.info.value, Media.Unpend(old(media.pendingParts), n), PartsOnPart, thrown, picked))
        && media.pendingParts == Media.Unpend(old(media.pendingParts), n) + Requested(picked)
        && (Media.PendingDistinct(old(media.pendingParts)) ==>
              Some(n) !in media.pendingParts && Media.PendingDistinct(media.pendingParts))
      ensures peer.Views() == old(peer.Views())
      ensures forall k :: k in peer.connections ==>
        peer.connections[k].sent == old(peer.connections[k].sent) +
          Peer.Fanout(old(peer.Views()), Requests(peer.id, m.url.GetOr(""), picked), k)
    {
      if !(m.url.Some? && m.url.value in files) {
        return true, [];
      }
      var media := files[m.url.value];
      thrown, picked := ReceivePart(media, m.number.value, ToUint8Array(m.data));
    }

    /** `onpart` once the media is found. */
    method ReceivePart(media: Media.Media, n: int, data: seq<int>) returns (thrown: bool, picked: seq<(string, int)>)
      requires Valid() && media.store == store
      modifies media`info, media`complete, media`pendingParts, store, peer.connections.Values`sent
      ensures old(media.info).None? ==>
        && thrown && picked == [] && media.info.None? && media.complete == old(media.complete)
        && store.items == old(store.items)
      ensures old(media.info).Some? && Media.PeerHasPart(old(media.info).value, n) ==>
        media.info == old(media.info) && media.complete == old(media.complete) && store.items == old(store.items)
      ensures old(media.info).Some? && !Media.PeerHasPart(old(media.info).value, n) ==>
        && media.info == Some(old(media.info).value.(available := old(media.info).value.available + [n]))
        && store.items == old(store.items)[Media.PartKey(media.url, n) := Media.ChunkValue(data)]
        && media.complete == (old(media.complete) || |media.info.value.available| == media.info.value.parts)
      ensures old(media.info).Some? ==>
        Asked(media.info.value, Media.Unpend(old(media.pendingParts), n), PartsOnPart, thrown, picked)
      ensures media.pendingParts == Media.Unpend(old(media.pendingParts), n) + Requested(picked)
      ensures Media.PendingDistinct(old(media.pendingParts)) ==>
        Some(n) !in media.pendingParts && Media.PendingDistinct(media.pendingParts)
      ensures peer.Views() == old(peer.Views())
      ensures forall k :: k in peer.connections ==>
        peer.connections[k].sent == old(peer.connections[k].sent) +
          Peer.Fanout(old(peer.Views()), Requests(peer.id, media.url, picked), k)
    {
      ghost var pending0 := media.pendingParts;
      var failed := StoreChunkHere(media, n, data);
      if Media.PendingDistinct(pending0) {
        Media.UnpendClears(pending0, n);
      }
      if failed {
        assert Requested([]) == [];
        return true, [];
      }
      thrown, picked := AskForNextParts(media, PartsOnPart);
      if Media.PendingDistinct(pending0) {
        ArrivedNotPending(media.info.value, Media.Unpend(pending0, n), n, picked);
      }
    }

    /** `storeChunk` on a media of this peer; the connections are untouched. */
    method StoreChunkHere(media: Media.Media, n: int, data: seq<int>) returns (thrown: bool)
      requires media.store == store
      modifies media`info, media`complete, media`pendingParts, store
      ensures media.pendingParts == Media.Unpend(old(media.pendingParts), n)
      ensures thrown <==> old(media.info).None?
      ensures thrown || Media.PeerHasPart(old(media.info).value, n) ==>
        media.info == old(media.info) && media.complete == old(media.complete) && store.items == old(store.items)
      ensures !thrown && !Media.PeerHasPart(old(media.info).value, n) ==>
        && media.info == Some(old(media.info).value.(available := old(media.info).value.available + [n]))
        && store.items == old(store.items)[Media.PartKey(media.url, n) := Media.ChunkValue(data)]
        && media.complete == (old(media.complete) || |media.info.value.available| == media.info.value.parts)
      ensures !thrown ==> Media.PeerHasPart(media.info.value, n)
      ensures peer.Views() == old(peer.Views())
    {
      thrown := media.StoreChunk(n, data);
    }
  }

  /** The `part` answer of `sendChunks`: the number asked for and the copied bytes, but no url. */
  function PartAnswer(number: Option<int>, data: seq<int>): Message {
    Message(Some("part"), None, None, None, None, None, number, Some(Bytes(data)))
  }

  /**
   * As written, an `info` reply carries no url, so `oninfo` on the node that
   * asked finds no media for it and throws, whatever that node tracks.
   */
  lemma InfoReplyUnmatched(asker: MediaPeer, request: Message, info: Info, id: string, ttl: int)
    ensures !asker.InfoFor(Peer.Reply(request, Peer.Answer("info", InfoData(info)), id, ttl))
  {
  }

  /** As written, a `part` reply carries no url either, so `onpart` on the node that asked throws. */
  lemma PartReplyUnmatched(asker: MediaPeer, request: Message, data: seq<int>, id: string, ttl: int)
    ensures !asker.Tracked(Peer.Reply(request, PartAnswer(request.number, data), id, ttl))
  {
  }

  /** The reply the media handlers evidently mean: `Peer.Reply`, carrying the url of the request. */
  function MediaReply(original: Message, answer: Message, id: string, ttl: int): (r: Message)
    ensures r.url == original.url
    ensures r.(url := answer.url) == Peer.Reply(original, answer, id, ttl)
  {
    Peer.Reply(original, answer, id, ttl).(url := original.url)
  }

  /** With the url copied, the meta-data reach the media the asking node requested them for. */
  lemma MediaReplyMatched(asker: MediaPeer, request: Message, info: Info, id: string, ttl: int)
    requires asker.Tracked(request)
    ensures var r := MediaReply(request, Peer.Answer("info", InfoData(info)), id, ttl);
      asker.InfoFor(r) && r.url == request.url && r.data == Some(InfoData(info))
  {
  }

  /** With the url copied, a part reaches the media it was requested for, under its number. */
  lemma MediaPartReplyMatched(asker: MediaPeer, request: Message, data: seq<int>, id: string, ttl: int)
    requires asker.Tracked(request)
    ensures var r := MediaReply(request, PartAnswer(request.number, data), id, ttl);
      asker.Tracked(r) && r.url == request.url && r.number == request.number && r.data == Some(Bytes(data))
  {
  }
}
