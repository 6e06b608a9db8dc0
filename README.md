# Paradone core, modelled in Dafny

Paradone is a browser-side peer-to-peer overlay. Each viewer of a page
becomes a node of a mesh:

- A rendezvous (signalling) channel brings neighbours together.
- WebRTC data channels connect the neighbours.
- Envelopes are routed over the mesh with a time-to-live and a list of
  the nodes that relayed them.
- On top of the mesh, media files are cut into parts, and nodes swap
  those parts with each other so that fewer of them fall back to the
  origin server.

The model covers the node's core:

- the typed listener table (`MessageEmitter`);
- the router and the connection lifecycle (`Peer`, `PeerConnection`,
  `DataChannel`, `Signal`, `ChannelEvents`);
- the Fisher–Yates shuffle (`Util`);
- the media bookkeeping: parts, meta-data, the merge of remote
  availability tables and the choice of the next parts (`Media`);
- the swarm protocol handlers (`MediaPeer`).

Every datatype and module is named after the entity of the program it
models. The objects that the program updates in place are classes:

- the emitter;
- the node and its connection table;
- a connection;
- a media file and the node's key-value store;
- the media node.

The handlers are methods on these classes. The pure parts are specification
functions, and lemmas about those functions:

- the routing decision `Peer.Route`;
- the negotiation chains `PeerConnection.OfferChain` and `AnswerChain`;
- `Media.Candidates`;
- the meta-data merge `Media.RemoteMerge`.

The methods are proved against these functions.

Foreign calls take their outcome as an explicit parameter:

- the asynchronous WebRTC calls and their success or failure;
- the ICE candidates that arrive;
- the random choices of the shuffle.

A continuation runs right after the handler's own body, as it does once
the promise settles.

`respondTo` keeps every field of the answer and sets only `from`, `to`,
`ttl` and `forwardBy`. The answers that `onrequestinfo` and
`onrequestpart` build carry no `url`, so neither do their replies (a
`part` reply does carry its `number`). As a consequence, a receiver's
`oninfo` and `onpart` look up `files.get(undefined)` and throw. The model keeps this:
in `MediaPeer.MediaPeer.OnInfo` and `OnPart`, an untracked url means
`thrown`. "## Findings" records this as a defect, with a corrected reply.

## Model

| member | source | states |
|---|---|---|
| MessageEmitter.Added | src/messageEmitter.js:43-50 | `on` creates the type's set if needed and adds the listener; every other type is untouched |
| MessageEmitter.Removed | src/messageEmitter.js:77-82 | `removeListener` takes out only that listener under only that type; an absent listener leaves the table as it was |
| MessageEmitter.AfterEmit | src/messageEmitter.js:106-115 | after an emit the `once` wrappers of that type are gone, and nothing else changes |
| MessageEmitter.Callees | src/messageEmitter.js:60-68 | invoking a set of listeners calls each plain function and the inner function of each `once` wrapper, and nothing else |
| MessageEmitter.TotalWithout | src/messageEmitter.js:120-126 | the listener count is the same whichever type is summed first |
| MessageEmitter.TotalUpdate | src/messageEmitter.js:120-126 | replacing one type's set changes the count by the difference in size |
| MessageEmitter.AddedCount | src/messageEmitter.js:43-50 | `on` raises the count by one, or by nothing for a listener already registered |
| MessageEmitter.AddedTwiceCount | src/messageEmitter.js:43-50 | registering the same listener twice under one type is the same as registering it once |
| MessageEmitter.RemovedCount | src/messageEmitter.js:77-82 | `removeListener` lowers the count by one exactly when the listener was there |
| MessageEmitter.EmitCount | src/messageEmitter.js:106-115 | an emit lowers the count by exactly the number of the type's `once` wrappers |
| MessageEmitter.OnceThenEmit | src/messageEmitter.js:60-68 | a fresh `once` listener is called by the next emit of its type, and the count then drops by one |
| MessageEmitter.RemoveAllAsWritten | src/messageEmitter.js:90-99 | as written: no type empties the table, a registered type keeps its listeners, and an unregistered type throws |
| MessageEmitter.Cleared | src/messageEmitter.js:84-99 | as documented: every listener of the type goes, and no other type changes |
| MessageEmitter.RemoveAllKeepsListeners | src/messageEmitter.js:94 | a concrete table whose listener survives `removeAllListeners` of its own type, and an empty table whose lookup throws |
| MessageEmitter.ClearedCount | src/messageEmitter.js:84-99 | the corrected removal lowers the count by exactly the number of the type's listeners |
| MessageEmitter.Emitter.constructor | src/messageEmitter.js:32-34 | a new emitter has an empty table |
| MessageEmitter.Emitter.On | src/messageEmitter.js:43-50 | the table becomes `Added(old, t, l)` |
| MessageEmitter.Emitter.Once | src/messageEmitter.js:60-68 | registers a wrapper that is new to the type |
| MessageEmitter.Emitter.RemoveListener | src/messageEmitter.js:77-82 | the table becomes `Removed(old, t, l)` |
| MessageEmitter.Emitter.RemoveAllListeners | src/messageEmitter.js:90-99 | as written: throws exactly for an unregistered type; otherwise the result of `RemoveAllAsWritten` |
| MessageEmitter.Emitter.ClearListeners | src/messageEmitter.js:84-99 | the corrected removal: the table becomes `Cleared(old, t)` |
| MessageEmitter.Emitter.Emit | src/messageEmitter.js:106-115 | a message without a type throws; otherwise exactly the type's listeners run, and then its `once` wrappers are gone |
| MessageEmitter.Emitter.ListenerCount | src/messageEmitter.js:120-126 | the sum of the set sizes over every type |
| Util.Swap | src/util.js:43-52 | exchanges two positions and keeps all the others |
| Util.ApplySwapsSnoc | src/util.js:43-52 | one more loop round applies one more swap at the next position down |
| Util.SwapPermutes | src/util.js:43-52 | a swap keeps the multiset of elements |
| Util.ShuffledPermutes | src/util.js:43-52 | any sequence of valid swaps keeps the multiset of elements |
| Util.ShortIsUnchanged | src/util.js:43-52 | arrays of length 0 or 1 are left as they are |
| Util.ShuffleArray | src/util.js:43-52 | shuffles in place and returns the same array: the result is the Fisher–Yates product of the random choices, a permutation of the input |
| Util.KeysOf | src/media.js:201-211 | the keys of a map, each exactly once |
| Messages.WellFormed | src/peer.js:110-118 | `send`'s validation: type, sender, destination, ttl and relay list are all present |
| Messages.AddressedTo | src/dataChannel.js:81 | a message is for a node when it is broadcast (`to` is -1) or names that node |
| Messages.Envelope | src/peer.js:110-118 | an envelope with type, sender, destination, ttl and relay list passes `send`'s validation |
| Signal.StrLessIrreflexive | src/signal.js:77-81 | no id is smaller than itself |
| Signal.StrLessTrichotomy | src/signal.js:77-81 | of two different ids, exactly one is smaller |
| Signal.Published | src/signal.js:60-64 | the rendezvous publishes the envelope with ttl 0 and every other field unchanged |
| Signal.StaleRequest | src/signal.js:77-78 | a peer request whose author sorts below the node |
| Signal.Accepts | src/signal.js:74-87 | a stale peer request is dropped; otherwise a message is accepted exactly when it comes from another node and is addressed to this one |
| Signal.PeerRequest | src/peer.js:154-162 | a peer request is a broadcast from its sender that passes validation |
| Signal.TieBreak | src/signal.js:77-81 | of two nodes that both ask for peers, exactly one accepts the other's request |
| Signal.OwnRequestIgnored | src/signal.js:74-87 | a node never accepts its own peer request |
| DataChannel.Label | src/dataChannel.js:46-50 | the label is `localId + '-' + remotePeer` |
| DataChannel.SetHandlers | src/dataChannel.js:62-69 | attaches the callbacks and changes nothing else |
| DataChannel.Create | src/dataChannel.js:46-50 | a new channel with the given id and the label, still connecting, with its callbacks |
| DataChannel.LabelsDiffer | src/dataChannel.js:46-50 | one node's channels to different peers have different labels |
| PeerConnection.Transmit | src/peerConnection.js:123-127 | the rendezvous publishes a ttl-0 copy; an RTC connection transmits the envelope only while open |
| PeerConnection.OfferChain | src/peerConnection.js:85-92 | the offer is sent exactly when it was created and set as local description |
| PeerConnection.AnswerChain | src/peerConnection.js:102-115 | the calls run in the order remote description, answer, local description; the answer is sent exactly when all three succeed |
| PeerConnection.IceCandidateMessage | src/peerConnection.js:139-152 | nothing for the end-of-gathering null candidate; otherwise one valid `icecandidate` envelope to the remote peer with ttl 3 |
| PeerConnection.Connection.constructor | src/peerConnection.js:56-64 | a fresh RTC connection, connecting, that has sent nothing |
| PeerConnection.Connection.ForSignal | src/signal.js:32-42 | the rendezvous slot, whose status is the constant open |
| PeerConnection.Connection.Send | src/peerConnection.js:123-127 | the connection's transmissions grow by `Transmit` |
| PeerConnection.Connection.CreateChannel | src/peerConnection.js:73-76 | the connection keeps the channel it created |
| PeerConnection.Connection.CreateSDPOffer | src/peerConnection.js:85-92 | calls and sent offer as `OfferChain`; the local description is set only on success |
| PeerConnection.Connection.CreateSDPAnswer | src/peerConnection.js:102-115 | calls and sent answer as `AnswerChain`; each description is set only when its call succeeded |
| PeerConnection.Connection.SetRemoteDescription | src/peer.js:198-216 | records the call; the description changes only on success |
| PeerConnection.Connection.AddIceCandidate | src/peer.js:225-243 | the candidate is handed to the session |
| PeerConnection.Connection.OnDataChannel | src/peerConnection.js:162-168 | keeps the remote side's channel with the callbacks attached; the status does not change |
| Peer.Direct | src/peer.js:127 | the destination is a neighbour whose connection is open |
| Peer.Eligible | src/peer.js:136-138 | the fan-out uses a connection that is not the rendezvous, has not relayed the message, and is open |
| Peer.Route | src/peer.js:108-149 | what one `send` transmits on each connection; it never adds or drops a connection |
| Peer.RouteMalformed | src/peer.js:110-118 | an envelope missing a required field is sent nowhere |
| Peer.RouteDirect | src/peer.js:127-129 | a destination that is a neighbour gets the envelope on its connection alone |
| Peer.RouteFanout | src/peer.js:131-147 | otherwise every open neighbour that has not relayed it gets a copy; the rendezvous gets it only when nobody else does |
| Peer.TransmitOpen | src/peerConnection.js:123-127 | an open connection transmits |
| Peer.Fanout | src/peer.js:108-149 | what a series of `send`s transmits on one connection: the routes of the envelopes, in order |
| Peer.FanoutSnoc | src/peer.js:108-149 | sending one more envelope appends its route |
| Peer.Forwarded | src/peer.js:182-186 | forwarding lowers the ttl by one and appends the node to the relay list; nothing else changes |
| Peer.Reply | src/peer.js:169-175 | a reply goes back to the sender of the original with a fresh relay list and the ttl passed in, which `respondTo` reads from `Peer.ttl`; every other field (type, data, url, number) is the answer's |
| Peer.ChainScenario | test/peer.test.js:264-279 | on the chain A–B–C, an envelope from A to C goes to B, and B forwards it to C alone with ttl 2 and one relay |
| Peer.Peer.constructor | src/peer.js:61-95 | a node starts with only the rendezvous slot, open, and nothing buffered or emitted |
| Peer.Peer.Views | src/peer.js:127-141 | what routing reads of the connection table: each connection's kind and status |
| Peer.Peer.Emit | src/messageEmitter.js:106-115 | a message with a type is delivered; one without a type throws |
| Peer.Peer.Send | src/peer.js:108-149 | returns whether the envelope is valid; each connection's transmissions grow by `Route` |
| Peer.Peer.FanOut | src/peer.js:131-147 | each connection's transmissions grow by the fan-out branch of `Route` |
| Peer.Peer.Spread | src/peer.js:131-142 | sends to every eligible neighbour and reports whether there were none |
| Peer.Peer.Visit | src/peer.js:136-141 | one round of the fan-out loop: the neighbour gets the envelope exactly when it is eligible |
| Peer.Peer.RequestPeer | src/peer.js:154-162 | broadcasts one peer request with ttl 3, whatever `Peer.ttl` is |
| Peer.Peer.RespondTo | src/peer.js:169-175 | sends `Reply(original, answer)`; valid exactly when the original has a sender and the answer a type |
| Peer.Peer.Forward | src/peer.js:182-186 | sends `Forwarded(m)`; nothing is sent when the relay list is missing |
| Peer.Peer.OnAnswer | src/peer.js:198-216 | an unknown sender throws, and so does a sender named `signal`, whose rendezvous object has no `setRemoteDescription`; nothing changes then; otherwise that connection's remote description is set, and no status changes |
| Peer.Peer.OnIceCandidate | src/peer.js:225-243 | a candidate for an unknown connection is buffered under its sender; a sender named `signal` throws, as the rendezvous object has no `addIceCandidate`, and nothing changes; otherwise the candidate is handed to that connection |
| Peer.Peer.OnOffer | src/peer.js:252-283 | installs a fresh connection for the sender with its buffered candidates, runs `AnswerChain`, and sends the answer back through `RespondTo` |
| Peer.Peer.Answering | src/peer.js:252-275 | the fresh connection drains the sender's buffered candidates, and the buffer entry goes |
| Peer.Peer.RespondWith | src/peer.js:272-275 | a description that is reached is sent back as a reply |
| Peer.Peer.Store | src/peer.js:282 | the connection table gains the new connection and stays valid |
| Peer.Peer.OnRequestPeer | src/peer.js:292-311 | a live connection to the sender means nothing happens; otherwise a fresh connection with a new channel runs `OfferChain` and the offer goes back |
| Peer.Peer.Offering | src/peer.js:300-308 | the fresh connection, its channel, and the offer chain |
| Peer.Peer.Install | src/peer.js:292-311 | the table entry for the sender becomes the new connection, and the reply is routed |
| ChannelEvents.Receive | src/dataChannel.js:79-86 | deliver exactly the envelopes addressed to this node; relay the others while their ttl is positive; drop the rest |
| ChannelEvents.RelayBound | src/dataChannel.js:79-86 | along any path, an envelope is relayed at most ttl times |
| ChannelEvents.RelayReachesEnd | src/dataChannel.js:79-86 | along a path of nodes it is not addressed to, shorter than its ttl, it is relayed at every hop |
| ChannelEvents.ChannelEvent | src/dataChannel.js:92-110 | the connected and disconnected events come from the remote peer, with no destination |
| ChannelEvents.OnMessage | src/dataChannel.js:79-86 | delivers by emitting, relays by forwarding, and throws in the same cases as the program |
| ChannelEvents.OnOpen | src/dataChannel.js:92-100 | an open channel makes the connection open and emits `connected`; otherwise nothing changes |
| ChannelEvents.OnClose | src/dataChannel.js:106-110 | the connection closes and `disconnected` is emitted |
| ChannelEvents.PcOnIceCandidate | src/peerConnection.js:139-152 | a candidate is sent through the router as an `icecandidate` envelope; the null one sends nothing |
| ChannelEvents.SignalOnMessage | src/signal.js:74-87 | emits exactly the messages `Accepts` lets through |
| Media.Store.constructor | src/media.js:19 | the store starts empty, as after `localforage.clear()` |
| Media.DigitChar | src/media.js:416 | one decimal digit |
| Media.NatToString | src/media.js:416 | a non-empty string of digits |
| Media.DigitsRoundTrip | src/media.js:416 | the decimal text of a number reads back as that number |
| Media.IntToString | src/media.js:416 | a non-empty text |
| Media.NatToStringInjective | src/media.js:416 | distinct numbers have distinct texts |
| Media.IntToStringSign | src/media.js:416 | a leading minus exactly for negatives |
| Media.IntToStringRoundTrip | src/media.js:416 | the text of a part number reads back, sign and digits, as that number |
| Media.IntToStringInjective | src/media.js:416 | distinct part numbers have distinct texts |
| Media.PartKey | src/media.js:416 | a part is stored under `url + '-part' + n` |
| Media.InfoKey | src/media.js:388 | meta-data are stored under `url + '-info'` |
| Media.PartKeyInjective | src/media.js:416 | distinct parts of one url are stored under distinct keys |
| Media.KeysAreClassified | src/media.js:92-97 | the `-info` test recognises every meta-data key and no part key |
| Media.PeerHasPart | src/media.js:240-242 | part `n` is local exactly when `indexOf` finds it in the available list |
| Media.RemoteHasPart | src/media.js:252-259 | false for an unknown node; otherwise true exactly when `indexOf` finds the part in that node's list |
| Media.Held | src/media.js:201-211 | some known node holds the part, which is when `selectPeer` finds one |
| Media.Wanted | src/media.js:218-230 | the filters of `nextPartsToDownload`: not here, not pending, and held by some node |
| Media.Candidates | src/media.js:213-230 | every wanted part of the media and nothing else, all in range |
| Media.CandidatesBelow | src/media.js:187-232 | the wanted parts below a bound, in increasing order, all of them |
| Media.CandidatesSpec | src/media.js:187-232 | a part is a candidate exactly when it is in range, not here, not pending and held by some node |
| Media.Position | src/media.js:403-406 | `indexOf`: the first position holding the value, or the length (for `-1`) when none does |
| Media.Unpend | src/media.js:403-406 | punches a hole at the first position of the part; nothing else changes |
| Media.UnpendClears | src/media.js:403-406 | with distinct pending parts, the part is no longer pending afterwards |
| Media.Chunk | src/media.js:308-309 | part `i` has `chunkSize` bytes, fewer for the last |
| Media.PartStartInRange | src/media.js:296-315 | every part starts inside the buffer |
| Media.PartCount | src/media.js:297 | `ceil(length / chunkSize)` |
| Media.JoinedPrefix | src/media.js:296-315 | the first parts concatenate to a prefix of the buffer |
| Media.ChunksRebuildBuffer | src/media.js:296-315 | all the parts concatenate to the buffer |
| Media.Lists | src/media.js:345-378 | the lists of a parsed incoming meta-data object |
| Media.PrefixKeeps | src/media.js:359-374 | pushing onto a list keeps what was there |
| Media.MergeInto | src/media.js:359-374 | pushes every part of the source onto the target and nothing else; a pushed part was not on the target before and is pushed once; no other list changes |
| Media.MergeRemote | src/media.js:359-374 | the merge loop only ever collects parts that the incoming object mentions; in the first-info case, every other node's parts reach the sender's entry |
| Media.FirstMergeComplete | src/media.js:345-378 | with the first meta-data, the sender's entry holds every part the sender reported |
| Media.RemoteMerge | src/media.js:345-392 | what `buildInfoFromRemote` leaves: new meta-data adopt the incoming url and sizes with nothing available; otherwise only the remote table changes; the sender's entry is added, no other entry changes, and it lists only parts the incoming meta-data mention (every part the sender reported, on the first meta-data); the stored object is the incoming one, its lists possibly grown |
| Media.MergeInfo | src/media.js:345-378 | `buildInfoFromRemote` satisfies `RemoteMerge` |
| Media.MergeFirst | src/media.js:347-378 | the first meta-data case of `RemoteMerge` |
| Media.MergeAgain | src/media.js:356-378 | the later meta-data case of `RemoteMerge` |
| Media.SelectPeer | src/media.js:201-211 | a node that holds the part, exactly when some node does |
| Media.FirstHolder | src/media.js:204-210 | the first node of the shuffled order that holds the part, or none exactly when no node of it does |
| Media.SameElements | src/util.js:43-52 | a shuffle keeps the set of elements |
| Media.StoredStep | src/media.js:306-313 | storing the next part grows the stored prefix by one |
| Media.UnpendBelow | src/media.js:306-313 | storing parts `0 .. n-1` in turn only punches holes, and only for pending parts below `n` |
| Media.Media.constructor | src/media.js:54-61 | a new media has empty meta-data, is incomplete, and has nothing pending |
| Media.Media.FromInfo | src/media.js:118-123 | a media rebuilt from stored meta-data is complete |
| Media.Media.IsComplete | src/media.js:131-136 | sets the completion flag |
| Media.Media.StartDownloadTimeout | src/media.js:141-147 | arms the fallback timer |
| Media.Media.CancelServerDownload | src/media.js:162-166 | disarms the fallback timer |
| Media.Media.StoreInfo | src/media.js:386-392 | the meta-data go under the `-info` key of its url |
| Media.Media.StoreChunk | src/media.js:400-425 | the part stops being pending; empty meta-data throw; a known part writes nothing; a new one is recorded, stored, and completes the media on the last part |
| Media.Media.BuildInfoFromLocal | src/media.js:321-333 | fresh meta-data, stored at once |
| Media.Media.StoreFileBuffer | src/media.js:296-315 | every part of the buffer is stored under its key and is available; the stored meta-data are the fresh ones; no other key changes |
| Media.Media.StoreNextPart | src/media.js:306-313 | one round of the loop stores a new part |
| Media.Media.BuildInfoFromRemote | src/media.js:345-392 | the meta-data after the merge satisfy `RemoteMerge`, and the incoming object is what is stored |
| Media.Media.NextPartsToDownload | src/media.js:187-232 | the first `howMany` candidates, each paired with a node that holds it; negative part counts throw |
| MediaPeer.PartRequest | src/extensions/mediaPeer.js:63-71 | a valid `request-part` envelope for one part of the url, with ttl 3 |
| MediaPeer.Requests | src/extensions/mediaPeer.js:59-73 | one `request-part` envelope per picked pair, in order, for that node and part |
| MediaPeer.RequestedParts | src/extensions/mediaPeer.js:57-74 | the parts pushed onto the pending list are the picked ones, in order |
| MediaPeer.RequestsAreNew | src/media.js:187-232 | picked parts are neither here nor pending, so pending parts stay distinct |
| MediaPeer.ArrivedNotPending | src/extensions/mediaPeer.js:130-144 | a part just stored is not requested again |
| MediaPeer.InfoRequest | src/extensions/mediaPeer.js:88-94 | a `request-info` envelope for the url, with no ttl |
| MediaPeer.InfoRequests | src/extensions/mediaPeer.js:85-96 | what one connection transmits for the info requests of a series of urls, in order |
| MediaPeer.InfoRequestsOnRtc | src/extensions/mediaPeer.js:82-97 | an open neighbour gets one request per url asked; a closed one gets nothing |
| MediaPeer.ToUint8Array | src/extensions/mediaPeer.js:141 | byte data keep their length, and each value is reduced to a byte |
| MediaPeer.CopyChunk | src/extensions/mediaPeer.js:175-178 | the copy has the same bytes |
| MediaPeer.Track | src/extensions/mediaPeer.js:35-42 | a new media for the url with the fallback timer armed |
| MediaPeer.MediaPeer.constructor | src/extensions/mediaPeer.js:200-213 | a media node over a node and a store, tracking no file |
| MediaPeer.MediaPeer.AddMedia | src/extensions/mediaPeer.js:32-47 | an untracked url gets a fresh media and a broadcast peer request; a tracked one changes nothing |
| MediaPeer.MediaPeer.Register | src/extensions/mediaPeer.js:44 | the file table gains the media |
| MediaPeer.MediaPeer.AskForNextParts | src/extensions/mediaPeer.js:57-74 | requests the first candidates from nodes that hold them, and records them as pending |
| MediaPeer.MediaPeer.SendRequests | src/extensions/mediaPeer.js:59-73 | one routed request per picked part, pushed onto the pending list |
| MediaPeer.MediaPeer.RequestPart | src/extensions/mediaPeer.js:60-72 | one routed request, and the part becomes pending |
| MediaPeer.MediaPeer.OnConnected | src/extensions/mediaPeer.js:82-97 | asks the new neighbour for the meta-data of exactly the incomplete files; throws when that neighbour is unknown and some file is incomplete |
| MediaPeer.MediaPeer.RequestInfos | src/extensions/mediaPeer.js:85-96 | one request per incomplete file, each file once |
| MediaPeer.MediaPeer.FindIncomplete | src/extensions/mediaPeer.js:85-96 | throws exactly when some file is incomplete |
| MediaPeer.MediaPeer.OnInfo | src/extensions/mediaPeer.js:107-122 | an untracked url or missing meta-data throws; otherwise merges the meta-data, stores them, disarms the fallback when the incoming available list is non-empty, and asks for the next parts |
| MediaPeer.MediaPeer.LearnInfo | src/extensions/mediaPeer.js:113-121 | the merge, the fallback, and the follow-up requests of `oninfo` |
| MediaPeer.MediaPeer.Absorb | src/extensions/mediaPeer.js:113-118 | the merge and the fallback of `oninfo` |
| MediaPeer.MediaPeer.Described | src/extensions/mediaPeer.js:156-159 | the data of an `info` reply: the meta-data, or the empty object while there are none |
| MediaPeer.MediaPeer.OnRequestInfo | src/extensions/mediaPeer.js:153-161 | a tracked url is answered with an `info` reply carrying its meta-data; an untracked one gets nothing; a tracked request without a sender throws, as `send` does on a reply with no destination, and nothing is sent |
| MediaPeer.MediaPeer.OnRequestPart | src/extensions/mediaPeer.js:170-191 | an untracked url throws; a stored part requested by a known sender is answered with a `part` reply holding a copy of its bytes; otherwise nothing is sent |
| MediaPeer.InfoReplyUnmatched | src/extensions/mediaPeer.js:156-159 | as written, the `info` reply has no url, so the asker never finds a media for it |
| MediaPeer.PartReplyUnmatched | src/extensions/mediaPeer.js:180-185 | as written, the `part` reply has no url, so the asker never finds a media for it |
| MediaPeer.MediaReply | src/peer.js:169-175 | corrected reply: as `respondTo`'s, but carrying the url of the request and nothing else different |
| MediaPeer.MediaReplyMatched | src/extensions/mediaPeer.js:107-111 | with the url copied, the meta-data reply names a media the asker tracks |
| MediaPeer.MediaPartReplyMatched | src/extensions/mediaPeer.js:135-139 | with the url copied, the part reply names a media the asker tracks, under the requested number |
| MediaPeer.MediaPeer.OnPart | src/extensions/mediaPeer.js:130-144 | an untracked url throws; otherwise `storeChunk` and then the next requests, and the arrived part is not pending any more |
| MediaPeer.MediaPeer.ReceivePart | src/extensions/mediaPeer.js:141-143 | stores the part and asks for the next ones |
| MediaPeer.MediaPeer.StoreChunkHere | src/media.js:400-425 | `storeChunk` on a tracked media; after success the part is here |

## Findings

| source | as written | input that shows it | evidently intended | confidence | as-written member | corrected member |
|---|---|---|---|---|---|---|
| src/extensions/mediaPeer.js:156-159 | `this.respondTo(message, {type: 'info', data: ...})`, and `respondTo` copies no url | a node that tracks `u` asks for the meta-data of `u`; the `info` reply has no url, so its `oninfo` reads `files.get(undefined)` at mediaPeer.js:111 and throws on `media.buildInfoFromRemote` | the reply names the media it is about, as `oninfo` expects | high, not executed | MediaPeer.InfoReplyUnmatched | MediaPeer.MediaReplyMatched |
| src/extensions/mediaPeer.js:180-185 | `this.respondTo(message, {type: 'part', number: ..., data: ...})` with no url | a node that tracks `u` asks for part 0 of `u`; the `part` reply has no url, so its `onpart` reads `files.get(undefined)` at mediaPeer.js:139 and throws on `media.storeChunk` | the reply names the media of the part, as `onpart` expects | high, not executed | MediaPeer.PartReplyUnmatched | MediaPeer.MediaPartReplyMatched |
| src/messageEmitter.js:94 | `if(!this.listeners.has(messageType)) this.listeners.get(messageType).clear()` | a listener registered under `x`, then `removeAllListeners('x')`: it stays; `removeAllListeners('y')` on an unknown `y` throws | clear the listeners of a registered type, as its comment says | high, not executed | MessageEmitter.RemoveAllKeepsListeners | MessageEmitter.ClearedCount |

The as-written behaviour is `MessageEmitter.RemoveAllAsWritten` and
`MessageEmitter.Emitter.RemoveAllListeners`. The corrected one is
`MessageEmitter.Cleared` and `MessageEmitter.Emitter.ClearListeners`.

For the url-less replies, `OnRequestInfo` and `OnRequestPart` send the
replies as written, and `OnInfo` and `OnPart` throw on such a reply because
it is not `Tracked`. The corrected reply is `MediaPeer.MediaReply`. The
handlers keep the replies as written, since the receiving side of the model
is stated for any message, whatever the url it carries.

## Left out

- Firebase signalling: the database is left out. The rendezvous slot records what is published, and received messages are inputs.
- The browser's RTCPeerConnection and RTCDataChannel: their outcomes are parameters. Every asynchronous callback runs right after the handler that starts it, so interleavings of promises are not modelled.
- JSON serialisation of envelopes is taken as the identity.
- localforage: its asynchrony is left out. The store is a map written at once, and `getItem` failures are not modelled.
- XHR downloads from the origin server, MediaSource playback, and the `tag` element are left out.
- The 5-second timer is the `fallbackArmed` flag. What the timer does when it fires is not modelled.
- `console` logging and `console.assert` are not modelled.
- `onerror` on a data channel only logs, so it is not modelled.
- Listener dispatch inside `Peer`: emitting appends to an `emitted` log. Running the handlers registered for each type is left to the callers in `MediaPeer` and `ChannelEvents`.
- The `connected` and `disconnected` events carry the DOM event as data in the program. The model drops it, so the data field is `None`.
- The `url` argument of `requestPeer` is not part of the envelope in the program, so it is not modelled.
- Iteration order over a JavaScript `Map` or `Object.keys` is left open. `Util.KeysOf` gives some order, and the fan-out visits neighbours in some order.
- The `forEachStoredMedia` seeding in the `MediaPeer` constructor is not modelled. It reads every stored `-info` entry asynchronously. Its key test is `Media.KeysAreClassified`, and the media it would build is `Media.Media.FromInfo`.
- `getChunk` and the other localforage read helpers of `media.js` are not modelled, apart from the direct store read in `OnRequestPart`.
- Peer.Peer.constructor: `Peer.ttl` is one static value shared by every node (src/peer.js:99). Any `new Peer(options)` whose options set `peer.ttl` overwrites it (src/peer.js:74-75), and `respondTo` reads it when it sends (src/peer.js:172). The model gives each node its own constant `ttl`, fixed when the node is built. A later construction with another ttl therefore does not change an earlier node's replies here, and a node built without the option gets the value its caller passes, not the current static.
- Peer.Peer.OnAnswer: requires the message to have a sender. The program would throw on `connections.get(undefined)` without one.
- Peer.Peer.OnIceCandidate: requires the message to have a sender.
- Peer.Peer.OnOffer: requires the message to have a sender.
- Peer.Peer.OnRequestPeer: requires the message to have a sender.
- MediaPeer.MediaPeer.OnConnected: requires the message to have a sender.
- MediaPeer.MediaPeer.OnInfo: a payload that is not meta-data (missing, the empty object, a token or bytes) throws with the media unchanged in the model. The program first rewrites part of the meta-data and then throws. A media without meta-data gets `undefined` url, sizes and remote table and an empty available list. A media with meta-data gets `remote[from] = undefined`, after which every `nextPartsToDownload` that reaches `selectPeer` throws at `remotes[id].indexOf`. The `Info` datatype has no `undefined` fields, so this corrupted state is not modelled.
- MediaPeer.MediaPeer.OnInfo: requires the message to have a sender. Without one, `buildInfoFromRemote` would record the availability under the key `undefined`.
- MediaPeer.MediaPeer.OnPart: requires the part number to be present. Without one, the program would store the data under the key `<url>-partundefined`.
- MediaPeer.MediaPeer.OnConnected: the program asks for all the files in one loop and throws at the first incomplete file when the neighbour is unknown. The model first decides whether it throws, then sends. Both send nothing in the throwing case, so the outcome is the same.
- Media.MergeAgain: for meta-data that arrive after the first, the model proves only that the sender's entry lists parts the incoming meta-data mention. Whether every reported part reaches the entry is not stated. In the program it depends on the order of the keys and on which nodes the local table knows: an unknown node makes its own list the sender's entry.
- Media.IntToString: numbers are written in plain decimal. JavaScript's exponent notation for very large numbers is not modelled.
- Util.ShuffleArray: `Math.random` is the ghost sequence of choices.
- The ids the signalling layer generates are parameters of the `Peer.Peer` constructor.
