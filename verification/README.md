# YewChat realtime protocol, modelled in Dafny

This project models the realtime core of YewChat, a browser chat client, together with
the relay server it talks to. It covers:

- the client's chat component: avatar selection, the registration envelope sent on
  creation, the fold of inbound envelopes into a roster and a message log, and the
  envelope built when the user submits a message;
- the client's connection service: the inbound loop that republishes every frame's text
  to the event bus, and the outbound loop that writes queued strings to the socket;
- the server's registry of (connection, profile) entries: `register`, `message`, and
  the periodic prune of entries whose connection is gone.

Every operation is a pure function or a short method. JSON encoding and decoding on both
sides, and UTF-8 decoding, are function-typed parameters. The lemmas that connect client
and server state what they need of those parameters as explicit hypotheses:
`Interop.ProfileCodec`, `Interop.RelayCodec` and `Interop.StructShapedOnly`. The last says a
profile decoder accepts only text containing '{' or '[': serde_json reads a derived struct
from a JSON object or from a JSON array of its fields.

Files:

- `protocol.dfy` (module `Protocol`): `UserProfile`, `MessageData`, `MsgType`, `Envelope`,
  and the wire tags.
- `chat_session.dfy` (module `ChatSession`): `create` and `update` of the chat component.
- `websocket_service.dfy` (module `WebSocketService`): the inbound dispatch and the
  outbound drain.
- `roster_server.dfy` (module `RosterServer`): the server registry.
- `interop.dfy` (module `Interop`): client/server round trips, and the finding below.

Behaviours of the code the model follows:

- Avatar names are matched by exact spelling only ("Miku"/"miku", …), not case-insensitively.
- Submitting an empty text still sends a `message` envelope.
- A read error does not end the inbound loop; only the end of the stream does.
- The first write error panics the outbound loop. It does not continue past it.
- Any decode failure in `update` panics the component. There is no per-message
  isolation (`ChatSession.MalformedAborts`).

## Model

| member | source | states |
|---|---|---|
| Protocol.ParseTag | YewChat/src/components/chat.rs:20-26 | exactly the lower-case spellings "users", "register", "message" are kinds, each maps to its own kind; anything else (including capitalised forms) is rejected |
| Protocol.Tag | YewChat/src/components/chat.rs:20-26 | every kind's lower-case wire spelling reads back as that kind |
| Protocol.TagInjective | YewChat/src/components/chat.rs:20-26 | two kinds share a spelling only if they are the same kind |
| Protocol.ParseTagCaseSensitive | YewChat/src/components/chat.rs:21 | "Users", "REGISTER" and "Message" are not recognised kinds |
| ChatSession.Avatar | YewChat/src/components/chat.rs:68-77 | the URL is the miku, teto or neru image exactly when the name is the capitalised or lower-case spelling of that name, and the single dicebear default otherwise |
| ChatSession.AvatarsDistinct | YewChat/src/components/chat.rs:68-77 | the four avatar URLs are pairwise different, so the avatar identifies which branch was taken |
| ChatSession.AvatarExamples | YewChat/src/components/chat.rs:69-76 | "Miku"/"miku", "Teto"/"teto", "Neru"/"neru" get their images; "MIKU" and "Alice" get the default |
| ChatSession.LocalProfile | YewChat/src/components/chat.rs:66-79 | the registered profile carries the typed name and bio and the avatar that name selects |
| ChatSession.Create | YewChat/src/components/chat.rs:66-106 | a fresh session has an empty roster and an empty log; the registration envelope is tagged `Register`, has no `dataArray`, and its `data` is the serialized local profile |
| ChatSession.DecodeProfiles | YewChat/src/components/chat.rs:115-122 | roster decoding succeeds iff every element decodes, and then yields one profile per element, in order |
| ChatSession.HandleMsg | YewChat/src/components/chat.rs:109-135 | a malformed envelope panics; `users` replaces the roster by the decoded `dataArray` (empty when absent), all or nothing, keeps the log, re-renders; `message` appends exactly the decoded `data` at the end of the log, keeps the roster, re-renders, and panics on missing or undecodable `data`; `register` changes nothing and does not re-render |
| ChatSession.Submit | YewChat/src/components/chat.rs:136-156 | with a mounted input, the text verbatim (even empty) becomes the `data` of a `Message` envelope with no `dataArray`, and the input is cleared; the session is untouched and nothing re-renders |
| ChatSession.Run | YewChat/src/components/chat.rs:109-135 | successive `update` calls, stopping at the first panic; on success the roster differs from the start only if some envelope was `users`, and the log only if some envelope was `message` (its other properties are `RunConcat`, `MessagesAppendInOrder`, `LogOnlyGrows` and `MalformedAborts`) |
| ChatSession.RunConcat | YewChat/src/components/chat.rs:109-135 | folding a concatenated stream of envelopes is folding the parts in turn, and a panic stops everything after it |
| ChatSession.MessagesAppendInOrder | YewChat/src/components/chat.rs:125-130 | folding n well-formed `message` envelopes extends the log by exactly their n messages, in order, and leaves the roster alone |
| ChatSession.LogOnlyGrows | YewChat/src/components/chat.rs:109-135 | across any successful fold, the earlier log is a prefix of the later one |
| ChatSession.MalformedAborts | YewChat/src/components/chat.rs:112 | one malformed envelope anywhere in a stream makes the fold fail |
| ChatSession.RosterForgetsPrevious | YewChat/src/components/chat.rs:114-124 | the outcome of a `users` envelope does not depend on the previous roster |
| WebSocketService.Published | YewChat/src/services/websocket.rs:31-46 | a text frame publishes its payload unchanged; a binary frame publishes its UTF-8 decoding iff it is valid, nothing otherwise; a read error publishes nothing |
| WebSocketService.Dispatch | YewChat/src/services/websocket.rs:29-49 | the inbound loop as an in-order filter-map: at most one publication per item read (its other properties are `DispatchConcat`, `ErrorsAreSkipped` and `TextFramesPublishedVerbatim`) |
| WebSocketService.DispatchConcat | YewChat/src/services/websocket.rs:29-49 | the publications of a stream are those of its prefix followed by those of its suffix: no reordering, no duplication |
| WebSocketService.ErrorsAreSkipped | YewChat/src/services/websocket.rs:43-47 | a read error anywhere in the stream leaves the publications as if it were absent: the loop goes on |
| WebSocketService.TextFramesPublishedVerbatim | YewChat/src/services/websocket.rs:30-35 | a stream of text frames is published one for one, in order, unchanged |
| WebSocketService.ReadLoop | YewChat/src/services/websocket.rs:29-49 | the loop publishes exactly the per-frame publications of the whole stream, in order |
| WebSocketService.Drain | YewChat/src/services/websocket.rs:22-27 | written frames are text frames of a prefix of the queue in FIFO order, each accepted by the transport; the loop panics iff the prefix is short, and then the next write was refused |
| RosterServer.FindSender | SimpleWebsocketServer/src/app.ts:45 | finds the first entry of the connection, or reports that there is none |
| RosterServer.RegisterUser | SimpleWebsocketServer/src/app.ts:36-43 | a parseable profile is appended at the end with earlier entries unchanged, and one `users` broadcast carries every entry's serialized profile in registry order; a request without a `data` field, or whose `data` does not parse as a profile, changes nothing and broadcasts nothing |
| RosterServer.RelayMessage | SimpleWebsocketServer/src/app.ts:44-57 | the registry never changes; nothing is broadcast iff the connection has no entry; otherwise one relay under the first entry's name with the sent data |
| RosterServer.OnMessage | SimpleWebsocketServer/src/app.ts:30-62 | a parse failure or an unknown `messageType` changes nothing and broadcasts nothing; "register" and "message" go to their handlers |
| RosterServer.KeepLive | SimpleWebsocketServer/src/app.ts:67 | an entry survives iff it was in the registry and its connection is a current client; never longer than the registry |
| RosterServer.KeepLiveConcat | SimpleWebsocketServer/src/app.ts:67 | pruning preserves registry order: pruning a concatenation prunes each part |
| RosterServer.KeepLiveFull | SimpleWebsocketServer/src/app.ts:67-68 | the length is unchanged iff every connection is live, and then the registry is returned as is |
| RosterServer.KeepLiveIdempotent | SimpleWebsocketServer/src/app.ts:67 | pruning twice with the same clients is pruning once |
| RosterServer.Prune | SimpleWebsocketServer/src/app.ts:65-72 | the registry becomes exactly the live entries; a broadcast happens iff some entry was dropped, and it carries the bare names of the survivors |
| RosterServer.NoDeduplication | SimpleWebsocketServer/src/app.ts:38-45 | two registrations on one connection give two entries, and that connection's messages go out under the first entry's name |
| Interop.AsServerRequest | SimpleWebsocketServer/src/app.ts:33-35 | the server reads a client envelope's tag as the matching kind and its `data` unchanged |
| Interop.RegistrationReachesServer | SimpleWebsocketServer/src/app.ts:36-42 | the client's registration makes the server append exactly the client's profile (name, selected avatar, bio) and broadcast the grown roster |
| Interop.RegisterAsMiku | YewChat/src/components/chat.rs:66-85 | registering as "Miku" with bio "hi" sends data that decodes to that name, the miku avatar and that bio |
| Interop.RegisterSyncsClientRoster | SimpleWebsocketServer/src/app.ts:39-42 | the roster list broadcast on register makes a client's roster exactly the server's registry profiles, in order, keeping its log |
| Interop.SerializedRosterDecodes | YewChat/src/components/chat.rs:114-124 | a roster list of serialized profiles becomes exactly those profiles on the client |
| Interop.ChatRoundTrip | SimpleWebsocketServer/src/app.ts:44-57 | text submitted by a registered client is relayed under its connection's first entry name, and folding the relay appends exactly (name, text) to a client's log |
| Interop.PruneBroadcastPanicsClient | SimpleWebsocketServer/src/app.ts:70 | once prune drops an entry, a surviving name containing neither '{' nor '[' makes every client's update panic, for any profile decoder that reads only objects or arrays |
| Interop.PruneCounterexample | SimpleWebsocketServer/src/app.ts:66-71 | with Bob and Alice registered and Alice gone, the broadcast roster list is the bare text Bob and the client panics |
| Interop.PruneCorrected | SimpleWebsocketServer/src/app.ts:65-72 | the registry becomes exactly the live entries; a broadcast happens iff some entry was dropped, and it carries the survivors' serialized profiles |
| Interop.PruneCorrectedSyncsClientRoster | SimpleWebsocketServer/src/app.ts:65-72 | with the corrected prune, a client's roster becomes exactly the live entries' profiles, in order |

## Left out

- JSON text (serde_json on the client; `JSON.parse` and `JSON.stringify` on the server) is not modelled. Encoders and decoders are parameters, so the round trip `decode(encode(e)) == e` of whole envelopes is not stated. Where a lemma needs a round trip for profiles or relayed lines, it takes it as a hypothesis.
- UTF-8 validity and decoding of binary frames is a parameter of the inbound loop.
- RosterServer.RegisterUser: does not model two cases where the server stores a non-profile. First, the server does not check the shape of what `JSON.parse` returns for a `register` payload, so `"5"`, `"{}"` or `"null"` are appended and broadcast; the model's profile parser either yields a profile or fails, and failure changes nothing. Second, the client serializes a `None` `data` as `"data":null`, and `JSON.parse(null)` returns `null` instead of throwing, so the server appends an entry whose user is `null`; the model maps an absent `data` (also through `Interop.AsServerRequest`) to "nothing changes". The client never sends a `register` without data.
- The server's `message` data is modelled as an optional string. The source passes any JSON value through.
- The relayed line's `time` field (`Date.now()`) is not modelled. The client ignores it when decoding.
- The entry's `isAlive` flag is never read by the source, so it is not modelled.
- The broadcast fan-out to open sockets, the `setInterval` timer, the `PORT` setting and all logging are I/O. Prune is an explicit step taking the current client set.
- Opening the socket to the hard-coded address, `spawn_local` scheduling and the event bus agent are async runtime code. Publishing is appending to an output sequence.
- The outbound queue's capacity and `try_send` failure on a full queue are library behaviour. The queue is a plain sequence, and a failed enqueue (which the component only logs) is not modelled.
- The transport's verdict on each write is a parameter of the drain.
- View rendering, the `.gif` image rule, the roster lookup in the view, and the login form are UI code.
- Whether the component continues after a panic is runtime behaviour. A fold stops at the first panic.

## Findings

| source | as written | input that shows it | evidently intended | confidence | as-written member | corrected member |
|---|---|---|---|---|---|---|
| SimpleWebsocketServer/src/app.ts:70 | the prune broadcast's `dataArray` holds bare user names, while the client decodes every element as a serialized profile (YewChat/src/components/chat.rs:119) and panics on failure | Bob (connection 1) and Alice (connection 2) registered, then Alice disconnects: the broadcast roster list is `["Bob"]`, which is neither a JSON object nor a JSON array, the only shapes serde_json reads a profile from | serialize each surviving profile, as the register broadcast does at SimpleWebsocketServer/src/app.ts:41 | high; not executed | Interop.PruneCounterexample | Interop.PruneCorrectedSyncsClientRoster |
