# Portly, modelled and proved

Portly makes services behind a home router reachable from a public server. A
machine at home keeps one multiplexed connection open to the server; the server
listens on public ports (or on one shared Minecraft port), and relays what comes
in over a stream of that connection to a local service.

This project models the parts of Portly in which something can go wrong quietly,
and proves what the rest of the program relies on:

- **The TCP data path** (`Streams`, `Powers`, `Trimming`, `VarInt`, `Handshake`,
  `Frames`, `Relay`): the
  hostname peek refines a pure parser under every way the network splits reads,
  frames and VarInts round-trip, and over every interleaving of a proxied
  connection the local service sees the optional PROXY line and then the public
  client's stream from its first byte.
- **The control plane** (`Store`, `Routing`, `Text`, `CreateTunnels`, `Listeners`,
  `Lifecycle`, `Sessions`, `Fingerprint`, `ConfigPush`): the database keeps hostnames
  and ports distinct, the reconcile pass makes listeners follow the database,
  shutdown is final unless a pass was already under way, a reconnecting machine
  replaces its session, and it is settled exactly when a push leaves the machine with
  the configuration in the database.
- **Accounting** (`Accounting`, `Quota`, `Limits`): over flushes, failures, deletes and
  restarts every byte ever counted for a tunnel is stored, still pending, or was pending
  when a process ended - a restart does drop what was not flushed yet - and none is stored
  twice. Traffic never leaves an enabled tunnel at its limit, and of all the handlers'
  steps exactly three kinds can.
- **UDP multiplexing** (`UdpMux`): datagrams of different senders are never
  cross-wired.
- **Credentials** (`Credentials`): what becomes of a token over its life.
- **LAN scanning** (`LanScan`): which addresses a machine probes.

Where the program updates an object step by step, the model is a class whose methods
have the program's loops and branches, proved against a function or relation on values.
Properties of whole runs are lemmas about a state machine built on those functions:
`Run` folds a sequence of events, so a statement about `Run(events)` is one about every
reachable state. In `Relay` the copy loop is tied to the machine turn by turn (each turn
of `Copy` is a `LegRead` and a `LegWrite`), the received header is what
`Frames.DecodeFrame` says, which `ReadFrame` computes, and the peek may end when
`Handshake.ParseHostname` has its answer; that the header goes out piece by piece and
that peeked bytes arrive read by read are steps of the machine alone, and so are the
server's UDP loops and the whole of the interleaving everywhere. Network reads,
statement failures, ports held by others, the order in which maps are walked and the
scheduling of goroutines are nondeterministic; where a contract also says what happens
when nothing fails, the database is `up`, a writer is `reliable`, and the ports nobody
here can bind are given. Each database call and each section under a lock is one step;
an API handler is one step unless a row says otherwise. Strings that are hashed, ids,
tokens and codes are fresh random values to the program; here they are parameters, and
hashing is injective.

## Results that differ from what one would expect

- A failed `HostnameTaken` query is read as "not taken"
  (internal/api/tunnels.go:297), so two tunnels can come to share a hostname:
  `Routing.FailedCheckShadows`. `Routing.UpdateKeepsExactlyIf` says exactly when an
  update keeps hostnames distinct.
- A request that omits one of its port fields, next to a single port, indexes an empty
  list (internal/api/tunnels.go:196, internal/api/tunnels.go:225): the `Panicked` reply
  of `CreateTunnels.HandleCreateTunnel`, which `CreateTunnels.MissingPortPanics` reaches
  with concrete requests and `CreateTunnels.EmptyMeansMissing` characterises.
- A config push whose write fails although the frame arrives, followed by a change back,
  is never repaired: the fingerprint equals the one remembered
  (`ConfigPush.FailedWriteLeavesStaleTargets`). A machine whose last tunnel was disabled
  while it was away keeps that tunnel, since a fresh session skips the empty list
  (`ConfigPush.DisabledTunnelStays`). `ConfigPush.ExactAfterPushIf` is the exact condition
  for any session, `ConfigPush.FirstPushExactIf` the one for a fresh session.
- A reissued install command that falls between a machine's acceptance and the update of
  its last-seen time leaves the connected machine with an invalid token
  (`Credentials.ReissueRace`). The reissue handler's check and its rotation are two
  statements as well, so one that checked before the update and rotates after it does the
  same to a machine marked as seen (`Credentials.LateReissue`). Over whole histories a
  token is invalid exactly if a reissue took it while it was current
  (`Credentials.InvalidExactlyIfRotated`), one that connected exactly if such a late
  rotation did (`Credentials.SettledInvalidExactlyIfLate`), and for a machine between the
  two steps `Credentials.RaceExactlyIfRotated` says which it is. A reissue whose code
  cannot be stored leaves the earlier code redeemable for a dead token
  (`Credentials.ReissueWithoutCode`; `Credentials.CodeYieldsAcceptedToken` is exact).
- An enrollment code is deleted before its client's row is read
  (internal/db/db.go:833-841): a failing read burns the code and hands its token to nobody
  (`Credentials.LostExchange`; `Credentials.BurntExactlyIfReadFailed` is exact).
- A session that dies can end a copy at a clean end-of-file short of the whole stream
  (`Relay.LostSessionTruncates`; `Relay.CompleteAtEof` is exact).
- A copy that ends closes the connection it wrote to in both directions
  (internal/tunnel/server.go:637, internal/tunnel/server.go:642), so a public client that
  stops sending gets only the replies read by the time its last byte was delivered
  (`Relay.RepliesEndWithInbound`), and half-closing loses the rest
  (`Relay.HalfCloseLosesReplies`). `Relay.RepliesFlowExactlyIf` is exact: more can follow
  if and only if the delivery has not ended.
- A reconcile pass that was past its check when Shutdown closed the channel can open
  listeners after the sweep, on rows it had read or on rows it reads then
  (`Lifecycle.WindowReopens` is exact, `Lifecycle.WindowIsReached` shows both runs).
- Re-enabling a tunnel, creating one, and lowering a limit do not look at what was used
  already (`Quota.ReenablingBreaksQuota`). `Limits.StepQuota` says of every handler's step
  exactly when it keeps the quota; the next bytes through a tunnel re-enabled at its limit
  disable it again (`Quota.ReenablingIsUndone`).

## Model

| member | source | states |
|---|---|---|
| Streams.Conn.Read | internal/tunnel/mcrouter.go:99-101 | one network read hands out a piece of arbitrary length of what is still to come, and fails exactly at the end |
| Streams.BufReader.ReadByte | internal/tunnel/mcrouter.go:111 | a byte through the buffered tee: what was physically read plus what is to come is always the original stream |
| Streams.BufReader.ReadFull | internal/tunnel/mcrouter.go:166-169 | exactly the next n bytes or an error, whatever the pieces |
| Streams.ReplayReader.Read | internal/tunnel/mcrouter.go:94-101 | peeked bytes first, then the connection; nothing lost or repeated at the seam |
| VarInt.Decode | internal/tunnel/mcrouter.go:177-195 | succeeds exactly if one of the first five bytes has its high bit clear, with the signed 32-bit wrap of the base-128 sum up to that byte |
| VarInt.ReadVarInt | internal/tunnel/mcrouter.go:177-195 | the loop of shifts and ORs on a stream computes Decode of it, consuming the number's bytes only |
| VarInt.OrAddsGroup | internal/tunnel/mcrouter.go:185 | OR-ing a shifted group into the value adds it, modulo 2^32 for the fifth group |
| VarInt.EncodeLength | internal/tunnel/mcrouter_test.go:26-40 | n bytes are enough for a number exactly if it has at most 7n bits |
| VarInt.EncodingIsMinimal | internal/tunnel/mcrouter_test.go:26-40 | no shorter sequence of bytes decodes to the same number |
| VarInt.RoundTrip | internal/tunnel/mcrouter_test.go:26-40 | decoding inverts encoding for every int32, negatives included, with any tail left untouched |
| Handshake.ReadHandshakeAddress | internal/tunnel/mcrouter.go:138-173 | on a stream the reader gives the address or failure of the pure parser, and stands just behind the address |
| Handshake.PeekMinecraftHostname | internal/tunnel/mcrouter.go:109-130 | for every chunking the hostname or failure of the pure parser on the whole stream; on success the replay yields exactly the original stream |
| Handshake.ParseHostnameStable | internal/tunnel/mcrouter.go:103-108 | once a prefix of the stream names a hostname no later byte changes it |
| Handshake.PacketBounds | internal/tunnel/mcrouter.go:138-173 | the packets that are read on: a length of 1 to 2048, packet id 0, any version, an address of at most 255 bytes that is all there |
| Handshake.FoldingIsByCase | internal/tunnel/mcrouter.go:124 | two texts fold to the same exactly if they differ in the case of ASCII letters only, and folding leaves no upper-case letter |
| Handshake.StoredFormOf | internal/api/tunnels.go:287 | a hostname entered with white space around it is stored without it and in lower case |
| Handshake.HandshakeRoundTrip | internal/tunnel/mcrouter_test.go:45-60 | every built handshake with an address of at most 255 bytes passes the length checks and yields that address |
| Handshake.VariantsReachStoredForm | internal/tunnel/mcrouter.go:118-124 | everything equal to a stored hostname up to case, with or without trailing dot and NUL-separated metadata, normalises to the stored form |
| Handshake.HandshakeReachesStoredForm | internal/tunnel/mcrouter.go:118-129 | the same through a whole handshake packet |
| Handshake.TypedAsStored | internal/api/tunnels.go:287 | typing a hostname as stored finds it exactly if it has no NUL and no trailing dot |
| Handshake.ReachableHostnames | internal/api/tunnels.go:287-291 | some address of legal length reaches a storable hostname exactly if the hostname has no NUL |
| Frames.ReadFrame | internal/protocol/protocol.go:182-199 | the message in the first frame of the stream under any chunking, nothing consumed beyond it; failure exactly on a short or oversized frame or a payload the decoder refuses |
| Frames.WriteFrame | internal/protocol/protocol.go:162-179 | success appends exactly one frame; a failure has written some prefix of it; oversized payloads write nothing |
| Frames.FrameRoundTrip | internal/protocol/protocol.go:162-199 | a written frame followed by anything decodes to its payload and that tail |
| Frames.FrameBound | internal/protocol/protocol.go:187-190 | exactly the lengths up to 2^20 are accepted, if that much follows |
| Frames.DecodesOnlyFrames | internal/protocol/protocol.go:187-194 | whatever decodes is a frame of a payload within the bound, followed by the rest |
| Frames.TruncatedFrameFails | internal/protocol/protocol.go:184-194 | every proper truncation of a frame is an error |
| Frames.AllFramesRoundTrip | internal/protocol/protocol.go:162-199 | any sequence of payloads written back to back and followed by raw bytes is read back as that sequence with the tail unconsumed |
| Relay.Copy | internal/tunnel/server.go:619-637 | each turn is a read and a write of the leg; what is written is a prefix of what was to be read, all of it unless a write failed, and the counter grows by the bytes read |
| Relay.HeaderArrives | internal/tunnel/client.go:252-258 | the header the client decodes is the one the server wrote and the bytes behind it are the relayed ones |
| Relay.RunKeeps | internal/tunnel/server.go:525-556 | every step of server, client, network and both services, the closing of either end included, keeps the chained-copies invariant |
| Relay.Transparent | internal/tunnel/client.go:284-291 | at every moment the local service has been given a prefix of the public stream from its first byte, behind the PROXY line exactly if the tunnel asks for it, and the public client a prefix of the replies |
| Relay.CanDeliverEverything | internal/tunnel/server.go:525-556 | whatever a public client sends can reach the local service whole, behind the PROXY line exactly if the tunnel asks for it |
| Relay.CompleteAtEof | internal/tunnel/server.go:630-646 | both copies at end-of-file: everything arrived exactly if the client read the stream to its end |
| Relay.EndIsTheEnd | internal/tunnel/server.go:639-643 | it did, PROXY line included exactly if asked for, if the session lived and its own copy of the replies had not ended before |
| Relay.RepliesCompleteAtEof | internal/tunnel/server.go:639-643 | the same for the replies: everything arrived exactly if the server read the stream to its end |
| Relay.RepliesEndIsTheEnd | internal/tunnel/server.go:634-638 | it did, if the session lived and the copy of the public stream had not ended before |
| Relay.RepliesEndWithInbound | internal/tunnel/server.go:639-643 | once the inbound bytes are delivered, only the replies read by then ever reach the public client |
| Relay.RepliesFlowExactlyIf | internal/tunnel/server.go:630-646 | while both copies of the way back work and the local service may go on, the public client can get more than was read by now if and only if the delivery has not ended |
| Relay.HalfCloseLosesReplies | internal/tunnel/server.go:639-643 | a complete delivery after which no continuation brings a reply |
| Relay.LostSessionTruncates | internal/tunnel/server.go:630-646 | a run in which a dying session ends the copy cleanly and short |
| Store.SumRemove | internal/db/db.go:769-771 | the sum over a client's rows does not depend on the order they are added in |
| Store.AddTrafficRow | internal/db/db.go:736-779 | what one committed call does to each row: counters, settings, and exactly when it stays enabled |
| Store.AddTrafficKeeps | internal/db/schema.sql:18-36 | uniqueness and foreign keys survive the transaction |
| Store.DB.AddTunnelTraffic | internal/db/db.go:729-782 | success commits the whole effect, any failing statement leaves every table as it was |
| Store.DB.CreateTunnel | internal/db/db.go:576-604 | an accepted insert adds exactly this row, a refused one nothing |
| Store.DB.DeleteClient | internal/db/db.go:458-481 | the client, all it cascades to, and the revocation of its token, together or not at all |
| Store.DB.FactoryReset | internal/db/db.go:490-534 | every client gone and every token revoked, or nothing changed |
| Store.RemoveClientsExactly | internal/db/schema.sql:17-20 | deleting clients takes exactly their tunnels and codes along and leaves all other rows as they were |
| Store.SamplesKept | internal/db/schema.sql:34-40 | exactly the samples of surviving tunnels survive, each as often as it was there |
| Store.DB.ExchangeEnrollmentCode | internal/db/db.go:813-842 | a good code is gone whether its row is answered or lost to a failing read; any other code changes nothing |
| Store.CodeLifetime | internal/api/clients.go:15 | a code is good for exactly fifteen minutes |
| Quota.RestoresLimits | internal/db/db.go:757-779 | from any state, a call leaves the tunnel enabled exactly if it was, its new counters are below its limit and its client's new total is below the client's; siblings likewise for the client limit; other clients' tunnels untouched |
| Quota.OwnTotal | internal/db/db.go:768-774 | the sum compared with the client's limit is the sum the call leaves behind |
| Quota.AddTrafficKeepsQuota | internal/db/db.go:729-782 | "an enabled tunnel is under its own limit and its client under the client limit" is kept by every call |
| Quota.TrafficKeepsQuota | internal/db/db.go:723-728 | ... and so over every run of traffic through any tunnels |
| Quota.EnablingKeepsQuota | internal/api/tunnels.go:245-258 | re-enabling keeps the quota exactly if neither limit is already reached |
| Quota.ReenablingIsUndone | internal/db/db.go:757-761 | a tunnel re-enabled at its limit is disabled by the next bytes |
| Quota.ReenablingBreaksQuota | internal/api/tunnels.go:245-258 | a concrete tunnel at its limit, re-enabled |
| Limits.StepQuota | internal/db/db.go:723-728 | of every handler's step: it keeps the quota if and only if it is not an enabling or creation at a reached limit nor a limit lowered to what was used |
| Limits.RunQuota | internal/db/db.go:723-728 | over every run of all handlers without such a step an enabled tunnel is under its limit and its client under the client limit |
| Accounting.Flusher.FlushOne | internal/tunnel/server.go:596-606 | one turn stores exactly what is new since the last successful flush and remembers it, or changes nothing |
| Accounting.Flusher.Tick | internal/tunnel/server.go:589-609 | in any order and with any failures, each stored total moves by exactly what its lastFlushed moves, which stays or catches up with the counter - and does catch up, for every existing tunnel, while the database works |
| Accounting.RunKeeps | internal/tunnel/server.go:561-609 | the books of every tunnel balance after every run |
| Accounting.Conservation | internal/tunnel/server.go:589-609 | within one process: a surviving tunnel's total is its total at process start plus what was flushed, is the sum of its samples, and was all counted |
| Accounting.EveryByteAccountedFor | internal/tunnel/server.go:558-609 | over all processes: what a tunnel started with and all ever counted for it is what is stored, what is pending, and what restarts dropped unflushed |
| Accounting.FailedFlushIsRetriedInFull | internal/tunnel/server.go:602-606 | a failed flush changes nothing, the next success stores everything counted by its snapshot |
| Routing.HandleUpdateTunnelSettings | internal/api/tunnels.go:275-314 | which requests are refused and why, that an accepted one sets exactly the three settings, and that a failing read afterwards is reported with them set |
| Routing.HandleUpdateTunnel | internal/api/tunnels.go:233-263 | the toggle sets exactly the flag, or nothing; enabling is refused for an unknown tunnel or a port that cannot be bound |
| Routing.UpdateKeepsExactlyIf | internal/api/tunnels.go:293-306 | a settings update keeps hostnames distinct if and only if the check answered or was not needed |
| Routing.ReachablePorts | internal/db/schema.sql:23 | in every reachable state whatsoever nonzero public ports are pairwise distinct and the keys hold |
| Routing.ReachableUnique | internal/api/tunnels.go:293-301 | in every state reached with every asked hostname check answered, nonempty hostnames are pairwise distinct as well |
| Routing.LookupIsDeterministic | internal/db/db.go:636-645 | with every asked check answered a hostname lookup has at most one match, whatever the row order |
| Routing.FailedCheckShadows | internal/api/tunnels.go:297 | a run with a failed check after which a lookup has two matches |
| Routing.HandleMinecraftConn | internal/tunnel/mcrouter.go:63-87 | a routed connection goes to an enabled TCP tunnel holding the hostname its stream names, with the whole stream still to be read |
| Routing.NoHostnameNeverRouted | internal/tunnel/mcrouter.go:125-127 | a tunnel without a hostname is never a match |
| Routing.HandshakeFindsTunnel | internal/tunnel/mcrouter.go:74-86 | in every state reached with every asked check answered, a handshake for any variant of an enabled tunnel's hostname matches that tunnel and no other |
| CreateTunnels.UnmarshalPortSpec | internal/api/tunnels.go:80-114 | the ports a JSON value stands for, or its rejection |
| CreateTunnels.Expand | internal/api/tunnels.go:108-111 | the loop lists exactly start to end |
| CreateTunnels.RangeRoundTrip | internal/api/tunnels.go:91-112 | a range written out, with any white space around its parts, stands for exactly a..b |
| CreateTunnels.NumberRoundTrip | internal/api/tunnels.go:94-101 | a padded number stands for itself |
| CreateTunnels.NumbersAndTexts | internal/api/tunnels.go:80-101 | a JSON number stands for the same port as its text, and null for zero |
| CreateTunnels.AcceptedPorts | internal/api/tunnels.go:91-112 | every accepted text stands for a nonempty run of consecutive numbers |
| CreateTunnels.CheckPorts | internal/api/tunnels.go:156-181 | accepts exactly matching lengths and ports in range, without 0 inside a range |
| CreateTunnels.Rollback | internal/api/tunnels.go:189-193 | afterwards the table is the original plus the rows whose deletion failed |
| CreateTunnels.HandleCreateTunnel | internal/api/tunnels.go:125-227 | all or nothing: success adds exactly the planned tunnels in order, any refusal leaves every table as it was unless a rollback deletion fails; while the database works it succeeds exactly if the request is acceptable, its client known, and every port but 0 can be bound and is on no tunnel |
| CreateTunnels.EmptyMeansMissing | internal/api/tunnels.go:76-78 | only an omitted field gives an empty port list |
| CreateTunnels.FreeMeans | internal/api/tunnels.go:205-218 | only bound ports and existing tunnels can be in the way, never another port of the same request |
| CreateTunnels.MissingPortPanics | internal/api/tunnels.go:195-225 | concrete requests that pass every check and reach the index into an empty list |
| CreateTunnels.RangePairing | internal/api/tunnels.go:195-203 | the k-th tunnel of a range forwards port a+k from public port c+k and is named after it |
| CreateTunnels.SinglePairing | internal/api/tunnels.go:195-213 | a request with one port on each side makes one tunnel between just these, for its client, host and protocol, under the plain name |
| CreateTunnels.Defaults | internal/api/tunnels.go:132-139 | a blank host is the loopback address, a blank name the host, a missing protocol TCP; anything else is taken without the white space around it |
| Listeners.Registry.Reconcile | internal/tunnel/server.go:434-465 | in any iteration order the pass keeps, stops and starts exactly the listeners the relation says, and cancels none twice |
| Listeners.Registry.StopAll | internal/tunnel/server.go:163-169 | every running listener is cancelled once and the map is empty |
| Listeners.Converges | internal/tunnel/server.go:413-494 | afterwards a tunnel has a listener exactly if it is enabled with a nonzero port nobody else holds (or had one), on the port number of its row, UDP exactly if its protocol is "udp" |
| Listeners.SecondPassDoesNothing | internal/tunnel/server.go:448-451 | a second pass over the same rows changes nothing |
| Listeners.PortTakeover | internal/tunnel/server.go:437-464 | a new tunnel gets a just-deleted tunnel's port in the same pass |
| Lifecycle.CancelAtMostOnce | internal/tunnel/server.go:163-168 | over any run of edits, passes and repeated shutdowns each cancel runs at most once |
| Lifecycle.RunningNeverCancelled | internal/tunnel/server.go:439-443 | a running listener was never cancelled |
| Lifecycle.PassCatchesUp | internal/tunnel/server.go:413-494 | in every reachable state one undisturbed pass makes listeners follow the enabled tunnels exactly, on the port and transport of each row |
| Lifecycle.AtMostOnePassAfterClose | internal/tunnel/server.go:414-421 | after the channel is closed only a pass already past the check can take the lock |
| Lifecycle.ShutdownIsFinal | internal/tunnel/server.go:148-169 | with no pass in that window listeners stay empty for good after the sweep |
| Lifecycle.WindowReopens | internal/tunnel/server.go:414-434 | after the sweep some continuation has listeners if and only if a pass is past the check and has yet to read its rows or has read one with a port |
| Lifecycle.WindowIsReached | internal/tunnel/server.go:148-169 | runs from a fresh start to both kinds of window |
| Sessions.Hub.Register | internal/tunnel/server.go:245-250 | the old session is closed and replaced under one lock |
| Sessions.Hub.Unregister | internal/tunnel/server.go:258-262 | the entry goes only if it is the handler's own session |
| Sessions.NewestOrAbsent | internal/tunnel/server.go:245-262 | over every interleaving all but the newest registered session are closed, the entry is the newest or absent, and absent exactly if the newest closed and its own handler cleaned up |
| Sessions.StaleHandlerIsHarmless | internal/tunnel/server.go:258-261 | a late handler never removes its successor |
| Sessions.ReconnectIsReachable | internal/tunnel/server.go:534-536 | a machine whose newest session lives is found in the table |
| Sessions.DisconnectedIsForgotten | internal/tunnel/server.go:255-262 | a machine that disconnects is out of the table once its handler has woken up |
| Fingerprint.Sound | internal/tunnel/server.go:349-366 | within one history equal fingerprints mean equal lists, whatever characters hosts contain |
| Fingerprint.FixedLengthIsNeeded | internal/tunnel/server.go:363 | without fixed-length ids two tunnels and one can have the same fingerprint |
| Fingerprint.NumberReads | internal/tunnel/server.go:363 | a printed port reads back as itself |
| ConfigPush.ClientSession.PushTunnelConfig | internal/tunnel/server.go:348-377 | the loop builds the enabled list and its fingerprint, writes unless unchanged, and remembers the fingerprint only of a good write |
| ConfigPush.Machine.Receive | internal/tunnel/client.go:184-191 | the targets become the map of the pushed list |
| ConfigPush.MapOfExact | internal/tunnel/client.go:184-187 | with distinct ids the map holds exactly the list |
| ConfigPush.PushConverges | internal/tunnel/server.go:332-378 | after an error-free push in a session without failed writes and a drained stream the targets are exact; a session that never pushed has no enabled tunnel |
| ConfigPush.CleanUnlessDelivered | internal/tunnel/server.go:370-377 | a history in which no write fails with something delivered is clean throughout |
| ConfigPush.ExactMeans | internal/tunnel/client.go:260-262 | exact targets, tunnel by tunnel in both directions |
| ConfigPush.ExactAfterPushIf | internal/tunnel/server.go:366-377 | in any session with an intact stream a push makes the targets exact if and only if it is not skipped, or what the machine heard last - or, having heard nothing, still has - was right |
| ConfigPush.FirstPushExactIf | internal/tunnel/server.go:349-368 | the first push of a session makes them exact if and only if something is enabled or the machine has no targets |
| ConfigPush.FailedWriteLeavesStaleTargets | internal/tunnel/server.go:366-376 | a reachable state with stale targets that no push repairs |
| ConfigPush.EmptyListNotPushed | internal/tunnel/server.go:349-368 | a fresh session skips the push exactly if nothing is enabled, and old targets stay |
| ConfigPush.TornSaysNothing | internal/protocol/protocol.go:172-177 | after a frame was cut off nothing written in the session reaches the machine |
| ConfigPush.DisabledTunnelStays | internal/tunnel/server.go:349-368 | a reachable state in which a machine keeps a disabled tunnel and no push changes it |
| UdpMux.Sessions.Route | internal/tunnel/udp.go:205-217 | a known sender gets the socket it has, a new one a new socket if dialling works, and no other session changes |
| UdpMux.Sessions.Take | internal/tunnel/udp.go:205-243 | the packet loop up to the write: the sender's own open socket, marked as active now |
| UdpMux.Sessions.ReapIdle | internal/tunnel/udp.go:186-194 | exactly the senders idle since before the cutoff lose their socket |
| UdpMux.DeliveredInOrder | internal/tunnel/udp.go:199-247 | what local sockets deliver is in order and without repetition some of what arrived, each on a socket of its own sender |
| UdpMux.NextIsDelivered | internal/tunnel/udp.go:199-247 | if nothing fails the packet at the head of the stream is delivered byte for byte, on its sender's socket if there is one and otherwise on a new one that becomes it |
| UdpMux.ArrivalIsDelivered | internal/tunnel/udp.go:116-147 | and so is a datagram that arrives while nothing is under way |
| UdpMux.ReplyIsSent | internal/tunnel/udp.go:219-238 | if nothing fails a reply to a socket goes out to the socket's sender byte for byte |
| UdpMux.CutSilences | internal/protocol/protocol.go:172-177 | after a frame was cut off the server reads none of what the readers still write |
| UdpMux.NoCrossWiring | internal/tunnel/udp.go:88-148 | every datagram sent to a public address is one the local service sent to a socket of that address, none twice, each socket's in order |
| UdpMux.RepliesHaveKnownSenders | internal/tunnel/udp.go:105-110 | no reply is dropped for want of a known sender |
| UdpMux.SocketsAreDedicated | internal/tunnel/udp.go:157-161 | two senders never share a socket, a reader answers its own sender |
| Credentials.Authenticate | internal/tunnel/server.go:196-208 | accepted, told to uninstall, or invalid, as the tables say |
| Credentials.HandleConn | internal/tunnel/server.go:196-252 | an accepted client is marked as seen in a statement of its own, whose failure leaves it accepted and unmarked |
| Credentials.HandleCreateClient | internal/api/clients.go:60-89 | the client and its code, the client alone if the code fails, or nothing |
| Credentials.HandleReissueInstall | internal/api/clients.go:101-130 | refused once seen; otherwise a new token with its code, or the token alone if the code fails |
| Credentials.LiveAreNotRevoked | internal/db/db.go:471-479 | no client's token is revoked and no two clients share one |
| Credentials.AcceptedAs | internal/db/db.go:383-385 | a token is accepted exactly as the client it was generated for, while current |
| Credentials.SettledInvalidExactlyIfLate | internal/api/clients.go:103-113 | with the handler's check and rotation apart, a token that connected is accepted or answered with Uninstall ever after, and invalid exactly if a handler that had checked before rotated it after |
| Credentials.ConnectedIsNeverInvalid | internal/api/clients.go:95-111 | with every reissue handler taken as one step, a token that connected is ever after accepted or answered with Uninstall |
| Credentials.ConnectingSettles | internal/tunnel/server.go:197-252 | accepting and marking as seen in one step makes a token one that connected, for good |
| Credentials.InvalidExactlyIfRotated | internal/db/db.go:364-379 | of all tokens ever generated exactly those are invalid that a reissue took while they were current |
| Credentials.RaceExactlyIfRotated | internal/tunnel/server.go:210-252 | whatever happens between a machine's acceptance and its marking as seen, and after: its token is invalid at the end if and only if a reissue rotated it in between, or one that had checked in time rotated it after |
| Credentials.ReissueRace | internal/api/clients.go:108-113 | a run in which a connected machine's token becomes invalid |
| Credentials.LateReissue | internal/api/clients.go:108-113 | a run in which a machine marked as seen in time loses its token to a reissue that had checked before |
| Credentials.RotationsHaveChecks | internal/api/clients.go:108-113 | every late rotation has had a check of its own |
| Credentials.RevokedForever | internal/db/db.go:536-542 | a revoked token is answered with Uninstall for good |
| Credentials.InvalidForever | internal/db/db.go:360-379 | a rotated token is never accepted again |
| Credentials.ExchangedAtMostOnce | internal/db/db.go:809-838 | over every run a code is exchanged at most once, and is useless afterwards |
| Credentials.CodesAreUnique | internal/db/db.go:792-806 | over every run two codes with the same token are the same code |
| Credentials.HandedAtMostOnce | internal/db/db.go:809-842 | over every run a token is handed out at most once |
| Credentials.BurntExactlyIfReadFailed | internal/db/db.go:833-841 | a code is consumed with its token handed to nobody, by it or any other code, if and only if the read failed in the exchange that consumed it |
| Credentials.LostExchange | internal/db/db.go:833-841 | a run in which the code is gone, the token was handed to nobody, and no other code has it |
| Credentials.CodeYieldsAcceptedToken | internal/db/db.go:788-842 | an outstanding code's token is accepted exactly if the code is its client's newest and no rotation since went without a code |
| Credentials.ReissueWithoutCode | internal/api/clients.go:113-122 | a run in which the latest code redeems for an invalid token |
| LanScan.HostsIn | internal/lanscan/lanscan.go:128-143 | for a network address exactly the addresses strictly between network and broadcast |
| LanScan.HostsIncrease | internal/lanscan/lanscan.go:138-141 | in strictly increasing order |
| LanScan.NoWrap | internal/lanscan/lanscan.go:139 | the 32-bit sum never wraps for an aligned base |
| LanScan.IpLess | internal/lanscan/lanscan.go:159-170 | on IPv4 addresses the loop decides the numeric order of the packed bytes |
| LanScan.StrictTotalOrder | internal/lanscan/lanscan.go:159-170 | the order is strict and total |
| LanScan.LocalSubnets | internal/lanscan/lanscan.go:92-124 | exactly the private subnets within the size guard of interfaces that are up and not loopback |
| LanScan.ScannedSubnet | internal/lanscan/lanscan.go:116-120 | each is aligned, contains the interface's address, and has at most 1022 hosts |
| LanScan.OnlyPrivateProbed | internal/lanscan/lanscan.go:112-120 | every address that is probed is a private one |

## Left out

- TLS, certificates, password hashing, SHA-256: library code; a hash is something that determines its text.
- The multiplexer's own framing, windows, keepalives and timeouts: a stream is a FIFO of bytes or frames that may break at any step, and may report end-of-file early to a side that has closed its own end.
- SQLite and the schema migration: tables are maps; UNIQUE, foreign keys, cascades and transactions are modelled, the engine is not. Counters are unbounded integers, not 64-bit.
- JSON and base64: a frame's payload is opaque bytes, and a message and its encoding are the same thing. Port fields are JSON values that have been parsed already.
- The text of the PROXY line: an opaque function of the header the client received. Its difficulty is in parsing and printing IP addresses.
- Case folding and white space trimming of hostnames outside ASCII.
- Deadlines and retry delays: any read, write, dial or statement may fail at any time instead; the clock is a parameter.
- The kernel giving a closed socket's port to a new socket, and datagrams reordered or duplicated before they reach a socket.
- Bytes that follow a frame cut off by a failed write: both ends are taken to read nothing further from that stream. A configuration frame or UDP frame put together from such pieces that happened to parse is not part of the model.
- An old session's reader on the machine that is still applying a push when a new session starts: a machine has one session at a time here.
- The server's two UDP loops and the readers on the machine are steps of the state machine only; the machine's table of sockets, the dial and the reaper are also a class.
- The uninstall instruction on a live control stream, device reports, and the LAN scan's probing, ARP reading and name lookups.
- Running out of memory on a huge port range, and a port list of more than one request at a time: a handler is one step, so two concurrent create requests are not interleaved row by row.
- HTTP routing, sessions and cookies, setup, API keys, update checks, installer and service scripts, the web interface and its live rates, backoff, configuration files: plumbing, or easy.
- Store.DB.DeleteTunnel: answers whether the statement was carried out; what the callers tell the user about it is not modelled.
