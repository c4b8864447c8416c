# Centralisd in Dafny

Centralisd runs machines in three tiers. An *orchestrator* accepts *masters*, each master accepts *slaves* (nodes), and
commands travel down and their replies back up as one JSON object per line over TCP. This project models that system and
proves what it keeps in every run.

| files | what they model |
|---|---|
| `messages`, `correlation`, `connection`, `tier`, `relay`, `dispatch`, `delivery`, `intent` | the command relay: pending tables, one-slot channels, timeouts, reader goroutines, the sequential loops of masters and slaves, any number of connections that break and reconnect, in every interleaving; what runs, what was asked for, and what gets through |
| `auth_stream` | one master connection after authentication, with registrations and heartbeats mixed with commands |
| `process`, `handshake`, `peers`, `provenance` | the two handshakes as pairs of communicating scripts, every interleaving of an honest pair, what each side says to and concludes from an arbitrary peer, and where every stored record comes from |
| `sorting`, `registry`, `whitelists`, `targeting`, `tables`, `vm_list` | the registry with its time-to-live, the configured lists, choosing a master, the tables of live connections, gathering virtual machines |
| `text`, `json`, `packet` | framing: a printer and a parser for JSON, and streams of packets |
| `bits`, `js_numbers`, `rfc1321`, `md5` | the MD5 and HMAC-MD5 of the vendored icon conflict detector over JavaScript numbers, against RFC 1321 and RFC 2104 |
| `html_escape`, `icons` | the HTML escaper and the icon indexes of the vendored Font Awesome script |
| `wrappers`, `sequences` | shared helpers |

State that the code changes in place is a class, and its methods are proved against functions and state machines. Concurrency
is a state machine whose steps are the code's critical sections, and a theorem about a run holds for every interleaving of
them. Time is a number passed in, a timeout is a step that may come at any moment, and a broken connection may lose any
unread end of its streams.

Assumptions, all visible as parameters or preconditions: packet ids are fresh and have no white space around them; a TCP
connection keeps order and duplicates nothing; SHA-256, Ed25519 and base64url are functions of which only `Crypto.Lawful` and
`KeyPair` are assumed.

## Where the code falls short

Each of these is stated as a lemma that exhibits it, next to the exact property that does hold.

- The orchestrator keeps the table entry of a request whose write failed: `Correlation.OrchestratorLeaks`,
  `Correlation.OrchestratorTableExact`.
- The reply to a command that timed out, or to one sent without waiting, makes the orchestrator send an error that the master
  takes for the answer to its next heartbeat, and the connection ends: `AuthStream.LateReplyBreaks`,
  `AuthStream.SendNoWaitBreaks`, and `AuthStream.StrayIff` for exactly when.
- When connections with one id overlap, the end of either handler removes the other one from the table:
  `Tables.OverlapLosesOther`, and `Tables.NeverLostIff` for exactly when nobody is lost.
- For strings of 2^31 bits and more, which is 2^28 characters, the MD5 padding has no marker bit, because bit indexes and the
  length are shifted as signed numbers: `Md5.MarkerLost`, and `Md5.PadString` for exactly when the padding is right.
- With an empty table of allowed clusters every cluster is known but none is listed: `Registry.Store.ViewsAgree`.
- A whitelist that names clusters but no ids admits everyone: `Whitelists.Admits`.
- docs/Protocol.md says that a slave may answer a command; the code always answers, which is what `Dispatch` models.

## Model

| member | source | states |
|---|---|---|
| `Relay.AtMostOnce` | src/master/orchestrator_client.go:217-272 | In every run, a request with an id is executed at most once per node, and one that names a node at most once in all. |
| `Relay.OkMeansExecutedOnce` | src/orchestrator/tcp/server.go:124-164 | In every run, a call that returns ok is an earlier call of that id, and if that call named a node it was executed exactly once: by a slave under the node id it named, with the command bytes it gave; it returns that execution's output. |
| `Relay.SentKept` | src/orchestrator/tcp/server.go:124-192 | Ever after a call, whatever happens, its request names the connection, the target and the command that the caller gave. |
| `Relay.ExecutedAsAsked` | src/orchestrator/tcp/server.go:124-192 | Whatever the call returns, all that was executed for it are the bytes it was given, on the node it named and then at most once; if it names none, at most once on each. |
| `Intent.NothingUnasked` | src/orchestrator/tcp/server.go:233-251 | In every run, whatever ran on a node was given, byte for byte, to an earlier call, waiting or not, for that node or for no node in particular. |
| `Delivery.SlaveCarries` | src/slave/handlers/node_command.go:10-41 | In every state, a slave that takes a command logs a run of those bytes if it has a handler, and writes its verdict and output in reply to that packet. |
| `Delivery.MasterCarries` | src/master/orchestrator_client.go:257-270 | In every state, a node's answer that the master collects is written to the orchestrator as it is, for the same request and node; any other outcome is reported as not ok. |
| `Delivery.Delivers` | src/master/orchestrator_client.go:217-272 | For every command to a node there is a run in which the call returns exactly what the slave answered, ok or not, and the slave ran exactly the bytes of the call or, without a handler, nothing. |
| `Relay.StepKeeps` | src/master/nodes.go:35-165 | Every step of orchestrator, master, slave, reader, waiter and network keeps the invariant that links requests, packets in flight, loops and executions. |
| `Correlation.StepKeeps` | src/master/nodes.go:35-86 | Each atomic step of a call, of `resolveReply` and of the reader keeps table, channels and waiters consistent on both kinds of connection. |
| `Correlation.SendNeverBlocks` | src/orchestrator/tcp/server.go:82-97 | In every run each one-slot channel is sent to at most once, so the send in `resolveReply` finds it empty. |
| `Correlation.OwnReply` | src/orchestrator/tcp/server.go:42-80 | A call returns only a packet that replies to its own id. |
| `Correlation.ReplyReturned` | src/orchestrator/tcp/server.go:57-97 | A waiting call whose reply is read returns that very packet three steps later. |
| `Correlation.OutcomeTrue` | src/master/nodes.go:52-69 | In every run a returned packet was read from the stream for that id, a write error follows a failed write of that call, and a timeout its expiry. |
| `Correlation.ReturnedForGood` | src/master/nodes.go:60-69 | No later step changes the result of a call that has returned. |
| `Correlation.NodeTableExact` | src/master/nodes.go:53-68 | On the node side the table holds exactly the ids of calls under way for which no reply was taken. |
| `Correlation.OrchestratorTableExact` | src/orchestrator/tcp/server.go:57-79 | On the orchestrator side it also holds the calls whose write failed, and nothing else. |
| `Correlation.OrchestratorLeaks` | src/orchestrator/tcp/server.go:58-65 | A run in which a call has returned with a write error and its entry remains. |
| `Connection.ResolvedIsTakeDeliver` | src/master/nodes.go:71-86 | An undisturbed `resolveReply` is its two atomic steps in a row, and the waiter's channel is empty before. |
| `Connection.Conn.Register` | src/master/nodes.go:45-51 | A fresh channel is entered before anything is written; the connection stays valid. |
| `Connection.Conn.Remove` | src/master/nodes.go:63-67 | Deletes the one entry of a call that timed out or, on the node side, failed to write. |
| `Connection.Conn.Advance` | src/master/nodes.go:53-63 | The steps of a waiter that touch neither table nor channel keep the connection valid. |
| `Connection.Conn.ResolveReply` | src/master/nodes.go:71-86 | Says whether the packet matches a waiter; if so moves it into that waiter's channel and drops the entry, and changes no other channel. |
| `Connection.Conn.Await` | src/master/nodes.go:60-62 | The waiter receives the packet that replies to its own id. |
| `Dispatch.HandleNodeCommand` | src/slave/handlers/node_command.go:10-41 | Writes exactly one reply on every branch, naming the command's packet, and runs a handler exactly once if the command decodes and its action is known, otherwise none. |
| `Dispatch.HandlePacket` | src/slave/slave.go:179-195 | One reply to a heartbeat or a command, none to any other packet; handlers run only for commands. |
| `Dispatch.SlaveLoop` | src/slave/slave.go:179-195 | Over any input, with handlers that come to something else each time, the replies and the handler runs are those of the packets in order, and nothing else. |
| `Dispatch.OkRepliesRan` | src/slave/handlers/node_command.go:26-31 | The ok replies of a slave are exactly its successful handler runs, in order, each with its packet and its output. |
| `Dispatch.SlaveTurnSays` | src/slave/handlers/node_command.go:10-41 | Case by case what a slave says and runs: the reply to a heartbeat, each refused command, and the verdict and output of each handler run. |
| `Dispatch.SlaveRefines` | src/slave/handlers/node_command.go:10-41 | The replies and the handler runs of a packet are what some slave step of the relay model writes and logs for it. |
| `Dispatch.ServePacket` | src/master/orchestrator_client.go:219-271 | Exactly one reply for each non-empty command whichever branch it takes, one request to a node only for a command to a connected node; answers to the master's own requests are handed over. |
| `Dispatch.ReadOrchestratorLoop` | src/master/orchestrator_client.go:217-272 | Over any input, with nodes that come and go, replies, requests to nodes and handed-over answers are those of the packets in order, none lost or doubled. |
| `Dispatch.MasterTurnSays` | src/master/orchestrator_client.go:236-270 | Case by case what a master says and asks: a node's answer is passed on with its verdict and text, its own result for a command to itself, and not ok for an absent node and for every outcome that is no answer. |
| `Dispatch.MasterRefines` | src/master/orchestrator_client.go:236-270 | On all three branches, a command to the master, to an absent node and to a connected one, the steps of the relay model conclude with the same answer and write the same reply. |
| `Dispatch.Ignored` | src/master/orchestrator_client.go:217-235 | A packet that is no command, or an empty one, leaves the relay model's master reading, with nothing written, asked or run. |
| `Dispatch.OneReplyEach` | src/slave/handlers/node_command.go:34-41 | The replies of a slave name the packets that asked for one, each once, in order. |
| `AuthStream.PipelineEffect` | src/orchestrator/tcp/server.go:378-422 | Requests and their numbered answers keep their order through both streams and both loops; only a new request lengthens the line. |
| `AuthStream.FlightEffect` | src/orchestrator/tcp/server.go:384-386 | Commands reach their replies in order, and a received reply is the oldest in flight. |
| `AuthStream.AnswersMatch` | src/master/orchestrator_client.go:148-215 | In every run the i-th answer taken answers the i-th register or heartbeat, except for a stray error that ends the connection; at most one request is outstanding. |
| `AuthStream.VerdictOf` | src/orchestrator/tcp/server.go:408-418 | The verdict on the request with number i is the i-th verdict of the orchestrator. |
| `AuthStream.ClosesIff` | src/master/orchestrator_client.go:192-215 | In every run the connection ends exactly at the first answer taken that is a stray error or answers a request which the orchestrator refused; every earlier answer is to its own request, which was accepted. |
| `AuthStream.NeverCloses` | src/master/orchestrator_client.go:148-215 | With every update accepted and no stray error the connection never ends. |
| `AuthStream.StrayIff` | src/orchestrator/tcp/server.go:384-421 | In every run the orchestrator sends a stray error exactly when it reads a command reply whose call has timed out and deleted its entry, or that answers a command sent without waiting. |
| `AuthStream.AnswersOwn` | src/master/orchestrator_client.go:192-215 | As long as no such reply was read, every answer taken answers its own request, whatever timed out. |
| `AuthStream.NoStrays` | src/orchestrator/tcp/server.go:378-422 | In particular without timeouts and without sends that do not wait, whatever commands are interleaved. |
| `AuthStream.LateReplyBreaks` | src/orchestrator/tcp/server.go:418-421 | A run with one timeout in which a late reply's error is taken for the answer to a heartbeat. |
| `AuthStream.SendNoWaitBreaks` | src/orchestrator/tcp/server.go:233-251 | The same through one command sent without waiting. |
| `AuthStream.TableRuns` | src/orchestrator/tcp/server.go:42-97 | The calls on the connection take the steps of the correlation model, so what holds in its runs holds here. |
| `AuthStream.WaitMoves` | src/master/orchestrator_client.go:192-215 | In every run, while the master waits for an answer, some goroutine can move what is under way. |
| `AuthStream.WaitEnds` | src/master/orchestrator_client.go:192-215 | With nothing new sent, such steps are bounded by the weight of what is under way, and they stop only when the master no longer waits. |
| `Process.Diamond` | src/core/protocol/line.go:9-36 | Steps of two processes joined by FIFO streams commute. |
| `Process.SameEnd` | src/core/protocol/line.go:9-36 | If one interleaving of two scripts comes to an end, every run is at most as long and ends there. |
| `Handshake.SlaveAccepted` | src/slave/slave.go:91-161 | An honest slave that the master admits ends connected and registered under its id, whatever the interleaving. |
| `Handshake.SlaveRefused` | src/master/server.go:60-66 | An honest slave that is not on a non-empty list ends with an error, and the master registers nobody. |
| `Handshake.SlaveEveryRun` | src/master/server.go:23-99 | Every run of the pair ends after at most ten steps with both sides done, connected exactly when registered with the slave's id. |
| `Handshake.MasterHandshake` | src/orchestrator/tcp/server.go:288-375 | The same for a master with the orchestrator, where the challenge comes first. |
| `Handshake.MasterEveryRun` | src/master/orchestrator_client.go:84-146 | Every run of that pair ends, connected exactly when registered with the master's id and cluster, otherwise the whitelist does not name it. |
| `Handshake.Connect` | src/slave/slave.go:91-161 | The slave's side performs its script line by line and ends with its outcome. |
| `Handshake.HandleConnection` | src/master/server.go:23-99 | The master's side performs its script. |
| `Handshake.ConnectLoop` | src/master/orchestrator_client.go:84-146 | The master's side towards the orchestrator performs its script. |
| `Handshake.HandleConn` | src/orchestrator/tcp/server.go:288-375 | The orchestrator's side performs its script. |
| `Handshake.HonestIdentity` | src/core/protocol/handshake.go:19-64 | An id made from a key verifies for that key, and a signature made over a challenge verifies over it, through trimming and encoding. |
| `Handshake.AssumptionsHold` | src/core/protocol/handshake.go:19-64 | What is assumed of hash, signature and encoding can be met by functions under which not every signature verifies. |
| `Peers.OrchRegistersIff` | src/orchestrator/registry/auth.go:12-24 | Whatever a peer sends, the orchestrator registers it exactly when it proved a key whose id it claims and the whitelist admits that id for its cluster. |
| `Peers.MasterRegistersIff` | src/master/server.go:23-99 | The same for a master and an arbitrary peer that claims to be a slave. |
| `Peers.AfterAppend` | src/orchestrator/tcp/server.go:288-375 | Hearing one more line takes a handler exactly one read further, so its answer depends only on what it heard and in which order. |
| `Peers.OrchSays` | src/orchestrator/tcp/server.go:288-375 | Whoever connects, the orchestrator challenges it after the right header, says ok exactly if it registers the peer and error exactly if it rejects it, and ends without a word exactly on a line that is no packet. |
| `Peers.MasterSays` | src/master/server.go:23-99 | The same of a master and a would-be node, which is challenged exactly after a hello whose id is that of its key and is on the allow list, if there is one. |
| `Peers.SlaveConcludes` | src/slave/slave.go:110-161 | Whoever answers, a slave ends connected exactly on a challenge that it can sign followed by auth.ok, and rejected exactly on an error in place of the challenge or any other packet in place of auth.ok. |
| `Peers.SlaveUnrolled` | src/slave/slave.go:91-161 | All that a slave writes on each kind of input: the header, a hello with the id of its key and its key, and its signature over the trimmed challenge. |
| `Peers.MasterConcludes` | src/master/orchestrator_client.go:84-146 | Whoever answers, a master ends connected exactly on a challenge followed by auth.ok, and rejected exactly on a challenge followed by an error. |
| `Peers.MasterClientUnrolled` | src/master/orchestrator_client.go:84-146 | All that a master writes on each kind of input, with its cluster trimmed and a blank one replaced by the default. |
| `Provenance.HandleUpdate` | src/orchestrator/tcp/server.go:387-417 | An update is stored exactly when it has an id, names the authenticated id and cluster, and its cluster is one of the allowed ones, if there is a table with a row. |
| `Provenance.UpdateEffect` | src/orchestrator/tcp/server.go:387-417 | In the state machine, an update on a registered connection appends its record, stamped with the time and tied to the connection, under exactly these conditions, and otherwise changes nothing. |
| `Provenance.StepKeeps` | src/orchestrator/tcp/server.go:277-423 | Any step of any connection keeps every log entry tied to a registered connection with its identity. |
| `Provenance.RecordsProven` | src/orchestrator/registry/registry.go:35-51 | After any run of any number of arbitrary connections, a stored record has its own id as key, is whitelisted, is of an allowed cluster, and the connection that brought it is one that proved a key whose id it is, up to trimming. |
| `Registry.Store.constructor` | src/orchestrator/registry/registry.go:24-33 | An empty store; a time-to-live that is not positive becomes a minute. |
| `Registry.Store.UpsertMaster` | src/orchestrator/registry/registry.go:35-51 | Accepts exactly what has an id and an allowed cluster; then the log grows by that record, which replaces the one of its id. |
| `Registry.Store.LiveHeld` | src/orchestrator/registry/registry.go:17-22 | The records not older than the time-to-live are exactly the last accepted upsert of each id that is recent enough. |
| `Registry.ShownUntilTtl` | src/orchestrator/registry/registry.go:67-69 | A master is shown until its last upsert is older than the time-to-live, whatever came before it and whatever others report later. |
| `Registry.Store.MastersForCluster` | src/orchestrator/registry/registry.go:152-172 | Lists each live master of the cluster once: the current record of its id, of that cluster and no older than the time-to-live. |
| `Registry.Store.NodesForCluster` | src/orchestrator/registry/registry.go:130-150 | Has, as a multiset, the nodes of those masters, whatever the iteration order. |
| `Registry.Store.IsClusterOnline` | src/orchestrator/registry/registry.go:110-128 | Holds exactly when the cluster has a live master, in terms of the log and of the records kept. |
| `Registry.Store.OnlineIffSomeMaster` | src/orchestrator/registry/registry.go:110-172 | So it holds exactly when the list of masters is not empty. |
| `Registry.Store.ActiveClusters` | src/orchestrator/registry/registry.go:53-83 | The sorted list, without duplicates, of the allowed clusters or else of the non-empty clusters that are online. |
| `Registry.Store.IsKnownCluster` | src/orchestrator/registry/registry.go:85-108 | A non-empty cluster that is allowed or, without a set of allowed ones, online. |
| `Registry.Store.ViewsAgree` | src/orchestrator/registry/registry.go:53-108 | The two cluster views agree exactly when there is no set of allowed clusters or its table is not empty. |
| `Registry.AllowedClusters.EnsureSeed` | src/orchestrator/registry/allowed_clusters.go:23-35 | Adds the non-empty names to the table and removes nothing. |
| `Registry.AllowedClusters.List` | src/orchestrator/registry/allowed_clusters.go:37-50 | The rows in ascending order, each once. |
| `Registry.AllowedClusters.IsAllowed` | src/orchestrator/registry/allowed_clusters.go:52-75 | Everything without a table or with an empty one, otherwise the non-empty names in it. |
| `Registry.MasterHasNode` | src/orchestrator/registry/registry.go:174-184 | Whether the master lists the non-empty node id. |
| `Sorting.SortSorts` | src/orchestrator/registry/registry.go:77-82 | Sorting gives an ordered permutation. |
| `Sorting.LessIff` | src/orchestrator/registry/registry.go:77-82 | The order is lexicographic: decided at the first place where two names differ, a prefix coming first. |
| `Sorting.SortedUnique` | src/orchestrator/registry/registry.go:77-82 | There is only one, so the random order of a Go map does not show in the result. |
| `Whitelists.SliceToSet` | src/main.go:16-28 | The set of the non-empty names. |
| `Whitelists.WhitelistClusters` | src/main.go:30-39 | Each non-empty cluster name once. |
| `Whitelists.WhitelistClusterMasters` | src/main.go:41-66 | The clusters with at least one non-empty id, each with its non-empty ids. |
| `Whitelists.Admits` | src/main.go:41-66 | The configured whitelist admits exactly the masters it names for their cluster, or everyone if it names no id at all. |
| `Whitelists.SeedPermits` | src/main.go:98-106 | Seeding the allowed clusters from the same whitelist never locks out a master that a non-empty whitelist admits. |
| `Targeting.SendClusterCommandWait` | src/orchestrator/tcp/server.go:194-231 | At most one send; it goes to an eligible live master whenever there is one, whose outcome is the result; otherwise nothing is sent and the result is an error. |
| `Targeting.MayCarry` | src/orchestrator/tcp/server.go:194-231 | Eligible are the masters that the registry shows for the cluster, with an id and, for a command to a node, with that node among theirs. |
| `Targeting.Sender.SendCommandWait` | src/orchestrator/tcp/server.go:124-164 | Sends only through a connected master, and returns a reply exactly if a readable reply of the right type to this very packet came back, that one. |
| `Tables.Table.Enter` | src/master/nodes.go:121-130 | The table follows the log of events by one entry; an empty id is refused. |
| `Tables.Table.Leave` | src/master/nodes.go:132-139 | The table follows the log by one removal, whosever entry it is. |
| `Tables.Table.Lookup` | src/master/nodes.go:158-160 | Finds the handler that the last event about the id entered. |
| `Tables.Table.ListConnected` | src/master/nodes.go:167-175 | Lists each such id once. |
| `Tables.EntryRuns` | src/master/server.go:99-113 | In every run an entry belongs to a handler that has not ended and has that id. |
| `Tables.TableExact` | src/orchestrator/tcp/server.go:99-122 | If connections with one id never overlap, the table is exactly the running handlers by id. |
| `Tables.NeverLostIff` | src/master/nodes.go:121-139 | No running handler is ever missing from the table exactly when connections with one id never overlap. |
| `Tables.OverlapLosesOther` | src/orchestrator/tcp/server.go:115-122 | After any overlap, the end of either handler leaves the other one running and not in the table. |
| `VmList.HandleMasterCommand` | src/master/orchestrator_client.go:274-332 | The reply is the gathered list for the one known action, and an error for anything else. |
| `VmList.EntryPerNode` | src/master/orchestrator_client.go:285-322 | Whatever the nodes answer, the list has one entry per connection of a non-blank node and no other. |
| `VmList.EntriesOwn` | src/master/orchestrator_client.go:296-321 | Each entry says what its own node answered. |
| `VmList.EntriesSay` | src/master/orchestrator_client.go:296-321 | An entry has the domains of its node and no error if the node answered ok with a list; otherwise no domains and the failure's own message, for each of the five failures. |
| `VmList.DomainsKept` | src/master/orchestrator_client.go:285-322 | The domains of the whole list are those of the nodes that answered ok, in order, none lost and none added. |
| `VmList.InSnapshotOrder` | src/master/orchestrator_client.go:285-322 | The entries come in the order of the snapshot. |
| `VmList.FetchVMDomains` | src/orchestrator/web/main.go:348-384 | The page list is, as a multiset, the parts of the live masters with an id, each once. |
| `VmList.PartSays` | src/orchestrator/web/main.go:362-383 | A master with an id contributes its list if it answered ok with one, and otherwise one entry with the failure's own message. |
| `VmList.PageComplete` | src/orchestrator/web/main.go:362-383 | When all masters answer, the page has an entry for a node as often as a live master is connected to it. |
| `VmList.PageDomains` | src/orchestrator/web/main.go:362-383 | When all masters answer, the domains on the page are those of all nodes that answered ok, none lost and none added. |
| `Json.RoundTrip` | src/core/protocol/packet.go:62-66 | Parsing the printed text of a JSON value gives the value back, for every nesting and every string. |
| `Json.StringRoundTrip` | src/core/protocol/packet.go:62-66 | String escapes are undone, whatever text follows. |
| `Json.SurrogatePair` | src/core/protocol/packet.go:72-92 | Any character beyond the Basic Multilingual Plane may come as the escapes of its surrogate pair. |
| `Json.NumberIff` | src/core/protocol/packet.go:72-92 | The parser takes as numbers exactly the texts of the grammar of RFC 8259, section 6. |
| `Json.PrintOneLine` | src/core/protocol/line.go:9-21 | Printed JSON has no line end in it. |
| `Json.ShortEscapes` | src/core/protocol/packet.go:72-92 | What each two-character escape of RFC 8259, section 7, stands for. |
| `Json.BadChars` | src/core/protocol/packet.go:72-92 | A raw control character and an unknown escape make a string unreadable. |
| `Text.TrimSpaceCuts` | src/core/protocol/line.go:9-21 | Trimming cuts white space at both ends, leaves none there and touches nothing else. |
| `Framing.DecodeEncode` | src/core/protocol/packet.go:12-18 | Setting the printed members rebuilds the packet, and omitted empty fields come back empty. |
| `Framing.UnmarshalMarshal` | src/core/protocol/packet.go:62-92 | Decoding a packet's line gives the packet. |
| `Framing.MarshalText` | src/core/protocol/packet.go:12-18 | The line of a packet, character by character: the type, then the fields that are not empty under their names, then the payload. |
| `Framing.OtherMembers` | src/core/protocol/packet.go:72-92 | A text field with a value that is neither text nor null is an error, null leaves the field, other names are skipped. |
| `Framing.FoldsCase` | src/core/protocol/packet.go:72-92 | A member names a field exactly when it differs from it at most in the case of its letters. |
| `Framing.ReadIff` | src/core/protocol/packet.go:72-92 | A read gives a packet exactly on a whole line that is not blank and is the text of a packet with a type that is not blank; an error takes the line as well. |
| `Framing.Writer.WritePacket` | src/core/protocol/packet.go:55-70 | Appends exactly the packet's line, or refuses a blank type and writes nothing. |
| `Framing.Writer.WriteLine` | src/core/protocol/line.go:9-21 | Appends the trimmed line, or refuses a blank one. |
| `Framing.WriteMarshalled` | src/orchestrator/tcp/server.go:28-32 | The second write path puts the same bytes on the stream as the first. |
| `Framing.Reader.ReadPacket` | src/core/protocol/packet.go:72-92 | Consumes one line and decodes it; the loop that looks for the line end is proved against the function. |
| `Framing.StreamRoundTrip` | src/core/protocol/packet.go:55-92 | Reading a stream of packets delivers exactly those written, in order; an unfinished line adds nothing. |
| `Framing.WiresAppend` | src/orchestrator/tcp/server.go:23-32 | A write under the writer lock extends the stream by one packet. |
| `Framing.WriteAll` | src/orchestrator/tcp/server.go:23-32 | Any mixture of the two write paths puts the lines of the packets on the stream in order. |
| `Framing.ReadLoop` | src/master/nodes.go:88-94 | Reading until the first error delivers the packets that the stream holds. |
| `Framing.Exchange` | src/core/protocol/packet.go:55-92 | Packets written by either path in any mixture and read by the one reader arrive as the same sequence. |
| `Framing.StreamInjective` | src/core/protocol/packet.go:55-92 | Different packet sequences give different streams, so packets never split or merge. |
| `Md5.SafeAddWraps` | static/fa6/js/conflict-detection.js:193-197 | The sum through 16-bit halves is addition wrapped to 32 signed bits. |
| `Md5.BitRotateLeftRotates` | static/fa6/js/conflict-detection.js:206-208 | For counts 1 to 31 it is the circular shift of the 32-bit word. |
| `Md5.BitRotateLeftInverse` | static/fa6/js/conflict-detection.js:206-208 | Rotating on by the complement restores the number. |
| `Md5.CmnWord` | static/fa6/js/conflict-detection.js:221-223 | One step adds, rotates and adds modulo 2^32 as section 3.4 of RFC 1321 writes it. |
| `Md5.MixWord` | static/fa6/js/conflict-detection.js:236-283 | The four expressions over JavaScript numbers are the functions F, G, H and I on words. |
| `Bits.CombBit` | static/fa6/js/conflict-detection.js:236-283 | Each bit of a conjunction, a disjunction or an exclusive or is that of the two bits there. |
| `Md5.RoundOne` | static/fa6/js/conflict-detection.js:310-325 | Unrolled steps 1 to 16 take the registers through those operations of RFC 1321 with its constants, shifts and words. |
| `Md5.RoundTwo` | static/fa6/js/conflict-detection.js:326-341 | Steps 17 to 32. |
| `Md5.RoundThree` | static/fa6/js/conflict-detection.js:342-357 | Steps 33 to 48. |
| `Md5.RoundFour` | static/fa6/js/conflict-detection.js:358-373 | Steps 49 to 64. |
| `Md5.OneBlock` | static/fa6/js/conflict-detection.js:306-378 | The 64 unrolled steps and the four final sums take the registers through one block of RFC 1321. |
| `Md5.PaddedWord` | static/fa6/js/conflict-detection.js:294-295 | The marker bit and the length stored in the sparse array are sections 3.1 and 3.2 of RFC 1321. |
| `Md5.AppendPadding` | static/fa6/js/conflict-detection.js:293-295 | From what the packing leaves, the two stores make the words of the padding as sections 3.1 and 3.2 of RFC 1321 define it, exactly for messages of fewer than 2^31 bits; one trailing zero word stays unwritten and reads as zero. |
| `Md5.PaddingIff` | static/fa6/js/conflict-detection.js:293-295 | The same of the stored array, for packed bytes and for what the packing leaves of too many. |
| `Md5.MarkerLost` | static/fa6/js/conflict-detection.js:294-294 | From 2^31 bits on the word that should hold the marker bit does not, whether or not the last bytes were packed. |
| `Md5.PadString` | static/fa6/js/conflict-detection.js:426-426 | For every string, the array that the hash goes over is the padding of its bytes exactly when it has fewer than 2^31 bits. |
| `Md5.BinlMD5` | static/fa6/js/conflict-detection.js:292-380 | For any number of blocks the result packs the RFC 1321 digest of the packed message. |
| `Md5.Rstr2binl` | static/fa6/js/conflict-detection.js:405-417 | For every string of fewer than 2^31 bits, packs its low bytes into little-endian words with zeros after the last byte; for every longer one, leaves zero in each element from index 2^26 on, where the rest belongs. |
| `Md5.Binl2rstr` | static/fa6/js/conflict-detection.js:388-396 | Unpacks every byte of every word. |
| `Md5.UnpackedPacked` | static/fa6/js/conflict-detection.js:388-417 | Unpacking packed bytes gives them back, followed only by zeros up to a multiple of four. |
| `Md5.RstrMD5` | static/fa6/js/conflict-detection.js:425-427 | The RFC 1321 digest of every byte string of fewer than 2^31 bits. |
| `Md5.RstrHMACMD5` | static/fa6/js/conflict-detection.js:436-452 | HMAC with MD5 as in section 2 of RFC 2104, for all keys and data within that bound. |
| `Md5.ReceivedConcat` | static/fa6/js/conflict-detection.js:450-450 | The array that HMAC hashes first is padded right exactly when key block and data together have fewer than 2^31 bits. |
| `HtmlEscape.PassesAreOne` | static/fa6/js/fontawesome.js:1304-1306 | The five whole-string passes replace each character by its entity, once. |
| `HtmlEscape.EntityTexts` | static/fa6/js/fontawesome.js:1304-1306 | The five entities as the script spells them, each through all five passes. |
| `HtmlEscape.NoRawMarkup` | static/fa6/js/fontawesome.js:1304-1306 | The output has no quote and no angle bracket. |
| `HtmlEscape.UnescapeEscape` | static/fa6/js/fontawesome.js:1304-1306 | A decoder recovers every input. |
| `HtmlEscape.Injective` | static/fa6/js/fontawesome.js:1304-1306 | Different inputs give different outputs. |
| `Icons.PutWellFormed` | static/fa6/js/fontawesome.js:1527-1527 | Assigning a property keeps every name once and the key order of JavaScript objects. |
| `Icons.PutOrder` | static/fa6/js/fontawesome.js:1527-1527 | A new name that is no array index comes last, and assigning a name again leaves the order as it is. |
| `Icons.GetMerge` | static/fa6/js/fontawesome.js:1527-1527 | Spreading one object over another has the properties of both, the second winning. |
| `Icons.DefinedFinds` | static/fa6/js/fontawesome.js:1519-1539 | Defining icons puts them over the old ones under the prefix, for `fas` also under `fa`, and changes nothing else. |
| `Icons.KeysMean` | static/fa6/js/fontawesome.js:1635-1668 | Which keys an icon has in each index: its name or unicode, its string aliases, and the numerals of its numeric ones, in base 16 among unicodes and in base 10 among aliases. |
| `Icons.NumeralValue` | static/fa6/js/fontawesome.js:1640-1646 | Such a numeral denotes its number, with digits of the base and no leading zero. |
| `Icons.IndexTable` | static/fa6/js/fontawesome.js:1635-1668 | An index agrees with a scan for the last icon that has the key, for unicode, ligature and alias. |
| `Icons.LastMatchIff` | static/fa6/js/fontawesome.js:1635-1668 | That scan gives the last icon that has the key. |
| `Icons.IndexShims` | static/fa6/js/fontawesome.js:1672-1698 | The lookups of old names and unicodes agree with a scan for the last shim, which stands for a solid icon where the regular style is missing. |
| `Icons.MappingMeans` | static/fa6/js/fontawesome.js:1672-1698 | A shim stands for its own icon under its own prefix, and under the solid one exactly where it names a missing regular style. |
| `Icons.FontAwesome.BuildIcons` | static/fa6/js/fontawesome.js:1629-1668 | The three icon indexes agree with the current tables. |
| `Icons.FontAwesome.Build` | static/fa6/js/fontawesome.js:1628-1702 | Afterwards the three icon indexes, the lookups of old names and old unicodes and the default prefix all agree with the current tables, shims and configuration. |
| `Icons.FontAwesome.Bootstrap` | static/fa6/js/fontawesome.js:2129-2151 | Installing the hooks leaves the indexes in agreement. |
| `Icons.FontAwesome.DefineIcons` | static/fa6/js/fontawesome.js:1519-1539 | Changes the tables as stated; with the hook installed the indexes follow, without it they stay. |
| `Icons.FontAwesome.Add` | static/fa6/js/fontawesome.js:1906-1921 | Brings the indexes into agreement with the tables, with or without the hook and even if they were stale; adding nothing leaves them as they are. |
| `Icons.PulledFinds` | static/fa6/js/fontawesome.js:1930-1950 | What is added under a prefix and a name is the last definition for that prefix with that name or string alias. |
| `Icons.FontAwesome.AddFinds` | static/fa6/js/fontawesome.js:1906-1921 | Afterwards each prefix has the icons of the additions that reach it, also through a long prefix and through `fas`, the later over the earlier and over its old ones. |
| `Icons.FontAwesome.AddPack` | static/fa6/js/fontawesome.js:2130-2134 | Merges the icons under the prefix and brings the indexes into agreement. |
| `Icons.FontAwesome.AddPacks` | static/fa6/js/fontawesome.js:2135-2144 | The same for several packs, in order. |
| `Icons.PacksFind` | static/fa6/js/fontawesome.js:2135-2144 | Of several packs the last one for the prefix with the name wins, over the earlier ones and the old icons. |
| `Icons.FontAwesome.AddShims` | static/fa6/js/fontawesome.js:2145-2150 | Appends the shims and brings their lookups and all indexes into agreement. |

## Left out

- Sockets, key files, YAML, logging, deadlines and sleeping: input and output; time and timeouts are parameters and steps.
- Docker, libvirt, nftables and usage handlers, HTTP routing, templates and forms: thin wrappers over libraries or user interface.
- Relay.OkMeansExecutedOnce: a blocking `sendRequest` is the sequence of its atomic steps, not one method, because other goroutines run in between; the critical sections themselves are methods of `Connection.Conn`.
- Relay.StepKeeps: error message texts of failed requests are one constant, and commands and outputs are compared as JSON text.
- Handshake.SlaveEveryRun: writes to a peer that has closed do not fail; an honest run never makes one.
- Framing.StreamRoundTrip: text is a sequence of Unicode code points, so UTF-8 encoding and invalid UTF-8 are not modelled; member names are matched up to the case of ASCII letters only; a payload is its JSON value, not its original spelling, and the parser has no depth limit.
- Json.RoundTrip: the printer is the canonical one of Go's encoding/json; number literals are kept as text.
- Database errors of the allowed-cluster table, and its migration: the table is a set.
- Registry.Store.UpsertMaster: concurrent upserts are ordered by when they are stored; the time each one carries is arbitrary, which covers any order of clocks.
- Md5.RstrMD5: the digest of strings of 2^31 bits and more, whose padding is wrong as `Md5.PadString` says; `str2rstrUTF8` and `rstr2hex`.
- Relay.AtMostOnce: a command sent without an id, which nothing in the repository sends, has no request that its executions could be counted against; that it was asked for is `Intent.NothingUnasked`.
- Icons.FontAwesome.Build: the configuration is fixed, and what the tables of style names give for the default style is a parameter; icon objects in expanded form; DOM work.
- Font Awesome's mutation observers, pseudo-elements and timers, icon data, and the copies of the tables in regular.js and v4-shims.js.
