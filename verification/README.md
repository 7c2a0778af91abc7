# Homelab Control: a verified model of its core

Homelab Control is a manager and a fleet of agents. Each agent keeps one bidirectional stream to the
manager; commands, log streams and event streams share it. Around that sit small stateful stores:
enrollment tokens and credentials, the agent registry, users and sessions, the link store, a cache of
podman data, and the fan-out of podman events. This project models that core in Dafny and proves what
it guarantees over every input, every interleaving and every run.

Interleaved parts are transition systems. A step is a stretch of code between two lock operations,
channel operations, statements to the database or reads of the clock; a step that is not enabled changes
nothing, so every sequence of steps is a run and every interleaving is covered. Two lock sections are
taken as one step in one place, the routing of a message, where fresh request ids make that harmless
(`Protocol.dfy`, before `ApplyManager`). Parts that update fields are classes, and loops are
loops; both are proved against the functions that the theorems speak about.

| file | what it covers |
|---|---|
| `Protocol`, `ProtocolTokens`, `ProtocolCorrelation`, `ProtocolDelivery`, `ProtocolWitness`, `CommandServer` | commands, replies and streams on one connection per agent |
| `Codec`, `CodecRows`, `EndToEnd` | a command's way from the transport method to podman and back, field by field, alone and over the shared stream |
| `Logs` | log lines from the container to the caller |
| `Streams` | the agent's stream contexts and their cancellation |
| `Strings`, `Shell`, `Recreate`, `RunReading`, `NetworkCommands`, `OptionValues` | printed commands, how a shell and podman read them, and what the values of their options mean |
| `Links`, `Import`, `LinkRows`, `LinkOrder`, `Homepage`, `ParsedLinks`, `DocumentOrder`, `ImportHomepage` | the link store and the homepage import |
| `CacheRuns`, `CacheHeap`, `CacheClients` | the cache: how old an answer can be, and what it shares with its callers |
| `EventStreams`, `EventFanout` | event subscriptions, channels and clients |
| `EnrollStore`, `Enrollment` | tokens, credentials, the saved file, concurrent enrollment |
| `Registry`, `Auth`, `AuthRace` | connected agents; users and sessions, one operation at a time and interleaved |
| `Common` | options, flattening, subsequences, unused numbers |

Some guarantees one would expect turn out to be false of the code. Each has a lemma that shows the
failing case and, beside it, the exact condition under which the guarantee holds:

- Replies are routed by agent, not by request id, so a command can return the reply to an earlier one
  (`LateReply`), or a chunk of a stopped stream (`StrayChunk`). An idle agent answers every later command
  with its own reply if and only if every message on its way already has a callback
  (`CorrelationExact`). What such a reply does to the caller is exact too (`WrongReply`,
  `GivenUpConfuses`).
- A link without a sort order does not survive a second import unchanged, unless the next free order of
  its category happens to be zero (`ZeroOrderExact`).
- `podman run` reads the printed command as intended if and only if the image reference does not start
  with a dash (`RunCommandRead`).
- A recreated container gets a mount back as it was if and only if neither path has a colon, a port if
  and only if address and ports have none (an IPv6 address does), and a label if and only if its key has
  no equals sign (`MountRead`, `BindingRead`, `PairRead`).
- A network created through an agent loses every subnet but the first and the internal and DNS flags
  (`NetworkFaithful`). A port number outside 16 bits is changed on its way (`PortsKept`).
- Links under one category name are imported in document order if and only if no heading of that name
  reaches past the start of a later one, a group counting as a hundred items (`DocumentOrderExact`). A
  heading repeated in one mapping, or 102 items before a later group, breaks it (`DocumentOrderLost`).
- A goroutine's deferred stop cancels a stream that was restarted under its id (`FinishTakes`,
  `RestartLost`).
- A fetch that straddles an invalidation can put stale data back; later reads reflect an action if and
  only if no fetch in flight holds older data (`StaleFetchWins`, `InvalidateExact`).
- A clone turns an empty slice that is not nil into nil (`CopiedExact`).
- A client receives only events emitted after it registered if and only if the stream had nothing waiting
  then; otherwise an older one can reach it (`OldEventsExact`).
- A revocation holds for good unless saving it failed before touching a file that accepts the agent; then,
  and only then, a restart brings the agent back (`RevokeExact`, `UnsavedRevokeReturns`).
- A registered agent that comes back under another hostname leaves a stale index entry (`ExactStep`), and
  is dropped when someone else registers under the old hostname (`RenamedDropped`).
- Deletions and demotions that check before others write can remove the last admins (`RacingDeletes`).
  When those in flight are completed, in any order, an admin remains if and only if some admin is the
  target of none of them (`CompletedExact`); the step that loses this is exactly a check that counts
  admins who are already targets (`RaceExact`).

Where the code and its comments disagree the model follows the code: `CleanupExpired` of the enrollment
store is described as removing unused tokens, and removes used ones as well
(`backend/internal/enroll/store.go:192-202`).

## Model

| member | source | states |
|---|---|---|
| Protocol.PendingStep | backend/internal/agent/server.go:152-164 | every step keeps the pending map and the calls in agreement: exactly the calls that have not returned are pending, one per agent |
| Protocol.IdsStep | backend/internal/agent/transport.go:473-475 | with fresh ids, every step keeps each request id with one call or one stream |
| Protocol.ProvenanceStep | backend/internal/agent/server.go:233-266 | every step keeps every message, queued reply and callback entry traceable to something sent to that very agent |
| Protocol.CallbackMessage | backend/internal/agent/server.go:235-252 | a message whose id has a callback belongs to that stream and its agent, never to a command |
| ProtocolTokens.PipeAgent | agent/internal/connect.go:385-426 | an agent never multiplies the outstanding answers of an id, except of its running streams |
| ProtocolTokens.TokensStep | backend/internal/agent/server.go:145-178 | every step keeps at most one outstanding answer per command id, on its own agent only, and none once its own reply has arrived |
| ProtocolTokens.InvStep | backend/internal/agent/server.go:145-266 | every step of callers, streams, agents and manager keeps the whole protocol invariant |
| ProtocolCorrelation.EveryRun | backend/internal/agent/server.go:145-178 | in every interleaving an agent has at most one command that has not returned, a returned reply comes from the agent addressed and answers something sent to it, and a callback holds at most 64 messages, all of its own stream |
| ProtocolCorrelation.EveryCleanRun | backend/internal/agent/server.go:254-266 | if no command was given up with its reply outstanding and no stream stopped with messages under way, every returned reply has the command's own request id |
| ProtocolCorrelation.CorrelationExact | backend/internal/agent/server.go:254-266 | an idle agent answers all later commands with their own replies if and only if every message under way from it has a callback |
| ProtocolCorrelation.StrayReply | backend/internal/agent/server.go:254-262 | from any reachable idle state with an unclaimed answer under way, some clean continuation returns it to a later command |
| ProtocolCorrelation.Misdelivers | backend/internal/agent/server.go:254-262 | the next command to an agent takes the message at the head of the queue for its own reply, whatever its id |
| ProtocolDelivery.WireRun | backend/internal/agent/server.go:233-266 | over every run in which an agent stays connected, what it sends and what the receive loop takes off are the same messages in the same order, the rest being on the wire |
| ProtocolDelivery.CallbackRun | backend/internal/agent/server.go:235-252 | over every run in which a stream's caller listens, what it consumes and what waits for it is in order what was routed for its id; every other message found 64 waiting, and if that never happened nothing is missing |
| ProtocolDelivery.StreamDelivered | backend/internal/agent/server.go:235-252 | from any state with the invariant, while the caller listens, its callback stays below 64 and the agent stays connected, everything the agent sends under the stream's id, contents included, is consumed, then waiting, then on the wire, in the order sent |
| ProtocolDelivery.WireToAgent | backend/internal/agent/server.go:145-211 | commands, stream starts and stops go behind what is on the wire and are taken in that order; a new connection starts empty |
| ProtocolDelivery.StreamOnAgent | agent/internal/connect.go:592-653 | a start runs a stream that can send under its id |
| ProtocolWitness.LateReply | backend/internal/agent/server.go:172-177 | a run from the empty state: a command is given up, and the next one returns its late reply |
| ProtocolWitness.StrayChunk | backend/internal/agent/server.go:207-211 | a run from the empty state: a stream is stopped with a chunk under way, and the next command returns that chunk |
| ProtocolWitness.OwnAnswer | backend/internal/agent/server.go:145-178 | from every state with an idle agent and an empty connection, a command that is sent, taken and answered returns exactly that answer, contents included |
| CommandServer.Server.BeginCommand | backend/internal/agent/server.go:151-158 | registers a reply channel or refuses when a command is pending: the protocol's begin step |
| CommandServer.Server.EndCommand | backend/internal/agent/server.go:159-163 | the deferred delete: the protocol's leave step |
| CommandServer.Server.RegisterStreamCallback | backend/internal/agent/server.go:201-205 | stores an empty callback, replacing any; with a fresh id the protocol's registration step |
| CommandServer.Server.UnregisterStreamCallback | backend/internal/agent/server.go:207-211 | the protocol's removal step |
| CommandServer.Server.RouteResponse | backend/internal/agent/server.go:233-266 | a message with a callback is appended to it below 64 and changes nothing else; any other becomes the pending command's reply if it has none, neither send waiting: the protocol's route and deliver steps |
| Codec.SameCall | backend/internal/agent/server.go:320-362 | for every command the agent makes exactly the podman call the command stands for, under the same request id; a create without a request is never sent |
| Codec.RemoteIsDirect | backend/internal/agent/transport.go:254-394 | for every command and every podman behaviour, the reply has the command's request id, survives forwarding, and gives the caller the same result as running the call in place; the caller sees success exactly when podman succeeded |
| Codec.BoolRoundTrip | agent/internal/connect.go:793-794 | the flag written into the envelope is the flag the agent reads |
| Codec.ListAll | agent/internal/connect.go:113-143 | the agent lists podman's containers in order, then the units that are not active and not listed by name |
| Codec.NetworkFaithful | backend/internal/agent/transport.go:331-339 | podman is asked for everything requested if and only if there is at most one subnet, not blank, and neither the internal nor the DNS flag |
| Codec.PortsKept | backend/internal/agent/transport.go:540-546 | the caller sees a container's ports as podman reports them if and only if all are 16-bit numbers |
| Codec.WrongReply | backend/internal/agent/transport.go:477-506 | the agent's reply to one command is success for the caller of another if and only if podman carried out the first and the two are of kinds the caller cannot tell apart |
| CodecRows.SeesContainers | agent/internal/connect.go:113-172 | from podman's outcome to the caller: container i with its id, image, state, status, labels, ports and mounts (writable exactly when not read-only) and its first name without the slash, then, in order, exactly the units that are not active and not listed, as exited quadlet rows |
| CodecRows.SeesVolumes | agent/internal/connect.go:197-203 | every volume in order with podman's name, driver, mountpoint and labels |
| CodecRows.SeesNetworks | backend/internal/agent/transport.go:594-603 | every network in order with podman's name, driver, gateway, IPv6 flag, labels and its subnet if it has one |
| CodecRows.CreatesVolume | backend/internal/agent/transport.go:270-290 | podman is asked for the name, driver, labels and options requested, and the caller is told those or podman's error |
| CodecRows.CreatesNetwork | backend/internal/agent/transport.go:331-355 | podman is asked for the request with its first subnet only, and the caller is told what was requested or podman's error |
| CodecRows.Calls | backend/internal/agent/transport.go:292-394 | which podman call removing, connecting, disconnecting and listing stand for, arguments in their places |
| CodecRows.Acts | backend/internal/agent/transport.go:292-394 | removing, connecting and disconnecting tell the caller success or podman's error |
| CodecRows.Prunes | backend/internal/agent/transport.go:304-394 | a prune tells the caller how many podman deleted |
| CodecRows.ListingFails | backend/internal/agent/transport.go:477-485 | a failed listing gives the caller podman's error behind the name of the listing |
| EndToEnd.CleanRunDirect | backend/internal/agent/server.go:145-178 | in every clean run a command that returned gave its caller what running it on that agent in place gives |
| EndToEnd.GivenUpConfuses | backend/internal/agent/server.go:254-266 | after a command was given up, the next one reports success exactly when podman carried out the first and the two cannot be told apart |
| Logs.RunLogStream | agent/internal/connect.go:655-702 | the batching loop sends the chunks and reports the error of the specification, whose meaning `BatchesCut`, `BatchesCount` and `ReportedExact` state |
| Logs.BatchesCut | agent/internal/connect.go:664-701 | the chunks are an in-order prefix of the lines, each of 1 to 50 lines, all but the last full, and all the lines when no send fails |
| Logs.BatchesCount | agent/internal/connect.go:664-701 | how many lines are sent, exactly: all held and read when the final flush succeeds, the full chunks when it fails, and those before the first full chunk that failed |
| Logs.ReportedExact | agent/internal/connect.go:664-701 | an error is reported if and only if the reader returned it while the stream was live and neither a cancellation nor a failed chunk had ended the loop |
| Logs.FlowRun | backend/internal/agent/server.go:233-252 | over every run each stream's chunks are conserved in order between wire, callback and output, untouched by other streams |
| Logs.OutputOrdered | backend/internal/agent/transport.go:124-166 | the lines written are an ordered subsequence of those sent, no position twice; chunks are lost whole, only to a callback that was full at 64 or removed, and none is missing while the caller listens and it never was full |
| Logs.TakeWrites | backend/internal/agent/transport.go:150-158 | a caller that leaves within a chunk has written exactly the lines before and stops listening; otherwise the whole chunk is written |
| Logs.StreamLogsFaithful | backend/internal/agent/transport.go:124-166 | end to end, the output is an ordered, duplicate-free subsequence of the container's lines |
| Streams.StepKeeps | agent/internal/connect.go:592-653 | every start, restart, stop, ending goroutine and cancel-all keeps each context in exactly one place, once |
| Streams.InstallDoes | agent/internal/connect.go:592-642 | an installed context is in its table under its id, the other table unchanged, and the one it replaces is cancelled |
| Streams.TakeDoes | agent/internal/connect.go:616-653 | a stop takes exactly its entry out and holds it for cancellation |
| Streams.TakeAllDoes | agent/internal/connect.go:864-884 | cancel-all empties both tables and holds every context that was live |
| Streams.CancelDoes | agent/internal/connect.go:864-884 | a held context is cancelled and no longer held |
| Streams.EveryRun | agent/internal/connect.go:592-653 | the same over every interleaving: no context is dropped uncancelled and none is cancelled twice |
| Streams.QuietSplit | agent/internal/connect.go:864-884 | with no caller between its lock sections, a context is in its table and not cancelled, or out of it and cancelled once; after cancel-all each one is cancelled once |
| Streams.FinishTakes | agent/internal/connect.go:655-656 | an ending goroutine takes another's context exactly when that one is live under the same id |
| Streams.RestartLost | agent/internal/connect.go:592-624 | a concrete run in which a restarted stream is cancelled by its predecessor's ending |
| Streams.StreamTables.Start | agent/internal/connect.go:592-642 | refuses blank ids, else cancels the stream it replaces and stores the new one |
| Streams.StreamTables.Stop | agent/internal/connect.go:616-653 | removes the entry and cancels exactly it |
| Streams.StreamTables.CancelAll | agent/internal/connect.go:864-884 | empties both tables and calls every cancel function in them once |
| Shell.QuoteRoundTrip | backend/internal/podman/client.go:1033-1038 | for every string, the shell reads the quoted form as one word equal to it |
| Shell.CommandRoundTrip | backend/internal/podman/client.go:951-951 | a joined line of plain and quoted words is read back as exactly those words |
| Shell.CommandInjective | backend/internal/podman/client.go:1033-1038 | two argument lists printed alike are the same list |
| Strings.SortedMapKeys | backend/internal/podman/client.go:954-964 | whatever the iteration order, the result is the one sorted listing of the keys |
| Strings.SortStable | backend/internal/podman/client.go:957-963 | sorting depends only on which strings there are and how often |
| Strings.LeDecided | backend/internal/podman/client.go:957-963 | strings are ordered by the first character that differs, a prefix first |
| Strings.TrimSpaceCut | backend/internal/control/store.go:537-550 | trimming takes white space off both ends and nothing else |
| Recreate.BuildStandaloneRunCommand | backend/internal/podman/client.go:865-952 | prints the command line of the intended arguments, whose meaning `OptionValues` states, and returns the networks left to connect |
| Recreate.SortedPorts | backend/internal/podman/client.go:910-925 | every bound port with its multiplicity, in one order for every iteration order of the map |
| Recreate.AddNetworks | backend/internal/podman/client.go:928-942 | the networks given to run and those left over |
| RunReading.RunCommandRead | backend/internal/podman/client.go:865-952 | the shell recovers the words, and the parser of podman run the options, image and command, if and only if the image does not start with a dash |
| RunReading.NothingLost | backend/internal/podman/client.go:876-928 | labels, non-blank environment entries, usable mounts and bound ports are all carried with their multiplicity, the same for every iteration order |
| RunReading.PlanAttaches | backend/internal/podman/client.go:772-831 | the networks the update's commands attach are those of run followed by the extra ones |
| RunReading.NetworksKept | backend/internal/podman/client.go:928-942 | with empty or default network mode these are the original networks, each once |
| RunReading.UpdateStandaloneContainer | backend/internal/podman/client.go:772-831 | runs the plan in order up to the first failure, and on success attaches exactly the original networks, each once |
| OptionValues.MountRead | backend/internal/podman/client.go:899-908 | a usable mount is read back from its -v value, read-only exactly when not writable, if and only if neither path has a colon |
| OptionValues.BindingRead | backend/internal/podman/client.go:911-922 | a bound port is read back from its -p value, host address, host port and container port, if and only if none has a colon |
| OptionValues.PairRead | backend/internal/podman/client.go:876-879 | a key and value are read back from their printed pair if and only if the key has no equals sign |
| OptionValues.IdentityKept | backend/internal/podman/client.go:865-952 | the command says the container's name, hostname, restart policy, image, entrypoint and command |
| OptionValues.EnvironmentKept | backend/internal/podman/client.go:881-888 | every environment entry that is not blank, as often as the container has it, and no other |
| OptionValues.LabelsKept | backend/internal/podman/client.go:876-879 | the labels read from the command are the container's, in whatever order the map is iterated |
| OptionValues.MountsKept | backend/internal/podman/client.go:890-908 | the mounts read from the command are, as a multiset, the usable mounts of the container with their access |
| OptionValues.PortsKept | backend/internal/podman/client.go:910-925 | the ports read from the command are, as a multiset, the bound ports of the container |
| OptionValues.NetworkKept | backend/internal/podman/client.go:928-942 | the network option is the mode, or one of the container's networks when the mode is the default, or absent when there is none |
| OptionValues.PlanWords | backend/internal/podman/client.go:772-816 | the words of the update's commands, in order: pull the image, stop the container if it runs, remove it, run it |
| OptionValues.PlanConnects | backend/internal/podman/client.go:818-831 | the remaining commands connect the container, by name, to each remaining network |
| OptionValues.ImageKept | backend/internal/podman/client.go:1481-1489 | an image reference of ordinary characters is left as it is |
| NetworkCommands.CreateNetworkCommand | backend/internal/host/ssh_transport.go:181-221 | refuses a blank name, else prints the command line of the intended arguments |
| NetworkCommands.CreateNetworkRead | backend/internal/host/ssh_transport.go:196-221 | for every request the shell recovers the words and the parser the options, switches and name, even a name that looks like an option |
| OptionValues.CreateCarries | backend/internal/host/ssh_transport.go:196-221 | what the printed creation says is the request: name, driver and gateway trimmed, the subnets that are not blank in order, the two flags, and labels and options whose keys have no equals sign |
| NetworkCommands.NestedScript | backend/internal/host/ssh_transport.go:151-151 | any script quoted for the inner shell reaches it unchanged |
| NetworkCommands.ListNetworksRead | backend/internal/host/ssh_transport.go:148-152 | the listing script arrives as one argument of sh |
| Links.Slugify | backend/internal/control/store.go:615-632 | the loop computes the slug of the specification |
| Links.SlugCanonical | backend/internal/control/store.go:615-632 | a slug is canonical (lower-case letters, digits, single inner dashes), canonical names are their own slugs, so slugs are stable |
| Links.SlugWords | backend/internal/control/store.go:615-632 | a slug is the name's lower-case words of letters and digits, in order, joined by dashes |
| Links.NormalizeIdempotent | backend/internal/control/store.go:537-583 | normalising twice is normalising once, for accepted and refused links alike |
| Import.UpsertSettles | backend/internal/control/store.go:419-435 | one upsert loses nothing, differs by one row, and leaves the link so that importing it again repeats that same write |
| Import.ImportTwice | backend/internal/control/homepage_import.go:47-61 | a second import of the same parsed list leaves all rows and categories as they are, creates nothing, and reports the same imported and skipped counts, with repeated links and colliding slugs included |
| Import.CountsAddUp | backend/internal/control/homepage_import.go:47-61 | imported is created plus updated, and imported plus skipped is the number of links |
| Import.ZeroOrderExact | backend/internal/control/store.go:326-330 | a new link without a sort order is stable under a second import if and only if the next free order is zero |
| Import.ZeroOrderWitness | backend/internal/control/store.go:508-515 | into an empty store it is not stable |
| LinkRows.CreateStores | backend/internal/control/store.go:317-355 | a create succeeds exactly when the link may be stored and its category exists or can be added; the one row added has every field of the request, trimmed or defaulted, the icon's kind, and the given or next free order |
| LinkRows.UpdateStores | backend/internal/control/store.go:357-405 | an update succeeds exactly when the row exists, the link may be stored and its category exists or can be added; that row gets every field of the request, and no other row changes |
| LinkRows.AcceptsExactly | backend/internal/control/store.go:419-435 | an import accepts a link if and only if it may be stored and its category exists or its slug is free |
| LinkRows.LastWins | backend/internal/control/homepage_import.go:47-61 | after an import the row for a title and address has every field of the last accepted link with them |
| LinkOrder.ImportOrder | backend/internal/control/store.go:634-641 | the sort is an ordered permutation, and one file's links under one name keep document order if and only if their sort orders do not fall |
| LinkOrder.OrderIs | backend/internal/control/store.go:634-641 | the order is by category name, and by sort order under one name |
| Homepage.MappingScalar | backend/internal/control/homepage_import.go:194-204 | the first value under a key, trimmed |
| Homepage.ParseHomepage | backend/internal/control/homepage_import.go:69-164 | the nested loops collect exactly the links of the tree, and refuse a root that is not a sequence |
| Homepage.FileFrom | backend/internal/control/homepage_import.go:69-164 | every parsed link has its file's source, no category id and a sort order that is not zero |
| ParsedLinks.FieldIs | backend/internal/control/homepage_import.go:194-204 | a scalar looked up is the trimmed value of the first entry with that key, or empty |
| ParsedLinks.LinkTraced | backend/internal/control/homepage_import.go:69-164 | every parsed link has the title, address, icon, description, heading and sort order of some place in the document |
| ParsedLinks.PlaceLinked | backend/internal/control/homepage_import.go:69-164 | every place in the document with an address has such a link |
| DocumentOrder.RisingExact | backend/internal/control/homepage_import.go:79-111 | a file's sort orders under a name do not fall if and only if no heading of that name reaches past the start of a later one |
| DocumentOrder.LongGroup | backend/internal/control/homepage_import.go:107-107 | one heading in two groups: order is kept if and only if the first has at most 101 items |
| DocumentOrder.RepeatedHeading | backend/internal/control/homepage_import.go:83-88 | one heading twice in a mapping: order is kept if and only if the first has at most one item |
| ImportHomepage.LinkStore.EnsureCategory | backend/internal/control/store.go:447-486 | by id, by name, or by inserting with the slug unused; refused when the slug is taken |
| ImportHomepage.LinkStore.CreateLink | backend/internal/control/store.go:317-355 | the new row, every field stated from the request, with the next free order when none is given |
| ImportHomepage.LinkStore.UpdateLink | backend/internal/control/store.go:357-405 | the row replaced in place, every field stated from the request, or refused |
| ImportHomepage.LinkStore.UpsertImportedLink | backend/internal/control/store.go:419-435 | updates the link with this title and address, else creates it |
| ImportHomepage.LinkStore.ImportHomepage | backend/internal/control/homepage_import.go:25-67 | both files sorted and upserted; the counts add up, and it fails only when nothing was parsed and something went wrong |
| ImportHomepage.HomepageImportIdempotent | backend/internal/control/homepage_import.go:25-67 | from the files on: a second import changes nothing and reports the same counts |
| ImportHomepage.DocumentOrderExact | backend/internal/control/homepage_import.go:47-61 | after sorting, a file's links under a name are in document order if and only if no heading of that name reaches past the start of a later one |
| ImportHomepage.DocumentOrderKept | backend/internal/control/homepage_import.go:47-61 | so it is when the name is a heading once, or when no mapping repeats it and it never heads more than 101 items |
| ImportHomepage.DocumentOrderLost | backend/internal/control/homepage_import.go:47-61 | two files that lose it: 102 items before a later group, and a heading repeated in one mapping |
| CacheRuns.HowOld | backend/internal/podman/cache.go:39-89 | in every run of a cache made with a ttl (three seconds when it is not positive) an answer is its host's own, a cached listing was stored less than that ttl before its lookup, and the statistics in it less than 2 ttl plus the fetch's own time |
| CacheRuns.YoungServed | backend/internal/podman/cache.go:39-49 | in every run a lookup is answered from the cache, without a fetch, exactly when what is cached for its host is younger than that ttl |
| CacheRuns.FetchPath | backend/internal/podman/client.go:68-100 | what a fetch stores and returns: the listing podman showed, with cached young statistics, fetched ones, or none |
| CacheRuns.ReadsAfterAction | backend/internal/podman/client.go:577-579 | with no fetch holding older data across the invalidation, every later answer shows the state after the action, statistics included |
| CacheRuns.StaleFetchWins | backend/internal/podman/cache.go:51-60 | one fetch about to store older data is enough for the next call to be answered with it |
| CacheRuns.InvalidateExact | backend/internal/podman/cache.go:117-121 | every later call reflects the action in every continuation if and only if no fetch in flight holds data from before it |
| CacheHeap.CloneContainers | backend/internal/podman/cache.go:134-149 | the clone and everything it reaches are new objects, and its value is the source's with empty slices made nil |
| CacheHeap.CopiedExact | backend/internal/podman/cache.go:143-145 | a clone equals its source if and only if none of the three slices is empty without being nil |
| CacheHeap.CloneStatsMap | backend/internal/podman/cache.go:151-170 | a new map of new objects with the same value, nil entries kept |
| CacheHeap.Cache.GetContainers | backend/internal/podman/cache.go:39-63 | hit, miss and error; what the caller gets is disjoint from all the cache holds, and only this host's listing changes |
| CacheHeap.Cache.LookupStats | backend/internal/podman/cache.go:68-75 | a live entry is lent as new objects with the cached value |
| CacheHeap.Cache.StoreStats | backend/internal/podman/cache.go:82-86 | stores a clone; the cache gains new objects only |
| CacheHeap.Cache.LookupSystemInfo | backend/internal/podman/cache.go:94-101 | a live entry is lent as a new object with the cached value |
| CacheHeap.Cache.StoreSystemInfo | backend/internal/podman/cache.go:108-112 | stores a clone; the cache gains a new object only |
| CacheHeap.Cache.Invalidate | backend/internal/podman/cache.go:117-121 | drops this host's entry and no other |
| CacheHeap.Cache.GetStats | backend/internal/podman/cache.go:65-89 | hit, miss and error for statistics, the caller's objects disjoint from the cache's |
| CacheHeap.Cache.GetSystemInfo | backend/internal/podman/cache.go:91-115 | hit, miss and error for system information, the caller's object disjoint from the cache's |
| CacheClients.AnyClient | backend/internal/podman/cache.go:39-121 | over any sequence of gets of all three kinds, hits, misses and errors, writes to any field, element and entry the caller reaches, and invalidations: the cache holds what the stores and invalidations alone leave, every hit gave what was held, everything lent is disjoint from the cache, and what a hit lent from all that was lent before |
| CacheClients.StoredAsItWas | backend/internal/podman/cache.go:56-60 | a hit gives the listing as it was when stored, whatever the caller has since written to it or anything else it reaches |
| CacheClients.KeptFor | backend/internal/podman/cache.go:28-34 | a cache made with a lifetime serves a stored listing, statistics and system information exactly while younger than it, three seconds when none is given |
| EventStreams.StreamSafe | backend/internal/podman/events.go:59-144 | in every run of a stream nothing is sent on a closed channel, none is closed twice, a host has at most one subscription, the channel holds at most 256, what is broadcast is the emitted events in order, and per host these are the lines its subscription read, in order, none skipped before a cancellation |
| EventStreams.EveryRun | backend/internal/podman/events.go:88-109 | the invariant holds over every run, and once closing has begun no subscription is added |
| EventStreams.SubscribeStarts | backend/internal/podman/events.go:59-86 | the first subscription to a known host of an open stream starts its goroutine and changes nothing else |
| EventStreams.LineEmitted | backend/internal/podman/events.go:188-194 | a line read goes into the channel with its host when there is room |
| EventStreams.Closes | backend/internal/podman/events.go:88-109 | from every closing state with the invariant some continuation closes the channel |
| EventStreams.EventStream.Subscribe | backend/internal/podman/events.go:59-86 | refuses after closing and for unknown hosts, adds a host once: the model's step |
| EventStreams.EventStream.BeginClose | backend/internal/podman/events.go:88-101 | the first close empties the table and gets every subscription to wait for; a later one does nothing |
| EventFanout.NeverPanics | backend/internal/api/router.go:380-391 | no interleaving of several streams and clients sends on a closed client channel or closes one twice |
| EventFanout.Delivered | backend/internal/api/router.go:380-391 | a client receives an ordered subsequence of each stream's events within the window in which it was registered, all of them unless its channel has held 64 at once |
| EventFanout.OldEvent | backend/internal/api/router.go:380-391 | the run that brings a client an event emitted before it registered |
| EventFanout.OldEventsExact | backend/internal/api/router.go:426-432 | while the stream emits nothing more the new client receives nothing from it, in every continuation, if and only if nothing was waiting when it registered |
| EventFanout.RegisterDoes | backend/internal/api/router.go:426-432 | a new client is registered with an open, empty channel |
| EventFanout.UnregisterDoes | backend/internal/api/router.go:434-441 | a client that leaves is no longer registered and its channel is closed |
| EventFanout.CloseClientsDoes | backend/internal/api/router.go:295-300 | no client stays registered and every channel is closed |
| EventFanout.ReceiveDoes | backend/internal/api/handlers.go:618-625 | a client reads the front of its channel |
| EventFanout.EventClients.Broadcast | backend/internal/api/router.go:382-389 | one event to every registered client with room, none skipped, nobody waited for |
| EventFanout.EventClients.Unregister | backend/internal/api/router.go:434-441 | removes and closes a registered client once, and ignores others |
| EventFanout.EventClients.CloseAll | backend/internal/api/router.go:295-300 | every client leaves and its channel is closed once |
| EnrollStore.LoadSaved | backend/internal/enroll/store.go:212-265 | saving in any order and loading restores the map if and only if every record is filed under its own non-empty agent id |
| EnrollStore.ThreeWayIsRule | backend/internal/agent/server.go:268-280 | whichever match the search returns, the three-way lookup is the simple rule |
| EnrollStore.ValidCredential | backend/internal/agent/server.go:268-280 | the lookup as written answers the simple rule |
| EnrollStore.Store.ValidateToken | backend/internal/enroll/store.go:90-105 | accepts a token exactly when it is known, unused and not expired |
| EnrollStore.Store.ConsumeToken | backend/internal/enroll/store.go:108-126 | accepts a token exactly when it is known, unused and not expired, and it is never usable again |
| EnrollStore.Store.CleanupExpired | backend/internal/enroll/store.go:193-202 | keeps exactly the tokens that have not expired |
| EnrollStore.Store.RegisterCredential | backend/internal/enroll/store.go:129-139 | stores the record and saves, ignoring a nameless one |
| EnrollStore.Store.RevokeCredential | backend/internal/enroll/store.go:167-177 | no credential of the agent is active afterwards, whether or not saving succeeds |
| EnrollStore.Store.SaveCredentials | backend/internal/enroll/store.go:241-265 | writes every record once, in some order, with the ways writing can fail |
| EnrollStore.Store.LoadCredentials | backend/internal/enroll/store.go:212-239 | loads what the file holds, skipping null and nameless entries, and fails on an unreadable one |
| EnrollStore.Store.GetCredentialByToken | backend/internal/enroll/store.go:154-164 | finds a record with the credential if there is one, in any iteration order |
| Enrollment.TokensFundOnce | backend/internal/agent/server.go:103-142 | in every run each issued credential was paid for by a created token consumed for that agent and not after its expiry, no two share a token, and a consumed token is not usable |
| Enrollment.ConsumedForGood | backend/internal/enroll/store.go:108-126 | a consumed token stays consumed by the same agent and unusable in every later state |
| Enrollment.TokenSteps | backend/internal/enroll/store.go:69-87 | a created token is usable exactly until it expires, a cleanup removes exactly the expired ones, a restart forgets all |
| Enrollment.TokenLives | backend/internal/enroll/store.go:90-105 | over every run without a restart a token that was neither consumed nor reached its expiry is usable |
| Enrollment.EnrollWorks | backend/internal/agent/server.go:103-142 | an uninterrupted enrollment with a usable token stores the agent's record with the host given, its credential is accepted, and the token is used up for it |
| Enrollment.LookupIsRule | backend/internal/agent/server.go:268-280 | in every reachable state the three-way lookup is the simple rule, and only pairs issued together pass |
| Enrollment.CheckLinearizes | backend/internal/agent/server.go:268-280 | a check spread over three lock sections answers what the rule said at some instant of the call |
| Enrollment.RevokedForGood | backend/internal/enroll/store.go:167-177 | after a successful revoke the agent is rejected in every later state, restarts from the file in any order included |
| Enrollment.RevokeExact | backend/internal/enroll/store.go:167-177 | the agent is rejected in every later state unless there is a file that accepts it and saving the revocation failed before touching it, and exactly then it returns |
| Enrollment.UnsavedRevokeReturns | backend/internal/enroll/store.go:167-177 | when saving the revocation fails, a restart accepts the credential again |
| Registry.EveryRun | backend/internal/agent/registry.go:53-116 | over every run a non-empty hostname belongs to at most one registered agent and the index finds it whenever a search of the list would |
| Registry.ExactStep | backend/internal/agent/registry.go:53-74 | a step keeps the index exact if and only if no registered agent re-registers under a different hostname |
| Registry.ExactRun | backend/internal/agent/registry.go:53-116 | without such renames index and search agree in both directions |
| Registry.RegisterShows | backend/internal/agent/registry.go:53-74 | a registered agent is found by its hostname, the one the index named for it is dropped, and every other stays |
| Registry.RenamedDropped | backend/internal/agent/registry.go:53-74 | an agent that came back under another hostname is dropped when someone else takes the old one |
| Registry.UnregisterShows | backend/internal/agent/registry.go:76-88 | exactly that agent is removed and its hostname finds nobody |
| Registry.Registry.Register | backend/internal/agent/registry.go:53-74 | both maps after registration: the model's step, index kept |
| Registry.Registry.Unregister | backend/internal/agent/registry.go:76-88 | both maps after removal: the model's step, index kept |
| Registry.Registry.GetByHost | backend/internal/agent/registry.go:97-106 | finds the agent that reports the hostname |
| Registry.Registry.List | backend/internal/agent/registry.go:108-116 | every registered agent once |
| Auth.SessionsAuthenticate | backend/internal/auth/sessions.go:33-54 | over every history a token authenticates only as the user id it was issued for, with that user's current role, not after expiry, and not for a deleted id |
| Auth.LiveSession | backend/internal/auth/sessions.go:33-54 | a created session authenticates as its user, with the user's current role, after every history that neither deletes it or the user nor reaches its expiry |
| Auth.SessionEnds | backend/internal/auth/sessions.go:56-76 | deleting ends exactly that session, looking at an expired one ends it, and a cleanup ends exactly the expired ones |
| Auth.CreateStores | backend/internal/auth/users.go:48-79 | when a user can be created, and the row added: trimmed name, hash, and the role given or viewer |
| Auth.ChangeStores | backend/internal/auth/users.go:110-138 | when a role change or a deletion succeeds, and exactly what it changes |
| Auth.SeedStores | backend/internal/auth/users.go:213-233 | the configured user is an admin with the configured hash, added or updated, and no other user changes |
| Auth.DeletedStaysOut | backend/internal/auth/users.go:129-138 | a deleted user is never authenticated again, even when the name is reused and whether or not sessions cascade |
| Auth.AdminRun | backend/internal/auth/users.go:270-289 | every serial run from a state with an admin keeps an admin |
| Auth.AdminStep | backend/internal/auth/users.go:110-138 | no operation removes the last admin, and a refused one leaves the users unchanged |
| AuthRace.AloneIsSerial | backend/internal/auth/users.go:110-138 | with nothing in between, the statements of a deletion or demotion are the serial operation |
| AuthRace.CompletedExact | backend/internal/auth/users.go:117-138 | in whatever order the deletions and demotions in flight are written, an admin remains if and only if some admin is the target of none |
| AuthRace.RaceExact | backend/internal/auth/users.go:270-289 | from such a state, the next step keeps this if and only if it is no check that passes for the only admin not yet targeted |
| AuthRace.CoveredRun | backend/internal/auth/users.go:270-289 | every run without such a check keeps an admin in every state and after everything in flight is written |
| AuthRace.AloneCovers | backend/internal/auth/users.go:270-289 | a check made with no other call between check and write is never one |
| AuthRace.RacingDeletes | backend/internal/auth/users.go:117-138 | a run of that machine: two calls that delete or demote the only two admins, checks first, leave none |
| Auth.AuthStore.CreateUser | backend/internal/auth/users.go:48-79 | the table after creation, with the refusals in their order |
| Auth.AuthStore.EnsureNotLastAdmin | backend/internal/auth/users.go:270-289 | refuses a missing user and the only admin; otherwise an admin remains without this user |
| Auth.AuthStore.UpdateUser | backend/internal/auth/users.go:110-127 | the role change or its refusal, an admin kept |
| Auth.AuthStore.DeleteUser | backend/internal/auth/users.go:129-138 | the deletion or its refusal, an admin kept |
| Auth.AuthStore.SeedUser | backend/internal/auth/users.go:213-233 | inserts the configured user or makes the one with that name an admin with the configured hash |
| Auth.AuthStore.CreateSession | backend/internal/auth/sessions.go:21-31 | inserts the row and reads it back |
| Auth.AuthStore.GetSession | backend/internal/auth/sessions.go:33-54 | who the token stands for, and the deletion of a row found expired |
| Auth.AuthStore.DeleteSession | backend/internal/auth/sessions.go:56-64 | removes the row, ignoring the empty token |
| Auth.AuthStore.CleanupExpiredSessions | backend/internal/auth/sessions.go:66-76 | removes exactly the expired rows and counts them |

## Left out

- gRPC, SSH, HTTP, WebSocket, SQL and bcrypt: queues with failing sends, command outcomes, maps with uniqueness constraints and opaque hashes stand for them; input or output errors of the databases are not modelled.
- Text formats: JSON and YAML are taken as decoded trees, and the JSON of a request as a value that decodes to it.
- Random ids, tokens and credentials: taken as fresh values. Clocks are parameters that do not run backwards.
- Concurrent parts on values: the protocol, cache timing, event, stream and enrollment machines hold their state in values, because a step of theirs interleaves with other goroutines; what each locked section does in place is in the classes beside them.
- Liveness: nothing says that a blocked send, a close or a reconnect eventually finishes.
- Reconnecting: the agent's dialling, backoff and heartbeats; a reconnect appears only as the loss of both queues.
- Codec.ListAll: rows leave out the creation time, which the agent never sets, and the networks of a container, which it never fills.
- Commands the agent does not dispatch: image, inspect, container action and host commands get no reply and are not modelled.
- Protocol: a message is its agent, its request id and an opaque body; `EndToEnd` says what the body of a reply is.
- Logs: has a wire of its own that carries chunks; `ProtocolDelivery` says the same of messages on the shared connections.
- Codec.NetworkFaithful: says what reaches podman, not what podman makes of it.
- Recreate: decoding the entrypoint and the lookup of the container are given; the order of mounts passed to the printer is a parameter.
- RunReading.UpdateStandaloneContainer: the plan is built first and then run, so a container that stops being reported between two commands is not modelled.
- RunReading.RunCommandRead: the option parsers of podman are modelled for the options these commands print.
- OptionValues: the values of -v and -p are read as podman documents them for paths, addresses and the suffix printed here, not for its other suffixes.
- CacheRuns.FetchPath: matching statistics to containers by id or name is left out; the statistics travel as one value.
- Compose updates: their single quotes sit inside double quotes, so the quoting round trip does not apply (`backend/internal/podman/client.go:760`).
- Links: address validation is an arbitrary predicate, the row a title and address match finds is an arbitrary but fixed choice, ids are numbers and timestamps are dropped.
- LinkOrder.ImportOrder: the library's stable sort is a function rather than an in-place sort.
- CacheRuns.HowOld: speaks of listings and statistics; system information is cached in the same way, is not nested, and appears in the heap model only.
- CacheHeap.Cache.GetContainers: the result of the fetch is a parameter, used on a miss only.
- Auth.AdminRun: holds for operations that run one after another; `AuthRace` says what holds when they do not.
- EventStreams: reading and parsing lines from a host, and the retry delays, are left out; a subscription offers arbitrary events.
- Event streams through agents: they use the callbacks and contexts modelled here; the conversion of an event's fields is left out.
- Handlers, route tables and the web application: they decode a request, call one of the operations above and write a status, and keep no state of their own.
- Percentages, byte counts and backoff times: floating point, with no state and no relation between operations.
