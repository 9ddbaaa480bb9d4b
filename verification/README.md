# Verified model of the MCP client, server and peer-to-peer transport

This project models the Rust MCP SDK's message layer in Dafny and proves properties of the model:

- **Client correlation** (`Client`, `ClientRun`, `ClientInvariant`, `ClientSafety`, `ClientTheorems`,
  `ClientLifecycle`, `ClientFailures`, `ClientUndisturbed`, `PendingRefinement`). One client over one stdio or SSE
  transport is a transition system: the call that holds the client's mutex, the queue of 32 messages, the actor's two
  loops, the map of pending requests, the wire, shutdown, and a call being dropped at any await. The peer may deliver
  any value at any moment. An inductive invariant over all runs gives correlation, sender ownership, shutdown, no lost
  reply, the order of ids, the handshake and the causes of failures.
- **Messages, server and routing** (`Protocol`, `Server`, `Router`, `Transparency`, `RemoteCalls`, `RemoteHandshake`).
  Classification of incoming JSON (JSON-RPC 2.0, sections 4, 4.1, 5 and 5.1), the server loop, dispatch, and their
  composition with the client: a remote call is a direct call, and returns what the router's own fields say.
- **Prompt filling** (`Text`, `Templates`, `TemplateKeys`, `Prompts`, `PromptRefusals`). Sequential `replace` calls
  compared with simultaneous substitution, with the exact condition on the arguments; validation; a tight length
  bound.
- **Peer-to-peer handler and manager** (`P2pHandler`, `P2pHistory`, `P2pOperations`, `P2pInterleaving`, `P2pLocks`,
  `P2pAgreement`, `P2pManager`). The handler's four maps, what any interleaving of its methods leaves in them, how
  whole operations count and refuse messages, which operations can deadlock, and the manager's counter.
- **Framing** (`LineFraming`, `LengthFraming`). Newline frames over arbitrary chunks, and 8-byte big-endian length
  frames.

`dafny verify dfyconfig.toml` checks everything. Objects whose methods update fields are classes whose methods are
proved against specification functions; loops are loops with invariants. The client's actor loops and the concurrent
sends of the peer-to-peer manager are transitions, one per stretch between two awaits, because what matters about
them is how they interleave there. Futures, timers, random ids and foreign I/O are nondeterministic steps or parameters.

Where the code and its own words disagree the model follows the code:

- The comment on prompt limits says a prompt must be *less than* 10000 *characters*; the code accepts up to 10000
  *bytes*, and up to 1000 bytes for keys and values (`crates/mcp-server/src/router.rs:326-364`).
- `RouterError` converts to codes -32602 and -32600 (`crates/mcp-server/src/errors.rs:59-95`), but a handler's error
  leaves `Server::run` with code -32603 and the error's text (`crates/mcp-server/src/lib.rs:166-182`).
- `clean_stale_peers` takes the peer lock and then the seen lock, the other way round from `handle_gossipsub`
  (`crates/mcp-transport-p2p/src/protocol/handler.rs:455-467,621-641`): `P2pLocks.DeadlockIff` says what follows.
- `SseTransport::start` matches `Ok(_)` on the timeout only, so a handle may exist without an endpoint
  (`crates/mcp-client/src/transport/sse.rs:293-299`); the model starts without one and a request is then refused.

## Model

| member | source | states |
|---|---|---|
| ClientTheorems.RepliesReachTheirCall | crates/mcp-client/src/client.rs:135-186 | in every run, with timeouts and stale, duplicate, reordered or unsolicited replies, a call ends with a transport error or with the reading of a reply to its own id that was sent into its own channel; no "unexpected response" branch is ever taken |
| ClientTheorems.SenderHasOnePlace | crates/mcp-client/src/transport/mod.rs:64-87 | a response sender neither used nor dropped is in exactly one place: the caller's unsent message, one queue slot, the actor's hands, or the pending map; and whatever is in such a place is unused |
| ClientSafety.SenderUsedOnce | crates/mcp-client/src/transport/mod.rs:108-121 | no step of any party touches a sender that was already used or dropped, or changes the request it was made for |
| ClientTheorems.NobodyWaitsAfterShutdown | crates/mcp-client/src/transport/stdio.rs:26-72 | once `StdioActor::run` returned, or both SSE loops did, the pending map and the queue are empty and a waiting or offering call can go on at once |
| ClientTheorems.PendingIsExact | crates/mcp-client/src/transport/stdio.rs:132-153 | the pending map holds exactly the requests inserted, not answered and not cleared, each under its own id; a request on the wire was inserted before |
| ClientTheorems.NoLostReply | crates/mcp-client/src/transport/stdio.rs:132-143 | against a peer that answers only requests it may have received and each at most once, every reply finds its own entry unless a clear took it |
| ClientTheorems.WireIdsIncrease | crates/mcp-client/src/client.rs:138-144 | request ids leave in strictly increasing order, gaps allowed |
| ClientFailures.ErrorsAreExplained | crates/mcp-client/src/client.rs:146-159 | a call that ended with a transport error names its own method, and the error tells what became of its sender: refused for want of an endpoint (SSE only), not serialisable, dropped, or overridden by the child's error output |
| ClientFailures.StderrIsTold | crates/mcp-client/src/transport/stdio.rs:166-184 | what the child wrote to its error output is told to the next call that finishes, whatever its reply, and once |
| ClientFailures.RefusalsAreTold | crates/mcp-client/src/transport/sse.rs:155-175 | a request taken without an endpoint is answered NotConnected, one that does not serialise Serialization |
| ClientFailures.NothingLeavesAfterFailure | crates/mcp-client/src/transport/stdio.rs:139-153 | after a failed write, or once the stdio actor has stopped, no message leaves any more |
| ClientFailures.NothingBeforeTheEndpoint | crates/mcp-client/src/transport/sse.rs:155-163 | an SSE client writes nothing before it has found an endpoint |
| ClientFailures.EndpointAndClient | crates/mcp-client/src/transport/sse.rs:89-107 | the endpoint is known exactly once its event was seen, and the client lives exactly until it was dropped |
| ClientFailures.ClearsAreComplete | crates/mcp-client/src/transport/sse.rs:141-143 | each place that clears the pending map leaves it empty and drops the sender of every request in it |
| ClientFailures.SseLoopsEndClearing | crates/mcp-client/src/transport/sse.rs:141-215 | neither loop of an SSE client ends without clearing the map |
| ClientFailures.QueueIsBounded | crates/mcp-client/src/transport/stdio.rs:253-253 | the queue never holds more than 32 messages |
| ClientLifecycle.NothingBeforeTheHandshake | crates/mcp-client/src/client.rs:242-390 | whatever is issued besides the two handshake messages is one of the six methods, and follows a completed handshake (initialize answered, notification sent) whose latest result has a non-null capability of the method's family |
| ClientLifecycle.HandshakePrecedesOnWire | crates/mcp-client/src/client.rs:242-264 | on the wire, every other request comes after the initialize request of a completed handshake that advertised its method's family, the latest one when the call was issued |
| ClientSafety.StepGood | crates/mcp-client/src/transport/mod.rs:64-121 | every step of call, outgoing loop, incoming loop and actor keeps the invariant: numbered channels, ordered unsent messages, exact pending map, ordered wire, findable senders |
| ClientSafety.RunGood | crates/mcp-client/src/transport/stdio.rs:26-156 | the invariant and the shutdown discipline hold after every run of either transport |
| ClientInvariant.ReplyFindsItsChannel | crates/mcp-client/src/transport/stdio.rs:91-100 | a map entry found under the decimal text of a reply's id belongs to the request with that very id |
| ClientInvariant.CoreInsert | crates/mcp-client/src/transport/stdio.rs:132-137 | the insertion before a write replaces no entry and keeps the invariant |
| ClientInvariant.CoreClear | crates/mcp-client/src/transport/mod.rs:118-120 | clearing the map drops exactly the senders in it and keeps the invariant |
| DecimalText.DecimalInjective | crates/mcp-client/src/transport/stdio.rs:93-98 | two ids have the same decimal text exactly when they are equal |
| PendingRefinement.MapIsValid | crates/mcp-client/src/transport/mod.rs:91-121 | in every state of every run no two entries of the pending map share a sender and none of its senders was used, which is what the map's methods demand and keep |
| PendingRefinement.RunInsert | crates/mcp-client/src/transport/mod.rs:108-110 | from any such state the in-place insertion leaves map and channels as the transition does |
| PendingRefinement.RunRespond | crates/mcp-client/src/transport/mod.rs:112-116 | the same of answering: the entry under the reply's id is gone and its sender alone used, or nothing changed |
| PendingRefinement.RunClear | crates/mcp-client/src/transport/mod.rs:118-120 | the same of clearing: every sender in the map is dropped |
| Client.McpClient.SendRequest | crates/mcp-client/src/client.rs:131-192 | one id is spent, exactly one request is handed over and carries it, and each kind of reply is read against that id although the counter is read again afterwards |
| Client.McpClient.Initialize | crates/mcp-client/src/client.rs:242-264 | the capabilities change exactly when the result decodes and both handshake messages went well; the second message is sent only after a good first |
| Client.McpClient.Invoke | crates/mcp-client/src/client.rs:266-390 | each operation hands over its own method if the latest handshake advertised its family; otherwise nothing is handed over and no id spent, and what is returned instead |
| Protocol.WireMeaning | crates/mcp-core/src/protocol.rs:12-126 | what serialising and classifying makes of every message that can be built |
| Protocol.RoundTripIff | crates/mcp-core/src/protocol.rs:74-126 | a message comes back as itself exactly when it is a request with id, a notification, a response with a non-null result and no error, or an error, with no optional value set to null |
| Protocol.ParsedIsFixedPoint | crates/mcp-core/src/protocol.rs:74-126 | every parsed message other than Nil is a fixed point of serialise-then-classify |
| Protocol.ErrorResponseBecomesError | crates/mcp-core/src/protocol.rs:77-84 | a response carrying an error arrives as an error with the same id, code and message |
| Protocol.ParsesIff | crates/mcp-core/src/protocol.rs:54-126 | which JSON values are messages: objects, or arrays of six, whose fields have their types, and not an id alone |
| Protocol.ClassifiedBy | crates/mcp-core/src/protocol.rs:74-126 | which message a value is, by which of error, result, method and id are there, and what is in it |
| Protocol.WireShape | crates/mcp-core/src/protocol.rs:12-52 | what every message looks like on the wire, member by member |
| Server.Process | crates/mcp-server/src/lib.rs:149-242 | one turn of the loop computes `Answer`, which `Server.AnswerIs` spells out |
| Server.AnswerIs | crates/mcp-server/src/lib.rs:54-242 | each kind of line: the code and text of its error, or the service's response, or the wrapped error text under the request's id, or nothing; and the state the service is left in |
| Server.RequestAnswered | crates/mcp-server/src/lib.rs:143-200 | the request on a line is answered by the service in the state which the requests on the lines before it have left, at its place among the replies |
| Server.RepliesAppend | crates/mcp-server/src/lib.rs:146-245 | what comes later is answered from that state |
| Server.Run | crates/mcp-server/src/lib.rs:137-246 | the output is the filter-map `Replies` of the input, and on a write failure the prefix of it that fitted |
| Server.RepliesAnswer | crates/mcp-server/src/lib.rs:146-245 | one reply per request with its id and one id-less error with the right code class per failed line, in order; none for notifications, responses, errors or Nil |
| RemoteCalls.OneCallGives | crates/mcp-server/src/router.rs:104-430 | request to line to handler to line to result: what each of the seven methods returns in terms of the router's own fields, with each error's code and text, and METHOD_NOT_FOUND for any other |
| RemoteCalls.RemoteCallGives | crates/mcp-server/src/router.rs:409-430 | in every run against a server driving a router, whatever a call returns is a transport error or exactly that |
| RemoteCalls.UndisturbedOperationGives | crates/mcp-client/src/client.rs:266-390 | from every quiescent state reached, each of the client's six operations puts its own method on the wire and returns what the router has for it |
| RemoteHandshake.UndisturbedHandshake | crates/mcp-client/src/client.rs:242-264 | from every quiescent state reached, an undisturbed initialize sends its request and its notification and leaves the client ready with the capabilities that the router offers |
| ClientUndisturbed.FailedHandshakeEnds | crates/mcp-client/src/client.rs:252-262 | a handshake whose initialize fails or does not decode ends there and nothing is learnt |
| RemoteCalls.CallToolPassesArguments | crates/mcp-server/src/router.rs:164-187 | a tool called with a name and arguments is called with exactly these |
| Transparency.UndisturbedCallReturns | crates/mcp-client/src/client.rs:131-192 | from every quiescent state reached, the run of an undisturbed call exists step by step, and the call returns what calling the handler does |
| Transparency.RouterEchoesIds | crates/mcp-server/src/router.rs:104-111 | every successful response of the router carries the id it was asked with |
| Text.ReplaceLength | crates/mcp-server/src/router.rs:371-373 | the exact byte law of one replacement step |
| Text.ReplaceChanges | crates/mcp-server/src/router.rs:371-373 | replacing what occurs changes the text unless it is replaced by itself |
| Templates.HarmlessIff | crates/mcp-server/src/router.rs:366-374 | for brace-free keys, sequential rewriting is simultaneous substitution in every template exactly for the arguments whose texts no other placeholder can match in, and these are exactly those whose order never matters |
| Templates.SequentialIsSimultaneous | crates/mcp-server/src/router.rs:366-374 | under that condition rewriting in any order equals filling every hole at once |
| Templates.OrderIrrelevant | crates/mcp-server/src/router.rs:369-374 | the same for any text that reads as a template, and any two orders of the arguments |
| Templates.ReadComplete | crates/mcp-server/src/router.rs:366-374 | the test for being a template accepts the text of every template |
| Templates.HolesLeft | crates/mcp-server/src/router.rs:366-374 | after filling with brace-free values, a placeholder occurs exactly when the template had that hole and nobody supplied it |
| TemplateKeys.KeysIff | crates/mcp-server/src/router.rs:366-374 | for any names, braces included, and values without an opening brace: sequential rewriting is simultaneous substitution in every template exactly when each name whose placeholder spells a template has that template's filling as its value; brace-free names always do |
| TemplateKeys.ReplaceRefines | crates/mcp-server/src/router.rs:371-373 | under that condition one replacement step keeps what the text will be filled to, adds no hole and leaves none of its own name |
| Prompts.FindByName | crates/mcp-server/src/router.rs:293-299 | the loop finds the first prompt of that name |
| Prompts.CheckRequired | crates/mcp-server/src/router.rs:301-318 | the loop finds the first required argument that is missing, not a string or empty |
| Prompts.CheckArguments | crates/mcp-server/src/router.rs:332-357 | the nested loops find the first fault in the order in which the arguments are walked |
| Prompts.FillDescription | crates/mcp-server/src/router.rs:366-374 | the rewriting loop computes the sequential filling |
| Prompts.HandlePromptsGet | crates/mcp-server/src/router.rs:270-392 | the method computes the specification in the code's order of checks, and succeeds exactly when `Prompts.SucceedsIff` says |
| Prompts.SucceedsIff | crates/mcp-server/src/router.rs:275-364 | a prompt is filled exactly when the parameters are an object with a string name and an arguments object, the first prompt of that name exists, its required arguments are non-empty strings, its text is available and at most 10000 bytes, keys are 1 to 1000 bytes, values at most 1000 bytes, and none of the six patterns, each spelt out, occurs |
| Prompts.FilledIsFilling | crates/mcp-server/src/router.rs:366-374 | its text is the description filled with the arguments' strings, empty for what is no string |
| PromptRefusals.BadParameters | crates/mcp-server/src/router.rs:275-290 | which error missing or ill-typed parameters, name and arguments get |
| PromptRefusals.NotReady | crates/mcp-server/src/router.rs:292-318 | which error an unknown prompt gets, and that the first missing required argument is the one told |
| PromptRefusals.UnsafeArgumentRefused | crates/mcp-server/src/router.rs:332-357 | the first unsafe argument in walking order is told by its key, its length, or the first of the six patterns that occurs in key or value |
| PromptRefusals.DescriptionRefused | crates/mcp-server/src/router.rs:320-364 | a failing get_prompt is told before any argument, a description over 10000 bytes after all |
| PromptRefusals.BytesNotCharacters | crates/mcp-server/src/router.rs:332-345 | 501 two-byte characters are too many for a key and for a value |
| Prompts.FilledLengthBound | crates/mcp-server/src/router.rs:332-374 | an accepted prompt over a template with harmless arguments is at most 3,333,001 bytes long |
| Prompts.FilledLengthAttained | crates/mcp-server/src/router.rs:275-374 | and an accepted request reaches that length: one required argument of 1000 letters in a 10000-byte description of 3333 holes |
| P2pHandler.Handler.UpdatePeerState | crates/mcp-transport-p2p/src/protocol/handler.rs:407-423 | the peer's entry is made if absent, stamped, and one counter of it raised |
| P2pHandler.CleanersKeep | crates/mcp-transport-p2p/src/protocol/handler.rs:426-641 | which peers each cleaner keeps by when they were last seen, and which message ids |
| P2pOperations.SurvivesCleanStale | crates/mcp-transport-p2p/src/protocol/handler.rs:621-636 | after any operations a known peer survives exactly when its entry was last written no longer ago than the timeout, and its entry stays as it was |
| P2pOperations.SurvivesCleanup | crates/mcp-transport-p2p/src/protocol/handler.rs:426-430 | the same of `cleanup_peers`, when it was written less long ago than the timeout |
| P2pHistory.CleanersDiffer | crates/mcp-transport-p2p/src/protocol/handler.rs:426-636 | with one timeout and clock the two cleaners keep the same entries, but for peers last seen exactly that long ago, which only `clean_stale_peers` keeps |
| P2pHandler.Handler.CleanStalePeers | crates/mcp-transport-p2p/src/protocol/handler.rs:621-641 | exactly the peers last seen no longer ago than the timeout stay, unchanged, and exactly the message ids younger than 300 seconds |
| P2pHandler.Handler.ProcessMessage | crates/mcp-transport-p2p/src/protocol/handler.rs:167-192 | one message is counted and the content or resource stored |
| P2pHandler.Handler.ProcessProtocolMessage | crates/mcp-transport-p2p/src/protocol/handler.rs:195-265 | what each kind of message changes, and that a resource request is answered by whether the cache has it and a ping by its pong |
| P2pHandler.Handler.HandleRequest | crates/mcp-transport-p2p/src/protocol/handler.rs:268-376 | the reply to each kind of request, and what it changes |
| P2pHandler.Handler.HandleGossipsub | crates/mcp-transport-p2p/src/protocol/handler.rs:455-491 | true exactly for a new message that parses; a duplicate changes nothing; what a new one changes |
| P2pHandler.Handler.HandleResponse | crates/mcp-transport-p2p/src/protocol/handler.rs:494-585 | the request is no longer open, and a resource response is stored only when it was asked for under that request id and that uri |
| P2pHandler.Handler.GetPeerCountByTransport | crates/mcp-transport-p2p/src/protocol/handler.rs:609-618 | the counting loop ends with the number of peers of that transport, or of all |
| P2pHistory.EntryCounts | crates/mcp-transport-p2p/src/protocol/handler.rs:406-449 | after any interleaving of the methods' sections, a known peer's entry was made by one section, lived since, is keyed by its own id, its counters are the incoming and outgoing messages since, and its transport is the registered one or the handler's |
| P2pHistory.BirthUnique | crates/mcp-transport-p2p/src/protocol/handler.rs:407-445 | that section is the only such one |
| P2pHistory.EntryTime | crates/mcp-transport-p2p/src/protocol/handler.rs:417-417 | `last_seen` is the time of the latest section that touched or registered the peer |
| P2pOperations.TouchesOfMessages | crates/mcp-transport-p2p/src/protocol/handler.rs:455-498 | how many messages each operation counts: two for a fresh gossip message that parses, one for a fresh one that does not and for a direct message, request or response, none for a duplicate |
| P2pOperations.ReceivedIsWeight | crates/mcp-transport-p2p/src/protocol/handler.rs:406-498 | after any sequence of operations `messages_received` is the sum of those counts since the entry was made or last replaced |
| P2pInterleaving.InterleavedCounts | crates/mcp-transport-p2p/src/protocol/handler.rs:406-498 | however operations interleave, once all are finished and nothing removed or replaced the peer's entry, its `messages_received` has grown by the sum of their counts |
| P2pInterleaving.WeaveIsRun | crates/mcp-transport-p2p/src/protocol/handler.rs:143-641 | every interleaving takes the handler through the sections of its trace, so what is shown of sequences of sections holds of it |
| P2pInterleaving.AloneIsSectionsOf | crates/mcp-transport-p2p/src/protocol/handler.rs:143-641 | an operation that runs alone runs the sections its method is proved to run |
| P2pOperations.OperationsKeepKeys | crates/mcp-transport-p2p/src/protocol/handler.rs:143-265 | however operations interleave, each peer key is its entry's id and each cache key its resource's uri |
| P2pOperations.CacheAfter | crates/mcp-transport-p2p/src/protocol/handler.rs:143-585 | what each operation leaves in the cache, under its own uri, and that it leaves the rest alone |
| P2pOperations.Perform | crates/mcp-transport-p2p/src/protocol/handler.rs:133-641 | the handler's own methods do what the theorems about operations assume of them |
| P2pHistory.CountsAddUp | crates/mcp-transport-p2p/src/protocol/handler.rs:609-618 | the counts for the three transport types add up to the total |
| P2pHistory.CacheHoldsLastPut | crates/mcp-transport-p2p/src/protocol/handler.rs:154-163 | the cache has a uri exactly when something was stored under it, and holds what was stored last |
| P2pHistory.OpenRequests | crates/mcp-transport-p2p/src/protocol/handler.rs:499-503 | a request is open exactly from when it was last asked until a response to it was handled |
| P2pHistory.RefusedIff | crates/mcp-transport-p2p/src/protocol/handler.rs:455-464 | under any interleaving a gossip message is refused exactly when an earlier one with its id was accepted and no cleaning in between, by the time it had sampled, found that 300 seconds old |
| P2pOperations.DuplicateIff | crates/mcp-transport-p2p/src/protocol/handler.rs:455-641 | after any sequence of operations `handle_gossipsub` meets a duplicate exactly when an earlier operation accepted that id and no `clean_stale_peers` in between found it 300 seconds old |
| P2pHistory.AcceptedOncePerTtl | crates/mcp-transport-p2p/src/protocol/handler.rs:621-641 | two acceptances of one message id are at least 300 seconds apart, although a cleaner samples its clock before it gets the lock |
| P2pHistory.TtlAttained | crates/mcp-transport-p2p/src/protocol/handler.rs:638-641 | and 300 seconds can be exactly how far apart they are |
| P2pLocks.OrderedProgram | crates/mcp-transport-p2p/src/protocol/handler.rs:143-641 | every operation but `clean_stale_peers` takes nested locks in the order seen, cache, peers; every operation but fresh gossip keeps to the order cache, peers, seen |
| P2pLocks.SomeoneCanStep | crates/mcp-transport-p2p/src/protocol/handler.rs:379-491 | while operations that keep to one order are unfinished, one of them can go on, without any cancellation |
| P2pLocks.DeadlockIff | crates/mcp-transport-p2p/src/protocol/handler.rs:455-641 | operations running together can deadlock exactly when one is `clean_stale_peers` and another handles a gossip message it has not seen |
| P2pLocks.DeadlockPersists | crates/mcp-transport-p2p/src/protocol/handler.rs:621-641 | a deadlock stays through every step except the cancellation of one of its members |
| P2pLocks.DeadlockIsForever | crates/mcp-transport-p2p/src/protocol/handler.rs:621-641 | the same over whole runs |
| P2pLocks.CleaningAndGossipDeadlock | crates/mcp-transport-p2p/src/protocol/handler.rs:455-641 | the run of a cleaner and a gossip handler into mutual waiting |
| P2pLocks.MutualExclusion | crates/mcp-transport-p2p/src/protocol/handler.rs:52-66 | in every state reached two tasks hold one lock only to read |
| P2pLocks.ServedInOrder | crates/mcp-transport-p2p/src/protocol/handler.rs:52-66 | a lock is given to no task while an earlier one waits for it |
| P2pAgreement.LocksAreSections | crates/mcp-transport-p2p/src/protocol/handler.rs:143-641 | an operation takes for writing the locks of the maps its sections change, in their order |
| P2pAgreement.NestingsAre | crates/mcp-transport-p2p/src/protocol/handler.rs:379-641 | which locks are held while others are taken: cache around peers in the broadcaster, seen around peers and cache in the gossip handler, peers around seen in the cleaner, and no others |
| P2pManager.SendInternal | crates/mcp-transport-p2p/src/lib.rs:180-217 | success exactly with a connected and a working transport; the content is carried once, WebTransport before WebRTC; which error otherwise |
| P2pManager.TransportState.SendLocked | crates/mcp-transport-p2p/src/lib.rs:170-176 | a send that runs to its end leaves the counter and the peers as they were; its outcome, error and the one transport that carried the content |
| P2pManager.CounterIsLeaks | crates/mcp-transport-p2p/src/lib.rs:167-177 | over every interleaving the counter is the number of sends cancelled mid-flight since the last shutdown, one more while the lock is held; one send at a time is in its transport and the decrement never underflows |
| P2pManager.RefusedIff | crates/mcp-transport-p2p/src/lib.rs:155-164 | with a validated configuration a send is refused exactly when that number has reached the limit, and admitted otherwise |
| P2pManager.RefusedForGood | crates/mcp-transport-p2p/src/lib.rs:112-177 | from then on every check refuses until a shutdown |
| P2pManager.CancelledSendsAddUp | crates/mcp-transport-p2p/src/lib.rs:167-177 | every such number is reached, with nothing in flight any more |
| LineFraming.JsonRpcFrameCodec.Decode | examples/servers/src/common/jsonrpc_frame_codec.rs:8-23 | a frame is what precedes the first newline, and frame, newline and what is left are the bytes that were there; without a newline nothing changes |
| LineFraming.JsonRpcFrameCodec.Feed | examples/servers/src/common/jsonrpc_frame_codec.rs:8-23 | over any chunks, frames rejoined with newlines plus the leftover are the bytes received; draining ends |
| LineFraming.FramingUnique | examples/servers/src/common/jsonrpc_frame_codec.rs:12-22 | bytes have one framing |
| LineFraming.ChunkingDoesNotMatter | examples/servers/src/common/jsonrpc_frame_codec.rs:8-23 | two ways to cut the same bytes yield the same frames and the same leftover |
| LineFraming.PayloadsRoundTrip | examples/servers/src/common/jsonrpc_frame_codec.rs:8-23 | newline-free payloads come out in order and unchanged, nothing left |
| LineFraming.FrameCount | examples/servers/src/common/jsonrpc_frame_codec.rs:12-20 | there are as many frames as newlines |
| LengthFraming.LengthsAreBytes | crates/mcp-transport-p2p/src/protocol/mod.rs:251-251 | the numbers below 2^64 and the 8-byte strings correspond one to one |
| LengthFraming.Stream.ReadExact | crates/mcp-transport-p2p/src/protocol/mod.rs:249-254 | whatever sizes the reads have, the buffer is filled from the front of the stream, or the stream was too short |
| LengthFraming.Stream.WriteFrame | crates/mcp-transport-p2p/src/protocol/mod.rs:282-299 | the length and the payload are appended |
| LengthFraming.Stream.ReadFrame | crates/mcp-transport-p2p/src/protocol/mod.rs:240-258 | reading fails exactly on a truncated stream; otherwise one frame is taken off the front |
| LengthFraming.FrameBytes | crates/mcp-transport-p2p/src/protocol/mod.rs:282-299 | a frame is eight bytes of length, the highest first, and the payload |
| LengthFraming.TruncatedIff | crates/mcp-transport-p2p/src/protocol/mod.rs:249-254 | a stream is truncated exactly when no frame stands at its front |
| LengthFraming.FrameUnique | crates/mcp-transport-p2p/src/protocol/mod.rs:282-299 | the same bytes begin with at most one frame |
| LengthFraming.PrefixFree | crates/mcp-transport-p2p/src/protocol/mod.rs:282-299 | no frame begins another |
| LengthFraming.CutFrameIsTruncated | crates/mcp-transport-p2p/src/protocol/mod.rs:249-254 | a frame cut anywhere short of its end cannot be read |
| LengthFraming.WriteThenRead | crates/mcp-transport-p2p/src/protocol/mod.rs:240-319 | any sequence of payloads is read back as it was written, with nothing left over |

## Left out

- Templates.HarmlessIff: names are brace-free; `TemplateKeys.KeysIff` has the exact condition for names with braces when values have no opening brace. Names with braces together with values with an opening brace have no exact condition here: a placeholder may then be pieced together from several values and unfilled holes. Texts that are not templates (nested or unclosed braces) have no simultaneous meaning to compare with.
- TemplateKeys.KeysIff: see `Templates.HarmlessIff`.
- Templates.HolesLeft: stated for values without an opening brace, since any other value may itself spell the placeholder of a hole nobody supplied.
- ClientTheorems.RepliesReachTheirCall: fewer than 2^64 - 1 requests per client; after that the id counter wraps around.
- ClientTheorems.NobodyWaitsAfterShutdown: says what holds once the loops have returned; that reading the child's standard error ever ends is not claimed, nor that an SSE request sent after the event stream ended is answered before the outgoing loop ends.
- RemoteCalls.RemoteCallGives: the router is a function of the request; handlers that keep state between calls are covered by `Server.Run`, `Server.RequestAnswered` and `Server.RepliesAnswer`, which allow any state.
- P2pOperations.ReceivedIsWeight: about operations one after the other; for interleavings `P2pInterleaving.InterleavedCounts` is the law while the entry lives on, and `P2pHistory.EntryCounts` in general.
- P2pOperations.DuplicateIff: about operations one after the other; `P2pHistory.RefusedIff` is the law for their interleavings.
- P2pInterleaving.InterleavedCounts: lets other operations run between the sections of a gossip message, although the code holds the seen lock meanwhile; so more schedules are covered than can happen.
- P2pManager.CounterIsLeaks: the counter is unbounded; a `usize` overflows only after 2^64 cancelled sends.
- LengthFraming.Stream.ReadFrame: allocating the announced length always succeeds and `usize` has 64 bits.
- Server.Run: a message that fails to be written is not written in part, and the input is whole lines: `ByteTransport::poll_next` forgets the bytes it had read when a read is interrupted in mid-line.
- The actors' loops share the pending map by reference; as transitions they are modelled on values, so that sharing is not captured there. `Transport.PendingRequests` has the map's operations in place, and `PendingRefinement` shows that they do what the transitions do.
- Calls waiting for the client's mutex: they have not started, and a call in progress borrows the capabilities, so they stay as they were when it was checked.
- JSON text, duplicate object members, the wording of parser errors and the decoding of results into typed values (a nondeterministic success or failure).
- The order in which a JSON object's members are walked: any fixed enumeration stands for it, so no result relies on sorted keys.
- Panics in the SSE incoming loop for a malformed endpoint URL, and HTTP statuses, which the code only logs.
- Several clients on one cloned transport handle: their ids collide, so correlation does not hold.
- Serialisation failures inside handlers, tool schemas, content builders, configuration defaults, the example servers and the browser bindings.
- Methods that only store, look up or reset one field (`register_content`, `lookup_resource`, `cleanup_peers`, `broadcast_resource`, `check_resource_limits`, `shutdown`) are proved against their specification without a row.
- `Ask` sections stand for owners of a handler writing to its public pending-requests map; the repository itself never does.
- Process spawning, the HTTP and SSE libraries, libp2p and the WebTransport and WebRTC set-up.
