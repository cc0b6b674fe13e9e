# supergateway-rs: a model of the gateway core

supergateway-rs bridges MCP servers between transports: a child process that speaks JSON-RPC
over stdio is offered over SSE, WebSocket or streamable HTTP, or a remote server is offered over
stdio. This project models the state machines and incremental parsers between the sockets and
proves what they promise, over every run and every interleaving.

Each concurrent component comes twice. As a step system it is a value `State` with functions for
its atomic steps, one atomic access or one section under one lock each; `Run` takes any list of
steps, and the theorems are about every state so reached, with the whole history (what was sent,
delivered, answered, cleaned) as part of the state. As an object it is a class with the fields of
the original, whose methods have the loops and branches of the original and are proved to do what
the steps say. Main results are stated over the history of a run and, where a function of the
model decides something, in terms that do not mention it: who is sent what, which secret opens
what, which line ends a session. Channels are bounded queues that remember everything ever put into
them, time is a number that does not decrease, and what is drawn at random is required to be fresh.
JSON texts are not looked into; that the library reads back what it printed is a hypothesis where
it is needed.

| part of the gateway | files |
|---|---|
| sessions of the stateful gateway | `SessionModel`, `SessionProofs`, `SessionTheorems`, `SessionUses`, `SessionManager` |
| SSE printer and parser | `Decimal`, `SseParser`, `SseChunks`, `SseWire`, `SseBlocks`, `PostBody` |
| line codec of a child's stdio | `Codec`, `CodecTheorems` |
| initialization handshake of the two client gateways | `JsonRpc`, `Handshake`, `HandshakeEnds`, `HandshakeLocks`, `ClientGateways` |
| client channels, backpressure, delivery | `Channels`, `Delivery` |
| SSE gateway | `SseBroadcast`, `SseDelivery`, `SseGateway` |
| WebSocket gateway | `WsRouting`, `WsProofs`, `WsHistory`, `WsTheorems`, `WsGateway`, `WsDelivery` |
| POSTs and notifications of the stateful gateway | `Correlation`, `PostResponses`, `PostRuns`, `Notifications`, `StatefulSession`, `StatefulDelivery` |
| stateless gateway | `Permits`, `Stateless` |
| OAuth 2 server | `OAuth2`, `OAuth2Access` |

`Wrappers` and `Seqs` hold what several of them need. `dafny verify dfyconfig.toml` checks the
whole project.

Where the code does less than its comments say, the model follows the code, and the exact
condition is proved:

- The idle timer is said to be a no-op after a new request (src/gateway/stateful_http.rs:1207-1210).
  It reads the access count before the generation, so a use between the two reads goes unnoticed
  (`SessionTheorems.TimerMayMissAUse`); `SessionTheorems.IdleCloseSafety` says exactly when the
  close is safe.
- `create_with_id` raises the gauge even when it overwrites a session, whose cleanup then never runs
  (`SessionTheorems.CreateKeepsGaugeIff`, `SessionTheorems.DisplacedNeverCleaned`).
- Between setting Ready and draining the queue the handshake handlers hold no lock; a stdin message
  may be posted ahead of the queue (`HandshakeLocks.OrderKeptIff`).
- The parser looks for LF before CR, so text that mixes bare CR with later LF depends on how it is
  chunked (`SseChunks.SplitAgreesIff`). Its treatment of ids departs from section 9.2.6 of the WHATWG
  HTML Living Standard (src/client/sse.rs:242-247), and the model does what the code does.
- The request ids of a POST are registered one lock at a time, so a batch that repeats an id can be
  sent more messages than it has distinct ids (`Correlation.DistinctIdsBoundIff`); and since all are
  registered before the first answer is received, 65 entries, even of a single id, can fill its
  channel of 64 (`Correlation.NeverFullIff`, `Correlation.OneIdFills`).
- The wait for the init response is said to keep what it buffers for later
  (src/gateway/stateless_http.rs:167-171). What is read is lost in three ways: behind the response in
  its batch (`Stateless.NoteBehindLost`), and, with all that was buffered, when the reply bears no
  events, because the POST has no request (`Stateless.NoteLostWithoutRequest`) or because it ends in
  an error, nothing having been collected for instance (`Stateless.NoteLostWithoutResponse`).
  `Stateless.NothingLostIff` is the exact condition.
- A refused request counts until it has taken its increment back (`Permits.RefusedIff`).
- An authorization code is accepted at its very expiry instant but may be forgotten at it, and only
  at it (`OAuth2.CodeCleanupShows`, `OAuth2.ForgottenInTime`); section 4.1.2 of RFC 6749 asks for codes to be used once, which is
  `OAuth2.OneTokenPerCode`.

## Model

| member | source | states |
|---|---|---|
| SessionTheorems.Reachable | src/session.rs:172-183 | Every state that any interleaving of the operations can reach, from an empty table of any size limit, satisfies the invariant of the session table |
| SessionTheorems.GuardAccounting | src/session.rs:113-119 | In every reachable state each access counter equals the live guards of its session plus the acquires caught between their two atomics; it never goes below zero, also after a forced removal, so no guard drop underflows |
| SessionTheorems.OutOfTable | src/session.rs:356-375 | Over any continuation of any run, a session that is out of the table never comes back and only loses guards, and its counter is its guards |
| SessionTheorems.UnheldForever | src/session.rs:457-512 | A session removed by the idle or by the drain path has no live guard at that moment and none ever after |
| SessionTheorems.Teardown | src/session.rs:408-556 | With fresh ids, whatever race of complete_close, try_idle_close, try_drain_close and clear occurs: cleanup runs at most once per session, never for one still in the table, and exactly once for each removed one when all removers are done; the gauge is the table size plus the removals it does not show yet; the table never exceeds its limit |
| SessionTheorems.FreshOwners | src/session.rs:310-342 | While ids are fresh, every creation has an id of its own and nothing is ever overwritten |
| SessionTheorems.CreateKeepsGaugeIff | src/session.rs:317-342 | create_with_id keeps the gauge law exactly when the id is new or the table is full; overwriting a session counts it twice |
| SessionTheorems.CreationMayDisplace | src/session.rs:317-342 | A run of two creations under one id: one session, a gauge of two, and nobody who is to clean up the first |
| SessionTheorems.DisplacedNeverCleaned | src/session.rs:317-342 | A session overwritten by a later creation under its id is never cleaned up, in any continuation |
| SessionTheorems.IdleCloseSafety | src/session.rs:356-492 | If an idle close succeeds with the generation read in some earlier state, then no guard existed and no acquire was half done at any moment between if and only if the counter was zero when the generation was read; for all interleavings, with acquire as two atomics |
| SessionTheorems.TimerMayMissAUse | src/gateway/stateful_http.rs:1211-1235 | The timer reads the count before the generation: a legal run from the empty table in which a whole use begins after the count is read as zero and the close with the generation read during it succeeds |
| SessionTheorems.QuietUntil | src/session.rs:356-375 | An unmoved generation and a count that was zero mean that nobody used the session in between, at every intermediate state |
| SessionTheorems.StaleKept | src/session.rs:363-370 | Once a use has begun since the generation was read, the generation has moved or a guard bears witness, for good |
| SessionTheorems.SameSession | src/session.rs:317-342 | With fresh ids, an id found in the table at two moments names the same session |
| SessionUses.NobodyEntersAClosing | src/session.rs:356-400 | Over all runs, from any moment at which a session in the table is closing: its guards and half-done acquires only become fewer, its generation stands still, and it never becomes active again |
| SessionUses.ClosingForever | src/session.rs:356-400 | The same for every state that satisfies the invariant, in and out of the table; its deletion cannot begin a second time, and no idle timer closes it |
| SessionUses.ClosingIsShut | src/session.rs:385-400 | No acquire of a closing session is ever half done |
| SessionUses.ActiveIsAcquired | src/session.rs:356-372 | An acquire of an active session adds one use to it and to no other |
| SessionUses.HalfDoneIsCompleted | src/session.rs:363-370 | The second atomic of an acquire makes the half-done use a guard and moves the generation by one |
| SessionUses.DropReleases | src/session.rs:113-119 | A dropped guard is one use less of its session, in or out of the table, and of no other |
| SessionUses.OthersAreRefused | src/session.rs:356-375 | An acquire of an absent or closing session changes nothing |
| SessionUses.CreatedIsActive | src/session.rs:317-342 | A new session is active and unused, and no other entry changes |
| SessionUses.DeletionBegins | src/session.rs:385-400 | A deletion begins exactly for an active session, which is closing afterwards; no other entry changes |
| SessionUses.ClosesIff | src/session.rs:408-526 | The idle path takes a session out exactly when it is active, unused and of the generation that was read, the drain path exactly when it is closing and unused, a forced close always |
| SessionUses.ClearTakesAll | src/session.rs:533-556 | A clear empties the table and leaves one remover with every session in it once |
| SessionProofs.StepKeeps | src/session.rs:317-556 | Every atomic step of every operation keeps the invariant: listing, counting, single accounting of each session, gauge |
| SessionProofs.CellStep | src/session.rs:356-375 | Only an acquire of a session in the table can start a use or move its generation |
| SessionManagers.SettledIsARun | src/session.rs:408-424 | The uninterrupted removal that the methods promise is the run of the remover's own atomic steps |
| SessionManagers.RemovedIsARun | src/session.rs:408-424 | A single removal, settled, is a run |
| SessionManagers.ClearedIsARun | src/session.rs:533-556 | A clear of any table, settled, is a run |
| SessionManagers.AcquiredIsARun | src/session.rs:356-375 | The uninterrupted acquire is its two atomic steps taken in a row |
| SessionManagers.SessionManager.constructor | src/session.rs:200-213 | A new manager is the empty table |
| SessionManagers.SessionManager.CreateWithId | src/session.rs:317-342 | Refused exactly when the table is full; otherwise the session is entered with counters of its own |
| SessionManagers.SessionManager.Acquire | src/session.rs:356-375 | Refused as not found or as closing by the state of the session, granted exactly for an active one; on success one guard more, and a new generation on the step from zero |
| SessionManagers.SessionManager.DropGuard | src/session.rs:114-119 | One guard of the session less, in or out of the table |
| SessionManagers.SessionManager.BeginDelete | src/session.rs:385-400 | True exactly for an active session, which is closing afterwards; everything else is unchanged |
| SessionManagers.SessionManager.CompleteClose | src/session.rs:408-424 | The session leaves the table, the gauge and the cleanup follow; nothing happens for an absent one |
| SessionManagers.SessionManager.TryIdleClose | src/session.rs:437-492 | Closes exactly an active session with this generation and no access |
| SessionManagers.SessionManager.TryDrainClose | src/session.rs:499-526 | Closes exactly a closing session with no access |
| SessionManagers.SessionManager.DrainTask | src/gateway/stateful_http.rs:1150-1170 | After polling and, if need be, forcing, the session is out of the table and was cleaned once |
| SessionManagers.SessionManager.Drain | src/session.rs:535-541 | The list taken out of the table holds each session once |
| SessionManagers.SessionManager.Clear | src/session.rs:533-556 | Every session is removed and cleaned once, in some order; an empty table is left alone |
| SessionManagers.SessionManager.CleanAll | src/session.rs:551-554 | One cleanup for each session taken out |
| SseWire.RoundTrip | src/gateway/sse.rs:97-103 | For any list of server events whose text has no CR or LF and any cut of their printed form into chunks, one parser yields exactly the events other than keepalives, in order, with type, data and decimal id, ends with an empty line buffer and holds the id of the last message |
| SseWire.WireLines | src/gateway/sse.rs:97-103 | What the server prints is the lines of its events, each ended by LF |
| SseWire.OneEvent | src/client/sse.rs:172-258 | The lines of one printed event make the parser dispatch that event and nothing else |
| SseWire.AllEvents | src/client/sse.rs:172-258 | The lines of all printed events make the parser dispatch all of them in order |
| SseWire.SplitUnlines | src/client/sse.rs:107-154 | Cutting into lines undoes joining by LF, whatever follows |
| SseChunks.SplitAgreesIff | src/client/sse.rs:107-154 | Cutting the input after a text leaves the lines unchanged if and only if what follows has no LF or the text has no bare CR that is followed by something and by no LF |
| SseChunks.FeedAgrees | src/client/sse.rs:107-154 | Under that condition feeding two pieces gives the same events and the same final parser state as feeding them joined, from any parser state |
| SseChunks.FeedIndependent | src/client/sse.rs:107-154 | It holds for all text in which every CR is followed by LF and for all text with no LF |
| SseChunks.FeedChunksAgree | src/client/sse.rs:107-154 | And then any number of chunks gives what the whole text gives, for both families, from any parser state in which no line is pending |
| SseChunks.ChunkingMayChangeEvents | src/client/sse.rs:113-131 | Outside of these families the events themselves can depend on the cut: a concrete input |
| SseBlocks.BlockDispatches | src/client/sse.rs:172-258 | For any fields in any number and order before a blank line, written with or without a space or a colon, with comments and unknown fields between: exactly one event if there is a data field, none otherwise; its data is all data values, each on its own line, its type the last event value or message, its id the last without NUL; the last retry that is a number is kept |
| SseBlocks.BlockInChunks | src/client/sse.rs:107-258 | The same for the text of such a block, its lines ended by LF or by CR LF, in any chunks, from any parser state between two events |
| SseBlocks.MultiLineData | src/client/sse.rs:200-204 | In particular any number of data lines become one event whose data is their texts joined by LF, in any chunks |
| SseBlocks.CrEndsLine | src/client/sse.rs:113-131 | With no LF in sight a CR that is not last ends a line |
| SseParsing.Find | src/client/sse.rs:113-120 | The first occurrence, and none only when there is none |
| SseParsing.DrainOne | src/client/sse.rs:110-152 | Processing the buffer is processing its first line and then the rest |
| SseParsing.SseParser.constructor | src/client/sse.rs:91-101 | A new parser is in the initial state |
| SseParsing.SseParser.Feed | src/client/sse.rs:107-154 | The loop over the buffer yields the events and the state of the line-by-line specification |
| SseParsing.SseParser.CutLine | src/client/sse.rs:111-146 | Takes off the line up to the first LF, or else up to the first CR that is not last |
| SseParsing.SseParser.ProcessOne | src/client/sse.rs:172-223 | Comment, field and blank line as specified, with one leading space of the value removed |
| SseParsing.SseParser.DispatchEvent | src/client/sse.rs:227-258 | The accumulated event, none without data; the id is remembered and the fields are reset |
| Decimal.Print | src/gateway/sse.rs:97-103 | Decimal text is non-empty and has only digits |
| Decimal.PrintParse | src/gateway/ws.rs:437-449 | Parsing undoes printing for every number of 64 bits and for no other |
| Decimal.ParseAccepts | src/client/sse.rs:209-214 | A plus sign and leading zeros are accepted, the empty text and any other character are not |
| CodecTheorems.ReadLinesSplitsOnLf | src/codec.rs:66-102 | For every byte stream, what repeated line reads deliver is the lines of splitting on LF, in order, up to the first that reaches the limit; they end with an overflow exactly when there is such a line |
| CodecTheorems.ReadAllLines | src/codec.rs:66-102 | Calling the reader again and again, whatever sizes its reads return, delivers exactly those lines and ends in exactly that way |
| Codec.StdoutCodec.ReadLineRaw | src/codec.rs:66-102 | Whatever sizes the underlying reads return, one call delivers the next line and leaves what follows its LF, or reports an overflow of a size from the limit up to the line; the buffer stays below the limit throughout |
| Codec.StdoutCodec.Keep | src/codec.rs:84-99 | The buffer grows only below its limit |
| Codec.StdoutCodec.ReadMessage | src/codec.rs:110-166 | The next message, error or end of the stream, with the stream left and the errors counted, skipping blank and malformed lines |
| Codec.StdoutCodec.constructor | src/codec.rs:55-61 | A new codec with an empty buffer |
| Codec.BufReader.FillBuf | src/codec.rs:72-78 | Some prefix of the unread bytes, of any size the reader likes, empty only at the end |
| Codec.BufReader.Consume | src/codec.rs:86-98 | The unread bytes shrink by what was consumed |
| Codec.Position | src/codec.rs:79-83 | The first position of the byte, if any |
| Codec.LineLength | src/codec.rs:66-102 | The first line reaches up to the first LF or the end |
| Codec.LineFound | src/codec.rs:79-90 | What was kept and what stands before the LF make up the next line |
| Codec.NextMessageStep | src/codec.rs:110-166 | A message read is one line judged, and the rest unless that line settles it |
| CodecTheorems.StdoutReaderLoop | src/child.rs:362-398 | The reader thread forwards messages to a receiver that takes so many and then goes away, forwards the error that ends it, counts the errors, and declares the child dead exactly after such an error |
| CodecTheorems.ForwardedIsSession | src/child.rs:362-398 | A receiver that stays gets every message of the session and then its error, if one ended it; one that goes away gets as many messages as it took, and the child is dead exactly if an error came next |
| CodecTheorems.SessionIsJudgedLines | src/codec.rs:110-166 | Reading messages to the end is reading lines to the end and judging each |
| CodecTheorems.Accounting | src/codec.rs:110-166 | On any input, of the lines before the first overflow, up to the first that is not UTF-8, the good ones are returned, each once and in order, the errors are counted, each once, and the lines that are neither are exactly the blank ones |
| CodecTheorems.SessionEnds | src/codec.rs:110-166 | On any input the session ends with the first line before the first overflow that, less its CR, is neither blank nor UTF-8, if there is one; a line that does not parse or is too large ends nothing; the messages are the parses of the readable lines before the end, in order, and all other non-blank lines are counted |
| CodecTheorems.Writer.WriteMessage | src/codec.rs:173-179 | The printed message and one LF are appended |
| CodecTheorems.Writer.WriteAll | src/gateway/stateful_http.rs:905-911 | Writing a list of messages appends their texts, each ended by LF |
| CodecTheorems.WriteReadRoundTrip | src/codec.rs:173-179 | Reading back what was written gives the same messages in order and counts no error, for texts that are one line within the limit |
| CodecTheorems.WriteThenForward | src/codec.rs:173-179 | What one side writes call by call, the reader thread of the other forwards, in order and without an error, whatever sizes its reads return |
| Handshake.HandshakeTrace | src/gateway/sse_to_stdio.rs:171-324 | Whatever the handlers are called with and in whatever order: posted followed by pending is the init request and stdin, with the initialized notification between once Ready, or the rewritten first message and the rest of stdin; nothing but the init is posted before Ready; Ready holds exactly when the init was answered; stdout is the server's messages with exactly the first answer removed in synthetic mode and none in passthrough |
| Handshake.ReadyForever | src/gateway/sse_to_stdio.rs:208-281 | Ready is never left |
| Handshake.EchoCompletes | src/gateway/sse_to_stdio.rs:366-392 | A server that echoes the generated id of the synthetic request completes the handshake: the quotes around it are trimmed |
| HandshakeEnds.PassthroughCompletes | src/gateway/sse_to_stdio.rs:208-324 | For every initialize request of the client, whatever the server says before, whatever either says between and after, and any response under the request's raw id: the handshake is Ready, nothing is queued, the posts are the rewritten request and the other stdin messages in order, and stdout is all the server said |
| HandshakeEnds.SyntheticCompletes | src/gateway/sse_to_stdio.rs:208-392 | For any other first message: an initialize request under the generated id in quotes is posted, and a response under it completes the handshake: the initialized notification and then all stdin messages are posted, in order, and nothing is queued |
| HandshakeEnds.ReadyNeedsResponse | src/gateway/sse_to_stdio.rs:208-281 | The handshake is Ready only after a result or an error whose id is, but for quotes, that of the init request; that one message, and no other, is kept from stdout if the request was the gateway's own |
| HandshakeEnds.TrimIs | src/gateway/sse_to_stdio.rs:214-222 | Trimming takes the quotes off both ends and nothing else |
| HandshakeEnds.HistoryIsTheRun | src/gateway/sse_to_stdio.rs:171-324 | The recorded stdin and server messages are those of the calls |
| JsonRpc.TrimQuoted | src/gateway/sse_to_stdio.rs:214-222 | Trimming undoes quoting an id |
| Handshake.FindAnswer | src/gateway/sse_to_stdio.rs:209-240 | The first message that answers the init request, and none before it does |
| HandshakeLocks.LockedTrace | src/gateway/sse_to_stdio.rs:231-263 | At lock granularity, with Ready set before the separate drain, no stdin message is lost, duplicated or left in the queue; exactly the messages handled between Ready and the drain are posted ahead of the queue |
| HandshakeLocks.OrderKeptIff | src/gateway/sse_to_stdio.rs:231-324 | In every run each post is the stdin message of its number, and the posts are in the order of their numbers, after the messages of the gateway itself, if and only if nothing was posted between Ready and the drain, or there was nothing to drain; equal messages included |
| HandshakeLocks.DrainCanBeOvertaken | src/gateway/sse_to_stdio.rs:231-324 | A run in which a stdin message is posted ahead of the initialized notification and of an earlier message |
| ClientGateways.Absorb | src/gateway/sse_to_stdio.rs:209-240 | The loop over a batch removes exactly the first answer |
| ClientGateways.HasAnswer | src/gateway/http_to_stdio.rs:267-279 | The loop over a batch finds an answer exactly when there is one |
| ClientGateways.SseToStdioGateway.constructor | src/gateway/sse_to_stdio.rs:136-152 | A new gateway is the machine at its start |
| ClientGateways.SseToStdioGateway.HandleSseEvent | src/gateway/sse_to_stdio.rs:171-281 | A message event is a server call of the machine, an endpoint event only sets the endpoint, anything else does nothing |
| ClientGateways.SseToStdioGateway.HandleStdinMessage | src/gateway/sse_to_stdio.rs:286-324 | A stdin call of the machine, with the action that the caller is told |
| ClientGateways.HttpToStdioGateway.constructor | src/gateway/http_to_stdio.rs:142-158 | A new gateway is the machine at its start |
| ClientGateways.HttpToStdioGateway.HandleStdinMessage | src/gateway/http_to_stdio.rs:181-222 | The same stdin call of the same machine |
| ClientGateways.HttpToStdioGateway.HandleResponseMessages | src/gateway/http_to_stdio.rs:230-306 | The same server call of the same machine |
| Channels.AttemptFaithful | src/gateway/sse.rs:416-446 | The recorded start of backpressure is always the first of the full attempts that end the history of attempts |
| Channels.EvictionIff | src/gateway/sse.rs:425-440 | A client is evicted for backpressure if and only if this attempt found its channel full and so did every attempt since one made at least thirty seconds before |
| Channels.OneSendPrevents | src/gateway/sse.rs:417-424 | One send that got through in the last thirty seconds rules an eviction out |
| Channels.Offer | src/gateway/sse.rs:416-446 | One attempt updates channel, record and verdict as specified |
| Channels.OfferAll | src/gateway/sse.rs:410-446 | The loop over all clients makes exactly one attempt for each and collects exactly those to be dropped |
| SseBroadcast.RunKeeps | src/gateway/sse.rs:327-525 | Every run of relay, connections, disconnections and receivers keeps the invariant of the SSE gateway |
| SseBroadcast.BroadcastOrder | src/gateway/sse.rs:369-453 | Over all runs a client's stream is its endpoint and then messages with strictly increasing ids whose texts are a subsequence of the child's output |
| SseBroadcast.SameIdSameText | src/gateway/sse.rs:405-453 | Over all runs equal ids mean equal text, across clients |
| SseBroadcast.FirstClientGetsEarly | src/gateway/sse.rs:369-386 | The first client gets, right after its endpoint, precisely the first min(n, 255) of the n messages written before it came |
| SseBroadcast.EarlySent | src/gateway/sse.rs:504-525 | As many early messages go in as there is room behind the endpoint, numbered from one |
| SseBroadcast.EvictionJustified | src/gateway/sse.rs:405-453 | Exactly which clients a message costs: those that hung up and those starved for thirty seconds |
| SseDelivery.RelayReaches | src/gateway/sse.rs:369-446 | One message of the child: kept, up to 256, while no client has ever come; otherwise exactly the registered clients whose receiver is there and whose channel holds fewer than 256 waiting events are sent it, under the next id, nobody else is sent anything, and each attempt is in its client's log as it went |
| SseDelivery.ConnectSends | src/gateway/sse.rs:468-545 | A new client is sent its own endpoint, then, if it is the first ever, the first min(n, 255) messages of the child; nobody else is sent anything |
| SseDelivery.SentSince | src/gateway/sse.rs:369-446 | Over all runs a client that stays registered is offered every message the child writes meanwhile, numbered without a gap, and is sent exactly those whose attempt, by its log, found room |
| SseDelivery.StreamIs | src/gateway/sse.rs:369-545 | So over all runs the whole stream of a registered client is known exactly: endpoint, early messages if it was the first, and each later message whose attempt found room |
| SseDelivery.LeftGetsNothing | src/gateway/sse.rs:447-453 | A client that has left is sent nothing in any continuation, and is never registered again |
| SseDelivery.DisconnectLeaves | src/gateway/sse.rs:555-570 | A disconnection takes exactly that client out of the registry |
| SseDelivery.AnythingMayHappen | src/gateway/sse.rs:369-386 | No step of the child or of a new client is ever refused |
| SseDelivery.OutputIsRelayed | src/gateway/sse.rs:369-386 | The recorded output of the child is what was relayed in the run |
| SseGateways.SseGateway.constructor | src/gateway/sse.rs:221-250 | A new gateway is the initial state |
| SseGateways.SseGateway.RelayMessage | src/gateway/sse.rs:369-386 | Before the first client a message is kept, up to 256 of them; after that it is broadcast |
| SseGateways.SseGateway.BroadcastLocked | src/gateway/sse.rs:405-453 | Every client is offered the same numbered event, and those gone or timed out are dropped |
| SseGateways.SseGateway.HandleSseConnect | src/gateway/sse.rs:468-545 | Refused at 1024 clients without any change; otherwise endpoint first, and the early messages to the first client |
| SseGateways.SseGateway.DisconnectClient | src/gateway/sse.rs:555-570 | The client leaves, if it is there, and nobody else |
| SseGateways.DrainEarly | src/gateway/sse.rs:504-525 | The early messages go in, in order and numbered on, as far as there is room |
| WsTheorems.ResponsesAnswerTheirClient | src/gateway/ws.rs:431-496 | Over all runs every response in a client's channel answers an id-bearing message that this very client sent before, no message is answered twice, and it is the child's own response to the id that message was given, at a place of its own in what the child wrote, with only the client's id put back |
| WsHistory.BroadcastsInOrder | src/gateway/ws.rs:500-593 | Over all runs what is in a client's channel besides responses and close frames is a subsequence of what the child wrote besides responses |
| WsHistory.FirstClientGetsEarly | src/gateway/ws.rs:645-688 | Over all runs the channel of the client that connected first begins with precisely the first min(n, 256) of the n messages other than responses that the child wrote before it came |
| WsHistory.EarlyFit | src/gateway/ws.rs:656-666 | A new channel takes all early messages, in order: the buffer holds no more than there is room |
| WsHistory.RunTells | src/gateway/ws.rs:415-593 | Every run keeps answers, broadcasts and early messages true to what the child wrote |
| WsDelivery.BroadcastReaches | src/gateway/ws.rs:500-565 | A request or notification of the child: exactly the registered clients with room are sent it, and each attempt is in its client's log; before the first client it is kept, up to 256 |
| WsDelivery.AnswerReaches | src/gateway/ws.rs:467-496 | An answer under way is sent to the client that asked, if it is registered and has room, and to nobody else |
| WsDelivery.CloseReaches | src/gateway/ws.rs:610-635 | At the shutdown exactly the registered clients with room are sent the close frame, and nobody stays registered |
| WsDelivery.SentSince | src/gateway/ws.rs:415-593 | Over all runs a client that stays registered is offered every broadcast and every answer to it, and is sent exactly those, in order, whose attempt, by its log, found room |
| WsDelivery.StreamIs | src/gateway/ws.rs:415-688 | So over all runs the whole stream of a registered client is known exactly: the early messages if it was the first, then each broadcast and each answer to it whose attempt found room |
| WsDelivery.LeftGetsNothing | src/gateway/ws.rs:597-607 | A client that has left is sent nothing in any continuation |
| WsDelivery.RequestsAreBroadcast | src/gateway/ws.rs:415-428 | Handling a message that names a method sends it to every registered client with room, and the table loses exactly the entries of the clients that this costs |
| WsDelivery.AnswersAreRouted | src/gateway/ws.rs:431-496 | Handling a result or an error under an id of the table sends it to the client that asked and to no other, under the id it chose, and uses the entry up |
| WsDelivery.StrayAnswersVanish | src/gateway/ws.rs:431-466 | A response under any other id changes nothing |
| WsDelivery.LeaveIsExact | src/gateway/ws.rs:597-607 | A client that leaves takes exactly its own entries along |
| WsDelivery.ShutdownIsExact | src/gateway/ws.rs:610-635 | The shutdown operation: close frames, nobody registered, and exactly the entries of those who were are gone |
| WsDelivery.AnythingMayHappen | src/gateway/ws.rs:415-428 | No message of the child, no new client and no question is ever refused |
| WsDelivery.SentIsAsked | src/gateway/ws.rs:695-738 | The recorded id-bearing messages are those of the run |
| WsTheorems.EveryIdAccounted | src/gateway/ws.rs:161-182 | Over all runs an allocated id is in the table, under its client and original id, exactly while pending; purged only with its client; delivered exactly when one delivery, and only one, carries it |
| WsTheorems.IdsOnlyAdvance | src/gateway/ws.rs:172-182 | Over all runs an id leaves the table once and for all, and what was delivered, dropped or purged stays so |
| WsTheorems.PurgeIsExact | src/gateway/ws.rs:178-182 | A purge takes exactly the pending entries of its client and leaves all others alone |
| WsTheorems.PurgesCompose | src/gateway/ws.rs:567-572 | Purging clients one after the other is purging them all |
| WsTheorems.EntryMayOutliveItsClient | src/gateway/ws.rs:722-730 | A run in which an entry enters the table after its client was purged |
| WsTheorems.AnswerComesBack | src/gateway/ws.rs:431-496 | A child that echoes the id it was given has its answer appended to the channel of the client that asked, under the client's own id, and every other channel and entry is untouched |
| WsTheorems.BroadcastEvicts | src/gateway/ws.rs:527-565 | Exactly which clients a broadcast costs |
| WsTheorems.DeliveryEvicts | src/gateway/ws.rs:478-496 | An answer costs at most the client it is for, for the same two reasons |
| WsProofs.StepKeeps | src/gateway/ws.rs:161-763 | Every step of every operation keeps table, log of deliveries, channels and backpressure records consistent |
| WsGateways.ForwardMangles | src/gateway/ws.rs:695-738 | What the child is given: the client's messages in order, as many as it takes, the id-bearing ones under ids that the table maps back to the client and its own id; other entries stay; a message the child no longer takes leaves its entry behind |
| WsGateways.IdsDiffer | src/gateway/ws.rs:161-168 | Different messages get different ids, in order |
| WsGateways.RouteReached | src/gateway/ws.rs:415-496 | Handling a message of the child, with the purges it causes, is a run of the step system |
| WsGateways.PurgeReached | src/gateway/ws.rs:567-572 | So is any batch of purges of clients that have left |
| WsGateways.WsGateway.constructor | src/gateway/ws.rs:286-318 | A new gateway is the initial state |
| WsGateways.WsGateway.Mangle | src/gateway/ws.rs:161-168 | Allocates the next id and maps it to client and original id |
| WsGateways.WsGateway.HandleWsMessage | src/gateway/ws.rs:695-743 | Frame too large, not JSON-RPC, child dead or done; the new table and what the child was given are those specified |
| WsGateways.WsGateway.HandOver | src/gateway/ws.rs:467-496 | One attempt to give the answer to its client, with the eviction it may cause |
| WsGateways.WsGateway.RouteResponse | src/gateway/ws.rs:431-496 | No, foreign or unknown id: nothing; otherwise the entry is used up and the answer handed over |
| WsGateways.WsGateway.BroadcastMessage | src/gateway/ws.rs:500-593 | Kept for the first client, or offered to all; clients it costs lose their entries |
| WsGateways.WsGateway.RouteMessage | src/gateway/ws.rs:415-428 | Responses go to one client, everything else to all; the state stays reachable |
| WsGateways.WsGateway.RemoveClientLocked | src/gateway/ws.rs:597-607 | Client and entries leave together, if the client is there |
| WsGateways.WsGateway.RemoveAll | src/gateway/ws.rs:567-572 | The loop removes each client with its entries |
| WsGateways.WsGateway.HandleWsConnect | src/gateway/ws.rs:645-688 | Refused at 1024 clients without any change; otherwise the first client gets the early messages |
| WsGateways.WsGateway.DisconnectClient | src/gateway/ws.rs:750-766 | The client leaves with its entries, if it is there |
| WsGateways.WsGateway.CloseAllClients | src/gateway/ws.rs:610-635 | Everyone is offered a close frame and leaves with all entries |
| WsGateways.DrainEarly | src/gateway/ws.rs:656-666 | The early messages go in, in order, as far as there is room |
| WsGateways.CloseFrames | src/gateway/ws.rs:614-621 | Every registered client is offered the close frame, nobody else |
| Correlation.AnsweredAtMostOnce | src/gateway/stateful_http.rs:144-179 | Over all runs what a POST receives answers its registrations, each at most once and under its id, so it is never more than were registered |
| Correlation.NeverFull | src/gateway/stateful_http.rs:154-179 | A POST with at most 64 request ids never has a message refused because its channel is full, in any run |
| Correlation.NeverFullIff | src/gateway/stateful_http.rs:929-937 | No send to a POST can find its channel full in any run if and only if it has at most 64 request ids, repeated ones counted each time |
| Correlation.TooManyIds | src/gateway/stateful_http.rs:929-937 | For any more than 64 ids, the run in which the first 64 are answered while the POST is still registering and the next answer finds the channel full |
| Correlation.OneIdFills | src/gateway/stateful_http.rs:929-937 | A single id, repeated 65 times, is enough |
| Correlation.DistinctIdsBoundIff | src/gateway/stateful_http.rs:929-937 | The number of distinct ids bounds what a POST can receive in every run if and only if no id is repeated: ids are registered one by one, and a repeated one can be answered each time |
| Correlation.RepeatsAnswered | src/gateway/stateful_http.rs:929-937 | For any list of ids there is a run in which the POST receives one message for every distinct id and one for each repetition, up to 64 of these |
| Correlation.StepKeeps | src/gateway/stateful_http.rs:144-243 | Every section keeps: the table holds exactly the waiting registrations, and each channel exactly the answers to its own |
| StatefulSessions.SessionData.constructor | src/gateway/stateful_http.rs:121-140 | A new session has an empty table and an empty stream |
| StatefulSessions.SessionData.RegisterPending | src/gateway/stateful_http.rs:144-149 | Enters the id, displacing an older registration under it |
| StatefulSessions.SessionData.RouteResponse | src/gateway/stateful_http.rs:154-179 | Matched exactly when the id is in the table; the entry is used up and the POST is sent the message |
| StatefulSessions.SessionData.FailPendingRequests | src/gateway/stateful_http.rs:229-243 | Empties the table; every registration that waited, and no other, is sent the error with this code and message under its id, unless its POST is gone or has more than 64 ids; nothing else is sent or changed |
| StatefulSessions.SessionData.RouteNotification | src/gateway/stateful_http.rs:183-204 | Buffered before the initialization, dropping the oldest beyond 256; sent on after it |
| StatefulSessions.SessionData.MarkInitDone | src/gateway/stateful_http.rs:208-225 | The buffer is flushed from its first message to its last |
| StatefulSessions.SessionData.RouteSingleMessage | src/gateway/stateful_http.rs:312-338 | The first response with a result sets the flush off before it is routed; everything that is not a response goes to the stream |
| StatefulSessions.NotifyReached | src/gateway/stateful_http.rs:312-338 | Handling a message with its flush is a run of the notification steps |
| StatefulSessions.RouteReached | src/gateway/stateful_http.rs:154-179 | Routing a response is a run of the correlation steps |
| PostResponses.Collect | src/gateway/stateful_http.rs:943-979 | The waiting loop keeps exactly the last message under each id among the polls it makes |
| PostResponses.BuildBody | src/gateway/stateful_http.rs:981-1000 | One event per request: its response for the first of an id that was answered, an error otherwise |
| PostResponses.CollectIds | src/gateway/stateful_http.rs:891-902 | The ids of the requests, in order |
| PostResponses.ForwardAndRespond | src/gateway/stateful_http.rs:870-1003 | No session, failed child, failed write, nothing to wait for, or the body; and what the child was given |
| PostResponses.UsedIs | src/gateway/stateful_http.rs:943-979 | Waiting ends only when every id was heard, at the deadline, or when nobody is left to answer |
| PostResponses.UsedNoLonger | src/gateway/stateful_http.rs:943-979 | And it does not go on when every id has been heard |
| PostResponses.RequestIdsAre | src/gateway/stateful_http.rs:885-893 | The ids waited for are those of all the messages that have an id and a method, in order |
| PostResponses.AnswersAreLast | src/gateway/stateful_http.rs:950-960 | What is kept for an id is the last message that came for it, and nothing is kept for any other |
| PostResponses.OneEventPerRequest | src/gateway/stateful_http.rs:885-995 | For every arrival order, loss or timeout the k-th event bears the k-th request's id, also with repeated ids |
| PostResponses.AnsweredIff | src/gateway/stateful_http.rs:981-1000 | A request gets what the child said if and only if it is the first with its id and something came for that id |
| PostResponses.OthersGetAnError | src/gateway/stateful_http.rs:981-1000 | Every other request gets an error response with code -32603 under its id |
| PostRuns.BodyAnswersItsRegistrations | src/gateway/stateful_http.rs:929-1000 | Over all runs of registering, routing and failing: a POST that polls its own channel makes each event of its body from a message that was said under that id and that answers one of the POST's own registrations of it, no message twice; the others are internal errors; an event is of the first kind exactly for the first request of an id under which something was polled |
| PostRuns.SentWasSaid | src/gateway/stateful_http.rs:154-243 | Over all runs every message sent to a POST is what the child answered under the id of the registration, or the error of the child's failure under that id |
| PostRuns.PolledEvent | src/gateway/stateful_http.rs:943-1000 | Each event of the body is a polled message under the id of its request, or the internal error, and which is known exactly |
| PostBody.BodyParsesBack | src/gateway/stateful_http.rs:500-503 | The text of the body, in whatever chunks, is parsed by the repository's own client into one event per response, in order |
| Notifications.NotificationsInOrder | src/gateway/stateful_http.rs:183-225 | With a live stream all that ever went into it is the last min(n, 256) notifications from before the initialization, then later ones in order |
| Notifications.FlushLosesNone | src/gateway/stateful_http.rs:208-225 | Nothing is sent before the initialization, and during the flush no send to a live stream is refused |
| StatefulDelivery.LateAreSent | src/gateway/stateful_http.rs:183-204 | Over all runs, after the initialization the stream is sent exactly those messages that are no responses and find room, each once and in order |
| StatefulDelivery.DoneIsTheRun | src/gateway/stateful_http.rs:312-338 | Over all runs a session is initialized exactly when a result has come |
| StatefulDelivery.HistoryIsTheRun | src/gateway/stateful_http.rs:183-204 | The recorded early and late notifications are the messages of the run that are no responses, before and after the first result |
| StatefulDelivery.OneMessageStreams | src/gateway/stateful_http.rs:183-338 | What the stream is sent when one message is handled: nothing before the initialization, all that was kept at the first result, the message itself after that if it is no response and there is room |
| StatefulDelivery.OneResponseAnswers | src/gateway/stateful_http.rs:154-179 | A response under an id of the table is sent to the POST registered there, if it is there and fewer than 64 wait, and to no other; the entry is used up and no other changes |
| StatefulDelivery.RegistrationEnters | src/gateway/stateful_http.rs:144-149 | A registration enters its id for its POST and changes no other entry and no channel |
| StatefulDelivery.AnythingMayHappen | src/gateway/stateful_http.rs:312-338 | No message and no failure of the child is ever refused, but for a flush that goes first |
| Notifications.StepKeeps | src/gateway/stateful_http.rs:312-338 | Every step, with the stream receiving or going away at any point, keeps that history |
| Permits.PermitsBounded | src/gateway/stateless_http.rs:522-533 | Over all interleavings at most 1024 permits are out, and the counter is the permits plus the refusals not taken back yet |
| Permits.RefusedIff | src/gateway/stateless_http.rs:522-533 | A request is refused if and only if permits and refusals not taken back together reach 1024 |
| Permits.RefusalBelowTheLimit | src/gateway/stateless_http.rs:522-533 | A run in which a request is refused although fewer than 1024 permits are out |
| Permits.RefusalsSettle | src/gateway/stateless_http.rs:522-533 | Once the refused have taken their increments back, which they always can, the counter is the permits, all still held |
| Permits.Gateway.AcquireRequestPermit | src/gateway/stateless_http.rs:522-533 | Undisturbed, a refusal leaves the counter as it was |
| Permits.Gateway.DropPermit | src/gateway/stateless_http.rs:266-269 | One permit less, and the counter does not underflow |
| Stateless.WaitForInitResponse | src/gateway/stateless_http.rs:173-214 | Buffers exactly what came before the first answer, fails as the first read without messages says, and makes no read beyond that |
| Stateless.ScanForAnswer | src/gateway/stateless_http.rs:192-205 | The scan of a batch ends at the first answer |
| Stateless.CollectResponses | src/gateway/stateless_http.rs:220-253 | Everything read, in order, up to the batch that completes the count, and how many reads that took |
| Stateless.CollectBatch | src/gateway/stateless_http.rs:239-246 | The whole batch is kept and its responses are counted |
| Stateless.ReadsForIs | src/gateway/stateless_http.rs:220-253 | Reading stops as soon as there are enough responses, and before that only when a read gives nothing |
| Stateless.EachIsCounted | src/gateway/stateless_http.rs:602 | Every message with an id and a method, and no other, counts as a request, and every result or error under an id as a response, wherever it stands |
| Stateless.WaitEnds | src/gateway/stateless_http.rs:173-214 | How the wait for the init's answer fails, by the first read that gives no messages, and what is kept |
| Stateless.WaitSucceeds | src/gateway/stateless_http.rs:192-205 | The wait succeeds with the first result or error under the init's id, but for quotes, and keeps what came before it |
| Stateless.EnoughIsCollected | src/gateway/stateless_http.rs:220-253 | For any number of requests: whole reads are collected until there are as many responses, or a read gives nothing |
| Stateless.ReplyByCase | src/gateway/stateless_http.rs:578-632 | The reply in every case: accepted exactly when nothing is asked, an error exactly when nothing is collected, the errors of wait and child passed on |
| Stateless.AutoInitAndForward | src/gateway/stateless_http.rs:578-632 | Init request, initialized notification and messages are written in this order, nothing after the init before its answer; the reply is in every case the one specified (an error at the first write or wait that fails, Accepted without a request, an error exactly if nothing was collected, else what was buffered and then what was collected), and what was read is known exactly |
| Stateless.ReadIsAccountedFor | src/gateway/stateless_http.rs:173-253 | Once the init is answered, all that was read is, in order, what came before the answer, the answer, what stood behind it in its batch, and what was collected |
| Stateless.NothingLostIff | src/gateway/stateless_http.rs:167-214 | For every POST, child and loss, the client is passed everything that was read but the answer to the init if and only if nothing stood behind the answer in its batch and either nothing came before it or the reply bears events: the answer came, the child took all messages, there is a request among them and something was collected |
| Stateless.PassedInOrder | src/gateway/stateless_http.rs:620-632 | What is passed on stands in the order in which it was read: all from before the answer, then all that was collected |
| Stateless.NoteBehindLost | src/gateway/stateless_http.rs:192-205 | A batch of the answer and a note behind it: the note is read and never passed on |
| Stateless.NoteLostWithoutRequest | src/gateway/stateless_http.rs:612-614 | A POST without requests is answered 202: a note that came before the answer is lost |
| Stateless.NoteLostWithoutResponse | src/gateway/stateless_http.rs:620-625 | Nothing is collected in time: the reply is an error and a note that came before the answer is lost |
| OAuth2.OneTokenPerCode | src/oauth2.rs:281-352 | Over all interleavings, the look at the clock and the issue being steps of their own, each authorization code yields at most one token, and only to its own client, judged in time, with the named redirection and against the verifier of its challenge |
| OAuth2.SpentForGood | src/oauth2.rs:298-306 | Once an attempt at a code is over, whatever came of it, no continuation yields a token for it |
| OAuth2.CleanupIsInvisible | src/oauth2.rs:525-600 | Forgetting expired tokens never changes whether a token is accepted |
| OAuth2.AcceptedIff | src/oauth2.rs:525-550 | A token is accepted exactly while a grant of it is younger than the lifetime of tokens |
| OAuth2.CodeCleanupShows | src/oauth2.rs:309-409 | Over all runs a code that no attempt has taken out is missing while an attempt would still be in time only at the very instant at which it expires |
| OAuth2.ForgottenInTime | src/oauth2.rs:309-409 | And there it may be: any code, issued at any time, is forgotten in time if another one is issued at that instant |
| OAuth2Access.GrantsNeedSecrets | src/oauth2.rs:266-296 | Over all runs whoever was granted a token showed, in some step, the secret that is configured or was registered for that client |
| OAuth2Access.FlowSucceeds | src/oauth2.rs:281-409 | From any state a client that asks for a code as it should and redeems it in time, with its secret, redirection and verifier, gets a token that is accepted exactly as long as tokens live |
| OAuth2Access.CredentialsIff | src/oauth2.rs:266-278 | A token for credentials exactly when the secret is the client's |
| OAuth2Access.TakenIff | src/oauth2.rs:293-306 | A code is taken out exactly when it is there and the secret is the client's |
| OAuth2Access.GrantedIff | src/oauth2.rs:308-352 | An attempt yields a token exactly when it is in time, by the client and with the redirection of the code, and against the verifier of its challenge |
| OAuth2Access.LateIsRefused | src/oauth2.rs:308-311 | An attempt judged after the expiry of its code yields nothing, and one judged at it or before is not refused for that |
| OAuth2Access.FirstProblem | src/oauth2.rs:308-349 | What is reported is wrong with the attempt, and expiry comes first |
| OAuth2Access.AuthorizedIff | src/oauth2.rs:358-409 | Exactly which requests get a code, and what is remembered with it |
| OAuth2Access.FirstWrong | src/oauth2.rs:358-398 | What is reported is the first thing wrong with the request |
| OAuth2Access.ForgetsExpiredCodes | src/oauth2.rs:398-409 | Storing a code forgets exactly the codes that have expired |
| OAuth2Access.ForgetsExpiredTokens | src/oauth2.rs:575-600 | Storing a token forgets exactly the tokens that have expired |
| OAuth2Access.BearerIff | src/oauth2.rs:525-552 | A header carries a token exactly behind one of the two spellings of the prefix |
| OAuth2.StepKeeps | src/oauth2.rs:266-600 | Every section keeps the stores consistent with the history of codes, attempts and grants |
| OAuth2.OAuth2Handler.constructor | src/oauth2.rs:171-178 | A new handler has empty stores |
| OAuth2.OAuth2Handler.HandleRegister | src/oauth2.rs:436-518 | Refused without redirections; otherwise the drawn credentials are registered |
| OAuth2.OAuth2Handler.HandleAuthorize | src/oauth2.rs:358-430 | The first thing wrong with the request is reported; otherwise a fresh code is stored and redirected to |
| OAuth2.OAuth2Handler.HandleAuthorizationCode | src/oauth2.rs:281-352 | The client is verified before the code is taken out, the code is gone whatever comes of the attempt, and the first failed check is reported |
| OAuth2.OAuth2Handler.Problems | src/oauth2.rs:308-349 | The checks of an attempt in their order |
| OAuth2.OAuth2Handler.HandleClientCredentials | src/oauth2.rs:266-278 | A token exactly for a verified client |
| OAuth2.OAuth2Handler.IssueToken | src/oauth2.rs:575-600 | Expired tokens are forgotten and the new one is stored with its lifetime |
| OAuth2.OAuth2Handler.ValidateBearer | src/oauth2.rs:525-552 | Accepts exactly the bearer tokens ever issued that have not expired, whatever was forgotten in between |

## Left out

- Sockets, HTTP and WebSocket framing, process spawning, signals, threads, logging, CLI, CORS, health endpoints and the tables from errors to status codes and bodies: I/O, calls into other libraries, or one branch each.
- JSON parsing and printing, SHA-256, base64, UUIDs and percent-decoding: parameters or drawn values.
- Wrap-around of 64-bit counters, generations and ids: all counts are unbounded, except that `Decimal.PrintParse` and `WsTheorems.AnswerComesBack` state the 64-bit bound.
- Memory orderings: atomics are sequentially consistent in the model.
- SessionManagers.SessionManager.TryIdleClose: the read-locked check before the write-locked one is not a step of its own, because the second repeats all of it; the `session_timeouts` metric is not kept.
- SessionTheorems.Teardown: is stated for fresh ids, as drawn by the manager itself; `SessionTheorems.CreateKeepsGaugeIff` says what a reused id does.
- A full timeout of idleness before an idle close, and that an idle session is closed in the end: the code does not promise them (src/gateway/stateful_http.rs:1117-1122, src/gateway/stateful_http.rs:1218-1226).
- Codec.StdoutCodec.ReadLineRaw: errors of the underlying reader are not modelled, and after an overflow it does not say what is left in the stream, because every caller ends the session there.
- The lossy reader of a child's stderr, and the SSE-to-stdio loop that strips line ends before it feeds the parser: no claim is made through that loop.
- Reconnection backoff, the outgoing buffer, URL resolution, error-prefix stripping and content-type classification of the client gateways: they would add only easy members.
- HandshakeLocks.LockedTrace: the endpoint of the SSE client and the posts' own delivery are not part of it.
- The `active_clients` gauge, and the limit of 1024 clients under interleaving: the gauge is updated after unlocking, and the limit is checked under a lock of its own, so the methods state it for undisturbed calls only.
- The WebSocket gateway's pairing of client replies with requests of the server, and that the client of a pending entry is connected: every id-bearing message is rewritten, and `WsTheorems.EntryMayOutliveItsClient` shows that entries can outlive clients.
- WsTheorems.ResponsesAnswerTheirClient: the order of a client's responses among each other is not stated, because the steps let several answers be under way at once, which is more than the relay does; broadcasts are in order (`WsHistory.BroadcastsInOrder`).
- When a channel is both closed and full the model reports it as closed; which one the channel library reports is not part of this model.
- That every reply of a child reaches its POST: messages are written before their ids are registered (src/gateway/stateful_http.rs:898-935), so only safety is proved.
- StatefulSessions.SessionData.FailPendingRequests: does not say in which order the errors are sent, because the order is that of a hash map.
- The `child_failed` flag of a session is a parameter of `PostResponses.ForwardAndRespond`, and polling is a list of what each look at the channel found, which `PostRuns.BodyAnswersItsRegistrations` ties to the channel of a run.
- Requests of the stateless gateway that bring their own initialize request, or only notifications: the former is `Stateless.CollectResponses` alone, the latter one branch.
- OAuth2.StepKeeps: verifying a client and the section that follows it are one step, because registered clients never leave.
- OAuth2.AcceptedIff: the names and descriptions of the error responses, metadata and the issuer are left out; each problem of a request is a constructor of its own.
