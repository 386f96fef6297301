# Verification of the Autobahn C++ client and its discovery backplane

This project models, in Dafny, the WAMP client session of this repository (`autobahn/`) and the
domain discovery backplane built on it (`examples/acs/`), and proves what every run of them keeps.
Check it with `dafny verify dfyconfig.toml`.

## What is modelled

**The session.** `Session.dfy` is the session as a step machine over values. An API call is two
steps: the calling thread takes an id and builds the message, and later, in any order, the io thread
runs the posted closure with its guards. The other steps are a message from the router, a reply to an
invocation from any thread, and a read error. What handlers and procedures do while they run is an
input of the step (`Behaviour`), so a theorem over all runs covers every router, every interleaving
and all user code, re-entrant calls included.

**The object.** `WampClient.dfy` is the same session as an object with the source's fields, changed
step by step in the source's order. Methods that only run inside another are proved against the
functions of the machine. Those called from outside (the API calls, a posted closure getting its turn, a
reply, `start()`, a completed read) keep the object on a run: the ghost field `moves` records what was
done to it, and `Valid()` says that all its fields are where the connection machine is after those
moves, so every theorem about runs is about the object. They ask for an object that is `live`, that is,
one whose io loop no exception has left. `Announcer.DomainAnnouncer` and `Discovery.Backplane` are built
the same way.

- Promises are one-shot cells whose second setting throws. Exceptions are results. One that leaves
  message processing ends the run, as it leaves `io_service::run`; one in a posted closure or an API
  call fails only that call. Where the io loop does not survive the latter either, the run is simply a
  shorter one, and the theorems hold of every run.
- `requests` holds the request object behind every id; its entry number `i` took id `i + 1`, modulo
  2^64, and `asked` is the message its call built. An invocation's `given` is the reply it was given. The theorems about ids and futures ask for fewer than
  2^64 requests (`Ids.InRange`).
- `trace`, `sent`, `accepted`, `called`, `tries`, `taken` and `log` are history: nothing reads them
  back to decide anything.

**The wire.** `Values.dfy` and `Wire.dfy` treat MessagePack as a stream of tokens, one for each packer
call, without closing brackets, so nesting is right only if every header is followed by as many values
as it announces. `Framing.dfy` has the RawSocket frames on octets and the drain loop on tokens.
`Link.dfy` is the chain of handshake, header and body reads over an octet stream: a body read completes
only with as many octets as the header before it said. How octets stand for tokens is the MessagePack
library's matter and a parameter (`Pack`, `Unpack`); the end-to-end theorem asks only that the library
reads back what it wrote and that a message fits the length field (`Link.Carried`).

**Calls end to end.** `Rpc.dfy` puts two sessions and a dealer together. The dealer follows "Calling
and Invocations" of the WAMP Basic Profile: it takes each client's messages in order, turns a CALL
into one INVOCATION under an id of its own or refuses it, relays the first reply to each INVOCATION
with its arguments, and may say anything else that is not an answer to a CALL.

**The backplane.** `Announcer.dfy`, `Discovery.dfy` and `InterfaceChange.dfy` model the announcer
(queue, one transmit buffer, one timer), the listener's and the backplane's tables, and the interface
change detector, each as an object with its loops, proved against functions over which the whole-run
theorems are stated.

## What the proofs found

- The client can say GOODBYE twice to a router that says it only after WELCOME: the answer does not set
  `m_goodbye_sent`, so a second GOODBYE is answered again (`Witnesses.TwoGoodbyesHappen`). For such
  a router it happens if and only if a GOODBYE comes after an earlier one while `m_goodbye_sent` and
  `m_stopped` are unset (`SessionTheorems.SecondGoodbyeIff`), the guards of the answer itself
  (`SessionTheorems.GoodbyeAnsweredIff`); a router that says GOODBYE once never sees it
  (`SessionTheorems.AtMostOneGoodbye`).
- While the io loop lives, the "goodbye already sent" guard of `leave()` never decides: by then the session id is 0, so the guard
  before it refuses with `no_session_error` (`Acceptance.SecondLeaveFindsNoSession`).
- An EVENT for an unknown subscription is checked for its length and its id only
  (`Acceptance.EventAcceptedIff`).
- A second REGISTERED for one request replaces the procedure and only then throws; a second WELCOME
  changes the session id and then throws; a GOODBYE is answered before its reason is checked.
  `MessageTheorems.FailureChangesState` lists all such messages and shows there are no others, and
  `Witnesses.RegisteredTears`, `WelcomeTears` and `GoodbyeTears` are runs that meet them. Messages
  rejected with `protocol_error` change nothing.
- WELCOME and GOODBYE index the message without a length check. That is undefined in C++; the model
  gives it the outcome `Undefined`, which ends the run (`MessageTheorems.UndefinedIff`).
- A read error is signalled to the application only when the session is joined and nobody has called
  `leave()` or `stop()`; in every other state `handleRxError` throws first
  (`SessionTheorems.RxErrorSignalledIff`, `Witnesses.ReadErrorsDiffer`).
- How the stream is cut into bodies can matter: when the session is stopped while a body is drained, the
  rest of that body is still processed and the bodies behind it are not read (`Link.FeedProcesses`). It
  does not matter exactly when the bodies up to that one hold all messages, or one they hold throws
  (`Link.CuttingDoesNotMatter`); `Witnesses.CuttingMatters` is a run in which it does.
- If a socket call throws with further interfaces queued, the next timer finds a non-empty queue,
  starts no send, and the announcer is silent from then on (`Announcer.OnePending`,
  `Announcer.StrandedIff`, `Announcer.SilentHappens`).

## Files

| file | content |
|---|---|
| Sequences | one fact about concatenation |
| Values, Wire, Framing | tokens, message layouts and packer calls, frames and draining |
| Session | the step machine |
| Ids, Lifecycle, Replies, History, HandlerIndex, Reentrancy, WireOrder | the invariants, each with what keeps it |
| Runs, Progress | the invariants over every run; what only ever goes one way |
| RequestTheorems, ReplyTheorems, MessageTheorems, SessionTheorems, Acceptance | the results about the session |
| Link | the read chain, from octets to messages |
| Witnesses | runs in which what the theorems allow for happens |
| WampClient, Lookup | the session object; keyword lookups of an invocation |
| Rpc, RpcInvariants, RpcTheorems | two sessions and a dealer |
| Interfaces, Announcer, Discovery, InterfaceChange | the backplane |

## Model

| member | source | states |
|---|---|---|
| Values.ParseFlatten | autobahn/wamp_session.ipp:163-180 | Packing any nested value and unpacking it again, with anything behind it in the buffer, gives that value and exactly what was behind it |
| Values.FlattenParse | autobahn/wamp_session.ipp:1039-1047 | The converse: whatever tokens the unpacker takes for one value are the packing of that value, and of no other |
| Values.ParseExtends | autobahn/wamp_session.ipp:1036-1047 | A message that is complete in the buffer is read the same whatever octets arrive later |
| Wire.MessageReadsBack | autobahn/wamp_session.ipp:163-180 | Each client message, as packed, is one complete array with nothing left over, and a reader written from the WAMP message layouts, codes, roles and empty options included, gets back the very message that was meant |
| Wire.BuildHello | autobahn/wamp_session.ipp:160-180 | The packer calls of join() nest correctly: array of 3, the roles map inside the details map |
| Wire.BuildGoodbye | autobahn/wamp_session.ipp:203-210 | The packer calls of leave() are the packing of GOODBYE |
| Wire.BuildSubscribe | autobahn/wamp_session.ipp:245-250 | The packer calls of subscribe() are the packing of SUBSCRIBE |
| Wire.BuildUnsubscribe | autobahn/wamp_session.ipp:280-284 | The packer calls of unsubscribe() are the packing of UNSUBSCRIBE |
| Wire.BuildRegister | autobahn/wamp_session.ipp:315-320 | The packer calls of provide() are the packing of REGISTER |
| Wire.BuildPublish | autobahn/wamp_session.ipp:410-421 | The packer calls of all three publish() overloads are the packing of PUBLISH with that payload |
| Wire.BuildCall | autobahn/wamp_session.ipp:517-528 | The packer calls of all three call() overloads are the packing of CALL with that payload |
| Wire.BuildYield | autobahn/wamp_invocation.ipp:240-249 | The packer calls of empty_result() and result() are the packing of YIELD with that payload |
| Wire.BuildError | autobahn/wamp_invocation.ipp:302-313 | The packer calls of the three error() overloads are the packing of ERROR for an INVOCATION |
| Framing.FramesReadBack | autobahn/wamp_session.ipp:1163-1170 | What a series of sends writes reads back as exactly those payloads, through the 4-octet header and exact-length bodies, if and only if every payload is shorter than 2^32 octets |
| Framing.RegularMessageMarker | autobahn/wamp_session.ipp:1166-1167 | The first header octet is 0, as the RawSocket transport asks of a regular message, exactly below 2^24 octets |
| Framing.NetworkOrder | autobahn/wamp_session.ipp:1163-1170 | The header is the size in network order, modulo 2^32, and reading one reads network order for any four octets |
| Framing.Stream.Send | autobahn/wamp_session.ipp:1163-1170 | One send appends one frame to the stream and disturbs none before it |
| Framing.DrainAppend | autobahn/wamp_session.ipp:1036-1047 | Draining what has come so far and then again when more comes hands over the same messages as draining once |
| Framing.FramingIndependent | autobahn/wamp_session.ipp:1028-1050 | However a token stream is cut into bodies, the drain loop hands over the same messages in the same order and keeps the same unfinished rest |
| Framing.CutMessages | autobahn/wamp_session.ipp:1028-1050 | A stream of packed messages gives back those messages, however it is cut |
| RequestTheorems.WaitingIdsAreFresh | autobahn/wamp_session.ipp:243-268 | In every run of fewer than 2^64 requests, the id a waiting closure holds is with no other closure, in none of the four maps, not on the wire and not above the counter |
| RequestTheorems.TablesAreDisjoint | autobahn/wamp_session.ipp:265 | An id is in at most one of the four maps and points to its own request object |
| RequestTheorems.WireIdsAreDistinct | autobahn/wamp_session.ipp:453-469 | No request id goes out twice, and none is above the counter |
| RequestTheorems.EmplaceInserts | autobahn/wamp_session.ipp:265 | emplace() never meets an existing key: running a closure records its own request object under its own id |
| WireOrder.WireIdsRise | autobahn/wamp_session.ipp:243-268 | If closures run in the order their ids were taken, ids on the wire strictly increase, whatever happens in between |
| Ids.FreshId | autobahn/wamp_session.ipp:466 | The one-step fact behind it: the id of a waiting closure is in no map and not on the wire |
| RequestTheorems.Correlation | autobahn/wamp_session.ipp:673-690 | A future holds exactly what the accepted answers of its own kind with its own id say: none, or one; no other message ever touches it |
| RequestTheorems.NoStrayAnswers | autobahn/wamp_session.ipp:818-842 | Every accepted answer belongs to a request of that kind that was made, and is what its future holds |
| Acceptance.AnswerAcceptedIff | autobahn/wamp_session.ipp:596-992 | In every run of a session not stopped, a RESULT, SUBSCRIBED, UNSUBSCRIBED, REGISTERED or ERROR for a CALL is accepted if and only if it is well formed and a request of its kind with its id went out on the wire and has had no answer; it then settles that one future with what it says, touches no other, sends nothing and changes no flag |
| Acceptance.RefusedAnswerFails | autobahn/wamp_session.ipp:596-992 | In every run of a session not stopped, a well-formed answer that no request waits for fails: a second one to a CALL or REGISTER because its future is ready already, every other one because no such request is pending |
| Acceptance.TableIsWire | autobahn/wamp_session.ipp:818-842 | What the four maps say of an unanswered request is what the wire says: it is in its map if and only if its message went out |
| Acceptance.OtherErrorsIff | autobahn/wamp_session.ipp:596-697 | In every state, an ERROR for anything but a CALL is accepted if and only if it has its proper length and types and names SUBSCRIBE, UNSUBSCRIBE, REGISTER, UNREGISTER or PUBLISH, and it then does nothing |
| MessageTheorems.ErrorTextMeans | autobahn/wamp_session.ipp:640-669 | The text a failed call gets: the URI alone without keyword arguments or with none called what; with the last what behind it; or with unknown exception behind it if and only if some entry is no text |
| RequestTheorems.FuturesSettleOnce | autobahn/wamp_session.ipp:857-870 | A ready future keeps its value over every continuation of every run |
| RequestTheorems.ArgumentsReachTheWire | autobahn/wamp_session.ipp:512-549 | A request on the wire, now or in any continuation, is word for word the message that the API call which took its id asked for |
| RequestTheorems.CallKeepsArguments | autobahn/wamp_session.ipp:512-549 | Made on any thread, a call adds one request that keeps the message with the very arguments of the call |
| RequestTheorems.WireIsAsked | autobahn/wamp_session.ipp:243-268 | In every run, every request on the wire is the message kept by the request object of its id, and of that object's kind |
| Progress.RunOnward | autobahn/wamp_session.ipp:1028-1055 | From any run to any continuation of it: accepted messages, requests, invocations and sent messages are only added to, requests change in nothing but their promise, spent tokens stay spent, and an ended, closed or stopped session and a set leave promise stay so; a stopped session sends nothing |
| Progress.SpentForGood | autobahn/wamp_invocation.ipp:349-360 | A spent reply token is never accepted again, in any continuation: result() and error() throw and change nothing |
| ReplyTheorems.SpendSays | autobahn/wamp_invocation.ipp:198-317 | result() and error() work if and only if the token is held, and queue one message, the YIELD or ERROR with the invocation's id and the very arguments given |
| ReplyTheorems.ReplyIsGiven | autobahn/wamp_invocation.ipp:198-317 | If in some step of a run an invocation is answered, by result() or error() from any thread or by any action of a procedure or handler, then over every continuation its one message carries exactly what was given |
| History.DeliverHistory | autobahn/wamp_session.ipp:1059-1145 | Every message, from any router and with any user code, keeps maps, handlers, procedures, futures and invocations what the accepted messages say they are |
| MessageTheorems.EventReachesItsHandlers | autobahn/wamp_session.ipp:912-949 | An EVENT calls exactly the handlers of the SUBSCRIBED messages accepted so far for its subscription id, in order of acceptance, each once, with the event's arguments; if one throws, those up to and including it |
| Acceptance.EventAcceptedIff | autobahn/wamp_session.ipp:895-964 | In every run, an EVENT for a subscription id that no accepted SUBSCRIBED named needs only its length and that id to be right and does nothing; any other is accepted if and only if it is well formed throughout |
| HandlerIndex.RangeIsFor | autobahn/wamp_session.ipp:912-913 | The lower_bound/upper_bound range of the ordered multimap is what was filed under the key |
| HandlerIndex.InsertFiles | autobahn/wamp_session.ipp:865 | insert() files one handler behind those already under its key and moves nothing else |
| MessageTheorems.WalkCalls | autobahn/wamp_session.ipp:943-949 | The walk calls its range in order up to the first exception, whatever the handlers do to the session |
| Reentrancy.ActAllUndisturbed | autobahn/wamp_session.ipp:943-949 | Whatever sequence of session calls a handler or procedure makes, the multimap, the procedure map, settled futures and the message history stay as they are, and a spent reply token stays spent |
| Reentrancy.RunProcedureUndisturbed | autobahn/wamp_session.ipp:773-796 | The same over a whole procedure call with the error reply that may follow it |
| Reentrancy.CallHandlersUndisturbed | autobahn/wamp_session.ipp:943-949 | The same over a whole handler walk |
| SessionTheorems.RequestsFollowWelcome | autobahn/wamp_session.ipp:261-267 | Every SUBSCRIBE, UNSUBSCRIBE, REGISTER, PUBLISH and CALL on the wire has a WELCOME with a non-zero id before it, and no GOODBYE from either side and no other WELCOME in between |
| SessionTheorems.RequestsPrecedeGoodbye | autobahn/wamp_session.ipp:214-232 | With a router that says GOODBYE only after WELCOME, no request is sent after the first GOODBYE in either direction |
| SessionTheorems.SessionIdMeans | autobahn/wamp_session.ipp:563-573 | In every run that is live and not stopped, m_session_id is the id of the WELCOME with a non-zero id that nothing has ended since, and 0 exactly when there is none |
| Acceptance.WelcomeAcceptedIff | autobahn/wamp_session.ipp:563-568 | In every run, a WELCOME is accepted if and only if it carries an id and is the first of the run; the session and the future of join() then hold that id |
| Acceptance.GoodbyeAcceptedIff | autobahn/wamp_session.ipp:570-594 | In every run, a GOODBYE is accepted if and only if it carries a reason and the leave promise is open; the future of leave() then holds that reason, the session is closed and no other flag changes |
| Acceptance.ClosureRunsIff | autobahn/wamp_session.ipp:120-268 | In every run of a session not stopped, whenever a posted closure gets its turn: a request or a GOODBYE goes out if and only if a WELCOME has opened the session and nothing has ended it, HELLO and stop if and only if not, a reply always; refused, it changes nothing; otherwise its own message is the only one sent, a GOODBYE closes the session, a stop stops it and resolves the future of stop(), and no other flag changes |
| Acceptance.SessionCallsReachTheWire | autobahn/wamp_session.ipp:120-235 | join(), leave() and stop() from the call on any thread to the wire: however the run goes on, while the closure waits it is the one with the realm or reason given; when it gets its turn it is refused or not by the messages exchanged so far, and what it puts on the wire is read by a router as HELLO for that realm or GOODBYE with that reason |
| SessionTheorems.JoinResult | autobahn/wamp_session.ipp:184-197 | join() by user code on the io thread: outside a session HELLO with that realm goes out at once and nothing else changes, inside one the call fails and changes nothing |
| SessionTheorems.LeaveResult | autobahn/wamp_session.ipp:214-234 | leave() likewise: inside a session not left before, GOODBYE with that reason goes out and the session is closed; a future already taken fails the call only after that |
| SessionTheorems.StopResult | autobahn/wamp_session.ipp:125-154 | stop() likewise: outside a session not stopped before, the session is stopped and the future of stop() resolved |
| Acceptance.AskNow | autobahn/wamp_session.ipp:255-268 | subscribe(), unsubscribe(), provide(), publish() and call() by user code on the io thread: inside a session the message with the very arguments goes out at once under the next id, filed in the map of its kind; outside one the call fails and nothing goes out |
| Acceptance.SecondLeaveFindsNoSession | autobahn/wamp_session.ipp:220-226 | In every run, a leave() after an earlier GOODBYE of the client fails for want of a session; the guard written for that case never decides |
| SessionTheorems.GoodbyeAnsweredIff | autobahn/wamp_session.ipp:570-590 | In every live run, a received GOODBYE closes the session, and is answered with exactly one GOODBYE if and only if m_goodbye_sent and m_stopped are unset, whatever else it carries |
| SessionTheorems.AtMostOneGoodbye | autobahn/wamp_session.ipp:576-590 | A router that says GOODBYE only after WELCOME and at most once gets at most one from the client; SecondGoodbyeIff is the exact condition this follows from |
| Witnesses.TwoGoodbyesHappen | autobahn/wamp_session.ipp:576-590 | A router that says GOODBYE only after WELCOME can get two: the run WELCOME, GOODBYE, GOODBYE has two on the wire, because the answer leaves m_goodbye_sent unset |
| SessionTheorems.SecondGoodbyeIff | autobahn/wamp_session.ipp:576-593 | In every run with a router that says GOODBYE only after WELCOME, the client sends more than one GOODBYE if and only if a GOODBYE arrives, after an earlier one from the router, while m_goodbye_sent and m_stopped are unset |
| SessionTheorems.AtMostTwoGoodbyes | autobahn/wamp_session.ipp:576-593 | With any router at all the client never sends more than two |
| SessionTheorems.ClosedForGood | autobahn/wamp_session.ipp:224-231 | After a GOODBYE of its own the client sends no other |
| SessionTheorems.StoppedStaysSilent | autobahn/wamp_session.ipp:1151 | Once the stop closure has taken effect nothing more is sent, whatever is run, received or replied |
| SessionTheorems.StopIsAnswered | autobahn/wamp_session.ipp:131-151 | In every run the future of stop() is ready if and only if the session is stopped, and then in every continuation |
| SessionTheorems.SessionFuturesStay | autobahn/wamp_session.ipp:563-594 | The futures of join(), leave() and stop(), once ready, keep their values over every continuation |
| SessionTheorems.RxErrorSignalledIff | autobahn/wamp_session.ipp:551-561 | A read error reaches the application exactly when the session is joined and nobody has tried to leave or stop it |
| Link.ReadErrorMeans | autobahn/wamp_session.ipp:551-561 | In every run of a connection, an aborted header or body read leaves the session as it is; one that fails otherwise sets an open leave promise to socket closed, leaves a joined session and stops it, and signals the application, if and only if the session is joined and nobody has tried to leave or stop it; in every other case an exception ends the run, with the parts done before it and nothing else changed |
| Witnesses.ReadErrorsDiffer | autobahn/wamp_session.ipp:551-561 | A run whose read error is signalled, and one whose read error is lost to an exception |
| SessionTheorems.SignalsOnce | autobahn/wamp_session.ipp:551-561 | No run signals a read error twice |
| MessageTheorems.RejectionIsAtomic | autobahn/wamp_session.ipp:1058-1145 | A message whose processing ends in protocol_error leaves the session exactly as it was, in every state, across the dispatcher and all length and type checks |
| MessageTheorems.DispatchMeans | autobahn/wamp_session.ipp:1058-1145 | In every state and by the numbers of the WAMP Basic Profile: twelve codes are rejected, nine go to their processing, every other one is ignored, and what is no array with a number in front is rejected |
| MessageTheorems.FailureChangesState | autobahn/wamp_session.ipp:563-594 | In every run, a message that throws anything leaves the session changed if and only if it is a second WELCOME with another id, a GOODBYE the session cannot take, or a second REGISTERED for one request naming another procedure |
| Witnesses.WelcomeTears | autobahn/wamp_session.ipp:563-568 | A run and a second WELCOME that throws with the session changed |
| Witnesses.GoodbyeTears | autobahn/wamp_session.ipp:570-594 | A run and a GOODBYE that throws with the session changed |
| Witnesses.RegisteredTears | autobahn/wamp_session.ipp:966-992 | A run and a second REGISTERED that throws with the session changed |
| MessageTheorems.UndefinedIff | autobahn/wamp_session.ipp:563-594 | In every state, an element past the end of the message is read if and only if it is a WELCOME without an id or a GOODBYE without a reason |
| MessageTheorems.ExceptionsSettleNothing | autobahn/wamp_session.ipp:1058-1145 | No exception ever settles a request's future |
| MessageTheorems.AtMostOneReplyEach | autobahn/wamp_invocation.ipp:198-317 | In every run and for every request id, replies on the wire are as many as delivered reply tokens and never more than INVOCATION messages accepted |
| MessageTheorems.RepliesAreAnswers | autobahn/wamp_session.ipp:753-769 | Every YIELD or ERROR on the wire is the one reply of an accepted invocation and carries its id |
| MessageTheorems.ThrowingProcedureReplies | autobahn/wamp_session.ipp:773-796 | If a procedure throws, its token is spent when process_invocation returns, by its own reply or by one runtime_error |
| MessageTheorems.InvocationsAreMessages | autobahn/wamp_session.ipp:723-746 | In every run the invocation objects are the accepted INVOCATION messages, one for one and in order, each with the id, registration, details and arguments of its message and the procedure of the latest REGISTERED for that registration accepted before it |
| Acceptance.InvocationAcceptedIff | autobahn/wamp_session.ipp:700-800 | In every run, an INVOCATION is accepted if and only if it is well formed and an accepted REGISTERED has named its registration id; it then becomes one new invocation of the procedure registered last, and otherwise none |
| Link.OneReadAtATime | autobahn/wamp_session.ipp:70-117 | With one start() at most one read is outstanding, so the shared 4-octet buffer is never overwritten while in use, and a header or body is read only after a valid handshake reply |
| Link.HandshakeStartsLoop | autobahn/wamp_session.ipp:79-118 | In every run with one start(), the message loop begins, with one header read, if and only if the handshake reply carries the magic octet and names MsgPack, and exactly then the future of start() says yes; a bad reply ends the run, a failed read does not |
| Link.ConnectionRunIsSessionRun | autobahn/wamp_session.ipp:994-1055 | Whatever the read chain does, the session goes through one of its own runs, so all theorems about runs hold of connections |
| Link.FeedProcesses | autobahn/wamp_session.ipp:1039-1051 | Draining body after body is processing the messages of the bodies read; those end at the first body after which something has been thrown or the session is stopped, and at no other |
| Link.CuttingDoesNotMatter | autobahn/wamp_session.ipp:1028-1055 | However packed messages are cut into bodies, a prefix of them is processed, the messages of the bodies read; that comes to the same as processing every message alone, state and exception, if and only if the bodies read hold all of them or one of those they hold throws |
| Link.CuttingsAgreeIff | autobahn/wamp_session.ipp:1028-1055 | Two cuttings of the same messages come to the same if and only if the same messages are read under both or something is thrown under both |
| Witnesses.CuttingMatters | autobahn/wamp_session.ipp:1039-1051 | It does happen: after a subscription is confirmed, an EVENT whose handler leaves and stops the session, with a message behind it, ends differently in one body than in two |
| Link.ChainFeeds | autobahn/wamp_session.ipp:1007-1055 | Reading frame after frame, each header's length naming its body, leaves the session where draining the bodies one after the other does |
| Link.StreamIsFrames | autobahn/wamp_session.ipp:1007-1026 | An octet stream of frames is read frame by frame, each found by the length in the header before it |
| Link.StreamCarriesMessages | autobahn/wamp_session.ipp:994-1055 | From the octets of the stream on: of frames whose bodies together are packed messages, cut anywhere, the messages of the bodies read are processed in order, and that is processing all of them if and only if those are all or one of those throws |
| Link.WireToWire | autobahn/wamp_session.ipp:1163-1170 | What one side sends is what the other side's got_message gets: of the octets send() writes for any list of messages, with any packing the library reads back, the messages are processed in order up to the first that throws or leaves the session stopped, each decoding to what was meant; that is processing all of them if and only if it is the last or it throws |
| Link.AtMostOneSignal | autobahn/wamp_session.ipp:1023-1025 | A connection signals at most one receive error |
| WampClient.WampSession.constructor | autobahn/wamp_session.ipp:45-56 | A fresh object is on the empty run of the connection machine, with nothing written |
| WampClient.WampSession.Send | autobahn/wamp_session.ipp:1147-1179 | Sends one message, or none once stopped; every buffer written so far is still the packing of the message logged for it |
| WampClient.WampSession.Reached | autobahn/wamp_session.ipp:45-56 | Whatever has been called on it, a live object is at the end of a run of the session machine, so every theorem about runs is about the object |
| WampClient.WampSession.FuturesAreAnswers | autobahn/wamp_session.ipp:673-690 | Every future of a live object holds exactly what the answers it has accepted say |
| WampClient.WampSession.Take | autobahn/wamp_session.ipp:157-549 | The calling half of any API call changes nothing but the counter, the requests, the queue and the futures taken; join(), leave() and stop() queue exactly the closure with the realm or reason given, under a free ticket; a future can be had except from a second leave() or stop() |
| WampClient.WampSession.Subscribe | autobahn/wamp_session.ipp:237-271 | subscribe() makes one request with its future open and the handler in it, and queues the SUBSCRIBE for that topic under an id that no closure, map or message on the wire has; no map, route, flag, invocation or read changes and nothing is sent |
| WampClient.WampSession.Unsubscribe | autobahn/wamp_session.ipp:273-305 | unsubscribe() likewise, with an UNSUBSCRIBE for that subscription under an unused id |
| WampClient.WampSession.Provide | autobahn/wamp_session.ipp:307-341 | provide() likewise, with a REGISTER for that name and options under an unused id; the procedure map is untouched until the router confirms |
| WampClient.WampSession.Publish | autobahn/wamp_session.ipp:405-437 | publish() likewise, with a PUBLISH of that payload under an unused id |
| WampClient.WampSession.Call | autobahn/wamp_session.ipp:512-549 | call() likewise, with a CALL of that name and payload under an unused id |
| WampClient.WampSession.RunPosted | autobahn/wamp_session.ipp:255-268 | A posted closure leaves the queue when it runs; before a stop it does its work if and only if the messages exchanged so far allow it: its message is then the one that went out, a GOODBYE has closed the session, and a stop has resolved the future of stop(); refused it leaves everything as it was; after a stop nothing goes out |
| WampClient.WampSession.Reply | autobahn/wamp_invocation.ipp:198-317 | result() and error() work if and only if the token is held; then the YIELD or ERROR with the invocation's id and the very arguments waits in the queue and nothing else has changed; on a spent token they throw with the session unchanged |
| WampClient.WampSession.Start | autobahn/wamp_session.ipp:58-77 | start() leaves the session as it is, and with the first one exactly the handshake read is outstanding |
| WampClient.WampSession.ReadCompletes | autobahn/wamp_session.ipp:994-1055 | Whatever a read brings, the object stays on its run, after one start() at most one read is outstanding, nothing sent or accepted is undone, and a stopped session sends nothing; an aborted header or body read leaves the session as it is, and a failed one does exactly what a read error does |
| WampClient.WampSession.ActAll | autobahn/wamp_session.ipp:943-949 | Any sequence of session calls by user code, exceptions of single calls swallowed, leaves the object where the machine says |
| WampClient.WampSession.WalkHandlers | autobahn/wamp_session.ipp:943-954 | The loop over iterators visits exactly the range computed before it, although every handler may call into the session, and ends at the first exception |
| WampClient.WampSession.GotMessageBody | autobahn/wamp_session.ipp:1028-1055 | All whole messages in the buffer are processed in order up to the first exception, the rest stays buffered, and the next header is read unless the session is stopped |
| Lookup.Scan | autobahn/wamp_invocation.ipp:117-131 | The index loop behind detail() and kw_argument() returns the value under the first entry with that string key |
| Lookup.FirstMeans | autobahn/wamp_invocation.ipp:116-149 | Found means the first matching entry, missing means no entry matches |
| Lookup.KwArgumentOr | autobahn/wamp_invocation.ipp:151-166 | The std::string form: the value, or the fallback when the key is missing, or a type error |
| Lookup.ScanReadsWhat | autobahn/wamp_session.ipp:654-661 | On string entries with distinct keys the conversion behind the error text and the keyword scan find the same "what" |
| RpcTheorems.PlayOk | autobahn/wamp_session.ipp:700-800 | Every interleaving of caller, callee and dealer keeps the books between them |
| RpcTheorems.CallEndToEnd | autobahn/wamp_session.ipp:512-549 | A settled call that was not refused: its CALL, which is the message its call() built, became one invocation and no other, which got the arguments of the CALL, went to the procedure last registered under its registration id, and whose single reply is what the future holds, however late it came |
| RpcTheorems.ArgumentsEndToEnd | autobahn/wamp_session.ipp:512-549 | From call() to the procedure and back: the invocation gets the very arguments and keyword arguments given to call(), and the future that call() returned holds its reply |
| RpcTheorems.ResultEndToEnd | autobahn/wamp_invocation.ipp:198-253 | A call that resolves with a value holds exactly the arguments and keyword arguments of the one YIELD of its invocation |
| RpcTheorems.GivenEndToEnd | autobahn/wamp_invocation.ipp:198-317 | From result() or error() back to call(): if an invocation was answered so in some step of the callee, by whatever thread or code, the future of its call, once settled, holds the very arguments given, or fails with the URI and text given |
| RpcTheorems.GivenArrives | autobahn/wamp_session.ipp:802-843 | and in a quiet network it is settled so, if the reply went out |
| RpcTheorems.NoReplyIsLost | autobahn/wamp_session.ipp:802-843 | When all messages have been taken and read, every reply delivered has reached the future of its call |
| RpcTheorems.ExceptionIsReply | autobahn/wamp_session.ipp:781-795 | A procedure that throws before it replies has answered its invocation when the next message is read |
| RpcTheorems.ErrorTextEndToEnd | autobahn/wamp_session.ipp:640-684 | However the run goes on, the caller's future can then only fail, with exactly "wamp.error.runtime_error: " and the exception's text, or the bare URI for a non-standard exception |
| RpcTheorems.ErrorTextArrives | autobahn/wamp_session.ipp:640-684 | and it has failed so once everything has been relayed |
| Announcer.DomainAnnouncer.SendToAllInterfaces | examples/acs/CDomainDiscoveryManager.cpp:36-52 | The loop queues the snapshot in set order and starts sending only if nothing was queued |
| Announcer.OnePending | examples/acs/CDomainDiscoveryManager.cpp:32-91 | Between callbacks exactly one thing is pending, timer or send, until the announcer goes silent for good, which it does exactly on a timer error or a timer that finds entries queued |
| Announcer.NeverSilent | examples/acs/CDomainDiscoveryManager.cpp:32-91 | Without throws and timer errors it never goes silent, and the timer always finds the queue empty |
| Announcer.StrandedIff | examples/acs/CDomainDiscoveryManager.cpp:54-91 | A timer or send callback leaves entries for the timer to find if and only if its try throws with more entries queued behind the one tried, and it leaves exactly those |
| Announcer.StrandedAtOnceIff | examples/acs/CDomainDiscoveryManager.cpp:32-91 | launch() does so if and only if its first try throws and the snapshot has more than one interface |
| Announcer.SilentHappens | examples/acs/CDomainDiscoveryManager.cpp:78-90 | An announcer that throws on the first of two interfaces is silent after its first timer |
| Announcer.BufferIsSafe | examples/acs/CDomainDiscoveryManager.cpp:59-77 | The transmit buffer is never cleared during a send and holds the address being sent |
| Announcer.RoundsAreComplete | examples/acs/CDomainDiscoveryManager.cpp:41-82 | In every run, tries made followed by entries queued are all snapshots in order, each message carrying the address it leaves by and counted |
| Announcer.FullRound | examples/acs/CDomainDiscoveryManager.cpp:36-91 | A round begun by the timer sends once to every interface of its snapshot, in set order, with its own address, and then arms the timer |
| Announcer.FirstRound | examples/acs/CDomainDiscoveryManager.cpp:32-91 | So does the round begun by launch() |
| Announcer.DomainAnnouncer.Launch | examples/acs/CDomainDiscoveryManager.cpp:32-52 | After launch() exactly one thing is pending, and what was tried and what is queued are the snapshot in order |
| Announcer.DomainAnnouncer.OnTimer | examples/acs/CDomainDiscoveryManager.cpp:36-52 | A timer callback adds its snapshot behind what was tried and queued, and leaves one thing pending unless it reports an error or finds entries queued, when nothing is |
| Announcer.DomainAnnouncer.OnSent | examples/acs/CDomainDiscoveryManager.cpp:54-91 | A send callback tries the next entry, if any, in order, loses none, and leaves exactly one thing pending, throw or not |
| Discovery.TablesAgree | examples/acs/CBackplane.cpp:56-93 | In every run known domains are a subset of session keys, the only key beyond them can be the local domain, and sessions are exactly the clients not erased |
| Discovery.AnnouncedOnce | examples/acs/CDomainDiscoveryManager.cpp:144-152 | Between two announcements of one name there is an erasure of it |
| Discovery.ErasesItself | examples/acs/CDomainDiscoveryManager.hpp:95-97 | Every erasure removes the client that raised it, never a newer one of the same name |
| Discovery.ErasesOnce | examples/acs/CBackplane.cpp:66-71 | No client is erased twice |
| Discovery.KeepsListening | examples/acs/CDomainDiscoveryManager.cpp:108-160 | In every run, while the io loop lives, as many receives are outstanding as there were launches, whatever has arrived |
| Discovery.LocalStays | examples/acs/CBackplane.cpp:56-93 | In every run in which the local client's own connect has not failed, the local name stays in the session table as the first client, whatever is heard, announced under its name or disconnected |
| Discovery.Backplane.Connected | examples/acs/CBackplane.cpp:58-72 | The end of a connect changes no table and notes whether the client is connected or failed |
| Discovery.Backplane.Arrive | examples/acs/CDomainDiscoveryManager.cpp:134-160 | A packet of this version for a name not known is entered as it came, announced, and dialed unless the name has a session; no other packet changes a table; the io loop ends exactly on the packets listed or when the dialing throws, and while it lives the next receive is waiting |
| Discovery.Backplane.HandleFailure | examples/acs/CBackplane.cpp:66-71 | A failed client takes itself, and no newer one of its name, out of both tables; nothing else in them changes, and they stay in step |
| Discovery.Backplane.HandleDisconnect | examples/acs/CBackplane.cpp:85-89 | A disconnected client likewise |
| InterfaceChange.SetDifference | examples/acs/CInterfaceChangeNotifier.cpp:30-32 | The one-pass merge computes the set difference of two sorted ranges, in order |
| InterfaceChange.ChangeNotifier.ResolveInterfaces | examples/acs/CInterfaceChangeNotifier.cpp:26-42 | Signals exactly the addresses new since the last snapshot, then takes the snapshot as its cache |
| InterfaceChange.ChangeNotifier.Monitor | examples/acs/CInterfaceChangeNotifier.cpp:22-42 | Over any sequence of snapshots, with one timer outstanding throughout |
| InterfaceChange.SignalledOnEdges | examples/acs/CInterfaceChangeNotifier.cpp:26-39 | An address is signalled as often as there are snapshots in which it is present and was absent just before |

## Left out

- MessagePack byte formats, zones and conversion to user types: values and tokens only. A body arrives as octets together with the tokens the unpacker makes of them, and holds whole tokens; the packing and unpacking of octets are parameters. Integers on the wire are unbounded naturals, except where the source converts to int.
- `as<std::string>()` takes a string or a binary; other conversions of the library are not modelled.
- Boost.Asio sockets, timers and threads: a closure, a completion or a callback is one step on one io thread; the calling halves of API calls and the replies interleave freely between them.
- Failed writes: a message counts as sent when it is handed to the stream, because `send` swallows the exception of a write.
- The buffer of a closure is kept as the message it packs and is packed when it is sent; nothing changes it in between.
- Blocking: `handleRxError` waits on the futures of `leave()` and `stop()`; the model runs both closures and leaves the waiting out.
- Request and invocation objects are values in lists of the session object, one for each object the source shares by pointer; the sharing itself is not modelled.
- The weak_ptr checks in closures: the session is taken to outlive its closures.
- Continuations of futures run by the application: they appear as API calls and replies at any later time.
- Names in the end-to-end theorems: the dealer may route a CALL to any registration id; the theorems speak of the procedure registered under that id.
- Other clients of the dealer: one caller and one callee.
- ABORT, HEARTBEAT, PUBLISHED and UNREGISTERED: ignored by the session, and so here.
- The session's reading of RESULT and EVENT arguments by the application (`wamp_call_result`, `wamp_event`): copies of the lookups in Lookup.dfy.
- The `const char*` form of `kw_argument_or` throws its fallback where the std::string form returns it (autobahn/wamp_invocation.ipp:183); only the latter is modelled.
- `wamp_registration`, `wamp_subscription`, `wamp_publication` and the request classes, except for the fields the session uses.
- Debug output, command-line parameters, example mains, and `CBackplane::proxy` with its detached thread.
- `launchClient` reads its future twice (examples/acs/CBackplane.cpp:60-61); where the library spends a future on the first read the failure branch is never reached. In Discovery.dfy the failure closure may run at any later time or never, which covers both.
- `getInterfaceAddresses`: every snapshot is an arbitrary sorted set of IPv4 addresses.
- The four constant octets of the handshake request of `start()`: only that it was written is counted.
- `joinGroup`: it catches its own exceptions and keeps no state.
