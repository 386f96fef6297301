/** The client session as a step machine over values: what every API call, closure and router
    message does to the session's fields.  The class in WampClient.dfy is proved against these
    functions, and the theorems about whole runs are proved about them. */
module Session {
  import opened Values
  import opened Wire

  /** uint64_t request ids wrap here. */
  const ID_RANGE: nat := 0x1_0000_0000_0000_0000
  /** The largest value that as<int>() accepts. */
  const INT_MAX: nat := 0x7FFF_FFFF

  /** User callables, by name only: what they do is given by a `Behaviour` each time they run. */
  type Handler = nat
  type Procedure = nat

  datatype Error =
    | ProtocolError
    | NoSession
    | TypeError          // msgpack::type_error from as<T>()
    | PromiseAlreadySet  // second set_value or set_exception on one promise
    | FutureAlreadyTaken // second get_future on one promise
    | NotSendable        // reply token already spent
    | Undefined          // element access past the end of a message: undefined in C++

  datatype Outcome = Ok | Raised(error: Error)

  /** A one-shot cell. */
  datatype Promise<T> = Unset | Set(value: T)

  datatype Kind = CallKind | SubscribeKind | UnsubscribeKind | RegisterKind | PublishKind

  datatype Answer =
    | ResultOf(args: seq<Value>, kw: seq<Entry>)
    | Failed(text: string)
    | Subscription(subscription: nat)
    | Unsubscription
    | Registration(registration: nat)

  /** The object behind a request's shared_ptr: the user's callable and the promise.  `asked` is
      history: the message the API call built. */
  datatype Request = Request(kind: Kind, callable: nat, asked: WireMsg, promise: Promise<Answer>)

  /** A function object waiting in the io_service. */
  datatype Closure =
    | AskClosure(index: nat, m: WireMsg)
    | JoinClosure(m: WireMsg)
    | LeaveClosure(m: WireMsg)
    | StopClosure
    | ReplyClosure(invocation: nat, m: WireMsg)

  /** Where the single reply of an invocation is.  `Held` is a non-empty m_send_result_fn. */
  datatype Stage = Held | Queued(m: WireMsg) | Delivered(m: WireMsg) | Dropped(m: WireMsg)

  /** wamp_invocation_impl.  History: `acceptedBefore`, how many messages had been accepted, and `given`,
      what result() or error() was called with. */
  datatype Invocation = Invocation(id: nat, registration: nat, procedure: Procedure, details: seq<Entry>,
                                   args: seq<Value>, kw: seq<Entry>, acceptedBefore: nat, stage: Stage,
                                   given: Option<Reply>)

  /** One call of an event handler. */
  datatype HandlerCall = HandlerCall(handler: Handler, args: seq<Value>, kw: seq<Entry>)

  datatype Event = In(v: Value) | Out(m: WireMsg)

  /** The session's state flags and its own one-shot promises. */
  datatype Flags = Flags(
    sessionId: nat,                    // m_session_id
    goodbyeSent: bool,
    stopped: bool,
    joined: Promise<nat>,
    left: Promise<string>,
    halted: Promise<()>,
    leaveTaken: bool,                  // get_future was called on m_session_leave
    stopTaken: bool)

  /** The four maps from request ids to request objects (their positions in `requests`). */
  datatype Tables = Tables(calls: map<nat, nat>, subscribes: map<nat, nat>,
                           unsubscribes: map<nat, nat>, registers: map<nat, nat>)

  /** m_subscription_handlers in iteration order, and m_procedures. */
  datatype Routes = Routes(handlers: seq<(nat, Handler)>, procedures: map<nat, Procedure>)

  /** The last id taken, and every request object in the order ids were taken. */
  datatype Book = Book(lastId: nat, requests: seq<Request>)

  /** Closures posted to the io_service and not yet run. */
  datatype Queue = Queue(pending: map<nat, Closure>, posted: nat)

  /** History: messages handed to the output stream, alone and in order with received ones. */
  datatype Output = Output(sent: seq<WireMsg>, trace: seq<Event>)

  /** History: messages processed without an exception, and event handler calls. */
  datatype Past = Past(accepted: seq<Value>, called: seq<HandlerCall>)

  datatype State = State(
    live: bool,                        // no exception has left message processing yet
    flags: Flags,
    book: Book,
    tables: Tables,
    routes: Routes,
    queue: Queue,
    invocations: seq<Invocation>,      // every invocation object, oldest first
    signals: nat,                      // times m_onRxError was signalled
    output: Output,
    past: Past)

  const Init: State :=
    State(true, Flags(0, false, false, Unset, Unset, Unset, false, false), Book(0, []),
          Tables(map[], map[], map[], map[]), Routes([], map[]), Queue(map[], 0), [], 0,
          Output([], []), Past([], []))

  datatype Result = Result(state: State, outcome: Outcome)

  function Good(s: State): Result { Result(s, Ok) }
  function Fail(s: State, e: Error): Result { Result(s, Raised(e)) }

  // ---------------------------------------------------------------- request tables

  function Table(s: State, k: Kind): map<nat, nat> {
    match k
    case CallKind => s.tables.calls
    case SubscribeKind => s.tables.subscribes
    case UnsubscribeKind => s.tables.unsubscribes
    case RegisterKind => s.tables.registers
    case PublishKind => map[]
  }

  function WithTable(s: State, k: Kind, t: map<nat, nat>): State {
    match k
    case CallKind => s.(tables := s.tables.(calls := t))
    case SubscribeKind => s.(tables := s.tables.(subscribes := t))
    case UnsubscribeKind => s.(tables := s.tables.(unsubscribes := t))
    case RegisterKind => s.(tables := s.tables.(registers := t))
    case PublishKind => s
  }

  /** std::map::emplace keeps an entry that is already there. */
  function Emplace(t: map<nat, nat>, id: nat, index: nat): map<nat, nat> {
    if id in t then t else t[id := index]
  }

  // ---------------------------------------------------------------- sending

  function Send(s: State, m: WireMsg): State {
    if s.flags.stopped then s
    else s.(output := Output(s.output.sent + [m], s.output.trace + [Out(m)]))
  }

  // ---------------------------------------------------------------- API calls

  datatype Api =
    | ApiJoin(realm: string)
    | ApiLeave(reason: string)
    | ApiStop
    | ApiSubscribe(topic: string, handler: Handler)
    | ApiUnsubscribe(subscription: nat)
    | ApiProvide(name: string, procedure: Procedure, options: seq<Entry>)
    | ApiPublish(topic: string, payload: Payload)
    | ApiCall(name: string, payload: Payload)

  function Post(s: State, c: Closure): State {
    s.(queue := Queue(s.queue.pending[s.queue.posted := c], s.queue.posted + 1))
  }

  /** ++m_request_id. */
  function NextId(s: State): nat {
    (s.book.lastId + 1) % ID_RANGE
  }

  /** Takes the next id for a new request object and posts the closure that will send it. */
  function Ask(s: State, k: Kind, callable: nat, m: WireMsg): State {
    Post(s.(book := Book(NextId(s), s.book.requests + [Request(k, callable, m, Unset)])),
         AskClosure(|s.book.requests|, m))
  }

  /** The calling thread's half of an API call: take an id, build the message, post the closure. */
  function Prepare(s: State, a: Api): State {
    match a
    case ApiJoin(realm) => Post(s, JoinClosure(Hello(realm)))
    case ApiLeave(reason) => Post(s, LeaveClosure(Goodbye(reason)))
    case ApiStop => Post(s, StopClosure)
    case ApiSubscribe(topic, handler) => Ask(s, SubscribeKind, handler, Subscribe(NextId(s), topic))
    case ApiUnsubscribe(subscription) => Ask(s, UnsubscribeKind, 0, Unsubscribe(NextId(s), subscription))
    case ApiProvide(name, procedure, options) =>
      Ask(s, RegisterKind, procedure, Register(NextId(s), options, name))
    case ApiPublish(topic, payload) => Ask(s, PublishKind, 0, Publish(NextId(s), topic, payload))
    case ApiCall(name, payload) => Ask(s, CallKind, 0, Call(NextId(s), name, payload))
  }

  /** The get_future() at the end of an API call; only the two that can be asked for again matter. */
  function TakeFuture(s: State, a: Api): Result {
    match a
    case ApiLeave(_) =>
      if s.flags.leaveTaken then Fail(s, FutureAlreadyTaken)
      else Good(s.(flags := s.flags.(leaveTaken := true)))
    case ApiStop =>
      if s.flags.stopTaken then Fail(s, FutureAlreadyTaken)
      else Good(s.(flags := s.flags.(stopTaken := true)))
    case _ => Good(s)
  }

  // ---------------------------------------------------------------- closures on the io thread

  function RunAsk(s: State, index: nat, m: WireMsg): Result {
    if s.flags.sessionId == 0 then Fail(s, NoSession)
    else if index < |s.book.requests| then
      var k := s.book.requests[index].kind;
      Good(Send(WithTable(s, k, Emplace(Table(s, k), RequestId(m), index)), m))
    else Good(Send(s, m))
  }

  function RunJoin(s: State, m: WireMsg): Result {
    if s.flags.sessionId != 0 then Fail(s, ProtocolError) else Good(Send(s, m))
  }

  function RunLeave(s: State, m: WireMsg): Result {
    if s.flags.sessionId == 0 then Fail(s, NoSession)
    else if s.flags.goodbyeSent then Fail(s, ProtocolError)
    else Good(Send(s.(flags := s.flags.(goodbyeSent := true, sessionId := 0)), m))
  }

  function RunStop(s: State): Result {
    if s.flags.stopped then Fail(s, ProtocolError)
    else if s.flags.sessionId != 0 then Fail(s, ProtocolError)
    else
      var s1 := s.(flags := s.flags.(stopped := true));
      if s.flags.halted.Set? then Fail(s1, PromiseAlreadySet)
      else Good(s1.(flags := s1.flags.(halted := Set(()))))
  }

  function RunReply(s: State, k: nat, m: WireMsg): Result {
    var s1 := Send(s, m);
    if k < |s.invocations| then
      var stage := if s.flags.stopped then Dropped(m) else Delivered(m);
      Good(s1.(invocations := s.invocations[k := s.invocations[k].(stage := stage)]))
    else Good(s1)
  }

  function RunBody(s: State, c: Closure): Result {
    match c
    case AskClosure(index, m) => RunAsk(s, index, m)
    case JoinClosure(m) => RunJoin(s, m)
    case LeaveClosure(m) => RunLeave(s, m)
    case StopClosure => RunStop(s)
    case ReplyClosure(k, m) => RunReply(s, k, m)
  }

  /** Takes one closure off the queue and runs it. */
  function RunClosure(s: State, ticket: nat): Result {
    if ticket !in s.queue.pending then Good(s)
    else RunBody(s.(queue := s.queue.(pending := s.queue.pending - {ticket})), s.queue.pending[ticket])
  }

  /** An API call made on the io thread: dispatch() runs the closure at once, and an exception in
      it leaves the call before get_future(). */
  function CallApi(s: State, a: Api): Result {
    var r := RunClosure(Prepare(s, a), s.queue.posted);
    if r.outcome.Ok? then TakeFuture(r.state, a) else r
  }

  // ---------------------------------------------------------------- replies to invocations

  datatype Reply = ResultReply(payload: Payload) | ErrorWith(uri: string, payload: Payload)

  function ReplyMsg(id: nat, reply: Reply): WireMsg {
    match reply
    case ResultReply(payload) => Yield(id, payload)
    case ErrorWith(uri, payload) => ErrorReply(id, uri, payload)
  }

  /** result() or error(): spends the token and posts the send. */
  function Spend(s: State, k: nat, reply: Reply): Result {
    if k < |s.invocations| && s.invocations[k].stage.Held? then
      var m := ReplyMsg(s.invocations[k].id, reply);
      Good(Post(s.(invocations := s.invocations[k := s.invocations[k].(stage := Queued(m), given := Some(reply))]),
                ReplyClosure(k, m)))
    else Fail(s, NotSendable)
  }

  /** The same on the io thread, where the send runs at once. */
  function ReplyNow(s: State, k: nat, reply: Reply): Result {
    var r := Spend(s, k, reply);
    if r.outcome.Ok? then RunClosure(r.state, s.queue.posted) else r
  }

  // ---------------------------------------------------------------- what user code may do

  /** Anything a handler or procedure can ask of the session while it runs. */
  datatype Action = Invoke(api: Api) | Answer(invocation: nat, reply: Reply)

  datatype Exit = Returns | Throws(what: string) | ThrowsOther

  /** One run of a handler or procedure: its session calls in order, then how it ends. */
  datatype Behaviour = Behaviour(actions: seq<Action>, exit: Exit)

  function Act(s: State, a: Action): State {
    match a
    case Invoke(api) => CallApi(s, api).state
    case Answer(k, reply) => ReplyNow(s, k, reply).state
  }

  function ActAll(s: State, actions: seq<Action>): State
    decreases |actions|
  {
    if actions == [] then s
    else ActAll(Act(s, actions[0]), actions[1..])
  }

  function BehaviourAt(o: seq<Behaviour>, i: nat): Behaviour {
    if i < |o| then o[i] else Behaviour([], Returns)
  }

  // ---------------------------------------------------------------- router messages

  function SetPromise(s: State, index: nat, x: Answer): Result {
    if index < |s.book.requests| then
      if s.book.requests[index].promise.Set? then Fail(s, PromiseAlreadySet)
      else Good(s.(book := s.book.(requests := s.book.requests[index := s.book.requests[index].(promise := Set(x))])))
    else Good(s)
  }

  function Welcome(s: State, m: seq<Value>): Result {
    if |m| < 2 then Fail(s, Undefined)
    else if !m[1].UInt? then Fail(s, TypeError)
    else
      var s1 := s.(flags := s.flags.(sessionId := m[1].n));
      if s.flags.joined.Set? then Fail(s1, PromiseAlreadySet)
      else Good(s1.(flags := s1.flags.(joined := Set(m[1].n))))
  }

  const GOODBYE_AND_OUT := "wamp.error.goodbye_and_out"
  const CLOSE_REALM := "wamp.error.close_realm"
  const SOCKET_CLOSED := "socket closed"
  const RUNTIME_ERROR := "wamp.error.runtime_error"

  /** as<std::string>(): a string or a binary. */
  function Text(v: Value): Option<string> {
    match v
    case Str(t) => Some(t)
    case Bin(t) => Some(t)
    case _ => None
  }

  function ProcessGoodbye(s: State, m: seq<Value>): Result {
    var s1 := s.(flags := s.flags.(sessionId := 0));
    var s2 := if s.flags.goodbyeSent then s1 else Send(s1, Goodbye(GOODBYE_AND_OUT));
    if |m| < 3 then Fail(s2, Undefined)
    else match Text(m[2])
      case None => Fail(s2, TypeError)
      case Some(reason) =>
        if s.flags.left.Set? then Fail(s2, PromiseAlreadySet)
        else Good(s2.(flags := s2.flags.(left := Set(reason))))
  }

  /** convert() to a map from strings to strings, then find("what"): None when some entry does not
      convert, Some(None) when there is no such key; the last entry of a repeated key wins. */
  function What(kw: seq<Entry>): Option<Option<string>> {
    if kw == [] then Some(None)
    else
      var last := kw[|kw| - 1];
      match (What(kw[..|kw| - 1]), Text(last.key), Text(last.val))
      case (Some(w), Some(key), Some(val)) => Some(if key == "what" then Some(val) else w)
      case _ => None
  }

  function ErrorText(uri: string, kw: Option<seq<Entry>>): string {
    match kw
    case None => uri
    case Some(entries) =>
      match What(entries)
      case None => uri + ": unknown exception"
      case Some(None) => uri
      case Some(Some(w)) => uri + ": " + w
  }

  predicate IsRequestCode(code: nat) {
    code == CALL || code == REGISTER || code == UNREGISTER || code == PUBLISH
    || code == SUBSCRIBE || code == UNSUBSCRIBE
  }

  function ProcessError(s: State, m: seq<Value>): Result {
    if |m| != 5 && |m| != 6 && |m| != 7 then Fail(s, ProtocolError)
    else if !m[1].UInt? then Fail(s, ProtocolError)
    else if m[1].n > INT_MAX then Fail(s, TypeError)
    else if !IsRequestCode(m[1].n) then Fail(s, ProtocolError)
    else if !m[2].UInt? then Fail(s, ProtocolError)
    else if !m[3].Dict? then Fail(s, ProtocolError)
    else if !m[4].Str? then Fail(s, ProtocolError)
    else if |m| > 5 && !m[5].Array? then Fail(s, ProtocolError)
    else if |m| > 6 && !m[6].Dict? then Fail(s, ProtocolError)
    else if m[1].n == CALL then
      if m[2].n in s.tables.calls then
        SetPromise(s, s.tables.calls[m[2].n],
                   Failed(ErrorText(m[4].s, if |m| > 6 then Some(m[6].entries) else None)))
      else Fail(s, ProtocolError)
    else Good(s)
  }

  /** The optional list and dictionary at positions `at` and `at + 1`. */
  predicate TailTyped(m: seq<Value>, at: nat) {
    (|m| > at ==> m[at].Array?) && (|m| > at + 1 ==> m[at + 1].Dict?)
  }

  function TailArgs(m: seq<Value>, at: nat): seq<Value>
    requires TailTyped(m, at)
  {
    if |m| > at then m[at].items else []
  }

  function TailKw(m: seq<Value>, at: nat): seq<Entry>
    requires TailTyped(m, at)
  {
    if |m| > at + 1 then m[at + 1].entries else []
  }

  /** The reply that process_invocation makes for a procedure that throws with its token unspent. */
  function ThrownReply(e: Exit): Reply {
    match e
    case Throws(what) => ErrorWith(RUNTIME_ERROR, ArgsKw([], [Entry(Str("what"), Str(what))]))
    case _ => ErrorWith(RUNTIME_ERROR, NoArgs)
  }

  /** A well-formed INVOCATION for a registered procedure. */
  predicate Invokes(s: State, m: seq<Value>) {
    && 4 <= |m| <= 6
    && m[1].UInt? && m[2].UInt? && m[2].n in s.routes.procedures && m[3].Dict? && TailTyped(m, 4)
  }

  /** The invocation object it leads to. */
  function InvocationOf(s: State, m: seq<Value>): Invocation
    requires Invokes(s, m)
  {
    Invocation(m[1].n, m[2].n, s.routes.procedures[m[2].n], m[3].entries, TailArgs(m, 4), TailKw(m, 4),
               |s.past.accepted|, Held, None)
  }

  function Begun(s: State, inv: Invocation): State {
    s.(invocations := s.invocations + [inv])
  }

  function ProcessInvocation(s: State, m: seq<Value>, b: Behaviour): Result {
    if |m| != 4 && |m| != 5 && |m| != 6 then Fail(s, ProtocolError)
    else if !m[1].UInt? then Fail(s, ProtocolError)
    else if !m[2].UInt? then Fail(s, ProtocolError)
    else if m[2].n !in s.routes.procedures then Fail(s, ProtocolError)
    else if !m[3].Dict? then Fail(s, ProtocolError)
    else if !TailTyped(m, 4) then Fail(s, ProtocolError)
    else Good(RunProcedure(Begun(s, InvocationOf(s, m)), |s.invocations|, b))
  }

  /** The procedure runs; if it throws and has not replied, an error is sent for it. */
  function RunProcedure(s: State, k: nat, b: Behaviour): State {
    var s1 := ActAll(s, b.actions);
    if b.exit.Returns? then s1
    else if k < |s1.invocations| && s1.invocations[k].stage.Held? then
      ReplyNow(s1, k, ThrownReply(b.exit)).state
    else s1
  }

  function ProcessResult(s: State, m: seq<Value>): Result {
    if |m| != 3 && |m| != 4 && |m| != 5 then Fail(s, ProtocolError)
    else if !m[1].UInt? then Fail(s, ProtocolError)
    else if m[1].n !in s.tables.calls then Fail(s, ProtocolError)
    else if !m[2].Dict? then Fail(s, ProtocolError)
    else if !TailTyped(m, 3) then Fail(s, ProtocolError)
    else SetPromise(s, s.tables.calls[m[1].n], ResultOf(TailArgs(m, 3), TailKw(m, 3)))
  }

  function ProcessSubscribed(s: State, m: seq<Value>): Result {
    if |m| != 3 then Fail(s, ProtocolError)
    else if !m[1].UInt? then Fail(s, ProtocolError)
    else if m[1].n !in s.tables.subscribes then Fail(s, ProtocolError)
    else if !m[2].UInt? then Fail(s, ProtocolError)
    else
      var index := s.tables.subscribes[m[1].n];
      var handler := if index < |s.book.requests| then s.book.requests[index].callable else 0;
      var s1 := s.(routes := s.routes.(handlers := Insert(s.routes.handlers, m[2].n, handler)));
      var r := SetPromise(s1, index, Subscription(m[2].n));
      if r.outcome.Ok? then Good(WithTable(r.state, SubscribeKind, s.tables.subscribes - {m[1].n})) else r
  }

  function ProcessUnsubscribed(s: State, m: seq<Value>): Result {
    if |m| != 2 then Fail(s, ProtocolError)
    else if !m[1].UInt? then Fail(s, ProtocolError)
    else if m[1].n !in s.tables.unsubscribes then Fail(s, ProtocolError)
    else
      var r := SetPromise(s, s.tables.unsubscribes[m[1].n], Unsubscription);
      if r.outcome.Ok? then Good(WithTable(r.state, UnsubscribeKind, s.tables.unsubscribes - {m[1].n})) else r
  }

  function ProcessRegistered(s: State, m: seq<Value>): Result {
    if |m| != 3 then Fail(s, ProtocolError)
    else if !m[1].UInt? then Fail(s, ProtocolError)
    else if m[1].n !in s.tables.registers then Fail(s, ProtocolError)
    else if !m[2].UInt? then Fail(s, ProtocolError)
    else
      var index := s.tables.registers[m[1].n];
      var procedure := if index < |s.book.requests| then s.book.requests[index].callable else 0;
      SetPromise(s.(routes := s.routes.(procedures := s.routes.procedures[m[2].n := procedure])), index,
                 Registration(m[2].n))
  }

  // ---------------------------------------------------------------- the handler multimap

  /** Position of the first entry whose key is not less than `key`. */
  function LowerBound(hs: seq<(nat, Handler)>, key: nat): (r: nat)
    ensures r <= |hs|
  {
    if hs == [] || hs[0].0 >= key then 0 else 1 + LowerBound(hs[1..], key)
  }

  /** Position of the first entry whose key is greater than `key`. */
  function UpperBound(hs: seq<(nat, Handler)>, key: nat): (r: nat)
    ensures r <= |hs|
  {
    if hs == [] || hs[0].0 > key then 0 else 1 + UpperBound(hs[1..], key)
  }

  /** std::multimap::insert places a new entry after the entries with an equal key. */
  function Insert(hs: seq<(nat, Handler)>, key: nat, h: Handler): seq<(nat, Handler)> {
    var at := UpperBound(hs, key);
    hs[..at] + [(key, h)] + hs[at..]
  }

  function Called(s: State, c: HandlerCall): State {
    s.(past := s.past.(called := s.past.called + [c]))
  }

  /** The handler walk: one handler after another; the first that throws ends it. */
  function CallHandlers(s: State, range: seq<(nat, Handler)>, args: seq<Value>, kw: seq<Entry>,
                        o: seq<Behaviour>, i: nat): State
    decreases |range|
  {
    if range == [] then s
    else
      var b := BehaviourAt(o, i);
      var s1 := ActAll(Called(s, HandlerCall(range[0].1, args, kw)), b.actions);
      if b.exit.Returns? then CallHandlers(s1, range[1..], args, kw, o, i + 1) else s1
  }

  function ProcessEvent(s: State, m: seq<Value>, o: seq<Behaviour>): Result {
    if |m| != 4 && |m| != 5 && |m| != 6 then Fail(s, ProtocolError)
    else if !m[1].UInt? then Fail(s, ProtocolError)
    else
      var lo, hi := LowerBound(s.routes.handlers, m[1].n), UpperBound(s.routes.handlers, m[1].n);
      if lo < hi then
        if !m[2].UInt? then Fail(s, ProtocolError)
        else if !m[3].Dict? then Fail(s, ProtocolError)
        else if !TailTyped(m, 4) then Fail(s, ProtocolError)
        else Good(CallHandlers(s, s.routes.handlers[lo..hi], TailArgs(m, 4), TailKw(m, 4), o, 0))
      else Good(s)
  }

  // ---------------------------------------------------------------- dispatch

  predicate IsUnexpected(code: nat) {
    code == HELLO || code == CHALLENGE || code == AUTHENTICATE || code == PUBLISH || code == SUBSCRIBE
    || code == UNSUBSCRIBE || code == CALL || code == CANCEL || code == REGISTER || code == UNREGISTER
    || code == INTERRUPT || code == YIELD
  }

  /** got_message.  `o` says what the user code that runs will do. */
  function GotMessage(s: State, v: Value, o: seq<Behaviour>): Result {
    if !v.Array? then Fail(s, ProtocolError)
    else
      var m := v.items;
      if |m| < 1 then Fail(s, ProtocolError)
      else if !m[0].UInt? then Fail(s, ProtocolError)
      else if m[0].n > INT_MAX then Fail(s, TypeError)
      else
        var code := m[0].n;
        if IsUnexpected(code) then Fail(s, ProtocolError)
        else if code == WELCOME then Welcome(s, m)
        else if code == GOODBYE then ProcessGoodbye(s, m)
        else if code == ERROR then ProcessError(s, m)
        else if code == SUBSCRIBED then ProcessSubscribed(s, m)
        else if code == UNSUBSCRIBED then ProcessUnsubscribed(s, m)
        else if code == EVENT then ProcessEvent(s, m, o)
        else if code == RESULT then ProcessResult(s, m)
        else if code == REGISTERED then ProcessRegistered(s, m)
        else if code == INVOCATION then ProcessInvocation(s, m, BehaviourAt(o, 0))
        else Good(s)
  }

  /** got_message with its history: an exception that leaves it ends the io loop. */
  function Deliver(s: State, v: Value, o: seq<Behaviour>): Result {
    Finish(GotMessage(Received(s, v), v, o), v)
  }

  function Received(s: State, v: Value): State {
    s.(output := s.output.(trace := s.output.trace + [In(v)]))
  }

  function Accepted(s: State, v: Value): State {
    s.(past := s.past.(accepted := s.past.accepted + [v]))
  }

  function Finish(r: Result, v: Value): Result {
    if r.outcome.Ok? then Good(Accepted(r.state, v)) else Result(r.state.(live := false), r.outcome)
  }

  /** handleRxError for an error other than operation_aborted. */
  function Fault(s: State): Result {
    if s.flags.left.Set? then Fail(s.(live := false), PromiseAlreadySet)
    else
      var r1 := CallApi(s.(flags := s.flags.(left := Set(SOCKET_CLOSED))), ApiLeave(CLOSE_REALM));
      if r1.outcome.Raised? then Result(r1.state.(live := false), r1.outcome)
      else
        var r2 := CallApi(r1.state, ApiStop);
        if r2.outcome.Raised? then Result(r2.state.(live := false), r2.outcome)
        else Good(r2.state.(signals := r2.state.signals + 1))
  }

  // ---------------------------------------------------------------- runs

  datatype Label =
    | Take(api: Api)                             // the calling half of an API call, on any thread
    | Run(ticket: nat)                           // the io thread runs a posted closure
    | SpendToken(invocation: nat, reply: Reply)  // result() or error(), on any thread
    | Receive(v: Value, o: seq<Behaviour>)       // the io thread processes one message
    | ReadFails                                  // a read completes with an error

  function Step(s: State, l: Label): State {
    if !s.live then s
    else match l
      case Take(api) => TakeFuture(Prepare(s, api), api).state
      case Run(ticket) => RunClosure(s, ticket).state
      case SpendToken(k, reply) => Spend(s, k, reply).state
      case Receive(v, o) => Deliver(s, v, o).state
      case ReadFails => Fault(s).state
  }

  /** The state after any finite run: every interleaving, every router, every user code. */
  function Exec(run: seq<Label>): State {
    if run == [] then Init else Step(Exec(run[..|run| - 1]), run[|run| - 1])
  }

  // ---------------------------------------------------------------- reading messages

  /** The request id a client message carries; 0 for the kinds that carry none. */
  function RequestId(m: WireMsg): nat {
    match m
    case Subscribe(id, _) => id
    case Unsubscribe(id, _) => id
    case Register(id, _, _) => id
    case Publish(id, _, _) => id
    case Call(id, _, _) => id
    case _ => 0
  }

  /** The messages that carry one, which a client may send only inside a session. */
  predicate IsRequest(m: WireMsg) {
    m.Call? || m.Subscribe? || m.Unsubscribe? || m.Register? || m.Publish?
  }

  predicate IsReply(m: WireMsg) {
    m.Yield? || m.ErrorReply?
  }

  /** Each kind of closure sends its own kind of message. */
  predicate Fitting(c: Closure) {
    match c
    case AskClosure(_, m) => IsRequest(m)
    case JoinClosure(m) => m.Hello?
    case LeaveClosure(m) => m.Goodbye?
    case StopClosure => true
    case ReplyClosure(_, m) => IsReply(m)
  }
}
