/** The session object.  Its fields change step by step as the source's do.  The methods that only run
    inside another are proved against the functions of modules Session and Link; those that are called
    from outside keep the object on a run of the machine, and so within everything proved of runs. */
module WampClient {
  import opened Values
  import opened Wire
  import opened Session
  import opened Link
  import F = Framing
  import Acceptance
  import History
  import Ids
  import Progress
  import Reentrancy
  import RequestTheorems
  import Runs

  /** The request maps with one more entry, unless its key was there. */
  function Filed(t: Tables, k: Kind, id: nat, index: nat): Tables {
    match k
    case CallKind => t.(calls := Emplace(t.calls, id, index))
    case SubscribeKind => t.(subscribes := Emplace(t.subscribes, id, index))
    case UnsubscribeKind => t.(unsubscribes := Emplace(t.unsubscribes, id, index))
    case RegisterKind => t.(registers := Emplace(t.registers, id, index))
    case PublishKind => t
  }

  lemma FiledIs(s: State, k: Kind, id: nat, index: nat)
    ensures s.(tables := Filed(s.tables, k, id, index)) == WithTable(s, k, Emplace(Table(s, k), id, index))
  {
  }

  class WampSession {
    // m_request_id, m_session_id, m_goodbye_sent, m_stopped
    var lastId: nat
    var sessionId: nat
    var goodbyeSent: bool
    var stopped: bool

    // m_session_join, m_session_leave, m_session_stop, and whether their futures were taken
    var joined: Promise<nat>
    var left: Promise<string>
    var halted: Promise<()>
    var leaveTaken: bool
    var stopTaken: bool

    // the request maps, and the objects they point to
    var calls: map<nat, nat>
    var subscribes: map<nat, nat>
    var unsubscribes: map<nat, nat>
    var registers: map<nat, nat>
    var requests: seq<Request>

    // m_subscription_handlers, m_procedures, and every wamp_invocation handed out
    var handlers: seq<(nat, Handler)>
    var procedures: map<nat, Procedure>
    var invocations: seq<Invocation>

    // closures posted to the io_service
    var pending: map<nat, Closure>
    var posted: nat

    var signals: nat

    // m_handshake, m_unpacker, the outstanding reads, and the handshakes written
    var handshake: Promise<bool>
    var unpacker: seq<Token>
    var outstanding: seq<Read>
    var greeted: nat

    /** The buffers written to the output stream, and the messages processed without an exception. */
    var written: seq<seq<Token>>
    var accepted: seq<Value>

    /** History: what has been done to the object from outside. */
    ghost var moves: seq<Move>

    ghost var live: bool
    ghost var sent: seq<WireMsg>
    ghost var called: seq<HandlerCall>
    ghost var trace: seq<Event>

    ghost function Now(): State
      reads this
    {
      State(live, Flags(sessionId, goodbyeSent, stopped, joined, left, halted, leaveTaken, stopTaken),
            Book(lastId, requests), Tables(calls, subscribes, unsubscribes, registers),
            Routes(handlers, procedures), Queue(pending, posted), invocations, signals,
            Output(sent, trace), Past(accepted, called))
    }

    ghost function Linked(): Connection
      reads this
    {
      Connection(Now(), outstanding, handshake, unpacker, greeted)
    }

    /** The read chain is as it was. */
    twostate predicate SameChain()
      reads this
    {
      unchanged(`outstanding, `handshake, `unpacker, `greeted, `moves)
    }

    /** What is on the wire is the token form of the messages in the log. */
    ghost predicate Packed()
      reads this
    {
      |written| == |sent| && forall i :: 0 <= i < |sent| ==> written[i] == Flatten(Encode(sent[i]))
    }

    /** The object is where the machine is after all that was done to it. */
    ghost predicate Valid()
      reads this
    {
      Packed() && Linked() == Play(moves)
    }

    constructor ()
      ensures Valid() && moves == [] && live && written == []
    {
      lastId, sessionId, goodbyeSent, stopped := 0, 0, false, false;
      joined, left, halted, leaveTaken, stopTaken := Unset, Unset, Unset, false, false;
      calls, subscribes, unsubscribes, registers, requests := map[], map[], map[], map[], [];
      handlers, procedures, invocations := [], map[], [];
      pending, posted, signals := map[], 0, 0;
      handshake, unpacker, outstanding, greeted := Unset, [], [], 0;
      written := [];
      live, sent, accepted, called, trace := true, [], [], [], [];
      moves := [];
    }

    // -------------------------------------------------------------- sending

    /** The buffer is built and handed to the output stream. */
    method Write(m: WireMsg)
      requires Packed()
      modifies this`written, this`sent, this`trace
      ensures Packed() && sent == old(sent) + [m] && trace == old(trace) + [Out(m)]
    {
      var buffer := Build(m);
      written := written + [buffer];
      sent, trace := sent + [m], trace + [Out(m)];
    }

    method Send(m: WireMsg)
      requires Packed()
      modifies this
      ensures Packed() && SameChain() && Now() == Session.Send(old(Now()), m)
    {
      if !stopped {
        Write(m);
      }
    }

    // -------------------------------------------------------------- API calls

    method Post(c: Closure)
      requires Packed()
      modifies this
      ensures Packed() && SameChain() && Now() == Session.Post(old(Now()), c)
    {
      pending := pending[posted := c];
      posted := posted + 1;
    }

    /** ++m_request_id, with its wrap-around, and the shared request object. */
    method Ask(k: Kind, callable: nat, m: WireMsg)
      requires Packed()
      modifies this
      ensures Packed() && SameChain() && Now() == Session.Ask(old(Now()), k, callable, m)
    {
      lastId := (lastId + 1) % ID_RANGE;
      var index := |requests|;
      requests := requests + [Request(k, callable, m, Unset)];
      Post(AskClosure(index, m));
    }

    /** The calling half of any API call: an id where one is needed, the message, the closure. */
    method Prepare(a: Api)
      requires Packed()
      modifies this
      ensures Packed() && SameChain() && Now() == Session.Prepare(old(Now()), a)
    {
      var id := (lastId + 1) % ID_RANGE;
      match a {
        case ApiJoin(realm) => Post(JoinClosure(Hello(realm)));
        case ApiLeave(reason) => Post(LeaveClosure(Goodbye(reason)));
        case ApiStop => Post(StopClosure);
        case ApiSubscribe(topic, handler) => Ask(SubscribeKind, handler, WireMsg.Subscribe(id, topic));
        case ApiUnsubscribe(subscription) => Ask(UnsubscribeKind, 0, WireMsg.Unsubscribe(id, subscription));
        case ApiProvide(name, procedure, options) => Ask(RegisterKind, procedure, Register(id, options, name));
        case ApiPublish(topic, payload) => Ask(PublishKind, 0, WireMsg.Publish(id, topic, payload));
        case ApiCall(name, payload) => Ask(CallKind, 0, WireMsg.Call(id, name, payload));
      }
    }

    /** get_future() on the promise behind an API call. */
    method TakeFuture(a: Api) returns (r: Outcome)
      requires Packed()
      modifies this
      ensures Packed() && Result(Now(), r) == Session.TakeFuture(old(Now()), a)
      ensures SameChain()
    {
      r := Ok;
      match a {
        case ApiLeave(_) =>
          if leaveTaken { r := Raised(FutureAlreadyTaken); } else { leaveTaken := true; }
        case ApiStop =>
          if stopTaken { r := Raised(FutureAlreadyTaken); } else { stopTaken := true; }
        case _ =>
      }
    }

    /** An API call from the io thread: dispatch() runs the posted closure before it returns. */
    method CallApi(a: Api) returns (r: Outcome)
      requires Packed()
      modifies this
      ensures Packed() && Result(Now(), r) == Session.CallApi(old(Now()), a)
      ensures SameChain()
    {
      var ticket := posted;
      Prepare(a);
      r := RunClosure(ticket);
      if r.Ok? {
        r := TakeFuture(a);
      }
    }

    // -------------------------------------------------------------- closures

    /** emplace() on the request map of one kind; PUBLISH has none. */
    method Record(k: Kind, id: nat, index: nat)
      modifies this`calls, this`subscribes, this`unsubscribes, this`registers
      ensures Tables(calls, subscribes, unsubscribes, registers) == Filed(old(Now()).tables, k, id, index)
    {
      match k {
        case CallKind => if id !in calls { calls := calls[id := index]; }
        case SubscribeKind => if id !in subscribes { subscribes := subscribes[id := index]; }
        case UnsubscribeKind => if id !in unsubscribes { unsubscribes := unsubscribes[id := index]; }
        case RegisterKind => if id !in registers { registers := registers[id := index]; }
        case PublishKind =>
      }
    }

    method RecordRequest(index: nat, m: WireMsg)
      requires Packed() && index < |requests|
      modifies this`calls, this`subscribes, this`unsubscribes, this`registers
      ensures Packed()
      ensures var s, k := old(Now()), old(requests)[index].kind;
              Now() == WithTable(s, k, Emplace(Table(s, k), RequestId(m), index))
    {
      FiledIs(Now(), requests[index].kind, RequestId(m), index);
      Record(requests[index].kind, RequestId(m), index);
    }

    method RunAsk(index: nat, m: WireMsg) returns (r: Outcome)
      requires Packed()
      modifies this
      ensures Packed() && Result(Now(), r) == Session.RunAsk(old(Now()), index, m)
      ensures SameChain()
    {
      if sessionId == 0 {
        return Raised(NoSession);
      }
      if index < |requests| {
        RecordRequest(index, m);
      }
      Send(m);
      r := Ok;
    }

    method RunJoin(m: WireMsg) returns (r: Outcome)
      requires Packed()
      modifies this
      ensures Packed() && Result(Now(), r) == Session.RunJoin(old(Now()), m)
      ensures SameChain()
    {
      if sessionId != 0 {
        return Raised(ProtocolError);
      }
      Send(m);
      r := Ok;
    }

    method RunLeave(m: WireMsg) returns (r: Outcome)
      requires Packed()
      modifies this
      ensures Packed() && Result(Now(), r) == Session.RunLeave(old(Now()), m)
      ensures SameChain()
    {
      if sessionId == 0 {
        return Raised(NoSession);
      }
      if goodbyeSent {
        return Raised(ProtocolError);
      }
      Close();
      Send(m);
      r := Ok;
    }

    method Close()
      requires Packed()
      modifies this`goodbyeSent, this`sessionId
      ensures Packed() && Now() == old(Now()).(flags := old(Now()).flags.(goodbyeSent := true, sessionId := 0))
    {
      goodbyeSent, sessionId := true, 0;
    }

    method RunStop() returns (r: Outcome)
      requires Packed()
      modifies this
      ensures Packed() && Result(Now(), r) == Session.RunStop(old(Now()))
      ensures SameChain()
    {
      if stopped || sessionId != 0 {
        return Raised(ProtocolError);
      }
      stopped := true;
      if halted.Set? {
        return Raised(PromiseAlreadySet);
      }
      halted := Set(());
      r := Ok;
    }

    method RunReply(k: nat, m: WireMsg)
      requires Packed()
      modifies this
      ensures Packed() && SameChain() && Now() == Session.RunReply(old(Now()), k, m).state
    {
      Send(m);
      if k < |invocations| {
        var stage := if stopped then Dropped(m) else Delivered(m);
        invocations := invocations[k := invocations[k].(stage := stage)];
      }
    }

    /** The io thread takes one posted closure and runs it. */
    method RunClosure(ticket: nat) returns (r: Outcome)
      requires Packed()
      modifies this
      ensures Packed() && Result(Now(), r) == Session.RunClosure(old(Now()), ticket)
      ensures SameChain()
    {
      r := Ok;
      if ticket in pending {
        var c := pending[ticket];
        pending := pending - {ticket};
        match c {
          case AskClosure(index, m) => r := RunAsk(index, m);
          case JoinClosure(m) => r := RunJoin(m);
          case LeaveClosure(m) => r := RunLeave(m);
          case StopClosure => r := RunStop();
          case ReplyClosure(k, m) => RunReply(k, m);
        }
      }
    }

    // -------------------------------------------------------------- replies to invocations

    /** result() and error() of wamp_invocation_impl. */
    method Spend(k: nat, reply: Reply) returns (r: Outcome)
      requires Packed()
      modifies this
      ensures Packed() && Result(Now(), r) == Session.Spend(old(Now()), k, reply)
      ensures SameChain()
    {
      if k < |invocations| && invocations[k].stage.Held? {
        var m := ReplyMsg(invocations[k].id, reply);
        invocations := invocations[k := invocations[k].(stage := Queued(m), given := Some(reply))];
        Post(ReplyClosure(k, m));
        r := Ok;
      } else {
        r := Raised(NotSendable);
      }
    }

    method ReplyNow(k: nat, reply: Reply) returns (r: Outcome)
      requires Packed()
      modifies this
      ensures Packed() && Result(Now(), r) == Session.ReplyNow(old(Now()), k, reply)
      ensures SameChain()
    {
      var ticket := posted;
      r := Spend(k, reply);
      if r.Ok? {
        r := RunClosure(ticket);
      }
    }

    // -------------------------------------------------------------- user code

    /** What a handler or procedure does to the session before it returns or throws. */
    method ActAll(actions: seq<Action>)
      requires Packed()
      modifies this
      ensures Packed() && SameChain() && Now() == Session.ActAll(old(Now()), actions)
    {
      for i := 0 to |actions|
        invariant Packed() && SameChain()
        invariant Session.ActAll(Now(), actions[i..]) == Session.ActAll(old(Now()), actions)
      {
        assert actions[i..][1..] == actions[i + 1..];
        match actions[i] {
          case Invoke(api) => var _ := CallApi(api);
          case Answer(k, reply) => var _ := ReplyNow(k, reply);
        }
      }
    }

    // -------------------------------------------------------------- router messages

    method SetPromise(index: nat, x: Answer) returns (r: Outcome)
      requires Packed()
      modifies this
      ensures Packed() && Result(Now(), r) == Session.SetPromise(old(Now()), index, x)
      ensures SameChain()
    {
      r := Ok;
      if index < |requests| {
        if requests[index].promise.Set? {
          r := Raised(PromiseAlreadySet);
        } else {
          requests := requests[index := requests[index].(promise := Set(x))];
        }
      }
    }

    method ProcessWelcome(m: seq<Value>) returns (r: Outcome)
      requires Packed()
      modifies this
      ensures Packed() && Result(Now(), r) == Session.Welcome(old(Now()), m)
      ensures SameChain()
    {
      if |m| < 2 {
        return Raised(Undefined);
      }
      if !m[1].UInt? {
        return Raised(TypeError);
      }
      sessionId := m[1].n;
      if joined.Set? {
        return Raised(PromiseAlreadySet);
      }
      joined := Set(m[1].n);
      r := Ok;
    }

    method SetLeft(reason: string)
      requires Packed()
      modifies this`left
      ensures Packed() && Now() == old(Now()).(flags := old(Now()).flags.(left := Set(reason)))
    {
      left := Set(reason);
    }

    method ProcessGoodbye(m: seq<Value>) returns (r: Outcome)
      requires Packed()
      modifies this
      ensures Packed() && Result(Now(), r) == Session.ProcessGoodbye(old(Now()), m)
      ensures SameChain()
    {
      sessionId := 0;
      if !goodbyeSent {
        Send(Goodbye(GOODBYE_AND_OUT));
      }
      if |m| < 3 {
        return Raised(Undefined);
      }
      var reason := Text(m[2]);
      if reason.None? {
        return Raised(TypeError);
      }
      if left.Set? {
        return Raised(PromiseAlreadySet);
      }
      SetLeft(reason.value);
      r := Ok;
    }

    method ProcessError(m: seq<Value>) returns (r: Outcome)
      requires Packed() && |m| > 0
      modifies this
      ensures Packed() && Result(Now(), r) == Session.ProcessError(old(Now()), m)
      ensures SameChain()
    {
      if |m| != 5 && |m| != 6 && |m| != 7 { return Raised(ProtocolError); }
      if !m[1].UInt? { return Raised(ProtocolError); }
      if m[1].n > INT_MAX { return Raised(TypeError); }
      if !IsRequestCode(m[1].n) { return Raised(ProtocolError); }
      if !m[2].UInt? { return Raised(ProtocolError); }
      if !m[3].Dict? { return Raised(ProtocolError); }
      if !m[4].Str? { return Raised(ProtocolError); }
      if |m| > 5 && !m[5].Array? { return Raised(ProtocolError); }
      if |m| > 6 && !m[6].Dict? { return Raised(ProtocolError); }
      if m[1].n == CALL {
        if m[2].n !in calls { return Raised(ProtocolError); }
        r := SetPromise(calls[m[2].n],
                        Failed(ErrorText(m[4].s, if |m| > 6 then Some(m[6].entries) else None)));
      } else {
        r := Ok;
      }
    }

    method ProcessInvocation(m: seq<Value>, b: Behaviour) returns (r: Outcome)
      requires Packed() && |m| > 0
      modifies this
      ensures Packed() && Result(Now(), r) == Session.ProcessInvocation(old(Now()), m, b)
      ensures SameChain()
    {
      if |m| != 4 && |m| != 5 && |m| != 6 { return Raised(ProtocolError); }
      if !m[1].UInt? { return Raised(ProtocolError); }
      if !m[2].UInt? { return Raised(ProtocolError); }
      if m[2].n !in procedures { return Raised(ProtocolError); }
      if !m[3].Dict? { return Raised(ProtocolError); }
      if !TailTyped(m, 4) { return Raised(ProtocolError); }
      var k := |invocations|;
      invocations := invocations + [Invocation(m[1].n, m[2].n, procedures[m[2].n], m[3].entries,
                                               TailArgs(m, 4), TailKw(m, 4), |accepted|, Held, None)];
      RunProcedure(k, b);
      r := Ok;
    }

    /** The try block around the procedure, and its two catch clauses. */
    method RunProcedure(k: nat, b: Behaviour)
      requires Packed()
      modifies this
      ensures Packed() && SameChain() && Now() == Session.RunProcedure(old(Now()), k, b)
    {
      ActAll(b.actions);
      if !b.exit.Returns? {
        if k < |invocations| && invocations[k].stage.Held? {
          var _ := ReplyNow(k, ThrownReply(b.exit));
        }
      }
    }

    method ProcessCallResult(m: seq<Value>) returns (r: Outcome)
      requires Packed() && |m| > 0
      modifies this
      ensures Packed() && Result(Now(), r) == Session.ProcessResult(old(Now()), m)
      ensures SameChain()
    {
      if |m| != 3 && |m| != 4 && |m| != 5 { return Raised(ProtocolError); }
      if !m[1].UInt? { return Raised(ProtocolError); }
      if m[1].n !in calls { return Raised(ProtocolError); }
      if !m[2].Dict? { return Raised(ProtocolError); }
      if !TailTyped(m, 3) { return Raised(ProtocolError); }
      r := SetPromise(calls[m[1].n], ResultOf(TailArgs(m, 3), TailKw(m, 3)));
    }

    method ProcessSubscribed(m: seq<Value>) returns (r: Outcome)
      requires Packed() && |m| > 0
      modifies this
      ensures Packed() && Result(Now(), r) == Session.ProcessSubscribed(old(Now()), m)
      ensures SameChain()
    {
      if |m| != 3 { return Raised(ProtocolError); }
      if !m[1].UInt? { return Raised(ProtocolError); }
      if m[1].n !in subscribes { return Raised(ProtocolError); }
      if !m[2].UInt? { return Raised(ProtocolError); }
      var index := subscribes[m[1].n];
      var handler := if index < |requests| then requests[index].callable else 0;
      File(m[2].n, handler);
      r := SetPromise(index, Subscription(m[2].n));
      if r.Ok? {
        subscribes := subscribes - {m[1].n};
      }
    }

    method File(key: nat, handler: Handler)
      requires Packed()
      modifies this`handlers
      ensures Packed()
      ensures Now() == old(Now()).(routes := Routes(Insert(old(handlers), key, handler), old(procedures)))
    {
      handlers := Insert(handlers, key, handler);
    }

    method ProcessUnsubscribed(m: seq<Value>) returns (r: Outcome)
      requires Packed() && |m| > 0
      modifies this
      ensures Packed() && Result(Now(), r) == Session.ProcessUnsubscribed(old(Now()), m)
      ensures SameChain()
    {
      if |m| != 2 { return Raised(ProtocolError); }
      if !m[1].UInt? { return Raised(ProtocolError); }
      if m[1].n !in unsubscribes { return Raised(ProtocolError); }
      r := SetPromise(unsubscribes[m[1].n], Unsubscription);
      if r.Ok? {
        unsubscribes := unsubscribes - {m[1].n};
      }
    }

    method ProcessRegistered(m: seq<Value>) returns (r: Outcome)
      requires Packed() && |m| > 0
      modifies this
      ensures Packed() && Result(Now(), r) == Session.ProcessRegistered(old(Now()), m)
      ensures SameChain()
    {
      if |m| != 3 { return Raised(ProtocolError); }
      if !m[1].UInt? { return Raised(ProtocolError); }
      if m[1].n !in registers { return Raised(ProtocolError); }
      if !m[2].UInt? { return Raised(ProtocolError); }
      var index := registers[m[1].n];
      var procedure := if index < |requests| then requests[index].callable else 0;
      procedures := procedures[m[2].n := procedure];
      r := SetPromise(index, Registration(m[2].n));
    }

    /** One handler runs; whatever it does to the session, the multimap stays as it is. */
    method CallHandler(h: Handler, args: seq<Value>, kw: seq<Entry>, b: Behaviour)
      requires Packed()
      modifies this
      ensures Packed() && SameChain() && handlers == old(handlers)
      ensures Now() == Session.ActAll(Called(old(Now()), HandlerCall(h, args, kw)), b.actions)
    {
      NoteCall(HandlerCall(h, args, kw));
      Reentrancy.ActAllUndisturbed(Now(), b.actions);
      ActAll(b.actions);
    }

    ghost method NoteCall(c: HandlerCall)
      modifies this`called
      ensures Now() == Called(old(Now()), c)
    {
      called := called + [c];
    }

    /** The handler walk.  The iterators stay good because no handler can change the multimap. */
    method WalkHandlers(lo: nat, hi: nat, args: seq<Value>, kw: seq<Entry>, o: seq<Behaviour>)
      requires Packed() && lo <= hi <= |handlers|
      modifies this
      ensures Packed() && handlers == old(handlers)
      ensures SameChain() && Now() ==
                Session.CallHandlers(old(Now()), old(handlers)[lo..hi], args, kw, o, 0)
    {
      var itr := lo;
      while itr != hi
        invariant lo <= itr <= hi
        invariant Packed() && handlers == old(handlers) && SameChain()
        invariant Session.CallHandlers(Now(), handlers[itr..hi], args, kw, o, itr - lo)
                  == Session.CallHandlers(old(Now()), old(handlers)[lo..hi], args, kw, o, 0)
        decreases hi - itr
      {
        var b := BehaviourAt(o, itr - lo);
        assert handlers[itr..hi][1..] == handlers[itr + 1..hi];
        WalkOn(Now(), handlers[itr..hi], args, kw, o, itr - lo);
        CallHandler(handlers[itr].1, args, kw, b);
        if !b.exit.Returns? {
          return;
        }
        itr := itr + 1;
      }
    }

    method ProcessEvent(m: seq<Value>, o: seq<Behaviour>) returns (r: Outcome)
      requires Packed() && |m| > 0
      modifies this
      ensures Packed() && Result(Now(), r) == Session.ProcessEvent(old(Now()), m, o)
      ensures SameChain()
    {
      if |m| != 4 && |m| != 5 && |m| != 6 { return Raised(ProtocolError); }
      if !m[1].UInt? { return Raised(ProtocolError); }
      var lo, hi := LowerBound(handlers, m[1].n), UpperBound(handlers, m[1].n);
      if lo < hi {
        if !m[2].UInt? { return Raised(ProtocolError); }
        if !m[3].Dict? { return Raised(ProtocolError); }
        if !TailTyped(m, 4) { return Raised(ProtocolError); }
        WalkHandlers(lo, hi, TailArgs(m, 4), TailKw(m, 4), o);
      }
      r := Ok;
    }

    method GotMessage(v: Value, o: seq<Behaviour>) returns (r: Outcome)
      requires Packed()
      modifies this
      ensures Packed() && Result(Now(), r) == Session.GotMessage(old(Now()), v, o)
      ensures SameChain()
    {
      if !v.Array? { return Raised(ProtocolError); }
      var m := v.items;
      if |m| < 1 { return Raised(ProtocolError); }
      if !m[0].UInt? { return Raised(ProtocolError); }
      if m[0].n > INT_MAX { return Raised(TypeError); }
      var code := m[0].n;
      r := Ok;
      if IsUnexpected(code) { r := Raised(ProtocolError); }
      else if code == WELCOME { r := ProcessWelcome(m); }
      else if code == GOODBYE { r := ProcessGoodbye(m); }
      else if code == ERROR { r := ProcessError(m); }
      else if code == SUBSCRIBED { r := ProcessSubscribed(m); }
      else if code == UNSUBSCRIBED { r := ProcessUnsubscribed(m); }
      else if code == EVENT { r := ProcessEvent(m, o); }
      else if code == RESULT { r := ProcessCallResult(m); }
      else if code == REGISTERED { r := ProcessRegistered(m); }
      else if code == INVOCATION { r := ProcessInvocation(m, BehaviourAt(o, 0)); }
    }

    method Receive(v: Value)
      requires Packed()
      modifies this`trace
      ensures Packed() && Now() == Received(old(Now()), v)
    {
      trace := trace + [In(v)];
    }

    method Accept(v: Value)
      requires Packed()
      modifies this`accepted
      ensures Packed() && Now() == Accepted(old(Now()), v)
    {
      accepted := accepted + [v];
    }

    /** An exception leaves the io loop. */
    method End(e: Error) returns (r: Outcome)
      requires Packed()
      modifies this`live
      ensures Packed() && Now() == old(Now()).(live := false) && r == Raised(e)
    {
      live := false;
      r := Raised(e);
    }

    /** got_message, with its history kept. */
    method Deliver(v: Value, o: seq<Behaviour>) returns (r: Outcome)
      requires Packed()
      modifies this
      ensures Packed() && Result(Now(), r) == Session.Deliver(old(Now()), v, o)
      ensures SameChain()
    {
      Receive(v);
      r := GotMessage(v, o);
      if r.Ok? {
        Accept(v);
      } else {
        r := End(r.error);
      }
    }

    // -------------------------------------------------------------- the read chain

    method SendHandshake()
      requires Packed()
      modifies this`greeted, this`outstanding
      ensures Packed() && Linked() == Link.Start(old(Linked()))
    {
      greeted := greeted + 1;
      outstanding := outstanding + [HandshakeRead];
    }

    method ReceiveMessage()
      requires Packed()
      modifies this
      ensures Packed() && moves == old(moves)
      ensures Linked() == old(Linked()).(outstanding := old(outstanding) + [HeaderRead])
    {
      outstanding := outstanding + [HeaderRead];
    }

    method SetHandshake(ok: bool)
      requires Packed()
      modifies this
      ensures Packed() && moves == old(moves) && Linked() == Link.SetHandshake(old(Linked()), ok)
    {
      if handshake.Set? {
        live := false;
      } else {
        handshake := Set(ok);
      }
    }

    method GotHandshakeReply(c: Completion)
      requires Packed() && live && Fits(HandshakeRead, c)
      modifies this
      ensures Packed() && moves == old(moves) && Linked() == Link.GotHandshakeReply(old(Linked()), c)
    {
      if c.ReadError? {
        SetHandshake(false);
        return;
      }
      if c.octets[0] != 0x7F || c.octets[1] % 0x10 != 0x02 {
        SetHandshake(false);
        live := false;
        return;
      }
      var again := handshake.Set?;
      SetHandshake(true);
      if !again {
        ReceiveMessage();
      }
    }

    method HandleRxError(aborted: bool)
      requires Packed()
      modifies this
      ensures Packed() && moves == old(moves) && Linked() == Link.HandleRxError(old(Linked()), aborted)
    {
      if !aborted {
        var _ := Fail();
      }
    }

    /** handleRxError for a real error: leave, then stop, then tell the application. */
    method Fail() returns (r: Outcome)
      requires Packed()
      modifies this
      ensures Packed() && SameChain() && Result(Now(), r) == Fault(old(Now()))
    {
      if left.Set? {
        r := End(PromiseAlreadySet);
        return;
      }
      SetLeft(SOCKET_CLOSED);
      r := CallApi(ApiLeave(CLOSE_REALM));
      if r.Raised? {
        r := End(r.error);
        return;
      }
      r := CallApi(ApiStop);
      if r.Raised? {
        r := End(r.error);
        return;
      }
      Signal();
    }

    method Signal()
      requires Packed()
      modifies this`signals
      ensures Packed() && Now() == old(Now()).(signals := old(signals) + 1)
    {
      signals := signals + 1;
    }

    method GotMessageHeader(c: Completion)
      requires Packed() && Fits(HeaderRead, c)
      modifies this
      ensures Packed() && moves == old(moves) && Linked() == Link.GotMessageHeader(old(Linked()), c)
    {
      if c.GotOctets? {
        outstanding := outstanding + [BodyRead(F.LengthOf(c.octets))];
      } else {
        HandleRxError(c.aborted);
      }
    }

    /** Drains the unpacker: one message at a time, until no whole one is left or one throws. */
    method GotMessageBody(c: Completion)
      requires Packed() && !c.GotOctets?
      modifies this
      ensures Packed() && moves == old(moves) && Linked() == Link.GotMessageBody(old(Linked()), c)
    {
      if c.ReadError? {
        HandleRxError(c.aborted);
        return;
      }
      unpacker := unpacker + c.tokens;
      ghost var all := DrainInto(Session.Deliver, Now(), unpacker, c.code, 0);
      var i := 0;
      var next := Parse(unpacker);
      while next.Got?
        invariant Packed() && next == Parse(unpacker)
        invariant outstanding == old(outstanding) && handshake == old(handshake)
        invariant greeted == old(greeted) && moves == old(moves)
        invariant DrainInto(Session.Deliver, Now(), unpacker, c.code, i) == all
        decreases |unpacker|
      {
        unpacker := next.rest;
        var r := Deliver(next.value, CodeAt(c.code, i));
        if r.Raised? {
          return;
        }
        i := i + 1;
        next := Parse(unpacker);
      }
      if !stopped {
        ReceiveMessage();
      }
    }

    // -------------------------------------------------------------- from outside

    /** A living object is at the end of one run of the session machine. */
    lemma Reached() returns (run: seq<Label>)
      requires Valid() && live
      ensures Now() == Exec(run)
    {
      run := ConnectionRunIsSessionRun(moves);
    }

    /** So it keeps every invariant of runs. */
    lemma InvHolds()
      requires Valid() && live
      ensures Runs.Inv(Now())
    {
      var run := Reached();
      Runs.ExecInv(run);
    }

    lemma IdsHold()
      requires Valid() && live
      ensures Ids.IdsOk(Now())
    {
      InvHolds();
    }

    lemma RanHere(ticket: nat)
      requires Valid() && live && ticket in pending
      ensures Ran(Now(), ticket, Session.RunClosure(Now(), ticket))
    {
      var run := Reached();
      RanFacts(run, ticket);
    }

    /** Every future holds exactly what the accepted answers of its kind with its id say. */
    lemma FuturesAreAnswers(i: nat)
      requires Valid() && live && Ids.InRange(Now()) && i < |requests|
      ensures History.Answers(accepted, requests[i].kind, i + 1) == History.Settled(requests[i].promise)
    {
      var run := Reached();
      RequestTheorems.Correlation(run, i);
    }

    /** Nothing but the counter, the requests, the queue and the futures taken has changed. */
    twostate predicate OnlyPosted()
      reads this
    {
      unchanged(`outstanding, `handshake, `unpacker, `greeted) && PostedOnly(old(Now()), Now())
    }

    /** An id was taken that nothing had, by a request that now waits in the queue. */
    twostate predicate TookId(a: Api)
      requires RequestTheorems.Asking(a)
      reads this
    {
      Asked(old(Now()), Now(), a)
    }

    /** No id was taken; join(), leave() and stop() queue the closure with the realm or reason given. */
    twostate predicate OnlyQueued(a: Api)
      requires !RequestTheorems.Asking(a)
      reads this
    {
      GainsClosure(old(Now()), Now(), RequestTheorems.ClosureOf(a))
    }

    /** Any API call from any thread, up to its future. */
    method Take(a: Api) returns (r: Outcome)
      requires Valid() && live
      modifies this
      ensures Valid() && moves == old(moves) + [Other(Label.Take(a))] && OnlyPosted()
      ensures if RequestTheorems.Asking(a) then TookId(a) else OnlyQueued(a)
      ensures leaveTaken == (old(leaveTaken) || a.ApiLeave?) && stopTaken == (old(stopTaken) || a.ApiStop?)
      ensures r.Ok? <==> !(a.ApiLeave? && old(leaveTaken)) && !(a.ApiStop? && old(stopTaken))
    {
      IdsHold();
      TakeFacts(Now(), a);
      PlayTake(moves, a);
      r := MakeCall(a);
      moves := moves + [Other(Label.Take(a))];
    }

    method MakeCall(a: Api) returns (r: Outcome)
      requires Packed()
      modifies this
      ensures Packed() && SameChain() && Result(Now(), r) == Session.TakeFuture(Session.Prepare(old(Now()), a), a)
    {
      Prepare(a);
      r := TakeFuture(a);
    }

    method Subscribe(topic: string, handler: Handler)
      requires Valid() && live
      modifies this
      ensures Valid() && moves == old(moves) + [Other(Label.Take(ApiSubscribe(topic, handler)))]
      ensures OnlyPosted() && TookId(ApiSubscribe(topic, handler))
    {
      var _ := Take(ApiSubscribe(topic, handler));
    }

    method Unsubscribe(subscription: nat)
      requires Valid() && live
      modifies this
      ensures Valid() && moves == old(moves) + [Other(Label.Take(ApiUnsubscribe(subscription)))]
      ensures OnlyPosted() && TookId(ApiUnsubscribe(subscription))
    {
      var _ := Take(ApiUnsubscribe(subscription));
    }

    method Provide(name: string, procedure: Procedure, options: seq<Entry>)
      requires Valid() && live
      modifies this
      ensures Valid() && moves == old(moves) + [Other(Label.Take(ApiProvide(name, procedure, options)))]
      ensures OnlyPosted() && TookId(ApiProvide(name, procedure, options))
    {
      var _ := Take(ApiProvide(name, procedure, options));
    }

    method Publish(topic: string, payload: Payload)
      requires Valid() && live
      modifies this
      ensures Valid() && moves == old(moves) + [Other(Label.Take(ApiPublish(topic, payload)))]
      ensures OnlyPosted() && TookId(ApiPublish(topic, payload))
    {
      var _ := Take(ApiPublish(topic, payload));
    }

    method Call(name: string, payload: Payload)
      requires Valid() && live
      modifies this
      ensures Valid() && moves == old(moves) + [Other(Label.Take(ApiCall(name, payload)))]
      ensures OnlyPosted() && TookId(ApiCall(name, payload))
    {
      var _ := Take(ApiCall(name, payload));
    }

    /** The io thread gives a posted closure its turn. */
    method RunPosted(ticket: nat) returns (r: Outcome)
      requires Valid() && live && ticket in pending
      modifies this
      ensures Valid() && moves == old(moves) + [Other(Run(ticket))] && live
      ensures Ran(old(Now()), ticket, Result(Now(), r))
    {
      RanHere(ticket);
      Progress.ApiKeepsLive(Now(), Run(ticket));
      PlaySnoc(moves, Other(Run(ticket)));
      r := RunClosure(ticket);
      moves := moves + [Other(Run(ticket))];
    }

    /** result() or error() on an invocation, from any thread at any time. */
    method Reply(k: nat, reply: Reply) returns (r: Outcome)
      requires Valid() && live
      modifies this
      ensures Valid() && moves == old(moves) + [Other(SpendToken(k, reply))] && live
      ensures r.Ok? <==> k < |old(invocations)| && old(invocations)[k].stage.Held?
      ensures r.Raised? ==> Now() == old(Now())
      ensures r.Ok? ==> TookReply(old(Now()), Now(), k, reply)
    {
      Progress.ApiKeepsLive(Now(), SpendToken(k, reply));
      PlaySnoc(moves, Other(SpendToken(k, reply)));
      r := Spend(k, reply);
      moves := moves + [Other(SpendToken(k, reply))];
    }

    /** start(). */
    method Start()
      requires Valid() && live
      modifies this
      ensures Valid() && moves == old(moves) + [Begin] && Now() == old(Now())
      ensures greeted == old(greeted) + 1
      ensures greeted == 1 ==> outstanding == [HandshakeRead]
    {
      PlaySnoc(moves, Begin);
      if greeted == 0 { OneReadAtATime(moves); }
      SendHandshake();
      moves := moves + [Begin];
    }

    /** An outstanding read completes: its handler runs to the end. */
    method ReadCompletes(i: nat, c: Completion)
      requires Valid() && live && i < |outstanding| && Fits(outstanding[i], c)
      modifies this
      ensures Valid() && moves == old(moves) + [Complete(i, c)]
      ensures Completed(old(Linked()), i, c, Linked())
    {
      PlaySnoc(moves, Complete(i, c));
      CompletionMeans(moves, i, c);
      Dispatch(i, c);
      moves := moves + [Complete(i, c)];
    }

    /** The io_service calls the handler bound to a read. */
    method Dispatch(i: nat, c: Completion)
      requires Packed() && live && i < |outstanding| && Fits(outstanding[i], c)
      modifies this
      ensures Packed() && moves == old(moves) && Linked() == Advance(old(Linked()), Complete(i, c))
    {
      var read := outstanding[i];
      outstanding := outstanding[..i] + outstanding[i + 1..];
      match read {
        case HandshakeRead => GotHandshakeReply(c);
        case HeaderRead => GotMessageHeader(c);
        case BodyRead(_) => GotMessageBody(c);
      }
    }
  }

  /** Nothing but the counter, the requests, the queue and the futures taken differs. */
  predicate PostedOnly(s: State, t: State) {
    t == s.(book := t.book, queue := t.queue,
            flags := s.flags.(leaveTaken := t.flags.leaveTaken, stopTaken := t.flags.stopTaken))
  }

  /** Invocation `k` has this reply, the YIELD or the ERROR with its id and the very arguments waits in the
      queue, and nothing has been sent and nothing else has changed. */
  ghost predicate TookReply(s: State, t: State, k: nat, reply: Reply)
    requires k < |s.invocations|
  {
    var m := match reply
             case ResultReply(payload) => Yield(s.invocations[k].id, payload)
             case ErrorWith(uri, payload) => ErrorReply(s.invocations[k].id, uri, payload);
    t == s.(invocations := s.invocations[k := s.invocations[k].(stage := Stage.Queued(m), given := Some(reply))],
            queue := Queue(s.queue.pending[s.queue.posted := ReplyClosure(k, m)], s.queue.posted + 1))
  }

  /** No closure, map or message has this id. */
  ghost predicate Unused(s: State, id: nat) {
    && (forall t :: t in s.queue.pending && s.queue.pending[t].AskClosure? ==> RequestId(s.queue.pending[t].m) != id)
    && (forall k :: id !in Table(s, k))
    && (forall j :: 0 <= j < |s.output.sent| ==> RequestId(s.output.sent[j]) != id)
  }

  /** The user's callable that goes with a request. */
  function CallableOf(a: Api): nat {
    match a
    case ApiSubscribe(_, handler) => handler
    case ApiProvide(_, procedure, _) => procedure
    case _ => 0
  }

  /** There is one more request, with its future open, the arguments of the call in its message, and the
      user's callable; it waits in the queue; and, while the counter has not wrapped, its id is one that
      nothing had. */
  ghost predicate Asked(s: State, t: State, a: Api)
    requires RequestTheorems.Asking(a)
  {
    var n, m := |s.book.requests|, RequestTheorems.MessageOf(a, NextId(s));
    && |t.book.requests| == n + 1 && t.book.requests[..n] == s.book.requests
    && t.book.requests[n].callable == CallableOf(a) && Ids.Asks(t.book.requests[n].kind, m)
    && t.book.requests[n].asked == m && t.book.requests[n].promise.Unset?
    && t.queue.pending == s.queue.pending[s.queue.posted := AskClosure(n, m)]
    && s.queue.posted !in s.queue.pending
    && t.book.lastId == (s.book.lastId + 1) % 0x1_0000_0000_0000_0000
    && (n + 1 < ID_RANGE ==> NextId(s) == n + 1 == t.book.lastId && Unused(s, n + 1))
  }

  /** The queue has one more closure, under a ticket that was free, and the book is as it was. */
  ghost predicate GainsClosure(s: State, t: State, c: Closure) {
    && t.book == s.book && s.queue.posted !in s.queue.pending
    && t.queue == Queue(s.queue.pending[s.queue.posted := c], s.queue.posted + 1)
  }

  lemma TakeFacts(s: State, a: Api)
    requires Ids.IdsOk(s)
    ensures var r := Session.TakeFuture(Session.Prepare(s, a), a);
            && PostedOnly(s, r.state)
            && r.state.flags.leaveTaken == (s.flags.leaveTaken || a.ApiLeave?)
            && r.state.flags.stopTaken == (s.flags.stopTaken || a.ApiStop?)
            && (if RequestTheorems.Asking(a) then Asked(s, r.state, a)
                else GainsClosure(s, r.state, RequestTheorems.ClosureOf(a)))
            && (r.outcome.Ok? <==> !(a.ApiLeave? && s.flags.leaveTaken) && !(a.ApiStop? && s.flags.stopTaken))
  {
    FutureTaken(s, a);
    if RequestTheorems.Asking(a) {
      PrepareAsks(s, a);
      assert Session.TakeFuture(Session.Prepare(s, a), a) == Good(Session.Prepare(s, a));
    }
  }

  lemma FutureTaken(s: State, a: Api)
    ensures var r := Session.TakeFuture(Session.Prepare(s, a), a);
            && PostedOnly(s, r.state)
            && r.state.flags.leaveTaken == (s.flags.leaveTaken || a.ApiLeave?)
            && r.state.flags.stopTaken == (s.flags.stopTaken || a.ApiStop?)
            && (!RequestTheorems.Asking(a) ==>
                  && r.state.book == s.book
                  && r.state.queue == Queue(s.queue.pending[s.queue.posted := RequestTheorems.ClosureOf(a)],
                                            s.queue.posted + 1))
            && (r.outcome.Ok? <==> !(a.ApiLeave? && s.flags.leaveTaken) && !(a.ApiStop? && s.flags.stopTaken))
  {
  }

  lemma PrepareAsks(s: State, a: Api)
    requires Ids.IdsOk(s) && RequestTheorems.Asking(a)
    ensures Asked(s, Session.Prepare(s, a), a)
  {
    var n, m, t := |s.book.requests|, RequestTheorems.MessageOf(a, NextId(s)), Session.Prepare(s, a);
    NextIsUnused(s, a);
    assert t.book.requests[..n] == s.book.requests;
    assert t.book.requests[n].asked == m && Ids.Asks(t.book.requests[n].kind, m);
  }

  lemma NextIsUnused(s: State, a: Api)
    requires Ids.IdsOk(s) && RequestTheorems.Asking(a)
    ensures |s.book.requests| + 1 < ID_RANGE ==> NextId(s) == |s.book.requests| + 1 && Unused(s, |s.book.requests| + 1)
  {
    var n := |s.book.requests|;
    if n + 1 < ID_RANGE {
      assert s.book.lastId == n;
      forall t | t in s.queue.pending && s.queue.pending[t].AskClosure?
        ensures RequestId(s.queue.pending[t].m) <= n
      {
        assert Ids.AskedOk(s.book.requests, s.queue.pending[t].index);
      }
      forall k ensures n + 1 !in Table(s, k) { assert Ids.TableOk(s, k); }
      forall j | 0 <= j < |s.output.sent| ensures RequestId(s.output.sent[j]) != n + 1 {
        Ids.RequestIdOf(s.output.sent[j]);
      }
    }
  }

  /** A closure that had its turn is off the queue.  In a session not yet stopped it did its work if and
      only if the messages exchanged so far allow it, and then its message is the one that went out, a
      GOODBYE has closed the session, and a stop has stopped it and resolved the future of stop();
      refused, it changed nothing.  In a stopped session nothing went out. */
  ghost predicate Ran(s: State, ticket: nat, r: Result)
    requires ticket in s.queue.pending
  {
    var c := s.queue.pending[ticket];
    && r.state.queue.pending == s.queue.pending - {ticket}
    && (!s.flags.stopped ==>
          && (r.outcome.Ok? <==> Acceptance.Allows(s.output.trace, c))
          && (r.outcome.Raised? ==> r.state == Ids.Removed(s, ticket))
          && (r.outcome.Ok? ==>
                && r.state.output.sent == (if c.StopClosure? then s.output.sent else s.output.sent + [c.m])
                && r.state.flags == Acceptance.FlagsAfter(s.flags, c)))
    && (s.flags.stopped ==> r.state.output.sent == s.output.sent)
  }

  lemma {:induction false} RanFacts(run: seq<Label>, ticket: nat)
    requires Exec(run).live && ticket in Exec(run).queue.pending
    ensures Ran(Exec(run), ticket, RunClosure(Exec(run), ticket))
  {
    var s := Exec(run);
    if !s.flags.stopped { Acceptance.ClosureRunsIff(run, ticket); }
    Progress.StepOnward(s, Run(ticket));
    BodyKeepsQueue(Ids.Removed(s, ticket), s.queue.pending[ticket]);
  }

  /** The handler walk, one handler on. */
  lemma WalkOn(s: State, range: seq<(nat, Handler)>, args: seq<Value>, kw: seq<Entry>, o: seq<Behaviour>, i: nat)
    requires range != []
    ensures var b := BehaviourAt(o, i);
            var t := Session.ActAll(Called(s, HandlerCall(range[0].1, args, kw)), b.actions);
            CallHandlers(s, range, args, kw, o, i)
            == if b.exit.Returns? then CallHandlers(t, range[1..], args, kw, o, i + 1) else t
  {
  }

  lemma PlayTake(moves: seq<Move>, a: Api)
    requires Play(moves).session.live
    ensures Play(moves + [Other(Label.Take(a))])
            == Play(moves).(session := Session.TakeFuture(Session.Prepare(Play(moves).session, a), a).state)
  {
    PlaySnoc(moves, Other(Label.Take(a)));
  }

  lemma PlaySnoc(moves: seq<Move>, m: Move)
    ensures Play(moves + [m]) == Advance(Play(moves), m)
  {
    assert (moves + [m])[..|moves|] == moves;
  }

  lemma BodyKeepsQueue(s: State, c: Closure)
    ensures RunBody(s, c).state.queue == s.queue
  {
    if c.AskClosure? { AskKeepsQueue(s, c.index, c.m); }
  }

  lemma AskKeepsQueue(s: State, index: nat, m: WireMsg)
    ensures RunAsk(s, index, m).state.queue == s.queue
  {
  }

  /** What any completed read leaves: at most one read outstanding after one start(), nothing sent or
      accepted undone, and nothing sent once stopped; an error does exactly what it should. */
  ghost predicate Completed(c: Connection, i: nat, r: Completion, d: Connection)
    requires i < |c.outstanding|
  {
    && d.greeted == c.greeted && (d.greeted == 1 ==> |d.outstanding| <= 1)
    && c.session.output.sent <= d.session.output.sent && c.session.past.accepted <= d.session.past.accepted
    && (c.session.flags.stopped ==> d.session.flags.stopped && d.session.output.sent == c.session.output.sent)
    && (r.ReadError? && !c.outstanding[i].HandshakeRead? ==> ReadEnded(c, i, r.aborted, d))
  }

  lemma CompletionMeans(moves: seq<Move>, i: nat, r: Completion)
    requires Play(moves).session.live && i < |Play(moves).outstanding| && Fits(Play(moves).outstanding[i], r)
    ensures Completed(Play(moves), i, r, Play(moves + [Complete(i, r)]))
  {
    var c := Play(moves);
    PlaySnoc(moves, Complete(i, r));
    CompletionOnward(c, i, r);
    if c.greeted == 1 { OneReadAtATime(moves + [Complete(i, r)]); }
    if r.ReadError? && !c.outstanding[i].HandshakeRead? { ReadErrorMeans(moves, i, r.aborted); }
  }

  lemma CompletionOnward(c: Connection, i: nat, r: Completion)
    requires c.session.live
    ensures var d := Advance(c, Complete(i, r)); Progress.Onward(c.session, d.session) && d.greeted == c.greeted
  {
    if i < |c.outstanding| && Fits(c.outstanding[i], r) {
      var d := c.(outstanding := c.outstanding[..i] + c.outstanding[i + 1..]);
      match c.outstanding[i] {
        case HandshakeRead => HandshakeOnward(d, r);
        case HeaderRead => HeaderOnward(d, r);
        case BodyRead(_) => BodyOnward(d, r);
      }
    }
  }

  lemma HandshakeOnward(c: Connection, r: Completion)
    requires Fits(HandshakeRead, r)
    ensures var d := Link.GotHandshakeReply(c, r); Progress.Onward(c.session, d.session) && d.greeted == c.greeted
  {
  }

  lemma HeaderOnward(c: Connection, r: Completion)
    requires Fits(HeaderRead, r)
    ensures var d := Link.GotMessageHeader(c, r); Progress.Onward(c.session, d.session) && d.greeted == c.greeted
  {
    if r.ReadError? { Progress.FaultOnward(c.session); }
  }

  lemma BodyOnward(c: Connection, r: Completion)
    requires !r.GotOctets?
    ensures var d := Link.GotMessageBody(c, r); Progress.Onward(c.session, d.session) && d.greeted == c.greeted
  {
    if r.ReadError? {
      Progress.FaultOnward(c.session);
    } else {
      DrainOnward(c.session, c.unpacker + r.tokens, r.code, 0);
    }
  }

  lemma {:induction false} DrainOnward(s: State, ts: seq<Token>, code: seq<seq<Behaviour>>, i: nat)
    ensures Progress.Onward(s, DrainInto(Session.Deliver, s, ts, code, i).result.state)
    decreases |ts|
  {
    var p := Parse(ts);
    if p.Got? {
      var r := Session.Deliver(s, p.value, CodeAt(code, i));
      Progress.DeliverOnward(s, p.value, CodeAt(code, i));
      if r.outcome.Ok? {
        DrainOnward(r.state, p.rest, code, i + 1);
        Progress.Transitive(s, r.state, DrainInto(Session.Deliver, s, ts, code, i).result.state);
      }
    }
  }
}
