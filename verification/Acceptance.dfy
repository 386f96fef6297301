/** Which router messages a session accepts, told from what it has sent and received, and what
    accepting them does. */
module Acceptance {
  import opened Values
  import opened Wire
  import opened Session
  import opened Lifecycle
  import Reentrancy
  import Ids
  import HandlerIndex
  import History
  import MessageTheorems
  import Progress
  import RequestTheorems
  import Runs
  import SessionTheorems

  // ---------------------------------------------------------------- answers

  /** A RESULT, SUBSCRIBED, UNSUBSCRIBED or REGISTERED, or an ERROR for a CALL. */
  predicate IsAnswer(v: Value) {
    Is(v, RESULT) || Is(v, SUBSCRIBED) || Is(v, UNSUBSCRIBED) || Is(v, REGISTERED)
    || (Is(v, ERROR) && |v.items| >= 2 && v.items[1] == UInt(CALL))
  }

  /** With the length and the types of the WAMP layout. */
  predicate ProperAnswer(v: Value) {
    && IsAnswer(v) && History.Reads(v).Some?
    && (Is(v, RESULT) ==> 3 <= |v.items| <= 5 && v.items[2].Dict?)
    && (Is(v, ERROR) ==> |v.items| <= 7 && v.items[3].Dict?)
    && (Is(v, UNSUBSCRIBED) ==> |v.items| == 2)
  }

  /** A request that was sent and has not been answered. */
  ghost predicate Awaited(s: State, k: Kind, id: nat) {
    && 1 <= id <= |s.book.requests| && s.book.requests[id - 1].promise.Unset?
    && Ids.HasSent(s.output.sent, k, id)
  }

  predicate InTable(s: State, k: Kind, id: nat) {
    id in Table(s, k) && 1 <= id <= |s.book.requests| && s.book.requests[id - 1].promise.Unset?
  }

  /** What the tables say of an unanswered request is what the wire says. */
  lemma TableIsWire(s: State, k: Kind, id: nat)
    requires Ids.IdsOk(s) && Ids.InRange(s) && !s.flags.stopped && k != PublishKind
    ensures InTable(s, k, id) <==> Awaited(s, k, id)
  {
    if Awaited(s, k, id) {
      var j :| 0 <= j < |s.output.sent| && Ids.Asks(k, s.output.sent[j]) && RequestId(s.output.sent[j]) == id;
      Ids.RequestIdOf(s.output.sent[j]);
      assert Ids.Recorded(s, s.output.sent[j]);
    }
  }

  /** Exactly one future is settled, with this answer. */
  predicate SettledAs(s: State, t: State, a: History.Addressed) {
    && 1 <= a.id <= |s.book.requests|
    && t.book.requests == s.book.requests[a.id - 1 := s.book.requests[a.id - 1].(promise := Set(a.answer))]
  }

  predicate AnswerFacts(s: State, v: Value, r: Result) {
    && (r.outcome.Ok? <==>
          ProperAnswer(v) && InTable(s, History.Reads(v).value.kind, History.Reads(v).value.id))
    && (r.outcome.Ok? ==> SettledAs(s, r.state, History.Reads(v).value))
    && (ProperAnswer(v) && r.outcome.Raised? ==>
          var a := History.Reads(v).value;
          r.outcome.error == if a.id in Table(s, a.kind) then PromiseAlreadySet else ProtocolError)
  }

  lemma SetPromiseFacts(s: State, k: Kind, id: nat, x: Answer)
    requires Ids.TableOk(s, k) && id in Table(s, k)
    ensures var r := SetPromise(s, Table(s, k)[id], x);
            && (r.outcome.Ok? <==> InTable(s, k, id))
            && (r.outcome.Ok? ==> SettledAs(s, r.state, History.Addressed(k, id, x)))
            && (r.outcome.Raised? ==> r.outcome.error == PromiseAlreadySet)
  {
  }

  lemma ResultFacts(s: State, v: Value)
    requires Ids.TableOk(s, CallKind) && Is(v, RESULT)
    ensures AnswerFacts(s, v, ProcessResult(s, v.items))
  {
    if ProperAnswer(v) && v.items[1].n in s.tables.calls {
      SetPromiseFacts(s, CallKind, v.items[1].n, History.Reads(v).value.answer);
    }
  }

  lemma ErrorFacts(s: State, v: Value)
    requires Ids.TableOk(s, CallKind) && Is(v, ERROR) && IsAnswer(v)
    ensures AnswerFacts(s, v, ProcessError(s, v.items))
  {
    if ProperAnswer(v) && v.items[2].n in s.tables.calls {
      SetPromiseFacts(s, CallKind, v.items[2].n, History.Reads(v).value.answer);
    }
  }

  lemma SubscribedFacts(s: State, v: Value)
    requires Ids.TableOk(s, SubscribeKind) && Is(v, SUBSCRIBED)
    ensures AnswerFacts(s, v, ProcessSubscribed(s, v.items))
  {
    if History.Subscribes(s, v.items) {
      History.SubscribedSettles(s, v);
      assert v.items[1].n in Table(s, SubscribeKind);
    }
  }

  lemma UnsubscribedFacts(s: State, v: Value)
    requires Ids.TableOk(s, UnsubscribeKind) && Is(v, UNSUBSCRIBED)
    ensures AnswerFacts(s, v, ProcessUnsubscribed(s, v.items))
  {
    if ProperAnswer(v) && v.items[1].n in s.tables.unsubscribes {
      SetPromiseFacts(s, UnsubscribeKind, v.items[1].n, Unsubscription);
    }
  }

  lemma RegisteredFacts(s: State, v: Value)
    requires Ids.TableOk(s, RegisterKind) && Is(v, REGISTERED)
    ensures AnswerFacts(s, v, ProcessRegistered(s, v.items))
  {
    var m := v.items;
    if ProperAnswer(v) && m[1].n in s.tables.registers {
      assert m[1].n in Table(s, RegisterKind);
      var p := s.book.requests[m[1].n - 1].callable;
      var s1 := s.(routes := s.routes.(procedures := s.routes.procedures[m[2].n := p]));
      assert Ids.TableOk(s1, RegisterKind);
      SetPromiseFacts(s1, RegisterKind, m[1].n, Registration(m[2].n));
    }
  }

  lemma AnyAnswer(s: State, v: Value, o: seq<Behaviour>)
    requires (forall k :: Ids.TableOk(s, k)) && IsAnswer(v)
    ensures AnswerFacts(s, v, GotMessage(s, v, o)) && Runs.Framed(s, GotMessage(s, v, o).state)
  {
    History.Dispatched(s, v, o);
    Runs.AnswerFrame(s, v, o);
    if Is(v, RESULT) { ResultFacts(s, v); }
    else if Is(v, ERROR) { ErrorFacts(s, v); }
    else if Is(v, SUBSCRIBED) { SubscribedFacts(s, v); }
    else if Is(v, UNSUBSCRIBED) { UnsubscribedFacts(s, v); }
    else { RegisteredFacts(s, v); }
  }

  /** In every run, a session that is not stopped accepts an answer if and only if it is well formed
      and a request of its kind with its id went out on the wire and has had no answer; it then
      settles that request's future with what the message says, and no other, and sends nothing. */
  lemma {:induction false} AnswerAcceptedIff(run: seq<Label>, v: Value, o: seq<Behaviour>)
    requires Ids.InRange(Exec(run)) && Exec(run).live && !Exec(run).flags.stopped && IsAnswer(v)
    ensures var s, r := Exec(run), Deliver(Exec(run), v, o);
            && (r.outcome.Ok? <==>
                  ProperAnswer(v) && Awaited(s, History.Reads(v).value.kind, History.Reads(v).value.id))
            && (r.outcome.Ok? ==> SettledAs(s, r.state, History.Reads(v).value))
            && r.state.output.sent == s.output.sent && r.state.flags == s.flags
  {
    Runs.ExecIds(run);
    AnswerDelivered(Exec(run), v, o);
  }

  lemma AnswerDelivered(s: State, v: Value, o: seq<Behaviour>)
    requires Ids.IdsOk(s) && Ids.InRange(s) && s.live && !s.flags.stopped && IsAnswer(v)
    ensures var r := Deliver(s, v, o);
            && (r.outcome.Ok? <==>
                  ProperAnswer(v) && Awaited(s, History.Reads(v).value.kind, History.Reads(v).value.id))
            && (r.outcome.Ok? ==> SettledAs(s, r.state, History.Reads(v).value))
            && r.state.output.sent == s.output.sent && r.state.flags == s.flags
  {
    var u := Received(s, v);
    Ids.SameKeeps(s, u);
    AnyAnswer(u, v, o);
    if ProperAnswer(v) {
      TableIsWire(s, History.Reads(v).value.kind, History.Reads(v).value.id);
      assert forall k :: Table(u, k) == Table(s, k);
    }
  }

  /** In every run of a session not stopped, an answer that nothing waits for is turned down: a second one
      to a CALL or a REGISTER, which stay in their maps, because the future is ready already, and every
      other one because no such request is pending. */
  lemma {:induction false} RefusedAnswerFails(run: seq<Label>, v: Value, o: seq<Behaviour>)
    requires Ids.InRange(Exec(run)) && Exec(run).live && !Exec(run).flags.stopped && ProperAnswer(v)
    requires !Awaited(Exec(run), History.Reads(v).value.kind, History.Reads(v).value.id)
    ensures var s, a := Exec(run), History.Reads(v).value;
            var again := Ids.HasSent(s.output.sent, a.kind, a.id) && (a.kind.CallKind? || a.kind.RegisterKind?);
            Deliver(s, v, o).outcome == Raised(if again then PromiseAlreadySet else ProtocolError)
  {
    Runs.ExecIds(run);
    RefusedDelivered(Exec(run), v, o);
  }

  lemma RefusedDelivered(s: State, v: Value, o: seq<Behaviour>)
    requires Ids.IdsOk(s) && Ids.InRange(s) && s.live && !s.flags.stopped && ProperAnswer(v)
    requires !Awaited(s, History.Reads(v).value.kind, History.Reads(v).value.id)
    ensures var a := History.Reads(v).value;
            var again := Ids.HasSent(s.output.sent, a.kind, a.id) && (a.kind.CallKind? || a.kind.RegisterKind?);
            Deliver(s, v, o).outcome == Raised(if again then PromiseAlreadySet else ProtocolError)
  {
    var u, a := Received(s, v), History.Reads(v).value;
    AnswerDelivered(s, v, o);
    Ids.SameKeeps(s, u);
    AnyAnswer(u, v, o);
    assert forall k :: Table(u, k) == Table(s, k);
    StillFiled(s, a.kind, a.id);
  }

  /** CALL and REGISTER stay in their maps when they have been answered, the others do not. */
  lemma StillFiled(s: State, k: Kind, id: nat)
    requires Ids.IdsOk(s) && Ids.InRange(s) && !s.flags.stopped && !k.PublishKind? && !Awaited(s, k, id)
    ensures id in Table(s, k) <==> Ids.HasSent(s.output.sent, k, id) && (k.CallKind? || k.RegisterKind?)
  {
    assert Ids.TableOk(s, k);
    if Ids.HasSent(s.output.sent, k, id) {
      var j :| 0 <= j < |s.output.sent| && Ids.Asks(k, s.output.sent[j]) && RequestId(s.output.sent[j]) == id;
      Ids.RequestIdOf(s.output.sent[j]);
      assert Ids.Recorded(s, s.output.sent[j]);
      assert Ids.Asked(s.book.requests, s.queue, s.output.sent[j]);
    }
  }

  /** In every state, an ERROR that is for no CALL is accepted if and only if it has its proper length and
      types and names SUBSCRIBE, UNSUBSCRIBE, REGISTER, UNREGISTER or PUBLISH; it then does nothing. */
  lemma OtherErrorsIff(s: State, v: Value, o: seq<Behaviour>)
    requires Is(v, ERROR) && !(|v.items| >= 2 && v.items[1] == UInt(48))
    ensures var r, m := Deliver(s, v, o), v.items;
            && (r.outcome.Ok? <==>
                  && 5 <= |m| <= 7 && m[1].UInt? && m[1].n in {16, 32, 34, 64, 66}
                  && m[2].UInt? && m[3].Dict? && m[4].Str?
                  && (|m| > 5 ==> m[5].Array?) && (|m| > 6 ==> m[6].Dict?))
            && (r.outcome.Ok? ==> r.state == Accepted(Received(s, v), v))
  {
    History.Dispatched(Received(s, v), v, o);
  }

  // ---------------------------------------------------------------- invocations

  predicate ProperInvocation(v: Value) {
    && Is(v, INVOCATION) && 4 <= |v.items| <= 6
    && v.items[1].UInt? && v.items[2].UInt? && v.items[3].Dict? && TailTyped(v.items, 4)
  }

  /** In every run, an INVOCATION is accepted if and only if it is well formed and some REGISTERED
      accepted before named its registration id; it then becomes one new invocation object, with the
      message's id and arguments and the procedure of the latest such REGISTERED. */
  lemma {:induction false} InvocationAcceptedIff(run: seq<Label>, v: Value, o: seq<Behaviour>)
    requires Ids.InRange(Exec(run)) && Exec(run).live && Is(v, INVOCATION)
    ensures var s, r := Exec(run), Deliver(Exec(run), v, o);
            var known := History.Registered(s.past.accepted, s.book.requests);
            && (r.outcome.Ok? <==> ProperInvocation(v) && v.items[2].n in known)
            && (r.outcome.Ok? ==>
                  && |r.state.invocations| == |s.invocations| + 1
                  && var inv := r.state.invocations[|s.invocations|];
                     History.Describes(inv, v) && inv.procedure == known[v.items[2].n])
            && (r.outcome.Raised? ==> r.state.invocations == s.invocations)
  {
    Runs.ExecHistory(run);
    InvocationDelivered(Exec(run), v, o);
  }

  lemma InvocationDelivered(s: State, v: Value, o: seq<Behaviour>)
    requires Is(v, INVOCATION)
    ensures var r := Deliver(s, v, o);
            && (r.outcome.Ok? <==> ProperInvocation(v) && v.items[2].n in s.routes.procedures)
            && (r.outcome.Ok? ==>
                  && |r.state.invocations| == |s.invocations| + 1
                  && var inv := r.state.invocations[|s.invocations|];
                     History.Describes(inv, v) && inv.procedure == s.routes.procedures[v.items[2].n])
            && (r.outcome.Raised? ==> r.state.invocations == s.invocations)
  {
    var u, b := Received(s, v), BehaviourAt(o, 0);
    History.Dispatched(u, v, o);
    if Invokes(u, v.items) {
      var s1 := Begun(u, InvocationOf(u, v.items));
      Reentrancy.RunProcedureUndisturbed(s1, |s.invocations|, b);
      var t := Deliver(s, v, o).state;
      assert Reentrancy.SameInvocation(s1.invocations[|s.invocations|], t.invocations[|s.invocations|]);
    }
  }

  // ---------------------------------------------------------------- events

  /** In every run, an EVENT for a subscription id that no accepted SUBSCRIBED has named needs only
      its length and that id to be right, and does nothing at all; any other must be well formed. */
  lemma {:induction false} EventAcceptedIff(run: seq<Label>, v: Value, o: seq<Behaviour>)
    requires Ids.InRange(Exec(run)) && Is(v, EVENT)
    ensures var s, r := Exec(run), Deliver(Exec(run), v, o);
            var known := History.Bindings(s.past.accepted, s.book.requests);
            && (r.outcome.Ok? <==>
                  && 4 <= |v.items| <= 6 && v.items[1].UInt?
                  && (MessageTheorems.WellTypedEvent(v) || HandlerIndex.For(known, v.items[1].n) == []))
            && (r.outcome.Ok? && HandlerIndex.For(known, v.items[1].n) == [] ==>
                  r.state == Accepted(Received(s, v), v))
  {
    Runs.ExecHistory(run);
    EventDelivered(Exec(run), v, o);
  }

  lemma EventDelivered(s: State, v: Value, o: seq<Behaviour>)
    requires History.HistoryOk(s) && Ids.InRange(s) && Is(v, EVENT)
    ensures var r := Deliver(s, v, o);
            var known := History.Bindings(s.past.accepted, s.book.requests);
            && (r.outcome.Ok? <==>
                  && 4 <= |v.items| <= 6 && v.items[1].UInt?
                  && (MessageTheorems.WellTypedEvent(v) || HandlerIndex.For(known, v.items[1].n) == []))
            && (r.outcome.Ok? && HandlerIndex.For(known, v.items[1].n) == [] ==>
                  r.state == Accepted(Received(s, v), v))
  {
    var u, hs := Received(s, v), s.routes.handlers;
    History.Dispatched(u, v, o);
    if |v.items| >= 2 && v.items[1].UInt? {
      var key := v.items[1].n;
      var lo, hi := LowerBound(hs, key), UpperBound(hs, key);
      assert HandlerIndex.For(hs, key) == HandlerIndex.For(History.Bindings(s.past.accepted, s.book.requests), key);
      HandlerIndex.RangeIsFor(hs, key);
      MessageTheorems.NamesLength(hs[lo..hi]);
    }
  }

  // ---------------------------------------------------------------- WELCOME

  /** In every run, a WELCOME is accepted if and only if it carries an id and is the first; the session
      then has that id, and so has the future of join(). */
  lemma {:induction false} WelcomeAcceptedIff(run: seq<Label>, v: Value, o: seq<Behaviour>)
    requires Exec(run).live && Is(v, WELCOME)
    ensures var s, r := Exec(run), Deliver(Exec(run), v, o);
            && (r.outcome.Ok? <==>
                  |v.items| >= 2 && v.items[1].UInt?
                  && forall w :: 0 <= w < |s.output.trace| ==> !IsWelcome(s.output.trace[w]))
            && (r.outcome.Ok? ==>
                  r.state.flags.sessionId == v.items[1].n && r.state.flags.joined == Set(v.items[1].n))
  {
    var s := Exec(run);
    Runs.ExecLife(run);
    SessionTheorems.WelcomesMean(s.output.trace);
    History.Dispatched(Received(s, v), v, o);
    assert SessionTheorems.WelcomeBefore(s.output.trace, |s.output.trace|)
           <==> exists w :: 0 <= w < |s.output.trace| && IsWelcome(s.output.trace[w]);
  }

  // ---------------------------------------------------------------- GOODBYE

  /** In every run, a GOODBYE is accepted if and only if it carries a reason and the leave promise is open;
      the future of leave() then holds that reason, the session is closed, and no other flag changes. */
  lemma {:induction false} GoodbyeAcceptedIff(run: seq<Label>, v: Value, o: seq<Behaviour>)
    requires Exec(run).live && Is(v, GOODBYE)
    ensures var s, r := Exec(run), Deliver(Exec(run), v, o);
            && (r.outcome.Ok? <==>
                  |v.items| >= 3 && (v.items[2].Str? || v.items[2].Bin?) && s.flags.left.Unset?)
            && (r.outcome.Ok? ==>
                  var reason := if v.items[2].Str? then v.items[2].s else v.items[2].octets;
                  r.state.flags == s.flags.(sessionId := 0, left := Set(reason)))
  {
    GoodbyeDelivered(Exec(run), v, o);
  }

  lemma GoodbyeDelivered(s: State, v: Value, o: seq<Behaviour>)
    requires Is(v, GOODBYE)
    ensures var r := Deliver(s, v, o);
            && (r.outcome.Ok? <==>
                  |v.items| >= 3 && (v.items[2].Str? || v.items[2].Bin?) && s.flags.left.Unset?)
            && (r.outcome.Ok? ==>
                  var reason := if v.items[2].Str? then v.items[2].s else v.items[2].octets;
                  r.state.flags == s.flags.(sessionId := 0, left := Set(reason)))
  {
    History.Dispatched(Received(s, v), v, o);
  }

  // ---------------------------------------------------------------- closures

  /** The flags after a closure that was not refused. */
  function FlagsAfter(f: Flags, c: Closure): Flags {
    match c
    case LeaveClosure(_) => f.(goodbyeSent := true, sessionId := 0)
    case StopClosure => f.(stopped := true, halted := Set(()))
    case _ => f
  }

  /** What decides whether a posted closure does anything. */
  predicate Allows(t: seq<Event>, c: Closure) {
    match c
    case AskClosure(_, _) => Open(t)
    case LeaveClosure(_) => Open(t)
    case JoinClosure(_) => !Open(t)
    case StopClosure => !Open(t)
    case ReplyClosure(_, _) => true
  }

  /** In every run of a session not yet stopped, whenever a posted closure gets its turn: a request or
      a GOODBYE goes out exactly when a WELCOME has opened the session and nothing has ended it, HELLO
      and the stop exactly when not, a reply always.  A closure that is refused leaves the session as
      it was, except that it is off the queue; one that is not puts its own message on the wire and no
      other.  A GOODBYE closes the session, a stop stops it and resolves the future of stop(), and no
      other closure changes a flag. */
  lemma {:induction false} ClosureRunsIff(run: seq<Label>, ticket: nat)
    requires Exec(run).live && !Exec(run).flags.stopped && ticket in Exec(run).queue.pending
    ensures var s, r := Exec(run), RunClosure(Exec(run), ticket);
            var c := s.queue.pending[ticket];
            && (r.outcome.Ok? <==> Allows(s.output.trace, c))
            && (r.outcome.Raised? ==> r.state == Ids.Removed(s, ticket))
            && (r.outcome.Ok? ==>
                  r.state.output.sent == if c.StopClosure? then s.output.sent else s.output.sent + [c.m])
            && (r.outcome.Ok? ==> r.state.flags == FlagsAfter(s.flags, c))
  {
    Runs.ExecLife(run);
    ClosureFacts(Exec(run), ticket);
  }

  lemma ClosureFacts(s: State, ticket: nat)
    requires LifeOk(s) && s.live && !s.flags.stopped && ticket in s.queue.pending
    ensures var r := RunClosure(s, ticket);
            var c := s.queue.pending[ticket];
            && (r.outcome.Ok? <==> Allows(s.output.trace, c))
            && (r.outcome.Raised? ==> r.state == Ids.Removed(s, ticket))
            && (r.outcome.Ok? ==>
                  r.state.output.sent == if c.StopClosure? then s.output.sent else s.output.sent + [c.m])
            && (r.outcome.Ok? ==> r.state.flags == FlagsAfter(s.flags, c))
  {
    var r := Ids.Removed(s, ticket);
    match s.queue.pending[ticket] {
      case AskClosure(index, m) => AskFacts(r, index, m);
      case LeaveClosure(m) =>
      case JoinClosure(m) =>
      case StopClosure =>
      case ReplyClosure(k, m) =>
    }
  }

  /** join(), leave() and stop(), from the call on any thread to the wire: as long as its closure waits,
      whatever else has happened, it is the one with the realm or the reason that was given; and when it
      gets its turn it does what the messages exchanged by then allow, with that realm or reason. */
  lemma {:induction false} SessionCallsReachTheWire(before: seq<Label>, a: Api, between: seq<Label>)
    requires !RequestTheorems.Asking(a) && Exec(before).live
    requires var s := Exec(before + [Take(a)] + between);
             s.live && !s.flags.stopped && Exec(before).queue.posted in s.queue.pending
    ensures var s, ticket := Exec(before + [Take(a)] + between), Exec(before).queue.posted;
            var r := RunClosure(s, ticket);
            && s.queue.pending[ticket] == RequestTheorems.ClosureOf(a)
            && (r.outcome.Ok? <==> if a.ApiLeave? then Open(s.output.trace) else !Open(s.output.trace))
            && (r.outcome.Raised? ==> r.state == Ids.Removed(s, ticket))
            && (r.outcome.Ok? ==> Says(s.output.sent, r.state.output.sent, a))
            && (r.outcome.Ok? && a.ApiStop? ==> r.state.flags.halted == Set(()))
  {
    var s, t := Exec(before), Exec(before + [Take(a)]);
    Runs.ExecSnoc(before, Take(a));
    PostsIt(s, a);
    Progress.RunOnward(before + [Take(a)], between);
    ClosureRunsIff(before + [Take(a)] + between, s.queue.posted);
    DecodeItems(if a.ApiJoin? then Hello(a.realm) else if a.ApiLeave? then Goodbye(a.reason) else Hello(""));
  }

  lemma PostsIt(s: State, a: Api)
    requires !RequestTheorems.Asking(a) && s.live
    ensures var t := Step(s, Take(a));
            && s.queue.posted in t.queue.pending && t.queue.posted == s.queue.posted + 1
            && t.queue.pending[s.queue.posted] == RequestTheorems.ClosureOf(a)
  {
  }

  /** One more message, which a router reads as HELLO for this realm or as GOODBYE with this reason; none
      for a stop. */
  predicate Says(before: seq<WireMsg>, after: seq<WireMsg>, a: Api)
    requires !RequestTheorems.Asking(a)
  {
    match a
    case ApiJoin(realm) => Adds(before, after, Hello(realm))
    case ApiLeave(reason) => Adds(before, after, Goodbye(reason))
    case ApiStop => after == before
  }

  predicate Adds(before: seq<WireMsg>, after: seq<WireMsg>, m: WireMsg) {
    && |after| == |before| + 1 && after[..|before|] == before
    && Decode(Encode(after[|before|])) == Some(m)
  }

  lemma AskFacts(s: State, index: nat, m: WireMsg)
    ensures var r := RunAsk(s, index, m);
            && (r.outcome.Ok? <==> s.flags.sessionId != 0) && (r.outcome.Raised? ==> r.state == s)
            && (r.outcome.Ok? ==> r.state.output.sent == Send(s, m).output.sent && r.state.flags == s.flags)
  {
  }

  /** subscribe(), unsubscribe(), provide(), publish() and call() by user code on the io thread: inside a
      session the message with the very arguments goes out at once, under the next id and filed in the map of
      its kind; outside one the call fails and nothing goes out. */
  lemma AskNow(s: State, a: Api)
    requires RequestTheorems.Asking(a)
    ensures var r, m := CallApi(s, a), RequestTheorems.MessageOf(a, NextId(s));
            var k := Ids.KindOf(m);
            && (r.outcome.Ok? <==> s.flags.sessionId != 0)
            && r.state.output == (if s.flags.sessionId != 0 then Send(s, m).output else s.output)
            && r.state.flags == s.flags && r.state.queue.pending == s.queue.pending - {s.queue.posted}
            && (r.outcome.Ok? && !k.PublishKind? && NextId(s) !in Table(s, k) ==>
                  Table(r.state, k) == Table(s, k)[NextId(s) := |s.book.requests|])
  {
    var p, m := Prepare(s, a), RequestTheorems.MessageOf(a, NextId(s));
    var q := p.(queue := p.queue.(pending := p.queue.pending - {s.queue.posted}));
    assert RunClosure(p, s.queue.posted) == RunAsk(q, |s.book.requests|, m);
    assert q.book.requests[|s.book.requests|].kind == Ids.KindOf(m);
    AskFacts(q, |s.book.requests|, m);
    if s.flags.sessionId != 0 { AskFiles(q, |s.book.requests|, m); }
  }

  lemma AskFiles(s: State, index: nat, m: WireMsg)
    requires index < |s.book.requests| && s.flags.sessionId != 0
    ensures var r, k := RunAsk(s, index, m), s.book.requests[index].kind;
            && r.state.queue == s.queue && r.state.output == Send(s, m).output
            && (!k.PublishKind? && RequestId(m) !in Table(s, k) ==>
                  Table(r.state, k) == Table(s, k)[RequestId(m) := index])
  {
  }

  /** The guard that refuses a second leave() is never what refuses it: by then the session is closed,
      so what the caller sees is the missing session. */
  lemma {:induction false} SecondLeaveFindsNoSession(run: seq<Label>)
    requires Exec(run).live && Exec(run).flags.goodbyeSent
    ensures forall m :: RunLeave(Exec(run), m) == Fail(Exec(run), NoSession)
  {
    Runs.ExecLife(run);
  }
}
