/** Runs that show what the theorems allow for does happen. */
module Witnesses {
  import opened Values
  import opened Wire
  import opened Session
  import opened Link
  import F = Framing
  import History
  import Lifecycle
  import MessageTheorems
  import Runs
  import SessionTheorems

  // ---------------------------------------------------------------- a session with one handler or procedure

  const TOPIC := "topic"
  const CALLABLE: nat := 5
  const ROUTE: nat := 7

  function Greeting(id: nat): Value {
    Array([UInt(WELCOME), UInt(id), Dict([])])
  }

  /** SUBSCRIBED or REGISTERED for request 1. */
  function Confirmed(code: nat, id: nat): Value {
    Array([UInt(code), UInt(1), UInt(id)])
  }

  /** One request, made, sent and confirmed. */
  function Confirming(api: Api, code: nat): seq<Label> {
    [Receive(Greeting(1), []), Take(api), Run(0), Receive(Confirmed(code, ROUTE), [])]
  }

  const SUBSCRIBING: Api := ApiSubscribe(TOPIC, CALLABLE)
  const PROVIDING: Api := ApiProvide(TOPIC, CALLABLE, [])

  /** Nothing has been left, stopped or failed. */
  predicate Untouched(s: State) {
    s.live && s.flags == Flags(1, false, false, Set(1), Unset, Unset, false, false)
  }

  lemma WelcomeRun()
    ensures Untouched(Exec([Receive(Greeting(1), [])]))
    ensures var s := Exec([Receive(Greeting(1), [])]);
            && s.book == Init.book && s.tables == Init.tables && s.routes == Init.routes && s.queue == Init.queue
            && s.output.trace == [In(Greeting(1))]
  {
    Runs.ExecSnoc([], Receive(Greeting(1), []));
    assert [] + [Receive(Greeting(1), [])] == [Receive(Greeting(1), [])];
    History.Dispatched(Received(Init, Greeting(1)), Greeting(1), []);
  }

  /** The two requests made here, with their kinds and messages. */
  predicate Makes(api: Api, k: Kind, m: WireMsg) {
    (api, k, m) == (SUBSCRIBING, SubscribeKind, Subscribe(1, TOPIC))
    || (api, k, m) == (PROVIDING, RegisterKind, Register(1, [], TOPIC))
  }

  /** The request is made. */
  lemma TakeRun(api: Api, k: Kind, m: WireMsg)
    requires Makes(api, k, m)
    ensures var s := Exec([Receive(Greeting(1), []), Take(api)]);
            && Untouched(s) && s.tables == Init.tables && s.routes == Init.routes
            && s.book == Book(1, [Request(k, CALLABLE, m, Unset)])
            && s.queue.pending == map[0 := AskClosure(0, m)]
  {
    WelcomeRun();
    Runs.ExecSnoc([Receive(Greeting(1), [])], Take(api));
    AskStep(Exec([Receive(Greeting(1), [])]), api, k, m);
  }

  /** Its closure runs. */
  lemma AskRun(api: Api, k: Kind, m: WireMsg)
    requires Makes(api, k, m)
    ensures var s := Exec([Receive(Greeting(1), []), Take(api), Run(0)]);
            && Untouched(s) && s.routes == Init.routes
            && s.book == Book(1, [Request(k, CALLABLE, m, Unset)]) && Table(s, k) == map[1 := 0]
  {
    var front := [Receive(Greeting(1), []), Take(api)];
    TakeRun(api, k, m);
    Runs.ExecSnoc(front, Run(0));
    assert front + [Run(0)] == [Receive(Greeting(1), []), Take(api), Run(0)];
    AskedStep(Exec(front), k, m);
  }

  lemma AskStep(s: State, api: Api, k: Kind, m: WireMsg)
    requires Untouched(s) && s.book == Init.book && s.queue == Init.queue && Makes(api, k, m)
    ensures var t := Step(s, Take(api));
            && t == s.(book := t.book, queue := t.queue)
            && t.book == Book(1, [Request(k, CALLABLE, m, Unset)])
            && t.queue.pending == map[0 := AskClosure(0, m)]
  {
  }

  lemma AskedStep(s: State, k: Kind, m: WireMsg)
    requires Untouched(s) && s.tables == Init.tables && s.book == Book(1, [Request(k, CALLABLE, m, Unset)])
    requires s.queue.pending == map[0 := AskClosure(0, m)] && RequestId(m) == 1
    requires k == SubscribeKind || k == RegisterKind
    ensures var t := Step(s, Run(0));
            && Untouched(t) && t.routes == s.routes && t.book == s.book && Table(t, k) == map[1 := 0]
  {
    var q := s.(queue := s.queue.(pending := s.queue.pending - {0}));
    assert RunClosure(s, 0) == RunAsk(q, 0, m);
  }

  lemma SubscribedRun()
    ensures var s := Exec(Confirming(SUBSCRIBING, SUBSCRIBED));
            Untouched(s) && s.routes.handlers == [(ROUTE, CALLABLE)]
  {
    var front, v := [Receive(Greeting(1), []), Take(SUBSCRIBING), Run(0)], Confirmed(SUBSCRIBED, ROUTE);
    AskRun(SUBSCRIBING, SubscribeKind, Subscribe(1, TOPIC));
    Runs.ExecSnoc(front, Receive(v, []));
    assert front + [Receive(v, [])] == Confirming(SUBSCRIBING, SUBSCRIBED);
    History.Dispatched(Received(Exec(front), v), v, []);
  }

  lemma RegisteredRun()
    ensures var s := Exec(Confirming(PROVIDING, REGISTERED));
            && Untouched(s) && s.routes.procedures == map[ROUTE := CALLABLE]
            && s.tables.registers == map[1 := 0] && |s.book.requests| == 1
            && s.book.requests[0].callable == CALLABLE && s.book.requests[0].promise.Set?
  {
    var front, v := [Receive(Greeting(1), []), Take(PROVIDING), Run(0)], Confirmed(REGISTERED, ROUTE);
    AskRun(PROVIDING, RegisterKind, Register(1, [], TOPIC));
    Runs.ExecSnoc(front, Receive(v, []));
    assert front + [Receive(v, [])] == Confirming(PROVIDING, REGISTERED);
    History.Dispatched(Received(Exec(front), v), v, []);
  }

  // ---------------------------------------------------------------- the cutting can matter

  const EVENT_FOR_IT: Value := Array([UInt(EVENT), UInt(ROUTE), UInt(1), Dict([])])
  const ABORTED: Value := Array([UInt(ABORT), Dict([]), Str("reason")])

  /** A handler that leaves and stops the session. */
  const QUITS: Behaviour := Behaviour([Invoke(ApiLeave(CLOSE_REALM)), Invoke(ApiStop)], Returns)

  lemma HandlerQuits(s: State)
    requires Untouched(s)
    ensures ActAll(s, QUITS.actions).flags.stopped
  {
    var a := QUITS.actions;
    var t := Act(s, a[0]);
    SessionTheorems.LeaveResult(s, CLOSE_REALM);
    SessionTheorems.StopResult(t);
    assert a[1..][0] == a[1] && a[1..][1..] == [];
    assert ActAll(s, a) == ActAll(Act(t, a[1]), []);
  }

  lemma EventQuits(s: State)
    requires Untouched(s) && s.routes.handlers == [(ROUTE, CALLABLE)]
    ensures var r := Deliver(s, EVENT_FOR_IT, [QUITS]); r.outcome.Ok? && r.state.flags.stopped
  {
    var u, hs := Received(s, EVENT_FOR_IT), s.routes.handlers;
    var c := HandlerCall(CALLABLE, [], []);
    HandlerQuits(Called(u, c));
    History.Dispatched(u, EVENT_FOR_IT, [QUITS]);
    assert hs[1..] == [];
    assert LowerBound(hs, ROUTE) == 0 && UpperBound(hs, ROUTE) == 1;
    assert hs[0..1] == hs;
    assert CallHandlers(u, hs, [], [], [QUITS], 0)
           == CallHandlers(ActAll(Called(u, c), QUITS.actions), hs[1..], [], [], [QUITS], 1);
  }

  /** The same octets, cut at another place, come to another end: a handler quits, and the message
      behind the event is still processed if it came in the same body, and not read if it did not. */
  lemma CuttingMatters()
      returns (run: seq<Label>, messages: seq<Value>, one: seq<seq<Token>>, two: seq<seq<Token>>,
               code: seq<seq<Behaviour>>)
    ensures Exec(run).live && !Exec(run).flags.stopped
    ensures F.Concat(one) == F.Concat(two) == FlattenAll(messages)
    ensures Feed(Deliver, Exec(run), [], one, code, 0) == Process(Deliver, Exec(run), messages, code, 0)
    ensures Feed(Deliver, Exec(run), [], two, code, 0) != Process(Deliver, Exec(run), messages, code, 0)
  {
    run, messages, code := Confirming(SUBSCRIBING, SUBSCRIBED), [EVENT_FOR_IT, ABORTED], [[QUITS]];
    one, two := [FlattenAll(messages)], Singles(messages);
    SubscribedRun();
    EventQuits(Exec(run));
    assert one[1..] == [] && F.Concat(one) == FlattenAll(messages) + [];
    SinglesConcat(messages);
    OneBodyIsAll(Exec(run), messages, code);
    FirstQuits(Exec(run), messages, code);
  }

  lemma {:induction false} SinglesConcat(vs: seq<Value>)
    ensures F.Concat(Singles(vs)) == FlattenAll(vs)
  {
    if vs != [] { SinglesConcat(vs[1..]); }
  }

  lemma OneBodyIsAll(s: State, messages: seq<Value>, code: seq<seq<Behaviour>>)
    ensures Feed(Deliver, s, [], [FlattenAll(messages)], code, 0) == Process(Deliver, s, messages, code, 0)
  {
    var one := [FlattenAll(messages)];
    assert one[1..] == [] && F.Concat(one) == FlattenAll(messages) + [];
    F.CutMessages(messages, one);
    CuttingDoesNotMatter(s, messages, one, code);
    assert one[..1] == one;
  }

  lemma FirstQuits(s: State, vs: seq<Value>, code: seq<seq<Behaviour>>)
    requires |vs| > 1
    requires var r := Deliver(s, vs[0], CodeAt(code, 0)); r.outcome.Ok? && r.state.flags.stopped
    ensures Feed(Deliver, s, [], Singles(vs), code, 0) != Process(Deliver, s, vs, code, 0)
  {
    FeedSingles(Deliver, s, vs, code, 0);
    assert Heard(Deliver, s, vs, code, 0) == 1;
    assert vs[..1][1..] == [];
    FewerMessages(s, vs[..1], vs, code);
  }

  // ---------------------------------------------------------------- messages that throw half way

  /** A second WELCOME with another id. */
  lemma WelcomeTears() returns (run: seq<Label>, v: Value)
    ensures Exec(run).live && Lifecycle.Is(v, WELCOME)
    ensures GotMessage(Exec(run), v, []).outcome.Raised? && GotMessage(Exec(run), v, []).state != Exec(run)
  {
    run, v := [Receive(Greeting(1), [])], Greeting(2);
    WelcomeRun();
    History.Dispatched(Exec(run), v, []);
    MessageTheorems.FailureChangesState(run, v, []);
  }

  /** A GOODBYE in an open session whose reason is a number. */
  lemma GoodbyeTears() returns (run: seq<Label>, v: Value)
    ensures Exec(run).live && Lifecycle.Is(v, GOODBYE)
    ensures GotMessage(Exec(run), v, []).outcome.Raised? && GotMessage(Exec(run), v, []).state != Exec(run)
  {
    run, v := [Receive(Greeting(1), [])], Array([UInt(GOODBYE), Dict([]), UInt(0)]);
    WelcomeRun();
    History.Dispatched(Exec(run), v, []);
    MessageTheorems.FailureChangesState(run, v, []);
  }

  /** A second REGISTERED for one request, under another registration id. */
  lemma RegisteredTears() returns (run: seq<Label>, v: Value)
    ensures Exec(run).live && Lifecycle.Is(v, REGISTERED)
    ensures GotMessage(Exec(run), v, []).outcome.Raised? && GotMessage(Exec(run), v, []).state != Exec(run)
  {
    run, v := Confirming(PROVIDING, REGISTERED), Confirmed(REGISTERED, ROUTE + 1);
    RegisteredRun();
    History.Dispatched(Exec(run), v, []);
    MessageTheorems.FailureChangesState(run, v, []);
  }

  // ---------------------------------------------------------------- two GOODBYEs

  const BYE: Value := Array([UInt(GOODBYE), Dict([]), Str("")])

  /** A router that greets once and says GOODBYE twice is answered twice, because the answer does not
      set m_goodbye_sent. */
  lemma TwoGoodbyesHappen() returns (run: seq<Label>)
    ensures SessionTheorems.GoodbyeAfterWelcome(Exec(run).output.trace)
    ensures Lifecycle.Goodbyes(Exec(run).output.trace) == 2
  {
    var w, b := Receive(Greeting(1), []), Receive(BYE, []);
    run := [w, b, b];
    WelcomeRun();
    Runs.ExecSnoc([w], b);
    Runs.ExecSnoc([w, b], b);
    assert [w] + [b] == [w, b] && [w, b] + [b] == run;
    Byes(Exec([w]));
    Byes(Exec([w, b]));
    var t, answer := Exec(run).output.trace, Out(Goodbye("wamp.error.goodbye_and_out"));
    assert t == [In(Greeting(1)), In(BYE), answer, In(BYE), answer];
    assert Lifecycle.IsWelcome(t[0]);
    assert Lifecycle.Goodbyes([In(Greeting(1))]) == 0;
  }

  lemma Byes(s: State)
    requires s.live && !s.flags.goodbyeSent && !s.flags.stopped
    ensures var t := Step(s, Receive(BYE, []));
            && t.output.trace == s.output.trace + [In(BYE), Out(Goodbye("wamp.error.goodbye_and_out"))]
            && !t.flags.goodbyeSent && !t.flags.stopped && (s.flags.left.Unset? ==> t.live)
            && Lifecycle.Goodbyes(t.output.trace) == Lifecycle.Goodbyes(s.output.trace) + 1
  {
    SessionTheorems.GoodbyeStep(s, BYE, []);
    Lifecycle.GoodbyeSteps(s, BYE, []);
    assert s.output.trace + [In(BYE)] + [Out(Goodbye("wamp.error.goodbye_and_out"))]
           == s.output.trace + [In(BYE), Out(Goodbye("wamp.error.goodbye_and_out"))];
  }

  // ---------------------------------------------------------------- read errors

  /** One that reaches the application, and one that does not. */
  lemma ReadErrorsDiffer() returns (told: seq<Label>, lost: seq<Label>)
    ensures Exec(told).live && Fault(Exec(told)).state.signals == Exec(told).signals + 1
    ensures Exec(lost).live && Fault(Exec(lost)).state.signals == Exec(lost).signals
            && Fault(Exec(lost)).outcome.Raised?
  {
    told, lost := [Receive(Greeting(1), [])], [];
    WelcomeRun();
    SessionTheorems.RxErrorSignalledIff(told);
    SessionTheorems.LeaveResult(Runs.LeftSet(Init), CLOSE_REALM);
  }
}
