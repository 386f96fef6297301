/** The session's tables and promises as functions of the messages it has accepted. */
module History {
  import opened Values
  import opened Wire
  import opened Session
  import opened HandlerIndex
  import Reentrancy
  import Lifecycle
  import Ids

  // ---------------------------------------------------------------- reading router messages

  /** Which request a router message answers, and with what. */
  datatype Addressed = Addressed(kind: Kind, id: nat, answer: Answer)

  /** Written from the layouts of RESULT, ERROR, SUBSCRIBED, UNSUBSCRIBED and REGISTERED alone. */
  function Reads(v: Value): Option<Addressed> {
    if !v.Array? || |v.items| < 2 || !v.items[0].UInt? then None
    else
      var m := v.items;
      var code := m[0].n;
      if code == RESULT && m[1].UInt? && TailTyped(m, 3) then
        Some(Addressed(CallKind, m[1].n, ResultOf(TailArgs(m, 3), TailKw(m, 3))))
      else if code == ERROR && m[1] == UInt(CALL) && |m| >= 5 && m[2].UInt? && m[4].Str? && TailTyped(m, 5) then
        Some(Addressed(CallKind, m[2].n, Failed(ErrorText(m[4].s, if |m| > 6 then Some(m[6].entries) else None))))
      else if code == SUBSCRIBED && |m| == 3 && m[1].UInt? && m[2].UInt? then
        Some(Addressed(SubscribeKind, m[1].n, Subscription(m[2].n)))
      else if code == UNSUBSCRIBED && m[1].UInt? then
        Some(Addressed(UnsubscribeKind, m[1].n, Unsubscription))
      else if code == REGISTERED && |m| == 3 && m[1].UInt? && m[2].UInt? then
        Some(Addressed(RegisterKind, m[1].n, Registration(m[2].n)))
      else None
  }

  /** What a list of messages says to one request, in order. */
  function Answers(acc: seq<Value>, k: Kind, id: nat): seq<Answer> {
    if acc == [] then []
    else Answers(acc[..|acc| - 1], k, id) + AnswerIn(acc[|acc| - 1], k, id)
  }

  function AnswerIn(v: Value, k: Kind, id: nat): seq<Answer> {
    match Reads(v)
    case Some(a) => if a.kind == k && a.id == id then [a.answer] else []
    case None => []
  }

  /** The (subscription id, handler) pairs of the accepted SUBSCRIBED messages, in order. */
  function Bindings(acc: seq<Value>, reqs: seq<Request>): seq<(nat, Handler)> {
    if acc == [] then []
    else Bindings(acc[..|acc| - 1], reqs) + BindingIn(acc[|acc| - 1], reqs)
  }

  function BindingIn(v: Value, reqs: seq<Request>): seq<(nat, Handler)> {
    match Reads(v)
    case Some(Addressed(SubscribeKind, id, Subscription(sub))) =>
      if 1 <= id <= |reqs| then [(sub, reqs[id - 1].callable)] else []
    case _ => []
  }

  /** For every registration id, the procedure of the latest accepted REGISTERED that names it. */
  function Registered(acc: seq<Value>, reqs: seq<Request>): map<nat, Procedure> {
    if acc == [] then map[]
    else Registered(acc[..|acc| - 1], reqs) + RegisteredIn(acc[|acc| - 1], reqs)
  }

  function RegisteredIn(v: Value, reqs: seq<Request>): map<nat, Procedure> {
    match Reads(v)
    case Some(Addressed(RegisterKind, id, Registration(reg))) =>
      if 1 <= id <= |reqs| then map[reg := reqs[id - 1].callable] else map[]
    case _ => map[]
  }

  /** The accepted INVOCATION messages, in order. */
  function InvocationsIn(acc: seq<Value>): seq<Value> {
    if acc == [] then []
    else InvocationsIn(acc[..|acc| - 1])
         + if Lifecycle.Is(acc[|acc| - 1], INVOCATION) then [acc[|acc| - 1]] else []
  }

  // ---------------------------------------------------------------- the invariant

  function Settled(p: Promise<Answer>): seq<Answer> {
    match p case Unset => [] case Set(x) => [x]
  }

  /** Every request's promise holds exactly the accepted answers of its kind that carry its id, and
      no answer was accepted for anything else. */
  ghost predicate CorrelationOk(acc: seq<Value>, reqs: seq<Request>) {
    && (forall i :: 0 <= i < |reqs| ==> Settled(reqs[i].promise) == Answers(acc, reqs[i].kind, i + 1))
    && (forall k, id: nat :: Answers(acc, k, id) != [] ==> 1 <= id <= |reqs| && reqs[id - 1].kind == k)
  }

  /** Accepted answers only name ids that were taken. */
  ghost predicate Known(acc: seq<Value>, n: nat) {
    forall j :: 0 <= j < |acc| ==> KnownIn(acc[j], n)
  }

  predicate KnownIn(v: Value, n: nat) {
    Reads(v).Some? ==> 1 <= Reads(v).value.id <= n
  }

  ghost predicate IndexOk(hs: seq<(nat, Handler)>, acc: seq<Value>, reqs: seq<Request>) {
    Sorted(hs) && forall key: nat :: For(hs, key) == For(Bindings(acc, reqs), key)
  }

  /** An invocation object is what its message says, with the procedure registered at that time. */
  ghost predicate InvocationOk(inv: Invocation, v: Value, acc: seq<Value>, reqs: seq<Request>) {
    && Describes(inv, v)
    && inv.acceptedBefore < |acc| && acc[inv.acceptedBefore] == v
    && inv.registration in Registered(acc[..inv.acceptedBefore], reqs)
    && Registered(acc[..inv.acceptedBefore], reqs)[inv.registration] == inv.procedure
  }

  predicate Describes(inv: Invocation, v: Value) {
    && v.Array? && |v.items| >= 4 && TailTyped(v.items, 4)
    && v.items[..4] == [UInt(INVOCATION), UInt(inv.id), UInt(inv.registration), Dict(inv.details)]
    && inv.args == TailArgs(v.items, 4) && inv.kw == TailKw(v.items, 4)
  }

  ghost predicate InvocationsOk(invs: seq<Invocation>, acc: seq<Value>, reqs: seq<Request>) {
    && |invs| == |InvocationsIn(acc)|
    && forall k :: 0 <= k < |invs| ==> InvocationOk(invs[k], InvocationsIn(acc)[k], acc, reqs)
  }

  ghost predicate HistoryOk(s: State) {
    Ids.InRange(s) ==>
      && CorrelationOk(s.past.accepted, s.book.requests)
      && Known(s.past.accepted, |s.book.requests|)
      && IndexOk(s.routes.handlers, s.past.accepted, s.book.requests)
      && (s.live ==> s.routes.procedures == Registered(s.past.accepted, s.book.requests))
      && InvocationsOk(s.invocations, s.past.accepted, s.book.requests)
  }

  // ---------------------------------------------------------------- requests change, messages stay

  /** Later requests, and promises, have no say in bindings and registrations. */
  ghost predicate SameCallables(before: seq<Request>, after: seq<Request>) {
    && |before| <= |after|
    && forall i :: 0 <= i < |before| ==> after[i].callable == before[i].callable
  }

  lemma {:induction false} BindingsStable(acc: seq<Value>, before: seq<Request>, after: seq<Request>)
    requires Known(acc, |before|) && SameCallables(before, after)
    ensures Bindings(acc, after) == Bindings(acc, before)
    ensures Registered(acc, after) == Registered(acc, before)
  {
    if acc != [] {
      var n := |acc| - 1;
      assert KnownIn(acc[n], |before|);
      assert Known(acc[..n], |before|) by {
        forall j | 0 <= j < n ensures KnownIn(acc[..n][j], |before|) { assert acc[..n][j] == acc[j]; }
      }
      BindingsStable(acc[..n], before, after);
    }
  }

  lemma KnownPrefix(acc: seq<Value>, n: nat, k: nat)
    requires Known(acc, n) && k <= |acc|
    ensures Known(acc[..k], n)
  {
    forall j | 0 <= j < k ensures KnownIn(acc[..k][j], n) { assert acc[..k][j] == acc[j]; }
  }

  lemma InvocationsStable(invs: seq<Invocation>, after: seq<Invocation>, acc: seq<Value>,
                          reqs: seq<Request>, reqs': seq<Request>)
    requires InvocationsOk(invs, acc, reqs) && Known(acc, |reqs|) && SameCallables(reqs, reqs')
    requires Reentrancy.RepliesMove(invs, after)
    ensures InvocationsOk(after, acc, reqs')
  {
    forall k | 0 <= k < |after|
      ensures InvocationOk(after[k], InvocationsIn(acc)[k], acc, reqs')
    {
      var inv := invs[k];
      assert InvocationOk(inv, InvocationsIn(acc)[k], acc, reqs);
      assert Reentrancy.SameInvocation(inv, after[k]);
      KnownPrefix(acc, |reqs|, inv.acceptedBefore);
      BindingsStable(acc[..inv.acceptedBefore], reqs, reqs');
    }
  }

  lemma GrowCorrelation(acc: seq<Value>, before: seq<Request>, after: seq<Request>)
    requires CorrelationOk(acc, before) && Reentrancy.RequestsGrow(before, after)
    ensures CorrelationOk(acc, after)
  {
    forall i | 0 <= i < |after|
      ensures Settled(after[i].promise) == Answers(acc, after[i].kind, i + 1)
    {
      if i < |before| { assert after[i] == before[i]; }
    }
  }

  /** User code cannot touch any of it. */
  lemma UndisturbedHistory(s: State, t: State)
    requires HistoryOk(s) && Reentrancy.Undisturbed(s, t)
    ensures HistoryOk(t)
  {
    if Ids.InRange(t) {
      var acc, before, after := s.past.accepted, s.book.requests, t.book.requests;
      GrowCorrelation(acc, before, after);
      assert SameCallables(before, after);
      BindingsStable(acc, before, after);
      InvocationsStable(s.invocations, t.invocations, acc, before, after);
    }
  }

  // ---------------------------------------------------------------- one more accepted message

  lemma AnswersSnoc(acc: seq<Value>, v: Value, k: Kind, id: nat)
    ensures Answers(acc + [v], k, id) == Answers(acc, k, id) + AnswerIn(v, k, id)
  {
    assert (acc + [v])[..|acc|] == acc;
  }

  lemma RoutesSnoc(acc: seq<Value>, v: Value, reqs: seq<Request>)
    ensures Bindings(acc + [v], reqs) == Bindings(acc, reqs) + BindingIn(v, reqs)
    ensures Registered(acc + [v], reqs) == Registered(acc, reqs) + RegisteredIn(v, reqs)
  {
    assert (acc + [v])[..|acc|] == acc;
  }

  lemma InvocationsSnoc(invs: seq<Invocation>, acc: seq<Value>, v: Value, reqs: seq<Request>)
    requires InvocationsOk(invs, acc, reqs) && !Lifecycle.Is(v, INVOCATION)
    ensures InvocationsOk(invs, acc + [v], reqs)
  {
    assert (acc + [v])[..|acc|] == acc;
    forall k | 0 <= k < |invs|
      ensures InvocationOk(invs[k], InvocationsIn(acc + [v])[k], acc + [v], reqs)
    {
      var n := invs[k].acceptedBefore;
      assert InvocationOk(invs[k], InvocationsIn(acc)[k], acc, reqs);
      assert (acc + [v])[..n] == acc[..n];
    }
  }

  lemma NeutralCorrelation(acc: seq<Value>, v: Value, reqs: seq<Request>)
    requires CorrelationOk(acc, reqs) && Reads(v).None?
    ensures CorrelationOk(acc + [v], reqs)
  {
    forall k, id: nat ensures Answers(acc + [v], k, id) == Answers(acc, k, id) { AnswersSnoc(acc, v, k, id); }
  }

  lemma NeutralRoutes(acc: seq<Value>, v: Value, reqs: seq<Request>)
    requires Reads(v).None?
    ensures Bindings(acc + [v], reqs) == Bindings(acc, reqs)
    ensures Registered(acc + [v], reqs) == Registered(acc, reqs)
    ensures forall n :: Known(acc, n) ==> Known(acc + [v], n)
  {
    RoutesSnoc(acc, v, reqs);
    assert Bindings(acc, reqs) + [] == Bindings(acc, reqs);
  }

  /** A message that answers nothing. */
  lemma NeutralAccepted(s: State, v: Value)
    requires HistoryOk(s) && Reads(v).None? && !Lifecycle.Is(v, INVOCATION)
    ensures HistoryOk(Accepted(s, v))
  {
    if Ids.InRange(s) {
      NeutralCorrelation(s.past.accepted, v, s.book.requests);
      NeutralRoutes(s.past.accepted, v, s.book.requests);
      InvocationsSnoc(s.invocations, s.past.accepted, v, s.book.requests);
    }
  }

  lemma SettleCorrelation(acc: seq<Value>, reqs: seq<Request>, v: Value, i: nat, x: Answer)
    requires CorrelationOk(acc, reqs) && i < |reqs| && reqs[i].promise.Unset?
    requires Reads(v) == Some(Addressed(reqs[i].kind, i + 1, x))
    ensures CorrelationOk(acc + [v], reqs[i := reqs[i].(promise := Set(x))])
  {
    var after := reqs[i := reqs[i].(promise := Set(x))];
    forall k, id: nat
      ensures Answers(acc + [v], k, id)
              == Answers(acc, k, id) + if k == reqs[i].kind && id == i + 1 then [x] else []
    {
      AnswersSnoc(acc, v, k, id);
    }
  }

  /** The effect of a message that settles one request, the session's tables following along. */
  predicate Settles(s: State, t: State, v: Value, i: int, x: Answer) {
    && 0 <= i < |s.book.requests| && s.book.requests[i].promise.Unset?
    && Reads(v) == Some(Addressed(s.book.requests[i].kind, i + 1, x)) && !Lifecycle.Is(v, INVOCATION)
    && t.book.requests == s.book.requests[i := s.book.requests[i].(promise := Set(x))]
    && t.past == Accepted(s, v).past && t.invocations == s.invocations && (t.live ==> s.live)
    && t.routes.handlers == FiledIn(s.routes.handlers, BindingIn(v, s.book.requests))
    && t.routes.procedures == s.routes.procedures + RegisteredIn(v, s.book.requests)
  }

  lemma SettleAccepted(s: State, t: State, v: Value, i: int, x: Answer)
    requires HistoryOk(s) && Ids.InRange(s) && Settles(s, t, v, i, x)
    ensures HistoryOk(t)
  {
    var acc, reqs, after := s.past.accepted, s.book.requests, t.book.requests;
    SettleCorrelation(acc, reqs, v, i, x);
    assert Known(acc + [v], |after|);
    assert SameCallables(reqs, after);
    BindingsStable(acc + [v], reqs, after);
    RoutesSnoc(acc, v, reqs);
    FiledIndex(s.routes.handlers, acc, reqs, v);
    InvocationsSnoc(s.invocations, acc, v, reqs);
    InvocationsStable(s.invocations, s.invocations, acc + [v], reqs, after);
  }

  function FiledIn(hs: seq<(nat, Handler)>, more: seq<(nat, Handler)>): seq<(nat, Handler)> {
    if more == [] then hs else Insert(hs, more[0].0, more[0].1)
  }

  lemma FiledIndex(hs: seq<(nat, Handler)>, acc: seq<Value>, reqs: seq<Request>, v: Value)
    requires IndexOk(hs, acc, reqs)
    ensures IndexOk(FiledIn(hs, BindingIn(v, reqs)), acc + [v], reqs)
  {
    var more := BindingIn(v, reqs);
    RoutesSnoc(acc, v, reqs);
    if more == [] {
      assert Bindings(acc, reqs) + [] == Bindings(acc, reqs);
    } else {
      InsertSorted(hs, more[0].0, more[0].1);
      forall key: nat
        ensures For(Insert(hs, more[0].0, more[0].1), key) == For(Bindings(acc + [v], reqs), key)
      {
        InsertFiles(hs, more[0].0, more[0].1, key);
        ForConcat(Bindings(acc, reqs), more, key);
      }
    }
  }

  // ---------------------------------------------------------------- the answering messages

  /** What a message leaves behind when an exception leaves its processing. */
  lemma RaisedHistory(s: State, t: State)
    requires HistoryOk(s) && !t.live && t.book == s.book && t.past == s.past && t.invocations == s.invocations
    requires t.routes.handlers == s.routes.handlers
    ensures HistoryOk(t)
  {
  }

  lemma SetPromiseFrame(s: State, i: nat, x: Answer)
    ensures var r := SetPromise(s, i, x);
            && r.state == s.(book := r.state.book) && r.state.book.lastId == s.book.lastId
            && (r.outcome.Raised? ==> r.state == s)
    ensures var r := SetPromise(s, i, x);
            i < |s.book.requests| && r.outcome.Ok? ==>
              && s.book.requests[i].promise.Unset?
              && r.state.book.requests == s.book.requests[i := s.book.requests[i].(promise := Set(x))]
  {
  }

  /** A v whose items the lemma is about: [code, ...]. */
  lemma ResultHistory(s: State, v: Value)
    requires HistoryOk(s) && Ids.IdsOk(s) && s.live && Lifecycle.Is(v, RESULT)
    ensures HistoryOk(Finish(ProcessResult(s, v.items), v).state)
  {
    var r := ProcessResult(s, v.items);
    if r.outcome.Raised? {
      RaisedHistory(s, r.state.(live := false));
    } else if Ids.InRange(s) {
      CallSettled(s, v, v.items[1].n, Reads(v).value.answer);
    }
  }

  lemma ErrorHistory(s: State, v: Value)
    requires HistoryOk(s) && Ids.IdsOk(s) && s.live && Lifecycle.Is(v, ERROR)
    ensures HistoryOk(Finish(ProcessError(s, v.items), v).state)
  {
    var r := ProcessError(s, v.items);
    ErrorCases(s, v);
    if r.outcome.Raised? {
      RaisedHistory(s, r.state.(live := false));
    } else if v.items[1].n != CALL {
      NeutralAccepted(s, v);
    } else if Ids.InRange(s) {
      CallSettled(s, v, v.items[2].n, Reads(v).value.answer);
    }
  }

  lemma ErrorCases(s: State, v: Value)
    requires Lifecycle.Is(v, ERROR)
    ensures var r, m := ProcessError(s, v.items), v.items;
            && (r.outcome.Raised? ==> r.state == s)
            && (r.outcome.Ok? ==> |m| >= 5 && m[1].UInt? && m[2].UInt?)
            && (r.outcome.Ok? && m[1].n != CALL ==> r.state == s && Reads(v).None?)
            && (r.outcome.Ok? && m[1].n == CALL ==>
                  && m[2].n in s.tables.calls && Reads(v).Some? && Reads(v).value.kind.CallKind?
                  && Reads(v).value.id == m[2].n && r == SetPromise(s, s.tables.calls[m[2].n], Reads(v).value.answer))
  {
  }

  lemma CallSettled(s: State, v: Value, id: nat, x: Answer)
    requires HistoryOk(s) && Ids.IdsOk(s) && Ids.InRange(s)
    requires id in s.tables.calls && Reads(v) == Some(Addressed(CallKind, id, x))
    requires !Lifecycle.Is(v, INVOCATION) && SetPromise(s, s.tables.calls[id], x).outcome.Ok?
    ensures HistoryOk(Accepted(SetPromise(s, s.tables.calls[id], x).state, v))
  {
    CallSettles(s, v, id, x);
    SettleAccepted(s, Accepted(SetPromise(s, s.tables.calls[id], x).state, v), v, id - 1, x);
  }

  lemma CallSettles(s: State, v: Value, id: nat, x: Answer)
    requires Ids.TableOk(s, CallKind) && id in s.tables.calls && Reads(v) == Some(Addressed(CallKind, id, x))
    requires !Lifecycle.Is(v, INVOCATION) && SetPromise(s, s.tables.calls[id], x).outcome.Ok?
    ensures Settles(s, Accepted(SetPromise(s, s.tables.calls[id], x).state, v), v, id - 1, x)
  {
    assert id in Table(s, CallKind);
    SetPromiseFrame(s, id - 1, x);
  }

  lemma UnsubscribedSettles(s: State, v: Value)
    requires Ids.TableOk(s, UnsubscribeKind) && Lifecycle.Is(v, UNSUBSCRIBED)
    requires ProcessUnsubscribed(s, v.items).outcome.Ok?
    ensures Settles(s, Accepted(ProcessUnsubscribed(s, v.items).state, v), v, v.items[1].n - 1, Unsubscription)
  {
    assert v.items[1].n in Table(s, UnsubscribeKind);
    SetPromiseFrame(s, v.items[1].n - 1, Unsubscription);
  }

  lemma UnsubscribedHistory(s: State, v: Value)
    requires HistoryOk(s) && Ids.IdsOk(s) && s.live && Lifecycle.Is(v, UNSUBSCRIBED)
    ensures HistoryOk(Finish(ProcessUnsubscribed(s, v.items), v).state)
  {
    var r := ProcessUnsubscribed(s, v.items);
    if r.outcome.Raised? {
      RaisedHistory(s, r.state.(live := false));
    } else if Ids.InRange(s) {
      UnsubscribedSettles(s, v);
      SettleAccepted(s, Accepted(r.state, v), v, v.items[1].n - 1, Unsubscription);
    }
  }

  /** A well-formed SUBSCRIBED for a pending request. */
  predicate Subscribes(s: State, m: seq<Value>) {
    |m| == 3 && m[1].UInt? && m[2].UInt? && m[1].n in s.tables.subscribes
  }

  lemma SubscribedSettles(s: State, v: Value)
    requires Ids.TableOk(s, SubscribeKind) && Lifecycle.Is(v, SUBSCRIBED) && Subscribes(s, v.items)
    ensures var r := ProcessSubscribed(s, v.items);
            r.outcome.Ok?
            && Settles(s, Accepted(r.state, v), v, v.items[1].n - 1, Subscription(v.items[2].n))
  {
    var m := v.items;
    var id := m[1].n;
    assert id in Table(s, SubscribeKind);
    var s1 := s.(routes := s.routes.(handlers := Insert(s.routes.handlers, m[2].n, s.book.requests[id - 1].callable)));
    SetPromiseFrame(s1, id - 1, Subscription(m[2].n));
  }

  lemma SubscribedHistory(s: State, v: Value)
    requires HistoryOk(s) && Ids.IdsOk(s) && s.live && Lifecycle.Is(v, SUBSCRIBED)
    ensures HistoryOk(Finish(ProcessSubscribed(s, v.items), v).state)
  {
    var r := ProcessSubscribed(s, v.items);
    if !Subscribes(s, v.items) {
      RaisedHistory(s, r.state.(live := false));
    } else if Ids.InRange(s) {
      SubscribedSettles(s, v);
      SettleAccepted(s, Accepted(r.state, v), v, v.items[1].n - 1, Subscription(v.items[2].n));
    } else {
      SubscribedSize(s, v.items);
    }
  }

  lemma SubscribedSize(s: State, m: seq<Value>)
    requires |m| > 0
    ensures |ProcessSubscribed(s, m).state.book.requests| == |s.book.requests|
  {
  }

  lemma RegisteredSettles(s: State, v: Value)
    requires Ids.TableOk(s, RegisterKind) && Lifecycle.Is(v, REGISTERED)
    requires ProcessRegistered(s, v.items).outcome.Ok?
    ensures Settles(s, Accepted(ProcessRegistered(s, v.items).state, v), v, v.items[1].n - 1,
                    Registration(v.items[2].n))
  {
    var m := v.items;
    var id := m[1].n;
    assert id in Table(s, RegisterKind);
    var s1 := s.(routes := s.routes.(procedures := s.routes.procedures[m[2].n := s.book.requests[id - 1].callable]));
    SetPromiseFrame(s1, id - 1, Registration(m[2].n));
  }

  lemma RegisteredHistory(s: State, v: Value)
    requires HistoryOk(s) && Ids.IdsOk(s) && s.live && Lifecycle.Is(v, REGISTERED)
    ensures HistoryOk(Finish(ProcessRegistered(s, v.items), v).state)
  {
    var r := ProcessRegistered(s, v.items);
    if r.outcome.Raised? {
      RaisedHistory(s, r.state.(live := false));
    } else if Ids.InRange(s) {
      RegisteredSettles(s, v);
      SettleAccepted(s, Accepted(r.state, v), v, v.items[1].n - 1, Registration(v.items[2].n));
    }
  }

  // ---------------------------------------------------------------- messages that run user code

  lemma InvocationHistory(s: State, v: Value, b: Behaviour)
    requires HistoryOk(s) && s.live && Lifecycle.Is(v, INVOCATION)
    ensures HistoryOk(Finish(ProcessInvocation(s, v.items, b), v).state)
  {
    var m, r := v.items, ProcessInvocation(s, v.items, b);
    if r.outcome.Raised? {
      RaisedHistory(s, r.state.(live := false));
    } else {
      var k := |s.invocations|;
      var inv := InvocationOf(s, m);
      var s1 := Begun(s, inv);
      var s2 := RunProcedure(s1, k, b);
      Reentrancy.RunProcedureUndisturbed(s1, k, b);
      if Ids.InRange(s2) {
        InvocationAccepted(s, v, inv);
        AcceptedLater(Accepted(s1, v), s2, v);
      }
    }
  }

  lemma InvocationAccepted(s: State, v: Value, inv: Invocation)
    requires HistoryOk(s) && Ids.InRange(s) && s.live && Lifecycle.Is(v, INVOCATION)
    requires Describes(inv, v) && inv.acceptedBefore == |s.past.accepted|
    requires inv.registration in s.routes.procedures && s.routes.procedures[inv.registration] == inv.procedure
    ensures HistoryOk(Accepted(Begun(s, inv), v))
  {
    NeutralCorrelation(s.past.accepted, v, s.book.requests);
    NeutralRoutes(s.past.accepted, v, s.book.requests);
    InvocationAppended(s.invocations, s.past.accepted, s.book.requests, v, inv);
  }

  lemma InvocationAppended(invs: seq<Invocation>, acc: seq<Value>, reqs: seq<Request>, v: Value, inv: Invocation)
    requires InvocationsOk(invs, acc, reqs) && Lifecycle.Is(v, INVOCATION)
    requires Describes(inv, v) && inv.acceptedBefore == |acc|
    requires inv.registration in Registered(acc, reqs) && Registered(acc, reqs)[inv.registration] == inv.procedure
    ensures InvocationsOk(invs + [inv], acc + [v], reqs)
  {
    var after := invs + [inv];
    assert (acc + [v])[..|acc|] == acc;
    forall k | 0 <= k < |after|
      ensures InvocationOk(after[k], InvocationsIn(acc + [v])[k], acc + [v], reqs)
    {
      if k < |invs| {
        assert InvocationOk(invs[k], InvocationsIn(acc)[k], acc, reqs);
        assert (acc + [v])[..invs[k].acceptedBefore] == acc[..invs[k].acceptedBefore];
      }
    }
  }

  /** Accepting the message first and running the user code afterwards comes to the same. */
  lemma AcceptedLater(s: State, t: State, v: Value)
    requires HistoryOk(s) && Reentrancy.Undisturbed(s.(past := t.past), t)
    requires Accepted(t, v).past == s.past
    ensures HistoryOk(Accepted(t, v))
  {
    UndisturbedHistory(s, t.(past := s.past));
  }

  lemma EventHistory(s: State, v: Value, o: seq<Behaviour>)
    requires HistoryOk(s) && s.live && Lifecycle.Is(v, EVENT)
    ensures HistoryOk(Finish(ProcessEvent(s, v.items, o), v).state)
  {
    var m, r := v.items, ProcessEvent(s, v.items, o);
    if r.outcome.Raised? {
      RaisedHistory(s, r.state.(live := false));
    } else {
      var lo, hi := LowerBound(s.routes.handlers, m[1].n), UpperBound(s.routes.handlers, m[1].n);
      if lo < hi {
        Reentrancy.CallHandlersUndisturbed(s, s.routes.handlers[lo..hi], TailArgs(m, 4), TailKw(m, 4), o, 0);
        var w := r.state.(past := r.state.past.(called := s.past.called));
        UndisturbedHistory(s, w);
        NeutralAccepted(w, v);
      } else {
        NeutralAccepted(s, v);
      }
    }
  }

  // ---------------------------------------------------------------- any message

  predicate Other(v: Value) {
    && !Lifecycle.Is(v, RESULT) && !Lifecycle.Is(v, ERROR) && !Lifecycle.Is(v, SUBSCRIBED)
    && !Lifecycle.Is(v, UNSUBSCRIBED) && !Lifecycle.Is(v, REGISTERED) && !Lifecycle.Is(v, INVOCATION)
    && !Lifecycle.Is(v, EVENT)
  }

  lemma OtherFrame(s: State, v: Value, o: seq<Behaviour>)
    requires Other(v)
    ensures var t := GotMessage(s, v, o).state;
            t.book == s.book && t.tables == s.tables && t.routes == s.routes && t.queue == s.queue
            && t.invocations == s.invocations && t.past == s.past && t.live == s.live
  {
  }

  lemma OtherHistory(s: State, v: Value, o: seq<Behaviour>)
    requires HistoryOk(s) && s.live && Other(v)
    ensures HistoryOk(Finish(GotMessage(s, v, o), v).state)
  {
    var r := GotMessage(s, v, o);
    OtherFrame(s, v, o);
    if r.outcome.Raised? {
      RaisedHistory(s, r.state.(live := false));
    } else {
      NeutralAccepted(s, v);
    }
  }

  /** The dispatcher, code by code. */
  lemma Dispatched(s: State, v: Value, o: seq<Behaviour>)
    requires v.Array? && |v.items| > 0 && v.items[0].UInt?
    ensures v.items[0].n == RESULT ==> GotMessage(s, v, o) == ProcessResult(s, v.items)
    ensures v.items[0].n == ERROR ==> GotMessage(s, v, o) == ProcessError(s, v.items)
    ensures v.items[0].n == SUBSCRIBED ==> GotMessage(s, v, o) == ProcessSubscribed(s, v.items)
    ensures v.items[0].n == UNSUBSCRIBED ==> GotMessage(s, v, o) == ProcessUnsubscribed(s, v.items)
    ensures v.items[0].n == REGISTERED ==> GotMessage(s, v, o) == ProcessRegistered(s, v.items)
    ensures v.items[0].n == INVOCATION ==> GotMessage(s, v, o) == ProcessInvocation(s, v.items, BehaviourAt(o, 0))
    ensures v.items[0].n == EVENT ==> GotMessage(s, v, o) == ProcessEvent(s, v.items, o)
    ensures v.items[0].n == WELCOME ==> GotMessage(s, v, o) == Welcome(s, v.items)
    ensures v.items[0].n == GOODBYE ==> GotMessage(s, v, o) == ProcessGoodbye(s, v.items)
  {
  }

  /** Every message, from any router, with any user code. */
  lemma DeliverHistory(s: State, v: Value, o: seq<Behaviour>)
    requires HistoryOk(s) && Ids.IdsOk(s) && s.live
    ensures HistoryOk(Deliver(s, v, o).state)
  {
    var r := Received(s, v);
    assert HistoryOk(r);
    Ids.SameKeeps(s, r);
    if Other(v) {
      OtherHistory(r, v, o);
    } else {
      Dispatched(r, v, o);
      if Lifecycle.Is(v, RESULT) { ResultHistory(r, v); }
      else if Lifecycle.Is(v, ERROR) { ErrorHistory(r, v); }
      else if Lifecycle.Is(v, SUBSCRIBED) { SubscribedHistory(r, v); }
      else if Lifecycle.Is(v, UNSUBSCRIBED) { UnsubscribedHistory(r, v); }
      else if Lifecycle.Is(v, REGISTERED) { RegisteredHistory(r, v); }
      else if Lifecycle.Is(v, INVOCATION) { InvocationHistory(r, v, BehaviourAt(o, 0)); }
      else { EventHistory(r, v, o); }
    }
  }

  // ---------------------------------------------------------------- consequences

  lemma CorrelationOf(s: State)
    requires HistoryOk(s) && Ids.InRange(s)
    ensures CorrelationOk(s.past.accepted, s.book.requests)
  {
  }

  lemma InvocationsOf(s: State)
    requires HistoryOk(s) && Ids.InRange(s)
    ensures |s.invocations| == |InvocationsIn(s.past.accepted)|
    ensures forall k :: 0 <= k < |s.invocations| ==>
              InvocationOk(s.invocations[k], InvocationsIn(s.past.accepted)[k], s.past.accepted, s.book.requests)
  {
  }

  lemma PromiseIsAnswer(s: State, i: nat)
    requires HistoryOk(s) && Ids.InRange(s) && i < |s.book.requests|
    ensures Answers(s.past.accepted, s.book.requests[i].kind, i + 1) == Settled(s.book.requests[i].promise)
  {
  }

  lemma AnswerIsKnown(s: State, k: Kind, id: nat)
    requires HistoryOk(s) && Ids.InRange(s) && Answers(s.past.accepted, k, id) != []
    ensures 1 <= id <= |s.book.requests| && s.book.requests[id - 1].kind == k
    ensures s.book.requests[id - 1].promise == Set(Answers(s.past.accepted, k, id)[0])
  {
    PromiseIsAnswer(s, id - 1);
  }
}
