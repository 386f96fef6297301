/** What only ever goes one way, from any state to any later one. */
module Progress {
  import opened Values
  import opened Wire
  import opened Session
  import Lifecycle
  import Reentrancy
  import History
  import Runs

  /** Everything about a request except its promise. */
  predicate SameRequest(a: Request, b: Request) {
    a == b.(promise := a.promise)
  }

  /** Messages, requests and invocations are only added, a spent token stays spent on the same reply, a
      waiting closure stays what it is, the session's own promises keep their values, and a session that
      has ended, was closed or stopped stays so; once it is stopped nothing is sent. */
  ghost predicate Onward(s: State, t: State) {
    && (t.live ==> s.live)
    && s.past.accepted <= t.past.accepted
    && s.output.sent <= t.output.sent
    && s.output.trace <= t.output.trace
    && Reentrancy.Closing(s.flags, t.flags)
    && (s.flags.stopped ==> t.output.sent == s.output.sent)
    && PromisesStay(s.flags, t.flags)
    && Reentrancy.QueueMoves(s.queue, t.queue)
    && RequestsStay(s.book.requests, t.book.requests)
    && InvocationsStay(s.invocations, t.invocations)
  }

  predicate PromisesStay(before: Flags, after: Flags) {
    && (before.joined.Set? ==> after.joined == before.joined)
    && (before.left.Set? ==> after.left == before.left)
    && (before.halted.Set? ==> after.halted == before.halted)
  }

  ghost predicate RequestsStay(before: seq<Request>, after: seq<Request>) {
    && |before| <= |after|
    && forall i :: 0 <= i < |before| ==> SameRequest(before[i], after[i])
  }

  ghost predicate InvocationsStay(before: seq<Invocation>, after: seq<Invocation>) {
    && |before| <= |after|
    && forall k :: 0 <= k < |before| ==>
         && Reentrancy.SameInvocation(before[k], after[k])
         && (!before[k].stage.Held? ==> !after[k].stage.Held? && after[k].given == before[k].given)
  }

  lemma Transitive(s: State, t: State, u: State)
    requires Onward(s, t) && Onward(t, u)
    ensures Onward(s, u)
  {
    forall i | 0 <= i < |s.book.requests| ensures SameRequest(s.book.requests[i], u.book.requests[i]) {
      assert SameRequest(s.book.requests[i], t.book.requests[i]) && SameRequest(t.book.requests[i], u.book.requests[i]);
    }
    forall k | 0 <= k < |s.invocations| ensures Reentrancy.SameInvocation(s.invocations[k], u.invocations[k]) {
      assert Reentrancy.SameInvocation(s.invocations[k], t.invocations[k]);
      assert Reentrancy.SameInvocation(t.invocations[k], u.invocations[k]);
    }
  }

  lemma FromUndisturbed(s: State, t: State)
    requires Reentrancy.Undisturbed(s, t)
    ensures Onward(s, t)
  {
    forall i | 0 <= i < |s.book.requests| ensures SameRequest(s.book.requests[i], t.book.requests[i]) {
      assert t.book.requests[i] == s.book.requests[i];
    }
  }

  // ---------------------------------------------------------------- one message

  /** What processing one received message does besides: it accepts none yet, and only sends. */
  ghost predicate Processing(s: State, t: State) {
    && Onward(s, t)
    && t.live == s.live && t.past.accepted == s.past.accepted && t.signals == s.signals
    && Reentrancy.OnlySends(s.output.trace, t.output.trace)
  }

  lemma OtherMessage(s: State, v: Value, o: seq<Behaviour>)
    requires History.Other(v)
    ensures Processing(s, GotMessage(s, v, o).state)
  {
    History.OtherFrame(s, v, o);
    if Lifecycle.Is(v, WELCOME) {
      History.Dispatched(s, v, o);
      WelcomeOnward(s, v.items);
    } else if Lifecycle.Is(v, GOODBYE) {
      History.Dispatched(s, v, o);
      GoodbyeOnward(s, v.items);
    } else {
      Ignored(s, v, o);
    }
  }

  lemma WelcomeOnward(s: State, m: seq<Value>)
    ensures var t := Welcome(s, m).state;
            && t.output == s.output && t.signals == s.signals && Reentrancy.Closing(s.flags, t.flags)
            && PromisesStay(s.flags, t.flags)
  {
  }

  lemma GoodbyeOnward(s: State, m: seq<Value>)
    ensures var t := ProcessGoodbye(s, m).state;
            && t.signals == s.signals && Reentrancy.Closing(s.flags, t.flags)
            && PromisesStay(s.flags, t.flags)
            && (s.flags.stopped ==> t.output == s.output)
            && s.output.sent <= t.output.sent && Reentrancy.OnlySends(s.output.trace, t.output.trace)
  {
    var g := Goodbye(GOODBYE_AND_OUT);
    assert ProcessGoodbye(s, m).state.output == if s.flags.goodbyeSent then s.output else Send(s, g).output;
  }

  /** Codes that are rejected or ignored. */
  lemma Ignored(s: State, v: Value, o: seq<Behaviour>)
    requires History.Other(v) && !Lifecycle.Is(v, WELCOME) && !Lifecycle.Is(v, GOODBYE)
    ensures GotMessage(s, v, o).state == s
  {
  }

  lemma SettlingMessage(s: State, m: seq<Value>, r: Result)
    requires |m| > 0
    requires r == ProcessResult(s, m) || r == ProcessError(s, m) || r == ProcessSubscribed(s, m)
             || r == ProcessUnsubscribed(s, m) || r == ProcessRegistered(s, m)
    ensures Processing(s, r.state)
  {
    Runs.SettleFrame(s, m);
    SettledCalls(s, m);
    SettledRequests(s, m);
  }

  lemma SettledCalls(s: State, m: seq<Value>)
    requires |m| > 0
    ensures OnlySettles(s, ProcessResult(s, m).state) && OnlySettles(s, ProcessError(s, m).state)
  {
  }

  lemma SettledRequests(s: State, m: seq<Value>)
    requires |m| > 0
    ensures OnlySettles(s, ProcessSubscribed(s, m).state) && OnlySettles(s, ProcessUnsubscribed(s, m).state)
    ensures OnlySettles(s, ProcessRegistered(s, m).state)
  {
  }

  ghost predicate OnlySettles(s: State, t: State) {
    RequestsStay(s.book.requests, t.book.requests) && t.past == s.past && t.signals == s.signals
  }

  lemma InvocationMessage(s: State, m: seq<Value>, b: Behaviour)
    requires |m| > 0
    ensures Processing(s, ProcessInvocation(s, m, b).state)
  {
    if Invokes(s, m) {
      var s1 := Begun(s, InvocationOf(s, m));
      Reentrancy.RunProcedureUndisturbed(s1, |s.invocations|, b);
      FromUndisturbed(s1, RunProcedure(s1, |s.invocations|, b));
      assert Onward(s, s1);
      Transitive(s, s1, RunProcedure(s1, |s.invocations|, b));
    }
  }

  lemma EventMessage(s: State, m: seq<Value>, o: seq<Behaviour>)
    requires |m| > 0
    ensures Processing(s, ProcessEvent(s, m, o).state)
  {
    if ProcessEvent(s, m, o).outcome.Ok? {
      var lo, hi := LowerBound(s.routes.handlers, m[1].n), UpperBound(s.routes.handlers, m[1].n);
      if lo < hi {
        WalkProcessing(s, s.routes.handlers[lo..hi], TailArgs(m, 4), TailKw(m, 4), o);
      }
    }
  }

  lemma WalkProcessing(s: State, range: seq<(nat, Handler)>, args: seq<Value>, kw: seq<Entry>, o: seq<Behaviour>)
    ensures Processing(s, CallHandlers(s, range, args, kw, o, 0))
  {
    var t := CallHandlers(s, range, args, kw, o, 0);
    Reentrancy.CallHandlersUndisturbed(s, range, args, kw, o, 0);
    FromUndisturbed(s, t.(past := t.past.(called := s.past.called)));
  }

  lemma MessageProcessing(s: State, v: Value, o: seq<Behaviour>)
    ensures Processing(s, GotMessage(s, v, o).state)
  {
    if History.Other(v) {
      OtherMessage(s, v, o);
    } else {
      var m := v.items;
      History.Dispatched(s, v, o);
      if Lifecycle.Is(v, INVOCATION) { InvocationMessage(s, m, BehaviourAt(o, 0)); }
      else if Lifecycle.Is(v, EVENT) { EventMessage(s, m, o); }
      else { SettlingMessage(s, m, GotMessage(s, v, o)); }
    }
  }

  /** A message is traced, processed, and accepted exactly when no exception leaves its processing. */
  lemma DeliverOnward(s: State, v: Value, o: seq<Behaviour>)
    ensures var r := Deliver(s, v, o);
            && Onward(s, r.state)
            && r.state.past.accepted == s.past.accepted + (if r.outcome.Ok? then [v] else [])
            && Reentrancy.OnlySends(s.output.trace + [In(v)], r.state.output.trace)
            && (s.live ==> (r.state.live <==> r.outcome.Ok?)) && r.state.signals == s.signals
  {
    var r := Received(s, v);
    MessageProcessing(r, v, o);
    assert Onward(s, r);
    Transitive(s, r, GotMessage(r, v, o).state);
  }

  /** API calls, closures and replies never end a run. */
  lemma ApiKeepsLive(s: State, l: Label)
    requires s.live && (l.Take? || l.Run? || l.SpendToken?)
    ensures Step(s, l).live && Step(s, l).signals == s.signals
  {
    match l {
      case Take(api) => Reentrancy.PrepareUndisturbed(s, api);
      case Run(ticket) => Reentrancy.RunUndisturbed(s, ticket);
      case SpendToken(k, reply) => Reentrancy.SpendUndisturbed(s, k, reply);
    }
  }

  // ---------------------------------------------------------------- one step, any run

  lemma FaultOnward(s: State)
    ensures Onward(s, Fault(s).state) && Fault(s).state.past == s.past
    ensures Reentrancy.OnlySends(s.output.trace, Fault(s).state.output.trace)
  {
    if s.flags.left.Unset? {
      var a := Runs.LeftSet(s);
      var t := CallApi(a, ApiLeave(CLOSE_REALM)).state;
      Reentrancy.CallApiUndisturbed(a, ApiLeave(CLOSE_REALM));
      Reentrancy.CallApiUndisturbed(t, ApiStop);
      Reentrancy.Transitive(a, t, CallApi(t, ApiStop).state);
      assert Onward(s, a);
      FromUndisturbed(a, t);
      FromUndisturbed(a, CallApi(t, ApiStop).state);
      Transitive(s, a, t);
      Transitive(s, a, CallApi(t, ApiStop).state);
    }
  }

  lemma TakeOnward(s: State, api: Api)
    ensures var t := TakeFuture(Prepare(s, api), api).state;
            Onward(s, t) && t.past == s.past && t.output == s.output
  {
    Reentrancy.PrepareUndisturbed(s, api);
    FromUndisturbed(s, Prepare(s, api));
  }

  /** A step takes in at most one message, and sends the rest. */
  lemma StepOnward(s: State, l: Label)
    ensures Onward(s, Step(s, l))
    ensures !l.Receive? ==> Reentrancy.OnlySends(s.output.trace, Step(s, l).output.trace)
    ensures !l.Receive? ==> Step(s, l).past.accepted == s.past.accepted
    ensures l.Receive? && s.live ==>
              && Reentrancy.OnlySends(s.output.trace + [In(l.v)], Step(s, l).output.trace)
              && Step(s, l).past.accepted == s.past.accepted + if Deliver(s, l.v, l.o).outcome.Ok? then [l.v] else []
  {
    if s.live {
      match l {
        case Take(api) => TakeOnward(s, api);
        case Run(ticket) =>
          Reentrancy.RunUndisturbed(s, ticket);
          FromUndisturbed(s, RunClosure(s, ticket).state);
        case SpendToken(k, reply) =>
          Reentrancy.SpendUndisturbed(s, k, reply);
          FromUndisturbed(s, Spend(s, k, reply).state);
        case Receive(v, o) => DeliverOnward(s, v, o);
        case ReadFails => FaultOnward(s);
      }
    }
  }

  /** Over any continuation of any run. */
  lemma {:induction false} RunOnward(run: seq<Label>, more: seq<Label>)
    ensures Onward(Exec(run), Exec(run + more))
    decreases |more|
  {
    if more == [] {
      assert run + more == run;
    } else {
      var front, l := more[..|more| - 1], more[|more| - 1];
      RunOnward(run, front);
      assert run + more == run + front + [l];
      Runs.ExecSnoc(run + front, l);
      StepOnward(Exec(run + front), l);
      Transitive(Exec(run), Exec(run + front), Exec(run + more));
    }
  }

  /** A spent reply token can never be spent again: result() and error() throw and do nothing. */
  lemma {:induction false} SpentForGood(run: seq<Label>, more: seq<Label>, k: nat, reply: Reply)
    requires k < |Exec(run).invocations| && !Exec(run).invocations[k].stage.Held?
    ensures Spend(Exec(run + more), k, reply) == Fail(Exec(run + more), NotSendable)
  {
    RunOnward(run, more);
  }
}
