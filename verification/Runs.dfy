/** The invariants, over every finite run of the session. */
module Runs {
  import opened Values
  import opened Wire
  import opened Session
  import Ids
  import Lifecycle
  import Replies
  import Reentrancy
  import History

  /** What user code, closures and messages all keep. */
  ghost predicate Steady(s: State) {
    Ids.IdsOk(s) && Lifecycle.LifeOk(s) && Replies.RepliesOk(s)
  }

  ghost predicate Inv(s: State) {
    Steady(s) && History.HistoryOk(s)
  }

  // ---------------------------------------------------------------- API calls and closures

  lemma PrepareSteady(s: State, a: Api)
    requires Steady(s)
    ensures Steady(Prepare(s, a))
  {
    Ids.PrepareKeeps(s, a);
    Lifecycle.SameLife(s, Prepare(s, a));
    Replies.PrepareReplies(s, a);
  }

  lemma FutureSteady(s: State, a: Api)
    requires Steady(s)
    ensures Steady(TakeFuture(s, a).state)
  {
    var t := TakeFuture(s, a).state;
    Ids.SameKeeps(s, t);
    Replies.SameReplies(s, t);
  }

  lemma RunSteady(s: State, ticket: nat)
    requires Steady(s) && s.live
    ensures Steady(RunClosure(s, ticket).state)
  {
    Ids.RunKeeps(s, ticket);
    Replies.RunReplies(s, ticket);
    if ticket in s.queue.pending {
      var r := Ids.Removed(s, ticket);
      Lifecycle.SameLife(s, r);
      assert Fitting(s.queue.pending[ticket]);
      Lifecycle.RunBodyLife(r, s.queue.pending[ticket]);
    }
  }

  lemma SpendSteady(s: State, k: nat, reply: Reply)
    requires Steady(s)
    ensures Steady(Spend(s, k, reply).state)
  {
    Ids.SpendKeeps(s, k, reply);
    Lifecycle.SameLife(s, Spend(s, k, reply).state);
    Replies.SpendReplies(s, k, reply);
  }

  lemma CallApiSteady(s: State, a: Api)
    requires Steady(s) && s.live
    ensures Steady(CallApi(s, a).state)
  {
    var p := Prepare(s, a);
    PrepareSteady(s, a);
    Reentrancy.PrepareUndisturbed(s, a);
    RunSteady(p, s.queue.posted);
    FutureSteady(RunClosure(p, s.queue.posted).state, a);
  }

  lemma ReplyNowSteady(s: State, k: nat, reply: Reply)
    requires Steady(s) && s.live
    ensures Steady(ReplyNow(s, k, reply).state)
  {
    var p := Spend(s, k, reply).state;
    SpendSteady(s, k, reply);
    Reentrancy.SpendUndisturbed(s, k, reply);
    RunSteady(p, s.queue.posted);
  }

  lemma {:induction false} ActAllSteady(s: State, actions: seq<Action>)
    requires Steady(s) && s.live
    ensures Steady(ActAll(s, actions))
    decreases |actions|
  {
    if actions != [] {
      match actions[0] {
        case Invoke(api) =>
          CallApiSteady(s, api);
          Reentrancy.CallApiUndisturbed(s, api);
        case Answer(k, reply) =>
          ReplyNowSteady(s, k, reply);
          Reentrancy.ReplyNowUndisturbed(s, k, reply);
      }
      ActAllSteady(Act(s, actions[0]), actions[1..]);
    }
  }

  // ---------------------------------------------------------------- messages

  lemma RunProcedureSteady(s: State, k: nat, b: Behaviour)
    requires Steady(s) && s.live
    ensures Steady(RunProcedure(s, k, b))
  {
    var t := ActAll(s, b.actions);
    ActAllSteady(s, b.actions);
    Reentrancy.ActAllUndisturbed(s, b.actions);
    ReplyNowSteady(t, k, ThrownReply(b.exit));
  }

  lemma {:induction false} CallHandlersSteady(s: State, range: seq<(nat, Handler)>, args: seq<Value>,
                                              kw: seq<Entry>, o: seq<Behaviour>, i: nat)
    requires Steady(s) && s.live
    ensures Steady(CallHandlers(s, range, args, kw, o, i))
    decreases |range|
  {
    if range != [] {
      var b := BehaviourAt(o, i);
      var s0 := Called(s, HandlerCall(range[0].1, args, kw));
      var s1 := ActAll(s0, b.actions);
      Ids.SameKeeps(s, s0);
      Lifecycle.SameLife(s, s0);
      Replies.SameReplies(s, s0);
      ActAllSteady(s0, b.actions);
      Reentrancy.ActAllUndisturbed(s0, b.actions);
      if b.exit.Returns? {
        CallHandlersSteady(s1, range[1..], args, kw, o, i + 1);
      }
    }
  }

  lemma ReceivedSteady(s: State, v: Value)
    requires Steady(s) && s.live && !Lifecycle.Is(v, WELCOME) && !Lifecycle.Is(v, GOODBYE)
    ensures Steady(Received(s, v))
  {
    Ids.SameKeeps(s, Received(s, v));
    Lifecycle.ReceiveLife(s, v);
    Replies.SameReplies(s, Received(s, v));
  }

  lemma FinishSteady(r: Result, v: Value)
    requires Steady(r.state)
    ensures Steady(Finish(r, v).state)
  {
    var t := Finish(r, v).state;
    Ids.SameKeeps(r.state, t);
    Lifecycle.EndLife(r.state);
    Replies.SameReplies(r.state, t);
  }

  /** An answering message changes only tables and promises. */
  lemma AnswerSteady(s: State, t: State)
    requires Steady(s) && Ids.IdsOk(t)
    requires t.live == s.live && t.flags == s.flags && t.output == s.output
    requires t.queue == s.queue && t.invocations == s.invocations
    ensures Steady(t)
  {
    Lifecycle.SameLife(s, t);
    Replies.SameReplies(s, t);
  }

  lemma LooseIds(s: State, t: State)
    requires Ids.IdsOk(s) && !Ids.InRange(s) && t.queue == s.queue
    requires t.book.lastId == s.book.lastId && |t.book.requests| == |s.book.requests|
    ensures Ids.IdsOk(t)
  {
  }

  /** Settling through a table, and leaving it where the source erases. */
  lemma SettledIds(s: State, k: Kind, id: nat, x: Answer)
    requires Ids.IdsOk(s) && id in Table(s, k)
    ensures var r := SetPromise(s, Table(s, k)[id], x);
            var t := if Ids.Erases(k) then WithTable(r.state, k, Table(s, k) - {id}) else r.state;
            (r.outcome.Ok? ==> Ids.IdsOk(t)) && (r.outcome.Raised? ==> r.state == s)
  {
    if Ids.InRange(s) {
      assert Ids.TableOk(s, k);
      Ids.AnsweredKeeps(s, k, id, x);
    } else {
      History.SetPromiseFrame(s, Table(s, k)[id], x);
      var r := SetPromise(s, Table(s, k)[id], x);
      LooseIds(s, r.state);
      LooseIds(s, WithTable(r.state, k, Table(s, k) - {id}));
    }
  }

  lemma ResultIds(s: State, m: seq<Value>)
    requires Ids.IdsOk(s) && |m| > 0
    ensures Ids.IdsOk(ProcessResult(s, m).state)
  {
    if ProcessResult(s, m).outcome.Ok? {
      SettledIds(s, CallKind, m[1].n, ResultOf(TailArgs(m, 3), TailKw(m, 3)));
    }
  }

  lemma ErrorIds(s: State, m: seq<Value>)
    requires Ids.IdsOk(s) && |m| > 0
    ensures Ids.IdsOk(ProcessError(s, m).state)
  {
    if ProcessError(s, m).outcome.Ok? && m[1].n == CALL {
      SettledIds(s, CallKind, m[2].n, Failed(ErrorText(m[4].s, if |m| > 6 then Some(m[6].entries) else None)));
    }
  }

  lemma UnsubscribedIds(s: State, m: seq<Value>)
    requires Ids.IdsOk(s) && |m| > 0
    ensures Ids.IdsOk(ProcessUnsubscribed(s, m).state)
  {
    if |m| == 2 && m[1].UInt? && m[1].n in s.tables.unsubscribes {
      SettledIds(s, UnsubscribeKind, m[1].n, Unsubscription);
    }
  }

  lemma SubscribedIds(s: State, m: seq<Value>)
    requires Ids.IdsOk(s) && |m| > 0
    ensures Ids.IdsOk(ProcessSubscribed(s, m).state)
  {
    if History.Subscribes(s, m) {
      var index := s.tables.subscribes[m[1].n];
      var h := if index < |s.book.requests| then s.book.requests[index].callable else 0;
      var s1 := s.(routes := s.routes.(handlers := Insert(s.routes.handlers, m[2].n, h)));
      Ids.SameKeeps(s, s1);
      SettledIds(s1, SubscribeKind, m[1].n, Subscription(m[2].n));
    }
  }

  lemma RegisteredIds(s: State, m: seq<Value>)
    requires Ids.IdsOk(s) && |m| > 0
    ensures Ids.IdsOk(ProcessRegistered(s, m).state)
  {
    if |m| == 3 && m[1].UInt? && m[2].UInt? && m[1].n in s.tables.registers {
      var index := s.tables.registers[m[1].n];
      var p := if index < |s.book.requests| then s.book.requests[index].callable else 0;
      var s1 := s.(routes := s.routes.(procedures := s.routes.procedures[m[2].n := p]));
      Ids.SameKeeps(s, s1);
      SettledIds(s1, RegisterKind, m[1].n, Registration(m[2].n));
    }
  }

  /** What a settling message leaves alone. */
  predicate Framed(s: State, t: State) {
    t.live == s.live && t.flags == s.flags && t.output == s.output
    && t.queue == s.queue && t.invocations == s.invocations
  }

  lemma SettleFrame(s: State, m: seq<Value>)
    requires |m| > 0
    ensures Framed(s, ProcessResult(s, m).state) && Framed(s, ProcessError(s, m).state)
    ensures Framed(s, ProcessSubscribed(s, m).state) && Framed(s, ProcessUnsubscribed(s, m).state)
    ensures Framed(s, ProcessRegistered(s, m).state)
  {
  }

  lemma AnswerFrame(s: State, v: Value, o: seq<Behaviour>)
    requires History.Other(v) || Lifecycle.Is(v, RESULT) || Lifecycle.Is(v, ERROR) || Lifecycle.Is(v, SUBSCRIBED)
             || Lifecycle.Is(v, UNSUBSCRIBED) || Lifecycle.Is(v, REGISTERED)
    requires !Lifecycle.Is(v, WELCOME) && !Lifecycle.Is(v, GOODBYE)
    ensures Framed(s, GotMessage(s, v, o).state)
  {
    if !History.Other(v) {
      History.Dispatched(s, v, o);
      SettleFrame(s, v.items);
    }
  }

  lemma NewSteady(s: State, inv: Invocation)
    requires Steady(s) && inv.stage.Held?
    ensures Steady(Begun(s, inv))
  {
    var t := Begun(s, inv);
    Ids.SameKeeps(s, t);
    Lifecycle.SameLife(s, t);
    Replies.NewReplies(s, inv);
  }

  lemma InvocationSteady(s: State, m: seq<Value>, b: Behaviour)
    requires Steady(s) && s.live && |m| > 0
    ensures Steady(ProcessInvocation(s, m, b).state)
  {
    if ProcessInvocation(s, m, b).outcome.Ok? {
      var inv := InvocationOf(s, m);
      var s1 := Begun(s, inv);
      NewSteady(s, inv);
      RunProcedureSteady(s1, |s.invocations|, b);
    }
  }

  lemma EventSteady(s: State, m: seq<Value>, o: seq<Behaviour>)
    requires Steady(s) && s.live && |m| > 0
    ensures Steady(ProcessEvent(s, m, o).state)
  {
    if ProcessEvent(s, m, o).outcome.Ok? {
      var lo, hi := LowerBound(s.routes.handlers, m[1].n), UpperBound(s.routes.handlers, m[1].n);
      if lo < hi {
        CallHandlersSteady(s, s.routes.handlers[lo..hi], TailArgs(m, 4), TailKw(m, 4), o, 0);
      }
    }
  }

  lemma GotMessageSteady(s: State, v: Value, o: seq<Behaviour>)
    requires Steady(s) && s.live && !Lifecycle.Is(v, WELCOME) && !Lifecycle.Is(v, GOODBYE)
    ensures Steady(GotMessage(s, v, o).state)
  {
    if History.Other(v) {
      History.OtherFrame(s, v, o);
      AnswerFrame(s, v, o);
      Ids.SameKeeps(s, GotMessage(s, v, o).state);
      AnswerSteady(s, GotMessage(s, v, o).state);
    } else {
      History.Dispatched(s, v, o);
      if Lifecycle.Is(v, INVOCATION) { InvocationSteady(s, v.items, BehaviourAt(o, 0)); }
      else if Lifecycle.Is(v, EVENT) { EventSteady(s, v.items, o); }
      else {
        AnswerFrame(s, v, o);
        if Lifecycle.Is(v, RESULT) { ResultIds(s, v.items); }
        else if Lifecycle.Is(v, ERROR) { ErrorIds(s, v.items); }
        else if Lifecycle.Is(v, SUBSCRIBED) { SubscribedIds(s, v.items); }
        else if Lifecycle.Is(v, UNSUBSCRIBED) { UnsubscribedIds(s, v.items); }
        else { RegisteredIds(s, v.items); }
        AnswerSteady(s, GotMessage(s, v, o).state);
      }
    }
  }

  lemma WelcomeSteady(s: State, v: Value, o: seq<Behaviour>)
    requires Steady(s) && s.live && Lifecycle.Is(v, WELCOME)
    ensures Steady(Deliver(s, v, o).state)
  {
    var t := Deliver(s, v, o).state;
    History.Dispatched(Received(s, v), v, o);
    Ids.SameKeeps(s, t);
    Lifecycle.WelcomeLife(s, v, o);
    Replies.SameReplies(s, t);
  }

  lemma GoodbyeSteady(s: State, v: Value, o: seq<Behaviour>)
    requires Steady(s) && s.live && Lifecycle.Is(v, GOODBYE)
    ensures Steady(Deliver(s, v, o).state)
  {
    var t, m := Deliver(s, v, o).state, Goodbye(GOODBYE_AND_OUT);
    History.Dispatched(Received(s, v), v, o);
    Ids.SendKeeps(s, m);
    Replies.SendReplies(s, m);
    var sent := if s.flags.goodbyeSent then s else Send(s, m);
    Ids.SameKeeps(sent, t);
    Replies.SameReplies(sent, t);
    Lifecycle.GoodbyeLife(s, v, o);
  }

  lemma DeliverSteady(s: State, v: Value, o: seq<Behaviour>)
    requires Steady(s) && s.live
    ensures Steady(Deliver(s, v, o).state)
  {
    if Lifecycle.Is(v, WELCOME) { WelcomeSteady(s, v, o); }
    else if Lifecycle.Is(v, GOODBYE) { GoodbyeSteady(s, v, o); }
    else {
      ReceivedSteady(s, v);
      GotMessageSteady(Received(s, v), v, o);
      FinishSteady(GotMessage(Received(s, v), v, o), v);
    }
  }

  // ---------------------------------------------------------------- read errors

  function LeftSet(s: State): State {
    s.(flags := s.flags.(left := Set(SOCKET_CLOSED)))
  }

  /** leave() does not look at its promise, so setting it first comes to the same. */
  lemma LeaveCommutes(s: State)
    ensures var a := ApiLeave(CLOSE_REALM);
            CallApi(LeftSet(s), a) == Result(LeftSet(CallApi(s, a).state), CallApi(s, a).outcome)
    ensures var r := CallApi(s, ApiLeave(CLOSE_REALM));
            r.state.live == s.live && (r.outcome.Ok? ==> r.state.flags.goodbyeSent)
  {
    var a := ApiLeave(CLOSE_REALM);
    var p := Prepare(s, a);
    var c := LeaveClosure(Goodbye(CLOSE_REALM));
    assert Prepare(LeftSet(s), a) == LeftSet(p);
    var q := p.(queue := p.queue.(pending := p.queue.pending - {s.queue.posted}));
    assert RunClosure(p, s.queue.posted) == RunLeave(q, c.m);
    assert RunClosure(LeftSet(p), s.queue.posted) == RunLeave(LeftSet(q), c.m);
  }

  /** A closed or ended session does not mind the leave promise being set. */
  lemma LeftSteady(s: State)
    requires Steady(s) && (s.flags.goodbyeSent || !s.live)
    ensures Steady(LeftSet(s))
  {
    Ids.SameKeeps(s, LeftSet(s));
    Replies.SameReplies(s, LeftSet(s));
  }

  lemma EndSteady(s: State)
    requires Steady(s)
    ensures Steady(s.(live := false))
  {
    Lifecycle.EndLife(s);
    FaultTail(s);
  }

  lemma SignalSteady(s: State)
    requires Steady(s)
    ensures Steady(s.(signals := s.signals + 1))
  {
    Lifecycle.SameLife(s, s.(signals := s.signals + 1));
    FaultTail(s);
  }

  /** The read error handler, step by step. */
  lemma FaultCases(s: State)
    ensures s.flags.left.Set? ==> Fault(s).state == s.(live := false)
    ensures var u := CallApi(s, ApiLeave(CLOSE_REALM));
            s.flags.left.Unset? ==>
              Fault(s).state == AfterLeave(u)
  {
    LeaveCommutes(s);
  }

  function Stopped(s: State): State {
    var r := CallApi(s, ApiStop);
    if r.outcome.Raised? then r.state.(live := false) else r.state.(signals := r.state.signals + 1)
  }

  lemma FaultSteady(s: State)
    requires Steady(s) && s.live
    ensures Steady(Fault(s).state)
  {
    FaultCases(s);
    if s.flags.left.Set? {
      EndSteady(s);
    } else {
      LeaveSteady(s);
    }
  }

  lemma LeaveSteady(s: State)
    requires Steady(s) && s.live
    ensures Steady(AfterLeave(CallApi(s, ApiLeave(CLOSE_REALM))))
  {
    CallApiSteady(s, ApiLeave(CLOSE_REALM));
    LeaveCommutes(s);
    AfterLeaveSteady(CallApi(s, ApiLeave(CLOSE_REALM)));
  }

  function AfterLeave(u: Result): State {
    if u.outcome.Raised? then LeftSet(u.state).(live := false) else Stopped(LeftSet(u.state))
  }

  lemma AfterLeaveSteady(u: Result)
    requires Steady(u.state) && (u.outcome.Ok? ==> u.state.flags.goodbyeSent && u.state.live)
    ensures Steady(AfterLeave(u))
  {
    if u.outcome.Ok? {
      LeftSteady(u.state);
      FaultStops(LeftSet(u.state));
    } else {
      NotLeft(u.state);
    }
  }

  lemma NotLeft(s: State)
    requires Steady(s)
    ensures Steady(LeftSet(s).(live := false))
  {
    EndSteady(s);
    LeftSteady(s.(live := false));
  }

  lemma FaultStops(s: State)
    requires Steady(s) && s.live
    ensures Steady(Stopped(s))
  {
    CallApiSteady(s, ApiStop);
    StopEnds(CallApi(s, ApiStop));
  }

  lemma StopEnds(r: Result)
    requires Steady(r.state)
    ensures Steady(if r.outcome.Raised? then r.state.(live := false) else r.state.(signals := r.state.signals + 1))
  {
    EndSteady(r.state);
    SignalSteady(r.state);
  }

  lemma FaultTail(s: State)
    requires Ids.IdsOk(s) && Replies.RepliesOk(s)
    ensures Ids.IdsOk(s.(live := false)) && Replies.RepliesOk(s.(live := false))
    ensures Ids.IdsOk(s.(signals := s.signals + 1)) && Replies.RepliesOk(s.(signals := s.signals + 1))
  {
    Ids.SameKeeps(s, s.(live := false));
    Ids.SameKeeps(s, s.(signals := s.signals + 1));
    Replies.SameReplies(s, s.(live := false));
    Replies.SameReplies(s, s.(signals := s.signals + 1));
  }

  lemma FaultHistory(s: State)
    requires History.HistoryOk(s) && s.live
    ensures History.HistoryOk(Fault(s).state)
  {
    if s.flags.left.Unset? {
      var t := CallApi(LeftSet(s), ApiLeave(CLOSE_REALM));
      Reentrancy.CallApiUndisturbed(LeftSet(s), ApiLeave(CLOSE_REALM));
      assert History.HistoryOk(LeftSet(s));
      History.UndisturbedHistory(LeftSet(s), t.state);
      if t.outcome.Ok? {
        var u := CallApi(t.state, ApiStop).state;
        Reentrancy.CallApiUndisturbed(t.state, ApiStop);
        History.UndisturbedHistory(t.state, u);
        assert History.HistoryOk(u.(live := false)) && History.HistoryOk(u.(signals := u.signals + 1));
      } else {
        assert History.HistoryOk(t.state.(live := false));
      }
    } else {
      assert History.HistoryOk(s.(live := false));
    }
  }

  // ---------------------------------------------------------------- runs

  lemma TakeInv(s: State, api: Api)
    requires Inv(s)
    ensures Inv(TakeFuture(Prepare(s, api), api).state)
  {
    PrepareSteady(s, api);
    FutureSteady(Prepare(s, api), api);
    TakeHistory(s, api);
  }

  lemma TakeHistory(s: State, api: Api)
    requires History.HistoryOk(s)
    ensures History.HistoryOk(TakeFuture(Prepare(s, api), api).state)
  {
    var p := Prepare(s, api);
    Reentrancy.PrepareUndisturbed(s, api);
    History.UndisturbedHistory(s, p);
    History.UndisturbedHistory(p, TakeFuture(p, api).state);
  }

  lemma RunInv(s: State, ticket: nat)
    requires Inv(s) && s.live
    ensures Inv(RunClosure(s, ticket).state)
  {
    RunSteady(s, ticket);
    Reentrancy.RunUndisturbed(s, ticket);
    History.UndisturbedHistory(s, RunClosure(s, ticket).state);
  }

  lemma SpendInv(s: State, k: nat, reply: Reply)
    requires Inv(s)
    ensures Inv(Spend(s, k, reply).state)
  {
    SpendSteady(s, k, reply);
    Reentrancy.SpendUndisturbed(s, k, reply);
    History.UndisturbedHistory(s, Spend(s, k, reply).state);
  }

  lemma StepInv(s: State, l: Label)
    requires Inv(s)
    ensures Inv(Step(s, l))
  {
    if s.live {
      match l {
        case Take(api) => TakeInv(s, api);
        case Run(ticket) => RunInv(s, ticket);
        case SpendToken(k, reply) => SpendInv(s, k, reply);
        case Receive(v, o) =>
          DeliverSteady(s, v, o);
          History.DeliverHistory(s, v, o);
        case ReadFails =>
          FaultSteady(s);
          FaultHistory(s);
      }
    }
  }

  lemma InitInv()
    ensures Inv(Init)
  {
    forall k ensures Ids.TableOk(Init, k) {}
  }

  lemma {:induction false} ExecInv(run: seq<Label>)
    ensures Inv(Exec(run))
  {
    if run == [] {
      InitInv();
    } else {
      ExecInv(run[..|run| - 1]);
      StepInv(Exec(run[..|run| - 1]), run[|run| - 1]);
    }
  }

  lemma {:induction false} ExecIds(run: seq<Label>)
    ensures Ids.IdsOk(Exec(run))
  {
    ExecInv(run);
  }

  lemma {:induction false} ExecLife(run: seq<Label>)
    ensures Lifecycle.LifeOk(Exec(run))
  {
    ExecInv(run);
  }

  lemma {:induction false} ExecReplies(run: seq<Label>)
    ensures Replies.RepliesOk(Exec(run))
  {
    ExecInv(run);
  }

  lemma {:induction false} ExecHistory(run: seq<Label>)
    ensures History.HistoryOk(Exec(run))
  {
    ExecInv(run);
  }

  lemma {:induction false} ExecSnoc(run: seq<Label>, l: Label)
    ensures Exec(run + [l]) == Step(Exec(run), l)
  {
    assert (run + [l])[..|run|] == run;
  }
}
