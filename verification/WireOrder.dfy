/** When closures run in the order their ids were taken, ids rise on the wire. */
module WireOrder {
  import opened Values
  import opened Wire
  import opened Session
  import Ids
  import Lifecycle
  import History
  import Reentrancy
  import Runs

  ghost predicate Rising(sent: seq<WireMsg>) {
    forall j, k :: 0 <= j < k < |sent| && RequestId(sent[j]) != 0 && RequestId(sent[k]) != 0 ==>
      RequestId(sent[j]) < RequestId(sent[k])
  }

  /** Ids on the wire rise, and those still waiting are above them. */
  ghost predicate Ordered(s: State) {
    && Rising(s.output.sent)
    && (forall t, j :: t in s.queue.pending && s.queue.pending[t].AskClosure? && 0 <= j < |s.output.sent| ==>
          RequestId(s.output.sent[j]) <= s.queue.pending[t].index)
  }

  ghost predicate NoneWaiting(q: Queue) {
    forall t :: t in q.pending ==> !q.pending[t].AskClosure?
  }

  predicate TakesId(a: Action) {
    a.Invoke? && !a.api.ApiJoin? && !a.api.ApiLeave? && !a.api.ApiStop?
  }

  ghost predicate Quiet(actions: seq<Action>) {
    forall i :: 0 <= i < |actions| ==> !TakesId(actions[i])
  }

  /** No closure overtakes one whose id was taken earlier: the io thread picks the oldest waiting
      id, and user code on the io thread takes new ids only when none is waiting. */
  ghost predicate InOrder(s: State, l: Label) {
    match l
    case Run(ticket) =>
      ticket in s.queue.pending && s.queue.pending[ticket].AskClosure? ==>
        forall t :: t in s.queue.pending && s.queue.pending[t].AskClosure? ==>
          s.queue.pending[ticket].index <= s.queue.pending[t].index
    case Receive(_, o) => NoneWaiting(s.queue) || forall i :: 0 <= i < |o| ==> Quiet(o[i].actions)
    case _ => true
  }

  ghost predicate InOrderRun(run: seq<Label>) {
    run != [] ==> InOrderRun(run[..|run| - 1]) && InOrder(Exec(run[..|run| - 1]), run[|run| - 1])
  }

  /** Invariant of runs in order, with the id facts it leans on. */
  ghost predicate Good(s: State) {
    s.live && Runs.Steady(s) && (Ids.InRange(s) ==> Ordered(s))
  }

  lemma PrepareOrdered(s: State, a: Api)
    requires Ids.IdsOk(s) && (Ids.InRange(s) ==> Ordered(s))
    ensures Ids.InRange(Prepare(s, a)) ==> Ordered(Prepare(s, a))
  {
  }

  lemma SpendOrdered(s: State, k: nat, reply: Reply)
    requires Ids.IdsOk(s) && Ordered(s)
    ensures Ordered(Spend(s, k, reply).state)
  {
  }

  /** The closure that runs is the oldest one waiting, or asks for nothing. */
  lemma RunOrdered(s: State, ticket: nat)
    requires Ids.IdsOk(s) && Ids.InRange(s) && Ordered(s) && InOrder(s, Run(ticket))
    ensures Ordered(RunClosure(s, ticket).state)
  {
    if ticket in s.queue.pending {
      var c, r := s.queue.pending[ticket], Ids.Removed(s, ticket);
      var t := RunBody(r, c).state;
      BodySends(r, c);
      if c.AskClosure? {
        Ids.FreshId(s, ticket);
        forall u | u in r.queue.pending && r.queue.pending[u].AskClosure?
          ensures c.index < r.queue.pending[u].index
        {
          assert Ids.SameAsk(s.queue.pending[u], c) ==> u == ticket;
        }
      }
    }
  }

  lemma BodySends(s: State, c: Closure)
    requires Fitting(c)
    ensures var t := RunBody(s, c).state;
            && t.queue == s.queue
            && (t.output.sent == s.output.sent || (!c.StopClosure? && t.output.sent == s.output.sent + [c.m]))
            && (!c.AskClosure? && !c.StopClosure? ==> RequestId(c.m) == 0)
  {
    match c {
      case AskClosure(index, m) =>
      case JoinClosure(m) =>
      case LeaveClosure(m) =>
      case StopClosure =>
      case ReplyClosure(k, m) =>
    }
  }

  /** One session call of user code: either it takes no id, or none is waiting. */
  lemma ActGood(s: State, a: Action)
    requires Good(s) && (TakesId(a) ==> NoneWaiting(s.queue))
    ensures Good(Act(s, a)) && (NoneWaiting(s.queue) ==> NoneWaiting(Act(s, a).queue))
  {
    match a {
      case Invoke(api) =>
        Runs.CallApiSteady(s, api);
        Reentrancy.CallApiUndisturbed(s, api);
        Runs.PrepareSteady(s, api);
        CallApiOrdered(s, api);
      case Answer(k, reply) =>
        Runs.ReplyNowSteady(s, k, reply);
        Reentrancy.ReplyNowUndisturbed(s, k, reply);
        Runs.SpendSteady(s, k, reply);
        ReplyNowOrdered(s, k, reply);
    }
  }

  lemma CallApiOrdered(s: State, api: Api)
    requires Ids.IdsOk(s) && Ids.IdsOk(Prepare(s, api)) && (Ids.InRange(s) ==> Ordered(s))
    requires TakesId(Invoke(api)) ==> NoneWaiting(s.queue)
    ensures var t := CallApi(s, api).state;
            (Ids.InRange(t) ==> Ordered(t)) && (NoneWaiting(s.queue) ==> NoneWaiting(t.queue))
  {
    var p := Prepare(s, api);
    PrepareOrdered(s, api);
    ActRuns(s, p, TakesId(Invoke(api)));
    var t := RunClosure(p, s.queue.posted).state;
    var u := CallApi(s, api).state;
    assert u.queue == t.queue && u.output == t.output && u.book == t.book;
    if Ids.InRange(p) { SameOrder(t, u); }
  }

  lemma ReplyNowOrdered(s: State, k: nat, reply: Reply)
    requires Ids.IdsOk(s) && Ids.IdsOk(Spend(s, k, reply).state) && (Ids.InRange(s) ==> Ordered(s))
    ensures var t := ReplyNow(s, k, reply).state;
            (Ids.InRange(t) ==> Ordered(t)) && (NoneWaiting(s.queue) ==> NoneWaiting(t.queue))
  {
    if Spend(s, k, reply).outcome.Ok? {
      if Ids.InRange(s) { SpendOrdered(s, k, reply); }
      ActRuns(s, Spend(s, k, reply).state, false);
    }
  }

  /** The closure just posted is the only new one, and it runs at once. */
  lemma ActRuns(s: State, p: State, asks: bool)
    requires Ids.QueueOk(s.queue) && Ids.IdsOk(p) && (Ids.InRange(p) ==> Ordered(p))
    requires s.queue.posted in p.queue.pending
    requires p.queue.pending[s.queue.posted].AskClosure? <==> asks
    requires p.queue == Queue(s.queue.pending[s.queue.posted := p.queue.pending[s.queue.posted]], s.queue.posted + 1)
    requires asks ==> NoneWaiting(s.queue)
    ensures var t := RunClosure(p, s.queue.posted).state;
            (Ids.InRange(p) ==> Ordered(t)) && (NoneWaiting(s.queue) ==> NoneWaiting(t.queue))
            && t.book.requests == p.book.requests
  {
    var c, r := p.queue.pending[s.queue.posted], Ids.Removed(p, s.queue.posted);
    BodySends(r, c);
    assert InOrder(p, Run(s.queue.posted));
    if Ids.InRange(p) { RunOrdered(p, s.queue.posted); }
    BodyBook(r, c);
  }

  lemma BodyBook(s: State, c: Closure)
    ensures RunBody(s, c).state.book == s.book
  {
  }

  lemma {:induction false} ActAllGood(s: State, actions: seq<Action>)
    requires Good(s) && (NoneWaiting(s.queue) || Quiet(actions))
    ensures Good(ActAll(s, actions)) && (NoneWaiting(s.queue) ==> NoneWaiting(ActAll(s, actions).queue))
    decreases |actions|
  {
    if actions != [] {
      ActGood(s, actions[0]);
      ActAllGood(Act(s, actions[0]), actions[1..]);
    }
  }

  /** States that agree on what matters here. */
  lemma SameOrder(s: State, t: State)
    requires Ordered(s) && t.queue == s.queue && t.output.sent == s.output.sent
    ensures Ordered(t)
  {
  }

  lemma {:induction false} CallHandlersGood(s: State, range: seq<(nat, Handler)>, args: seq<Value>,
                                            kw: seq<Entry>, o: seq<Behaviour>, i: nat)
    requires Good(s) && (NoneWaiting(s.queue) || forall j :: 0 <= j < |o| ==> Quiet(o[j].actions))
    ensures Good(CallHandlers(s, range, args, kw, o, i))
    decreases |range|
  {
    if range != [] {
      var b := BehaviourAt(o, i);
      var s0 := Called(s, HandlerCall(range[0].1, args, kw));
      Ids.SameKeeps(s, s0);
      Lifecycle.SameLife(s, s0);
      Runs.AnswerSteady(s, s0);
      ActAllGood(s0, b.actions);
      if b.exit.Returns? {
        CallHandlersGood(ActAll(s0, b.actions), range[1..], args, kw, o, i + 1);
      }
    }
  }

  lemma RunProcedureGood(s: State, k: nat, b: Behaviour)
    requires Good(s) && (NoneWaiting(s.queue) || Quiet(b.actions))
    ensures Good(RunProcedure(s, k, b))
  {
    ActAllGood(s, b.actions);
    ActGood(ActAll(s, b.actions), Answer(k, ThrownReply(b.exit)));
  }

  lemma MessageOrdered(s: State, v: Value, o: seq<Behaviour>)
    requires Good(s) && InOrder(s, Receive(v, o))
    requires !Lifecycle.Is(v, WELCOME) && !Lifecycle.Is(v, GOODBYE)
    ensures Ids.InRange(GotMessage(s, v, o).state) ==> Ordered(GotMessage(s, v, o).state)
  {
    if Lifecycle.Is(v, INVOCATION) {
      History.Dispatched(s, v, o);
      InvocationOrdered(s, v.items, o);
    } else if Lifecycle.Is(v, EVENT) {
      History.Dispatched(s, v, o);
      EventOrdered(s, v.items, o);
    } else {
      AnswersSendNothing(s, v, o);
    }
  }

  lemma InvocationOrdered(s: State, m: seq<Value>, o: seq<Behaviour>)
    requires Good(s) && |m| > 0 && (NoneWaiting(s.queue) || forall i :: 0 <= i < |o| ==> Quiet(o[i].actions))
    ensures var t := ProcessInvocation(s, m, BehaviourAt(o, 0)).state; Ids.InRange(t) ==> Ordered(t)
  {
    if Invokes(s, m) {
      var s1 := Begun(s, InvocationOf(s, m));
      Runs.NewSteady(s, InvocationOf(s, m));
      RunProcedureGood(s1, |s.invocations|, BehaviourAt(o, 0));
    }
  }

  lemma EventOrdered(s: State, m: seq<Value>, o: seq<Behaviour>)
    requires Good(s) && |m| > 0 && (NoneWaiting(s.queue) || forall i :: 0 <= i < |o| ==> Quiet(o[i].actions))
    ensures var t := ProcessEvent(s, m, o).state; Ids.InRange(t) ==> Ordered(t)
  {
    if ProcessEvent(s, m, o).outcome.Ok? {
      var lo, hi := LowerBound(s.routes.handlers, m[1].n), UpperBound(s.routes.handlers, m[1].n);
      if lo < hi {
        CallHandlersGood(s, s.routes.handlers[lo..hi], TailArgs(m, 4), TailKw(m, 4), o, 0);
      }
    }
  }

  lemma AnswersSendNothing(s: State, v: Value, o: seq<Behaviour>)
    requires !Lifecycle.Is(v, WELCOME) && !Lifecycle.Is(v, GOODBYE)
    requires !Lifecycle.Is(v, INVOCATION) && !Lifecycle.Is(v, EVENT)
    ensures var t := GotMessage(s, v, o).state;
            t.output == s.output && t.queue == s.queue && |t.book.requests| == |s.book.requests|
  {
  }

  /** WELCOME sends nothing, and GOODBYE at most a message without a request id. */
  lemma ClosingOrdered(s: State, v: Value, o: seq<Behaviour>)
    requires Ordered(s) && (Lifecycle.Is(v, WELCOME) || Lifecycle.Is(v, GOODBYE))
    ensures Ordered(Deliver(s, v, o).state)
  {
    History.Dispatched(Received(s, v), v, o);
    var t := Deliver(s, v, o).state;
    assert t.queue == s.queue;
    assert t.output.sent == s.output.sent || t.output.sent == s.output.sent + [Goodbye(GOODBYE_AND_OUT)];
  }

  lemma ClosingBook(s: State, v: Value, o: seq<Behaviour>)
    requires Lifecycle.Is(v, WELCOME) || Lifecycle.Is(v, GOODBYE)
    ensures Deliver(s, v, o).state.book == s.book
  {
    History.Dispatched(Received(s, v), v, o);
  }

  lemma ReceiveOrdered(s: State, v: Value, o: seq<Behaviour>)
    requires Good(s) && InOrder(s, Receive(v, o))
    ensures Ids.InRange(Deliver(s, v, o).state) ==> Ordered(Deliver(s, v, o).state)
  {
    if Lifecycle.Is(v, WELCOME) || Lifecycle.Is(v, GOODBYE) {
      ClosingBook(s, v, o);
      if Ids.InRange(s) { ClosingOrdered(s, v, o); }
    } else {
      var r := Received(s, v);
      Runs.ReceivedSteady(s, v);
      MessageOrdered(r, v, o);
      FinishOrdered(GotMessage(r, v, o), v);
    }
  }

  lemma FinishOrdered(r: Result, v: Value)
    requires Ids.InRange(r.state) ==> Ordered(r.state)
    ensures Ids.InRange(Finish(r, v).state) ==> Ordered(Finish(r, v).state)
  {
    if Ids.InRange(r.state) { SameOrder(r.state, Finish(r, v).state); }
  }

  lemma FaultOrdered(s: State)
    requires Good(s)
    ensures Ids.InRange(Fault(s).state) ==> Ordered(Fault(s).state)
  {
    Runs.FaultCases(s);
    if s.flags.left.Unset? {
      Runs.LeaveCommutes(s);
      ActGood(s, Invoke(ApiLeave(CLOSE_REALM)));
      AfterLeaveOrdered(CallApi(s, ApiLeave(CLOSE_REALM)));
    }
  }

  lemma AfterLeaveOrdered(u: Result)
    requires Good(u.state) && (u.outcome.Ok? ==> u.state.flags.goodbyeSent)
    ensures Ids.InRange(Runs.AfterLeave(u)) ==> Ordered(Runs.AfterLeave(u))
  {
    var t := Runs.LeftSet(u.state);
    if u.outcome.Ok? {
      Runs.LeftSteady(u.state);
      ActGood(t, Invoke(ApiStop));
    }
  }

  lemma StepOrdered(s: State, l: Label)
    requires Good(s) && InOrder(s, l)
    ensures Ids.InRange(Step(s, l)) ==> Ordered(Step(s, l))
  {
    match l {
      case Take(api) =>
        PrepareOrdered(s, api);
      case Run(ticket) =>
        if ticket in s.queue.pending {
          BodyBook(Ids.Removed(s, ticket), s.queue.pending[ticket]);
        }
        if Ids.InRange(s) { RunOrdered(s, ticket); }
      case SpendToken(k, reply) =>
        if Ids.InRange(s) { SpendOrdered(s, k, reply); }
      case Receive(v, o) =>
        ReceiveOrdered(s, v, o);
      case ReadFails =>
        FaultOrdered(s);
    }
  }

  lemma {:induction false} RunsAreOrdered(run: seq<Label>)
    requires InOrderRun(run)
    ensures Ids.InRange(Exec(run)) ==> Ordered(Exec(run))
  {
    if run != [] {
      var front, l := run[..|run| - 1], run[|run| - 1];
      RunsAreOrdered(front);
      Runs.ExecInv(front);
      if Exec(front).live {
        StepOrdered(Exec(front), l);
      }
    }
  }

  /** If closures run in the order ids were taken, request ids on the wire strictly increase. */
  lemma {:induction false} WireIdsRise(run: seq<Label>, j: nat, k: nat)
    requires InOrderRun(run) && Ids.InRange(Exec(run))
    requires j < k < |Exec(run).output.sent|
    requires RequestId(Exec(run).output.sent[j]) != 0 && RequestId(Exec(run).output.sent[k]) != 0
    ensures RequestId(Exec(run).output.sent[j]) < RequestId(Exec(run).output.sent[k])
  {
    RunsAreOrdered(run);
  }
}
