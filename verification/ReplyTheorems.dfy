/** What a procedure or handler gives to result() or error() is what its invocation is answered with,
    whoever gives it and whenever. */
module ReplyTheorems {
  import opened Values
  import opened Wire
  import opened Session
  import Lifecycle
  import History
  import MessageTheorems
  import Progress
  import Reentrancy
  import Replies
  import Runs

  predicate HeldAt(s: State, k: nat) {
    k < |s.invocations| && s.invocations[k].stage.Held?
  }

  /** Invocation `k` has been given this reply. */
  predicate Given(s: State, k: nat, reply: Reply) {
    k < |s.invocations| && !s.invocations[k].stage.Held? && s.invocations[k].given == Some(reply)
  }

  /** result() and error() work exactly while the token is held; they queue one message, and it is the
      YIELD or the ERROR with the invocation's id and the very arguments. */
  lemma SpendSays(s: State, k: nat, reply: Reply)
    ensures var r := Spend(s, k, reply);
            && (r.outcome.Ok? <==> HeldAt(s, k))
            && (r.outcome.Raised? ==> r.state == s)
            && (r.outcome.Ok? ==>
                  && Given(r.state, k, reply) && r.state.invocations[k].stage.Queued?
                  && Replies.AnswersWith(r.state.invocations[k].stage.m, s.invocations[k].id, reply)
                  && r.state.queue.pending
                     == s.queue.pending[s.queue.posted := ReplyClosure(k, r.state.invocations[k].stage.m)])
  {
  }

  // ---------------------------------------------------------------- user code

  /** The handlers that an EVENT reaches. */
  function HandlersOf(s: State, v: Value): seq<(nat, Handler)>
    requires MessageTheorems.WellTypedEvent(v)
  {
    var lo, hi := LowerBound(s.routes.handlers, v.items[1].n), UpperBound(s.routes.handlers, v.items[1].n);
    if lo < hi then s.routes.handlers[lo..hi] else []
  }

  /** While this message is processed, user code number `i` runs: the procedure of an INVOCATION, or a
      handler of an EVENT after others that have returned. */
  predicate CodeRuns(s: State, v: Value, o: seq<Behaviour>, i: nat) {
    if Lifecycle.Is(v, INVOCATION) then Invokes(s, v.items) && i == 0
    else
      && MessageTheorems.WellTypedEvent(v) && i < |HandlersOf(s, v)|
      && forall h :: 0 <= h < i ==> BehaviourAt(o, h).exit.Returns?
  }

  /** The session as that code finds it. */
  function Found(s: State, v: Value, o: seq<Behaviour>, i: nat): State
    requires CodeRuns(s, v, o, i)
  {
    if Lifecycle.Is(v, INVOCATION) then Begun(s, InvocationOf(s, v.items))
    else
      var range, args, kw := HandlersOf(s, v), TailArgs(v.items, 4), TailKw(v.items, 4);
      Called(CallHandlers(s, range[..i], args, kw, o, 0), HandlerCall(range[i].1, args, kw))
  }

  /** Action `j` of that code is result() or error() on invocation `k`, whose token is held by then. */
  predicate GivesAt(s: State, v: Value, o: seq<Behaviour>, i: nat, j: nat, k: nat, reply: Reply) {
    && CodeRuns(s, v, o, i) && j < |BehaviourAt(o, i).actions|
    && BehaviourAt(o, i).actions[j] == Answer(k, reply)
    && HeldAt(ActAll(Found(s, v, o, i), BehaviourAt(o, i).actions[..j]), k)
  }

  /** In this step invocation `k` is answered: from any thread, or by code that runs in it. */
  ghost predicate Gives(s: State, l: Label, k: nat, reply: Reply) {
    match l
    case SpendToken(t, r) => t == k && r == reply && HeldAt(s, k)
    case Receive(v, o) => exists i, j :: GivesAt(Received(s, v), v, o, i, j, k, reply)
    case _ => false
  }

  lemma StaysGiven(s: State, t: State, k: nat, reply: Reply)
    requires Given(s, k, reply) && Reentrancy.Undisturbed(s, t)
    ensures Given(t, k, reply)
  {
  }

  lemma ActGives(s: State, k: nat, reply: Reply)
    requires HeldAt(s, k)
    ensures Given(Act(s, Answer(k, reply)), k, reply)
  {
    var r := Spend(s, k, reply);
    SpendSays(s, k, reply);
    Reentrancy.RunUndisturbed(r.state, s.queue.posted);
    StaysGiven(r.state, RunClosure(r.state, s.queue.posted).state, k, reply);
  }

  lemma {:induction false} ActAllGives(s: State, actions: seq<Action>, j: nat, k: nat, reply: Reply)
    requires j < |actions| && actions[j] == Answer(k, reply) && HeldAt(ActAll(s, actions[..j]), k)
    ensures Given(ActAll(s, actions), k, reply)
    decreases j
  {
    var t, more := Act(s, actions[0]), actions[1..];
    if j == 0 {
      ActGives(s, k, reply);
      Reentrancy.ActAllUndisturbed(t, more);
      StaysGiven(t, ActAll(t, more), k, reply);
    } else {
      assert actions[..j][1..] == more[..j - 1];
      ActAllGives(t, more, j - 1, k, reply);
    }
  }

  lemma ProcedureGives(s: State, v: Value, o: seq<Behaviour>, j: nat, k: nat, reply: Reply)
    requires Lifecycle.Is(v, INVOCATION) && GivesAt(s, v, o, 0, j, k, reply)
    ensures Given(GotMessage(s, v, o).state, k, reply)
  {
    var b, s1, n := BehaviourAt(o, 0), Found(s, v, o, 0), |s.invocations|;
    var t := ActAll(s1, b.actions);
    ActAllGives(s1, b.actions, j, k, reply);
    Reentrancy.ReplyNowUndisturbed(t, n, ThrownReply(b.exit));
    StaysGiven(t, ReplyNow(t, n, ThrownReply(b.exit)).state, k, reply);
    History.Dispatched(s, v, o);
    assert GotMessage(s, v, o).state == RunProcedure(s1, n, b);
  }

  /** A walk whose first `i` handlers return, from the next one on. */
  lemma {:induction false} WalkFrom(s: State, range: seq<(nat, Handler)>, args: seq<Value>, kw: seq<Entry>,
                                    o: seq<Behaviour>, i: nat, from: nat)
    requires i <= |range| && forall h :: from <= h < from + i ==> BehaviourAt(o, h).exit.Returns?
    ensures CallHandlers(s, range, args, kw, o, from)
            == CallHandlers(CallHandlers(s, range[..i], args, kw, o, from), range[i..], args, kw, o, from + i)
    decreases i
  {
    if i == 0 {
      assert range[..0] == [] && range[0..] == range;
    } else {
      var t := ActAll(Called(s, HandlerCall(range[0].1, args, kw)), BehaviourAt(o, from).actions);
      assert range[..i][1..] == range[1..][..i - 1] && range[1..][i - 1..] == range[i..];
      assert BehaviourAt(o, from).exit.Returns?;
      WalkFrom(t, range[1..], args, kw, o, i - 1, from + 1);
    }
  }

  lemma HandlerGives(s: State, v: Value, o: seq<Behaviour>, i: nat, j: nat, k: nat, reply: Reply)
    requires !Lifecycle.Is(v, INVOCATION) && GivesAt(s, v, o, i, j, k, reply)
    ensures Given(GotMessage(s, v, o).state, k, reply)
  {
    var range, args, kw, b := HandlersOf(s, v), TailArgs(v.items, 4), TailKw(v.items, 4), BehaviourAt(o, i);
    var t := ActAll(Found(s, v, o, i), b.actions);
    ActAllGives(Found(s, v, o, i), b.actions, j, k, reply);
    WalkFrom(s, range, args, kw, o, i, 0);
    RestKeepsGiven(t, range[i + 1..], args, kw, o, i + 1, k, reply);
    assert range[i..][1..] == range[i + 1..];
    History.Dispatched(s, v, o);
    assert GotMessage(s, v, o).state == CallHandlers(s, range, args, kw, o, 0);
  }

  lemma RestKeepsGiven(s: State, range: seq<(nat, Handler)>, args: seq<Value>, kw: seq<Entry>,
                       o: seq<Behaviour>, i: nat, k: nat, reply: Reply)
    requires Given(s, k, reply)
    ensures Given(CallHandlers(s, range, args, kw, o, i), k, reply)
  {
    var t := CallHandlers(s, range, args, kw, o, i);
    Reentrancy.CallHandlersUndisturbed(s, range, args, kw, o, i);
    StaysGiven(s, t.(past := t.past.(called := s.past.called)), k, reply);
  }

  lemma StepGives(s: State, l: Label, k: nat, reply: Reply)
    requires s.live && Gives(s, l, k, reply)
    ensures Given(Step(s, l), k, reply)
  {
    match l {
      case SpendToken(_, _) => SpendSays(s, k, reply);
      case Receive(v, o) =>
        var i, j :| GivesAt(Received(s, v), v, o, i, j, k, reply);
        if Lifecycle.Is(v, INVOCATION) {
          ProcedureGives(Received(s, v), v, o, j, k, reply);
        } else {
          HandlerGives(Received(s, v), v, o, i, j, k, reply);
        }
      case _ =>
    }
  }

  // ---------------------------------------------------------------- over runs

  /** However the run goes on, the one message that answers the invocation is the YIELD with the
      arguments given to result(), or the ERROR with the URI and the arguments given to error(). */
  lemma {:induction false} ReplyIsGiven(before: seq<Label>, l: Label, after: seq<Label>, k: nat, reply: Reply)
    requires Exec(before).live && Gives(Exec(before), l, k, reply)
    ensures var s := Exec(before + [l] + after);
            && Given(s, k, reply) && Replies.AnswersWith(s.invocations[k].stage.m, s.invocations[k].id, reply)
  {
    var s, t := Exec(before + [l]), Exec(before + [l] + after);
    Runs.ExecSnoc(before, l);
    StepGives(Exec(before), l, k, reply);
    Progress.RunOnward(before + [l], after);
    assert Reentrancy.SameInvocation(s.invocations[k], t.invocations[k]);
    Runs.ExecReplies(before + [l] + after);
    assert Replies.StageOk(t.invocations[k]);
  }
}
