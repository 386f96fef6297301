/** What user code can and cannot reach while a message is being processed. */
module Reentrancy {
  import opened Values
  import opened Wire
  import opened Session

  /** Everything about an invocation except its reply. */
  predicate SameInvocation(a: Invocation, b: Invocation) {
    a == b.(stage := a.stage, given := a.given)
  }

  /** `t` is a state that session API calls can lead to from `s`: the multimap, the procedures, the
      history of messages and calls, and every promise that existed are untouched; requests are
      only added, with their promises unset; a spent reply token stays spent on the same reply; nothing
      is received, and what is sent is sent; a waiting closure stays what it is; a session that was closed
      or stopped stays so, and once stopped nothing is sent. */
  ghost predicate Undisturbed(s: State, t: State) {
    && t.live == s.live
    && t.routes == s.routes
    && t.past == s.past
    && t.flags.joined == s.flags.joined
    && t.flags.left == s.flags.left
    && (s.flags.halted.Set? ==> t.flags.halted == s.flags.halted)
    && QueueMoves(s.queue, t.queue)
    && t.signals == s.signals
    && s.output.sent <= t.output.sent
    && OnlySends(s.output.trace, t.output.trace)
    && Closing(s.flags, t.flags)
    && (s.flags.stopped ==> t.output == s.output)
    && RequestsGrow(s.book.requests, t.book.requests)
    && RepliesMove(s.invocations, t.invocations)
  }

  /** New closures come behind the old ones, which change in nothing while they wait. */
  ghost predicate QueueMoves(before: Queue, after: Queue) {
    && before.posted <= after.posted
    && forall t :: t in after.pending && t < before.posted ==>
         t in before.pending && after.pending[t] == before.pending[t]
  }

  /** The trace goes on with messages sent. */
  ghost predicate OnlySends(before: seq<Event>, after: seq<Event>) {
    && before <= after
    && forall i :: |before| <= i < |after| ==> after[i].Out?
  }

  predicate Closing(before: Flags, after: Flags) {
    (before.goodbyeSent ==> after.goodbyeSent) && (before.stopped ==> after.stopped)
  }

  ghost predicate RequestsGrow(before: seq<Request>, after: seq<Request>) {
    && before <= after
    && forall i :: |before| <= i < |after| ==> after[i].promise.Unset?
  }

  ghost predicate RepliesMove(before: seq<Invocation>, after: seq<Invocation>) {
    && |after| == |before|
    && (forall k :: 0 <= k < |before| ==> SameInvocation(before[k], after[k]))
    && (forall k :: 0 <= k < |before| && !before[k].stage.Held? ==>
          !after[k].stage.Held? && after[k].given == before[k].given)
  }

  lemma Transitive(s: State, t: State, u: State)
    requires Undisturbed(s, t) && Undisturbed(t, u)
    ensures Undisturbed(s, u)
  {
    SendsOnly(s.output.trace, t.output.trace, u.output.trace);
    forall i | |s.book.requests| <= i < |u.book.requests|
      ensures u.book.requests[i].promise.Unset?
    {
      if i < |t.book.requests| { assert u.book.requests[i] == t.book.requests[i]; }
    }
  }

  lemma SendsOnly(a: seq<Event>, b: seq<Event>, c: seq<Event>)
    requires OnlySends(a, b) && OnlySends(b, c)
    ensures OnlySends(a, c)
  {
    forall i | |a| <= i < |c| ensures c[i].Out? {
      if i < |b| { assert c[i] == b[i]; }
    }
  }

  lemma PrepareUndisturbed(s: State, a: Api)
    ensures Undisturbed(s, Prepare(s, a))
  {
  }

  /** Moving one reply along, never back to `Held`, is no disturbance. */
  lemma RestageUndisturbed(s: State, k: nat, stage: Stage, given: Option<Reply>)
    requires k < |s.invocations| && !stage.Held?
    requires s.invocations[k].stage.Held? || given == s.invocations[k].given
    ensures RepliesMove(s.invocations, s.invocations[k := s.invocations[k].(stage := stage, given := given)])
  {
  }

  lemma RunReplyUndisturbed(s: State, k: nat, m: WireMsg)
    ensures Undisturbed(s, RunReply(s, k, m).state)
  {
    if k < |s.invocations| {
      RestageUndisturbed(s, k, if s.flags.stopped then Dropped(m) else Delivered(m), s.invocations[k].given);
    }
  }

  lemma SendUndisturbed(s: State, m: WireMsg)
    ensures Undisturbed(s, Send(s, m))
  {
  }

  lemma TableUndisturbed(s: State, k: Kind, t: map<nat, nat>)
    ensures Undisturbed(s, WithTable(s, k, t))
  {
  }

  lemma RunAskUndisturbed(s: State, index: nat, m: WireMsg)
    ensures Undisturbed(s, RunAsk(s, index, m).state)
  {
    if index < |s.book.requests| {
      var k := s.book.requests[index].kind;
      var t := WithTable(s, k, Emplace(Table(s, k), RequestId(m), index));
      TableUndisturbed(s, k, Emplace(Table(s, k), RequestId(m), index));
      SendUndisturbed(t, m);
      Transitive(s, t, Send(t, m));
    } else {
      SendUndisturbed(s, m);
    }
  }

  lemma RunLeaveUndisturbed(s: State, m: WireMsg)
    ensures Undisturbed(s, RunLeave(s, m).state)
  {
    SendUndisturbed(s.(flags := s.flags.(goodbyeSent := true, sessionId := 0)), m);
  }

  lemma RunBodyUndisturbed(s: State, c: Closure)
    ensures Undisturbed(s, RunBody(s, c).state)
  {
    match c {
      case AskClosure(index, m) => RunAskUndisturbed(s, index, m);
      case JoinClosure(m) => SendUndisturbed(s, m);
      case LeaveClosure(m) => RunLeaveUndisturbed(s, m);
      case StopClosure =>
      case ReplyClosure(k, m) => RunReplyUndisturbed(s, k, m);
    }
  }

  lemma RunUndisturbed(s: State, ticket: nat)
    ensures Undisturbed(s, RunClosure(s, ticket).state)
  {
    if ticket in s.queue.pending {
      RunBodyUndisturbed(s.(queue := s.queue.(pending := s.queue.pending - {ticket})), s.queue.pending[ticket]);
    }
  }

  lemma SpendUndisturbed(s: State, k: nat, reply: Reply)
    ensures Undisturbed(s, Spend(s, k, reply).state)
  {
    if k < |s.invocations| && s.invocations[k].stage.Held? {
      RestageUndisturbed(s, k, Queued(ReplyMsg(s.invocations[k].id, reply)), Some(reply));
    }
  }

  lemma CallApiUndisturbed(s: State, a: Api)
    ensures Undisturbed(s, CallApi(s, a).state)
  {
    var p := Prepare(s, a);
    PrepareUndisturbed(s, a);
    RunUndisturbed(p, s.queue.posted);
    Transitive(s, p, RunClosure(p, s.queue.posted).state);
  }

  lemma ReplyNowUndisturbed(s: State, k: nat, reply: Reply)
    ensures Undisturbed(s, ReplyNow(s, k, reply).state)
  {
    var p := Spend(s, k, reply).state;
    SpendUndisturbed(s, k, reply);
    RunUndisturbed(p, s.queue.posted);
    Transitive(s, p, RunClosure(p, s.queue.posted).state);
  }

  /** Whatever sequence of session calls user code makes, nothing a walk or an iterator rests on
      changes under it. */
  lemma {:induction false} ActAllUndisturbed(s: State, actions: seq<Action>)
    ensures Undisturbed(s, ActAll(s, actions))
    decreases |actions|
  {
    if actions != [] {
      var t := Act(s, actions[0]);
      match actions[0] {
        case Invoke(api) => CallApiUndisturbed(s, api);
        case Answer(k, reply) => ReplyNowUndisturbed(s, k, reply);
      }
      ActAllUndisturbed(t, actions[1..]);
      Transitive(s, t, ActAll(t, actions[1..]));
    }
  }

  /** A procedure's run, with the error reply that follows when it throws. */
  lemma RunProcedureUndisturbed(s: State, k: nat, b: Behaviour)
    ensures Undisturbed(s, RunProcedure(s, k, b))
  {
    var t := ActAll(s, b.actions);
    ActAllUndisturbed(s, b.actions);
    ReplyNowUndisturbed(t, k, ThrownReply(b.exit));
    Transitive(s, t, ReplyNow(t, k, ThrownReply(b.exit)).state);
  }

  /** The walk over a range of handlers disturbs nothing but the list of calls. */
  lemma {:induction false} CallHandlersUndisturbed(s: State, range: seq<(nat, Handler)>, args: seq<Value>,
                                                   kw: seq<Entry>, o: seq<Behaviour>, i: nat)
    ensures var t := CallHandlers(s, range, args, kw, o, i);
            s.past.called <= t.past.called && Undisturbed(s, t.(past := t.past.(called := s.past.called)))
    decreases |range|
  {
    if range != [] {
      var b := BehaviourAt(o, i);
      var s0 := Called(s, HandlerCall(range[0].1, args, kw));
      var s1 := ActAll(s0, b.actions);
      ActAllUndisturbed(s0, b.actions);
      var u := s1.(past := s.past);
      assert Undisturbed(s, u);
      if b.exit.Returns? {
        CallHandlersUndisturbed(s1, range[1..], args, kw, o, i + 1);
        var t := CallHandlers(s1, range[1..], args, kw, o, i + 1);
        Transitive(s, u, t.(past := t.past.(called := s.past.called)));
      }
    }
  }
}
