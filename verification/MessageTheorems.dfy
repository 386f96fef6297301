/** What one router message does, in any state or in any state a run can reach. */
module MessageTheorems {
  import opened Values
  import opened Wire
  import opened Session
  import opened HandlerIndex
  import Ids
  import Lifecycle
  import Replies
  import Reentrancy
  import History
  import Runs
  import Sequences

  // ---------------------------------------------------------------- events

  /** An EVENT whose fields have the types the session asks for. */
  predicate WellTypedEvent(v: Value) {
    && v.Array? && 4 <= |v.items| <= 6
    && v.items[0] == UInt(EVENT) && v.items[1].UInt? && v.items[2].UInt? && v.items[3].Dict?
    && TailTyped(v.items, 4)
  }

  /** In every run, an event reaches exactly the handlers of the SUBSCRIBED messages accepted so far
      for its subscription id, in the order of acceptance, each once and with the event's own
      arguments; when one throws, those up to and including it. */
  lemma {:induction false} EventReachesItsHandlers(run: seq<Label>, v: Value, o: seq<Behaviour>)
    requires Ids.InRange(Exec(run)) && WellTypedEvent(v)
    ensures var s := Exec(run);
            var r := Deliver(s, v, o);
            var hs := For(History.Bindings(s.past.accepted, s.book.requests), v.items[1].n);
            && r.outcome.Ok?
            && r.state.past.called == s.past.called
               + CallsOf(hs[..Reached(|hs|, o, 0)], TailArgs(v.items, 4), TailKw(v.items, 4))
  {
    Runs.ExecHistory(run);
    EventCalls(Exec(run), v, o);
  }

  lemma EventCalls(s: State, v: Value, o: seq<Behaviour>)
    requires History.HistoryOk(s) && Ids.InRange(s) && WellTypedEvent(v)
    ensures var r := Deliver(s, v, o);
            var hs := For(History.Bindings(s.past.accepted, s.book.requests), v.items[1].n);
            && r.outcome.Ok?
            && r.state.past.called == s.past.called
               + CallsOf(hs[..Reached(|hs|, o, 0)], TailArgs(v.items, 4), TailKw(v.items, 4))
  {
    var m, key, hs := v.items, v.items[1].n, s.routes.handlers;
    var s0 := Received(s, v);
    var lo, hi := LowerBound(hs, key), UpperBound(hs, key);
    assert For(hs, key) == For(History.Bindings(s.past.accepted, s.book.requests), key);
    RangeIsFor(hs, key);
    NamesLength(hs[lo..hi]);
    History.Dispatched(s0, v, o);
    WalkCalls(s0, hs[lo..hi], TailArgs(m, 4), TailKw(m, 4), o, 0);
  }

  lemma {:induction false} NamesLength(range: seq<(nat, Handler)>)
    ensures |Names(range)| == |range|
  {
    if range != [] { NamesLength(range[1..]); }
  }

  /** The walk calls the handlers of its range in order, up to the first that throws, whatever the
      handlers themselves do to the session. */
  lemma {:induction false} WalkCalls(s: State, range: seq<(nat, Handler)>, args: seq<Value>, kw: seq<Entry>,
                                     o: seq<Behaviour>, i: nat)
    ensures |Names(range)| == |range|
    ensures CallHandlers(s, range, args, kw, o, i).past.called
            == s.past.called + CallsOf(Names(range)[..Reached(|range|, o, i)], args, kw)
    decreases |range|
  {
    if range == [] {
      assert s.past.called + [] == s.past.called;
    } else {
      var b, c := BehaviourAt(o, i), HandlerCall(range[0].1, args, kw);
      var s0 := Called(s, c);
      var s1 := ActAll(s0, b.actions);
      Reentrancy.ActAllUndisturbed(s0, b.actions);
      NamesLength(range);
      if b.exit.Returns? {
        WalkCalls(s1, range[1..], args, kw, o, i + 1);
        CallsOfPrefix(range[0].1, Names(range[1..]), Reached(|range| - 1, o, i + 1), args, kw);
        Sequences.Regroup(s.past.called, [c], CallsOf(Names(range[1..])[..Reached(|range| - 1, o, i + 1)], args, kw));
      } else {
        CallsOfPrefix(range[0].1, Names(range[1..]), 0, args, kw);
      }
    }
  }

  lemma CallsOfPrefix(h: Handler, tail: seq<Handler>, n: nat, args: seq<Value>, kw: seq<Entry>)
    requires n <= |tail|
    ensures CallsOf(([h] + tail)[..1 + n], args, kw) == [HandlerCall(h, args, kw)] + CallsOf(tail[..n], args, kw)
  {
    assert ([h] + tail)[..1 + n] == [h] + tail[..n];
    CallsOfCons(h, tail[..n], args, kw);
  }

  lemma CallsOfCons(h: Handler, tail: seq<Handler>, args: seq<Value>, kw: seq<Entry>)
    ensures CallsOf([h] + tail, args, kw) == [HandlerCall(h, args, kw)] + CallsOf(tail, args, kw)
  {
    assert ([h] + tail)[1..] == tail;
  }

  // ---------------------------------------------------------------- rejection

  /** A message that is rejected as a protocol error leaves no trace in the session. */
  lemma RejectionIsAtomic(s: State, v: Value, o: seq<Behaviour>)
    requires GotMessage(s, v, o).outcome == Raised(ProtocolError)
    ensures GotMessage(s, v, o).state == s
  {
    if v.Array? && |v.items| > 0 && v.items[0].UInt? {
      History.Dispatched(s, v, o);
      RejectedSettlement(s, v.items);
    }
  }

  lemma RejectedSettlement(s: State, m: seq<Value>)
    requires |m| > 0
    ensures ProcessSubscribed(s, m).outcome == Raised(ProtocolError) ==> ProcessSubscribed(s, m).state == s
    ensures ProcessUnsubscribed(s, m).outcome == Raised(ProtocolError) ==> ProcessUnsubscribed(s, m).state == s
    ensures ProcessRegistered(s, m).outcome == Raised(ProtocolError) ==> ProcessRegistered(s, m).state == s
  {
  }

  /** The messages whose processing throws after it has begun to change the session: a second
      WELCOME with another id, a GOODBYE whose reason is missing, not a string or not expected any
      more, and a second REGISTERED for one request that names another procedure. */
  predicate Torn(s: State, v: Value) {
    && v.Array? && |v.items| > 0
    && var m := v.items;
       || (m[0] == UInt(WELCOME) && |m| >= 2 && m[1].UInt? && s.flags.joined.Set? && m[1].n != s.flags.sessionId)
       || (m[0] == UInt(GOODBYE) && (|m| < 3 || Text(m[2]).None? || s.flags.left.Set?)
           && (s.flags.sessionId != 0 || (!s.flags.goodbyeSent && !s.flags.stopped)))
       || (m[0] == UInt(REGISTERED) && |m| == 3 && m[1].UInt? && m[2].UInt? && m[1].n in s.tables.registers
           && s.tables.registers[m[1].n] < |s.book.requests|
           && var r := s.book.requests[s.tables.registers[m[1].n]];
              r.promise.Set?
              && !(m[2].n in s.routes.procedures && s.routes.procedures[m[2].n] == r.callable))
  }

  /** In every state a run can reach, a throwing message leaves the session changed exactly when it
      is one of those. */
  lemma {:induction false} FailureChangesState(run: seq<Label>, v: Value, o: seq<Behaviour>)
    requires Ids.InRange(Exec(run)) && GotMessage(Exec(run), v, o).outcome.Raised?
    ensures GotMessage(Exec(run), v, o).state != Exec(run) <==> Torn(Exec(run), v)
  {
    Runs.ExecIds(run);
    FailureEffect(Exec(run), v, o);
  }

  lemma FailureEffect(s: State, v: Value, o: seq<Behaviour>)
    requires Ids.IdsOk(s) && Ids.InRange(s) && GotMessage(s, v, o).outcome.Raised?
    ensures GotMessage(s, v, o).state != s <==> Torn(s, v)
  {
    if v.Array? && |v.items| > 0 && v.items[0].UInt? {
      var code := v.items[0].n;
      History.Dispatched(s, v, o);
      if code == WELCOME { WelcomeEffect(s, v.items); }
      else if code == GOODBYE { GoodbyeEffect(s, v.items); }
      else if code == REGISTERED { RegisteredEffect(s, v.items); }
      else if code == SUBSCRIBED {
        assert Ids.TableOk(s, SubscribeKind);
        SubscribedEffect(s, v.items);
      } else { OtherEffect(s, v, o); }
    }
  }

  lemma WelcomeEffect(s: State, m: seq<Value>)
    requires |m| > 0 && Welcome(s, m).outcome.Raised?
    ensures Welcome(s, m).state != s <==>
              |m| >= 2 && m[1].UInt? && s.flags.joined.Set? && m[1].n != s.flags.sessionId
  {
    if |m| >= 2 && m[1].UInt? {
      assert Welcome(s, m).state.flags.sessionId == m[1].n;
    }
  }

  lemma GoodbyeEffect(s: State, m: seq<Value>)
    requires |m| > 0 && ProcessGoodbye(s, m).outcome.Raised?
    ensures ProcessGoodbye(s, m).state != s <==>
              (|m| < 3 || Text(m[2]).None? || s.flags.left.Set?)
              && (s.flags.sessionId != 0 || (!s.flags.goodbyeSent && !s.flags.stopped))
  {
    var t := ProcessGoodbye(s, m).state;
    if s.flags.sessionId != 0 {
      assert t.flags.sessionId == 0;
    } else if !s.flags.goodbyeSent && !s.flags.stopped {
      assert |t.output.sent| == |s.output.sent| + 1;
    } else {
      assert s.(flags := s.flags.(sessionId := 0)) == s;
    }
  }

  lemma RegisteredEffect(s: State, m: seq<Value>)
    requires |m| > 0 && m[0] == UInt(REGISTERED) && ProcessRegistered(s, m).outcome.Raised?
    ensures ProcessRegistered(s, m).state != s <==> Torn(s, Array(m))
  {
    var t := ProcessRegistered(s, m).state;
    if |m| == 3 && m[1].UInt? && m[2].UInt? && m[1].n in s.tables.registers {
      var index := s.tables.registers[m[1].n];
      if index < |s.book.requests| {
        var p := s.book.requests[index].callable;
        assert t.routes.procedures == s.routes.procedures[m[2].n := p];
        if m[2].n in s.routes.procedures && s.routes.procedures[m[2].n] == p {
          assert t.routes.procedures == s.routes.procedures;
        } else {
          assert t.routes.procedures[m[2].n] == p;
        }
      }
    }
  }

  lemma SubscribedEffect(s: State, m: seq<Value>)
    requires |m| > 0 && Ids.TableOk(s, SubscribeKind) && ProcessSubscribed(s, m).outcome.Raised?
    ensures ProcessSubscribed(s, m).state == s
  {
    assert History.Subscribes(s, m) ==> m[1].n in Table(s, SubscribeKind);
  }

  lemma OtherEffect(s: State, v: Value, o: seq<Behaviour>)
    requires v.Array? && |v.items| > 0 && v.items[0].UInt? && GotMessage(s, v, o).outcome.Raised?
    requires v.items[0].n != WELCOME && v.items[0].n != GOODBYE
    requires v.items[0].n != REGISTERED && v.items[0].n != SUBSCRIBED
    ensures GotMessage(s, v, o).state == s
  {
    History.Dispatched(s, v, o);
  }

  /** An element past the end of the message is read exactly for a WELCOME without an id and a GOODBYE
      without a reason, in every state. */
  lemma UndefinedIff(s: State, v: Value, o: seq<Behaviour>)
    ensures GotMessage(s, v, o).outcome == Raised(Undefined) <==>
              (Lifecycle.Is(v, WELCOME) && |v.items| < 2) || (Lifecycle.Is(v, GOODBYE) && |v.items| < 3)
  {
    if v.Array? && |v.items| > 0 && v.items[0].UInt? {
      History.Dispatched(s, v, o);
    }
  }

  /** Which processing a message gets, by the numbers of the WAMP Basic Profile, in every state: those that
      only a router takes, and CHALLENGE, AUTHENTICATE and INTERRUPT, are rejected, nine are processed, and
      every other code is ignored; what is no array with a number in front is rejected. */
  lemma DispatchMeans(s: State, v: Value, o: seq<Behaviour>)
    ensures !(v.Array? && |v.items| > 0 && v.items[0].UInt?) ==> GotMessage(s, v, o) == Fail(s, ProtocolError)
    ensures v.Array? && |v.items| > 0 && v.items[0].UInt? ==>
              var r, m, code := GotMessage(s, v, o), v.items, v.items[0].n;
              && (code > 0x7FFF_FFFF ==> r == Fail(s, TypeError))
              && (code in {1, 4, 5, 16, 32, 34, 48, 49, 64, 66, 69, 70} ==> r == Fail(s, ProtocolError))
              && (code == 2 ==> r == Welcome(s, m))
              && (code == 6 ==> r == ProcessGoodbye(s, m))
              && (code == 8 ==> r == ProcessError(s, m))
              && (code == 33 ==> r == ProcessSubscribed(s, m))
              && (code == 35 ==> r == ProcessUnsubscribed(s, m))
              && (code == 36 ==> r == ProcessEvent(s, m, o))
              && (code == 50 ==> r == ProcessResult(s, m))
              && (code == 65 ==> r == ProcessRegistered(s, m))
              && (code == 68 ==> r == ProcessInvocation(s, m, BehaviourAt(o, 0)))
              && (code <= 0x7FFF_FFFF
                  && code !in {1, 2, 4, 5, 6, 8, 16, 32, 33, 34, 35, 36, 48, 49, 50, 64, 65, 66, 68, 69, 70} ==>
                    r == Good(s))
  {
  }

  // ---------------------------------------------------------------- the text of an ERROR

  /** Both halves of the entry convert to strings. */
  predicate Textual(e: Entry) {
    (e.key.Str? || e.key.Bin?) && (e.val.Str? || e.val.Bin?)
  }

  function Word(v: Value): string
    requires v.Str? || v.Bin?
  {
    if v.Str? then v.s else v.octets
  }

  predicate SaysWhat(e: Entry) {
    Textual(e) && Word(e.key) == "what"
  }

  predicate AllTextual(kw: seq<Entry>) {
    forall j :: 0 <= j < |kw| ==> Textual(kw[j])
  }

  predicate NoneSaysWhat(kw: seq<Entry>) {
    forall j :: 0 <= j < |kw| ==> !SaysWhat(kw[j])
  }

  /** Entry `i` is the last one called "what". */
  predicate LastWhat(kw: seq<Entry>, i: nat) {
    i < |kw| && SaysWhat(kw[i]) && forall j :: i < j < |kw| ==> !SaysWhat(kw[j])
  }

  /** The text of an ERROR: the URI alone without keyword arguments or with none called "what"; followed by
      the last "what"; or by "unknown exception" as soon as one entry is no text. */
  lemma ErrorTextMeans(uri: string, kw: seq<Entry>)
    ensures ErrorText(uri, None) == uri
    ensures !AllTextual(kw) ==> ErrorText(uri, Some(kw)) == uri + ": unknown exception"
    ensures AllTextual(kw) && NoneSaysWhat(kw) ==> ErrorText(uri, Some(kw)) == uri
    ensures forall i: nat :: AllTextual(kw) && LastWhat(kw, i) ==>
              ErrorText(uri, Some(kw)) == uri + ": " + Word(kw[i].val)
  {
    WhatFails(kw);
    if AllTextual(kw) && NoneSaysWhat(kw) { WhatMissing(kw); }
    forall i: nat | AllTextual(kw) && LastWhat(kw, i) ensures What(kw) == Some(Some(Word(kw[i].val))) {
      WhatFound(kw, i);
    }
  }

  lemma {:induction false} WhatFails(kw: seq<Entry>)
    ensures What(kw).None? <==> !AllTextual(kw)
  {
    if kw != [] {
      var front := kw[..|kw| - 1];
      WhatFails(front);
      assert AllTextual(kw) <==> AllTextual(front) && Textual(kw[|kw| - 1]);
    }
  }

  lemma {:induction false} WhatMissing(kw: seq<Entry>)
    requires AllTextual(kw) && NoneSaysWhat(kw)
    ensures What(kw) == Some(None)
  {
    if kw != [] {
      assert Textual(kw[|kw| - 1]) && !SaysWhat(kw[|kw| - 1]);
      WhatMissing(kw[..|kw| - 1]);
    }
  }

  lemma {:induction false} WhatFound(kw: seq<Entry>, i: nat)
    requires AllTextual(kw) && LastWhat(kw, i)
    ensures What(kw) == Some(Some(Word(kw[i].val)))
  {
    var front, last := kw[..|kw| - 1], kw[|kw| - 1];
    assert Textual(last);
    WhatFails(front);
    if i < |kw| - 1 {
      WhatFound(front, i);
      assert !SaysWhat(last);
    }
  }

  /** No exception ever settles a future of a request. */
  lemma ExceptionsSettleNothing(s: State, v: Value, o: seq<Behaviour>)
    requires GotMessage(s, v, o).outcome.Raised?
    ensures GotMessage(s, v, o).state.book == s.book
  {
    if v.Array? && |v.items| > 0 && v.items[0].UInt? {
      History.Dispatched(s, v, o);
    }
  }

  // ---------------------------------------------------------------- replies

  /** INVOCATION messages with request id `r`. */
  function InvocationMessages(vs: seq<Value>, r: nat): nat {
    if vs == [] then 0
    else InvocationMessages(vs[..|vs| - 1], r)
         + if Carries(vs[|vs| - 1], r) then 1 else 0
  }

  /** In every run and for every request id, the replies on the wire are the delivered replies of
      accepted invocations, one each, so there are never more than INVOCATION messages accepted. */
  lemma {:induction false} AtMostOneReplyEach(run: seq<Label>, r: nat)
    requires Ids.InRange(Exec(run))
    ensures var s := Exec(run);
            && Replies.SentReplies(s.output.sent, r) == Replies.DeliveredReplies(s.invocations, r)
            && Replies.SentReplies(s.output.sent, r) <= InvocationMessages(s.past.accepted, r)
  {
    var s := Exec(run);
    Runs.ExecReplies(run);
    Runs.ExecHistory(run);
    Replies.DeliveredBound(s.invocations, r);
    History.InvocationsOf(s);
    Matched(s.invocations, History.InvocationsIn(s.past.accepted), r);
    OnlyInvocations(s.past.accepted, r);
  }

  /** In every run the invocation objects are the accepted INVOCATION messages, one for one and in
      order: each has the id, registration, details and arguments of its message, and the procedure
      of the latest REGISTERED for that registration id that was accepted before it. */
  lemma {:induction false} InvocationsAreMessages(run: seq<Label>, k: nat)
    requires Ids.InRange(Exec(run)) && k < |Exec(run).invocations|
    ensures var s := Exec(run);
            var messages, inv := History.InvocationsIn(s.past.accepted), s.invocations[k];
            && |s.invocations| == |messages|
            && History.Describes(inv, messages[k])
            && inv.acceptedBefore < |s.past.accepted| && s.past.accepted[inv.acceptedBefore] == messages[k]
            && var known := History.Registered(s.past.accepted[..inv.acceptedBefore], s.book.requests);
               inv.registration in known && known[inv.registration] == inv.procedure
  {
    Runs.ExecHistory(run);
    History.InvocationsOf(Exec(run));
    var s := Exec(run);
    var v := History.InvocationsIn(s.past.accepted)[k];
    assert History.InvocationOk(s.invocations[k], v, s.past.accepted, s.book.requests);
  }

  /** Every reply on the wire is the one reply of an accepted invocation, under its id. */
  lemma {:induction false} RepliesAreAnswers(run: seq<Label>, j: nat) returns (k: nat)
    requires j < |Exec(run).output.sent| && IsReply(Exec(run).output.sent[j])
    ensures var s := Exec(run);
            k < |s.invocations| && s.invocations[k].stage == Delivered(s.output.sent[j])
            && Replies.ReplyId(s.output.sent[j]) == s.invocations[k].id
  {
    Runs.ExecReplies(run);
    k := Replies.Source(Exec(run), j);
  }

  lemma {:induction false} Matched(invs: seq<Invocation>, vs: seq<Value>, r: nat)
    requires |invs| == |vs| && forall k :: 0 <= k < |invs| ==> History.Describes(invs[k], vs[k])
    ensures Replies.AcceptedInvocations(invs, r) == InvocationMessages(vs, r)
  {
    if invs != [] {
      var n := |invs| - 1;
      assert forall k :: 0 <= k < n ==> invs[..n][k] == invs[k] && vs[..n][k] == vs[k];
      Matched(invs[..n], vs[..n], r);
      MatchedOne(invs[n], vs[n], r);
    }
  }

  lemma MatchedOne(inv: Invocation, v: Value, r: nat)
    requires History.Describes(inv, v)
    ensures Carries(v, r) <==> inv.id == r
  {
    assert v.items[..4][0] == UInt(INVOCATION) && v.items[..4][1] == UInt(inv.id);
  }

  predicate Carries(v: Value, r: nat) {
    Lifecycle.Is(v, INVOCATION) && |v.items| >= 2 && v.items[1] == UInt(r)
  }

  lemma InvocationMessagesSnoc(vs: seq<Value>, v: Value, r: nat)
    ensures InvocationMessages(vs + [v], r) == InvocationMessages(vs, r) + if Carries(v, r) then 1 else 0
  {
    assert (vs + [v])[..|vs|] == vs;
  }

  lemma {:induction false} OnlyInvocations(vs: seq<Value>, r: nat)
    ensures InvocationMessages(History.InvocationsIn(vs), r) == InvocationMessages(vs, r)
  {
    if vs != [] {
      var front, v := vs[..|vs| - 1], vs[|vs| - 1];
      OnlyInvocations(front, r);
      if Lifecycle.Is(v, INVOCATION) {
        InvocationMessagesSnoc(History.InvocationsIn(front), v, r);
      } else {
        assert History.InvocationsIn(vs) == History.InvocationsIn(front);
      }
    }
  }

  /** The one ERROR that stands for a procedure's exception. */
  function ExceptionMsg(id: nat, e: Exit): WireMsg {
    var uri := "wamp.error.runtime_error";
    match e
    case Throws(what) => ErrorReply(id, uri, ArgsKw([], [Entry(Str("what"), Str(what))]))
    case _ => ErrorReply(id, uri, NoArgs)
  }

  /** If the procedure throws, its token is spent when process_invocation returns; and if it had not
      replied itself, the reply is the one runtime error, already sent or dropped. */
  lemma ThrowingProcedureReplies(s: State, m: seq<Value>, b: Behaviour)
    requires Invokes(s, m) && !b.exit.Returns?
    ensures var t, k := ProcessInvocation(s, m, b).state, |s.invocations|;
            && |t.invocations| == k + 1 && !t.invocations[k].stage.Held?
            && (ProcedureAlone(s, m, b.actions).invocations[k].stage.Held? ==>
                  var reply := ExceptionMsg(m[1].n, b.exit);
                  t.invocations[k].stage == if t.flags.stopped then Dropped(reply) else Delivered(reply))
  {
    var k := |s.invocations|;
    var s1 := Begun(s, InvocationOf(s, m));
    Reentrancy.ActAllUndisturbed(s1, b.actions);
    var t := ActAll(s1, b.actions);
    assert Reentrancy.SameInvocation(s1.invocations[k], t.invocations[k]);
    assert t == ProcedureAlone(s, m, b.actions) && t.invocations[k].id == m[1].n;
    if t.invocations[k].stage.Held? {
      ReplyNowSpends(t, k, ThrownReply(b.exit));
    }
  }

  /** The procedure's own session calls, before its exception is looked at. */
  function ProcedureAlone(s: State, m: seq<Value>, actions: seq<Action>): (t: State)
    requires Invokes(s, m)
    ensures |t.invocations| == |s.invocations| + 1
  {
    Reentrancy.ActAllUndisturbed(Begun(s, InvocationOf(s, m)), actions);
    ActAll(Begun(s, InvocationOf(s, m)), actions)
  }

  lemma ReplyNowSpends(s: State, k: nat, reply: Reply)
    requires k < |s.invocations| && s.invocations[k].stage.Held?
    ensures var t, m := ReplyNow(s, k, reply).state, ReplyMsg(s.invocations[k].id, reply);
            && |t.invocations| == |s.invocations| && t.flags == s.flags
            && t.invocations[k].stage == if s.flags.stopped then Dropped(m) else Delivered(m)
  {
    var p, m := Spend(s, k, reply).state, ReplyMsg(s.invocations[k].id, reply);
    assert p.queue.pending[s.queue.posted] == ReplyClosure(k, m);
    assert p.flags == s.flags && |p.invocations| == |s.invocations|;
    var q := p.(queue := p.queue.(pending := p.queue.pending - {s.queue.posted}));
    assert ReplyNow(s, k, reply) == RunReply(q, k, m);
  }
}
