/** Remote procedure calls end to end: every interleaving of a caller, a callee and a dealer. */
module RpcTheorems {
  import opened Values
  import opened Wire
  import opened Session
  import opened Rpc
  import opened RpcInvariants
  import Ids
  import History
  import Lifecycle
  import Replies
  import RequestTheorems
  import Progress
  import MessageTheorems
  import ReplyTheorems
  import Runs

  ghost predicate NetOk(n: Net) {
    && FedOk(Caller(n), n.dealer.toCaller, n.callerGot)
    && FedOk(Callee(n), n.dealer.toCallee, n.calleeGot)
    && DealerOk(n.dealer, Caller(n).output.sent, Callee(n).output.sent)
  }

  ghost predicate DealerOk(d: Dealer, callerSent: seq<WireMsg>, calleeSent: seq<WireMsg>) {
    TakenOk(d, callerSent) && ToldOk(d) && InvokedOk(d) && HeardOk(d, calleeSent)
  }

  /** Neither client has wrapped its request counter. */
  ghost predicate InRange(n: Net) {
    Ids.InRange(Caller(n)) && Ids.InRange(Callee(n))
  }

  // ---------------------------------------------------------------- every run

  lemma CallerSteps(n: Net, l: Label, got: nat)
    requires NetOk(n) && FedOk(Step(Caller(n), l), n.dealer.toCaller, got)
    ensures NetOk(n.(callerRun := n.callerRun + [l], callerGot := got))
  {
    Runs.ExecSnoc(n.callerRun, l);
    Progress.StepOnward(Caller(n), l);
    StillTaken(n.dealer, Caller(n).output.sent, Step(Caller(n), l).output.sent);
  }

  lemma CalleeSteps(n: Net, l: Label, got: nat)
    requires NetOk(n) && FedOk(Step(Callee(n), l), n.dealer.toCallee, got)
    ensures NetOk(n.(calleeRun := n.calleeRun + [l], calleeGot := got))
  {
    Runs.ExecSnoc(n.calleeRun, l);
    Progress.StepOnward(Callee(n), l);
    StillHeard(n.dealer, Callee(n).output.sent, Step(Callee(n), l).output.sent);
  }

  /** A callee's replies carry ids that the dealer gave out. */
  lemma RepliesAreKnown(n: Net)
    requires NetOk(n) && InRange(n)
    ensures ServedOk(Callee(n), n.dealer) && UpTo(Callee(n), |n.dealer.calls|)
  {
    var s := Callee(n);
    Runs.ExecHistory(n.calleeRun);
    Runs.ExecReplies(n.calleeRun);
    Served(s, n.dealer);
    forall j | 0 <= j < |s.output.sent| && IsReply(s.output.sent[j])
      ensures s.output.sent[j].invocation <= |n.dealer.calls|
    {
      var k := Replies.Source(s, j);
      assert Serves(s, k, n.dealer.calls[k]);
    }
  }

  lemma RouteKeeps(n: Net, registration: nat, details: seq<Entry>)
    requires NetOk(n) && InRange(n) && NextFromCaller(n).Some?
    ensures NetOk(n.(dealer := Routed(n.dealer, NextFromCaller(n).value, registration, details)))
  {
    var m := NextFromCaller(n).value;
    NewCall(n);
    RoutedTaken(n.dealer, Caller(n).output.sent, registration, details);
    RoutedTold(n.dealer, m, registration, details);
    RoutedInvoked(n.dealer, m, registration, details);
    RepliesAreKnown(n);
    RoutedHeard(n.dealer, m, registration, details, Callee(n));
    RoutedFed(n, m, registration, details);
  }

  lemma RoutedFed(n: Net, m: WireMsg, registration: nat, details: seq<Entry>)
    requires NetOk(n)
    ensures var e := Routed(n.dealer, m, registration, details);
            FedOk(Caller(n), e.toCaller, n.callerGot) && FedOk(Callee(n), e.toCallee, n.calleeGot)
  {
    var e := Routed(n.dealer, m, registration, details);
    if m.Call? {
      FedMore(Callee(n), n.dealer.toCallee, n.calleeGot, e.toCallee[|n.dealer.toCallee|]);
    }
  }

  lemma RefuseKeeps(n: Net, uri: string, p: Payload, details: seq<Entry>)
    requires NetOk(n) && InRange(n) && NextFromCaller(n).Some?
    ensures NetOk(n.(dealer := Refused(n.dealer, NextFromCaller(n).value, uri, p, details)))
  {
    var m := NextFromCaller(n).value;
    RefusedFed(Caller(n), n.dealer, m, uri, p, details, n.callerGot);
    NewCall(n);
    RefusedDealer(n.dealer, Caller(n).output.sent, Callee(n).output.sent, uri, p, details);
  }

  lemma RefusedDealer(d: Dealer, callerSent: seq<WireMsg>, calleeSent: seq<WireMsg>,
                      uri: string, p: Payload, details: seq<Entry>)
    requires DealerOk(d, callerSent, calleeSent) && d.callerRead < |callerSent|
    requires var m := callerSent[d.callerRead];
             m.Call? ==> m.id !in d.refused && !IsRouted(d, m.id) && History.Answers(d.toCaller, CallKind, m.id) == []
    ensures var e := Refused(d, callerSent[d.callerRead], uri, p, details);
            DealerOk(e, callerSent, calleeSent) && e.toCallee == d.toCallee
  {
    RefusedTaken(d, callerSent, uri, p, details);
    RefusedTold(d, callerSent[d.callerRead], uri, p, details);
  }

  lemma RefusedFed(s: State, d: Dealer, m: WireMsg, uri: string, p: Payload, details: seq<Entry>, got: nat)
    requires FedOk(s, d.toCaller, got)
    ensures FedOk(s, Refused(d, m, uri, p, details).toCaller, got)
  {
    if m.Call? { FedMore(s, d.toCaller, got, ErrorMsg(m.id, details, uri, p)); }
  }

  lemma NewCall(n: Net)
    requires NetOk(n) && InRange(n) && NextFromCaller(n).Some?
    ensures var m, d := NextFromCaller(n).value, n.dealer;
            m.Call? ==> m.id !in d.refused && !IsRouted(d, m.id) && History.Answers(d.toCaller, CallKind, m.id) == []
  {
    Runs.ExecIds(n.callerRun);
    if NextFromCaller(n).value.Call? { NextIsNew(Caller(n), n.dealer); }
  }

  /** Each CALL is routed or refused once, under an id of its own. */
  lemma CallsAreDistinct(n: Net)
    requires NetOk(n) && InRange(n)
    ensures forall t, u :: 0 <= t < u < |n.dealer.calls| ==> n.dealer.calls[t].id != n.dealer.calls[u].id
    ensures forall t :: 0 <= t < |n.dealer.calls| ==> n.dealer.calls[t].id !in n.dealer.refused
  {
    var d := n.dealer;
    Runs.ExecIds(n.callerRun);
    forall t, u | 0 <= t < u < |d.calls|
      ensures d.calls[t].id != d.calls[u].id
    {
      if d.calls[t].id == d.calls[u].id { OneCallPerId(Caller(n), d.calls[t].at, d.calls[u].at); }
    }
    forall t | 0 <= t < |d.calls|
      ensures d.calls[t].id !in d.refused
    {
      var id := d.calls[t].id;
      if id in d.refused { OneCallPerId(Caller(n), d.calls[t].at, d.refused[id].at); }
    }
  }

  lemma RelayKeeps(n: Net, details: seq<Entry>)
    requires NetOk(n) && InRange(n) && NextFromCallee(n).Some?
    ensures NetOk(n.(dealer := Relayed(n.dealer, NextFromCallee(n).value, details)))
  {
    var m := NextFromCallee(n).value;
    CallsAreDistinct(n);
    RelayedTaken(n.dealer, Caller(n).output.sent, m, details);
    RelayedTold(n.dealer, m, details);
    RelayedInvoked(n.dealer, m, details);
    RelayedHeard(n.dealer, Callee(n).output.sent, details);
    RelayedFed(Caller(n), n.dealer, m, details, n.callerGot);
  }

  lemma TellCallerKeeps(n: Net, v: Value)
    requires NetOk(n) && Unrelated(v)
    ensures NetOk(n.(dealer := n.dealer.(toCaller := n.dealer.toCaller + [v])))
  {
    var d := n.dealer;
    var e := d.(toCaller := d.toCaller + [v]);
    FedMore(Caller(n), d.toCaller, n.callerGot, v);
    forall r: nat
      ensures History.Answers(e.toCaller, CallKind, r) == History.Answers(d.toCaller, CallKind, r)
    {
      History.AnswersSnoc(d.toCaller, v, CallKind, r);
    }
    SameRouted(d, e);
    forall t | 0 <= t < |e.calls| ensures Told(e, t) { assert Told(d, t); }
  }

  lemma TellCalleeKeeps(n: Net, v: Value)
    requires NetOk(n) && !Lifecycle.Is(v, INVOCATION)
    ensures NetOk(n.(dealer := n.dealer.(toCallee := n.dealer.toCallee + [v])))
  {
    var d := n.dealer;
    var e := d.(toCallee := d.toCallee + [v]);
    FedMore(Callee(n), d.toCallee, n.calleeGot, v);
    SameRouted(d, e);
    forall t | 0 <= t < |e.calls| ensures Told(e, t) { assert Told(d, t); }
    assert e.toCallee[..|d.toCallee|] == d.toCallee;
  }

  lemma CallerReadsKeeps(n: Net, o: seq<Behaviour>)
    requires NetOk(n)
    ensures NetOk(Advance(n, CallerReads(o)))
  {
    if n.callerGot < |n.dealer.toCaller| {
      FedOne(Caller(n), o, n.dealer.toCaller, n.callerGot);
      CallerSteps(n, Receive(n.dealer.toCaller[n.callerGot], o), n.callerGot + 1);
    }
  }

  lemma CalleeReadsKeeps(n: Net, o: seq<Behaviour>)
    requires NetOk(n)
    ensures NetOk(Advance(n, CalleeReads(o)))
  {
    if n.calleeGot < |n.dealer.toCallee| {
      FedOne(Callee(n), o, n.dealer.toCallee, n.calleeGot);
      CalleeSteps(n, Receive(n.dealer.toCallee[n.calleeGot], o), n.calleeGot + 1);
    }
  }

  lemma AdvanceKeeps(n: Net, m: Move)
    requires NetOk(n) && InRange(n)
    ensures NetOk(Advance(n, m))
  {
    match m {
      case CallerDoes(l) =>
        if !l.Receive? {
          StillFed(Caller(n), l, n.dealer.toCaller, n.callerGot);
          CallerSteps(n, l, n.callerGot);
        }
      case CalleeDoes(l) =>
        if !l.Receive? {
          StillFed(Callee(n), l, n.dealer.toCallee, n.calleeGot);
          CalleeSteps(n, l, n.calleeGot);
        }
      case CallerReads(o) => CallerReadsKeeps(n, o);
      case CalleeReads(o) => CalleeReadsKeeps(n, o);
      case Route(registration, details) =>
        if NextFromCaller(n).Some? { RouteKeeps(n, registration, details); }
      case Refuse(uri, p, details) =>
        if NextFromCaller(n).Some? { RefuseKeeps(n, uri, p, details); }
      case Relay(details) =>
        if NextFromCallee(n).Some? { RelayKeeps(n, details); }
      case TellCaller(v) =>
        if Unrelated(v) { TellCallerKeeps(n, v); }
      case TellCallee(v) =>
        if !Lifecycle.Is(v, INVOCATION) { TellCalleeKeeps(n, v); }
    }
  }

  /** Runs, requests and what is sent only grow. */
  lemma AdvanceGrows(n: Net, m: Move)
    ensures var e := Advance(n, m);
            && |Caller(n).book.requests| <= |Caller(e).book.requests|
            && |Callee(n).book.requests| <= |Callee(e).book.requests|
            && Callee(n).output.sent <= Callee(e).output.sent
  {
    var e := Advance(n, m);
    if e.callerRun != n.callerRun {
      var l := e.callerRun[|n.callerRun|];
      Runs.ExecSnoc(n.callerRun, l);
      Progress.StepOnward(Caller(n), l);
      assert e.callerRun == n.callerRun + [l];
    }
    if e.calleeRun != n.calleeRun {
      var l := e.calleeRun[|n.calleeRun|];
      Runs.ExecSnoc(n.calleeRun, l);
      Progress.StepOnward(Callee(n), l);
      assert e.calleeRun == n.calleeRun + [l];
    }
  }

  lemma {:induction false} PlayOk(moves: seq<Move>)
    requires InRange(Play(moves))
    ensures NetOk(Play(moves))
  {
    if moves != [] {
      var front, m := moves[..|moves| - 1], moves[|moves| - 1];
      AdvanceGrows(Play(front), m);
      PlayOk(front);
      AdvanceKeeps(Play(front), m);
    }
  }

  // ---------------------------------------------------------------- calls

  /** Routed call `t` is the one call that carries this id, and this is its CALL on the wire, which is
      what the caller's request number `id` asked for. */
  ghost predicate IsCall(caller: State, d: Dealer, t: nat, id: nat) {
    && t < |d.calls| && d.calls[t].at < |caller.output.sent|
    && CallsWith(caller.output.sent[d.calls[t].at], id, d.calls[t].payload)
    && 1 <= id <= |caller.book.requests| && caller.book.requests[id - 1].asked == caller.output.sent[d.calls[t].at]
    && forall u :: 0 <= u < |d.calls| ==> (d.calls[u].id == id <==> u == t)
  }

  predicate CallsWith(m: WireMsg, id: nat, payload: Payload) {
    m.Call? && m.id == id && m.payload == payload
  }

  /** Invocation `t` is the one made for routed call `t`, with the arguments of its CALL, given to
      the procedure last registered under its registration id when it was accepted; and `m` is the
      one reply made to it. */
  ghost predicate IsAnswered(callee: State, d: Dealer, t: nat, m: WireMsg) {
    && t < |d.calls| && t < |callee.invocations| && Serves(callee, t, d.calls[t])
    && callee.invocations[t].stage == Delivered(m)
    && IsReply(m) && m.invocation == t + 1
  }

  /** Every reply the dealer has relayed is the one reply of the invocation it made. */
  lemma ReplyOfInvocation(callee: State, d: Dealer, t: nat)
    requires Replies.RepliesOk(callee) && ServedOk(callee, d) && HeardOk(d, callee.output.sent)
    requires t < |d.calls| && Told(d, t) && d.calls[t].reply.Some?
    ensures IsAnswered(callee, d, t, d.calls[t].reply.value)
  {
    var m := d.calls[t].reply.value;
    var j :| 0 <= j < |callee.output.sent| && callee.output.sent[j] == m;
    ReplyServed(callee, d, t, j);
  }

  lemma ReplyServed(callee: State, d: Dealer, t: nat, j: nat)
    requires Replies.RepliesOk(callee) && ServedOk(callee, d) && t < |d.calls| && j < |callee.output.sent|
    requires IsReply(callee.output.sent[j]) && callee.output.sent[j].invocation == t + 1
    ensures IsAnswered(callee, d, t, callee.output.sent[j])
  {
    var k := Replies.Source(callee, j);
    assert Serves(callee, k, d.calls[k]);
  }

  lemma RouteOfCall(n: Net, t: nat)
    requires NetOk(n) && InRange(n) && t < |n.dealer.calls|
    ensures IsCall(Caller(n), n.dealer, t, n.dealer.calls[t].id)
  {
    CallsAreDistinct(n);
    Runs.ExecIds(n.callerRun);
    Ids.RequestsHaveIds(Caller(n), n.dealer.calls[t].at);
  }

  lemma ReplyOfCall(n: Net, t: nat)
    requires NetOk(n) && InRange(n) && t < |n.dealer.calls| && n.dealer.calls[t].reply.Some?
    ensures IsAnswered(Callee(n), n.dealer, t, n.dealer.calls[t].reply.value)
  {
    RepliesAreKnown(n);
    Runs.ExecReplies(n.calleeRun);
    ReplyOfInvocation(Callee(n), n.dealer, t);
  }

  /** A settled future holds the first thing the dealer said about its call. */
  lemma HeardByCaller(n: Net, i: nat)
    requires NetOk(n) && InRange(n) && i < |Caller(n).book.requests|
    requires Caller(n).book.requests[i].kind.CallKind? && Caller(n).book.requests[i].promise.Set?
    ensures var xs := History.Answers(n.dealer.toCaller, CallKind, i + 1);
            xs != [] && Caller(n).book.requests[i].promise == Set(xs[0])
  {
    Runs.ExecHistory(n.callerRun);
    HeardBy(Caller(n), n.dealer.toCaller, i);
  }

  lemma HeardBy(s: State, to: seq<Value>, i: nat)
    requires History.HistoryOk(s) && Ids.InRange(s) && s.past.accepted <= to && i < |s.book.requests|
    requires s.book.requests[i].kind.CallKind? && s.book.requests[i].promise.Set?
    ensures var xs := History.Answers(to, CallKind, i + 1);
            xs != [] && s.book.requests[i].promise == Set(xs[0])
  {
    History.PromiseIsAnswer(s, i);
    FirstHeard(s.past.accepted, to, i + 1, s.book.requests[i].promise.value);
  }

  lemma FirstHeard(accepted: seq<Value>, to: seq<Value>, id: nat, x: Answer)
    requires accepted <= to && History.Answers(accepted, CallKind, id) == [x]
    ensures History.Answers(to, CallKind, id) != [] && History.Answers(to, CallKind, id)[0] == x
  {
    RequestTheorems.AnswersPrefix(accepted, to, CallKind, id);
    assert History.Answers(accepted, CallKind, id)[0] == x;
  }

  lemma AnswerOfCall(d: Dealer, id: nat) returns (t: nat)
    requires ToldOk(d) && History.Answers(d.toCaller, CallKind, id) != [] && id !in d.refused
    ensures t < |d.calls| && d.calls[t].id == id && Told(d, t) && d.calls[t].reply.Some?
    ensures History.Answers(d.toCaller, CallKind, id)[0] == Meaning(d.calls[t].reply.value)
  {
    t :| 0 <= t < |d.calls| && d.calls[t].id == id;
    assert Told(d, t);
  }

  /** What a caller's future says of a call that the dealer did not refuse: the call was routed, as
      one invocation and no other; that invocation got the arguments of the CALL on the wire and
      went to the procedure last registered under its registration id; and the future holds the
      meaning of the single reply made to it, whenever and from wherever it came. */
  lemma {:induction false} CallEndToEnd(moves: seq<Move>, i: nat) returns (t: nat, m: WireMsg)
    requires InRange(Play(moves)) && i < |Caller(Play(moves)).book.requests|
    requires Caller(Play(moves)).book.requests[i].kind.CallKind?
    requires Caller(Play(moves)).book.requests[i].promise.Set? && i + 1 !in Play(moves).dealer.refused
    ensures var n := Play(moves);
            && IsCall(Caller(n), n.dealer, t, i + 1) && IsAnswered(Callee(n), n.dealer, t, m)
            && Caller(n).book.requests[i].promise == Set(Meaning(m))
  {
    PlayOk(moves);
    t, m := CallAnswered(Play(moves), i);
  }

  lemma CallAnswered(n: Net, i: nat) returns (t: nat, m: WireMsg)
    requires NetOk(n) && InRange(n) && i < |Caller(n).book.requests|
    requires Caller(n).book.requests[i].kind.CallKind?
    requires Caller(n).book.requests[i].promise.Set? && i + 1 !in n.dealer.refused
    ensures IsCall(Caller(n), n.dealer, t, i + 1) && IsAnswered(Callee(n), n.dealer, t, m)
    ensures Caller(n).book.requests[i].promise == Set(Meaning(m))
  {
    HeardByCaller(n, i);
    t := AnswerOfCall(n.dealer, i + 1);
    m := n.dealer.calls[t].reply.value;
    RouteOfCall(n, t);
    ReplyOfCall(n, t);
  }

  /** A call that resolves with a value: its arguments are exactly those of the one YIELD made by the
      invocation that was made for it. */
  lemma {:induction false} ResultEndToEnd(moves: seq<Move>, i: nat, args: seq<Value>, kw: seq<Entry>)
    returns (t: nat, p: Payload)
    requires InRange(Play(moves)) && i < |Caller(Play(moves)).book.requests|
    requires Caller(Play(moves)).book.requests[i].kind.CallKind?
    requires Caller(Play(moves)).book.requests[i].promise == Set(ResultOf(args, kw))
    ensures var n := Play(moves);
            && IsCall(Caller(n), n.dealer, t, i + 1) && IsAnswered(Callee(n), n.dealer, t, Yield(t + 1, p))
            && args == PayloadArgs(p) && kw == PayloadKw(p)
  {
    var n := Play(moves);
    PlayOk(moves);
    HeardByCaller(n, i);
    var m;
    t, m := CallEndToEnd(moves, i);
    p := m.payload;
  }

  /** From call() to the procedure and back: the invocation made for a call gets the very arguments
      that were given to call(), and the future that call() returned holds the meaning of its reply. */
  lemma {:induction false} ArgumentsEndToEnd(moves: seq<Move>, before: seq<Label>, name: string, payload: Payload,
                                             after: seq<Label>) returns (t: nat, m: WireMsg)
    requires InRange(Play(moves)) && Exec(before).live
    requires Play(moves).callerRun == before + [Take(ApiCall(name, payload))] + after
    requires |Exec(before).book.requests| < |Caller(Play(moves)).book.requests|
    requires Caller(Play(moves)).book.requests[|Exec(before).book.requests|].promise.Set?
    requires |Exec(before).book.requests| + 1 !in Play(moves).dealer.refused
    ensures var n, i := Play(moves), |Exec(before).book.requests|;
            && IsAnswered(Callee(n), n.dealer, t, m)
            && Callee(n).invocations[t].args == PayloadArgs(payload)
            && Callee(n).invocations[t].kw == PayloadKw(payload)
            && Caller(n).book.requests[i].promise == Set(Meaning(m))
  {
    PlayOk(moves);
    CallIsKept(before, name, payload, after);
    t, m := ArgumentsAt(Play(moves), |Exec(before).book.requests|, name, payload);
  }

  lemma ArgumentsAt(n: Net, i: nat, name: string, payload: Payload) returns (t: nat, m: WireMsg)
    requires NetOk(n) && InRange(n) && i < |Caller(n).book.requests|
    requires Caller(n).book.requests[i].kind.CallKind?
    requires Caller(n).book.requests[i].asked == Call(i + 1, name, payload)
    requires Caller(n).book.requests[i].promise.Set? && i + 1 !in n.dealer.refused
    ensures IsAnswered(Callee(n), n.dealer, t, m)
    ensures Callee(n).invocations[t].args == PayloadArgs(payload)
    ensures Callee(n).invocations[t].kw == PayloadKw(payload)
    ensures Caller(n).book.requests[i].promise == Set(Meaning(m))
  {
    t, m := CallAnswered(n, i);
    ArgumentsServed(Caller(n), Callee(n), n.dealer, t, m, i + 1, name, payload);
  }

  lemma ArgumentsServed(caller: State, callee: State, d: Dealer, t: nat, m: WireMsg, id: nat,
                        name: string, payload: Payload)
    requires IsCall(caller, d, t, id) && IsAnswered(callee, d, t, m)
    requires caller.book.requests[id - 1].asked == Call(id, name, payload)
    ensures callee.invocations[t].args == PayloadArgs(payload) && callee.invocations[t].kw == PayloadKw(payload)
  {
  }

  lemma {:induction false} CallIsKept(before: seq<Label>, name: string, payload: Payload, after: seq<Label>)
    requires Exec(before).live && Ids.InRange(Exec(before + [Take(ApiCall(name, payload))] + after))
    ensures var s, i := Exec(before + [Take(ApiCall(name, payload))] + after), |Exec(before).book.requests|;
            && i < |s.book.requests| && s.book.requests[i].kind.CallKind?
            && s.book.requests[i].asked == Call(i + 1, name, payload)
  {
    var a, i := ApiCall(name, payload), |Exec(before).book.requests|;
    var s, t, u := Exec(before), Exec(before + [Take(a)]), Exec(before + [Take(a)] + after);
    Runs.ExecSnoc(before, Take(a));
    RequestTheorems.CallKeepsArguments(s, a);
    Progress.RunOnward(before + [Take(a)], after);
    assert Progress.SameRequest(t.book.requests[i], u.book.requests[i]);
    Runs.ExecIds(before);
    Runs.ExecIds(before + [Take(a)] + after);
    assert Ids.AskedOk(u.book.requests, i);
    assert NextId(s) == i + 1;
  }

  // ---------------------------------------------------------------- no reply is lost

  lemma {:induction false} SomeReply(sent: seq<WireMsg>, r: nat) returns (j: nat)
    requires Replies.SentReplies(sent, r) > 0
    ensures j < |sent| && Replies.Answers(sent[j], r)
  {
    if Replies.Answers(sent[|sent| - 1], r) {
      j := |sent| - 1;
    } else {
      j := SomeReply(sent[..|sent| - 1], r);
    }
  }

  lemma {:induction false} CountsDelivered(invs: seq<Invocation>, t: nat)
    requires t < |invs| && invs[t].stage.Delivered?
    ensures Replies.DeliveredReplies(invs, invs[t].id) > 0
  {
    if t < |invs| - 1 {
      CountsDelivered(invs[..|invs| - 1], t);
    }
  }

  /** A delivered reply is among the callee's messages. */
  lemma ReplyIsSent(callee: State, d: Dealer, t: nat) returns (j: nat)
    requires Replies.RepliesOk(callee) && ServedOk(callee, d)
    requires t < |callee.invocations| && callee.invocations[t].stage.Delivered?
    ensures j < |callee.output.sent| && callee.invocations[t].stage == Delivered(callee.output.sent[j])
    ensures IsReply(callee.output.sent[j]) && callee.output.sent[j].invocation == t + 1
  {
    assert Serves(callee, t, d.calls[t]);
    CountsDelivered(callee.invocations, t);
    j := SomeReply(callee.output.sent, t + 1);
    var k := Replies.Source(callee, j);
    assert Serves(callee, k, d.calls[k]);
  }

  /** The dealer has taken all of the callee's messages, and the caller has read all of the
      dealer's without an exception. */
  ghost predicate Quiet(n: Net) {
    && n.dealer.calleeRead == |Callee(n).output.sent|
    && n.callerGot == |n.dealer.toCaller| && Caller(n).live
  }

  lemma ReplyIsRelayed(callee: State, d: Dealer, t: nat, m: WireMsg)
    requires Replies.RepliesOk(callee) && ServedOk(callee, d) && HeardOk(d, callee.output.sent) && ToldOk(d)
    requires d.calleeRead == |callee.output.sent|
    requires t < |callee.invocations| && callee.invocations[t].stage == Delivered(m)
    ensures IsReply(m) && History.Answers(d.toCaller, CallKind, d.calls[t].id) == [Meaning(m)]
  {
    var j := ReplyIsSent(callee, d, t);
    assert Told(d, t);
    ReplyOfInvocation(callee, d, t);
  }

  /** The future of the request with this id holds this answer. */
  ghost predicate Holds(caller: State, id: nat, x: Answer) {
    1 <= id <= |caller.book.requests| && caller.book.requests[id - 1].promise == Set(x)
  }

  /** In a quiet network every reply has reached the future of its call. */
  lemma {:induction false} NoReplyIsLost(moves: seq<Move>, t: nat, m: WireMsg)
    requires InRange(Play(moves)) && Quiet(Play(moves))
    requires t < |Callee(Play(moves)).invocations| && Callee(Play(moves)).invocations[t].stage == Delivered(m)
    ensures var n := Play(moves);
            t < |n.dealer.calls| && IsReply(m) && Holds(Caller(n), n.dealer.calls[t].id, Meaning(m))
  {
    var n := Play(moves);
    PlayOk(moves);
    RepliesAreKnown(n);
    Runs.ExecReplies(n.calleeRun);
    ReplyIsRelayed(Callee(n), n.dealer, t, m);
    QuietAnswers(n, n.dealer.calls[t].id);
  }

  lemma QuietAnswers(n: Net, id: nat)
    requires NetOk(n) && InRange(n) && Quiet(n) && History.Answers(n.dealer.toCaller, CallKind, id) != []
    ensures Holds(Caller(n), id, History.Answers(n.dealer.toCaller, CallKind, id)[0])
  {
    assert n.dealer.toCaller[..n.callerGot] == n.dealer.toCaller;
    RequestTheorems.NoStrayAnswers(n.callerRun, CallKind, id);
  }

  // ---------------------------------------------------------------- what the procedure gave

  /** What result() or error() means to the caller. */
  function Answered(reply: Reply): Session.Answer {
    match reply
    case ResultReply(p) => ResultOf(PayloadArgs(p), PayloadKw(p))
    case ErrorWith(uri, p) => Failed(ErrorText(uri, KwOption(p)))
  }

  lemma CarriesMeaning(m: WireMsg, id: nat, reply: Reply)
    requires Replies.AnswersWith(m, id, reply)
    ensures IsReply(m) && Meaning(m) == Answered(reply)
  {
  }

  /** From result() or error() back to the future of call(): if invocation `t` was answered with this
      reply in some step of the callee, from another thread or by any handler or procedure, then the
      future of the call it was made for, once settled, holds the very arguments that were given, or
      fails with the URI and the text that were. */
  lemma {:induction false} GivenEndToEnd(moves: seq<Move>, before: seq<Label>, l: Label, after: seq<Label>,
                                         t: nat, reply: Reply, i: nat)
    requires InRange(Play(moves)) && Exec(before).live
    requires Play(moves).calleeRun == before + [l] + after && ReplyTheorems.Gives(Exec(before), l, t, reply)
    requires t < |Play(moves).dealer.calls| && Play(moves).dealer.calls[t].id == i + 1
    requires i < |Caller(Play(moves)).book.requests| && Caller(Play(moves)).book.requests[i].kind.CallKind?
    requires Caller(Play(moves)).book.requests[i].promise.Set?
    ensures Caller(Play(moves)).book.requests[i].promise == Set(Answered(reply))
  {
    PlayOk(moves);
    ReplyTheorems.ReplyIsGiven(before, l, after, t, reply);
    CallsAreDistinct(Play(moves));
    var u, m := CallEndToEnd(moves, i);
    CarriesMeaning(m, Callee(Play(moves)).invocations[t].id, reply);
  }

  /** And in a quiet network it is settled so, if the reply went out. */
  lemma {:induction false} GivenArrives(moves: seq<Move>, before: seq<Label>, l: Label, after: seq<Label>,
                                        t: nat, reply: Reply)
    requires InRange(Play(moves)) && Quiet(Play(moves)) && Exec(before).live
    requires Play(moves).calleeRun == before + [l] + after && ReplyTheorems.Gives(Exec(before), l, t, reply)
    requires t < |Callee(Play(moves)).invocations| && Callee(Play(moves)).invocations[t].stage.Delivered?
    ensures var n := Play(moves);
            t < |n.dealer.calls| && Holds(Caller(n), n.dealer.calls[t].id, Answered(reply))
  {
    var m := Callee(Play(moves)).invocations[t].stage.m;
    ReplyTheorems.ReplyIsGiven(before, l, after, t, reply);
    CarriesMeaning(m, Callee(Play(moves)).invocations[t].id, reply);
    NoReplyIsLost(moves, t, m);
  }

  // ---------------------------------------------------------------- exceptions

  /** What the caller of a procedure that throws without replying is told. */
  function Thrown(e: Exit): string {
    match e
    case Throws(what) => "wamp.error.runtime_error: " + what
    case _ => "wamp.error.runtime_error"
  }

  lemma ThrownMeaning(id: nat, e: Exit)
    ensures Meaning(MessageTheorems.ExceptionMsg(id, e)) == Failed(Thrown(e))
  {
    if e.Throws? {
      var kw := [Entry(Str("what"), Str(e.what))];
      assert kw[..0] == [];
      assert What(kw) == Some(Some(e.what));
      assert "wamp.error.runtime_error" + ": " == "wamp.error.runtime_error: ";
    }
  }

  /** Invocation `t` has been answered by the error that stands for a procedure's exception. */
  ghost predicate Threw(callee: State, t: nat, e: Exit) {
    t < |callee.invocations| && callee.invocations[t].stage == Delivered(MessageTheorems.ExceptionMsg(t + 1, e))
  }

  /** Message `v` invokes a procedure that throws with its reply token unspent, in a session that
      can still send. */
  ghost predicate ThrowsUnreplied(s: State, v: Value, o: seq<Behaviour>) {
    && s.live && Lifecycle.Is(v, INVOCATION)
    && Invokes(s, v.items)
    && !BehaviourAt(o, 0).exit.Returns? && !Deliver(s, v, o).state.flags.stopped
    && MessageTheorems.ProcedureAlone(Received(s, v), v.items, BehaviourAt(o, 0).actions)
         .invocations[|s.invocations|].stage.Held?
  }

  lemma ThrowAnswers(s: State, v: Value, o: seq<Behaviour>)
    requires ThrowsUnreplied(s, v, o)
    ensures var t := Deliver(s, v, o).state;
            && |t.invocations| == |s.invocations| + 1 && |v.items| > 1 && v.items[1].UInt?
            && t.invocations[|s.invocations|].stage
               == Delivered(MessageTheorems.ExceptionMsg(v.items[1].n, BehaviourAt(o, 0).exit))
  {
    History.Dispatched(Received(s, v), v, o);
    MessageTheorems.ThrowingProcedureReplies(Received(s, v), v.items, BehaviourAt(o, 0));
  }

  /** The exception answers its invocation before the next message is read. */
  lemma {:induction false} ExceptionIsReply(moves: seq<Move>, o: seq<Behaviour>)
    requires InRange(Play(moves + [CalleeReads(o)]))
    requires Play(moves).calleeGot < |Play(moves).dealer.toCallee|
    requires ThrowsUnreplied(Callee(Play(moves)), Play(moves).dealer.toCallee[Play(moves).calleeGot], o)
    ensures Threw(Callee(Play(moves + [CalleeReads(o)])), |Callee(Play(moves)).invocations|, BehaviourAt(o, 0).exit)
  {
    assert (moves + [CalleeReads(o)])[..|moves|] == moves;
    PlayOk(moves + [CalleeReads(o)]);
    ExceptionAt(Play(moves), o);
  }

  lemma ExceptionAt(n: Net, o: seq<Behaviour>)
    requires NetOk(Advance(n, CalleeReads(o))) && InRange(Advance(n, CalleeReads(o)))
    requires n.calleeGot < |n.dealer.toCallee|
    requires ThrowsUnreplied(Callee(n), n.dealer.toCallee[n.calleeGot], o)
    ensures Threw(Callee(Advance(n, CalleeReads(o))), |Callee(n).invocations|, BehaviourAt(o, 0).exit)
  {
    ServedAfter(n, o);
    ThrewOnce(Callee(n), n.dealer.toCallee[n.calleeGot], o, Advance(n, CalleeReads(o)).dealer);
  }

  lemma ServedAfter(n: Net, o: seq<Behaviour>)
    requires NetOk(Advance(n, CalleeReads(o))) && InRange(Advance(n, CalleeReads(o)))
    requires n.calleeGot < |n.dealer.toCallee|
    ensures var e, t := Advance(n, CalleeReads(o)), Step(Callee(n), Receive(n.dealer.toCallee[n.calleeGot], o));
            Callee(e) == t && Replies.RepliesOk(t) && ServedOk(t, e.dealer)
  {
    var e := Advance(n, CalleeReads(o));
    Runs.ExecSnoc(n.calleeRun, Receive(n.dealer.toCallee[n.calleeGot], o));
    RepliesAreKnown(e);
    Runs.ExecReplies(e.calleeRun);
  }

  lemma ThrewOnce(s: State, v: Value, o: seq<Behaviour>, d: Dealer)
    requires ThrowsUnreplied(s, v, o)
    requires Replies.RepliesOk(Deliver(s, v, o).state) && ServedOk(Deliver(s, v, o).state, d)
    ensures Threw(Deliver(s, v, o).state, |s.invocations|, BehaviourAt(o, 0).exit)
  {
    ThrowAnswers(s, v, o);
    ReplyHasItsId(Deliver(s, v, o).state, d, |s.invocations|);
  }

  lemma ReplyHasItsId(callee: State, d: Dealer, t: nat)
    requires Replies.RepliesOk(callee) && ServedOk(callee, d)
    requires t < |callee.invocations| && callee.invocations[t].stage.Delivered?
    ensures Replies.Answers(callee.invocations[t].stage.m, t + 1)
  {
    assert Serves(callee, t, d.calls[t]) && Replies.StageOk(callee.invocations[t]);
  }

  /** A delivered reply stays the one reply of its invocation. */
  lemma DeliveredStays(n: Net, m: Move, t: nat)
    requires NetOk(n) && InRange(n) && NetOk(Advance(n, m)) && InRange(Advance(n, m))
    requires t < |Callee(n).invocations| && Callee(n).invocations[t].stage.Delivered?
    ensures t < |Callee(Advance(n, m)).invocations|
    ensures Callee(Advance(n, m)).invocations[t].stage == Callee(n).invocations[t].stage
  {
    var e := Advance(n, m);
    RepliesAreKnown(n);
    RepliesAreKnown(e);
    Runs.ExecReplies(n.calleeRun);
    Runs.ExecReplies(e.calleeRun);
    AdvanceGrows(n, m);
    SameReply(Callee(n), n.dealer, Callee(e), e.dealer, t);
  }

  lemma SameReply(before: State, d: Dealer, after: State, e: Dealer, t: nat)
    requires Replies.RepliesOk(before) && ServedOk(before, d) && Replies.RepliesOk(after) && ServedOk(after, e)
    requires before.output.sent <= after.output.sent
    requires t < |before.invocations| && before.invocations[t].stage.Delivered?
    ensures t < |after.invocations| && after.invocations[t].stage == before.invocations[t].stage
  {
    var j := ReplyIsSent(before, d, t);
    assert after.output.sent[j] == before.output.sent[j];
    var k := Replies.Source(after, j);
    assert Serves(after, k, e.calls[k]);
  }

  lemma {:induction false} ThrewStays(moves: seq<Move>, more: seq<Move>, t: nat, e: Exit)
    requires InRange(Play(moves + more)) && Threw(Callee(Play(moves)), t, e)
    ensures Threw(Callee(Play(moves + more)), t, e)
    decreases |more|
  {
    if more == [] {
      assert moves + more == moves;
    } else {
      var front, m := more[..|more| - 1], more[|more| - 1];
      assert (moves + more)[..|moves + more| - 1] == moves + front;
      AdvanceGrows(Play(moves + front), m);
      ThrewStays(moves, front, t, e);
      PlayOk(moves + front);
      PlayOk(moves + more);
      DeliveredStays(Play(moves + front), m, t);
    }
  }

  /** However the run goes on, the future of that call is either still open or has failed with
      exactly "wamp.error.runtime_error: " and the exception's text, or the bare URI when the
      exception was not a standard one; */
  lemma {:induction false} ErrorTextEndToEnd(moves: seq<Move>, more: seq<Move>, t: nat, e: Exit, i: nat)
    requires InRange(Play(moves + more)) && Threw(Callee(Play(moves)), t, e)
    requires t < |Play(moves + more).dealer.calls| && Play(moves + more).dealer.calls[t].id == i + 1
    requires i < |Caller(Play(moves + more)).book.requests|
    requires Caller(Play(moves + more)).book.requests[i].kind.CallKind?
    requires Caller(Play(moves + more)).book.requests[i].promise.Set?
    ensures Caller(Play(moves + more)).book.requests[i].promise == Set(Failed(Thrown(e)))
  {
    PlayOk(moves + more);
    ThrewStays(moves, more, t, e);
    ThrownMeaning(t + 1, e);
    CallsAreDistinct(Play(moves + more));
    var u, m := CallEndToEnd(moves + more, i);
  }

  /** and in a quiet network it has failed so. */
  lemma {:induction false} ErrorTextArrives(moves: seq<Move>, more: seq<Move>, t: nat, e: Exit)
    requires InRange(Play(moves + more)) && Quiet(Play(moves + more)) && Threw(Callee(Play(moves)), t, e)
    ensures var n := Play(moves + more);
            t < |n.dealer.calls| && Holds(Caller(n), n.dealer.calls[t].id, Failed(Thrown(e)))
  {
    ThrewStays(moves, more, t, e);
    ThrownMeaning(t + 1, e);
    NoReplyIsLost(moves + more, t, MessageTheorems.ExceptionMsg(t + 1, e));
  }
}
