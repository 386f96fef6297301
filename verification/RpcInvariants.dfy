/** What every run of the caller, the callee and the dealer keeps. */
module RpcInvariants {
  import opened Values
  import opened Wire
  import opened Session
  import opened Rpc
  import Ids
  import Lifecycle
  import History
  import Progress

  // ---------------------------------------------------------------- reading what the dealer writes

  lemma TailReads(front: seq<Value>, p: Payload)
    ensures var m := front + PayloadItems(p);
            && TailTyped(m, |front|)
            && TailArgs(m, |front|) == PayloadArgs(p) && TailKw(m, |front|) == PayloadKw(p)
            && (if |m| > |front| + 1 then Some(m[|front| + 1].entries) else None) == KwOption(p)
  {
    var m := front + PayloadItems(p);
    match p {
      case NoArgs =>
      case Args(args) => assert m[|front|] == Array(args);
      case ArgsKw(args, kw) => assert m[|front|] == Array(args) && m[|front| + 1] == Dict(kw);
    }
  }

  lemma ErrorReads(call: nat, details: seq<Entry>, uri: string, p: Payload)
    ensures History.Reads(ErrorMsg(call, details, uri, p))
            == Some(History.Addressed(CallKind, call, Failed(ErrorText(uri, KwOption(p)))))
  {
    TailReads([UInt(ERROR), UInt(CALL), UInt(call), Dict(details), Str(uri)], p);
  }

  lemma RelayReads(call: nat, m: WireMsg, details: seq<Entry>)
    requires IsReply(m)
    ensures History.Reads(RelayMsg(call, m, details)) == Some(History.Addressed(CallKind, call, Meaning(m)))
  {
    match m {
      case Yield(_, p) => TailReads([UInt(RESULT), UInt(call), Dict(details)], p);
      case ErrorReply(_, uri, p) => ErrorReads(call, details, uri, p);
    }
  }

  // ---------------------------------------------------------------- the invariants

  /** A session has accepted a prefix of what it was sent; all it has read, while it lives. */
  ghost predicate FedOk(s: State, to: seq<Value>, got: nat) {
    got <= |to| && s.past.accepted <= to && (s.live ==> s.past.accepted == to[..got])
  }

  /** The caller's message number `at` is a CALL with this id that the dealer has taken. */
  predicate Took(sent: seq<WireMsg>, read: nat, at: nat, id: nat) {
    at < read <= |sent| && sent[at].Call? && sent[at].id == id
  }

  ghost predicate TakenOk(d: Dealer, sent: seq<WireMsg>) {
    && d.callerRead <= |sent|
    && (forall t :: 0 <= t < |d.calls| ==>
          Took(sent, d.callerRead, d.calls[t].at, d.calls[t].id) && sent[d.calls[t].at].payload == d.calls[t].payload)
    && (forall t, u :: 0 <= t < u < |d.calls| ==> d.calls[t].at != d.calls[u].at)
    && (forall r :: r in d.refused ==>
          Took(sent, d.callerRead, d.refused[r].at, r)
          && forall t :: 0 <= t < |d.calls| ==> d.calls[t].at != d.refused[r].at)
  }

  function Relayings(c: RoutedCall): seq<Answer> {
    match c.reply
    case Some(m) => if IsReply(m) then [Meaning(m)] else []
    case None => []
  }

  /** The caller of routed call `t` has been told its reply, once, and nothing else. */
  ghost predicate Told(d: Dealer, t: nat)
    requires t < |d.calls|
  {
    var c := d.calls[t];
    && (c.reply.Some? ==> IsReply(c.reply.value) && c.reply.value.invocation == t + 1)
    && History.Answers(d.toCaller, CallKind, c.id) == Relayings(c)
  }

  /** What the caller has been told about each of its calls. */
  ghost predicate ToldOk(d: Dealer) {
    && (forall t :: 0 <= t < |d.calls| ==> Told(d, t))
    && (forall r :: r in d.refused ==>
          d.refused[r].answer.Failed? && History.Answers(d.toCaller, CallKind, r) == [d.refused[r].answer])
    && (forall r: nat :: History.Answers(d.toCaller, CallKind, r) != [] ==> r in d.refused || IsRouted(d, r))
  }

  ghost predicate IsRouted(d: Dealer, r: nat) {
    exists t :: 0 <= t < |d.calls| && d.calls[t].id == r
  }

  /** The INVOCATION messages to the callee are those of the routed calls, in order. */
  ghost predicate InvokedOk(d: Dealer) {
    var vs := History.InvocationsIn(d.toCallee);
    |vs| == |d.calls| && forall t :: 0 <= t < |vs| ==> vs[t] == InvocationMsg(t + 1, d.calls[t])
  }

  /** Replies are relayed from the callee's messages, and none that was taken is lost. */
  ghost predicate HeardOk(d: Dealer, sent: seq<WireMsg>) {
    && d.calleeRead <= |sent|
    && (forall t :: 0 <= t < |d.calls| && d.calls[t].reply.Some? ==> d.calls[t].reply.value in sent)
    && (forall j :: 0 <= j < d.calleeRead && IsReply(sent[j]) && 1 <= sent[j].invocation <= |d.calls| ==>
          d.calls[sent[j].invocation - 1].reply.Some?)
  }

  // ---------------------------------------------------------------- sessions move

  lemma StillFed(s: State, l: Label, to: seq<Value>, got: nat)
    requires FedOk(s, to, got) && !l.Receive?
    ensures FedOk(Step(s, l), to, got)
  {
    Progress.StepOnward(s, l);
  }

  lemma FedOne(s: State, o: seq<Behaviour>, to: seq<Value>, got: nat)
    requires FedOk(s, to, got) && got < |to|
    ensures FedOk(Step(s, Receive(to[got], o)), to, got + 1)
  {
    Progress.StepOnward(s, Receive(to[got], o));
    assert to[..got + 1] == to[..got] + [to[got]];
  }

  lemma FedMore(s: State, to: seq<Value>, got: nat, v: Value)
    requires FedOk(s, to, got)
    ensures FedOk(s, to + [v], got)
  {
    assert (to + [v])[..got] == to[..got];
  }

  lemma StillTaken(d: Dealer, sent: seq<WireMsg>, more: seq<WireMsg>)
    requires TakenOk(d, sent) && sent <= more
    ensures TakenOk(d, more)
  {
    assert forall j :: 0 <= j < |sent| ==> more[j] == sent[j];
  }

  lemma StillHeard(d: Dealer, sent: seq<WireMsg>, more: seq<WireMsg>)
    requires HeardOk(d, sent) && sent <= more
    ensures HeardOk(d, more)
  {
    assert forall j :: 0 <= j < |sent| ==> more[j] == sent[j];
  }

  // ---------------------------------------------------------------- the dealer moves

  /** No two CALLs in the caller's messages carry one id. */
  lemma OneCallPerId(s: State, i: nat, j: nat)
    requires Ids.IdsOk(s) && Ids.InRange(s) && i < |s.output.sent| && j < |s.output.sent|
    requires s.output.sent[i].Call? && s.output.sent[j].Call? && s.output.sent[i].id == s.output.sent[j].id
    ensures i == j
  {
    Ids.RequestsHaveIds(s, i);
    if i < j {
      Ids.OnWireOnce(s, i, j);
    } else if j < i {
      Ids.OnWireOnce(s, j, i);
    }
  }

  /** So the next CALL is one the caller has been told nothing about. */
  lemma NextIsNew(s: State, d: Dealer)
    requires Ids.IdsOk(s) && Ids.InRange(s) && TakenOk(d, s.output.sent) && ToldOk(d)
    requires d.callerRead < |s.output.sent| && s.output.sent[d.callerRead].Call?
    ensures var id := s.output.sent[d.callerRead].id;
            && id !in d.refused && !IsRouted(d, id)
            && History.Answers(d.toCaller, CallKind, id) == []
  {
    var id := s.output.sent[d.callerRead].id;
    if id in d.refused { OneCallPerId(s, d.refused[id].at, d.callerRead); }
    forall t | 0 <= t < |d.calls|
      ensures d.calls[t].id != id
    {
      if d.calls[t].id == id { OneCallPerId(s, d.calls[t].at, d.callerRead); }
    }
  }

  lemma RoutedTaken(d: Dealer, sent: seq<WireMsg>, registration: nat, details: seq<Entry>)
    requires TakenOk(d, sent) && d.callerRead < |sent|
    ensures TakenOk(Routed(d, sent[d.callerRead], registration, details), sent)
  {
  }

  lemma RoutedTold(d: Dealer, m: WireMsg, registration: nat, details: seq<Entry>)
    requires ToldOk(d) && (m.Call? ==> History.Answers(d.toCaller, CallKind, m.id) == [])
    ensures ToldOk(Routed(d, m, registration, details))
  {
    var e := Routed(d, m, registration, details);
    forall t | 0 <= t < |e.calls| ensures Told(e, t) {
      if t < |d.calls| { assert Told(d, t); }
    }
    forall r: nat | IsRouted(d, r) ensures IsRouted(e, r) {
      var t :| 0 <= t < |d.calls| && d.calls[t].id == r;
      assert e.calls[t].id == r;
    }
  }

  lemma RoutedInvoked(d: Dealer, m: WireMsg, registration: nat, details: seq<Entry>)
    requires InvokedOk(d)
    ensures InvokedOk(Routed(d, m, registration, details))
  {
    var e := Routed(d, m, registration, details);
    if m.Call? {
      assert e.toCallee[..|d.toCallee|] == d.toCallee;
      assert Lifecycle.Is(e.toCallee[|d.toCallee|], INVOCATION);
    }
  }

  lemma RoutedHeard(d: Dealer, m: WireMsg, registration: nat, details: seq<Entry>, s: State)
    requires HeardOk(d, s.output.sent) && UpTo(s, |d.calls|)
    ensures HeardOk(Routed(d, m, registration, details), s.output.sent)
  {
  }

  /** The callee has only replied to invocations with ids up to `n`. */
  ghost predicate UpTo(s: State, n: nat) {
    forall j :: 0 <= j < |s.output.sent| && IsReply(s.output.sent[j]) ==> s.output.sent[j].invocation <= n
  }

  lemma RefusedTaken(d: Dealer, sent: seq<WireMsg>, uri: string, p: Payload, details: seq<Entry>)
    requires TakenOk(d, sent) && d.callerRead < |sent|
    ensures TakenOk(Refused(d, sent[d.callerRead], uri, p, details), sent)
  {
  }

  lemma RefusedTold(d: Dealer, m: WireMsg, uri: string, p: Payload, details: seq<Entry>)
    requires ToldOk(d)
    requires m.Call? ==> m.id !in d.refused && !IsRouted(d, m.id) && History.Answers(d.toCaller, CallKind, m.id) == []
    ensures ToldOk(Refused(d, m, uri, p, details))
  {
    var e := Refused(d, m, uri, p, details);
    SameRouted(d, e);
    if m.Call? {
      ErrorReads(m.id, details, uri, p);
      ToldMore(d, ErrorMsg(m.id, details, uri, p), m.id, Failed(ErrorText(uri, KwOption(p))));
    }
    forall t | 0 <= t < |e.calls| ensures Told(e, t) {
      assert Told(d, t);
      assert IsRouted(d, d.calls[t].id);
    }
  }

  /** One more answer to one call. */
  lemma ToldMore(d: Dealer, v: Value, id: nat, x: Answer)
    requires History.Reads(v) == Some(History.Addressed(CallKind, id, x))
    ensures forall r: nat :: History.Answers(d.toCaller + [v], CallKind, r)
                             == History.Answers(d.toCaller, CallKind, r) + if r == id then [x] else []
  {
    forall r: nat
      ensures History.Answers(d.toCaller + [v], CallKind, r)
              == History.Answers(d.toCaller, CallKind, r) + if r == id then [x] else []
    {
      MoreAnswers(d.toCaller, v, id, x, r);
    }
  }

  lemma RelayedTold(d: Dealer, m: WireMsg, details: seq<Entry>)
    requires ToldOk(d)
    requires forall t, u :: 0 <= t < u < |d.calls| ==> d.calls[t].id != d.calls[u].id
    requires forall t :: 0 <= t < |d.calls| ==> d.calls[t].id !in d.refused
    ensures ToldOk(Relayed(d, m, details))
  {
    var e := Relayed(d, m, details);
    SameRouted(d, e);
    if Rpc.Replies(d, m) {
      RelayedOne(d, m, details);
    } else {
      forall t | 0 <= t < |e.calls| ensures Told(e, t) { assert Told(d, t); }
    }
  }

  lemma RelayedOne(d: Dealer, m: WireMsg, details: seq<Entry>)
    requires ToldOk(d) && Rpc.Replies(d, m)
    requires forall t, u :: 0 <= t < u < |d.calls| ==> d.calls[t].id != d.calls[u].id
    requires forall t :: 0 <= t < |d.calls| ==> d.calls[t].id !in d.refused
    ensures ToldOk(Relayed(d, m, details))
  {
    var e, k := Relayed(d, m, details), m.invocation - 1;
    var id := d.calls[k].id;
    SameRouted(d, e);
    RelayReads(id, m, details);
    ToldMore(d, RelayMsg(id, m, details), id, Meaning(m));
    assert IsRouted(d, id);
    forall t | 0 <= t < |e.calls| ensures Told(e, t) {
      RelayedEach(d, m, details, t);
    }
  }

  lemma RelayedEach(d: Dealer, m: WireMsg, details: seq<Entry>, t: nat)
    requires Rpc.Replies(d, m) && t < |d.calls| && Told(d, t)
    requires t != m.invocation - 1 ==> d.calls[t].id != d.calls[m.invocation - 1].id
    ensures Told(Relayed(d, m, details), t)
  {
    var id := d.calls[m.invocation - 1].id;
    RelayReads(id, m, details);
    MoreAnswers(d.toCaller, RelayMsg(id, m, details), id, Meaning(m), d.calls[t].id);
  }

  lemma MoreAnswers(to: seq<Value>, v: Value, id: nat, x: Answer, r: nat)
    requires History.Reads(v) == Some(History.Addressed(CallKind, id, x))
    ensures History.Answers(to + [v], CallKind, r) == History.Answers(to, CallKind, r) + if r == id then [x] else []
  {
    History.AnswersSnoc(to, v, CallKind, r);
  }

  lemma SameRouted(d: Dealer, e: Dealer)
    requires |d.calls| == |e.calls| && forall t :: 0 <= t < |d.calls| ==> e.calls[t].id == d.calls[t].id
    ensures forall r: nat :: IsRouted(d, r) == IsRouted(e, r)
  {
    forall r: nat ensures IsRouted(d, r) == IsRouted(e, r) {
      if t :| 0 <= t < |d.calls| && d.calls[t].id == r { assert e.calls[t].id == r; }
      if t :| 0 <= t < |e.calls| && e.calls[t].id == r { assert d.calls[t].id == r; }
    }
  }

  lemma RelayedTaken(d: Dealer, sent: seq<WireMsg>, m: WireMsg, details: seq<Entry>)
    requires TakenOk(d, sent)
    ensures TakenOk(Relayed(d, m, details), sent)
  {
    var e := Relayed(d, m, details);
    assert forall t :: 0 <= t < |d.calls| ==> e.calls[t] == d.calls[t].(reply := e.calls[t].reply);
  }

  lemma RelayedInvoked(d: Dealer, m: WireMsg, details: seq<Entry>)
    requires InvokedOk(d)
    ensures InvokedOk(Relayed(d, m, details))
  {
    var e := Relayed(d, m, details);
    forall t | 0 <= t < |e.calls| ensures InvocationMsg(t + 1, e.calls[t]) == InvocationMsg(t + 1, d.calls[t]) {
      assert e.calls[t] == d.calls[t].(reply := e.calls[t].reply);
    }
  }

  lemma RelayedHeard(d: Dealer, sent: seq<WireMsg>, details: seq<Entry>)
    requires HeardOk(d, sent) && d.calleeRead < |sent|
    ensures HeardOk(Relayed(d, sent[d.calleeRead], details), sent)
  {
  }

  lemma RelayedFed(s: State, d: Dealer, m: WireMsg, details: seq<Entry>, got: nat)
    requires FedOk(s, d.toCaller, got)
    ensures FedOk(s, Relayed(d, m, details).toCaller, got)
  {
    if Rpc.Replies(d, m) {
      FedMore(s, d.toCaller, got, RelayMsg(d.calls[m.invocation - 1].id, m, details));
    }
  }

  // ---------------------------------------------------------------- what the callee made of it

  /** The callee's invocation objects are the routed calls, in order. */
  ghost predicate ServedOk(s: State, d: Dealer) {
    |s.invocations| <= |d.calls|
    && forall t :: 0 <= t < |s.invocations| ==> Serves(s, t, d.calls[t])
  }

  ghost predicate Serves(s: State, t: nat, c: RoutedCall)
    requires t < |s.invocations|
  {
    var inv := s.invocations[t];
    && inv.id == t + 1 && inv.registration == c.registration && inv.details == c.details
    && inv.args == PayloadArgs(c.payload) && inv.kw == PayloadKw(c.payload)
    && inv.acceptedBefore <= |s.past.accepted|
    && var known := History.Registered(s.past.accepted[..inv.acceptedBefore], s.book.requests);
       c.registration in known && known[c.registration] == inv.procedure
  }

  lemma {:induction false} InvocationsPrefix(a: seq<Value>, b: seq<Value>)
    requires a <= b
    ensures History.InvocationsIn(a) <= History.InvocationsIn(b)
    decreases |b|
  {
    if a != b {
      InvocationsPrefix(a, b[..|b| - 1]);
    }
  }

  lemma Served(s: State, d: Dealer)
    requires History.HistoryOk(s) && Ids.InRange(s) && InvokedOk(d) && s.past.accepted <= d.toCallee
    ensures ServedOk(s, d)
  {
    History.InvocationsOf(s);
    InvocationsPrefix(s.past.accepted, d.toCallee);
    forall t | 0 <= t < |s.invocations|
      ensures Serves(s, t, d.calls[t])
    {
      var v := History.InvocationsIn(s.past.accepted)[t];
      assert v == History.InvocationsIn(d.toCallee)[t];
      assert History.InvocationOk(s.invocations[t], v, s.past.accepted, s.book.requests);
      Described(s.invocations[t], t + 1, d.calls[t]);
    }
  }

  lemma Described(inv: Invocation, id: nat, c: RoutedCall)
    requires History.Describes(inv, InvocationMsg(id, c))
    ensures inv.id == id && inv.registration == c.registration && inv.details == c.details
    ensures inv.args == PayloadArgs(c.payload) && inv.kw == PayloadKw(c.payload)
  {
    var front := [UInt(INVOCATION), UInt(id), UInt(c.registration), Dict(c.details)];
    TailReads(front, c.payload);
    assert InvocationMsg(id, c).items[..4] == front;
    assert front[1] == UInt(inv.id) && front[2] == UInt(inv.registration) && front[3] == Dict(inv.details);
  }
}
