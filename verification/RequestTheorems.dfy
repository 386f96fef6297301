/** What holds in every run of the session: every interleaving of closures, every router, every
    handler and procedure. */
module RequestTheorems {
  import opened Values
  import opened Wire
  import opened Session
  import Ids
  import Progress
  import History
  import Runs

  // ---------------------------------------------------------------- request ids

  /** The id a waiting closure brings is its own: not behind another closure, in no table, not on
      the wire, and not ahead of the counter. */
  lemma {:induction false} WaitingIdsAreFresh(run: seq<Label>, ticket: nat)
    requires Ids.InRange(Exec(run))
    requires ticket in Exec(run).queue.pending && Exec(run).queue.pending[ticket].AskClosure?
    ensures var s := Exec(run);
            var p := s.queue.pending;
            var id := RequestId(p[ticket].m);
            && 1 <= id <= s.book.lastId
            && (forall t :: t in p && t != ticket && p[t].AskClosure? ==> RequestId(p[t].m) != id)
            && (forall k :: id !in Table(s, k))
            && (forall j :: 0 <= j < |s.output.sent| ==> RequestId(s.output.sent[j]) != id)
  {
    Runs.ExecIds(run);
    Ids.WaitingIsFresh(Exec(run), ticket);
  }

  /** An id is in at most one of the four tables, filed under its own request object. */
  lemma {:induction false} TablesAreDisjoint(run: seq<Label>, id: nat, j: Kind, k: Kind)
    requires Ids.InRange(Exec(run)) && id in Table(Exec(run), j) && id in Table(Exec(run), k)
    ensures j == k && 1 <= id <= Exec(run).book.lastId && Table(Exec(run), j)[id] == id - 1
  {
    Runs.ExecIds(run);
    Ids.OneTable(Exec(run), id, j, k);
  }

  /** No request id goes out twice, and none is ahead of the counter. */
  lemma {:induction false} WireIdsAreDistinct(run: seq<Label>, j: nat, k: nat)
    requires Ids.InRange(Exec(run)) && j < k < |Exec(run).output.sent|
    requires RequestId(Exec(run).output.sent[j]) != 0
    ensures var s := Exec(run);
            RequestId(s.output.sent[j]) != RequestId(s.output.sent[k])
            && RequestId(s.output.sent[j]) <= s.book.lastId
  {
    Runs.ExecIds(run);
    Ids.OnWireOnce(Exec(run), j, k);
  }

  /** So emplace() never meets an existing key: inside a session the closure's own request object
      is the one that gets recorded. */
  lemma {:induction false} EmplaceInserts(run: seq<Label>, ticket: nat)
    requires Ids.InRange(Exec(run)) && Exec(run).flags.sessionId != 0
    requires ticket in Exec(run).queue.pending && Exec(run).queue.pending[ticket].AskClosure?
    ensures var s := Exec(run);
            var c := s.queue.pending[ticket];
            && c.index < |s.book.requests|
            && var k := s.book.requests[c.index].kind;
               k != PublishKind ==>
                 Table(RunClosure(s, ticket).state, k) == Table(s, k)[RequestId(c.m) := c.index]
  {
    Runs.ExecIds(run);
    Ids.FreshId(Exec(run), ticket);
  }

  // ---------------------------------------------------------------- futures

  /** A future holds exactly what the accepted answers of its own kind, carrying the id its own API
      call took, say: nothing before the first, and never a second. */
  lemma {:induction false} Correlation(run: seq<Label>, i: nat)
    requires Ids.InRange(Exec(run)) && i < |Exec(run).book.requests|
    ensures var s := Exec(run);
            var r := s.book.requests[i];
            History.Answers(s.past.accepted, r.kind, i + 1)
            == match r.promise case Unset => [] case Set(x) => [x]
  {
    Runs.ExecHistory(run);
    History.PromiseIsAnswer(Exec(run), i);
  }

  /** No accepted answer is addressed to anything but a request that was made. */
  lemma {:induction false} NoStrayAnswers(run: seq<Label>, k: Kind, id: nat)
    requires Ids.InRange(Exec(run)) && History.Answers(Exec(run).past.accepted, k, id) != []
    ensures var s := Exec(run);
            1 <= id <= |s.book.requests| && s.book.requests[id - 1].kind == k
            && s.book.requests[id - 1].promise == Set(History.Answers(s.past.accepted, k, id)[0])
  {
    Runs.ExecHistory(run);
    History.AnswerIsKnown(Exec(run), k, id);
  }

  /** Once a future is ready it never changes again, over any continuation of the run. */
  lemma {:induction false} FuturesSettleOnce(run: seq<Label>, more: seq<Label>, i: nat)
    requires Ids.InRange(Exec(run + more)) && i < |Exec(run).book.requests|
    requires Exec(run).book.requests[i].promise.Set?
    ensures var s, t := Exec(run), Exec(run + more);
            i < |t.book.requests| && t.book.requests[i].promise == s.book.requests[i].promise
  {
    var s, t := Exec(run), Exec(run + more);
    Progress.RunOnward(run, more);
    Runs.ExecHistory(run);
    Runs.ExecHistory(run + more);
    History.CorrelationOf(s);
    History.CorrelationOf(t);
    assert Progress.SameRequest(s.book.requests[i], t.book.requests[i]);
    SettledStays(s.past.accepted, s.book.requests, t.past.accepted, t.book.requests, i);
  }

  lemma SettledStays(acc: seq<Value>, reqs: seq<Request>, later: seq<Value>, after: seq<Request>, i: nat)
    requires History.CorrelationOk(acc, reqs) && History.CorrelationOk(later, after) && acc <= later
    requires i < |reqs| <= |after| && reqs[i].promise.Set? && after[i].kind == reqs[i].kind
    ensures after[i].promise == reqs[i].promise
  {
    AnswersPrefix(acc, later, reqs[i].kind, i + 1);
    assert History.Settled(reqs[i].promise) <= History.Settled(after[i].promise);
    assert History.Settled(reqs[i].promise)[0] == History.Settled(after[i].promise)[0];
  }

  lemma {:induction false} AnswersPrefix(a: seq<Value>, b: seq<Value>, k: Kind, id: nat)
    requires a <= b
    ensures History.Answers(a, k, id) <= History.Answers(b, k, id)
    decreases |b|
  {
    if a != b {
      AnswersPrefix(a, b[..|b| - 1], k, id);
    }
  }

  // ---------------------------------------------------------------- from the API call to the wire

  predicate Asking(a: Api) {
    !a.ApiJoin? && !a.ApiLeave? && !a.ApiStop?
  }

  /** The message an API call asks for, under the id it takes. */
  function MessageOf(a: Api, id: nat): WireMsg
    requires Asking(a)
  {
    match a
    case ApiSubscribe(topic, _) => Subscribe(id, topic)
    case ApiUnsubscribe(subscription) => Unsubscribe(id, subscription)
    case ApiProvide(name, _, options) => Register(id, options, name)
    case ApiPublish(topic, payload) => Publish(id, topic, payload)
    case ApiCall(name, payload) => Call(id, name, payload)
  }

  /** The closure the other three API calls post. */
  function ClosureOf(a: Api): Closure
    requires !Asking(a)
  {
    match a
    case ApiJoin(realm) => JoinClosure(Hello(realm))
    case ApiLeave(reason) => LeaveClosure(Goodbye(reason))
    case ApiStop => StopClosure
  }

  /** On whatever thread it is made, a call adds one request, which keeps the message with the very
      arguments of the call. */
  lemma CallKeepsArguments(s: State, a: Api)
    requires Asking(a)
    ensures forall t :: t == Prepare(s, a) || t == CallApi(s, a).state ==>
              && |t.book.requests| == |s.book.requests| + 1
              && t.book.requests[|s.book.requests|].asked == MessageOf(a, NextId(s))
  {
    var p := Prepare(s, a);
    assert p.book.requests[|s.book.requests|].asked == MessageOf(a, NextId(s));
    assert CallApi(s, a).state.book == RunClosure(p, s.queue.posted).state.book;
    ClosureKeepsBook(p, s.queue.posted);
  }

  lemma ClosureKeepsBook(s: State, ticket: nat)
    ensures RunClosure(s, ticket).state.book == s.book
  {
    if ticket in s.queue.pending {
      BodyKeepsBook(Ids.Removed(s, ticket), s.queue.pending[ticket]);
    }
  }

  lemma BodyKeepsBook(s: State, c: Closure)
    ensures RunBody(s, c).state.book == s.book
  {
    if c.AskClosure? { AskKeepsBook(s, c.index, c.m); }
  }

  lemma AskKeepsBook(s: State, index: nat, m: WireMsg)
    ensures RunAsk(s, index, m).state.book == s.book
  {
  }

  /** A request on the wire, now or ever, is word for word what its API call asked for. */
  lemma {:induction false} ArgumentsReachTheWire(run: seq<Label>, a: Api, more: seq<Label>, j: nat)
    requires Asking(a) && Exec(run).live && Ids.InRange(Exec(run + [Take(a)] + more))
    requires j < |Exec(run + [Take(a)] + more).output.sent|
    requires RequestId(Exec(run + [Take(a)] + more).output.sent[j]) == |Exec(run).book.requests| + 1
    ensures Exec(run + [Take(a)] + more).output.sent[j] == MessageOf(a, |Exec(run).book.requests| + 1)
  {
    var s, t, u, i := Exec(run), Exec(run + [Take(a)]), Exec(run + [Take(a)] + more), |Exec(run).book.requests|;
    Runs.ExecSnoc(run, Take(a));
    CallKeepsArguments(s, a);
    Progress.RunOnward(run + [Take(a)], more);
    assert Progress.SameRequest(t.book.requests[i], u.book.requests[i]);
    Runs.ExecIds(run);
    Runs.ExecIds(run + [Take(a)] + more);
    Ids.RequestIdOf(u.output.sent[j]);
    Ids.RequestsHaveIds(u, j);
    assert NextId(s) == i + 1;
  }

  /** The same for a call made by user code on the io thread: the request it made, as long as it is
      there under its number, is what goes on the wire. */
  lemma {:induction false} WireIsAsked(run: seq<Label>, j: nat)
    requires Ids.InRange(Exec(run)) && j < |Exec(run).output.sent| && IsRequest(Exec(run).output.sent[j])
    ensures Ids.AskedFor(Exec(run).book.requests, Exec(run).output.sent[j])
  {
    Runs.ExecIds(run);
    Ids.RequestsHaveIds(Exec(run), j);
  }
}
