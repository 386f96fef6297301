/** Request ids: every id is in one place at a time, whatever order closures run in. */
module Ids {
  import opened Values
  import opened Wire
  import opened Session

  /** The message that a request of this kind sends. */
  predicate Asks(k: Kind, m: WireMsg) {
    match k
    case CallKind => m.Call?
    case SubscribeKind => m.Subscribe?
    case UnsubscribeKind => m.Unsubscribe?
    case RegisterKind => m.Register?
    case PublishKind => m.Publish?
  }

  ghost predicate QueueOk(q: Queue) {
    forall t :: t in q.pending ==> t < q.posted && Fitting(q.pending[t])
  }

  /** Request number `i` has its id but its closure has not run. */
  ghost predicate Waiting(q: Queue, i: nat) {
    exists t :: t in q.pending && q.pending[t].AskClosure? && q.pending[t].index == i
  }

  predicate SameAsk(c: Closure, d: Closure) {
    c.AskClosure? && d.AskClosure? && c.index == d.index
  }

  /** Request number `i` asks, under its own id, what its kind asks. */
  predicate AskedOk(reqs: seq<Request>, i: nat)
    requires i < |reqs|
  {
    Asks(reqs[i].kind, reqs[i].asked) && RequestId(reqs[i].asked) == i + 1
  }

  ghost predicate BookOk(reqs: seq<Request>) {
    forall i :: 0 <= i < |reqs| ==> AskedOk(reqs, i)
  }

  /** Waiting closures hold the messages of distinct, unanswered requests. */
  ghost predicate ClosuresOk(s: State) {
    var p := s.queue.pending;
    && (forall t :: t in p && p[t].AskClosure? ==>
          && p[t].index < |s.book.requests|
          && p[t].m == s.book.requests[p[t].index].asked
          && s.book.requests[p[t].index].promise.Unset?)
    && (forall t, u :: t in p && u in p && SameAsk(p[t], p[u]) ==> t == u)
  }

  /** A table holds ids of its own kind whose closures have run. */
  ghost predicate TableOk(s: State, k: Kind) {
    forall id :: id in Table(s, k) ==>
      && 1 <= id <= |s.book.requests|
      && Table(s, k)[id] == id - 1
      && s.book.requests[id - 1].kind == k
      && !Waiting(s.queue, id - 1)
      && (k == SubscribeKind || k == UnsubscribeKind ==> s.book.requests[id - 1].promise.Unset?)
  }

  /** A request on the wire is what some request object asks, and no closure holds it any more. */
  ghost predicate Asked(reqs: seq<Request>, q: Queue, m: WireMsg) {
    && 1 <= RequestId(m) <= |reqs|
    && reqs[RequestId(m) - 1].asked == m
    && !Waiting(q, RequestId(m) - 1)
  }

  ghost predicate SentOk(s: State) {
    && (forall j :: 0 <= j < |s.output.sent| && IsRequest(s.output.sent[j]) ==>
          Asked(s.book.requests, s.queue, s.output.sent[j]))
    && Distinct(s.output.sent)
  }

  ghost predicate Distinct(sent: seq<WireMsg>) {
    forall j, k :: 0 <= j < k < |sent| && RequestId(sent[j]) != 0 ==> RequestId(sent[j]) != RequestId(sent[k])
  }

  ghost predicate InRange(s: State) {
    |s.book.requests| < ID_RANGE
  }

  /** Ids in their places; the second part for as long as the counter has not wrapped. */
  ghost predicate CoreOk(s: State) {
    && QueueOk(s.queue)
    && s.book.lastId == |s.book.requests| % ID_RANGE
    && (InRange(s) ==>
          BookOk(s.book.requests) && ClosuresOk(s) && (forall k :: TableOk(s, k)) && SentOk(s))
  }

  /** The table an answer to this message is looked up in. */
  function KindOf(m: WireMsg): Kind {
    match m
    case Call(_, _, _) => CallKind
    case Subscribe(_, _) => SubscribeKind
    case Unsubscribe(_, _) => UnsubscribeKind
    case Register(_, _, _) => RegisterKind
    case _ => PublishKind
  }

  /** SUBSCRIBED and UNSUBSCRIBED take the id out of its table; RESULT, ERROR and REGISTERED do not. */
  predicate Erases(k: Kind) {
    k == SubscribeKind || k == UnsubscribeKind
  }

  /** A request on the wire can be answered: it is in its table, or was erased when it was answered. */
  predicate Recorded(s: State, m: WireMsg) {
    var k, id := KindOf(m), RequestId(m);
    id in Table(s, k)
    || (Erases(k) && 1 <= id <= |s.book.requests| && s.book.requests[id - 1].promise.Set?)
  }

  ghost predicate HasSent(sent: seq<WireMsg>, k: Kind, id: nat) {
    exists j :: 0 <= j < |sent| && Asks(k, sent[j]) && RequestId(sent[j]) == id
  }

  /** What is on the wire is recorded, and, until the session stops, what is recorded is on the wire. */
  ghost predicate RecordsOk(s: State) {
    && (forall j :: 0 <= j < |s.output.sent| && IsRequest(s.output.sent[j]) && !s.output.sent[j].Publish? ==>
          Recorded(s, s.output.sent[j]))
    && (!s.flags.stopped ==> forall k, id :: id in Table(s, k) ==> HasSent(s.output.sent, k, id))
  }

  /** Holds after every run. */
  ghost predicate IdsOk(s: State) {
    CoreOk(s) && (InRange(s) ==> RecordsOk(s))
  }

  lemma HasSentGrows(sent: seq<WireMsg>, m: WireMsg, k: Kind, id: nat)
    ensures HasSent(sent, k, id) ==> HasSent(sent + [m], k, id)
    ensures Asks(k, m) && RequestId(m) == id ==> HasSent(sent + [m], k, id)
  {
    if HasSent(sent, k, id) {
      var j :| 0 <= j < |sent| && Asks(k, sent[j]) && RequestId(sent[j]) == id;
      assert (sent + [m])[j] == sent[j];
    }
    assert (sent + [m])[|sent|] == m;
  }

  /** Tables and promises only fill up, and what is sent stays sent. */
  lemma StillRecorded(s: State, t: State)
    requires RecordsOk(s) && t.output.sent == s.output.sent && (s.flags.stopped ==> t.flags.stopped)
    requires forall k :: Table(t, k) == Table(s, k)
    requires |s.book.requests| <= |t.book.requests|
    requires forall i :: 0 <= i < |s.book.requests| && s.book.requests[i].promise.Set? ==>
               t.book.requests[i].promise.Set?
    ensures RecordsOk(t)
  {
    forall j | 0 <= j < |t.output.sent| && IsRequest(t.output.sent[j]) && !t.output.sent[j].Publish?
      ensures Recorded(t, t.output.sent[j])
    {
      assert Recorded(s, s.output.sent[j]);
    }
  }

  // ---------------------------------------------------------------- posting

  /** Tables look up the same way in states that agree on them, on requests and on what waits. */
  lemma SameTables(s: State, t: State)
    requires forall k :: TableOk(s, k)
    requires t.tables == s.tables && s.book.requests <= t.book.requests
    requires forall i :: 0 <= i < |s.book.requests| && Waiting(t.queue, i) ==> Waiting(s.queue, i)
    ensures forall k :: TableOk(t, k)
  {
    forall k ensures TableOk(t, k) {
      assert TableOk(s, k) && Table(t, k) == Table(s, k);
    }
  }

  lemma SameSent(s: State, t: State)
    requires SentOk(s) && t.output.sent == s.output.sent && s.book.requests <= t.book.requests
    requires forall i :: 0 <= i < |s.book.requests| && Waiting(t.queue, i) ==> Waiting(s.queue, i)
    ensures SentOk(t)
  {
    forall j | 0 <= j < |t.output.sent| && IsRequest(t.output.sent[j])
      ensures Asked(t.book.requests, t.queue, t.output.sent[j])
    {
      assert Asked(s.book.requests, s.queue, s.output.sent[j]);
    }
  }

  lemma PostKeeps(s: State, c: Closure)
    requires IdsOk(s) && Fitting(c) && !c.AskClosure?
    ensures IdsOk(Post(s, c))
  {
    var t := Post(s, c);
    forall i ensures Waiting(t.queue, i) == Waiting(s.queue, i) { PostWaiting(s.queue, c, i); }
    if InRange(s) {
      SameTables(s, t);
      SameSent(s, t);
      StillRecorded(s, t);
    }
  }

  lemma PostWaiting(q: Queue, c: Closure, i: nat)
    requires QueueOk(q)
    ensures Waiting(Queue(q.pending[q.posted := c], q.posted + 1), i)
            <==> Waiting(q, i) || (c.AskClosure? && c.index == i)
  {
    var r := Queue(q.pending[q.posted := c], q.posted + 1);
    if Waiting(q, i) {
      var t :| t in q.pending && q.pending[t].AskClosure? && q.pending[t].index == i;
      assert t in r.pending && r.pending[t] == q.pending[t];
    }
    if c.AskClosure? && c.index == i {
      assert q.posted in r.pending && r.pending[q.posted] == c;
    }
  }

  lemma AskKeeps(s: State, k: Kind, callable: nat, m: WireMsg)
    requires IdsOk(s) && Asks(k, m) && RequestId(m) == NextId(s)
    ensures IdsOk(Ask(s, k, callable, m))
  {
    var t := Ask(s, k, callable, m);
    var n := |s.book.requests|;
    assert t.book.lastId == |t.book.requests| % ID_RANGE by { Wraps(n); }
    if InRange(t) {
      assert NextId(s) == n + 1;
      forall i ensures Waiting(t.queue, i) <==> Waiting(s.queue, i) || i == n {
        PostWaiting(s.queue, AskClosure(n, m), i);
      }
      AskBook(s, k, callable, m);
      SameTables(s, t);
      SameSent(s, t);
      StillRecorded(s, t);
    }
  }

  lemma AskBook(s: State, k: Kind, callable: nat, m: WireMsg)
    requires QueueOk(s.queue) && BookOk(s.book.requests) && ClosuresOk(s)
    requires Asks(k, m) && RequestId(m) == |s.book.requests| + 1
    ensures BookOk(Ask(s, k, callable, m).book.requests) && ClosuresOk(Ask(s, k, callable, m))
  {
    var t := Ask(s, k, callable, m);
    forall i | 0 <= i < |t.book.requests| ensures AskedOk(t.book.requests, i) {
      if i < |s.book.requests| { assert AskedOk(s.book.requests, i); }
    }
  }

  lemma Wraps(n: nat)
    ensures (n % ID_RANGE + 1) % ID_RANGE == (n + 1) % ID_RANGE
  {
  }

  lemma PrepareKeeps(s: State, a: Api)
    requires IdsOk(s)
    ensures IdsOk(Prepare(s, a))
  {
    match a {
      case ApiJoin(realm) => PostKeeps(s, JoinClosure(Hello(realm)));
      case ApiLeave(reason) => PostKeeps(s, LeaveClosure(Goodbye(reason)));
      case ApiStop => PostKeeps(s, StopClosure);
      case ApiSubscribe(topic, h) => AskKeeps(s, SubscribeKind, h, Subscribe(NextId(s), topic));
      case ApiUnsubscribe(sub) => AskKeeps(s, UnsubscribeKind, 0, Unsubscribe(NextId(s), sub));
      case ApiProvide(name, p, options) => AskKeeps(s, RegisterKind, p, Register(NextId(s), options, name));
      case ApiPublish(topic, payload) => AskKeeps(s, PublishKind, 0, Publish(NextId(s), topic, payload));
      case ApiCall(name, payload) => AskKeeps(s, CallKind, 0, Call(NextId(s), name, payload));
    }
  }

  // ---------------------------------------------------------------- running closures

  /** States that agree on everything this invariant reads. */
  lemma SameKeeps(s: State, t: State)
    requires IdsOk(s) && t.book == s.book && t.tables == s.tables && t.queue == s.queue
    requires t.output.sent == s.output.sent && (s.flags.stopped ==> t.flags.stopped)
    ensures IdsOk(t)
  {
    if InRange(s) {
      SameTables(s, t);
      SameSent(s, t);
      StillRecorded(s, t);
    }
  }

  function Removed(s: State, ticket: nat): State {
    s.(queue := s.queue.(pending := s.queue.pending - {ticket}))
  }

  /** Taking a closure off the queue. */
  lemma RemoveKeeps(s: State, ticket: nat)
    requires IdsOk(s)
    ensures IdsOk(Removed(s, ticket))
  {
    var t := Removed(s, ticket);
    if InRange(s) {
      forall i ensures Waiting(t.queue, i) ==> Waiting(s.queue, i) { RemoveWaiting(s.queue, ticket, i); }
      SameTables(s, t);
      SameSent(s, t);
      StillRecorded(s, t);
    }
  }

  lemma RemoveWaiting(q: Queue, ticket: nat, i: nat)
    ensures Waiting(q.(pending := q.pending - {ticket}), i) ==> Waiting(q, i)
  {
    var r := q.(pending := q.pending - {ticket});
    if Waiting(r, i) {
      var t :| t in r.pending && r.pending[t].AskClosure? && r.pending[t].index == i;
      assert t in q.pending && q.pending[t] == r.pending[t];
    }
  }

  lemma RequestIdOf(m: WireMsg)
    ensures RequestId(m) != 0 ==> IsRequest(m)
    ensures forall k :: Asks(k, m) ==> IsRequest(m) && KindOf(m) == k
  {
  }

  /** Sending a message that carries no request id. */
  lemma SendKeeps(s: State, m: WireMsg)
    requires IdsOk(s) && !IsRequest(m)
    ensures IdsOk(Send(s, m))
  {
    var t := Send(s, m);
    RequestIdOf(m);
    if InRange(s) {
      SameTables(s, t);
      SendRecords(s, m);
    }
  }

  lemma SendRecords(s: State, m: WireMsg)
    requires RecordsOk(s) && !IsRequest(m)
    ensures RecordsOk(Send(s, m))
  {
    var t := Send(s, m);
    assert forall k :: Table(t, k) == Table(s, k);
    forall j | 0 <= j < |t.output.sent| && IsRequest(t.output.sent[j]) && !t.output.sent[j].Publish?
      ensures Recorded(t, t.output.sent[j])
    {
      assert Recorded(s, s.output.sent[j]);
    }
    if !s.flags.stopped {
      forall k, id | id in Table(t, k) ensures HasSent(t.output.sent, k, id) {
        HasSentGrows(s.output.sent, m, k, id);
      }
    }
  }

  /** The heart of it: while the counter has not wrapped, the id that a closure brings is in no
      table and not on the wire, so emplace() always inserts. */
  lemma FreshId(s: State, ticket: nat)
    requires IdsOk(s) && InRange(s)
    requires ticket in s.queue.pending && s.queue.pending[ticket].AskClosure?
    ensures var c := s.queue.pending[ticket];
            var id := RequestId(c.m);
            && id == c.index + 1 && 1 <= id <= |s.book.requests|
            && c.m == s.book.requests[c.index].asked
            && !Waiting(Removed(s, ticket).queue, c.index)
            && (forall k :: id !in Table(s, k))
            && (forall j :: 0 <= j < |s.output.sent| ==> RequestId(s.output.sent[j]) != id)
  {
    var c := s.queue.pending[ticket];
    assert AskedOk(s.book.requests, c.index);
    assert Waiting(s.queue, c.index);
    forall k ensures RequestId(c.m) !in Table(s, k) { assert TableOk(s, k); }
    forall j | 0 <= j < |s.output.sent| ensures RequestId(s.output.sent[j]) != RequestId(c.m) {
      RequestIdOf(s.output.sent[j]);
    }
    OneClosure(s, ticket);
  }

  lemma OneClosure(s: State, ticket: nat)
    requires ClosuresOk(s) && ticket in s.queue.pending && s.queue.pending[ticket].AskClosure?
    ensures !Waiting(Removed(s, ticket).queue, s.queue.pending[ticket].index)
  {
    var c, q, r := s.queue.pending[ticket], s.queue.pending, Removed(s, ticket).queue.pending;
    forall t | t in r && r[t].AskClosure?
      ensures r[t].index != c.index
    {
      assert r[t] == q[t] && (SameAsk(q[t], c) ==> t == ticket);
    }
  }

  /** A request recorded in its table, and then sent. */
  function AskedState(s: State, k: Kind, m: WireMsg, index: nat): State {
    Send(WithTable(s, k, Emplace(Table(s, k), RequestId(m), index)), m)
  }

  lemma ReadyToAsk(s: State, ticket: nat)
    requires IdsOk(s) && InRange(s) && ticket in s.queue.pending && s.queue.pending[ticket].AskClosure?
    ensures var c := s.queue.pending[ticket];
            c.index < |s.book.requests| && Ready(Removed(s, ticket), s.book.requests[c.index].kind, c.m, c.index)
  {
    var c := s.queue.pending[ticket];
    FreshId(s, ticket);
    assert AskedOk(s.book.requests, c.index);
    assert forall k :: Table(Removed(s, ticket), k) == Table(s, k);
  }

  lemma RunAskKeeps(s: State, ticket: nat)
    requires IdsOk(s) && ticket in s.queue.pending && s.queue.pending[ticket].AskClosure?
    ensures IdsOk(RunClosure(s, ticket).state)
  {
    var c, r := s.queue.pending[ticket], Removed(s, ticket);
    RemoveKeeps(s, ticket);
    if r.flags.sessionId != 0 {
      if InRange(s) {
        ReadyToAsk(s, ticket);
        AskedKeeps(r, r.book.requests[c.index].kind, c.m, c.index);
      } else {
        SameCounter(r, RunClosure(s, ticket).state);
      }
    }
  }

  lemma SameCounter(s: State, t: State)
    requires IdsOk(s) && !InRange(s) && t.queue == s.queue && t.book == s.book
    ensures IdsOk(t)
  {
  }

  /** The closure's request, with its id in no table and not on the wire. */
  ghost predicate Ready(s: State, k: Kind, m: WireMsg, index: nat) {
    && index < |s.book.requests| && s.book.requests[index].kind == k && s.book.requests[index].asked == m
    && RequestId(m) == index + 1 && Asks(k, m)
    && s.book.requests[index].promise.Unset? && !Waiting(s.queue, index)
    && (forall j :: RequestId(m) !in Table(s, j))
    && (forall j :: 0 <= j < |s.output.sent| ==> RequestId(s.output.sent[j]) != RequestId(m))
  }

  lemma AskedKeeps(s: State, k: Kind, m: WireMsg, index: nat)
    requires IdsOk(s) && InRange(s) && Ready(s, k, m, index)
    ensures IdsOk(AskedState(s, k, m, index))
  {
    AskedTables(s, k, m, index);
    AskedSent(s, k, m, index);
    AskedRecords(s, k, m, index);
  }

  lemma TableAfter(s: State, k: Kind, m: map<nat, nat>, j: Kind)
    ensures Table(WithTable(s, k, m), j) == if j == k && k != PublishKind then m else Table(s, j)
  {
  }

  lemma AskedTable(s: State, k: Kind, m: WireMsg, index: nat, j: Kind)
    requires RequestId(m) !in Table(s, k)
    ensures var t := AskedState(s, k, m, index);
            && t.book == s.book && t.queue == s.queue && t.flags == s.flags
            && Table(t, j) == if j == k && k != PublishKind then Table(s, k)[RequestId(m) := index] else Table(s, j)
  {
    TableAfter(s, k, Table(s, k)[RequestId(m) := index], j);
  }

  lemma AskedTables(s: State, k: Kind, m: WireMsg, index: nat)
    requires (forall j :: TableOk(s, j)) && Ready(s, k, m, index)
    ensures forall j :: TableOk(AskedState(s, k, m, index), j)
  {
    forall j ensures TableOk(AskedState(s, k, m, index), j) {
      assert TableOk(s, j);
      AskedTable(s, k, m, index, j);
    }
  }

  lemma AskedSent(s: State, k: Kind, m: WireMsg, index: nat)
    requires SentOk(s) && Ready(s, k, m, index)
    ensures SentOk(AskedState(s, k, m, index))
  {
    var t := AskedState(s, k, m, index);
    AskedTable(s, k, m, index, k);
    assert t.output.sent == s.output.sent || t.output.sent == s.output.sent + [m];
    forall j | 0 <= j < |t.output.sent| && IsRequest(t.output.sent[j])
      ensures Asked(t.book.requests, t.queue, t.output.sent[j])
    {
      if j < |s.output.sent| { assert Asked(s.book.requests, s.queue, s.output.sent[j]); }
    }
  }

  lemma AskedRecords(s: State, k: Kind, m: WireMsg, index: nat)
    requires RecordsOk(s) && Ready(s, k, m, index)
    ensures RecordsOk(AskedState(s, k, m, index))
  {
    var t := AskedState(s, k, m, index);
    forall j
      ensures Table(t, j) == if j == k && k != PublishKind then Table(s, k)[RequestId(m) := index] else Table(s, j)
    {
      AskedTable(s, k, m, index, j);
    }
    assert t.output.sent == if s.flags.stopped then s.output.sent else s.output.sent + [m];
    RequestIdOf(m);
    forall j | 0 <= j < |t.output.sent| && IsRequest(t.output.sent[j]) && !t.output.sent[j].Publish?
      ensures Recorded(t, t.output.sent[j])
    {
      if j < |s.output.sent| { assert Recorded(s, s.output.sent[j]); }
    }
    if !s.flags.stopped {
      forall j, id | id in Table(t, j) ensures HasSent(t.output.sent, j, id) {
        HasSentGrows(s.output.sent, m, j, id);
      }
    }
  }

  lemma RunReplyKeeps(s: State, k: nat, m: WireMsg)
    requires IdsOk(s) && !IsRequest(m)
    ensures IdsOk(RunReply(s, k, m).state)
  {
    SendKeeps(s, m);
    SameKeeps(Send(s, m), RunReply(s, k, m).state);
  }

  lemma RunKeeps(s: State, ticket: nat)
    requires IdsOk(s)
    ensures IdsOk(RunClosure(s, ticket).state)
  {
    if ticket in s.queue.pending {
      var c, r, t := s.queue.pending[ticket], Removed(s, ticket), RunClosure(s, ticket).state;
      RemoveKeeps(s, ticket);
      match c {
        case AskClosure(index, m) => RunAskKeeps(s, ticket);
        case JoinClosure(m) =>
          if r.flags.sessionId == 0 { SendKeeps(r, m); }
        case LeaveClosure(m) =>
          if r.flags.sessionId != 0 && !r.flags.goodbyeSent {
            var u := r.(flags := r.flags.(goodbyeSent := true, sessionId := 0));
            SameKeeps(r, u);
            SendKeeps(u, m);
          }
        case StopClosure => SameKeeps(r, t);
        case ReplyClosure(k, m) => RunReplyKeeps(r, k, m);
      }
    }
  }

  lemma SpendKeeps(s: State, k: nat, reply: Reply)
    requires IdsOk(s)
    ensures IdsOk(Spend(s, k, reply).state)
  {
    if k < |s.invocations| && s.invocations[k].stage.Held? {
      var m := ReplyMsg(s.invocations[k].id, reply);
      var u := s.(invocations := s.invocations[k := s.invocations[k].(stage := Queued(m), given := Some(reply))]);
      SameKeeps(s, u);
      PostKeeps(u, ReplyClosure(k, m));
    }
  }

  // ---------------------------------------------------------------- answers

  function Settle(s: State, index: nat, x: Answer): State
    requires index < |s.book.requests|
  {
    s.(book := s.book.(requests := s.book.requests[index := s.book.requests[index].(promise := Set(x))]))
  }

  function Answered(s: State, k: Kind, id: nat, x: Answer): State
    requires id in Table(s, k) && Table(s, k)[id] < |s.book.requests|
  {
    var t := Settle(s, Table(s, k)[id], x);
    if Erases(k) then WithTable(t, k, Table(s, k) - {id}) else t
  }

  /** An answer settles a request that no closure holds and that no erasing table keeps. */
  lemma AnsweredKeeps(s: State, k: Kind, id: nat, x: Answer)
    requires IdsOk(s) && id in Table(s, k) && Table(s, k)[id] < |s.book.requests|
    ensures IdsOk(Answered(s, k, id, x))
  {
    AnsweredView(s, k, id, x, k);
    SameKinds(s, k, id, x);
    if InRange(s) {
      AnsweredClosures(s, k, id, x);
      AnsweredSent(s, k, id, x);
      forall j ensures TableOk(Answered(s, k, id, x), j) { AnsweredTable(s, k, id, x, j); }
      AnsweredRecords(s, k, id, x);
    }
  }

  lemma SameKinds(s: State, k: Kind, id: nat, x: Answer)
    requires id in Table(s, k) && Table(s, k)[id] < |s.book.requests|
    ensures var t := Answered(s, k, id, x);
            |t.book.requests| == |s.book.requests| && t.book.lastId == s.book.lastId
            && forall i :: 0 <= i < |s.book.requests| ==>
                 t.book.requests[i] == s.book.requests[i].(promise := t.book.requests[i].promise)
                 && (i != Table(s, k)[id] ==> t.book.requests[i] == s.book.requests[i])
                 && (i == Table(s, k)[id] ==> t.book.requests[i].promise == Set(x))
  {
  }

  lemma AnsweredView(s: State, k: Kind, id: nat, x: Answer, j: Kind)
    requires id in Table(s, k) && Table(s, k)[id] < |s.book.requests|
    ensures var t := Answered(s, k, id, x);
            && t.queue == s.queue && t.output == s.output && t.flags == s.flags
            && Table(t, j) == if j == k && Erases(k) then Table(s, k) - {id} else Table(s, j)
  {
    var u := Settle(s, Table(s, k)[id], x);
    TableAfter(u, k, Table(s, k) - {id}, j);
    assert Table(u, j) == Table(s, j);
  }

  lemma AnsweredClosures(s: State, k: Kind, id: nat, x: Answer)
    requires IdsOk(s) && InRange(s) && id in Table(s, k) && Table(s, k)[id] < |s.book.requests|
    ensures ClosuresOk(Answered(s, k, id, x)) && BookOk(Answered(s, k, id, x).book.requests)
  {
    var u := Answered(s, k, id, x);
    assert TableOk(s, k);
    SameKinds(s, k, id, x);
    AnsweredView(s, k, id, x, k);
    var p := s.queue.pending;
    forall t | t in p && p[t].AskClosure?
      ensures p[t].index != id - 1
    {
      assert Waiting(s.queue, p[t].index);
    }
    forall i | 0 <= i < |u.book.requests| ensures AskedOk(u.book.requests, i) {
      assert AskedOk(s.book.requests, i);
    }
  }

  lemma AnsweredSent(s: State, k: Kind, id: nat, x: Answer)
    requires SentOk(s) && id in Table(s, k) && Table(s, k)[id] < |s.book.requests|
    ensures SentOk(Answered(s, k, id, x))
  {
    var t := Answered(s, k, id, x);
    SameKinds(s, k, id, x);
    AnsweredView(s, k, id, x, k);
    forall j | 0 <= j < |t.output.sent| && IsRequest(t.output.sent[j])
      ensures Asked(t.book.requests, t.queue, t.output.sent[j])
    {
      assert Asked(s.book.requests, s.queue, s.output.sent[j]);
    }
  }

  lemma AnsweredTable(s: State, k: Kind, id: nat, x: Answer, j: Kind)
    requires TableOk(s, k) && TableOk(s, j) && id in Table(s, k)
    ensures TableOk(Answered(s, k, id, x), j)
  {
    SameKinds(s, k, id, x);
    AnsweredView(s, k, id, x, j);
    var t := Answered(s, k, id, x);
    forall i | i in Table(t, j)
      ensures i in Table(s, j) && Table(t, j)[i] == Table(s, j)[i] && (i == id ==> j == k && !Erases(k))
    {
      assert i == id ==> s.book.requests[id - 1].kind == j && s.book.requests[id - 1].kind == k;
    }
  }

  lemma AnsweredRecords(s: State, k: Kind, id: nat, x: Answer)
    requires RecordsOk(s) && TableOk(s, k) && id in Table(s, k)
    ensures RecordsOk(Answered(s, k, id, x))
  {
    var t := Answered(s, k, id, x);
    SameKinds(s, k, id, x);
    forall j ensures Table(t, j) == if j == k && Erases(k) then Table(s, k) - {id} else Table(s, j) {
      AnsweredView(s, k, id, x, j);
    }
    AnsweredView(s, k, id, x, k);
    forall j | 0 <= j < |t.output.sent| && IsRequest(t.output.sent[j]) && !t.output.sent[j].Publish?
      ensures Recorded(t, t.output.sent[j])
    {
      assert Recorded(s, s.output.sent[j]);
    }
  }

  // ---------------------------------------------------------------- consequences

  lemma OneTable(s: State, id: nat, j: Kind, k: Kind)
    requires IdsOk(s) && InRange(s) && id in Table(s, j) && id in Table(s, k)
    ensures j == k && 1 <= id <= s.book.lastId && Table(s, j)[id] == id - 1
  {
    assert TableOk(s, j) && TableOk(s, k);
  }

  lemma OnWireOnce(s: State, j: nat, k: nat)
    requires IdsOk(s) && InRange(s) && j < k < |s.output.sent| && RequestId(s.output.sent[j]) != 0
    ensures RequestId(s.output.sent[j]) != RequestId(s.output.sent[k])
    ensures RequestId(s.output.sent[j]) <= s.book.lastId
  {
    RequestIdOf(s.output.sent[j]);
  }

  /** The request object of its id asked for this very message, and is of its kind. */
  predicate AskedFor(reqs: seq<Request>, m: WireMsg) {
    1 <= RequestId(m) <= |reqs| && reqs[RequestId(m) - 1].asked == m && Asks(reqs[RequestId(m) - 1].kind, m)
  }

  lemma RequestsHaveIds(s: State, j: nat)
    requires IdsOk(s) && InRange(s) && j < |s.output.sent| && IsRequest(s.output.sent[j])
    ensures AskedFor(s.book.requests, s.output.sent[j])
  {
    assert Asked(s.book.requests, s.queue, s.output.sent[j]);
    assert AskedOk(s.book.requests, RequestId(s.output.sent[j]) - 1);
  }

  lemma WaitingIsFresh(s: State, ticket: nat)
    requires IdsOk(s) && InRange(s)
    requires ticket in s.queue.pending && s.queue.pending[ticket].AskClosure?
    ensures var p := s.queue.pending;
            var id := RequestId(p[ticket].m);
            && 1 <= id <= s.book.lastId
            && (forall t :: t in p && t != ticket && p[t].AskClosure? ==> RequestId(p[t].m) != id)
            && (forall k :: id !in Table(s, k))
            && (forall j :: 0 <= j < |s.output.sent| ==> RequestId(s.output.sent[j]) != id)
  {
    FreshId(s, ticket);
    var p := s.queue.pending;
    forall t | t in p && t != ticket && p[t].AskClosure?
      ensures RequestId(p[t].m) != RequestId(p[ticket].m)
    {
      assert AskedOk(s.book.requests, p[t].index) && !SameAsk(p[t], p[ticket]);
    }
  }
}
