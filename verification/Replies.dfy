/** Replies to invocations: one token, one reply, wherever and whenever it is used. */
module Replies {
  import opened Values
  import opened Wire
  import opened Session
  import Ids

  /** The invocation request id on a YIELD or an ERROR. */
  function ReplyId(m: WireMsg): nat
    requires IsReply(m)
  {
    m.invocation
  }

  predicate Answers(m: WireMsg, r: nat) {
    IsReply(m) && ReplyId(m) == r
  }

  /** How many replies with request id `r` are on the wire. */
  function SentReplies(sent: seq<WireMsg>, r: nat): nat {
    if sent == [] then 0
    else SentReplies(sent[..|sent| - 1], r) + if Answers(sent[|sent| - 1], r) then 1 else 0
  }

  predicate IsDelivered(inv: Invocation, r: nat) {
    inv.id == r && inv.stage.Delivered?
  }

  /** How many invocations with request id `r` have had their reply delivered. */
  function DeliveredReplies(invs: seq<Invocation>, r: nat): nat {
    if invs == [] then 0
    else DeliveredReplies(invs[..|invs| - 1], r) + if IsDelivered(invs[|invs| - 1], r) then 1 else 0
  }

  /** How many invocations were accepted with request id `r`. */
  function AcceptedInvocations(invs: seq<Invocation>, r: nat): nat {
    if invs == [] then 0
    else AcceptedInvocations(invs[..|invs| - 1], r) + if invs[|invs| - 1].id == r then 1 else 0
  }

  lemma SentSnoc(sent: seq<WireMsg>, m: WireMsg, r: nat)
    ensures SentReplies(sent + [m], r) == SentReplies(sent, r) + if Answers(m, r) then 1 else 0
  {
    assert (sent + [m])[..|sent|] == sent;
  }

  lemma DeliveredSnoc(invs: seq<Invocation>, inv: Invocation, r: nat)
    ensures DeliveredReplies(invs + [inv], r)
            == DeliveredReplies(invs, r) + if IsDelivered(inv, r) then 1 else 0
  {
    assert (invs + [inv])[..|invs|] == invs;
  }

  lemma {:induction false} DeliveredUpdate(invs: seq<Invocation>, k: nat, inv: Invocation, r: nat)
    requires k < |invs|
    ensures DeliveredReplies(invs[k := inv], r) + (if IsDelivered(invs[k], r) then 1 else 0)
            == DeliveredReplies(invs, r) + (if IsDelivered(inv, r) then 1 else 0)
  {
    var n := |invs| - 1;
    if k == n {
      assert invs[k := inv][..n] == invs[..n];
    } else {
      assert invs[k := inv][..n] == invs[..n][k := inv];
      DeliveredUpdate(invs[..n], k, inv, r);
    }
  }

  /** Delivered replies are some of the accepted invocations. */
  lemma {:induction false} DeliveredBound(invs: seq<Invocation>, r: nat)
    ensures DeliveredReplies(invs, r) <= AcceptedInvocations(invs, r)
  {
    if invs != [] {
      DeliveredBound(invs[..|invs| - 1], r);
    }
  }

  // ---------------------------------------------------------------- the invariant

  /** The message that answers for this reply. */
  predicate AnswersWith(m: WireMsg, id: nat, reply: Reply) {
    match reply
    case ResultReply(payload) => m == Yield(id, payload)
    case ErrorWith(uri, payload) => m == ErrorReply(id, uri, payload)
  }

  /** A spent token was spent on one reply, and its message is that reply. */
  ghost predicate StageOk(inv: Invocation) {
    inv.stage.Held? || (inv.given.Some? && AnswersWith(inv.stage.m, inv.id, inv.given.value))
  }

  predicate SameToken(c: Closure, d: Closure) {
    c.ReplyClosure? && d.ReplyClosure? && c.invocation == d.invocation
  }

  /** Queued replies and waiting reply closures belong together, one to one. */
  ghost predicate QueuedOk(s: State) {
    var p := s.queue.pending;
    && (forall t :: t in p && p[t].ReplyClosure? ==>
          p[t].invocation < |s.invocations| && s.invocations[p[t].invocation].stage == Queued(p[t].m))
    && (forall t, u :: t in p && u in p && SameToken(p[t], p[u]) ==> t == u)
    && (forall k :: 0 <= k < |s.invocations| && s.invocations[k].stage.Queued? ==> HasClosure(s.queue, k))
  }

  ghost predicate HasClosure(q: Queue, k: nat) {
    exists t :: t in q.pending && q.pending[t].ReplyClosure? && q.pending[t].invocation == k
  }

  /** Every reply on the wire is the reply of some invocation. */
  ghost predicate Traced(s: State) {
    forall j :: 0 <= j < |s.output.sent| && IsReply(s.output.sent[j]) ==>
      HasDelivered(s.invocations, s.output.sent[j])
  }

  ghost predicate HasDelivered(invs: seq<Invocation>, m: WireMsg) {
    exists k :: 0 <= k < |invs| && invs[k].stage == Delivered(m)
  }

  /** Replies are neither made up nor doubled. */
  ghost predicate Conserved(s: State) {
    forall r: nat :: SentReplies(s.output.sent, r) == DeliveredReplies(s.invocations, r)
  }

  ghost predicate RepliesOk(s: State) {
    && (forall k :: 0 <= k < |s.invocations| ==> StageOk(s.invocations[k]))
    && QueuedOk(s)
    && Traced(s)
    && Conserved(s)
  }

  lemma SameReplies(s: State, t: State)
    requires RepliesOk(s) && t.invocations == s.invocations && t.queue == s.queue
    requires t.output.sent == s.output.sent
    ensures RepliesOk(t)
  {
  }

  /** Posting or removing a closure that carries no reply. */
  lemma OtherClosure(s: State, q: Queue)
    requires RepliesOk(s)
    requires forall t :: t in q.pending && q.pending[t].ReplyClosure? ==>
               t in s.queue.pending && s.queue.pending[t] == q.pending[t]
    requires forall t :: t in s.queue.pending && s.queue.pending[t].ReplyClosure? ==>
               t in q.pending && s.queue.pending[t] == q.pending[t]
    ensures RepliesOk(s.(queue := q))
  {
    var t := s.(queue := q);
    forall k | 0 <= k < |t.invocations| && t.invocations[k].stage.Queued?
      ensures HasClosure(q, k)
    {
      assert HasClosure(s.queue, k);
      var w :| w in s.queue.pending && s.queue.pending[w].ReplyClosure? && s.queue.pending[w].invocation == k;
      assert w in q.pending;
    }
  }

  lemma PrepareReplies(s: State, a: Api)
    requires RepliesOk(s) && Ids.QueueOk(s.queue)
    ensures RepliesOk(Prepare(s, a))
  {
    var t := Prepare(s, a);
    OtherClosure(s, t.queue);
    SameReplies(s.(queue := t.queue), t);
  }

  lemma SendReplies(s: State, m: WireMsg)
    requires RepliesOk(s) && !IsReply(m)
    ensures RepliesOk(Send(s, m))
  {
    forall r: nat ensures SentReplies(Send(s, m).output.sent, r) == SentReplies(s.output.sent, r) {
      SentSnoc(s.output.sent, m, r);
    }
  }

  /** The reply closure takes its reply from the queue to the wire, or drops it when stopped. */
  lemma RunReplyReplies(s: State, ticket: nat)
    requires RepliesOk(s) && ticket in s.queue.pending && s.queue.pending[ticket].ReplyClosure?
    ensures RepliesOk(RunClosure(s, ticket).state)
  {
    var c := s.queue.pending[ticket];
    var k, m := c.invocation, c.m;
    var r, t := Ids.Removed(s, ticket), RunClosure(s, ticket).state;
    var inv := s.invocations[k].(stage := if s.flags.stopped then Dropped(m) else Delivered(m));
    assert t.invocations == s.invocations[k := inv];
    assert t.queue == r.queue;
    assert StageOk(s.invocations[k]);
    StagedQueue(s, ticket, inv);
    forall x: nat
      ensures SentReplies(t.output.sent, x) == DeliveredReplies(t.invocations, x)
    {
      SentSnoc(s.output.sent, m, x);
      DeliveredUpdate(s.invocations, k, inv, x);
    }
    StagedTraced(s, k, inv, t);
  }

  lemma StagedQueue(s: State, ticket: nat, inv: Invocation)
    requires RepliesOk(s) && ticket in s.queue.pending && s.queue.pending[ticket].ReplyClosure?
    requires !inv.stage.Queued? && !inv.stage.Held?
    ensures QueuedOk(s.(queue := Ids.Removed(s, ticket).queue,
                        invocations := s.invocations[s.queue.pending[ticket].invocation := inv]))
  {
    var k := s.queue.pending[ticket].invocation;
    var q := Ids.Removed(s, ticket).queue;
    var after := s.invocations[k := inv];
    forall j | 0 <= j < |after| && after[j].stage.Queued?
      ensures HasClosure(q, j)
    {
      assert j != k && HasClosure(s.queue, j);
      var w :| w in s.queue.pending && s.queue.pending[w].ReplyClosure? && s.queue.pending[w].invocation == j;
      assert w in q.pending;
    }
  }

  lemma StagedTraced(s: State, k: nat, inv: Invocation, t: State)
    requires RepliesOk(s) && k < |s.invocations| && s.invocations[k].stage.Queued?
    requires t.invocations == s.invocations[k := inv]
    requires t.output.sent == s.output.sent
             || (inv.stage.Delivered? && t.output.sent == s.output.sent + [inv.stage.m])
    ensures Traced(t)
  {
    forall j | 0 <= j < |t.output.sent| && IsReply(t.output.sent[j])
      ensures HasDelivered(t.invocations, t.output.sent[j])
    {
      if j < |s.output.sent| {
        var w :| 0 <= w < |s.invocations| && s.invocations[w].stage == Delivered(s.output.sent[j]);
        assert t.invocations[w] == s.invocations[w];
      } else {
        assert t.invocations[k].stage == Delivered(t.output.sent[j]);
      }
    }
  }

  /** The other closures leave invocations and the queue alone, and send no reply. */
  lemma OtherBody(s: State, c: Closure)
    requires Fitting(c) && !c.ReplyClosure?
    ensures var t := RunBody(s, c).state;
            && t.invocations == s.invocations && t.queue == s.queue
            && (t.output.sent == s.output.sent
                || (!c.StopClosure? && !IsReply(c.m) && t.output.sent == Send(s, c.m).output.sent))
  {
    match c {
      case AskClosure(index, m) =>
      case JoinClosure(m) =>
      case LeaveClosure(m) =>
      case StopClosure =>
    }
  }

  lemma RunReplies(s: State, ticket: nat)
    requires RepliesOk(s) && Ids.QueueOk(s.queue)
    ensures RepliesOk(RunClosure(s, ticket).state)
  {
    if ticket in s.queue.pending {
      var c, r := s.queue.pending[ticket], Ids.Removed(s, ticket);
      if c.ReplyClosure? {
        RunReplyReplies(s, ticket);
      } else {
        OtherClosure(s, r.queue);
        OtherBodyReplies(r, c);
      }
    }
  }

  lemma OtherBodyReplies(s: State, c: Closure)
    requires RepliesOk(s) && Fitting(c) && !c.ReplyClosure?
    ensures RepliesOk(RunBody(s, c).state)
  {
    OtherBody(s, c);
    var t := RunBody(s, c).state;
    if t.output.sent == s.output.sent {
      SameReplies(s, t);
    } else {
      SendReplies(s, c.m);
      SameReplies(Send(s, c.m), t);
    }
  }

  /** A spent token queues exactly one reply. */
  lemma SpendReplies(s: State, k: nat, reply: Reply)
    requires RepliesOk(s) && Ids.QueueOk(s.queue)
    ensures RepliesOk(Spend(s, k, reply).state)
  {
    if k < |s.invocations| && s.invocations[k].stage.Held? {
      var m := ReplyMsg(s.invocations[k].id, reply);
      var inv := s.invocations[k].(stage := Queued(m), given := Some(reply));
      var t := Spend(s, k, reply).state;
      assert t.invocations == s.invocations[k := inv];
      forall j | 0 <= j < |t.invocations| && t.invocations[j].stage.Queued?
        ensures HasClosure(t.queue, j)
      {
        if j == k {
          assert t.queue.pending[s.queue.posted].invocation == k;
        } else {
          assert HasClosure(s.queue, j);
          var w :| w in s.queue.pending && s.queue.pending[w].ReplyClosure? && s.queue.pending[w].invocation == j;
          assert w in t.queue.pending && t.queue.pending[w] == s.queue.pending[w];
        }
      }
      forall x: nat
        ensures DeliveredReplies(t.invocations, x) == DeliveredReplies(s.invocations, x)
      {
        DeliveredUpdate(s.invocations, k, inv, x);
      }
      SpendTraced(s, k, inv);
    }
  }

  lemma SpendTraced(s: State, k: nat, inv: Invocation)
    requires RepliesOk(s) && k < |s.invocations| && s.invocations[k].stage.Held?
    ensures Traced(s.(invocations := s.invocations[k := inv]))
  {
    forall j | 0 <= j < |s.output.sent| && IsReply(s.output.sent[j])
      ensures HasDelivered(s.invocations[k := inv], s.output.sent[j])
    {
      var w :| 0 <= w < |s.invocations| && s.invocations[w].stage == Delivered(s.output.sent[j]);
      assert s.invocations[k := inv][w] == s.invocations[w];
    }
  }

  /** A new invocation starts with its token held. */
  lemma NewReplies(s: State, inv: Invocation)
    requires RepliesOk(s) && inv.stage.Held?
    ensures RepliesOk(Begun(s, inv))
  {
    var t := Begun(s, inv);
    forall x: nat
      ensures DeliveredReplies(t.invocations, x) == DeliveredReplies(s.invocations, x)
    {
      DeliveredSnoc(s.invocations, inv, x);
    }
    forall j | 0 <= j < |s.output.sent| && IsReply(s.output.sent[j])
      ensures HasDelivered(t.invocations, s.output.sent[j])
    {
      var w :| 0 <= w < |s.invocations| && s.invocations[w].stage == Delivered(s.output.sent[j]);
      assert t.invocations[w] == s.invocations[w];
    }
    forall k | 0 <= k < |t.invocations| && t.invocations[k].stage.Queued?
      ensures HasClosure(t.queue, k)
    {
      assert t.invocations[k] == s.invocations[k];
    }
  }

  lemma Source(s: State, j: nat) returns (k: nat)
    requires RepliesOk(s) && j < |s.output.sent| && IsReply(s.output.sent[j])
    ensures k < |s.invocations| && s.invocations[k].stage == Delivered(s.output.sent[j])
    ensures ReplyId(s.output.sent[j]) == s.invocations[k].id
  {
    assert HasDelivered(s.invocations, s.output.sent[j]);
    k :| 0 <= k < |s.invocations| && s.invocations[k].stage == Delivered(s.output.sent[j]);
    assert StageOk(s.invocations[k]);
  }
}
