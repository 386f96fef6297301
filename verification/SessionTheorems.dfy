/** Joining, leaving, stopping and failing, over whole runs. */
module SessionTheorems {
  import opened Values
  import opened Wire
  import opened Session
  import opened Lifecycle
  import Progress
  import Reentrancy
  import Runs

  // ---------------------------------------------------------------- inside a session

  /** While the session is neither ended nor stopped, m_session_id is the id of the one WELCOME with a
      non-zero id that nothing has ended since, and 0 when there is none. */
  lemma {:induction false} SessionIdMeans(run: seq<Label>)
    requires Exec(run).live && !Exec(run).flags.stopped
    ensures var s := Exec(run);
            var t := s.output.trace;
            && (s.flags.sessionId != 0 <==> exists w :: 0 <= w < |t| && OpenedAt(t, w))
            && (forall w :: 0 <= w < |t| && OpenedAt(t, w) ==> s.flags.sessionId == SessionGiven(t[w].v))
  {
    Runs.ExecLife(run);
    OpenMeans(Exec(run).output.trace);
  }

  /** Whatever was sent could be sent at that time. */
  lemma {:induction false} FineAt(t: seq<Event>, i: nat)
    requires Tell(t).fine && i < |t|
    ensures t[i].Out? && IsRequest(t[i].m) ==> Open(t[..i])
    ensures IsGoodbyeOut(t[i]) ==> Tell(t[..i]).owns == 0 && (Tell(t[..i]).answering || Open(t[..i]))
  {
    var front := t[..|t| - 1];
    if i < |t| - 1 {
      FineAt(front, i);
      assert front[..i] == t[..i];
    }
  }

  /** In every run, whatever the router does: each SUBSCRIBE, UNSUBSCRIBE, REGISTER, PUBLISH and
      CALL on the wire has a WELCOME with a non-zero id before it, and neither side's GOODBYE nor
      another WELCOME between the two. */
  lemma {:induction false} RequestsFollowWelcome(run: seq<Label>, i: nat) returns (w: nat)
    requires i < |Exec(run).output.trace|
    requires Exec(run).output.trace[i].Out? && IsRequest(Exec(run).output.trace[i].m)
    ensures w < i && OpenedAt(Exec(run).output.trace[..i], w)
  {
    var t := Exec(run).output.trace;
    Runs.ExecLife(run);
    FineAt(t, i);
    OpenMeans(t[..i]);
    w :| 0 <= w < i && OpenedAt(t[..i], w);
  }

  predicate IsEnd(e: Event) {
    IsGoodbyeIn(e) || IsGoodbyeOut(e)
  }

  /** The router behaves: it sends GOODBYE only after a WELCOME. */
  ghost predicate GoodbyeAfterWelcome(t: seq<Event>) {
    forall g :: 0 <= g < |t| && IsGoodbyeIn(t[g]) ==> WelcomeBefore(t, g)
  }

  ghost predicate WelcomeBefore(t: seq<Event>, g: nat)
    requires g <= |t|
  {
    exists w :: 0 <= w < g && IsWelcome(t[w])
  }

  lemma {:induction false} WelcomesMean(t: seq<Event>)
    ensures Tell(t).welcomes > 0 <==> WelcomeBefore(t, |t|)
  {
    if t != [] {
      var n := |t| - 1;
      WelcomesMean(t[..n]);
      WelcomeLonger(t);
    }
  }

  lemma WelcomeLonger(t: seq<Event>)
    requires t != []
    ensures WelcomeBefore(t, |t|) <==> WelcomeBefore(t[..|t| - 1], |t| - 1) || IsWelcome(t[|t| - 1])
  {
    var n := |t| - 1;
    if WelcomeBefore(t[..n], n) {
      var w :| 0 <= w < n && IsWelcome(t[..n][w]);
      assert IsWelcome(t[w]);
    }
    if WelcomeBefore(t, |t|) && !IsWelcome(t[n]) {
      var w :| 0 <= w < |t| && IsWelcome(t[w]);
      assert IsWelcome(t[..n][w]);
    }
  }

  lemma {:induction false} NotEarly(t: seq<Event>)
    requires GoodbyeAfterWelcome(t)
    ensures !Tell(t).early
  {
    if t != [] {
      var n := |t| - 1;
      var front := t[..n];
      forall g | 0 <= g < n && IsGoodbyeIn(front[g]) ensures WelcomeBefore(front, g) {
        assert IsGoodbyeIn(t[g]) && WelcomeBefore(t, g);
        var w :| 0 <= w < g && IsWelcome(t[w]);
        assert IsWelcome(front[w]);
      }
      NotEarly(front);
      WelcomesMean(front);
      if IsGoodbyeIn(t[n]) {
        assert WelcomeBefore(t, n);
        var w :| 0 <= w < n && IsWelcome(t[w]);
        assert IsWelcome(front[w]);
      }
    }
  }

  lemma {:induction false} PrefixStory(t: seq<Event>, i: nat)
    requires i <= |t|
    ensures var p, q := Tell(t[..i]), Tell(t);
            p.welcomes <= q.welcomes && (p.early ==> q.early) && (q.fine ==> p.fine)
  {
    if i < |t| {
      PrefixStory(t[..|t| - 1], i);
      assert t[..|t| - 1][..i] == t[..i];
    } else {
      assert t[..i] == t;
    }
  }

  /** With such a router a session that is open, or has never been, has seen no GOODBYE. */
  lemma {:induction false} NoEndYet(t: seq<Event>, g: nat)
    requires Tell(t).fine && !Tell(t).early && Tell(t).welcomes <= 1 && g < |t|
    requires Open(t) || Tell(t).welcomes == 0
    ensures !IsEnd(t[g])
  {
    var n := |t| - 1;
    if Tell(t[..n]).welcomes == 0 { NeverOpened(t[..n]); }
    if g < n {
      NoEndYet(t[..n], g);
    }
  }

  lemma {:induction false} NeverOpened(t: seq<Event>)
    requires Tell(t).welcomes == 0
    ensures !Open(t) && (!Tell(t).early ==> !Tell(t).answering)
  {
    if t != [] {
      NeverOpened(t[..|t| - 1]);
    }
  }

  /** With such a router, all requests lie between the one WELCOME and the first GOODBYE in either
      direction. */
  lemma {:induction false} RequestsPrecedeGoodbye(run: seq<Label>, i: nat, g: nat)
    requires GoodbyeAfterWelcome(Exec(run).output.trace)
    requires i < |Exec(run).output.trace|
    requires Exec(run).output.trace[i].Out? && IsRequest(Exec(run).output.trace[i].m)
    requires g < i
    ensures !IsEnd(Exec(run).output.trace[g])
  {
    var t := Exec(run).output.trace;
    Runs.ExecLife(run);
    FineAt(t, i);
    NotEarly(t);
    PrefixStory(t, i);
    OneWelcomeBefore(t, Exec(run).live, i);
    NoEndYet(t[..i], g);
  }

  lemma OneWelcomeBefore(t: seq<Event>, live: bool, i: nat)
    requires WelcomeOnce(t, live) && i < |t|
    ensures Tell(t[..i]).welcomes <= 1
  {
    var front := t[..|t| - 1];
    PrefixStory(front, i);
    assert front[..i] == t[..i];
  }

  // ---------------------------------------------------------------- how many GOODBYEs

  predicate SaysGoodbye(l: Label) {
    l.Receive? && Is(l.v, GOODBYE)
  }

  /** The two guards that let an answer to the router's GOODBYE out. */
  predicate Answering(s: State) {
    s.live && !s.flags.goodbyeSent && !s.flags.stopped
  }

  /** In every live run, a GOODBYE that is received closes the session, and is answered with one
      GOODBYE exactly when both guards are open, whatever else it carries. */
  lemma {:induction false} GoodbyeAnsweredIff(run: seq<Label>, v: Value, o: seq<Behaviour>)
    requires Exec(run).live && Is(v, GOODBYE)
    ensures var s, t := Exec(run), Exec(run + [Receive(v, o)]);
            && t.flags.sessionId == 0
            && t.output.sent == s.output.sent + (if Answering(s) then [Goodbye("wamp.error.goodbye_and_out")] else [])
            && Goodbyes(t.output.trace) == Goodbyes(s.output.trace) + if Answering(s) then 1 else 0
  {
    Runs.ExecSnoc(run, Receive(v, o));
    GoodbyeStep(Exec(run), v, o);
  }

  lemma GoodbyeStep(s: State, v: Value, o: seq<Behaviour>)
    requires s.live && Is(v, GOODBYE)
    ensures var t := Step(s, Receive(v, o));
            && t.flags.sessionId == 0
            && t.output.sent == s.output.sent + (if Answering(s) then [Goodbye("wamp.error.goodbye_and_out")] else [])
            && t.output.trace == Replied(s, v).output.trace
            && Goodbyes(t.output.trace) == Goodbyes(s.output.trace) + if Answering(s) then 1 else 0
  {
    GoodbyeSteps(s, v, o);
    RepliedCount(s, v);
  }

  lemma RepliedCount(s: State, v: Value)
    requires s.live && Is(v, GOODBYE)
    ensures var r := Replied(s, v);
            && r.flags.sessionId == 0
            && r.output.sent == s.output.sent + (if Answering(s) then [Goodbye("wamp.error.goodbye_and_out")] else [])
            && Goodbyes(r.output.trace) == Goodbyes(s.output.trace) + if Answering(s) then 1 else 0
  {
    var t := s.output.trace;
    assert (t + [In(v)])[..|t|] == t;
    assert (t + [In(v)] + [Out(Goodbye("wamp.error.goodbye_and_out"))])[..|t| + 1] == t + [In(v)];
  }

  /** Label number `j` of a run is a GOODBYE that is answered. */
  predicate AnswersAt(run: seq<Label>, j: nat)
    requires j < |run|
  {
    SaysGoodbye(run[j]) && Answering(Exec(run[..j]))
  }

  /** How many are. */
  function AnswerCount(run: seq<Label>): nat {
    if run == [] then 0
    else AnswerCount(run[..|run| - 1]) + if AnswersAt(run, |run| - 1) then 1 else 0
  }

  /** Messages sent after something else was sent are no answers. */
  lemma {:induction false} SendsNoReplies(a: seq<Event>, b: seq<Event>)
    requires Reentrancy.OnlySends(a, b)
    requires Tell(a).answering && |a| < |b| ==> !IsGoodbyeOut(b[|a|])
    ensures Tell(b).replies == Tell(a).replies && (|a| < |b| ==> !Tell(b).answering)
    decreases |b|
  {
    if |a| < |b| {
      var front := b[..|b| - 1];
      assert Reentrancy.OnlySends(a, front);
      SendsNoReplies(a, front);
      assert |front| > |a| || front == a;
    } else {
      assert a == b;
    }
  }

  /** A closure cannot answer the router's GOODBYE: it finds the session closed. */
  lemma ClosureNoGoodbye(s: State, ticket: nat)
    requires Runs.Steady(s) && s.flags.sessionId == 0
    ensures var t := RunClosure(s, ticket).state;
            t.output == s.output || (|t.output.trace| == |s.output.trace| + 1
                                     && !IsGoodbyeOut(t.output.trace[|s.output.trace|]))
  {
  }

  lemma FaultNoGoodbye(s: State)
    requires s.flags.sessionId == 0
    ensures Fault(s).state.output == s.output
  {
    if s.flags.left.Unset? {
      LeaveOutside(Runs.LeftSet(s));
    }
  }

  lemma LeaveOutside(s: State)
    requires s.flags.sessionId == 0
    ensures var r := CallApi(s, ApiLeave(CLOSE_REALM)); r.outcome.Raised? && r.state.output == s.output
  {
    var p := Prepare(s, ApiLeave(CLOSE_REALM));
    var q := p.(queue := p.queue.(pending := p.queue.pending - {s.queue.posted}));
    assert RunClosure(p, s.queue.posted) == RunLeave(q, Goodbye(CLOSE_REALM));
  }

  lemma ReceiveReplies(s: State, v: Value, o: seq<Behaviour>)
    requires s.live && !Is(v, GOODBYE)
    ensures Tell(Step(s, Receive(v, o)).output.trace).replies == Tell(s.output.trace).replies
  {
    Progress.StepOnward(s, Receive(v, o));
    TellSnoc(s.output.trace, In(v));
    SendsNoReplies(s.output.trace + [In(v)], Step(s, Receive(v, o)).output.trace);
  }

  /** A step that is no answered GOODBYE sends no answer. */
  lemma OtherStepReplies(s: State, l: Label)
    requires Runs.Steady(s) && s.live && !SaysGoodbye(l)
    ensures Tell(Step(s, l).output.trace).replies == Tell(s.output.trace).replies
  {
    match l {
      case Take(api) => Progress.TakeOnward(s, api);
      case Run(ticket) => ClosureReplies(s, ticket);
      case SpendToken(k, reply) =>
      case Receive(v, o) => ReceiveReplies(s, v, o);
      case ReadFails => FaultReplies(s);
    }
  }

  lemma ClosureReplies(s: State, ticket: nat)
    requires Runs.Steady(s) && s.live
    ensures Tell(RunClosure(s, ticket).state.output.trace).replies == Tell(s.output.trace).replies
  {
    Progress.StepOnward(s, Run(ticket));
    if Tell(s.output.trace).answering { ClosureNoGoodbye(s, ticket); }
    SendsNoReplies(s.output.trace, RunClosure(s, ticket).state.output.trace);
  }

  lemma FaultReplies(s: State)
    requires Runs.Steady(s) && s.live
    ensures Tell(Fault(s).state.output.trace).replies == Tell(s.output.trace).replies
  {
    Progress.FaultOnward(s);
    if Tell(s.output.trace).answering { FaultNoGoodbye(s); }
    SendsNoReplies(s.output.trace, Fault(s).state.output.trace);
  }

  lemma GoodbyeStepReplies(s: State, l: Label)
    requires s.live && SaysGoodbye(l)
    ensures Tell(Step(s, l).output.trace).replies == Tell(s.output.trace).replies + if Answering(s) then 1 else 0
  {
    GoodbyeStep(s, l.v, l.o);
    RepliedStory(s, l.v);
  }

  lemma {:induction false} AnswersAreCounted(run: seq<Label>)
    ensures Tell(Exec(run).output.trace).replies == AnswerCount(run)
  {
    if run != [] {
      var front, l := run[..|run| - 1], run[|run| - 1];
      AnswersAreCounted(front);
      Runs.ExecInv(front);
      if Exec(front).live {
        if SaysGoodbye(l) { GoodbyeStepReplies(Exec(front), l); } else { OtherStepReplies(Exec(front), l); }
      }
    }
  }

  /** With a router that says GOODBYE only after WELCOME, the client does not both answer a GOODBYE
      and say one of its own. */
  lemma {:induction false} OwnOrAnswer(t: seq<Event>)
    requires Tell(t).fine && !Tell(t).early && Tell(t).welcomes <= 1
    ensures Tell(t).owns == 0 || Tell(t).replies == 0
    ensures Tell(t).owns <= 1
    ensures Open(t) || Tell(t).welcomes == 0 ==> Tell(t).owns == 0 && Tell(t).replies == 0 && !Tell(t).answering
    ensures Tell(t).answering ==> Tell(t).owns == 0 || !Open(t)
  {
    if t != [] {
      OwnOrAnswer(t[..|t| - 1]);
      if Tell(t[..|t| - 1]).welcomes == 0 { NeverOpened(t[..|t| - 1]); }
    }
  }

  lemma OwnOrAnswerEver(t: seq<Event>, live: bool)
    requires Tell(t).fine && !Tell(t).early && WelcomeOnce(t, live)
    ensures (Tell(t).owns == 0 || Tell(t).replies == 0) && Tell(t).owns <= 1
  {
    if Tell(t).welcomes <= 1 {
      OwnOrAnswer(t);
    } else {
      OwnOrAnswer(t[..|t| - 1]);
    }
  }

  lemma {:induction false} SomeAnswer(run: seq<Label>) returns (j: nat)
    requires AnswerCount(run) > 0
    ensures j < |run| && AnswersAt(run, j) && AnswerCount(run) == AnswerCount(run[..j]) + 1
  {
    var front := run[..|run| - 1];
    if AnswersAt(run, |run| - 1) {
      j := |run| - 1;
    } else {
      j := SomeAnswer(front);
      assert front[..j] == run[..j];
    }
  }

  lemma {:induction false} CountGrows(run: seq<Label>, j: nat)
    requires j < |run| && AnswersAt(run, j)
    ensures AnswerCount(run) >= AnswerCount(run[..j]) + 1
  {
    if j < |run| - 1 {
      var front := run[..|run| - 1];
      assert front[..j] == run[..j];
      CountGrows(front, j);
    }
  }

  /** A GOODBYE before one that is answered was answered too: the guards only close. */
  lemma AnsweredBefore(run: seq<Label>, i: nat, j: nat)
    requires i < j < |run| && SaysGoodbye(run[i]) && AnswersAt(run, j)
    ensures AnswerCount(run) >= 2
  {
    GuardsWereOpen(run, i, j);
    assert run[..j][..i] == run[..i] && run[..j][i] == run[i];
    CountGrows(run[..j], i);
    CountGrows(run, j);
  }

  lemma GuardsWereOpen(run: seq<Label>, i: nat, j: nat)
    requires i < j < |run| && Answering(Exec(run[..j]))
    ensures Answering(Exec(run[..i]))
  {
    assert run[..i] + run[i..j] == run[..j];
    Progress.RunOnward(run[..i], run[i..j]);
    OpenBefore(Exec(run[..i]), Exec(run[..j]));
  }

  lemma OpenBefore(s: State, t: State)
    requires Progress.Onward(s, t) && Answering(t)
    ensures Answering(s)
  {
  }

  /** The exact condition.  With a router that says GOODBYE only after WELCOME, the client sends more
      than one GOODBYE if and only if a GOODBYE arrives, after an earlier one from the router, while
      m_goodbye_sent and m_stopped are unset. */
  lemma {:induction false} SecondGoodbyeIff(run: seq<Label>)
    requires GoodbyeAfterWelcome(Exec(run).output.trace)
    ensures Goodbyes(Exec(run).output.trace) > 1
            <==> exists i, j :: 0 <= i < j < |run| && SaysGoodbye(run[i]) && AnswersAt(run, j)
  {
    var t := Exec(run).output.trace;
    Runs.ExecLife(run);
    NotEarly(t);
    OwnOrAnswerEver(t, Exec(run).live);
    GoodbyesTold(t);
    AnswersAreCounted(run);
    if AnswerCount(run) > 1 {
      var j := SomeAnswer(run);
      var i := SomeAnswer(run[..j]);
      assert run[..j][i] == run[i];
      assert SaysGoodbye(run[i]) && AnswersAt(run, j);
    }
    if i, j :| 0 <= i < j < |run| && SaysGoodbye(run[i]) && AnswersAt(run, j) {
      AnsweredBefore(run, i, j);
    }
  }

  /** So a router that also says GOODBYE at most once gets at most one. */
  lemma {:induction false} AtMostOneGoodbye(run: seq<Label>)
    requires GoodbyeAfterWelcome(Exec(run).output.trace)
    requires forall i, j :: 0 <= i < j < |run| && SaysGoodbye(run[i]) ==> !SaysGoodbye(run[j])
    ensures Goodbyes(Exec(run).output.trace) <= 1
  {
    SecondGoodbyeIff(run);
  }

  /** With any router, never more than two. */
  lemma {:induction false} AtMostTwoGoodbyes(run: seq<Label>)
    ensures Goodbyes(Exec(run).output.trace) <= 2
  {
    Runs.ExecLife(run);
    GoodbyesTold(Exec(run).output.trace);
  }

  /** After a GOODBYE of its own, one that answers none, the client never sends another. */
  lemma {:induction false} ClosedForGood(run: seq<Label>, g: nat, h: nat)
    requires g < h < |Exec(run).output.trace|
    requires IsGoodbyeOut(Exec(run).output.trace[g]) && Open(Exec(run).output.trace[..g])
    ensures !IsGoodbyeOut(Exec(run).output.trace[h])
  {
    var t := Exec(run).output.trace;
    Runs.ExecLife(run);
    FineAt(t, h);
    OpenIsNoAnswer(t[..g]);
    assert t[..h][..g] == t[..g];
    OwnsStay(t[..h], g);
  }

  lemma {:induction false} OpenIsNoAnswer(t: seq<Event>)
    ensures Open(t) ==> !Tell(t).answering
  {
    if t != [] { OpenIsNoAnswer(t[..|t| - 1]); }
  }

  lemma {:induction false} OwnsStay(t: seq<Event>, g: nat)
    requires g < |t| && IsGoodbyeOut(t[g]) && !Tell(t[..g]).answering
    ensures Tell(t).owns > 0
  {
    var front := t[..|t| - 1];
    if g < |t| - 1 {
      assert front[..g] == t[..g];
      OwnsStay(front, g);
    }
  }

  // ---------------------------------------------------------------- stopping

  /** After the stop closure has taken effect nothing more is sent, whatever happens. */
  lemma {:induction false} StoppedStaysSilent(run: seq<Label>, more: seq<Label>)
    requires Exec(run).flags.stopped
    ensures Exec(run + more).flags.stopped && Exec(run + more).output.sent == Exec(run).output.sent
  {
    Progress.RunOnward(run, more);
  }

  /** In every run the future of stop() is ready exactly when the session is stopped, and stays ready. */
  lemma {:induction false} StopIsAnswered(run: seq<Label>, more: seq<Label>)
    ensures Exec(run).flags.halted.Set? <==> Exec(run).flags.stopped
    ensures Exec(run).flags.stopped ==> Exec(run + more).flags.halted == Set(())
  {
    Runs.ExecLife(run);
    Progress.RunOnward(run, more);
    var f := Exec(run + more).flags;
    assert f.halted.Set? ==> f.halted.value == ();
  }

  /** The futures of join(), leave() and stop() keep their values over every continuation. */
  lemma {:induction false} SessionFuturesStay(run: seq<Label>, more: seq<Label>)
    ensures Progress.PromisesStay(Exec(run).flags, Exec(run + more).flags)
  {
    Progress.RunOnward(run, more);
  }

  // ---------------------------------------------------------------- read errors

  /** A receive error reaches m_onRxError exactly for a joined session that nobody has tried to
      leave or stop; in every other state the handler throws before it gets there. */
  lemma {:induction false} RxErrorSignalledIff(run: seq<Label>)
    requires Exec(run).live
    ensures var s := Exec(run);
            var f := s.flags;
            && (Fault(s).state.signals == s.signals + 1 <==> Fault(s).outcome.Ok?)
            && (Fault(s).outcome.Ok? <==>
                  f.sessionId != 0 && f.left.Unset? && !f.goodbyeSent && !f.leaveTaken
                  && !f.stopped && f.halted.Unset? && !f.stopTaken)
  {
    FaultIff(Exec(run));
  }

  lemma FaultIff(s: State)
    ensures var f := s.flags;
            && (Fault(s).state.signals == s.signals + 1 <==> Fault(s).outcome.Ok?)
            && (Fault(s).outcome.Ok? <==>
                  f.sessionId != 0 && f.left.Unset? && !f.goodbyeSent && !f.leaveTaken
                  && !f.stopped && f.halted.Unset? && !f.stopTaken)
  {
    var a, r1 := Runs.LeftSet(s), CallApi(Runs.LeftSet(s), ApiLeave(CLOSE_REALM));
    LeaveResult(a, CLOSE_REALM);
    StopResult(r1.state);
  }

  /** leave() called on the io thread, by user code. */
  lemma LeaveResult(s: State, reason: string)
    ensures var r, f := CallApi(s, ApiLeave(reason)), s.flags;
            var goes := f.sessionId != 0 && !f.goodbyeSent;
            && r.state == s.(queue := r.state.queue,
                             flags := if goes then f.(goodbyeSent := true, sessionId := 0, leaveTaken := true) else f,
                             output := if goes then Send(s, Goodbye(reason)).output else s.output)
            && (r.outcome.Ok? <==> goes && !f.leaveTaken)
  {
    var p := Prepare(s, ApiLeave(reason));
    var q := p.(queue := p.queue.(pending := p.queue.pending - {s.queue.posted}));
    assert RunClosure(p, s.queue.posted) == RunLeave(q, Goodbye(reason));
  }

  /** join() likewise. */
  lemma JoinResult(s: State, realm: string)
    ensures var r := CallApi(s, ApiJoin(realm));
            && r.state == s.(queue := r.state.queue,
                             output := if s.flags.sessionId == 0 then Send(s, Hello(realm)).output else s.output)
            && (r.outcome.Ok? <==> s.flags.sessionId == 0)
  {
    var p := Prepare(s, ApiJoin(realm));
    var q := p.(queue := p.queue.(pending := p.queue.pending - {s.queue.posted}));
    assert RunClosure(p, s.queue.posted) == RunJoin(q, Hello(realm));
  }

  /** stop() likewise. */
  lemma StopResult(s: State)
    ensures var r, f := CallApi(s, ApiStop), s.flags;
            var goes := !f.stopped && f.sessionId == 0;
            && r.state == s.(queue := r.state.queue,
                             flags := if !goes then f
                                      else if f.halted.Set? then f.(stopped := true)
                                      else f.(stopped := true, halted := Set(()), stopTaken := true))
            && (r.outcome.Ok? <==> goes && f.halted.Unset? && !f.stopTaken)
  {
    var p := Prepare(s, ApiStop);
    var q := p.(queue := p.queue.(pending := p.queue.pending - {s.queue.posted}));
    assert RunClosure(p, s.queue.posted) == RunStop(q);
  }

  /** What a read error does to the session: the leave promise gets its text if it was open, and then the
      session is left, if it is joined and was not left before, and stopped; the application is told if
      all that went through, and otherwise an exception ends the run.  Nothing else changes. */
  predicate ReadFailed(s: State, t: State) {
    var f, g := s.flags, t.flags;
    var leaves := f.left.Unset? && f.sessionId != 0 && !f.goodbyeSent;
    var told := leaves && !f.leaveTaken && !f.stopped && !f.stopTaken;
    && (t.live <==> told)
    && t.signals == s.signals + (if told then 1 else 0)
    && g.left == (if f.left.Unset? then Set("socket closed") else f.left)
    && g.sessionId == (if leaves then 0 else f.sessionId) && g.goodbyeSent == (f.goodbyeSent || leaves)
    && g.stopped == (f.stopped || (leaves && !f.leaveTaken)) && (g.stopped <==> g.halted.Set?)
    && g.leaveTaken == (f.leaveTaken || leaves) && g.joined == f.joined
    && t.output.sent == s.output.sent
       + (if leaves && !f.stopped then [Goodbye("wamp.error.close_realm")] else [])
    && t.book == s.book && t.tables == s.tables && t.routes == s.routes
    && t.invocations == s.invocations && t.past == s.past
  }

  lemma FaultMeans(s: State)
    requires s.live && (s.flags.halted.Set? <==> s.flags.stopped)
    ensures ReadFailed(s, Fault(s).state)
  {
    if s.flags.left.Unset? {
      LeaveResult(Runs.LeftSet(s), CLOSE_REALM);
      StopResult(CallApi(Runs.LeftSet(s), ApiLeave(CLOSE_REALM)).state);
    }
  }

  /** A second read error finds the leave promise set, so no run signals twice. */
  lemma {:induction false} SignalsOnce(run: seq<Label>)
    ensures Exec(run).signals <= 1
    ensures Exec(run).signals == 1 ==> Exec(run).flags.left.Set?
  {
    if run != [] {
      SignalsOnce(run[..|run| - 1]);
      StepSignals(Exec(run[..|run| - 1]), run[|run| - 1]);
    }
  }

  lemma StepSignals(s: State, l: Label)
    requires s.signals <= 1 && (s.signals == 1 ==> s.flags.left.Set?)
    ensures Step(s, l).signals <= 1 && (Step(s, l).signals == 1 ==> Step(s, l).flags.left.Set?)
  {
    if s.live {
      Progress.StepOnward(s, l);
      match l {
        case Take(_) => Progress.ApiKeepsLive(s, l);
        case Run(_) => Progress.ApiKeepsLive(s, l);
        case SpendToken(_, _) => Progress.ApiKeepsLive(s, l);
        case Receive(v, o) => Progress.DeliverOnward(s, v, o);
        case ReadFails =>
          var a := Runs.LeftSet(s);
          Reentrancy.CallApiUndisturbed(a, ApiLeave(CLOSE_REALM));
          Reentrancy.CallApiUndisturbed(CallApi(a, ApiLeave(CLOSE_REALM)).state, ApiStop);
      }
    }
  }
}
