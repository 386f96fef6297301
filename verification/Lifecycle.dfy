/** Joining and leaving: where the session's messages stand in the trace of one run. */
module Lifecycle {
  import opened Values
  import opened Wire
  import opened Session

  predicate Is(v: Value, code: nat) {
    v.Array? && |v.items| > 0 && v.items[0] == UInt(code)
  }

  /** The session id a WELCOME brings; 0 when it brings none. */
  function SessionGiven(v: Value): nat
    requires v.Array?
  {
    if |v.items| >= 2 && v.items[1].UInt? then v.items[1].n else 0
  }

  predicate IsWelcome(e: Event) { e.In? && Is(e.v, WELCOME) }
  predicate IsGoodbyeIn(e: Event) { e.In? && Is(e.v, GOODBYE) }
  predicate IsGoodbyeOut(e: Event) { e.Out? && e.m.Goodbye? }

  /** The session as the trace alone shows it. */
  datatype Story = Story(
    current: nat,      // id of the open session, 0 when none is open
    welcomes: nat,     // WELCOMEs received
    owns: nat,         // GOODBYEs sent on the client's own account
    replies: nat,      // GOODBYEs sent in answer to the router's
    answering: bool,   // the last event is a GOODBYE received
    early: bool,       // a GOODBYE came before any WELCOME
    fine: bool)        // every message so far was sent when it may be

  const Untold: Story := Story(0, 0, 0, 0, false, false, true)

  /** A WELCOME opens the session and a GOODBYE from either side closes it.  Requests may go out while
      it is open; a GOODBYE while it is open or right behind the router's, and none after the client's
      own. */
  function Next(st: Story, e: Event): Story {
    if IsWelcome(e) then st.(current := SessionGiven(e.v), welcomes := st.welcomes + 1, answering := false)
    else if IsGoodbyeIn(e) then st.(current := 0, answering := true, early := st.early || st.welcomes == 0)
    else if IsGoodbyeOut(e) then
      var u := if st.answering then st.(replies := st.replies + 1) else st.(owns := st.owns + 1);
      u.(current := 0, answering := false, fine := st.fine && st.owns == 0 && (st.answering || st.current != 0))
    else
      st.(answering := false, fine := st.fine && (e.Out? && IsRequest(e.m) ==> st.current != 0))
  }

  function Tell(t: seq<Event>): Story {
    if t == [] then Untold else Next(Tell(t[..|t| - 1]), t[|t| - 1])
  }

  lemma TellSnoc(t: seq<Event>, e: Event)
    ensures Tell(t + [e]) == Next(Tell(t), e)
  {
    assert (t + [e])[..|t|] == t;
  }

  predicate Open(t: seq<Event>) {
    Tell(t).current != 0
  }

  /** Number of GOODBYE messages the client sent. */
  function Goodbyes(t: seq<Event>): nat {
    if t == [] then 0
    else Goodbyes(t[..|t| - 1]) + if IsGoodbyeOut(t[|t| - 1]) then 1 else 0
  }

  lemma {:induction false} GoodbyesTold(t: seq<Event>)
    ensures Goodbyes(t) == Tell(t).owns + Tell(t).replies
  {
    if t != [] {
      var front, e := t[..|t| - 1], t[|t| - 1];
      GoodbyesTold(front);
      var st := Tell(front);
      assert Next(st, e).owns + Next(st, e).replies == st.owns + st.replies + if IsGoodbyeOut(e) then 1 else 0;
    }
  }

  // ---------------------------------------------------------------- the invariant

  /** Until the client has closed on its own account, it has sent at most the GOODBYE that answers
      the router's, and then its leave promise is set. */
  predicate GoodbyesExpected(f: Flags, st: Story) {
    && st.owns == 0
    && (f.left.Unset? ==> st.replies == 0)
    && (f.left.Set? ==> st.replies <= 1)
    && (f.left.Set? && !f.stopped ==> st.replies == 1)
  }

  /** The flags tell the same story as the trace. */
  predicate Matches(f: Flags, st: Story) {
    && st.welcomes <= 1
    && (f.joined.Set? <==> st.welcomes == 1)
    && (f.sessionId == st.current || (f.stopped && f.sessionId == 0))
    && (f.sessionId != 0 ==> f.joined.Set? && !f.goodbyeSent)
    && (f.goodbyeSent ==> f.joined.Set?)
    && (!f.goodbyeSent ==> GoodbyesExpected(f, st))
  }

  predicate FlagsOk(f: Flags, live: bool, st: Story) {
    && st.fine && st.owns + st.replies <= 2 && (st.answering ==> st.current == 0)
    && (f.halted.Set? <==> f.stopped)
    && (live ==> Matches(f, st))
  }

  /** A second WELCOME can only be the message that ended the run. */
  predicate WelcomeOnce(t: seq<Event>, live: bool) {
    Tell(t).welcomes <= 1 || (Tell(t).welcomes == 2 && !live && IsWelcome(t[|t| - 1]))
  }

  predicate LifeOk(s: State) {
    FlagsOk(s.flags, s.live, Tell(s.output.trace)) && WelcomeOnce(s.output.trace, s.live)
  }

  /** Agreement on what this invariant reads. */
  lemma SameLife(s: State, t: State)
    requires LifeOk(s) && t.flags == s.flags && t.live == s.live && t.output.trace == s.output.trace
    ensures LifeOk(t)
  {
  }

  // ---------------------------------------------------------------- sending

  /** Anything but a GOODBYE; inside a session when the kind asks for one. */
  lemma SendLife(s: State, m: WireMsg)
    requires LifeOk(s) && s.live && !m.Goodbye?
    requires IsRequest(m) ==> s.flags.sessionId != 0
    ensures LifeOk(Send(s, m))
  {
    TellSnoc(s.output.trace, Out(m));
  }

  lemma RunLeaveLife(s: State, m: WireMsg)
    requires LifeOk(s) && s.live && m.Goodbye?
    ensures LifeOk(RunLeave(s, m).state)
  {
    TellSnoc(s.output.trace, Out(m));
  }

  lemma RunAskLife(s: State, index: nat, m: WireMsg)
    requires LifeOk(s) && s.live && IsRequest(m)
    ensures LifeOk(RunAsk(s, index, m).state)
  {
    if s.flags.sessionId != 0 {
      SendLife(s, m);
      RunAskFrame(s, index, m);
      SameLife(Send(s, m), RunAsk(s, index, m).state);
    }
  }

  lemma RunAskFrame(s: State, index: nat, m: WireMsg)
    requires s.flags.sessionId != 0
    ensures var t, u := RunAsk(s, index, m).state, Send(s, m);
            t.flags == u.flags && t.live == u.live && t.output == u.output
  {
  }

  lemma RunReplyLife(s: State, k: nat, m: WireMsg)
    requires LifeOk(s) && s.live && !m.Goodbye? && !IsRequest(m)
    ensures LifeOk(RunReply(s, k, m).state)
  {
    SendLife(s, m);
    SameLife(Send(s, m), RunReply(s, k, m).state);
  }

  lemma RunStopLife(s: State)
    requires LifeOk(s)
    ensures LifeOk(RunStop(s).state)
  {
  }

  lemma RunBodyLife(s: State, c: Closure)
    requires LifeOk(s) && s.live && Fitting(c)
    ensures LifeOk(RunBody(s, c).state)
  {
    match c {
      case AskClosure(index, m) => RunAskLife(s, index, m);
      case JoinClosure(m) => SendLife(s, m);
      case LeaveClosure(m) => RunLeaveLife(s, m);
      case StopClosure => RunStopLife(s);
      case ReplyClosure(k, m) => RunReplyLife(s, k, m);
    }
  }

  // ---------------------------------------------------------------- receiving

  lemma ReceiveLife(s: State, v: Value)
    requires LifeOk(s) && s.live && !Is(v, WELCOME) && !Is(v, GOODBYE)
    ensures LifeOk(Received(s, v))
  {
    TellSnoc(s.output.trace, In(v));
  }

  /** After an exception nothing more is claimed about the flags. */
  lemma EndLife(s: State)
    requires LifeOk(s)
    ensures LifeOk(s.(live := false))
  {
  }

  lemma WelcomeLife(s: State, v: Value, o: seq<Behaviour>)
    requires LifeOk(s) && s.live && Is(v, WELCOME)
    ensures LifeOk(Deliver(s, v, o).state)
  {
    var r := Welcome(Received(s, v), v.items);
    TellSnoc(s.output.trace, In(v));
    assert GotMessage(Received(s, v), v, o) == r;
    assert r.state.output.trace == s.output.trace + [In(v)] && r.state.live;
    WelcomeFlags(s, v.items);
    if r.outcome.Ok? {
      WelcomeMatches(s.flags, Tell(s.output.trace), v);
    } else {
      WelcomeEnds(s.flags, r.state.flags, Tell(s.output.trace), v);
    }
  }

  lemma WelcomeMatches(f: Flags, st: Story, v: Value)
    requires FlagsOk(f, true, st) && Is(v, WELCOME) && |v.items| >= 2 && v.items[1].UInt? && f.joined.Unset?
    ensures FlagsOk(f.(sessionId := v.items[1].n, joined := Set(v.items[1].n)), true, Next(st, In(v)))
  {
  }

  lemma WelcomeEnds(f: Flags, g: Flags, st: Story, v: Value)
    requires FlagsOk(f, true, st) && Is(v, WELCOME) && g.halted == f.halted && g.stopped == f.stopped
    ensures FlagsOk(g, false, Next(st, In(v)))
  {
  }

  lemma WelcomeFlags(s: State, m: seq<Value>)
    requires |m| > 0
    ensures var r := Welcome(s, m);
            && r.state.flags.halted == s.flags.halted && r.state.flags.stopped == s.flags.stopped
            && (r.outcome.Ok? ==>
                  |m| >= 2 && m[1].UInt? && s.flags.joined.Unset?
                  && r.state.flags == s.flags.(sessionId := m[1].n, joined := Set(m[1].n)))
  {
  }

  /** A GOODBYE closes the session first. */
  function Closed(s: State, v: Value): State {
    Received(s, v).(flags := s.flags.(sessionId := 0))
  }

  function Replied(s: State, v: Value): State {
    if s.flags.goodbyeSent then Closed(s, v) else Send(Closed(s, v), Goodbye(GOODBYE_AND_OUT))
  }

  lemma RepliedStory(s: State, v: Value)
    requires Is(v, GOODBYE)
    ensures var st, u := Tell(s.output.trace), Tell(Replied(s, v).output.trace);
            u == if !s.flags.goodbyeSent && !s.flags.stopped then Next(Next(st, In(v)), Out(Goodbye(GOODBYE_AND_OUT)))
                 else Next(st, In(v))
  {
    TellSnoc(s.output.trace, In(v));
    TellSnoc(s.output.trace + [In(v)], Out(Goodbye(GOODBYE_AND_OUT)));
  }

  lemma RepliedFlags(s: State, v: Value)
    requires FlagsOk(s.flags, s.live, Tell(s.output.trace)) && s.live && Is(v, GOODBYE)
    ensures var r := Replied(s, v);
            && FlagsOk(r.flags, false, Tell(r.output.trace)) && Tell(r.output.trace).welcomes <= 1
            && (s.flags.left.Unset? ==>
                  forall reason :: FlagsOk(r.flags.(left := Set(reason)), true, Tell(r.output.trace)))
  {
    RepliedStory(s, v);
  }

  lemma GoodbyeLife(s: State, v: Value, o: seq<Behaviour>)
    requires LifeOk(s) && s.live && Is(v, GOODBYE)
    ensures LifeOk(Deliver(s, v, o).state)
  {
    RepliedFlags(s, v);
    GoodbyeSteps(s, v, o);
  }

  lemma GoodbyeSteps(s: State, v: Value, o: seq<Behaviour>)
    requires Is(v, GOODBYE)
    ensures var t, d := Deliver(s, v, o), Replied(s, v);
            && t.state.output == d.output
            && (t.outcome.Raised? ==> t.state.flags == d.flags && !t.state.live)
            && (t.outcome.Ok? ==>
                  && s.flags.left.Unset? && |v.items| >= 3 && Text(v.items[2]).Some?
                  && t.state.flags == d.flags.(left := Set(Text(v.items[2]).value)) && t.state.live == s.live)
  {
    assert GotMessage(Received(s, v), v, o) == ProcessGoodbye(Received(s, v), v.items);
  }

  // ---------------------------------------------------------------- what the story means

  predicate Ends(e: Event) {
    IsWelcome(e) || IsGoodbyeIn(e) || IsGoodbyeOut(e)
  }

  ghost predicate OpenedAt(t: seq<Event>, w: nat)
    requires w < |t|
  {
    IsWelcome(t[w]) && SessionGiven(t[w].v) != 0 && forall j :: w < j < |t| ==> !Ends(t[j])
  }

  /** The session is open exactly when some WELCOME with a non-zero id has come and neither side has
      sent a GOODBYE, and no other WELCOME has come, since; and its id is that WELCOME's. */
  lemma {:induction false} OpenMeans(t: seq<Event>)
    ensures Open(t) <==> exists w :: 0 <= w < |t| && OpenedAt(t, w)
    ensures forall w :: 0 <= w < |t| && OpenedAt(t, w) ==> Tell(t).current == SessionGiven(t[w].v)
  {
    if t != [] {
      var n := |t| - 1;
      var front, e := t[..n], t[n];
      OpenMeans(front);
      forall w | 0 <= w < n
        ensures OpenedAt(t, w) <==> OpenedAt(front, w) && !Ends(e)
      {
        OpenedLonger(t, w);
      }
      if Open(t) {
        if IsWelcome(e) {
          assert OpenedAt(t, n);
        } else {
          var w :| 0 <= w < |front| && OpenedAt(front, w);
          assert OpenedAt(t, w);
        }
      }
    }
  }

  lemma OpenedLonger(t: seq<Event>, w: nat)
    requires w < |t| - 1
    ensures OpenedAt(t, w) <==> OpenedAt(t[..|t| - 1], w) && !Ends(t[|t| - 1])
  {
    var front := t[..|t| - 1];
    assert forall j :: 0 <= j < |front| ==> front[j] == t[j];
  }
}
