/** The domain announcer: a queue of interfaces, one transmit buffer, one timer. */
module Announcer {
  import opened Interfaces
  import opened Values
  import Sequences

  /** What goes out: the interface it leaves by, and the address the message carries. */
  datatype Datagram = Datagram(via: Address, wampIp: Address)

  /** One try to send; `thrown` when a socket call threw. */
  datatype Attempt = Attempt(datagram: Datagram, thrown: bool)

  datatype State = State(
    queue: seq<Address>,              // m_outgoingAnnouncements
    buffer: seq<Address>,             // m_txBuffer: empty, or one packed message
    count: nat,                       // m_txMessageCount
    armed: nat,                       // timer waits outstanding
    inFlight: nat,                    // sends outstanding, all of them out of the one buffer
    spoiled: bool,                    // history: the buffer was cleared during a send
    tries: seq<Attempt>,              // history
    taken: seq<Address>)              // history: every snapshot, one after the other

  const Idle: State := State([], [], 0, 0, 0, false, [], [])

  function HeartBeat(s: State, throws: bool): State {
    if s.queue == [] then s.(armed := s.armed + 1)
    else
      var front := s.queue[0];
      var t := s.(queue := s.queue[1..], buffer := [front], count := s.count + 1,
                  spoiled := s.spoiled || s.inFlight > 0,
                  tries := s.tries + [Attempt(Datagram(front, front), throws)]);
      if throws then t.(armed := t.armed + 1) else t.(inFlight := t.inFlight + 1)
  }

  function SendToAll(s: State, error: bool, snapshot: seq<Address>, throws: bool): State {
    if error then s
    else
      var t := s.(queue := s.queue + snapshot, taken := s.taken + snapshot);
      if s.queue == [] then HeartBeat(t, throws) else t
  }

  /** Completion handlers run one at a time on the io thread. */
  datatype Callback =
    | TimerFires(error: bool, snapshot: seq<Address>, throws: bool)
    | SendCompletes(throws: bool)

  function Step(s: State, c: Callback): State {
    match c
    case TimerFires(error, snapshot, throws) =>
      if s.armed == 0 then s else SendToAll(s.(armed := s.armed - 1), error, snapshot, throws)
    case SendCompletes(throws) =>
      if s.inFlight == 0 then s else HeartBeat(s.(inFlight := s.inFlight - 1), throws)
  }

  /** launch(), and then any callbacks. */
  datatype Run = Run(snapshot: seq<Address>, throws: bool, callbacks: seq<Callback>)

  function Exec(r: Run): State
    decreases |r.callbacks|
  {
    if r.callbacks == [] then SendToAll(Idle, false, r.snapshot, r.throws)
    else Step(Exec(Front(r)), r.callbacks[|r.callbacks| - 1])
  }

  function After(r: Run, c: Callback): (t: Run)
    ensures Exec(t) == Step(Exec(r), c)
  {
    var t := r.(callbacks := r.callbacks + [c]);
    assert Front(t) == r;
    t
  }

  function Front(r: Run): Run
    requires r.callbacks != []
  {
    r.(callbacks := r.callbacks[..|r.callbacks| - 1])
  }

  // ---------------------------------------------------------------- the object

  class DomainAnnouncer {
    var queue: seq<Address>
    var buffer: seq<Address>
    var count: nat
    var armed: nat
    var inFlight: nat
    ghost var spoiled: bool
    ghost var tries: seq<Attempt>
    ghost var taken: seq<Address>

    /** History: launch() and the callbacks since, if it has been called. */
    ghost var run: Option<Run>

    ghost function Now(): State
      reads this
    {
      State(queue, buffer, count, armed, inFlight, spoiled, tries, taken)
    }

    ghost predicate Valid()
      reads this
    {
      Now() == match run case None => Idle case Some(r) => Exec(r)
    }

    constructor ()
      ensures Valid() && run == None && armed == 0 && inFlight == 0
    {
      queue, buffer, count, armed, inFlight, spoiled, tries, taken := [], [], 0, 0, 0, false, [], [];
      run := None;
    }

    /** The one launch() of an announcer. */
    method Launch(snapshot: seq<Address>, throws: bool)
      requires Valid() && run == None
      modifies this
      ensures Valid() && run == Some(Run(snapshot, throws, []))
      ensures armed + inFlight == 1 && Vias(tries) + queue == snapshot
    {
      LaunchFacts(snapshot, throws);
      SendToAllInterfaces(false, snapshot, throws);
      run := Some(Run(snapshot, throws, []));
    }

    /** The timer's callback: silence follows exactly an error, or entries left in the queue. */
    method OnTimer(error: bool, snapshot: seq<Address>, throws: bool)
      requires Valid() && run.Some? && armed > 0
      modifies this
      ensures Valid() && run == Some(After(old(run).value, TimerFires(error, snapshot, throws)))
      ensures armed + inFlight == if error || old(queue) != [] then 0 else 1
      ensures !spoiled && Vias(tries) + queue == old(Vias(tries) + queue) + if error then [] else snapshot
    {
      ghost var c := TimerFires(error, snapshot, throws);
      ExecOk(run.value);
      TimerFacts(Now(), error, snapshot, throws);
      armed := armed - 1;
      SendToAllInterfaces(error, snapshot, throws);
      run := Some(After(run.value, c));
    }

    /** A send's callback: something is pending again, and the next entry, if any, has been tried. */
    method OnSent(throws: bool)
      requires Valid() && run.Some? && inFlight > 0
      modifies this
      ensures Valid() && run == Some(After(old(run).value, SendCompletes(throws)))
      ensures armed + inFlight == 1 && !spoiled
      ensures Vias(tries) + queue == old(Vias(tries) + queue)
      ensures |queue| == if old(queue) == [] then 0 else |old(queue)| - 1
    {
      ghost var c := SendCompletes(throws);
      ExecOk(run.value);
      SentFacts(Now(), throws);
      inFlight := inFlight - 1;
      SendHeartBeat(throws);
      run := Some(After(run.value, c));
    }

    method SendToAllInterfaces(error: bool, snapshot: seq<Address>, throws: bool)
      modifies this
      ensures run == old(run) && Now() == SendToAll(old(Now()), error, snapshot, throws)
    {
      if error {
        return;
      }
      var startAnnouncements := queue == [];
      for i := 0 to |snapshot|
        invariant run == old(run)
        invariant Now() == old(Now()).(queue := old(queue) + snapshot[..i], taken := old(taken) + snapshot[..i])
      {
        assert snapshot[..i + 1] == snapshot[..i] + [snapshot[i]];
        queue := queue + [snapshot[i]];
        taken := taken + [snapshot[i]];
      }
      assert snapshot[..|snapshot|] == snapshot;
      if startAnnouncements {
        SendHeartBeat(throws);
      }
    }

    method SendHeartBeat(throws: bool)
      modifies this
      ensures run == old(run) && Now() == HeartBeat(old(Now()), throws)
    {
      var sent := false;
      if queue != [] {
        spoiled := spoiled || inFlight > 0;
        buffer := [];
        count := count + 1;
        buffer := buffer + [queue[0]];
        tries := tries + [Attempt(Datagram(queue[0], buffer[0]), throws)];
        if !throws {
          inFlight := inFlight + 1;
          sent := true;
        }
        queue := queue[1..];
      }
      if !sent {
        armed := armed + 1;
      }
    }
  }

  // ---------------------------------------------------------------- what every run keeps

  /** The interfaces tried so far. */
  function Vias(tries: seq<Attempt>): seq<Address> {
    if tries == [] then [] else Vias(tries[..|tries| - 1]) + [tries[|tries| - 1].datagram.via]
  }

  /** A throw left entries in the queue, and the timer is to find them there. */
  predicate Stranded(s: State) {
    s.armed == 1 && s.queue != [] && s.tries != [] && s.tries[|s.tries| - 1].thrown
  }

  ghost predicate Ok(s: State) {
    && s.armed + s.inFlight <= 1
    && !s.spoiled
    && s.count == |s.tries|
    && Vias(s.tries) + s.queue == s.taken
    && (s.inFlight == 1 ==>
          s.tries != [] && s.buffer == [s.tries[|s.tries| - 1].datagram.wampIp] && !s.tries[|s.tries| - 1].thrown)
    && (s.armed == 1 ==> s.queue == [] || Stranded(s))
    && (forall i :: 0 <= i < |s.tries| ==> s.tries[i].datagram.wampIp == s.tries[i].datagram.via)
  }

  lemma SendKeeps(s: State, throws: bool)
    requires Ok(s) && s.armed == 0 && s.inFlight == 0
    ensures Ok(HeartBeat(s, throws))
    ensures HeartBeat(s, throws).armed + HeartBeat(s, throws).inFlight == 1
  {
    var t := HeartBeat(s, throws);
    if s.queue != [] {
      assert t.tries[..|s.tries|] == s.tries;
      assert Vias(t.tries) + t.queue == Vias(s.tries) + ([s.queue[0]] + s.queue[1..]);
      assert [s.queue[0]] + s.queue[1..] == s.queue;
    }
  }

  lemma SendToAllKeeps(s: State, error: bool, snapshot: seq<Address>, throws: bool)
    requires Ok(s) && s.armed == 0 && s.inFlight == 0
    ensures Ok(SendToAll(s, error, snapshot, throws))
    ensures var t := SendToAll(s, error, snapshot, throws);
            t.armed + t.inFlight == if error || s.queue != [] then 0 else 1
  {
    if !error {
      var t := s.(queue := s.queue + snapshot, taken := s.taken + snapshot);
      assert Vias(s.tries) + (s.queue + snapshot) == Vias(s.tries) + s.queue + snapshot;
      if s.queue == [] { SendKeeps(t, throws); }
    }
  }

  lemma StepKeeps(s: State, c: Callback)
    requires Ok(s)
    ensures Ok(Step(s, c))
  {
    match c {
      case TimerFires(error, snapshot, throws) =>
        if s.armed > 0 { SendToAllKeeps(s.(armed := 0), error, snapshot, throws); }
      case SendCompletes(throws) =>
        if s.inFlight > 0 { SendKeeps(s.(inFlight := 0), throws); }
    }
  }

  lemma LaunchFacts(snapshot: seq<Address>, throws: bool)
    ensures var t := SendToAll(Idle, false, snapshot, throws);
            t.armed + t.inFlight == 1 && Vias(t.tries) + t.queue == snapshot
  {
    SendToAllKeeps(Idle, false, snapshot, throws);
    assert SendToAll(Idle, false, snapshot, throws).taken == [] + snapshot;
  }

  lemma SentFacts(s: State, throws: bool)
    requires Ok(s) && s.inFlight > 0
    ensures var t := Step(s, SendCompletes(throws));
            && t.armed + t.inFlight == 1 && !t.spoiled && t.taken == s.taken && Vias(t.tries) + t.queue == t.taken
            && |t.queue| == if s.queue == [] then 0 else |s.queue| - 1
  {
    SendKeeps(s.(inFlight := 0), throws);
  }

  lemma TimerFacts(s: State, error: bool, snapshot: seq<Address>, throws: bool)
    requires Ok(s) && s.armed > 0
    ensures var t := Step(s, TimerFires(error, snapshot, throws));
            && t.armed + t.inFlight == (if error || s.queue != [] then 0 else 1)
            && !t.spoiled && Vias(t.tries) + t.queue == t.taken
            && t.taken == s.taken + if error then [] else snapshot
  {
    SendToAllKeeps(s.(armed := 0), error, snapshot, throws);
  }

  lemma {:induction false} ExecOk(r: Run)
    ensures Ok(Exec(r))
    decreases |r.callbacks|
  {
    if r.callbacks == [] {
      SendToAllKeeps(Idle, false, r.snapshot, r.throws);
    } else {
      ExecOk(Front(r));
      StepKeeps(Exec(Front(r)), r.callbacks[|r.callbacks| - 1]);
    }
  }

  // ---------------------------------------------------------------- theorems

  /** Nothing is armed and nothing is in flight: no callback will ever come. */
  predicate Silent(s: State) {
    s.armed == 0 && s.inFlight == 0
  }

  /** Between callbacks there is exactly one thing to wait for, timer or send, unless the announcer
      has gone silent; and it goes silent on exactly two callbacks: a timer that reports an error,
      and a timer that finds entries still queued. */
  lemma {:induction false} OnePending(r: Run, c: Callback)
    ensures var s := Exec(r);
            && (Silent(s) || s.armed + s.inFlight == 1)
            && (!Silent(s) ==> (Silent(Step(s, c)) <==>
                  s.armed == 1 && c.TimerFires? && (c.error || s.queue != [])))
            && (Silent(s) ==> Step(s, c) == s)
  {
    var s := Exec(r);
    ExecOk(r);
    match c {
      case TimerFires(error, snapshot, throws) =>
        if s.armed > 0 { SendToAllKeeps(s.(armed := 0), error, snapshot, throws); }
      case SendCompletes(throws) =>
        if s.inFlight > 0 { SendKeeps(s.(inFlight := 0), throws); }
    }
  }

  /** A callback of this run whose socket calls threw. */
  predicate Throws(c: Callback) { c.throws }

  /** With no throw and no timer error the announcer never goes silent. */
  lemma {:induction false} NeverSilent(r: Run)
    requires !r.throws && forall i :: 0 <= i < |r.callbacks| ==> !Throws(r.callbacks[i])
    requires forall i :: 0 <= i < |r.callbacks| ==> r.callbacks[i].TimerFires? ==> !r.callbacks[i].error
    ensures Exec(r).armed + Exec(r).inFlight == 1
    ensures Exec(r).armed == 1 ==> Exec(r).queue == []
    ensures forall i :: 0 <= i < |Exec(r).tries| ==> !Exec(r).tries[i].thrown
    decreases |r.callbacks|
  {
    ExecOk(r);
    if r.callbacks == [] {
      SendToAllKeeps(Idle, false, r.snapshot, r.throws);
    } else {
      var c := r.callbacks[|r.callbacks| - 1];
      assert !Throws(c);
      NeverSilent(Front(r));
      OnePending(Front(r), c);
    }
  }

  /** What waits to be sent when a callback makes its try, if it makes one. */
  function Waiting(s: State, c: Callback): seq<Address> {
    match c
    case TimerFires(error, snapshot, _) => if error || s.queue != [] then [] else snapshot
    case SendCompletes(_) => s.queue
  }

  predicate Due(s: State, c: Callback) {
    if c.TimerFires? then s.armed > 0 else s.inFlight > 0
  }

  /** A callback leaves entries for the timer to find if and only if its try throws with more entries
      queued behind the one tried; those are the ones it leaves. */
  lemma {:induction false} StrandedIff(r: Run, c: Callback)
    requires Due(Exec(r), c)
    ensures var s, t := Exec(r), Step(Exec(r), c);
            && (t.armed == 1 && t.queue != [] <==> c.throws && |Waiting(s, c)| > 1)
            && (c.throws && |Waiting(s, c)| > 1 ==> t.queue == Waiting(s, c)[1..] && Stranded(t))
  {
    ExecOk(r);
    StepKeeps(Exec(r), c);
    var s := Exec(r);
    if c.TimerFires? && !c.error && s.queue == [] { assert s.queue + c.snapshot == c.snapshot; }
  }

  /** So does launch(). */
  lemma StrandedAtOnceIff(snapshot: seq<Address>, throws: bool)
    ensures var t := Exec(Run(snapshot, throws, []));
            && (t.armed == 1 && t.queue != [] <==> throws && |snapshot| > 1)
            && (throws && |snapshot| > 1 ==> t.queue == snapshot[1..])
  {
    assert Idle.queue + snapshot == snapshot;
  }

  /** An announcer falls silent: the first socket call throws with an interface queued behind it, and
      the timer finds that one. */
  lemma SilentHappens()
    ensures Silent(Exec(Run([1, 2], true, [TimerFires(false, [], false)])))
  {
    var r := Run([1, 2], true, [TimerFires(false, [], false)]);
    assert Front(r) == Run([1, 2], true, []);
    StrandedAtOnceIff([1, 2], true);
  }

  /** The transmit buffer is never cleared during a send, and holds what is being sent. */
  lemma {:induction false} BufferIsSafe(r: Run)
    ensures !Exec(r).spoiled
    ensures Exec(r).inFlight == 1 ==>
              var s := Exec(r);
              s.tries != [] && s.buffer == [s.tries[|s.tries| - 1].datagram.wampIp]
  {
    ExecOk(r);
  }

  /** What has been tried, followed by what is still queued, is every snapshot in order: so each
      round goes through its interfaces once each, in set order, every message carrying the address
      it leaves by; and when nothing is queued all rounds are complete. */
  lemma {:induction false} RoundsAreComplete(r: Run)
    ensures var s := Exec(r);
            && Vias(s.tries) + s.queue == s.taken && s.count == |s.tries|
            && (forall i :: 0 <= i < |s.tries| ==> s.tries[i].datagram.wampIp == s.tries[i].datagram.via)
            && (s.queue == [] ==> Vias(s.tries) == s.taken)
  {
    ExecOk(r);
  }

  /** `n` sends complete, and no socket call throws. */
  function Complete(s: State, n: nat): State
    decreases n
  {
    if n == 0 then s else Complete(Step(s, SendCompletes(false)), n - 1)
  }

  /** One clean announcement to each interface, in order. */
  function Announcements(snapshot: seq<Address>): seq<Attempt> {
    if snapshot == [] then []
    else [Attempt(Datagram(snapshot[0], snapshot[0]), false)] + Announcements(snapshot[1..])
  }

  lemma {:induction false} QueueDrains(s: State)
    requires s.inFlight == 1 && s.armed == 0
    ensures var t := Complete(s, |s.queue| + 1);
            t.armed == 1 && t.inFlight == 0 && t.queue == [] && t.tries == s.tries + Announcements(s.queue)
    decreases |s.queue|
  {
    var t := Step(s, SendCompletes(false));
    if s.queue == [] {
      assert Complete(t, 0) == t;
    } else {
      QueueDrains(t);
      assert t.tries + Announcements(t.queue) == s.tries + Announcements(s.queue);
    }
  }

  /** A timer that fires with an empty queue starts a round: once as many sends have completed as
      there are interfaces, each interface has been sent to exactly once, in set order, with its own
      address, and the timer is armed for the next round. */
  lemma {:induction false} FullRound(r: Run, snapshot: seq<Address>)
    requires Exec(r).armed == 1 && Exec(r).queue == []
    ensures var end := Complete(Step(Exec(r), TimerFires(false, snapshot, false)), |snapshot|);
            && end.armed == 1 && end.inFlight == 0 && end.queue == []
            && end.tries == Exec(r).tries + Announcements(snapshot)
  {
    ExecOk(r);
    RoundFrom(Exec(r).(armed := 0), snapshot);
  }

  /** So does launch(). */
  lemma FirstRound(snapshot: seq<Address>)
    ensures var end := Complete(Exec(Run(snapshot, false, [])), |snapshot|);
            && end.armed == 1 && end.inFlight == 0 && end.queue == []
            && end.tries == Announcements(snapshot)
  {
    RoundFrom(Idle, snapshot);
    assert [] + Announcements(snapshot) == Announcements(snapshot);
  }

  lemma RoundFrom(s: State, snapshot: seq<Address>)
    requires s.armed == 0 && s.inFlight == 0 && s.queue == []
    ensures var end := Complete(SendToAll(s, false, snapshot, false), |snapshot|);
            && end.armed == 1 && end.inFlight == 0 && end.queue == []
            && end.tries == s.tries + Announcements(snapshot)
  {
    var t := SendToAll(s, false, snapshot, false);
    RoundStarts(s, snapshot);
    if snapshot == [] {
      assert Complete(t, 0) == t && s.tries + [] == s.tries;
    } else {
      QueueDrains(t);
      Sequences.Regroup(s.tries, [Attempt(Datagram(snapshot[0], snapshot[0]), false)], Announcements(snapshot[1..]));
    }
  }

  lemma RoundStarts(s: State, snapshot: seq<Address>)
    requires s.armed == 0 && s.inFlight == 0 && s.queue == []
    ensures var t := SendToAll(s, false, snapshot, false);
            if snapshot == [] then t.armed == 1 && t.inFlight == 0 && t.queue == [] && t.tries == s.tries
            else t.armed == 0 && t.inFlight == 1 && t.queue == snapshot[1..]
                 && t.tries == s.tries + [Attempt(Datagram(snapshot[0], snapshot[0]), false)]
  {
    assert s.queue + snapshot == snapshot;
  }
}
